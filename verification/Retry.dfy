/**
 Retrying calls under idempotency keys, for any service whose calls leave the state alone when
 they fail or when their key has been used, and use up their key when they succeed.
 */
module Retry {
  import opened Ordering

  /** One call: the state after it, and its response, None if it raised. */
  datatype Step<S, R> = Step(after: S, response: Option<R>)

  type Service<!S, !C, R> = (S, C) -> Step<S, R>

  /** scope names the idempotency key of a call, if it has one; used lists the keys taken. */
  ghost predicate Keyed<S(!new), C(!new), R(!new), K(!new)>(serve: Service<S, C, R>, scope: C -> Option<K>,
          used: S -> set<K>)
  {
    && (forall s, c :: serve(s, c).response.None? ==> serve(s, c).after == s)
    && (forall s, c :: scope(c).Some? && scope(c).value in used(s) ==> serve(s, c).after == s)
    && (forall s, c :: used(serve(s, c).after) ==
          used(s) + if serve(s, c).response.Some? && scope(c).Some? then {scope(c).value} else {})
  }

  /** The state after the first n calls. */
  function After<S, C, R>(serve: Service<S, C, R>, s: S, calls: seq<C>, n: nat): S
    requires n <= |calls|
  {
    if n == 0 then s else serve(After(serve, s, calls, n - 1), calls[n - 1]).after
  }

  /** What the i-th call returned. */
  function ResponseAt<S, C, R>(serve: Service<S, C, R>, s: S, calls: seq<C>, i: nat): Option<R>
    requires i < |calls|
  {
    serve(After(serve, s, calls, i), calls[i]).response
  }

  /** The i-th call succeeded, and its key was free at the start and no earlier call with that key
      succeeded. */
  predicate FirstSuccess<S, C, R, K(==)>(serve: Service<S, C, R>, scope: C -> Option<K>, used: S -> set<K>, s: S,
                                         calls: seq<C>, i: nat)
    requires i < |calls|
  {
    && ResponseAt(serve, s, calls, i).Some?
    && (scope(calls[i]).Some? ==>
          scope(calls[i]).value !in used(s)
          && forall j: nat | j < i :: scope(calls[j]) == scope(calls[i]) ==> ResponseAt(serve, s, calls, j).None?)
  }

  /** Of the first n calls, those that were the first success of their key, or succeeded without one. */
  function Kept<S, C, R, K(==)>(serve: Service<S, C, R>, scope: C -> Option<K>, used: S -> set<K>, s: S, calls: seq<C>,
                                n: nat): seq<C>
    requires n <= |calls|
  {
    if n == 0 then [] else
      var before := Kept(serve, scope, used, s, calls, n - 1);
      if FirstSuccess(serve, scope, used, s, calls, n - 1) then before + [calls[n - 1]] else before
  }

  /** A key is taken exactly if it was at the start or a call with it has succeeded. */
  lemma {:induction false} UsedExactly<S(!new), C(!new), R(!new), K(!new)>(serve: Service<S, C, R>,
          scope: C -> Option<K>, used: S -> set<K>, s: S, calls: seq<C>, n: nat, k: K)
    requires Keyed(serve, scope, used) && n <= |calls|
    ensures k in used(After(serve, s, calls, n)) <==>
      k in used(s) || exists j: nat | j < n :: scope(calls[j]) == Some(k) && ResponseAt(serve, s, calls, j).Some?
  {
    if n > 0 {
      UsedExactly(serve, scope, used, s, calls, n - 1, k);
      var middle, c := After(serve, s, calls, n - 1), calls[n - 1];
      assert used(serve(middle, c).after) == used(middle)
        + if serve(middle, c).response.Some? && scope(c).Some? then {scope(c).value} else {};
      assert ResponseAt(serve, s, calls, n - 1) == serve(middle, c).response;
    }
  }

  /** A call that is not the first success of its key changes nothing. */
  lemma OthersChangeNothing<S(!new), C(!new), R(!new), K(!new)>(serve: Service<S, C, R>, scope: C -> Option<K>,
          used: S -> set<K>, s: S, calls: seq<C>, i: nat)
    requires Keyed(serve, scope, used) && i < |calls| && !FirstSuccess(serve, scope, used, s, calls, i)
    ensures After(serve, s, calls, i + 1) == After(serve, s, calls, i)
  {
    var middle, c := After(serve, s, calls, i), calls[i];
    if serve(middle, c).response.Some? {
      UsedExactly(serve, scope, used, s, calls, i, scope(c).value);
      assert scope(c).value in used(middle);
    }
  }

  /** The i-th call, if it is the first success of its key, keeps what p says of the state and of the
      calls kept so far. */
  predicate KeepsAt<S, C, R, K(==)>(serve: Service<S, C, R>, scope: C -> Option<K>, used: S -> set<K>, s: S,
                                    calls: seq<C>, p: (S, seq<C>) -> bool, i: nat)
    requires i < |calls|
  {
    var kept := Kept(serve, scope, used, s, calls, i);
    FirstSuccess(serve, scope, used, s, calls, i) && p(After(serve, s, calls, i), kept) ==>
      p(After(serve, s, calls, i + 1), kept + [calls[i]])
  }

  /** What every first success keeps holds after any calls. */
  lemma {:induction false} KeptInduction<S(!new), C(!new), R(!new), K(!new)>(serve: Service<S, C, R>,
          scope: C -> Option<K>, used: S -> set<K>, s: S, calls: seq<C>, p: (S, seq<C>) -> bool, n: nat)
    requires Keyed(serve, scope, used) && n <= |calls| && p(s, [])
    requires forall i: nat | i < |calls| :: KeepsAt(serve, scope, used, s, calls, p, i)
    ensures p(After(serve, s, calls, n), Kept(serve, scope, used, s, calls, n))
  {
    if n > 0 {
      KeptInduction(serve, scope, used, s, calls, p, n - 1);
      assert KeepsAt(serve, scope, used, s, calls, p, n - 1);
      if !FirstSuccess(serve, scope, used, s, calls, n - 1) {
        OthersChangeNothing(serve, scope, used, s, calls, n - 1);
      }
    }
  }

  lemma {:induction false} AfterPrefix<S, C, R>(serve: Service<S, C, R>, s: S, calls: seq<C>, more: seq<C>, n: nat)
    requires n <= |calls|
    ensures After(serve, s, calls + more, n) == After(serve, s, calls, n)
  {
    if n > 0 {
      AfterPrefix(serve, s, calls, more, n - 1);
      assert (calls + more)[n - 1] == calls[n - 1];
    }
  }

  /** Retry erasure: the state after any calls is the state after only the first success of each key. */
  lemma {:induction false} Erasure<S(!new), C(!new), R(!new), K(!new)>(serve: Service<S, C, R>, scope: C -> Option<K>,
          used: S -> set<K>, s: S, calls: seq<C>, n: nat)
    requires Keyed(serve, scope, used) && n <= |calls|
    ensures var kept := Kept(serve, scope, used, s, calls, n);
      After(serve, s, kept, |kept|) == After(serve, s, calls, n)
  {
    if n > 0 {
      Erasure(serve, scope, used, s, calls, n - 1);
      var before := Kept(serve, scope, used, s, calls, n - 1);
      if FirstSuccess(serve, scope, used, s, calls, n - 1) {
        OneMoreCall(serve, s, before, calls, n - 1);
      } else {
        OthersChangeNothing(serve, scope, used, s, calls, n - 1);
      }
    }
  }

  /** The same call keeps equal states equal. */
  lemma OneMoreCall<S, C, R>(serve: Service<S, C, R>, s: S, before: seq<C>, calls: seq<C>, i: nat)
    requires i < |calls| && After(serve, s, before, |before|) == After(serve, s, calls, i)
    ensures After(serve, s, before + [calls[i]], |before + [calls[i]]|) == After(serve, s, calls, i + 1)
  {
    AfterPrefix(serve, s, before, [calls[i]], |before|);
  }
}
