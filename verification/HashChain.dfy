/**
 Hash chains, for every hash function whose digests have 64 characters.  No collision-freedom
 is assumed: where a claim needs it, the lemma hands back the colliding inputs instead.
 */
module HashChain {
  import opened Ordering

  const GENESIS := "GENESIS"

  /** What is hashed: the columns of a record together with the hash of its predecessor. */
  datatype Material<C> = Material(content: C, previous: string)

  datatype Link<C> = Link(content: C, previous: string, hash: string)

  /** The digest is 64 hexadecimal characters, so it is never "GENESIS" and never empty. */
  ghost predicate HexDigest<C(!new)>(h: Material<C> -> string) {
    forall m :: |h(m)| == 64
  }

  ghost predicate Collision<C>(h: Material<C> -> string, m: Material<C>, n: Material<C>) {
    m != n && h(m) == h(n)
  }

  function Head<C>(chain: seq<Link<C>>): string {
    if chain == [] then GENESIS else chain[|chain| - 1].hash
  }

  /** The record at i points at its predecessor and carries its own hash. */
  predicate GoodAt<C>(h: Material<C> -> string, chain: seq<Link<C>>, i: nat)
    requires i < |chain|
  {
    chain[i].previous == Head(chain[..i]) && h(Material(chain[i].content, chain[i].previous)) == chain[i].hash
  }

  ghost predicate Verifies<C>(h: Material<C> -> string, chain: seq<Link<C>>) {
    forall i: nat | i < |chain| :: GoodAt(h, chain, i)
  }

  lemma PrefixVerifies<C>(h: Material<C> -> string, chain: seq<Link<C>>, k: nat)
    requires Verifies(h, chain) && k <= |chain|
    ensures Verifies(h, chain[..k])
  {
    forall i: nat | i < k ensures GoodAt(h, chain[..k], i) {
      assert chain[..k][..i] == chain[..i];
      assert GoodAt(h, chain, i);
    }
  }

  lemma AppendVerifies<C>(h: Material<C> -> string, chain: seq<Link<C>>, x: Link<C>)
    ensures Verifies(h, chain + [x]) <==>
      Verifies(h, chain) && x.previous == Head(chain) && h(Material(x.content, x.previous)) == x.hash
  {
    var longer := chain + [x];
    forall i: nat | i < |chain| ensures GoodAt(h, longer, i) == GoodAt(h, chain, i) {
      assert longer[..i] == chain[..i];
    }
    assert longer[..|chain|] == chain;
    assert GoodAt(h, longer, |chain|) <==> x.previous == Head(chain) && h(Material(x.content, x.previous)) == x.hash;
  }

  /** What a verification reports: (valid, count, broken hash). */
  datatype Verdict = Verdict(valid: bool, count: nat, broken: Option<string>)

  /** count is the length of the longest verifying prefix, and the first bad record is named. */
  ghost predicate IsVerdict<C>(h: Material<C> -> string, chain: seq<Link<C>>, v: Verdict) {
    && v.count <= |chain|
    && (forall i: nat | i < v.count :: GoodAt(h, chain, i))
    && v.valid == (v.count == |chain|)
    && (if v.count < |chain| then !GoodAt(h, chain, v.count) && v.broken == Some(chain[v.count].hash)
        else v.broken == None)
  }

  /** The verdict is unique; it says valid exactly for chains that verify, and otherwise
      no prefix longer than count verifies. */
  lemma VerdictExact<C>(h: Material<C> -> string, chain: seq<Link<C>>, v: Verdict)
    requires IsVerdict(h, chain, v)
    ensures v.valid <==> Verifies(h, chain)
    ensures forall k: nat | k <= |chain| :: Verifies(h, chain[..k]) <==> k <= v.count
    ensures forall w: Verdict :: IsVerdict(h, chain, w) ==> w == v
  {
    forall k: nat | k <= |chain| ensures Verifies(h, chain[..k]) <==> k <= v.count {
      forall i: nat | i < k ensures GoodAt(h, chain[..k], i) == GoodAt(h, chain, i) {
        assert chain[..k][..i] == chain[..i];
      }
      if v.count < k { assert !GoodAt(h, chain[..k], v.count); }
    }
    assert chain[..|chain|] == chain;
  }

  /** Two verifying chains with the same last hash are the same chain, or show a collision. */
  lemma {:induction false} Binding<C(!new)>(h: Material<C> -> string, a: seq<Link<C>>, b: seq<Link<C>>)
      returns (m: Material<C>, n: Material<C>)
    requires HexDigest(h)
    requires Verifies(h, a) && Verifies(h, b)
    requires a != [] && b != [] && Head(a) == Head(b)
    ensures a == b || Collision(h, m, n)
  {
    var x, y := a[|a| - 1], b[|b| - 1];
    var a', b' := a[..|a| - 1], b[..|b| - 1];
    m, n := Material(x.content, x.previous), Material(y.content, y.previous);
    assert GoodAt(h, a, |a| - 1) && GoodAt(h, b, |b| - 1);
    if m == n {
      PrefixVerifies(h, a, |a| - 1);
      PrefixVerifies(h, b, |b| - 1);
      assert Head(a') == Head(b');
      if a' != [] { assert GoodAt(h, a', |a'| - 1) && |Head(a')| == 64; }
      if b' != [] { assert GoodAt(h, b', |b'| - 1) && |Head(b')| == 64; }
      if a' != [] && b' != [] { m, n := Binding(h, a', b'); }
      assert a == a' + [x] && b == b' + [y];
    }
  }

  /** No hash repeats along a verifying chain unless the hash function collides. */
  lemma {:induction false} NoRepeat<C(!new)>(h: Material<C> -> string, chain: seq<Link<C>>, i: nat, j: nat)
      returns (m: Material<C>, n: Material<C>)
    requires HexDigest(h) && Verifies(h, chain)
    requires i < j < |chain| && chain[i].hash == chain[j].hash
    ensures Collision(h, m, n)
  {
    var a, b := chain[..i + 1], chain[..j + 1];
    PrefixVerifies(h, chain, i + 1);
    PrefixVerifies(h, chain, j + 1);
    m, n := Binding(h, a, b);
    assert |a| != |b|;
  }
}
