/** Total orders, and what SELECT ... ORDER BY and Python's sorted() compute with them. */
module Ordering {

  datatype Option<+T> = None | Some(value: T)

  ghost predicate TotalOrder<T(!new)>(le: (T, T) -> bool) {
    && (forall x, y :: le(x, y) || le(y, x))
    && (forall x, y :: le(x, y) && le(y, x) ==> x == y)
    && (forall x, y, z :: le(x, y) && le(y, z) ==> le(x, z))
  }

  ghost predicate SortedBy<T>(le: (T, T) -> bool, s: seq<T>) {
    forall i, j | 0 <= i < j < |s| :: le(s[i], s[j])
  }

  ghost predicate Distinct<T>(s: seq<T>) {
    forall i, j | 0 <= i < j < |s| :: s[i] != s[j]
  }

  /** r lists exactly the elements of s, each once, in the order le. */
  ghost predicate Lists<T(!new)>(le: (T, T) -> bool, r: seq<T>, s: set<T>) {
    SortedBy(le, r) && Distinct(r) && forall x :: x in r <==> x in s
  }

  lemma {:induction false} LeastExists<T(!new)>(le: (T, T) -> bool, s: set<T>) returns (m: T)
    requires TotalOrder(le) && s != {}
    ensures m in s && forall x | x in s :: le(m, x)
  {
    m :| m in s;
    assert le(m, m);
    if s != {m} {
      var rest := s - {m};
      var least := LeastExists(le, rest);
      assert forall x | x in s :: x == m || x in rest;
      if le(least, m) { m := least; } else { OrderDown(le, m, least, rest); }
    }
  }

  lemma OrderDown<T(!new)>(le: (T, T) -> bool, m: T, least: T, s: set<T>)
    requires TotalOrder(le) && !le(least, m)
    requires forall x | x in s :: le(least, x)
    ensures forall x | x in s :: le(m, x)
  {
    assert le(m, least);
  }

  lemma HasLeast<T(!new)>(le: (T, T) -> bool, s: set<T>)
    requires TotalOrder(le) && s != {}
    ensures exists m | m in s :: forall x | x in s :: le(m, x)
  {
    var m := LeastExists(le, s);
  }

  /** The elements of a finite set in increasing order: ORDER BY over a unique key, or sorted(set). */
  function SortSet<T(==, !new)>(le: (T, T) -> bool, s: set<T>): (r: seq<T>)
    requires TotalOrder(le)
    ensures Lists(le, r, s)
    ensures |r| == |s|
  {
    if s == {} then []
    else
      HasLeast(le, s);
      var m :| m in s && forall x | x in s :: le(m, x);
      var rest := SortSet(le, s - {m});
      assert m !in rest;
      assert forall x | x in rest :: le(m, x);
      [m] + rest
  }

  lemma HeadIsListed<T(!new)>(le: (T, T) -> bool, b: seq<T>, s: set<T>)
    requires Lists(le, b, s)
    ensures b != [] ==> b[0] in s
  {}

  /** A sorted listing without repetition is determined by its set of elements. */
  lemma {:induction false} ListingIsUnique<T(!new)>(le: (T, T) -> bool, a: seq<T>, b: seq<T>, s: set<T>)
    requires TotalOrder(le)
    requires Lists(le, a, s) && Lists(le, b, s)
    ensures a == b
  {
    if a == [] {
      HeadIsListed(le, b, s);
    } else {
      assert a[0] in s && a[0] in b;
      assert b[0] in s && b[0] in a;
      assert le(a[0], b[0]) by {
        var k :| 0 <= k < |a| && a[k] == b[0];
        assert le(a[0], a[0]);
      }
      assert le(b[0], a[0]) by {
        var k :| 0 <= k < |b| && b[k] == a[0];
        assert le(b[0], b[0]);
      }
      TailLists(le, a, s);
      TailLists(le, b, s);
      ListingIsUnique(le, a[1..], b[1..], s - {a[0]});
      assert a == [a[0]] + a[1..] && b == [b[0]] + b[1..];
    }
  }

  lemma TailLists<T(!new)>(le: (T, T) -> bool, a: seq<T>, s: set<T>)
    requires Lists(le, a, s) && a != []
    ensures Lists(le, a[1..], s - {a[0]})
  {
    forall x ensures x in a[1..] <==> x in s - {a[0]} {
      if x in a[1..] {
        var k :| 0 <= k < |a| - 1 && a[1..][k] == x;
        assert a[k + 1] == x;
      }
      if x in s - {a[0]} {
        var k :| 0 <= k < |a| && a[k] == x;
        assert a[1..][k - 1] == x;
      }
    }
  }

  lemma SortSetIs<T(!new)>(le: (T, T) -> bool, a: seq<T>, s: set<T>)
    requires TotalOrder(le)
    requires Lists(le, a, s)
    ensures SortSet(le, s) == a
  {
    ListingIsUnique(le, SortSet(le, s), a, s);
  }

  function InsertSorted<T>(le: (T, T) -> bool, x: T, s: seq<T>): seq<T> {
    if s == [] then [x]
    else if le(x, s[0]) then [x] + s
    else [s[0]] + InsertSorted(le, x, s[1..])
  }

  /** Python's sorted() on a list. */
  function Sorted<T>(le: (T, T) -> bool, s: seq<T>): seq<T> {
    if s == [] then [] else InsertSorted(le, s[0], Sorted(le, s[1..]))
  }

  lemma {:induction false} InsertLists<T(!new)>(le: (T, T) -> bool, x: T, r: seq<T>, s: set<T>)
    requires TotalOrder(le) && Lists(le, r, s) && x !in s
    ensures Lists(le, InsertSorted(le, x, r), s + {x})
  {
    if r == [] {
    } else if le(x, r[0]) {
      ListsBefore(le, x, r, s);
    } else {
      TailLists(le, r, s);
      InsertLists(le, x, r[1..], s - {r[0]});
      HeadBelow(le, r, s);
      assert le(r[0], x);
      ListsBefore(le, r[0], InsertSorted(le, x, r[1..]), s - {r[0]} + {x});
      assert s - {r[0]} + {x} + {r[0]} == s + {x};
    }
  }

  lemma HeadBelow<T(!new)>(le: (T, T) -> bool, r: seq<T>, s: set<T>)
    requires TotalOrder(le) && Lists(le, r, s) && r != []
    ensures r[0] in s && forall y | y in s :: le(r[0], y)
  {
    forall y | y in s ensures le(r[0], y) {
      var k :| 0 <= k < |r| && r[k] == y;
      assert le(r[0], r[0]);
    }
  }

  lemma ListsBefore<T(!new)>(le: (T, T) -> bool, x: T, r: seq<T>, s: set<T>)
    requires TotalOrder(le) && Lists(le, r, s) && x !in s
    requires (r == [] || le(x, r[0])) && (r != [] ==> forall y | y in s :: le(r[0], y))
    ensures Lists(le, [x] + r, s + {x})
  {
    assert forall i | 0 <= i < |r| :: r[i] in s;
  }

  function Elements<T>(s: seq<T>): set<T> { set x | x in s }

  /** On a list without repetition sorted() gives the one sorted listing of its elements. */
  lemma {:induction false} SortedIs<T(!new)>(le: (T, T) -> bool, s: seq<T>)
    requires TotalOrder(le) && Distinct(s)
    ensures Sorted(le, s) == SortSet(le, Elements(s))
  {
    SortedLists(le, s);
    SortSetIs(le, Sorted(le, s), Elements(s));
  }

  lemma {:induction false} SortedLists<T(!new)>(le: (T, T) -> bool, s: seq<T>)
    requires TotalOrder(le) && Distinct(s)
    ensures Lists(le, Sorted(le, s), Elements(s))
  {
    if s != [] {
      SortedLists(le, s[1..]);
      assert s == [s[0]] + s[1..];
      assert s[0] !in s[1..] by {
        assert forall k | 0 <= k < |s[1..]| :: s[1..][k] == s[k + 1];
      }
      InsertLists(le, s[0], Sorted(le, s[1..]), Elements(s[1..]));
      assert Elements(s[1..]) + {s[0]} == Elements(s);
    }
  }

  /** a lists the ids in s in increasing order. */
  ghost predicate Enumerates(a: seq<nat>, s: set<nat>) {
    && (forall i, j | 0 <= i < j < |a| :: a[i] < a[j])
    && (forall x :: x in a <==> x in s)
  }

  ghost predicate IsLeast(m: nat, s: set<nat>) { m in s && forall x | x in s :: m <= x }

  lemma {:induction false} HasLeastNat(s: set<nat>)
    requires s != {}
    ensures exists m :: IsLeast(m, s)
  {
    var x :| x in s;
    if s != {x} {
      HasLeastNat(s - {x});
      var m :| IsLeast(m, s - {x});
      assert forall y | y in s :: y == x || y in s - {x};
      assert IsLeast(if m <= x then m else x, s);
    } else { assert IsLeast(x, s); }
  }

  function Least(s: set<nat>): (m: nat)
    requires s != {}
    ensures m in s && forall x | x in s :: m <= x
  {
    HasLeastNat(s);
    assert exists m :: m in s && forall y | y in s :: m <= y by { var m :| IsLeast(m, s); }
    var m :| m in s && forall y | y in s :: m <= y;
    m
  }

  /** The elements of a finite set of row ids in increasing order: ORDER BY id. */
  function Ascending(s: set<nat>): (r: seq<nat>)
    ensures |r| == |s| && Enumerates(r, s)
  {
    if s == {} then [] else
      var rest := Ascending(s - {Least(s)});
      assert forall i | 0 <= i < |rest| :: rest[i] in rest;
      [Least(s)] + rest
  }

  lemma TailEnumerates(a: seq<nat>, s: set<nat>)
    requires a != [] && Enumerates(a, s)
    ensures Enumerates(a[1..], s - {a[0]})
    ensures a[0] in s && forall x | x in s :: a[0] <= x
  {
    assert a == [a[0]] + a[1..];
    assert forall i | 0 <= i < |a[1..]| :: a[1..][i] == a[i+1];
  }

  lemma {:induction false} EnumerationIsUnique(a: seq<nat>, b: seq<nat>, s: set<nat>)
    requires Enumerates(a, s) && Enumerates(b, s)
    ensures a == b
  {
    if a != [] && b != [] {
      TailEnumerates(a, s);
      TailEnumerates(b, s);
      EnumerationIsUnique(a[1..], b[1..], s - {a[0]});
      assert a == [a[0]] + a[1..] && b == [b[0]] + b[1..];
    } else if a != [] {
      TailEnumerates(a, s);
    } else if b != [] {
      TailEnumerates(b, s);
    }
  }

  lemma AscendingIs(a: seq<nat>, s: set<nat>)
    requires Enumerates(a, s)
    ensures Ascending(s) == a
  {
    EnumerationIsUnique(Ascending(s), a, s);
  }

  lemma ConcatEnumerates(a: seq<nat>, s: set<nat>, a': seq<nat>, s': set<nat>)
    requires Enumerates(a, s) && Enumerates(a', s')
    requires forall x, y | x in s && y in s' :: x < y
    ensures Enumerates(a + a', s + s')
  {
    assert forall i | 0 <= i < |a| :: a[i] in s;
    assert forall i | 0 <= i < |a'| :: a'[i] in s';
    forall x ensures x in a + a' <==> x in s + s' {
      assert x in a + a' <==> x in a || x in a';
    }
  }

  lemma AscendingConcat(s: set<nat>, s': set<nat>)
    requires forall x, y | x in s && y in s' :: x < y
    ensures Ascending(s + s') == Ascending(s) + Ascending(s')
  {
    ConcatEnumerates(Ascending(s), s, Ascending(s'), s');
    AscendingIs(Ascending(s) + Ascending(s'), s + s');
  }

  lemma AscendingOne(x: nat)
    ensures Ascending({x}) == [x]
  {
    AscendingIs([x], {x});
  }

  lemma DropEnumerates(a: seq<nat>, s: set<nat>, k: nat)
    requires Enumerates(a, s) && k <= |a|
    ensures Enumerates(a[k..], s - (set x | x in a[..k]))
  {
    assert forall i, j | 0 <= i < |a| - k && 0 <= j < k :: a[..k][j] != a[k..][i];
    forall x ensures x in a[k..] <==> x in s - (set x | x in a[..k]) {
      assert a == a[..k] + a[k..];
      assert x in a <==> x in a[..k] || x in a[k..];
    }
  }

  lemma AscendingDrop(s: set<nat>, k: nat)
    requires k <= |s|
    ensures Ascending(s - (set x | x in Ascending(s)[..k])) == Ascending(s)[k..]
  {
    DropEnumerates(Ascending(s), s, k);
    AscendingIs(Ascending(s)[k..], s - (set x | x in Ascending(s)[..k]));
  }

  /** Lexicographic order, as Python compares strings, lists and tuples. */
  predicate LexLe<T(==)>(le: (T, T) -> bool, a: seq<T>, b: seq<T>) {
    if a == [] then true
    else if b == [] then false
    else if a[0] == b[0] then LexLe(le, a[1..], b[1..])
    else le(a[0], b[0])
  }

  lemma {:induction false} LexTotal<T(!new)>(le: (T, T) -> bool, a: seq<T>, b: seq<T>)
    requires TotalOrder(le)
    ensures LexLe(le, a, b) || LexLe(le, b, a)
    ensures LexLe(le, a, b) && LexLe(le, b, a) ==> a == b
  {
    if a != [] && b != [] {
      if a[0] == b[0] {
        LexTotal(le, a[1..], b[1..]);
        assert a == [a[0]] + a[1..] && b == [b[0]] + b[1..];
      }
    }
  }

  lemma {:induction false} LexTransitive<T(!new)>(le: (T, T) -> bool, a: seq<T>, b: seq<T>, c: seq<T>)
    requires TotalOrder(le)
    requires LexLe(le, a, b) && LexLe(le, b, c)
    ensures LexLe(le, a, c)
  {
    if a != [] && b != [] && c != [] && a[0] == b[0] && b[0] == c[0] {
      LexTransitive(le, a[1..], b[1..], c[1..]);
    }
  }

  predicate CharLe(x: char, y: char) { x <= y }

  predicate StrLe(a: string, b: string) { LexLe(CharLe, a, b) }

  lemma StrOrder()
    ensures TotalOrder(StrLe)
  {
    forall x, y ensures (StrLe(x, y) || StrLe(y, x)) && (StrLe(x, y) && StrLe(y, x) ==> x == y) {
      LexTotal(CharLe, x, y);
    }
    forall x, y, z | StrLe(x, y) && StrLe(y, z) ensures StrLe(x, z) {
      LexTransitive(CharLe, x, y, z);
    }
  }

  predicate StrsLe(a: seq<string>, b: seq<string>) { LexLe(StrLe, a, b) }

  lemma StrsOrder()
    ensures TotalOrder(StrsLe)
  {
    StrOrder();
    forall x, y ensures (StrsLe(x, y) || StrsLe(y, x)) && (StrsLe(x, y) && StrsLe(y, x) ==> x == y) {
      LexTotal(StrLe, x, y);
    }
    forall x, y, z | StrsLe(x, y) && StrsLe(y, z) ensures StrsLe(x, z) {
      LexTransitive(StrLe, x, y, z);
    }
  }
}
