/** Shared accounts and three-cycles in the relation graph (riskgraph.py). */
module RiskGraph {
  import opened Ordering

  /** An edge row, with the columns that the investigation reads. */
  datatype Edge = Edge(source: string, target: string, relation: string)

  datatype Finding =
    | Shared(owners: seq<string>, account: string)
    | Circular(cycle: seq<string>)

  function Score(f: Finding): int {
    if f.Circular? then 85 else if 55 + 10 * |f.owners| < 100 then 55 + 10 * |f.owners| else 100
  }

  function RiskCode(f: Finding): string { if f.Circular? then "CIRCULAR_RELATION" else "SHARED_ACCOUNT" }

  function EntitiesOf(f: Finding): seq<string> { if f.Circular? then f.cycle else f.owners + [f.account] }

  /** The sort key: (-score, risk code, entities), compared as a tuple. */
  predicate KeyLe(f: Finding, g: Finding) {
    if Score(f) != Score(g) then Score(f) > Score(g)
    else if RiskCode(f) != RiskCode(g) then StrLe(RiskCode(f), RiskCode(g))
    else StrsLe(EntitiesOf(f), EntitiesOf(g))
  }

  lemma CodesDiffer()
    ensures "CIRCULAR_RELATION" != "SHARED_ACCOUNT"
  {
    assert |"CIRCULAR_RELATION"| == 17 && |"SHARED_ACCOUNT"| == 14;
  }

  /** Two findings with the same key are the same finding. */
  lemma KeyDetermines(f: Finding, g: Finding)
    requires RiskCode(f) == RiskCode(g) && EntitiesOf(f) == EntitiesOf(g)
    ensures f == g
  {
    CodesDiffer();
    if f.Shared? && g.Shared? {
      var a, b := EntitiesOf(f), EntitiesOf(g);
      assert a[..|a| - 1] == f.owners && b[..|b| - 1] == g.owners && a[|a| - 1] == f.account && b[|b| - 1] == g.account;
    }
  }

  /** So the key orders findings totally, and the sort leaves nothing to chance. */
  lemma KeyOrder()
    ensures TotalOrder(KeyLe)
  {
    StrOrder();
    StrsOrder();
    forall f, g ensures (KeyLe(f, g) || KeyLe(g, f)) && (KeyLe(f, g) && KeyLe(g, f) ==> f == g) {
      if RiskCode(f) == RiskCode(g) && EntitiesOf(f) == EntitiesOf(g) { KeyDetermines(f, g); }
    }
    forall f, g, k | KeyLe(f, g) && KeyLe(g, k) ensures KeyLe(f, k) { KeyTransitive(f, g, k); }
  }

  lemma KeyTransitive(f: Finding, g: Finding, k: Finding)
    requires TotalOrder(StrLe) && TotalOrder(StrsLe) && KeyLe(f, g) && KeyLe(g, k)
    ensures KeyLe(f, k)
  {
    assert StrLe(RiskCode(f), RiskCode(f)) && StrLe(RiskCode(g), RiskCode(g));
  }

  // ----- cycles of three

  type Adjacency = map<string, set<string>>

  function Targets(adjacency: Adjacency, a: string): set<string> {
    if a in adjacency then adjacency[a] else {}
  }

  predicate Linked(adjacency: Adjacency, a: string, b: string) { b in Targets(adjacency, a) }

  function Smaller(x: seq<string>, y: seq<string>): seq<string> { if StrsLe(x, y) then x else y }

  /** min((a, b, c), (b, c, a), (c, a, b)) */
  function LeastRotation(a: string, b: string, c: string): seq<string> {
    Smaller(Smaller([a, b, c], [b, c, a]), [c, a, b])
  }

  /** The condition under which the code records (a, b, c). */
  predicate Accepted(adjacency: Adjacency, a: string, b: string, c: string) {
    a != b && b != c && Linked(adjacency, a, b) && Linked(adjacency, b, c) && Linked(adjacency, c, a)
  }

  function FromTriples(adjacency: Adjacency, a: string, b: string, cs: set<string>): set<seq<string>> {
    set c | c in cs && Accepted(adjacency, a, b, c) :: LeastRotation(a, b, c)
  }

  function FromPairs(adjacency: Adjacency, a: string, bs: set<string>): set<seq<string>> {
    set b, c | b in bs && c in Targets(adjacency, b) && Accepted(adjacency, a, b, c) :: LeastRotation(a, b, c)
  }

  function FromNodes(adjacency: Adjacency, nodes: set<string>): set<seq<string>> {
    set a, b, c | a in nodes && b in Targets(adjacency, a) && c in Targets(adjacency, b)
      && Accepted(adjacency, a, b, c) :: LeastRotation(a, b, c)
  }

  function Canonical(adjacency: Adjacency): set<seq<string>> { FromNodes(adjacency, adjacency.Keys) }

  lemma OneMoreTriple(adjacency: Adjacency, a: string, b: string, cs: set<string>, c: string)
    ensures FromTriples(adjacency, a, b, cs + {c}) ==
      FromTriples(adjacency, a, b, cs) + if Accepted(adjacency, a, b, c) then {LeastRotation(a, b, c)} else {}
  {}

  lemma OneMorePair(adjacency: Adjacency, a: string, bs: set<string>, b: string)
    ensures FromPairs(adjacency, a, bs + {b})
      == FromPairs(adjacency, a, bs) + FromTriples(adjacency, a, b, Targets(adjacency, b))
  {}

  lemma OneMoreNode(adjacency: Adjacency, nodes: set<string>, a: string)
    ensures FromNodes(adjacency, nodes + {a})
      == FromNodes(adjacency, nodes) + FromPairs(adjacency, a, Targets(adjacency, a))
  {}

  /** _cycles_of_three, for any order in which the dictionary and the sets yield their elements. */
  method CyclesOfThree(adjacency: Adjacency) returns (cycles: seq<seq<string>>)
    ensures TotalOrder(StrsLe)
    ensures cycles == SortSet(StrsLe, Canonical(adjacency))
  {
    var canonical: set<seq<string>> := {};
    var nodes := adjacency.Keys;
    while nodes != {}
      invariant nodes <= adjacency.Keys
      invariant canonical == FromNodes(adjacency, adjacency.Keys - nodes)
      decreases |nodes|
    {
      var a :| a in nodes;
      var through := CyclesThrough(adjacency, a);
      OneMoreNode(adjacency, adjacency.Keys - nodes, a);
      assert adjacency.Keys - (nodes - {a}) == adjacency.Keys - nodes + {a};
      canonical := canonical + through;
      nodes := nodes - {a};
    }
    assert adjacency.Keys - nodes == adjacency.Keys;
    StrsOrder();
    return SortSet(StrsLe, canonical);
  }

  /** The loop over the neighbours b of a. */
  method CyclesThrough(adjacency: Adjacency, a: string) returns (canonical: set<seq<string>>)
    ensures canonical == FromPairs(adjacency, a, Targets(adjacency, a))
  {
    canonical := {};
    var neighbors, rest := Targets(adjacency, a), Targets(adjacency, a);
    while rest != {}
      invariant rest <= neighbors
      invariant canonical == FromPairs(adjacency, a, neighbors - rest)
      decreases |rest|
    {
      var b :| b in rest;
      var via := CyclesVia(adjacency, a, b);
      OneMorePair(adjacency, a, neighbors - rest, b);
      assert neighbors - (rest - {b}) == neighbors - rest + {b};
      canonical := canonical + via;
      rest := rest - {b};
    }
    assert neighbors - rest == neighbors;
  }

  /** The loop over the neighbours c of b. */
  method CyclesVia(adjacency: Adjacency, a: string, b: string) returns (canonical: set<seq<string>>)
    requires Linked(adjacency, a, b)
    ensures canonical == FromTriples(adjacency, a, b, Targets(adjacency, b))
  {
    canonical := {};
    var neighbors, rest := Targets(adjacency, b), Targets(adjacency, b);
    while rest != {}
      invariant rest <= neighbors
      invariant canonical == FromTriples(adjacency, a, b, neighbors - rest)
      decreases |rest|
    {
      var c :| c in rest;
      OneMoreTriple(adjacency, a, b, neighbors - rest, c);
      assert neighbors - (rest - {c}) == neighbors - rest + {c};
      if a != b && b != c && a in Targets(adjacency, c) {
        canonical := canonical + {LeastRotation(a, b, c)};
      }
      rest := rest - {c};
    }
    assert neighbors - rest == neighbors;
  }

  // ----- which cycles are recorded

  predicate Triangle(adjacency: Adjacency, a: string, b: string, c: string) {
    a != b && b != c && c != a && Linked(adjacency, a, b) && Linked(adjacency, b, c) && Linked(adjacency, c, a)
  }

  /** a points at itself, and at b, which points back. */
  predicate Degenerate(adjacency: Adjacency, a: string, b: string) {
    a != b && Linked(adjacency, a, a) && Linked(adjacency, a, b) && Linked(adjacency, b, a)
  }

  ghost predicate IsTriangle(adjacency: Adjacency, t: seq<string>) {
    exists a, b, c :: Triangle(adjacency, a, b, c) && t == LeastRotation(a, b, c)
  }

  ghost predicate IsDegenerate(adjacency: Adjacency, t: seq<string>) {
    exists a, b :: Degenerate(adjacency, a, b) && t == LeastRotation(a, b, a)
  }

  lemma Recorded(adjacency: Adjacency, a: string, b: string, c: string)
    requires Accepted(adjacency, a, b, c)
    ensures LeastRotation(a, b, c) in Canonical(adjacency)
  {
    assert a in adjacency.Keys && b in Targets(adjacency, a) && c in Targets(adjacency, b);
  }

  /** Recorded are exactly the least rotations of the cycles on three distinct nodes and, because
      the code does not compare a with c, of the triples (a, b, a) with a self-loop on a. */
  lemma CyclesExactly(adjacency: Adjacency, t: seq<string>)
    ensures t in Canonical(adjacency) <==> IsTriangle(adjacency, t) || IsDegenerate(adjacency, t)
  {
    if t in Canonical(adjacency) {
      var a, b, c :| a in adjacency.Keys && b in Targets(adjacency, a) && c in Targets(adjacency, b)
        && Accepted(adjacency, a, b, c) && t == LeastRotation(a, b, c);
      if a == c { assert Degenerate(adjacency, a, b); } else { assert Triangle(adjacency, a, b, c); }
    }
    if IsTriangle(adjacency, t) {
      var a, b, c :| Triangle(adjacency, a, b, c) && t == LeastRotation(a, b, c);
      Recorded(adjacency, a, b, c);
    }
    if IsDegenerate(adjacency, t) {
      var a, b :| Degenerate(adjacency, a, b) && t == LeastRotation(a, b, a);
      Recorded(adjacency, a, b, a);
    }
  }

  /** The least rotation is a rotation, and does not depend on where the cycle is entered. */
  lemma RotationClass(a: string, b: string, c: string)
    ensures LeastRotation(a, b, c) in {[a, b, c], [b, c, a], [c, a, b]}
    ensures LeastRotation(b, c, a) == LeastRotation(a, b, c) == LeastRotation(c, a, b)
    ensures StrsLe(LeastRotation(a, b, c), [a, b, c]) && StrsLe(LeastRotation(a, b, c), [b, c, a])
    ensures StrsLe(LeastRotation(a, b, c), [c, a, b])
  {
    StrsOrder();
    LeastOfThree([a, b, c], [b, c, a], [c, a, b]);
    LeastOfThree([b, c, a], [c, a, b], [a, b, c]);
    LeastOfThree([c, a, b], [a, b, c], [b, c, a]);
  }

  lemma LeastOfThree(x: seq<string>, y: seq<string>, z: seq<string>)
    requires TotalOrder(StrsLe)
    ensures var least := Smaller(Smaller(x, y), z);
      least in {x, y, z} && StrsLe(least, x) && StrsLe(least, y) && StrsLe(least, z)
  {
    assert StrsLe(x, x) && StrsLe(y, y) && StrsLe(z, z);
  }

  /** Each rotation class is recorded once: two triples share a record exactly if one is a rotation
      of the other. */
  lemma OneRecordPerClass(a: string, b: string, c: string, d: string, e: string, f: string)
    ensures LeastRotation(a, b, c) == LeastRotation(d, e, f) <==> [d, e, f] in {[a, b, c], [b, c, a], [c, a, b]}
  {
    RotationClass(a, b, c);
    RotationClass(d, e, f);
    SameTriple(a, b, c, d, e, f);
    SameTriple(b, c, a, d, e, f);
    SameTriple(c, a, b, d, e, f);
    RotationClass(b, c, a);
    RotationClass(c, a, b);
    var t := LeastRotation(d, e, f);
    if LeastRotation(a, b, c) == t {
      assert t[0] in {a, b, c};
      SameTriple(a, b, c, e, f, d);
      SameTriple(b, c, a, e, f, d);
      SameTriple(c, a, b, e, f, d);
      SameTriple(a, b, c, f, d, e);
      SameTriple(b, c, a, f, d, e);
      SameTriple(c, a, b, f, d, e);
    }
  }

  lemma SameTriple(a: string, b: string, c: string, d: string, e: string, f: string)
    ensures [a, b, c] == [d, e, f] <==> a == d && b == e && c == f
  {
    if [a, b, c] == [d, e, f] { assert [a, b, c][0] == d && [a, b, c][1] == e && [a, b, c][2] == f; }
  }

  lemma NoTriangleRepeats(adjacency: Adjacency, a: string, b: string)
    requires a != b
    ensures !IsTriangle(adjacency, LeastRotation(a, b, a))
  {
    if IsTriangle(adjacency, LeastRotation(a, b, a)) {
      var d, e, f :| Triangle(adjacency, d, e, f) && LeastRotation(a, b, a) == LeastRotation(d, e, f);
      OneRecordPerClass(a, b, a, d, e, f);
      SameTriple(a, b, a, d, e, f);
      SameTriple(b, a, a, d, e, f);
      SameTriple(a, a, b, d, e, f);
    }
  }

  /** So the records are the cycles on three distinct nodes, no more and no less, exactly if no node
      with a self-loop also points at another one that points back; in particular without
      self-loops. */
  lemma OnlyTrianglesIff(adjacency: Adjacency)
    ensures (forall t :: t in Canonical(adjacency) <==> IsTriangle(adjacency, t)) <==>
      !exists a, b :: Degenerate(adjacency, a, b)
  {
    forall t ensures t in Canonical(adjacency) <==> IsTriangle(adjacency, t) || IsDegenerate(adjacency, t) {
      CyclesExactly(adjacency, t);
    }
    if a, b :| Degenerate(adjacency, a, b) {
      NoTriangleRepeats(adjacency, a, b);
      assert IsDegenerate(adjacency, LeastRotation(a, b, a));
      assert LeastRotation(a, b, a) in Canonical(adjacency);
    }
  }

  // ----- the investigation

  /** The edges between known entities. */
  function Known(entities: set<string>, edges: seq<Edge>, n: nat): set<Edge>
    requires n <= |edges|
  {
    set k | 0 <= k < n && edges[k].source in entities && edges[k].target in entities :: edges[k]
  }

  function OutOf(known: set<Edge>, a: string): set<string> { set e | e in known && e.source == a :: e.target }

  const OWNS := "OWNS_ACCOUNT"

  function OwnersOf(known: set<Edge>, account: string): set<string> {
    set e | e in known && e.relation == OWNS && e.target == account :: e.source
  }

  function AdjacencyOf(known: set<Edge>): Adjacency { map a | a in (set e | e in known :: e.source) :: OutOf(known, a) }

  function SharedBy(owners: set<string>, account: string): Finding {
    StrOrder();
    Shared(SortSet(StrLe, owners), account)
  }

  function SharedOf(known: set<Edge>): set<Finding> {
    set e | e in known && |OwnersOf(known, e.target)| > 1 :: SharedBy(OwnersOf(known, e.target), e.target)
  }

  function CircularOf(known: set<Edge>): set<Finding> { set t | t in Canonical(AdjacencyOf(known)) :: Circular(t) }

  /** The report on these edges: every finding once, in the order of the key. */
  function Report(known: set<Edge>): seq<Finding> {
    KeyOrder();
    SortSet(KeyLe, SharedOf(known) + CircularOf(known))
  }

  lemma KnownStep(entities: set<string>, edges: seq<Edge>, n: nat)
    requires n < |edges|
    ensures Known(entities, edges, n + 1) ==
      Known(entities, edges, n) + if edges[n].source in entities && edges[n].target in entities then {edges[n]} else {}
  {}

  /** Canonical looks at the neighbours of nodes only. */
  lemma CanonicalAgrees(x: Adjacency, y: Adjacency)
    requires forall a :: Targets(x, a) == Targets(y, a)
    ensures Canonical(x) == Canonical(y)
  {
    forall t ensures t in Canonical(x) <==> t in Canonical(y) {
      CyclesExactly(x, t);
      CyclesExactly(y, t);
      forall a, b ensures Linked(x, a, b) == Linked(y, a, b) {}
      SameCycles(x, y, t);
      SameCycles(y, x, t);
    }
  }

  lemma SameCycles(x: Adjacency, y: Adjacency, t: seq<string>)
    requires forall a, b :: Linked(x, a, b) == Linked(y, a, b)
    ensures IsTriangle(x, t) ==> IsTriangle(y, t)
    ensures IsDegenerate(x, t) ==> IsDegenerate(y, t)
  {
    if IsTriangle(x, t) {
      var a, b, c :| Triangle(x, a, b, c) && t == LeastRotation(a, b, c);
      assert Triangle(y, a, b, c);
    }
    if IsDegenerate(x, t) {
      var a, b :| Degenerate(x, a, b) && t == LeastRotation(a, b, a);
      assert Degenerate(y, a, b);
    }
  }

  type Owners = map<string, seq<string>>

  function OwnersIn(owners: Owners, account: string): set<string> {
    if account in owners then Elements(owners[account]) else {}
  }

  /** The two dictionaries describe these edges. */
  ghost predicate Describes(known: set<Edge>, adjacency: Adjacency, owners: Owners) {
    && (forall a :: Targets(adjacency, a) == OutOf(known, a))
    && (forall account :: OwnersIn(owners, account) == OwnersOf(known, account))
  }

  function AddTarget(adjacency: Adjacency, e: Edge): Adjacency
  {
    adjacency[e.source := Targets(adjacency, e.source) + {e.target}]
  }

  function AddOwner(owners: Owners, e: Edge): Owners {
    if e.relation != OWNS then owners
    else owners[e.target := (if e.target in owners then owners[e.target] else []) + [e.source]]
  }

  lemma EdgeAdded(known: set<Edge>, adjacency: Adjacency, owners: Owners, e: Edge)
    requires Describes(known, adjacency, owners)
    ensures Describes(known + {e}, AddTarget(adjacency, e), AddOwner(owners, e))
  {
    forall a ensures Targets(AddTarget(adjacency, e), a) == OutOf(known + {e}, a) {
      assert Targets(adjacency, a) == OutOf(known, a);
    }
    forall account ensures OwnersIn(AddOwner(owners, e), account) == OwnersOf(known + {e}, account) {
      assert OwnersIn(owners, account) == OwnersOf(known, account);
      OwnerAdded(owners, e, account);
    }
  }

  lemma OwnerAdded(owners: Owners, e: Edge, account: string)
    ensures OwnersIn(AddOwner(owners, e), account) ==
      OwnersIn(owners, account) + if e.relation == OWNS && e.target == account then {e.source} else {}
  {}

  /** The loop over the edge rows. */
  method ReadEdges(entities: set<string>, edges: seq<Edge>) returns (adjacency: Adjacency, owners: Owners)
    ensures Describes(Known(entities, edges, |edges|), adjacency, owners)
  {
    adjacency, owners := map[], map[];
    for n := 0 to |edges|
      invariant Describes(Known(entities, edges, n), adjacency, owners)
    {
      var e := edges[n];
      KnownStep(entities, edges, n);
      if e.source in entities && e.target in entities {
        EdgeAdded(Known(entities, edges, n), adjacency, owners, e);
        adjacency := adjacency[e.source := Targets(adjacency, e.source) + {e.target}];
        if e.relation == OWNS {
          owners := owners[e.target := (if e.target in owners then owners[e.target] else []) + [e.source]];
        }
      }
    }
  }

  /** The finding for an account, if it has two owners or more. */
  function FindingAt(owners: Owners): string -> Option<Finding> {
    (account: string) =>
      if |OwnersIn(owners, account)| > 1 then Some(SharedBy(OwnersIn(owners, account), account)) else None
  }

  function Found(at: string -> Option<Finding>, accounts: set<string>): set<Finding> {
    set account | account in accounts && at(account).Some? :: at(account).value
  }

  function SharedAmong(owners: Owners, accounts: set<string>): set<Finding> { Found(FindingAt(owners), accounts) }

  lemma OneMoreAccount(at: string -> Option<Finding>, accounts: set<string>, account: string)
    ensures Found(at, accounts + {account})
      == Found(at, accounts) + if at(account).Some? then {at(account).value} else {}
  {}

  /** findings lists the findings in s, each once. */
  ghost predicate ListsOnce(findings: seq<Finding>, s: set<Finding>) { Distinct(findings) && Elements(findings) == s }

  lemma OneMoreFinding(findings: seq<Finding>, s: set<Finding>, f: Finding)
    requires ListsOnce(findings, s) && f !in s
    ensures ListsOnce(findings + [f], s + {f})
  {
    assert forall k | 0 <= k < |findings| :: findings[k] in Elements(findings);
    forall g ensures g in Elements(findings + [f]) <==> g in s + {f} {
      assert g in findings + [f] <==> g in findings || g == f;
    }
  }

  /** The loop over the accounts, in any order. */
  method SharedAccounts(owners: Owners) returns (findings: seq<Finding>)
    ensures ListsOnce(findings, SharedAmong(owners, owners.Keys))
  {
    findings := [];
    var rest := owners.Keys;
    while rest != {}
      invariant rest <= owners.Keys
      invariant ListsOnce(findings, SharedAmong(owners, owners.Keys - rest))
      decreases |rest|
    {
      var account :| account in rest;
      var found := ReportAccount(owners, account);
      NextAccount(owners, owners.Keys - rest, account, findings);
      assert owners.Keys - (rest - {account}) == owners.Keys - rest + {account};
      if found.Some? { findings := findings + [found.value]; }
      rest := rest - {account};
    }
    assert owners.Keys - rest == owners.Keys;
  }

  /** One round of that loop. */
  method ReportAccount(owners: Owners, account: string) returns (found: Option<Finding>)
    requires account in owners
    ensures found == FindingAt(owners)(account)
  {
    StrOrder();
    var distinct := SortSet(StrLe, Elements(owners[account]));
    found := if |distinct| > 1 then Some(Shared(distinct, account)) else None;
  }

  lemma NextAccount(owners: Owners, accounts: set<string>, account: string, findings: seq<Finding>)
    requires account !in accounts && ListsOnce(findings, SharedAmong(owners, accounts))
    ensures var found := FindingAt(owners)(account);
      ListsOnce(if found.Some? then findings + [found.value] else findings, SharedAmong(owners, accounts + {account}))
  {
    var found := FindingAt(owners)(account);
    OneMoreAccount(FindingAt(owners), accounts, account);
    NotYetShared(owners, accounts, account);
    if found.Some? { OneMoreFinding(findings, SharedAmong(owners, accounts), found.value); }
  }

  lemma NotYetShared(owners: Owners, accounts: set<string>, account: string)
    requires account !in accounts
    ensures forall f | f in SharedAmong(owners, accounts) :: f.Shared? && f.account != account
  {}

  lemma OwnersEdge(known: set<Edge>, account: string) returns (e: Edge)
    requires |OwnersOf(known, account)| > 1
    ensures e in known && e.target == account
  {
    var owner :| owner in OwnersOf(known, account);
    e :| e in known && e.relation == OWNS && e.target == account && e.source == owner;
  }

  /** The accounts that can be reported at all are targets of edges and keys of the dictionary. */
  lemma SharedPlaces(known: set<Edge>, adjacency: Adjacency, owners: Owners, account: string)
    requires Describes(known, adjacency, owners)
    ensures OwnersIn(owners, account) == OwnersOf(known, account)
    ensures |OwnersOf(known, account)| > 1 ==> account in owners.Keys && exists e :: e in known && e.target == account
  {
    if |OwnersOf(known, account)| > 1 {
      var e := OwnersEdge(known, account);
      assert |OwnersIn(owners, account)| > 1;
    }
  }

  lemma SharedAgrees(known: set<Edge>, adjacency: Adjacency, owners: Owners)
    requires Describes(known, adjacency, owners)
    ensures SharedAmong(owners, owners.Keys) == SharedOf(known)
  {
    forall f ensures f in SharedAmong(owners, owners.Keys) ==> f in SharedOf(known) {
      SharedIsKnown(known, adjacency, owners, f);
    }
    forall f ensures f in SharedOf(known) ==> f in SharedAmong(owners, owners.Keys) {
      KnownIsShared(known, adjacency, owners, f);
    }
  }

  lemma SharedIsKnown(known: set<Edge>, adjacency: Adjacency, owners: Owners, f: Finding)
    requires Describes(known, adjacency, owners)
    ensures f in SharedAmong(owners, owners.Keys) ==> f in SharedOf(known)
  {
    if f in SharedAmong(owners, owners.Keys) {
      var account :| account in owners.Keys && FindingAt(owners)(account).Some?
        && f == FindingAt(owners)(account).value;
      SharedPlaces(known, adjacency, owners, account);
      var e :| e in known && e.target == account;
    }
  }

  lemma KnownIsShared(known: set<Edge>, adjacency: Adjacency, owners: Owners, f: Finding)
    requires Describes(known, adjacency, owners)
    ensures f in SharedOf(known) ==> f in SharedAmong(owners, owners.Keys)
  {
    if f in SharedOf(known) {
      var e :| e in known && |OwnersOf(known, e.target)| > 1 && f == SharedBy(OwnersOf(known, e.target), e.target);
      SharedPlaces(known, adjacency, owners, e.target);
      assert FindingAt(owners)(e.target) == Some(f);
    }
  }

  lemma CircularAgrees(known: set<Edge>, adjacency: Adjacency, owners: Owners)
    requires Describes(known, adjacency, owners)
    ensures (set t | t in Canonical(adjacency) :: Circular(t)) == CircularOf(known)
  {
    forall a ensures Targets(AdjacencyOf(known), a) == Targets(adjacency, a) {
      assert Targets(adjacency, a) == OutOf(known, a);
      if a !in AdjacencyOf(known) { assert OutOf(known, a) == {}; }
    }
    CanonicalAgrees(AdjacencyOf(known), adjacency);
  }

  function CircularUpTo(cycles: seq<seq<string>>, n: nat): set<Finding>
    requires n <= |cycles|
  {
    set k | 0 <= k < n :: Circular(cycles[k])
  }

  /** The loop that appends the cycles to the findings. */
  method AddCycles(findings: seq<Finding>, ghost shared: set<Finding>, cycles: seq<seq<string>>)
    returns (all: seq<Finding>)
    requires ListsOnce(findings, shared) && Distinct(cycles) && forall f | f in shared :: f.Shared?
    ensures ListsOnce(all, shared + CircularUpTo(cycles, |cycles|))
  {
    all := findings;
    assert shared + CircularUpTo(cycles, 0) == shared;
    for n := 0 to |cycles|
      invariant ListsOnce(all, shared + CircularUpTo(cycles, n))
    {
      OneMoreFinding(all, shared + CircularUpTo(cycles, n), Circular(cycles[n]));
      assert shared + CircularUpTo(cycles, n) + {Circular(cycles[n])} == shared + CircularUpTo(cycles, n + 1);
      all := all + [Circular(cycles[n])];
    }
  }

  lemma CircularElements(cycles: seq<seq<string>>, s: set<seq<string>>)
    requires forall t :: t in cycles <==> t in s
    ensures CircularUpTo(cycles, |cycles|) == set t | t in s :: Circular(t)
  {
    forall t | t in s ensures Circular(t) in CircularUpTo(cycles, |cycles|) {
      var k :| 0 <= k < |cycles| && cycles[k] == t;
    }
    assert forall k | 0 <= k < |cycles| :: cycles[k] in s;
  }

  lemma ListedCycles(adjacency: Adjacency, cycles: seq<seq<string>>)
    requires TotalOrder(StrsLe) && cycles == SortSet(StrsLe, Canonical(adjacency))
    ensures Distinct(cycles) && CircularUpTo(cycles, |cycles|) == set t | t in Canonical(adjacency) :: Circular(t)
  {
    CircularElements(cycles, Canonical(adjacency));
  }

  lemma AllFound(known: set<Edge>, adjacency: Adjacency, owners: Owners, cycles: seq<seq<string>>)
    requires Describes(known, adjacency, owners)
    requires CircularUpTo(cycles, |cycles|) == set t | t in Canonical(adjacency) :: Circular(t)
    ensures SharedAmong(owners, owners.Keys) + CircularUpTo(cycles, |cycles|) == SharedOf(known) + CircularOf(known)
  {
    SharedAgrees(known, adjacency, owners);
    CircularAgrees(known, adjacency, owners);
  }

  lemma ReportIs(known: set<Edge>, findings: seq<Finding>)
    requires ListsOnce(findings, SharedOf(known) + CircularOf(known))
    ensures TotalOrder(KeyLe) && Sorted(KeyLe, findings) == Report(known)
  {
    KeyOrder();
    SortedIs(KeyLe, findings);
  }

  /** investigate: whatever order the rows, the dictionaries and the sets come in, the report is the
      one that the set of edges between known entities determines. */
  method Investigate(entities: set<string>, edges: seq<Edge>) returns (report: seq<Finding>)
    ensures report == Report(Known(entities, edges, |edges|))
  {
    ghost var known := Known(entities, edges, |edges|);
    var adjacency, owners := ReadEdges(entities, edges);
    var shared := SharedAccounts(owners);
    var cycles := CyclesOfThree(adjacency);
    ListedCycles(adjacency, cycles);
    var findings := AddCycles(shared, SharedAmong(owners, owners.Keys), cycles);
    AllFound(known, adjacency, owners, cycles);
    ReportIs(known, findings);
    return Sorted(KeyLe, findings);
  }

  // ----- a node with a self-loop

  /** A points at itself and at B, and B points back. */
  function SelfLoop(): seq<Edge> { [Edge("A", "A", "PAYS"), Edge("A", "B", "PAYS"), Edge("B", "A", "PAYS")] }

  lemma LeastOfLoop()
    ensures LeastRotation("A", "B", "A") == ["A", "A", "B"]
  {
    var a, b := "A", "B";
    StrsOrder();
    assert LexLe(CharLe, b[1..], a[1..]) && StrLe(a, b) && !StrLe(b, a);
    var aba, baa, aab := [a, b, a], [b, a, a], [a, a, b];
    assert StrsLe(aba, baa) by { assert aba[0] == a && baa[0] == b && a[0] != b[0]; }
    assert !StrsLe(aba, aab) by {
      assert aba[1..] == [b, a] && aab[1..] == [a, b];
      assert !StrLe(b, a) by { assert a[0] == 'A' && b[0] == 'B'; }
      assert LexLe(StrLe, [b, a], [a, b]) == StrLe(b, a);
    }
  }

  lemma LoopLinks(adjacency: Adjacency)
    requires adjacency == AdjacencyOf(Known({"A", "B"}, SelfLoop(), 3))
    ensures Degenerate(adjacency, "A", "B")
  {
    var edges, known := SelfLoop(), Known({"A", "B"}, SelfLoop(), 3);
    assert edges[0] in known && edges[1] in known && edges[2] in known;
    assert "A" in adjacency && "B" in adjacency;
    assert "A" in OutOf(known, "A") && "B" in OutOf(known, "A") && "A" in OutOf(known, "B");
  }

  /** This graph of two nodes has no cycle on three, and yet the report lists one. */
  lemma SelfLoopReported()
    ensures var known := Known({"A", "B"}, SelfLoop(), 3);
      Circular(["A", "A", "B"]) in Report(known) && !IsTriangle(AdjacencyOf(known), ["A", "A", "B"])
  {
    var known := Known({"A", "B"}, SelfLoop(), 3);
    LeastOfLoop();
    LoopLinks(AdjacencyOf(known));
    NoTriangleRepeats(AdjacencyOf(known), "A", "B");
    ReportExactly(known, Circular(["A", "A", "B"]));
  }

  /** Permuting or repeating edge rows, or adding rows of unknown entities, changes nothing. */
  lemma OnlyTheEdgeSetMatters(entities: set<string>, edges: seq<Edge>, other: seq<Edge>)
    requires forall e: Edge :: e.source in entities && e.target in entities ==> (e in edges <==> e in other)
    ensures Report(Known(entities, edges, |edges|)) == Report(Known(entities, other, |other|))
  {
    forall e ensures e in Known(entities, edges, |edges|) <==> e in Known(entities, other, |other|) {
      assert e in edges <==> exists k :: 0 <= k < |edges| && edges[k] == e;
      assert e in other <==> exists k :: 0 <= k < |other| && other[k] == e;
    }
    assert Known(entities, edges, |edges|) == Known(entities, other, |other|);
  }

  /** An account is reported, with all its owners in order, exactly if it has two or more. */
  lemma SharedExactly(known: set<Edge>, owners: seq<string>, account: string)
    ensures TotalOrder(StrLe)
    ensures Shared(owners, account) in SharedOf(known) <==>
      |OwnersOf(known, account)| > 1 && Lists(StrLe, owners, OwnersOf(known, account))
  {
    StrOrder();
    if |OwnersOf(known, account)| > 1 && Lists(StrLe, owners, OwnersOf(known, account)) {
      SortSetIs(StrLe, owners, OwnersOf(known, account));
      var owner :| owner in OwnersOf(known, account);
      var e :| e in known && e.relation == OWNS && e.target == account && e.source == owner;
      assert SharedBy(OwnersOf(known, e.target), e.target) == Shared(owners, account);
    }
  }

  /** One node links to another exactly if some edge between known entities, of whatever relation, goes
      from the one to the other. */
  lemma LinksAreEdges(known: set<Edge>, a: string, b: string)
    ensures Linked(AdjacencyOf(known), a, b) <==> exists e | e in known :: e.source == a && e.target == b
  {
    if e: Edge :| e in known && e.source == a && e.target == b {
      assert a in (set e | e in known :: e.source) && b in OutOf(known, a);
    }
  }

  /** What the report says: the shared accounts, and the recorded cycles; nothing twice, and in the
      order of the key. */
  lemma ReportExactly(known: set<Edge>, f: Finding)
    ensures SortedBy(KeyLe, Report(known)) && Distinct(Report(known))
    ensures f in Report(known) <==>
      if f.Shared? then
        var owners := set e | e in known && e.relation == "OWNS_ACCOUNT" && e.target == f.account :: e.source;
        |owners| > 1 && Lists(StrLe, f.owners, owners)
      else IsTriangle(AdjacencyOf(known), f.cycle) || IsDegenerate(AdjacencyOf(known), f.cycle)
  {
    KeyOrder();
    Listed(known, f);
    if f.Shared? { SharedExactly(known, f.owners, f.account); } else { CyclesExactly(AdjacencyOf(known), f.cycle); }
  }

  /** Accounts with more owners come first, as far as five; a cycle comes before an account of at most
      three owners and after one of four or more; equals are ordered by the entities they name. */
  predicate ComesFirst(f: Finding, g: Finding) {
    match (f, g)
    case (Circular(c), Circular(d)) => StrsLe(c, d)
    case (Circular(_), Shared(owners, _)) => |owners| <= 3
    case (Shared(owners, _), Circular(_)) => 4 <= |owners|
    case (Shared(a, account), Shared(b, other)) =>
      if |a| == |b| || (5 <= |a| && 5 <= |b|) then StrsLe(a + [account], b + [other]) else |b| < |a|
  }

  lemma KeyMeans(f: Finding, g: Finding)
    ensures KeyLe(f, g) <==> ComesFirst(f, g)
  {
    CodesDiffer();
    assert "CIRCULAR_RELATION"[0] == 'C' && "SHARED_ACCOUNT"[0] == 'S';
    assert StrLe("CIRCULAR_RELATION", "SHARED_ACCOUNT") && !StrLe("SHARED_ACCOUNT", "CIRCULAR_RELATION");
  }

  /** The order of the report, without its scores. */
  lemma ReportOrder(known: set<Edge>, i: nat, j: nat)
    requires i < j < |Report(known)|
    ensures ComesFirst(Report(known)[i], Report(known)[j])
  {
    KeyOrder();
    KeyMeans(Report(known)[i], Report(known)[j]);
  }

  lemma Listed(known: set<Edge>, f: Finding)
    ensures f in Report(known) <==> if f.Shared? then f in SharedOf(known) else f.cycle in Canonical(AdjacencyOf(known))
  {
    InReport(known, f);
    InUnion(known, f);
  }

  lemma InReport(known: set<Edge>, f: Finding)
    ensures f in Report(known) <==> f in SharedOf(known) + CircularOf(known)
  {
    KeyOrder();
  }

  lemma InUnion(known: set<Edge>, f: Finding)
    ensures f in SharedOf(known) + CircularOf(known) <==>
      if f.Shared? then f in SharedOf(known) else f.cycle in Canonical(AdjacencyOf(known))
  {
    if f.Circular? { InCircular(Canonical(AdjacencyOf(known)), f.cycle); }
  }

  lemma InCircular(cycles: set<seq<string>>, cycle: seq<string>)
    ensures Circular(cycle) in (set t | t in cycles :: Circular(t)) <==> cycle in cycles
  {}
}
