/**
 Idempotency keys under concurrency (taxflow._idempotent_response, _store_idempotent_response): any
 number of domain transactions are open at once; one with a key takes the key's lock, reads the
 record of the key, works only if there is none, and inserts its own record before it commits.
 */
module Idempotency {
  import opened Ordering
  import opened AuditCore
  import opened HashChain
  import L = Ledger

  datatype Record = Record(requestHash: string, reply: string)

  /** What an open call knows: its request, what its read found (None before the read), and the
      record that it has inserted and not yet committed. */
  datatype Call = Call(requestHash: string, found: Option<Option<Record>>, stored: Option<Record>)

  /** The ledger of domain transactions, the calls that they serve, the committed records by key, and,
      for the claims only, the keys of the records in commit order. */
  datatype State = State(ledger: L.State, calls: map<nat, Call>, records: map<string, Record>, writes: seq<string>)

  datatype Action =
    | Begin(x: nat, tenant: string, key: Option<string>, requestHash: string)
    | LockKey(x: nat)
    | Read(x: nat)
    | Work(a: L.Action)
    | Store(x: nat, reply: string)
    | Commit(x: nat)
    | Abort(x: nat)

  const Init := State(L.Init, map[], map[], [])

  function Lookup(records: map<string, Record>, key: string): Option<Record> {
    if key in records then Some(records[key]) else None
  }

  /** A call is open. */
  predicate Known(s: State, x: nat) { x in s.ledger.open && x in s.calls }

  /** The lock of the key is held and the record has not been read. */
  predicate CanRead(s: State, x: nat) {
    Known(s, x) && s.ledger.open[x].key.Some? && s.ledger.open[x].phase != L.Started && s.calls[x].found.None?
  }

  /** The call has no key, or its read found no record. */
  predicate IsNew(t: L.Txn, c: Call) { t.key.None? || c.found == Some(None) }

  predicate CanWork(s: State, a: L.Action) {
    (a.LockAudit? || a.Append?) && Known(s, a.x) && IsNew(s.ledger.open[a.x], s.calls[a.x])
  }

  predicate CanStore(s: State, x: nat) {
    && Known(s, x) && s.ledger.open[x].key.Some? && s.ledger.open[x].phase == L.AuditHeld
    && s.calls[x].found == Some(None) && s.calls[x].stored.None?
  }

  /** A new call commits its work, with its record if it has a key; a repeat of the same request
      returns the reply it found.  A different request under a used key can only abort. */
  predicate MayCommit(t: L.Txn, c: Call) {
    t.key.None? || c.stored.Some?
      || (c.found.Some? && c.found.value.Some? && c.found.value.value.requestHash == c.requestHash)
  }

  predicate CanCommit(s: State, x: nat) { Known(s, x) && MayCommit(s.ledger.open[x], s.calls[x]) }

  /** The unique key of the records fires. */
  predicate Clashes(s: State, x: nat)
    requires Known(s, x)
  {
    s.calls[x].stored.Some? && s.ledger.open[x].key.Some? && s.ledger.open[x].key.value in s.records
  }

  function Closed(h: Hash, s: State, a: L.Action, x: nat): State {
    s.(ledger := L.Apply(h, s.ledger, a), calls := s.calls - {x})
  }

  function Committed(h: Hash, s: State, x: nat): State
    requires Known(s, x)
  {
    var closed, t, c := Closed(h, s, L.Commit(x), x), s.ledger.open[x], s.calls[x];
    if t.key.Some? && c.stored.Some?
    then closed.(records := s.records[t.key.value := c.stored.value], writes := s.writes + [t.key.value])
    else closed
  }

  /** One step; a step that is not possible now changes nothing. */
  function Apply(h: Hash, s: State, a: Action): State {
    match a
    case Begin(x, tenant, key, requestHash) =>
      if x in s.ledger.open || x in s.calls then s
      else s.(ledger := L.Apply(h, s.ledger, L.Begin(x, tenant, key)),
              calls := s.calls[x := Call(requestHash, None, None)])
    case LockKey(x) => s.(ledger := L.Apply(h, s.ledger, L.LockKey(x)))
    case Read(x) =>
      if CanRead(s, x)
      then s.(calls := s.calls[x := s.calls[x].(found := Some(Lookup(s.records, s.ledger.open[x].key.value)))]) else s
    case Work(b) => if CanWork(s, b) then s.(ledger := L.Apply(h, s.ledger, b)) else s
    case Store(x, reply) =>
      if CanStore(s, x)
      then s.(calls := s.calls[x := s.calls[x].(stored := Some(Record(s.calls[x].requestHash, reply)))]) else s
    case Commit(x) =>
      if !CanCommit(s, x) then s else if Clashes(s, x) then Closed(h, s, L.Abort(x), x) else Committed(h, s, x)
    case Abort(x) => Closed(h, s, L.Abort(x), x)
  }

  function Run(h: Hash, s: State, actions: seq<Action>): State
    decreases |actions|
  {
    if actions == [] then s else Run(h, Apply(h, s, actions[0]), actions[1..])
  }

  // ----- the invariant

  /** What a call has read is what the table says, its record is one for a key without one, and it
      has rows only if it is new. */
  predicate CallOk(records: map<string, Record>, t: L.Txn, c: Call) {
    && (c.found.Some? ==> t.key.Some? && t.phase != L.Started && c.found.value == Lookup(records, t.key.value))
    && (c.stored.Some? ==> c.found == Some(None))
    && (!IsNew(t, c) ==> t.audit == map[])
  }

  ghost predicate CallsOk(open: map<nat, L.Txn>, calls: map<nat, Call>, records: map<string, Record>) {
    calls.Keys == open.Keys && forall x | x in open :: CallOk(records, open[x], calls[x])
  }

  function Count(writes: seq<string>, key: string): nat {
    if writes == [] then 0 else Count(writes[..|writes| - 1], key) + if writes[|writes| - 1] == key then 1 else 0
  }

  /** Every record was written once. */
  ghost predicate WrittenOnce(records: map<string, Record>, writes: seq<string>) {
    forall key: string :: Count(writes, key) == if key in records then 1 else 0
  }

  ghost predicate Inv(h: Hash, s: State) {
    && L.Inv(h, s.ledger)
    && CallsOk(s.ledger.open, s.calls, s.records)
    && WrittenOnce(s.records, s.writes)
  }

  lemma CountMore(writes: seq<string>, last: string, key: string)
    ensures Count(writes + [last], key) == Count(writes, key) + if last == key then 1 else 0
  {
    assert (writes + [last])[..|writes|] == writes;
  }

  lemma WrittenMore(records: map<string, Record>, writes: seq<string>, key: string, record: Record)
    requires WrittenOnce(records, writes) && key !in records
    ensures WrittenOnce(records[key := record], writes + [key])
  {
    forall k: string ensures Count(writes + [key], k) == if k in records[key := record] then 1 else 0 {
      CountMore(writes, key, k);
    }
  }

  /** No other open call has read the record of a key whose lock is held. */
  lemma OthersHaveNotRead(open: map<nat, L.Txn>, calls: map<nat, Call>, records: map<string, Record>, x: nat, y: nat)
    requires CallsOk(open, calls, records) && L.AllApart(open) && x in open && y in open && x != y
    requires open[x].key.Some? && open[x].phase != L.Started && calls[y].found.Some?
    ensures open[y].key.Some? && open[y].key != open[x].key
  {
    assert L.Apart(open[x], open[y]) && CallOk(records, open[y], calls[y]);
  }

  /** A commit of a record leaves every other open call consistent with the table. */
  lemma RecordKeepsCalls(open: map<nat, L.Txn>, calls: map<nat, Call>, records: map<string, Record>, x: nat,
                         record: Record)
    requires CallsOk(open, calls, records) && L.AllApart(open) && x in open && open[x].key.Some?
    requires calls[x].stored.Some?
    ensures open[x].key.value !in records
    ensures CallsOk(open - {x}, calls - {x}, records[open[x].key.value := record])
  {
    assert CallOk(records, open[x], calls[x]);
    forall y | y in open && y != x ensures CallOk(records[open[x].key.value := record], open[y], calls[y]) {
      assert CallOk(records, open[y], calls[y]);
      if calls[y].found.Some? { OthersHaveNotRead(open, calls, records, x, y); }
    }
  }

  lemma FewerCalls(open: map<nat, L.Txn>, calls: map<nat, Call>, records: map<string, Record>, x: nat)
    requires CallsOk(open, calls, records)
    ensures CallsOk(open - {x}, calls - {x}, records)
  {}

  lemma CallChanged(open: map<nat, L.Txn>, calls: map<nat, Call>, records: map<string, Record>, x: nat, t: L.Txn,
                    c: Call)
    requires CallsOk(open, calls, records) && CallOk(records, t, c)
    ensures CallsOk(open[x := t], calls[x := c], records)
  {}

  /** The ledger leaves a transaction alone, or moves it on without taking its key away, and only an
      append gives it rows. */
  lemma WorkKeepsCalls(h: Hash, s: State, a: L.Action)
    requires CallsOk(s.ledger.open, s.calls, s.records) && (a.LockKey? || CanWork(s, a))
    ensures CallsOk(L.Apply(h, s.ledger, a).open, s.calls, s.records)
  {
    var open' := L.Apply(h, s.ledger, a).open;
    if open' != s.ledger.open {
      WorkMoves(h, s.ledger, a);
      assert CallOk(s.records, s.ledger.open[a.x], s.calls[a.x]);
      CallChanged(s.ledger.open, s.calls, s.records, a.x, open'[a.x], s.calls[a.x]);
      assert s.calls[a.x := s.calls[a.x]] == s.calls;
    }
  }

  lemma WorkMoves(h: Hash, ledger: L.State, a: L.Action)
    requires a.LockKey? || a.LockAudit? || a.Append?
    ensures var open' := L.Apply(h, ledger, a).open;
      open' == ledger.open
      || (a.x in ledger.open && open' == ledger.open[a.x := open'[a.x]] && open'[a.x].key == ledger.open[a.x].key
          && open'[a.x].phase != L.Started && (!a.Append? ==> open'[a.x].audit == ledger.open[a.x].audit))
  {}

  lemma BeginKeeps(h: Hash, s: State, x: nat, tenant: string, key: Option<string>, requestHash: string)
    requires CallsOk(s.ledger.open, s.calls, s.records) && x !in s.ledger.open
    ensures CallsOk(L.Apply(h, s.ledger, L.Begin(x, tenant, key)).open, s.calls[x := Call(requestHash, None, None)],
                    s.records)
  {
    CallChanged(s.ledger.open, s.calls, s.records, x, L.Txn(tenant, key, L.Started, map[], map[], map[]),
                Call(requestHash, None, None));
  }

  lemma CallKeeps(open: map<nat, L.Txn>, calls: map<nat, Call>, records: map<string, Record>, x: nat, c: Call)
    requires CallsOk(open, calls, records) && x in open && CallOk(records, open[x], c)
    ensures CallsOk(open, calls[x := c], records)
  {
    CallChanged(open, calls, records, x, open[x], c);
    assert open[x := open[x]] == open;
  }

  lemma ReadKeeps(s: State, x: nat)
    requires CallsOk(s.ledger.open, s.calls, s.records) && CanRead(s, x)
    ensures CallsOk(s.ledger.open,
                    s.calls[x := s.calls[x].(found := Some(Lookup(s.records, s.ledger.open[x].key.value)))], s.records)
  {
    assert CallOk(s.records, s.ledger.open[x], s.calls[x]);
    CallKeeps(s.ledger.open, s.calls, s.records, x,
              s.calls[x].(found := Some(Lookup(s.records, s.ledger.open[x].key.value))));
  }

  lemma StoreKeeps(s: State, x: nat, record: Record)
    requires CallsOk(s.ledger.open, s.calls, s.records) && CanStore(s, x)
    ensures CallsOk(s.ledger.open, s.calls[x := s.calls[x].(stored := Some(record))], s.records)
  {
    assert CallOk(s.records, s.ledger.open[x], s.calls[x]);
    CallKeeps(s.ledger.open, s.calls, s.records, x, s.calls[x].(stored := Some(record)));
  }

  /** The two tables and the calls after a step. */
  ghost predicate TablesOk(s: State) { CallsOk(s.ledger.open, s.calls, s.records) && WrittenOnce(s.records, s.writes) }

  lemma CommitKeeps(h: Hash, s: State, x: nat)
    requires TablesOk(s) && L.AllApart(s.ledger.open) && CanCommit(s, x)
    ensures !Clashes(s, x) && TablesOk(Committed(h, s, x))
  {
    var t, c := s.ledger.open[x], s.calls[x];
    if t.key.Some? && c.stored.Some? {
      RecordKeepsCalls(s.ledger.open, s.calls, s.records, x, c.stored.value);
      WrittenMore(s.records, s.writes, t.key.value, c.stored.value);
    } else {
      FewerCalls(s.ledger.open, s.calls, s.records, x);
    }
  }

  lemma TablesKeep(h: Hash, s: State, a: Action)
    requires TablesOk(s) && L.AllApart(s.ledger.open)
    ensures TablesOk(Apply(h, s, a))
  {
    match a
    case Begin(x, tenant, key, requestHash) =>
      if x !in s.ledger.open { BeginKeeps(h, s, x, tenant, key, requestHash); }
    case LockKey(x) => WorkKeepsCalls(h, s, L.LockKey(x));
    case Read(x) => if CanRead(s, x) { ReadKeeps(s, x); }
    case Work(b) => if CanWork(s, b) { WorkKeepsCalls(h, s, b); }
    case Store(x, reply) => if CanStore(s, x) { StoreKeeps(s, x, Record(s.calls[x].requestHash, reply)); }
    case Commit(x) => if CanCommit(s, x) { CommitKeeps(h, s, x); }
    case Abort(x) => FewerCalls(s.ledger.open, s.calls, s.records, x);
  }

  /** Every step is a step of the ledger, or none. */
  function LedgerStep(s: State, a: Action): Option<L.Action> {
    match a
    case Begin(x, tenant, key, _) => if x in s.ledger.open || x in s.calls then None else Some(L.Begin(x, tenant, key))
    case LockKey(x) => Some(L.LockKey(x))
    case Read(_) => None
    case Work(b) => if CanWork(s, b) then Some(b) else None
    case Store(_, _) => None
    case Commit(x) => if !CanCommit(s, x) then None else Some(if Clashes(s, x) then L.Abort(x) else L.Commit(x))
    case Abort(x) => Some(L.Abort(x))
  }

  lemma LedgerSteps(h: Hash, s: State, a: Action)
    ensures Apply(h, s, a).ledger ==
      if LedgerStep(s, a).Some? then L.Apply(h, s.ledger, LedgerStep(s, a).value) else s.ledger
  {}

  lemma LedgerKeeps(h: Hash, s: State, a: Action)
    requires HexDigest(h) && L.Inv(h, s.ledger)
    ensures L.Inv(h, Apply(h, s, a).ledger)
  {
    LedgerSteps(h, s, a);
    if LedgerStep(s, a).Some? { L.ApplyKeeps(h, s.ledger, LedgerStep(s, a).value); }
  }

  lemma {:induction false} RunKeeps(h: Hash, s: State, actions: seq<Action>)
    requires HexDigest(h) && Inv(h, s)
    ensures Inv(h, Run(h, s, actions))
    decreases |actions|
  {
    if actions != [] {
      LedgerKeeps(h, s, actions[0]);
      TablesKeep(h, s, actions[0]);
      RunKeeps(h, Apply(h, s, actions[0]), actions[1..]);
    }
  }

  // ----- what a key guarantees

  /** In every run, whatever calls are open at once: each key gets at most one record, the unique key
      of the records never fires, whoever holds the key and has read finds exactly the committed
      record, and who finds one adds no row. */
  lemma OneRecordPerKey(h: Hash, actions: seq<Action>, key: string, x: nat)
    requires HexDigest(h)
    ensures var s := Run(h, Init, actions);
      && Count(s.writes, key) == (if key in s.records then 1 else 0)
      && (CanCommit(s, x) ==> !Clashes(s, x))
      && (Known(s, x) && s.ledger.open[x].key == Some(key) && s.calls[x].found.Some? ==>
            && s.calls[x].found.value == Lookup(s.records, key)
            && (key in s.records ==> s.ledger.open[x].audit == map[] && s.calls[x].stored.None?))
  {
    L.InitInv(h);
    RunKeeps(h, Init, actions);
    var s := Run(h, Init, actions);
    if Known(s, x) && s.ledger.open[x].key == Some(key) && s.calls[x].found.Some? { HolderFinds(s, x, key); }
    if CanCommit(s, x) { CommitKeeps(h, s, x); }
  }

  lemma HolderFinds(s: State, x: nat, key: string)
    requires TablesOk(s) && Known(s, x) && s.ledger.open[x].key == Some(key) && s.calls[x].found.Some?
    ensures s.calls[x].found.value == Lookup(s.records, key)
    ensures key in s.records ==> s.ledger.open[x].audit == map[] && s.calls[x].stored.None?
  {
    assert CallOk(s.records, s.ledger.open[x], s.calls[x]);
  }

  lemma RecordStep(h: Hash, s: State, a: Action, key: string)
    requires key in s.records
    ensures key in Apply(h, s, a).records && Apply(h, s, a).records[key] == s.records[key]
  {}

  /** A committed record stays as it is. */
  lemma {:induction false} RecordStays(h: Hash, s: State, actions: seq<Action>, key: string)
    requires key in s.records
    ensures key in Run(h, s, actions).records && Run(h, s, actions).records[key] == s.records[key]
    decreases |actions|
  {
    if actions != [] {
      RecordStep(h, s, actions[0], key);
      RecordStays(h, Apply(h, s, actions[0]), actions[1..], key);
    }
  }

  /** Once a record is committed, every later call that gets as far as reading it finds that record:
      it commits only as a repeat of the same request, and then it changes nothing. */
  lemma LaterHoldersRepeat(h: Hash, before: seq<Action>, after: seq<Action>, key: string, x: nat)
    requires HexDigest(h) && key in Run(h, Init, before).records
    ensures var record, s := Run(h, Init, before).records[key], Run(h, Run(h, Init, before), after);
      Known(s, x) && s.ledger.open[x].key == Some(key) && s.calls[x].found.Some? ==>
        && s.calls[x].found == Some(Some(record)) && !CanStore(s, x)
        && (forall a: L.Action | a.x == x :: !CanWork(s, a))
        && (CanCommit(s, x) <==> s.calls[x].requestHash == record.requestHash)
        && (CanCommit(s, x) ==>
              && Committed(h, s, x).records == s.records
              && Committed(h, s, x).ledger.db.audit == s.ledger.db.audit)
  {
    var middle := Run(h, Init, before);
    L.InitInv(h);
    RunKeeps(h, Init, before);
    RunKeeps(h, middle, after);
    RecordStays(h, middle, after, key);
    var s := Run(h, middle, after);
    if Known(s, x) && s.ledger.open[x].key == Some(key) && s.calls[x].found.Some? {
      RepeatChangesNothing(h, s, x, key);
    }
  }

  lemma RepeatChangesNothing(h: Hash, s: State, x: nat, key: string)
    requires TablesOk(s) && Known(s, x) && s.ledger.open[x].key == Some(key) && s.calls[x].found.Some?
    requires key in s.records
    ensures s.calls[x].found == Some(Some(s.records[key])) && s.calls[x].stored.None?
    ensures Committed(h, s, x).records == s.records && Committed(h, s, x).ledger.db.audit == s.ledger.db.audit
  {
    assert CallOk(s.records, s.ledger.open[x], s.calls[x]);
    assert s.ledger.db.audit + map[] == s.ledger.db.audit;
  }
}
