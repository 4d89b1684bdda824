/** Creating, verifying and restoring backups (backup.py), over the tables of Backup. */
module Restore {
  import opened Ordering
  import opened HashChain
  import opened Tables
  import opened AuditCore
  import opened Backup

  // ----- what verification looks at

  predicate IsId(key: Key) { |key| == 1 && key[0].Int? && key[0].n >= 0 }

  /** The ids of a table with an integer primary key. */
  function IdsOf(contents: Contents): (ids: set<nat>)
    ensures forall i | i in ids :: [Int(i)] in contents
  {
    var ids := set key: Key | key in contents && IsId(key) :: key[0].n as nat;
    assert forall key: Key | key in contents && IsId(key) :: key == [Int(key[0].n)];
    ids
  }

  function TextIn(row: Row, column: string): string {
    if column in row && row[column].Text? then row[column].text else ""
  }

  /** The audit rows that the table holds. */
  function AuditOf(l: Library, contents: Contents): map<nat, AuditRow> {
    map i | i in IdsOf(contents) ::
      var row := contents[[Int(i)]];
      AuditRow(i, AuditContent(TextIn(row, "tenant_id"), TextIn(row, "module"), TextIn(row, "event_type"),
                               TextIn(row, "entity_id"),
                               TextIn(row, "occurred_at"), l.payload(TextIn(row, "payload_json"))),
               TextIn(row, "previous_hash"), TextIn(row, "event_hash"))
  }

  function TenantsOf(audit: map<nat, AuditRow>): set<string> { set i | i in audit :: audit[i].content.tenantId }

  ghost predicate ChainsVerify(l: Library, db: Db)
    requires AuditEvents in db
  {
    forall tenant :: Verifies(l.audit, ChainOf(AuditOf(l, db[AuditEvents]), tenant))
  }

  ghost predicate VerdictsTrue(h: Hash, audit: map<nat, AuditRow>, chains: map<string, Verdict>) {
    forall tenant | tenant in chains :: IsVerdict(h, ChainOf(audit, tenant), chains[tenant])
  }

  lemma VerdictAdded(h: Hash, audit: map<nat, AuditRow>, chains: map<string, Verdict>, tenant: string, v: Verdict)
    requires VerdictsTrue(h, audit, chains) && IsVerdict(h, ChainOf(audit, tenant), v)
    ensures VerdictsTrue(h, audit, chains[tenant := v])
  {}

  datatype Report = Report(valid: bool, counts: map<Table, nat>, chains: map<string, Verdict>)

  /** The counts are those of the rows of every table. */
  predicate CountsRows(db: Db, counts: map<Table, nat>) {
    counts.Keys == db.Keys && forall t | t in db :: counts[t] == |db[t]|
  }

  lemma CountsIff(db: Db, counts: map<Table, nat>)
    ensures CountsRows(db, counts) <==> counts == CountsOf(db)
  {}

  /** A report that is true of the database. */
  ghost predicate Truthful(l: Library, db: Db, expected: map<Table, nat>, report: Report)
    requires AuditEvents in db
  {
    && CountsRows(db, report.counts)
    && report.chains.Keys == TenantsOf(AuditOf(l, db[AuditEvents]))
    && VerdictsTrue(l.audit, AuditOf(l, db[AuditEvents]), report.chains)
    && (report.valid <==> CountsRows(db, expected) && ChainsVerify(l, db))
  }

  lemma NoRowsNoChain(audit: map<nat, AuditRow>, tenant: string)
    requires tenant !in TenantsOf(audit)
    ensures ChainOf(audit, tenant) == []
  {
    assert forall i | i in audit :: audit[i].content.tenantId in TenantsOf(audit);
    assert TenantIdSet(audit, tenant) == {};
  }

  /** The tenants that have rows are the only ones whose chains can be broken. */
  lemma AllChains(l: Library, db: Db, chains: map<string, Verdict>)
    requires AuditEvents in db && chains.Keys == TenantsOf(AuditOf(l, db[AuditEvents]))
    requires VerdictsTrue(l.audit, AuditOf(l, db[AuditEvents]), chains)
    ensures (forall tenant | tenant in chains :: chains[tenant].valid) <==> ChainsVerify(l, db)
  {
    var audit := AuditOf(l, db[AuditEvents]);
    forall tenant | tenant in chains ensures chains[tenant].valid <==> Verifies(l.audit, ChainOf(audit, tenant)) {
      VerdictExact(l.audit, ChainOf(audit, tenant), chains[tenant]);
    }
    forall tenant | tenant !in chains ensures Verifies(l.audit, ChainOf(audit, tenant)) {
      NoRowsNoChain(audit, tenant);
    }
  }

  // ----- opening an envelope

  function Opened(l: Library, e: Envelope): Result<Payload> {
    if e.format != FORMAT || e.algorithm != ALGORITHM then Err(UnsupportedEnvelope)
    else
      var plaintext := l.unseal(e.nonce, e.ciphertext);
      if plaintext.None? then Err(AuthenticationFailed)
      else if l.digest(plaintext.value) != e.digest then Err(DigestMismatch)
      else Ok(plaintext.value)
  }

  /** An envelope opens exactly if its format and algorithm are the known ones, its text decrypts and
      the digest of the text is the one it names; otherwise the first of these that fails is reported. */
  lemma OpensExactly(l: Library, e: Envelope)
    ensures e.format != "flagship-logical-backup/v1" || e.algorithm != "AES-256-GCM" <==>
      Opened(l, e) == Err(UnsupportedEnvelope)
    ensures e.format == "flagship-logical-backup/v1" && e.algorithm == "AES-256-GCM" ==>
      match l.unseal(e.nonce, e.ciphertext)
      case None => Opened(l, e) == Err(AuthenticationFailed)
      case Some(p) => Opened(l, e) == if l.digest(p) == e.digest then Ok(p) else Err(DigestMismatch)
  {}

  // ----- sequences

  function MaxOf(ids: set<nat>): (m: nat)
    requires ids != {}
    ensures IsMax(m, ids)
  {
    assert exists m :: IsMax(m, ids) by { var top := HasMax(ids); }
    var m :| IsMax(m, ids);
    m
  }

  predicate IsMax(m: nat, ids: set<nat>) { m in ids && forall i | i in ids :: i <= m }

  lemma {:induction false} HasMax(ids: set<nat>) returns (m: nat)
    requires ids != {}
    ensures IsMax(m, ids)
  {
    m :| m in ids;
    if ids != {m} {
      var x := m;
      var rest := HasMax(ids - {x});
      m := if rest < x then x else rest;
      assert forall i | i in ids :: i == x || i in ids - {x};
    }
  }

  /** setval(sequence, coalesce(max(id), 1), true) */
  function LastValue(contents: Contents): nat { if IdsOf(contents) == {} then 1 else MaxOf(IdsOf(contents)) }

  /** The value to which a restore sets the sequence of a table: no restored id is above it, and it is
      one of them, or 1 if there is none. */
  ghost predicate IsLastValue(contents: Contents, last: nat) {
    && (forall i: nat | [Int(i)] in contents :: i <= last)
    && (if exists i: nat :: [Int(i)] in contents then [Int(last)] in contents else last == 1)
  }

  function SequencesAfter(db: Db): map<Table, nat> { map t | t in db && PrimaryKey(t) == ["id"] :: LastValue(db[t]) }

  lemma LastValueIs(contents: Contents)
    ensures IsLastValue(contents, LastValue(contents))
  {
    forall i: nat | [Int(i)] in contents ensures i in IdsOf(contents) { assert IsId([Int(i)]) && [Int(i)][0].n == i; }
  }

  lemma SequencesAre(db: Db)
    ensures forall t :: t in SequencesAfter(db) <==> t in db && PrimaryKey(t) == ["id"]
    ensures forall t | t in SequencesAfter(db) :: IsLastValue(db[t], SequencesAfter(db)[t])
  {
    forall t | t in SequencesAfter(db) ensures IsLastValue(db[t], SequencesAfter(db)[t]) { LastValueIs(db[t]); }
  }

  /** The next id that the sequence gives out is above every restored one, so an audit append after a
      restore continues its tenant's chain. */
  lemma AppendAfterRestore(l: Library, db: Db, sequences: map<Table, nat>, content: AuditContent)
    requires HexDigest(l.audit) && AuditEvents in db && AuditEvents in sequences
    requires IsLastValue(db[AuditEvents], sequences[AuditEvents])
    requires Verifies(l.audit, ChainOf(AuditOf(l, db[AuditEvents]), content.tenantId))
    ensures var id, audit := sequences[AuditEvents] + 1, AuditOf(l, db[AuditEvents]);
      var row := NewAuditRow(l.audit, audit, id, content);
      && id !in audit
      && ChainOf(audit[id := row], content.tenantId) == ChainOf(audit, content.tenantId) + [AsLink(row)]
      && Verifies(l.audit, ChainOf(audit[id := row], content.tenantId))
  {
    var id, audit := sequences[AuditEvents] + 1, AuditOf(l, db[AuditEvents]);
    forall i | i in audit ensures i < id { assert [Int(i)] in db[AuditEvents]; }
    AppendExtends(l.audit, audit, id, content);
  }

  // ----- the round trip

  /** Opening and loading a backup gives back the source, and its verification succeeds exactly if
      every chain of the source verified. */
  lemma RoundTrip(l: Library, source: Db, order: seq<Table>, backupId: string, now: string, nonce: string,
                  report: Report)
    requires LibraryOk(l) && WellTyped(source) && ForeignKeysHold(source) && ParentsFirst(order)
    requires Truthful(l, source, PayloadOf(l, source, backupId, now).counts, report)
    ensures var p := PayloadOf(l, source, backupId, now);
      && Opened(l, Sealed(l, nonce, p)) == Ok(p)
      && InsertTables(l, EMPTY, p, order, |order|) == Ok(source)
      && (report.valid <==> ChainsVerify(l, source))
  {
    LoadsTheSource(l, source, order, backupId, now);
    OpensAgain(l, nonce, PayloadOf(l, source, backupId, now));
    ValidIff(l, source, PayloadOf(l, source, backupId, now).counts, report);
  }

  lemma ValidIff(l: Library, db: Db, counts: map<Table, nat>, report: Report)
    requires AuditEvents in db && counts == CountsOf(db) && Truthful(l, db, counts, report)
    ensures report.valid <==> ChainsVerify(l, db)
  {
    CountsIff(db, counts);
  }

  // ----- a backup of a broken chain

  /** One audit row that does not point at GENESIS. */
  const FORGED: Row := map["id" := Int(0), "tenant_id" := Text("default"), "previous_hash" := Text("forged")]

  function BrokenDb(): Db { EMPTY[AuditEvents := map[[Int(0)] := FORGED]] }

  lemma BrokenIsWellFormed()
    ensures WellTyped(BrokenDb()) && ForeignKeysHold(BrokenDb())
  {
    forall t: Table ensures t in BrokenDb() { EveryTable(t); }
    assert KeyOf(AuditEvents, FORGED) == [Int(0)];
  }

  lemma BrokenAudit(l: Library, audit: map<nat, AuditRow>)
    requires audit == AuditOf(l, BrokenDb()[AuditEvents])
    ensures 0 in audit && audit.Keys == {0}
    ensures audit[0].id == 0 && audit[0].content.tenantId == "default" && audit[0].previousHash == "forged"
  {
    OneId(FORGED);
  }

  lemma OneId(row: Row)
    ensures IdsOf(map[[Int(0)] := row]) == {0}
  {
    var contents := map[[Int(0)] := row];
    assert [Int(0)] in contents && IsId([Int(0)]);
  }

  lemma BrokenChain(l: Library)
    ensures AuditEvents in BrokenDb() && !ChainsVerify(l, BrokenDb())
  {
    var audit := AuditOf(l, BrokenDb()[AuditEvents]);
    BrokenAudit(l, audit);
    assert audit == map[0 := audit[0]];
    TenantRowsOne(audit[0], "default");
    var chain := ChainOf(audit, "default");
    assert |chain| == 1 && chain[0].previous == "forged";
    assert |GENESIS| == 7;
    assert !GoodAt(l.audit, chain, 0);
  }

  /** Such a backup opens and loads, so a restore of it replaces the destination, and then its
      verification fails. */
  lemma BrokenRestores(l: Library, order: seq<Table>, backupId: string, now: string, nonce: string)
    requires LibraryOk(l) && ParentsFirst(order)
    ensures var p := PayloadOf(l, BrokenDb(), backupId, now);
      && Opened(l, Sealed(l, nonce, p)) == Ok(p) && InsertTables(l, EMPTY, p, order, |order|) == Ok(BrokenDb())
    ensures BrokenDb() != EMPTY && AuditEvents in BrokenDb() && !ChainsVerify(l, BrokenDb())
  {
    BrokenIsWellFormed();
    LoadsTheSource(l, BrokenDb(), order, backupId, now);
    OpensAgain(l, nonce, PayloadOf(l, BrokenDb(), backupId, now));
    BrokenChain(l);
    assert [Int(0)] in BrokenDb()[AuditEvents];
  }

  lemma OpensAgain(l: Library, nonce: string, p: Payload)
    requires LibraryOk(l)
    ensures Opened(l, Sealed(l, nonce, p)) == Ok(p)
  {}

  predicate RowsOf(l: Library, db: Db, tables: map<Table, seq<JsonRow>>)
    requires TotalOrder(l.keyLe)
  {
    forall t | t in tables :: t in db && tables[t] == TableRows(l, db[t])
  }

  lemma AllRowsAre(l: Library, db: Db, tables: map<Table, seq<JsonRow>>)
    requires TotalOrder(l.keyLe) && RowsOf(l, db, tables) && forall t :: t in db ==> t in tables
    ensures tables == AllRows(l, db)
  {
    assert tables.Keys == db.Keys;
  }

  /** The JSON rows are the rows of the table, once each in the order of their keys, with every column
      as it stands and decimals as text. */
  ghost predicate HoldsRows(l: Library, contents: Contents, rows: seq<JsonRow>) {
    exists keys :: Lists(l.keyLe, keys, contents.Keys) && RowsAre(l.codec, contents, keys, rows)
  }

  predicate RowsAre(codec: Codec, contents: Contents, keys: seq<Key>, rows: seq<JsonRow>) {
    |rows| == |keys|
    && forall i | 0 <= i < |keys| :: keys[i] in contents && ColumnsAre(codec, contents[keys[i]], rows[i])
  }

  predicate ColumnsAre(codec: Codec, row: Row, json: JsonRow) {
    && json.Keys == row.Keys
    && forall column | column in row ::
         match row[column]
         case Null => json[column] == JNone
         case Int(n) => json[column] == JNumber(n)
         case Text(text) => json[column] == JText(text)
         case Dec(scaled) => json[column] == JText(codec.show(scaled))
  }

  lemma TableHolds(l: Library, contents: Contents)
    requires TotalOrder(l.keyLe)
    ensures HoldsRows(l, contents, TableRows(l, contents))
  {
    var keys := InOrder(l, contents);
    var rows := TableRows(l, contents);
    forall i | 0 <= i < |keys| ensures keys[i] in contents && ColumnsAre(l.codec, contents[keys[i]], rows[i]) {
      assert keys[i] in keys;
      EncodedColumns(l.codec, contents[keys[i]]);
    }
    assert RowsAre(l.codec, contents, keys, rows);
  }

  lemma EncodedColumns(codec: Codec, row: Row)
    ensures ColumnsAre(codec, row, EncodeRow(codec, row))
  {}

  lemma PayloadHolds(l: Library, db: Db, backupId: string, now: string)
    requires TotalOrder(l.keyLe)
    ensures var p := PayloadOf(l, db, backupId, now);
      && p.tables.Keys == db.Keys && forall t | t in p.tables :: HoldsRows(l, db[t], p.tables[t])
  {
    forall t | t in db ensures HoldsRows(l, db[t], TableRows(l, db[t])) { TableHolds(l, db[t]); }
  }

  // ----- what the schema makes sure of

  /** The columns by which a row is found: a record by tenant, operation and key, a receipt by consumer
      and event, an entity by tenant and entity, a run and its workflow by the run, all else by its id. */
  lemma RowKeys(row: Row)
    ensures KeyOf(IdempotencyRecords, row) ==
      [ColumnValue(row, "tenant_id"), ColumnValue(row, "operation"), ColumnValue(row, "idempotency_key")]
    ensures KeyOf(ConsumerReceipts, row) == [ColumnValue(row, "consumer_name"), ColumnValue(row, "event_id")]
    ensures KeyOf(GraphEntities, row) == [ColumnValue(row, "tenant_id"), ColumnValue(row, "entity_id")]
    ensures KeyOf(TaxRuleRuns, row) == KeyOf(TaxRunWorkflow, row) == [ColumnValue(row, "run_id")]
    ensures forall t | t !in {IdempotencyRecords, ConsumerReceipts, GraphEntities, TaxRuleRuns, TaxRunWorkflow} ::
      KeyOf(t, row) == [ColumnValue(row, "id")]
  {}

  /** No finding and no workflow without its run, and no transition without its case. */
  lemma NoOrphans(db: Db, key: Key)
    requires WellTyped(db) && ForeignKeysHold(db)
    ensures key in db[TaxFindings] ==> [ColumnValue(db[TaxFindings][key], "run_id")] in db[TaxRuleRuns]
    ensures key in db[TaxRunWorkflow] ==> [ColumnValue(db[TaxRunWorkflow][key], "run_id")] in db[TaxRuleRuns]
    ensures key in db[ControlCaseTransitions] ==>
      [ColumnValue(db[ControlCaseTransitions][key], "case_id")] in db[ControlCases]
  {
    if key in db[TaxFindings] { assert RefersTo(db, TaxFindings, db[TaxFindings][key]); }
    if key in db[TaxRunWorkflow] { assert RefersTo(db, TaxRunWorkflow, db[TaxRunWorkflow][key]); }
    if key in db[ControlCaseTransitions] {
      assert RefersTo(db, ControlCaseTransitions, db[ControlCaseTransitions][key]);
    }
  }

  /** Money and rates are text in a backup and come back as the decimals they were. */
  lemma MoneyComesBack(codec: Codec, n: int)
    requires ReadsBack(codec)
    ensures Encode(codec, Dec(n)) == JText(codec.show(n))
    ensures forall column | column in {"amount", "tax_rate", "tax_amount"} ::
      Decode(codec, TaxTransactions, column, JText(codec.show(n))) == Some(Dec(n))
    ensures Decode(codec, GraphEdges, "amount", JText(codec.show(n))) == Some(Dec(n))
  {}

  // ----- the service

  class Database {
    var tables: Db
    var sequences: map<Table, nat>

    constructor (tables: Db, sequences: map<Table, nat>)
      ensures this.tables == tables && this.sequences == sequences
    {
      this.tables, this.sequences := tables, sequences;
    }

    /** What the schema guarantees. */
    predicate Valid() reads this { WellTyped(tables) && ForeignKeysHold(tables) }
  }

  class BackupService {
    const library: Library
    const order: seq<Table>

    constructor (library: Library, order: seq<Table>)
      ensures this.library == library && this.order == order
    {
      this.library, this.order := library, order;
    }

    /** create: read every table in the order of its key, count, seal. */
    method Create(db: Database, backupId: string, now: string, nonce: string) returns (e: Envelope)
      requires TotalOrder(library.keyLe) && ParentsFirst(order) && db.Valid()
      ensures var p := PayloadOf(library, db.tables, backupId, now);
        && e == Envelope("flagship-logical-backup/v1", "AES-256-GCM", nonce, library.digest(p), library.seal(nonce, p))
        && p.createdAt == now && p.backupId == backupId && CountsRows(db.tables, p.counts)
        && p.tables.Keys == db.tables.Keys
        && forall t | t in p.tables :: HoldsRows(library, db.tables[t], p.tables[t])
    {
      PayloadHolds(library, db.tables, backupId, now);
      var tables := ReadTables(db.tables);
      e := Sealed(library, nonce, Payload(now, backupId, tables, CountsOf(db.tables)));
    }

    method ReadTables(db: Db) returns (tables: map<Table, seq<JsonRow>>)
      requires TotalOrder(library.keyLe) && ParentsFirst(order) && WellTyped(db)
      ensures tables == AllRows(library, db)
    {
      tables := map[];
      for n := 0 to |order|
        invariant forall t :: t in tables <==> t in order[..n]
        invariant RowsOf(library, db, tables)
      {
        assert order[..n + 1] == order[..n] + [order[n]];
        tables := tables[order[n] := TableRows(library, db[order[n]])];
      }
      assert order[..|order|] == order;
      AllRowsAre(library, db, tables);
    }

    /** verify: count the rows, and walk the chain of every tenant that has any. */
    method Verify(db: Database, expected: map<Table, nat>) returns (report: Report)
      requires AuditEvents in db.tables
      ensures Truthful(library, db.tables, expected, report)
    {
      var counts := CountsOf(db.tables);
      var chains := VerifyChains(AuditOf(library, db.tables[AuditEvents]));
      AllChains(library, db.tables, chains);
      CountsIff(db.tables, counts);
      CountsIff(db.tables, expected);
      report := Report(counts == expected && forall tenant | tenant in chains :: chains[tenant].valid, counts, chains);
    }

    method VerifyChains(audit: map<nat, AuditRow>) returns (chains: map<string, Verdict>)
      ensures chains.Keys == TenantsOf(audit)
      ensures VerdictsTrue(library.audit, audit, chains)
    {
      chains := map[];
      var rest := TenantsOf(audit);
      while rest != {}
        invariant rest <= TenantsOf(audit) && chains.Keys == TenantsOf(audit) - rest
        invariant VerdictsTrue(library.audit, audit, chains)
        decreases |rest|
      {
        var tenant :| tenant in rest;
        var verdict := VerifyRows(library.audit, TenantRows(audit, tenant));
        VerdictAdded(library.audit, audit, chains, tenant, verdict);
        chains := chains[tenant := verdict];
        rest := rest - {tenant};
      }
    }

    /** restore: an envelope that does not open, or rows that do not go in, leave the destination
        alone.  Otherwise its tables are the loaded ones, whether or not they then verify. */
    method Restore(e: Envelope, destination: Database) returns (r: Result<Report>)
      requires ParentsFirst(order) && destination.Valid()
      modifies destination
      ensures var found := Opened(library, e);
        if found.Err? then r == Err(found.error) && destination.tables == old(destination.tables)
          && destination.sequences == old(destination.sequences)
        else
          var loaded := InsertTables(library, EMPTY, found.value, order, |order|);
          if loaded.Err? then r == Err(loaded.error) && destination.tables == old(destination.tables)
            && destination.sequences == old(destination.sequences)
          else
            && destination.tables == loaded.value
            && (forall t :: t in destination.sequences <==> t in loaded.value && PrimaryKey(t) == ["id"])
            && (forall t | t in destination.sequences :: IsLastValue(loaded.value[t], destination.sequences[t]))
            && AuditEvents in loaded.value && ForeignKeysHold(loaded.value)
            && (if CountsRows(loaded.value, found.value.counts) && ChainsVerify(library, loaded.value)
                then r.Ok? && Truthful(library, loaded.value, found.value.counts, r.value)
                else r == Err(VerificationFailed))
    {
      var found := Opened(library, e);
      if found.Err? { return Err(found.error); }
      var p := found.value;
      var emptied := DeleteAll(destination.tables);
      var loaded := InsertAll(emptied, p);
      if loaded.Err? { return Err(loaded.error); }
      destination.tables := loaded.value;
      destination.sequences := SequencesAfter(loaded.value);
      SequencesAre(loaded.value);
      var report := Verify(destination, p.counts);
      return if report.valid then Ok(report) else Err(VerificationFailed);
    }

    /** The delete statements, children first. */
    method DeleteAll(tables: Db) returns (emptied: Db)
      requires ParentsFirst(order) && WellTyped(tables) && ForeignKeysHold(tables)
      ensures emptied == EMPTY
    {
      emptied := tables;
      NothingEmptied(tables, order);
      for k := 0 to |order|
        invariant emptied == Emptied(tables, order, k) && ForeignKeysHold(emptied)
      {
        NextDelete(tables, order, k, emptied);
        emptied := emptied[order[|order| - 1 - k] := map[]];
      }
      DeletesAreSafe(tables, order, |order|);
    }

    /** The insert statements, parents first, row by row. */
    method InsertAll(start: Db, p: Payload) returns (r: Result<Db>)
      requires ForeignKeysHold(start) && AuditEvents in start
      ensures r == InsertTables(library, start, p, order, |order|)
      ensures r.Ok? ==> ForeignKeysHold(r.value) && AuditEvents in r.value
    {
      r := Ok(start);
      for n := 0 to |order|
        invariant r.Ok? && r == InsertTables(library, start, p, order, n)
        invariant ForeignKeysHold(r.value) && AuditEvents in r.value
      {
        var next := InsertTable(r.value, order[n], RowsFor(p, order[n]));
        TablesStep(library, start, p, order, n, r.value, next);
        r := next;
        if r.Err? { return; }
      }
    }

    method InsertTable(start: Db, t: Table, rows: seq<JsonRow>) returns (r: Result<Db>)
      requires ForeignKeysHold(start) && AuditEvents in start
      ensures r == InsertRows(library, start, t, rows, |rows|)
      ensures r.Ok? ==> ForeignKeysHold(r.value) && AuditEvents in r.value
    {
      r := Ok(start);
      for n := 0 to |rows|
        invariant r.Ok? && r == InsertRows(library, start, t, rows, n)
        invariant ForeignKeysHold(r.value) && AuditEvents in r.value
      {
        var next := InsertRow(library, r.value, t, rows[n]);
        RowsStep(library, start, t, rows, n, r.value, next);
        r := next;
        if r.Err? { return; }
      }
    }
  }

  /** restore on such a backup: an error, and an empty destination that is not empty any more. */
  method RestoreBroken(service: BackupService, destination: Database, backupId: string, now: string, nonce: string)
    returns (r: Result<Report>)
    requires LibraryOk(service.library) && ParentsFirst(service.order) && destination.Valid()
    requires destination.tables == EMPTY
    modifies destination
    ensures r == Err(VerificationFailed) && destination.tables == BrokenDb() != EMPTY
  {
    BrokenRestores(service.library, service.order, backupId, now, nonce);
    r := service.Restore(Sealed(service.library, nonce, PayloadOf(service.library, BrokenDb(), backupId, now)),
                         destination);
  }

  lemma NothingEmptied(db: Db, order: seq<Table>)
    ensures Emptied(db, order, 0) == db
  {
    assert order[|order|..] == [];
  }

  lemma EmptiedMore(db: Db, order: seq<Table>, k: nat)
    requires k < |order| && order[|order| - 1 - k] in db
    ensures Emptied(db, order, k + 1) == Emptied(db, order, k)[order[|order| - 1 - k] := map[]]
  {
    var cut := |order| - 1 - k;
    assert order[cut..] == [order[cut]] + order[cut + 1..];
  }

  /** One more deletion, and still no reference is broken. */
  lemma NextDelete(db: Db, order: seq<Table>, k: nat, emptied: Db)
    requires ParentsFirst(order) && WellTyped(db) && ForeignKeysHold(db) && k < |order|
    requires emptied == Emptied(db, order, k)
    ensures Emptied(db, order, k + 1) == emptied[order[|order| - 1 - k] := map[]]
    ensures ForeignKeysHold(emptied[order[|order| - 1 - k] := map[]])
  {
    EmptiedMore(db, order, k);
    DeletesAreSafe(db, order, k + 1);
  }

  lemma {:induction false} RowsStayErr(l: Library, db: Db, t: Table, rows: seq<JsonRow>, n: nat)
    requires n <= |rows| && InsertRows(l, db, t, rows, n).Err?
    ensures InsertRows(l, db, t, rows, |rows|) == InsertRows(l, db, t, rows, n)
    decreases |rows| - n
  {
    if n < |rows| {
      NextStaysErr(l, db, t, rows, n);
      RowsStayErr(l, db, t, rows, n + 1);
    }
  }

  lemma NextStaysErr(l: Library, db: Db, t: Table, rows: seq<JsonRow>, n: nat)
    requires n < |rows| && InsertRows(l, db, t, rows, n).Err?
    ensures InsertRows(l, db, t, rows, n + 1) == InsertRows(l, db, t, rows, n)
  {}

  lemma {:induction false} TablesStayErr(l: Library, db: Db, p: Payload, order: seq<Table>, n: nat)
    requires n <= |order| && InsertTables(l, db, p, order, n).Err?
    ensures InsertTables(l, db, p, order, |order|) == InsertTables(l, db, p, order, n)
    decreases |order| - n
  {
    if n < |order| { TablesStayErr(l, db, p, order, n + 1); }
  }

  lemma RowsStep(l: Library, start: Db, t: Table, rows: seq<JsonRow>, n: nat, before: Db, next: Result<Db>)
    requires n < |rows| && InsertRows(l, start, t, rows, n) == Ok(before) && next == InsertRow(l, before, t, rows[n])
    requires ForeignKeysHold(before) && AuditEvents in before
    ensures InsertRows(l, start, t, rows, n + 1) == next
    ensures if next.Ok? then ForeignKeysHold(next.value) && AuditEvents in next.value else
      InsertRows(l, start, t, rows, |rows|) == next
  {
    if next.Ok? { InsertIsSafe(l, before, t, rows[n]); } else { RowsStayErr(l, start, t, rows, n + 1); }
  }

  lemma TablesStep(l: Library, start: Db, p: Payload, order: seq<Table>, n: nat, before: Db, next: Result<Db>)
    requires n < |order| && InsertTables(l, start, p, order, n) == Ok(before)
    requires next == InsertRows(l, before, order[n], RowsFor(p, order[n]), |RowsFor(p, order[n])|)
    ensures InsertTables(l, start, p, order, n + 1) == next
    ensures next.Err? ==> InsertTables(l, start, p, order, |order|) == next
  {
    if next.Err? { TablesStayErr(l, start, p, order, n + 1); }
  }
}
