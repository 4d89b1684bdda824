/** Logical backups (backup.py): what a backup holds, and what restoring it leaves in a database. */
module Backup {
  import opened Ordering
  import opened Tables
  import opened AuditCore

  datatype Table =
    | AuditEvents | TaxTransactions | TaxRuleRuns | TaxFindings | TaxRunWorkflow | RegulationDocuments
    | ControlEvents | ControlCases | ControlCaseTransitions | GraphEntities | GraphEdges
    | IdempotencyRecords | OutboxEvents | DeadLetterEvents | ConsumerReceipts

  /** A column value; Decimal columns hold exact scaled integers. */
  datatype Value = Null | Int(n: int) | Text(text: string) | Dec(scaled: int)

  type Row = map<string, Value>

  type Key = seq<Value>

  /** The rows of a table by primary key. */
  type Contents = map<Key, Row>

  type Db = map<Table, Contents>

  function PrimaryKey(t: Table): seq<string> {
    match t
    case TaxRuleRuns => ["run_id"]
    case TaxRunWorkflow => ["run_id"]
    case GraphEntities => ["tenant_id", "entity_id"]
    case IdempotencyRecords => ["tenant_id", "operation", "idempotency_key"]
    case ConsumerReceipts => ["consumer_name", "event_id"]
    case _ => ["id"]
  }

  datatype ForeignKey = ForeignKey(column: string, parent: Table)

  function Reference(t: Table): Option<ForeignKey> {
    match t
    case TaxFindings => Some(ForeignKey("run_id", TaxRuleRuns))
    case TaxRunWorkflow => Some(ForeignKey("run_id", TaxRuleRuns))
    case ControlCaseTransitions => Some(ForeignKey("case_id", ControlCases))
    case _ => None
  }

  predicate DecimalColumn(t: Table, column: string) {
    (t == TaxTransactions && column in {"amount", "tax_rate", "tax_amount"}) || (t == GraphEdges && column == "amount")
  }

  function ColumnValue(row: Row, column: string): Value { if column in row then row[column] else Null }

  function KeyOf(t: Table, row: Row): Key {
    seq(|PrimaryKey(t)|, i requires 0 <= i < |PrimaryKey(t)| => ColumnValue(row, PrimaryKey(t)[i]))
  }

  /** The row's parent is there. */
  predicate RefersTo(db: Db, t: Table, row: Row) {
    var fk := Reference(t);
    fk.Some? ==> fk.value.parent in db && [ColumnValue(row, fk.value.column)] in db[fk.value.parent]
  }

  predicate ForeignKeysHold(db: Db) {
    forall t, key | t in db && key in db[t] :: RefersTo(db, t, db[t][key])
  }

  /** Every table exists, rows stand under their primary keys, and decimals in decimal columns. */
  predicate WellTyped(db: Db) {
    && (forall t: Table :: t in db)
    && (forall t, key | t in db && key in db[t] :: KeyOf(t, db[t][key]) == key)
    && (forall t, key, column | t in db && key in db[t] && column in db[t][key] ::
          db[t][key][column].Dec? <==> DecimalColumn(t, column) && db[t][key][column] != Null)
  }

  /** The tables with parents before children: metadata.sorted_tables. */
  ghost predicate ParentsFirst(order: seq<Table>) {
    && (forall t: Table :: t in order)
    && Distinct(order)
    && (forall i | 0 <= i < |order| && Reference(order[i]).Some? :: Reference(order[i]).value.parent in order[..i])
  }

  // ----- rows as JSON

  datatype JsonValue = JNone | JNumber(n: int) | JText(text: string)

  type JsonRow = map<string, JsonValue>

  /** str() of a Decimal, and its inverse in the database. */
  datatype Codec = Codec(show: int -> string, read: string -> Option<int>)

  ghost predicate ReadsBack(codec: Codec) { forall n :: codec.read(codec.show(n)) == Some(n) }

  function Encode(codec: Codec, v: Value): JsonValue {
    match v case Null => JNone case Int(n) => JNumber(n) case Text(s) => JText(s) case Dec(n) => JText(codec.show(n))
  }

  /** A value as the column's type takes it; None where the database refuses it. */
  function Decode(codec: Codec, t: Table, column: string, j: JsonValue): Option<Value> {
    match j
    case JNone => Some(Null)
    case JNumber(n) => if DecimalColumn(t, column) then None else Some(Int(n))
    case JText(s) =>
      if !DecimalColumn(t, column) then Some(Text(s))
      else if codec.read(s).Some? then Some(Dec(codec.read(s).value)) else None
  }

  /** _json_row */
  function EncodeRow(codec: Codec, row: Row): JsonRow { map column | column in row :: Encode(codec, row[column]) }

  predicate Decodes(codec: Codec, t: Table, row: JsonRow) {
    forall column | column in row :: Decode(codec, t, column, row[column]).Some?
  }

  function DecodeRow(codec: Codec, t: Table, row: JsonRow): Row
    requires Decodes(codec, t, row)
  {
    map column | column in row :: Decode(codec, t, column, row[column]).value
  }

  lemma DecodeEncode(codec: Codec, db: Db, t: Table, key: Key)
    requires ReadsBack(codec) && WellTyped(db) && key in db[t]
    ensures Decodes(codec, t, EncodeRow(codec, db[t][key]))
    ensures DecodeRow(codec, t, EncodeRow(codec, db[t][key])) == db[t][key]
  {
    var row := db[t][key];
    forall column | column in row ensures Decode(codec, t, column, Encode(codec, row[column])) == Some(row[column]) {
      assert row[column].Dec? <==> DecimalColumn(t, column) && row[column] != Null;
    }
    RowReadsBack(codec, t, row);
  }

  lemma RowReadsBack(codec: Codec, t: Table, row: Row)
    requires forall column | column in row :: Decode(codec, t, column, Encode(codec, row[column])) == Some(row[column])
    ensures Decodes(codec, t, EncodeRow(codec, row)) && DecodeRow(codec, t, EncodeRow(codec, row)) == row
  {}

  // ----- the backup

  datatype Payload = Payload(createdAt: string, backupId: string, tables: map<Table, seq<JsonRow>>,
                             counts: map<Table, nat>)

  datatype Envelope = Envelope(format: string, algorithm: string, nonce: string, digest: string, ciphertext: string)

  const FORMAT := "flagship-logical-backup/v1"
  const ALGORITHM := "AES-256-GCM"

  /** Authenticated encryption under the service's key, the digest of a plaintext, the texts of
      decimals, the collation of keys, and the audit hash over parsed payloads. */
  datatype Library = Library(seal: (string, Payload) -> string, unseal: (string, string) -> Option<Payload>,
                             digest: Payload -> string, codec: Codec, keyLe: (Key, Key) -> bool, audit: Hash,
                             payload: string -> Json)

  ghost predicate LibraryOk(l: Library) {
    && (forall nonce, p :: l.unseal(nonce, l.seal(nonce, p)) == Some(p))
    && ReadsBack(l.codec) && TotalOrder(l.keyLe)
  }

  /** SELECT * ... ORDER BY the primary key. */
  function InOrder(l: Library, contents: Contents): seq<Key>
    requires TotalOrder(l.keyLe)
  {
    SortSet(l.keyLe, contents.Keys)
  }

  function EncodedRows(l: Library, contents: Contents, keys: seq<Key>): (rows: seq<JsonRow>)
    requires forall key | key in keys :: key in contents
    ensures |rows| == |keys| && forall i | 0 <= i < |keys| :: rows[i] == EncodeRow(l.codec, contents[keys[i]])
  {
    if keys == [] then [] else
      EncodedRows(l, contents, keys[..|keys| - 1]) + [EncodeRow(l.codec, contents[keys[|keys| - 1]])]
  }

  function TableRows(l: Library, contents: Contents): seq<JsonRow>
    requires TotalOrder(l.keyLe)
  {
    var keys := InOrder(l, contents);
    assert forall key | key in keys :: key in contents.Keys;
    EncodedRows(l, contents, keys)
  }

  function AllRows(l: Library, db: Db): map<Table, seq<JsonRow>>
    requires TotalOrder(l.keyLe)
  {
    map t | t in db :: TableRows(l, db[t])
  }

  function CountsOf(db: Db): map<Table, nat> { map t | t in db :: |db[t]| }

  function PayloadOf(l: Library, db: Db, backupId: string, now: string): Payload
    requires TotalOrder(l.keyLe)
  {
    Payload(now, backupId, AllRows(l, db), CountsOf(db))
  }

  function Sealed(l: Library, nonce: string, p: Payload): Envelope
  {
    Envelope(FORMAT, ALGORITHM, nonce, l.digest(p), l.seal(nonce, p))
  }

  // ----- loading rows

  datatype Error = UnsupportedEnvelope | AuthenticationFailed | DigestMismatch | IntegrityError | VerificationFailed

  datatype Result<+T> = Ok(value: T) | Err(error: Error)

  /** One INSERT: the types, the primary key and the foreign key are checked. */
  function InsertRow(l: Library, db: Db, t: Table, row: JsonRow): Result<Db> {
    if !Decodes(l.codec, t, row) || t !in db then Err(IntegrityError)
    else
      var decoded := DecodeRow(l.codec, t, row);
      if KeyOf(t, decoded) in db[t] || !RefersTo(db, t, decoded) then Err(IntegrityError)
      else Ok(db[t := db[t][KeyOf(t, decoded) := decoded]])
  }

  function InsertRows(l: Library, db: Db, t: Table, rows: seq<JsonRow>, n: nat): Result<Db>
    requires n <= |rows|
  {
    if n == 0 then Ok(db) else
      var before := InsertRows(l, db, t, rows, n - 1);
      if before.Err? then before else InsertRow(l, before.value, t, rows[n - 1])
  }

  function RowsFor(p: Payload, t: Table): seq<JsonRow> { if t in p.tables then p.tables[t] else [] }

  function InsertTables(l: Library, db: Db, p: Payload, order: seq<Table>, n: nat): Result<Db>
    requires n <= |order|
  {
    if n == 0 then Ok(db) else
      var before, rows := InsertTables(l, db, p, order, n - 1), RowsFor(p, order[n - 1]);
      if before.Err? then before else InsertRows(l, before.value, order[n - 1], rows, |rows|)
  }

  /** The database after the last k tables of the order have been emptied. */
  function Emptied(db: Db, order: seq<Table>, k: nat): Db
    requires k <= |order|
  {
    map t | t in db :: if t in order[|order| - k..] then map[] else db[t]
  }

  const EMPTY: Db := map t: Table | t in ALL :: map[]

  const ALL: set<Table> := {AuditEvents, TaxTransactions, TaxRuleRuns, TaxFindings, TaxRunWorkflow,
                            RegulationDocuments, ControlEvents,
                ControlCases, ControlCaseTransitions, GraphEntities, GraphEdges, IdempotencyRecords, OutboxEvents,
                DeadLetterEvents, ConsumerReceipts}

  /** Deleting children before parents leaves no row without its parent, at any point; so the
      cascades of the schema have nothing to do. */
  lemma DeletesAreSafe(db: Db, order: seq<Table>, k: nat)
    requires ParentsFirst(order) && WellTyped(db) && ForeignKeysHold(db) && k <= |order|
    ensures ForeignKeysHold(Emptied(db, order, k))
    ensures k == |order| ==> Emptied(db, order, k) == EMPTY
  {
    var after := Emptied(db, order, k);
    var cut := |order| - k;
    assert order == order[..cut] + order[cut..];
    forall t, key | t in after && key in after[t] ensures RefersTo(after, t, after[t][key]) {
      assert t !in order[cut..] && t in order;
      assert RefersTo(db, t, db[t][key]);
      if Reference(t).Some? { ParentKept(order, t, cut); }
    }
    if k == |order| {
      assert order[0..] == order;
      forall t: Table ensures t in ALL { EveryTable(t); }
    }
  }

  lemma EveryTable(t: Table)
    ensures t in ALL
  {
    match t
    case AuditEvents => case TaxTransactions => case TaxRuleRuns => case TaxFindings => case TaxRunWorkflow =>
    case RegulationDocuments => case ControlEvents => case ControlCases => case ControlCaseTransitions =>
    case GraphEntities => case GraphEdges => case IdempotencyRecords => case OutboxEvents => case DeadLetterEvents =>
    case ConsumerReceipts =>
  }

  lemma ParentKept(order: seq<Table>, t: Table, cut: nat)
    requires ParentsFirst(order) && cut <= |order| && t !in order[cut..] && Reference(t).Some?
    ensures Reference(t).value.parent !in order[cut..]
  {
    assert t in order;
    var i :| 0 <= i < |order| && order[i] == t;
    InSuffix(order, cut, i);
    var parent := Reference(t).value.parent;
    assert parent in order[..i];
    var j :| 0 <= j < i && order[..i][j] == parent;
    NotInSuffix(order, cut, j);
  }

  lemma InSuffix(order: seq<Table>, cut: nat, i: nat)
    requires i < |order| && cut <= |order|
    ensures cut <= i ==> order[i] in order[cut..]
  {
    if cut <= i { assert order[cut..][i - cut] == order[i]; }
  }

  lemma NotInSuffix(order: seq<Table>, cut: nat, j: nat)
    requires Distinct(order) && j < cut <= |order|
    ensures order[j] !in order[cut..]
  {}

  /** One insert never breaks a foreign key: it raises instead. */
  lemma InsertIsSafe(l: Library, db: Db, t: Table, row: JsonRow)
    requires ForeignKeysHold(db) && InsertRow(l, db, t, row).Ok?
    ensures ForeignKeysHold(InsertRow(l, db, t, row).value)
  {
    var decoded := DecodeRow(l.codec, t, row);
    RowAddedSafe(db, t, KeyOf(t, decoded), decoded);
  }

  predicate Grows(db: Db, after: Db) { forall t | t in db :: t in after && db[t].Keys <= after[t].Keys }

  lemma StillRefers(db: Db, after: Db, t: Table, row: Row)
    requires RefersTo(db, t, row) && Grows(db, after)
    ensures RefersTo(after, t, row)
  {}

  lemma RowAddedSafe(db: Db, t: Table, key: Key, row: Row)
    requires ForeignKeysHold(db) && t in db && key !in db[t] && RefersTo(db, t, row)
    ensures ForeignKeysHold(db[t := db[t][key := row]])
  {
    var after := db[t := db[t][key := row]];
    forall u, k | u in after && k in after[u] ensures RefersTo(after, u, after[u][k]) {
      if u == t && k == key { StillRefers(db, after, u, row); } else { StillRefers(db, after, u, db[u][k]); }
    }
  }

  // ----- loading a backup gives back the source

  function Restricted(contents: Contents, keys: seq<Key>): Contents
  {
    map key | key in contents && key in keys :: contents[key]
  }

  /** The first n tables of the order as in db, the others empty. */
  function Partial(db: Db, order: seq<Table>, n: nat): Db
    requires n <= |order|
  {
    map t | t in db :: if t in order[..n] then db[t] else map[]
  }

  lemma RestrictedMore(contents: Contents, keys: seq<Key>, m: nat)
    requires m < |keys| && keys[m] in contents
    ensures Restricted(contents, keys[..m + 1]) == Restricted(contents, keys[..m])[keys[m] := contents[keys[m]]]
  {
    assert keys[..m + 1] == keys[..m] + [keys[m]];
  }

  lemma RestrictedAll(contents: Contents, keys: seq<Key>)
    requires forall key :: key in keys <==> key in contents.Keys
    ensures Restricted(contents, keys) == contents
  {
    assert forall key | key in contents :: key in contents.Keys;
  }

  lemma KeyNotYet(contents: Contents, keys: seq<Key>, m: nat)
    requires Distinct(keys) && m < |keys|
    ensures keys[m] !in Restricted(contents, keys[..m])
  {}

  /** The table that t refers to is another one, and is in db as in the source. */
  predicate ParentLoaded(source: Db, db: Db, t: Table) {
    var fk := Reference(t);
    fk.None? || (fk.value.parent != t && fk.value.parent in db && fk.value.parent in source
                 && db[fk.value.parent] == source[fk.value.parent])
  }

  /** A row of the source goes in, its parent being there already. */
  lemma RowGoesIn(l: Library, source: Db, db: Db, t: Table, key: Key)
    requires LibraryOk(l) && WellTyped(source) && ForeignKeysHold(source) && key in source[t]
    requires t in db && key !in db[t]
    requires ParentLoaded(source, db, t)
    ensures InsertRow(l, db, t, EncodeRow(l.codec, source[t][key])) == Ok(db[t := db[t][key := source[t][key]]])
  {
    DecodeEncode(l.codec, source, t, key);
    assert KeyOf(t, source[t][key]) == key;
    assert RefersTo(source, t, source[t][key]);
  }

  lemma ReplacedTwice(db: Db, t: Table, a: Contents, b: Contents)
    ensures db[t := a][t := b] == db[t := b]
  {}

  lemma {:induction false} RowsGoIn(l: Library, source: Db, db: Db, t: Table, keys: seq<Key>, rows: seq<JsonRow>,
                                    m: nat)
    requires LibraryOk(l) && WellTyped(source) && ForeignKeysHold(source) && t in db && db[t] == map[]
    requires Distinct(keys) && (forall key | key in keys :: key in source[t]) && rows == EncodedRows(l, source[t], keys)
    requires m <= |keys|
    requires ParentLoaded(source, db, t)
    ensures InsertRows(l, db, t, rows, m) == Ok(db[t := Restricted(source[t], keys[..m])])
  {
    if m == 0 {
      assert Restricted(source[t], []) == map[];
      assert db[t := map[]] == db;
    } else {
      RowsGoIn(l, source, db, t, keys, rows, m - 1);
      NextRowGoesIn(l, source, db, t, keys, m - 1);
    }
  }

  lemma NextRowGoesIn(l: Library, source: Db, db: Db, t: Table, keys: seq<Key>, m: nat)
    requires LibraryOk(l) && WellTyped(source) && ForeignKeysHold(source) && t in db && ParentLoaded(source, db, t)
    requires Distinct(keys) && m < |keys| && keys[m] in source[t]
    ensures InsertRow(l, db[t := Restricted(source[t], keys[..m])], t, EncodeRow(l.codec, source[t][keys[m]]))
      == Ok(db[t := Restricted(source[t], keys[..m + 1])])
  {
    KeyNotYet(source[t], keys, m);
    RowGoesIn(l, source, db[t := Restricted(source[t], keys[..m])], t, keys[m]);
    RestrictedMore(source[t], keys, m);
    ReplacedTwice(db, t, Restricted(source[t], keys[..m]), Restricted(source[t], keys[..m + 1]));
  }

  lemma PartialMore(db: Db, order: seq<Table>, n: nat)
    requires Distinct(order) && n < |order| && order[n] in db
    ensures Partial(db, order, n)[order[n] := db[order[n]]] == Partial(db, order, n + 1)
    ensures Partial(db, order, n)[order[n]] == map[]
  {
    assert order[..n + 1] == order[..n] + [order[n]];
  }

  predicate Loaded(l: Library, source: Db, order: seq<Table>, p: Payload, m: nat)
    requires m <= |order|
  {
    InsertTables(l, EMPTY, p, order, m) == Ok(Partial(source, order, m))
  }

  predicate GoesOn(l: Library, source: Db, order: seq<Table>, p: Payload, m: nat)
    requires m < |order|
  {
    Loaded(l, source, order, p, m) ==> Loaded(l, source, order, p, m + 1)
  }

  lemma {:induction false} LoadedUpTo(l: Library, source: Db, order: seq<Table>, p: Payload, n: nat)
    requires n <= |order| && Loaded(l, source, order, p, 0)
    requires forall m: nat | m < n :: GoesOn(l, source, order, p, m)
    ensures Loaded(l, source, order, p, n)
  {
    if n > 0 {
      LoadedUpTo(l, source, order, p, n - 1);
      assert GoesOn(l, source, order, p, n - 1);
    }
  }

  /** Loading table by table succeeds at every row, and after n tables the first n are those of the
      source. */
  lemma TablesGoIn(l: Library, source: Db, order: seq<Table>, p: Payload, n: nat)
    requires LibraryOk(l) && WellTyped(source) && ForeignKeysHold(source) && ParentsFirst(order) && n <= |order|
    requires p.tables == AllRows(l, source)
    ensures InsertTables(l, EMPTY, p, order, n) == Ok(Partial(source, order, n))
  {
    NothingLoaded(source, order);
    forall m: nat | m < n ensures GoesOn(l, source, order, p, m) {
      if Loaded(l, source, order, p, m) { OneMoreGoesIn(l, source, order, p, m); }
    }
    LoadedUpTo(l, source, order, p, n);
  }

  lemma OneMoreGoesIn(l: Library, source: Db, order: seq<Table>, p: Payload, n: nat)
    requires LibraryOk(l) && WellTyped(source) && ForeignKeysHold(source) && ParentsFirst(order) && n < |order|
    requires p.tables == AllRows(l, source) && Loaded(l, source, order, p, n)
    ensures Loaded(l, source, order, p, n + 1)
  {
    var rows := RowsFor(p, order[n]);
    RowsForTable(l, source, p, order[n]);
    NextTableGoesIn(l, source, order, n, rows);
    OneMoreTable(l, p, order, n, Partial(source, order, n), Partial(source, order, n + 1));
  }

  lemma OneMoreTable(l: Library, p: Payload, order: seq<Table>, n: nat, before: Db, after: Db)
    requires n < |order| && InsertTables(l, EMPTY, p, order, n) == Ok(before)
    requires InsertRows(l, before, order[n], RowsFor(p, order[n]), |RowsFor(p, order[n])|) == Ok(after)
    ensures InsertTables(l, EMPTY, p, order, n + 1) == Ok(after)
  {}

  lemma NothingLoaded(source: Db, order: seq<Table>)
    requires forall t: Table :: t in source
    ensures Partial(source, order, 0) == EMPTY
  {
    forall t: Table ensures t in ALL { EveryTable(t); }
  }

  lemma NextTableGoesIn(l: Library, source: Db, order: seq<Table>, n: nat, rows: seq<JsonRow>)
    requires LibraryOk(l) && WellTyped(source) && ForeignKeysHold(source) && ParentsFirst(order) && n < |order|
    requires rows == TableRows(l, source[order[n]])
    ensures InsertRows(l, Partial(source, order, n), order[n], rows, |rows|) == Ok(Partial(source, order, n + 1))
  {
    PartialMore(source, order, n);
    ParentInPartial(source, order, n);
    TableGoesIn(l, source, Partial(source, order, n), order[n]);
  }

  lemma ParentInPartial(source: Db, order: seq<Table>, n: nat)
    requires ParentsFirst(order) && n < |order| && forall t: Table :: t in source
    ensures ParentLoaded(source, Partial(source, order, n), order[n])
  {
    if Reference(order[n]).Some? { assert Reference(order[n]).value.parent in order[..n]; }
  }

  lemma RowsForTable(l: Library, source: Db, p: Payload, t: Table)
    requires TotalOrder(l.keyLe) && t in source && p.tables == AllRows(l, source)
    ensures RowsFor(p, t) == TableRows(l, source[t])
  {}

  lemma TableGoesIn(l: Library, source: Db, db: Db, t: Table)
    requires LibraryOk(l) && WellTyped(source) && ForeignKeysHold(source) && t in db && db[t] == map[]
    requires ParentLoaded(source, db, t)
    ensures InsertRows(l, db, t, TableRows(l, source[t]), |TableRows(l, source[t])|) == Ok(db[t := source[t]])
  {
    KeysListed(l, source[t]);
    AllRowsGoIn(l, source, db, t, InOrder(l, source[t]));
  }

  lemma AllRowsGoIn(l: Library, source: Db, db: Db, t: Table, keys: seq<Key>)
    requires LibraryOk(l) && WellTyped(source) && ForeignKeysHold(source) && t in db && db[t] == map[]
    requires ParentLoaded(source, db, t) && Distinct(keys) && forall key :: key in keys <==> key in source[t].Keys
    requires forall key | key in keys :: key in source[t]
    ensures InsertRows(l, db, t, EncodedRows(l, source[t], keys), |keys|) == Ok(db[t := source[t]])
  {
    RowsGoIn(l, source, db, t, keys, EncodedRows(l, source[t], keys), |keys|);
    assert keys[..|keys|] == keys;
    RestrictedAll(source[t], keys);
  }

  lemma KeysListed(l: Library, contents: Contents)
    requires TotalOrder(l.keyLe)
    ensures Distinct(InOrder(l, contents)) && forall key :: key in InOrder(l, contents) <==> key in contents.Keys
    ensures forall key | key in InOrder(l, contents) :: key in contents
  {
    forall key | key in InOrder(l, contents) ensures key in contents { assert key in contents.Keys; }
  }

  /** Loading the backup of a well-formed database reproduces every table of it. */
  lemma LoadsTheSource(l: Library, source: Db, order: seq<Table>, backupId: string, now: string)
    requires LibraryOk(l) && WellTyped(source) && ForeignKeysHold(source) && ParentsFirst(order)
    ensures InsertTables(l, EMPTY, PayloadOf(l, source, backupId, now), order, |order|) == Ok(source)
  {
    TablesGoIn(l, source, order, PayloadOf(l, source, backupId, now), |order|);
    AllTables(source, order);
  }

  lemma AllTables(source: Db, order: seq<Table>)
    requires forall t | t in source :: t in order
    ensures Partial(source, order, |order|) == source
  {
    assert order[..|order|] == order;
  }
}
