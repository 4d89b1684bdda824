/** The audit table of a running system, backed up and restored. */
module AuditBackup {
  import opened Ordering
  import opened HashChain
  import opened Tables
  import opened AuditCore
  import opened Backup
  import opened Restore
  import L = Ledger

  predicate TextAt(columns: Row, column: string, text: string) { column in columns && columns[column] == Text(text) }

  /** The columns of audit_events for an audit row. */
  predicate ColumnsOf(text: Json -> string, row: AuditRow, columns: Row) {
    && "id" in columns && columns["id"] == Int(row.id)
    && TextAt(columns, "tenant_id", row.content.tenantId)
    && TextAt(columns, "module", row.content.moduleName)
    && TextAt(columns, "event_type", row.content.eventType)
    && TextAt(columns, "entity_id", row.content.entityId)
    && TextAt(columns, "occurred_at", row.content.occurredAt)
    && TextAt(columns, "payload_json", text(row.content.payload))
    && TextAt(columns, "previous_hash", row.previousHash)
    && TextAt(columns, "event_hash", row.eventHash)
  }

  /** The table holds these audit rows, under their ids, and no others. */
  predicate HoldsAudit(text: Json -> string, audit: map<nat, AuditRow>, contents: Contents) {
    && (forall i | i in audit :: audit[i].id == i)
    && (forall i | i in audit :: [Int(i)] in contents && ColumnsOf(text, audit[i], contents[[Int(i)]]))
    && (forall key | key in contents :: exists i | i in audit :: key == [Int(i)])
  }

  lemma ReadMatches(l: Library, text: Json -> string, audit: map<nat, AuditRow>, contents: Contents,
                    read: map<nat, AuditRow>)
    requires (forall j :: l.payload(text(j)) == j) && HoldsAudit(text, audit, contents)
    requires IdsOf(contents) == audit.Keys && read == AuditOf(l, contents)
    ensures read.Keys == audit.Keys && forall i | i in audit :: read[i] == audit[i]
  {
    forall i | i in audit ensures read[i] == audit[i] { RowReadsBack(l, text, audit, contents, i); }
  }

  lemma MapsAgree(a: map<nat, AuditRow>, b: map<nat, AuditRow>)
    requires a.Keys == b.Keys && forall i | i in a :: a[i] == b[i]
    ensures a == b
  {}

  /** Reading the table gives back the rows. */
  lemma AuditReadsBack(l: Library, text: Json -> string, audit: map<nat, AuditRow>, contents: Contents)
    requires (forall j :: l.payload(text(j)) == j) && HoldsAudit(text, audit, contents)
    ensures AuditOf(l, contents) == audit
  {
    SameIds(text, audit, contents);
    ReadMatches(l, text, audit, contents, AuditOf(l, contents));
    MapsAgree(AuditOf(l, contents), audit);
  }

  lemma SameIds(text: Json -> string, audit: map<nat, AuditRow>, contents: Contents)
    requires HoldsAudit(text, audit, contents)
    ensures IdsOf(contents) == audit.Keys
  {
    forall i: nat ensures i in IdsOf(contents) <==> i in audit {
      if i in audit { assert IsId([Int(i)]) && [Int(i)][0].n == i; }
      if i in IdsOf(contents) {
        var j :| j in audit && [Int(i)] == [Int(j)];
        assert [Int(i)][0] == [Int(j)][0];
      }
    }
  }

  lemma RowReadsBack(l: Library, text: Json -> string, audit: map<nat, AuditRow>, contents: Contents, i: nat)
    requires (forall j :: l.payload(text(j)) == j) && HoldsAudit(text, audit, contents) && i in audit
    requires IdsOf(contents) == audit.Keys
    ensures AuditOf(l, contents)[i] == audit[i]
  {
    assert ColumnsOf(text, audit[i], contents[[Int(i)]]);
  }

  /** A backup of the database opens and loads and gives back the database. */
  ghost predicate ComesBack(l: Library, source: Db, order: seq<Table>, p: Payload, nonce: string) {
    Opened(l, Sealed(l, nonce, p)) == Ok(p) && InsertTables(l, EMPTY, p, order, |order|) == Ok(source)
  }

  lemma BackupComesBack(l: Library, source: Db, order: seq<Table>, backupId: string, now: string, nonce: string)
    requires LibraryOk(l) && WellTyped(source) && ForeignKeysHold(source) && ParentsFirst(order)
    ensures ComesBack(l, source, order, PayloadOf(l, source, backupId, now), nonce)
  {
    LoadsTheSource(l, source, order, backupId, now);
    OpensAgain(l, nonce, PayloadOf(l, source, backupId, now));
  }

  /** Whatever transactions have been interleaved: a backup of the database gives it back, with the
      audit rows that the run committed, and a verification of it finds every chain valid. */
  lemma BackupOfARunVerifies(l: Library, actions: seq<L.Action>, text: Json -> string, source: Db, order: seq<Table>,
                             backupId: string, now: string, nonce: string, report: Report)
    requires LibraryOk(l) && HexDigest(l.audit) && forall j :: l.payload(text(j)) == j
    requires WellTyped(source) && ForeignKeysHold(source) && ParentsFirst(order)
    requires HoldsAudit(text, L.Run(l.audit, L.Init, actions).db.audit, source[AuditEvents])
    requires Truthful(l, source, PayloadOf(l, source, backupId, now).counts, report)
    ensures ComesBack(l, source, order, PayloadOf(l, source, backupId, now), nonce)
    ensures AuditOf(l, source[AuditEvents]) == L.Run(l.audit, L.Init, actions).db.audit && report.valid
  {
    BackupComesBack(l, source, order, backupId, now, nonce);
    RunValid(l, L.Run(l.audit, L.Init, actions).db.audit, text, source, actions,
             PayloadOf(l, source, backupId, now).counts, report);
  }

  lemma RunValid(l: Library, audit: map<nat, AuditRow>, text: Json -> string, db: Db, actions: seq<L.Action>,
                 counts: map<Table, nat>, report: Report)
    requires HexDigest(l.audit) && forall j :: l.payload(text(j)) == j
    requires audit == L.Run(l.audit, L.Init, actions).db.audit
    requires AuditEvents in db && HoldsAudit(text, audit, db[AuditEvents])
    requires counts == CountsOf(db) && Truthful(l, db, counts, report)
    ensures AuditOf(l, db[AuditEvents]) == audit && report.valid
  {
    RunVerifies(l, audit, text, db, actions);
    ValidIff(l, db, counts, report);
  }

  lemma RunVerifies(l: Library, audit: map<nat, AuditRow>, text: Json -> string, db: Db, actions: seq<L.Action>)
    requires HexDigest(l.audit) && forall j :: l.payload(text(j)) == j
    requires audit == L.Run(l.audit, L.Init, actions).db.audit
    requires AuditEvents in db && HoldsAudit(text, audit, db[AuditEvents])
    ensures AuditOf(l, db[AuditEvents]) == audit && ChainsVerify(l, db)
  {
    AuditReadsBack(l, text, audit, db[AuditEvents]);
    AllVerify(l.audit, actions);
    ChainsAre(l, db, audit);
  }

  lemma ChainsAre(l: Library, db: Db, audit: map<nat, AuditRow>)
    requires AuditEvents in db && AuditOf(l, db[AuditEvents]) == audit
    requires forall tenant :: Verifies(l.audit, ChainOf(audit, tenant))
    ensures ChainsVerify(l, db)
  {}

  lemma AllVerify(h: Hash, actions: seq<L.Action>)
    requires HexDigest(h)
    ensures forall tenant :: Verifies(h, ChainOf(L.Run(h, L.Init, actions).db.audit, tenant))
  {
    L.InitInv(h);
    L.RunKeeps(h, L.Init, actions);
    var db := L.Run(h, L.Init, actions).db;
    forall tenant ensures Verifies(h, ChainOf(db.audit, tenant)) { assert L.TenantSound(h, db, tenant); }
  }
}
