/**
 The four-eyes review of a rule run (taxflow.request_review, review_run) with any number of calls
 in progress: each reads the workflow first and writes later, when it may have changed.  What was
 requested and decided is read off the tenant's audit chain.
 */
module TaxReview {
  import opened Ordering
  import opened HashChain
  import opened Tables
  import opened AuditCore
  import opened Text

  datatype Status = PendingReview | Approved | Rejected

  datatype Workflow = Workflow(requestedBy: string, status: Status, version: nat, reviewedBy: Option<string>,
                               comment: Option<string>)

  /** The hash of the audit chain, and the tenant whose runs are reviewed. */
  datatype Setting = Setting(hash: Hash, tenant: string)

  datatype Error = BlankRequester | UnknownRun | BadDecision | BlankComment
                 | NotRequested | AlreadyFinal | NotIndependent | Conflict | IntegrityError

  datatype Result<+T> = Ok(value: T) | Err(error: Error)

  /** A call that has made its read. */
  datatype Open =
    | Requesting(run: string, actor: string, seen: Option<Workflow>)
    | Reviewing(run: string, reviewer: string, status: Status, comment: string, pending: Workflow)

  /** exported lists the runs whose evidence was handed out. */
  datatype State = State(runs: set<string>, flows: map<string, Workflow>, core: Core, open: map<nat, Open>,
                         exported: seq<string>)

  /** OtherAppend is any audit row that some other operation, or another tenant, appends. */
  datatype Action =
    | AddRun(run: string)
    | BeginRequest(x: nat, run: string, actor: string)
    | BeginReview(x: nat, run: string, reviewer: string, decision: string, comment: string)
    | Finish(x: nat, occurredAt: string, createdAt: string)
    | Export(run: string)
    | OtherAppend(content: AuditContent, createdAt: string)

  const Init := State({}, map[], Core(map[], map[], 0, 0), map[], [])

  // ----- the audit rows of reviews

  const REQUESTED := "REVIEW_REQUESTED"

  const DECIDED := "REVIEW_DECIDED"

  function Name(status: Status): string {
    match status case PendingReview => "PENDING_REVIEW" case Approved => "APPROVED" case Rejected => "REJECTED"
  }

  function RequestPayload(actor: string): Json { JObj(map["requested_by" := JStr(actor)]) }

  function DecisionPayload(status: Status, reviewer: string, comment: string): Json {
    JObj(map["status" := JStr(Name(status)), "reviewed_by" := JStr(reviewer), "comment" := JStr(comment)])
  }

  /** What an audit row says about a review. */
  datatype Entry = ReviewRequested(run: string, payload: Json) | ReviewDecided(run: string, payload: Json)

  /** One entry, or none. */
  function Said(content: AuditContent): seq<Entry> {
    if content.moduleName != "taxflow" then []
    else if content.eventType == REQUESTED then [ReviewRequested(content.entityId, content.payload)]
    else if content.eventType == DECIDED then [ReviewDecided(content.entityId, content.payload)]
    else []
  }

  function ContentOf(tenant: string, e: Entry, occurredAt: string): AuditContent {
    AuditContent(tenant, "taxflow", if e.ReviewRequested? then REQUESTED else DECIDED, e.run, occurredAt, e.payload)
  }

  lemma SaidByContent(tenant: string, e: Entry, occurredAt: string)
    ensures Said(ContentOf(tenant, e, occurredAt)) == [e]
  {
    assert |REQUESTED| == 16 && |DECIDED| == 14;
  }

  /** The entries that audit rows contain, in chain order. */
  function Entries(said: AuditContent -> seq<Entry>, rows: seq<AuditRow>): seq<Entry> {
    if rows == [] then [] else Entries(said, rows[..|rows| - 1]) + said(rows[|rows| - 1].content)
  }

  /** The entries about reviews in the tenant's audit chain. */
  function Log(core: Core, tenant: string): seq<Entry> { Entries(Said, TenantRows(core.audit, tenant)) }

  lemma OneMoreRow(said: AuditContent -> seq<Entry>, rows: seq<AuditRow>, row: AuditRow)
    ensures Entries(said, rows + [row]) == Entries(said, rows) + said(row.content)
  {
    assert (rows + [row])[..|rows|] == rows;
  }

  /** An append adds its own entry to its tenant's log, and nothing to another one. */
  lemma AppendLogged(said: AuditContent -> seq<Entry>, h: Hash, core: Core, content: AuditContent, now: string,
                     tenant: string)
    requires core.Valid()
    ensures var before, after := TenantRows(core.audit, tenant),
      TenantRows(AppendAudit(h, core, content, now).audit, tenant);
      Entries(said, after) == if tenant == content.tenantId then Entries(said, before) + said(content) else
        Entries(said, before)
  {
    var row, rows := NewAuditRow(h, core.audit, core.auditSeq, content), TenantRows(core.audit, tenant);
    RowAppended(core.audit, row, tenant);
    if tenant == content.tenantId { OneMoreRow(said, rows, row); } else { assert rows + [] == rows; }
  }

  // ----- the steps

  /** The read of request_review. */
  function ReadRequest(runs: set<string>, flows: map<string, Workflow>, run: string, actor: string): Result<Open> {
    if IsBlank(actor) then Err(BlankRequester)
    else if run !in runs then Err(UnknownRun)
    else Ok(Requesting(run, actor, if run in flows then Some(flows[run]) else None))
  }

  /** The read of review_run, with every check made before the write. */
  function ReadReview(flows: map<string, Workflow>, run: string, reviewer: string, decision: string,
                      comment: string): Result<Open>
  {
    if Upper(decision) != "APPROVE" && Upper(decision) != "REJECT" then Err(BadDecision)
    else if IsBlank(comment) then Err(BlankComment)
    else if run !in flows then Err(NotRequested)
    else if flows[run].status != PendingReview then Err(AlreadyFinal)
    else if flows[run].requestedBy == reviewer then Err(NotIndependent)
    else Ok(Reviewing(run, reviewer, if Upper(decision) == "APPROVE" then Approved else Rejected, comment, flows[run]))
  }

  /** The write: an insert whose primary key may be taken by now, or an update that finds the row
      only if its status and version are still as read. */
  function Write(flows: map<string, Workflow>, o: Open): Result<map<string, Workflow>> {
    match o
    case Requesting(run, actor, seen) =>
      if seen.Some? then Ok(flows)
      else if run in flows then Err(IntegrityError)
      else Ok(flows[run := Workflow(actor, PendingReview, 1, None, None)])
    case Reviewing(run, reviewer, status, comment, pending) =>
      if run in flows && flows[run].status == PendingReview && flows[run].version == pending.version
      then Ok(flows[run := flows[run].(status := status, version := pending.version + 1, reviewedBy := Some(reviewer),
                                       comment := Some(comment))])
      else Err(Conflict)
  }

  /** The entry appended along with that write, if any. */
  function Logged(o: Open): Option<Entry> {
    match o
    case Requesting(run, actor, seen) => if seen.Some? then None else Some(ReviewRequested(run, RequestPayload(actor)))
    case Reviewing(run, reviewer, status, comment, _) =>
      Some(ReviewDecided(run, DecisionPayload(status, reviewer, comment)))
  }

  function Appended(f: Setting, core: Core, e: Option<Entry>, occurredAt: string, createdAt: string): Core {
    if e.None? then core else AppendAudit(f.hash, core, ContentOf(f.tenant, e.value, occurredAt), createdAt)
  }

  function WithEntry(log: seq<Entry>, e: Option<Entry>): seq<Entry> { if e.None? then log else log + [e.value] }

  function Written(f: Setting, s: State, o: Open, occurredAt: string, createdAt: string): State {
    var flows := Write(s.flows, o);
    if flows.Ok? then s.(flows := flows.value, core := Appended(f, s.core, Logged(o), occurredAt, createdAt)) else s
  }

  function Opened(s: State, x: nat, o: Result<Open>): State {
    if x !in s.open && o.Ok? then s.(open := s.open[x := o.value]) else s
  }

  /** The row is not one of this tenant's reviews. */
  predicate Foreign(f: Setting, content: AuditContent) { content.tenantId != f.tenant || Said(content) == [] }

  function Apply(f: Setting, s: State, a: Action): State {
    match a
    case AddRun(run) => s.(runs := s.runs + {run})
    case BeginRequest(x, run, actor) => Opened(s, x, ReadRequest(s.runs, s.flows, run, actor))
    case BeginReview(x, run, reviewer, decision, comment) =>
      Opened(s, x, ReadReview(s.flows, run, reviewer, decision, comment))
    case Finish(x, occurredAt, createdAt) =>
      if x in s.open then Written(f, s.(open := s.open - {x}), s.open[x], occurredAt, createdAt) else s
    case Export(run) =>
      if run in s.flows && s.flows[run].status == Approved then s.(exported := s.exported + [run]) else s
    case OtherAppend(content, createdAt) =>
      if Foreign(f, content) then s.(core := AppendAudit(f.hash, s.core, content, createdAt)) else s
  }

  function Run(f: Setting, s: State, actions: seq<Action>): State
    decreases |actions|
  {
    if actions == [] then s else Run(f, Apply(f, s, actions[0]), actions[1..])
  }

  /** The service with one call at a time. */
  class ReviewStore {
    const hash: Hash
    const tenant: string
    var runs: set<string>
    var flows: map<string, Workflow>
    var core: Core

    constructor (hash: Hash, tenant: string)
      ensures this.hash == hash && this.tenant == tenant && Shown() == Init
    {
      this.hash, this.tenant := hash, tenant;
      runs, flows, core := {}, map[], Core(map[], map[], 0, 0);
    }

    function TheSetting(): Setting { Setting(hash, tenant) }

    function Shown(): State reads this { State(runs, flows, core, map[], []) }

    /** request_review: the same as its read and its write with nothing in between. */
    method RequestReview(run: string, actor: string, occurredAt: string, createdAt: string)
      returns (r: Result<Workflow>)
      modifies this
      ensures Shown() == Run(TheSetting(), old(Shown()),
                             [BeginRequest(0, run, actor), Finish(0, occurredAt, createdAt)])
      ensures runs == old(runs)
      ensures if IsBlank(actor) then r == Err(BlankRequester) && flows == old(flows) && core == old(core)
        else if run !in runs then r == Err(UnknownRun) && flows == old(flows) && core == old(core)
        else if run in old(flows) then r == Ok(old(flows)[run]) && flows == old(flows) && core == old(core)
        else
          && r == Ok(Workflow(actor, PendingReview, 1, None, None)) && flows == old(flows)[run := r.value]
          && core == AppendAudit(hash, old(core),
                       AuditContent(tenant, "taxflow", "REVIEW_REQUESTED", run, occurredAt,
                                    JObj(map["requested_by" := JStr(actor)])), createdAt)
    {
      AloneIs(TheSetting(), Shown(), BeginRequest(0, run, actor), ReadRequest(runs, flows, run, actor), occurredAt,
              createdAt);
      if IsBlank(actor) { return Err(BlankRequester); }
      if run !in runs { return Err(UnknownRun); }
      if run !in flows {
        var entry := ReviewRequested(run, RequestPayload(actor));
        Store(Requesting(run, actor, None), flows[run := Workflow(actor, PendingReview, 1, None, None)], entry,
              occurredAt, createdAt);
      }
      return Ok(flows[run]);
    }

    /** The write of a call together with its audit row. */
    method Store(ghost o: Open, flows': map<string, Workflow>, e: Entry, occurredAt: string, createdAt: string)
      requires Write(flows, o) == Ok(flows') && Logged(o) == Some(e)
      modifies this`flows, this`core
      ensures Shown() == Written(TheSetting(), old(Shown()), o, occurredAt, createdAt) && flows == flows'
      ensures core == AppendAudit(hash, old(core), ContentOf(tenant, e, occurredAt), createdAt)
    {
      ghost var s := Shown();
      flows, core := flows', AppendAudit(hash, core, ContentOf(tenant, e, occurredAt), createdAt);
      WrittenIs(TheSetting(), s, o, flows', e, occurredAt, createdAt);
    }

    /** review_run: the same as its read and its write with nothing in between. */
    method ReviewRun(run: string, reviewer: string, decision: string, comment: string, occurredAt: string,
                     createdAt: string)
        returns (r: Result<Workflow>)
      modifies this
      ensures Shown() == Run(TheSetting(), old(Shown()),
                             [BeginReview(0, run, reviewer, decision, comment), Finish(0, occurredAt, createdAt)])
      ensures r.Err? ==> Shown() == old(Shown())
      ensures Upper(decision) != "APPROVE" && Upper(decision) != "REJECT" ==> r == Err(BadDecision)
      ensures Upper(decision) == "APPROVE" || Upper(decision) == "REJECT" ==>
        if IsBlank(comment) then r == Err(BlankComment)
        else if run !in old(flows) then r == Err(NotRequested)
        else if old(flows)[run].status != PendingReview then r == Err(AlreadyFinal)
        else if old(flows)[run].requestedBy == reviewer then r == Err(NotIndependent)
        else r.Ok?
      ensures r.Ok? ==>
        && run in flows && r.value == flows[run]
        && flows[run].status == (if Upper(decision) == "APPROVE" then Approved else Rejected)
        && flows[run].reviewedBy == Some(reviewer) && flows[run].comment == Some(comment)
        && flows[run].version == old(flows)[run].version + 1 && flows[run].requestedBy == old(flows)[run].requestedBy
        && flows == old(flows)[run := flows[run]]
      ensures r.Ok? ==>
        var status := if Upper(decision) == "APPROVE" then "APPROVED" else "REJECTED";
        core == AppendAudit(hash, old(core),
                  AuditContent(tenant, "taxflow", "REVIEW_DECIDED", run, occurredAt,
                               JObj(map["status" := JStr(status), "reviewed_by" := JStr(reviewer),
                                        "comment" := JStr(comment)])), createdAt)
    {
      AloneIs(TheSetting(), Shown(), BeginReview(0, run, reviewer, decision, comment),
              ReadReview(flows, run, reviewer, decision, comment), occurredAt, createdAt);
      var normalized := Upper(decision);
      if normalized != "APPROVE" && normalized != "REJECT" { return Err(BadDecision); }
      if IsBlank(comment) { return Err(BlankComment); }
      if run !in flows { return Err(NotRequested); }
      var row := flows[run];
      if row.status != PendingReview { return Err(AlreadyFinal); }
      if row.requestedBy == reviewer { return Err(NotIndependent); }
      var status := if normalized == "APPROVE" then Approved else Rejected;
      Decide(run, reviewer, status, comment, row, occurredAt, createdAt);
      return Ok(flows[run]);
    }

    method Decide(run: string, reviewer: string, status: Status, comment: string, row: Workflow, occurredAt: string,
                  createdAt: string)
      requires run in flows && flows[run] == row && row.status == PendingReview != status
      modifies this`flows, this`core
      ensures flows == old(flows)[run := row.(status := status, version := row.version + 1,
                                              reviewedBy := Some(reviewer), comment := Some(comment))]
      ensures core == AppendAudit(hash, old(core),
                        AuditContent(tenant, "taxflow", "REVIEW_DECIDED", run, occurredAt,
                                     JObj(map["status" := JStr(if status == Approved then "APPROVED" else "REJECTED"),
                                              "reviewed_by" := JStr(reviewer), "comment" := JStr(comment)])), createdAt)
      ensures Shown() == Written(TheSetting(), old(Shown()), Reviewing(run, reviewer, status, comment, row),
                                 occurredAt, createdAt)
    {
      var decided := row.(status := status, version := row.version + 1, reviewedBy := Some(reviewer),
                          comment := Some(comment));
      var entry := ReviewDecided(run, DecisionPayload(status, reviewer, comment));
      Store(Reviewing(run, reviewer, status, comment, row), flows[run := decided], entry, occurredAt, createdAt);
    }
  }

  lemma WrittenIs(f: Setting, s: State, o: Open, flows: map<string, Workflow>, e: Entry, occurredAt: string,
                  createdAt: string)
    requires Write(s.flows, o) == Ok(flows) && Logged(o) == Some(e)
    ensures Written(f, s, o, occurredAt, createdAt) ==
      State(s.runs, flows, AppendAudit(f.hash, s.core, ContentOf(f.tenant, e, occurredAt), createdAt), s.open,
            s.exported)
  {}

  /** A call whose read and write meet no other call. */
  lemma AloneIs(f: Setting, s: State, a: Action, read: Result<Open>, occurredAt: string, createdAt: string)
    requires s.open == map[] && Apply(f, s, a) == Opened(s, 0, read)
    ensures Run(f, s, [a, Finish(0, occurredAt, createdAt)]) ==
      if read.Ok? then Written(f, s, read.value, occurredAt, createdAt) else s
  {
    var b := Finish(0, occurredAt, createdAt);
    assert [a, b][1..] == [b];
    assert [b][1..] == [];
    assert Run(f, Apply(f, Apply(f, s, a), b), []) == Apply(f, Apply(f, s, a), b);
    if read.Ok? { assert s.(open := s.open[0 := read.value]).open - {0} == s.open; }
  }

  // ----- what every interleaving keeps

  function Requests(log: seq<Entry>, run: string): nat {
    if log == [] then 0 else
      Requests(log[..|log| - 1], run) + if log[|log| - 1].ReviewRequested? && log[|log| - 1].run == run then 1 else 0
  }

  function Decisions(log: seq<Entry>, run: string): nat {
    if log == [] then 0 else
      Decisions(log[..|log| - 1], run) + if log[|log| - 1].ReviewDecided? && log[|log| - 1].run == run then 1 else 0
  }

  lemma LogMore(log: seq<Entry>, e: Entry, run: string)
    ensures Requests(log + [e], run) == Requests(log, run) + if e.ReviewRequested? && e.run == run then 1 else 0
    ensures Decisions(log + [e], run) == Decisions(log, run) + if e.ReviewDecided? && e.run == run then 1 else 0
  {
    assert (log + [e])[..|log|] == log;
  }

  /** A workflow is pending, or was decided by someone else than its requester. */
  predicate FlowOk(w: Workflow) {
    if w.status == PendingReview then w.version == 1 && w.reviewedBy == None
    else w.version == 2 && w.comment.Some? && w.reviewedBy.Some? && w.reviewedBy != Some(w.requestedBy)
  }

  /** The log has one request if there is a workflow, and one decision, its own, if it is final. */
  ghost predicate Accounted(flows: map<string, Workflow>, log: seq<Entry>, run: string) {
    && Requests(log, run) == (if run in flows then 1 else 0)
    && Decisions(log, run) == (if run in flows && flows[run].status != PendingReview then 1 else 0)
  }

  /** Every entry says what its workflow says: who requested, or who decided what, and why. */
  predicate EntryOk(flows: map<string, Workflow>, e: Entry) {
    e.run in flows && Agrees(flows[e.run], e)
  }

  predicate Agrees(w: Workflow, e: Entry) {
    && (e.ReviewRequested? ==> e.payload == JObj(map["requested_by" := JStr(w.requestedBy)]))
    && (e.ReviewDecided? ==>
          && w.status != PendingReview && w.reviewedBy.Some? && w.comment.Some?
          && e.payload == JObj(map["status" := JStr(if w.status == Approved then "APPROVED" else "REJECTED"),
                                   "reviewed_by" := JStr(w.reviewedBy.value), "comment" := JStr(w.comment.value)]))
  }

  /** No decision precedes the request for the same run. */
  predicate Ordered(log: seq<Entry>) {
    forall i, j | 0 <= i < |log| && 0 <= j < |log| && log[i].ReviewRequested? && log[j].ReviewDecided?
      && log[i].run == log[j].run :: i < j
  }

  /** A review in progress was begun by someone else than the requester. */
  predicate OpenOk(flows: map<string, Workflow>, o: Open) {
    o.Reviewing? ==>
      o.run in flows && o.pending.requestedBy == flows[o.run].requestedBy != o.reviewer && o.pending.version == 1
        && o.status != PendingReview
  }

  /** The workflows, the log, the open calls and the exports agree. */
  ghost predicate Reviewed(flows: map<string, Workflow>, log: seq<Entry>, open: map<nat, Open>, exported: seq<string>) {
    && (forall run | run in flows :: FlowOk(flows[run]))
    && (forall run :: Accounted(flows, log, run))
    && (forall i | 0 <= i < |log| :: EntryOk(flows, log[i]))
    && Ordered(log)
    && (forall x | x in open :: OpenOk(flows, open[x]))
    && (forall i | 0 <= i < |exported| :: exported[i] in flows && flows[exported[i]].status == Approved)
  }

  ghost predicate Inv(f: Setting, s: State) {
    Reviewed(s.flows, Log(s.core, f.tenant), s.open, s.exported) && ChainsOk(f.hash, s.core)
  }

  /** A write keeps requesters and final workflows, and adds the entry that accounts for it. */
  predicate Settles(before: map<string, Workflow>, after: map<string, Workflow>, e: Entry) {
    && e.run in after && after == before[e.run := after[e.run]]
    && EntryOk(after, e) && FlowOk(after[e.run])
    && (if e.ReviewRequested? then e.run !in before && after[e.run].status == PendingReview else
          && e.run in before && before[e.run].status == PendingReview
          && before[e.run].requestedBy == after[e.run].requestedBy)
  }

  lemma WriteSettles(flows: map<string, Workflow>, o: Open)
    requires Write(flows, o).Ok? && OpenOk(flows, o) && forall run | run in flows :: FlowOk(flows[run])
    ensures if o.Requesting? && o.seen.Some? then Write(flows, o).value == flows && Logged(o) == None
      else Logged(o).Some? && Settles(flows, Write(flows, o).value, Logged(o).value)
  {}

  lemma AccountedMore(before: map<string, Workflow>, after: map<string, Workflow>, log: seq<Entry>, e: Entry,
                      run: string)
    requires Settles(before, after, e) && Accounted(before, log, run)
    ensures Accounted(after, log + [e], run)
  {
    LogMore(log, e, run);
  }

  lemma EntriesMore(before: map<string, Workflow>, after: map<string, Workflow>, log: seq<Entry>, e: Entry)
    requires Settles(before, after, e) && (forall run :: Accounted(before, log, run)) && Ordered(log)
    requires forall i | 0 <= i < |log| :: EntryOk(before, log[i])
    ensures forall i | 0 <= i < |log + [e]| :: EntryOk(after, (log + [e])[i])
    ensures Ordered(log + [e])
  {
    forall i | 0 <= i < |log| ensures EntryOk(after, log[i])
      && (log[i].run == e.run ==> log[i].ReviewRequested? && e.ReviewDecided?) {
      assert EntryOk(before, log[i]);
    }
  }

  lemma SettledOpen(before: map<string, Workflow>, after: map<string, Workflow>, e: Entry, o: Open)
    requires Settles(before, after, e) && OpenOk(before, o)
    ensures OpenOk(after, o)
  {}

  lemma FlowsWritten(flows: map<string, Workflow>, log: seq<Entry>, open: map<nat, Open>, exported: seq<string>,
                     o: Open)
    requires Reviewed(flows, log, open, exported) && OpenOk(flows, o) && Write(flows, o).Ok?
    ensures Reviewed(Write(flows, o).value, WithEntry(log, Logged(o)), open, exported)
  {
    WriteSettles(flows, o);
    var after := Write(flows, o).value;
    if Logged(o).Some? {
      var e := Logged(o).value;
      forall run ensures Accounted(after, log + [e], run) { AccountedMore(flows, after, log, e, run); }
      EntriesMore(flows, after, log, e);
      forall x | x in open ensures OpenOk(after, open[x]) { SettledOpen(flows, after, e, open[x]); }
    }
  }

  lemma ChainsWritten(f: Setting, core: Core, e: Option<Entry>, occurredAt: string, createdAt: string)
    requires HexDigest(f.hash) && ChainsOk(f.hash, core)
    ensures ChainsOk(f.hash, Appended(f, core, e, occurredAt, createdAt))
  {
    if e.Some? { AppendKeepsChains(f.hash, core, ContentOf(f.tenant, e.value, occurredAt), createdAt); }
  }

  lemma LogWritten(f: Setting, core: Core, e: Option<Entry>, occurredAt: string, createdAt: string)
    requires core.Valid()
    ensures Log(Appended(f, core, e, occurredAt, createdAt), f.tenant) == WithEntry(Log(core, f.tenant), e)
  {
    if e.Some? { EntryWritten(f, core, e.value, occurredAt, createdAt); }
  }

  lemma EntryWritten(f: Setting, core: Core, e: Entry, occurredAt: string, createdAt: string)
    requires core.Valid()
    ensures Log(AppendAudit(f.hash, core, ContentOf(f.tenant, e, occurredAt), createdAt), f.tenant)
      == Log(core, f.tenant) + [e]
  {
    SaidByContent(f.tenant, e, occurredAt);
    AppendLogged(Said, f.hash, core, ContentOf(f.tenant, e, occurredAt), createdAt, f.tenant);
  }

  lemma WriteKeeps(f: Setting, s: State, x: nat, occurredAt: string, createdAt: string, s': State)
    requires HexDigest(f.hash) && Inv(f, s) && x in s.open
    requires s' == Written(f, s.(open := s.open - {x}), s.open[x], occurredAt, createdAt)
    ensures Inv(f, s')
  {
    if Write(s.flows, s.open[x]).Ok? {
      FlowsWritten(s.flows, Log(s.core, f.tenant), s.open - {x}, s.exported, s.open[x]);
      ChainsWritten(f, s.core, Logged(s.open[x]), occurredAt, createdAt);
      LogWritten(f, s.core, Logged(s.open[x]), occurredAt, createdAt);
    }
  }

  lemma FinishKeeps(f: Setting, s: State, a: Action, s': State)
    requires HexDigest(f.hash) && Inv(f, s) && a.Finish? && s' == Apply(f, s, a)
    ensures Inv(f, s')
  {
    if a.x in s.open { WriteKeeps(f, s, a.x, a.occurredAt, a.createdAt, s'); }
  }

  lemma OtherKeeps(f: Setting, core: Core, content: AuditContent, createdAt: string)
    requires HexDigest(f.hash) && ChainsOk(f.hash, core) && Foreign(f, content)
    ensures ChainsOk(f.hash, AppendAudit(f.hash, core, content, createdAt))
    ensures Log(AppendAudit(f.hash, core, content, createdAt), f.tenant) == Log(core, f.tenant)
  {
    AppendKeepsChains(f.hash, core, content, createdAt);
    AppendLogged(Said, f.hash, core, content, createdAt, f.tenant);
    assert Log(core, f.tenant) + [] == Log(core, f.tenant);
  }

  lemma OpenedKeeps(flows: map<string, Workflow>, log: seq<Entry>, open: map<nat, Open>, exported: seq<string>, x: nat,
                    o: Open)
    requires Reviewed(flows, log, open, exported) && OpenOk(flows, o)
    ensures Reviewed(flows, log, open[x := o], exported)
  {}

  lemma ReadReviewOk(flows: map<string, Workflow>, run: string, reviewer: string, decision: string, comment: string)
    requires ReadReview(flows, run, reviewer, decision, comment).Ok? && forall r | r in flows :: FlowOk(flows[r])
    ensures OpenOk(flows, ReadReview(flows, run, reviewer, decision, comment).value)
  {}

  lemma BeginKeeps(f: Setting, s: State, x: nat, read: Result<Open>, s': State)
    requires Inv(f, s) && (read.Ok? ==> OpenOk(s.flows, read.value)) && s' == Opened(s, x, read)
    ensures Inv(f, s')
  {
    if read.Ok? { OpenedKeeps(s.flows, Log(s.core, f.tenant), s.open, s.exported, x, read.value); }
  }

  lemma ExportKeeps(flows: map<string, Workflow>, log: seq<Entry>, open: map<nat, Open>, exported: seq<string>,
                    run: string)
    requires Reviewed(flows, log, open, exported) && run in flows && flows[run].status == Approved
    ensures Reviewed(flows, log, open, exported + [run])
  {}

  lemma SameLogKeeps(f: Setting, s: State, s': State)
    requires Inv(f, s) && s' == s.(core := s'.core)
    requires ChainsOk(f.hash, s'.core) && Log(s'.core, f.tenant) == Log(s.core, f.tenant)
    ensures Inv(f, s')
  {}

  lemma OtherAppendKeeps(f: Setting, s: State, a: Action, s': State)
    requires HexDigest(f.hash) && Inv(f, s) && a.OtherAppend? && s' == Apply(f, s, a)
    ensures Inv(f, s')
  {
    if Foreign(f, a.content) {
      OtherKeeps(f, s.core, a.content, a.createdAt);
      SameLogKeeps(f, s, s');
    }
  }

  lemma ReviewBegins(f: Setting, s: State, a: Action, s': State)
    requires Inv(f, s) && a.BeginReview? && s' == Apply(f, s, a)
    ensures Inv(f, s')
  {
    var read := ReadReview(s.flows, a.run, a.reviewer, a.decision, a.comment);
    if read.Ok? { ReadReviewOk(s.flows, a.run, a.reviewer, a.decision, a.comment); }
    BeginKeeps(f, s, a.x, read, s');
  }

  lemma RequestBegins(f: Setting, s: State, a: Action, s': State)
    requires Inv(f, s) && a.BeginRequest? && s' == Apply(f, s, a)
    ensures Inv(f, s')
  {
    BeginKeeps(f, s, a.x, ReadRequest(s.runs, s.flows, a.run, a.actor), s');
  }

  /** The steps that are not writes. */
  lemma QuietKeeps(f: Setting, s: State, a: Action, s': State)
    requires Inv(f, s) && (a.AddRun? || a.Export?) && s' == Apply(f, s, a)
    ensures Inv(f, s')
  {
    if a.Export? && a.run in s.flows && s.flows[a.run].status == Approved {
      ExportKeeps(s.flows, Log(s.core, f.tenant), s.open, s.exported, a.run);
    }
  }

  lemma ApplyKeeps(f: Setting, s: State, a: Action)
    requires HexDigest(f.hash) && Inv(f, s)
    ensures Inv(f, Apply(f, s, a))
  {
    var s' := Apply(f, s, a);
    match a
    case AddRun(_) => QuietKeeps(f, s, a, s');
    case Export(_) => QuietKeeps(f, s, a, s');
    case BeginRequest(_, _, _) => RequestBegins(f, s, a, s');
    case BeginReview(_, _, _, _, _) => ReviewBegins(f, s, a, s');
    case Finish(_, _, _) => FinishKeeps(f, s, a, s');
    case OtherAppend(_, _) => OtherAppendKeeps(f, s, a, s');
  }

  lemma {:induction false} RunKeeps(f: Setting, s: State, actions: seq<Action>)
    requires HexDigest(f.hash) && Inv(f, s)
    ensures Inv(f, Run(f, s, actions))
    decreases |actions|
  {
    if actions != [] {
      ApplyKeeps(f, s, actions[0]);
      RunKeeps(f, Apply(f, s, actions[0]), actions[1..]);
    }
  }

  lemma InitOk(f: Setting)
    ensures Inv(f, Init)
  {
    forall tenant ensures ChainOf(Init.core.audit, tenant) == [] { assert TenantIdSet(Init.core.audit, tenant) == {}; }
  }

  /** In every run of the machine, whatever else is appended to the chain in between: the tenant's
      audit chain verifies, and it holds one request for each workflow and none without one, at most
      one decision, after the request and exactly if the workflow is final, and both say what the
      workflow says; the decider is not the requester; evidence was handed out for approved runs
      only. */
  lemma FourEyes(f: Setting, actions: seq<Action>, run: string)
    requires HexDigest(f.hash)
    ensures var s := Run(f, Init, actions); var log := Log(s.core, f.tenant);
      && Verifies(f.hash, ChainOf(s.core.audit, f.tenant))
      && Accounted(s.flows, log, run) && Ordered(log) && (forall i | 0 <= i < |log| :: EntryOk(s.flows, log[i]))
      && (run in s.flows && s.flows[run].status != PendingReview ==>
            s.flows[run].reviewedBy.Some? && s.flows[run].reviewedBy != Some(s.flows[run].requestedBy))
      && (run in s.exported ==> run in s.flows && s.flows[run].status == Approved && Decisions(log, run) == 1)
  {
    InitOk(f);
    RunKeeps(f, Init, actions);
    var s := Run(f, Init, actions);
    ReviewedMeans(s.flows, Log(s.core, f.tenant), s.open, s.exported, run);
  }

  lemma ReviewedMeans(flows: map<string, Workflow>, log: seq<Entry>, open: map<nat, Open>, exported: seq<string>,
                      run: string)
    requires Reviewed(flows, log, open, exported)
    ensures Accounted(flows, log, run)
    ensures run in flows && flows[run].status != PendingReview ==>
      flows[run].reviewedBy.Some? && flows[run].reviewedBy != Some(flows[run].requestedBy)
    ensures run in exported ==> run in flows && flows[run].status == Approved && Decisions(log, run) == 1
  {
    assert run in flows ==> FlowOk(flows[run]);
    assert Accounted(flows, log, run);
  }

  lemma FinalStep(f: Setting, s: State, a: Action, run: string)
    requires run in s.flows && s.flows[run].status != PendingReview
    ensures run in Apply(f, s, a).flows && Apply(f, s, a).flows[run] == s.flows[run]
  {
    if a.Finish? && a.x in s.open && Write(s.flows, s.open[a.x]).Ok? { FinalWrite(s.flows, s.open[a.x], run); }
  }

  lemma FinalWrite(flows: map<string, Workflow>, o: Open, run: string)
    requires run in flows && flows[run].status != PendingReview && Write(flows, o).Ok?
    ensures run in Write(flows, o).value && Write(flows, o).value[run] == flows[run]
  {}

  /** A workflow leaves PENDING_REVIEW at most once: once decided it never changes again. */
  lemma {:induction false} FinalStays(f: Setting, s: State, actions: seq<Action>, run: string)
    requires run in s.flows && s.flows[run].status != PendingReview
    ensures run in Run(f, s, actions).flows && Run(f, s, actions).flows[run] == s.flows[run]
    decreases |actions|
  {
    if actions != [] {
      FinalStep(f, s, actions[0], run);
      FinalStays(f, Apply(f, s, actions[0]), actions[1..], run);
    }
  }

  // ----- what decisions workflows and exports go back to

  /** Some call began a review of the run by that reviewer with that comment, and its decision is the
      one that the status stands for. */
  predicate Decided(actions: seq<Action>, run: string, reviewer: string, status: Status, comment: string) {
    exists i | 0 <= i < |actions| ::
      && actions[i].BeginReview? && actions[i].run == run
      && actions[i].reviewer == reviewer && actions[i].comment == comment
      && ((status == Approved && Upper(actions[i].decision) == "APPROVE")
          || (status == Rejected && Upper(actions[i].decision) == "REJECT"))
  }

  predicate FlowTraced(actions: seq<Action>, run: string, w: Workflow) {
    w.status != PendingReview ==>
      w.reviewedBy.Some? && w.comment.Some? && Decided(actions, run, w.reviewedBy.value, w.status, w.comment.value)
  }

  predicate OpenTraced(actions: seq<Action>, o: Open) {
    o.Reviewing? ==> Decided(actions, o.run, o.reviewer, o.status, o.comment)
  }

  predicate Traced(actions: seq<Action>, flows: map<string, Workflow>, open: map<nat, Open>) {
    && (forall run | run in flows :: FlowTraced(actions, run, flows[run]))
    && (forall x | x in open :: OpenTraced(actions, open[x]))
  }

  lemma StillDecided(actions: seq<Action>, a: Action, run: string, reviewer: string, status: Status, comment: string)
    requires Decided(actions, run, reviewer, status, comment)
    ensures Decided(actions + [a], run, reviewer, status, comment)
  {
    var i :| 0 <= i < |actions|
      && actions[i].BeginReview? && actions[i].run == run
      && actions[i].reviewer == reviewer && actions[i].comment == comment
      && ((status == Approved && Upper(actions[i].decision) == "APPROVE")
          || (status == Rejected && Upper(actions[i].decision) == "REJECT"));
    assert (actions + [a])[i] == actions[i];
  }

  lemma StillTraced(actions: seq<Action>, a: Action, flows: map<string, Workflow>, open: map<nat, Open>)
    requires Traced(actions, flows, open)
    ensures Traced(actions + [a], flows, open)
  {
    forall run | run in flows ensures FlowTraced(actions + [a], run, flows[run]) {
      var w := flows[run];
      if w.status != PendingReview {
        StillDecided(actions, a, run, w.reviewedBy.value, w.status, w.comment.value);
      }
    }
    forall x | x in open ensures OpenTraced(actions + [a], open[x]) {
      var o := open[x];
      if o.Reviewing? { StillDecided(actions, a, o.run, o.reviewer, o.status, o.comment); }
    }
  }

  lemma BegunTraced(actions: seq<Action>, a: Action, flows: map<string, Workflow>)
    requires a.BeginReview? && ReadReview(flows, a.run, a.reviewer, a.decision, a.comment).Ok?
    ensures OpenTraced(actions + [a], ReadReview(flows, a.run, a.reviewer, a.decision, a.comment).value)
  {
    assert (actions + [a])[|actions|] == a;
  }

  lemma WriteTraced(actions: seq<Action>, flows: map<string, Workflow>, open: map<nat, Open>, o: Open)
    requires Traced(actions, flows, open) && OpenTraced(actions, o) && Write(flows, o).Ok?
    ensures Traced(actions, Write(flows, o).value, open)
  {}

  lemma TracedStep(f: Setting, actions: seq<Action>, s: State, a: Action)
    requires Traced(actions, s.flows, s.open)
    ensures Traced(actions + [a], Apply(f, s, a).flows, Apply(f, s, a).open)
  {
    StillTraced(actions, a, s.flows, s.open);
    if a.BeginReview? && ReadReview(s.flows, a.run, a.reviewer, a.decision, a.comment).Ok? {
      BegunTraced(actions, a, s.flows);
    } else if a.Finish? && a.x in s.open && Write(s.flows, s.open[a.x]).Ok? {
      WriteTraced(actions + [a], s.flows, s.open - {a.x}, s.open[a.x]);
    }
  }

  lemma {:induction false} TracedRun(f: Setting, before: seq<Action>, s: State, actions: seq<Action>)
    requires Traced(before, s.flows, s.open)
    ensures Traced(before + actions, Run(f, s, actions).flows, Run(f, s, actions).open)
    decreases |actions|
  {
    if actions == [] {
      assert before + actions == before;
    } else {
      TracedStep(f, before, s, actions[0]);
      TracedRun(f, before + [actions[0]], Apply(f, s, actions[0]), actions[1..]);
      assert before + [actions[0]] + actions[1..] == before + actions;
    }
  }

  /** The call began the review whose reviewer, comment and decision the workflow records. */
  predicate IsDecision(a: Action, run: string, w: Workflow) {
    && a.BeginReview? && a.run == run && a.reviewer != w.requestedBy
    && w.reviewedBy == Some(a.reviewer) && w.comment == Some(a.comment)
    && Upper(a.decision) == if w.status == Approved then "APPROVE" else "REJECT"
  }

  /** In every run a workflow is approved only if its recorded reviewer, who is not its requester,
      began a review of it with the decision APPROVE and the recorded comment, rejected only with the
      decision REJECT, and evidence goes out only for runs with such an approval. */
  lemma StatusIsTheDecision(f: Setting, actions: seq<Action>, run: string)
    requires HexDigest(f.hash)
    ensures var s := Run(f, Init, actions);
      && (run in s.flows && s.flows[run].status != PendingReview ==>
            exists i | 0 <= i < |actions| :: IsDecision(actions[i], run, s.flows[run]))
      && (run in s.exported ==>
            && run in s.flows && s.flows[run].status == Approved
            && exists i | 0 <= i < |actions| :: IsDecision(actions[i], run, s.flows[run]))
  {
    FourEyes(f, actions, run);
    TracedRun(f, [], Init, actions);
    assert [] + actions == actions;
    var s := Run(f, Init, actions);
    if run in s.flows && s.flows[run].status != PendingReview { TracedTo(actions, run, s.flows[run]); }
  }

  lemma TracedTo(actions: seq<Action>, run: string, w: Workflow)
    requires FlowTraced(actions, run, w) && w.status != PendingReview && w.reviewedBy != Some(w.requestedBy)
    ensures exists i | 0 <= i < |actions| :: IsDecision(actions[i], run, w)
  {
    var reviewer, comment := w.reviewedBy.value, w.comment.value;
    var i :| 0 <= i < |actions|
      && actions[i].BeginReview? && actions[i].run == run
      && actions[i].reviewer == reviewer && actions[i].comment == comment
      && ((w.status == Approved && Upper(actions[i].decision) == "APPROVE")
          || (w.status == Rejected && Upper(actions[i].decision) == "REJECT"));
    assert IsDecision(actions[i], run, w);
  }
}
