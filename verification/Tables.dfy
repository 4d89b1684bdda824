/** The rows of the audit, outbox, dead-letter and receipt tables. */
module Tables {
  import opened Ordering

  /** A normalised JSON value: what json.loads gives back for a canonical_json text. */
  datatype Json =
    | JNull
    | JBool(b: bool)
    | JInt(n: int)
    | JStr(s: string)
    | JArr(items: seq<Json>)
    | JObj(fields: map<string, Json>)

  /** The columns of an audit row that enter its hash, apart from previous_hash. */
  datatype AuditContent = AuditContent( tenantId: string, moduleName: string, eventType: string, entityId: string,
                                       occurredAt: string, payload: Json)

  datatype AuditRow = AuditRow(id: nat, content: AuditContent, previousHash: string, eventHash: string)

  /** The columns of an outbox row that never change; also what a publisher receives. */
  datatype EventEnvelope = EventEnvelope( id: nat, tenantId: string, topic: string, aggregateId: string, payload: Json,
                                         createdAt: string)

  datatype OutboxRow = OutboxRow( event: EventEnvelope, publishedAt: Option<string>, attempts: nat,
                                 lastError: Option<string>, deadLetteredAt: Option<string>)

  /** A dead letter; the table is keyed by its unique outbox_id column. */
  datatype DeadLetter = DeadLetter( outboxId: nat, tenantId: string, topic: string, aggregateId: string, payload: Json,
                                   failureReason: string, failedAt: string, replayedAt: Option<string>)

  /** The primary key of consumer_receipts; the event id column holds str(event.id). */
  datatype ReceiptKey = ReceiptKey(consumer: string, eventId: nat)
}
