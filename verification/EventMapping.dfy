/** Domain events as the outbox, the audit log and the message broker see them. */
module EventMapping {
  import opened Prelude
  import opened CaseStatus
  import opened Applications

  /** A JSON field of a payload. */
  datatype Field = Text(text: string) | Number(number: int)

  type Payload = map<string, Field>

  datatype Record = Record(eventType: string, payload: Payload)

  function EventToRecord(e: DomainEvent): Record
  {
    match e
    case ApplicationCreated(_, _, _, product) =>
      Record("ApplicationCreated", map["product_id" := Text(product)])
    case ApplicationStateChanged(_, _, _, previous, next, reason, version) =>
      Record("ApplicationStateChanged", map[
        "previous_status" := Text(Name(previous)),
        "new_status" := Text(Name(next)),
        "reason" := Text(reason),
        "version" := Number(version)
      ])
    case DocumentUploaded(_, _, _, document, documentType, objectKey) =>
      Record("DocumentUploaded", map[
        "document_id" := Text(document),
        "document_type" := Text(documentType),
        "object_key" := Text(objectKey)
      ])
  }

  /** A row of `integration.outbox_events`. */
  datatype OutboxRow = OutboxRow(eventId: nat, tenant: TenantId, eventType: string, occurredAt: Time,
                                 aggregateId: AppId, payload: Payload, published: bool)

  function RowOf(e: DomainEvent, eventId: nat): OutboxRow
  {
    var record := EventToRecord(e);
    OutboxRow(eventId, e.tenant, record.eventType, e.occurredAt, e.app, record.payload, false)
  }

  /** The rows of a batch; event ids come from the generator in order. */
  function RowsOf(events: seq<DomainEvent>, firstId: nat): (rows: seq<OutboxRow>)
    ensures |rows| == |events|
    ensures forall i :: 0 <= i < |events| ==> rows[i] == RowOf(events[i], firstId + i)
  {
    seq(|events|, i requires 0 <= i < |events| => RowOf(events[i], firstId + i))
  }

  /** The (status, version) a row moves the read model to, as the projection decodes it: nothing
      for the rows it does not project. */
  function ProjectedState(eventType: string, payload: Payload): Option<(string, int)>
  {
    if eventType == "ApplicationCreated" then Some(("DRAFT", 1))
    else if eventType == "ApplicationStateChanged" && "new_status" in payload && "version" in payload
            && payload["new_status"].Text? && payload["version"].Number?
    then Some((payload["new_status"].text, payload["version"].number))
    else None
  }

  /** The version of the case an event stands for; an upload changes no version. */
  function EventState(e: DomainEvent): Option<(string, int)>
  {
    match e
    case ApplicationCreated(_, _, _, _) => Some((Name(Draft), 1))
    case ApplicationStateChanged(_, _, _, _, next, _, version) => Some((Name(next), version))
    case DocumentUploaded(_, _, _, _, _, _) => None
  }

  /** The read side recovers from a record exactly the state the event was raised for. */
  lemma DecodeRecord(e: DomainEvent)
    ensures var record := EventToRecord(e);
            ProjectedState(record.eventType, record.payload) == EventState(e)
  {
    assert |"ApplicationCreated"| == 18;
    assert |"ApplicationStateChanged"| == 23;
    assert |"DocumentUploaded"| == 16;
  }
}
