/** The versioned events on Kafka: what the publishers write and what the workers read back. */
module KafkaEvents {
  import opened Wrappers
  import TicketAnalysis

  type Id = nat
  type Event = TicketAnalysis.Event

  /** A payload field that should hold an identifier. */
  datatype Field = NotText | NotAnId | Text(id: Id)

  datatype Value =
    | NotJson
    | NotAnObject
    | Object(version: Option<int>, ticket: Field, analysis: Field)

  /** A message key: the canonical text of an identifier, or any other bytes. */
  datatype Key = Canonical(id: Id) | OtherBytes

  datatype Record = Record(value: Value, key: Option<Key>)

  function EncodeTicketCreated(ticket: Id): Record {
    Record(Object(Some(1), Text(ticket), NotText), Some(Canonical(ticket)))
  }

  function EncodeAnalysisCompleted(e: Event): Record {
    Record(Object(Some(1), Text(e.ticket), Text(e.analysis)), Some(Canonical(e.ticket)))
  }

  function DecodeTicketCreated(r: Record): Result<Id, string> {
    if !r.value.Object? || r.value.version != Some(1) || r.value.ticket.NotText? then
      Err("Invalid ticket.created event")
    else if r.value.ticket.NotAnId? || r.key != Some(Canonical(r.value.ticket.id)) then
      Err("Invalid ticket.created event")
    else Ok(r.value.ticket.id)
  }

  function DecodeAnalysisCompleted(r: Record): Result<Event, string> {
    if !r.value.Object? || r.value.version != Some(1) || r.value.ticket.NotText? || r.value.analysis.NotText? then
      Err("Invalid analysis.completed event")
    else if r.value.ticket.NotAnId? || r.value.analysis.NotAnId? || r.key != Some(Canonical(r.value.ticket.id)) then
      Err("Invalid analysis.completed event")
    else Ok(TicketAnalysis.Event(r.value.ticket.id, r.value.analysis.id))
  }

  /** What is published is read back unchanged, and no other record reads as that event. */
  lemma AnalysisEventRoundTrip(r: Record, e: Event)
    ensures DecodeAnalysisCompleted(r) == Ok(e) <==> r == EncodeAnalysisCompleted(e)
  {
  }

  /** A record reads as a ticket event exactly when it has version 1, names the ticket and has that ticket
      as its key; so what is published is read back, and it is never taken for an analysis event. */
  lemma TicketEventRoundTrip(r: Record, ticket: Id)
    ensures DecodeTicketCreated(r) == Ok(ticket) <==>
            && r.value.Object? && r.value.version == Some(1)
            && r.value.ticket == Text(ticket) && r.key == Some(Canonical(ticket))
    ensures DecodeTicketCreated(EncodeTicketCreated(ticket)) == Ok(ticket)
    ensures DecodeAnalysisCompleted(EncodeTicketCreated(ticket)).Err?
  {
  }
}
