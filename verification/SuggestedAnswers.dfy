/** One suggested answer from generation through review to email delivery: the row, the
    transactions on it, and any number of concurrent calls. */
module SuggestedAnswers {
  import opened Wrappers
  import opened Executions
  import Failures
  import Text

  type TicketId = nat
  type CallerId = nat
  type Time = int

  // ---- The row and its constraints ----

  datatype Status = Draft | Approved | Rejected | PendingSend | Sent | SendFailed | Unlisted(text: string)

  datatype Chunk = Chunk(document: nat, index: nat)

  datatype Source = Source(position: nat, document: nat, index: nat)

  datatype Row = Row(
    ticket: TicketId,
    aiContent: string,
    sources: seq<Source>,
    staffContent: Option<string>,
    status: Status,
    updatedAt: Option<Time>,
    reviewedAt: Option<Time>,
    rejectionReason: Option<string>,
    recipientEmail: Option<string>,
    sendStartedAt: Option<Time>,
    sentAt: Option<Time>,
    sendFailureReason: Option<string>)

  predicate StatusCheck(r: Row) {
    r.status in {Draft, Approved, Rejected, PendingSend, Sent, SendFailed}
  }

  predicate ReviewCheck(r: Row) {
    || (r.status == Draft && r.reviewedAt.None? && r.rejectionReason.None?)
    || (r.status in {Approved, PendingSend, Sent, SendFailed} && r.reviewedAt.Some? && r.rejectionReason.None?)
    || (r.status == Rejected && r.reviewedAt.Some? && r.rejectionReason.Some?)
  }

  predicate DeliveryCheck(r: Row) {
    || (r.status in {Draft, Approved, Rejected} && r.recipientEmail.None? && r.sendStartedAt.None?
        && r.sentAt.None? && r.sendFailureReason.None?)
    || (r.status == PendingSend && r.recipientEmail.Some? && r.sendStartedAt.Some?
        && r.sentAt.None? && r.sendFailureReason.None?)
    || (r.status == Sent && r.recipientEmail.Some? && r.sendStartedAt.Some?
        && r.sentAt.Some? && r.sendFailureReason.None?)
    || (r.status == SendFailed && r.recipientEmail.Some? && r.sendStartedAt.Some?
        && r.sentAt.None? && r.sendFailureReason.Some?)
  }

  /** The texts fit their columns, and a stored revision is never blank. */
  predicate TextsFit(r: Row) {
    && (r.rejectionReason.Some? ==> 0 < |r.rejectionReason.value| <= 500)
    && (r.sendFailureReason.Some? ==> 0 < |r.sendFailureReason.value| <= 255)
    && (r.staffContent.Some? ==> r.staffContent.value != "")
  }

  predicate Checks(r: Row) {
    StatusCheck(r) && ReviewCheck(r) && DeliveryCheck(r) && TextsFit(r)
  }

  /** The text that is sent: the revision if there is one that is not empty, else the generated answer. */
  function Body(r: Row): string {
    if r.staffContent.Some? && r.staffContent.value != "" then r.staffContent.value else r.aiContent
  }

  // ---- The transactions ----

  datatype Error =
    | NotFound | BlankContent | BadReason | AlreadyReviewed | NotSendable | RecipientMissing | PendingMissing

  datatype Customer = Customer(email: string, title: string)

  datatype Change =
    | Edit(staffContent: string)
    | Approve
    | Reject(reason: string)
    | BeginSend(customer: Option<Customer>)   // `None`: no ticket or no customer any more
    | RecordSent
    | RecordFailed(failure: string)

  /** One reference per supplied chunk, numbered in prompt order. */
  function Sources(chunks: seq<Chunk>): (r: seq<Source>)
    ensures |r| == |chunks|
    ensures forall i :: 0 <= i < |r| ==> r[i] == Source(i, chunks[i].document, chunks[i].index)
  {
    seq(|chunks|, i requires 0 <= i < |chunks| => Source(i, chunks[i].document, chunks[i].index))
  }

  function NewDraft(ticket: TicketId, answer: string, chunks: seq<Chunk>): Row {
    Row(ticket, answer, Sources(chunks), None, Draft, None, None, None, None, None, None, None)
  }

  function Find(row: Option<Row>, ticket: TicketId): Option<Row> {
    if row.Some? && row.value.ticket == ticket then row else None
  }

  function OpenDraft(row: Option<Row>, ticket: TicketId): Result<Row, Error> {
    var draft := Find(row, ticket);
    if draft.None? then Err(NotFound)
    else if draft.value.status != Draft then Err(AlreadyReviewed)
    else Ok(draft.value)
  }

  /** The row a transaction commits, or the error it raises instead. */
  function Apply(row: Option<Row>, ticket: TicketId, change: Change, now: Time): Result<Row, Error> {
    match change
    case Edit(staffContent) =>
      var content := Text.Strip(staffContent);
      if content == "" then Err(BlankContent)
      else
        (match OpenDraft(row, ticket)
         case Err(e) => Err(e)
         case Ok(draft) => Ok(draft.(staffContent := Some(content), updatedAt := Some(now))))
    case Approve =>
      (match OpenDraft(row, ticket)
       case Err(e) => Err(e)
       case Ok(draft) => Ok(draft.(status := Approved, reviewedAt := Some(now), updatedAt := Some(now))))
    case Reject(text) =>
      var reason := Text.Strip(text);
      if reason == "" || |reason| > 500 then Err(BadReason)
      else
        (match OpenDraft(row, ticket)
         case Err(e) => Err(e)
         case Ok(draft) =>
           Ok(draft.(status := Rejected, rejectionReason := Some(reason),
                     reviewedAt := Some(now), updatedAt := Some(now))))
    case BeginSend(customer) =>
      var draft := Find(row, ticket);
      if draft.None? then Err(NotFound)
      else if draft.value.status != Approved then Err(NotSendable)
      else if customer.None? then Err(RecipientMissing)
      else
        Ok(draft.value.(status := PendingSend, recipientEmail := Some(customer.value.email),
                        sendStartedAt := Some(now), updatedAt := Some(now)))
    case RecordSent =>
      var draft := Find(row, ticket);
      if draft.None? || draft.value.status != PendingSend then Err(PendingMissing)
      else Ok(draft.value.(status := Sent, updatedAt := Some(now), sentAt := Some(now)))
    case RecordFailed(failure) =>
      var draft := Find(row, ticket);
      if draft.None? || draft.value.status != PendingSend then Err(PendingMissing)
      else Ok(draft.value.(status := SendFailed, updatedAt := Some(now), sendFailureReason := Some(failure)))
  }

  // ---- Delivery ----

  datatype Mail = Mail(to: string, subject: string, body: string)

  /** One SMTP submission and whether the transport confirmed it. */
  datatype Submission = Submission(mail: Mail, confirmed: bool)

  datatype SmtpResult = Confirmed | DeliveryError(text: string) | AnyOtherError

  /** The stored reason of a failed submission. */
  function SendFailureReason(r: SmtpResult): (reason: string)
    requires !r.Confirmed?
    ensures 0 < |reason| <= 255
    ensures r.DeliveryError? && 0 < |r.text| <= 255 ==> reason == r.text
    ensures r.DeliveryError? && |r.text| > 255 ==> reason == r.text[..255]
    ensures r == DeliveryError("") ==> reason == "Email delivery failed"
    ensures r == AnyOtherError ==> reason == "Email sender failed"
  {
    var text := if r.DeliveryError? then r.text else "Email sender failed";
    Failures.Truncate(if text == "" then "Email delivery failed" else text, 255)
  }

  function Outcome(r: SmtpResult): Change {
    if r.Confirmed? then RecordSent else RecordFailed(SendFailureReason(r))
  }

  function MailFor(r: Row, customer: Customer): Mail {
    Mail(customer.email, "Re: " + customer.title, Body(r))
  }

  /** A call of `send` between its two transactions. */
  datatype Sender =
    | Sending(ticket: TicketId, mail: Mail)
    | Recording(ticket: TicketId, change: Change)

  /** `reviewed` is the text as of the approval commit. */
  datatype State = State(
    row: Option<Row>,
    generated: bool,
    reviewed: Option<string>,
    submissions: seq<Submission>,
    senders: map<CallerId, Sender>)

  datatype Action =
    | Generate(ticket: TicketId, answer: string, chunks: seq<Chunk>, outcome: CommitOutcome)
    | Review(ticket: TicketId, change: Change, now: Time, outcome: CommitOutcome)
    | Begin(caller: CallerId, ticket: TicketId, customer: Option<Customer>, now: Time, outcome: CommitOutcome)
    | Submit(caller: CallerId, result: SmtpResult)
    | Record(caller: CallerId, now: Time, outcome: CommitOutcome)
    | Vanish(caller: CallerId)
    | DeleteTicket

  predicate IsReview(c: Change) {
    c.Edit? || c.Approve? || c.Reject?
  }

  function Step(s: State, a: Action): Option<State> {
    match a
    case Generate(ticket, answer, chunks, outcome) =>
      if s.generated then None
      else if !outcome.Applied() then Some(s)
      else Some(s.(row := Some(NewDraft(ticket, answer, chunks)), generated := true))
    case Review(ticket, change, now, outcome) =>
      if !IsReview(change) then None
      else
        var r := Apply(s.row, ticket, change, now);
        if r.Err? || !outcome.Applied() then Some(s)
        else Some(s.(row := Some(r.value), reviewed := if change.Approve? then Some(Body(r.value)) else s.reviewed))
    case Begin(caller, ticket, customer, now, outcome) =>
      if caller in s.senders then None
      else
        var r := Apply(s.row, ticket, BeginSend(customer), now);
        if r.Err? || !outcome.Applied() then Some(s)
        else if !outcome.Committed? then Some(s.(row := Some(r.value)))
        else Some(s.(row := Some(r.value),
                     senders := s.senders[caller := Sending(ticket, MailFor(r.value, customer.value))]))
    case Submit(caller, result) =>
      if caller !in s.senders || !s.senders[caller].Sending? then None
      else
        var sender := s.senders[caller];
        Some(s.(submissions := s.submissions + [Submission(sender.mail, result.Confirmed?)],
                senders := s.senders[caller := Recording(sender.ticket, Outcome(result))]))
    case Record(caller, now, outcome) =>
      if caller !in s.senders || !s.senders[caller].Recording? then None
      else
        var sender := s.senders[caller];
        var r := Apply(s.row, sender.ticket, sender.change, now);
        Some(s.(row := if r.Ok? && outcome.Applied() then Some(r.value) else s.row, senders := s.senders - {caller}))
    case Vanish(caller) => Some(s.(senders := s.senders - {caller}))
    case DeleteTicket => Some(s.(row := None))
  }

  function Run(s: State, actions: seq<Action>): Option<State> {
    Execute(Step, s, actions)
  }

  const START := State(None, false, None, [], map[])

  predicate Init(s: State) {
    s == START
  }

  ghost predicate Reachable(s: State) {
    ReachableFrom(Step, Init, s)
  }

  // ---- One transaction ----

  /** The one status a transaction starts from, and the one it ends in. */
  function From(c: Change): Status {
    if IsReview(c) then Draft else if c.BeginSend? then Approved else PendingSend
  }

  function To(c: Change): Status {
    match c
    case Edit(_) => Draft
    case Approve => Approved
    case Reject(_) => Rejected
    case BeginSend(_) => PendingSend
    case RecordSent => Sent
    case RecordFailed(_) => SendFailed
  }

  /** The arguments are acceptable whatever the row is. */
  predicate GoodArguments(c: Change) {
    match c
    case Edit(content) => Text.Strip(content) != ""
    case Reject(reason) => 0 < |Text.Strip(reason)| <= 500
    case BeginSend(customer) => customer.Some?
    case RecordFailed(failure) => 0 < |failure| <= 255
    case _ => true
  }

  /** A transaction goes through exactly from its one status, on a draft of the given ticket. */
  lemma AppliesExactlyFrom(row: Option<Row>, ticket: TicketId, c: Change, now: Time)
    requires c.RecordFailed? ==> GoodArguments(c)
    ensures Apply(row, ticket, c, now).Ok? <==>
            row.Some? && row.value.ticket == ticket && row.value.status == From(c) && GoodArguments(c)
  {
    hide Text.Strip;
  }

  /** Every refusal names its reason: unusable arguments of a review before anything else, then a draft
      that is missing, then a status that has moved on, and a missing customer last. */
  lemma RefusedExactly(row: Option<Row>, ticket: TicketId, c: Change, now: Time)
    requires c.RecordFailed? ==> GoodArguments(c)
    ensures var found := row.Some? && row.value.ticket == ticket;
            var r := Apply(row, ticket, c, now);
            && (r == Err(BlankContent) <==> c.Edit? && |Text.Strip(c.staffContent)| == 0)
            && (r == Err(BadReason) <==> c.Reject? && !(1 <= |Text.Strip(c.reason)| <= 500))
            && (r == Err(NotFound) <==> !found && (c.BeginSend? || (IsReview(c) && GoodArguments(c))))
            && (r == Err(AlreadyReviewed) <==> IsReview(c) && GoodArguments(c) && found && row.value.status != Draft)
            && (r == Err(NotSendable) <==> c.BeginSend? && found && row.value.status != Approved)
            && (r == Err(RecipientMissing) <==>
                  c.BeginSend? && found && row.value.status == Approved && c.customer.None?)
            && (r == Err(PendingMissing) <==>
                  (c.RecordSent? || c.RecordFailed?) && !(found && row.value.status == PendingSend))
  {
    hide Text.Strip;
  }

  /** From every row that satisfies the CHECK constraints, whatever its history, every transaction
      commits a row that satisfies them, in its one status. Every column is accounted for: the generated
      text and its sources stay, an edit stores the trimmed revision, a rejection the trimmed reason, a
      send its recipient, a failed one its reason, and each transaction its own time. */
  lemma ChecksAreInductive(row: Row, ticket: TicketId, c: Change, now: Time)
    requires Checks(row) && Apply(Some(row), ticket, c, now).Ok? && (c.RecordFailed? ==> GoodArguments(c))
    ensures var row' := Apply(Some(row), ticket, c, now).value;
            && Checks(row') && row.status == From(c) && row'.status == To(c)
            && row'.ticket == row.ticket && row'.aiContent == row.aiContent && row'.sources == row.sources
            && row'.staffContent == (if c.Edit? then Some(Text.Strip(c.staffContent)) else row.staffContent)
            && Body(row') == (if c.Edit? then Text.Strip(c.staffContent) else Body(row))
            && row'.updatedAt == Some(now)
            && row'.reviewedAt == (if c.Approve? || c.Reject? then Some(now) else row.reviewedAt)
            && row'.rejectionReason == (if c.Reject? then Some(Text.Strip(c.reason)) else row.rejectionReason)
            && row'.recipientEmail == (if c.BeginSend? then Some(c.customer.value.email) else row.recipientEmail)
            && row'.sendStartedAt == (if c.BeginSend? then Some(now) else row.sendStartedAt)
            && row'.sentAt == (if c.RecordSent? then Some(now) else row.sentAt)
            && row'.sendFailureReason == (if c.RecordFailed? then Some(c.failure) else row.sendFailureReason)
  {
    hide Text.Strip;
  }

  /** A new draft satisfies the constraints; its sources keep the prompt order and are unique by position. */
  lemma NewDraftChecks(ticket: TicketId, answer: string, chunks: seq<Chunk>)
    ensures var row := NewDraft(ticket, answer, chunks);
            && Checks(row) && Body(row) == row.aiContent == answer && row.ticket == ticket && row.status == Draft
            && |row.sources| == |chunks|
            && (forall i :: 0 <= i < |chunks| ==> && row.sources[i].position == i
                                                  && row.sources[i].document == chunks[i].document
                                                  && row.sources[i].index == chunks[i].index)
            && (forall i, k :: 0 <= i < k < |row.sources| ==> row.sources[i].position < row.sources[k].position)
  {
  }
}
