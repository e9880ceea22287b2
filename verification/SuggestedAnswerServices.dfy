/** The review and delivery services, statement by statement, while other calls move between any
    two transactions. A row lock lets nobody else in from the query to the commit. */
module SuggestedAnswerServices {
  import opened Wrappers
  import opened SuggestedAnswers
  import opened SuggestedAnswerSafety
  import Text

  /** How a call can fail: an error of the services, no generated answer, a failed submission, or the
      database. */
  datatype Failure = Refusal(error: Error) | AnswerFailed | DeliveryFailed | DatabaseFailure

  predicate NotBy(a: Action, id: CallerId) {
    match a
    case Begin(c, _, _, _, _) => c != id
    case Submit(c, _) => c != id
    case Record(c, _, _) => c != id
    case Vanish(c) => c != id
    case _ => true
  }

  lemma SenderUntouched(s: State, a: Action, id: CallerId)
    requires NotBy(a, id) && Step(s, a).Some?
    ensures var s' := Step(s, a).value;
            && (id in s'.senders <==> id in s.senders)
            && (id in s.senders ==> s'.senders[id] == s.senders[id])
  {
    hide Apply;
  }

  class Database {
    var state: State

    constructor (state: State)
      ensures this.state == state
    {
      this.state := state;
    }

    ghost predicate Since(start: State)
      reads this
    {
      Reachable(state) && Later(start, state)
    }

    /** Any number of steps of other calls. */
    method Others(id: CallerId, ghost start: State)
      requires Since(start)
      modifies this
      ensures Since(start)
      ensures id in state.senders <==> id in old(state.senders)
      ensures id in state.senders ==> state.senders[id] == old(state.senders)[id]
    {
      hide Reachable;
      hide Step;
      hide Later;
      var steps: nat := *;
      while steps > 0
        invariant Since(start)
        invariant id in state.senders <==> id in old(state.senders)
        invariant id in state.senders ==> state.senders[id] == old(state.senders)[id]
      {
        var a: Action := *;
        if NotBy(a, id) && Step(state, a).Some? {
          SenderUntouched(state, a, id);
          Take(a, start);
        }
        steps := steps - 1;
      }
    }

    method Take(a: Action, ghost start: State)
      requires Since(start) && Step(state, a).Some?
      modifies this
      ensures Since(start) && Step(old(state), a) == Some(state)
    {
      hide Reachable;
      hide Inv;
      hide Step;
      hide Later;
      ReachableInv(state);
      StepInv(state, a);
      ReachableStep(state, a);
      ReachableLater(start, state, Step(state, a).value);
      state := Step(state, a).value;
    }

    /** Commit the changed row; `a` is the transaction it amounts to. */
    method Commit(draft: Row, a: Action, outcome: CommitOutcome, ghost start: State) returns (ok: bool)
      requires Since(start) && Step(state, a).Some?
      requires Step(state, a).value.row == if outcome.Applied() then Some(draft) else state.row
      modifies this
      ensures Since(start) && Step(old(state), a) == Some(state) && ok == outcome.Committed?
      ensures state.row == if outcome.Applied() then Some(draft) else old(state.row)
    {
      hide Reachable;
      hide Step;
      hide Later;
      Take(a, start);
      ok := outcome.Committed?;
    }
  }

  lemma ReachableLater(start: State, s: State, s': State)
    requires Reachable(s) && Reachable(s') && Later(start, s) && Later(s, s')
    ensures Later(start, s')
  {
    hide Reachable;
    hide Checks;
    hide Owns;
    hide DeliveryOk;
    ReachableInv(s);
    ReachableInv(s');
  }

  lemma OneSubmission(s: State, s': State, submission: Submission)
    requires Reachable(s') && Later(s, s') && s.submissions == [submission]
    ensures s'.submissions == [submission] && s'.reviewed == Some(submission.mail.body)
  {
    hide Reachable;
    ReachableInv(s');
  }

  class SuggestedAnswerService {
    const database: Database
    const id: CallerId

    constructor (database: Database, id: CallerId)
      ensures this.database == database && this.id == id
    {
      this.database := database;
      this.id := id;
    }

    /** Store a draft under a new id, from what the knowledge base and the model answered (`None`: they
        raised). */
    method Generate(ticket: TicketId, ticketFound: bool, result: Option<(string, seq<Chunk>)>)
      returns (r: Result<Row, Failure>)
      requires Reachable(database.state) && !database.state.generated
      modifies database
      ensures database.Since(old(database.state))
      ensures !ticketFound ==> r == Err(Refusal(NotFound)) && database.state == old(database.state)
      ensures ticketFound && result.None? ==> r == Err(AnswerFailed) && database.state == old(database.state)
      ensures ticketFound && result.Some? ==>
                var draft := NewDraft(ticket, result.value.0, result.value.1);
                || (r == Ok(draft) && database.state.row == Some(draft))
                || (r == Err(DatabaseFailure)
                    && (database.state == old(database.state) || database.state.row == Some(draft)))
    {
      hide Reachable;
      hide Later;
      LaterReflexive(database.state);
      if !ticketFound { return Err(Refusal(NotFound)); }
      if !result.Some? { return Err(AnswerFailed); }
      var (answer, chunks) := result.value;
      var sources: seq<Source> := [];
      for position := 0 to |chunks|
        invariant |sources| == position
        invariant forall k :: 0 <= k < position ==> sources[k] == Source(k, chunks[k].document, chunks[k].index)
      {
        sources := sources + [Source(position, chunks[position].document, chunks[position].index)];
      }
      var draft := Row(ticket, answer, sources, None, Draft, None, None, None, None, None, None, None);
      assert sources == Sources(chunks);
      var outcome: CommitOutcome := *;
      var ok := database.Commit(draft, Action.Generate(ticket, answer, chunks, outcome), outcome, database.state);
      r := if ok then Ok(draft) else Err(DatabaseFailure);
    }

    /** The outcome of one review transaction that saw `locked` under the row lock. */
    ghost predicate Reviewed(locked: State, ticket: TicketId, change: Change, now: Time, r: Result<Row, Failure>)
      reads database
    {
      match Apply(locked.row, ticket, change, now)
      case Err(e) => r == Err(Refusal(e)) && database.state == locked
      case Ok(row) =>
        || (r == Ok(row) && database.state.row == Some(row))
        || (r == Err(DatabaseFailure) && (database.state == locked || database.state.row == Some(row)))
    }

    method Edit(ticket: TicketId, staffContent: string, now: Time)
      returns (r: Result<Row, Failure>, ghost locked: State)
      requires Reachable(database.state)
      modifies database
      ensures database.Since(old(database.state)) && Later(old(database.state), locked)
      ensures Reviewed(locked, ticket, Change.Edit(staffContent), now, r)
      ensures r.Ok? ==> && r.value.staffContent == Some(Text.Strip(staffContent)) && r.value.status == Draft
                        && r.value.updatedAt == Some(now)
    {
      hide Reachable;
      hide Later;
      hide Text.Strip;
      ghost var start := database.state;
      LaterReflexive(start);
      locked := start;
      var content := Text.Strip(staffContent);
      if content == "" { return Err(Refusal(BlankContent)), locked; }
      var found := OpenDraftForUpdate(ticket, start);
      locked := database.state;
      if found.Err? { return Err(Refusal(found.error)), locked; }
      var draft := found.value;
      draft := draft.(staffContent := Some(content));
      draft := draft.(updatedAt := Some(now));
      var outcome: CommitOutcome := *;
      var ok := database.Commit(draft, Review(ticket, Change.Edit(staffContent), now, outcome), outcome, start);
      r := if ok then Ok(draft) else Err(DatabaseFailure);
    }

    method Approve(ticket: TicketId, now: Time) returns (r: Result<Row, Failure>, ghost locked: State)
      requires Reachable(database.state)
      modifies database
      ensures database.Since(old(database.state)) && Later(old(database.state), locked)
      ensures Reviewed(locked, ticket, Change.Approve, now, r)
      ensures r.Ok? ==> r.value.status == Approved && r.value.reviewedAt == r.value.updatedAt == Some(now)
    {
      hide Reachable;
      hide Later;
      ghost var start := database.state;
      LaterReflexive(start);
      var found := OpenDraftForUpdate(ticket, start);
      locked := database.state;
      if found.Err? { return Err(Refusal(found.error)), locked; }
      var draft := found.value;
      draft := draft.(status := Approved);
      draft := draft.(reviewedAt := Some(now));
      draft := draft.(updatedAt := Some(now));
      var outcome: CommitOutcome := *;
      var ok := database.Commit(draft, Review(ticket, Change.Approve, now, outcome), outcome, start);
      r := if ok then Ok(draft) else Err(DatabaseFailure);
    }

    method Reject(ticket: TicketId, reason: string, now: Time) returns (r: Result<Row, Failure>, ghost locked: State)
      requires Reachable(database.state)
      modifies database
      ensures database.Since(old(database.state)) && Later(old(database.state), locked)
      ensures Reviewed(locked, ticket, Change.Reject(reason), now, r)
      ensures r.Ok? ==> && r.value.status == Rejected && r.value.rejectionReason == Some(Text.Strip(reason))
                        && r.value.reviewedAt == r.value.updatedAt == Some(now)
    {
      hide Reachable;
      hide Later;
      hide Text.Strip;
      ghost var start := database.state;
      LaterReflexive(start);
      locked := start;
      var normalizedReason := Text.Strip(reason);
      if normalizedReason == "" || |normalizedReason| > 500 { return Err(Refusal(BadReason)), locked; }
      var found := OpenDraftForUpdate(ticket, start);
      locked := database.state;
      if found.Err? { return Err(Refusal(found.error)), locked; }
      var draft := found.value;
      draft := draft.(status := Rejected);
      draft := draft.(rejectionReason := Some(normalizedReason));
      draft := draft.(reviewedAt := Some(now));
      draft := draft.(updatedAt := Some(now));
      var outcome: CommitOutcome := *;
      var ok := database.Commit(draft, Review(ticket, Change.Reject(reason), now, outcome), outcome, start);
      r := if ok then Ok(draft) else Err(DatabaseFailure);
    }

    /** Lock the draft until the transaction ends. */
    method OpenDraftForUpdate(ticket: TicketId, ghost start: State) returns (r: Result<Row, Error>)
      requires database.Since(start)
      modifies database
      ensures database.Since(start) && r == OpenDraft(database.state.row, ticket)
    {
      hide Reachable;
      hide Later;
      database.Others(id, start);
      var draft := Find(database.state.row, ticket);
      if draft.None? { return Err(NotFound); }
      if draft.value.status != Draft { return Err(AlreadyReviewed); }
      r := Ok(draft.value);
    }
  }

  class SuggestedAnswerDeliveryService {
    const database: Database
    const id: CallerId

    constructor (database: Database, id: CallerId)
      ensures this.database == database && this.id == id
    {
      this.database := database;
      this.id := id;
    }

    /** Commit `pending_send`, submit the email once, then record what the transport said. The ticket is
        loaded with `customer`; `smtp` is how the one submission ended, `locked` is what the call saw
        under its first row lock. */
    method Send(ticket: TicketId, customer: Option<Customer>, now: Time, later: Time)
      returns (r: Result<Row, Failure>, submitted: Option<Submission>, smtp: Option<SmtpResult>, ghost locked: State)
      requires Reachable(database.state) && id !in database.state.senders
      modifies database
      ensures database.Since(old(database.state)) && id !in database.state.senders
      ensures r.Ok? ==> && database.state.row == Some(r.value) && r.value.ticket == ticket && r.value.status == Sent
                        && r.value.sentAt == Some(later) && submitted.Some? && submitted.value.confirmed
      ensures r == Err(DeliveryFailed) ==>
                && submitted.Some? && !submitted.value.confirmed && smtp.Some? && !smtp.value.Confirmed?
                && database.state.row.Some? && database.state.row.value.status == SendFailed
                && database.state.row.value.sendFailureReason == Some(SendFailureReason(smtp.value))
      ensures submitted.Some? <==> smtp.Some?
      ensures submitted.Some? ==> && submitted.value.confirmed == smtp.value.Confirmed? && customer.Some?
                                  && submitted.value.mail.to == customer.value.email
                                  && submitted.value.mail.subject == "Re: " + customer.value.title
      ensures r == Err(Refusal(PendingMissing)) ==> database.state.row.None? && submitted.Some?
      // Refused, before anything is sent, exactly for a missing draft, another status, or no customer.
      ensures Later(old(database.state), locked)
      ensures r == Err(Refusal(NotFound)) <==> !(locked.row.Some? && locked.row.value.ticket == ticket)
      ensures r == Err(Refusal(NotSendable)) <==>
                locked.row.Some? && locked.row.value.ticket == ticket && locked.row.value.status != Approved
      ensures r == Err(Refusal(RecipientMissing)) <==>
                locked.row.Some? && locked.row.value.ticket == ticket && locked.row.value.status == Approved
                && customer.None?
      ensures r.Err? && r.error.Refusal? && r.error.error != PendingMissing ==>
                submitted.None? && database.state == locked
      ensures submitted.Some? ==> database.state.submissions == [submitted.value]
                                  && database.state.reviewed == Some(submitted.value.mail.body)
    {
      hide Reachable;
      hide Later;
      submitted, smtp := None, None;
      ghost var start := database.state;
      LaterReflexive(start);
      database.Others(id, start);
      locked := database.state;
      var found := Find(database.state.row, ticket);
      if found.None? { return Err(Refusal(NotFound)), None, None, locked; }
      var draft := found.value;
      if draft.status != Approved { return Err(Refusal(NotSendable)), None, None, locked; }
      if !customer.Some? { return Err(Refusal(RecipientMissing)), None, None, locked; }
      var edited := draft.staffContent.Some? && draft.staffContent.value != "";
      var body := if edited then draft.staffContent.value else draft.aiContent;
      var mail := Mail(customer.value.email, "Re: " + customer.value.title, body);
      draft := draft.(status := PendingSend);
      draft := draft.(recipientEmail := Some(customer.value.email));
      draft := draft.(sendStartedAt := Some(now));
      draft := draft.(updatedAt := Some(now));
      var outcome: CommitOutcome := *;
      var ok := database.Commit(draft, Begin(id, ticket, customer, now, outcome), outcome, start);
      if !ok { return Err(DatabaseFailure), None, None, locked; }

      database.Others(id, start);
      assert database.state.senders[id] == Sending(ticket, mail);
      NothingSubmitted(database.state, id);
      var result: SmtpResult := *;
      database.Take(Submit(id, result), start);
      submitted, smtp := Some(Submission(mail, result.Confirmed?)), Some(result);
      ghost var between := database.state;
      if !result.Confirmed? {
        var recorded := RecordOutcome(ticket, RecordFailed(SendFailureReason(result)), later, submitted.value);
        r := if recorded.Ok? then Err(DeliveryFailed) else recorded;
      } else {
        r := RecordOutcome(ticket, RecordSent, later, submitted.value);
      }
      ReachableLater(start, between, database.state);
      OneSubmission(between, database.state, submitted.value);
    }

    /** Record the outcome on the pending row; it can only be missing if the draft was deleted. */
    method RecordOutcome(ticket: TicketId, change: Change, now: Time, ghost submission: Submission)
      returns (r: Result<Row, Failure>)
      requires Reachable(database.state) && id in database.state.senders
               && database.state.senders[id] == Recording(ticket, change)
      requires database.state.submissions == [submission]
      modifies database
      ensures database.Since(old(database.state)) && id !in database.state.senders
      ensures database.state.submissions == [submission]
      ensures r.Ok? ==> && database.state.row == Some(r.value) && r.value.ticket == ticket
                        && r.value.status == (if change == RecordSent then Sent else SendFailed)
                        && (change == RecordSent ==> r.value.sentAt == Some(now))
                        && (change.RecordFailed? ==> r.value.sendFailureReason == Some(change.failure))
      ensures r.Err? ==> r == Err(DatabaseFailure) || (r == Err(Refusal(PendingMissing)) && database.state.row.None?)
    {
      hide Reachable;
      hide Later;
      ghost var start := database.state;
      LaterReflexive(start);
      database.Others(id, start);
      Owned(database.state, id);
      OneSubmission(start, database.state, submission);
      var outcome: CommitOutcome := *;
      var found := Find(database.state.row, ticket);
      if found.None? || found.value.status != PendingSend {
        database.Take(Vanish(id), start);
        return Err(Refusal(PendingMissing));
      }
      var draft := found.value;
      draft := draft.(status := if change == RecordSent then Sent else SendFailed);
      draft := draft.(updatedAt := Some(now));
      if change == RecordSent {
        draft := draft.(sentAt := Some(now));
      } else {
        draft := draft.(sendFailureReason := Some(change.failure));
      }
      var ok := database.Commit(draft, Record(id, now, outcome), outcome, start);
      r := if ok then Ok(draft) else Err(DatabaseFailure);
    }
  }

  lemma NothingSubmitted(s: State, id: CallerId)
    requires Reachable(s) && id in s.senders && s.senders[id].Sending?
    ensures s.submissions == []
  {
    hide Reachable;
    ReachableInv(s);
    assert Owns(s, s.senders[id]);
  }

  lemma Owned(s: State, id: CallerId)
    requires Reachable(s) && id in s.senders && s.senders[id].Recording?
    ensures |s.submissions| == 1 && (s.senders[id].change == RecordSent || s.senders[id].change.RecordFailed?)
    ensures s.row.Some? ==> s.row.value.status == PendingSend && s.row.value.ticket == s.senders[id].ticket
  {
    hide Reachable;
    ReachableInv(s);
    assert Owns(s, s.senders[id]);
  }
}
