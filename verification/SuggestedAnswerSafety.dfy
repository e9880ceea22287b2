/** At most one email per draft, carrying the reviewed text: what holds over every interleaving of
    calls with crashes, lost replies and failed commits. */
module SuggestedAnswerSafety {
  import opened Wrappers
  import opened Executions
  import opened SuggestedAnswers
  import Text

  /** The call between its two transactions owns the pending row. */
  predicate Owns(s: State, sender: Sender) {
    && s.generated
    && (s.row.Some? ==> s.row.value.status == PendingSend && s.row.value.ticket == sender.ticket)
    && match sender
       case Sending(_, mail) =>
         && s.submissions == [] && s.reviewed == Some(mail.body)
         && (s.row.Some? ==> s.row.value.recipientEmail == Some(mail.to))
       case Recording(_, change) =>
         && |s.submissions| == 1
         && (change == RecordSent || (change.RecordFailed? && GoodArguments(change)))
         && (change == RecordSent <==> s.submissions[0].confirmed)
  }

  predicate OneOwner(s: State) {
    && (forall c :: c in s.senders ==> Owns(s, s.senders[c]))
    && (forall c, d :: c in s.senders && d in s.senders ==> c == d)
  }

  predicate SubmissionsOk(s: State) {
    && |s.submissions| <= 1
    && (s.submissions != [] ==> s.reviewed == Some(s.submissions[0].mail.body))
    && (s.submissions != [] && s.row.Some? ==> s.row.value.recipientEmail == Some(s.submissions[0].mail.to))
  }

  predicate RowOk(s: State, row: Row) {
    && Checks(row)
    && match row.status
       case Draft => s.reviewed.None?
       case Rejected => s.reviewed.None?
       case Unlisted(_) => false
       case _ => s.reviewed == Some(Body(row))
  }

  predicate DeliveryOk(s: State, row: Row) {
    match row.status
    case PendingSend => true
    case Sent => s.senders == map[] && |s.submissions| == 1 && s.submissions[0].confirmed
    case SendFailed => s.senders == map[] && |s.submissions| == 1 && !s.submissions[0].confirmed
    case _ => s.senders == map[] && s.submissions == []
  }

  predicate Inv(s: State) {
    && OneOwner(s) && SubmissionsOk(s)
    && (s.row.Some? ==> s.generated && RowOk(s, s.row.value) && DeliveryOk(s, s.row.value))
    && (!s.generated ==> s == START)
  }

  /** draft, then approved or rejected; approved, then pending, then sent or failed. */
  predicate Precedes(a: Status, b: Status) {
    || a == b
    || a == Draft
    || (a == Approved && b in {PendingSend, Sent, SendFailed})
    || (a == PendingSend && b in {Sent, SendFailed})
  }

  /** What every step preserves. */
  predicate Later(s: State, s': State) {
    && s.submissions <= s'.submissions
    && (s.reviewed.Some? ==> s'.reviewed == s.reviewed)
    && (s.generated ==> s'.generated && (s.row.None? ==> s'.row.None?))
    && (s.generated && s.row.Some? && s'.row.Some? ==> RowLater(s.row.value, s'.row.value))
  }

  predicate RowLater(r: Row, r': Row) {
    && Precedes(r.status, r'.status)
    && r'.ticket == r.ticket && r'.aiContent == r.aiContent && r'.sources == r.sources
    && (r.status != Draft ==> r'.staffContent == r.staffContent)
    && (r.reviewedAt.Some? ==> r'.reviewedAt == r.reviewedAt)
    && (r.rejectionReason.Some? ==> r'.rejectionReason == r.rejectionReason)
    && (r.recipientEmail.Some? ==> r'.recipientEmail == r.recipientEmail)
    && (r.sendStartedAt.Some? ==> r'.sendStartedAt == r.sendStartedAt)
    && (r.sentAt.Some? ==> r'.sentAt == r.sentAt)
    && (r.sendFailureReason.Some? ==> r'.sendFailureReason == r.sendFailureReason)
  }

  /** No transaction overwrites what an earlier one recorded. */
  lemma ChangeKeepsRecorded(row: Row, ticket: TicketId, c: Change, now: Time)
    requires Checks(row) && Apply(Some(row), ticket, c, now).Ok? && (c.RecordFailed? ==> GoodArguments(c))
    ensures RowLater(row, Apply(Some(row), ticket, c, now).value)
  {
    hide Apply;
    hide Text.Strip;
    hide TextsFit;
    ChecksAreInductive(row, ticket, c, now);
  }

  lemma ReviewInv(s: State, a: Action)
    requires a.Review? && Inv(s) && Step(s, a).Some?
    ensures Inv(Step(s, a).value) && Later(s, Step(s, a).value)
  {
    hide Text.Strip;
    hide Checks;
    hide Apply;
    hide Owns;
    if s.row.Some? && Apply(s.row, a.ticket, a.change, a.now).Ok? {
      ChecksAreInductive(s.row.value, a.ticket, a.change, a.now);
      ChangeKeepsRecorded(s.row.value, a.ticket, a.change, a.now);
      AppliesExactlyFrom(s.row, a.ticket, a.change, a.now);
    } else {
      AppliesExactlyFrom(s.row, a.ticket, a.change, a.now);
    }
  }

  lemma BeginInv(s: State, a: Action)
    requires a.Begin? && Inv(s) && Step(s, a).Some?
    ensures Inv(Step(s, a).value) && Later(s, Step(s, a).value)
  {
    hide Checks;
    AppliesExactlyFrom(s.row, a.ticket, BeginSend(a.customer), a.now);
    if Apply(s.row, a.ticket, BeginSend(a.customer), a.now).Ok? {
      ChecksAreInductive(s.row.value, a.ticket, BeginSend(a.customer), a.now);
      ChangeKeepsRecorded(s.row.value, a.ticket, BeginSend(a.customer), a.now);
    }
  }

  lemma SubmitInv(s: State, a: Action)
    requires a.Submit? && Inv(s) && Step(s, a).Some?
    ensures Inv(Step(s, a).value) && Later(s, Step(s, a).value)
  {
    hide Checks;
    hide Apply;
    hide SendFailureReason;
  }

  lemma RecordInv(s: State, a: Action)
    requires a.Record? && Inv(s) && Step(s, a).Some?
    ensures Inv(Step(s, a).value) && Later(s, Step(s, a).value)
  {
    hide Checks;
    var sender := s.senders[a.caller];
    assert Owns(s, sender);
    AppliesExactlyFrom(s.row, sender.ticket, sender.change, a.now);
    if Apply(s.row, sender.ticket, sender.change, a.now).Ok? {
      ChecksAreInductive(s.row.value, sender.ticket, sender.change, a.now);
      ChangeKeepsRecorded(s.row.value, sender.ticket, sender.change, a.now);
    }
    assert s.senders - {a.caller} == map[];
  }

  lemma StepInv(s: State, a: Action)
    requires Inv(s) && Step(s, a).Some?
    ensures Inv(Step(s, a).value) && Later(s, Step(s, a).value)
  {
    match a
    case Review(_, _, _, _) => hide *; ReviewInv(s, a);
    case Begin(_, _, _, _, _) => hide *; BeginInv(s, a);
    case Submit(_, _) => hide *; SubmitInv(s, a);
    case Record(_, _, _) => hide *; RecordInv(s, a);
    case Generate(ticket, answer, chunks, _) => hide Apply; NewDraftChecks(ticket, answer, chunks);
    case _ => hide Apply; hide Checks;
  }

  lemma LaterTransitive(s: State, t: State, u: State)
    requires Inv(s) && Inv(t) && Inv(u) && Later(s, t) && Later(t, u)
    ensures Later(s, u)
  {
    hide Owns;
    hide DeliveryOk;
    hide Checks;
  }

  lemma LaterReflexive(s: State)
    ensures Later(s, s)
  {
  }

  lemma RunInv(s: State, actions: seq<Action>)
    requires Inv(s) && Run(s, actions).Some?
    ensures Inv(Run(s, actions).value) && Later(s, Run(s, actions).value)
  {
    hide Step;
    hide Inv;
    hide Later;
    forall t, a | Inv(t) && Step(t, a).Some?
      ensures Inv(Step(t, a).value) && Later(t, Step(t, a).value)
    {
      StepInv(t, a);
    }
    forall t ensures Later(t, t) { LaterReflexive(t); }
    forall t, u, v | Inv(t) && Inv(u) && Inv(v) && Later(t, u) && Later(u, v)
      ensures Later(t, v)
    {
      LaterTransitive(t, u, v);
    }
    Keeps(Step, Inv, Later, s, actions);
  }

  lemma InitInv(s: State)
    requires Init(s)
    ensures Inv(s)
  {
  }

  lemma ReachableInv(s: State)
    requires Reachable(s)
    ensures Inv(s)
  {
    hide Step;
    hide Inv;
    forall t | Init(t) ensures Inv(t) { InitInv(t); }
    forall t, a | Inv(t) && Step(t, a).Some? ensures Inv(Step(t, a).value) { StepInv(t, a); }
    ReachableKeeps(Step, Init, Inv, s);
  }

  lemma ReachableStep(s: State, a: Action)
    requires Reachable(s) && Step(s, a).Some?
    ensures Reachable(Step(s, a).value)
  {
    hide Step;
    StepReaches(Step, Init, s, a);
  }

  // ---- Main results ----

  /** At most one email per draft, ever; `sent` is recorded only when the transport confirmed it, and
      `send_failed` only when the one submission was not confirmed. */
  lemma AtMostOneEmail(s: State)
    requires Reachable(s)
    ensures |s.submissions| <= 1
    ensures s.row.Some? && s.row.value.status == Sent ==> |s.submissions| == 1 && s.submissions[0].confirmed
    ensures s.row.Some? && s.row.value.status == SendFailed ==> |s.submissions| == 1 && !s.submissions[0].confirmed
    ensures s.row.Some? && s.row.value.status in {Draft, Approved, Rejected} ==> s.submissions == []
  {
    hide Reachable;
    hide OneOwner;
    hide RowOk;
    ReachableInv(s);
  }

  /** The transport is only contacted while `pending_send` is committed (or the draft is deleted), and
      the email goes to the recorded recipient with the text that was approved. */
  lemma EmailIsTheReviewedText(s: State, a: Action)
    requires Reachable(s) && Step(s, a).Some? && Step(s, a).value.submissions != s.submissions
    ensures var m := Step(s, a).value.submissions[|s.submissions|].mail;
            && s.submissions == [] && s.reviewed == Some(m.body)
            && (s.row.Some? ==> s.row.value.status == PendingSend && Body(s.row.value) == m.body
                                && s.row.value.recipientEmail == Some(m.to))
  {
    hide Reachable;
    hide Apply;
    hide Checks;
    ReachableInv(s);
    assert Owns(s, s.senders[a.caller]);
  }

  /** From an approval on, whatever happens afterwards, every email carries the text that row had. */
  lemma EmailAfterApproval(s: State, actions: seq<Action>, k: nat)
    requires Reachable(s) && s.row.Some? && s.row.value.status == Approved
    requires Run(s, actions).Some? && k < |Run(s, actions).value.submissions|
    ensures k == 0 && Run(s, actions).value.submissions[k].mail.body == Body(s.row.value)
  {
    hide Reachable;
    hide Run;
    hide OneOwner;
    ReachableInv(s);
    RunInv(s, actions);
  }

  /** Once a draft is reviewed its text is final, the generated answer never changes at all, and the
      status only moves forward. */
  lemma ReviewedTextIsFrozen(s: State, actions: seq<Action>)
    requires Reachable(s) && s.row.Some? && Run(s, actions).Some? && Run(s, actions).value.row.Some?
    ensures var r, r' := s.row.value, Run(s, actions).value.row.value;
            && r'.aiContent == r.aiContent && r'.sources == r.sources && r'.ticket == r.ticket
            && (r.status != Draft ==> r'.staffContent == r.staffContent)
            && Precedes(r.status, r'.status)
  {
    hide Reachable;
    hide Run;
    hide OneOwner;
    hide RowOk;
    hide DeliveryOk;
    ReachableInv(s);
    RunInv(s, actions);
  }

  /** What a review or a delivery has recorded is never changed: the time of the review, the reason of a
      rejection, the recipient and the times of a send, and the reason of its failure. */
  lemma RecordedForGood(s: State, actions: seq<Action>)
    requires Reachable(s) && s.row.Some? && Run(s, actions).Some? && Run(s, actions).value.row.Some?
    ensures var r, r' := s.row.value, Run(s, actions).value.row.value;
            && (r.reviewedAt.Some? ==> r'.reviewedAt == r.reviewedAt)
            && (r.rejectionReason.Some? ==> r'.rejectionReason == r.rejectionReason)
            && (r.recipientEmail.Some? ==> r'.recipientEmail == r.recipientEmail)
            && (r.sendStartedAt.Some? ==> r'.sendStartedAt == r.sendStartedAt)
            && (r.sentAt.Some? ==> r'.sentAt == r.sentAt)
            && (r.sendFailureReason.Some? ==> r'.sendFailureReason == r.sendFailureReason)
  {
    hide Reachable;
    hide Run;
    hide OneOwner;
    hide RowOk;
    hide DeliveryOk;
    ReachableInv(s);
    RunInv(s, actions);
  }

  /** A send is never retried: a pending row that no call owns any more stays exactly as it is (or is
      deleted), and no further email goes out. */
  lemma {:induction false} StuckPendingStays(s: State, actions: seq<Action>)
    requires Reachable(s) && s.row.Some? && s.row.value.status == PendingSend && s.senders == map[]
    requires Run(s, actions).Some?
    ensures var s' := Run(s, actions).value;
            s'.submissions == s.submissions && s'.senders == map[] && (s'.row == s.row || s'.row == None)
  {
    hide Reachable;
    ReachableInv(s);
    NobodySends(s, actions);
  }

  /** Such a row may hide an email that was accepted: the call went away before recording it. */
  lemma StuckPendingMayBeSent(ticket: TicketId, answer: string, customer: Customer)
    ensures exists s :: Reachable(s) && s.row.Some? && s.row.value.status == PendingSend && s.senders == map[]
                        && s.submissions == [Submission(Mail(customer.email, "Re: " + customer.title, answer), true)]
  {
    hide Reachable;
    StartIsReachable();
    var s0 := Taken(START, Generate(ticket, answer, [], Committed));
    var s1 := Taken(s0, Review(ticket, Approve, 0, Committed));
    var s2 := Taken(s1, Begin(0, ticket, Some(customer), 0, Committed));
    var s3 := Taken(s2, Submit(0, Confirmed));
    var s4 := Taken(s3, Vanish(0));
    assert s4.senders == map[];
  }

  lemma StartIsReachable()
    ensures Reachable(START)
  {
    StartReaches(Step, Init, START);
  }

  lemma Taken(s: State, a: Action) returns (s': State)
    requires Reachable(s) && Step(s, a).Some?
    ensures Reachable(s') && Step(s, a) == Some(s')
  {
    hide Reachable;
    hide Step;
    ReachableStep(s, a);
    s' := Step(s, a).value;
  }

  predicate Abandoned(s: State) {
    s.generated && s.senders == map[] && (s.row.Some? ==> s.row.value.status == PendingSend)
  }

  lemma {:induction false} NobodySends(s: State, actions: seq<Action>)
    requires Abandoned(s) && Run(s, actions).Some?
    ensures var s' := Run(s, actions).value;
            s'.submissions == s.submissions && s'.senders == map[] && (s'.row == s.row || s'.row == None)
    decreases |actions|
  {
    if actions != [] {
      AbandonedStep(s, actions[0]);
      hide Step;
      hide Abandoned;
      NobodySends(Step(s, actions[0]).value, actions[1..]);
    }
  }

  lemma AbandonedStep(s: State, a: Action)
    requires Abandoned(s) && Step(s, a).Some?
    ensures var s' := Step(s, a).value;
            Abandoned(s') && s'.submissions == s.submissions && (s'.row == s.row || s'.row == None)
  {
    hide Text.Strip;
    if a.Review? { AppliesExactlyFrom(s.row, a.ticket, a.change, a.now); }
    if a.Begin? { AppliesExactlyFrom(s.row, a.ticket, BeginSend(a.customer), a.now); }
  }
}
