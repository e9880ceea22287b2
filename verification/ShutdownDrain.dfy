/** How both RabbitMQ workers shut down: delivery callbacks interleave with the stop sequence of
    the main task, at the granularity of awaits. */
module ShutdownDrain {
  import opened Wrappers
  import opened Executions

  type Message = nat

  datatype Main =
    | Starting                            // connecting; nothing is consumed yet
    | Consuming                           // waiting for the stop event
    | Cancelling                          // `stopping` is set, cancel-ok not yet seen
    | Draining                            // about to test `in_flight`
    | Gathering(waited: set<Message>)     // waiting for a snapshot of `in_flight`
    | Closing                             // leaving the connection's block
    | Disposing                           // the connection is closed
    | Finished                            // the engine is disposed of

  /** `created` callbacks have not run yet; `inside` is who is in the consumer's code; `inFlight` and
      `stopping` are the worker's own variables. */
  datatype State = State(
    main: Main,
    stopping: bool,
    delivered: set<Message>,
    created: set<Message>,
    inFlight: set<Message>,
    inside: set<Message>,
    deferred: set<Message>,
    settled: set<Message>,
    rounds: nat)

  datatype Action =
    | Connect(ok: bool)
    | Deliver(message: Message)
    | Enter(message: Message)      // the callback runs up to its first await
    | Settle(message: Message)
    | Leave(message: Message)      // the consumer returns or raises
    | StopRequested
    | CancelReturned               // or raised; the finally block goes on either way
    | TestInFlight
    | GatherReturned
    | Close
    | Dispose

  const START := State(Starting, false, {}, {}, {}, {}, {}, {}, 0)

  predicate Open(m: Main) {
    !m.Starting? && !m.Disposing? && !m.Finished?
  }

  function Step(s: State, a: Action): Option<State> {
    match a
    case Connect(ok) =>
      if !s.main.Starting? then None else Some(s.(main := if ok then Consuming else Disposing))
    case Deliver(m) =>
      // Deliveries may keep coming as long as the channel is open, cancelled or not.
      if !Open(s.main) || m in s.delivered then None
      else Some(s.(delivered := s.delivered + {m}, created := s.created + {m}))
    case Enter(m) =>
      if m !in s.created then None
      else if s.stopping then Some(s.(created := s.created - {m}, deferred := s.deferred + {m}))
      else Some(s.(created := s.created - {m}, inFlight := s.inFlight + {m}, inside := s.inside + {m}))
    case Settle(m) =>
      if m !in s.inside || !Open(s.main) then None else Some(s.(settled := s.settled + {m}))
    case Leave(m) =>
      if m !in s.inside then None else Some(s.(inside := s.inside - {m}, inFlight := s.inFlight - {m}))
    case StopRequested =>
      if !s.main.Consuming? then None else Some(s.(main := Cancelling, stopping := true))
    case CancelReturned =>
      if !s.main.Cancelling? then None else Some(s.(main := Draining))
    case TestInFlight =>
      if !s.main.Draining? then None
      else if s.inFlight == {} then Some(s.(main := Closing))
      else Some(s.(main := Gathering(s.inFlight), rounds := s.rounds + 1))
    case GatherReturned =>
      if !s.main.Gathering? || s.main.waited * s.inside != {} then None else Some(s.(main := Draining))
    case Close => if !s.main.Closing? then None else Some(s.(main := Disposing))
    case Dispose => if !s.main.Disposing? then None else Some(s.(main := Finished))
  }

  function Run(s: State, actions: seq<Action>): Option<State> {
    Execute(Step, s, actions)
  }

  predicate Init(s: State) {
    s == START
  }

  ghost predicate Reachable(s: State) {
    ReachableFrom(Step, Init, s)
  }

  // ---- Invariant ----

  predicate PhaseOk(s: State) {
    match s.main
    case Starting => s == START
    case Consuming => !s.stopping && s.rounds == 0
    case Cancelling => s.stopping && s.rounds == 0
    case Draining => s.stopping && (s.rounds == 0 || (s.rounds == 1 && s.inFlight == {}))
    case Gathering(waited) => s.stopping && s.rounds == 1 && s.inFlight <= waited
    case Closing => s.stopping && s.rounds <= 1 && s.inFlight == {}
    case _ => s.rounds <= 1 && s.inFlight == {} && (s.stopping || s.created == {})
  }

  predicate Inv(s: State) {
    && PhaseOk(s)
    && s.inside == s.inFlight
    && s.created <= s.delivered && s.inside <= s.delivered && s.deferred <= s.delivered
    && s.created !! s.inside && s.created !! s.deferred && s.inside !! s.deferred
    && s.settled !! s.deferred && s.settled !! s.created && s.settled <= s.delivered
  }

  /** What every step preserves: once `stopping` is set, callbacks only leave. */
  predicate Later(s: State, s': State) {
    && (s.stopping ==> s'.stopping && s'.inFlight <= s.inFlight)
    && s.deferred <= s'.deferred && s.settled <= s'.settled
  }

  lemma StepInv(s: State, a: Action)
    requires Inv(s) && Step(s, a).Some?
    ensures Inv(Step(s, a).value) && Later(s, Step(s, a).value)
  {
  }

  lemma LaterTransitive(s: State, t: State, u: State)
    requires Later(s, t) && Later(t, u)
    ensures Later(s, u)
  {
  }

  lemma LaterReflexive(s: State)
    ensures Later(s, s)
  {
  }

  lemma RunInv(s: State, actions: seq<Action>)
    requires Inv(s) && Run(s, actions).Some?
    ensures Inv(Run(s, actions).value) && Later(s, Run(s, actions).value)
  {
    hide Step;
    hide Inv;
    hide Later;
    forall t, a | Inv(t) && Step(t, a).Some?
      ensures Inv(Step(t, a).value) && Later(t, Step(t, a).value)
    {
      StepInv(t, a);
    }
    forall t ensures Later(t, t) { LaterReflexive(t); }
    forall t, u, v | Inv(t) && Inv(u) && Inv(v) && Later(t, u) && Later(u, v)
      ensures Later(t, v)
    {
      LaterTransitive(t, u, v);
    }
    Keeps(Step, Inv, Later, s, actions);
  }

  lemma InitInv(s: State)
    requires Init(s)
    ensures Inv(s)
  {
  }

  lemma ReachableInv(s: State)
    requires Reachable(s)
    ensures Inv(s)
  {
    hide Step;
    hide Inv;
    forall t | Init(t) ensures Inv(t) { InitInv(t); }
    forall t, a | Inv(t) && Step(t, a).Some? ensures Inv(Step(t, a).value) { StepInv(t, a); }
    ReachableKeeps(Step, Init, Inv, s);
  }

  lemma ReachableStep(s: State, a: Action)
    requires Reachable(s) && Step(s, a).Some?
    ensures Reachable(Step(s, a).value)
  {
    hide Step;
    StepReaches(Step, Init, s, a);
  }

  // ---- Main results ----

  /** When the connection is closed and when the engine is disposed of, no callback is inside the
      consumer, and none gets inside afterwards, whatever is still scheduled. */
  lemma NobodyInsideAfterClose(s: State, actions: seq<Action>)
    requires Reachable(s) && (s.main.Closing? || s.main.Disposing? || s.main.Finished?) && Run(s, actions).Some?
    ensures s.inside == {} && Run(s, actions).value.inside == {}
  {
    hide Reachable;
    hide Run;
    ReachableInv(s);
    RunInv(s, actions);
    if !s.stopping { NothingWithoutConsuming(s, actions); }
  }

  /** A worker that never got to consume has no callbacks at all. */
  lemma {:induction false} NothingWithoutConsuming(s: State, actions: seq<Action>)
    requires s.main.Disposing? || s.main.Finished?
    requires s.created == {} && s.inside == {} && Run(s, actions).Some?
    ensures Run(s, actions).value.inside == {}
    decreases |actions|
  {
    if actions != [] { NothingWithoutConsuming(Step(s, actions[0]).value, actions[1..]); }
  }

  /** The drain ends: `in_flight` only shrinks once `stopping` is set, so one round of gathering
      empties it and the loop test never starts a second. */
  lemma DrainTakesOneRound(s: State, actions: seq<Action>)
    requires Reachable(s) && Run(s, actions).Some?
    ensures s.rounds <= 1 && (s.stopping ==> Run(s, actions).value.inFlight <= s.inFlight)
    ensures s.main.Gathering? && Step(s, GatherReturned).Some? ==> s.inFlight == {}
  {
    hide Reachable;
    hide Run;
    ReachableInv(s);
    RunInv(s, actions);
  }

  /** A delivery that came in during shutdown is deferred: it never enters the consumer and nothing
      ever settles it, so the broker still has it as unacknowledged when the connection closes. */
  lemma DeferredIsNeverSettled(s: State, m: Message, actions: seq<Action>)
    requires Reachable(s) && Run(s, actions).Some?
    requires m in s.deferred || (m in s.created && s.stopping)
    ensures m !in Run(s, actions).value.settled && m !in Run(s, actions).value.inside
  {
    hide Reachable;
    hide Run;
    ReachableInv(s);
    RunInv(s, actions);
    StaysOut(s, m, actions);
  }

  lemma {:induction false} StaysOut(s: State, m: Message, actions: seq<Action>)
    requires Inv(s) && Run(s, actions).Some? && (m in s.deferred || (m in s.created && s.stopping))
    ensures m in Run(s, actions).value.deferred || m in Run(s, actions).value.created
    decreases |actions|
  {
    if actions != [] {
      StepInv(s, actions[0]);
      hide Run;
      StaysOut(Step(s, actions[0]).value, m, actions[1..]);
    }
  }
}
