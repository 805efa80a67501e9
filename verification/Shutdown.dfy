/**
 The calls of `ensure_fresh` and the ordered shutdown of a sign-in: callers contending for the session
 lock of their name, and `close` against every interleaving of starting attempts, queued renewals and
 renewals on callers' threads, one lock-sized or atomic step at a time.
 */
module Shutdown {

  type Name = string

  /** How far `close` has come. */
  datatype Phase =
    | Open
    | Flagged                           // `closed` is set
    | Draining(remaining: set<Name>)    // the names are listed, their slots are being taken
    | SlotsTaken
    | Closed                            // the worker is closed too; `close` has returned

  /** Where a call of `ensure_fresh` is: counted; past its first look at `closed` and waiting for the
      session; holding it; past its second look. */
  datatype Pc = Counted | Waiting | Locked | Renewing

  datatype Call = Call(name: Name, at: Pc)

  /** Who holds a session lock: a call, or one of the other operations on the name. */
  datatype Holder = ByCall(id: nat) | ByOther

  datatype Thread = NotStarted | Alive | Finished

  /** `threads_exited` reads in order: the attempt threads, the calls in flight, the renewal thread. */
  datatype Watch = Idle | AttemptsGone | CallsGone | Exited

  datatype State = State(
    phase: Phase,
    names: set<Name>,          // keys of the name map
    starting: map<nat, Name>,  // starts that looked up their name and have not installed yet
    holding: set<Name>,        // names whose attempt slot is taken
    workerClosed: bool,
    sender: bool,              // the job queue can be sent to
    thread: Thread,
    queue: set<nat>,           // jobs handed to the renewal thread and not begun
    calls: map<nat, Call>,     // calls of `ensure_fresh` counted in `inFlight`
    held: map<Name, Holder>,   // session locks taken
    inFlight: int,
    watch: Watch)

  predicate IsClosed(s: State) {
    !s.phase.Open?
  }

  datatype Step =
    | LookUp(id: nat, name: Name)     // `start` past its first check, under the name map lock
    | Install(id: nat)                // `start` under the state lock: refused when closed
    | AttemptEnds(name: Name)
    | Submit(job: nat, spawned: bool) // under the jobs lock
    | BeginJob(job: nat, name: Name)  // the renewal thread begins a queued job
    | ThreadExits
    | Enter(id: nat, name: Name)      // any call of `ensure_fresh` is counted first
    | FirstCheck(id: nat)
    | GoAhead(id: nat)                // the session is busy and the stored token serves
    | Acquire(id: nat)                // the session is free, at once or after a wait
    | SecondCheck(id: nat)            // after the wait for the session
    | Leave(id: nat)                  // the call returns, or its caller drops it
    | OtherTakes(name: Name)          // a sign-in completion, sign-out, forget or model list
    | OtherReturns(name: Name)
    | SetClosed
    | ListNames
    | TakeSlot(name: Name)
    | SlotsDone
    | CloseWorker
    | SeeAttempts(gone: bool)
    | SeeCalls
    | SeeThread

  predicate Enabled(s: State, step: Step) {
    match step
    case LookUp(id, _) => id !in s.starting
    case Install(id) => id in s.starting
    case BeginJob(job, _) => job in s.queue && s.thread.Alive? && job !in s.calls
    case ThreadExits => s.thread.Alive?
    case Enter(id, _) => id !in s.calls
    case FirstCheck(id) => id in s.calls && s.calls[id].at.Counted?
    case GoAhead(id) => id in s.calls && s.calls[id].at.Waiting? && s.calls[id].name in s.held
    case Acquire(id) => id in s.calls && s.calls[id].at.Waiting? && s.calls[id].name !in s.held
    case SecondCheck(id) => id in s.calls && s.calls[id].at.Locked?
    case Leave(id) => id in s.calls
    case OtherTakes(name) => name !in s.held
    case OtherReturns(name) => name in s.held && s.held[name].ByOther?
    case SetClosed => s.phase.Open?
    case ListNames => s.phase.Flagged?
    case TakeSlot(name) => s.phase.Draining? && name in s.phase.remaining
    case SlotsDone => s.phase.Draining? && s.phase.remaining == {}
    case CloseWorker => s.phase.SlotsTaken?
    case SeeAttempts(_) => s.phase.Closed?
    case SeeCalls => s.watch.AttemptsGone?
    case SeeThread => s.watch.CallsGone?
    case AttemptEnds(_) | Submit(_, _) => true
  }

  /** The call is over: it is counted no longer and its lock is free. */
  function Gone(s: State, id: nat): State
    requires id in s.calls
  {
    var name := s.calls[id].name;
    s.(calls := s.calls - {id}, inFlight := s.inFlight - 1,
       held := if name in s.held && s.held[name] == ByCall(id) then s.held - {name} else s.held)
  }

  function At(s: State, id: nat, at: Pc): State
    requires id in s.calls
  {
    s.(calls := s.calls[id := s.calls[id].(at := at)])
  }

  function Next(s: State, step: Step): State
    requires Enabled(s, step)
  {
    match step
    case LookUp(id, name) => s.(names := s.names + {name}, starting := s.starting[id := name])
    case Install(id) =>
      var gone := s.(starting := s.starting - {id});
      if IsClosed(s) then gone else gone.(holding := s.holding + {s.starting[id]})
    case AttemptEnds(name) => s.(holding := s.holding - {name})
    case Submit(job, spawned) =>
      if s.workerClosed then s
      else if s.sender && s.thread.Alive? then s.(queue := s.queue + {job})
      else if spawned then s.(sender := true, thread := Alive, queue := {job})
      else s
    case BeginJob(job, name) =>
      s.(queue := s.queue - {job}, calls := s.calls[job := Call(name, Counted)], inFlight := s.inFlight + 1)
    case ThreadExits => s.(thread := Finished, queue := {})
    case Enter(id, name) => s.(calls := s.calls[id := Call(name, Counted)], inFlight := s.inFlight + 1)
    case FirstCheck(id) => if IsClosed(s) then Gone(s, id) else At(s, id, Waiting)
    case GoAhead(id) => Gone(s, id)
    case Acquire(id) => At(s, id, Locked).(held := s.held[s.calls[id].name := ByCall(id)])
    case SecondCheck(id) => if IsClosed(s) then Gone(s, id) else At(s, id, Renewing)
    case Leave(id) => Gone(s, id)
    case OtherTakes(name) => s.(held := s.held[name := ByOther])
    case OtherReturns(name) => s.(held := s.held - {name})
    case SetClosed => s.(phase := Flagged)
    case ListNames => s.(phase := Draining(s.names))
    case TakeSlot(name) => s.(phase := Draining(s.phase.remaining - {name}), holding := s.holding - {name})
    case SlotsDone => s.(phase := SlotsTaken)
    case CloseWorker => s.(phase := Closed, workerClosed := true, sender := false)
    case SeeAttempts(gone) => if gone && !s.watch.Exited? then s.(watch := AttemptsGone) else s
    case SeeCalls => s.(watch := if s.inFlight == 0 then CallsGone else Idle)
    case SeeThread => s.(watch := if s.thread.Alive? then Idle else Exited)
  }

  predicate Initial(s: State) {
    s == State(Open, {}, map[], {}, false, false, NotStarted, {}, map[], map[], 0, Idle)
  }

  ghost predicate Behavior(states: seq<State>, steps: seq<Step>) {
    && |states| == |steps| + 1
    && Initial(states[0])
    && forall i :: 0 <= i < |steps| ==> Enabled(states[i], steps[i]) && states[i + 1] == Next(states[i], steps[i])
  }

  /** No call is past its look at `closed`. */
  ghost predicate NoneAdmitted(s: State) {
    forall id :: id in s.calls ==> s.calls[id].at.Counted?
  }

  ghost predicate SlotsOrdered(s: State) {
    && s.holding <= s.names
    && (forall id :: id in s.starting ==> s.starting[id] in s.names)
    && (s.phase.Draining? ==> s.holding <= s.phase.remaining)
    && (s.phase.SlotsTaken? || s.phase.Closed? ==> s.holding == {})
  }

  predicate WorkerOrdered(s: State) {
    && s.workerClosed == s.phase.Closed?
    && (s.workerClosed ==> !s.sender)
    && (!s.thread.Alive? ==> s.queue == {})
    && (s.watch.Exited? ==> !s.thread.Alive?)
  }

  ghost predicate CallsOrdered(s: State) {
    && s.inFlight == |s.calls|
    && (!s.watch.Idle? ==> s.phase.Closed?)
    && (s.watch.CallsGone? || s.watch.Exited? ==> NoneAdmitted(s))
  }

  /** The call is past the lock. */
  predicate Inside(s: State, id: nat) {
    id in s.calls && (s.calls[id].at.Locked? || s.calls[id].at.Renewing?)
  }

  predicate HoldsIts(s: State, id: nat) {
    Inside(s, id) ==> s.calls[id].name in s.held && s.held[s.calls[id].name] == ByCall(id)
  }

  predicate HeldRightly(s: State, name: Name) {
    name in s.held && s.held[name].ByCall? ==> Inside(s, s.held[name].id) && s.calls[s.held[name].id].name == name
  }

  /** A call past its lock holds it, and a lock a call holds is that of its name. */
  ghost predicate LocksOrdered(s: State) {
    (forall id :: HoldsIts(s, id)) && (forall name :: HeldRightly(s, name))
  }

  ghost predicate Ordered(s: State) {
    SlotsOrdered(s) && WorkerOrdered(s) && CallsOrdered(s) && LocksOrdered(s)
  }

  /** Steps of calls and of the other holders of a session. */
  predicate OfCalls(step: Step) {
    step.BeginJob? || step.Enter? || step.FirstCheck? || step.GoAhead? || step.Acquire? || step.SecondCheck?
    || step.Leave? || step.OtherTakes? || step.OtherReturns?
  }

  lemma CallStepFrame(s: State, step: Step)
    requires Enabled(s, step) && OfCalls(step)
    ensures var s' := Next(s, step);
            s' == s.(calls := s'.calls, inFlight := s'.inFlight, held := s'.held, queue := s'.queue)
            && s'.queue <= s.queue
  {
  }

  lemma OtherStepFrame(s: State, step: Step)
    requires Enabled(s, step) && !OfCalls(step)
    ensures var s' := Next(s, step);
            s'.calls == s.calls && s'.inFlight == s.inFlight && s'.held == s.held
  {
  }

  lemma StepKeepsSlots(s: State, step: Step)
    requires SlotsOrdered(s) && Enabled(s, step)
    ensures SlotsOrdered(Next(s, step))
  {
    if OfCalls(step) {
      CallStepFrame(s, step);
    } else {
      CloseKeepsSlots(s, step);
    }
  }

  lemma CloseKeepsSlots(s: State, step: Step)
    requires SlotsOrdered(s) && Enabled(s, step) && !OfCalls(step)
    ensures SlotsOrdered(Next(s, step))
  {
  }

  lemma StepKeepsWorker(s: State, step: Step)
    requires WorkerOrdered(s) && CallsOrdered(s) && Enabled(s, step)
    ensures WorkerOrdered(Next(s, step))
  {
    if OfCalls(step) {
      CallStepFrame(s, step);
    } else {
      CloseKeepsWorker(s, step);
    }
  }

  lemma CloseKeepsWorker(s: State, step: Step)
    requires WorkerOrdered(s) && CallsOrdered(s) && Enabled(s, step) && !OfCalls(step)
    ensures WorkerOrdered(Next(s, step))
  {
  }

  lemma GoneKeepsCalls(s: State, id: nat)
    requires CallsOrdered(s) && id in s.calls
    ensures CallsOrdered(Gone(s, id))
  {
    assert (s.calls - {id}).Keys == s.calls.Keys - {id};
  }

  lemma StepKeepsCalls(s: State, step: Step)
    requires CallsOrdered(s) && Enabled(s, step)
    ensures CallsOrdered(Next(s, step))
  {
    if OfCalls(step) {
      CallKeepsCalls(s, step);
    } else {
      CloseKeepsCalls(s, step);
    }
  }

  lemma CallKeepsCalls(s: State, step: Step)
    requires CallsOrdered(s) && Enabled(s, step) && OfCalls(step)
    ensures CallsOrdered(Next(s, step))
  {
    match step
    case FirstCheck(id) => GoneKeepsCalls(s, id);
    case GoAhead(id) => GoneKeepsCalls(s, id);
    case SecondCheck(id) => GoneKeepsCalls(s, id);
    case Leave(id) => GoneKeepsCalls(s, id);
    case _ =>
  }

  lemma CloseKeepsCalls(s: State, step: Step)
    requires CallsOrdered(s) && Enabled(s, step) && !OfCalls(step)
    ensures CallsOrdered(Next(s, step))
  {
    OtherStepFrame(s, step);
  }

  lemma StepKeepsHolders(s: State, step: Step, id: nat)
    requires LocksOrdered(s) && Enabled(s, step) && OfCalls(step)
    ensures HoldsIts(Next(s, step), id)
  {
    assert HoldsIts(s, id);
  }

  lemma StepKeepsHeld(s: State, step: Step, name: Name)
    requires LocksOrdered(s) && Enabled(s, step) && OfCalls(step)
    ensures HeldRightly(Next(s, step), name)
  {
    assert HeldRightly(s, name);
  }

  lemma StepKeepsLocks(s: State, step: Step)
    requires LocksOrdered(s) && Enabled(s, step)
    ensures LocksOrdered(Next(s, step))
  {
    if OfCalls(step) {
      forall id ensures HoldsIts(Next(s, step), id) {
        StepKeepsHolders(s, step, id);
      }
      forall name ensures HeldRightly(Next(s, step), name) {
        StepKeepsHeld(s, step, name);
      }
    } else {
      SameLocks(s, step);
    }
  }

  lemma SameLocks(s: State, step: Step)
    requires LocksOrdered(s) && Enabled(s, step) && !OfCalls(step)
    ensures LocksOrdered(Next(s, step))
  {
    OtherStepFrame(s, step);
    forall id ensures HoldsIts(Next(s, step), id) {
      assert HoldsIts(s, id);
    }
    forall name ensures HeldRightly(Next(s, step), name) {
      assert HeldRightly(s, name);
    }
  }

  lemma {:induction false} RunKeepsOrder(states: seq<State>, steps: seq<Step>, i: nat)
    requires Behavior(states, steps) && i < |states|
    ensures Ordered(states[i])
  {
    if i > 0 {
      RunKeepsOrder(states, steps, i - 1);
      StepKeepsSlots(states[i - 1], steps[i - 1]);
      StepKeepsWorker(states[i - 1], steps[i - 1]);
      StepKeepsCalls(states[i - 1], steps[i - 1]);
      StepKeepsLocks(states[i - 1], steps[i - 1]);
    }
  }

  /** Until `close` begins, attempts are installed and calls go on to renew; from then on neither is. */
  lemma AdmitsIffOpen(s: State, id: nat)
    ensures Enabled(s, Install(id)) ==>
              var s' := Next(s, Install(id));
              && id !in s'.starting
              && s'.holding == if s.phase.Open? then s.holding + {s.starting[id]} else s.holding
    ensures Enabled(s, FirstCheck(id)) ==>
              var s' := Next(s, FirstCheck(id));
              if s.phase.Open? then id in s'.calls && s'.calls[id] == s.calls[id].(at := Waiting) else id !in s'.calls
    ensures Enabled(s, SecondCheck(id)) ==>
              var s' := Next(s, SecondCheck(id));
              if s.phase.Open? then id in s'.calls && s'.calls[id] == s.calls[id].(at := Renewing) else id !in s'.calls
  {
  }

  /** A job is handed to the live renewal thread, to a new one, or to nobody: never to a closed worker. */
  lemma SubmitIs(s: State, job: nat, spawned: bool)
    ensures var s' := Next(s, Submit(job, spawned));
            if !s.workerClosed && (spawned || (s.sender && s.thread.Alive?))
            then job in s'.queue && s'.thread.Alive? && s'.sender
            else s' == s
  {
  }

  /** What stays once `close` has returned. */
  predicate Later(s: State, s': State) {
    s'.phase.Closed? && s'.queue <= s.queue && (s.watch.Exited? ==> s'.watch.Exited?)
  }

  lemma StepStaysClosed(s: State, step: Step, s': State)
    requires WorkerOrdered(s) && s.phase.Closed? && Enabled(s, step) && s' == Next(s, step)
    ensures Later(s, s')
  {
  }

  lemma RunStepStaysClosed(states: seq<State>, steps: seq<Step>, i: nat)
    requires Behavior(states, steps) && i < |steps| && states[i].phase.Closed?
    ensures Later(states[i], states[i + 1])
  {
    RunKeepsOrder(states, steps, i);
    StepStaysClosed(states[i], steps[i], states[i + 1]);
  }

  lemma LaterStill(a: State, b: State, c: State)
    requires Later(a, b) && Later(b, c)
    ensures Later(a, c)
  {
  }

  lemma {:induction false} StaysClosed(states: seq<State>, steps: seq<Step>, i: nat, j: nat)
    requires Behavior(states, steps) && i <= j < |states| && states[i].phase.Closed?
    ensures Later(states[i], states[j])
  {
    if i < j {
      StaysClosed(states, steps, i, j - 1);
      RunStepStaysClosed(states, steps, j - 1);
      LaterStill(states[i], states[j - 1], states[j]);
    }
  }

  /**
   Once `close` has returned, no name ever holds an attempt slot again and no job is ever queued:
   what is in the queue only shrinks.
   */
  lemma NothingStartsAfterClose(states: seq<State>, steps: seq<Step>, i: nat, j: nat)
    requires Behavior(states, steps) && i <= j < |states| && states[i].phase.Closed?
    ensures states[j].holding == {} && states[j].queue <= states[i].queue
  {
    StaysClosed(states, steps, i, j);
    RunKeepsOrder(states, steps, j);
  }

  /**
   Once `threads_exited` has answered true, no `ensure_fresh` past its looks at `closed` is running
   or will ever run, and the renewal thread holds no job.
   */
  lemma NoRenewalAfterThreadsExited(states: seq<State>, steps: seq<Step>, i: nat, j: nat, id: nat)
    requires Behavior(states, steps) && i <= j < |states| && states[i].watch.Exited?
    ensures states[j].queue == {} && !states[j].thread.Alive?
    ensures id in states[j].calls ==> states[j].calls[id].at.Counted?
  {
    RunKeepsOrder(states, steps, i);
    StaysClosed(states, steps, i, j);
    RunKeepsOrder(states, steps, j);
  }

  /**
   At most one renewal per name is in flight, over every interleaving of callers that contend for the
   session: two calls past the lock of the same name are the same call, and no other operation on the
   name is under way then.
   */
  lemma OneRenewalPerName(states: seq<State>, steps: seq<Step>, i: nat, a: nat, b: nat)
    requires Behavior(states, steps) && i < |states|
    requires Inside(states[i], a) && Inside(states[i], b) && states[i].calls[a].name == states[i].calls[b].name
    ensures a == b
    ensures states[i].calls[a].name in states[i].held && states[i].held[states[i].calls[a].name] == ByCall(a)
  {
    RunKeepsOrder(states, steps, i);
    assert HoldsIts(states[i], a) && HoldsIts(states[i], b);
  }
}
