/**
 What a process can be relied on for, over every run: a refresh token the server retired is not
 presented again, token requests are spaced, one renewal at a time, an attempt that lost its slot
 never signs in, and the recovery rule drops a registration exactly at its second ending in a row.
 */
module SignInPromises {
  import opened Basics
  import opened SignInModel
  import opened SignInCoherence
  import opened SignInRefinement
  import opened SignInHistory

  /** An event is consistent with everything that happened before it in the process. */
  ghost predicate Consistent(c: Config, past: seq<Event>, e: Event) {
    match e
    case RenewalSent(refresh, mono, forced, due, refusedAt, savedAt) =>
      && !InFlight(past)
      && refresh !in Retired(past)
      && (forall k :: 0 <= k < |past| && past[k].TransientFailure? ==> past[k].mono <= mono)
      && (!forced ==> !CoolingDown(c, TransientMark(past), mono))
      && (!forced && !due ==> refusedAt.Some? && refusedAt.value >= SatAdd(savedAt, MillisU64(c.rejectionGuard)))
    case TransientFailure(mono) =>
      forall k :: 0 <= k < |past| && past[k].TransientFailure? ==> past[k].mono <= mono
    case AttemptStarted(g) =>
      forall k :: 0 <= k < |past| && past[k].AttemptStarted? ==> past[k].generation < g
    case SignedIn(g) => Holder(past) == Some(g)
    case EndingCounted(id, dropped) => dropped <==> Streak(past) == Some(Codeless(id, 1))
    case _ => true
  }

  ghost predicate ConsistentLog(c: Config, log: seq<Event>) {
    forall j :: 0 <= j < |log| ==> Consistent(c, log[..j], log[j])
  }

  ghost predicate Recorded(c: Config, m: Marks) {
    && Marked(m)
    && ConsistentLog(c, m.log)
    && (m.codeless.Some? ==> m.codeless.value.count == 1)
    && (forall k :: 0 <= k < |m.log| && m.log[k].TransientFailure? ==> m.log[k].mono <= m.clock)
    && (forall k :: 0 <= k < |m.log| && m.log[k].AttemptStarted? ==> m.log[k].generation <= m.generation)
  }

  /** The refresh token a renewal would present is not retired. */
  predicate RefreshLives(c: Config, s: State) {
    HasSession(c, s.vault) ==>
      var refresh := s.vault.Logical().record.session.value.refreshToken;
      refresh.Some? ==> refresh.value !in Retired(s.marks.log)
  }

  ghost predicate Reliable(c: Config, s: State) {
    Coherent(c, s) && Recorded(c, s.marks) && RefreshLives(c, s)
  }

  lemma AppendConsistent(c: Config, log: seq<Event>, e: Event)
    requires ConsistentLog(c, log) && Consistent(c, log, e)
    ensures ConsistentLog(c, log + [e])
  {
    var log' := log + [e];
    forall j | 0 <= j < |log'| ensures Consistent(c, log'[..j], log'[j]) {
      if j < |log| {
        assert log'[..j] == log[..j];
      } else {
        assert log'[..j] == log;
      }
    }
  }

  lemma EventMarked(m: Marks, e: Event, m': Marks)
    requires Marked(m) && After(m, e, m')
    ensures Marked(m')
    ensures Retired(m'.log) == Retired(m.log)
              + (if (e.RenewalDone? && e.replaced) || e.RefreshRefused? then {e.refresh} else {})
  {
    assert m'.log[..|m.log|] == m.log && m'.log[|m.log|] == e;
  }

  lemma EventConsistent(c: Config, s: State, e: Event)
    requires Reliable(c, s) && Justified(c, s, e)
    ensures Consistent(c, s.marks.log, e)
  {
  }

  lemma EventRecorded(c: Config, s: State, e: Event, m': Marks)
    requires Reliable(c, s) && Justified(c, s, e) && After(s.marks, e, m')
    ensures Recorded(c, m')
    ensures Retired(m'.log) == Retired(s.marks.log)
              + (if (e.RenewalDone? && e.replaced) || e.RefreshRefused? then {e.refresh} else {})
  {
    EventMarked(s.marks, e, m');
    EventConsistent(c, s, e);
    AppendConsistent(c, s.marks.log, e);
  }

  /** The visible refresh token after an answer is not among the retired ones. */
  lemma AnswerRetires(c: Config, s: State, a: Answer, now: U64, mono: nat, l: Luck)
    requires Reliable(c, s) && Enabled(c, s, AnswerStep(a, now, mono, l))
    requires var e := AnswerEvent(c, s.marks, a, now, mono);
             Retired(Next(c, s, AnswerStep(a, now, mono, l)).marks.log) == Retired(s.marks.log)
               + (if (e.RenewalDone? && e.replaced) || e.RefreshRefused? then {e.refresh} else {})
    ensures RefreshLives(c, Next(c, s, AnswerStep(a, now, mono, l)))
  {
    AnswerRefines(c, s, a, now, mono, l);
  }

  /** Other steps retire nothing and bring in no retired refresh token. */
  lemma OthersKeepRefreshAlive(c: Config, s: State, step: Step)
    requires Reliable(c, s) && Enabled(c, s, step) && !step.CrashStep? && !step.AnswerStep?
    requires Retired(Next(c, s, step).marks.log) == Retired(s.marks.log)
    ensures RefreshLives(c, Next(c, s, step))
  {
    StepRefines(c, s, step);
  }

  lemma OthersRetireNothing(c: Config, s: State, step: Step, e: Event)
    requires Reliable(c, s) && Enabled(c, s, step) && !step.CrashStep? && !step.AnswerStep?
    requires Justified(c, s, e) && After(s.marks, e, Next(c, s, step).marks)
    ensures !e.RenewalDone? && !e.RefreshRefused?
  {
  }

  lemma StepIsReliable(c: Config, s: State, step: Step)
    requires Reliable(c, s) && Enabled(c, s, step)
    ensures Reliable(c, Next(c, s, step))
  {
    StepKeepsCoherent(c, s, step);
    if step.AnswerStep? {
      AnswerFollows(c, s, step.answer, step.now, step.mono, step.luck);
      EventRecorded(c, s, AnswerEvent(c, s.marks, step.answer, step.now, step.mono), Next(c, s, step).marks);
      AnswerRetires(c, s, step.answer, step.now, step.mono, step.luck);
    } else if !step.CrashStep? {
      StepFollows(c, s, step);
      var m' := Next(c, s, step).marks;
      if !Quiet(s.marks, m') {
        var e :| Justified(c, s, e) && After(s.marks, e, m');
        EventRecorded(c, s, e, m');
        OthersRetireNothing(c, s, step, e);
      }
      OthersKeepRefreshAlive(c, s, step);
    }
  }

  /** Every state of every run is reliable. */
  lemma {:induction false} RunIsReliable(c: Config, states: seq<State>, steps: seq<Step>, i: nat)
    requires Behavior(c, states, steps) && Initial(c, states[0]) && i < |states|
    ensures Reliable(c, states[i])
  {
    if i > 0 {
      RunIsReliable(c, states, steps, i - 1);
      StepIsReliable(c, states[i - 1], steps[i - 1]);
    }
  }

  /** The log of every process of a run is consistent. */
  lemma RunLogIsConsistent(c: Config, states: seq<State>, steps: seq<Step>, i: nat)
    requires Behavior(c, states, steps) && Initial(c, states[0]) && i < |states|
    ensures ConsistentLog(c, states[i].marks.log)
  {
    RunIsReliable(c, states, steps, i);
  }

  // ── refresh tokens ─────────────────────────────────────────────────────────────────────────

  /**
   Once the server has answered that a refresh token was replaced or terminally refused, this
   process never presents it in a renewal again, whatever the store refuses; and a renewal is sent
   only when the previous one has been answered.
   */
  lemma RetiredTokenNeverPresented(c: Config, states: seq<State>, steps: seq<Step>, i: nat, j: nat, k: nat)
    requires Behavior(c, states, steps) && Initial(c, states[0]) && i < |states|
    requires var log := states[i].marks.log;
             && j < k < |log|
             && ((log[j].RenewalDone? && log[j].replaced) || log[j].RefreshRefused?)
             && log[k].RenewalSent?
    ensures states[i].marks.log[k].refresh != states[i].marks.log[j].refresh
    ensures var log := states[i].marks.log;
            forall m :: 0 <= m < k && log[m].RenewalSent? ==> exists n :: m < n < k && Answers(log[n])
  {
    RunLogIsConsistent(c, states, steps, i);
    var log := states[i].marks.log;
    assert Consistent(c, log[..k], log[k]);
    RetiredGrows(log[..k], j);
    forall m | 0 <= m < k && log[m].RenewalSent? ensures exists n :: m < n < k && Answers(log[n]) {
      OneRenewalInFlight(c, states, steps, i, m, k);
    }
  }

  /** A renewal has been answered, one way or another. */
  predicate Answers(e: Event) {
    e.RenewalDone? || e.RefreshRefused? || e.TransientFailure?
  }

  lemma {:induction false} RetiredGrows(log: seq<Event>, j: nat)
    requires j < |log| && ((log[j].RenewalDone? && log[j].replaced) || log[j].RefreshRefused?)
    ensures log[j].refresh in Retired(log)
  {
    if j < |log| - 1 {
      RetiredGrows(log[..|log| - 1], j);
    }
  }

  /** In the history of a name each renewal is answered before the next one is sent (that the session
      lock lets one call through at a time is `Shutdown.OneRenewalPerName`). */
  lemma OneRenewalInFlight(c: Config, states: seq<State>, steps: seq<Step>, i: nat, j: nat, k: nat)
    requires Behavior(c, states, steps) && Initial(c, states[0]) && i < |states|
    requires j < k < |states[i].marks.log| && states[i].marks.log[j].RenewalSent? && states[i].marks.log[k].RenewalSent?
    ensures exists n :: j < n < k && Answers(states[i].marks.log[n])
  {
    RunLogIsConsistent(c, states, steps, i);
    var log := states[i].marks.log;
    assert Consistent(c, log[..k], log[k]);
    var n := FlightEnds(log[..k], j);
    assert log[..k][n] == log[n];
  }

  lemma {:induction false} FlightEnds(log: seq<Event>, j: nat) returns (n: nat)
    requires j < |log| && log[j].RenewalSent? && !InFlight(log)
    ensures j < n < |log| && Answers(log[n])
  {
    if Answers(log[|log| - 1]) {
      n := |log| - 1;
    } else {
      n := FlightEnds(log[..|log| - 1], j);
    }
  }

  predicate RetiresMore(s: State, s': State) {
    Retired(s.marks.log) <= Retired(s'.marks.log)
  }

  lemma StepRetires(c: Config, s: State, step: Step)
    requires Reliable(c, s) && Enabled(c, s, step) && !step.CrashStep?
    ensures RetiresMore(s, Next(c, s, step))
  {
    StepFollows(c, s, step);
    var m' := Next(c, s, step).marks;
    if !Quiet(s.marks, m') {
      var e :| Justified(c, s, e) && After(s.marks, e, m');
      EventMarked(s.marks, e, m');
    }
  }

  lemma RunRetires(c: Config, states: seq<State>, steps: seq<Step>, n: nat)
    requires Behavior(c, states, steps) && Initial(c, states[0]) && n < |steps| && !steps[n].CrashStep?
    ensures RetiresMore(states[n], states[n + 1])
  {
    RunIsReliable(c, states, steps, n);
    StepRetires(c, states[n], steps[n]);
  }

  lemma {:induction false} RetiredStays(states: seq<State>, j: nat, k: nat)
    requires j <= k < |states| && forall n :: j <= n < k ==> RetiresMore(states[n], states[n + 1])
    ensures RetiresMore(states[j], states[k])
  {
    if j < k {
      RetiredStays(states, j, k - 1);
    }
  }

  /** The answer ends the refresh token presented: it is terminal, or names another one. */
  predicate EndsRefresh(a: Answer, presented: string) {
    match a
    case Renewed(t) => t.refreshToken.Some? && t.refreshToken.value != presented
    case Ended => true
    case ClientInvalid => true
    case Lost => false
  }

  lemma RetiredAppend(log: seq<Event>, e: Event)
    ensures Retired(log + [e]) == Retired(log)
              + (if (e.RenewalDone? && e.replaced) || e.RefreshRefused? then {e.refresh} else {})
  {
    assert (log + [e])[..|log|] == log;
  }

  lemma AnswerEndsRefresh(c: Config, s: State, a: Answer, now: U64, mono: nat, l: Luck)
    requires Enabled(c, s, AnswerStep(a, now, mono, l))
    requires EndsRefresh(a, s.marks.request.value.session.refreshToken.value)
    ensures s.marks.request.value.session.refreshToken.value in Retired(FreshEnd(c, s, a, now, mono, l).0.marks.log)
  {
    AnswerFollows(c, s, a, now, mono, l);
    RetiredAppend(s.marks.log, AnswerEvent(c, s.marks, a, now, mono));
  }

  /** The refresh token a step's answer ends. */
  function EndedBy(s: State, step: Step): Option<string> {
    if step.AnswerStep? && Presented(s).Some? && EndsRefresh(step.answer, Presented(s).value)
    then Presented(s) else None
  }

  /** The refresh token of the renewal in flight. */
  function Presented(s: State): Option<string> {
    if s.marks.request.Some? then s.marks.request.value.session.refreshToken else None
  }

  /**
   The same said of the answers themselves: after an answer that is terminal or names another refresh
   token, no renewal request of the process carries the one that was presented.
   */
  lemma AnsweredTokenNeverPresented(c: Config, states: seq<State>, steps: seq<Step>, j: nat, k: nat)
    requires Behavior(c, states, steps) && Initial(c, states[0]) && j < k < |states|
    requires EndedBy(states[j], steps[j]).Some?
    requires forall n :: j < n < k ==> !steps[n].CrashStep?
    ensures Presented(states[k]) != EndedBy(states[j], steps[j])
  {
    AnsweredIsRetired(c, states, steps, j);
    RetiredThrough(c, states, steps, j + 1, k);
    RunRequestIsUnretired(c, states, steps, k);
  }

  lemma AnsweredIsRetired(c: Config, states: seq<State>, steps: seq<Step>, j: nat)
    requires Behavior(c, states, steps) && j < |steps| && EndedBy(states[j], steps[j]).Some?
    ensures EndedBy(states[j], steps[j]).value in Retired(states[j + 1].marks.log)
  {
    var a := steps[j];
    AnswerEndsRefresh(c, states[j], a.answer, a.now, a.mono, a.luck);
  }

  lemma RequestIsUnretired(c: Config, s: State)
    requires Reliable(c, s)
    ensures Presented(s).Some? ==> Presented(s).value !in Retired(s.marks.log)
  {
  }

  lemma RetiredThrough(c: Config, states: seq<State>, steps: seq<Step>, j: nat, k: nat)
    requires Behavior(c, states, steps) && Initial(c, states[0]) && j <= k < |states|
    requires forall n :: j <= n < k ==> !steps[n].CrashStep?
    ensures RetiresMore(states[j], states[k])
  {
    forall n | j <= n < k ensures RetiresMore(states[n], states[n + 1]) {
      RunRetires(c, states, steps, n);
    }
    RetiredStays(states, j, k);
  }

  lemma RunRequestIsUnretired(c: Config, states: seq<State>, steps: seq<Step>, k: nat)
    requires Behavior(c, states, steps) && Initial(c, states[0]) && k < |states|
    ensures Presented(states[k]).Some? ==> Presented(states[k]).value !in Retired(states[k].marks.log)
  {
    RunIsReliable(c, states, steps, k);
    RequestIsUnretired(c, states[k]);
  }

  // ── refresh tokens across processes ────────────────────────────────────────────────────────

  /** The refresh tokens retired in this process or an earlier one of the run. */
  ghost function RetiredEver(states: seq<State>, i: nat): set<string>
    requires i < |states|
  {
    Retired(states[i].marks.log) + if i == 0 then {} else RetiredEver(states, i - 1)
  }

  /** A renewal would present none of these. */
  predicate LivesBeside(c: Config, v: Vault, retired: set<string>) {
    HasSession(c, v) ==>
      var refresh := v.Logical().record.session.value.refreshToken;
      refresh.Some? ==> refresh.value !in retired
  }

  /** The server issues none of these with this step. */
  predicate IssuesNoneOf(step: Step, retired: set<string>) {
    match step
    case CommitStep(_, r, _) =>
      r.session.Some? && r.session.value.refreshToken.Some? ==> r.session.value.refreshToken.value !in retired
    case AnswerStep(a, _, _, _) =>
      a.Renewed? && a.tokens.refreshToken.Some? ==> a.tokens.refreshToken.value !in retired
    case _ => true
  }

  lemma StepLivesBeside(c: Config, s: State, step: Step, retired: set<string>)
    requires Coherent(c, s) && Enabled(c, s, step) && LivesBeside(c, s.vault, retired) && IssuesNoneOf(step, retired)
    requires step.CrashStep? ==> s.vault.unsaved.Nothing?
    ensures LivesBeside(c, Next(c, s, step).vault, retired)
  {
    if !step.CrashStep? {
      StepRefines(c, s, step);
    }
  }

  /** The run dies only with nothing unsaved, and the server reissues nothing it has retired. */
  ghost predicate Settled(states: seq<State>, steps: seq<Step>, i: nat)
    requires |states| == |steps| + 1 && i < |states|
  {
    forall k :: 0 <= k < i ==>
      (steps[k].CrashStep? ==> states[k].vault.unsaved.Nothing?) && IssuesNoneOf(steps[k], RetiredEver(states, k))
  }

  lemma {:induction false} RunLivesBeside(c: Config, states: seq<State>, steps: seq<Step>, i: nat)
    requires Behavior(c, states, steps) && Initial(c, states[0]) && i < |states| && Settled(states, steps, i)
    ensures LivesBeside(c, states[i].vault, RetiredEver(states, i))
  {
    RunIsReliable(c, states, steps, i);
    if i > 0 {
      RunLivesBeside(c, states, steps, i - 1);
      RunIsCoherent(c, states, steps, i - 1);
      StepLivesBeside(c, states[i - 1], steps[i - 1], RetiredEver(states, i - 1));
    }
  }

  /**
   Across processes: no renewal presents a refresh token that was answered as replaced or refused in this
   process or any earlier one of the run, when the processes before died with nothing unsaved.
   */
  lemma RetiredTokenStaysRetired(c: Config, states: seq<State>, steps: seq<Step>, i: nat)
    requires Behavior(c, states, steps) && Initial(c, states[0]) && i < |steps| && Settled(states, steps, i)
    requires steps[i].FreshStep? && states[i + 1].marks.request.Some?
    ensures var refresh := states[i + 1].marks.request.value.session.refreshToken;
            refresh.Some? && refresh.value !in RetiredEver(states, i)
  {
    RunLivesBeside(c, states, steps, i + 1);
    RunIsCoherent(c, states, steps, i + 1);
  }

  // ── spacing ────────────────────────────────────────────────────────────────────────────────

  /**
   After a transient failure, the next request that is not forced is at least the cool-down later
   on the monotonic clock, unless a renewal, an ended session, a sign-in, a sign-out or a forget
   came between.
   */
  lemma RequestsAreSpaced(c: Config, states: seq<State>, steps: seq<Step>, i: nat, j: nat, k: nat)
    requires Behavior(c, states, steps) && Initial(c, states[0]) && i < |states|
    requires var log := states[i].marks.log;
             && j < k < |log|
             && log[j].TransientFailure?
             && log[k].RenewalSent? && !log[k].forced
             && forall n :: j < n < k ==> !ClearsCooldown(log[n])
    ensures states[i].marks.log[k].mono >= states[i].marks.log[j].mono + c.transientCooldown
  {
    RunLogIsConsistent(c, states, steps, i);
    SpacedInLog(c, states[i].marks.log, j, k);
  }

  lemma SpacedInLog(c: Config, log: seq<Event>, j: nat, k: nat)
    requires ConsistentLog(c, log) && j < k < |log|
    requires log[j].TransientFailure? && log[k].RenewalSent? && !log[k].forced
    requires forall n :: j < n < k ==> !ClearsCooldown(log[n])
    ensures log[k].mono >= log[j].mono + c.transientCooldown
  {
    var past := log[..k];
    assert Consistent(c, past, log[k]);
    PrefixConsistent(c, log, k);
    assert past[j] == log[j];
    TransientMarkHolds(c, past, j);
  }

  lemma PrefixConsistent(c: Config, log: seq<Event>, k: nat)
    requires ConsistentLog(c, log) && k <= |log|
    ensures ConsistentLog(c, log[..k])
  {
    forall n | 0 <= n < k ensures Consistent(c, log[..k][..n], log[..k][n]) {
      assert log[..k][..n] == log[..n];
    }
  }

  lemma {:induction false} TransientMarkHolds(c: Config, log: seq<Event>, j: nat)
    requires ConsistentLog(c, log) && j < |log| && log[j].TransientFailure?
    requires forall n :: j < n < |log| ==> !ClearsCooldown(log[n])
    ensures TransientMark(log).Some? && TransientMark(log).value >= log[j].mono
  {
    var past := log[..|log| - 1];
    if j < |log| - 1 {
      PrefixConsistent(c, log, |log| - 1);
      TransientMarkHolds(c, past, j);
      assert Consistent(c, past, log[|log| - 1]);
    }
  }

  // ── attempts ───────────────────────────────────────────────────────────────────────────────

  predicate TakesSlot(e: Event) {
    e.AttemptStarted? || e.AttemptEnded? || e.AttemptStopped? || e.SignedIn? || e.SignedOut? || e.Forgotten?
  }

  lemma {:induction false} HolderMeans(log: seq<Event>, g: nat) returns (n: nat)
    requires Holder(log) == Some(g)
    ensures n < |log| && log[n] == AttemptStarted(g)
    ensures forall k :: n < k < |log| ==> !TakesSlot(log[k])
  {
    var last := log[|log| - 1];
    if last.AttemptStarted? {
      n := |log| - 1;
    } else {
      n := HolderMeans(log[..|log| - 1], g);
    }
  }

  /**
   An attempt signs in only while it holds the slot: it was started, and since then nothing ended,
   stopped, replaced, signed out or forgot it and it has not signed in before.
   */
  lemma StaleAttemptNeverSignsIn(c: Config, states: seq<State>, steps: seq<Step>, i: nat, k: nat) returns (n: nat)
    requires Behavior(c, states, steps) && Initial(c, states[0]) && i < |states|
    requires k < |states[i].marks.log| && states[i].marks.log[k].SignedIn?
    ensures var log := states[i].marks.log;
            && n < k && log[n] == AttemptStarted(log[k].generation)
            && (forall j :: n < j < k ==> !TakesSlot(log[j]))
            && (forall j :: 0 <= j < |log| && log[j] == AttemptStarted(log[k].generation) ==> j == n)
  {
    RunLogIsConsistent(c, states, steps, i);
    var log := states[i].marks.log;
    assert Consistent(c, log[..k], log[k]);
    n := HolderMeans(log[..k], log[k].generation);
    assert log[n] == log[..k][n];
    assert forall j :: n < j < k ==> log[j] == log[..k][j];
    forall j | 0 <= j < |log| && log[j] == AttemptStarted(log[k].generation) ensures j == n {
      StartedOnce(c, log, n, j);
    }
  }

  /** Generations are given out once. */
  lemma StartedOnce(c: Config, log: seq<Event>, n: nat, j: nat)
    requires ConsistentLog(c, log) && n < |log| && j < |log|
    requires log[n].AttemptStarted? && log[j] == log[n]
    ensures j == n
  {
    assert Consistent(c, log[..j], log[j]) && Consistent(c, log[..n], log[n]);
  }

  /** The first or the last step of a cancel, a start that replaces, a sign-out or a forget, or `close`. */
  predicate TakesOver(step: Step) {
    step.ControlStep? || step.AbandonStep? || step.SignOutStep? || step.ForgetStep? || step.StopStep?
  }

  lemma TakenOver(c: Config, s: State, step: Step)
    requires Coherent(c, s) && Enabled(c, s, step) && TakesOver(step)
    ensures Next(c, s, step).marks.attempt.None?
  {
  }

  /** Only an install fills the slot, only a report marks a refusal, and generations grow within a
      process. */
  predicate Advances(s: State, step: Step, s': State) {
    && (s'.marks.attempt.Some? ==> s'.marks.attempt == s.marks.attempt || step == InstallStep(s'.marks.attempt.value))
    && (s'.marks.rejectedAtMs.Some? ==>
          s'.marks.rejectedAtMs == s.marks.rejectedAtMs || step == RejectedStep(s'.marks.rejectedAtMs.value))
    && (!step.CrashStep? ==> s.marks.generation <= s'.marks.generation)
  }

  predicate SameSlot(m: Marks, m': Marks) {
    && m'.attempt == m.attempt && m'.generation == m.generation
    && (m'.rejectedAtMs.Some? ==> m'.rejectedAtMs == m.rejectedAtMs)
  }

  lemma FreshSessionKeepsSlot(c: Config, v: Vault, m: Marks, r: Record, session: Session, q: Query)
    ensures SameSlot(m, FreshSession(c, v, m, r, session, q).state.marks)
  {
    assert SameSlot(m, FreshRefusal(c, m, session, q));
  }

  lemma FreshKeepsSlot(c: Config, s: State, q: Query)
    ensures SameSlot(s.marks, FreshBegin(c, s, q).state.marks)
  {
    var v := s.vault.CacheHost().Flush(c, q.flush);
    var loaded := v.Load(q.luck.read);
    if loaded.Found? && loaded.record.session.Some? {
      FreshSessionKeepsSlot(c, v, s.marks, loaded.record, loaded.record.session.value, q);
    }
  }

  lemma SignOutAdvances(c: Config, s: State, f: Luck, l: Luck)
    ensures SameSlot(s.marks, SignOut(c, s, f, l).0.marks)
  {
  }

  lemma StepAdvances(c: Config, s: State, step: Step)
    requires Enabled(c, s, step)
    ensures Advances(s, step, Next(c, s, step))
  {
    match step
    case FreshStep(q) => FreshKeepsSlot(c, s, q);
    case SignOutStep(f, l) => SignOutAdvances(c, s, f, l);
    case _ =>
  }

  lemma RunAdvances(c: Config, states: seq<State>, steps: seq<Step>)
    requires Behavior(c, states, steps)
    ensures forall x :: 0 <= x < |steps| ==> Advances(states[x], steps[x], states[x + 1])
  {
    forall x | 0 <= x < |steps| ensures Advances(states[x], steps[x], states[x + 1]) {
      StepAdvances(c, states[x], steps[x]);
    }
  }

  /** Whoever holds the slot after it was free was installed since. */
  lemma {:induction false} InstalledSince(states: seq<State>, steps: seq<Step>, j: nat, i: nat, g: nat) returns (n: nat)
    requires |states| == |steps| + 1 && j <= i < |states|
    requires forall x :: 0 <= x < |steps| ==> Advances(states[x], steps[x], states[x + 1])
    requires states[j].marks.attempt.None? && states[i].marks.attempt == Some(g)
    ensures j <= n < i && steps[n] == InstallStep(g)
  {
    assert Advances(states[i - 1], steps[i - 1], states[i]);
    if steps[i - 1] == InstallStep(g) {
      n := i - 1;
    } else {
      n := InstalledSince(states, steps, j, i - 1, g);
    }
  }

  lemma {:induction false} GenerationGrows(states: seq<State>, steps: seq<Step>, m: nat, n: nat)
    requires |states| == |steps| + 1 && m <= n < |states|
    requires forall x :: 0 <= x < |steps| ==> Advances(states[x], steps[x], states[x + 1])
    requires forall x :: m <= x < n ==> !steps[x].CrashStep?
    ensures states[m].marks.generation <= states[n].marks.generation
  {
    if m < n {
      GenerationGrows(states, steps, m, n - 1);
      assert Advances(states[n - 1], steps[n - 1], states[n]);
    }
  }

  /**
   After a cancel, a replacing start, a sign-out, a forget or `close` has returned (or has only stopped
   the attempt), no attempt started earlier signs in: whatever signs in was installed afterwards, and was
   not installed before in the same process.
   */
  lemma NoEarlierAttemptSignsIn(c: Config, states: seq<State>, steps: seq<Step>, j: nat, k: nat) returns (n: nat)
    requires Behavior(c, states, steps) && Initial(c, states[0]) && j < k < |steps|
    requires TakesOver(steps[j]) && SignsIn(states[k], steps[k])
    ensures j < n < k && steps[n] == InstallStep(steps[k].generation)
    ensures forall m :: 0 <= m <= j && steps[m] == InstallStep(steps[k].generation) ==>
              exists x :: m < x < n && steps[x].CrashStep?
  {
    RunIsCoherent(c, states, steps, j);
    TakenOver(c, states[j], steps[j]);
    RunAdvances(c, states, steps);
    n := InstalledSince(states, steps, j + 1, k, steps[k].generation);
    forall m | 0 <= m <= j && steps[m] == InstallStep(steps[k].generation)
      ensures exists x :: m < x < n && steps[x].CrashStep?
    {
      if forall x :: m < x < n ==> !steps[x].CrashStep? {
        GenerationGrows(states, steps, m + 1, n);
      }
    }
  }

  // ── renewals after a refusal ───────────────────────────────────────────────────────────────

  /** A marked refusal was reported at that reading. */
  lemma {:induction false} RefusalWasReported(states: seq<State>, steps: seq<Step>, i: nat) returns (k: nat)
    requires |states| == |steps| + 1 && i < |states| && states[0].marks.rejectedAtMs.None?
    requires forall x :: 0 <= x < |steps| ==> Advances(states[x], steps[x], states[x + 1])
    requires states[i].marks.rejectedAtMs.Some?
    ensures k < i && steps[k] == RejectedStep(states[i].marks.rejectedAtMs.value)
  {
    assert Advances(states[i - 1], steps[i - 1], states[i]);
    if steps[i - 1] == RejectedStep(states[i].marks.rejectedAtMs.value) {
      k := i - 1;
    } else {
      k := RefusalWasReported(states, steps, i - 1);
    }
  }

  /** The token expires soon enough to be renewed for that alone. */
  predicate Due(c: Config, session: Session, now: U64) {
    SatAdd(now, MillisU64(c.renewBefore)) >= session.expiresAtMs
  }

  predicate Reasoned(c: Config, m: Marks, q: Query, m': Marks) {
    m'.request.Some? ==>
      var session := m'.request.value.session;
      q.force || Due(c, session, q.now) || RefusalConcerns(c, m.rejectedAtMs, session)
  }

  lemma SessionHasAReason(c: Config, v: Vault, m: Marks, r: Record, session: Session, q: Query)
    requires m.request.None?
    ensures Reasoned(c, m, q, FreshSession(c, v, m, r, session, q).state.marks)
  {
    assert FreshRefusal(c, m, session, q).request.None?;
  }

  lemma RenewalHasAReason(c: Config, s: State, q: Query)
    requires s.marks.request.None?
    ensures Reasoned(c, s.marks, q, FreshBegin(c, s, q).state.marks)
  {
    var v := s.vault.CacheHost().Flush(c, q.flush);
    var loaded := v.Load(q.luck.read);
    if loaded.Found? && loaded.record.session.Some? {
      SessionHasAReason(c, v, s.marks, loaded.record, loaded.record.session.value, q);
    }
  }

  /**
   A renewal driven only by a refusal reads the clock at least `rejection_guard` after the session it
   replaces was saved (or at the end of time), when the wall clock has not gone back since a refusal
   was reported.
   */
  lemma RefusalRenewalIsLate(c: Config, states: seq<State>, steps: seq<Step>, i: nat)
    requires Behavior(c, states, steps) && Initial(c, states[0])
    requires i < |steps| && steps[i].FreshStep? && states[i + 1].marks.request.Some?
    requires var q := steps[i].query;
             && !q.force && !Due(c, states[i + 1].marks.request.value.session, q.now)
             && forall k :: 0 <= k < i && steps[k].RejectedStep? ==> steps[k].now <= q.now
    ensures var session := states[i + 1].marks.request.value.session;
            var now := steps[i].query.now;
            now - session.savedAtMs >= MillisU64(c.rejectionGuard) || now == U64_MAX
  {
    RenewalHasAReason(c, states[i], steps[i].query);
    RunAdvances(c, states, steps);
    var k := RefusalWasReported(states, steps, i);
  }

  // ── registration recovery ──────────────────────────────────────────────────────────────────

  /** Counted endings and the events that reset the count. */
  predicate TouchesStreak(e: Event) {
    e.EndingCounted? || ResetsEndings(e)
  }

  /** A counted ending for this client is the last thing that touched the count. */
  ghost predicate OneEndingPending(past: seq<Event>, id: string) {
    exists n :: 0 <= n < |past| && past[n] == EndingCounted(id, false)
                && forall k :: n < k < |past| ==> !TouchesStreak(past[k])
  }

  lemma {:induction false} StreakMeans(log: seq<Event>, id: string)
    ensures Streak(log) == Some(Codeless(id, 1)) <==> OneEndingPending(log, id)
  {
    if log != [] {
      var past := log[..|log| - 1];
      var last := log[|log| - 1];
      StreakMeans(past, id);
      if TouchesStreak(last) {
        assert log[|log| - 1] == last;
      } else {
        if OneEndingPending(past, id) {
          var n :| 0 <= n < |past| && past[n] == EndingCounted(id, false)
                   && forall k :: n < k < |past| ==> !TouchesStreak(past[k]);
          assert log[n] == past[n];
        }
        if OneEndingPending(log, id) {
          var n :| 0 <= n < |log| && log[n] == EndingCounted(id, false)
                   && forall k :: n < k < |log| ==> !TouchesStreak(log[k]);
          assert past[n] == log[n];
        }
      }
    }
  }

  /**
   Recovery, both ways: a counted ending drops the registration if and only if an earlier counted
   ending for the same client was the last thing that touched the count: no code came back, nothing
   was signed in, forgotten, newly registered or found changed in between.
   */
  lemma RecoveryDropsAtSecondEnding(c: Config, states: seq<State>, steps: seq<Step>, i: nat, k: nat)
    requires Behavior(c, states, steps) && Initial(c, states[0]) && i < |states|
    requires k < |states[i].marks.log| && states[i].marks.log[k].EndingCounted?
    ensures var log := states[i].marks.log;
            log[k].dropped <==> OneEndingPending(log[..k], log[k].clientId)
  {
    RunLogIsConsistent(c, states, steps, i);
    var log := states[i].marks.log;
    assert Consistent(c, log[..k], log[k]);
    StreakMeans(log[..k], log[k].clientId);
  }
}
