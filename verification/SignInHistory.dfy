/**
 The in-memory bookkeeping of a name is a function of what happened in the process: each step appends
 at most one event, and the cool-down mark, the attempt slot, the count of endings without a code and
 the renewal in flight follow from the events alone.
 */
module SignInHistory {
  import opened Basics
  import opened SignInModel
  import opened SignInCoherence

  // ── what one event does to each mark ───────────────────────────────────────────────────────

  predicate ClearsCooldown(e: Event) {
    e.RenewalDone? || e.RefreshRefused? || e.SessionExpired? || e.SignedIn? || e.SignedOut? || e.Forgotten?
  }

  function TransientAfter(at: Option<nat>, e: Event): Option<nat> {
    if e.TransientFailure? then Some(e.mono) else if ClearsCooldown(e) then None else at
  }

  function HolderAfter(holder: Option<nat>, e: Event): Option<nat> {
    if e.AttemptStarted? then Some(e.generation)
    else if e.AttemptEnded? || e.AttemptStopped? || e.SignedIn? || e.SignedOut? || e.Forgotten? then None
    else holder
  }

  predicate ResetsEndings(e: Event) {
    e.CodeReturned? || e.SignedIn? || e.Forgotten? || e.RegistrationKept? || e.OtherRecordSeen?
  }

  function StreakAfter(streak: Option<Codeless>, e: Event): Option<Codeless> {
    if e.EndingCounted? then if e.dropped then None else Some(Codeless(e.clientId, 1))
    else if ResetsEndings(e) then None
    else streak
  }

  predicate FlightAfter(inFlight: bool, e: Event) {
    e.RenewalSent? || (inFlight && !e.RenewalDone? && !e.RefreshRefused? && !e.TransientFailure?)
  }

  // ── the marks of a whole log ───────────────────────────────────────────────────────────────

  function TransientMark(log: seq<Event>): Option<nat> {
    if log == [] then None else TransientAfter(TransientMark(log[..|log| - 1]), log[|log| - 1])
  }

  function Holder(log: seq<Event>): Option<nat> {
    if log == [] then None else HolderAfter(Holder(log[..|log| - 1]), log[|log| - 1])
  }

  function Streak(log: seq<Event>): Option<Codeless> {
    if log == [] then None else StreakAfter(Streak(log[..|log| - 1]), log[|log| - 1])
  }

  predicate InFlight(log: seq<Event>) {
    log != [] && FlightAfter(InFlight(log[..|log| - 1]), log[|log| - 1])
  }

  /** The marks are what the log says. */
  predicate Marked(m: Marks) {
    && m.transientAt == TransientMark(m.log)
    && m.attempt == Holder(m.log)
    && m.codeless == Streak(m.log)
    && m.request.Some? == InFlight(m.log)
  }

  /** What must hold when an event happens. */
  predicate Justified(c: Config, s: State, e: Event) {
    var m := s.marks;
    match e
    case RenewalSent(refresh, mono, forced, due, refusedAt, savedAt) =>
      && m.request.None?
      && Ours(c, s.vault.Logical())
      && s.vault.Logical().record.session.Some?
      && s.vault.Logical().record.session.value.refreshToken == Some(refresh)
      && mono >= m.clock
      && (!forced ==> !CoolingDown(c, m.transientAt, mono))
      && (!forced && !due ==> refusedAt.Some? && refusedAt.value >= SatAdd(savedAt, MillisU64(c.rejectionGuard)))
    case TransientFailure(mono) => mono >= m.clock
    case RenewalDone(refresh, _) =>
      m.request.Some? && m.request.value.session.refreshToken == Some(refresh)
    case RefreshRefused(refresh) =>
      m.request.Some? && m.request.value.session.refreshToken == Some(refresh)
    case AttemptStarted(g) => g > m.generation
    case SignedIn(g) => m.attempt == Some(g)
    case EndingCounted(id, dropped) =>
      dropped <==> m.codeless.Some? && m.codeless.value.clientId == id && m.codeless.value.count >= 1
    case _ => true
  }

  /** `m'` is `m` after the event `e`. */
  predicate After(m: Marks, e: Event, m': Marks) {
    && m'.log == m.log + [e]
    && m'.transientAt == TransientAfter(m.transientAt, e)
    && m'.attempt == HolderAfter(m.attempt, e)
    && m'.codeless == StreakAfter(m.codeless, e)
    && m'.request.Some? == FlightAfter(m.request.Some?, e)
    && m'.generation == (if e.AttemptStarted? then e.generation else m.generation)
    && m'.clock == (if e.RenewalSent? || e.TransientFailure? then e.mono else m.clock)
  }

  predicate Quiet(m: Marks, m': Marks) {
    && m'.log == m.log && m'.transientAt == m.transientAt && m'.attempt == m.attempt
    && m'.codeless == m.codeless && m'.request.Some? == m.request.Some?
    && m'.generation == m.generation && m'.clock == m.clock
  }

  /** A step leaves the marks alone or happens as one justified event. */
  ghost predicate Follows(c: Config, s: State, m': Marks) {
    Quiet(s.marks, m') || exists e :: Justified(c, s, e) && After(s.marks, e, m')
  }

  lemma UnrenewableFollows(c: Config, v: Vault, m: Marks, r: Record, session: Session, q: Query)
    requires m.request.None?
    ensures Follows(c, State(v, m), Unrenewable(v, m, r, session, q).state.marks)
  {
    if q.nowLate >= session.expiresAtMs {
      assert After(m, SessionExpired, Unrenewable(v, m, r, session, q).state.marks);
    }
  }

  lemma SendFollows(c: Config, v: Vault, m: Marks, r: Record, session: Session, q: Query, early: bool, due: bool)
    requires m.request.None? && q.mono >= m.clock && session.refreshToken.Some?
    requires v.Logical() == Found(r) && r.host == c.host && r.session == Some(session)
    requires Decide(c, m.rejectedAtMs, m.transientAt, session, q) == Renew(early, due)
    ensures Follows(c, State(v, m), Send(FreshRefusal(c, m, session, q), r, session, q, due))
  {
    var m1 := FreshRefusal(c, m, session, q);
    var e := RenewalSent(session.refreshToken.value, q.mono, q.force, due, m1.rejectedAtMs, session.savedAtMs);
    assert Justified(c, State(v, m), e);
    assert After(m, e, Send(m1, r, session, q, due));
  }

  lemma FreshSessionFollows(c: Config, v: Vault, m: Marks, r: Record, session: Session, q: Query)
    requires m.request.None? && q.mono >= m.clock
    requires v.Logical() == Found(r) && r.host == c.host && r.session == Some(session)
    ensures Follows(c, State(v, m), FreshSession(c, v, m, r, session, q).state.marks)
  {
    var m1 := FreshRefusal(c, m, session, q);
    var plan := Decide(c, m.rejectedAtMs, m.transientAt, session, q);
    if plan.Renew? {
      var v1 := if plan.early then v.Repair(session, q.luck) else v;
      if session.refreshToken.None? {
        var m2 := Unrenewable(v1, m1, r, session, q).state.marks;
        UnrenewableFollows(c, v1, m1, r, session, q);
        assert q.nowLate >= session.expiresAtMs ==> After(m, SessionExpired, m2);
      } else {
        SendFollows(c, v, m, r, session, q, plan.early, plan.due);
      }
    }
  }

  lemma FreshFollows(c: Config, s: State, q: Query)
    requires Coherent(c, s) && s.marks.request.None? && q.mono >= s.marks.clock
    ensures Follows(c, s, FreshBegin(c, s, q).state.marks)
  {
    if s.vault.HostAnswers(q.luck.host) {
      var v := s.vault.CacheHost();
      var v1 := v.Flush(c, q.flush);
      FlushSound(c, v, q.flush);
      var loaded := v1.Load(q.luck.read);
      if Ours(c, loaded) && v1.hostFile && loaded.record.session.Some? {
        FreshSessionFollows(c, v1, s.marks, loaded.record, loaded.record.session.value, q);
        SameRecordFollows(c, State(v1, s.marks), s, FreshSession(c, v1, s.marks, loaded.record,
                                                                loaded.record.session.value, q).state.marks);
      }
    }
  }

  /** Only the visible record matters to what justifies an event. */
  lemma SameRecordFollows(c: Config, s: State, t: State, m': Marks)
    requires Follows(c, s, m') && s.marks == t.marks && s.vault.Logical() == t.vault.Logical()
    ensures Follows(c, t, m')
  {
    if !Quiet(s.marks, m') {
      var e :| Justified(c, s, e) && After(s.marks, e, m');
      assert Justified(c, t, e);
    }
  }

  function AnswerEvent(c: Config, m: Marks, a: Answer, now: U64, mono: nat): Event
    requires m.request.Some? && m.request.value.session.refreshToken.Some?
  {
    var session := m.request.value.session;
    var refresh := session.refreshToken.value;
    match a
    case Renewed(t) => RenewalDone(refresh, Replaces(t, refresh))
    case Ended => RefreshRefused(refresh)
    case ClientInvalid => RefreshRefused(refresh)
    case Lost => TransientFailure(mono)
  }

  lemma AnswerFollows(c: Config, s: State, a: Answer, now: U64, mono: nat, l: Luck)
    requires Enabled(c, s, AnswerStep(a, now, mono, l))
    ensures var e := AnswerEvent(c, s.marks, a, now, mono);
            Justified(c, s, e) && After(s.marks, e, FreshEnd(c, s, a, now, mono, l).0.marks)
  {
  }

  lemma CodelessFollows(c: Config, s: State, id: string, l: Luck)
    requires s.marks.codeless.Some? ==> s.marks.codeless.value.count == 1
    ensures Follows(c, s, CountCodelessEnding(c, s, id, l).marks)
  {
    var loaded := s.vault.Load(l.read);
    var streak := s.marks.codeless;
    var e := if loaded.Found? && IsRegistrationOnly(c, loaded.record, id)
             then EndingCounted(id, streak.Some? && streak.value.clientId == id) else OtherRecordSeen;
    assert Justified(c, s, e);
    assert After(s.marks, e, CountCodelessEnding(c, s, id, l).marks);
  }

  /** The event of the steps that always have the same one. */
  function PlainEvent(s: State, step: Step): Option<Event> {
    match step
    case InstallStep(g) => Some(AttemptStarted(g))
    case StopStep | ControlStep(_) => Some(AttemptStopped)
    case EndStep(g) => if s.marks.attempt == Some(g) then Some(AttemptEnded(g)) else None
    case CodeStep => Some(CodeReturned)
    case RetainStep(_, l) => if s.vault.Load(l.read).Missing? then Some(RegistrationKept) else None
    case CommitStep(g, _, l) =>
      if s.marks.attempt != Some(g) then None else if l.record then Some(SignedIn(g)) else Some(AttemptEnded(g))
    case ForgetStep(_) => Some(Forgotten)
    case _ => None
  }

  lemma PlainFollows(c: Config, s: State, step: Step)
    requires Enabled(c, s, step) && !step.CrashStep? && !step.FreshStep? && !step.AnswerStep?
    requires !step.CodelessStep? && !step.SignOutStep?
    ensures Follows(c, s, Next(c, s, step).marks)
  {
    var e := PlainEvent(s, step);
    if e.Some? {
      assert Justified(c, s, e.value);
      assert After(s.marks, e.value, Next(c, s, step).marks);
    }
  }

  lemma StepFollows(c: Config, s: State, step: Step)
    requires Coherent(c, s) && Enabled(c, s, step) && !step.CrashStep?
    requires s.marks.codeless.Some? ==> s.marks.codeless.value.count == 1
    ensures Follows(c, s, Next(c, s, step).marks)
  {
    match step
    case FreshStep(q) => FreshFollows(c, s, q);
    case AnswerStep(a, now, mono, l) => AnswerFollows(c, s, a, now, mono, l);
    case CodelessStep(id, l) => CodelessFollows(c, s, id, l);
    case SignOutStep(f, l) =>
      var m' := Next(c, s, step).marks;
      assert Quiet(s.marks, m') || (Justified(c, s, SignedOut) && After(s.marks, SignedOut, m'));
    case _ => PlainFollows(c, s, step);
  }
}
