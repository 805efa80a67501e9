/**
 What the answers of `ensure_fresh` mean, and how long the token lasts that is handed to a caller
 released before its renewal answers.
 */
module SignInFresh {
  import opened Basics
  import opened SignInModel
  import opened SignInCoherence
  import opened SignInRefinement

  /** The visible session of this host; meaningful when `HasSession`. */
  predicate Serves(c: Config, v: Vault, session: Session) {
    && Ours(c, v.Logical())
    && v.Logical().record.session == Some(session)
    && HasScope(session, c.planScope)
    && v.store.token.Token?
    && v.store.token.text == session.accessToken
  }

  lemma RepairServes(c: Config, v: Vault, r: Record, session: Session, l: Luck)
    requires v.Logical() == Found(r) && r.host == c.host && r.session == Some(session) && HasScope(session, c.planScope)
    requires v.RepairOutcome(session, l).Ok?
    ensures Serves(c, v.Repair(session, l), session)
  {
  }

  lemma SessionAnswers(c: Config, v: Vault, m: Marks, r: Record, session: Session, q: Query)
    requires v.Logical() == Found(r) && r.host == c.host && r.session == Some(session)
    ensures var b := FreshSession(c, v, m, r, session, q);
            && (b.outcome == Some(Ok) ==>
                  Serves(c, b.state.vault, session) && (q.now < session.expiresAtMs || q.nowLate < session.expiresAtMs))
            && (b.outcome == Some(Err(NotAuthorized)) <==> !HasScope(session, c.planScope))
            && (b.outcome == Some(Err(RefreshUnavailable)) ==> q.now >= session.expiresAtMs && b.state.vault == v)
            && (b.outcome == Some(Err(NotSignedIn)) ==> b.state.vault.Logical() == Found(r.(session := None)))
            && (b.usable ==>
                  (b.outcome != Some(Err(NotSignedIn)) ==> Serves(c, b.state.vault, session))
                  && WorksFor(q.nowWorks, session, DurationSum(c.renewalWait, c.dispatchMargin)))
  {
    var plan := Decide(c, m.rejectedAtMs, m.transientAt, session, q);
    match plan
    case Deny(_) =>
    case Serve => if v.RepairOutcome(session, q.luck).Ok? { RepairServes(c, v, r, session, q.luck); }
    case Renew(early, due) =>
      var v1 := if early then v.Repair(session, q.luck) else v;
      if early && v.RepairOutcome(session, q.luck).Ok? { RepairServes(c, v, r, session, q.luck); }
      if session.refreshToken.None? && q.nowLate < session.expiresAtMs && v1.RepairOutcome(session, q.again).Ok? {
        RepairServes(c, v1, r, session, q.again);
      }
  }

  /** What the answer of a call says about the state it leaves. */
  predicate Truthful(c: Config, b: Begun, q: Query) {
    var v := b.state.vault;
    && (b.outcome == Some(Ok) ==>
          && HasSession(c, v)
          && var session := v.Logical().record.session.value;
             Serves(c, v, session) && (q.now < session.expiresAtMs || q.nowLate < session.expiresAtMs))
    && (b.outcome == Some(Err(NotSignedIn)) && v.hostFile ==> !HasSession(c, v))
    && (b.outcome == Some(Err(NotAuthorized)) ==>
          HasSession(c, v) && !HasScope(v.Logical().record.session.value, c.planScope))
    && (b.outcome == Some(Err(RefreshUnavailable)) ==>
          HasSession(c, v) && q.now >= v.Logical().record.session.value.expiresAtMs)
    && (b.outcome == None ==> HasSession(c, v) && b.state.marks.request.Some?)
  }

  lemma SessionTruthful(c: Config, v: Vault, m: Marks, r: Record, session: Session, q: Query)
    requires Coherent(c, State(v, m)) && m.request.None? && v.hostCached
    requires v.Logical() == Found(r) && r.host == c.host && r.session == Some(session)
    ensures Truthful(c, FreshSession(c, v, m, r, session, q), q)
  {
    SessionAnswers(c, v, m, r, session, q);
    FreshSessionCoherent(c, v, m, r, session, q);
  }

  /**
   What a call of `fresh_locked` that sends no request answers. Ok: the value under the name is the
   access token of the record this process sees, its session holds the plan scope and is unexpired
   on a clock reading of the call. NotSignedIn: no session of this host remains (an installation
   without a host id has none). NotAuthorized and RefreshUnavailable: there is one, without the plan
   scope, or expired and kept.
   */
  lemma AnswersAreTrue(c: Config, s: State, q: Query)
    requires Coherent(c, s) && s.marks.request.None?
    ensures Truthful(c, FreshBegin(c, s, q), q)
  {
    if s.vault.HostAnswers(q.luck.host) {
      var v := s.vault.CacheHost();
      var v1 := v.Flush(c, q.flush);
      FlushSound(c, v, q.flush);
      var loaded := v1.Load(q.luck.read);
      if v1.hostFile && Ours(c, loaded) && loaded.record.session.Some? {
        SessionTruthful(c, v1, s.marks, loaded.record, loaded.record.session.value, q);
      }
    }
  }

  /** What the call answers once its token request has been: Ok means the same, for a session that
      was renewed in this call or is unexpired now. */
  lemma RenewalAnswersAreTrue(c: Config, s: State, a: Answer, now: U64, mono: nat, l: Luck)
    requires Coherent(c, s) && Enabled(c, s, AnswerStep(a, now, mono, l))
    ensures var (s', o) := FreshEnd(c, s, a, now, mono, l);
            && (o.Ok? ==>
                  && HasSession(c, s'.vault)
                  && var session := s'.vault.Logical().record.session.value;
                     Serves(c, s'.vault, session)
                     && ((a.Renewed? && session == Rotated(a.tokens, s.marks.request.value.session, now))
                         || (session == s.marks.request.value.session && now < session.expiresAtMs)))
            && (o == Err(NotSignedIn) <==> a.Ended? || a.ClientInvalid?)
            && (o == Err(NotSignedIn) ==> !HasSession(c, s'.vault))
            && (o == Err(RefreshUnavailable) ==> s'.vault == s.vault)
  {
    var Request(r, session) := s.marks.request.value;
    OursIsOpen(c, s.vault, true);
    match a
    case Renewed(t) =>
      RenewalCoherent(c, s.vault, s.marks.(request := None), r, SessionFrom(c, t, Some(session), now),
                      RenewalDone(session.refreshToken.value, Replaces(t, session.refreshToken.value)), l);
    case Ended => EndSessionSound(c, s.vault, r, l);
    case ClientInvalid => DropSound(c, s.vault, Some(r), l);
    case Lost =>
      if s.vault.RepairOutcome(session, l).Ok? { RepairServes(c, s.vault, r, session, l); }
  }

  // ── callers released early ─────────────────────────────────────────────────────────────────

  /** Wall-clock milliseconds as nanoseconds. */
  function Nanos(ms: U64): int {
    ms * NANOS_PER_MILLI
  }

  /** `works_for` keeps its word for a span whose milliseconds fit 64 bits, rounding included. */
  lemma WorksForMeans(now: U64, session: Session, span: Duration)
    requires span / NANOS_PER_MILLI <= U64_MAX
    requires WorksFor(now, session, span)
    ensures Nanos(session.expiresAtMs) - Nanos(now) > span
  {
  }

  /** The usable check promises what it is for: the token outlasts the wait and the margin. */
  ghost predicate UsablePromise(wait: Duration, margin: Duration) {
    forall now: U64, session: Session | WorksFor(now, session, DurationSum(wait, margin)) ::
      Nanos(session.expiresAtMs) - Nanos(now) > wait + margin
  }

  /** What a configuration must meet: the milliseconds fit, or the cast happens to give the largest
      value (no token ever passes the check then). */
  predicate SpanFits(wait: Duration, margin: Duration) {
    (wait + margin) / NANOS_PER_MILLI <= U64_MAX || MillisU64(DurationSum(wait, margin)) == U64_MAX
  }

  lemma UsablePromiseIff(wait: Duration, margin: Duration)
    ensures UsablePromise(wait, margin) <==> SpanFits(wait, margin)
  {
    var span := DurationSum(wait, margin);
    if SpanFits(wait, margin) {
      forall now: U64, session: Session | WorksFor(now, session, span)
        ensures Nanos(session.expiresAtMs) - Nanos(now) > wait + margin
      {
        if (wait + margin) / NANOS_PER_MILLI <= U64_MAX {
          WorksForMeans(now, session, span);
        }
      }
    } else {
      var session := Session("", None, [], MillisU64(span) + 1, None, 0);
      assert WorksFor(0, session, span);
    }
  }

  /** While a renewal is on its way nothing that is stored or shadows it changes. */
  lemma HeldWhileInFlight(c: Config, s: State, step: Step)
    requires Enabled(c, s, step) && s.marks.request.Some? && !step.AnswerStep? && !step.CrashStep?
    ensures var s' := Next(c, s, step);
            && s'.vault.store == s.vault.store && s'.vault.unsaved == s.vault.unsaved
            && s'.marks.request == s.marks.request
  {
  }

  lemma {:induction false} ServesUntilAnswered(c: Config, states: seq<State>, steps: seq<Step>, i: nat, j: nat)
    requires Behavior(c, states, steps) && i <= j < |states|
    requires forall k :: i <= k < j ==> !steps[k].AnswerStep? && !steps[k].CrashStep?
    requires states[i].marks.request.Some? && Serves(c, states[i].vault, states[i].marks.request.value.session)
    ensures states[j].marks.request == states[i].marks.request
    ensures Serves(c, states[j].vault, states[i].marks.request.value.session)
  {
    if i < j {
      ServesUntilAnswered(c, states, steps, i, j - 1);
      HeldWhileInFlight(c, states[j - 1], steps[j - 1]);
    }
  }

  lemma UsableMeans(c: Config, s: State, q: Query)
    requires Coherent(c, s) && s.marks.request.None? && SpanFits(c.renewalWait, c.dispatchMargin)
    requires FreshBegin(c, s, q).usable && FreshBegin(c, s, q).outcome == None
    ensures var b := FreshBegin(c, s, q).state;
            && b.marks.request.Some?
            && var session := b.marks.request.value.session;
            && Serves(c, b.vault, session)
            && Nanos(session.expiresAtMs) - (Nanos(q.nowWorks) + c.renewalWait) > c.dispatchMargin
  {
    var v := s.vault.CacheHost();
    var v1 := v.Flush(c, q.flush);
    FlushSound(c, v, q.flush);
    var loaded := v1.Load(q.luck.read);
    SessionAnswers(c, v1, s.marks, loaded.record, loaded.record.session.value, q);
    UsablePromiseIff(c.renewalWait, c.dispatchMargin);
  }

  /**
   A caller released by the `renewal_wait` timer: at whatever point of the run that is, as long as its
   renewal has not been answered, the value under the name is still the access token of the session
   seen, with the plan scope, and `renewal_wait` after the reading it was judged on it has more than
   `dispatch_margin` to live.
   */
  lemma TimedOutCallerHasMargin(c: Config, states: seq<State>, steps: seq<Step>, i: nat, j: nat)
    requires Behavior(c, states, steps) && Initial(c, states[0]) && SpanFits(c.renewalWait, c.dispatchMargin)
    requires i < j < |states| && steps[i].FreshStep?
    requires var b := FreshBegin(c, states[i], steps[i].query); b.usable && b.outcome == None
    requires forall k :: i < k < j ==> !steps[k].AnswerStep? && !steps[k].CrashStep?
    ensures states[j].marks.request.Some?
    ensures var session := states[j].marks.request.value.session;
            && Serves(c, states[j].vault, session)
            && Nanos(session.expiresAtMs) - (Nanos(steps[i].query.nowWorks) + c.renewalWait) > c.dispatchMargin
  {
    RunIsCoherent(c, states, steps, i);
    UsableMeans(c, states[i], steps[i].query);
    ServesUntilAnswered(c, states, steps, i + 1, j);
  }

  /** A caller that finds the session busy and goes ahead: its record, the refusal mark and the token are
      read apart, while another operation may write. The value it goes ahead with is then the access
      token of the session it read, with the plan scope, and has more than `dispatch_margin` to live. */
  lemma BusyCallerHasMargin(c: Config, v: Vault, refusedAt: Option<U64>, w: Vault, now: U64, l: Luck)
    requires UsableNow(c, v, refusedAt, w, now, l) && c.dispatchMargin / NANOS_PER_MILLI <= U64_MAX
    ensures HasSession(c, v) && w.store.token.Token?
    ensures var session := v.Logical().record.session.value;
            && w.store.token.text == session.accessToken && HasScope(session, c.planScope)
            && Nanos(session.expiresAtMs) - Nanos(now) > c.dispatchMargin
  {
    WorksForMeans(now, v.Logical().record.session.value, c.dispatchMargin);
  }

  // ── what lasts between calls ───────────────────────────────────────────────────────────────

  /** The visible session, if there is one, can be renewed. */
  predicate Renewable(c: Config, v: Vault) {
    HasSession(c, v) ==> v.Logical().record.session.value.refreshToken.Some?
  }

  lemma StepStaysRenewable(c: Config, s: State, step: Step)
    requires Coherent(c, s) && Enabled(c, s, step) && !step.CrashStep? && !SignsIn(s, step)
    requires Renewable(c, s.vault)
    ensures Renewable(c, Next(c, s, step).vault)
  {
    StepRefines(c, s, step);
  }

  /** A session that can be renewed stays so: whatever token responses leave out, until it ends or
      another sign-in commits, the process holds a refresh token for it. */
  lemma {:induction false} RenewableStaysRenewable(c: Config, states: seq<State>, steps: seq<Step>, i: nat, j: nat)
    requires Behavior(c, states, steps) && Initial(c, states[0]) && i <= j < |states|
    requires Renewable(c, states[i].vault)
    requires forall k :: i <= k < j ==> !steps[k].CrashStep? && !SignsIn(states[k], steps[k])
    ensures Renewable(c, states[j].vault)
  {
    if i < j {
      RenewableStaysRenewable(c, states, steps, i, j - 1);
      RunIsCoherent(c, states, steps, j - 1);
      StepStaysRenewable(c, states[j - 1], steps[j - 1]);
    }
  }

  /** A clearing interrupted between its two writes is completed by the next call: a token left beside a
      record of this host without a session goes when the store takes the removal. */
  lemma LeftoverTokenGoes(c: Config, s: State, q: Query)
    requires Coherent(c, s) && s.marks.request.None? && s.vault.hostFile && s.vault.HostAnswers(q.luck.host)
    requires Ours(c, s.vault.Logical()) && s.vault.Logical().record.subject.Some? && !HasSession(c, s.vault)
    requires q.luck.read && q.luck.clear
    ensures var b := FreshBegin(c, s, q);
            b.outcome == Some(Err(NotSignedIn)) && b.state.vault.store.token.NoToken?
  {
    FlushSound(c, s.vault.CacheHost(), q.flush);
  }
}
