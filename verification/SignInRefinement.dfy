/**
 The pair (store, in-memory override) behaves as ONE record. What an operation does to the record the
 process sees follows from what it reads (`StepRefines`), and does not depend on which writes and
 removals the store refuses, in exactly the cases `SteadyIff` gives: the exception is a call that
 flushes an unsaved session and then cannot read it back.
 */
module SignInRefinement {
  import opened Basics
  import opened SignInModel
  import opened SignInCoherence

  /** What an operation means for the one logical record. */
  datatype Intent = Keep | Replace(record: Record) | CutSession | Erase

  function Apply(intent: Intent, logical: Loaded): Loaded {
    match intent
    case Keep => logical
    case Replace(r) => Found(r)
    case Erase => Missing
    case CutSession => if logical.Found? then Found(logical.record.(session := None)) else logical
  }

  /** The session an answer makes of the previous one: what the answer names replaces it, what it leaves
      out stays, and it lives for the seconds the answer gives from now. */
  function Rotated(t: Tokens, previous: Session, now: U64): Session {
    var expires := now + 1000 * t.expiresInS;
    previous.(accessToken := t.accessToken,
              refreshToken := if t.refreshToken.None? then previous.refreshToken else t.refreshToken,
              scopes := if t.scopes.None? then previous.scopes else t.scopes.value,
              expiresAtMs := if expires > U64_MAX then U64_MAX else expires,
              earliestRefreshAtMs := t.earliestRefreshAtMs,
              savedAtMs := now)
  }

  lemma RotatedIs(c: Config, t: Tokens, previous: Session, now: U64)
    ensures SessionFrom(c, t, Some(previous), now) == Rotated(t, previous, now)
  {
  }

  /** What a step reads of the record (Failed when the store did not answer). */
  function Seen(c: Config, v: Vault, step: Step): Loaded {
    match step
    case RetainStep(_, l) => v.Load(l.read)
    case DropDeadStep(_, l) => v.Load(l.read)
    case CodelessStep(_, l) => v.Load(l.read)
    case ModelsStep(_, l) => v.Load(l.read)
    case ForgetStep(l) => v.Load(l.read)
    case FreshStep(q) =>
      if v.HostAnswers(q.luck.host) then v.CacheHost().Flush(c, q.flush).Load(q.luck.read) else Failed
    case SignOutStep(f, l) => v.Flush(c, f).Load(l.read)
    case _ => v.Logical()
  }

  /** The meaning of a step, from what it read and the marks in memory. */
  function IntentOf(c: Config, hostFile: bool, m: Marks, step: Step, seen: Loaded): Intent {
    match step
    case RetainStep(id, l) => if seen.Missing? then Replace(Registration(c, id)) else Keep
    case DropDeadStep(id, l) => if Ours(c, seen) && seen.record.clientId == id then Erase else Keep
    case CodelessStep(id, l) =>
      if seen.Found? && IsRegistrationOnly(c, seen.record, id)
         && m.codeless.Some? && m.codeless.value.clientId == id
         && m.codeless.value.count + 1 >= CODELESS_ENDINGS_BEFORE_DROP
      then Erase else Keep
    case CommitStep(g, r, l) => if m.attempt == Some(g) && l.record then Replace(r) else Keep
    case FreshStep(q) =>
      if hostFile && Ours(c, seen) && seen.record.session.Some? && RunsOut(c, m, seen.record.session.value, q)
      then CutSession else Keep
    case AnswerStep(a, now, _, _) =>
      (match a
       case Renewed(t) =>
         if seen.Found? && seen.record.session.Some?
         then Replace(seen.record.(session := Some(Rotated(t, seen.record.session.value, now))))
         else Keep
       case Ended => CutSession
       case ClientInvalid => Erase
       case Lost => Keep)
    case ModelsStep(models, l) =>
      if seen.Found? && seen.record.session.Some? then Replace(seen.record.(models := models)) else Keep
    case SignOutStep(_, l) => if hostFile && Ours(c, seen) then CutSession else Keep
    case ForgetStep(l) => if hostFile && Ours(c, seen) then Erase else Keep
    case _ => Keep
  }

  /** Sign-out and forget need the host id; without it they leave the record alone. */
  predicate HostReadable(c: Config, v: Vault, step: Step) {
    match step
    case SignOutStep(f, l) => v.Flush(c, f).HostAnswers(l.host)
    case ForgetStep(l) => v.HostAnswers(l.host)
    case _ => true
  }

  function Meaning(c: Config, s: State, step: Step): Intent {
    if HostReadable(c, s.vault, step)
    then IntentOf(c, s.vault.hostFile, s.marks, step, Seen(c, s.vault, step))
    else Keep
  }

  lemma AnswerRefines(c: Config, s: State, a: Answer, now: U64, mono: nat, l: Luck)
    requires Coherent(c, s) && Enabled(c, s, AnswerStep(a, now, mono, l))
    ensures FreshEnd(c, s, a, now, mono, l).0.vault.Logical()
            == Apply(Meaning(c, s, AnswerStep(a, now, mono, l)), s.vault.Logical())
  {
    var Request(r, session) := s.marks.request.value;
    OursIsOpen(c, s.vault, true);
    match a
    case Renewed(t) =>
      RotatedIs(c, t, session, now);
      RenewalCoherent(c, s.vault, s.marks.(request := None), r, SessionFrom(c, t, Some(session), now),
                      RenewalDone(session.refreshToken.value, Replaces(t, session.refreshToken.value)), l);
    case Ended => EndSessionSound(c, s.vault, r, l);
    case ClientInvalid => DropSound(c, s.vault, Some(r), l);
    case Lost => RepairSound(c, s.vault, session, l);
  }

  lemma FreshRefines(c: Config, s: State, q: Query)
    requires Coherent(c, s) && s.marks.request.None?
    ensures FreshBegin(c, s, q).state.vault.Logical() == Apply(Meaning(c, s, FreshStep(q)), s.vault.Logical())
  {
    if s.vault.HostAnswers(q.luck.host) {
      var v := s.vault.CacheHost();
      FlushSound(c, v, q.flush);
      FreshFlushedCoherent(c, v.Flush(c, q.flush), s.marks, q);
    }
  }

  lemma CodelessRefines(c: Config, s: State, id: string, l: Luck)
    requires Coherent(c, s) && Enabled(c, s, CodelessStep(id, l))
    ensures CountCodelessEnding(c, s, id, l).vault.Logical()
            == Apply(Meaning(c, s, CodelessStep(id, l)), s.vault.Logical())
  {
    if Ours(c, s.vault.Load(l.read)) {
      OursIsOpen(c, s.vault, l.read);
      DropSound(c, s.vault, None, l);
    }
  }

  /**
   Refinement: every step but a crash takes the logical record to exactly what the operation means
   for the record it reads. A refused flush can decide what a sign-out or a fresh call gets to read.
   */
  lemma StepRefines(c: Config, s: State, step: Step)
    requires Coherent(c, s) && Enabled(c, s, step) && !step.CrashStep?
    ensures Next(c, s, step).vault.Logical() == Apply(Meaning(c, s, step), s.vault.Logical())
  {
    match step
    case FreshStep(q) => FreshRefines(c, s, q);
    case AnswerStep(a, now, mono, l) => AnswerRefines(c, s, a, now, mono, l);
    case SignOutStep(f, l) =>
      FlushSound(c, s.vault, f);
      SignOutCoherent(c, s.vault.Flush(c, f), s.marks, l);
    case ForgetStep(l) => ForgetSound(c, s.vault, l);
    case DropDeadStep(id, l) => DropDeadSound(c, s.vault, id, l);
    case CodelessStep(id, l) => CodelessRefines(c, s, id, l);
    case _ =>
  }

  // ── which writes are taken does not show ───────────────────────────────────────────────────

  function BlindLuck(l: Luck): Luck {
    l.(record := true, token := true, clear := true, remove := true)
  }

  /** A step without what the store takes of its writes and removals, the whole flush included; a commit
      keeps whether its record is taken. */
  function Blind(step: Step): Step {
    match step
    case RetainStep(id, l) => RetainStep(id, BlindLuck(l))
    case DropDeadStep(id, l) => DropDeadStep(id, BlindLuck(l))
    case CommitStep(g, r, l) => CommitStep(g, r, BlindLuck(l).(record := l.record))
    case CodelessStep(id, l) => CodelessStep(id, BlindLuck(l))
    case BusyStep(now, l) => BusyStep(now, BlindLuck(l))
    case FreshStep(q) =>
      FreshStep(q.(flush := AllTaken(), luck := BlindLuck(q.luck), again := BlindLuck(q.again)))
    case AnswerStep(a, now, mono, l) => AnswerStep(a, now, mono, BlindLuck(l))
    case ModelsStep(models, l) => ModelsStep(models, BlindLuck(l))
    case SignOutStep(_, l) => SignOutStep(AllTaken(), BlindLuck(l))
    case ForgetStep(l) => ForgetStep(BlindLuck(l))
    case _ => step
  }

  /** A step is steady: whichever of its writes and removals are taken, the process sees the same record. */
  ghost predicate Steady(c: Config, s: State, step: Step)
    requires Enabled(c, s, step)
  {
    forall other: Step | Blind(other) == Blind(step) ::
      Enabled(c, s, other) && Next(c, s, other).vault.Logical() == Next(c, s, step).vault.Logical()
  }

  /** The record read refused, an unsaved session, and a call that would end it. */
  predicate Wavers(c: Config, s: State, step: Step) {
    && s.vault.unsaved.UnsavedRecord? && s.vault.unsaved.record.session.Some?
    && match step
       case SignOutStep(_, l) => !l.read
       case FreshStep(q) => !q.luck.read && RunsOut(c, s.marks, s.vault.unsaved.record.session.value, q)
       case _ => false
  }

  predicate CallEnds(c: Config, s: State, step: Step, session: Session)
    requires step.SignOutStep? || step.FreshStep?
  {
    step.FreshStep? ==> RunsOut(c, s.marks, session, step.query)
  }

  /** The record after a call that flushes, without the flush: only a flush that takes an unsaved record
      the call then cannot read makes a difference. */
  function AfterFlushing(c: Config, s: State, step: Step): Loaded
    requires step.SignOutStep? || step.FreshStep?
  {
    var v, logical := s.vault, s.vault.Logical();
    var flush := if step.SignOutStep? then step.flush else step.query.flush;
    var l := if step.SignOutStep? then step.luck else step.query.luck;
    var legible := if v.unsaved.Nothing? then l.read else l.read || !flush.record;
    if legible && v.HostAnswers(l.host) && v.hostFile && Ours(c, logical)
       && logical.record.session.Some? && CallEnds(c, s, step, logical.record.session.value)
    then Found(logical.record.(session := None)) else logical
  }

  lemma FlushReads(c: Config, v: Vault, f: Luck, ok: bool)
    requires Sound(c, v)
    ensures var v' := v.Flush(c, f);
            && v'.Logical() == v.Logical() && v'.hostFile == v.hostFile && (v.hostCached ==> v'.hostCached)
            && (v.unsaved.Nothing? ==> v' == v)
            && (v.unsaved.UnsavedRecord? ==> v'.Load(ok) == if ok || !f.record then v.Logical() else Failed)
            && (v.unsaved.UnsavedRemoval? ==> !v'.Load(ok).Found?)
  {
    FlushSound(c, v, f);
  }

  lemma SignOutAfterFlushing(c: Config, s: State, f: Luck, l: Luck)
    requires Coherent(c, s) && s.marks.request.None?
    ensures SignOut(c, s, f, l).0.vault.Logical() == AfterFlushing(c, s, SignOutStep(f, l))
  {
    FlushReads(c, s.vault, f, l.read);
    FlushSound(c, s.vault, f);
    SignOutCoherent(c, s.vault.Flush(c, f), s.marks, l);
  }

  lemma FreshAfterFlushing(c: Config, s: State, q: Query)
    requires Coherent(c, s) && s.marks.request.None?
    ensures FreshBegin(c, s, q).state.vault.Logical() == AfterFlushing(c, s, FreshStep(q))
  {
    if s.vault.HostAnswers(q.luck.host) {
      var v := s.vault.CacheHost();
      FlushReads(c, v, q.flush, q.luck.read);
      FlushSound(c, v, q.flush);
      FreshFlushedCoherent(c, v.Flush(c, q.flush), s.marks, q);
    }
  }

  lemma RunsOutBlindly(c: Config, m: Marks, session: Session, q: Query, q': Query)
    requires Blind(FreshStep(q)) == Blind(FreshStep(q'))
    ensures RunsOut(c, m, session, q) <==> RunsOut(c, m, session, q')
  {
    assert q' == q.(flush := q'.flush, luck := q'.luck, again := q'.again);
  }

  lemma CallSteady(c: Config, s: State, a: Step, b: Step)
    requires Coherent(c, s) && Enabled(c, s, a) && Blind(a) == Blind(b) && (a.SignOutStep? || a.FreshStep?)
    ensures Enabled(c, s, b) && Next(c, s, a).vault.Logical() == AfterFlushing(c, s, a)
    ensures !Wavers(c, s, a) ==> AfterFlushing(c, s, b) == AfterFlushing(c, s, a)
  {
    match a
    case SignOutStep(f, l) => SignOutAfterFlushing(c, s, f, l);
    case FreshStep(q) =>
      FreshAfterFlushing(c, s, q);
      if s.vault.Logical().Found? && s.vault.Logical().record.session.Some? {
        RunsOutBlindly(c, s.marks, s.vault.Logical().record.session.value, q, b.query);
      }
  }

  lemma OthersSteady(c: Config, s: State, a: Step, b: Step)
    requires Coherent(c, s) && Enabled(c, s, a) && Blind(a) == Blind(b) && !a.CrashStep?
    requires !a.SignOutStep? && !a.FreshStep?
    ensures Enabled(c, s, b) && Meaning(c, s, a) == Meaning(c, s, b)
  {
  }

  /** The same call with the flush of the record turned round. */
  function Turned(step: Step): Step
    requires step.SignOutStep? || step.FreshStep?
  {
    match step
    case SignOutStep(f, l) => SignOutStep(f.(record := !f.record), l)
    case FreshStep(q) => FreshStep(q.(flush := q.flush.(record := !q.flush.record)))
  }

  lemma TurnedShows(c: Config, s: State, step: Step)
    requires Coherent(c, s) && Enabled(c, s, step) && Wavers(c, s, step)
    ensures Blind(Turned(step)) == Blind(step) && Enabled(c, s, Turned(step))
    ensures Next(c, s, Turned(step)).vault.Logical() != Next(c, s, step).vault.Logical()
  {
    var turned := Turned(step);
    CallSteady(c, s, step, turned);
    CallSteady(c, s, turned, step);
    if step.FreshStep? {
      RunsOutBlindly(c, s.marks, s.vault.unsaved.record.session.value, step.query, turned.query);
    }
  }

  /**
   Which writes and removals the store takes does not show in the record the process sees, for every
   step but a crash, exactly unless the step wavers: a sign-out, or a fresh call on a session that ran
   out, that finds the session unsaved and whose read of the stored record is refused. Then it ends the
   session if the flush is refused too, and leaves it alone if the flush is taken.
   */
  lemma SteadyIff(c: Config, s: State, step: Step)
    requires Coherent(c, s) && Enabled(c, s, step) && !step.CrashStep?
    ensures Steady(c, s, step) <==> !Wavers(c, s, step)
  {
    if Wavers(c, s, step) {
      TurnedShows(c, s, step);
    } else {
      forall other: Step | Blind(other) == Blind(step)
        ensures Enabled(c, s, other) && Next(c, s, other).vault.Logical() == Next(c, s, step).vault.Logical()
      {
        if step.SignOutStep? || step.FreshStep? {
          CallSteady(c, s, step, other);
          CallSteady(c, s, other, step);
        } else {
          OthersSteady(c, s, step, other);
          StepRefines(c, s, step);
          StepRefines(c, s, other);
        }
      }
    }
  }

  // ── what has ended stays ended ─────────────────────────────────────────────────────────────

  predicate HasSession(c: Config, v: Vault) {
    Ours(c, v.Logical()) && v.Logical().record.session.Some?
  }

  /** A step that ends the session: a terminal answer, or a sign-out or forget that could read. */
  predicate EndsSession(c: Config, v: Vault, step: Step) {
    match step
    case AnswerStep(a, _, _, _) => a.Ended? || a.ClientInvalid?
    case SignOutStep(_, _) | ForgetStep(_) =>
      v.hostFile && HostReadable(c, v, step) && !Seen(c, v, step).Failed?
    case _ => false
  }

  lemma EndingEnds(c: Config, s: State, step: Step)
    requires Coherent(c, s) && Enabled(c, s, step) && EndsSession(c, s.vault, step)
    ensures !HasSession(c, Next(c, s, step).vault)
  {
    StepRefines(c, s, step);
    if step.SignOutStep? {
      FlushSound(c, s.vault, step.flush);
    }
  }

  lemma StepNeverRevives(c: Config, s: State, step: Step)
    requires Coherent(c, s) && Enabled(c, s, step) && !step.CrashStep?
    requires !HasSession(c, s.vault) && !SignsIn(s, step)
    ensures !HasSession(c, Next(c, s, step).vault)
  {
    StepRefines(c, s, step);
  }

  /** A session that ended does not come back in this process before another sign-in completes. */
  lemma {:induction false} SessionStaysGone(c: Config, states: seq<State>, steps: seq<Step>, i: nat, j: nat)
    requires Behavior(c, states, steps) && Initial(c, states[0]) && i <= j < |states|
    requires !HasSession(c, states[i].vault)
    requires forall k :: i <= k < j ==> !steps[k].CrashStep?
    requires forall k :: i <= k < j ==> !SignsIn(states[k], steps[k])
    ensures !HasSession(c, states[j].vault)
  {
    if i < j {
      SessionStaysGone(c, states, steps, i, j - 1);
      RunIsCoherent(c, states, steps, j - 1);
      StepNeverRevives(c, states[j - 1], steps[j - 1]);
    }
  }
}
