/**
 What each operation must do, said of the fields it leaves and the clock readings it takes: when a call
 renews and what it answers, what a renewed session holds, and what stays in the store after every
 refusal. Nothing here speaks of how the operations are computed.
 */
module SignInEffects {
  import opened Basics
  import opened SignInModel
  import opened SignInCoherence
  import opened SignInCustody
  import opened SignInRefinement
  import opened SignInFresh

  // ── when a call renews, and what it answers ────────────────────────────────────────────────

  function Capped(n: int): int {
    if n > U64_MAX then U64_MAX else n
  }

  /** A reported refusal that is late enough to be about this session, or a forced call. */
  predicate Refused(c: Config, m: Marks, session: Session, q: Query) {
    q.force
    || (m.rejectedAtMs.Some? && m.rejectedAtMs.value >= Capped(session.savedAtMs + MillisU64(c.rejectionGuard)))
  }

  predicate NearExpiry(c: Config, session: Session, q: Query) {
    Capped(q.now + MillisU64(c.renewBefore)) >= session.expiresAtMs
  }

  /** A renewal failed less than the cool-down ago. */
  predicate Cooling(c: Config, m: Marks, q: Query) {
    m.transientAt.Some? && c.transientCooldown > 0 && q.mono < m.transientAt.value + c.transientCooldown
  }

  predicate MustRenew(c: Config, m: Marks, session: Session, q: Query) {
    && (Refused(c, m, session, q) || NearExpiry(c, session, q))
    && !(!Refused(c, m, session, q) && q.now < session.expiresAtMs
         && session.earliestRefreshAtMs.Some? && session.earliestRefreshAtMs.value > q.now)
    && !(!q.force && Cooling(c, m, q))
  }

  /** The renewal is not required yet and the token outlasts the caller's wait and its request. */
  predicate Early(c: Config, m: Marks, session: Session, q: Query) {
    && MustRenew(c, m, session, q) && !Refused(c, m, session, q)
    && Capped(q.nowWorks + MillisU64(DurationSum(c.renewalWait, c.dispatchMargin))) < session.expiresAtMs
  }

  predicate Stored(v: Vault, session: Session) {
    v.store.token.Token? && v.store.token.text == session.accessToken
  }

  function Served(ok: bool): Outcome {
    if ok then Ok else Err(Unavailable)
  }

  /** The answer for a session of this host; None: a token request goes out. */
  function SessionVerdict(c: Config, v: Vault, m: Marks, session: Session, q: Query): Option<Outcome> {
    if c.planScope !in session.scopes then Some(Err(NotAuthorized))
    else if !MustRenew(c, m, session, q) then
      if q.now >= session.expiresAtMs then Some(Err(RefreshUnavailable))
      else Some(Served((q.luck.peek && Stored(v, session)) || q.luck.token))
    else if session.refreshToken.Some? then None
    else if q.nowLate >= session.expiresAtMs then Some(Err(NotSignedIn))
    else
      var stored := Stored(v, session) || (Early(c, m, session, q) && q.luck.token);
      Some(Served((q.again.peek && stored) || q.again.token))
  }

  /** The answer of a call: unavailable exactly when the host id or the record cannot be read, or the
      session's token is neither found in the store nor taken by it. */
  function Verdict(c: Config, s: State, q: Query): Option<Outcome> {
    var legible := q.luck.read || !s.vault.Flush(c, q.flush).unsaved.Nothing?;
    if !(s.vault.hostCached || q.luck.host) || !legible then Some(Err(Unavailable))
    else if !(s.vault.hostFile && HasSession(c, s.vault)) then Some(Err(NotSignedIn))
    else SessionVerdict(c, s.vault, s.marks, s.vault.Logical().record.session.value, q)
  }

  lemma PlanMeans(c: Config, m: Marks, session: Session, q: Query)
    requires HasScope(session, c.planScope)
    ensures var plan := Decide(c, m.rejectedAtMs, m.transientAt, session, q);
            && (plan.Renew? <==> MustRenew(c, m, session, q))
            && (plan.Renew? ==> (plan.early <==> Early(c, m, session, q)))
            && (!plan.Renew? ==> plan == if q.now >= session.expiresAtMs then Deny(RefreshUnavailable) else Serve)
  {
  }

  lemma SessionVerdictHolds(c: Config, v: Vault, m: Marks, r: Record, session: Session, q: Query)
    requires m.request.None?
    ensures var b := FreshSession(c, v, m, r, session, q);
            && b.outcome == SessionVerdict(c, v, m, session, q)
            && (b.usable <==> HasScope(session, c.planScope) && Early(c, m, session, q)
                              && ((q.luck.peek && Stored(v, session)) || q.luck.token))
            && (b.outcome.None? ==> b.state.marks.request == Some(Request(r, session)))
  {
    if HasScope(session, c.planScope) {
      PlanMeans(c, m, session, q);
    }
  }

  /** A flush never touches the token of a session that is seen. */
  lemma FlushKeepsToken(c: Config, v: Vault, l: Luck)
    requires Sound(c, v) && v.Logical().Found?
    ensures v.Flush(c, l).store.token == v.store.token
  {
  }

  lemma LegibleLoads(c: Config, v: Vault, f: Luck, ok: bool)
    requires Sound(c, v)
    ensures var v' := v.Flush(c, f);
            if ok || !v'.unsaved.Nothing? then v'.Load(ok) == v.Logical() else v'.Load(ok).Failed?
  {
    FlushSound(c, v, f);
  }

  /**
   The call, exactly: it sends a token request if and only if it can read an own session with the plan
   scope and a refresh token that must be renewed; otherwise its answer is the verdict.
   */
  lemma FreshVerdict(c: Config, s: State, q: Query)
    requires Coherent(c, s) && s.marks.request.None?
    ensures FreshBegin(c, s, q).outcome == Verdict(c, s, q)
  {
    if s.vault.HostAnswers(q.luck.host) {
      var v := s.vault.CacheHost();
      FlushIgnoresCache(c, s.vault, q.flush);
      FlushSound(c, v, q.flush);
      LegibleLoads(c, v, q.flush, q.luck.read);
      var v1 := v.Flush(c, q.flush);
      var loaded := v1.Load(q.luck.read);
      if loaded.Found? && loaded.record.session.Some? {
        FlushKeepsToken(c, v, q.flush);
        SessionVerdictHolds(c, v1, s.marks, loaded.record, loaded.record.session.value, q);
        VerdictByToken(c, v1, s.vault, s.marks, loaded.record.session.value, q);
      }
    }
  }

  lemma VerdictByToken(c: Config, v: Vault, w: Vault, m: Marks, session: Session, q: Query)
    requires v.store.token == w.store.token
    ensures SessionVerdict(c, v, m, session, q) == SessionVerdict(c, w, m, session, q)
  {
  }

  lemma FlushIgnoresCache(c: Config, v: Vault, f: Luck)
    requires Sound(c, v)
    ensures v.CacheHost().Flush(c, f).unsaved == v.Flush(c, f).unsaved
  {
  }

  /** A caller is released early exactly when its renewal is not required yet, the stored token outlasts
      the wait and the margin, and that token is there or the store takes it. */
  lemma UsableIff(c: Config, s: State, q: Query)
    requires Coherent(c, s) && s.marks.request.None?
    ensures var legible := q.luck.read || !s.vault.Flush(c, q.flush).unsaved.Nothing?;
            FreshBegin(c, s, q).usable <==>
              && s.vault.HostAnswers(q.luck.host) && legible && s.vault.hostFile && HasSession(c, s.vault)
              && var session := s.vault.Logical().record.session.value;
              && c.planScope in session.scopes && Early(c, s.marks, session, q)
              && ((q.luck.peek && Stored(s.vault, session)) || q.luck.token)
  {
    if s.vault.HostAnswers(q.luck.host) {
      var v := s.vault.CacheHost();
      FlushIgnoresCache(c, s.vault, q.flush);
      FlushSound(c, v, q.flush);
      LegibleLoads(c, v, q.flush, q.luck.read);
      var v1 := v.Flush(c, q.flush);
      var loaded := v1.Load(q.luck.read);
      if loaded.Found? && loaded.record.session.Some? {
        FlushKeepsToken(c, v, q.flush);
        SessionVerdictHolds(c, v1, s.marks, loaded.record, loaded.record.session.value, q);
      }
    }
  }

  // ── the answer of the token endpoint ───────────────────────────────────────────────────────

  /** What the call answers once its request has been answered. */
  function AnswerVerdict(c: Config, s: State, a: Answer, now: U64, l: Luck): Outcome
    requires s.marks.request.Some?
  {
    var session := s.marks.request.value.session;
    match a
    case Renewed(t) =>
      if !l.token then Err(Unavailable)
      else if c.planScope in (if t.scopes.Some? then t.scopes.value else session.scopes) then Ok
      else Err(NotAuthorized)
    case Ended => Err(NotSignedIn)
    case ClientInvalid => Err(NotSignedIn)
    case Lost =>
      if now >= session.expiresAtMs then Err(RefreshUnavailable)
      else Served((l.peek && Stored(s.vault, session)) || l.token)
  }

  lemma AnswerVerdictHolds(c: Config, s: State, a: Answer, now: U64, mono: nat, l: Luck)
    requires Enabled(c, s, AnswerStep(a, now, mono, l))
    ensures FreshEnd(c, s, a, now, mono, l).1 == AnswerVerdict(c, s, a, now, l)
  {
  }

  /** What a renewed session holds: the answer's tokens, scopes and earliest time, the previous refresh
      token and scopes where the answer names none, and an expiry in whole seconds from now. */
  predicate Renews(t: Tokens, previous: Session, now: U64, renewed: Session) {
    && renewed.accessToken == t.accessToken
    && (t.refreshToken.Some? ==> renewed.refreshToken == t.refreshToken)
    && (t.refreshToken.None? ==> renewed.refreshToken == previous.refreshToken)
    && (t.scopes.Some? ==> renewed.scopes == t.scopes.value)
    && (t.scopes.None? ==> renewed.scopes == previous.scopes)
    && renewed.expiresAtMs == Capped(now + 1000 * t.expiresInS)
    && renewed.earliestRefreshAtMs == t.earliestRefreshAtMs
    && renewed.savedAtMs == now
  }

  /** After an answer with tokens the process sees its record with the renewed session and nothing else
      changed; the record and the token are stored where the store takes them, the record first. */
  lemma RenewedRecord(c: Config, s: State, t: Tokens, now: U64, mono: nat, l: Luck)
    requires Coherent(c, s) && Enabled(c, s, AnswerStep(Renewed(t), now, mono, l))
    ensures var v, v' := s.vault, FreshEnd(c, s, Renewed(t), now, mono, l).0.vault;
            && HasSession(c, v')
            && var r := v'.Logical().record;
            && Renews(t, s.marks.request.value.session, now, r.session.value)
            && r.(session := None) == s.marks.request.value.record.(session := None)
            && (l.record ==> v'.store.record == Holds(r) && v'.unsaved.Nothing?)
            && (!l.record ==> v'.store.record == v.store.record)
            && (if l.token then Stored(v', r.session.value) else v'.store.token == v.store.token)
  {
    OursIsOpen(c, s.vault, true);
  }

  /** The session of a first sign-in holds what the answer names, or the requested scopes. */
  lemma FirstSession(c: Config, t: Tokens, now: U64)
    ensures var none := Session("", None, c.grantScopes, 0, None, 0);
            Renews(t, none, now, SessionFrom(c, t, None, now))
  {
  }

  /** A terminal answer: the session is gone from the record where the store takes it, the token from the
      store where it takes the removal. */
  lemma EndedStore(c: Config, s: State, now: U64, mono: nat, l: Luck)
    requires Enabled(c, s, AnswerStep(Ended, now, mono, l))
    ensures var v, v' := s.vault, FreshEnd(c, s, Ended, now, mono, l).0.vault;
            var cut := s.marks.request.value.record.(session := None);
            && v'.store.record == (if l.record then Holds(cut) else v.store.record)
            && v'.unsaved == (if l.record then Nothing else UnsavedRecord(cut))
            && v'.store.token == (if l.clear then NoToken else v.store.token)
  {
  }

  // ── removals ───────────────────────────────────────────────────────────────────────────────

  predicate OwnSlot(c: Config, slot: RecordSlot) {
    slot.Holds? && slot.record.host == c.host
  }

  /** The whole removal is taken: the rewrite without the session where there is one, the token where it
      is claimed, the record where it is own. */
  predicate RemovalTaken(c: Config, slot: RecordSlot, claims: bool, l: Luck) {
    && (OwnSlot(c, slot) && slot.record.session.Some? ==> l.record)
    && (claims ==> l.clear)
    && (OwnSlot(c, slot) ==> l.remove)
  }

  /** What a removal leaves of a store, for every step of it the store may refuse. */
  predicate RemovalLeaves(c: Config, st: Store, claims: bool, l: Luck, st': Store) {
    var cut := OwnSlot(c, st.record) && st.record.record.session.Some?;
    && st'.token == (if claims && (cut ==> l.record) && l.clear then NoToken else st.token)
    && st'.record == (if !OwnSlot(c, st.record) then st.record
                      else if RemovalTaken(c, st.record, claims, l) then Empty
                      else if cut && l.record then Holds(st.record.record.(session := None))
                      else st.record)
  }

  /** The ordered removal, exactly, where the host id and the record can be read; nothing otherwise. */
  lemma RemovalIs(c: Config, v: Vault, known: Option<Record>, l: Luck)
    requires v.hostFile
    ensures var (v', done) := v.RemoveNames(c, known, l);
            var claims := (known.Some? && ClaimsAccessToken(known.value, Some(c.host))) || Claimed(c, v.store.record);
            && v'.unsaved == v.unsaved
            && (v.HostAnswers(l.host) && l.read ==>
                  RemovalLeaves(c, v.store, claims, l, v'.store)
                  && (done <==> RemovalTaken(c, v.store.record, claims, l)))
            && (!(v.HostAnswers(l.host) && l.read) ==> v'.store == v.store && !done)
  {
  }

  /** A refused client's registration: the same removal, and a tombstone exactly when it was not taken
      whole. */
  lemma DropIs(c: Config, v: Vault, known: Option<Record>, l: Luck)
    requires v.hostFile && v.hostCached && l.read
    ensures var v' := v.DropRegistration(c, known, l);
            var claims := (known.Some? && ClaimsAccessToken(known.value, Some(c.host))) || Claimed(c, v.store.record);
            && RemovalLeaves(c, v.store, claims, l, v'.store)
            && v'.unsaved == (if RemovalTaken(c, v.store.record, claims, l) then Nothing else UnsavedRemoval)
  {
    RemovalIs(c, v, known, l);
  }

  /** A flush the store takes whole catches it up: nothing is unsaved and the store alone holds what the
      process sees. */
  lemma FlushCatchesUp(c: Config, v: Vault, l: Luck)
    requires Sound(c, v)
    requires v.unsaved.UnsavedRecord? ==> l.record
    requires v.unsaved.UnsavedRemoval? ==> l.read && RemovalTaken(c, v.store.record, Claimed(c, v.store.record), l)
    ensures var v' := v.Flush(c, l);
            && v'.unsaved.Nothing? && v'.ReadStored(true) == v.Logical()
            && v'.store.token == (if v.unsaved.UnsavedRemoval? && Claimed(c, v.store.record) then NoToken
                                  else v.store.token)
  {
    if v.unsaved.UnsavedRemoval? {
      RemovalIs(c, v, None, l);
    }
  }

  // ── forget ─────────────────────────────────────────────────────────────────────────────────

  /**
   Forgetting a visible record of this host: the removal, exactly, and a tombstone exactly when some
   refused step left part of it, the refused reading of the stored record included. Taken whole it leaves
   neither record nor claimed token, so no process that starts over the store sees a session either.
   */
  lemma ForgetStore(c: Config, s: State, l: Luck)
    requires Coherent(c, s) && s.vault.hostFile && s.vault.HostAnswers(l.host) && Ours(c, s.vault.Load(l.read))
    ensures var v' := Forget(c, s, l).vault;
            && ForgetLeaves(c, s.vault, l, v')
            && (v'.unsaved.Nothing? ==>
                  && v'.store.record.Empty?
                  && (VisiblyClaimed(c, s.vault) || Claimed(c, s.vault.store.record) ==> v'.store.token.NoToken?)
                  && !HasSession(c, Crash(Forget(c, s, l)).vault))
  {
    OursIsOpen(c, s.vault, l.read);
    RemovalIs(c, s.vault.CacheHost(), Some(s.vault.Logical().record), l);
  }

  /** What forgetting an own record leaves. */
  predicate ForgetLeaves(c: Config, v: Vault, l: Luck, v': Vault) {
    var claims := VisiblyClaimed(c, v) || Claimed(c, v.store.record);
    if l.read then
      && RemovalLeaves(c, v.store, claims, l, v'.store)
      && v'.unsaved == (if RemovalTaken(c, v.store.record, claims, l) then Nothing else UnsavedRemoval)
    else v'.store == v.store && v'.unsaved == UnsavedRemoval
  }

  /** A signed-in name forgotten with everything taken is empty. */
  lemma ForgetTakenEmpties(c: Config, s: State)
    requires Coherent(c, s) && s.vault.hostFile && HasSession(c, s.vault)
    ensures Forget(c, s, AllTaken()).vault.store == Store(NoToken, Empty)
    ensures Forget(c, s, AllTaken()).vault.unsaved.Nothing?
  {
    ForgetStore(c, s, AllTaken());
    OursIsOpen(c, s.vault, true);
  }

  /** Forgetting anything else: a pending removal is retried, an unreadable record loses its token, and
      the rest is left alone. */
  lemma ForgetElse(c: Config, s: State, l: Luck)
    requires Coherent(c, s) && s.vault.hostFile && !Ours(c, s.vault.Logical())
    ensures var v, v' := s.vault, Forget(c, s, l).vault;
            match v.Load(l.read)
            case Unreadable =>
              && v'.store.record == v.store.record && v'.unsaved.Nothing?
              && v'.store.token == (if v.HostAnswers(l.host) && l.clear then NoToken else v.store.token)
            case Missing =>
              if v.unsaved.UnsavedRemoval? then
                if l.read then
                  && RemovalLeaves(c, v.store, Claimed(c, v.store.record), l, v'.store)
                  && v'.unsaved == (if RemovalTaken(c, v.store.record, Claimed(c, v.store.record), l) then Nothing
                                    else UnsavedRemoval)
                else v'.store == v.store && v'.unsaved.UnsavedRemoval?
              else v'.store == v.store && v'.unsaved.Nothing?
            case _ => v'.store == v.store && v'.unsaved == v.unsaved
  {
    RemovalIs(c, s.vault.CacheHost(), None, l);
  }

  // ── sign-out ───────────────────────────────────────────────────────────────────────────────

  /** What a sign-out leaves of the flushed vault `v`, and what it reports. */
  predicate SignOutLeaves(c: Config, v: Vault, l: Luck, v': Vault, clear: bool) {
    var seen := v.Logical();
    var readable := v.HostAnswers(l.host) && (l.read || !v.unsaved.Nothing?);
    && (clear <==> readable && match seen
                               case Found(r) => r.host == c.host ==> l.record && (VisiblyClaimed(c, v) ==> l.clear)
                               case Missing => !v.unsaved.UnsavedRemoval?
                               case _ => false)
    && (if readable && Ours(c, seen) then
          var cut := seen.record.(session := None);
          && v'.store.record == (if l.record then Holds(cut) else v.store.record)
          && v'.unsaved == (if l.record then Nothing else UnsavedRecord(cut))
          && v'.store.token == (if VisiblyClaimed(c, v) && l.clear then NoToken else v.store.token)
        else
          && v'.store.record == v.store.record && v'.unsaved == v.unsaved
          && v'.store.token == (if readable && seen.Unreadable? && l.clear then NoToken else v.store.token))
  }

  lemma FlushedSignOutIs(c: Config, v: Vault, m: Marks, l: Luck)
    requires Sound(c, v) && v.hostFile
    ensures var (s', clear) := SignOutFlushed(c, v, m, l);
            SignOutLeaves(c, v, l, s'.vault, clear)
  {
  }

  /**
   Sign-out, exactly: it reports the name clear if and only if it could read the host id and the record,
   and that is of another installation, or missing with no removal pending, or an own one whose rewrite
   and, where it claims the token, whose token removal were taken. An own record loses its session, in
   memory where the store refuses.
   */
  lemma SignOutIs(c: Config, s: State, f: Luck, l: Luck)
    requires Coherent(c, s) && s.vault.hostFile
    ensures var (s', clear) := SignOut(c, s, f, l);
            s.vault.Flush(c, f).Logical() == s.vault.Logical()
            && SignOutLeaves(c, s.vault.Flush(c, f), l, s'.vault, clear)
  {
    FlushSound(c, s.vault, f);
    FlushedSignOutIs(c, s.vault.Flush(c, f), s.marks, l);
  }

  /** With everything taken a sign-out reports clear, unless the record cannot be read; a removal pending
      till then is made good by the flush. */
  lemma SignOutTakenIsClear(c: Config, s: State)
    requires Coherent(c, s) && s.vault.hostFile && !s.vault.Logical().Unreadable?
    ensures SignOut(c, s, AllTaken(), AllTaken()).1
  {
    FlushCatchesUp(c, s.vault, AllTaken());
    SignOutIs(c, s, AllTaken(), AllTaken());
  }

  // ── the mark of a refusal ──────────────────────────────────────────────────────────────────

  /** A reported refusal is marked with its reading; a renewal, an ended session, a sign-in, a readable
      sign-out and a forget clear the mark, a transient failure keeps it. */
  lemma RefusalMark(c: Config, s: State, step: Step)
    requires Enabled(c, s, step) && !step.FreshStep? && !step.SignOutStep?
    ensures Next(c, s, step).marks.rejectedAtMs
            == match step
               case RejectedStep(now) => Some(now)
               case AnswerStep(a, _, _, _) => if a.Lost? then s.marks.rejectedAtMs else None
               case CommitStep(g, _, l) => if s.marks.attempt == Some(g) && l.record then None else s.marks.rejectedAtMs
               case ForgetStep(_) => None
               case CrashStep => None
               case _ => s.marks.rejectedAtMs
  {
  }

  /** A call that decides over a session drops a refusal too early to be about it, unless it is forced. */
  lemma RefusalDropped(c: Config, v: Vault, m: Marks, r: Record, session: Session, q: Query)
    requires HasScope(session, c.planScope)
    ensures var m' := FreshSession(c, v, m, r, session, q).state.marks;
            m'.rejectedAtMs == if !Refused(c, m, session, q)
                                  || (MustRenew(c, m, session, q) && session.refreshToken.None?
                                      && q.nowLate >= session.expiresAtMs)
                               then None else m.rejectedAtMs
  {
    PlanMeans(c, m, session, q);
  }

  // ── the busy short-cut ─────────────────────────────────────────────────────────────────────

  /** A busy caller goes ahead exactly when the host id and an own session are read, with the plan scope,
      more than the margin to live, no refusal about it, and its token under the name. */
  lemma BusyIff(c: Config, s: State, now: U64, l: Luck)
    ensures UsableWhileBusy(c, s, now, l) <==>
            && (s.vault.hostCached || l.host) && s.vault.hostFile && HasSession(c, s.vault)
            && (l.read || s.vault.unsaved.UnsavedRecord?)
            && var session := s.vault.Logical().record.session.value;
            && c.planScope in session.scopes
            && Capped(now + MillisU64(c.dispatchMargin)) < session.expiresAtMs
            && !(s.marks.rejectedAtMs.Some?
                 && s.marks.rejectedAtMs.value >= Capped(session.savedAtMs + MillisU64(c.rejectionGuard)))
            && l.peek && Stored(s.vault, session)
  {
  }

  // ── what is not this installation's ────────────────────────────────────────────────────────

  /** The record under the name is another installation's. */
  predicate Foreign(c: Config, v: Vault) {
    v.hostFile && v.Logical().Found? && v.Logical().record.host != c.host
  }

  /** Another installation's record and the value beside it are never touched, whatever is called, unless a
      sign-in commits over them. */
  lemma ForeignUntouched(c: Config, s: State, step: Step)
    requires Coherent(c, s) && Enabled(c, s, step) && Foreign(c, s.vault) && !SignsIn(s, step)
    ensures Next(c, s, step).vault.store == s.vault.store && Foreign(c, Next(c, s, step).vault)
  {
    assert s.vault.unsaved.Nothing?;
  }

  lemma {:induction false} ForeignStays(c: Config, states: seq<State>, steps: seq<Step>, i: nat, j: nat)
    requires Behavior(c, states, steps) && Initial(c, states[0]) && i <= j < |states| && Foreign(c, states[i].vault)
    requires forall k :: i <= k < j ==> !SignsIn(states[k], steps[k])
    ensures states[j].vault.store == states[i].vault.store && Foreign(c, states[j].vault)
  {
    if i < j {
      ForeignStays(c, states, steps, i, j - 1);
      RunIsCoherent(c, states, steps, j - 1);
      ForeignUntouched(c, states[j - 1], steps[j - 1]);
    }
  }

  /** A call over a record it cannot read leaves the name alone. */
  lemma UnreadableUntouched(c: Config, s: State, q: Query)
    requires Coherent(c, s) && s.marks.request.None? && s.vault.Logical().Unreadable?
    ensures FreshBegin(c, s, q).state.vault.store == s.vault.store
  {
    assert s.vault.unsaved.Nothing?;
  }

  lemma SessionKeepsHost(c: Config, v: Vault, m: Marks, r: Record, session: Session, q: Query)
    ensures FreshSession(c, v, m, r, session, q).state.vault.hostCached == v.hostCached
  {
  }

  /** A host id once read is not read again. */
  lemma HostIsKept(c: Config, s: State, q: Query)
    requires Coherent(c, s) && s.marks.request.None? && s.vault.hostFile && s.vault.HostAnswers(q.luck.host)
    ensures FreshBegin(c, s, q).state.vault.hostCached
  {
    var v := s.vault.CacheHost().Flush(c, q.flush);
    FlushSound(c, s.vault.CacheHost(), q.flush);
    var loaded := v.Load(q.luck.read);
    if loaded.Found? && loaded.record.session.Some? {
      SessionKeepsHost(c, v, s.marks, loaded.record, loaded.record.session.value, q);
    }
  }

  /** A process that dies leaves the store and the host-id file, and the next one remembers nothing else. */
  lemma CrashForgets(s: State)
    ensures var s' := Crash(s);
            && s'.vault.store == s.vault.store && s'.vault.hostFile == s.vault.hostFile
            && s'.vault.unsaved.Nothing? && !s'.vault.hostCached
            && s'.marks.control.None? && s'.marks.attempt.None? && s'.marks.request.None? && s'.marks.codeless.None?
            && s'.marks.rejectedAtMs.None? && s'.marks.transientAt.None? && s'.marks.log == []
  {
  }
}
