/**
 Custody of the access token: at every point a crash can expose, a token this module wrote is under
 the name only beside a record of this host that completed a sign-in. And the frame: a value this
 module did not write is never touched before a sign-in completes.
 */
module SignInCustody {
  import opened Basics
  import opened SignInModel
  import opened SignInCoherence

  predicate Claimed(c: Config, slot: RecordSlot) {
    slot.Holds? && ClaimsAccessToken(slot.record, Some(c.host))
  }

  /** The record this process sees claims the token. */
  predicate VisiblyClaimed(c: Config, v: Vault) {
    v.Logical().Found? && ClaimsAccessToken(v.Logical().record, Some(c.host))
  }

  predicate TokenOurs(st: Store) {
    st.token.Token? && st.token.ours
  }

  predicate Custody(c: Config, st: Store) {
    TokenOurs(st) ==> Claimed(c, st.record)
  }

  /** A store that keeps custody and that a process may start over. */
  predicate Startable(c: Config, st: Store) {
    Custody(c, st) && BackedSlot(c, st.record)
  }

  /** Custody now and at every earlier point; an unsaved record that claims the token shadows one that
      does, and one that does not shadows no token of this module. */
  ghost predicate Custodial(c: Config, v: Vault) {
    && (forall i :: 0 <= i < |v.trace| ==> Startable(c, v.trace[i]))
    && Custody(c, v.store)
    && (v.unsaved.UnsavedRecord? ==>
          if ClaimsAccessToken(v.unsaved.record, Some(c.host)) then Claimed(c, v.store.record)
          else !TokenOurs(v.store))
  }

  /** The one step outside the custody rule: a registration kept while the removal of a token of this
      module is pending. */
  predicate Orderly(s: State, step: Step) {
    step.RetainStep? ==> !(s.vault.unsaved.UnsavedRemoval? && TokenOurs(s.vault.store))
  }

  lemma RemoveNamesCustody(c: Config, v: Vault, known: Option<Record>, l: Luck)
    requires Sound(c, v) && Open(c, v) && Custodial(c, v.(unsaved := Nothing))
    ensures Custodial(c, v.RemoveNames(c, known, l).0.(unsaved := Nothing))
  {
  }

  lemma FlushCustody(c: Config, v: Vault, l: Luck)
    requires Sound(c, v) && Custodial(c, v)
    ensures Custodial(c, v.Flush(c, l))
  {
    if v.unsaved.UnsavedRemoval? {
      RemoveNamesCustody(c, v, None, l);
      RemoveNamesSound(c, v, None, l);
    }
  }

  lemma DropCustody(c: Config, v: Vault, known: Option<Record>, l: Luck)
    requires Sound(c, v) && Open(c, v) && Custodial(c, v)
    ensures Custodial(c, v.DropRegistration(c, known, l))
  {
    RemoveNamesCustody(c, v, known, l);
  }

  /** Writing a record that claims exactly what the visible one claims. */
  lemma PersistCustody(c: Config, v: Vault, r: Record, ok: bool)
    requires Custodial(c, v) && v.Logical().Found? && Backed(r)
    requires ClaimsAccessToken(r, Some(c.host)) <==> ClaimsAccessToken(v.Logical().record, Some(c.host))
    ensures Custodial(c, v.PersistRecord(r, ok))
    ensures ClaimsAccessToken(r, Some(c.host)) ==> Claimed(c, v.PersistRecord(r, ok).store.record)
  {
  }

  lemma EndSessionCustody(c: Config, v: Vault, r: Record, l: Luck)
    requires Sound(c, v) && Custodial(c, v) && v.Logical() == Found(r) && r.host == c.host && r.session.Some?
    ensures Custodial(c, v.EndSession(r, l))
  {
    OursIsOpen(c, v, true);
    PersistCustody(c, v, r.(session := None), l.record);
  }

  lemma RepairCustody(c: Config, v: Vault, session: Session, l: Luck)
    requires Sound(c, v) && Custodial(c, v) && VisiblyClaimed(c, v)
    ensures Custodial(c, v.Repair(session, l))
  {
  }

  lemma FreshSessionCustody(c: Config, v: Vault, m: Marks, r: Record, session: Session, q: Query)
    requires Sound(c, v) && Custodial(c, v)
    requires v.Logical() == Found(r) && r.host == c.host && r.session == Some(session)
    ensures Custodial(c, FreshSession(c, v, m, r, session, q).state.vault)
  {
    RepairCustody(c, v, session, q.luck);
    RepairSound(c, v, session, q.luck);
    var plan := Decide(c, m.rejectedAtMs, m.transientAt, session, q);
    if plan.Renew? && session.refreshToken.None? {
      var v1 := if plan.early then v.Repair(session, q.luck) else v;
      RepairCustody(c, v1, session, q.again);
      EndSessionCustody(c, v1, r, q.again);
    }
  }

  lemma FreshCustody(c: Config, s: State, q: Query)
    requires Coherent(c, s) && Custodial(c, s.vault)
    ensures Custodial(c, FreshBegin(c, s, q).state.vault)
  {
    if s.vault.HostAnswers(q.luck.host) {
      var v := s.vault.CacheHost();
      var v1 := v.Flush(c, q.flush);
      FlushSound(c, v, q.flush);
      FlushCustody(c, v, q.flush);
      var loaded := v1.Load(q.luck.read);
      if Ours(c, loaded) && v1.hostFile && loaded.record.session.Some? {
        FreshSessionCustody(c, v1, s.marks, loaded.record, loaded.record.session.value, q);
      }
    }
  }

  lemma AnswerCustody(c: Config, s: State, a: Answer, now: U64, mono: nat, l: Luck)
    requires Coherent(c, s) && Custodial(c, s.vault) && s.marks.request.Some?
    ensures Custodial(c, FreshEnd(c, s, a, now, mono, l).0.vault)
  {
    var Request(r, session) := s.marks.request.value;
    OursIsOpen(c, s.vault, true);
    match a
    case Renewed(t) =>
      PersistCustody(c, s.vault, r.(session := Some(SessionFrom(c, t, Some(session), now))), l.record);
    case Ended => EndSessionCustody(c, s.vault, r, l);
    case ClientInvalid => DropCustody(c, s.vault, Some(r), l);
    case Lost =>
      RepairCustody(c, s.vault, session, l);
  }

  lemma SignOutCustody(c: Config, v: Vault, m: Marks, l: Luck)
    requires Sound(c, v) && Custodial(c, v)
    ensures Custodial(c, SignOutFlushed(c, v, m, l).0.vault)
  {
    var loaded := v.Load(l.read);
    if loaded.Found? && Some(loaded.record.host) == v.Host(c) {
      OursIsOpen(c, v, l.read);
      PersistCustody(c, v.CacheHost(), loaded.record.(session := None), l.record);
    }
  }

  lemma ForgetCustody(c: Config, v: Vault, l: Luck)
    requires Sound(c, v) && Custodial(c, v)
    ensures Custodial(c, ForgetVault(c, v, l))
  {
    var v1 := if v.HostAnswers(l.host) then v.CacheHost() else v;
    if v.HostAnswers(l.host) && v.hostFile && Ours(c, v.Load(l.read)) {
      OursIsOpen(c, v, l.read);
      RemoveNamesCustody(c, v1, Some(v.Load(l.read).record), l);
    } else if v.unsaved.UnsavedRemoval? {
      RemoveNamesCustody(c, v1, None, l);
    }
  }

  lemma StepKeepsCustody(c: Config, s: State, step: Step)
    requires Coherent(c, s) && Custodial(c, s.vault) && Enabled(c, s, step) && Orderly(s, step)
    ensures Custodial(c, Next(c, s, step).vault)
  {
    match step
    case FreshStep(q) => FreshCustody(c, s, q);
    case AnswerStep(a, now, mono, l) => AnswerCustody(c, s, a, now, mono, l);
    case SignOutStep(f, l) =>
      FlushSound(c, s.vault, f);
      FlushCustody(c, s.vault, f);
      SignOutCustody(c, s.vault.Flush(c, f), s.marks, l);
    case ForgetStep(l) => ForgetCustody(c, s.vault, l);
    case DropDeadStep(id, l) =>
      if Ours(c, s.vault.Load(l.read)) {
        OursIsOpen(c, s.vault, l.read);
        DropCustody(c, s.vault, Some(s.vault.Load(l.read).record), l);
      }
    case CodelessStep(id, l) =>
      if Ours(c, s.vault.Load(l.read)) {
        OursIsOpen(c, s.vault, l.read);
        DropCustody(c, s.vault, None, l);
      }
    case _ =>
  }

  lemma {:induction false} RunKeepsCustody(c: Config, states: seq<State>, steps: seq<Step>, i: nat)
    requires Behavior(c, states, steps) && Initial(c, states[0]) && Custody(c, states[0].vault.store)
    requires forall k :: 0 <= k < |steps| ==> Orderly(states[k], steps[k])
    requires i < |states|
    ensures Custodial(c, states[i].vault)
  {
    if i > 0 {
      RunKeepsCustody(c, states, steps, i - 1);
      RunIsCoherent(c, states, steps, i - 1);
      StepKeepsCustody(c, states[i - 1], steps[i - 1]);
    }
  }

  /**
   Custody at every crash point: over every run that keeps no registration over a pending removal,
   with any writes and removals failing and any crashes between, after each single store operation
   a token this module wrote stands only beside a record of this host with an account or a session;
   and a process that starts over that store is again one these theorems speak of.
   */
  lemma CustodyAtEveryCrashPoint(c: Config, states: seq<State>, steps: seq<Step>, i: nat, k: nat)
    requires Behavior(c, states, steps) && Initial(c, states[0]) && Custody(c, states[0].vault.store)
    requires forall j :: 0 <= j < |steps| ==> Orderly(states[j], steps[j])
    requires i < |states| && k < |states[i].vault.trace|
    ensures Startable(c, states[i].vault.trace[k])
  {
    RunKeepsCustody(c, states, steps, i);
  }

  /**
   The excluded step, exactly: custody survives keeping a registration and whatever flush comes next if
   and only if no token of this module awaits a pending removal. A registration the store takes breaks
   it at once, one it refuses breaks it when a later call writes it.
   */
  lemma RetainKeepsCustodyIff(c: Config, s: State, clientId: string, l: Luck)
    requires Coherent(c, s) && Custodial(c, s.vault) && s.vault.hostCached
    ensures var v := RetainRegistration(c, s, clientId, l).vault;
            (Custody(c, v.store) && forall f: Luck :: Custody(c, v.Flush(c, f).store))
            <==> Orderly(s, RetainStep(clientId, l))
  {
    var v := RetainRegistration(c, s, clientId, l).vault;
    if Orderly(s, RetainStep(clientId, l)) {
      RetainCustody(c, s, clientId, l);
      forall f: Luck ensures Custody(c, v.Flush(c, f).store) {
        FlushCustody(c, v, f);
      }
    } else {
      assert !l.record ==> !Custody(c, v.Flush(c, AllTaken()).store);
    }
  }

  lemma RetainCustody(c: Config, s: State, clientId: string, l: Luck)
    requires Coherent(c, s) && Custodial(c, s.vault) && s.vault.hostCached && Orderly(s, RetainStep(clientId, l))
    ensures var v := RetainRegistration(c, s, clientId, l).vault;
            Sound(c, v) && Custodial(c, v)
  {
  }

  // ── the report of a sign-out ───────────────────────────────────────────────────────────────

  /** No session of this host, in memory or stored. */
  predicate NoSession(c: Config, v: Vault) {
    && !(Ours(c, v.Logical()) && v.Logical().record.session.Some?)
    && !(v.store.record.Holds? && v.store.record.record.host == c.host && v.store.record.record.session.Some?)
  }

  /** A sign-out that reports the name clear left no session of this host; and it left no token of this
      module if and only if there was none, or the record seen after the flush claims it. */
  lemma SignOutReportIff(c: Config, s: State, f: Luck, l: Luck)
    requires Coherent(c, s) && s.vault.hostFile
    ensures var (s', clear) := SignOut(c, s, f, l);
            var v := s.vault.Flush(c, f);
            clear ==>
              && NoSession(c, s'.vault)
              && (!TokenOurs(s'.vault.store) <==> !(TokenOurs(v.store) && !VisiblyClaimed(c, v)))
  {
    FlushSound(c, s.vault, f);
    FlushedReportIff(c, s.vault.Flush(c, f), s.marks, l);
  }

  lemma FlushedReportIff(c: Config, v: Vault, m: Marks, l: Luck)
    requires Sound(c, v) && v.hostFile
    ensures var (s', clear) := SignOutFlushed(c, v, m, l);
            clear ==>
              && NoSession(c, s'.vault)
              && (!TokenOurs(s'.vault.store) <==> !(TokenOurs(v.store) && !VisiblyClaimed(c, v)))
  {
  }

  /** In every run that keeps to the custody rule, a sign-out that reports the name clear left neither a
      session of this host nor a token of this module. */
  lemma SignOutReportIsTrue(c: Config, states: seq<State>, steps: seq<Step>, i: nat)
    requires Behavior(c, states, steps) && Initial(c, states[0]) && Custody(c, states[0].vault.store)
    requires forall k :: 0 <= k < |steps| ==> Orderly(states[k], steps[k])
    requires i < |steps| && steps[i].SignOutStep? && states[i].vault.hostFile
    ensures SignOut(c, states[i], steps[i].flush, steps[i].luck).1 ==>
              NoSession(c, states[i + 1].vault) && !TokenOurs(states[i + 1].vault.store)
  {
    var s, f, l := states[i], steps[i].flush, steps[i].luck;
    RunKeepsCustody(c, states, steps, i);
    RunIsCoherent(c, states, steps, i);
    FlushSound(c, s.vault, f);
    FlushCustody(c, s.vault, f);
    SignOutReportIff(c, s, f, l);
    if s.vault.Flush(c, f).unsaved.UnsavedRemoval? {
      PendingIsNotClear(c, s.vault.Flush(c, f), s.marks, l);
    }
  }

  lemma PendingIsNotClear(c: Config, v: Vault, m: Marks, l: Luck)
    requires v.unsaved.UnsavedRemoval?
    ensures !SignOutFlushed(c, v, m, l).1
  {
  }

  // ── what recovery takes ────────────────────────────────────────────────────────────────────

  predicate OnlyARegistrationWent(c: Config, before: Store, after: Store) {
    after.token == before.token && (after != before ==> !Claimed(c, before.record))
  }

  /** This ending is the one that drops the registration. */
  predicate Drops(c: Config, s: State, id: string, l: Luck) {
    && s.vault.Load(l.read).Found? && IsRegistrationOnly(c, s.vault.Load(l.read).record, id)
    && s.marks.codeless.Some? && s.marks.codeless.value.clientId == id
    && s.marks.codeless.value.count + 1 >= CODELESS_ENDINGS_BEFORE_DROP
  }

  /** The registration it drops is only in memory, the record stored beneath names an account, and the
      store lets the removal get as far as that record or the token. */
  predicate Overreaches(c: Config, s: State, id: string, l: Luck) {
    && Drops(c, s, id, l) && s.vault.unsaved.UnsavedRecord? && Claimed(c, s.vault.store.record) && l.read
    && (if s.vault.store.record.record.session.Some? then l.record
        else l.clear && (s.vault.store.token.Token? || l.remove))
  }

  lemma EndingTakesOnlyARegistrationIff(c: Config, s: State, id: string, l: Luck)
    requires Coherent(c, s) && s.vault.hostCached
    ensures OnlyARegistrationWent(c, s.vault.store, CountCodelessEnding(c, s, id, l).vault.store)
            <==> !Overreaches(c, s, id, l)
  {
  }

  /** In every run, the recovery rule leaves the token alone and takes no record with an account or a
      session, exactly unless the registration it drops is an unsaved one over such a record. */
  lemma RecoveryTakesOnlyARegistration(c: Config, states: seq<State>, steps: seq<Step>, i: nat)
    requires Behavior(c, states, steps) && Initial(c, states[0])
    requires i < |steps| && steps[i].CodelessStep?
    ensures OnlyARegistrationWent(c, states[i].vault.store, states[i + 1].vault.store)
            <==> !Overreaches(c, states[i], steps[i].clientId, steps[i].luck)
  {
    RunIsCoherent(c, states, steps, i);
    EndingTakesOnlyARegistrationIff(c, states[i], steps[i].clientId, steps[i].luck);
  }

  // ── the frame ──────────────────────────────────────────────────────────────────────────────

  /** No record claims the token and none is unreadable; the value under the name was `value` all
      along. */
  ghost predicate Unclaimed(c: Config, v: Vault, value: TokenSlot) {
    && !Claimed(c, v.store.record)
    && !v.store.record.Garbled?
    && (v.unsaved.UnsavedRecord? ==> !ClaimsAccessToken(v.unsaved.record, Some(c.host)))
    && v.store.token == value
    && forall i :: 0 <= i < |v.trace| ==> v.trace[i].token == value
  }

  lemma RemoveNamesUnclaimed(c: Config, v: Vault, known: Option<Record>, l: Luck, value: TokenSlot)
    requires Sound(c, v) && Unclaimed(c, v, value)
    requires known.Some? ==> !ClaimsAccessToken(known.value, Some(c.host))
    ensures Unclaimed(c, v.RemoveNames(c, known, l).0, value)
  {
  }

  lemma FlushUnclaimed(c: Config, v: Vault, l: Luck, value: TokenSlot)
    requires Sound(c, v) && Unclaimed(c, v, value)
    ensures Unclaimed(c, v.Flush(c, l), value)
  {
    RemoveNamesUnclaimed(c, v, None, l, value);
  }

  lemma ForgetUnclaimed(c: Config, v: Vault, l: Luck, value: TokenSlot)
    requires Sound(c, v) && Unclaimed(c, v, value)
    ensures Unclaimed(c, ForgetVault(c, v, l), value)
  {
    var v1 := if v.HostAnswers(l.host) then v.CacheHost() else v;
    RemoveNamesUnclaimed(c, v1, None, l, value);
    if v.Load(l.read).Found? {
      RemoveNamesUnclaimed(c, v1, Some(v.Load(l.read).record), l, value);
    }
  }

  lemma FreshFlushedUnclaimed(c: Config, v: Vault, m: Marks, q: Query, value: TokenSlot)
    requires Sound(c, v) && Unclaimed(c, v, value) && m.request.None?
    ensures var s' := FreshFlushed(c, v, m, q).state;
            Unclaimed(c, s'.vault, value) && s'.marks.request.None?
  {
  }

  lemma SignOutFlushedUnclaimed(c: Config, v: Vault, m: Marks, l: Luck, value: TokenSlot)
    requires Sound(c, v) && Unclaimed(c, v, value) && m.request.None?
    ensures var s' := SignOutFlushed(c, v, m, l).0;
            Unclaimed(c, s'.vault, value) && s'.marks.request.None?
  {
  }

  lemma StepKeepsUnclaimed(c: Config, s: State, step: Step, value: TokenSlot)
    requires Coherent(c, s) && Unclaimed(c, s.vault, value) && s.marks.request.None?
    requires Enabled(c, s, step) && !SignsIn(s, step)
    ensures Unclaimed(c, Next(c, s, step).vault, value) && Next(c, s, step).marks.request.None?
  {
    match step
    case FreshStep(q) =>
      if s.vault.HostAnswers(q.luck.host) {
        FlushSound(c, s.vault.CacheHost(), q.flush);
        FlushUnclaimed(c, s.vault.CacheHost(), q.flush, value);
        FreshFlushedUnclaimed(c, s.vault.CacheHost().Flush(c, q.flush), s.marks, q, value);
      }
    case SignOutStep(f, l) =>
      FlushSound(c, s.vault, f);
      FlushUnclaimed(c, s.vault, f, value);
      SignOutFlushedUnclaimed(c, s.vault.Flush(c, f), s.marks, l, value);
    case ForgetStep(l) => ForgetUnclaimed(c, s.vault, l, value);
    case DropDeadStep(id, l) =>
      if s.vault.Load(l.read).Found? {
        RemoveNamesUnclaimed(c, s.vault, Some(s.vault.Load(l.read).record), l, value);
      }
    case CodelessStep(id, l) => RemoveNamesUnclaimed(c, s.vault, None, l, value);
    case _ =>
  }

  /**
   The frame over whole runs: starting with no claiming and no unreadable record, no run without a
   completed sign-in changes or removes the value under the entry's name, at any point.
   */
  lemma {:induction false} ForeignValueUntouched(c: Config, states: seq<State>, steps: seq<Step>, i: nat)
    requires Behavior(c, states, steps) && Initial(c, states[0])
    requires !Claimed(c, states[0].vault.store.record) && !states[0].vault.store.record.Garbled?
    requires forall k :: 0 <= k < |steps| ==> !SignsIn(states[k], steps[k])
    requires i < |states|
    ensures Unclaimed(c, states[i].vault, states[0].vault.store.token) && states[i].marks.request.None?
  {
    if i > 0 {
      ForeignValueUntouched(c, states, steps, i - 1);
      RunIsCoherent(c, states, steps, i - 1);
      StepKeepsUnclaimed(c, states[i - 1], steps[i - 1], states[0].vault.store.token);
    }
  }
}
