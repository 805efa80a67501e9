/**
 What every step of a sign-in run keeps, whatever the store refuses: the in-memory override only
 ever shadows a record of this host, and a renewal in flight works on the record the process sees.
 */
module SignInCoherence {
  import opened Basics
  import opened SignInModel

  /** A record with a session names the account it belongs to (`commit` writes no other kind). */
  predicate Backed(r: Record) {
    r.session.Some? ==> r.subject.Some?
  }

  predicate OursOrEmpty(c: Config, slot: RecordSlot) {
    slot.Empty? || (slot.Holds? && slot.record.host == c.host)
  }

  predicate BackedSlot(c: Config, slot: RecordSlot) {
    slot.Holds? && slot.record.host == c.host ==> Backed(slot.record)
  }

  predicate Sound(c: Config, v: Vault) {
    && (v.hostCached ==> v.hostFile)
    && (v.unsaved != Nothing ==> v.hostCached && OursOrEmpty(c, v.store.record))
    && (v.unsaved.UnsavedRecord? ==> v.unsaved.record.host == c.host && Backed(v.unsaved.record))
    && BackedSlot(c, v.store.record)
  }

  /** This process knows its host id and no foreign record is under the name. */
  predicate Open(c: Config, v: Vault) {
    v.hostCached && OursOrEmpty(c, v.store.record)
  }

  predicate Linked(c: Config, s: State) {
    && (s.marks.control.Some? ==> s.marks.attempt.None?)
    && (s.marks.adopted ==> Open(c, s.vault))
    && (s.marks.request.Some? ==>
          var q := s.marks.request.value;
          && Open(c, s.vault)
          && s.vault.Logical() == Found(q.record)
          && q.record.host == c.host
          && q.record.session == Some(q.session)
          && q.session.refreshToken.Some?
          && HasScope(q.session, c.planScope))
  }

  predicate Coherent(c: Config, s: State) {
    Sound(c, s.vault) && Linked(c, s)
  }

  /** The start of a run: no record of this host holds a session without an account. */
  predicate Initial(c: Config, s: State) {
    Fresh(s) && BackedSlot(c, s.vault.store.record)
  }

  predicate Ours(c: Config, loaded: Loaded) {
    loaded.Found? && loaded.record.host == c.host
  }

  // ── the operations on the vault ────────────────────────────────────────────────────────────

  /** A record of this host that the process sees never shadows a foreign one. */
  lemma OursIsOpen(c: Config, v: Vault, ok: bool)
    requires Sound(c, v) && Ours(c, v.Load(ok))
    ensures OursOrEmpty(c, v.store.record) && Backed(v.Load(ok).record) && v.Logical() == v.Load(ok)
  {
  }

  lemma PersistSound(c: Config, v: Vault, r: Record, ok: bool)
    requires Sound(c, v) && Open(c, v) && r.host == c.host && Backed(r)
    ensures var v' := v.PersistRecord(r, ok);
            && Sound(c, v') && Open(c, v') && v'.Logical() == Found(r)
            && (if ok then v'.store.record == Holds(r) && v'.unsaved.Nothing? else v'.store == v.store)
            && v'.store.token == v.store.token
  {
  }

  lemma EndSessionSound(c: Config, v: Vault, r: Record, l: Luck)
    requires Sound(c, v) && Open(c, v) && r.host == c.host
    ensures var v' := v.EndSession(r, l);
            Sound(c, v') && Open(c, v') && v'.Logical() == Found(r.(session := None))
  {
    PersistSound(c, v, r.(session := None), l.record);
  }

  lemma RepairSound(c: Config, v: Vault, session: Session, l: Luck)
    requires Sound(c, v)
    ensures var v' := v.Repair(session, l);
            && Sound(c, v') && v'.store.record == v.store.record
            && v'.unsaved == v.unsaved && v'.hostCached == v.hostCached
  {
  }

  lemma RemoveNamesSound(c: Config, v: Vault, known: Option<Record>, l: Luck)
    requires Sound(c, v) && Open(c, v)
    ensures var (v', done) := v.RemoveNames(c, known, l);
            && Sound(c, v') && Open(c, v')
            && (done ==> v'.store.record.Empty?)
            && v'.unsaved == v.unsaved
  {
  }

  lemma DropSound(c: Config, v: Vault, known: Option<Record>, l: Luck)
    requires Sound(c, v) && Open(c, v)
    ensures var v' := v.DropRegistration(c, known, l);
            Sound(c, v') && Open(c, v') && v'.Logical() == Missing
  {
    RemoveNamesSound(c, v, known, l);
  }

  /** `flush_unsaved` never changes what the process reads. */
  lemma FlushSound(c: Config, v: Vault, l: Luck)
    requires Sound(c, v)
    ensures var v' := v.Flush(c, l);
            && Sound(c, v') && v'.Logical() == v.Logical() && v'.hostFile == v.hostFile
            && (v.hostCached ==> v'.hostCached)
            && (OursOrEmpty(c, v.store.record) ==> OursOrEmpty(c, v'.store.record))
  {
    if v.unsaved.UnsavedRemoval? {
      RemoveNamesSound(c, v, None, l);
    }
  }

  lemma ForgetSound(c: Config, v: Vault, l: Luck)
    requires Sound(c, v)
    ensures var v' := ForgetVault(c, v, l);
            && Sound(c, v')
            && (Open(c, v) ==> Open(c, v'))
            && v'.Logical() == (if v.HostAnswers(l.host) && v.hostFile && Ours(c, v.Load(l.read)) then Missing
                                else v.Logical())
  {
    var v1 := if v.HostAnswers(l.host) then v.CacheHost() else v;
    if v.HostAnswers(l.host) && v.hostFile && Ours(c, v.Load(l.read)) {
      OursIsOpen(c, v, l.read);
      RemoveNamesSound(c, v1, Some(v.Load(l.read).record), l);
    } else if v.unsaved.UnsavedRemoval? {
      RemoveNamesSound(c, v1, None, l);
    }
  }

  lemma DropDeadSound(c: Config, v: Vault, id: string, l: Luck)
    requires Sound(c, v) && v.hostCached
    ensures var v' := DropDeadRegistration(c, v, id, l);
            && Sound(c, v')
            && (Open(c, v) ==> Open(c, v'))
            && v'.Logical() == (if Ours(c, v.Load(l.read)) && v.Load(l.read).record.clientId == id then Missing
                                else v.Logical())
  {
    if Ours(c, v.Load(l.read)) {
      OursIsOpen(c, v, l.read);
      DropSound(c, v, Some(v.Load(l.read).record), l);
    }
  }

  lemma SignOutLoadedSound(c: Config, v: Vault, loaded: Loaded, host: Option<string>, l: Luck)
    requires Sound(c, v) && (loaded.Found? ==> Ours(c, loaded) && loaded == v.Logical() && v.hostCached)
    ensures var v' := SignOutLoaded(v, loaded, host, l).0;
            && Sound(c, v')
            && (Open(c, v) ==> Open(c, v'))
            && v'.Logical() == (if loaded.Found? then Found(loaded.record.(session := None)) else v.Logical())
  {
    if loaded.Found? {
      OursIsOpen(c, v, true);
      PersistSound(c, v, loaded.record.(session := None), l.record);
    }
  }

  // ── the steps ──────────────────────────────────────────────────────────────────────────────

  lemma SignOutCoherent(c: Config, v: Vault, m: Marks, l: Luck)
    requires Coherent(c, State(v, m)) && m.request.None?
    ensures var s' := SignOutFlushed(c, v, m, l).0;
            && Coherent(c, s')
            && s'.vault.Logical() == (if v.HostAnswers(l.host) && v.hostFile && Ours(c, v.Load(l.read))
                                      then Found(v.Load(l.read).record.(session := None)) else v.Logical())
  {
    var loaded := v.Load(l.read);
    if v.HostAnswers(l.host) && !(loaded.Found? && Some(loaded.record.host) != v.Host(c)) {
      SignOutLoadedSound(c, v.CacheHost(), loaded, v.Host(c), l);
    }
  }

  lemma UnrenewableCoherent(c: Config, v: Vault, m: Marks, r: Record, session: Session, q: Query)
    requires Coherent(c, State(v, m)) && m.request.None? && Open(c, v)
    requires v.Logical() == Found(r) && r.host == c.host
    ensures var s' := Unrenewable(v, m, r, session, q).state;
            && Coherent(c, s')
            && s'.vault.Logical() == Found(if q.nowLate >= session.expiresAtMs then r.(session := None) else r)
  {
    EndSessionSound(c, v, r, q.again);
    RepairSound(c, v, session, q.again);
  }

  /** `fresh_locked` ends a session before any request only when it cannot be renewed and ran out. */
  predicate RunsOut(c: Config, m: Marks, session: Session, q: Query) {
    && Decide(c, m.rejectedAtMs, m.transientAt, session, q).Renew?
    && session.refreshToken.None?
    && q.nowLate >= session.expiresAtMs
  }

  lemma FreshSessionCoherent(c: Config, v: Vault, m: Marks, r: Record, session: Session, q: Query)
    requires Coherent(c, State(v, m)) && m.request.None? && v.hostCached
    requires v.Logical() == Found(r) && r.host == c.host && r.session == Some(session)
    ensures var s' := FreshSession(c, v, m, r, session, q).state;
            && Coherent(c, s')
            && s'.vault.Logical() == Found(if RunsOut(c, m, session, q) then r.(session := None) else r)
  {
    OursIsOpen(c, v, true);
    RepairSound(c, v, session, q.luck);
    var plan := Decide(c, m.rejectedAtMs, m.transientAt, session, q);
    if plan.Renew? && session.refreshToken.None? {
      var v1 := if plan.early then v.Repair(session, q.luck) else v;
      UnrenewableCoherent(c, v1, FreshRefusal(c, m, session, q), r, session, q);
    }
  }

  predicate FreshCuts(c: Config, v: Vault, m: Marks, loaded: Loaded, q: Query) {
    v.hostFile && Ours(c, loaded) && loaded.record.session.Some? && RunsOut(c, m, loaded.record.session.value, q)
  }

  lemma FreshFlushedCoherent(c: Config, v: Vault, m: Marks, q: Query)
    requires Coherent(c, State(v, m)) && m.request.None? && (v.hostFile ==> v.hostCached)
    ensures var s' := FreshFlushed(c, v, m, q).state;
            var loaded := v.Load(q.luck.read);
            && Coherent(c, s')
            && s'.vault.Logical() == (if FreshCuts(c, v, m, loaded, q) then Found(loaded.record.(session := None))
                                      else v.Logical())
  {
    var loaded := v.Load(q.luck.read);
    if Ours(c, loaded) && v.hostFile && loaded.record.session.Some? {
      FreshSessionCoherent(c, v, m, loaded.record, loaded.record.session.value, q);
    }
  }

  lemma FreshCoherent(c: Config, s: State, q: Query)
    requires Coherent(c, s) && s.marks.request.None?
    ensures Coherent(c, FreshBegin(c, s, q).state)
  {
    if s.vault.HostAnswers(q.luck.host) {
      var v := s.vault.CacheHost();
      FlushSound(c, v, q.flush);
      FreshFlushedCoherent(c, v.Flush(c, q.flush), s.marks, q);
    }
  }

  lemma RenewalCoherent(c: Config, v: Vault, m: Marks, r: Record, renewed: Session, done: Event, l: Luck)
    requires Sound(c, v) && Open(c, v) && m.request.None? && (m.control.Some? ==> m.attempt.None?)
    requires r.host == c.host && r.subject.Some?
    ensures var s' := Renewal(c, v, m, r, renewed, done, l).0;
            Coherent(c, s') && s'.vault.Logical() == Found(r.(session := Some(renewed)))
  {
    PersistSound(c, v, r.(session := Some(renewed)), l.record);
  }

  lemma AnswerCoherent(c: Config, s: State, a: Answer, now: U64, mono: nat, l: Luck)
    requires Coherent(c, s) && s.marks.request.Some?
    ensures Coherent(c, FreshEnd(c, s, a, now, mono, l).0)
  {
    var Request(r, session) := s.marks.request.value;
    OursIsOpen(c, s.vault, true);
    match a
    case Renewed(t) =>
      RenewalCoherent(c, s.vault, s.marks.(request := None), r, SessionFrom(c, t, Some(session), now),
                      RenewalDone(session.refreshToken.value, Replaces(t, session.refreshToken.value)), l);
    case Ended => EndSessionSound(c, s.vault, r, l);
    case ClientInvalid => DropSound(c, s.vault, Some(r), l);
    case Lost => RepairSound(c, s.vault, session, l);
  }

  lemma CodelessCoherent(c: Config, s: State, id: string, l: Luck)
    requires Coherent(c, s) && s.marks.request.None? && s.vault.hostCached
    ensures Coherent(c, CountCodelessEnding(c, s, id, l))
  {
    if Ours(c, s.vault.Load(l.read)) {
      OursIsOpen(c, s.vault, l.read);
      DropSound(c, s.vault, None, l);
    }
  }

  lemma StepKeepsCoherent(c: Config, s: State, step: Step)
    requires Coherent(c, s) && Enabled(c, s, step)
    ensures Coherent(c, Next(c, s, step))
  {
    match step
    case FreshStep(q) => FreshCoherent(c, s, q);
    case AnswerStep(a, now, mono, l) => AnswerCoherent(c, s, a, now, mono, l);
    case SignOutStep(f, l) =>
      FlushSound(c, s.vault, f);
      SignOutCoherent(c, s.vault.Flush(c, f), s.marks, l);
    case ForgetStep(l) => ForgetSound(c, s.vault, l);
    case DropDeadStep(id, l) => DropDeadSound(c, s.vault, id, l);
    case CodelessStep(id, l) => CodelessCoherent(c, s, id, l);
    case _ =>
  }

  /** Every state of every run is coherent. */
  lemma {:induction false} RunIsCoherent(c: Config, states: seq<State>, steps: seq<Step>, i: nat)
    requires Behavior(c, states, steps) && Initial(c, states[0]) && i < |states|
    ensures Coherent(c, states[i])
  {
    if i > 0 {
      RunIsCoherent(c, states, steps, i - 1);
      StepKeepsCoherent(c, states[i - 1], steps[i - 1]);
    }
  }
}
