/**
 The trace speaks the truth: it is the store after each single operation, one slot at a time, so what
 holds at every point of it holds wherever the process dies.
 */
module SignInTrace {
  import opened Basics
  import opened SignInModel

  /** The point after `i` differs from it in one slot at most. */
  predicate OneSlot(trace: seq<Store>, i: int) {
    0 <= i < |trace| - 1 ==> trace[i + 1].token == trace[i].token || trace[i + 1].record == trace[i].record
  }

  /** The trace ends with the store, and no two neighbouring points differ in both slots. */
  ghost predicate Traced(v: Vault) {
    v.trace != [] && v.trace[|v.trace| - 1] == v.store && forall i :: OneSlot(v.trace, i)
  }

  lemma PutTraced(v: Vault, st: Store)
    requires Traced(v) && (st.token == v.store.token || st.record == v.store.record)
    ensures Traced(v.Put(st))
  {
    forall i ensures OneSlot(v.Put(st).trace, i) {
      assert OneSlot(v.trace, i);
    }
  }

  lemma WriteRecordTraced(v: Vault, r: Record, ok: bool)
    requires Traced(v)
    ensures Traced(v.WriteRecord(r, ok)) && Traced(v.PersistRecord(r, ok))
  {
    PutTraced(v, v.store.(record := Holds(r)));
  }

  lemma WriteTokenTraced(v: Vault, text: string, ok: bool)
    requires Traced(v)
    ensures Traced(v.WriteToken(text, ok))
  {
    PutTraced(v, v.store.(token := Token(text, true)));
  }

  lemma ClearTokenTraced(v: Vault, ok: bool)
    requires Traced(v)
    ensures Traced(v.ClearToken(ok))
  {
    PutTraced(v, v.store.(token := NoToken));
  }

  lemma RemovalTraced(c: Config, v: Vault, known: Option<Record>, l: Luck)
    requires Traced(v)
    ensures Traced(v.RemoveNames(c, known, l).0)
  {
    var v0 := v.CacheHost();
    if v0.store.record.Holds? {
      WriteRecordTraced(v0, v0.store.record.record.(session := None), true);
    }
    var v1 := if v0.store.record.Holds? && v0.store.record.record.session.Some?
              then v0.WriteRecord(v0.store.record.record.(session := None), true) else v0;
    ClearTokenTraced(v0, true);
    ClearTokenTraced(v1, true);
    PutTraced(v0, v0.store.(record := Empty));
    PutTraced(v1, v1.store.(record := Empty));
    PutTraced(v0.ClearToken(true), v0.ClearToken(true).store.(record := Empty));
    PutTraced(v1.ClearToken(true), v1.ClearToken(true).store.(record := Empty));
  }

  lemma FlushTraced(c: Config, v: Vault, l: Luck)
    requires Traced(v)
    ensures Traced(v.Flush(c, l))
  {
    match v.unsaved
    case Nothing =>
    case UnsavedRecord(r) => WriteRecordTraced(v, r, true);
    case UnsavedRemoval => RemovalTraced(c, v, None, l);
  }

  lemma RepairTraced(v: Vault, session: Session, l: Luck)
    requires Traced(v)
    ensures Traced(v.Repair(session, l))
  {
    WriteTokenTraced(v, session.accessToken, l.token);
  }

  lemma EndTraced(v: Vault, r: Record, l: Luck)
    requires Traced(v)
    ensures Traced(v.EndSession(r, l))
  {
    WriteRecordTraced(v, r.(session := None), l.record);
    ClearTokenTraced(v.PersistRecord(r.(session := None), l.record), l.clear);
  }

  lemma UnrenewableTraced(v: Vault, m: Marks, r: Record, session: Session, q: Query)
    requires Traced(v)
    ensures Traced(Unrenewable(v, m, r, session, q).state.vault)
  {
    EndTraced(v, r, q.again);
    RepairTraced(v, session, q.again);
  }

  lemma FreshSessionTraced(c: Config, v: Vault, m: Marks, r: Record, session: Session, q: Query)
    requires Traced(v)
    ensures Traced(FreshSession(c, v, m, r, session, q).state.vault)
  {
    RepairTraced(v, session, q.luck);
    var m1 := FreshRefusal(c, m, session, q);
    UnrenewableTraced(v, m1, r, session, q);
    UnrenewableTraced(v.Repair(session, q.luck), m1, r, session, q);
  }

  lemma FreshTraced(c: Config, s: State, q: Query)
    requires Traced(s.vault)
    ensures Traced(FreshBegin(c, s, q).state.vault)
  {
    var v := s.vault.CacheHost();
    FlushTraced(c, v, q.flush);
    var v1 := v.Flush(c, q.flush);
    ClearTokenTraced(v1, q.luck.clear);
    var loaded := v1.Load(q.luck.read);
    if loaded.Found? && loaded.record.session.Some? {
      FreshSessionTraced(c, v1, s.marks, loaded.record, loaded.record.session.value, q);
    }
  }

  lemma AnswerTraced(c: Config, s: State, a: Answer, now: U64, mono: nat, l: Luck)
    requires Traced(s.vault) && Enabled(c, s, AnswerStep(a, now, mono, l))
    ensures Traced(FreshEnd(c, s, a, now, mono, l).0.vault)
  {
    var Request(r, session) := s.marks.request.value;
    match a
    case Renewed(t) =>
      var r' := r.(session := Some(SessionFrom(c, t, Some(session), now)));
      WriteRecordTraced(s.vault, r', l.record);
      WriteTokenTraced(s.vault.PersistRecord(r', l.record), r'.session.value.accessToken, l.token);
    case Ended => EndTraced(s.vault, r, l);
    case ClientInvalid => RemovalTraced(c, s.vault, Some(r), l);
    case Lost => RepairTraced(s.vault, session, l);
  }

  lemma SignOutTraced(c: Config, v: Vault, m: Marks, l: Luck)
    requires Traced(v)
    ensures Traced(SignOutFlushed(c, v, m, l).0.vault)
  {
    var loaded := v.Load(l.read);
    var v1 := if v.HostAnswers(l.host) then v.CacheHost() else v;
    ClearTokenTraced(v1, l.clear);
    if loaded.Found? {
      var r := loaded.record.(session := None);
      WriteRecordTraced(v1, r, l.record);
      ClearTokenTraced(v1.PersistRecord(r, l.record), l.clear);
    }
  }

  lemma ForgetTraced(c: Config, v: Vault, l: Luck)
    requires Traced(v)
    ensures Traced(ForgetVault(c, v, l))
  {
    var v1 := if v.HostAnswers(l.host) then v.CacheHost() else v;
    match v.Load(l.read)
    case Found(r) => RemovalTraced(c, v1, Some(r), l);
    case Missing => RemovalTraced(c, v1, None, l);
    case Unreadable => ClearTokenTraced(v1, l.clear);
    case Failed =>
  }

  lemma CommitTraced(v: Vault, r: Record, l: Luck)
    requires Traced(v)
    ensures Traced(CommitVault(v, r, l))
  {
    WriteRecordTraced(v, r, true);
    if r.session.Some? {
      WriteTokenTraced(v.WriteRecord(r, true), r.session.value.accessToken, l.token);
    }
  }

  lemma AttemptTraced(c: Config, s: State, step: Step)
    requires Traced(s.vault) && Enabled(c, s, step)
    requires step.RetainStep? || step.DropDeadStep? || step.CodelessStep? || step.ModelsStep? || step.CommitStep?
    ensures Traced(Next(c, s, step).vault)
  {
    match step
    case RetainStep(id, l) => WriteRecordTraced(s.vault, Registration(c, id), l.record);
    case DropDeadStep(id, l) =>
      if s.vault.Load(l.read).Found? {
        RemovalTraced(c, s.vault, Some(s.vault.Load(l.read).record), l);
      }
    case CodelessStep(id, l) => RemovalTraced(c, s.vault, None, l);
    case ModelsStep(models, l) =>
      if s.vault.Load(l.read).Found? {
        WriteRecordTraced(s.vault, s.vault.Load(l.read).record.(models := models), l.record);
      }
    case CommitStep(g, r, l) => CommitTraced(s.vault, r, l);
  }

  lemma StepTraced(c: Config, s: State, step: Step)
    requires Traced(s.vault) && Enabled(c, s, step)
    ensures Traced(Next(c, s, step).vault)
  {
    match step
    case FreshStep(q) => FreshTraced(c, s, q);
    case AnswerStep(a, now, mono, l) => AnswerTraced(c, s, a, now, mono, l);
    case SignOutStep(f, l) =>
      FlushTraced(c, s.vault, f);
      SignOutTraced(c, s.vault.Flush(c, f), s.marks, l);
    case ForgetStep(l) => ForgetTraced(c, s.vault, l);
    case RetainStep(_, _) | DropDeadStep(_, _) | CodelessStep(_, _) | ModelsStep(_, _) | CommitStep(_, _, _) =>
      AttemptTraced(c, s, step);
    case _ => assert Next(c, s, step).vault.trace == s.vault.trace;
  }

  /** The trace of a run is the store after each single operation: it ends with the present store and
      never changes both slots at once. */
  lemma {:induction false} RunIsTraced(c: Config, states: seq<State>, steps: seq<Step>, i: nat)
    requires Behavior(c, states, steps) && i < |states|
    ensures Traced(states[i].vault)
  {
    if i > 0 {
      RunIsTraced(c, states, steps, i - 1);
      StepTraced(c, states[i - 1], steps[i - 1]);
    }
  }
}
