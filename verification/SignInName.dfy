/**
 The sign-in of one secret name as the program runs it: an object whose fields are changed in place,
 operation by operation. Every method leaves exactly the state the model gives for its operation; the
 calls a user of the sign-in makes, and what they can rely on, are in `SignInPort`.
 */
module SignInName {
  import opened Basics
  import opened SignInModel

  class NameState {
    const config: Config

    // The store's two slots and the host-id file.
    var hostFile: bool
    var token: TokenSlot
    var record: RecordSlot

    // The per-name state in memory.
    var hostCached: bool
    var unsaved: Unsaved
    var control: Option<Control>
    var attempt: Option<nat>
    var generation: nat
    var rejectedAtMs: Option<U64>
    var transientAt: Option<nat>
    var codeless: Option<Codeless>
    var request: Option<Request>

    ghost var adopted: bool
    ghost var clock: nat
    ghost var trace: seq<Store>
    ghost var log: seq<Event>

    ghost function VaultView(): Vault
      reads this
    {
      Vault(hostFile, hostCached, Store(token, record), unsaved, trace)
    }

    ghost function MarksView(): Marks
      reads this
    {
      Marks(control, attempt, generation, rejectedAtMs, transientAt, codeless, request, adopted, clock, log)
    }

    ghost function View(): State
      reads this
    {
      State(VaultView(), MarksView())
    }

    /** A process starts over what the store holds. */
    constructor (c: Config, hostFile: bool, store: Store)
      ensures Fresh(View()) && config == c && View().vault.store == store && View().vault.hostFile == hostFile
    {
      config := c;
      this.hostFile := hostFile;
      token, record := store.token, store.record;
      hostCached, unsaved := false, Nothing;
      control, attempt, generation, rejectedAtMs, transientAt := None, None, 0, None, None;
      codeless, request := None, None;
      adopted, clock, trace, log := false, 0, [store], [];
    }

    // ── single store operations ──────────────────────────────────────────────────────────────

    method WriteRecord(r: Record, ok: bool)
      modifies this`record, this`trace
      ensures VaultView() == old(VaultView()).WriteRecord(r, ok)
    {
      if ok {
        record := Holds(r);
        trace := trace + [Store(token, record)];
      }
    }

    method WriteToken(text: string, ok: bool)
      modifies this`token, this`trace
      ensures VaultView() == old(VaultView()).WriteToken(text, ok)
    {
      if ok {
        token := Token(text, true);
        trace := trace + [Store(token, record)];
      }
    }

    method ClearAccessToken(ok: bool)
      modifies this`token, this`trace
      ensures VaultView() == old(VaultView()).ClearToken(ok)
    {
      if ok {
        token := NoToken;
        trace := trace + [Store(token, record)];
      }
    }

    method RemoveRecord(ok: bool)
      modifies this`record, this`trace
      ensures VaultView() == old(VaultView()).RemoveRecord(ok)
    {
      if ok {
        record := Empty;
        trace := trace + [Store(token, record)];
      }
    }

    // ── reading ──────────────────────────────────────────────────────────────────────────────

    method ReadStored(ok: bool) returns (loaded: Loaded)
      ensures loaded == VaultView().ReadStored(ok)
    {
      if !ok { return Failed; }
      match record {
        case Empty => loaded := Missing;
        case Garbled => loaded := Unreadable;
        case Holds(r) => loaded := Found(r);
      }
    }

    method LoadRecord(ok: bool) returns (loaded: Loaded)
      ensures loaded == VaultView().Load(ok)
    {
      match unsaved {
        case UnsavedRecord(r) => return Found(r);
        case UnsavedRemoval => return Missing;
        case Nothing =>
      }
      loaded := ReadStored(ok);
    }

    /** The host id when it can be read; the first reading that finds one is kept. */
    method CurrentHostId(ok: bool) returns (answers: bool, host: Option<string>)
      modifies this`hostCached
      ensures answers == old(VaultView()).HostAnswers(ok)
      ensures answers ==> host == VaultView().Host(config)
      ensures VaultView() == if answers then old(VaultView()).CacheHost() else old(VaultView())
    {
      if hostCached || ok {
        if hostFile {
          hostCached := true;
          return true, Some(config.host);
        }
        return true, None;
      }
      return false, None;
    }

    // ── record and token custody ─────────────────────────────────────────────────────────────

    method PersistRecord(r: Record, ok: bool) returns (written: bool)
      modifies this`record, this`trace, this`unsaved
      ensures VaultView() == old(VaultView()).PersistRecord(r, ok) && written == ok
    {
      WriteRecord(r, ok);
      unsaved := if ok then Nothing else UnsavedRecord(r);
      written := ok;
    }

    method RemoveLeftoverToken(l: Luck)
      modifies this`token, this`trace
      ensures VaultView() == old(VaultView()).RemoveLeftoverToken(l)
    {
      if !(l.peek && token.NoToken?) {
        ClearAccessToken(l.clear);
      }
    }

    method RemoveNames(known: Option<Record>, l: Luck) returns (done: bool)
      modifies this`token, this`record, this`trace, this`hostCached
      ensures (VaultView(), done) == old(VaultView()).RemoveNames(config, known, l)
    {
      var answers, host := CurrentHostId(l.host);
      if !answers { return false; }
      var loaded := ReadStored(l.read);
      if loaded.Failed? { return false; }
      var mine := loaded.Found? && Some(loaded.record.host) == host;
      var ours := known.Some? && ClaimsAccessToken(known.value, host);
      if mine && ClaimsAccessToken(loaded.record, host) {
        ours := true;
      }
      if mine && loaded.record.session.Some? {
        WriteRecord(loaded.record.(session := None), l.record);
        if !l.record { return false; }
      }
      if ours {
        ClearAccessToken(l.clear);
        if !l.clear { return false; }
      }
      if mine {
        RemoveRecord(l.remove);
        return l.remove;
      }
      return true;
    }

    method DropRegistration(known: Option<Record>, l: Luck)
      modifies this`token, this`record, this`trace, this`hostCached, this`unsaved
      ensures VaultView() == old(VaultView()).DropRegistration(config, known, l)
    {
      var done := RemoveNames(known, l);
      unsaved := if done then Nothing else UnsavedRemoval;
    }

    method FlushUnsaved(l: Luck)
      modifies this`token, this`record, this`trace, this`hostCached, this`unsaved
      ensures VaultView() == old(VaultView()).Flush(config, l)
    {
      var done: bool;
      match unsaved {
        case Nothing => return;
        case UnsavedRecord(r) =>
          WriteRecord(r, l.record);
          done := l.record;
        case UnsavedRemoval =>
          done := RemoveNames(None, l);
      }
      if done {
        unsaved := Nothing;
      }
    }

    method Repair(session: Session, l: Luck) returns (o: Outcome)
      modifies this`token, this`trace
      ensures VaultView() == old(VaultView()).Repair(session, l)
      ensures o == old(VaultView()).RepairOutcome(session, l)
    {
      if l.peek && token.Token? && token.text == session.accessToken { return Ok; }
      WriteToken(session.accessToken, l.token);
      return if l.token then Ok else Err(Unavailable);
    }

    method EndSession(r: Record, l: Luck, ghost e: Event)
      modifies this
      ensures View() == State(old(VaultView()).EndSession(r, l), old(MarksView()).Rested().Note(e))
    {
      var _ := PersistRecord(r.(session := None), l.record);
      ClearAccessToken(l.clear);
      Rest(e);
    }

    /** The marks of refusals and failures go. */
    method Rest(ghost e: Event)
      modifies this`rejectedAtMs, this`transientAt, this`log
      ensures MarksView() == old(MarksView()).Rested().Note(e)
    {
      rejectedAtMs, transientAt := None, None;
      log := log + [e];
    }

    method NoteTransient(mono: nat)
      modifies this`transientAt, this`clock, this`log
      ensures MarksView() == old(MarksView()).(transientAt := Some(mono), clock := mono).Note(TransientFailure(mono))
    {
      transientAt, clock := Some(mono), mono;
      log := log + [TransientFailure(mono)];
    }

    // ── renewal ──────────────────────────────────────────────────────────────────────────────

    method MarkRejected(now: U64)
      modifies this`rejectedAtMs
      ensures MarksView() == old(MarksView()).(rejectedAtMs := Some(now))
    {
      rejectedAtMs := Some(now);
    }

    method RejectionApplies(session: Session) returns (applies: bool)
      modifies this`rejectedAtMs
      ensures applies == RefusalConcerns(config, old(rejectedAtMs), session)
      ensures rejectedAtMs == if applies then old(rejectedAtMs) else None
    {
      applies := RefusalConcerns(config, rejectedAtMs, session);
      if !applies {
        rejectedAtMs := None;
      }
    }

    method Answer(o: Outcome) returns (outcome: Option<Outcome>)
      modifies this`adopted
      ensures outcome == Some(o) && adopted == (old(adopted) || o.Ok?)
    {
      adopted := adopted || o.Ok?;
      outcome := Some(o);
    }

    /** `fresh_locked` up to its token request; None when the request is on its way. */
    method FreshLocked(q: Query) returns (outcome: Option<Outcome>, usable: bool)
      requires request.None?
      modifies this
      ensures Begun(View(), outcome, usable) == FreshBegin(config, old(View()), q)
    {
      usable := false;
      var answers, host := CurrentHostId(q.luck.host);
      if !answers {
        outcome := Answer(Err(Unavailable));
        return;
      }
      FlushUnsaved(q.flush);
      outcome, usable := FreshFlushed(host, q);
    }

    method FreshFlushed(host: Option<string>, q: Query) returns (outcome: Option<Outcome>, usable: bool)
      requires request.None? && host == VaultView().Host(config)
      modifies this
      ensures Begun(View(), outcome, usable)
           == SignInModel.FreshFlushed(config, old(VaultView()), old(MarksView()), q)
    {
      usable := false;
      var loaded := LoadRecord(q.luck.read);
      if loaded.Failed? {
        outcome := Answer(Err(Unavailable));
      } else if !loaded.Found? || Some(loaded.record.host) != host {
        outcome := Answer(Err(NotSignedIn));
      } else if loaded.record.session.None? {
        if ClaimsAccessToken(loaded.record, host) {
          RemoveLeftoverToken(q.luck);
        }
        outcome := Answer(Err(NotSignedIn));
      } else {
        outcome, usable := FreshWithSession(loaded.record, loaded.record.session.value, q);
      }
    }

    method FreshWithSession(r: Record, session: Session, q: Query) returns (outcome: Option<Outcome>, usable: bool)
      requires request.None?
      modifies this
      ensures Begun(View(), outcome, usable) == FreshSession(config, old(VaultView()), old(MarksView()), r, session, q)
    {
      usable := false;
      if !HasScope(session, config.planScope) {
        outcome := Answer(Err(NotAuthorized));
        return;
      }
      var rejected := q.force;
      if !rejected {
        rejected := RejectionApplies(session);
      }
      var due := SatAdd(q.now, MillisU64(config.renewBefore)) >= session.expiresAtMs;
      var valid := q.now < session.expiresAtMs;
      var tooEarly := valid && session.earliestRefreshAtMs.Some? && session.earliestRefreshAtMs.value > q.now;
      var cooling := !q.force && CoolingDown(config, transientAt, q.mono);
      if (!rejected && (!due || tooEarly)) || (cooling && valid) {
        outcome := ServeStored(session, q.luck);
        return;
      }
      if cooling {
        outcome := Answer(Err(RefreshUnavailable));
        return;
      }
      var early := !rejected && WorksFor(q.nowWorks, session, DurationSum(config.renewalWait, config.dispatchMargin));
      outcome, usable := StartRenewal(r, session, q, early, due);
    }

    method ServeStored(session: Session, l: Luck) returns (outcome: Option<Outcome>)
      modifies this`token, this`trace, this`adopted
      ensures Begun(View(), outcome, false) == Repaired(old(VaultView()), old(MarksView()), session, l)
    {
      var o := Repair(session, l);
      outcome := Answer(o);
    }

    method StartRenewal(r: Record, session: Session, q: Query, early: bool, ghost due: bool)
      returns (outcome: Option<Outcome>, usable: bool)
      modifies this
      ensures Begun(View(), outcome, usable)
              == FreshRenewal(old(VaultView()), old(MarksView()), r, session, q, early, due)
    {
      usable := false;
      if early {
        var o := Repair(session, q.luck);
        usable := o.Ok?;
      }
      if session.refreshToken.None? {
        outcome := Unrenewable(r, session, q);
        return;
      }
      SendRenewal(r, session, q, due);
      outcome := None;
    }

    method Unrenewable(r: Record, session: Session, q: Query) returns (outcome: Option<Outcome>)
      modifies this
      ensures Begun(View(), outcome, false)
           == SignInModel.Unrenewable(old(VaultView()), old(MarksView()), r, session, q)
    {
      if q.nowLate >= session.expiresAtMs {
        EndSession(r, q.again, SessionExpired);
        outcome := Answer(Err(NotSignedIn));
      } else {
        var o := Repair(session, q.again);
        outcome := Answer(o);
      }
    }

    /** The token request leaves; the session lock stays held until it is answered. */
    method SendRenewal(r: Record, session: Session, q: Query, ghost due: bool)
      requires session.refreshToken.Some?
      modifies this`request, this`clock, this`log
      ensures View() == State(old(VaultView()), Send(old(MarksView()), r, session, q, due))
    {
      request := Some(Request(r, session));
      clock := q.mono;
      log := log + [RenewalSent(session.refreshToken.value, q.mono, q.force, due, rejectedAtMs, session.savedAtMs)];
    }

    /** `fresh_locked` from the answer of its token request on. */
    method RenewalAnswered(answer: Answer, now: U64, mono: nat, l: Luck) returns (o: Outcome)
      requires request.Some? && request.value.session.refreshToken.Some?
      modifies this
      ensures (View(), o) == FreshEnd(config, old(View()), answer, now, mono, l)
    {
      var r, session := request.value.record, request.value.session;
      ghost var refresh := session.refreshToken.value;
      request := None;
      match answer {
        case Renewed(t) =>
          var renewed := SessionFrom(config, t, Some(session), now);
          o := KeepRenewed(r, renewed, RenewalDone(refresh, Replaces(t, refresh)), l);
        case Ended =>
          EndSession(r, l, RefreshRefused(refresh));
          o := Err(NotSignedIn);
        case ClientInvalid =>
          RegistrationRefused(r, refresh, l);
          o := Err(NotSignedIn);
        case Lost => o := RenewalLost(session, now, mono, l);
      }
    }

    /** The registration itself is gone. */
    method RegistrationRefused(r: Record, ghost refresh: string, l: Luck)
      modifies this
      ensures View() == State(old(VaultView()).DropRegistration(config, Some(r), l),
                              old(MarksView()).Rested().Note(RefreshRefused(refresh)))
    {
      DropRegistration(Some(r), l);
      Rest(RefreshRefused(refresh));
    }

    method RenewalLost(session: Session, now: U64, mono: nat, l: Luck) returns (o: Outcome)
      modifies this
      ensures (View(), o) == SignInModel.RenewalLost(old(VaultView()), old(MarksView()), session, now, mono, l)
    {
      NoteTransient(mono);
      o := Err(RefreshUnavailable);
      if now < session.expiresAtMs {
        o := Repair(session, l);
        adopted := adopted || o.Ok?;
      }
    }

    method KeepRenewed(r: Record, renewed: Session, ghost done: Event, l: Luck) returns (o: Outcome)
      modifies this
      ensures (View(), o) == Renewal(config, old(VaultView()), old(MarksView()), r, renewed, done, l)
    {
      var plan := HasScope(renewed, config.planScope);
      var _ := PersistRecord(r.(session := Some(renewed)), l.record);
      WriteToken(renewed.accessToken, l.token);
      Rest(done);
      if !l.token { return Err(Unavailable); }
      if !plan { return Err(NotAuthorized); }
      adopted := true;
      return Ok;
    }

    method KeepModels(models: seq<string>, l: Luck)
      modifies this`record, this`trace, this`unsaved
      ensures VaultView() == SignInModel.KeepModels(old(VaultView()), models, l)
    {
      var loaded := LoadRecord(l.read);
      if loaded.Found? && loaded.record.session.Some? {
        var _ := PersistRecord(loaded.record.(models := models), l.record);
      }
    }

    // ── sign-out and forget ──────────────────────────────────────────────────────────────────

    method SignOut(flush: Luck, l: Luck) returns (signedOut: bool)
      modifies this
      ensures (View(), signedOut) == SignInModel.SignOut(config, old(View()), flush, l)
    {
      FlushUnsaved(flush);
      signedOut := SignOutFlushed(l);
    }

    method SignOutFlushed(l: Luck) returns (signedOut: bool)
      modifies this
      ensures (View(), signedOut) == SignInModel.SignOutFlushed(config, old(VaultView()), old(MarksView()), l)
    {
      var loaded := LoadRecord(l.read);
      var answers, host := CurrentHostId(l.host);
      if loaded.Failed? || !answers { return false; }
      if loaded.Found? && Some(loaded.record.host) != host { return true; }
      signedOut := SignOutLoaded(loaded, host, l);
      Rest(SignedOut);
    }

    method SignOutLoaded(loaded: Loaded, host: Option<string>, l: Luck) returns (signedOut: bool)
      modifies this`token, this`record, this`trace, this`unsaved
      ensures (VaultView(), signedOut) == SignInModel.SignOutLoaded(old(VaultView()), loaded, host, l)
    {
      match loaded {
        case Found(r) =>
          var claims := ClaimsAccessToken(r, host);
          var written := PersistRecord(r.(session := None), l.record);
          if claims {
            ClearAccessToken(l.clear);
          }
          signedOut := written && (!claims || l.clear);
        case Missing => signedOut := !unsaved.UnsavedRemoval?;
        case _ =>
          ClearAccessToken(l.clear);
          signedOut := false;
      }
    }

    method Forget(l: Luck)
      modifies this
      ensures View() == SignInModel.Forget(config, old(View()), l)
    {
      ForgetRecord(l);
      attempt, codeless := None, None;
      Rest(Forgotten);
    }

    method ForgetRecord(l: Luck)
      modifies this`token, this`record, this`trace, this`hostCached, this`unsaved
      ensures VaultView() == ForgetVault(config, old(VaultView()), l)
    {
      var loaded := LoadRecord(l.read);
      var answers, host := CurrentHostId(l.host);
      var complete := true;
      if answers {
        match loaded {
          case Found(r) =>
            if Some(r.host) == host {
              complete := RemoveNames(Some(r), l);
            }
          case Missing =>
            if unsaved.UnsavedRemoval? {
              complete := RemoveNames(None, l);
            }
          case Unreadable => ClearAccessToken(l.clear);
          case Failed =>
        }
      }
      unsaved := if complete then Nothing else UnsavedRemoval;
    }

    // ── browser attempts ─────────────────────────────────────────────────────────────────────

    method StopAttempt()
      modifies this`attempt, this`log
      ensures MarksView() == SignInModel.StopAttempt(old(MarksView()))
    {
      attempt := None;
      log := log + [AttemptStopped];
    }

    /** The control lock is taken and whatever attempt runs is stopped. */
    method TakeControl(holder: Control)
      requires control.None?
      modifies this`control, this`attempt, this`log
      ensures MarksView() == SignInModel.StopAttempt(old(MarksView())).(control := Some(holder))
    {
      control := Some(holder);
      StopAttempt();
    }

    method ReleaseControl()
      modifies this`control
      ensures MarksView() == old(MarksView()).(control := None)
    {
      control := None;
    }

    /** A new generation takes the slot. */
    method InstallAttempt(g: nat)
      modifies this`attempt, this`generation, this`log
      ensures MarksView() == SignInModel.InstallAttempt(old(MarksView()), g)
    {
      attempt, generation := Some(g), g;
      log := log + [AttemptStarted(g)];
    }

    method EndAttempt(g: nat) returns (ended: bool)
      modifies this`attempt, this`log
      ensures MarksView() == SignInModel.EndAttempt(old(MarksView()), g)
      ensures ended == (old(attempt) == Some(g))
    {
      ended := attempt == Some(g);
      if ended {
        attempt := None;
        log := log + [AttemptEnded(g)];
      }
    }

    method RetainRegistration(clientId: string, l: Luck)
      modifies this
      ensures View() == SignInModel.RetainRegistration(config, old(View()), clientId, l)
    {
      var loaded := LoadRecord(l.read);
      if loaded.Missing? {
        var _ := PersistRecord(Record(config.issuer, clientId, None, config.host, None, []), l.record);
        codeless := None;
        log := log + [RegistrationKept];
      }
    }

    method DropDeadRegistration(clientId: string, l: Luck)
      modifies this`token, this`record, this`trace, this`hostCached, this`unsaved
      ensures VaultView() == SignInModel.DropDeadRegistration(config, old(VaultView()), clientId, l)
    {
      var loaded := LoadRecord(l.read);
      if loaded.Found? && loaded.record.host == config.host && loaded.record.clientId == clientId {
        DropRegistration(Some(loaded.record), l);
      }
    }

    method Commit(g: nat, r: Record, l: Luck) returns (committed: bool)
      modifies this
      ensures (View(), committed) == SignInModel.Commit(old(View()), g, r, l)
    {
      if attempt != Some(g) { return false; }
      committed := WriteSignIn(r, l);
      CommitMarks(g, committed);
    }

    /** The record first, then the access token; a failed token write is repaired from the record. */
    method WriteSignIn(r: Record, l: Luck) returns (written: bool)
      modifies this`token, this`record, this`trace, this`unsaved
      ensures written == l.record && VaultView() == CommitVault(old(VaultView()), r, l)
    {
      WriteRecord(r, l.record);
      if !l.record { return false; }
      if r.session.Some? {
        WriteToken(r.session.value.accessToken, l.token);
      }
      unsaved := Nothing;
      return true;
    }

    method CommitMarks(ghost g: nat, committed: bool)
      modifies this`attempt, this`rejectedAtMs, this`transientAt, this`codeless, this`adopted, this`log
      ensures MarksView() == SignInModel.CommitMarks(old(MarksView()), g, committed)
    {
      attempt := None;
      if committed {
        rejectedAtMs, transientAt, codeless := None, None, None;
        adopted := true;
      }
      log := log + [if committed then SignedIn(g) else AttemptEnded(g)];
    }

    method CountCodelessEnding(clientId: string, l: Luck)
      modifies this
      ensures View() == SignInModel.CountCodelessEnding(config, old(View()), clientId, l)
    {
      var loaded := LoadRecord(l.read);
      if !(loaded.Found? && IsRegistrationOnly(config, loaded.record, clientId)) {
        codeless := None;
        log := log + [OtherRecordSeen];
        return;
      }
      var drop := CountEnding(clientId);
      if drop {
        DropRegistration(None, l);
      }
    }

    method CountEnding(clientId: string) returns (drop: bool)
      modifies this`codeless, this`log
      ensures (MarksView(), drop) == SignInModel.CountEnding(old(MarksView()), clientId)
    {
      var count := 1;
      if codeless.Some? && codeless.value.clientId == clientId {
        count := codeless.value.count + 1;
      }
      drop := count >= CODELESS_ENDINGS_BEFORE_DROP;
      codeless := if drop then None else Some(Codeless(clientId, count));
      log := log + [EndingCounted(clientId, drop)];
    }

    // ── every step ───────────────────────────────────────────────────────────────────────────

    method EnsureHostId()
      modifies this`hostFile, this`hostCached
      ensures VaultView() == old(VaultView()).(hostFile := true, hostCached := true)
    {
      hostFile, hostCached := true, true;
    }

    method CodeReturned()
      modifies this`codeless, this`log
      ensures MarksView() == old(MarksView()).(codeless := None).Note(Event.CodeReturned)
    {
      codeless := None;
      log := log + [Event.CodeReturned];
    }

    /** `usable_while_busy`: nothing is written, and a true answer lets the caller go ahead. */
    method UsableWhileBusy(now: U64, l: Luck) returns (usable: bool)
      modifies this`hostCached, this`adopted
      ensures usable <==> SignInModel.UsableWhileBusy(config, old(View()), now, l)
      ensures View() == GoAhead(config, old(View()), now, l)
    {
      usable := false;
      var answers, host := CurrentHostId(l.host);
      if answers && host.Some? {
        usable := UsableNow(now, l);
      }
      adopted := adopted || usable;
    }

    method UsableNow(now: U64, l: Luck) returns (usable: bool)
      ensures usable <==> SignInModel.UsableNow(config, VaultView(), rejectedAtMs, VaultView(), now, l)
    {
      var loaded := LoadRecord(l.read);
      if !loaded.Found? || loaded.record.session.None? || loaded.record.host != config.host { return false; }
      var session := loaded.record.session.value;
      usable := HasScope(session, config.planScope)
        && WorksFor(now, session, config.dispatchMargin)
        && !RefusalConcerns(config, rejectedAtMs, session)
        && l.peek && token.Token? && token.text == session.accessToken;
    }

    /** The process dies and another starts over the same store. */
    method Restart()
      modifies this
      ensures View() == Crash(old(View()))
    {
      hostCached, unsaved := false, Nothing;
      ResetAttempts();
      ResetRenewals();
    }

    method ResetAttempts()
      modifies this`control, this`attempt, this`generation, this`codeless, this`log
      ensures control == None && attempt == None && generation == 0 && codeless == None && log == []
    {
      control, attempt, generation, codeless := None, None, 0, None;
      log := [];
    }

    method ResetRenewals()
      modifies this`rejectedAtMs, this`transientAt, this`request, this`adopted, this`clock
      ensures rejectedAtMs == None && transientAt == None && request == None && !adopted && clock == 0
    {
      rejectedAtMs, transientAt, request := None, None, None;
      adopted, clock := false, 0;
    }

    /** Each step of a run, executed in place. */
    method Execute(step: Step)
      requires Enabled(config, View(), step)
      modifies this
      ensures View() == Next(config, old(View()), step)
    {
      match step {
        case EnsureHostStep => EnsureHostId();
        case ControlStep(h) => TakeControl(h);
        case AbandonStep => ReleaseControl();
        case InstallStep(g) =>
          InstallAttempt(g);
          ReleaseControl();
        case StopStep => StopAttempt();
        case EndStep(g) => var _ := EndAttempt(g);
        case CodeStep => CodeReturned();
        case RetainStep(id, l) => RetainRegistration(id, l);
        case DropDeadStep(id, l) => DropDeadRegistration(id, l);
        case CommitStep(g, r, l) => var _ := Commit(g, r, l);
        case CodelessStep(id, l) => CountCodelessEnding(id, l);
        case BusyStep(now, l) => var _ := UsableWhileBusy(now, l);
        case FreshStep(q) => var _, _ := FreshLocked(q);
        case AnswerStep(a, now, mono, l) => var _ := RenewalAnswered(a, now, mono, l);
        case ModelsStep(models, l) => KeepModels(models, l);
        case SignOutStep(f, l) =>
          var _ := SignOut(f, l);
          ReleaseControl();
        case ForgetStep(l) =>
          Forget(l);
          ReleaseControl();
        case RejectedStep(now) => MarkRejected(now);
        case CrashStep => Restart();
      }
    }
  }
}
