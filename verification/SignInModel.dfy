/**
 The sign-in of one secret name: two store slots (the access token and the sign-in record), the
 in-memory override of the record, the attempt slot, the renewal bookkeeping, and every operation
 on them. Each store write or removal may fail without effect; a `Luck` value says which ones do.
 `trace` lists the store after each single store operation (every point a crash can expose), `log`
 lists what happened in the current process.
 */
module SignInModel {
  import opened Basics

  // ── the record ─────────────────────────────────────────────────────────────────────────────

  datatype Session = Session(
    accessToken: string,
    refreshToken: Option<string>,
    scopes: seq<string>,
    expiresAtMs: U64,
    earliestRefreshAtMs: Option<U64>,
    savedAtMs: U64)

  datatype Record = Record(
    issuer: string,
    clientId: string,
    subject: Option<string>,
    host: string,
    session: Option<Session>,
    models: seq<string>)

  predicate IsRegistrationOnly(c: Config, r: Record, clientId: string) {
    r.subject.None? && r.session.None? && r.issuer == c.issuer && r.host == c.host && r.clientId == clientId
  }

  /** The value stored under the entry's name is this module's: the record completed a sign-in here. */
  predicate ClaimsAccessToken(r: Record, host: Option<string>) {
    Some(r.host) == host && (r.subject.Some? || r.session.Some?)
  }

  datatype Loaded = Missing | Unreadable | Failed | Found(record: Record)

  // ── configuration and inputs ───────────────────────────────────────────────────────────────

  /** `host` is the id this installation has (or gets when it first needs one). */
  datatype Config = Config(
    host: string,
    issuer: string,
    planScope: string,
    grantScopes: seq<string>,
    renewBefore: Duration,
    rejectionGuard: Duration,
    transientCooldown: Duration,
    renewalWait: Duration,
    dispatchMargin: Duration)

  /** Which reads answer and which writes and removals the store takes. */
  datatype Luck = Luck(
    host: bool,    // the host-id file can be read
    read: bool,    // the record slot can be read
    peek: bool,    // the token slot can be read
    record: bool,  // a record write is taken
    token: bool,   // a token write is taken
    clear: bool,   // the token removal is taken
    remove: bool)  // the record removal is taken

  /** The store answers and takes everything. */
  function AllTaken(): Luck {
    Luck(true, true, true, true, true, true, true)
  }

  datatype CredentialFailure = NotSignedIn | NotAuthorized | RefreshUnavailable | Unavailable
  datatype Outcome = Ok | Err(failure: CredentialFailure)

  /** One call of `fresh_locked`: its clock readings and the store's behaviour during it. */
  datatype Query = Query(
    force: bool,
    now: U64,        // the reading the decision is made on
    nowWorks: U64,   // the reading of the usable check
    nowLate: U64,    // the reading taken when nothing is renewable
    mono: nat,       // monotonic clock, nanoseconds
    flush: Luck,
    luck: Luck,
    again: Luck)

  datatype Tokens = Tokens(
    accessToken: string,
    refreshToken: Option<string>,
    expiresInS: U64,
    scopes: Option<seq<string>>,
    earliestRefreshAtMs: Option<U64>)

  /** What the token endpoint made of a renewal (`Lost` is every transient ending). */
  datatype Answer = Renewed(tokens: Tokens) | Ended | ClientInvalid | Lost

  // ── state ──────────────────────────────────────────────────────────────────────────────────

  /** `ours` remembers who wrote the value; the program itself cannot see it. */
  datatype TokenSlot = NoToken | Token(text: string, ours: bool)
  datatype RecordSlot = Empty | Garbled | Holds(record: Record)
  datatype Store = Store(token: TokenSlot, record: RecordSlot)

  datatype Unsaved = Nothing | UnsavedRecord(record: Record) | UnsavedRemoval

  datatype Codeless = Codeless(clientId: string, count: nat)

  /** The renewal in flight: while there is one, the session lock is held. */
  datatype Request = Request(record: Record, session: Session)

  datatype Event =
    | RenewalSent(refresh: string, mono: nat, forced: bool, due: bool, refusedAt: Option<U64>, savedAt: U64)
    | RenewalDone(refresh: string, replaced: bool)
    | RefreshRefused(refresh: string)
    | TransientFailure(mono: nat)
    | SessionExpired
    | SignedIn(generation: nat)
    | SignedOut
    | Forgotten
    | AttemptStarted(generation: nat)
    | AttemptEnded(generation: nat)
    | AttemptStopped
    | CodeReturned
    | RegistrationKept
    | OtherRecordSeen
    | EndingCounted(clientId: string, dropped: bool)

  const CODELESS_ENDINGS_BEFORE_DROP: nat := 2

  /** What survives the memory of one operation: the host id, the store and its in-memory override. */
  datatype Vault = Vault(
    hostFile: bool,    // the host-id file exists
    hostCached: bool,  // this process has read it
    store: Store,
    unsaved: Unsaved,
    trace: seq<Store>)
  {
    // ── single store operations ──────────────────────────────────────────────────────────────

    function Put(st: Store): Vault {
      this.(store := st, trace := trace + [st])
    }

    function WriteRecord(r: Record, ok: bool): Vault {
      if ok then Put(store.(record := Holds(r))) else this
    }

    function WriteToken(text: string, ok: bool): Vault {
      if ok then Put(store.(token := Token(text, true))) else this
    }

    function ClearToken(ok: bool): Vault {
      if ok then Put(store.(token := NoToken)) else this
    }

    function RemoveRecord(ok: bool): Vault {
      if ok then Put(store.(record := Empty)) else this
    }

    // ── reading ──────────────────────────────────────────────────────────────────────────────

    function ReadStored(ok: bool): Loaded {
      if !ok then Failed
      else match store.record
        case Empty => Missing
        case Garbled => Unreadable
        case Holds(r) => Found(r)
    }

    function Load(ok: bool): Loaded {
      match unsaved
      case UnsavedRecord(r) => Found(r)
      case UnsavedRemoval => Missing
      case Nothing => ReadStored(ok)
    }

    /** The record as this process sees it when the store can be read. */
    function Logical(): Loaded {
      Load(true)
    }

    predicate HostAnswers(ok: bool) {
      hostCached || ok
    }

    /** The host id as read now; meaningful when `HostAnswers`. */
    function Host(c: Config): Option<string> {
      if hostFile then Some(c.host) else None
    }

    function CacheHost(): Vault {
      this.(hostCached := hostCached || hostFile)
    }

    // ── record and token custody ─────────────────────────────────────────────────────────────

    function PersistRecord(r: Record, ok: bool): Vault {
      WriteRecord(r, ok).(unsaved := if ok then Nothing else UnsavedRecord(r))
    }

    function RemoveLeftoverToken(l: Luck): Vault {
      if l.peek && store.token.NoToken? then this else ClearToken(l.clear)
    }

    function RemoveNames(c: Config, known: Option<Record>, l: Luck): (Vault, bool) {
      if !HostAnswers(l.host) then (this, false)
      else
        var v := CacheHost();
        var loaded := v.ReadStored(l.read);
        if loaded.Failed? then (v, false)
        else
          var mine := loaded.Found? && Some(loaded.record.host) == Host(c);
          var ours := (known.Some? && ClaimsAccessToken(known.value, Host(c)))
                      || (mine && ClaimsAccessToken(loaded.record, Host(c)));
          var holdsSession := mine && loaded.record.session.Some?;
          if holdsSession && !l.record then (v, false)
          else
            var v1 := if holdsSession then v.WriteRecord(loaded.record.(session := None), true) else v;
            if ours && !l.clear then (v1, false)
            else
              var v2 := if ours then v1.ClearToken(true) else v1;
              if mine then (v2.RemoveRecord(l.remove), l.remove) else (v2, true)
    }

    function DropRegistration(c: Config, known: Option<Record>, l: Luck): Vault {
      var (v, done) := RemoveNames(c, known, l);
      v.(unsaved := if done then Nothing else UnsavedRemoval)
    }

    function Flush(c: Config, l: Luck): Vault {
      match unsaved
      case Nothing => this
      case UnsavedRecord(r) =>
        if l.record then WriteRecord(r, true).(unsaved := Nothing) else this
      case UnsavedRemoval =>
        var (v, done) := RemoveNames(c, None, l);
        if done then v.(unsaved := Nothing) else v
    }

    predicate TokenMatches(session: Session, peek: bool) {
      peek && store.token.Token? && store.token.text == session.accessToken
    }

    function Repair(session: Session, l: Luck): Vault {
      if TokenMatches(session, l.peek) then this else WriteToken(session.accessToken, l.token)
    }

    function RepairOutcome(session: Session, l: Luck): Outcome {
      if TokenMatches(session, l.peek) || l.token then Ok else Err(Unavailable)
    }

    /** The session goes, record first, then the access token. */
    function EndSession(r: Record, l: Luck): Vault {
      PersistRecord(r.(session := None), l.record).ClearToken(l.clear)
    }
  }

  /** Who holds the control lock: it lets one start, cancel, sign-out or forget at a time through. */
  datatype Control = Starting | Cancelling | SigningOut | Forgetting

  /** The other things kept per name in memory. */
  datatype Marks = Marks(
    control: Option<Control>,
    attempt: Option<nat>,       // the generation that holds the attempt slot
    generation: nat,            // the last generation given out
    rejectedAtMs: Option<U64>,
    transientAt: Option<nat>,
    codeless: Option<Codeless>,
    request: Option<Request>,
    adopted: bool,              // a sign-in of this host has been used or made in this process
    clock: nat,                 // the latest monotonic reading
    log: seq<Event>)
  {
    function Note(e: Event): Marks {
      this.(log := log + [e])
    }

    function Rested(): Marks {
      this.(rejectedAtMs := None, transientAt := None)
    }
  }

  datatype State = State(vault: Vault, marks: Marks)

  // ── renewal ────────────────────────────────────────────────────────────────────────────────

  predicate HasScope(s: Session, scope: string) {
    scope in s.scopes
  }

  predicate WorksFor(now: U64, session: Session, span: Duration) {
    SatAdd(now, MillisU64(span)) < session.expiresAtMs
  }

  predicate RefusalConcerns(c: Config, at: Option<U64>, session: Session) {
    at.Some? && at.value >= SatAdd(session.savedAtMs, MillisU64(c.rejectionGuard))
  }

  predicate CoolingDown(c: Config, transientAt: Option<nat>, mono: nat) {
    transientAt.Some?
    && (if mono > transientAt.value then mono - transientAt.value else 0) < c.transientCooldown
  }

  /** A caller that finds the session busy may go ahead with the stored access token. */
  predicate UsableWhileBusy(c: Config, s: State, now: U64, l: Luck) {
    s.vault.HostAnswers(l.host) && s.vault.hostFile && UsableNow(c, s.vault, s.marks.rejectedAtMs, s.vault, now, l)
  }

  /** The three readings of that look: the record in `v`, the refusal mark, the token in `w`. */
  predicate UsableNow(c: Config, v: Vault, refusedAt: Option<U64>, w: Vault, now: U64, l: Luck) {
    && v.Load(l.read).Found?
    && var r := v.Load(l.read).record;
    && r.session.Some?
    && r.host == c.host
    && HasScope(r.session.value, c.planScope)
    && WorksFor(now, r.session.value, c.dispatchMargin)
    && !RefusalConcerns(c, refusedAt, r.session.value)
    && w.TokenMatches(r.session.value, l.peek)
  }

  /** A caller that finds the session busy looks whether it may; nothing is stored. */
  function GoAhead(c: Config, s: State, now: U64, l: Luck): State {
    State(if s.vault.HostAnswers(l.host) then s.vault.CacheHost() else s.vault,
          s.marks.(adopted := s.marks.adopted || UsableWhileBusy(c, s, now, l)))
  }

  function SessionFrom(c: Config, t: Tokens, previous: Option<Session>, now: U64): Session {
    Session(
      t.accessToken,
      if t.refreshToken.Some? then t.refreshToken
      else if previous.Some? then previous.value.refreshToken else None,
      if t.scopes.Some? then t.scopes.value
      else if previous.Some? then previous.value.scopes else c.grantScopes,
      SatAdd(now, SatMul(t.expiresInS, 1000)),
      t.earliestRefreshAtMs,
      now)
  }

  /** `outcome` is the answer of the call, or None when a token request is on its way. */
  datatype Begun = Begun(state: State, outcome: Option<Outcome>, usable: bool)

  function Answered(v: Vault, m: Marks, o: Outcome): Begun {
    Begun(State(v, if o.Ok? then m.(adopted := true) else m), Some(o), false)
  }

  function Repaired(v: Vault, m: Marks, session: Session, l: Luck): Begun {
    Answered(v.Repair(session, l), m, v.RepairOutcome(session, l))
  }

  /** `fresh_locked` up to its token request. */
  function FreshBegin(c: Config, s: State, q: Query): Begun {
    if !s.vault.HostAnswers(q.luck.host) then Answered(s.vault, s.marks, Err(Unavailable))
    else FreshFlushed(c, s.vault.CacheHost().Flush(c, q.flush), s.marks, q)
  }

  function FreshFlushed(c: Config, v: Vault, m: Marks, q: Query): Begun {
    var loaded := v.Load(q.luck.read);
    if loaded.Failed? then Answered(v, m, Err(Unavailable))
    else if !loaded.Found? || Some(loaded.record.host) != v.Host(c) then Answered(v, m, Err(NotSignedIn))
    else if loaded.record.session.None? then
      Answered(if ClaimsAccessToken(loaded.record, v.Host(c)) then v.RemoveLeftoverToken(q.luck) else v,
               m, Err(NotSignedIn))
    else FreshSession(c, v, m, loaded.record, loaded.record.session.value, q)
  }

  /** What `fresh_locked` does with a session: serve its token, refuse, or renew it. */
  datatype Plan = Serve | Deny(failure: CredentialFailure) | Renew(early: bool, due: bool)

  function Decide(c: Config, refusedAt: Option<U64>, transientAt: Option<nat>, session: Session, q: Query): Plan {
    var rejected := q.force || RefusalConcerns(c, refusedAt, session);
    var due := SatAdd(q.now, MillisU64(c.renewBefore)) >= session.expiresAtMs;
    var valid := q.now < session.expiresAtMs;
    if !HasScope(session, c.planScope) then Deny(NotAuthorized)
    else if !rejected && !due then Serve
    else if !rejected && valid && session.earliestRefreshAtMs.Some? && session.earliestRefreshAtMs.value > q.now
    then Serve
    else if !q.force && CoolingDown(c, transientAt, q.mono) then if valid then Serve else Deny(RefreshUnavailable)
    else Renew(!rejected && WorksFor(q.nowWorks, session, DurationSum(c.renewalWait, c.dispatchMargin)), due)
  }

  /** A refusal too early to concern the session is dropped; a forced call does not look at it, nor
      does one whose session lacks the plan scope. */
  function FreshRefusal(c: Config, m: Marks, session: Session, q: Query): Marks {
    if !HasScope(session, c.planScope) || q.force || RefusalConcerns(c, m.rejectedAtMs, session)
    then m else m.(rejectedAtMs := None)
  }

  function FreshSession(c: Config, v: Vault, m: Marks, r: Record, session: Session, q: Query): Begun {
    var m1 := FreshRefusal(c, m, session, q);
    match Decide(c, m.rejectedAtMs, m.transientAt, session, q)
    case Deny(failure) => Answered(v, m1, Err(failure))
    case Serve => Repaired(v, m1, session, q.luck)
    case Renew(early, due) => FreshRenewal(v, m1, r, session, q, early, due)
  }

  /** With `early`, the stored token outlasts the caller's wait and its request: it serves a caller
      that cannot wait. */
  function FreshRenewal(v: Vault, m: Marks, r: Record, session: Session, q: Query, early: bool, due: bool): Begun {
    var v1 := if early then v.Repair(session, q.luck) else v;
    var usable := early && v.RepairOutcome(session, q.luck).Ok?;
    if session.refreshToken.None? then Unrenewable(v1, m, r, session, q).(usable := usable)
    else Begun(State(v1, Send(m, r, session, q, due)), None, usable)
  }

  function Send(m: Marks, r: Record, session: Session, q: Query, due: bool): Marks
    requires session.refreshToken.Some?
  {
    m.(request := Some(Request(r, session)), clock := q.mono)
     .Note(RenewalSent(session.refreshToken.value, q.mono, q.force, due, m.rejectedAtMs, session.savedAtMs))
  }

  function Unrenewable(v: Vault, m: Marks, r: Record, session: Session, q: Query): Begun {
    if q.nowLate >= session.expiresAtMs
    then Answered(v.EndSession(r, q.again), m.Rested().Note(SessionExpired), Err(NotSignedIn))
    else Repaired(v, m, session, q.again)
  }

  /** `fresh_locked` from the answer of its token request on. */
  function FreshEnd(c: Config, s: State, answer: Answer, now: U64, mono: nat, l: Luck): (State, Outcome)
    requires s.marks.request.Some? && s.marks.request.value.session.refreshToken.Some?
  {
    var Request(r, session) := s.marks.request.value;
    var refresh := session.refreshToken.value;
    var m := s.marks.(request := None);
    match answer
    case Renewed(t) =>
      Renewal(c, s.vault, m, r, SessionFrom(c, t, Some(session), now), RenewalDone(refresh, Replaces(t, refresh)), l)
    case Ended =>
      (State(s.vault.EndSession(r, l), m.Rested().Note(RefreshRefused(refresh))), Err(NotSignedIn))
    case ClientInvalid =>
      (State(s.vault.DropRegistration(c, Some(r), l), m.Rested().Note(RefreshRefused(refresh))), Err(NotSignedIn))
    case Lost => RenewalLost(s.vault, m, session, now, mono, l)
  }

  /** A transient failure: the session serves while it lives. */
  function RenewalLost(v: Vault, m: Marks, session: Session, now: U64, mono: nat, l: Luck): (State, Outcome) {
    var m1 := m.(transientAt := Some(mono), clock := mono).Note(TransientFailure(mono));
    if now < session.expiresAtMs then
      var b := Repaired(v, m1, session, l);
      (b.state, b.outcome.value)
    else (State(v, m1), Err(RefreshUnavailable))
  }

  /** The answer names another refresh token: the server has replaced the one presented. */
  predicate Replaces(t: Tokens, refresh: string) {
    t.refreshToken.Some? && t.refreshToken != Some(refresh)
  }

  function Renewal(c: Config, v: Vault, m: Marks, r: Record, renewed: Session, done: Event, l: Luck)
    : (State, Outcome)
  {
    var v1 := v.PersistRecord(r.(session := Some(renewed)), l.record).WriteToken(renewed.accessToken, l.token);
    var m1 := m.Rested().Note(done);
    if !l.token then (State(v1, m1), Err(Unavailable))
    else if !HasScope(renewed, c.planScope) then (State(v1, m1), Err(NotAuthorized))
    else (State(v1, m1.(adopted := true)), Ok)
  }

  /** Keep a listed model catalog in the record of a session. */
  function KeepModels(v: Vault, models: seq<string>, l: Luck): Vault {
    var loaded := v.Load(l.read);
    if loaded.Found? && loaded.record.session.Some?
    then v.PersistRecord(loaded.record.(models := models), l.record)
    else v
  }

  // ── sign-out and forget ────────────────────────────────────────────────────────────────────

  /** The session goes, record first; the token goes when the record claims it. */
  function ClearSignIn(v: Vault, r: Record, host: Option<string>, l: Luck): (Vault, bool) {
    var claims := ClaimsAccessToken(r, host);
    var v1 := v.PersistRecord(r.(session := None), l.record);
    (if claims then v1.ClearToken(l.clear) else v1, l.record && (!claims || l.clear))
  }

  function SignOutLoaded(v: Vault, loaded: Loaded, host: Option<string>, l: Luck): (Vault, bool) {
    match loaded
    case Found(r) => ClearSignIn(v, r, host, l)
    case Missing => (v, !v.unsaved.UnsavedRemoval?)
    case _ => (v.ClearToken(l.clear), false)
  }

  /** The new state and whether the name is reported clear. */
  function SignOut(c: Config, s: State, flush: Luck, l: Luck): (State, bool) {
    SignOutFlushed(c, s.vault.Flush(c, flush), s.marks, l)
  }

  function SignOutFlushed(c: Config, v: Vault, m: Marks, l: Luck): (State, bool) {
    var loaded := v.Load(l.read);
    var v1 := if v.HostAnswers(l.host) then v.CacheHost() else v;
    if loaded.Failed? || !v.HostAnswers(l.host) then (State(v1, m), false)
    else if loaded.Found? && Some(loaded.record.host) != v1.Host(c) then (State(v1, m), true)
    else
      var (v2, out) := SignOutLoaded(v1, loaded, v1.Host(c), l);
      (State(v2, m.Rested().Note(SignedOut)), out)
  }

  function ForgetVault(c: Config, v: Vault, l: Luck): Vault {
    var loaded := v.Load(l.read);
    var answers := v.HostAnswers(l.host);
    var v1 := if answers then v.CacheHost() else v;
    var (v2, complete) :=
      match loaded
      case Found(r) =>
        if answers && Some(r.host) == v1.Host(c) then v1.RemoveNames(c, Some(r), l) else (v1, true)
      case Missing =>
        if answers && v1.unsaved.UnsavedRemoval? then v1.RemoveNames(c, None, l) else (v1, true)
      case Unreadable => (if answers then v1.ClearToken(l.clear) else v1, true)
      case Failed => (v1, true);
    v2.(unsaved := if complete then Nothing else UnsavedRemoval)
  }

  function Forget(c: Config, s: State, l: Luck): State {
    State(ForgetVault(c, s.vault, l), s.marks.(attempt := None, codeless := None).Rested().Note(Forgotten))
  }

  // ── browser attempts ───────────────────────────────────────────────────────────────────────

  function StopAttempt(m: Marks): Marks {
    m.(attempt := None).Note(AttemptStopped)
  }

  function EndAttempt(m: Marks, generation: nat): Marks {
    if m.attempt == Some(generation) then m.(attempt := None).Note(AttemptEnded(generation)) else m
  }

  function InstallAttempt(m: Marks, generation: nat): Marks {
    m.(attempt := Some(generation), generation := generation).Note(AttemptStarted(generation))
  }

  function Registration(c: Config, clientId: string): Record {
    Record(c.issuer, clientId, None, c.host, None, [])
  }

  function RetainRegistration(c: Config, s: State, clientId: string, l: Luck): State {
    if s.vault.Load(l.read).Missing? then
      State(s.vault.PersistRecord(Registration(c, clientId), l.record),
            s.marks.(codeless := None).Note(RegistrationKept))
    else s
  }

  function DropDeadRegistration(c: Config, v: Vault, clientId: string, l: Luck): Vault {
    var loaded := v.Load(l.read);
    if loaded.Found? && loaded.record.host == c.host && loaded.record.clientId == clientId
    then v.DropRegistration(c, Some(loaded.record), l)
    else v
  }

  function Commit(s: State, generation: nat, r: Record, l: Luck): (State, bool) {
    if s.marks.attempt != Some(generation) then (s, false)
    else (State(CommitVault(s.vault, r, l), CommitMarks(s.marks, generation, l.record)), l.record)
  }

  /** The record first, then the access token; a failed token write is repaired from the record. */
  function CommitVault(v: Vault, r: Record, l: Luck): Vault {
    if !l.record then v
    else
      var v1 := v.WriteRecord(r, true);
      (if r.session.Some? then v1.WriteToken(r.session.value.accessToken, l.token) else v1).(unsaved := Nothing)
  }

  function CommitMarks(m: Marks, generation: nat, committed: bool): Marks {
    if committed then m.(attempt := None, codeless := None, adopted := true).Rested().Note(SignedIn(generation))
    else m.(attempt := None).Note(AttemptEnded(generation))
  }

  function CountCodelessEnding(c: Config, s: State, clientId: string, l: Luck): State {
    var loaded := s.vault.Load(l.read);
    if !(loaded.Found? && IsRegistrationOnly(c, loaded.record, clientId))
    then State(s.vault, s.marks.(codeless := None).Note(OtherRecordSeen))
    else
      var (m, drop) := CountEnding(s.marks, clientId);
      State(if drop then s.vault.DropRegistration(c, None, l) else s.vault, m)
  }

  /** The count after one more ending, and whether the registration is to go. */
  function CountEnding(m: Marks, clientId: string): (Marks, bool) {
    var streak := m.codeless;
    var count := if streak.Some? && streak.value.clientId == clientId then streak.value.count + 1 else 1;
    var drop := count >= CODELESS_ENDINGS_BEFORE_DROP;
    (m.(codeless := if drop then None else Some(Codeless(clientId, count))).Note(EndingCounted(clientId, drop)), drop)
  }

  const NO_MARKS: Marks := Marks(None, None, 0, None, None, None, None, false, 0, [])

  /** The process dies: the store stays, everything in memory is gone. */
  function Crash(s: State): State {
    State(s.vault.(hostCached := false, unsaved := Nothing), NO_MARKS)
  }

  // ── runs ───────────────────────────────────────────────────────────────────────────────────

  datatype Step =
    | EnsureHostStep
    | ControlStep(holder: Control)   // the control lock is taken and the running attempt stopped
    | AbandonStep                    // a cancel is done, or a start gives up
    | InstallStep(generation: nat)   // a start puts its attempt into the slot
    | StopStep                       // `close` takes the slot
    | EndStep(generation: nat)
    | CodeStep
    | RetainStep(clientId: string, luck: Luck)
    | DropDeadStep(clientId: string, luck: Luck)
    | CommitStep(generation: nat, record: Record, luck: Luck)
    | CodelessStep(clientId: string, luck: Luck)
    | BusyStep(now: U64, luck: Luck)
    | FreshStep(query: Query)
    | AnswerStep(answer: Answer, now: U64, mono: nat, luck: Luck)
    | ModelsStep(models: seq<string>, luck: Luck)
    | SignOutStep(flush: Luck, luck: Luck)
    | ForgetStep(luck: Luck)
    | RejectedStep(now: U64)
    | CrashStep

  /** Refresh tokens the server has replaced or refused, as answered to this process. */
  function Retired(log: seq<Event>): set<string> {
    if log == [] then {}
    else
      var last := log[|log| - 1];
      Retired(log[..|log| - 1])
      + (if (last.RenewalDone? && last.replaced) || last.RefreshRefused? then {last.refresh} else {})
  }

  /**
   What each step needs of its caller: the session lock is free for the operations that take it
   (`request` holds it over a renewal), a start, cancel, sign-out or forget holds the control lock
   from its first step to its last, attempts run in a process that knows its host id, a model
   list is kept only after a sign-in of this host was used or made, generations grow, the
   monotonic clock does not go back, and the server never issues a refresh token it has retired.
   */
  predicate Enabled(c: Config, s: State, step: Step) {
    match step
    case EnsureHostStep | StopStep | EndStep(_) | CodeStep | BusyStep(_, _) | RejectedStep(_) | CrashStep => true
    case ControlStep(_) => s.marks.control.None?
    case AbandonStep => s.marks.control == Some(Starting) || s.marks.control == Some(Cancelling)
    case InstallStep(g) => s.marks.control == Some(Starting) && s.vault.hostCached && g > s.marks.generation
    case RetainStep(_, _) | DropDeadStep(_, _) | CodelessStep(_, _) =>
      s.marks.request.None? && s.vault.hostCached
    case CommitStep(_, r, _) =>
      && s.marks.request.None? && s.vault.hostCached
      && r.host == c.host && r.subject.Some? && r.session.Some?
      && (r.session.value.refreshToken.Some? ==> r.session.value.refreshToken.value !in Retired(s.marks.log))
    case FreshStep(q) => s.marks.request.None? && q.mono >= s.marks.clock
    case AnswerStep(a, _, mono, _) =>
      && s.marks.request.Some? && s.marks.request.value.session.refreshToken.Some? && mono >= s.marks.clock
      && (a.Renewed? && a.tokens.refreshToken.Some? ==> a.tokens.refreshToken.value !in Retired(s.marks.log))
    case ModelsStep(_, _) => s.marks.request.None? && s.marks.adopted
    case SignOutStep(_, _) => s.marks.request.None? && s.marks.control == Some(SigningOut)
    case ForgetStep(_) => s.marks.request.None? && s.marks.control == Some(Forgetting)
  }

  /** The holder of the control lock returns. */
  function Release(s: State): State {
    s.(marks := s.marks.(control := None))
  }

  function Next(c: Config, s: State, step: Step): State
    requires Enabled(c, s, step)
  {
    match step
    case EnsureHostStep => s.(vault := s.vault.(hostFile := true, hostCached := true))
    case ControlStep(h) => s.(marks := StopAttempt(s.marks).(control := Some(h)))
    case AbandonStep => Release(s)
    case InstallStep(g) => Release(s.(marks := InstallAttempt(s.marks, g)))
    case StopStep => s.(marks := StopAttempt(s.marks))
    case EndStep(g) => s.(marks := EndAttempt(s.marks, g))
    case CodeStep => s.(marks := s.marks.(codeless := None).Note(CodeReturned))
    case RetainStep(id, l) => RetainRegistration(c, s, id, l)
    case DropDeadStep(id, l) => s.(vault := DropDeadRegistration(c, s.vault, id, l))
    case CommitStep(g, r, l) => Commit(s, g, r, l).0
    case CodelessStep(id, l) => CountCodelessEnding(c, s, id, l)
    case BusyStep(now, l) => GoAhead(c, s, now, l)
    case FreshStep(q) => FreshBegin(c, s, q).state
    case AnswerStep(a, now, mono, l) => FreshEnd(c, s, a, now, mono, l).0
    case ModelsStep(models, l) => s.(vault := KeepModels(s.vault, models, l))
    case SignOutStep(f, l) => Release(SignOut(c, s, f, l).0)
    case ForgetStep(l) => Release(Forget(c, s, l))
    case RejectedStep(now) => s.(marks := s.marks.(rejectedAtMs := Some(now)))
    case CrashStep => Crash(s)
  }

  /** A `commit` that gets as far as writing its record. */
  predicate SignsIn(s: State, step: Step) {
    step.CommitStep? && s.marks.attempt == Some(step.generation) && step.luck.record
  }

  /** The state a process starts in over a given store. */
  predicate Fresh(s: State) {
    s == Crash(s) && s.vault.trace == [s.vault.store]
  }

  /** A run: states joined by enabled steps. */
  ghost predicate Behavior(c: Config, states: seq<State>, steps: seq<Step>) {
    && |states| == |steps| + 1
    && Fresh(states[0])
    && forall i :: 0 <= i < |steps| ==>
         Enabled(c, states[i], steps[i]) && states[i + 1] == Next(c, states[i], steps[i])
  }

  lemma RunExtends(c: Config, states: seq<State>, steps: seq<Step>, step: Step, s': State)
    requires Behavior(c, states, steps) && Enabled(c, states[|steps|], step) && s' == Next(c, states[|steps|], step)
    ensures Behavior(c, states + [s'], steps + [step])
  {
  }
}
