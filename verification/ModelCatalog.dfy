/**
 The model catalog of one provider id: generation, cache and in-flight sharing, with readers (leaders
 that probe, followers that wait) and invalidations interleaving one lock-sized step at a time.
 `epoch` counts the invalidations begun. A delete sets the generation back to zero: the epoch it counts
 from is its `base`. A fill carries the epoch its probe began in and the base of its leader.
 */
module ModelCatalog {
  import opened Basics

  /** The hash of the generation and of everything else a fingerprint covers, taken as injective. */
  datatype Fingerprint = Fingerprint(generation: nat, digest: string)

  datatype Fill = Fill(models: seq<string>, complete: bool, origin: nat, base: nat)

  const INCOMPLETE: Fill := Fill([], false, 0, 0)
  const EMPTY: Fill := Fill([], true, 0, 0)

  datatype Cached = Cached(fingerprint: Fingerprint, fill: Fill)

  /** `state` is None while Pending; `leader` is the reader that made the waiter. */
  datatype Waiter = Waiter(fingerprint: Fingerprint, leader: nat, pending: bool, state: Option<Fill>)

  /** What the locks protect. */
  datatype Shared = Shared(
    generation: nat,
    epoch: nat,
    cache: Option<Cached>,
    inflight: Option<nat>,
    waiters: seq<Waiter>)
  {
    function Key(digest: string): Fingerprint {
      Fingerprint(generation, digest)
    }

    /** The epoch the generation counts from. */
    function Base(): nat {
      if generation <= epoch then epoch - generation else 0
    }

    predicate Fresh(fp: Fingerprint, digest: string) {
      Key(digest) == fp
    }

    function Now(): Reading {
      Reading(epoch, Base())
    }

    function Lookup(fp: Fingerprint): Option<Fill> {
      if cache.Some? && cache.value.fingerprint == fp && cache.value.fill.complete then Some(cache.value.fill) else None
    }

    predicate Joinable(fp: Fingerprint) {
      inflight.Some? && inflight.value < |waiters|
      && waiters[inflight.value].fingerprint == fp && waiters[inflight.value].pending
    }

    predicate IsPending(w: nat) {
      w < |waiters| && waiters[w].pending
    }

    function Lead(fp: Fingerprint, leader: nat): Shared {
      this.(inflight := Some(|waiters|), waiters := waiters + [Waiter(fp, leader, true, None)])
    }

    function ClearPending(w: nat): Shared {
      if w < |waiters| then this.(waiters := waiters[w := waiters[w].(pending := false)]) else this
    }

    function Publish(w: nat, fill: Fill): Shared {
      if w < |waiters| then this.(waiters := waiters[w := waiters[w].(state := Some(fill))]) else this
    }

    function Insert(fp: Fingerprint, fill: Fill): Shared {
      if fill.complete then this.(cache := Some(Cached(fp, fill))) else this
    }

    function DropInflightIf(fp: Fingerprint): Shared {
      if inflight.Some? && inflight.value < |waiters| && waiters[inflight.value].fingerprint == fp
      then this.(inflight := None) else this
    }

    function Bump(): Shared {
      this.(generation := generation + 1, epoch := epoch + 1)
    }

    function Forget(): Shared {
      this.(cache := None)
    }
  }

  /** Where a reader is in `ensure_models_cached`; `w` is its waiter. */
  datatype Pc =
    | Keyed
    | Missed
    | Leading(w: nat)
    | Probing(w: nat, began: nat)
    | Probed(w: nat, fill: Fill)
    | Publishing(w: nat, fill: Fill, out: Fill)   // decided what to publish
    | Clearing(w: nat, fill: Fill, out: Fill)     // `pending` is false, the state not set yet
    | Published(w: nat, fill: Fill)
    | Retracting(w: nat)
    | Retracted(w: nat)
    | Storing(w: nat, fill: Fill)
    | Dropping(w: nat, fill: Fill)
    | Finishing(w: nat, fill: Fill)
    | Unwinding(w: nat)                           // the leader panicked; its guard publishes
    | Unwound(w: nat)                             // the guard cleared `pending`
    | Panicked
    | Following(w: nat)
    | Sleeping(w: nat)                            // in the condition variable's wait
    | Woken(w: nat, fill: Fill)
    | Returned(fill: Fill, checked: Option<Reading>)  // the last comparison, if any

  /** A reading of the generation: the epoch it was made in and the base then. */
  datatype Reading = Reading(epoch: nat, base: nat)

  /** `seen` is the reader's fingerprint reading. */
  datatype Reader = Reader(fingerprint: Fingerprint, seen: Reading, at: Pc)

  /** Where an invalidation is after it raised the generation. */
  datatype Invalidation = Bumped | Cleared | Holding(w: nat) | Unpending(w: nat)

  datatype State = State(shared: Shared, readers: map<nat, Reader>, invalidations: map<nat, Invalidation>)

  datatype Step =
    | ReadKey(id: nat, digest: string)
    | LookCache(id: nat)
    | Claim(id: nat)
    | BeginProbe(id: nat)
    | EndProbe(id: nat, models: seq<string>, complete: bool)  // a panicking probe: no models, incomplete
    | Recheck(id: nat, digest: string)
    | ClearFlag(id: nat)
    | SetState(id: nat)
    | StoreFill(id: nat)
    | DropWaiter(id: nat)
    | Panic(id: nat)                                           // a leader unwinds outside its probe
    | CheckState(id: nat)
    | Invalidate(id: nat)
    | ClearCache(id: nat)
    | PickWaiter(id: nat)
    | ClearWaiter(id: nat)
    | WakeWaiter(id: nat)
    | ForgetGeneration                                         // a delete drops the generation

  predicate Enabled(s: State, step: Step) {
    match step
    case ReadKey(id, _) => id !in s.readers
    case LookCache(id) => id in s.readers && s.readers[id].at.Keyed?
    case Claim(id) => id in s.readers && s.readers[id].at.Missed?
    case BeginProbe(id) => id in s.readers && s.readers[id].at.Leading?
    case EndProbe(id, _, _) => id in s.readers && s.readers[id].at.Probing?
    case Recheck(id, _) => id in s.readers && var at := s.readers[id].at;
                           at.Probed? || at.Published? || at.Finishing? || at.Woken?
    case ClearFlag(id) => id in s.readers && (s.readers[id].at.Publishing? || s.readers[id].at.Unwinding?)
    case SetState(id) => id in s.readers && var at := s.readers[id].at; at.Clearing? || at.Retracting? || at.Unwound?
    case Panic(id) => id in s.readers && (Guarded(s.readers[id].at) || Settled(s.readers[id].at))
    case StoreFill(id) => id in s.readers && s.readers[id].at.Storing?
    case DropWaiter(id) => id in s.readers && (s.readers[id].at.Dropping? || s.readers[id].at.Retracted?)
    case CheckState(id) => id in s.readers && s.readers[id].at.Following? && s.readers[id].at.w < |s.shared.waiters|
    case Invalidate(id) => id !in s.invalidations
    case ClearCache(id) => id in s.invalidations && s.invalidations[id].Bumped?
    case PickWaiter(id) => id in s.invalidations && s.invalidations[id].Cleared?
    case ClearWaiter(id) => id in s.invalidations && s.invalidations[id].Holding?
    case WakeWaiter(id) => id in s.invalidations && s.invalidations[id].Unpending?
    case ForgetGeneration => true
  }

  /** The leader's guard has something to publish: it leads and has not begun to. */
  predicate Guarded(at: Pc) {
    at.Leading? || at.Probed? || at.Publishing?
  }

  /** A leader that has published. */
  predicate Settled(at: Pc) {
    at.Published? || at.Storing? || at.Dropping? || at.Finishing? || at.Retracted?
  }

  /** Setting a waiter's state wakes everyone in its wait. */
  function Wake(readers: map<nat, Reader>, w: nat): map<nat, Reader> {
    map id | id in readers ::
      if readers[id].at == Sleeping(w) then readers[id].(at := Following(w)) else readers[id]
  }

  function Move(s: State, id: nat, at: Pc): State
    requires id in s.readers
  {
    s.(readers := s.readers[id := s.readers[id].(at := at)])
  }

  function Next(s: State, step: Step): State
    requires Enabled(s, step)
  {
    var sh := s.shared;
    match step
    case ReadKey(id, d) => s.(readers := s.readers[id := Reader(sh.Key(d), sh.Now(), Keyed)])
    case LookCache(id) =>
      var hit := sh.Lookup(s.readers[id].fingerprint);
      Move(s, id, if hit.Some? then Returned(hit.value, None) else Missed)
    case Claim(id) =>
      var fp := s.readers[id].fingerprint;
      if sh.Joinable(fp) then Move(s, id, Following(sh.inflight.value))
      else Move(s, id, Leading(|sh.waiters|)).(shared := sh.Lead(fp, id))
    case BeginProbe(id) => Move(s, id, Probing(s.readers[id].at.w, sh.epoch))
    case EndProbe(id, models, complete) =>
      Move(s, id, Probed(s.readers[id].at.w, Fill(models, complete, s.readers[id].at.began, s.readers[id].seen.base)))
    case Recheck(id, d) => Rechecked(s, id, sh.Fresh(s.readers[id].fingerprint, d))
    case ClearFlag(id) =>
      var at := s.readers[id].at;
      Move(s, id, if at.Publishing? then Clearing(at.w, at.fill, at.out) else Unwound(at.w))
        .(shared := sh.ClearPending(at.w))
    case SetState(id) =>
      var at := s.readers[id].at;
      var w := at.w;
      var out := if at.Clearing? then at.out else if at.Unwound? then INCOMPLETE else EMPTY;
      Move(State(sh.Publish(w, out), Wake(s.readers, w), s.invalidations), id,
           if at.Clearing? then Published(w, at.fill) else if at.Unwound? then Panicked else Retracted(w))
    case StoreFill(id) =>
      var Storing(w, fill) := s.readers[id].at;
      Move(s, id, Dropping(w, fill)).(shared := sh.Insert(s.readers[id].fingerprint, fill))
    case DropWaiter(id) =>
      var at := s.readers[id].at;
      Move(s, id, if at.Dropping? then Finishing(at.w, at.fill) else Returned(EMPTY, Some(sh.Now())))
        .(shared := sh.DropInflightIf(s.readers[id].fingerprint))
    case Panic(id) =>
      var at := s.readers[id].at;
      Move(s, id, if Guarded(at) && sh.IsPending(at.w) then Unwinding(at.w) else Panicked)
    case CheckState(id) =>
      var w := s.readers[id].at.w;
      var state := sh.waiters[w].state;
      Move(s, id, if state.Some? then Woken(w, state.value) else Sleeping(w))
    case Invalidate(id) => s.(shared := sh.Bump(), invalidations := s.invalidations[id := Bumped])
    case ClearCache(id) => s.(shared := sh.Forget(), invalidations := s.invalidations[id := Cleared])
    case PickWaiter(id) =>
      s.(invalidations := if sh.inflight.Some? then s.invalidations[id := Holding(sh.inflight.value)]
                          else s.invalidations - {id})
    case ClearWaiter(id) =>
      var w := s.invalidations[id].w;
      s.(shared := sh.ClearPending(w), invalidations := s.invalidations[id := Unpending(w)])
    case WakeWaiter(id) =>
      var w := s.invalidations[id].w;
      State(sh.Publish(w, EMPTY), Wake(s.readers, w), s.invalidations - {id})
    case ForgetGeneration => s.(shared := sh.(generation := 0))
  }

  /** The four places a reader compares the fingerprint again. */
  function Rechecked(s: State, id: nat, same: bool): State
    requires id in s.readers
    requires var at := s.readers[id].at; at.Probed? || at.Published? || at.Finishing? || at.Woken?
  {
    var at := s.readers[id].at;
    Move(s, id,
         if at.Probed? then Publishing(at.w, at.fill, if same then at.fill else EMPTY)
         else if at.Published? then if same then Storing(at.w, at.fill) else Retracting(at.w)
         else Returned(if same then at.fill else EMPTY, Some(s.shared.Now())))
  }

  predicate Initial(s: State) {
    s == State(Shared(0, 0, None, None, []), map[], map[])
  }

  ghost predicate Behavior(states: seq<State>, steps: seq<Step>) {
    && |states| == |steps| + 1
    && Initial(states[0])
    && forall i :: 0 <= i < |steps| ==> Enabled(states[i], steps[i]) && states[i + 1] == Next(states[i], steps[i])
  }

  // ── no stale catalog ───────────────────────────────────────────────────────────────────────

  /** Models kept under a fingerprint come from a probe begun when the leader's generation had that
      value, or later. */
  predicate Since(fill: Fill, generation: nat) {
    fill.models != [] ==> fill.origin >= fill.base + generation
  }

  /** The waiter is of the reader's fingerprint. */
  predicate Shares(sh: Shared, r: Reader, w: nat) {
    w < |sh.waiters| && sh.waiters[w].fingerprint == r.fingerprint
  }

  predicate ReaderFresh(sh: Shared, r: Reader) {
    var generation := r.fingerprint.generation;
    && r.seen.base + generation == r.seen.epoch <= sh.epoch
    && match r.at
       case Keyed => true
       case Missed => true
       case Leading(w) => Shares(sh, r, w)
       case Probing(w, began) => Shares(sh, r, w) && began >= r.seen.epoch
       case Probed(w, fill) => Shares(sh, r, w) && Since(fill, generation)
       case Publishing(w, fill, out) => Shares(sh, r, w) && Since(fill, generation) && Since(out, generation)
       case Clearing(w, fill, out) => Shares(sh, r, w) && Since(fill, generation) && Since(out, generation)
       case Published(w, fill) => Since(fill, generation)
       case Storing(w, fill) => Since(fill, generation)
       case Dropping(w, fill) => Since(fill, generation)
       case Finishing(w, fill) => Since(fill, generation)
       case Retracting(_) => true
       case Retracted(_) => true
       case Unwinding(_) => true
       case Unwound(_) => true
       case Panicked => true
       case Following(w) => Shares(sh, r, w)
       case Sleeping(w) => Shares(sh, r, w)
       case Woken(w, fill) => Since(fill, generation)
       case Returned(fill, checked) =>
         && Since(fill, generation)
         && (checked.Some? && fill.models != [] ==> checked.value.epoch == checked.value.base + generation)
  }

  ghost predicate SharedFresh(sh: Shared) {
    && sh.generation <= sh.epoch
    && (sh.cache.Some? ==> Since(sh.cache.value.fill, sh.cache.value.fingerprint.generation))
    && (sh.inflight.Some? ==> sh.inflight.value < |sh.waiters|)
    && forall w :: 0 <= w < |sh.waiters| && sh.waiters[w].state.Some? ==>
         Since(sh.waiters[w].state.value, sh.waiters[w].fingerprint.generation)
  }

  ghost predicate AllFresh(s: State) {
    && SharedFresh(s.shared)
    && forall id :: id in s.readers ==> ReaderFresh(s.shared, s.readers[id])
  }

  /** Waiters are never replaced: a later shared state keeps every waiter and its fingerprint. */
  predicate Grows(sh: Shared, sh': Shared) {
    && sh.epoch <= sh'.epoch
    && |sh.waiters| <= |sh'.waiters|
    && forall w :: 0 <= w < |sh.waiters| ==> sh'.waiters[w].fingerprint == sh.waiters[w].fingerprint
  }

  lemma ReaderStaysFresh(sh: Shared, sh': Shared, r: Reader)
    requires ReaderFresh(sh, r) && Grows(sh, sh')
    ensures ReaderFresh(sh', r)
  {
  }

  /** At most the reader `id` is new or moved; others may have been woken. */
  ghost predicate Touches(readers: map<nat, Reader>, readers': map<nat, Reader>, id: nat) {
    forall k :: k in readers' && k != id ==>
      k in readers && (readers'[k] == readers[k]
                       || (readers[k].at.Sleeping? && readers'[k] == readers[k].(at := Following(readers[k].at.w))))
  }

  lemma TouchKeepsFresh(s: State, s': State, id: nat)
    requires AllFresh(s) && SharedFresh(s'.shared) && Grows(s.shared, s'.shared)
    requires Touches(s.readers, s'.readers, id)
    requires id in s'.readers ==> ReaderFresh(s'.shared, s'.readers[id])
    ensures AllFresh(s')
  {
    forall k | k in s'.readers ensures ReaderFresh(s'.shared, s'.readers[k]) {
      if k != id {
        ReaderStaysFresh(s.shared, s'.shared, s.readers[k]);
      }
    }
  }

  lemma PublishKeepsFresh(sh: Shared, w: nat, fill: Fill)
    requires SharedFresh(sh) && (w < |sh.waiters| ==> Since(fill, sh.waiters[w].fingerprint.generation))
    ensures SharedFresh(sh.Publish(w, fill)) && Grows(sh, sh.Publish(w, fill))
  {
  }

  predicate InvalidationStep(step: Step) {
    step.Invalidate? || step.ClearCache? || step.PickWaiter? || step.ClearWaiter? || step.WakeWaiter?
    || step.ForgetGeneration?
  }

  lemma InvalidationKeepsFresh(s: State, step: Step)
    requires AllFresh(s) && Enabled(s, step) && InvalidationStep(step)
    ensures AllFresh(Next(s, step))
  {
    var s' := Next(s, step);
    if step.WakeWaiter? {
      PublishKeepsFresh(s.shared, s.invalidations[step.id].w, EMPTY);
    }
    assert Grows(s.shared, s'.shared);
    forall k | k in s'.readers ensures ReaderFresh(s'.shared, s'.readers[k]) {
      ReaderStaysFresh(s.shared, s'.shared, s.readers[k]);
    }
  }

  lemma RecheckKeepsFresh(s: State, id: nat, digest: string)
    requires AllFresh(s) && Enabled(s, Recheck(id, digest))
    ensures AllFresh(Next(s, Recheck(id, digest)))
  {
    TouchKeepsFresh(s, Next(s, Recheck(id, digest)), id);
  }

  lemma SetStateKeepsFresh(s: State, id: nat)
    requires AllFresh(s) && Enabled(s, SetState(id))
    ensures AllFresh(Next(s, SetState(id)))
  {
    var at := s.readers[id].at;
    PublishKeepsFresh(s.shared, at.w, if at.Clearing? then at.out else if at.Unwound? then INCOMPLETE else EMPTY);
    TouchKeepsFresh(s, Next(s, SetState(id)), id);
  }

  lemma ProbeKeepsFresh(s: State, step: Step)
    requires AllFresh(s) && Enabled(s, step) && (step.Claim? || step.BeginProbe? || step.EndProbe?)
    ensures AllFresh(Next(s, step))
  {
    TouchKeepsFresh(s, Next(s, step), step.id);
  }

  lemma SettleKeepsFresh(s: State, step: Step)
    requires AllFresh(s) && Enabled(s, step) && (step.StoreFill? || step.DropWaiter?)
    ensures AllFresh(Next(s, step))
  {
    TouchKeepsFresh(s, Next(s, step), step.id);
  }

  lemma FlagKeepsFresh(s: State, step: Step)
    requires AllFresh(s) && Enabled(s, step) && (step.ClearFlag? || step.Panic?)
    ensures AllFresh(Next(s, step))
  {
    TouchKeepsFresh(s, Next(s, step), step.id);
  }

  lemma LookKeepsFresh(s: State, step: Step)
    requires AllFresh(s) && Enabled(s, step) && (step.ReadKey? || step.LookCache? || step.CheckState?)
    ensures AllFresh(Next(s, step))
  {
    TouchKeepsFresh(s, Next(s, step), step.id);
  }

  lemma {:induction false} RunIsFresh(states: seq<State>, steps: seq<Step>, i: nat)
    requires Behavior(states, steps) && i < |states|
    ensures AllFresh(states[i])
  {
    if i > 0 {
      RunIsFresh(states, steps, i - 1);
      var s, step := states[i - 1], steps[i - 1];
      match step {
        case Recheck(id, d) => RecheckKeepsFresh(s, id, d);
        case SetState(id) => SetStateKeepsFresh(s, id);
        case ReadKey(_, _) | LookCache(_) | CheckState(_) => LookKeepsFresh(s, step);
        case Claim(_) | BeginProbe(_) | EndProbe(_, _, _) => ProbeKeepsFresh(s, step);
        case StoreFill(_) | DropWaiter(_) => SettleKeepsFresh(s, step);
        case ClearFlag(_) | Panic(_) => FlagKeepsFresh(s, step);
        case _ => InvalidationKeepsFresh(s, step);
      }
    }
  }

  /** The epoch of the last delete before `i`; zero when there was none. */
  ghost function LastDelete(states: seq<State>, steps: seq<Step>, i: nat): nat
    requires i <= |steps| < |states|
  {
    if i == 0 then 0
    else if steps[i - 1].ForgetGeneration? then states[i - 1].shared.epoch
    else LastDelete(states, steps, i - 1)
  }

  lemma BaseMoves(s: State, step: Step)
    requires SharedFresh(s.shared) && Enabled(s, step)
    ensures Next(s, step).shared.Base() == if step.ForgetGeneration? then s.shared.epoch else s.shared.Base()
  {
  }

  /** A base is the epoch of the last delete. */
  lemma {:induction false} BaseIsLastDelete(states: seq<State>, steps: seq<Step>, i: nat)
    requires Behavior(states, steps) && i < |states|
    ensures states[i].shared.Base() == LastDelete(states, steps, i)
  {
    if i > 0 {
      BaseIsLastDelete(states, steps, i - 1);
      RunIsFresh(states, steps, i - 1);
      BaseMoves(states[i - 1], steps[i - 1]);
    }
  }

  /**
   No stale catalog, over every interleaving of readers, invalidations and deletes: models returned to
   a reader come from a probe that began after the last invalidation before the reader read its
   fingerprint, and before it compared the fingerprint again, unless the leader that probed had read
   its own fingerprint before a delete that precedes the reading.
   */
  lemma NoStaleCatalog(states: seq<State>, steps: seq<Step>, i: nat, id: nat)
    requires Behavior(states, steps) && i < |states|
    requires id in states[i].readers && states[i].readers[id].at.Returned?
    requires states[i].readers[id].at.fill.models != []
    ensures var r := states[i].readers[id];
            && (r.at.fill.origin >= r.seen.epoch || r.at.fill.base < r.seen.base)
            && (r.at.checked.Some? ==>
                  r.at.fill.origin >= r.at.checked.value.epoch || r.at.fill.base < r.at.checked.value.base)
  {
    RunIsFresh(states, steps, i);
  }

  predicate ReaderBased(r: Reader) {
    r.seen.base == 0 && (r.at.Returned? && r.at.checked.Some? ==> r.at.checked.value.base == 0)
  }

  ghost predicate Based(s: State) {
    s.shared.Base() == 0 && forall id :: id in s.readers ==> ReaderBased(s.readers[id])
  }

  lemma StepStaysBased(s: State, step: Step)
    requires SharedFresh(s.shared) && Based(s) && Enabled(s, step) && !step.ForgetGeneration?
    ensures Based(Next(s, step))
  {
    BaseMoves(s, step);
  }

  lemma {:induction false} RunStaysBased(states: seq<State>, steps: seq<Step>, i: nat)
    requires Behavior(states, steps) && i < |states|
    requires forall k :: 0 <= k < i ==> !steps[k].ForgetGeneration?
    ensures Based(states[i])
  {
    if i > 0 {
      RunStaysBased(states, steps, i - 1);
      RunIsFresh(states, steps, i - 1);
      StepStaysBased(states[i - 1], steps[i - 1]);
    }
  }

  /** Without a delete so far, nothing stale is ever returned. */
  lemma NothingStaleWithoutDelete(states: seq<State>, steps: seq<Step>, i: nat, id: nat)
    requires Behavior(states, steps) && i < |states|
    requires forall k :: 0 <= k < i ==> !steps[k].ForgetGeneration?
    requires id in states[i].readers && states[i].readers[id].at.Returned?
    requires states[i].readers[id].at.fill.models != []
    ensures var r := states[i].readers[id];
            && r.at.fill.origin >= r.seen.epoch
            && (r.at.checked.Some? ==> r.at.fill.origin >= r.at.checked.value.epoch)
  {
    NoStaleCatalog(states, steps, i, id);
    RunStaysBased(states, steps, i);
  }

  // ── no lost wake-up ────────────────────────────────────────────────────────────────────────

  /** A leader, or its guard, that has not set its waiter's state yet. */
  predicate MustPublish(at: Pc) {
    at.Leading? || at.Probing? || at.Probed? || at.Publishing? || at.Clearing? || at.Unwinding? || at.Unwound?
  }

  /** The reader is between clearing the flag of `w` and setting its state. */
  predicate MidPublish(at: Pc) {
    at.Clearing? || at.Unwound?
  }

  /** An invalidation has cleared the flag of `w` and is about to set its state. */
  ghost predicate Waking(invalidations: map<nat, Invalidation>, w: nat) {
    exists k :: k in invalidations && invalidations[k] == Unpending(w)
  }

  /** The leader of `w` is alive and has yet to publish it. */
  predicate LedStill(s: State, w: nat)
    requires w < |s.shared.waiters|
  {
    var leader := s.shared.waiters[w].leader;
    leader in s.readers && MustPublish(s.readers[leader].at) && s.readers[leader].at.w == w
  }

  /** A waiter without a state has someone at work on it; without its flag, someone half-way. */
  ghost predicate Led(s: State, w: nat)
    requires w < |s.shared.waiters|
  {
    var waiter := s.shared.waiters[w];
    waiter.state.None? ==>
      || Waking(s.invalidations, w)
      || (LedStill(s, w) && (waiter.pending || MidPublish(s.readers[waiter.leader].at)))
  }

  predicate Bound(waiters: seq<Waiter>, id: nat, at: Pc) {
    && (MustPublish(at) ==> at.w < |waiters| && waiters[at.w].leader == id)
    && (at.Sleeping? ==> at.w < |waiters| && waiters[at.w].state.None?)
  }

  /** A pending waiter is being attended to; whoever sleeps, sleeps on one. */
  ghost predicate Attended(s: State) {
    && (forall w :: 0 <= w < |s.shared.waiters| ==> Led(s, w))
    && (forall id :: id in s.readers ==> Bound(s.shared.waiters, id, s.readers[id].at))
  }

  /** Steps of a reader that leave every waiter alone. */
  lemma QuietStepStaysAttended(s: State, step: Step)
    requires Attended(s) && Enabled(s, step)
    requires step.ReadKey? || step.LookCache? || step.StoreFill? || step.DropWaiter? || step.CheckState?
    ensures Attended(Next(s, step))
  {
    var s' := Next(s, step);
    forall w | 0 <= w < |s'.shared.waiters| ensures Led(s', w) {
      assert Led(s, w);
    }
  }

  lemma LeaderStaysAttended(s: State, step: Step)
    requires Attended(s) && Enabled(s, step)
    requires step.BeginProbe? || step.EndProbe? || step.Recheck? || step.Panic?
    ensures Attended(Next(s, step))
  {
    var s' := Next(s, step);
    forall w | 0 <= w < |s'.shared.waiters| ensures Led(s', w) {
      assert Led(s, w);
    }
  }

  lemma InvalidationStaysAttended(s: State, step: Step)
    requires Attended(s) && Enabled(s, step) && InvalidationStep(step) && !step.WakeWaiter?
    ensures Attended(Next(s, step))
  {
    var s' := Next(s, step);
    forall w | 0 <= w < |s'.shared.waiters| ensures Led(s', w) {
      assert Led(s, w);
      if Waking(s.invalidations, w) {
        var k :| k in s.invalidations && s.invalidations[k] == Unpending(w);
        assert k in s'.invalidations && s'.invalidations[k] == Unpending(w);
      }
      if step.ClearWaiter? {
        assert s'.invalidations[step.id].Unpending?;
      }
    }
  }

  lemma ClearFlagStaysAttended(s: State, id: nat)
    requires Attended(s) && Enabled(s, ClearFlag(id))
    ensures Attended(Next(s, ClearFlag(id)))
  {
    var s' := Next(s, ClearFlag(id));
    forall w | 0 <= w < |s'.shared.waiters| ensures Led(s', w) {
      assert Led(s, w);
    }
  }

  lemma ClaimStaysAttended(s: State, id: nat)
    requires Attended(s) && Enabled(s, Claim(id))
    ensures Attended(Next(s, Claim(id)))
  {
    var s' := Next(s, Claim(id));
    forall w | 0 <= w < |s'.shared.waiters| ensures Led(s', w) {
      if w < |s.shared.waiters| {
        assert Led(s, w);
      }
    }
  }

  /** Setting a state: the waiter is pending no longer and its sleepers are awake. */
  lemma SetStateStaysAttended(s: State, id: nat)
    requires Attended(s) && Enabled(s, SetState(id))
    ensures Attended(Next(s, SetState(id)))
  {
    var s' := Next(s, SetState(id));
    forall w | 0 <= w < |s'.shared.waiters| ensures Led(s', w) {
      assert Led(s, w);
    }
  }

  lemma WakeStaysAttended(s: State, id: nat)
    requires Attended(s) && Enabled(s, WakeWaiter(id))
    ensures Attended(Next(s, WakeWaiter(id)))
  {
    var s' := Next(s, WakeWaiter(id));
    forall w | 0 <= w < |s'.shared.waiters| ensures Led(s', w) {
      assert Led(s, w);
      if Waking(s.invalidations, w) && w != s.invalidations[id].w {
        var k :| k in s.invalidations && s.invalidations[k] == Unpending(w);
        assert k in s'.invalidations && s'.invalidations[k] == Unpending(w);
      }
    }
  }

  lemma StepStaysAttended(s: State, step: Step)
    requires Attended(s) && Enabled(s, step)
    ensures Attended(Next(s, step))
  {
    match step
    case SetState(id) => SetStateStaysAttended(s, id);
    case WakeWaiter(id) => WakeStaysAttended(s, id);
    case Claim(id) => ClaimStaysAttended(s, id);
    case ClearFlag(id) => ClearFlagStaysAttended(s, id);
    case ReadKey(_, _) | LookCache(_) | StoreFill(_) | DropWaiter(_) | CheckState(_) => QuietStepStaysAttended(s, step);
    case BeginProbe(_) | EndProbe(_, _, _) | Recheck(_, _) | Panic(_) => LeaderStaysAttended(s, step);
    case _ => InvalidationStaysAttended(s, step);
  }

  lemma {:induction false} RunIsAttended(states: seq<State>, steps: seq<Step>, i: nat)
    requires Behavior(states, steps) && i < |states|
    ensures Attended(states[i])
  {
    if i > 0 {
      RunIsAttended(states, steps, i - 1);
      StepStaysAttended(states[i - 1], steps[i - 1]);
    }
  }

  /**
   No lost wake-up, deletes and panics included: whoever waits, waits for a leader (or its guard) that is
   alive and has yet to publish, or for an invalidation that is about to; and of a reader that led and
   has returned or unwound, every waiter is ready or about to be.
   */
  lemma NoLostWakeUp(states: seq<State>, steps: seq<Step>, i: nat, id: nat)
    requires Behavior(states, steps) && i < |states| && id in states[i].readers
    ensures var s := states[i];
            s.readers[id].at.Sleeping? ==>
              && s.readers[id].at.w < |s.shared.waiters|
              && (LedStill(s, s.readers[id].at.w) || Waking(s.invalidations, s.readers[id].at.w))
    ensures var s := states[i];
            !MustPublish(s.readers[id].at) ==>
              forall w :: 0 <= w < |s.shared.waiters| && s.shared.waiters[w].leader == id ==>
                s.shared.waiters[w].state.Some? || Waking(s.invalidations, w)
  {
    RunIsAttended(states, steps, i);
    var s := states[i];
    assert Bound(s.shared.waiters, id, s.readers[id].at);
    if s.readers[id].at.Sleeping? {
      assert Led(s, s.readers[id].at.w);
    }
    forall w | 0 <= w < |s.shared.waiters| && s.shared.waiters[w].leader == id && !MustPublish(s.readers[id].at)
      ensures s.shared.waiters[w].state.Some? || Waking(s.invalidations, w)
    {
      assert Led(s, w);
    }
  }

  /** Ready never goes back to Pending. */
  lemma ReadyStaysReady(s: State, step: Step, w: nat)
    requires Enabled(s, step) && w < |s.shared.waiters| && s.shared.waiters[w].state.Some?
    ensures w < |Next(s, step).shared.waiters| && Next(s, step).shared.waiters[w].state.Some?
  {
  }

  // ── a delete forgets the generation ────────────────────────────────────────────────────────

  ghost predicate Reaches(states: seq<State>, steps: seq<Step>, s: State) {
    Behavior(states, steps) && states[|steps|] == s
  }

  lemma Extend(states: seq<State>, steps: seq<Step>, s: State, step: Step, s': State)
    returns (states': seq<State>, steps': seq<Step>)
    requires Reaches(states, steps, s) && Enabled(s, step) && Next(s, step) == s'
    ensures Reaches(states', steps', s')
  {
    states', steps' := states + [s'], steps + [step];
  }

  /** Reader 0 alone, leading or past it, with fingerprint `fp`. */
  function At(sh: Shared, fp: Fingerprint, at: Pc, gone: map<nat, Invalidation>): State {
    State(sh, map[0 := Reader(fp, Reading(0, 0), at)], gone)
  }

  function Led0(fp: Fingerprint): Shared {
    Shared(0, 0, None, Some(0), [Waiter(fp, 0, true, None)])
  }

  /** A leader has probed. */
  lemma SlowLeaderProbes(fp: Fingerprint, fill: Fill) returns (states: seq<State>, steps: seq<Step>)
    requires fp.generation == 0 && fill.complete && fill.origin == 0 && fill.base == 0
    ensures Reaches(states, steps, At(Led0(fp), fp, Probed(0, fill), map[]))
  {
    var none := Shared(0, 0, None, None, []);
    states, steps := [State(none, map[], map[])], [];
    states, steps := Extend(states, steps, states[0], ReadKey(0, fp.digest), At(none, fp, Keyed, map[]));
    states, steps := Extend(states, steps, At(none, fp, Keyed, map[]), LookCache(0), At(none, fp, Missed, map[]));
    states, steps := Extend(states, steps, At(none, fp, Missed, map[]), Claim(0), At(Led0(fp), fp, Leading(0), map[]));
    states, steps := Extend(states, steps, At(Led0(fp), fp, Leading(0), map[]), BeginProbe(0),
                            At(Led0(fp), fp, Probing(0, 0), map[]));
    states, steps := Extend(states, steps, At(Led0(fp), fp, Probing(0, 0), map[]),
                            EndProbe(0, fill.models, true), At(Led0(fp), fp, Probed(0, fill), map[]));
  }

  /** Meanwhile the entry is deleted: invalidated, and its generation forgotten. */
  lemma EntryIsDeleted(fp: Fingerprint, fill: Fill) returns (states: seq<State>, steps: seq<Step>)
    requires fp.generation == 0 && fill.complete && fill.origin == 0 && fill.base == 0
    ensures Reaches(states, steps, At(Led0(fp).(epoch := 1), fp, Probed(0, fill), map[0 := Cleared]))
  {
    states, steps := SlowLeaderProbes(fp, fill);
    var raised := Led0(fp).(generation := 1, epoch := 1);
    states, steps := Extend(states, steps, At(Led0(fp), fp, Probed(0, fill), map[]), Invalidate(0),
                            At(raised, fp, Probed(0, fill), map[0 := Bumped]));
    states, steps := Extend(states, steps, At(raised, fp, Probed(0, fill), map[0 := Bumped]), ClearCache(0),
                            At(raised, fp, Probed(0, fill), map[0 := Cleared]));
    states, steps := Extend(states, steps, At(raised, fp, Probed(0, fill), map[0 := Cleared]), ForgetGeneration,
                            At(Led0(fp).(epoch := 1), fp, Probed(0, fill), map[0 := Cleared]));
  }

  /** The leader's comparisons see nothing, and it stores what it probed. */
  lemma StaleModelsStored(fp: Fingerprint, fill: Fill) returns (states: seq<State>, steps: seq<Step>)
    requires fp.generation == 0 && fill.complete && fill.origin == 0 && fill.base == 0
    ensures Reaches(states, steps,
                    At(Shared(0, 1, Some(Cached(fp, fill)), Some(0), [Waiter(fp, 0, false, Some(fill))]),
                       fp, Dropping(0, fill), map[0 := Cleared]))
  {
    states, steps := EntryIsDeleted(fp, fill);
    var gone := map[0 := Cleared];
    var sh := Led0(fp).(epoch := 1);
    var cleared := sh.(waiters := [Waiter(fp, 0, false, None)]);
    var ready := sh.(waiters := [Waiter(fp, 0, false, Some(fill))]);
    states, steps := Extend(states, steps, At(sh, fp, Probed(0, fill), gone), Recheck(0, fp.digest),
                            At(sh, fp, Publishing(0, fill, fill), gone));
    states, steps := Extend(states, steps, At(sh, fp, Publishing(0, fill, fill), gone), ClearFlag(0),
                            At(cleared, fp, Clearing(0, fill, fill), gone));
    states, steps := Extend(states, steps, At(cleared, fp, Clearing(0, fill, fill), gone), SetState(0),
                            At(ready, fp, Published(0, fill), gone));
    states, steps := Extend(states, steps, At(ready, fp, Published(0, fill), gone), Recheck(0, fp.digest),
                            At(ready, fp, Storing(0, fill), gone));
    states, steps := Extend(states, steps, At(ready, fp, Storing(0, fill), gone), StoreFill(0),
                            At(ready.(cache := Some(Cached(fp, fill))), fp, Dropping(0, fill), gone));
  }

  /** With a delete the promise fails: a slow leader of the deleted entry stores its models under a
      generation that counts from zero again, and a later reader of a new entry gets them. */
  lemma DeleteLetsStaleThrough(digest: string, model: string)
    returns (states: seq<State>, steps: seq<Step>, s: State)
    ensures Reaches(states, steps, s)
    ensures 1 in s.readers && s.readers[1].at.Returned? && s.readers[1].at.fill.models == [model]
    ensures s.readers[1].at.fill.origin < s.readers[1].seen.epoch
  {
    var fp, fill := Fingerprint(0, digest), Fill([model], true, 0, 0);
    states, steps := StaleModelsStored(fp, fill);
    var s0 := At(Shared(0, 1, Some(Cached(fp, fill)), Some(0), [Waiter(fp, 0, false, Some(fill))]),
                 fp, Dropping(0, fill), map[0 := Cleared]);
    var s1 := s0.(readers := s0.readers[1 := Reader(fp, Reading(1, 1), Keyed)]);
    s := s0.(readers := s0.readers[1 := Reader(fp, Reading(1, 1), Returned(fill, None))]);
    states, steps := Extend(states, steps, s0, ReadKey(1, digest), s1);
    states, steps := Extend(states, steps, s1, LookCache(1), s);
  }
}
