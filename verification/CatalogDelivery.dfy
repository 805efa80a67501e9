/**
 What a reader of the model catalog gets: as long as its comparisons find the fingerprint unchanged, it
 returns exactly what it found in the cache, in the waiter it joined, or in its own probe; and a leader
 publishes what it probed and stores it when it is complete.
 */
module CatalogDelivery {
  import opened Basics
  import opened ModelCatalog

  /** A comparison this reader makes finds its fingerprint unchanged. */
  predicate Equal(s: State, step: Step, id: nat) {
    step.Recheck? && step.id == id && id in s.readers ==>
      s.readers[id].fingerprint == Fingerprint(s.shared.generation, step.digest)
  }

  /** What a step lets the reader find. */
  function Finds(s: State, step: Step, id: nat): Option<Fill> {
    if id !in s.readers then None
    else match step
      case LookCache(reader) =>
        if reader == id && s.shared.cache.Some? && s.shared.cache.value.fingerprint == s.readers[id].fingerprint
           && s.shared.cache.value.fill.complete
        then Some(s.shared.cache.value.fill) else None
      case EndProbe(reader, models, complete) =>
        if reader == id && s.readers[id].at.Probing?
        then Some(Fill(models, complete, s.readers[id].at.began, s.readers[id].seen.base)) else None
      case CheckState(reader) =>
        if reader == id && s.readers[id].at.Following? && s.readers[id].at.w < |s.shared.waiters|
        then s.shared.waiters[s.readers[id].at.w].state else None
      case _ => None
  }

  /** Where a reader that found `found`, or nothing yet, can be while its comparisons hold. */
  predicate OnWay(at: Pc, found: Option<Fill>) {
    match at
    case Probed(_, fill) => found == Some(fill)
    case Publishing(_, fill, out) => found == Some(fill) && out == fill
    case Clearing(_, fill, out) => found == Some(fill) && out == fill
    case Published(_, fill) => found == Some(fill)
    case Storing(_, fill) => found == Some(fill)
    case Dropping(_, fill) => found == Some(fill)
    case Finishing(_, fill) => found == Some(fill)
    case Woken(_, fill) => found == Some(fill)
    case Returned(fill, _) => found == Some(fill)
    case Keyed => found.None?
    case Missed => found.None?
    case Leading(_) => found.None?
    case Probing(_, _) => found.None?
    case Following(_) => found.None?
    case Sleeping(_) => found.None?
    case _ => false
  }

  lemma StepOnWay(s: State, step: Step, id: nat, found: Option<Fill>)
    requires Enabled(s, step) && id in s.readers && OnWay(s.readers[id].at, found)
    requires Equal(s, step, id) && step != Panic(id)
    ensures var s' := Next(s, step);
            && id in s'.readers && s'.readers[id].fingerprint == s.readers[id].fingerprint
            && OnWay(s'.readers[id].at, if Finds(s, step, id).Some? then Finds(s, step, id) else found)
  {
  }

  /** The last thing the reader found between `i` and `j`. */
  function FoundSince(states: seq<State>, steps: seq<Step>, id: nat, i: nat, j: nat): Option<Fill>
    requires i <= j <= |steps| < |states|
  {
    if i == j then None
    else
      var now := Finds(states[j - 1], steps[j - 1], id);
      if now.Some? then now else FoundSince(states, steps, id, i, j - 1)
  }

  /** The reader neither panics nor compares differently between `i` and `j`. */
  ghost predicate Steady(states: seq<State>, steps: seq<Step>, id: nat, i: nat, j: nat)
    requires i <= j <= |steps| < |states|
  {
    forall k :: i <= k < j ==> steps[k] != Panic(id) && Equal(states[k], steps[k], id)
  }

  lemma {:induction false} RunOnWay(states: seq<State>, steps: seq<Step>, id: nat, i: nat, j: nat)
    requires Behavior(states, steps) && i <= j < |states| && Steady(states, steps, id, i, j)
    requires id in states[i].readers && states[i].readers[id].at.Keyed?
    ensures id in states[j].readers && states[j].readers[id].fingerprint == states[i].readers[id].fingerprint
    ensures OnWay(states[j].readers[id].at, FoundSince(states, steps, id, i, j))
  {
    if i < j {
      RunOnWay(states, steps, id, i, j - 1);
      StepOnWay(states[j - 1], steps[j - 1], id, FoundSince(states, steps, id, i, j - 1));
    }
  }

  /**
   A reader returns exactly what it found: over every run from its fingerprint reading on in which it
   does not panic and its own comparisons hold, the complete fill cached under its fingerprint, the state
   of the waiter it joined, or what its own probe came back with. So it returns nothing only if that is
   what it found, a comparison differed, or it panicked.
   */
  lemma ReaderGetsWhatItFound(states: seq<State>, steps: seq<Step>, id: nat, i: nat, j: nat)
    requires Behavior(states, steps) && i <= j < |states| && Steady(states, steps, id, i, j)
    requires id in states[i].readers && states[i].readers[id].at.Keyed?
    ensures id in states[j].readers
    ensures states[j].readers[id].at.Returned? ==>
              FoundSince(states, steps, id, i, j) == Some(states[j].readers[id].at.fill)
  {
    RunOnWay(states, steps, id, i, j);
  }

  /** A reader whose comparison differs gets nothing: it does not hand out what may be stale. */
  lemma DifferenceReturnsNothing(s: State, id: nat, digest: string)
    requires Enabled(s, Recheck(id, digest)) && !Equal(s, Recheck(id, digest), id)
    requires s.readers[id].at.Woken? || s.readers[id].at.Finishing?
    ensures var at := Next(s, Recheck(id, digest)).readers[id].at;
            at.Returned? && at.fill.models == [] && at.fill.complete
  {
  }

  // ── leaders ────────────────────────────────────────────────────────────────────────────────

  /** How far a leader with this fill is. */
  predicate LeaderAt(at: Pc, w: nat, fill: Fill, stage: nat) {
    || (stage == 0 && at == Probed(w, fill))
    || (stage == 1 && at == Publishing(w, fill, fill))
    || (stage == 2 && at == Clearing(w, fill, fill))
    || (stage == 3 && at == Published(w, fill))
    || (stage == 4 && at == Storing(w, fill))
    || (stage == 5 && at == Dropping(w, fill))
    || (stage == 6 && at == Finishing(w, fill))
    || (stage == 7 && at.Returned? && at.fill == fill)
  }

  ghost predicate PublishedFill(s: State, w: nat, fill: Fill) {
    w < |s.shared.waiters| && s.shared.waiters[w].state == Some(fill)
  }

  ghost predicate StoredFill(s: State, fp: Fingerprint, fill: Fill) {
    s.shared.cache == Some(Cached(fp, fill))
  }

  lemma LeaderMoves(s: State, step: Step, id: nat, w: nat, fill: Fill, stage: nat) returns (stage': nat)
    requires Enabled(s, step) && id in s.readers && LeaderAt(s.readers[id].at, w, fill, stage)
    requires Equal(s, step, id) && step != Panic(id) && w < |s.shared.waiters|
    ensures var s' := Next(s, step);
            && id in s'.readers && s'.readers[id].fingerprint == s.readers[id].fingerprint
            && w < |s'.shared.waiters|
            && LeaderAt(s'.readers[id].at, w, fill, stage') && stage <= stage' <= stage + 1
            && (stage < 3 <= stage' ==> PublishedFill(s', w, fill))
            && (stage < 5 <= stage' && fill.complete ==> StoredFill(s', s.readers[id].fingerprint, fill))
  {
    var acts := step.Recheck? || step.ClearFlag? || step.SetState? || step.StoreFill? || step.DropWaiter?;
    stage' := if stage < 7 && acts && step.id == id then stage + 1 else stage;
  }

  /**
   A leader whose probe came back at `i` and whose comparisons hold: what it returns is what it probed, it
   has published it to whoever joined, and if it is complete it has stored it under its fingerprint.
   */
  lemma {:induction false} LeaderServes(
    states: seq<State>, steps: seq<Step>, id: nat, i: nat, j: nat, w: nat, fill: Fill)
    returns (stage: nat)
    requires Behavior(states, steps) && i <= j < |states| && Steady(states, steps, id, i, j)
    requires id in states[i].readers && states[i].readers[id].at == Probed(w, fill)
    ensures id in states[j].readers && states[j].readers[id].fingerprint == states[i].readers[id].fingerprint
    ensures LeaderAt(states[j].readers[id].at, w, fill, stage) && w < |states[j].shared.waiters|
    ensures states[j].readers[id].at.Returned? ==> stage == 7 && states[j].readers[id].at.fill == fill
    ensures stage >= 3 ==> exists k :: i < k <= j && PublishedFill(states[k], w, fill)
    ensures stage >= 5 && fill.complete ==>
              exists k :: i < k <= j && StoredFill(states[k], states[i].readers[id].fingerprint, fill)
  {
    if i == j {
      RunIsFresh(states, steps, i);
      stage := 0;
    } else {
      var before := LeaderServes(states, steps, id, i, j - 1, w, fill);
      stage := LeaderMoves(states[j - 1], steps[j - 1], id, w, fill, before);
      assert before < 3 <= stage ==> PublishedFill(states[j], w, fill);
      assert before < 5 <= stage && fill.complete ==> StoredFill(states[j], states[i].readers[id].fingerprint, fill);
    }
  }

  /** A leader that panics before it published leaves its followers an incomplete empty list, not one that
      reads as the whole catalog. */
  lemma GuardPublishesIncomplete(s: State, id: nat)
    requires Enabled(s, SetState(id)) && s.readers[id].at.Unwound? && s.readers[id].at.w < |s.shared.waiters|
    ensures var state := Next(s, SetState(id)).shared.waiters[s.readers[id].at.w].state;
            state.Some? && state.value.models == [] && !state.value.complete
  {
  }

  // ── joining ────────────────────────────────────────────────────────────────────────────────

  /** A reader that missed joins the flight exactly when that is of its fingerprint and pending; else it
      leads a new one. */
  lemma JoinsIff(s: State, id: nat)
    requires Enabled(s, Claim(id))
    ensures var s', r := Next(s, Claim(id)), s.readers[id];
            var joins := exists w :: s.shared.inflight == Some(w) && w < |s.shared.waiters|
                                     && s.shared.waiters[w].fingerprint == r.fingerprint && s.shared.waiters[w].pending;
            if joins then s'.shared == s.shared && s'.readers[id].at == Following(s.shared.inflight.value)
            else
              && s'.readers[id].at == Leading(|s.shared.waiters|)
              && s'.shared.inflight == Some(|s.shared.waiters|) && s'.shared.cache == s.shared.cache
              && s'.shared.waiters == s.shared.waiters + [Waiter(r.fingerprint, id, true, None)]
  {
  }
}
