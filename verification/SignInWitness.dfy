/**
 Runs that reach the cases the theorems except: each is a sequence of steps the program can take, built
 up step by step.
 */
module SignInWitness {
  import opened Basics
  import opened SignInModel
  import opened SignInCoherence
  import opened SignInCustody
  import opened SignInRefinement
  import opened SignInPromises

  // ── building runs ──────────────────────────────────────────────────────────────────────────

  /** A run of this installation over a store in custody. */
  ghost predicate Run(c: Config, states: seq<State>, steps: seq<Step>) {
    Behavior(c, states, steps) && Initial(c, states[0]) && Custody(c, states[0].vault.store)
  }

  function Last(states: seq<State>): State
    requires states != []
  {
    states[|states| - 1]
  }

  /** The longer run begins with the shorter one. */
  ghost predicate Continues(states: seq<State>, steps: seq<Step>, states': seq<State>, steps': seq<Step>) {
    && |states| <= |states'| && |steps| <= |steps'|
    && (forall k :: 0 <= k < |states| ==> states'[k] == states[k])
    && (forall k :: 0 <= k < |steps| ==> steps'[k] == steps[k])
  }

  lemma Extend(c: Config, states: seq<State>, steps: seq<Step>, step: Step)
    returns (states': seq<State>, steps': seq<Step>)
    requires Run(c, states, steps) && Enabled(c, Last(states), step)
    ensures Run(c, states', steps') && |steps'| == |steps| + 1 && steps'[|steps|] == step
    ensures Continues(states, steps, states', steps') && Last(states') == Next(c, Last(states), step)
  {
    RunExtends(c, states, steps, step, Next(c, Last(states), step));
    states', steps' := states + [Next(c, Last(states), step)], steps + [step];
  }

  /** The locks are free and the process knows its host id. */
  predicate Ready(s: State) {
    s.marks.control.None? && s.marks.request.None? && s.vault.hostCached && s.vault.hostFile
  }

  /** A start with the next generation. */
  lemma AttemptStarts(c: Config, states: seq<State>, steps: seq<Step>)
    returns (states': seq<State>, steps': seq<Step>)
    requires Run(c, states, steps) && Ready(Last(states))
    ensures Run(c, states', steps') && Ready(Last(states')) && Last(states').vault == Last(states).vault
    ensures Last(states').marks.codeless == Last(states).marks.codeless
    ensures Last(states').marks.attempt == Some(Last(states').marks.generation)
  {
    states', steps' := Extend(c, states, steps, ControlStep(Starting));
    states', steps' := Extend(c, states', steps', InstallStep(Last(states').marks.generation + 1));
  }

  /** The running attempt fails or its window ends. */
  lemma AttemptEnds(c: Config, states: seq<State>, steps: seq<Step>)
    returns (states': seq<State>, steps': seq<Step>)
    requires Run(c, states, steps) && Ready(Last(states)) && Last(states).marks.attempt.Some?
    ensures Run(c, states', steps') && Ready(Last(states')) && Last(states').vault == Last(states).vault
    ensures Last(states').marks.codeless == Last(states).marks.codeless
  {
    states', steps' := Extend(c, states, steps, EndStep(Last(states).marks.attempt.value));
  }

  function SignedIn(c: Config): Record {
    Record(c.issuer, "client", Some("account"), c.host,
           Some(Session("access", Some("refresh"), [c.planScope], 0, None, 0)), [])
  }

  /** The start: a process over the store of a completed sign-in. */
  lemma Signed(c: Config) returns (states: seq<State>, steps: seq<Step>)
    ensures Run(c, states, steps) && Ready(Last(states))
    ensures Last(states).vault.store == Store(Token("access", true), Holds(SignedIn(c)))
    ensures Last(states).vault.unsaved.Nothing? && Last(states).marks == NO_MARKS
  {
    var st := Store(Token("access", true), Holds(SignedIn(c)));
    states, steps := [State(Vault(true, false, st, Nothing, [st]), NO_MARKS)], [];
    states, steps := Extend(c, states, steps, EnsureHostStep);
  }

  // ── a registration kept over a pending removal ─────────────────────────────────────────────

  /** The token of a sign-in that is being removed: the record lost its session, the token stayed. */
  predicate HalfRemoved(c: Config, v: Vault) {
    && v.unsaved.UnsavedRemoval? && TokenOurs(v.store)
    && v.store.record == Holds(SignedIn(c).(session := None))
  }

  /** An attempt brings back a code, the client is refused, and the removals stop at the token. */
  lemma RefusedHalfWay(c: Config) returns (states: seq<State>, steps: seq<Step>)
    ensures Run(c, states, steps) && Ready(Last(states)) && HalfRemoved(c, Last(states).vault)
  {
    states, steps := Signed(c);
    states, steps := AttemptStarts(c, states, steps);
    states, steps := Extend(c, states, steps, CodeStep);
    states, steps := Extend(c, states, steps, DropDeadStep("client", AllTaken().(clear := false)));
    states, steps := AttemptEnds(c, states, steps);
  }

  /** The next attempt, a first registration again, brings back a code and its client is kept. */
  lemma KeptOverRemoval(c: Config, taken: bool) returns (states: seq<State>, steps: seq<Step>)
    ensures Run(c, states, steps) && Ready(Last(states)) && Last(states).marks.codeless.None?
    ensures Last(states).marks.attempt.Some? && TokenOurs(Last(states).vault.store)
    ensures var v, kept := Last(states).vault, Registration(c, "other");
            if taken then v.unsaved.Nothing? && v.store.record == Holds(kept)
            else v.unsaved == UnsavedRecord(kept) && v.store.record == Holds(SignedIn(c).(session := None))
  {
    states, steps := RefusedHalfWay(c);
    states, steps := AttemptStarts(c, states, steps);
    states, steps := Extend(c, states, steps, CodeStep);
    states, steps := Extend(c, states, steps, RetainStep("other", AllTaken().(record := taken)));
  }

  /** Custody breaks: this module's token stands beside a bare registration. */
  lemma RetainOverRemovalWitness(c: Config) returns (states: seq<State>, steps: seq<Step>)
    ensures Run(c, states, steps) && !Custody(c, Last(states).vault.store)
  {
    states, steps := KeptOverRemoval(c, true);
  }

  /** A sign-out after that, every write taken, reports the name clear and leaves this module's token. */
  lemma MisreportWitness(c: Config) returns (states: seq<State>, steps: seq<Step>, before: State)
    ensures Run(c, states, steps) && |steps| > 0 && states[|steps| - 1] == before
    ensures steps[|steps| - 1] == SignOutStep(AllTaken(), AllTaken())
    ensures SignOut(c, before, AllTaken(), AllTaken()).1 && TokenOurs(Last(states).vault.store)
  {
    states, steps := KeptOverRemoval(c, true);
    states, steps := Extend(c, states, steps, ControlStep(SigningOut));
    before := Last(states);
    states, steps := Extend(c, states, steps, SignOutStep(AllTaken(), AllTaken()));
  }

  /** One more attempt over the kept registration whose window ends without a code. */
  lemma EndsWithoutCode(c: Config, states: seq<State>, steps: seq<Step>)
    returns (states': seq<State>, steps': seq<Step>, before: State)
    requires Run(c, states, steps) && Ready(Last(states))
    ensures Run(c, states', steps') && |steps'| > 0 && states'[|steps'| - 1] == before
    ensures steps'[|steps'| - 1] == CodelessStep("other", AllTaken())
    ensures Ready(before) && before.vault == Last(states).vault && before.marks.codeless == Last(states).marks.codeless
    ensures Last(states') == CountCodelessEnding(c, before, "other", AllTaken())
  {
    states', steps' := AttemptStarts(c, states, steps);
    states', steps' := AttemptEnds(c, states', steps');
    before := Last(states');
    states', steps' := Extend(c, states', steps', CodelessStep("other", AllTaken()));
  }

  /** Recovery overreaches: the registration was kept only in memory, ends twice without a code, and the
      stored account and this module's token go. */
  lemma OverreachWitness(c: Config) returns (states: seq<State>, steps: seq<Step>, before: State)
    ensures Run(c, states, steps) && |steps| > 0 && states[|steps| - 1] == before && steps[|steps| - 1].CodelessStep?
    ensures Claimed(c, before.vault.store.record) && TokenOurs(before.vault.store)
    ensures Last(states).vault.store == Store(NoToken, Empty)
  {
    states, steps := KeptOverRemoval(c, false);
    states, steps := AttemptEnds(c, states, steps);
    states, steps, before := EndsWithoutCode(c, states, steps);
    assert Ready(Last(states)) && Last(states).marks.codeless == Some(Codeless("other", 1));
    states, steps, before := EndsWithoutCode(c, states, steps);
  }

  // ── a session without an account ───────────────────────────────────────────────────────────

  /** Why runs start without a session that names no account: ending one would leave the token
      beside a record that no longer claims it. */
  lemma UnbackedSessionWitness(c: Config) returns (states: seq<State>, steps: seq<Step>)
    ensures Behavior(c, states, steps) && Custody(c, states[0].vault.store)
    ensures forall k :: 0 <= k < |steps| ==> Orderly(states[k], steps[k])
    ensures !Custody(c, states[|states| - 1].vault.store)
  {
    var r := SignedIn(c).(subject := None);
    var st := Store(Token("access", true), Holds(r));
    var s0 := State(Vault(true, false, st, Nothing, [st]), NO_MARKS);
    steps := [ControlStep(SigningOut), SignOutStep(AllTaken(), AllTaken().(clear := false))];
    var s1 := Next(c, s0, steps[0]);
    states := [s0, s1, Next(c, s1, steps[1])];
    assert states[2].vault.store == Store(st.token, Holds(r.(session := None)));
  }

  // ── a renewal the store did not take ───────────────────────────────────────────────────────

  function Forced(): Query {
    Query(true, 0, 0, 0, 0, AllTaken(), AllTaken(), AllTaken())
  }

  /** A forced renewal is sent with the stored refresh token. */
  lemma RenewalSent(c: Config, states: seq<State>, steps: seq<Step>)
    returns (states': seq<State>, steps': seq<Step>)
    requires Run(c, states, steps) && Last(states).marks == NO_MARKS
    requires Last(states).vault.hostFile && Last(states).vault.unsaved.Nothing?
    requires Last(states).vault.store.record == Holds(SignedIn(c))
    ensures Run(c, states', steps') && |steps'| == |steps| + 1 && steps'[|steps|] == FreshStep(Forced())
    ensures Continues(states, steps, states', steps')
    ensures Last(states').vault.store == Last(states).vault.store && Last(states').vault.unsaved.Nothing?
    ensures Last(states').marks.control.None? && Last(states').marks.clock == 0
    ensures Last(states').marks.request == Some(Request(SignedIn(c), SignedIn(c).session.value))
    ensures Retired(Last(states').marks.log) == {} && Last(states').vault.hostFile && Last(states').vault.hostCached
  {
    states', steps' := Extend(c, states, steps, FreshStep(Forced()));
  }

  function Replacing(): Tokens {
    Tokens("access 2", Some("refresh 2"), 3600, None, None)
  }

  /** An answer that replaces the refresh token while the store refuses the record. */
  lemma AnswerUnsaved(c: Config, s: State)
    requires Coherent(c, s) && s.marks.control.None?
    requires s.marks.request == Some(Request(SignedIn(c), SignedIn(c).session.value))
    ensures var s' := FreshEnd(c, s, Renewed(Replacing()), 0, 0, AllTaken().(record := false)).0;
            && Ready(s') && s'.vault.store.record == s.vault.store.record && "refresh" in Retired(s'.marks.log)
            && s'.vault.unsaved.UnsavedRecord? && s'.vault.unsaved.record.session.Some?
  {
    var log := FreshEnd(c, s, Renewed(Replacing()), 0, 0, AllTaken().(record := false)).0.marks.log;
    assert log[|log| - 1] == RenewalDone("refresh", true);
  }

  lemma RenewalUnsaved(c: Config) returns (states: seq<State>, steps: seq<Step>)
    ensures Run(c, states, steps) && Ready(Last(states))
    ensures Last(states).vault.store.record == Holds(SignedIn(c)) && "refresh" in Retired(Last(states).marks.log)
    ensures Last(states).vault.unsaved.UnsavedRecord? && Last(states).vault.unsaved.record.session.Some?
  {
    states, steps := Signed(c);
    states, steps := RenewalSent(c, states, steps);
    RunIsCoherent(c, states, steps, |steps|);
    AnswerUnsaved(c, Last(states));
    states, steps := Extend(c, states, steps, AnswerStep(Renewed(Replacing()), 0, 0, AllTaken().(record := false)));
  }

  /** The process dies then. */
  lemma DiesUnsaved(c: Config) returns (states: seq<State>, steps: seq<Step>, before: State)
    ensures Run(c, states, steps) && |steps| > 0 && steps[|steps| - 1] == CrashStep && states[|steps| - 1] == before
    ensures "refresh" in Retired(before.marks.log) && !before.vault.unsaved.Nothing?
    ensures Last(states).marks == NO_MARKS && Last(states).vault.hostFile && Last(states).vault.unsaved.Nothing?
    ensures Last(states).vault.store.record == Holds(SignedIn(c))
  {
    states, steps := RenewalUnsaved(c);
    before := Last(states);
    states, steps := Extend(c, states, steps, CrashStep);
  }

  /** The next process then presents the refresh token the server has replaced. */
  lemma CrashPresentsRetiredWitness(c: Config)
    returns (states: seq<State>, steps: seq<Step>, died: nat, before: State)
    ensures Run(c, states, steps) && died < |steps| && steps[died] == CrashStep && states[died] == before
    ensures "refresh" in Retired(before.marks.log)
    ensures Last(states).marks.request.Some? && Last(states).marks.request.value.session.refreshToken == Some("refresh")
  {
    var states0, steps0;
    states0, steps0, before := DiesUnsaved(c);
    died := |steps0| - 1;
    states, steps := RenewalSent(c, states0, steps0);
  }

  /** A sign-out that wavers: with its read refused, it ends the unsaved session or leaves it, as the
      store refuses or takes the flush. */
  lemma WaveringSignOutWitness(c: Config) returns (states: seq<State>, steps: seq<Step>, a: Step, b: Step)
    ensures Run(c, states, steps) && Coherent(c, Last(states)) && Blind(a) == Blind(b)
    ensures a.SignOutStep? && Enabled(c, Last(states), a) && Enabled(c, Last(states), b)
    ensures HasSession(c, Next(c, Last(states), a).vault) && !HasSession(c, Next(c, Last(states), b).vault)
  {
    states, steps := RenewalUnsaved(c);
    states, steps := Extend(c, states, steps, ControlStep(SigningOut));
    RunIsCoherent(c, states, steps, |steps|);
    a := SignOutStep(AllTaken(), AllTaken().(read := false));
    b := Turned(a);
    CallSteady(c, Last(states), a, b);
    CallSteady(c, Last(states), b, a);
  }
}
