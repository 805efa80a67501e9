/**
 The calls a user of the sign-in makes. The port remembers the run its calls make up, so every property
 of runs is a property of the object, and each call states what its caller can rely on.
 */
module SignInPort {
  import opened Basics
  import opened SignInModel
  import opened SignInCoherence
  import opened SignInCustody
  import opened SignInRefinement
  import opened SignInPromises
  import opened SignInFresh
  import opened SignInEffects
  import opened SignInName

  class Port {
    const ns: NameState
    ghost var states: seq<State>
    ghost var steps: seq<Step>

    /** The object is at the end of a run. */
    ghost predicate Valid()
      reads this, ns
    {
      Behavior(ns.config, states, steps) && Initial(ns.config, states[0]) && states[|steps|] == ns.View()
    }

    /** The run has kept to the custody rule. */
    ghost predicate Rightful()
      reads this
    {
      && |states| == |steps| + 1 && Custody(ns.config, states[0].vault.store)
      && forall k :: 0 <= k < |steps| ==> Orderly(states[k], steps[k])
    }

    /** What a valid object keeps: the promises of runs, and custody while the rule is kept to. */
    lemma Keeps()
      requires Valid()
      ensures Reliable(ns.config, ns.View())
      ensures Rightful() ==> Custodial(ns.config, ns.VaultView())
    {
      RunIsReliable(ns.config, states, steps, |steps|);
      if Rightful() {
        RunKeepsCustody(ns.config, states, steps, |steps|);
      }
    }

    constructor (c: Config, hostFile: bool, store: Store)
      ensures ns.config == c && ns.VaultView().store == store && fresh(ns)
      ensures BackedSlot(c, store.record) ==> Valid()
      ensures Custody(c, store) ==> Rightful()
    {
      ns := new NameState(c, hostFile, store);
      new;
      states, steps := [ns.View()], [];
    }

    /** A step that has been executed joins the run. */
    method Note(ghost before: State, ghost step: Step)
      requires Behavior(ns.config, states, steps) && Initial(ns.config, states[0]) && states[|steps|] == before
      requires Enabled(ns.config, before, step) && ns.View() == Next(ns.config, before, step)
      modifies this`states, this`steps
      ensures Valid() && states == old(states) + [ns.View()] && steps == old(steps) + [step]
      ensures old(Rightful()) && Orderly(before, step) ==> Rightful()
    {
      RunExtends(ns.config, states, steps, step, ns.View());
      states, steps := states + [ns.View()], steps + [step];
    }

    method Perform(step: Step)
      requires Valid() && Enabled(ns.config, ns.View(), step)
      modifies this, ns
      ensures Valid() && ns.View() == Next(ns.config, old(ns.View()), step)
      ensures old(Rightful()) && Orderly(old(ns.View()), step) ==> Rightful()
    {
      ghost var before := ns.View();
      ns.Execute(step);
      Note(before, step);
    }

    // ── attempts ─────────────────────────────────────────────────────────────────────────────

    /** Whatever attempt ran is replaced by the new one. */
    method Start(g: nat)
      requires Valid() && ns.control.None? && ns.hostCached && g > ns.generation
      modifies this, ns
      ensures Valid() && ns.attempt == Some(g) && ns.control.None?
      ensures old(Rightful()) ==> Rightful()
      ensures ns.VaultView() == old(ns.VaultView())
    {
      Perform(ControlStep(Starting));
      Perform(InstallStep(g));
    }

    method Cancel()
      requires Valid() && ns.control.None?
      modifies this, ns
      ensures Valid() && ns.attempt.None? && ns.control.None?
      ensures old(Rightful()) ==> Rightful()
      ensures ns.VaultView() == old(ns.VaultView())
    {
      Perform(ControlStep(Cancelling));
      Perform(AbandonStep);
    }

    /** A commit is all or nothing for the record the process sees, and happens only for the attempt that
        holds the slot. */
    method Commit(g: nat, r: Record, l: Luck) returns (committed: bool)
      requires Valid() && Enabled(ns.config, ns.View(), CommitStep(g, r, l))
      modifies this, ns
      ensures Valid() && (old(Rightful()) ==> Rightful())
      ensures committed ==> old(ns.attempt) == Some(g) && ns.VaultView().Logical() == Found(r) && ns.attempt.None?
      ensures !committed ==> ns.VaultView() == old(ns.VaultView())
      ensures committed <==> old(ns.attempt) == Some(g) && l.record
      ensures committed ==> ns.record == Holds(r) && ns.unsaved.Nothing?
      ensures committed ==> ns.token == if l.token then Token(r.session.value.accessToken, true) else old(ns.token)
    {
      ghost var before := ns.View();
      committed := ns.Commit(g, r, l);
      Note(before, CommitStep(g, r, l));
    }

    // ── renewal ──────────────────────────────────────────────────────────────────────────────

    /** The answer is true of the state it leaves; a request that goes out presents a refresh token the
        server has not retired. */
    method EnsureFresh(q: Query) returns (outcome: Option<Outcome>, usable: bool)
      requires Valid() && ns.request.None? && q.mono >= ns.clock
      modifies this, ns
      ensures Valid() && (old(Rightful()) ==> Rightful())
      ensures outcome == Verdict(ns.config, old(ns.View()), q)
      ensures Truthful(ns.config, Begun(ns.View(), outcome, usable), q)
      ensures outcome.None? ==>
                ns.request.Some? && ns.request.value.session.refreshToken.Some?
                && ns.request.value.session.refreshToken.value !in Retired(ns.log)
    {
      Keeps();
      ghost var before := ns.View();
      outcome, usable := ns.FreshLocked(q);
      Note(before, FreshStep(q));
      AnswersAreTrue(ns.config, before, q);
      FreshVerdict(ns.config, before, q);
      Keeps();
    }

    /** Ok: the token stored is that of the session seen, with the plan scope. Not signed in exactly on a
        terminal answer, and then no session is left. */
    method FinishRenewal(a: Answer, now: U64, mono: nat, l: Luck) returns (o: Outcome)
      requires Valid() && Enabled(ns.config, ns.View(), AnswerStep(a, now, mono, l))
      modifies this, ns
      ensures Valid() && (old(Rightful()) ==> Rightful()) && ns.request.None?
      ensures o.Ok? ==> HasSession(ns.config, ns.VaultView())
                        && Serves(ns.config, ns.VaultView(), ns.VaultView().Logical().record.session.value)
      ensures o == AnswerVerdict(ns.config, old(ns.View()), a, now, l)
      ensures a.Renewed? ==>
                HasSession(ns.config, ns.VaultView())
                && Renews(a.tokens, old(ns.request).value.session, now, ns.VaultView().Logical().record.session.value)
      ensures o == Err(NotSignedIn) ==> !HasSession(ns.config, ns.VaultView())
    {
      Keeps();
      ghost var before := ns.View();
      o := ns.RenewalAnswered(a, now, mono, l);
      Note(before, AnswerStep(a, now, mono, l));
      RenewalAnswersAreTrue(ns.config, before, a, now, mono, l);
      AnswerVerdictHolds(ns.config, before, a, now, mono, l);
      if a.Renewed? {
        RenewedRecord(ns.config, before, a.tokens, now, mono, l);
      }
    }

    // ── sign-out and forget ──────────────────────────────────────────────────────────────────

    /** A name reported clear holds no session of this host and, while the custody rule is kept to, no
        token of this module; the attempt that ran is over either way. */
    method SignOut(flush: Luck, l: Luck) returns (clear: bool)
      requires Valid() && ns.control.None? && ns.request.None?
      modifies this, ns
      ensures Valid() && (old(Rightful()) ==> Rightful()) && ns.attempt.None? && ns.control.None?
      ensures clear && old(ns.hostFile) ==> NoSession(ns.config, ns.VaultView())
      ensures clear && old(ns.hostFile) && Rightful() ==> !TokenOurs(ns.VaultView().store)
    {
      Perform(ControlStep(SigningOut));
      clear := FinishSignOut(flush, l);
    }

    /** The same once the control lock is held and the attempt stopped, the session having come free. */
    method FinishSignOut(flush: Luck, l: Luck) returns (clear: bool)
      requires Valid() && ns.control == Some(SigningOut) && ns.request.None?
      modifies this, ns
      ensures Valid() && (old(Rightful()) ==> Rightful()) && ns.attempt.None? && ns.control.None?
      ensures clear && old(ns.hostFile) ==> NoSession(ns.config, ns.VaultView())
      ensures clear && old(ns.hostFile) && Rightful() ==> !TokenOurs(ns.VaultView().store)
    {
      ghost var before := ns.View();
      clear := StepSignOut(flush, l);
      Reported(before, clear, flush, l);
    }

    method StepSignOut(flush: Luck, l: Luck) returns (clear: bool)
      requires Valid() && Enabled(ns.config, ns.View(), SignOutStep(flush, l))
      modifies this, ns
      ensures Valid() && (old(Rightful()) ==> Rightful())
      ensures states == old(states) + [ns.View()] && steps == old(steps) + [SignOutStep(flush, l)]
      ensures clear == SignInModel.SignOut(ns.config, old(ns.View()), flush, l).1
    {
      ghost var before := ns.View();
      clear := ns.SignOut(flush, l);
      ns.ReleaseControl();
      Note(before, SignOutStep(flush, l));
    }

    lemma Reported(before: State, clear: bool, f: Luck, l: Luck)
      requires Valid() && |steps| > 0 && steps[|steps| - 1] == SignOutStep(f, l) && states[|steps| - 1] == before
      requires clear == SignInModel.SignOut(ns.config, before, f, l).1
      ensures ns.attempt.None? && ns.control.None?
      ensures clear && before.vault.hostFile ==> NoSession(ns.config, ns.VaultView())
      ensures clear && before.vault.hostFile && Rightful() ==> !TokenOurs(ns.VaultView().store)
    {
      var i := |steps| - 1;
      RunIsCoherent(ns.config, states, steps, i);
      TakenOver(ns.config, before, steps[i]);
      if clear && before.vault.hostFile {
        SignOutReportIff(ns.config, before, f, l);
        if Rightful() {
          SignOutReportIsTrue(ns.config, states, steps, i);
        }
      }
    }

    /** Nothing of the sign-in is left in this process once the record and the host id could be read; an own
        record is removed from the store with its token as far as the store takes it, and a tombstone is
        left exactly when it did not take all. */
    method Forget(l: Luck)
      requires Valid() && ns.control.None? && ns.request.None?
      modifies this, ns
      ensures Valid() && (old(Rightful()) ==> Rightful()) && ns.attempt.None? && ns.control.None?
      ensures old(Readable(l)) ==> !HasSession(ns.config, ns.VaultView())
      ensures old(Readable(l)) && Ours(ns.config, old(ns.VaultView()).Load(l.read)) ==>
                ForgetLeaves(ns.config, old(ns.VaultView()), l, ns.VaultView())
    {
      Perform(ControlStep(Forgetting));
      FinishForget(l);
    }

    ghost predicate Readable(l: Luck)
      reads ns
    {
      ns.hostFile && ns.VaultView().HostAnswers(l.host) && !ns.VaultView().Load(l.read).Failed?
    }

    method FinishForget(l: Luck)
      requires Valid() && ns.control == Some(Forgetting) && ns.request.None?
      modifies this, ns
      ensures Valid() && (old(Rightful()) ==> Rightful()) && ns.attempt.None? && ns.control.None?
      ensures old(Readable(l)) ==> !HasSession(ns.config, ns.VaultView())
      ensures old(Readable(l)) && Ours(ns.config, old(ns.VaultView()).Load(l.read)) ==>
                ForgetLeaves(ns.config, old(ns.VaultView()), l, ns.VaultView())
    {
      Keeps();
      ghost var before := ns.View();
      ns.Forget(l);
      ns.ReleaseControl();
      Note(before, ForgetStep(l));
      if EndsSession(ns.config, before.vault, ForgetStep(l)) {
        EndingEnds(ns.config, before, ForgetStep(l));
      }
      if before.vault.hostFile && before.vault.HostAnswers(l.host) && Ours(ns.config, before.vault.Load(l.read)) {
        ForgetStore(ns.config, before, l);
      }
    }
  }
}
