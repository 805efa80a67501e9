# Verified model of the advance-home sign-in, catalog and provider document

A Dafny model of the stateful core of the `advance-home` crate, and proofs of what that core is for.

* **The ChatGPT sign-in of one secret name** (`SignIn*.dfy`). The store has two slots, the access token
  and the sign-in record, written by separate operations that may each fail. The process keeps an
  unsaved record or a tombstone that overrides the store, an attempt slot, a renewal in flight and
  several marks. Renewal, commit, sign-out, forget and registration recovery act on all of it against a
  server with rotating refresh tokens (section 6 of RFC 6749). `SignInModel` gives every operation as a
  function of the state and the other modules prove properties of every run. `SignInName` is the same
  machine as an object changed in place, proved equal to the model; `SignInPort` is what callers use:
  it remembers its run, so the properties of runs hold of it, and each call states what it guarantees.
  `SignInEffects` says what each operation must do, on fields and clock readings.
* **Calls and shutdown** (`Shutdown.dfy`) and **the retry loop** (`Transport.dfy`) of the same file.
* **The model catalog** (`ModelCatalog.dfy`, `CatalogDelivery.dfy`, `CatalogMaps.dfy`, `CatalogPaging.dfy`): generation,
  fingerprint, cache, leaders and followers, one lock region per step, and the paging loop.
* **The `llm-providers` document** (`ProviderDocument.dfy`, `ProviderFile.dfy`).
* **Two print/parse pairs** (`TextForms.dfy`, `Loopback.dfy`, `PairFiles.dfy`).

## How the models are set up

* A `Luck` value says, for each read, write and removal of an operation, whether the store takes it. A
  failed one has no effect. All theorems hold for every luck.
* `trace` lists the store after each single store operation. A death inside an operation leaves one of
  these stores; it is also the run in which the operation's remaining writes fail, followed by the crash
  step.
* The token slot carries a flag for who wrote the value. No branch of the model reads it.
* `request` is a renewal on its way. It stands for the held session lock: operations that take the lock
  are not enabled until the answer, operations that do not (starting and stopping attempts, a reported
  refusal, the busy short-cut) interleave freely. That the lock admits one call per name, with callers
  trying, waiting and giving up, is proved in `Shutdown` (`OneRenewalPerName`).
* `control` is the lock a start, cancel, sign-out or forget holds from stopping the attempt to its
  return.
* Runs assume of their surroundings: the monotonic clock does not go back, attempt generations grow, the
  server does not issue again a refresh token whose replacement or refusal it has answered, a model list
  is kept only after a sign-in of this host was used or made in the process, and the host id of an
  installation does not change while it runs.
* Runs start over a store in which no record of this host holds a session without an account. `commit`
  writes no such record; `UnbackedSessionWitness` shows what would go wrong with one.
* Keeping a registration while the removal of this module's token is pending is outside the custody
  theorem: the code treats the tombstone as "no record". `RetainKeepsCustodyIff` is the exact condition;
  `RetainOverRemovalWitness`, `MisreportWitness` and `OverreachWitness` show what follows outside it.
* `SignInWitness` builds the runs behind every exception, step by step.
* The fingerprint hash is taken as injective and the generation as below saturation in `ModelCatalog`;
  `CatalogMaps` has the saturating counter. A delete sets the generation back to
  zero, and the no-stale theorem excepts exactly fills whose leader read its fingerprint before it
  (`DeleteLetsStaleThrough` shows one).
* Durations are nanoseconds; the casts to 64-bit milliseconds wrap, as the casts in the code do.
* The runtime's own load of a configuration is an arbitrary predicate on documents; when it accepts
  one, its providers are taken to be the document's entries in order.

## Model

| member | source | states |
|---|---|---|
| `SignInCustody.CustodyAtEveryCrashPoint` | crates/advance-home/src/chatgpt_sign_in.rs:1036-1094 | For every run, with any store writes and removals failing and the process dying anywhere, after each single store operation an access token this module wrote is under the name only beside a stored record of this host that names an account or a session; and that store is one a new process may start over, so the theorem applies again. The one step excepted is keeping a registration while the removal of such a token is pending |
| `SignInCustody.RetainKeepsCustodyIff` | crates/advance-home/src/chatgpt_sign_in.rs:2469-2489 | The excepted step exactly, for every luck: custody survives it and whatever flush comes next if and only if no token of this module awaits a pending removal |
| `SignInCustody.SignOutReportIff` | crates/advance-home/src/chatgpt_sign_in.rs:1789-1852 | A sign-out that reports the name clear left no session of this host, in memory or stored; and it left no token of this module if and only if there was none or the record seen claims it |
| `SignInCustody.SignOutReportIsTrue` | crates/advance-home/src/chatgpt_sign_in.rs:1789-1852 | In every run that keeps to the custody rule, a sign-out that reports the name clear left neither session nor token |
| `SignInWitness.MisreportWitness` | crates/advance-home/src/chatgpt_sign_in.rs:1811-1828 | Outside the rule: a run whose sign-out, every write taken, reports the name clear and leaves this module's token |
| `SignInCustody.RecoveryTakesOnlyARegistration` | crates/advance-home/src/chatgpt_sign_in.rs:2300-2334 | In every run, the recovery rule leaves the token alone and takes no record with an account or a session, if and only if it is not the case that it drops an unsaved registration over such a stored record and the store lets the removal reach it |
| `SignInWitness.OverreachWitness` | crates/advance-home/src/chatgpt_sign_in.rs:2330-2333 | A run in which recovery of a registration the store had refused removes a stored account and this module's token |
| `SignInPromises.NoEarlierAttemptSignsIn` | crates/advance-home/src/chatgpt_sign_in.rs:529-573 | After a cancel, a replacing start, a sign-out, a forget or `close` (from its first step on), whatever signs in was installed afterwards and not before in the same process |
| `SignInPromises.StaleAttemptNeverSignsIn` | crates/advance-home/src/chatgpt_sign_in.rs:2502-2533 | An attempt signs in at most once and only while it holds the slot: since its one start, nothing stopped, ended, replaced, signed out, forgot or committed it |
| `SignInPromises.RefusalRenewalIsLate` | crates/advance-home/src/chatgpt_sign_in.rs:1127-1141 | A renewal driven only by a refusal reads the clock at least `rejection_guard` after the session it replaces was saved, if the wall clock did not go back since the report (saturation at the end of time apart) |
| `SignInFresh.AnswersAreTrue` | crates/advance-home/src/chatgpt_sign_in.rs:1492-1565 | Ok: the value under the name is the access token of the logical record, with the plan scope and unexpired on a reading of the call. Not signed in: no session remains. Not authorized: the session lacks the scope. Refresh unavailable: it is expired and kept. No answer: a request is on its way |
| `SignInFresh.TimedOutCallerHasMargin` | crates/advance-home/src/chatgpt_sign_in.rs:604-632 | A caller released by the wait timer, at whatever point of the run before its renewal is answered: the value under the name is still the token of the visible session, which outlives the wait by more than `dispatch_margin` |
| `SignInFresh.RenewableStaysRenewable` | crates/advance-home/src/chatgpt_sign_in.rs:1678-1706 | Over every run a session with a refresh token keeps one through renewals whose responses omit it, until it ends or another sign-in commits |
| `SignInFresh.LeftoverTokenGoes` | crates/advance-home/src/chatgpt_sign_in.rs:1026-1034 | A token left beside a record of this host without a session is removed by the next call whose removal the store takes |
| `SignInPort.Port.Keeps` | crates/advance-home/src/chatgpt_sign_in.rs:513-573 | An object reached by any sequence of calls has every promise of runs, and custody while the rule is kept to |
| `SignInPort.Port.Perform` | crates/advance-home/src/chatgpt_sign_in.rs:513-573 | Any step of any operation in place: the object stays at the end of a run |
| `SignInPort.Port.SignOut` | crates/advance-home/src/chatgpt_sign_in.rs:538-552 | The running attempt is over; a clear report means no session of this host and, under the custody rule, no token of this module |
| `SignInPort.Port.Forget` | crates/advance-home/src/chatgpt_sign_in.rs:560-573 | The running attempt is over; with a readable record and host id no session is left, and an own record and its token are removed from the store as far as it takes that, a tombstone staying exactly when part was refused |
| `SignInPort.Port.EnsureFresh` | crates/advance-home/src/chatgpt_sign_in.rs:1492-1565 | The answer is the verdict and true of the state left, and a request presents a refresh token the server has not retired |
| `SignInPort.Port.FinishRenewal` | crates/advance-home/src/chatgpt_sign_in.rs:1566-1622 | The answer is the verdict; Ok serves the visible session, renewed tokens are in it as answered, and a terminal answer leaves none |
| `SignInPort.Port.Commit` | crates/advance-home/src/chatgpt_sign_in.rs:2505-2533 | It happens exactly for the attempt that holds the slot with its record taken: that record is then stored and seen, with its token as the store takes it; otherwise nothing changes |
| `SignInPort.Port.Start` | crates/advance-home/src/chatgpt_sign_in.rs:1314-1376 | The new attempt replaces whatever ran; nothing stored changes |
| `SignInPort.Port.Cancel` | crates/advance-home/src/chatgpt_sign_in.rs:529-536 | No attempt is left; nothing stored changes |
| `SignInName.NameState.Execute` | crates/advance-home/src/chatgpt_sign_in.rs:1467-1642 | Every step of a run, executed in place, leaves exactly the state the model gives for it |
| `Shutdown.AdmitsIffOpen` | crates/advance-home/src/chatgpt_sign_in.rs:1362-1376 | Attempts are installed and calls go on to wait and to renew exactly until `close` begins |
| `Shutdown.SubmitIs` | crates/advance-home/src/chatgpt_sign_in.rs:667-694 | A job goes to the live renewal thread or a new one, and never to a closed worker |
| `Shutdown.OneRenewalPerName` | crates/advance-home/src/chatgpt_sign_in.rs:1478-1490 | Over every interleaving of callers contending for the session, two calls past the lock of one name are the same call and no other operation on the name is under way |
| `Transport.Send` | crates/advance-home/src/chatgpt_sign_in.rs:2109-2148 | For every sequence of outcomes: at most max(1, attempts) executions, stopping at the first outcome not retried; under the never-left mode the server may have seen the request once if the result says so and not at all otherwise; every delay as scheduled |
| `ModelCatalog.NoLostWakeUp` | crates/advance-home/src/provider_admin.rs:516-542 | Whoever sleeps on a waiter has a live leader (or its unwinding guard) that has yet to publish it, or an invalidation about to; and every waiter of a reader that returned or panicked is ready or about to be, evictions and deletes included |
| `SignInWitness.RetainOverRemovalWitness` | crates/advance-home/src/chatgpt_sign_in.rs:2469-2489 | A concrete run in which a registration kept over a pending removal leaves this module's token beside a registration-only record |
| `SignInWitness.UnbackedSessionWitness` | crates/advance-home/src/chatgpt_sign_in.rs:1811-1828 | A concrete run from a stored record with a session but no account, which no code path writes: a sign-out whose token removal fails then breaks custody, which is why runs start without such a record |
| `SignInCustody.ForeignValueUntouched` | crates/advance-home/src/chatgpt_sign_in.rs:947-954 | Frame over whole runs: from a store without a claiming or unreadable record, no run without a completed sign-in changes or removes the value under the entry's name, at any crash point |
| `SignInCustody.EndSessionCustody` | crates/advance-home/src/chatgpt_sign_in.rs:1634-1642 | Ending a session keeps custody after each of its two store operations, whichever fail |
| `SignInCustody.RemoveNamesCustody` | crates/advance-home/src/chatgpt_sign_in.rs:1044-1073 | The ordered removal (session out of the record, token, record) keeps custody after each of its steps, wherever it stops |
| `SignInCoherence.FlushSound` | crates/advance-home/src/chatgpt_sign_in.rs:1084-1094 | Retrying an unsaved change never changes the record this process reads, whether or not the store takes it |
| `SignInCoherence.PersistSound` | crates/advance-home/src/chatgpt_sign_in.rs:1011-1019 | After a record is persisted the process reads back exactly that record, whether or not the write was taken |
| `SignInCoherence.DropSound` | crates/advance-home/src/chatgpt_sign_in.rs:1078-1081 | After a registration is dropped the process reads no record, whichever removals fail |
| `SignInCoherence.ForgetSound` | crates/advance-home/src/chatgpt_sign_in.rs:1854-1883 | Forgetting leaves no visible record of this host, and leaves any other visible record as it was |
| `SignInCoherence.RunIsCoherent` | crates/advance-home/src/chatgpt_sign_in.rs:1467-1642 | In every state of every run an unsaved change shadows only a record of this host, and a renewal in flight still works on the record the process sees, held back by the session lock |
| `SignInEffects.FreshVerdict` | crates/advance-home/src/chatgpt_sign_in.rs:1492-1566 | A call, exactly, for every clock reading, mark and store behaviour: it sends a token request if and only if it reads an own session with the plan scope and a refresh token that is forced, refused or near expiry, not held off by the server's earliest time, not cooling down; otherwise its answer is Ok, unavailable, refresh unavailable, not authorized or not signed in as stated |
| `SignInEffects.UsableIff` | crates/advance-home/src/chatgpt_sign_in.rs:1551-1565 | A caller may be released early exactly when its renewal is not required yet, the token outlasts the wait and the margin, and that token is stored or the store takes it |
| `SignInEffects.RenewedRecord` | crates/advance-home/src/chatgpt_sign_in.rs:1566-1578 | After an answer with tokens the record seen has a session with the answer's access token, its refresh token and scopes where named and the previous ones elsewhere, its earliest time, and an expiry of that many seconds from now, capped; nothing else in it changed, and record and token are stored as far as the store takes them |
| `SignInEffects.FirstSession` | crates/advance-home/src/chatgpt_sign_in.rs:1681-1706 | A first grant holds what the answer names, the requested scopes where it names none, and no refresh token of before |
| `SignInEffects.AnswerVerdictHolds` | crates/advance-home/src/chatgpt_sign_in.rs:1566-1622 | What a call answers after its request, exactly, for every answer, clock reading and refused write |
| `SignInEffects.EndedStore` | crates/advance-home/src/chatgpt_sign_in.rs:1634-1642 | A terminal answer takes the session out of the record and the token out of the store, each exactly when the store takes it; a refused rewrite stays in memory |
| `SignInEffects.RemovalIs` | crates/advance-home/src/chatgpt_sign_in.rs:1044-1073 | What an ordered removal leaves of token and record for every step the store may refuse, and that it reports itself done exactly when all of it was taken |
| `SignInEffects.DropIs` | crates/advance-home/src/chatgpt_sign_in.rs:1078-1081 | Dropping a registration is that removal, with a tombstone exactly when it was not whole |
| `SignInEffects.FlushCatchesUp` | crates/advance-home/src/chatgpt_sign_in.rs:1084-1094 | A flush the store takes leaves nothing unsaved, and the store alone then holds what the process sees |
| `SignInEffects.ForgetStore` | crates/advance-home/src/chatgpt_sign_in.rs:1854-1883 | Forgetting an own record removes it and its token from the store as far as each step is taken, and leaves a tombstone exactly when something was refused; taken whole, no later process sees a session either |
| `SignInEffects.ForgetTakenEmpties` | crates/advance-home/src/chatgpt_sign_in.rs:1854-1883 | A signed-in name forgotten with everything taken is empty: no token, no record, nothing unsaved |
| `SignInEffects.ForgetElse` | crates/advance-home/src/chatgpt_sign_in.rs:1862-1883 | Forgetting anything else: a pending removal is retried, an unreadable record only loses the token beside it, the rest is untouched |
| `SignInEffects.SignOutIs` | crates/advance-home/src/chatgpt_sign_in.rs:1789-1852 | When a sign-out reports the name clear, both ways, and what it leaves in store and memory for every record and refused write |
| `SignInEffects.SignOutTakenIsClear` | crates/advance-home/src/chatgpt_sign_in.rs:1789-1852 | With everything taken and a readable record a sign-out must report clear |
| `SignInEffects.BusyIff` | crates/advance-home/src/chatgpt_sign_in.rs:1156-1193 | A busy caller goes ahead exactly under the listed conditions on clock, session, refusal and stored token |
| `SignInEffects.RefusalMark` | crates/advance-home/src/chatgpt_sign_in.rs:1120-1125 | Which steps set, keep and clear the mark of a refusal |
| `SignInEffects.RefusalDropped` | crates/advance-home/src/chatgpt_sign_in.rs:1127-1141 | A deciding call drops a refusal too early to be about the session, unless forced |
| `SignInEffects.ForeignStays` | crates/advance-home/src/chatgpt_sign_in.rs:1510-1515 | Over every run without a commit, another installation's record and the value beside it are never touched |
| `SignInEffects.CrashForgets` | crates/advance-home/src/chatgpt_sign_in.rs:797-814 | A new process has the store and the host id file, and nothing of the memory before |
| `SignInEffects.UnreadableUntouched` | crates/advance-home/src/chatgpt_sign_in.rs:1506-1508 | A call over a record it cannot read leaves the name alone |
| `SignInEffects.HostIsKept` | crates/advance-home/src/chatgpt_sign_in.rs:1198-1207 | A host id once read is not read again |
| `SignInTrace.RunIsTraced` | crates/advance-home/src/chatgpt_sign_in.rs:1001-1034 | In every run the trace ends with the present store and never changes both slots at once: it is the store after each single operation |
| `SignInPromises.AnsweredTokenNeverPresented` | crates/advance-home/src/chatgpt_sign_in.rs:1566-1606 | Said of the answers: after one that is terminal or names another refresh token, no request of the process carries the one presented |
| `SignInRefinement.SteadyIff` | crates/advance-home/src/chatgpt_sign_in.rs:979-1094 | The store and the unsaved override behave as one record: for every step but a crash, whichever of its writes and removals are taken (a commit's record write and the reads apart), the process sees the same record afterwards, if and only if the step is not a sign-out, or a fresh call on a session that ran out, that finds the session unsaved and cannot read the stored record |
| `SignInRefinement.StepRefines` | crates/advance-home/src/chatgpt_sign_in.rs:979-1094 | Every step but a crash takes the logical record to what the operation means for the record it reads |
| `SignInWitness.WaveringSignOutWitness` | crates/advance-home/src/chatgpt_sign_in.rs:1789-1801 | The exception is real: after an unsaved renewal, a sign-out whose read is refused ends the session or leaves it as the flush is refused or taken |
| `SignInPromises.RetiredTokenNeverPresented` | crates/advance-home/src/chatgpt_sign_in.rs:1566-1606 | Once the server has answered that a refresh token was replaced or terminally refused, no later renewal of this process presents it, even if every later record write fails; and each renewal was answered before the next |
| `SignInPromises.RetiredTokenStaysRetired` | crates/advance-home/src/chatgpt_sign_in.rs:1008-1019 | Across processes too, when the processes before died with nothing unsaved and the server reissues nothing it retired |
| `SignInWitness.CrashPresentsRetiredWitness` | crates/advance-home/src/chatgpt_sign_in.rs:1008-1019 | A process that dies with a renewal unsaved lets the next one present the replaced refresh token |
| `SignInFresh.BusyCallerHasMargin` | crates/advance-home/src/chatgpt_sign_in.rs:1156-1193 | Record, refusal mark and token being read apart: the value a busy caller goes ahead with is the access token of the session it read, scoped, with more than `dispatch_margin` of life |
| `SignInRefinement.EndingEnds` | crates/advance-home/src/chatgpt_sign_in.rs:1789-1883 | After a terminal answer, or a sign-out or forget that could read the record and the host id, the process sees no session of this host, whatever the store refuses |
| `SignInRefinement.SessionStaysGone` | crates/advance-home/src/chatgpt_sign_in.rs:1008-1019 | A session that is gone does not come back in this process before another sign-in commits, over every run |
| `SignInPromises.RequestsAreSpaced` | crates/advance-home/src/chatgpt_sign_in.rs:1149-1154 | After a transient failure the next unforced renewal request is at least the cool-down later, unless a renewal, an ended session, a sign-in, a sign-out or a forget came between |
| `SignInPromises.RecoveryDropsAtSecondEnding` | crates/advance-home/src/chatgpt_sign_in.rs:2290-2334 | A counted ending without a code drops the registration if and only if a counted ending for the same client is the last thing that touched the count (no returned code, commit, forget, new registration or other record in between) |
| `SignInPromises.StreakMeans` | crates/advance-home/src/chatgpt_sign_in.rs:2318-2326 | The stored count of endings is one for a client exactly when the history since its last counted ending has nothing that touches the count |
| `SignInHistory.StepFollows` | crates/advance-home/src/chatgpt_sign_in.rs:1624-1642 | Every step leaves the marks in memory as they were or changes them as one justified event does: the marks are a function of the history |
| `SignInFresh.RenewalAnswersAreTrue` | crates/advance-home/src/chatgpt_sign_in.rs:1566-1622 | After the token request: Ok serves the session renewed in this call, or the old one unexpired now; not signed in exactly on a terminal answer; a refresh-unavailable answer changed nothing stored |
| `SignInFresh.UsablePromiseIff` | crates/advance-home/src/chatgpt_sign_in.rs:1144-1146 | The early-release check guarantees life beyond the wait and the margin, for all sessions and clock readings, if and only if the sum of both in milliseconds fits 64 bits or its cast is the largest value; saturation and truncation included |
| `SignInName.NameState.RemoveNames` | crates/advance-home/src/chatgpt_sign_in.rs:1044-1073 | The whole vault after the ordered removal, for every failure on the way, and whether all of it was done |
| `SignInName.NameState.FlushUnsaved` | crates/advance-home/src/chatgpt_sign_in.rs:1084-1094 | The retried change, cleared from memory only when the store took all of it |
| `SignInName.NameState.Repair` | crates/advance-home/src/chatgpt_sign_in.rs:1102-1118 | The token slot equals the session's token, or the call says it is unavailable |
| `SignInName.NameState.EndSession` | crates/advance-home/src/chatgpt_sign_in.rs:1634-1642 | Record first, then token; refusal and cool-down marks cleared |
| `SignInName.NameState.UsableWhileBusy` | crates/advance-home/src/chatgpt_sign_in.rs:1161-1193 | Writes nothing; true exactly under the model's conditions |
| `SignInName.NameState.FreshLocked` | crates/advance-home/src/chatgpt_sign_in.rs:1492-1513 | The call up to its token request: state, answer and early release for every clock reading and store behaviour |
| `SignInName.NameState.FreshWithSession` | crates/advance-home/src/chatgpt_sign_in.rs:1527-1565 | The decision on a session: serve, deny, or renew, and what is stored meanwhile |
| `SignInName.NameState.RenewalAnswered` | crates/advance-home/src/chatgpt_sign_in.rs:1566-1622 | The rest of the call for every answer of the token endpoint and every failing write |
| `SignInName.NameState.SignOut` | crates/advance-home/src/chatgpt_sign_in.rs:1789-1852 | The new state and the report, for every record, host and failing write |
| `SignInName.NameState.Forget` | crates/advance-home/src/chatgpt_sign_in.rs:1854-1883 | The name is emptied or keeps a tombstone; all marks but the store's are reset |
| `SignInName.NameState.Commit` | crates/advance-home/src/chatgpt_sign_in.rs:2505-2533 | Nothing unless the generation holds the slot; a refused record write only frees the slot; otherwise record, token and all marks |
| `SignInName.NameState.CountCodelessEnding` | crates/advance-home/src/chatgpt_sign_in.rs:2300-2334 | The count, its resets, and the removal at the second ending |
| `SignInName.NameState.Restart` | crates/advance-home/src/chatgpt_sign_in.rs:797-814 | A new process over the same store remembers nothing else |
| `Shutdown.NothingStartsAfterClose` | crates/advance-home/src/chatgpt_sign_in.rs:438-453 | Once `close` has returned, over every interleaving, no name holds an attempt slot and the job queue only shrinks |
| `Shutdown.NoRenewalAfterThreadsExited` | crates/advance-home/src/chatgpt_sign_in.rs:455-472 | Once `threads_exited` has answered true after `close`, no `ensure_fresh` is past its closed checks then or ever after, and no job is queued |
| `Shutdown.StepKeepsSlots` | crates/advance-home/src/chatgpt_sign_in.rs:1362-1376 | A slot is installed only before the closed flag, and draining takes every one that was |
| `Shutdown.StepKeepsCalls` | crates/advance-home/src/chatgpt_sign_in.rs:774-785 | The in-flight counter is the number of running calls, and after both closed checks none starts once the watch saw it at zero |
| `Shutdown.StepKeepsWorker` | crates/advance-home/src/chatgpt_sign_in.rs:667-718 | A closed worker has no queue to send to, and an exited thread holds no job |
| `Transport.AgainIff` | crates/advance-home/src/chatgpt_sign_in.rs:2118-2128 | What never arrived is always retried; what may have, only in repeatable requests after a transport failure or a server error |
| `Transport.DelaySchedule` | crates/advance-home/src/chatgpt_sign_in.rs:2134-2145 | The delay of every attempt: once, twice, four, eight, then sixteen times the back-off, saturating, and at least the limiter's wish up to two seconds |
| `Transport.DelayIsBounded` | crates/advance-home/src/chatgpt_sign_in.rs:2134-2145 | Each delay is at most the larger of sixteen times the back-off and two seconds |
| `ModelCatalog.NoStaleCatalog` | crates/advance-home/src/provider_admin.rs:1060-1131 | Over every interleaving of readers, invalidations and deletes, models returned to a reader come from a probe begun after the last invalidation before its fingerprint reading (and before its last comparison when it made one), unless the leader that probed read its own fingerprint before a delete that precedes that reading |
| `CatalogDelivery.ReaderGetsWhatItFound` | crates/advance-home/src/provider_admin.rs:1060-1131 | Over every run, a reader that does not panic and whose own comparisons hold returns exactly what it last found: the complete fill cached under its fingerprint, the state of the waiter it joined, or what its probe came back with |
| `CatalogDelivery.LeaderServes` | crates/advance-home/src/provider_admin.rs:1091-1131 | A leader whose comparisons hold returns what it probed, has published it to its waiter, and has stored it under its fingerprint if complete |
| `CatalogDelivery.DifferenceReturnsNothing` | crates/advance-home/src/provider_admin.rs:1085-1089 | A reader whose last comparison differs returns the empty list |
| `CatalogDelivery.GuardPublishesIncomplete` | crates/advance-home/src/provider_admin.rs:532-542 | A leader that panics before publishing leaves its followers an incomplete empty list |
| `CatalogDelivery.JoinsIff` | crates/advance-home/src/provider_admin.rs:1048-1058 | A reader joins exactly a pending flight of its fingerprint, else leads a new one that starts pending and empty |
| `ModelCatalog.NothingStaleWithoutDelete` | crates/advance-home/src/provider_admin.rs:908-1003 | In a run without a delete so far no stale models are ever returned, slow leaders that store after an invalidation included |
| `ModelCatalog.BaseIsLastDelete` | crates/advance-home/src/provider_admin.rs:1005-1011 | The epoch a generation counts from is that of the last delete |
| `ModelCatalog.DeleteLetsStaleThrough` | crates/advance-home/src/provider_admin.rs:1005-1011 | The exception is real: a concrete run in which a slow leader of the deleted entry serves a reader of a new one |
| `ModelCatalog.ReadyStaysReady` | crates/advance-home/src/provider_admin.rs:525-530 | A ready waiter never goes back to pending |
| `CatalogMaps.Catalogs.InvalidateModels` | crates/advance-home/src/provider_admin.rs:978-1003 | Afterwards nothing is cached, no waiter can be joined, and the fingerprint current until now compares equal no more (below saturation); other ids and other waiters are untouched |
| `CatalogMaps.Catalogs.EnsureModelsCached` | crates/advance-home/src/provider_admin.rs:1060-1131 | A call that runs without interruption: a complete catalog is found again under the same fingerprint, an incomplete one is not kept, followers are served, and no flight is left behind |
| `CatalogMaps.Catalogs.ClaimModelsWaiter` | crates/advance-home/src/provider_admin.rs:1048-1058 | The reader joins exactly when a pending waiter of the same fingerprint is in flight, else leads with a new one; other ids are untouched |
| `CatalogMaps.Catalogs.RaiseGeneration` | crates/advance-home/src/provider_admin.rs:978-988 | The generation counts up and saturates |
| `CatalogMaps.Catalogs.DropModelsGeneration` | crates/advance-home/src/provider_admin.rs:1005-1011 | As an invalidation, with the generation back at zero |
| `CatalogMaps.Catalogs.PublishModelsWaiter` | crates/advance-home/src/provider_admin.rs:525-530 | The flag falls before the state is set; only that waiter changes |
| `CatalogMaps.Catalogs.StoreFill` | crates/advance-home/src/provider_admin.rs:1112-1125 | Only a complete catalog is cached, under the leader's fingerprint |
| `CatalogMaps.Catalogs.DropInflightIf` | crates/advance-home/src/provider_admin.rs:1133-1141 | The slot is emptied when its waiter has that fingerprint, whoever made it |
| `CatalogPaging.ListCloudHttpModels` | crates/advance-home/src/provider_admin.rs:346-410 | The first 256 rows of the served pages without key rows, in server order, from at most 8 pages and 16 executions; each page asked for with the cursor of the one before, a retry once; the walk stops only for a listed reason, and is complete if and only if the list ended, the bound was met, or the first answer was empty or a refusal |
| `CatalogPaging.DropsOnlyKeyRows` | crates/advance-home/src/provider_admin.rs:478-480 | No kept row carries the key, and every other row is kept as often as it came |
| `CatalogPaging.KeptRowsChain` | crates/advance-home/src/provider_admin.rs:479-480 | The rows of a walk are those of its pages one after the other |
| `CatalogPaging.DropKeepsOrder` | crates/advance-home/src/provider_admin.rs:478-480 | The kept rows are in the order they came |
| `CatalogPaging.CursorIs` | crates/advance-home/src/provider_admin.rs:481-484 | The next cursor is the last id exactly when the provider pages and the id can serve |
| `CatalogPaging.ApplyModelsPage` | crates/advance-home/src/provider_admin.rs:455-496 | One page: the collected rows stay the bounded prefix of all kept rows, and the verdict is the exact completeness of the pages so far |
| `CatalogPaging.FetchPage` | crates/advance-home/src/provider_admin.rs:364-385 | A page is asked for once, and once more when the answer says to retry |
| `ProviderDocument.EditRefinesMap` | crates/advance-home/src/provider.rs:294-357 | On a list with distinct ids every edit is the edit of a map from ids to entries: refused exactly when the map would refuse, the named id as the map has it, every other id as before |
| `ProviderDocument.UpdatePatches` | crates/advance-home/src/provider.rs:314-329 | After an accepted update, for every key: a named key has the given value, a null leaves no such key, any other key and the id are as before; every other entry is the same |
| `ProviderDocument.CreateKeeps` | crates/advance-home/src/provider.rs:305-313 | A created entry is appended with every given key but the nulls |
| `ProviderDocument.CreateMakesTheList` | crates/advance-home/src/provider.rs:391-407 | A create works on a document whose list is missing or is no list |
| `ProviderDocument.RewriteSucceedsIff` | crates/advance-home/src/provider.rs:363-389 | A rewrite succeeds exactly when the edit applies and every stage of the chain does |
| `ProviderDocument.DeleteGuards` | crates/advance-home/src/provider_admin.rs:1699-1716 | A delete is refused, in this order, when the document does not load, the id is unknown, it is the last, or an agent refers to it, and nothing is touched |
| `ProviderDocument.EditKeepsOrder` | crates/advance-home/src/provider.rs:294-357 | The entries no edit names keep their contents and their order |
| `ProviderDocument.EditPlaces` | crates/advance-home/src/provider.rs:345-357 | A created entry is last, an updated one stays in place, a selected one is first in a permutation of the list |
| `ProviderDocument.RunKeepsWellFormed` | crates/advance-home/src/provider_admin.rs:1699-1716 | Every run of create, update, guarded delete and select keeps the list non-empty and its ids distinct, whatever is refused, invalid or fails |
| `ProviderDocument.RunLeavesTheRest` | crates/advance-home/src/provider.rs:359-381 | Over every run the entries no step names, their order, and the rest of the document stay as they were |
| `ProviderDocument.RunIsFold` | crates/advance-home/src/provider.rs:242-256 | At every point of a run an id's entry is the fold of the accepted edits that named it |
| `ProviderDocument.StepIsAllOrNothing` | crates/advance-home/src/provider.rs:363-381 | A refused, invalid or failed step leaves the document unchanged; an accepted one made its whole edit, changed nothing else, and left a document the runtime loads |
| `ProviderDocument.RemoveUndoesCreate` | crates/advance-home/src/provider.rs:334-343 | Removing a created entry restores the list exactly |
| `ProviderDocument.UpdateUndoneIff` | crates/advance-home/src/provider.rs:316-329 | Naming the old values undoes an update if and only if no named key held an explicit null |
| `ProviderFile.Patch` | crates/advance-home/src/provider.rs:316-329 | The loop over the patch's pairs, in any order, gives the merged entry: null removes, `id` is skipped, unnamed keys stay |
| `ProviderFile.DropNulls` | crates/advance-home/src/provider.rs:306-312 | A created entry is the given one without its nulls |
| `ProviderFile.Position` | crates/advance-home/src/provider.rs:300-302 | The first entry of that id, if any |
| `ProviderFile.ProviderList.ApplyUpsert` | crates/advance-home/src/provider.rs:294-331 | The list after an upsert, the index of the entry named, and the refusals; unchanged when refused |
| `ProviderFile.ProviderList.RemoveEntry` | crates/advance-home/src/provider.rs:334-343 | The list without the entry, or unchanged and not found |
| `ProviderFile.ProviderList.SelectEntry` | crates/advance-home/src/provider.rs:347-357 | The entry at the front and the others in order, or unchanged and not found |
| `ProviderFile.RuntimeConfig.Rewrite` | crates/advance-home/src/provider.rs:363-381 | The file after the write chain, for every failing stage |
| `ProviderFile.RuntimeConfig.DeleteProvider` | crates/advance-home/src/provider_admin.rs:1699-1716 | The guards in order: loads, known, not the last, not referenced |
| `ProviderFile.RuntimeConfig.PerformStep` | crates/advance-home/src/provider.rs:359-381 | Any step in place: well-formedness kept, and the file untouched when refused |
| `PairFiles.ReadsWhatWasWritten` | crates/advance-home/src/runtime_state.rs:22-59 | For every 32-bit process id and every value the writer takes, reading gives back exactly that pair when the value is acceptable and its text fits the bound, and nothing otherwise |
| `PairFiles.LastPidIs` | crates/advance-home/src/runtime_state.rs:46-48 | Of several process id lines the last decides |
| `PairFiles.LastValueIs` | crates/advance-home/src/runtime_state.rs:49-54 | Of several values the last acceptable one decides |
| `PairFiles.NothingOffered` | crates/advance-home/src/discovery.rs:56-59 | Without a process id line or an acceptable value there is no pair |
| `TextForms.LinesOfCarriage` | crates/advance-home/src/runtime_state.rs:46-46 | A carriage return before the line feed is not part of the line |
| `TextForms.LastLine` | crates/advance-home/src/runtime_state.rs:46-46 | The last line may lack its line feed |
| `TextForms.OnlyDigitsParse` | crates/advance-home/src/runtime_state.rs:47-48 | Nothing but digits behind an optional plus sign parses |
| `TextForms.PlusIsTaken` | crates/advance-home/src/runtime_state.rs:47-48 | A plus sign before the digits is accepted |
| `Loopback.AcceptedIsHttp` | crates/advance-home/src/discovery.rs:66-73 | No scheme but http and https, and nothing outside visible ASCII, is accepted |
| `PairFiles.ReadPair` | crates/advance-home/src/discovery.rs:38-60 | The line loop: the last process id line decides, even unparsed, and the last accepted value |
| `PairFiles.LocalBaseReadsBack` | crates/advance-home/src/discovery.rs:17-60 | The base of any loopback host and 16-bit port, written by any process, is accepted, fits and is read back |
| `Loopback.AuthorityIff` | crates/advance-home/src/discovery.rs:74-96 | An authority names a loopback endpoint if and only if it spells one: a bare name, the bracketed address, or a host and a port in range |
| `Loopback.BaseIff` | crates/advance-home/src/discovery.rs:66-97 | A base is judged by its scheme and authority alone; a path does not matter |
| `Loopback.PrintedAuthority` | crates/advance-home/src/discovery.rs:79-92 | Printing a loopback host and port and parsing gives them back |
| `TextForms.ParsePrinted` | crates/advance-home/src/runtime_state.rs:46-48 | Printing a number and parsing it is the identity within the type's range and fails beyond it |
| `TextForms.LinesOf` | crates/advance-home/src/runtime_state.rs:46-46 | A line printed with its line feed is the next line read |
| `TextForms.AsciiSize` | crates/advance-home/src/scaffold.rs:193-197 | The bytes the read bound is compared with are the characters of visible ASCII text |

## Left out

- Sign-in status, notes, last failures, e-mail and token type: projections of the state that no branch modelled here reads.
- HTTP, TLS, JWT and ID-token checks, PKCE, the loopback listener, callback parsing and the claimed flag of a callback: their outcomes are inputs of steps.
- Revocation at sign-out and forget: its outcome only changes a reported flag; both calls hold the session lock throughout, so each is one step here.
- The host-id file's format and creation: a step that makes it exist, and reads that may fail.
- Lost answers: a refresh token whose rotation was never answered is presented again, as the code intends; the retirement theorem is about answers that arrived.
- The wrap-around of the attempt generation: generations only grow.
- JSON and YAML text and the order of keys in a mapping: records and entries are values.
- Shutdown, ModelCatalog: interleavings are state machines over values, one step per lock region or atomic access; memory ordering weaker than that is not captured.
- CatalogMaps.Catalogs.ClaimModelsWaiter: a waiter is an index in a pool, not a shared object with its own lock.
- Liveness: that a leader's probe or a renewal ever answers is not claimed; nor is a single probe at a time, since the in-flight slot is compared by fingerprint only.
- ProviderDocument.RunKeepsWellFormed: the extra request checks of the admin service before a create or update are not modelled; they only refuse.
- Launch claims, preflight, usage, sidecars, reload waits, the client API, the console and the command line: thin or without a property that would hold.
