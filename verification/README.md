# Verified model of the owned acceptance domains

IRONCLAD accepts a build by creating a private Redis server, driving a scenario against it, and
proving afterwards that nothing but the scenario touched it. This project models the code that makes
those claims and proves them for every input, every failure pattern and every interleaving:

| file | what it covers |
|---|---|
| `Snapshot.dfy` | the canonical full-database snapshot over a paged SCAN |
| `OwnerBijection.dfy` | the owner header and the bijection of owners and TASK_ADMIT records |
| `FreshDomain.dfy`, `FreshDomainRuns.dfy` | the twelve-phase lifecycle object and safety over whole runs |
| `IssuerProtocol.dfy` | the one-use grant protocol as coroutine steps between awaits |
| `IssuerClose.dfy` | teardown of a prepared domain, leases and private descriptors |
| `OwnedCleanup.dfy` | the cancellation-proof cleanup wrapper, nested to any depth |
| `Generations.dfy`, `Signals.dfy` | PID reuse, pidfds, and the code that signals owned processes |
| `Framing.dfy` | newline-delimited frames over non-blocking pipes |
| `Receipts.dfy` | receipt hash chain and receipt digest list |
| `PreparedHandshake.dfy` | the handshake of a prepared issuer with its child process |
| `LegacyHandshake.dfy`, `LegacyCleanup.dfy` | the legacy environment's handshake and its cleanup |
| `TaskQueue.dfy` | the per-tenant worker queue kept in one flat list |
| `AuditVisitor.dfy`, `AuditTotals.dfy` | the authority audit: tree visitor, risk account, heatmap |
| `Manifest.dfy` | the evidence manifest, built and validated |
| `Orders.dfy`, `Results.dfy` | sorting, counting and optional values used by the others |

Conventions. A raised exception is a `false` or `None` result (or `raised`). What the environment
decides (server answers, receipt writes, host checks, process exits, clocks, scheduling) is a
nondeterministic choice, a parameter or an event, so every theorem holds whatever it answers; a server
write that raised may or may not have taken effect. An operation's `quiet` input stands for a day on which
nothing outside fails: under it the contracts say exactly when the operation succeeds. Objects the source updates in place are classes
whose methods are tied to relations on an abstract `View`; the theorems about whole runs are lemmas
over those relations. SHA-256 and JSON are parameters: where a result needs that two contents do not
collide, or that decoding undoes encoding, the lemma says so. Python's string and tuple orders are
total orders passed in. Passwords are drawn from a counter, so a new one differs from all earlier
ones.

## Findings

Places where the code does less than its text suggests. Each has a lemma that shows the case and one
that says exactly when it arises.

- `_cleanup_body` of the legacy environment opens its pytest child's pidfd between two calls of
  `_verify_child`, but that check passes without comparing once an exit status is recorded. If the
  exit is collected between the first comparison and `pidfd_open`, the handle can name another process
  (`Signals.LegacyChildCanBeMisdirected`, `Signals.LegacyChildHandle`). The Redis processes and the
  prepared probe use a strict check and are proved safe.
- A closed issuer answers every later `abort` or `finish` from its stored result: an abort after a
  retained finish returns normally and leaves the domain retained, a retaining finish after an abort
  returns normally although the domain is gone (`IssuerClose.AbortAfterRetain`,
  `IssuerClose.RetainAfterAbort`, `IssuerClose.FinishEndsExactly`, `IssuerClose.AbortEndsExactly`).
- The lease a child process builds checks its deadline and its parent, not the registry, so it outlives
  the registry pop until the child is reaped (`IssuerProtocol.ChildLeaseOutlivesPop`,
  `IssuerProtocol.ChildLeaseAfterPop`).
- A failure of `quiesce` before its protected block (revocation, its receipt, closing the client)
  leaves the phase DOMAIN_RELEASED, and `client` is still given although the scenario user may be gone
  (`FreshDomainRuns.RevokedYetReleased`, `FreshDomainRuns.FailedQuiesceStaysReleased`).
- `_close` leaves the issuer unclosed, though unregistered, when it collected an error and the
  `issuer_hold` receipt cannot be written; a later close then runs again and still raises
  (`IssuerClose.UnclosedThenRaises`, `IssuerClose.UnclosedExactly`, `IssuerClose.SureToClose`).
- `resume_verified` compares the checkpoint and releases in two steps, so a key with a deadline may
  expire in between (`FreshDomainRuns.ExpiredInsideResume`,
  `FreshDomainRuns.ResumeKeepsDatabaseExactly`).
- The legacy receipt walk accepts an environment without receipts, the fresh domain refuses an empty
  list; on everything else they agree (`Receipts.VerifiersAgree`).
- `_receive` refuses two frames that arrive in one read. In the legacy handshake this cannot happen
  (`LegacyHandshake.NeverCombined`); the prepared child's `ready` and `result` frames can both be unread
  without any failure, and are then refused unless a read ends between them
  (`PreparedHandshake.TwoFramesUnread`, `PreparedHandshake.ReadyAndResultCanBeRefused`,
  `Framing.ReceivesFirstFrame`).
- An unparsable critical file scores 100, not 125: the 25 extra points go to visitor findings only
  (`AuditTotals.FailureWeighs`, `AuditTotals.RiskAccount`).

## Model

| member | source | states |
|---|---|---|
| `Snapshot.SemanticSnapshot` | scripts/acceptance_fresh_domain.py:134-173 | succeeds exactly when every key is on some page, none has an unknown type and no consumer group exceeds 100000 pending entries; success yields one row per key in key order, whatever the paging, duplicates and reply order |
| `Snapshot.SnapshotsEqualExactly` | scripts/acceptance_fresh_domain.py:134-173 | two snapshots are equal if and only if keys, values field by field and expiries agree, apart from the idle time of pending stream entries |
| `Snapshot.ValueCanonical` | scripts/acceptance_fresh_domain.py:124-131 | for values of one kind, canonical forms are equal if and only if the stored values are, idle time aside |
| `Snapshot.HashCanonical` | scripts/acceptance_fresh_domain.py:124-131 | a hash's canonical form is independent of reply order and determines the hash |
| `Snapshot.KindIsNeeded` | scripts/acceptance_fresh_domain.py:124-131 | a mapping and the list of its pairs share one canonical form, so a row must carry the kind |
| `Snapshot.CollectKeys` | scripts/acceptance_fresh_domain.py:134-141 | collects exactly the keys that occur on some page |
| `OwnerBijection.CheckBijection` | scripts/acceptance_fresh_domain.py:608-663 | accepts exactly the inventories in which owners and admissions are in bijection, every admission is proved by its run, the checkpointed owners are unchanged and no key is unexplained |
| `OwnerBijection.CollectIdentities` | scripts/acceptance_fresh_domain.py:614-625 | first pass: accepted exactly when every record sits under its own key; yields each aggregate once |
| `OwnerBijection.CollectAdmissions` | scripts/acceptance_fresh_domain.py:626-641 | second pass: accepted exactly when histories exist and each TASK_ADMIT is unique and owned with its stored value |
| `OwnerBijection.CheckParents` | scripts/acceptance_fresh_domain.py:647-660 | every admission's run history has exactly one RUN_CREATE, naming it as root task of the same tenant |
| `OwnerBijection.AdmittedRunsDistinct` | scripts/acceptance_fresh_domain.py:647-660 | two admissions of one run are the same admission |
| `OwnerBijection.AdmissionCountEqualsOwnerCount` | scripts/acceptance_fresh_domain.py:608-663 | as many admissions as owners, each owner with exactly one |
| `OwnerBijection.ValidateHeader` | scripts/acceptance_fresh_domain.py:568-583 | acceptance means the canonical decimal count equals the number of owners and neither key expires; a fresh header means no owners |
| `OwnerBijection.HeaderAcceptedExactly` | scripts/acceptance_fresh_domain.py:568-583 | accepted if and only if the header is the recorded one apart from its count, neither key expires, and the count is the decimal text of the number of owners, below 2^53; and there are no owners if fresh |
| `OwnerBijection.DecimalThenRender` | scripts/acceptance_fresh_domain.py:572-576 | reading a canonical count and writing it again gives the same text |
| `OwnerBijection.RenderThenDecimal` | scripts/acceptance_fresh_domain.py:572-576 | the text of a number is canonical and reads as that number |
| `FreshDomain.ReleaseSetsOnePassword` | scripts/acceptance_fresh_domain.py:585-589 | the ACL rule list leaves exactly the new password, whatever the user had before |
| `FreshDomain.OwnedFreshDomain.constructor` | scripts/acceptance_fresh_domain.py:184-206 | nothing launched, no phase, no activation attempt, no checkpoint |
| `FreshDomain.OwnedFreshDomain.Create` | scripts/acceptance_fresh_domain.py:270-351 | enters a prefix of the start-up phases; success means all of them with writers excluded; on a quiet day exactly the first call succeeds |
| `FreshDomain.OwnedFreshDomain.Inventory` | scripts/acceptance_fresh_domain.py:374-383 | success means the whole database is empty; on a quiet day exactly that and the creator being alone |
| `FreshDomain.OwnedFreshDomain.ActivateFresh` | scripts/acceptance_fresh_domain.py:398-446 | for every failure point: at most one attempt and one API call, made only on an empty exclusive database and else nothing written; phases a prefix of the activation sequence and possibly HOLD; access changed only once the header is verified; success means a valid fresh header alone, or a snapshot of the prepared keys; on a quiet day it succeeds exactly the first time on an empty exclusive database with fitting answers |
| `FreshDomain.OwnedFreshDomain.PrepareFresh` | scripts/acceptance_fresh_domain.py:448-488 | success means exactly the header and possibly the terminal index are present, with their snapshot stored and the grant unissued |
| `FreshDomain.OwnedFreshDomain.IssueRelease` | scripts/acceptance_prepared_domain.py:225-252 | releases only a prepared, unissued, exclusive domain whose snapshot is unchanged; on a quiet day exactly those |
| `FreshDomain.OwnedFreshDomain.Release` | scripts/acceptance_fresh_domain.py:585-601 | a new password is drawn; the phase changes only on success, the ACL possibly also on failure |
| `FreshDomain.OwnedFreshDomain.Quiesce` | scripts/acceptance_fresh_domain.py:665-686 | success means proven owners, a checkpoint of the present database and a new owner floor; a failure before the protected block changes nothing but the revocation, one inside it ends in HOLD with the floor kept; on a quiet day it succeeds exactly for a released, provable and observable domain |
| `FreshDomain.OwnedFreshDomain.VerifyRetained` | scripts/acceptance_fresh_domain.py:688-700 | success means everything is proven again and the snapshot equals the checkpoint; on a quiet day exactly then |
| `FreshDomain.OwnedFreshDomain.ResumeVerified` | scripts/acceptance_fresh_domain.py:702-706 | verification, then possibly keys expiring, then a release; on a quiet day it succeeds exactly when verification does |
| `FreshDomain.OwnedFreshDomain.Client` | scripts/acceptance_fresh_domain.py:603-606 | the scenario client is given exactly in DOMAIN_RELEASED with ownership verified |
| `FreshDomain.OwnedFreshDomain.AbortOwned` | scripts/acceptance_fresh_domain.py:498-566 | ends HOLD or DISPOSED; DISPOSED means the process's exit is recorded and no user or client is left; every signal goes to the launched process, whatever exits or PIDs are reused meanwhile; on a quiet day an exited process is disposed of, and a refusal means a meanwhile recorded exit, a lost PID or two signals in vain |
| `FreshDomain.OwnedFreshDomain.Dispose` | scripts/acceptance_fresh_domain.py:711-740 | quiesces first if released; success means DISPOSED with nothing left; on a quiet day it fails only if already disposed of or not quiescible |
| `FreshDomainRuns.RunKeeps` | scripts/acceptance_fresh_domain.py:211-740 | in every run every reachable state has a legal phase trail, at most one activation, at most one password, and a checkpoint that describes the database it was taken from |
| `FreshDomainRuns.LifecycleSafety` | scripts/acceptance_fresh_domain.py:39-51 | phases follow the lifecycle graph, one activation call at most, HOLD leads only to HOLD or DISPOSED, DISPOSED is final |
| `FreshDomainRuns.ActivationNeedsEmptyDomain` | scripts/acceptance_fresh_domain.py:398-421 | in every run the activation API is called only on a database without any key, with exactly the default user without password, the creator's user with his password, and his one client |
| `FreshDomainRuns.CreatorIsAlone` | scripts/acceptance_fresh_domain.py:353-372 | exactly those users and that client exist after start-up and after a quiesce, and before every verification, resume and release of a prepared domain that succeeds |
| `FreshDomainRuns.RunForward` | scripts/acceptance_fresh_domain.py:244-246 | along every run phase trails only extend, passwords are only new ones, and the owner floor only grows |
| `FreshDomainRuns.InterruptedReleaseStays` | scripts/acceptance_fresh_domain.py:585-606 | after a release cut short behind ACL SETUSER no operation succeeds and no phase is entered until abort, disposal or the issuer's HOLD |
| `FreshDomainRuns.PasswordSafety` | scripts/acceptance_fresh_domain.py:585-606 | a password that has stopped being accepted is never accepted again |
| `FreshDomainRuns.AtMostOnePassword` | scripts/acceptance_fresh_domain.py:585-606 | in every reachable state at most one scenario password is accepted |
| `FreshDomainRuns.OwnerFloorOnlyGrows` | scripts/acceptance_fresh_domain.py:642-646 | over any number of cycles checkpointed owners only grow and none is rewritten |
| `FreshDomainRuns.CheckpointOrigin` | scripts/acceptance_fresh_domain.py:665-683 | a retained state's checkpoint comes from the last quiesce, with only retained states since |
| `FreshDomainRuns.ResumeRestoresCheckpoint` | scripts/acceptance_fresh_domain.py:688-706 | at each successful resume every persistent key is as at the last quiesce, a key with a deadline is so or gone, and there is no other key; the databases are the same exactly when no key expired |
| `FreshDomainRuns.ResumeKeepsDatabaseExactly` | scripts/acceptance_fresh_domain.py:702-706 | where verification succeeds, every successful resume keeps the database if and only if no key has a deadline |
| `FreshDomainRuns.ExpiredInsideResume` | scripts/acceptance_fresh_domain.py:702-706 | a run from creation through a write and a quiesce to a successful resume that has lost a key with a deadline |
| `FreshDomainRuns.FailedQuiesceStaysReleased` | scripts/acceptance_fresh_domain.py:669-673 | a failed quiesce leaves DOMAIN_RELEASED if and only if a step before its protected block failed |
| `FreshDomainRuns.RevokedYetReleased` | scripts/acceptance_fresh_domain.py:669-673 | a run in which the scenario user is gone while the phase is DOMAIN_RELEASED and the client is given |
| `FreshDomainRuns.QuiesceProvesOwners` | scripts/acceptance_fresh_domain.py:665-683 | after a successful quiesce the header is intact and its count is the decimal text of the number of owners, which is that of the admissions; each owner has exactly one admission, whose run was created exactly once for it, and no two admissions share a run |
| `IssuerProtocol.OneHandoff` | scripts/acceptance_prepared_domain.py:280-412 | in every interleaving at most one hand-off over both transports, for the issued claim, after a validation that saw the issuer registered, unclosed, unexpired, unused, released and unchanged in binding |
| `IssuerProtocol.ExecKeeps` | scripts/acceptance_prepared_domain.py:220-412 | the lock has exactly one holder and a validated coroutine still faces the same unused entry, after any events |
| `IssuerProtocol.MoveKeeps` | scripts/acceptance_prepared_domain.py:302-314 | a step of the lock holder may change the entry because no other coroutine is past its check |
| `IssuerProtocol.EntryIsFinal` | scripts/acceptance_prepared_domain.py:246-252 | the entry is written once and a used grant stays used |
| `IssuerProtocol.EntryIsIssued` | scripts/acceptance_prepared_domain.py:246-252 | every entry ever written has the issuing call's claim, a deadline of its timeout from now, the binding observed now, and is unused |
| `IssuerProtocol.IssueExactly` | scripts/acceptance_prepared_domain.py:223-252 | at any time an undisturbed issue writes that entry if and only if the issuer is live and has issued nothing |
| `IssuerProtocol.RedeemExactly` | scripts/acceptance_prepared_domain.py:302-314 | at any time an undisturbed redeem makes the hand-off and opens the lease if and only if the claim is the issued one, unused, released, unexpired and unchanged in binding; else it changes nothing |
| `IssuerProtocol.IssuedThenRedeemed` | scripts/acceptance_prepared_domain.py:220-314 | issued at any time and redeemed before its timeout has passed, a grant is handed off and its lease yields |
| `IssuerProtocol.PopIsFinal` | scripts/acceptance_prepared_domain.py:201-206 | from the registry pop on there is no hand-off and no in-process lease yields its client |
| `IssuerProtocol.ChildLeaseExactly` | scripts/acceptance_prepared_domain.py:633-636 | the child's own lease yields exactly while the child has the credential and runs, its parent lives and the deadline has not come, whatever the registry says; it exists only after the one hand-off went over the pipes |
| `IssuerProtocol.ChildLeaseAfterPop` | scripts/acceptance_prepared_domain.py:633-636 | after the pop the child's lease yields in some continuation if and only if the credential went out over the pipes, child and parent live and the deadline has not come |
| `IssuerProtocol.ChildLeaseOutlivesPop` | scripts/acceptance_prepared_domain.py:633-636 | a reachable state after the registry pop in which the child's lease still yields |
| `IssuerProtocol.ChildGoneIsFinal` | scripts/acceptance_prepared_domain.py:457-475 | once the child has ended, or the registry was popped without one running, its lease never yields again |
| `IssuerProtocol.CleanCloseEndsChildLease` | scripts/acceptance_prepared_domain.py:534-541 | after a close without errors the child's lease yields in no continuation |
| `IssuerClose.ScenarioLease.Client` | scripts/acceptance_prepared_domain.py:85-90 | a client is given exactly by an open lease of a live issuer in its own process |
| `IssuerClose.ScenarioLease.Close` | scripts/acceptance_prepared_domain.py:92-96 | the lease is closed even if its client fails to close |
| `IssuerClose.CloseDescriptors` | scripts/acceptance_prepared_domain.py:542-550 | only descriptors still naming the recorded object are closed; any changed one makes the cleanup unclean |
| `IssuerClose.PreparedDomainIssuer.Close` | scripts/acceptance_prepared_domain.py:528-580 | its effect on registration, closing, stored error and phase is exactly `CloseRel`; the lease is closed, an error-free close has reaped the child, a closed issuer's domain is untouched; every signal goes to the launched Redis or the registered child; on a quiet day without a child, retaining succeeds exactly for a retainable domain and discarding whenever the process has exited |
| `IssuerClose.PreparedDomainIssuer.Abort` | scripts/acceptance_prepared_domain.py:518-521 | one non-retaining close; a closed issuer's domain is untouched |
| `IssuerClose.PreparedDomainIssuer.Finish` | scripts/acceptance_prepared_domain.py:512-516 | an expired scenario always raises; otherwise one validating close; a closed issuer's domain is untouched; on a quiet day without a child a retaining finish returns exactly for a retainable domain |
| `IssuerClose.CloseEnds` | scripts/acceptance_prepared_domain.py:555-580 | a close ends DISPOSED, HOLD or VERIFIED_RETAINED, retained only for a validated retain without any error, old or new; no stored error means the requested end |
| `IssuerClose.UnclosedExactly` | scripts/acceptance_prepared_domain.py:573-578 | the issuer stays unclosed if and only if an error was collected and the issuer_hold receipt failed |
| `IssuerClose.SureToClose` | scripts/acceptance_prepared_domain.py:573-578 | a close is sure to leave the issuer closed, whatever else fails, if and only if the issuer_hold receipt can be written |
| `IssuerClose.UnclosedThenRaises` | scripts/acceptance_prepared_domain.py:573-580 | a failed issuer_hold receipt, and a later close that succeeds and still raises |
| `IssuerClose.ErrorsAreKept` | scripts/acceptance_prepared_domain.py:530-533 | over any number of closes a stored error is never lost and every later close raises it; a closed issuer never changes |
| `IssuerClose.FinishEndsExactly` | scripts/acceptance_prepared_domain.py:512-533 | a normal finish has the requested end if and only if the issuer was not yet closed or had ended that way |
| `IssuerClose.AbortEndsExactly` | scripts/acceptance_prepared_domain.py:518-533 | likewise for abort |
| `IssuerClose.AbortAfterRetain` | scripts/acceptance_prepared_domain.py:530-533 | abort after a retained finish returns normally with the domain retained |
| `IssuerClose.RetainAfterAbort` | scripts/acceptance_prepared_domain.py:530-533 | a retaining finish after an abort returns normally with the domain disposed of |
| `OwnedCleanup.AwaitOwnedCleanup` | scripts/acceptance_prepared_domain.py:482-501 | the loop does what the system of waits does: it waits exactly until the task is done; a task that raised is reported as it raised, one that returned as cancelled exactly if the caller was; no cancellation is passed on |
| `OwnedCleanup.LevelConclusion` | scripts/acceptance_prepared_domain.py:503-521 | at any nesting depth a cleanup that raised is reported as it raised, one that returned as cancelled exactly if that level or one below it was |
| `OwnedCleanup.CleanupIsProtected` | scripts/acceptance_prepared_domain.py:482-521 | with each wait on a new shield, no schedule of cancellations at any level reaches the cleanup; wrappers end only after it, with its own exception if it raised, cancelled if it returned and an unfinished wrapper was cancelled, and normally otherwise |
| `OwnedCleanup.DirectAwaitCancelsCleanup` | scripts/acceptance_prepared_domain.py:496-497 | a shielded first wait followed by a direct one lets the second cancel reach the cleanup |
| `OwnedCleanup.ProtectedExactly` | scripts/acceptance_prepared_domain.py:491-498 | the cleanup is out of reach of every schedule if and only if every wait is on a shield |
| `OwnedCleanup.HitExactly` | scripts/acceptance_prepared_domain.py:491-500 | a wrapper counts as cancelled exactly when some cancel came before it finished |
| `Generations.GenerationIsContinuous` | scripts/acceptance_fresh_domain.py:73-98 | a PID that names one generation at two moments named it throughout |
| `Generations.FirstCheckAloneIsNotEnough` | scripts/acceptance_prepared_domain.py:460-471 | an identity check before the open alone does not suffice |
| `Signals.Kernel.OpenVerified` | scripts/acceptance_fresh_domain.py:516-518 | with any host events between any two statements, a pidfd opened between two successful strict checks is bound to the original generation; on a quiet day a refusal means a recorded exit or a lost PID |
| `Signals.Kernel.Identify` | scripts/acceptance_fresh_domain.py:514-522 | a running child gets a handle on the original generation, an exited one none |
| `Signals.Kernel.Terminate` | scripts/acceptance_fresh_domain.py:533-538 | SIGTERM and SIGKILL go to the handle's generation only; success means a signal and a recorded exit, giving up means both signals or nobody left to signal |
| `Signals.Kernel.ReapChild` | scripts/acceptance_prepared_domain.py:457-475 | every signal of child reaping goes to the registered child; success means its exit is recorded |
| `Signals.Kernel.VerifyUnlessExited` | scripts/acceptance_ci_legacy_environment.py:272-276 | the lenient check compares identities unless an exit status is recorded, and says which |
| `Signals.LegacyChildHandle` | scripts/acceptance_ci_legacy_environment.py:401-405 | the legacy child's handle is the original one if and only if its exit was not collected between the first comparison and the open; in particular if the second comparison was made |
| `Signals.LegacyChildCanBeMisdirected` | scripts/acceptance_ci_legacy_environment.py:401-405 | a concrete schedule in which the second check passes without comparing and the handle names another process |
| `Framing.Send` | scripts/acceptance_prepared_domain.py:129-140 | what is on the pipe is a prefix of the one frame; success exactly when it fits the limit and the writes had room for it |
| `Framing.Receive` | scripts/acceptance_prepared_domain.py:143-165 | under any splitting returns a line exactly when some whole number of reads ends at the first newline within the limit, else raises |
| `Framing.ReceivesFirstFrame` | scripts/acceptance_prepared_domain.py:143-165 | a received value is exactly the first unread frame and the rest stays unread |
| `Framing.ReceivedWasSent` | scripts/acceptance_prepared_domain.py:129-165 | decoding yields the first value not yet received; nothing is received that was not sent as one frame |
| `Framing.LoneFrameIsReceived` | scripts/acceptance_prepared_domain.py:143-165 | a frame alone on its pipe is received under every splitting |
| `Framing.AdjacentFramesCanBeRefused` | scripts/acceptance_prepared_domain.py:413-419 | two adjacent frames in one read are refused |
| `PreparedHandshake.HandshakeSafety` | scripts/acceptance_prepared_domain.py:393-419 | in every interleaving at most one credential and only upon an answer with the right nonce, challenge and child; agreement on nonce, child and child challenge on completion; at most two unread frames towards the parent, two only if `ready` and `result` |
| `PreparedHandshake.ExecKeeps` | scripts/acceptance_prepared_domain.py:583-632 | the frame, credential and agreement invariants survive any events |
| `PreparedHandshake.TwoFramesUnread` | scripts/acceptance_prepared_domain.py:656-656 | a handshake without any failure in which both frames are unread while the parent waits for the first |
| `PreparedHandshake.ReadyAndResultCanBeRefused` | scripts/acceptance_prepared_domain.py:413-419 | one read of those two frames is refused |
| `Receipts.WalkChain` | scripts/acceptance_ci_legacy_environment.py:137-145 | the backward loop decides chain acceptance |
| `Receipts.ChainAcceptsExactlyIntact` | scripts/acceptance_ci_legacy_environment.py:137-145 | from one stored digest the walk accepts if and only if every file holds the recorded bytes |
| `Receipts.CheckList` | scripts/acceptance_fresh_domain.py:235-242 | non-empty, and every file has its recorded digest |
| `Receipts.VerifiersAgree` | scripts/acceptance_fresh_domain.py:235-242 | chain and list give the same verdict on all records, except for no records at all |
| `Receipts.LegacyReceipts.Record` | scripts/acceptance_ci_legacy_environment.py:119-128 | appends one chained receipt or leaves the chain as it was; never overwrites a file |
| `Receipts.LegacyReceipts.Verify` | scripts/acceptance_ci_legacy_environment.py:137-145 | true exactly when the recorded files are intact |
| `LegacyHandshake.HandshakeSafety` | scripts/acceptance_ci_legacy_environment.py:316-337 | in every interleaving at most one unread frame, at most one credential and only upon an answer with the right nonce and child, and completion means agreement on nonce, child and challenge |
| `LegacyHandshake.UndisturbedCompletes` | scripts/acceptance_ci_legacy_environment.py:316-337 | with an honest child and no failure the handshake completes |
| `LegacyHandshake.ExecKeeps` | scripts/acceptance_ci_legacy_environment.py:498-529 | the alternation, one-credential and agreement invariants survive any events |
| `LegacyHandshake.NeverCombined` | scripts/acceptance_ci_legacy_environment.py:316-337 | the one frame on a pipe, if it fits the limit, is received whole under every splitting |
| `LegacyCleanup.OwnedLegacyEnvironment.VerifyRedis` | scripts/acceptance_ci_legacy_environment.py:394-400 | success means receipts and storage, and either a handle on the original Redis opened between two identity checks or a recorded exit; nothing is touched |
| `LegacyCleanup.OwnedLegacyEnvironment.VerifyChild` | scripts/acceptance_ci_legacy_environment.py:401-405 | success means a handle opened after a comparison and before a second check, or a recorded exit; the handle is what the open saw |
| `LegacyCleanup.OwnedLegacyEnvironment.RevokeAndStop` | scripts/acceptance_ci_legacy_environment.py:406-426 | ACL writes and signals only, each needing its handle, and to those handles' generations only |
| `LegacyCleanup.OwnedLegacyEnvironment.RemoveStorage` | scripts/acceptance_ci_legacy_environment.py:427-447 | storage is deleted only right after its own identity check |
| `LegacyCleanup.OwnedLegacyEnvironment.CleanupBody` | scripts/acceptance_ci_legacy_environment.py:385-467 | for every failure point and all host events: nothing follows the checks unless each owned process was identified while alive or its exit was recorded by then; ACL writes and signals need a handle opened between two checks; a failed check block has no effect; every signal goes to the original Redis or the child's handle, with the exact condition under which that is the original child; a finished cleanup only repeats its error |
| `TaskQueue.ProductStore.SubmitTask` | scripts/task_execution_product_path.py:83-121 | accepted exactly for a tenant and the echo type; appends one fresh record |
| `TaskQueue.ProductStore.RunWorkerOnce` | scripts/task_execution_product_path.py:129-172 | the scanning loop and in-place updates equal one `Work` step on the list |
| `TaskQueue.ProductStore.GetTaskResult` | scripts/task_execution_product_path.py:175-188 | the first record with the run id, absent exactly when there is none |
| `TaskQueue.WorkIsDequeue` | scripts/task_execution_product_path.py:129-172 | a worker call is a dequeue of the tenant's queue: oldest pending submission completed with the message of its own payload, no other tenant's record touched |
| `TaskQueue.RunIsFifo` | scripts/task_execution_product_path.py:83-172 | after any operations each tenant's records are a completed prefix and a queued suffix in submission order |
| `TaskQueue.WorkerServesInOrder` | scripts/task_execution_product_path.py:124-172 | the next call completes the next submission, with its ids and payload and its own message or none echoed; no task exactly when all are completed; the raising branch is unreachable |
| `AuditVisitor.AuthorityVisitor.Visit` | scripts/authority_audit.py:155-209 | the function stack is restored and the findings grow by the report of the subtree |
| `AuditVisitor.AuthorityVisitor.VisitCall` | scripts/authority_audit.py:202-209 | one finding for a matching call, none otherwise |
| `AuditVisitor.OneFindingPerMatchingCall` | scripts/authority_audit.py:166-209 | findings and matching calls are in bijection, in document order, each attributed to the functions on the path to its call |
| `AuditVisitor.CallsInExact` | scripts/authority_audit.py:202-209 | the reported positions are exactly those holding a matching call |
| `AuditVisitor.CallsInOrder` | scripts/authority_audit.py:202-209 | they are strictly in document order, so none is reported twice |
| `AuditVisitor.SeverityExactly` | scripts/authority_audit.py:286-322 | exactly which matching calls are allowed, banned and suspicious, by file, event append, state write and a safe token within eight lines |
| `AuditVisitor.MatchesMeans` | scripts/authority_audit.py:202-209 | a call matters if and only if it is named like a mutation, or commits on a receiver whose text names a pipeline or transaction |
| `AuditVisitor.NearbyMeans` | scripts/authority_audit.py:465-469 | a safe token is nearby if and only if it stands on a line whose number is at most eight away |
| `AuditVisitor.FindingExactly` | scripts/authority_audit.py:211-245 | a finding's place, function, line text and class |
| `AuditVisitor.NamesAreJoined` | scripts/authority_audit.py:166-168 | the attributed name is the enclosing functions from the outside in, joined by dots |
| `AuditTotals.ScanLuaFile` | scripts/authority_audit.py:546-596 | one weighed finding per mutating line, or one read failure |
| `AuditTotals.LuaReportsExactly` | scripts/authority_audit.py:556-596 | a readable Lua file reports exactly its mutating lines, in order, each once, appends as allowed and the rest as suspicious |
| `AuditTotals.MutatingLinesExact` | scripts/authority_audit.py:556-562 | the reported line numbers are exactly the mutating lines, strictly increasing |
| `AuditTotals.RunAudit` | scripts/authority_audit.py:599-641 | findings of all files in order, their counts, and the balanced risk account |
| `AuditTotals.RiskAccount` | scripts/authority_audit.py:505-517 | total risk = 100·banned + 25·critical bans + 5·risk bearing + telemetry + Lua projection; suspicious = noise + telemetry + Lua projection + risk bearing |
| `AuditTotals.Heatmap` | scripts/authority_audit.py:644-663 | one entry per file, each counting exactly its own findings, by descending risk with ties in order of first appearance |
| `AuditTotals.HeatmapConserves` | scripts/authority_audit.py:644-663 | summed over entries: severities, risk and every class count equal the audit's |
| `AuditTotals.PartitionConserves` | scripts/authority_audit.py:644-673 | splitting findings by distinct covering keys loses nothing and counts nothing twice |
| `AuditTotals.SuspiciousClassCounts` | scripts/authority_audit.py:666-672 | exactly the occurring classes with their counts, most frequent first then by name, summing to the suspicious findings |
| `Manifest.Sha256File` | scripts/sprint80/transition_cardinality.py:265-270 | hashing in chunks equals hashing the whole file |
| `Manifest.DigestIsFold` | scripts/sprint80/transition_cardinality.py:265-270 | the digest is read off the state after every byte in file order |
| `Manifest.BuildManifest` | scripts/sprint80/transition_cardinality.py:273-297 | one row per regular file except the manifest, in name order, with its size and digest |
| `Manifest.ValidateManifest` | scripts/sprint80/freeze_hardening.py:368-413 | accepted exactly when rows are in bijection with the required evidence, branch and head match and every file has its size and digest |
| `Manifest.BuildThenValidate` | scripts/sprint80/freeze_hardening.py:368-413 | an untouched directory validates exactly when its files are the required set |
| `Manifest.ManifestPinsContents` | scripts/sprint80/freeze_hardening.py:395-405 | a built manifest accepts a later directory exactly when every required file kept its content |

## Left out

- Operating-system detail: parsing /proc, socket discovery, file modes, process start-up and the Redis
  configuration text are an identity value and a success or failure.
- OwnerBijection.CollectAdmissions: the header and inventory re-read inside `verify_task_owner` is not
  repeated per record; `ValidateHeader` states it once, for the same unchanging database.
- IssuerClose.PreparedDomainIssuer.Close: requires that retaining implies validating, which holds for
  every caller of `_close`; unvalidated retention is never requested.
- FreshDomain.OwnedFreshDomain.PrepareFresh: the temporary set-up connection and its exclusion check
  are part of the success or failure of the terminal set-up.
- FreshDomain.OwnedFreshDomain.IssueRelease: receipts, the terminal flag's match and the recorded
  binding are not part of this contract; `IssuerProtocol` models the binding.
- FreshDomain.OwnedFreshDomain.Dispose: signals by `terminate()` without a pidfd, so it is outside the
  process-generation theorems; its identity check and the wait are one success or failure.
- FreshDomain.OwnedFreshDomain.Create: the server's own start-up is one step; ports and wait loops are
  not modelled.
- LegacyCleanup.OwnedLegacyEnvironment.RemoveStorage: the leak scan of the child's observation file and
  the descriptor identity checks are one success or failure.
- IssuerProtocol.OneHandoff: one issuer per domain; two issuers constructed concurrently on one domain
  are not excluded by the code and not covered.
- Lifecycle operations interleaving with each other: each is taken as atomic except for expiring keys
  inside a resume. Two concurrent `resume_verified` calls are not covered: the second one's release
  does not verify again.
- OwnedCleanup.CleanupIsProtected: a cancellation that arrives before a wrapper's first statement is not
  modelled; nothing else holds a reference to the inner tasks then.
- Snapshots are taken of an unchanging database, and values are the part of it that the snapshot reads:
  deadlines of single hash fields, consumers without pending entries and a stream's last id are not
  observed, so equality and persistence of keys do not speak of them.
- Liveness: time only grows and nothing is claimed about progress on blocked pipes.
- Argument syntax in `issue` (name alphabet, timeout range) and the shape of the product CLI's result.
- Stream entries: repeated field names and field order inside one entry, which the client library's
  dictionaries already drop.
- Receipts: file permissions and the leak scan's secret list (a predicate here).
- `_classify_suspicious`, `_looks_stateish`, `str.strip` and the Lua pattern are uninterpreted; file
  discovery and unreadable Python files of the audit are not modelled.
- TaskQueue.ProductStore.SubmitTask: identifiers and timestamps are parameters; the JSON store file and
  its safety flags are not modelled.
- `_LegacyAdapter`, the pytest hooks, output redaction, argument parsing and logging capture.
- Scenario drivers, drills, the readiness, decision and boundary reports, and the other tables under
  scripts/sprint80: flat conjunctions and counts.
