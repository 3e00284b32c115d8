# Artifact Promotion: verified model

Artifact Promotion is a coordinator that moves artifacts through a lifecycle
(CANDIDATE to PROMOTED, with quarantine, revocation, supersession and
retirement) under a policy of evidence gates. This project models it in Dafny
and proves what the coordinator promises: that every reachable state is
consistent and reloadable, that a transition commits at most once and only on
the policy, evidence and reservation its plan was issued on, that fencing is
permanent, that an acknowledged commit survives crashes, and that the files and
frames it writes are read back as they were.

`dafny verify dfyconfig.toml` checks the whole project (Dafny 4.11).

## How the modules build on each other

- **Lifecycle**: stages, the transition graph and `LifecycleGraph::validate`,
  with its two bounded traversals and its topological sort on arrays. `Accepts`
  is the exact acceptance condition of every graph.
- **Domain**, **Store**: records, policies, the coordinator state, and the
  clauses of `verify_consistency`.
- **Gates**: evidence selection and gate evaluation as loops, against a
  declarative meaning (`Holds`, `Eligible`).
- **Steps**: what each operation does to the state, as one critical section.
- **Effects**, **Evaluations**, **Intake**, **Trusts**: what each operation changes
  and answers, field by field and independently of how **Steps** computes it, with
  the exact condition under which it takes effect and what it decides for later
  operations.
- **Invariant**, **Preservation**, **Keeping**, **KeepingEvidence**,
  **KeepingAuthority**: the invariant `Inv` and its preservation, operation by
  operation.
- **Reference**, **Demands**: the reference policy, what it demands before each
  move, and the constructor's state.
- **Runs**, **Promotions**, **Fencing**, **Stages**, **Lifelines**, **Sources**,
  **Registry**, **Ledger**, **Reasons**, **Capacity**: theorems over all runs. A run is any
  sequence of critical sections, so anything may fall between the evaluation and
  the commit of a promotion.
- **Graphs**, **Straightness**, **Staleness**, **Unsaved**: promises that fail,
  with the runs that break them and the exact condition under which they hold.
- **Checks**, **Engine**: `PromotionEngine` as a class whose methods update its
  fields in place. Each method is proved to make exactly the step of **Steps**
  (`View() == Step(old(View()))`), so every theorem above is about the class.
- **Durability**: persist epochs, the change listener and serialized snapshot
  writes as interleaved steps of any number of threads, with crash and reload.
- **Sha256**, **KnownAnswer**: the streaming digest against sections 4.1.2, 4.2.2,
  5.1.1, 5.2.1 and 6.2.2 of FIPS 180-4, and the published digest of "abc" worked out.
- **Wire**, **Frames**: writer, reader and the protocol frame.
- **Identities**, **Records**, **Layouts**, **Snapshots**: identity generators,
  record codecs as field rows with their validity rules, and the sectioned state
  file.
- **Rendering**, **Persistence**, **FreshFile**: the coordinator state as field
  rows and back, the round trip of a state through its file, and that the state of
  a fresh coordinator meets all that is assumed of one.

## Modelling decisions

- Digests the coordinator computes are terms over what they cover: injective and
  never the all-zero sentinel. The policy digest covers identity, generation,
  entry and graph; what follows them is one opaque number, because gates are
  written without counts. The evidence snapshot digest covers a set of entries,
  which is what sorting them before encoding achieves.
- Identities are numbers (high half first); a generator inside the engine is the
  last identity it issued. `Identities` models the two-word generator itself.
  Counters do not saturate and the plan expiry sum does not wrap. The freshness
  gate subtracts and adds modulo 2^64, as the code does.
- The clock, salts and entropy are parameters. Free text, labels, notes and
  explanations are not part of the state, except where a check reads them; of the
  reasons given with a decision the state keeps the number. Declared dependencies
  are stored sorted and without repetition, as the code does: their order decides
  which answer a failing evaluation gives.
- Stages, artifact kinds and evidence classes have the declared enumerators only.
  The kind named by an unscoped policy rule is not kept: nothing but the policy
  digest reads it.
- The durability model takes a save to be one atomic write that succeeds. An
  operation may or may not take a new persist epoch, except that a commit that
  writes a record always does; the class states which ones do. The engine's own
  persistence mutex is not used in the argument, so the theorem covers more
  interleavings than the code has. A process that cannot read its file does not
  come up.
- `Persistence` relates a state to its file under two assumptions. `Faithful`:
  digests occurring in the state are rendered apart, integrity digests as the
  SHA-256 of the bytes they cover, and the fields the model leaves free hold
  values of their types. `Carried`: every number, text and list fits the field that
  carries it (a list, its 32-bit count). Neither excludes an enumerator, a count, a
  record or a file size the readers refuse: how long chains and tables may be
  (`Compact`) and the 256 MiB a file may have are part of the exact conditions, not
  assumed. `FreshFile.FreshIsCarried` gives a rendering of every fresh coordinator.
- How many bytes a state takes depends on text the model does not keep, so
  `Durability` takes the length of a state's file as a function of the state
  (`size`); `BytesDecodeWhenUp` and `CrashReadsTheBytes` set it to the length of the
  bytes written.
- A state that is installed from elsewhere is only checked for consistency. The
  theorems over runs apply to it if it is also sealed and traceable, which the
  engine's own files are (`Engine.PromotionEngine.InstallState`).

## Where the code and its documentation differ

The model follows the code.

- The repository's README.md:30-36 and src/engine/trust.cpp:87-90 say that commit
  revalidates the stage generation. It does not: `Staleness.StaleGenerationCommits`
  gives a run of a fresh coordinator in which a plan commits from another stage
  than it was issued for. `Straightness.SourcesKeptExactly` gives the exact
  condition on the transitions that policies govern under which every commit
  starts where its plan was issued; the reference policy meets it.
- Acknowledged state is meant to survive a crash. It is always in the file, but
  there are four ways in which the file cannot be read back, and a save checks none
  of them: after one evaluation about an unregistered revision
  (`Ledger.StrayIsUnreadable`, `Durability.OneStrayIsEnough`); once a plan has
  gathered more than 64 reasons (`Ledger.AttemptsPileUp`; the exact number is
  `Reasons.ReasonsExactly`); once a chain has more than 1024 revisions, which any
  larger `max_artifact_revisions_per_id` admits (`Durability.LongChainIsLost`), or a
  table more entries than its reader counts; and once the file is longer than
  256 MiB (src/core/io.cpp:27). `Durability.CrashRestoresTheFile` proves that the
  process comes up exactly when none of the four happened in the saved history
  (`Survivable`), and `Persistence.LoadsWhenReadable` proves the same of the bytes.
  `Durability.ModestHistoryComesUp` gives bounds a caller can keep to.
- include/artifact_promotion/stage.hpp:53-56 says that a valid graph has no cycle
  but the return from the holding stage. `Lifecycle.SpineKeptExactly` proves that
  this holds of all accepted graphs exactly when releases lead to the entry, and
  `Lifecycle.CyclesGoThroughRelease` what holds of every accepted graph.
- docs/api-contract.md:400 gives a frame header of 92 bytes. The code's is 104
  (`Frames.FramesAreLaidOut`).
- Every change of state is meant to take a persist epoch. A commit refused because
  the policy moved rewrites its decision and drops its reservation without one, and
  a registration refused by one of its last two checks uses up a revision identity
  the same way. `Engine.PromotionEngine.CommitPlan` and
  `Engine.PromotionEngine.RegisterArtifact` state exactly when, and
  `Unsaved.RefuseQuietly` is a run that ends so.

## Model

| member | source | states |
|---|---|---|
| `Lifecycle.Validate` | src/domain/stage.cpp:156-361 | Accepts a graph if and only if `Accepts` holds: well-formed, every stage reachable from the entry and leading to an end of life, an order in which each stage follows as many predecessors as it has outside the holding stage, and an edge into a terminal stage |
| `Lifecycle.Traverse` | src/domain/stage.cpp:209-238 | The bounded queue traversal marks a set that holds the start, is closed under the links and is no larger than any closed set around it; the queue never overflows |
| `Lifecycle.MarkForward` | src/domain/stage.cpp:209-240 | The marks are exactly the stages reachable from the entry by a path |
| `Lifecycle.MarkBackward` | src/domain/stage.cpp:246-259 | The backward marks hold every stage with an edge into a terminal one, are closed under predecessors, and hold no stage without a way to a terminal one |
| `Lifecycle.OrdersAll` | src/domain/stage.cpp:296-348 | In-degree counting without the holding stage's edges, then the sort that still decrements along them, orders every reachable stage if and only if a release order exists |
| `Lifecycle.AcceptedIsConnected` | src/domain/stage.cpp:261-282 | In an accepted graph every stage is reachable from the entry, and every non-terminal one reaches revocation, supersession or retirement |
| `Lifecycle.CyclesGoThroughRelease` | src/domain/stage.cpp:284-348 | Every cycle of an accepted graph contains QUARANTINED or a direct successor of it |
| `Lifecycle.ExactVerdict` | src/domain/stage.cpp:156-361 | If QUARANTINED is not the entry and its edges lead only there, a well-formed graph is accepted if and only if it is connected and acyclic without those edges |
| `Lifecycle.AcyclicIsAccepted` | src/domain/stage.cpp:284-348 | Wherever releases lead, a connected well-formed graph that is acyclic without them is accepted |
| `Lifecycle.SpineKeptExactly` | include/artifact_promotion/stage.hpp:52-57 | The documented promise of an acyclic spine holds of all accepted graphs with a given entry and release target if and only if the target is the entry; for any other target an accepted graph with a further cycle is constructed |
| `Lifecycle.ReferenceIsAccepted` | src/domain/stage.cpp:72-105 | The reference lifecycle validates from CANDIDATE |
| `Domain.Policy.FindRule` | src/domain/policy.cpp:279-286 | The first rule in declared order that governs a kind, source and destination; -1 exactly if none does |
| `Store.FindRevision` | src/domain/store.cpp:56-67 | The first revision of a chain with the identity sought, negative exactly if there is none |
| `Gates.SelectEvidence` | src/engine/evaluate.cpp:111-182 | Whatever the iteration order, selects the live record of the gate's class about this revision and digest with the largest ingestion sequence, or reports revoked, superseded, mismatched and missing in that precedence |
| `Gates.NewestIsUnique` | src/engine/evaluate.cpp:111-182 | With distinct ingestion sequences only one record can be selected, so iteration order does not matter |
| `Gates.EvidenceGateMeaning` | src/engine/evaluate.cpp:507-667 | An evidence gate passes if and only if the newest applicable record passed and is fresh, in its window and bound to the environment as the gate asks |
| `Gates.DependencyMeaning` | src/engine/evaluate.cpp:524-560 | The dependency gate passes if and only if every named dependency is registered and every artifact carrying its name is authoritative |
| `Gates.GateMeaning` | src/engine/evaluate.cpp:397-667 | Each of the eighteen gate kinds passes if and only if its declarative requirement holds |
| `Gates.VerdictMeaning` | src/engine/evaluate.cpp:291-709 | The running evaluation, with its early exit, passes if and only if a rule governs the transition and every requirement of it holds |
| `Gates.VerdictIsJustified` | src/engine/evaluate.cpp:184-278 | Its answer is that of the first requirement in declared order that does not hold, told by its kind and by the records there are, whatever fails after it; a dependency nobody ever registered ends it with ProvenanceMissing; without a rule the answer says whether the graph allows the move |
| `Gates.OneJustification` | src/engine/evaluate.cpp:184-278 | That condition admits one answer for each evaluation |
| `Gates.EvaluateGates` | src/engine/evaluate.cpp:291-709 | The loop over the rule's gates computes that verdict and the evidence entries; not failed if and only if `Eligible`, and answered as `Justified` says |
| `Checks.ValidatePolicy` | src/domain/policy.cpp:247-277 | Accepts a policy if and only if identity, generation, name and rule bounds are right, its graph is accepted, and every rule is valid and follows an edge |
| `Checks.VerifyConsistency` | src/domain/store.cpp:98-233 | The map-by-map check returns true if and only if every clause of `Consistent` holds of every entry |
| `Checks.CheckChain` | src/domain/store.cpp:122-146 | One revision chain: non-empty, keyed by its artifact, generations 1 to n, no revision identity twice |
| `Reference.ReferencePolicyIsValid` | src/domain/policy.cpp:364-517 | The policy every coordinator starts under validates: its gates, its rules, each rule an edge, its graph |
| `Demands.ReferenceDemands` | src/domain/policy.cpp:364-517 | Under the reference policy a move is eligible if and only if it is one of its ten and everything listed for it (good order, evidence by class and age, approvals, dependencies, authority) is there |
| `Reference.InitialHasInv` | src/engine/engine.cpp:40-63 | The constructor's state satisfies the invariant, for every usable configuration and salt |
| `Preservation.CommitKeepsInv` | src/engine/promotion.cpp:257-509 | Commit keeps the invariant on every branch |
| `Keeping.EvaluateKeepsInv` | src/engine/promotion.cpp:46-240 | Evaluation keeps the invariant, with or without a plan |
| `Keeping.RegisterKeepsInv` | src/engine/engine.cpp:243-356 | Registration keeps the invariant although it leaves reservations of superseded revisions behind |
| `KeepingEvidence.SubmitKeepsInv` | src/engine/engine.cpp:358-488 | Submission keeps the invariant, extending the chain of its evidence key |
| `KeepingEvidence.WithdrawKeepsInv` | src/engine/trust.cpp:481-540 | Revoking evidence re-seals its integrity digest and keeps the invariant |
| `KeepingAuthority.PublishKeepsInv` | src/engine/engine.cpp:137-165 | Publication keeps the invariant: the new policy validates and is sealed by its digest |
| `KeepingAuthority.RestartKeepsInv` | src/engine/engine.cpp:167-205 | A new epoch drops every reservation, so each remaining one carries the authority in force |
| `KeepingAuthority.SnapshotInstalls` | src/engine/engine.cpp:607-651 | The engine's own snapshot, under any non-zero epoch, is consistent and installs |
| `KeepingAuthority.DoReleaseKeepsInv` | src/engine/trust.cpp:103-216 | Quarantine release keeps the invariant although a stale reservation may remain |
| `KeepingAuthority.DoQuarantineKeepsInv` | src/engine/trust.cpp:38-101 | Quarantine keeps the invariant |
| `KeepingAuthority.DoRevokeKeepsInv` | src/engine/trust.cpp:218-313 | Revocation keeps the invariant and names a stored decision |
| `KeepingAuthority.DoSupersedeKeepsInv` | src/engine/trust.cpp:315-417 | Supersession keeps the invariant and names a stored successor revision |
| `KeepingAuthority.DoRetireKeepsInv` | src/engine/trust.cpp:419-479 | Retirement keeps the invariant |
| `Runs.ApplyKeepsInv` | src/engine/engine.cpp:137-651 | Every operation, from any state with the invariant, leads to one with the invariant |
| `Runs.ReachableIsConsistent` | src/domain/store.cpp:98-233 | After any run the state passes the consistency check, its snapshot installs unchanged or under the next epoch, and reservations never exceed their bound |
| `Runs.EvaluateProgress` | src/engine/promotion.cpp:109-217 | Evaluation never removes or overwrites a reservation somebody holds, and a new one is for a plan issued in this very call |
| `Runs.ApplyProgress` | src/engine/promotion.cpp:46-509 | Under every operation reservations only disappear or are granted afresh, the epoch and sequences never go back, and a request identity keeps its plan and its content |
| `Promotions.CommitExactly` | src/engine/promotion.cpp:257-509 | Commit appends a record if and only if the plan is stored unaltered, the policy and graph are those of its issue, it has not expired, its reservation is held, the live evidence is the same and every requirement holds; the already-at-destination branch is unreachable |
| `Effects.CommitMoves` | src/engine/promotion.cpp:411-421 | A commit moves the plan's revision to the plan's destination, one stage generation on; at PROMOTED it is promoted by the plan's decision and authoritative unless revoked; no other revision changes |
| `Effects.CommitIsFiled` | src/engine/promotion.cpp:423-482 | The decision and the request then read committed, one record carries the fields of the plan, the true source and the authority in force, one event is noted, the reservation is gone, and nothing else changes |
| `Effects.CommitRefuses` | src/engine/promotion.cpp:257-394 | Any other attempt is answered with its first reason (not the plan issued, policy moved, expired, reservation lost, evidence changed, first failing gate) and changes at most its decision and its reservation |
| `Effects.PlansExpire` | src/engine/promotion.cpp:330-341 | A plan commits within its time or never, whatever runs in between; late, unless the policy moved as well, it is answered with RevalidationRequired and loses its reservation |
| `Evaluations.EvaluateFiles` | src/engine/promotion.cpp:96-240 | A fresh request about registered content is answered by the first of: already there, move unknown, reserved by another attempt, first failing gate, no room, a plan; the answer is filed under its request and noted, and a plan is stored and its artifact reserved exactly if the answer carries one |
| `Evaluations.EvaluateMisses` | src/engine/promotion.cpp:71-94 | A request about an unknown revision or other content is answered so; only the decision is filed and the request identity stays free |
| `Evaluations.RetriesAreAnswered` | src/engine/promotion.cpp:56-69 | A request identity that was answered is answered with the same decision ever after, never again with a plan, and refused for any other content; neither changes anything |
| `Evaluations.PromotedIsAnswered` | src/engine/promotion.cpp:117-127 | After a commit to PROMOTED a fresh request for it is answered already promoted |
| `Promotions.ApplyEmits` | src/engine/promotion.cpp:423-444 | Every record of every operation bears the authority in force, fresh sequence and transition numbers, and is stored; only commits produce records with a plan |
| `Fencing.DeadForever` | src/engine/promotion.cpp:343-354 | A plan that lost its reservation never commits in any continuation |
| `Fencing.CommitNeedsContinuousHold` | src/engine/promotion.cpp:343-354 | If a plan commits in a run, its reservation was held at every moment since it was issued |
| `Fencing.FencedForever` | src/engine/trust.cpp:87-90 | After a restart, recovery, reload or compatibility bump no earlier plan ever commits, nor one for an artifact quarantined, revoked, superseded or retired, nor one about a revision whose evidence was revoked, nor one already tried |
| `Fencing.ExactlyOnce` | src/engine/promotion.cpp:446-461 | Over any run, reloads included, no two records share a plan and no two share a request identity |
| `Fencing.EpochsNeverDecrease` | src/engine/promotion.cpp:423-444 | Over any run with restarts and reloads, commit sequences and transition identities strictly increase and record epochs never decrease |
| `Fencing.IssuedPlan` | src/engine/promotion.cpp:109-240 | An issued plan is bound to the request, the decision, the content, the revision, stage, stage generation, policy, graph, authority, sequences and live evidence of the moment; it expires after the configured time, and its transition is eligible |
| `Fencing.CommitIsSound` | src/engine/promotion.cpp:297-394 | Whatever ran between issue and commit, the commit sees the policy, graph, authority and live evidence set of the issue, and every requirement of a governing rule holds again |
| `Registry.CommitRestsOnTheSame` | src/engine/promotion.cpp:375-394 | The content a plan commits and the records in force about it are the ones it was issued on, field by field |
| `Stages.ApplyEvolves` | src/engine/trust.cpp:71-85 | Under every operation each stored revision keeps its identity and moves only along an edge of the active graph, except by revocation and re-registration; new revisions come last with their predecessor superseded |
| `Lifelines.EveryMoveIsLicensed` | src/engine/promotion.cpp:411-413 | In every reachable state a stage move follows an edge of the graph active at that step and raises the stage generation by one; only revocation and re-registration do not ask the graph; all that was declared of a revision stays |
| `Lifelines.NeverResurrected` | src/engine/trust.cpp:265-279 | A revoked revision stays revoked, with the same revocation, and is never authoritative again |
| `Lifelines.GuardedPromotions` | src/engine/promotion.cpp:411-421 | If every policy of a run guards its rules into PROMOTED with the two trust gates, no revision is ever PROMOTED while quarantined or revoked |
| `Lifelines.ReferenceIsGuarded` | src/domain/policy.cpp:350-360 | The reference policy guards its rules into PROMOTED |
| `Lifelines.OneCurrentRevision` | src/engine/engine.cpp:303-329 | In every run at most one revision of an identity is authoritative and not superseded |
| `Lifelines.EvidenceHistory` | src/engine/engine.cpp:381-468 | In every reachable state the records of every evidence key form one supersession chain with generations 1 to n in ingestion order, exactly the last in force, each with its integrity digest and subject binding intact |
| `Intake.RegisterExactly` | src/engine/engine.cpp:243-297 | A registration is taken if and only if it is well declared, there is room in the registry and its chain, its content is not known under another kind and is not current already; refused, it moves no more than the revision generator |
| `Intake.RegisterStores` | src/engine/engine.cpp:270-352 | It stores exactly what was declared at the entry of the policy in force, not promoted; the revision before it is superseded by it and leaves its stage unless that is final; other chains stay |
| `Ordered.SortedNamesMeaning` | src/engine/engine.cpp:281-284 | Declared dependencies are kept in order, each once, none added or lost |
| `Ordered.AscendingIsUnique` | src/engine/engine.cpp:281-284 | There is only one such list for a set of names, so the answers of an evaluation do not depend on how they were declared |
| `Registry.DependenciesDecide` | src/engine/evaluate.cpp:524-560 | Right after a registration the gate on dependencies holds if and only if everything the registration declared is registered and authoritative |
| `Registry.ContentIsKept` | src/engine/engine.cpp:137-651 | Over every run each revision keeps its kind, content, name, producer, provenance and dependencies |
| `Registry.RegistryStaysInOrder` | src/engine/engine.cpp:255-297 | Over every run one content has one kind, registry and chains stay within their bounds, and no revision repeats its predecessor |
| `Intake.SubmitExactly` | src/engine/engine.cpp:358-421 | A submission is taken if and only if it is well claimed, about a registered revision by its digest, and replaces a record or finds room; refused, it changes nothing |
| `Intake.SubmitStores` | src/engine/engine.cpp:415-488 | The record says what the submission says and is in force; the one record it replaces is superseded by it and its generation follows; all others stay |
| `Intake.SubmissionDecides` | src/engine/evaluate.cpp:111-182 | Right after a submission every evidence gate of its class is decided by it alone: it holds if and only if the submission passed and is fresh, in its window and environment |
| `Intake.OnlyItsOwnCounts` | src/engine/evaluate.cpp:111-182 | An evidence gate holds only by a passed record of its class, in force, about this revision and its content |
| `Intake.WithdrawExactly` | src/engine/trust.cpp:481-540 | Evidence is withdrawn if and only if it is there, in force and the authority is no stranger; it is stamped and sealed anew, reservations about its revision are gone, and it satisfies no gate any more |
| `Trusts.QuarantineExactly` | src/engine/trust.cpp:38-101 | A quarantine takes effect if and only if it is named, the graph allows it and the revision is not held or gone; then the revision is held and stamped and not authoritative |
| `Trusts.ReleaseExactly` | src/engine/trust.cpp:103-216 | A release is decided if and only if the revision is held; the decision is filed either way, and the revision returns to CANDIDATE if and only if a rule governs the release and all its requirements hold |
| `Trusts.RevokeExactly` | src/engine/trust.cpp:218-313 | A revocation takes effect if and only if it is named, the revision is not revoked and the decision and cause are on file; then the revision has no authority and the record says why |
| `Trusts.SupersedeExactly` | src/engine/trust.cpp:315-417 | A supersession takes effect if and only if another registered artifact takes over and the graph allows it; then the revision points at the successor and is not authoritative |
| `Trusts.RetireExactly` | src/engine/trust.cpp:419-479 | A retirement takes effect if and only if the graph allows it and it has not happened; then the revision is not authoritative |
| `Trusts.PublishExactly` | src/engine/engine.cpp:137-165 | A policy comes into force, sealed and noted, if and only if it validates and its identity is new or its generation advances |
| `Trusts.PublicationFences` | src/engine/promotion.cpp:297-320 | After another identity, generation, entry or graph was published, no plan issued before commits |
| `Trusts.RestartExactly` | src/engine/engine.cpp:167-205 | A later epoch releases every reservation with one note each, in order; any other is refused |
| `Trusts.RecoverExactly` | src/engine/engine.cpp:207-241 | Recovery releases every reservation with one note each, in order, and changes nothing else |
| `Trusts.VetoExactly` | src/engine/trust.cpp:542-570 | A veto says what it was last set to and leaves the other one; the gate against it holds if and only if it is not standing |
| `Trusts.CompatibilityExactly` | src/engine/trust.cpp:572-591 | A compatibility generation advances or is refused; advancing, it releases every reservation, and exactly the gates that ask for it hold |
| `Sources.CommitSource` | src/engine/promotion.cpp:356-422 | Under any policy a commit whose revision moved since its plan was issued starts from SUPERSEDED or CANDIDATE, at a later stage generation; nothing else can have moved it |
| `Sources.SourceIsExact` | src/engine/promotion.cpp:356-422 | While every policy keeps to a straight set of transitions, every committed record starts from the stage and stage generation of its plan, although stale reservations are left behind |
| `Sources.ReferenceSourcesAreExact` | src/domain/policy.cpp:364-517 | In every run of a fresh coordinator whose published policies keep to the transitions the reference policy governs, every commit starts from the stage and stage generation of its plan |
| `Sources.FreshCoordinatorIsSafe` | src/engine/engine.cpp:40-63 | Every run of a fresh coordinator is consistent and reloadable throughout, within its reservation bound, with one current revision per identity and trusted promotions under guarded policies |
| `Straightness.SourcesKeptExactly` | src/engine/promotion.cpp:356-422 | Policies over a set of transitions keep every commit at the source of its plan if and only if no transition leaves SUPERSEDED and no stage leads both to CANDIDATE and to a stage CANDIDATE leads to |
| `Straightness.SupersededBreaks` | src/engine/engine.cpp:303-329 | For any transition out of SUPERSEDED a run is constructed in which a registration overtakes a plan and the plan commits all the same |
| `Straightness.DetourBreaks` | src/engine/trust.cpp:177-181 | For any stage that leads to CANDIDATE and to a stage CANDIDATE leads to, a run is constructed in which a quarantine release overtakes a plan and the plan commits from CANDIDATE |
| `Staleness.StaleGenerationCommits` | README.md:30-36 | The documented stage generation check fails also with every hard gate on the rules: a fresh coordinator commits a plan issued at CANDIDATE from SUPERSEDED, one stage generation later; the run also shows that the premises of the theorems about commits can be met |
| `Engine.PromotionEngine.constructor` | src/engine/engine.cpp:40-63 | Starts in the initial state with the invariant, replacing an unusable configuration by the defaults |
| `Engine.PromotionEngine.RegisterArtifact` | src/engine/engine.cpp:243-356 | Makes exactly the registration step and keeps the invariant; no persist epoch is taken if and only if the call fails, and then the revision generator has moved exactly if the call was admitted up to its last two checks |
| `Engine.PromotionEngine.SubmitEvidence` | src/engine/engine.cpp:358-488 | Makes exactly the submission step and keeps the invariant; every change takes a persist epoch |
| `Engine.PromotionEngine.PublishPolicy` | src/engine/engine.cpp:137-165 | Makes exactly the publication step, validating the policy first |
| `Engine.PromotionEngine.RestartCoordinator` | src/engine/engine.cpp:167-205 | Refuses an epoch that does not advance, else releases every reservation under the new one |
| `Engine.PromotionEngine.RecoverInFlight` | src/engine/engine.cpp:207-241 | Releases every reservation with a note each, and returns how many |
| `Engine.PromotionEngine.TakeSnapshot` | src/engine/engine.cpp:607-639 | Has no reservations; with the reservations and the two internal generators put back it is the live state; under any non-zero epoch it is consistent, installs and satisfies the invariant |
| `Engine.PromotionEngine.InstallState` | src/engine/engine.cpp:641-651 | Replaces the state if and only if it is consistent without its reservations; the invariant then holds if and only if the installed state is also sealed and traceable |
| `Engine.PromotionEngine.Quarantine` | src/engine/trust.cpp:38-101 | Makes exactly the quarantine step and keeps the invariant |
| `Engine.PromotionEngine.ReleaseQuarantine` | src/engine/trust.cpp:103-216 | Makes exactly the release step: the gates decide, the decision is filed either way |
| `Engine.PromotionEngine.Revoke` | src/engine/trust.cpp:218-313 | Makes exactly the revocation step and keeps the invariant |
| `Engine.PromotionEngine.Supersede` | src/engine/trust.cpp:315-417 | Makes exactly the supersession step and keeps the invariant |
| `Engine.PromotionEngine.Retire` | src/engine/trust.cpp:419-479 | Makes exactly the retirement step and keeps the invariant |
| `Engine.PromotionEngine.RevokeEvidence` | src/engine/trust.cpp:481-540 | Makes exactly the withdrawal step, dropping the reservations about the revision |
| `Engine.PromotionEngine.SetArtifactVeto` | src/engine/trust.cpp:542-570 | Sets one of the two vetoes and leaves the other |
| `Engine.PromotionEngine.SetCompatibilityGeneration` | src/engine/trust.cpp:572-591 | Refuses a generation that does not advance, else drops every reservation |
| `Engine.PromotionEngine.EvaluateRequest` | src/engine/promotion.cpp:46-240 | Makes exactly the evaluation step, refused if admission is closed; every change takes a persist epoch |
| `Engine.PromotionEngine.CommitPlan` | src/engine/promotion.cpp:257-509 | Makes exactly the commit step; no persist epoch is taken if and only if admission is closed, the plan is unknown or altered, the policy moved or the revision is missing, and of these exactly the moved policy changes the state; a record always takes an epoch |
| `Engine.PromotionEngine.Promote` | src/engine/promotion.cpp:242-255 | The evaluation, then the commit of its plan if there is one |
| `Unsaved.RefuseQuietly` | src/engine/promotion.cpp:297-320 | A run of the engine (publish, register, evaluate, publish, commit) whose last call changes the state and drops the reservation under the persist epoch of the call before |
| `Engine.PromotionEngine.CloseAdmission` | src/engine/engine.cpp:107-110 | Closes admission and changes nothing else |
| `Engine.PromotionEngine.OpenAdmission` | src/engine/engine.cpp:112-115 | Opens admission and changes nothing else |
| `Durability.AcknowledgedIsDurable` | src/engine/engine.cpp:77-100 | For any number of threads and any interleaving, crashes included, the clean epoch never exceeds the version on disk and every acknowledged operation is in the file |
| `Durability.NextKeepsGood` | src/engine/promotion.cpp:484-507 | Every step of every thread keeps the protocol's invariant, although commits store the clean epoch under a shared lock |
| `Durability.AcknowledgedIsInTheFile` | src/engine/promotion.cpp:484-507 | Whatever happens after an acknowledgement, crashes and reloads included, the file's history still holds the operation and its record |
| `Durability.ServedAlone` | src/engine/promotion.cpp:484-507 | When no other thread is about, every operation, a commit with its own save included, is saved and acknowledged and leaves the process idle |
| `Durability.AcknowledgedRecordSurvives` | src/engine/promotion.cpp:484-507 | And the next process comes up with it if and only if the saved history is survivable: every evaluation that stored a decision named a registered revision, no decision gathered more than 64 reasons, no chain has more than 1024 revisions and no table more entries than its reader counts, and the file is at most 256 MiB long |
| `Durability.CrashRestoresTheFile` | src/distributed/coordinator_server.cpp:52-94 | After a crash the process comes up if and only if the saved history is survivable, and then holds exactly what the file held, under the next epoch |
| `Durability.BytesDecodeWhenUp` | src/persist/snapshot.cpp:158-614 | The bytes of the file load if and only if the process comes up, whatever the size of its chains, tables and decisions |
| `Durability.CrashReadsTheBytes` | src/distributed/coordinator_server.cpp:52-94 | The process comes up with exactly the state the bytes of the file decode to, under the next epoch |
| `Durability.LongChainIsLost` | src/persist/snapshot.cpp:349-352 | Under a configuration that allows more than 1024 revisions, registering one identity more often than that is acknowledged and saved every time, and no crash after it is survived |
| `Durability.OneStrayIsEnough` | src/engine/promotion.cpp:71-81 | From any quiet system, handling one request about an unregistered revision is saved and acknowledged, and no crash after it is survived |
| `Durability.ModestHistoryComesUp` | src/distributed/coordinator_server.cpp:52-94 | A process comes up if it allows at most 1024 revisions of an artifact, its saved history has at most a million operations, evaluated only requests about registered revisions and handed in no plan more than 32 times, and its file is at most 256 MiB long |
| `Ledger.ApplyKeepsBooks` | src/engine/promotion.cpp:56-240 | Every operation keeps the books in order: decisions name a kind exactly when they name a source, a plan's decision is its own, requests are filed under their identity, records are behind their generator |
| `Ledger.SourcedExactly` | src/engine/promotion.cpp:71-81 | A run leaves every decision with a source stage if and only if it evaluated only requests about registered revisions; a decision without one is never repaired |
| `Ledger.AttemptsPileUp` | src/engine/promotion.cpp:297-320 | A plan whose policy moved on gathers one reason with every attempt, without bound, and its decision outgrows what a file can carry |
| `Ledger.StrayIsUnreadable` | src/engine/promotion.cpp:71-81 | One evaluation about an unregistered revision is enough to make a fresh coordinator's state unreadable |
| `Reasons.VerdictCounts` | src/engine/evaluate.cpp:291-709 | A verdict gives one reason for each gate that does not hold, up to the first unregistered dependency, and a single one if no rule governs the transition |
| `Reasons.ReasonsExactly` | src/engine/promotion.cpp:257-509 | After any run the reasons of a decision are those it was filed with or, if it has a plan, exactly one for each refused attempt, one for each gate that failed in its revalidation and one if the evidence had changed; a plan is revalidated at most once |
| `Reasons.TerseExactly` | src/persist/codec.cpp:1248-1441 | A run leaves every decision with at most 64 reasons if and only if that count, taken along the run, stays within 64 for every decision |
| `Reasons.OnlyAttemptsCount` | src/engine/promotion.cpp:297-354 | From a state without decisions that is so if and only if refused attempts and findings of the revalidation together stay within 64 for every plan; what an evaluation is filed with never matters |
| `Reasons.ModestRunsAreReadable` | src/engine/promotion.cpp:343-354 | A run without stray evaluations in which no plan is handed in for commit more than 32 times leaves every decision readable |
| `Capacity.ApplyGrows` | src/engine/engine.cpp:137-651 | Every operation adds at most one entry to a table, lengthens a chain only within the configured bound, and files at most two notes beyond those that stand for dropped reservations |
| `Capacity.RunStaysWithin` | src/engine/engine.cpp:290-356 | After n operations on an empty store no table has more than n entries, the history no more than 2n, and no chain more revisions than configured |
| `Capacity.RegistrationsExactly` | src/engine/engine.cpp:243-356 | One identity can be registered as often as configured, with alternating content, and the state is within the reader's counts if and only if that was at most 1024 times |
| `Capacity.ListsAllExactly` | src/persist/snapshot.cpp:331-508 | Whatever a coordinator does in its first million operations stays within the reader's counts if and only if its configuration allows at most 1024 revisions of an artifact |
| `Sha256.Hasher.Update` | src/core/sha256.cpp:92-119 | Takes any number of bytes; the buffer stays below one block between calls and the state is the fold over all whole blocks |
| `Sha256.Hasher.Compress` | src/core/sha256.cpp:41-90 | The in-place message schedule and 64 rounds compute the next hash value of the specification |
| `Sha256.Hasher.Finish` | src/core/sha256.cpp:121-147 | The digest of everything fed, padded as specified, and a reset; the 72-byte padding array always suffices |
| `Sha256.HashChunks` | src/core/sha256.cpp:92-147 | However a message is split into updates, the digest is the block fold over the whole padded message |
| `Sha256.ZeroCountIsLeast` | src/core/sha256.cpp:121-147 | The padding is the shortest that leaves room for the length at the end of a block |
| `KnownAnswer.DigestOfAbc` | src/core/sha256.cpp:41-147 | The digest of "abc" is the published one, so padding, schedule, round functions and constants are those of the standard |
| `Wire.LittleThenValue` | src/core/bytes.cpp:80-125 | Reading a number back from its bytes gives the number, for any width it fits |
| `Wire.ValueThenLittle` | src/core/bytes.cpp:80-125 | Writing back a number read from bytes gives the bytes |
| `Wire.PatchU32` | include/artifact_promotion/detail/writer.hpp:83-88 | Rewrites exactly the four reserved bytes |
| `Wire.Reader.Load` | src/core/wire.cpp:10-44 | Reads if and only if enough bytes remain, advancing by them; otherwise refuses without moving |
| `Wire.Reader.ReadRaw` | src/core/wire.cpp:57-64 | Copies exactly the bytes asked for, or refuses without moving |
| `Frames.EncodeFrame` | src/distributed/protocol.cpp:159-195 | Accepts a frame if and only if it is encodable, and lays it out field by field with a digest footer |
| `Frames.DecodeFrame` | src/distributed/protocol.cpp:197-301 | Accepts a byte string if and only if it is the encoding of a version 1 frame, and returns that frame, which re-encodes to the same bytes |
| `Frames.RoundTrip` | src/distributed/protocol.cpp:159-301 | Every encodable version 1 frame comes back unchanged |
| `Frames.EncodingIsInjective` | src/distributed/protocol.cpp:159-195 | Two encodable frames with the same bytes are the same frame, so the codec is a bijection between version 1 frames and accepted byte strings |
| `Frames.FramesAreLaidOut` | docs/api-contract.md:411-412 | Magic at 0, version at 4, type at 6, flags at 8, payload length at 12, least significant byte first, and every other field, the payload and the digest at its place |
| `Identities.IssuedIncreases` | include/artifact_promotion/identity.hpp:227-238 | As many identities as are left before the salt wraps come out non-zero and strictly increasing |
| `Identities.WrapsExactly` | include/artifact_promotion/identity.hpp:227-238 | The next identity is larger than the last if and only if some are left before the salt wraps |
| `Identities.NeverReissues` | include/artifact_promotion/identity.hpp:240-258 | A generator resumed ahead of a set of identities issues none of them while its counter lasts |
| `Identities.IdentityGenerator.Next` | include/artifact_promotion/identity.hpp:227-238 | Takes one step and returns a valid identity |
| `Identities.IdentityGenerator.ObserveAll` | include/artifact_promotion/identity.hpp:247-258 | Advances past every observed identity of its salt, and no further |
| `Records.Write` | src/persist/codec.cpp:327-1692 | Appends exactly the encoding of a record row, cutting over-long text |
| `Records.Unambiguous` | src/persist/codec.cpp:21-1712 | For every layout, equal bytes come from equal values and leave equal rests: no encoding is a proper prefix of another |
| `Records.ReadData` | src/persist/codec.cpp:21-1712 | A reader accepts if and only if some permitted value of the layout is encoded here, returns it and stops right after it, whatever the validity rules; the rules of this format are `Layouts.Check` |
| `Records.SameLoosely` | src/persist/codec.cpp:21-1712 | Bytes written from a value that fits its fields are never read as another value, even when the value itself is one the readers refuse |
| `Snapshots.WriteSection` | src/persist/snapshot.cpp:42-45 | A section written with a zero length and patched afterwards holds its kind, its true length and its body |
| `Snapshots.BuildSorted` | src/persist/snapshot.cpp:331-508 | Filling a table from its entries in key order restores the table, with no key twice |
| `Snapshots.ReadSections` | src/persist/snapshot.cpp:237-560 | Accepts a payload if and only if it consists of permitted sections, at most 32, no kind twice, in any order, and returns them |
| `Snapshots.ResumeGenerators` | src/persist/snapshot.cpp:535-604 | Every stored generator is resumed and advanced past exactly the identities its tables hold |
| `Snapshots.EncodeSnapshot` | src/persist/snapshot.cpp:54-156 | Header, eleven sections in order and digest footer, for every state |
| `Snapshots.FileIsLaidOut` | src/persist/snapshot.cpp:145-155 | A file starts with its magic, version 1, two reserved bytes and the payload length, least significant byte first; the payload follows, and the digest of all before it |
| `Snapshots.SectionIsLaidOut` | src/persist/snapshot.cpp:42-45 | A section is its kind in two bytes, its length in four, and its body |
| `Snapshots.DecodeSnapshot` | src/persist/snapshot.cpp:158-606 | Accepts a file if and only if header, digest and sections are right, all eleven sections are there, artifact and evidence keys do not repeat and a header after the policy agrees with it; the policy overrides the header, its graph is sorted, and the generators are ahead of everything in the tables |
| `Snapshots.AcceptedIsTyped` | src/persist/snapshot.cpp:331-508 | Every table of an accepted file is keyed by what its entries carry, and every entry has its layout and passes its validity rule |
| `Snapshots.LoadSnapshot` | src/core/io.cpp:21-45 | Reads a file if and only if it is at most 256 MiB long and decodes, and returns what it decodes to |
| `Snapshots.LoadsExactly` | src/persist/snapshot.cpp:54-614 | A snapshot whose values fit their fields decodes if and only if every section is permitted and the payload within its bound, and loads if and only if header and footer fit into that bound too |
| `Snapshots.ComesBack` | src/persist/snapshot.cpp:54-606 | Header, policy and all eight tables of a permitted snapshot come back unchanged from its file, the generators resumed |
| `Rendering.DecisionFits` | src/persist/codec.cpp:1248-1441 | A decision that fits its fields is permitted exactly if it names a kind, a source, a destination and an outcome and gives at most 64 reasons |
| `Rendering.ChainFits` | src/persist/snapshot.cpp:331-378 | A chain of valid revisions that fits its fields is permitted if and only if it has at most 1024 of them |
| `Rendering.EvidenceFits` | src/persist/codec.cpp:883-1058 | A valid evidence record passes the reader's validity and integrity checks |
| `Rendering.ArtifactFits` | src/persist/codec.cpp:613-881 | A valid revision passes the reader's validity checks |
| `Rendering.PolicyFits` | src/persist/codec.cpp:403-611 | A valid policy passes the reader's checks of its graph, rules, scopes and gates |
| `Rendering.PlanFits` | src/persist/codec.cpp:1080-1246 | A valid plan passes the reader's validity checks |
| `Persistence.LoadsWhenReadable` | src/persist/snapshot.cpp:54-614 | A consistent coordinator state can be read back from its file if and only if every decision in it names a source and gives at most 64 reasons, no chain has more than 1024 revisions, no table more entries than its reader counts, and the file is at most 256 MiB long |
| `Persistence.FiveAreAhead` | src/persist/snapshot.cpp:573-604 | In every reachable state the revision, evidence, plan, decision and transition generators have issued all that their tables hold, so they come back unchanged |
| `Persistence.ParsedBack` | src/persist/codec.cpp:21-1712 | Parsing the field rows of a state gives the state back |
| `Persistence.SaveAndLoad` | src/persist/snapshot.cpp:54-614 | Encoding a reachable state and loading the file succeeds if and only if that condition holds, and returns the state without its reservations, every generator but the internal request one unchanged |
| `FreshFile.FreshIsCarried` | src/engine/engine.cpp:40-63 | The state of every fresh coordinator has a rendering that is faithful and fits all its fields, so the theorems about files apply to it |

## Left out

- Sockets, threads as operating system objects, file input and output, console tools, examples and rendering: plumbing.
- The payload codecs of protocol messages other than the frame, and the worker boot handshake: the same reader and writer again.
- Read-only queries (inspect, history, explain, rollback eligibility) and `check_invariants`: they change nothing, and the reservation accounting of the latter is not kept by the code.
- Ordering preferences of rules, gate labels, explanations and findings: they do not influence a verdict.
- `LifecycleGraph::add_edge` and `canonicalize`, hexadecimal and text helpers: easy members; validation takes the edge list as it is.
- Enumerator names and error texts.
- Counter saturation at 2^64 and a wrapping plan expiry: unreachable in practice, and assumed away.
- Injectivity of the policy digest beyond its graph: not promised by its encoding.
- Failing saves: a save is an atomic write that succeeds; the final save at shutdown is not modelled.
- Sorting of provenance lists at registration: the gates read them as sets.
- Engine.PromotionEngine.Promote: states the two critical sections back to back; what holds when other operations fall in between is `Fencing.CommitIsSound`.
- Snapshots.DecodeSnapshot: all sections are parsed before the tables are filled, so which of several errors is reported may differ.
- Persistence.LoadsWhenReadable: the lists of gate explanations and findings of a decision are assumed within their bound of 64; an evaluation and a revalidation add at most 32 each, and a plan is revalidated at most once (`Reasons.ReasonsExactly`).
- Gates.VerdictMeaning: the skew tolerance of the freshness gate is stated as computed, wrap-around included, and not claimed to work.
