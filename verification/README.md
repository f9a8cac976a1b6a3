# Forge delivery protocols, modelled and proved

Forge is a CI/CD control plane. Its hard code is a set of durable protocols: write-once journals,
row locks, leases, compare-and-swap pointers and idempotency keys that must stay right across
crashes, lost replies, retries and racing workers. This project models those protocols and proves
what they promise, over every run and not only for one call.

Two forms are used throughout.

- A protocol that several parties drive is a machine: a `State` (or `World`), a total `Perform`
  that leaves the state alone when an act is not enabled, and `Run` over any sequence of acts.
  Acts are single durable effects, so a crash can fall between any two. An invariant is kept by
  every act, and the results are stated over `Run` for all act sequences.
- Code that updates things in place is a class or a method with loops. Its contract ties the new
  state to the machine or to a specification function, or states the promise outright.

What the outside decides (clocks, database replies, Helm, Docker, Git, HTTP) is a parameter or an
act. In the delivery owner and in recipe seals a digest stands for the value it was taken of.
Elsewhere a digest is any function, and where a collision would break a promise the result exhibits it.

| file | subject |
|---|---|
| `PgData`, `PgMachine`, `PgInvariant`, `PgProofs`, `PgRelease`, `PgTheorems`, `PgOwner` | the isolated PostgreSQL delivery owner: data, machine, invariant, step proofs, results, and the owner's own methods |
| `DeploymentFence` | one unresolved deployment per environment, effects in pipeline order, rollback snapshots |
| `HelmReadback`, `ImageValues` | the Helm adapter's marker and readback, and its nested values overlay |
| `Outbox`, `Scheduler`, `PushDecision` | lease-claimed delivery, cron slots, first-writer-wins push decisions |
| `ArtifactStore`, `AuditSearch` | artifact files and rows, literal search through ILIKE |
| `Document`, `ServiceGraph`, `Recipe` | closed-recipe admission and rendering |
| `RateLimit`, `BackupInventory` | the fixed-window limiter and the backup inventory |
| `Prelude`, `Text` | options, results, splitting and trimming text |

Eight promises turned out to hold only under a condition. The code is modelled as it is, a concrete
run shows the failure, and the condition, something to check before the call, is proved to be the
exact one:

- outbox workers never send one message at once, no message ends both delivered and failed, and no
  outcome is ever changed, each iff a full batch of sends fits in the lease
  (`Outbox.ExclusiveExactly`, `Outbox.OutcomesExactly`);
- a message can still get an outcome iff it is not stranded: eight claims spent, none recorded and no
  worker holding it (`Outbox.CanEndExactly`);
- no Helm workspace submits, or is about to submit, twice iff no retry finds its own marker in a
  workspace already used (`HelmReadback.OnceExactly`); refusing every marker that exists is enough
  (`HelmReadback.SubmitsOnce`), and going on from one submits again
  (`HelmReadback.FoundMarkerSubmitsAgain`);
- effects follow pipeline order iff every accepted completion with effect passes the query that
  preparation makes, in every run that does not take an effective deployment off the record
  (`DeploymentFence.OrderedByQueryExactly`); in runs that do, the table cannot tell
  (`DeploymentFence.TableCannotTell`) and the comparison is with the effects there were
  (`DeploymentFence.OrderedExactly`); accepting one completion per attempt is enough in any case
  (`DeploymentFence.OnceResolves`);
- a readback keeps the files of undecided uploads iff the transaction was decided or the database
  was out of reach (`ArtifactStore.ReadbackExactly`);
- pruning never changes an answer iff the window is zero, or the limit is positive and the pruning
  horizon, computed with 64-bit wrap-around, covers the window (`RateLimit.NeutralExactly`);
- the claim query's quiet window agrees with the reference predicate iff the window does not wrap
  past midnight (`Outbox.QuietGateExactly`);
- when schedules are edited, the recorded fires stay exactly the slots of the expression in force
  iff every stale reader that moved the row agreed with that expression about the slot
  (`Scheduler.ExactExactly`); if the fire time that a save or a re-arming reader computed still lies
  ahead when it is written, only a stale reader that re-arms an errored schedule can do harm
  (`Scheduler.StartsAheadAreExact`).

## Model

| member | source | states |
|---|---|---|
| `PgTheorems.Always` | scripts/postgres-delivery.py:894-1000 | in every state that operations, crashes between any two effects, torn files, reconciliations and client writes can reach, the whole invariant holds |
| `PgTheorems.NoAcknowledgedWriteLost` | scripts/postgres-delivery.py:546-571 | at every point of every run, any database a writer can reach holds exactly the replay of every write acknowledged so far with the confirmed migrations, and that history only grows |
| `PgTheorems.LogOnlyGrows` | scripts/postgres-delivery.py:783-794 | the history of acknowledged writes at any earlier point is a prefix of the later one |
| `PgTheorems.CommitIsRemembered` | scripts/postgres-delivery.py:564-571 | a commit can succeed only on the serving database, and enters the acknowledged history there |
| `PgTheorems.ConfirmationCarries` | scripts/postgres-delivery.py:907-989 | the confirmed pointer moves from a closed source to a closed target whose content is the source's, carried through the pending migrations (deploy) or unchanged (restore) |
| `PgTheorems.WriterConfinedToConfirmed` | scripts/postgres-delivery.py:783-794 | at every crash point the writer reaches at most the confirmed manifest's database, or the initial one before any, and a confirmed manifest already has its verified proof on disk |
| `PgTheorems.ReadbackAcceptsOwnJournal` | scripts/postgres-delivery.py:796-857 | readback accepts a journal the owner left exactly when it is asked with the journalled command and no receipt file was torn; verified and reconciled receipts then have a proof for the same manifest |
| `PgTheorems.LeasesAndOutcomes` | scripts/postgres-delivery.py:894-949 | lease generations strictly increase, no key starts twice, at most one operation lacks a known outcome, every intent belongs to a recorded start |
| `PgTheorems.StartsOnlyWhenSettled` | scripts/postgres-delivery.py:898-905 | a new operation directory appears only when all outcomes are known and under the generation just leased, and a known outcome never changes |
| `PgTheorems.AdvanceOwnDirectory` | scripts/postgres-delivery.py:119-147 | an effect writes in no other operation's directory, and only making the own one records a start |
| `PgData.MigratedReplay` | scripts/postgres-delivery.py:649-669 | migrating the replayed content is replaying the history with the migrations appended |
| `PgData.WrittenReplay` | scripts/postgres-delivery.py:546-562 | a committed write is the next event of the replay |
| `PgOwner.ReachesKeeps` | scripts/postgres-delivery.py:894-1000 | wherever an undisturbed owner stops, the invariant holds |
| `PgOwner.TruthIsVerified` | scripts/postgres-delivery.py:718-781 | an application that serves the published manifest and says so is observed as verified |
| `PgOwner.VerifiedExactly` | scripts/postgres-delivery.py:755-777 | the five probe results give a verified receipt iff each is a 200 with the expected body |
| `PgOwner.Owner.constructor` | scripts/postgres-delivery.py:191-236 | a fresh owner is an enrolled target |
| `PgOwner.Owner.Lease` | scripts/postgres-delivery.py:935-949 | the generation is replaced, the directory made and the intent written, as machine effects; it stops exactly on a left-over staged pointer |
| `PgOwner.Owner.Mark` | scripts/postgres-delivery.py:430-439 | a phase is noted in the own directory and nothing else changes; the release note names the target and lease |
| `PgOwner.Owner.RevokeAll` | scripts/postgres-delivery.py:553-556 | the loop leaves CONNECT on none of the server's databases to either role |
| `PgOwner.Owner.Drain` | scripts/postgres-delivery.py:546-571 | contents and disk are untouched; it succeeds exactly when every connect privilege names the source or a listed database, and then both roles are shut out completely |
| `PgOwner.Owner.MakeDatabase` | scripts/postgres-delivery.py:583-598 | succeeds exactly for a free name; the new database is empty and closed to both roles |
| `PgOwner.Owner.TakeSnapshot` | scripts/postgres-delivery.py:609-625 | succeeds exactly on a quiescent source with a history and an unused folder; the snapshot names the source's content |
| `PgOwner.Owner.Rehearse` | scripts/postgres-delivery.py:626-632 | accepted exactly when the drill name is free and drill and source both equal the fingerprint |
| `PgOwner.Owner.BackUp` | scripts/postgres-delivery.py:607-634 | verified exactly when source, folder and drill name allow it and the drill equals the source; only the drill database is added |
| `PgOwner.Owner.CopySnapshot` | scripts/postgres-delivery.py:958-962 | accepted exactly when the name is free, no writer is connected and the restored content is the snapshot's |
| `PgOwner.Owner.Migrate` | scripts/postgres-delivery.py:649-669 | a success is accepted exactly at the descriptor's target, a failure exactly when the copy equals the snapshot; the content is the pending migrations applied |
| `PgOwner.Owner.Publish` | scripts/postgres-delivery.py:1002-1012 | the manifest is stored before the current pointer names it; confirmed and journal stay |
| `PgOwner.Owner.OpenReader` | scripts/postgres-delivery.py:690-693 | the reader gets the target and only the target, exactly when nobody else is or may be connected |
| `PgOwner.Owner.StartApplication` | scripts/postgres-delivery.py:671-716 | the application runs on the published manifest with the writer still shut out |
| `PgOwner.Owner.Serve` | scripts/postgres-delivery.py:671-781 | only a verified observation goes on to the release; contents and pointers are untouched |
| `PgOwner.Owner.Observation` | scripts/postgres-delivery.py:732-781 | verified iff the checks were sound, the application runs this manifest, its database has the published fingerprint and target schema, and all five probes answered exactly what it serves; the receipt stays bound to its command and lease |
| `PgOwner.Owner.Release` | scripts/postgres-delivery.py:783-794 | the confirmed pointer moves only with the proof already written, and the writer is opened to the target alone |
| `PgOwner.Owner.OpenWriter` | scripts/postgres-delivery.py:789-794 | after the release intent the writer gets exactly the target, contents and pointers unchanged |
| `PgOwner.Owner.Secure` | scripts/postgres-delivery.py:951-957 | drain and backup succeed exactly when the source can be drained and backed up; memory then holds the source's snapshot |
| `PgOwner.Owner.Build` | scripts/postgres-delivery.py:958-981 | copy and migration succeed exactly when name, sessions, restored content and runner answer allow it; the target holds the carried content |
| `PgOwner.Owner.Finish` | scripts/postgres-delivery.py:989-989 | the final receipt is written in the own directory and the operation is over |
| `PgOwner.Owner.Deliver` | scripts/postgres-delivery.py:972-989 | confirmed changes only to this operation's proved manifest; true answers give a verified result with the writer opened |
| `PgOwner.Owner.Execute` | scripts/postgres-delivery.py:894-1000 | wherever it stops it left a world the machine reaches, so the invariant holds; a verified result means confirmed is current, proved and open; in favourable conditions it does end verified with the carried content |
| `PgOwner.Owner.ReconcileOperation` | scripts/postgres-delivery.py:859-892 | writes a receipt only for a completed, proved release that is observed to serve, and keeps the invariant |
| `DeploymentFence.FenceHolds` | backend/src/deployment_runtime.rs:157-188 | while accepted completions find their deployments unresolved, an environment has one unresolved deployment at most and its effects never go back in pipeline order |
| `DeploymentFence.OneUnresolvedAlways` | backend/src/deployment_runtime.rs:157-170 | in every run whatever, repeated completions included, an environment never has two unresolved deployments |
| `DeploymentFence.EffectsStayOnRecord` | backend/src/deployment_runtime.rs:173-188 | every effect stays in the table the fence reads, and an unresolved deployment is at least as new as every effect of its environment |
| `DeploymentFence.RollbackRestores` | backend/src/deployment_runtime.rs:189-228 | a rollback carries exactly the images, commit and revision of an earlier successful deployment of its own environment, not newer than the release it replaces |
| `DeploymentFence.QualifiedRollbackIsValid` | backend/domain/src/helm_deploy.rs:294-308 | a qualified rollback is never refused for its revisions |
| `DeploymentFence.OnlyCompletionResolves` | backend/src/platform.rs:1404-1413 | in every run losing the lease never resolves a deployment, only its completion does, and a finished one changes only by a repeated completion |
| `DeploymentFence.RepeatedCompletionReorders` | backend/src/runner_protocol_termination.rs:105-152 | a run in which a second completion of one attempt, failed as the termination path demands, records an older pipeline after a newer one |
| `DeploymentFence.OrderedExactly` | backend/src/deployment_runtime.rs:394-437 | for every run of the code as it is, effects follow pipeline order iff every accepted completion recorded no effect or one not behind the effects its environment has had |
| `DeploymentFence.StepOrderedExactly` | backend/src/deployment_runtime.rs:394-437 | one step keeps the order iff its completion satisfies that condition before the call |
| `DeploymentFence.QueryTellsOrder` | backend/src/deployment_runtime.rs:173-188 | while the table shows exactly the effects there were, an order is not behind them iff the query of preparation does not exceed it |
| `DeploymentFence.RecordKeptExactly` | backend/src/deployment_runtime.rs:394-437 | a step keeps the table true to the effects iff it is not a completion without effect of an effective deployment |
| `DeploymentFence.OrderedByQueryExactly` | backend/src/deployment_runtime.rs:173-188 | in every run without such a completion, effects follow pipeline order iff every accepted completion with effect passes that query |
| `DeploymentFence.TableCannotTell` | backend/src/deployment_runtime.rs:173-188 | after such a completion two runs have the same rows, and one next completion keeps the order of the first and breaks that of the second |
| `DeploymentFence.ResolvingKeepsOrder` | backend/src/deployment_runtime.rs:157-188 | completions that find their deployments unresolved satisfy it throughout a run |
| `DeploymentFence.OnceResolves` | backend/src/deployment_runtime.rs:394-437 | accepting one completion per attempt makes every completion find its deployment unresolved |
| `DeploymentFence.RepeatedCompletionForgets` | backend/src/deployment_runtime.rs:173-188 | a repeated completion without effect takes an effective deployment out of the aggregate, so pipelines not behind the others are admitted again |
| `DeploymentFence.ForgottenEffectReorders` | backend/src/deployment_runtime.rs:173-188 | the run in which an older pipeline then takes effect after a newer one |
| `DeploymentFence.LatestBounds` | backend/src/deployment_runtime.rs:173-188 | the two aggregates bound every effective deployment of the environment |
| `DeploymentFence.Deployments.Fence` | backend/src/deployment_runtime.rs:157-188 | the scan decides activity and attempt use exactly and yields both maxima |
| `DeploymentFence.Deployments.Prepare` | backend/src/deployment_runtime.rs:18-352 | decides as the machine does and writes one row exactly on a grant, taking over a requested row without an attempt |
| `DeploymentFence.Deployments.Complete` | backend/src/deployment_runtime.rs:394-437 | an accepted completion finishes exactly the attempt's row; without a row only a completion without observation is fine |
| `DeploymentFence.Deployments.HoldLost` | backend/src/platform.rs:1404-1413 | exactly the prepared or running rows without a live lease become held |
| `HelmReadback.ReadbackSound` | scripts/helm_deploy.py:237-281 | in every crash and retry history, and whoever else changed the release, readback answers no-effect or superseded only if nothing was ever submitted from the attempt's workspace |
| `HelmReadback.UntouchedIsTold` | scripts/helm_deploy.py:237-281 | the converse: an upgrade from whose workspace nothing was applied, and which the history does not name, is answered superseded if the live release is newer and no-effect otherwise |
| `HelmReadback.DeployedIsProved` | scripts/helm_deploy.py:237-281 | a deployed answer means live, healthy, at the expected version, with values that a submitted upgrade with exactly that metadata put there |
| `HelmReadback.VerdictsMean` | scripts/helm_deploy.py:237-281 | in every run a failed answer is about values that a submitted upgrade put on the release; superseded and no-effect are read off the live release |
| `HelmReadback.Always` | scripts/helm_deploy.py:310-372 | every submission has its own whole marker on disk, one process writes a marker at a time, and only submitted upgrades put metadata on the release |
| `HelmReadback.RetrySubmitsAgain` | scripts/helm_deploy.py:214-234 | for every upgrade, and every rollback from an installed revision, a run in which a retry submits a second time |
| `HelmReadback.StepOnceExactly` | scripts/helm_deploy.py:214-234 | from every sound state, a step keeps used workspaces pairwise different iff it is not a retry that finds its own marker in a used one |
| `HelmReadback.OnceExactly` | scripts/helm_deploy.py:214-234 | for every run: no workspace submits or is about to submit twice at any point iff no such retry occurs |
| `HelmReadback.SubmitsOnce` | scripts/helm_deploy.py:214-234 | in every run in which no marker step finds its own marker, no two submissions come from one workspace |
| `HelmReadback.FoundMarkerSubmitsAgain` | scripts/helm_deploy.py:214-234 | in every reachable state where the marker is found in a workspace that has submitted, going on submits again under the identity of the earlier submission |
| `HelmReadback.FoundMarkerSubmitsBoth` | scripts/helm_deploy.py:214-234 | where another process of the workspace is about to submit, both do, under one identity |
| `ImageValues.AcceptedExactly` | scripts/helm_deploy.py:83-101 | a key set is accepted iff all keys are well formed and none is a path prefix of another |
| `ImageValues.BuiltSound` | scripts/helm_deploy.py:88-100 | looking up each key gives its own image, and no other path leads to a string |
| `ImageValues.OrderDoesNotMatter` | scripts/helm_deploy.py:88-100 | every iteration order gives the same verdict and the same dictionary |
| `ImageValues.InsertExactly` | scripts/helm_deploy.py:92-100 | an insertion succeeds iff no string sits on, above or below its path |
| `ImageValues.InsertAt` | scripts/helm_deploy.py:92-100 | an insertion changes what its own path leads to and nothing else |
| `ImageValues.Overlay` | scripts/helm_deploy.py:83-101 | the loop accepts iff the keys are acceptable; `_forge` stays as given and the rest holds exactly the images |
| `Outbox.DelayBacksOff` | backend/src/outbox.rs:655-659 | delays never shrink with the attempt and stay between fifteen seconds and an hour |
| `Outbox.Always` | backend/src/outbox.rs:718-759 | while a batch fits in the lease, claims held by workers are disjoint, leased and match their rows, in every interleaving |
| `Outbox.DeliveryIsExclusive` | backend/src/outbox.rs:718-759 | a row is claimed at most eight times, never sent by two workers at once, and never both delivered and failed |
| `Outbox.OutcomeIsFinal` | backend/src/outbox.rs:1042-1099 | a delivered or failed row is never claimed, sent or relabelled again |
| `Outbox.UndeliveredEndsOrWaits` | backend/src/outbox.rs:1042-1099 | an undelivered send, on an unsupported channel too, fails the row iff its eight claims are spent; otherwise it is due again no sooner than fifteen seconds and no later than an hour |
| `Outbox.ExclusiveExactly` | backend/src/outbox.rs:20-24 | no two workers ever send one message at once iff twenty sends at the time limit fit in the lease |
| `Outbox.OutcomesExactly` | backend/src/outbox.rs:1042-1099 | no message ever ends both delivered and failed, and no outcome is ever changed, iff twenty sends at the time limit fit in the lease |
| `Outbox.SlowWorkersDisagree` | backend/src/outbox.rs:1042-1099 | the run in which the seventh attempt delivers and the eighth, already claimed, fails the same message |
| `Outbox.SlowWorkersOverlap` | backend/src/outbox.rs:718-759 | the run in which fifteen-second sends make two workers send one message, at any attempt but the last |
| `Outbox.StrandedForever` | backend/src/outbox.rs:728-729 | a message with eight claims, no outcome and no worker stays so in every continuation |
| `Outbox.CanEndExactly` | backend/src/outbox.rs:718-759 | from every reachable state and for every time limit, some continuation gives the message an outcome iff it is not stranded |
| `Outbox.MessagesCanStrand` | backend/src/outbox.rs:728-729 | eight dying workers strand a message |
| `Outbox.QuietGateExactly` | backend/src/outbox.rs:736-738 | the query's window agrees with the reference predicate on all minutes iff it does not wrap midnight |
| `Outbox.PassIsRun` | backend/src/outbox.rs:718-1040 | the pass of an undisturbed worker is a run of the machine |
| `Outbox.Table.ClaimBatch` | backend/src/outbox.rs:722-755 | exactly the batch is bumped and leased, and each claim carries its attempt number |
| `Outbox.Table.RecordFailed` | backend/src/outbox.rs:1042-1099 | the last attempt makes the row never due again; an earlier one leaves an open row due between fifteen seconds and an hour later |
| `Outbox.Table.Record` | backend/src/outbox.rs:756-1040 | no other row and no attempt count changes, a delivered row is never due again, and only a delivery marks one delivered |
| `Outbox.Table.DeliverDue` | backend/src/outbox.rs:712-1040 | the table after a pass, and the number of delivered messages |
| `Scheduler.NextFireAfter` | backend/src/schedule.rs:43-60 | the least matching minute strictly after the given time within the window, or none if the window has none |
| `Scheduler.NextIsLeast` | backend/src/schedule.rs:43-60 | the specification of the search skips no slot |
| `Scheduler.SlotsAlways` | backend/src/outbox.rs:1280-1342 | while saves keep one expression, the slot invariant under any number of racing, stale and dying schedulers and any clocks |
| `Scheduler.FiresAreConsecutiveSlots` | backend/src/outbox.rs:1280-1342 | while saves keep one expression and with any clocks, the fires since the schedule last started are exactly the cron slots before the next fire time; if it started once there is no other fire |
| `Scheduler.StaleReaderSkipsSlot` | backend/src/outbox.rs:1319-1341 | a save starts the schedule at a slot that came due after its clock was read, and a stale reader moves it past a slot of the new expression |
| `Scheduler.StepExactly` | backend/src/outbox.rs:1280-1342 | from a state whose fires are exact, one step keeps them exact iff it is harmless: the reader agrees with the row about the slot that follows, or arms it at one of its slots |
| `Scheduler.ExactExactly` | backend/src/outbox.rs:1280-1342 | for every run with saves of any expression and starts after every recorded fire, the fires are exact throughout iff every step was harmless |
| `Scheduler.StartsAheadFit` | backend/src/outbox.rs:1263-1278 | starts that still lie ahead when written lie after every recorded fire, because no fire lies in the future |
| `Scheduler.StartsAheadAreExact` | backend/src/outbox.rs:1280-1342 | if the fire time a save or re-arming reader computed still lies ahead when written, the compare-and-swap turns away every stale copy of a slot, so fires stay exact under any saves as long as re-arming readers are current |
| `Scheduler.CurrentReadingStartsAhead` | backend/src/schedule.rs:43-60 | a clock reading not behind database time at the write makes the start lie ahead |
| `Scheduler.CurrentReaderIsHarmless` | backend/src/outbox.rs:1280-1342 | a reader that holds the expression in force is harmless |
| `Scheduler.ArmingReaderMisfires` | backend/src/outbox.rs:1294-1316 | the run in which a stale reader re-arms an errored schedule by the old expression |
| `Scheduler.LaggingClockMixesFires` | backend/src/platform.rs:1536-1542 | a save that starts before a recorded fire mixes in fires of the old expression without any stale reader |
| `Scheduler.NextExactly` | backend/src/schedule.rs:43-60 | the search finds exactly the slot inside the window that no other slot precedes |
| `Scheduler.OnePipelinePerSlot` | backend/src/outbox.rs:1344-1420 | in every run, edits and errors included, a slot has at most one pipeline, pipelines stem from fires, and triggered fires have theirs |
| `Scheduler.FireKeyInjective` | backend/src/outbox.rs:1434-1436 | two fires have the same key iff they are the same schedule and slot |
| `PushDecision.PayloadInjective` | backend/src/git_host.rs:1338-1342 | the joined text determines its three parts when the first two hold no NUL |
| `PushDecision.PayloadCollides` | backend/src/git_host.rs:1338-1342 | neither exclusion can be dropped |
| `PushDecision.KeysEqualExactly` | backend/src/git_host.rs:1338-1342 | keys are equal iff repository, ref and revision are, or the two joined texts collide |
| `PushDecision.OnePipelinePerCommit` | backend/src/git_host.rs:1243-1328 | however hooks, merges, redeliveries, crashes and policy edits interleave, a repository, ref and commit has at most one pipeline, under its recorded decision; two pipelines with one key exhibit a digest collision |
| `PushDecision.CommitsAreDecided` | backend/src/git_host.rs:1272-1315 | no pipeline for an object id bypasses its decision |
| `PushDecision.FirstDecisionStands` | backend/src/delivery_configs.rs:64-85 | the decision in force is what the policy selected at the step that first captured it |
| `PushDecision.DecisionsGrow` | backend/src/delivery_configs.rs:70-76 | a decision, once taken, never changes |
| `PushDecision.Tables.constructor` | backend/src/delivery_configs.rs:64-85 | the empty tables are the machine's start |
| `PushDecision.Tables.PushDecisionForRef` | backend/src/delivery_configs.rs:64-85 | with a key the first writer's choice is kept and read back, without one the policy is read afresh |
| `PushDecision.Tables.CreatePipeline` | backend/src/api/pipelines_routes.rs:303-335 | creates exactly when no pipeline of that configuration has the key |
| `PushDecision.Tables.ProcessGitPush` | backend/src/git_host.rs:1243-1328 | an undisturbed hook is the four machine steps in a row |
| `PushDecision.Tables.EnqueueMerge` | backend/src/outbox.rs:56-131 | the decision is captured even if the merge is not committed; the message only with it |
| `PushDecision.Tables.DeliverMerge` | backend/src/outbox.rs:133-212 | delivered exactly when shape, binding, key, decision and confirmation agree |
| `ArtifactStore.DownloadsAreIntact` | backend/src/platform.rs:382-493 | in every run of uploads, failing steps, crashes, lost replies and retention, a downloadable artifact has its file with the recorded digest |
| `ArtifactStore.OneArtifactPerSession` | backend/src/platform.rs:427-445 | an upload session yields at most one artifact and every answer for it names that one |
| `ArtifactStore.LateCommitLosesFile` | backend/src/platform.rs:475-492 | the run in which a commit decided after readback leaves a row without its file |
| `ArtifactStore.IntactExactly` | backend/src/platform.rs:475-492 | over all runs: downloads are intact iff no lost commit is decided after its readback |
| `ArtifactStore.ReadbackExactly` | backend/src/platform.rs:475-492 | one readback keeps the files of undecided transactions iff its own is decided or the database is out of reach |
| `ArtifactStore.TimelyRunsAreIntact` | backend/src/platform.rs:475-492 | even where the database may decide late, a run whose readbacks were all timely leaves every downloadable artifact its file |
| `ArtifactStore.UntimelyReadbackLosesFile` | backend/src/platform.rs:475-492 | after any other readback of an unexpired upload, the commit of that transaction makes an artifact downloadable whose file is gone |
| `ArtifactStore.RetentionIsSafe` | backend/src/platform.rs:547-616 | retention changes nothing about downloadable artifacts and marks a row only after its file is gone |
| `ArtifactStore.Store.PurgeExpired` | backend/src/platform.rs:547-616 | exactly the removable candidates lose file and mark, and the count is theirs |
| `ArtifactStore.Store.Download` | backend/src/platform.rs:496-527 | the file is answered iff the row is in force, the file is there and a recorded digest, if any, is its own; so an intact artifact always is |
| `AuditSearch.EscapeAuditLike` | backend/src/platform.rs:2616-2625 | the loop builds the escape of the whole text |
| `AuditSearch.LiteralSearch` | backend/src/platform.rs:2616-2625 | the pattern matches a field under LIKE iff the text occurs in it literally |
| `AuditSearch.FoldedLiteralSearch` | backend/src/platform.rs:2676-2684 | the same up to case folding, for every folding that keeps the metacharacters |
| `AuditSearch.Normalize` | backend/src/platform.rs:2578-2614 | accepts exactly the bounded parameters and builds the pattern of the trimmed text |
| `AuditSearch.RowSelectedLiterally` | backend/src/platform.rs:2676-2684 | a row is selected iff the action matches and some field holds the text, up to folding |
| `Text.TrimDropsOnlyEdges` | backend/src/platform.rs:1463-1467 | trimming drops only whitespace and only at the ends |
| `ServiceGraph.Dependencies` | scripts/workspace_deploy_admission.py:128-134 | accepted iff acyclic; acceptance gives a topological order, rejection a real cycle |
| `ServiceGraph.OrderedIsAcyclic` | scripts/workspace_deploy_admission.py:128-134 | a graph with a topological order has no cycle |
| `ServiceGraph.NothingReady` | scripts/workspace_deploy_admission.py:131-133 | a remaining set without a ready service contains a cycle |
| `Document.Check` | scripts/workspace_deploy_admission.py:67-84 | the worklist accepts iff no value lies deeper than sixteen and no string value holds a surrogate |
| `Document.SoundExactly` | scripts/workspace_deploy_admission.py:74-83 | the recursive reading of the worklist agrees with that statement over all paths |
| `Recipe.CheckEnvironment` | scripts/workspace_deploy_admission.py:111-125 | accepts iff every variable is permitted, and reports exactly the secret references |
| `Recipe.SecretExactly` | scripts/workspace_deploy_admission.py:21-21 | a value refers to a secret iff it is `${NAME}` in whole |
| `Recipe.RefsExactly` | scripts/workspace_deploy_admission.py:158-190 | the collected references are exactly the variables that name a secret |
| `Recipe.TotalPermutes` | scripts/workspace_deploy_admission.py:157-184 | over real numbers the resource totals do not depend on the order of the services; the rounding of float sums is not modelled |
| `Recipe.ValidateRecipe` | scripts/workspace_deploy_admission.py:137-195 | accepts iff seal, bounds, services, totals and acyclic dependencies all hold |
| `Recipe.RevealSecrets` | scripts/workspace_deploy_adapter.py:224-230 | succeeds iff every referenced secret is usable; references become values, the rest stays |
| `Recipe.ApartExactly` | scripts/workspace_deploy_adapter.py:218-221 | the string test for overlap is the comparison of path segments |
| `Recipe.PathsSeparate` | scripts/workspace_deploy_adapter.py:211-221 | accepted mount and tmpfs targets are pairwise different and not nested |
| `Recipe.RenderService` | scripts/workspace_deploy_adapter.py:202-239 | a service is rendered iff image facts, user, paths and secrets allow it, and as promised |
| `Recipe.ResolveServices` | scripts/workspace_deploy_adapter.py:168-246 | every accepted recipe renders with exactly the sealed images, secrets revealed, other variables unchanged, targets separate and totals within the owner's quota |
| `Recipe.VolumeUsers` | scripts/workspace_deploy_adapter.py:149-154 | accepted iff each volume's mounts agree on one user and the mounted volumes are the declared ones |
| `RateLimit.RateLimiter.constructor` | backend/src/rate_limit.rs:12-15 | a new limiter has no window |
| `RateLimit.RateLimiter.Allow` | backend/src/rate_limit.rs:19-32 | granted iff the window is over or the count is below the limit; other keys are untouched, refusing a known key changes nothing, and counts stay within a positive limit |
| `RateLimit.RateLimiter.Prune` | backend/src/rate_limit.rs:35-39 | exactly the windows past four times the length are dropped |
| `RateLimit.PruningChangesNoAnswer` | backend/src/rate_limit.rs:35-39 | pruning at any moments never changes a later answer |
| `RateLimit.NeutralExactly` | backend/src/rate_limit.rs:35-39 | the exact condition on limit and windows for pruning to be neutral, 64-bit wrap-around included |
| `RateLimit.WithinBudget` | backend/src/rate_limit.rs:19-32 | grants from any table within an interval never exceed the budget that table leaves |
| `RateLimit.FewerThanTwiceTheLimit` | backend/src/rate_limit.rs:19-32 | an interval one window long grants fewer than twice the limit |
| `RateLimit.BoundIsReached` | backend/src/rate_limit.rs:19-32 | for every limit and window a trace reaches that bound |
| `BackupInventory.WriteInventory` | scripts/forge_backup.py:163-180 | prints each data file once, and the checksum of the dump and of each data file |
| `BackupInventory.VerifyFiles` | scripts/forge_backup.py:336-375 | the loops decide exactly what the file checks accept |
| `BackupInventory.ParseSums` | scripts/forge_backup.py:342-345 | blank lines are skipped and one invalid line refuses the file |
| `BackupInventory.SumLineParses` | scripts/forge_backup.py:320-324 | a printed checksum line parses to its digest and name |
| `BackupInventory.PrintedReadsBack` | scripts/forge_backup.py:163-180 | printed lines read back as they were when each is one filled line |
| `BackupInventory.VerifiesExactly` | scripts/forge_backup.py:336-375 | for clean names, an inventory is accepted for exactly the backups with the same file names and the same digest of the dump and of every file |
| `BackupInventory.PassingChangeCollides` | scripts/forge_backup.py:336-375 | a changed backup that still passes exhibits two different contents, of the dump or of one file, with one digest |
| `BackupInventory.OwnInventoryPassesExactly` | scripts/forge_backup.py:336-375 | a backup passes with its own inventory iff all its data file names are clean |

## Left out

- The database server, Docker, Compose, Helm, Git, SSH, HTTP and SMTP: each call is one effect whose outcome is an act or a parameter.
- Cryptography: digests are functions of the content, and secret and token cryptography is not modelled.
- Database engine, role, session and image inspection of the delivery owner (`engine`, `guard`, `image`, the inventory bounds, large-object grants): a failing check stops the process, which is modelled at every step.
- `validate_receipt`'s document constants, policy digests and observation times: only bindings between command, intent, manifest, proof and probes are modelled.
- HelmReadback: marker, apply and readback are machine steps over values, not methods that write files; chart preflight and pod inspection are the `healthy` and `Refuse` outcomes.
- Scheduler: rows and workers are machine steps over values, one schedule at a time; calendar matching and expression parsing are a predicate on minutes.
- Scheduler.FiresAreConsecutiveSlots: for saves that change the expression see `Scheduler.ExactExactly`, which gives the exact condition.
- ArtifactStore: uploads are machine steps over values; path containment checks are not modelled.
- ImageValues: nested dictionaries are values rebuilt on insertion, so aliasing between them is not captured.
- DeploymentFence: approvals and the workspace session are one admission flag, published images one parameter; deletion of attempts is not modelled, and no step enters the `running` phase, since no cited code sets it.
- PushDecision: trigger fingerprints, task authority and repository lifecycle checks are not modelled.
- Outbox: notification rules and payload formats are not modelled; a claim may take any due rows, in any order.
- Recipe: JSON shapes and unknown fields are taken as parsed into records; CPU is a real number, so float rounding of totals is not modelled; owner identity, control volume and subnet checks, labels and container names are not modelled.
- BackupInventory: symbolic links, text encoding, the manifest's word scan and required directories are not modelled.
- Quiescence kernel, central authentication, delegated credentials, tenants, tokens, metrics, pagination and the other CRUD handlers: not part of this model.
- Frontend, configuration parsing, documentation checks and host scripts: they hold no state shared with the protocols above.
