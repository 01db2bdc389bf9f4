# A verified model of the bhyve and Kea control plane

`cpctl` builds, changes and deletes FreeBSD virtual machines. It keeps a PostgreSQL journal of declarations,
allocations, operations and steps, and drives ZFS, cloud-init seeds, vm-bhyve, Kea, PF and a shared image cache. Any
number of processes may prepare and execute operations, and each may die between any two actions. This project models
that system in Dafny and proves what an operator relies on: that an interrupted operation resumes without a trace of
the interruption, that nothing is released before it is gone, that allocations are distinct and durable, and that a
configuration file says what was written into it.

`dafny verify dfyconfig.toml` checks everything.

## How the model is built

- **The protocol of one resource.** `Planner` makes the plans, `Journal` says what each statement does to the rows,
  `Guests` says what each driver action may do to the world of a machine when it is cut off (`Touch`), what it has
  established when it succeeds (`Satisfied`) and what one uninterrupted call makes of the world (`Effect`), and `Calls`
  what a call needs to find in order to succeed. `Protocol`
  is the state machine: every statement, transaction and driver effect is one step, any number of processes take steps
  in any order, and `Exit` can happen at every point. `Invariant`, `Preservation`, `Preparations` and `Runs` prove an
  invariant of all runs; `Guarantees`, `CallTrace` and `Changes` draw the conclusions, and `Declarations` says field by
  field what the rows hold and what a machine is like when its operation has succeeded. `Progress` and `Completion` say
  which operations repeated runs can bring to an end, and `Commands` says what the success of the apply command means.
  `Scenarios` builds runs from the beginning, to show that what goes wrong can happen. `Paths` holds the notion of a
  path of the protocol.
- **The imperative code.** `Drivers` (class `Host`), `Repositories` (class `Repository`, the tables as fields) and
  `Sessions` (class `Session`: `Run`, the preparations and the apply command of one process among others) are the
  source's methods with their loops and early returns. Every command, request and statement may fail before or after
  taking effect; for a process in which nothing fails (`faultless`), the contracts also say that a method succeeds, or why
  it does not. `Host` is proved to keep within `Touch` and `Satisfied`, `Repository` to do what `Journal` says, and `Session` to take only
  steps of the protocol, wherever it stops; so the theorems about runs are theorems about these methods.
- **All resources together.** `Fleets` and `FleetGuarantees` put the protocols of all resources side by side with the
  resource locks, the pool locks, the query-by-query search and the UNIQUE constraints, and show that each resource
  still follows its own protocol. `FleetScenarios` builds runs of a whole site.
- **Shared pieces.** `ImageCache` (many executors on one cache entry), `Addresses` and `Pools` (ranges, first fit,
  CIDR), `Keys` (texts that are hashed), `Datasets` (recursive destroy), `Toml`, `TomlDocuments` and `TomlParser` (the
  configuration parser, against functions, with a canonical printer and the round trip), `TomlLaws` and `TomlDressings`
  (what blanks, comments, line ends and repeated names do to any text). `Arithmetic`, `Text` and `Prelude` are helpers.

## Assumptions

- SHA-256 has no collisions: it is a free constructor, and the digest of a plan or step input stands for the plan or
  input itself. JSON decoding inverts encoding. `unxz` and `makefs` are deterministic, and the SSH key file does not
  change, so what it holds counts as part of the manifest.
- There is one control-plane id and one site configuration, whose image, pool and resource names are unique; rows are
  keyed by resource name, because names and UUIDs correspond one to one. Only images in the format `raw.xz` exist, as
  site validation demands, and no pin is the all-zero sentinel.
- Whether anything fails is up to the outside. `faultless` on a `Repository` or `Host` says that nothing does: an
  execution without failures is one that a faultless pair could have had, and everything else is promised without it.
- The connection that holds the session lock lives exactly as long as its executor. There is no fencing token.
- Nobody else changes the modelled world. An error text that says "does not exist" or "not found" tells the truth, and
  no other error text contains these words. A machine is listed by vm-bhyve exactly while its configuration file is
  there; `vm destroy` removes the directory of the machine; no column of `vm list` but name and state contains
  "running"; a guest writes only inside its own volume, of which the initial image is tracked.
- The observation collected last is the one recorded last: the clock does not go back between observations. Stamps of
  operations are under no such assumption.
- A fresh allocation and its database text form are the same value; addresses and MACs are numbers.
- The 65536 MAC candidates of a resource are arbitrary values, so truncated hashes may collide.

## Where the code does not do what is claimed of it

The model follows the code. Each of these has a theorem with the exact condition, and where the failure takes a run,
a run that ends in it.

- "Run executes the operation just prepared": only when it is the latest by stamp and identifier
  (`Changes.InsertedBecomesLatest`, and `Commands.PersistedLatest` where operations are reused). After a delete, an
  apply of the same declaration may reuse the operation of the first life, and a Run after it then does nothing
  (`Changes.RecreationMayRunNothing`, with the run `Scenarios.RecreationHappens`).
- "`apply` returns success only when effective state is converged" (README.md of the repository, line 81): if and only
  if the rows before the command do not lead it astray (`Commands.ApplyMeansConverged`). It goes astray when it neither
  inserts nor resets the latest operation and that operation either has succeeded, while the verdict is not
  `converged` for the very plan that was prepared, or is an unfinished delete that can be completed. `Scenarios.ApplySucceedsPending` is a run for every declaration: apply, die before the
  end, delete, apply again; the command succeeds and the effective state is `pending`.
- "The effective state is that of the plan in force": a verdict follows the operation that ran, and no verdict touches
  the plan. The state is deleting or absent exactly for the plan of a delete unless the latest operation, which has
  earned the verdict, is of the other kind (`Declarations.DeletingMeansDelete`, with the run
  `Scenarios.VerdictOfAnotherPlan`: a delete whose transaction began before that of the apply is prepared after it, and
  the resource ends converged with the delete pending, in force and never looked at).
- "A released address is free": the search does not see released rows but the UNIQUE constraints do
  (`FleetGuarantees.ReleasedAddressesAreNotFree`), so the pool of a deleted machine can stop
  (`FleetGuarantees.ReleasedAddressStopsThePool`, with the run `FleetScenarios.PoolStops`).
- "Addresses of different pools are distinct by the search": only the constraint makes them so
  (`FleetGuarantees.PoolsNeedTheConstraint`, with the run `FleetScenarios.SameAddressTwice`).
- "A verified image stays verified": only while executors agree on its pin (`ImageCache.TwoPinsMislead`).
- "A running machine is running": not when its name contains "running" (`Guests.PowerIsTruthful`, with the run
  `Scenarios.NeverStarted`, which ends converged although the machine was never started).
- "Observed PF rules are the declared ones": on a bridge without a dot, the comparison accepts exactly the rules of
  those addresses whose text contains that of the machine's own (`Guests.RulesAreMatchedByText`,
  `Guests.RulesAreSingledOut`), such as 10.0.0.10 for 10.0.0.1 (`Guests.RulesOfAnotherAddressPass`).
- "Re-run the same command; execution resumes at the first unverified step" (wiki/CLI-and-Operations.md, line 204):
  it resumes there, but whether it can end is what `Completion.FinishesIffCompletable` says. An apply can end, if
  drivers do what they can, exactly when there is no volume or one of the right size that is marked with its image,
  the machine is to run or has no name that contains "running", the SSH key is Ed25519 or not given, and the managed
  services are named properly. A delete can end exactly when its first step is done or vm-bhyve finds the machine,
  which it does not after an apply that never came to write the configuration. A reconcile fetches nothing and can end
  exactly when its step is done or everything is there, the verified image included.
- "A failed storage step can be repeated": not after a crash between creating and marking the volume; nothing but a
  delete gets past it (`Guests.UnmarkedVolumeBlocks`, with the run `Scenarios.CrashStrandsApply`, for every
  declaration).

## Model

| member | source | states |
|---|---|---|
| Planner.BuildSteps | internal/planner/execution.go:162-177 | Steps are numbered from one in the order of the actions, and differ from the base input and from each other in nothing but number and action. |
| Planner.Validate | internal/config/vm.go:96-132 | A manifest is without problems exactly when its name is a label, owner, image, profile and pool are not blank, CPUs are 1 to 64, memory is at least 128, disk at least 1 and the key file absolute or not given. |
| Planner.BuildExecutable | internal/planner/execution.go:128-191 | A plan is built exactly when the generation is positive, the manifest valid, and pool and image known, and else the first of these is the error. Every step holds, field by field, the declaration, the allocation, the pinned image, the bridge, the switch or else the bridge, what the site manages, and the authorisation; the actions are the given ones. |
| Planner.BuildExecutableApply | internal/planner/execution.go:95-111 | The same for the nine actions of an apply, in their order, behind the services when these are managed. |
| Planner.BuildExecutableDelete | internal/planner/execution.go:113-126 | The same for the seven actions of a delete, in their order; without the authorisation to destroy storage there is no plan, and only then that error. |
| Planner.BuildExecutableReconcile | internal/planner/reconcile.go:7-9 | The same for the one observation of a reconcile. |
| Planner.PlanOrder | internal/planner/execution.go:95-126 | Every plan creates or removes but never both, verifies the image right before it fills storage, and ends with its only observation. |
| Planner.ActionOrder | internal/planner/reconcile.go:7-9 | The three action lists have that order, with and without managed services. |
| Guests.TouchTransitive | internal/execution/system.go:93-573 | Two cut-off calls of one step have done no more to a guest than one may do. |
| Guests.SuccessAbsorbsInterruptions | internal/execution/system.go:157-243 | When an apply step succeeds, the guest is what one uninterrupted call would have made of it, however often the step was cut off before. |
| Guests.SatisfiedIsStable | internal/execution/system.go:418-458 | No call of an operation, cut off or not, undoes the postcondition of an earlier step of it, Kea's delete-and-add fallback included. |
| Guests.StorageIdentity | internal/execution/system.go:157-243 | After any calls cut off anywhere, an image property names the image that the volume was filled with, and until a removal an existing volume is unchanged. |
| Guests.UnmarkedVolumeBlocks | internal/execution/system.go:230-236 | A volume created but not marked keeps the storage step from succeeding for as long as nothing is removed. |
| Guests.SuccessfulObservation | internal/execution/system.go:629-640 | A successful observation reports absence of VM, storage, Kea, seed and managed PF for a delete, and presence and the declared power otherwise. |
| Guests.PowerIsTruthful | internal/execution/system.go:704-718 | A successful power step means the declared power state if and only if the machine is not to run under a name that contains "running". |
| Guests.RulesAreMatchedByText | internal/execution/system.go:635 | For every machine and address, the comparison accepts the rules of that address if and only if its text contains that of the machine's address, on a bridge without a dot. |
| Guests.RulesAreSingledOut | internal/execution/system.go:635 | So it singles out the declared rules among the addresses in use exactly when no other of them contains this one's text. |
| Guests.RulesOfAnotherAddressPass | internal/execution/system.go:635 | An instance: the comparison accepts the rules of 10.0.0.10 for 10.0.0.1. |
| Journal.LatestExists | internal/state/postgres/repository.go:282-291 | A resource with operations has a latest one by creation stamp and identifier. |
| Journal.LatestIsUnique | internal/state/postgres/repository.go:282-291 | It has only one. |
| Journal.ResumeFrom | internal/state/postgres/repository.go:271-277 | The resume step is the first that is neither succeeded nor skipped. |
| Preservation.WorkKeepsRow | internal/execution/executor.go:91-108 | Whatever a call has done when it stops, postconditions of finished steps still hold and the guest is what the finished steps made, up to one cut-off call. |
| Preservation.CompletedRefines | internal/execution/executor.go:113-115 | A completed step moves the guest to the world of one more uninterrupted step. |
| Preservation.UnfinishedLatestMeansNoVerdict | internal/state/postgres/execution.go:338-359 | While the latest operation has not succeeded, the resource is neither converged nor absent. |
| Preparations.DeclareKeepsGenerations | internal/state/postgres/execution.go:137-172 | A preparation leaves the generations one to current, each different from its neighbour. |
| Preparations.KeptVerdict | internal/state/postgres/execution.go:63-70 | An apply preparation keeps `converged` only when it adds no operation. |
| Preparations.ResetRefines | internal/state/postgres/reconcile.go:56-64 | Resetting a reconcile operation takes back nothing that was done to the guest. |
| Runs.StepKeepsInv | internal/execution/executor.go:40-134 | Every step of every process, crashes included, keeps the invariant of module Invariant. |
| Runs.RunKeepsInv | internal/execution/executor.go:40-134 | Every state of every run satisfies it. |
| Guarantees.ReleaseSafety | internal/state/postgres/execution.go:338-359 | In every state released, archived and effectively absent coincide; and then the last driver call was the successful observe-absent of a succeeded delete with all steps done, an observation of absence is stored, and the guest is absent. |
| Guarantees.ConvergedEvidence | internal/state/postgres/execution.go:344-349 | While effective state is converged, a succeeded operation other than a delete has all steps done, its observe-all was the last driver call, its observation is stored, and the guest is as observed. |
| Guarantees.CrashesDoNotShow | internal/execution/executor.go:69-116 | When an apply or reconcile has succeeded after any crashes, failures and retries, all its postconditions hold together; the guest is what the effects of the steps make of the origin, which is an uninterrupted execution; and every uninterrupted execution from the origin ends in that guest. |
| Guarantees.DeletionsComplete | internal/execution/executor.go:117-123 | When an operation has succeeded, the postconditions of all its steps hold together. |
| Guarantees.JournalFrontier | internal/state/postgres/execution.go:287-336 | Finished steps form a prefix, only the next may be running or failed, later ones are pending, and evidence is stored for exactly the finished ones. |
| Guarantees.RunResumesWhereInspectSays | internal/state/postgres/repository.go:271-277 | The step that a Run claims is the one that InspectResource would report as the step to resume. |
| Guarantees.ClaimsAreNeverRejected | internal/execution/executor.go:73-90 | On rows that preparations wrote, a claim finds its row and the digest check never fails. |
| Guarantees.Exclusion | internal/state/postgres/execution_lock.go:16-49 | At most one process is inside a Run or the writing part of a preparation of a resource. |
| Guarantees.OthersOnlyWatch | internal/execution/executor.go:45-49 | While one is, no other process changes a row, the guest or the record of the past; no preparation commits. |
| CallTrace.SupersededNeverResumes | internal/execution/executor.go:51-66 | What executors do follows the order of stamps and identifiers, however late an operation was committed, so the events of one operation form one block. |
| CallTrace.DriverCallTrace | internal/execution/executor.go:69-116 | The calls of an apply or delete climb from the first step to at most the step to resume, through every finished one; attempts are the claims ever made and bound the calls; no step is called before every earlier one has completed, nor, of an apply or delete, after it has. |
| CallTrace.CallsFormStaircase | internal/execution/executor.go:69-73 | Without a reset, each call is for the step of the previous call or for the next. |
| Changes.RunKeepsOperations | internal/state/postgres/execution.go:238-268 | Operations are never removed and keep plan and stamp. |
| Changes.SucceededIsTerminal | internal/state/postgres/execution.go:270-285 | A succeeded apply or delete never changes again, in any run. |
| Changes.InsertedBecomesLatest | internal/state/postgres/repository.go:282-291 | An inserted operation is the one that the next Run executes if and only if its stamp and identifier come after all others. |
| Changes.RecreationMayRunNothing | internal/execution/executor.go:58-61 | When an apply has been prepared for a deleted resource and nothing else, the next Run does nothing if and only if the apply was reused or is not the latest; the command as a whole is Commands.ApplyMeansConverged. |
| Changes.StepKeepsAllocation | internal/state/postgres/execution.go:174-181 | Only the conclusion of a delete touches an active allocation, and it only releases it. |
| Changes.AllocationIsDurable | internal/state/postgres/execution.go:174-181 | While an allocation stays active it stays the same. |
| Changes.GenerationsAreExact | internal/state/postgres/execution.go:137-172 | Declared generations are exactly one to current, and neighbours differ. |
| Changes.GenerationAdvancesOnChange | internal/state/postgres/execution.go:147-170 | A preparation advances the generation, by one, exactly when the declaration differs from the current one, and loses none. |
| Changes.RepreparingChangesNothing | internal/state/postgres/execution.go:238-268 | Preparing an unchanged apply with an active allocation again gives the same operation and leaves every operation, step, declaration and allocation as it was. |
| Declarations.RunKeepsLaws | internal/state/postgres/execution.go:19-135 | Every state of every run satisfies the laws that the following rows spell out. |
| Declarations.StepsHoldSettings | internal/planner/execution.go:144-160 | Every step of every operation ever prepared holds the declaration of its generation, the image pinned for it, the site's bridge, switch, anchor and services settings and, for a delete only, the authorisation to destroy storage; steps are numbered from one, agree on the allocation, and are the actions of the operation in their order. |
| Declarations.PlanInForce | internal/state/postgres/execution.go:63-70 | The plan in force is for the current generation and its declaration and for the allocation row; unless converged or absent, the effective state is pending for an apply, deleting for a delete and applying for a reconcile. |
| Declarations.DeletingMeansDelete | internal/state/postgres/execution.go:126-128 | The effective state is deleting or absent exactly when the plan in force is a delete, if and only if no verdict stands that a latest operation of the other kind has earned. |
| Declarations.FailuresAreOnRecord | internal/state/postgres/execution.go:316-336 | An operation is failed or blocked exactly when it has an error, which is that of its resume step, and blocked exactly for a mismatch or a refusing driver; a pending one has only pending steps; a finished step is skipped exactly when the site does not manage its services or rules; attempts count the starts. |
| Declarations.AppliedIsDeclared | internal/execution/system.go:364-373 | When the current apply has succeeded, image, volume size and identity, seed and marker, CPUs, memory, loader, switch, MAC, disk, reservation, rules and power of the machine are, field by field, those of the declared spec, the site and the allocation row. |
| Declarations.AbsentIsGone | internal/state/postgres/execution.go:350-357 | While a resource is absent its allocation row is released, and dataset, volume, seed, marker, configuration, reservation of that row and managed rules are gone. |
| Calls.CallCanSucceed | internal/execution/system.go:48-91 | A call of an action, cut off any number of times, can end in success if and only if it finds what `Feasible` says: no wrong volume, a defined machine, an accepted key, proper services, the authorisation to destroy, everything present with the image verified, or everything absent; only the call that fetches an image makes one verify. |
| Progress.NextStepFeasible | internal/execution/executor.go:69-116 | While an operation can be completed, the finished steps have brought about all that the next call needs, a verified image for the observation of an apply among it. |
| Progress.AchievedStaysCompletable | internal/execution/executor.go:69-116 | A call that achieves its purpose keeps the operation completable. |
| Completion.RunsThrough | internal/execution/executor.go:40-134 | From any reachable state in which nobody has the key, one uninterrupted Run completes the latest operation if its rows, the verified images and the guest allow it; no image verifies but by the call that fetches it. |
| Completion.NeverSucceeds | internal/execution/executor.go:40-134 | If they do not, no number of Runs and crashes of a process ever completes it. |
| Completion.FinishesIffCompletable | internal/execution/executor.go:40-134 | So repeated Runs of a process can end in success if and only if rows, verified images and guest satisfy `Completable`. |
| Commands.PersistedLatest | internal/state/postgres/execution.go:238-268 | What is the latest operation after one was inserted or reused: the inserted one if it comes after all others, and otherwise the one that was the latest before, unchanged. |
| Commands.WhatSuccessMeans | internal/execution/executor.go:51-133 | All successes of a Run, now or repeated, leave the resource converged if and only if the latest operation has succeeded and the resource is converged, or is unfinished and no delete that can be completed. |
| Commands.ApplyMeansConverged | internal/cli/execution.go:22-69 | For every reachable state in which nobody has the key, every success of the apply command, with the reconcile that it prepares for an operation that has succeeded, leaves the resource converged if and only if the rows before it do not lead it astray. |
| Scenarios.ApplySucceedsPending | internal/cli/execution.go:44-69 | For every declaration that can be carried out, a run after which the command succeeds while the effective state is pending. |
| Scenarios.RecreationHappens | internal/state/postgres/execution.go:238-268 | For every such declaration, a run that ends in a deleted resource whose apply would be reused, so that Run does nothing. |
| Scenarios.NeverStarted | internal/execution/system.go:704-718 | For every such declaration of a machine that is to run and has "running" in its name, a run that ends converged with the machine never started. |
| Scenarios.VerdictOfAnotherPlan | internal/state/postgres/execution.go:344-349 | For every such declaration, a run that ends converged while the plan in force is that of a delete that is still pending and that no Run will look at. |
| Scenarios.CrashStrandsApply | internal/execution/system.go:196-236 | For every such declaration, a run with one crash after which no number of Runs brings the apply to an end. |
| ImageCache.CacheIsTruthful | internal/execution/system.go:93-155 | For any executors with any pins, the marker names an archive and the digest of its decompression, and a reader that finds the entry good has seen the decompression of what it pins. |
| ImageCache.SuccessMeansVerified | internal/execution/system.go:643-668 | With one pin, the entry verifies from the moment any process has reported success, for ever. |
| ImageCache.VerificationIsNeverLost | internal/execution/system.go:147-153 | With one pin, an entry that verifies keeps verifying. |
| ImageCache.TwoPinsMislead | internal/execution/system.go:147-154 | For any two different pins some run ends in a success whose entry does not verify. |
| ImageCache.StepIsRefresh | internal/execution/system.go:93-155 | With one pin, no step does more to the entry than the interference that the drivers are proved against. |
| Drivers.Host.EnsureImage | internal/execution/system.go:93-155 | Success means that the cache holds the decompression of the pinned archive and its marker, under interference and wherever the call stops; no verified image is lost; without failures it succeeds. |
| Drivers.Host.FetchImage | internal/execution/system.go:110-154 | The same for the part that downloads, checks the pin, unpacks, renames and marks, in this order. |
| Drivers.Host.EnsureStorage | internal/execution/system.go:157-243 | A volume that was there is not written; a new one has diskGb times 2^30 bytes and is marked only after it holds the image; success means declared size and identity; without failures it succeeds exactly when there was no volume or the right one, and is blocked otherwise. |
| Drivers.Host.CheckImage | internal/execution/system.go:196-215 | Behind a verified image the marker names the digest of the decompressed archive, and the check of the raw file against it never refuses. |
| Drivers.Host.CopyImage | internal/execution/system.go:217-228 | The property is set only after the volume was filled with the image, wherever the copy stops. |
| Drivers.Host.FillStorage | internal/execution/system.go:196-242 | A new volume is marked only after it was filled with the verified image; an old one is only compared. |
| Drivers.Host.EnsureStorageAbsent | internal/execution/system.go:245-266 | Nothing is destroyed without authorisation, which is the only reason to block; success means that dataset and volume are gone and nothing else has changed; without failures the authorisation is enough. |
| Drivers.Host.EnsureSeed | internal/execution/system.go:268-344 | The marker is written after the file it vouches for; success means the seed made of the declared source and its marker, and a current seed is left alone; without failures it succeeds exactly for no key or one that begins as an Ed25519 key does; any other changes nothing, and a key that can be read blocks. |
| Drivers.Host.EnsureSeedAbsent | internal/execution/system.go:346-354 | Success means that file and marker are gone and nothing else has changed; stopping early leaves nothing but parts removed; without failures it succeeds. |
| Drivers.Host.EnsureDefinition | internal/execution/system.go:356-362 | Success means that the directory is there, and nothing else changes; without failures it succeeds. |
| Drivers.Host.EnsureConfig | internal/execution/system.go:364-373 | The configuration is the old one, or at once the one with the declared CPUs, memory, loader and switch and the allocated MAC and disk, which it is on success; without failures it succeeds. |
| Drivers.Host.EnsurePower | internal/execution/system.go:375-396 | Only a discovered machine is started or stopped, and only one that is not discovered blocks; success means that the power state reads as desired; without failures a discovered machine is enough. |
| Drivers.Host.EnsureVmAbsent | internal/execution/system.go:398-416 | Success means that directory, seed, marker and configuration are gone and the machine stopped if it was there, and that nothing was touched if not; stopping early leaves it stopped and partly removed at most; without failures it succeeds. |
| Drivers.Host.EnsureReservation | internal/execution/system.go:418-458 | Success means that the reservation under the allocated subnet and MAC has the allocated address and the machine's name, and all others are as before; in between it may be missing, and a matching one is not touched; without failures it succeeds, with or without updates. |
| Drivers.Host.EnsureReservationAbsent | internal/execution/system.go:460-482 | Success means that the key is gone, and nothing but the key is ever removed; without failures it succeeds. |
| Drivers.Host.EnsureRules | internal/execution/system.go:521-555 | Success with a managed anchor means that the rules of bridge and address are loaded; without one the step is skipped, and only then; without failures it succeeds. |
| Drivers.Host.EnsureRulesAbsent | internal/execution/system.go:557-573 | Success with a managed anchor means that it is empty; without one the step is skipped, and only then; without failures it succeeds. |
| Drivers.Host.EnsureServices | internal/execution/runtime_driver.go:35-58 | The step is skipped exactly when services are not managed; success needs a list of names made of letters, digits, underscores, dots and hyphens, a missing list always blocks, and nothing but a wrong list does; without failures a proper list is enough. |
| Drivers.Host.LookForImage | internal/execution/system.go:643-668 | A positive answer means that the image verifies now; without failures a verified image is found. |
| Drivers.Host.Gather | internal/execution/system.go:576-627 | What is gathered without an error says, item by item, exactly what is there; without failures there is no error. |
| Drivers.Host.Report | internal/execution/system.go:585-627 | An observation has an error exactly when a look ended in one, and anything unavailable is one; else it reports what the looks found. |
| Drivers.Host.Observe | internal/execution/system.go:575-641 | An observation without an error is truthful; expecting absence then succeeds exactly when machine, volume, reservation, seed and managed rules are absent, and otherwise, when the image was found, exactly when all are present with the declared power; without failures there is no error and a verified image is found. |
| Drivers.Host.Ensure | internal/execution/system.go:48-91 | Every action, wherever it stops, keeps within what it may touch and keeps the contract that the executor relies on; it succeeds only where it can and then has done everything it is for; without failures it succeeds wherever it can, else changes nothing, and blocks exactly where the operator has to act. |
| Repositories.Repository.constructor | internal/state/postgres/repository.go:25-29 | A new resource has no rows, no process and no key. |
| Repositories.Repository.LatestOperation | internal/state/postgres/repository.go:282-291 | The scan finds the latest operation, or none exactly when there is none. |
| Repositories.Repository.ExecutionSteps | internal/state/postgres/execution_steps.go:10-29 | The rows collected one by one are the steps of the operation in order; without failures they are returned. |
| Repositories.Repository.InspectResource | internal/state/postgres/repository.go:175-280 | An inspection of a resource that is not archived reports generation, declaration, allocation, effective state and last observation as they stand, the latest operation with status and steps, and the first unfinished step; without failures there is one exactly for a resource that is there, not archived and, if a generation is current, declared. |
| Repositories.Repository.LockExecution | internal/state/postgres/execution_lock.go:27-49 | The key is taken only when it was free, and without failures whenever it was. |
| Repositories.Repository.Unlock | internal/state/postgres/execution_lock.go:42-48 | Only the own key is given back. |
| Repositories.Repository.StartOperation | internal/state/postgres/execution.go:270-285 | The operation runs, one attempt more and without error, or nothing changes; one that has succeeded never changes; without failures it succeeds for every operation there is. |
| Repositories.Repository.ClaimStep | internal/state/postgres/execution.go:287-297 | A claim succeeds only on a pending, failed or running step, which then runs, one attempt more and without error, and is returned; without failures it succeeds on each of them. |
| Repositories.Repository.CompleteStep | internal/state/postgres/execution.go:299-314 | Success stores evidence and status, skipped or succeeded, of exactly that step and clears its error; without failures it succeeds. |
| Repositories.Repository.FailStep | internal/state/postgres/execution.go:316-336 | Step and operation fail together, with the same error and the operation blocked or failed as asked, or not at all; without failures they do. |
| Repositories.Repository.CompleteOperation | internal/state/postgres/execution.go:338-359 | Operation, effective state, release and archive change together or not at all; the operation has succeeded, the state is absent or converged, and the plan in force stays; without failures they do. |
| Repositories.Repository.RecordObservation | internal/state/postgres/execution.go:361-378 | Success appends exactly this observation. |
| Repositories.Repository.PrepareDeclaration | internal/state/postgres/execution.go:137-172 | The declaration becomes current under generation one, the current generation if it is the same, or the next; it cannot exactly when the current one is missing or the next is taken. |
| Repositories.Repository.EnsureAllocation | internal/state/postgres/execution.go:174-236 | An active allocation is kept and must fit pool and image, which is the only reason for that error; otherwise the first free address and candidate are taken; exhaustion is reported exactly when all addresses of a usable range, or all candidates, are held; a uniqueness failure means that the choice lies on another row. |
| Repositories.Repository.SearchedInWords | internal/state/postgres/execution.go:188-221 | A new allocation has the declared pool and image and the pool's Kea subnet, the least address and the first candidate that no active row of another holds, on no other row at all, and the dataset and volume named after the machine. |
| Repositories.Repository.FindOperation | internal/state/postgres/execution.go:242-252 | The lookup by idempotency key finds the operation of the plan, or shows that there is none. |
| Repositories.Repository.PersistOperation | internal/state/postgres/execution.go:238-268 | A known plan gives its operation back with nothing changed; a new one is inserted under the new identifier, pending with all its steps pending and untried; without failures only a taken identifier prevents it. |
| Repositories.Repository.DeclareAndAllocate | internal/state/postgres/execution.go:47-54 | Declaration and allocation happen together or are rolled back, for one of the listed reasons. |
| Repositories.Repository.SetEffective | internal/state/postgres/execution.go:63-70 | An apply preparation keeps `converged` only for the very plan that converged, and leaves `pending` otherwise. |
| Repositories.Repository.PlanAndPersist | internal/state/postgres/execution.go:55-70 | The plan for declaration, allocation and site is inserted or found and in force, with the verdict kept only for itself; an invalid manifest, and without failures only a taken identifier, prevents it. |
| Repositories.Repository.CheckManifest | internal/state/postgres/execution.go:20-26 | The manifest is refused exactly when it is invalid, and else exactly when pool or image is unknown, before the transaction begins. |
| Repositories.Repository.ApplyTransaction | internal/state/postgres/execution.go:36-76 | The transaction of an apply preparation does what Journal says or is rolled back, for one of the listed reasons. |
| Repositories.ApplyWrites | internal/state/postgres/execution.go:47-70 | After an apply preparation the resource is there with the given declaration, the allocation is active and kept if it was, a plan for both and the site's settings is in force, pending unless it is the one that converged, and at most one untouched operation is new. |
| Repositories.DeleteWrites | internal/state/postgres/execution.go:117-128 | After a delete preparation the effective state is deleting, a delete plan for the current declaration and the allocation row is in force, at most one untouched operation is new, and nothing else has changed. |
| Repositories.ReconcileWrites | internal/state/postgres/reconcile.go:48-69 | After a reconcile preparation the effective state is applying, a reconcile plan for both is in force, its operation is new and untouched or back at the beginning with its attempts, and nothing else has changed. |
| Repositories.Repository.PrepareExecutableApply | internal/state/postgres/execution.go:19-81 | A preparation that was committed, answered or not, is the one of Journal with the allocation kept or searched, and one that was not changes nothing; its caller learns the status that the operation had. Without failures it is refused only for an invalid manifest, an unknown pool or image, a declaration that cannot be made current, another pool or image than the active ones, a bad or exhausted range, a choice on a released row, or a taken identifier. |
| Repositories.Repository.PrepareExecutableDelete | internal/state/postgres/execution.go:83-135 | The same for deletes; without failures and with a new identifier it succeeds exactly with the authorisation, a current valid declaration with known pool and image and an allocation row, and the error says which of them is missing. |
| Repositories.Repository.PlanDelete | internal/state/postgres/execution.go:95-121 | A delete is planned exactly under these conditions. |
| Repositories.Repository.ResetSteps | internal/state/postgres/reconcile.go:56-64 | Operation and steps go back to the beginning, attempts and inputs stay. |
| Repositories.Repository.PrepareExecutableReconcile | internal/state/postgres/reconcile.go:15-75 | A reconcile operation is inserted, or reset when it was there; what was not committed changes nothing; without failures and with a new identifier it succeeds exactly with a current valid declaration with known pool and image and an allocation row. |
| Repositories.Repository.PlanReconcile | internal/state/postgres/reconcile.go:27-51 | A reconcile is planned exactly under these conditions. |
| Repositories.Repository.PersistReconcile | internal/state/postgres/reconcile.go:52-65 | The operation is inserted, or put back to the beginning; without failures only a taken identifier prevents it. |
| Sessions.Session.Run | internal/execution/executor.go:40-134 | Whatever happens and wherever it stops, Run takes only steps of the protocol among those of others and leaves the key free; `Done` means that there was a state in which the operation was the latest, had succeeded and all its postconditions held. Without failures it stops only if the resource is not there, another has the key, nothing was ever prepared, or a driver was called that could not succeed; then the operation cannot be completed and the failure is on record, as blocked exactly where the driver refuses. |
| Sessions.Session.ApplyCommand | internal/cli/execution.go:44-69 | The command commits an apply, commits a reconcile exactly when the operation it got back had succeeded, and then runs; its outcome is that of Run. Without failures it ends early only if another has the key or a preparation is refused for one of its reasons. |
| Sessions.Session.Hold | internal/execution/executor.go:51-133 | The same for the part of Run under the key. |
| Sessions.Session.Operate | internal/execution/executor.go:62-133 | The same for loading, starting, walking and concluding: without failures only a call that cannot succeed stops it. |
| Sessions.Session.Finish | internal/execution/executor.go:117-133 | After the last step the operation is concluded and the resource looked at once more; without failures it has succeeded. |
| Sessions.Session.Walk | internal/execution/executor.go:69-116 | The loop ends with every step of the snapshot behind it, or stops inside the protocol; without failures only at a call that cannot succeed. |
| Sessions.Session.Execute | internal/execution/executor.go:70-116 | One step is claimed, checked, called, recorded and completed in this order, and every failure branch is a step of the protocol; without failures it is completed, or its call could not succeed and that is on record. |
| Sessions.Session.Report | internal/execution/executor.go:92-115 | What a call returns is recorded and the step completed; without failures only a result that is not ok fails the step, with the code and status for it. |
| Sessions.Session.Call | internal/execution/executor.go:91 | A driver call, finished or cut off, is a sequence of protocol steps; without failures it returns, and not ok only where it could not succeed. |
| Sessions.NoMismatch | internal/execution/executor.go:83-90 | In no reachable state does a claimed row lack the digest of its input. |
| Sessions.StuckCannotComplete | internal/execution/executor.go:91-112 | A call that cannot succeed belongs to an operation that cannot be completed. |
| Sessions.CallIsSafe | internal/execution/system.go:196-215 | Whenever the protocol calls the driver, what the driver relies on holds: storage finds its image verified. |
| Sessions.Session.PrepareApply | internal/state/postgres/execution.go:19-81 | A preparation with its transaction is one commit of the protocol, or none, also when the answer is lost, and leaves the key free; without failures it is refused only if another has the key or for a reason of its own, never because the declaration cannot be read. |
| Sessions.Session.PrepareDelete | internal/state/postgres/execution.go:83-135 | The same for deletes, with their reasons. |
| Sessions.Session.PrepareReconcile | internal/state/postgres/reconcile.go:15-75 | The same for reconciles, with theirs. |
| Sessions.Session.TryKey | internal/state/postgres/execution_lock.go:16-25 | A preparation gets the key only when nobody has it, does not wait, and without failures misses it only when another has it. |
| Sessions.MeanwhileDisturbsNothing | internal/state/postgres/execution_lock.go:27-49 | Whatever others do for any length of time, a process with the key finds rows, guest and its own place unchanged. |
| AllocationTable.AllocatingKeepsTable | internal/state/postgres/execution.go:188-233 | An address and MAC free in their pool, and allowed by the constraints, keep all rows distinct. |
| Fleets.MoveKeepsShared | internal/state/postgres/execution.go:174-236 | Every move of every worker keeps locks, searches and the allocation table in order. |
| FleetGuarantees.ProjectsToRun | internal/state/postgres/execution.go:41-46 | Whatever goes on elsewhere, each resource is in a state that its own protocol reaches. |
| FleetGuarantees.AllocationsAreDistinct | internal/state/postgres/execution.go:185-220 | Active allocations of one pool differ in address and MAC by lock and search alone; with the constraints all rows differ. |
| FleetGuarantees.AllocationsFitTheirPools | internal/state/postgres/execution.go:188-221 | Every row has an address of its pool's range and datasets named after its resource. |
| FleetGuarantees.SameChoiceMeansOtherPool | internal/state/postgres/execution.go:185-187 | Two workers that have both chosen are in different pools. |
| FleetGuarantees.PoolsNeedTheConstraint | migrations/0001_v2_state.sql:45-46 | Of two workers that chose the same address or MAC, the second can commit after the first if and only if the constraints are off. |
| FleetGuarantees.ReleasedAddressesAreNotFree | migrations/0001_v2_state.sql:45-46 | What the search has chosen can be committed if and only if no released row of another resource has its address or MAC. |
| FleetGuarantees.ReleasedAddressStopsThePool | internal/state/postgres/execution.go:195-201 | A search that comes to the address of a released row takes it, and no MAC makes the commit possible. |
| FleetGuarantees.BlockersAreNotBlocked | internal/state/postgres/execution.go:41-46 | Whoever is waited for has its resource and pool and waits for nobody. |
| FleetGuarantees.NoDeadlock | internal/state/postgres/execution.go:185-187 | No set of preparations waits in a circle. |
| FleetGuarantees.StorageIsIsolated | internal/execution/system.go:245-266 | Nothing of one machine's storage equals or lies under the dataset that the delete of another destroys. |
| FleetGuarantees.ReservationsAreApart | internal/execution/system.go:418-458 | Reservation keys of two active rows, and with the constraints of any two, differ: by the MAC within a pool, by the Kea subnet across pools. |
| FleetScenarios.SameAddressTwice | internal/state/postgres/execution.go:185-220 | From every beginning with two machines in two pools that begin with the same address, a run in which both choose it; the second can commit after the first if and only if the constraints are off. |
| FleetScenarios.PoolStops | internal/state/postgres/execution.go:195-201 | From every beginning with two machines in one pool, a run that deletes the first and leads the search for the second to its address, which no MAC lets it commit. |
| Addresses.Enumerate | internal/allocation/allocation.go:13-36 | The result is the exact ascending inclusive range, and there is one exactly for ordered IPv4 ranges of at most 2^20 + 1 addresses. |
| Addresses.FirstFree | internal/state/postgres/execution.go:192-205 | The first candidate that nobody holds, or none exactly when all are held. |
| Addresses.FirstFreeMac | internal/state/postgres/execution.go:206-220 | The same over the 65536 MAC candidates. |
| Addresses.FindAddress | internal/state/postgres/execution.go:188-205 | The least free address of the range, or exhaustion exactly when every address is held. |
| Addresses.FewHoldersLeaveRoom | internal/state/postgres/execution.go:203-205 | Fewer other holders than addresses rules exhaustion out. |
| Pools.CompareIps | internal/config/site_validate.go:160-172 | Comparing the sixteen bytes from the left is comparing the numbers. |
| Pools.CheckHosts | internal/config/site_validate.go:97-111 | No problem exactly when the three hosts lie in the subnet and the range is ordered, and each of the four problems exactly when it is one. |
| Pools.CheckNetwork | internal/config/site_validate.go:112-119 | A name server that is none, and a VLAN outside 0 to 4094, are reported, each exactly when it is there. |
| Pools.ValidatePools | internal/config/site_validate.go:79-129 | No problem exactly when every pool has a name, a subnet with first host, last host and gateway inside, first not after last, name servers that are addresses, a VLAN from 0 to 4094 and a positive Kea subnet, and no name or Kea subnet repeats. |
| Pools.PrefixIsShift | internal/config/site_validate.go:92-108 | Comparing under a CIDR mask byte by byte is comparing the values without their last bits. |
| Pools.BlockIsInterval | internal/config/site_validate.go:92-111 | What lies between two addresses of a prefix belongs to it. |
| Pools.AddressesOf | internal/allocation/allocation.go:25-34 | For an accepted pool every enumerated address lies in its subnet, and enumeration fails other than by size exactly for hosts not written as IPv4. |
| Keys.IdempotencyKeyIsInjective | internal/planner/execution.go:184-185 | The key text determines all five components, even when the control-plane id contains newlines. |
| Keys.ResourceLockKeyIsInjective | internal/state/postgres/repository.go:38-40 | The lock text determines control plane and resource. |
| Keys.MacSeedIsInjective | internal/allocation/allocation.go:38-40 | The seed determines control plane, resource and counter. |
| Keys.LockKeysDoNotMeet | internal/state/postgres/execution_lock.go:12-14 | Locks of different kinds never share a key, and one control plane gives no two names or pools the same one. |
| Keys.PoolLocksOfTwoControlPlanesCanMeet | internal/state/postgres/execution.go:185 | Two control planes can share a pool lock text, which is not length-prefixed. |
| Datasets.DestroyIsIsolated | internal/allocation/allocation.go:46-52 | For two different names, neither dataset nor volume of one equals or lies under the dataset of the other. |
| Datasets.DeletionsOfOthersKeepMine | internal/execution/system.go:253-257 | Any recursive destroys for other machines leave every dataset and volume of this one. |
| Toml.QuotedHides | internal/tomlx/tomlx.go:82-126 | To both line scanners a printed string is closed at its end and hides all it contains. |
| Toml.QuotedEndOf | internal/tomlx/tomlx.go:190-206 | The third scanner finds the end of a printed string where the others do, whatever follows. |
| Toml.UnquoteUndoesQuoted | internal/tomlx/tomlx.go:132-138 | Unquoting gives back the string that was printed. |
| Toml.ValueReadsBack | internal/tomlx/tomlx.go:128-188 | Every value is read back from its printing. |
| TomlDocuments.EntrySplits | internal/tomlx/tomlx.go:82-103 | A printed assignment splits into its key and its value's text, whatever the value contains. |
| TomlDocuments.EntryReadsBack | internal/tomlx/tomlx.go:63-74 | A printed assignment adds exactly its key and value to the current table. |
| TomlDocuments.SectionReadsBack | internal/tomlx/tomlx.go:30-61 | A printed table or array of tables adds exactly itself. |
| TomlDocuments.LinesUndoUnlines | internal/tomlx/tomlx.go:24-25 | Scanning lines gives back the lines that were joined. |
| TomlDocuments.ListingReadsBack | internal/tomlx/tomlx.go:15-80 | Parsing a canonical printing gives back what was printed, in whatever order. |
| TomlDocuments.DocumentRoundTrip | internal/tomlx/tomlx.go:15-80 | Every expressible document has canonical printings, and parsing any of them gives it back. |
| TomlLaws.BlankLinesDoNotMatter | internal/tomlx/tomlx.go:26-29 | A line of white space, or of a comment with or without white space before it, put anywhere into any text leaves the document, or the error, as it was; an error behind it is one line further down. |
| TomlLaws.IndentedLine | internal/tomlx/tomlx.go:26 | Blanks before and behind any line, good or bad, change nothing. |
| TomlLaws.CommentedLine | internal/tomlx/tomlx.go:105-126 | A comment behind a line that ends outside quotes, or has a comment, changes nothing. |
| TomlLaws.GoodLinesAreClosed | internal/tomlx/tomlx.go:105-126 | Every good line ends outside quotes or has a comment. |
| TomlLaws.AssignmentLine | internal/tomlx/tomlx.go:63-74 | A valid key, any blanks, an equals sign and any text assign the trimmed value, unless the table has the key or the value is none. |
| TomlLaws.TableLine | internal/tomlx/tomlx.go:50-61 | A table header with any blanks in it begins a table, which must be new. |
| TomlLaws.ArrayLine | internal/tomlx/tomlx.go:30-49 | A header of an array of tables adds an element to the array or begins it, unless the name stands for something else. |
| TomlLaws.BadTableLine | internal/tomlx/tomlx.go:52-54 | A table header without a valid name is bad. |
| TomlLaws.BadArrayLine | internal/tomlx/tomlx.go:32-34 | So is that of an array of tables. |
| TomlLaws.NoAssignmentLine | internal/tomlx/tomlx.go:63-66 | A line that is neither a header nor an assignment to a valid key is bad. |
| TomlLaws.FirstBadLine | internal/tomlx/tomlx.go:24-74 | An error is reported with the number of a line exactly when that line is bad and all lines before it are good. |
| TomlLaws.ReturnsDoNotMatter | internal/tomlx/tomlx.go:24-25 | Lines may end with a carriage return and a newline. |
| TomlLaws.LastNewlineDoesNotMatter | internal/tomlx/tomlx.go:24-25 | The last line may do without a newline. |
| TomlLaws.RepeatedTable | internal/tomlx/tomlx.go:55-57 | A text with two headers of one table is bad, at the second at the latest, and there as a duplicate. |
| TomlLaws.RepeatedKey | internal/tomlx/tomlx.go:67-69 | A text that assigns a key twice with no header between is bad, at the second assignment at the latest, and there as a duplicate. |
| TomlDressings.DecoratedTextReadsTheSame | internal/tomlx/tomlx.go:15-80 | A good text, decorated with blank lines, comment lines, indentation, comments and blanks around equals signs and inside headers, gives the same document. |
| TomlDressings.DecoratedListingReadsBack | internal/tomlx/tomlx.go:15-80 | So a canonical printing is read back however it is decorated. |
| TomlDressings.SpacedArrayReadsBack | internal/tomlx/tomlx.go:155-188 | An array is read back with any blanks between its items, and with or without a comma behind the last. |
| TomlDressings.SignedNumberReadsBack | internal/tomlx/tomlx.go:149-152 | Numbers are read with or without sign and leading zeros. |
| TomlParser.ScanComment | internal/tomlx/tomlx.go:105-126 | The flag-driven loop cuts at the first comment sign outside quotes. |
| TomlParser.ScanAssignment | internal/tomlx/tomlx.go:82-103 | The loop splits at the first equals sign outside quotes. |
| TomlParser.ScanQuoted | internal/tomlx/tomlx.go:190-206 | The loop finds the closing quote. |
| TomlParser.ReadStringArray | internal/tomlx/tomlx.go:155-188 | The shrinking loop reads the array that module Toml specifies. |
| TomlParser.ReadValue | internal/tomlx/tomlx.go:128-153 | A text is the value, or the error, that module Toml specifies: nothing is empty, two words are booleans, a quote begins a string, a bracket an array that a bracket ends, and anything else is a 64-bit number or unsupported. |
| TomlParser.CheckKey | internal/tomlx/tomlx.go:208-218 | Keys are non-empty and made of letters, digits, underscores and hyphens. |
| TomlParser.Parser.ParseLine | internal/tomlx/tomlx.go:26-74 | One line does to document and current table what the specification says, or reports its error and changes nothing; what the specification says is in TomlLaws. |
| TomlParser.Parser.ParseFile | internal/tomlx/tomlx.go:15-80 | The document is the one of the specification, and an error names the first bad line. |

## Left out

- The older `PrepareApply` (internal/state/postgres/repository.go:42-145), which takes no execution key and which no command calls, and the status `cancelled`, which nothing writes.
- SQL, the driver and the connection pool: a transaction is one step, and InspectResource's queries are one step, which they are for a process that holds the key.
- Liveness under failing drivers: module Completion says when an operation can be completed, not that drivers eventually work; and an apply after a delete need not resume its own operation.
- The text of evidence, observations and errors; the contents of services; log files, doctor probes, metrics, dashboards, rc.d scripts, command line and exit codes.
- Field-by-field decoding of configuration, the migration runner, and the checks on images: a list of lookups and comparisons.
- The gateway: nothing keeps an allocated address from being the gateway of its pool, so no member says so.
- Files as bytes: directories, modes and temporary files, and what a guest writes to its volume after it was started.
- In module TomlParser the current table is a path into the document rather than an alias of a map inside it; the parser never has two names for one table, so updates in place are captured, aliasing is not.
- `strconv.Unquote` beyond the escapes that the canonical printing uses, invalid UTF-8, and the length limit of the line scanner.
- TomlParser.ReadStringArray: refuses escapes that the canonical printing does not use, where `strconv.Unquote` reads some of them.
- TomlParser.ReadValue: refuses the same escapes, for the same reason.
- TomlParser.Parser.ParseLine: refuses the same escapes, because it reads values with ReadValue.
- TomlParser.Parser.ParseFile: refuses the same escapes, because it reads lines with ParseLine.
- `Others` in class `Session` has an empty step of its own: what other processes do is its contract, the reachable steps of the protocol.
- Sessions.Session.Call: does not say which evidence text is stored, because evidence is not modelled beyond its presence.
- Drivers.Host.EnsureServices: does not say that the services run afterwards, because they are shared by all machines and outside the modelled world.
