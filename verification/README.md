# A verified model of the agent platform's concurrent and best-effort cores

The platform runs coding agents as subprocesses on behalf of tenants. Six of its cores are small programs with promises
that no single function body shows. Each is modelled here as the code is written, and its promises are proved for all
inputs, all runs and all interleavings.

| component | modules |
|---|---|
| The tenant HOME quota walker: prunes a file tree in four tiers until it fits a budget, with protected names and calls that may fail | `HomeTree`, `Ledger`, `Removal`, `Recursion`, `Frontier`, `Sweep`, `QuotaTiers`, `StaleWalk`, `QuotaTheorems`, `QuotaRun`, `QuotaPromises`, `TenantHome`, `QuotaGate` |
| Access and refresh token rotation by concurrent calls of one client | `TokenRotation`, `TokenTheorems`, `ApiClient` |
| The resilient walk over a platform chain, its policy, its recursion gate and the preflight checks that feed it | `Policy`, `Executor`, `ExecutorTheorems`, `ExecutorLaws`, `Dispatch`, `Preflight` |
| The batching event emitter | `Batching`, `EmitterMachine`, `EmitterTheorems`, `Emitter` |
| The subprocess pump and the shared agent sessions | `PumpMachine`, `PumpTheorems`, `Pump`, `SessionMachine`, `SessionTheorems`, `Sessions` |
| The device-flow polling loop, the TOML printer, the feature-flag cache | `DeviceFlow`, `Toml`, `FlagCache` |

`Wrappers` holds the option type and `Interleavings` what a run of a protocol is, once for all components.

`dafny verify dfyconfig.toml` checks the whole project with Dafny 4.11.

## How to read it

- **The quota walker** is a class over a mutable tree of paths, with one method for each function and loop of the
  source. Every file-system call goes through a method that fails as an arbitrary schedule says, and the recursive
  removal has room for a given number of nested calls; a run is `Sound` when none of its calls failed and it did not run
  out of room. Each method is proved against a set of removed nodes given by recursion-free definitions in `HomeTree`
  (`Sticky`, `Kept`, `Doomed`) and `QuotaTiers`. `Effect` in `Ledger` is the contract all of them share: the tree is the
  old one without some of those nodes (all of them on a sound run), directories that lost a child have the current
  mtime, and the log grew by the files with bytes removed, but for those whose size could not be read. Failures are
  local: `hurt` has at most one path for each failed call (`Blamed`), and a node that may go and stays is at, above or
  below one of them (`Spared`). The explicit-stack loops are proved through frontiers (`Frontier`, `Sweep`,
  `StaleWalk`): what a worklist still owes never changes while the tree under it does. `QuotaPromises` says what
  all this comes to in names, places and figures, without the definitions the proofs use.
- **Concurrent components** are state machines: a datatype for the state with its history, an `Enabled` predicate and a
  `Step` function, one action for each section of the code that no other participant can interrupt. `Inv` is kept by
  every step (`StepInv`), hence by every run (`Interleavings.Invariant`), and the theorems speak about all runs. Beside
  each machine a class has the fields of the source's object and one method for each atomic section; each method is
  proved to take exactly the machine's step.
- **A whole call with nobody in between** is a method of its own in some of these classes (`RefreshAndRetry`,
  `ReuseRotated`, `SendMessage`, `BrokenRead`, `Finish`, `HandleException`, `IsEnabled`), with the contract a caller
  would read; `FlushOnce` allows for producers.
- **The executor** is a class whose nested loops are proved against a specification by position (`Attempts`, `TurnAt`,
  `EndsAt`). `World` holds what each adapter would answer at each position and attempt, so that the specification is a
  function; `ExecutorTheorems` is about that specification, and `ExecutorLaws` says what each answer of an adapter does
  to a whole run, in terms of statuses, events and calls only.

## Where the code and its own documentation differ

The model follows the code.

- `enforce_quota` is documented never to raise. It can: the directory probes before the tiers and those of an entry in
  the fourth tier's loop stand outside every `try` (`apps/code-worker/tenant_home_quota.py:272`, `:287`, `:322`, `:353`,
  `:366`, `:374`, `:409`), and the removal recurses once for each level of a directory, so that a deep enough tree
  exhausts the interpreter's stack with an error no `except OSError` catches (`:250-252`). `EnforceQuota` says that it
  raises exactly when one of those probes fails or a tier meets a root too deep; `ProbeRaises` and `DepthRaises` are
  runs that do. `maybe_enforce_quota` catches both.
- The list of pruned paths is documented to hold every deleted file. Symlinks, files of size zero and files whose size
  could not be read are deleted without being listed (`apps/code-worker/tenant_home_quota.py:233-238`, `:383-386`;
  `ListedExactly`, `DeletedUnlisted`).
- The emitter's documentation ranks the three droppable kinds; the code treats them alike
  (`apps/code-worker/session_event_emitter.py:171-175`). Its 16 KB cap counts the text in characters plus 64 for each
  chunk, not the bytes sent, and leaves out the raw event a chunk may carry.
- The comment at `apps/code-worker/cli_runtime.py:612-614` takes the end of both pipes for the end of the child. A child
  can close its pipes and live on, and a grandchild can keep them open; the model allows both. The promise that every
  exception path kills the child fails for the heartbeat before the `try` (`StartupExceptionLeaksTheChild`);
  `ChildIsKilledExactly` says when it holds.
- `attempt_count` of an exhausted chain is the number of platforms attempted, not of attempts
  (`packages/cli_orchestrator/executor.py:486`).
- The recursion gate is described as refusing a dispatching agent that appears twice. It compares the lineage only, so
  an agent that dispatches to itself runs twice before anything is refused (`SelfDispatchRunsTwice`).
- A session is kept after a send that timed out or was cancelled. Its answer then goes to the next sender
  (`NextSendGetsTheFirstAnswer`); `PairingIsExact` says exactly when a caller gets its own.

## Assumptions

- `.cache`, `.local`, `.local/lib` and the `site-packages` directories are not symlinks (`RealPrefixes`): the source
  follows links there. The clock stands still during one quota run, and no other process changes the tree meanwhile.
- The server never issues an old refresh secret again, and nothing outside the refresh path sets or clears the pair.
- A session's process emits one result for each message, in order, and anything else besides.
- A Redis entry is visible until its time to live is over and not after; all writers under these keys are the helpers.
- Clocks do not run backwards.

## Model

| member | source | states |
|---|---|---|
| `TenantHome.Walker.Detach` | apps/code-worker/tenant_home_quota.py:255-260 | removing one leaf keeps the tree well-formed and leaves exactly the other nodes, the parent directory's mtime set to now |
| `TenantHome.Walker.ScanSize` | apps/code-worker/tenant_home_quota.py:147-170 | the explicit-stack loop returns the sum of the sizes of all non-directories below the root; when calls fail it returns no more than that, and leaves out no more than what lies at or below one path for each failed call |
| `TenantHome.Walker.SafeUnlink` | apps/code-worker/tenant_home_quota.py:180-202 | one file or link goes exactly when none of the calls that decide it fails, a failing size included; the bytes returned are the file's size, and 0 for a link, a directory, a special file, a failure, or a size that could not be read |
| `TenantHome.Walker.SafeRmTree` | apps/code-worker/tenant_home_quota.py:205-261 | only nodes below the path that are neither protected nor above nor below a protected one go; of these all go but what is at, above or below a path where a call failed; the log gains the non-empty regular files removed, but for those whose size could not be read; freed is the sum of their sizes; it runs out of nested calls only on an entry that deep, and always then when no call fails first |
| `TenantHome.Walker.EmptyDirectory` | apps/code-worker/tenant_home_quota.py:244-261 | the directory case: children first, then the directory itself exactly when nothing of it is kept; out of room when an entry is |
| `TenantHome.Walker.PruneCache` | apps/code-worker/tenant_home_quota.py:264-281 | tier 1 has the effect of removing every child of .cache, with the exact log and byte count |
| `TenantHome.Walker.PruneSitePackages` | apps/code-worker/tenant_home_quota.py:284-312 | tier 2 has the effect of removing every entry of a python site-packages directory with mtime at or before the cutoff |
| `TenantHome.Walker.PruneOtherLocalLib` | apps/code-worker/tenant_home_quota.py:315-338 | tier 3 likewise for the stale entries of .local/lib that are not python directories |
| `TenantHome.Walker.PruneStaleLocal` | apps/code-worker/tenant_home_quota.py:341-390 | the explicit-stack walk of tier 4 removes exactly the stale entries a recursive reading reaches: those below recent directories only, outside a real .local/bin and outside protected directories |
| `TenantHome.Walker.Judge` | apps/code-worker/tenant_home_quota.py:363-383 | the fate of one tier-4 entry agrees with the recursive reading: enter a recent directory, remove a stale entry, skip the rest; escaping exceptions only when a call fails |
| `TenantHome.Walker.RunTier` | apps/code-worker/tenant_home_quota.py:461-506 | whatever fails, a tier runs only on a tree over the budget and the next one only if the tree is still over it; its run is one step of the trail and of the whole specification |
| `TenantHome.Walker.EnforceQuota` | apps/code-worker/tenant_home_quota.py:393-517 | not a directory, lock busy, under budget, and pruning: the report and the whole new tree in each case, exact for a run in which no call failed. Whatever fails, by name: credential files, lock files and all in or at a projects, .git or .config survive; what goes was in .cache, or in .local with an age of fourteen days at or above it, never in a real .local/bin; in a run that returns, each tier that ran took its targets but for what is at, above or below one path for each failed call, a run that began over budget cleared .cache to the same extent, and both reported sizes, as the decision to stop early, are measurements that leave out no more than one path for each failed call; a tree within budget is left alone. It raises exactly when a probe outside every try fails or a tier meets a root too deep for the recursion |
| `QuotaPromises.TierTakesTargets` | apps/code-worker/tenant_home_quota.py:264-390 | a tier removes exactly what lies at or below its targets, told by name, place, kind and age, and is not shielded by a protected node, but for what is near a failed call; `PythonDir`, `Entered` and `Target` spell the four tiers out |
| `QuotaPromises.OnlyWhatMayGo` | apps/code-worker/tenant_home_quota.py:127-144 | nothing that is protected by name goes, and nothing else but what lies in .cache or has aged fourteen days in .local outside bin; nothing appears but the lock file |
| `QuotaPromises.RunClearsCache` | apps/code-worker/tenant_home_quota.py:264-281 | a run over budget leaves in .cache protected nodes, what lies in or leads to one, and what is near a failed call |
| `QuotaPromises.PlainFileGoes` | apps/code-worker/tenant_home_quota.py:264-281 | a regular file directly in .cache is gone after such a run if and only if its name is none of the protected ones, unless a call failed near it |
| `QuotaPromises.PreciousByName` | apps/code-worker/tenant_home_quota.py:127-144 | the protection of a path below the home, spelled out by names, is the one the walker tests |
| `QuotaPromises.OneMoreEntry` | apps/code-worker/tenant_home_quota.py:147-170 | what is measured: each entry below the home adds its own size, directories nothing |
| `QuotaPromises.LockWeighsNothing` | apps/code-worker/tenant_home_quota.py:415-419 | opening the lock file does not change the measure |
| `TenantHome.Walker.Probe` | apps/code-worker/tenant_home_quota.py:272-374 | the directory probes that stand outside every try, and the count of those that failed |
| `TenantHome.ProbeRaises` | apps/code-worker/tenant_home_quota.py:408-410 | a concrete run that raises: its first call fails |
| `TenantHome.DepthRaises` | apps/code-worker/tenant_home_quota.py:250-252 | a concrete run that raises although no call fails: an entry deeper than the recursion can go |
| `Recursion.DescentByChildren` | apps/code-worker/tenant_home_quota.py:244-252 | the removal of a directory needs one nested call more than that of its deepest entry |
| `Recursion.DepthIsIntact` | apps/code-worker/tenant_home_quota.py:250-252 | earlier removals of a sweep do not change how deep the later ones go |
| `QuotaRun.TrailGrows` | apps/code-worker/tenant_home_quota.py:453-506 | the account of the trees a call went through, with what each tier removed and spared, is kept by one more tier, whichever calls fail |
| `QuotaRun.FittingIsLeftAlone` | apps/code-worker/tenant_home_quota.py:453-456 | a tree within the budget is left as it is, whatever fails |
| `QuotaGate.Gate.MaybeEnforce` | apps/code-worker/tenant_home_quota.py:520-548 | a walk starts exactly for a tenant not seen before, or 600 seconds or 10 chunks after the last recorded one, and touches nothing otherwise; None exactly then or when the walk raised; the watermark moves exactly after a completed, unskipped walk |
| `QuotaGate.WalksAreRare` | apps/code-worker/tenant_home_quota.py:95-124 | over any series of turns of any tenants, with the watermarks that MaybeEnforce leaves, each further recorded walk of a tenant costs ten minutes or ten chunks |
| `HomeTree.DoomedClosed` | apps/code-worker/tenant_home_quota.py:205-261 | what is removed is closed downwards: with a node everything below it goes |
| `HomeTree.DoomedLocal` | apps/code-worker/tenant_home_quota.py:205-261 | what is removed below a root depends on nothing outside it |
| `HomeTree.PruneMore` | apps/code-worker/tenant_home_quota.py:250-252 | removing disjoint roots one after another, with mtimes changing in between, equals removing them together |
| `Removal.FinishDirectory` | apps/code-worker/tenant_home_quota.py:254-261 | after the children, the rmdir completes the recursive specification whether it succeeds or not |
| `Removal.DirectorySpared` | apps/code-worker/tenant_home_quota.py:254-261 | a directory that stays although it may go has a failed call at it, above it or inside it |
| `Sweep.FinishSpared` | apps/code-worker/tenant_home_quota.py:264-390 | what a sweep leaves of what it may take is near a failed call, be it of a removal or of the listing that was cut short |
| `Removal.LeafEffect` | apps/code-worker/tenant_home_quota.py:229-240 | the removal of a leaf has the same effect as the recursive specification prescribes |
| `Removal.EmptiedIsDoomed` | apps/code-worker/tenant_home_quota.py:254-261 | a directory that ended up empty held nothing to keep |
| `Frontier.Expand` | apps/code-worker/tenant_home_quota.py:156-163 | what lies under a frontier stays the same when a directory is replaced by itself and its children |
| `Frontier.ScanEnd` | apps/code-worker/tenant_home_quota.py:154-170 | an empty stack means the running total is the recursive sum, or at most that after failures |
| `Sweep.TakeAll` | apps/code-worker/tenant_home_quota.py:275-281 | one more candidate removed keeps the sweep's effect exact even though earlier removals changed the tree |
| `Sweep.SamePython` | apps/code-worker/tenant_home_quota.py:291-309 | removals under one python directory leave the candidates under the others as they were |
| `StaleWalk.Removed` | apps/code-worker/tenant_home_quota.py:374-389 | a removal in the middle of the tier-4 walk leaves the rest of the walk, on the changed tree, owing exactly what it owed on the old one |
| `StaleWalk.End` | apps/code-worker/tenant_home_quota.py:356-390 | an empty stack means every stale entry the walk could reach was handled |
| `QuotaTiers.StaleRootsAntichain` | apps/code-worker/tenant_home_quota.py:341-390 | no entry tier 4 removes lies below another one |
| `QuotaTiers.WalkedEntry` | apps/code-worker/tenant_home_quota.py:363-382 | an entry of a walked directory is walked into or removed by its own mtime and kind |
| `QuotaTheorems.ResidueIsExact` | apps/code-worker/tenant_home_quota.py:205-261 | under a removed root exactly the topmost protected nodes stay, with everything below them and the directories leading to them |
| `QuotaTheorems.ProtectedSurvives` | apps/code-worker/tenant_home_quota.py:127-144 | whatever fails, no protected node and no directory leading to one is removed |
| `QuotaTheorems.NothingLeft` | apps/code-worker/tenant_home_quota.py:461-492 | after j tiers, none of the first j finds anything more to remove, although removals touched mtimes |
| `QuotaTheorems.TiersIdempotent` | apps/code-worker/tenant_home_quota.py:461-492 | with the cutoff fixed, running the tiers again changes nothing, whatever the clock reads by then; removals that touch mtimes included |
| `QuotaTheorems.LaterRunRemovesOnlyAged` | apps/code-worker/tenant_home_quota.py:459-492 | after a complete run, what a run at a later cutoff removes is at or below an entry whose mtime lies between the two cutoffs |
| `QuotaTheorems.LaterRunChanges` | apps/code-worker/tenant_home_quota.py:459-492 | a run at a later cutoff changes nothing if and only if no entry that has grown stale since then holds something that may go |
| `QuotaTheorems.LaterRunRemovesMore` | apps/code-worker/tenant_home_quota.py:459-492 | a concrete tree that one run leaves alone and a later one prunes |
| `QuotaTheorems.FirstFit` | apps/code-worker/tenant_home_quota.py:453-506 | the run ends after the first tier whose result fits the budget, or after the fourth |
| `QuotaTheorems.OverBudgetIsExhausted` | apps/code-worker/tenant_home_quota.py:491-506 | a result over budget means all four tiers ran, the tree was too large before and after each, and none has anything left to remove |
| `QuotaTheorems.EnforcedIdempotent` | apps/code-worker/tenant_home_quota.py:393-517 | a second run under the same budget and with the same cutoff leaves the tree as it is |
| `QuotaTheorems.RootIsRemovable` | apps/code-worker/tenant_home_quota.py:264-390 | every node a tier removes is inside .cache, or inside .local and outside a real .local/bin, with an mtime at or before the cutoff on itself or an ancestor (tiers 2 to 4) |
| `QuotaTheorems.OneMoreTier` | apps/code-worker/tenant_home_quota.py:461-492 | bounds, survival, log and exact result are kept by one more tier, whichever calls fail |
| `QuotaTheorems.RunConserves` | apps/code-worker/tenant_home_quota.py:453-506 | bytes before minus bytes after are the sizes of the listed files plus the link sizes of the removed symlinks |
| `QuotaTheorems.ListedExactly` | apps/code-worker/tenant_home_quota.py:233-238 | a removed node is listed if and only if it was a file with bytes; after failures only files whose size could not be read may be missing |
| `QuotaTheorems.DeletedUnlisted` | apps/code-worker/tenant_home_quota.py:229-238 | a concrete tree whose first tier deletes an empty file and a link and lists neither |
| `Ledger.Conservation` | apps/code-worker/tenant_home_quota.py:147-170 | for any removal: the difference of two scans is the sum over the log plus the removed links |
| `Ledger.LogOneMore` | apps/code-worker/tenant_home_quota.py:233-238 | logs of consecutive removals concatenate to the log of both, without duplicates |
| `QuotaRun.TierWasEnough` | apps/code-worker/tenant_home_quota.py:463-469 | a measurement within the budget ends the run with the specified tree, sizes and log |
| `TokenRotation.StepInv` | apps/agentprovision-core/src/client.rs:396-489 | every atomic step of every call keeps the invariant: one lock holder, the current secret never a retired one, memory and store in agreement outside the critical section |
| `TokenTheorems.NoReuseOfRotatedSecret` | apps/agentprovision-core/src/client.rs:408-478 | in every interleaving without a rejected exchange, once a successor of a secret is stored no call sends that secret again, however early it captured it |
| `TokenTheorems.SendsCurrentOrCleared` | apps/agentprovision-core/src/client.rs:430-451 | what is sent is the secret in memory, unless a rejection has cleared it |
| `TokenTheorems.ReuseExactly` | apps/agentprovision-core/src/client.rs:430-451 | a call about to compare a retired secret sends it if and only if the in-memory secret is gone |
| `TokenTheorems.ReuseAfterRejection` | apps/agentprovision-core/src/client.rs:451-459 | a concrete interleaving in which a 400 or 401 clears the pair and a waiting call then sends a retired secret: the hypothesis is needed |
| `TokenTheorems.MemoryMatchesStore` | apps/agentprovision-core/src/client.rs:462-477 | while nothing was rejected, whenever no call holds the lock the pair in memory is the pair the callback last recorded, a None refresh keeping the old one |
| `TokenTheorems.BoundedSends` | apps/agentprovision-core/src/client.rs:325-334 | each call sends its request at most twice and exchanges at most once; one call at a time is in the critical section |
| `TokenTheorems.ResendsTheCurrentToken` | apps/agentprovision-core/src/client.rs:434-443 | in every interleaving the request a call sends again carries the access token in memory, and the call holds the lock |
| `TokenTheorems.EmptyTokenUnreachable` | apps/agentprovision-core/src/client.rs:441-443 | the error of a racing refresh that left no token is returned in no interleaving, rejections included |
| `ApiClient.ApiClient.CompareSecret` | apps/agentprovision-core/src/client.rs:424-451 | the comparison sends the captured secret exactly when it is still the one in memory or memory holds none; otherwise the call goes on with the access token in memory, which is there; one exchange at most |
| `ApiClient.ApiClient.ReuseRotated` | apps/agentprovision-core/src/client.rs:430-443 | the loser of a race, from the lock to its answer: no exchange, and the request goes out again with the winner's access token |
| `ApiClient.ApiClient.OnExchange` | apps/agentprovision-core/src/client.rs:451-463 | the five ways an exchange can end, each as the specified step |
| `ApiClient.ApiClient.WriteRefresh` | apps/agentprovision-core/src/client.rs:466-469 | the refresh secret is replaced only by a new one; a grace reply keeps the old one |
| `ApiClient.ApiClient.FirePersist` | apps/agentprovision-core/src/client.rs:470-477 | the callback records the new pair, a missing refresh secret keeping the recorded one |
| `ApiClient.ApiClient.ClearAccess` | apps/agentprovision-core/src/client.rs:456-458 | after a 400 or 401 both halves are cleared and the lock is released |
| `ApiClient.ApiClient.RefreshAndRetry` | apps/agentprovision-core/src/client.rs:396-489 | a whole refresh with no other call in between: which answers lead to an exchange, what memory and store hold after it, and how the call ends |
| `Policy.Decide` | packages/cli_orchestrator/policy.py:126-252 | retry only on a first attempt with a network failure, timeout or unknown failure; a user-fixable status falls through to opencode and stops otherwise; fallback carries a hint exactly in the first case, every stop on a failure carries one; a second network failure or timeout falls back, a second unknown failure stops |
| `Policy.HintKeyText` | packages/cli_orchestrator/policy.py:126-160 | the text of the keys of the three statuses a user can repair |
| `Executor.ResilientExecutor.Execute` | packages/cli_orchestrator/executor.py:244-513 | a lineage of three or more agents or with an agent twice is refused: status, platform and the key of the limit it broke, no adapter preflighted or run, and two events; any other request ends as the position-by-position specification says, with its result, its trace, its adapter calls and its three counters |
| `Executor.ResilientExecutor.Walk` | packages/cli_orchestrator/executor.py:299-513 | the outer loop refines the specification of the walk |
| `Executor.ResilientExecutor.RunPlatform` | packages/cli_orchestrator/executor.py:381-457 | the attempt loop refines the recursive attempts on one platform: last result, verdict, events, calls, runs, retries, fallbacks, carried hint |
| `Executor.ResilientExecutor.Attempt` | packages/cli_orchestrator/executor.py:383-459 | one attempt either settles the platform or leaves exactly the attempts after it to do |
| `Executor.ResilientExecutor.Visit` | packages/cli_orchestrator/executor.py:300-379 | a missing adapter, a failed or raising preflight, and a passed one, each with its events and decision |
| `Executor.ResilientExecutor.FinaliseStop` | packages/cli_orchestrator/executor.py:612-650 | a stop stamps the attempted platforms, keeps an adapter's own hint over the policy's, and emits a failure unless the status is a success |
| `Executor.ResilientExecutor.FinaliseSuccess` | packages/cli_orchestrator/executor.py:561-610 | a success counts at least one attempt and keeps an adapter's own hint over the carried one |
| `ExecutorTheorems.EveryRunEnds` | packages/cli_orchestrator/executor.py:299-513 | every chain has an ending in every world: at the first position the policy does not leave, or past the end |
| `ExecutorTheorems.EndingIsUnique` | packages/cli_orchestrator/executor.py:299-513 | position, result, trace and counters of a run are determined by the chain and the adapters' answers |
| `ExecutorTheorems.CapNeverBites` | packages/cli_orchestrator/executor.py:435-442 | with the attempt cap taken away every platform gives the same turn: the policy alone bounds the attempts |
| `ExecutorTheorems.TurnCalls` | packages/cli_orchestrator/executor.py:300-459 | at one position a missing adapter is not called, any other is preflighted once, and run once or twice after a passed preflight |
| `ExecutorTheorems.OnlyVisitedAreCalled` | packages/cli_orchestrator/executor.py:299-459 | a run calls the adapters of the positions it visits and no other: every registered one is preflighted, exactly those that pass are run |
| `ExecutorTheorems.LaterAnswersDoNotMatter` | packages/cli_orchestrator/executor.py:299-444 | result, calls and trace of a run do not depend on what adapters beyond its end would answer |
| `ExecutorTheorems.AttemptedIsVisited` | packages/cli_orchestrator/executor.py:319-405 | on a chain without duplicates platform_attempted is exactly the visited prefix |
| `ExecutorTheorems.TurnFollowsPolicy` | packages/cli_orchestrator/policy.py:160-252 | what the last status at a position means for the walk, through preflight, first and second attempt alike |
| `ExecutorTheorems.NoSilentFallback` | packages/cli_orchestrator/executor.py:345-444 | a user-fixable failure ends the run where it shows if and only if opencode is not next; no adapter is preflighted or run at any later position, and the result has that status, a hint and a failure event |
| `ExecutorTheorems.HintOnSuccess` | packages/cli_orchestrator/executor.py:371-376 | a success carries a hint if and only if a platform with a user-fixable failure was passed over; opencode came right after it, and on a duplicate-free chain the hint is its key |
| `ExecutorTheorems.RunAccount` | packages/cli_orchestrator/executor.py:257-459 | positions passed over are recorded fallbacks, missing adapters and preflights with a retryable status; runs are retries plus passed preflights, at most two a platform |
| `ExecutorTheorems.TraceIsWellFormed` | packages/cli_orchestrator/executor.py:257-513 | one started event, failures with fallbacks only directly after one, one terminal event that tells success from failure; with the one exception of a preflight that fails claiming success |
| `ExecutorLaws.RaisingPreflightFallsBack` | packages/cli_orchestrator/executor.py:325-379 | a run that comes to a preflight that raises, or fails without a status, goes on; attempt 0 with provider_unavailable and the fallback stand next to each other in the trace; at the last position the run ends with that status |
| `ExecutorLaws.UnavailableFallsBack` | packages/cli_orchestrator/executor.py:333-379 | the same for any unavailable or exhausted provider, and its adapter is not run |
| `ExecutorLaws.RepairableRefusal` | packages/cli_orchestrator/executor.py:345-379 | a preflight failure the user can repair falls through to opencode, or ends the run with its status, its platform, its key and a failure event |
| `ExecutorLaws.OtherRefusal` | packages/cli_orchestrator/executor.py:333-379 | what the remaining statuses of a failed preflight do to the run |
| `ExecutorLaws.MissingAdapter` | packages/cli_orchestrator/executor.py:300-317 | a platform without an adapter is passed over in silence, and gives the run its status only as the last one |
| `ExecutorLaws.RunOutcome` | packages/cli_orchestrator/executor.py:381-459 | the one or two runs at a visited position decide whether the walk goes on, and otherwise the run's status, platform, hint, attempt count and last event; with the events that tell of them |
| `ExecutorLaws.SecondRun` | packages/cli_orchestrator/executor.py:383-459 | a platform is run a second time exactly after a network failure, a timeout or an unknown failure, and never a third time |
| `ExecutorLaws.EmptyChain` | packages/cli_orchestrator/executor.py:461-513 | a chain without platforms |
| `ExecutorLaws.AttemptedAreVisited` | packages/cli_orchestrator/executor.py:319-405 | the platforms reported as attempted are those visited; an exhausted run counts them |
| `ExecutorLaws.ReportedOnce` | packages/cli_orchestrator/executor.py:319-405 | every visit is reported but a further run of a platform; where all preflights pass each platform is reported once |
| `ExecutorLaws.HintOnExhaustion` | packages/cli_orchestrator/executor.py:461-513 | an exhausted run carries a hint exactly when it passed over a failure the user can repair, and on a duplicate-free chain its key |
| `Dispatch.GateIsExact` | packages/cli_orchestrator/executor.py:517-557 | the gate accepts exactly the duplicate-free lineages shorter than three |
| `Dispatch.GateExtends` | apps/mcp-server/src/mcp_tools/agents.py:87-93 | a dispatch is accepted if and only if its parent was, the tree is not two deep, and the dispatching agent has not dispatched above |
| `Dispatch.SelfDispatchRunsTwice` | packages/cli_orchestrator/executor.py:541-557 | the gate looks at who dispatched: an agent dispatching to itself does run a second time |
| `Dispatch.TreeBound` | packages/cli_orchestrator/executor.py:517-557 | from an empty lineage with branching b at most 1 + b + b*b executions are accepted, with at most 2 * length adapter runs each |
| `Dispatch.BoundIsMet` | packages/cli_orchestrator/executor.py:517-557 | the bound is met: a tree of agents dispatching b times each to the next runs exactly 1 + b + b*b times |
| `Dispatch.RunsOfExecutions` | packages/cli_orchestrator/executor.py:517-557 | adapters are run by the accepted executions of a tree and by nothing else |
| `Preflight.ComposedIsHelperVerdict` | packages/cli_orchestrator/preflight.py:64-335 | checks composed in order fail only with the four helper statuses, and pass exactly when all pass |
| `Preflight.FirstFailureDecides` | packages/cli_orchestrator/preflight.py:64-335 | the verdict of checks composed in order is that of the first one that fails |
| `Preflight.HelperAccount` | packages/cli_orchestrator/preflight.py:64-335 | with such preflights, positions passed over equal fallbacks plus missing adapters, and every trace is closed by the event that tells how the run ended |
| `Preflight.FirstLookupDecides` | packages/cli_orchestrator/preflight.py:64-113 | over any series of lookups the memo keeps answering what the first lookup of a name found |
| `Preflight.Memos.CheckBinaryOnPath` | packages/cli_orchestrator/preflight.py:64-80 | the verdict is the memo's, and only a first lookup changes the memo |
| `Preflight.Memos.CheckWorkspaceTrustFile` | packages/cli_orchestrator/preflight.py:88-113 | the verdict is the memo's, a raising first look counting as missing |
| `Preflight.CheckCredentialsPresent` | packages/cli_orchestrator/preflight.py:120-160 | passes exactly on a non-empty credential record |
| `Preflight.Redis.CheckCached` | packages/cli_orchestrator/preflight.py:198-246 | a verdict comes from the cache exactly when the read succeeds and finds a live 0 or 1; it is then that of the last write under the same key, whatever other workers did; any other verdict is the probe's own and is what the cache holds next |
| `Preflight.Redis.CheckCloudApiEnabled` | packages/cli_orchestrator/preflight.py:167-246 | when the cloud verdict is taken from the cache, under which key, and its bounded staleness; a raising probe counts as disabled |
| `Preflight.Redis.CheckTemporalQueueReachable` | packages/cli_orchestrator/preflight.py:253-335 | when the queue verdict is taken from the cache, under which key, and its bounded staleness; an uncached one passes exactly on a heartbeat 0 to 60 seconds old |
| `Preflight.KeysAreApart` | packages/cli_orchestrator/preflight.py:198-285 | tenants without a colon never share a cloud key, and no cloud key is a queue key |
| `Batching.GreedySplits` | apps/code-worker/session_event_emitter.py:260-284 | the greedy batches are the queue in order, each within both caps or a single oversized chunk |
| `Batching.GreedyIsAhead` | apps/code-worker/session_event_emitter.py:260-284 | against any other split the greedy one has no more batches, and while it has as many its last batch is no longer |
| `Batching.GreedyIsMinimal` | apps/code-worker/session_event_emitter.py:260-284 | no order-preserving split into sendable batches has fewer of them |
| `Batching.BatchBound` | apps/code-worker/session_event_emitter.py:260-284 | n chunks of B rough bytes make at most 1 + n/32 + B/8192 batches |
| `Batching.RoughBytes` | apps/code-worker/session_event_emitter.py:266-284 | the size the byte cap counts: the characters of the text and 64 for each chunk |
| `EmitterMachine.StepInv` | apps/code-worker/session_event_emitter.py:135-323 | every step of every producer, of the flusher and of close keeps the invariant |
| `EmitterTheorems.NothingLostOrReordered` | apps/code-worker/session_event_emitter.py:260-284 | posted batches in order, the open batch, the chunk in hand and the queue are together exactly what was queued |
| `EmitterTheorems.EachOfferInOnePlace` | apps/code-worker/session_event_emitter.py:135-180 | every offered chunk is in exactly one place: dropped, about to be queued, queued, in hand, in the open batch, or posted |
| `EmitterTheorems.StructureIsNeverDropped` | apps/code-worker/session_event_emitter.py:170-175 | only reasoning, stdout and text are ever dropped |
| `EmitterTheorems.DepthIsBounded` | apps/code-worker/session_event_emitter.py:170-180 | with P producers at most 1000 + P droppable chunks are queued; when nothing else is offered that bounds the queue |
| `EmitterTheorems.NothingDroppedUnlessFull` | apps/code-worker/session_event_emitter.py:170-180 | in every interleaving in which the queue never holds more than 1000 chunks nothing is dropped |
| `EmitterTheorems.OfferDecides` | apps/code-worker/session_event_emitter.py:160-180 | a chunk is dropped and counted exactly when more than 1000 are queued and it is reasoning, stdout or text; any other one is handed on as offered, under the kind stdout when it has none |
| `EmitterTheorems.PostedInOrder` | apps/code-worker/session_event_emitter.py:135-284 | each producer's chunks are posted in the order it offered them |
| `EmitterTheorems.EveryFlushIsMinimal` | apps/code-worker/session_event_emitter.py:260-284 | in every interleaving every flush posts as few batches as any sendable split of what it took off the queue |
| `EmitterTheorems.EveryPostFits` | apps/code-worker/session_event_emitter.py:266-284 | every batch ever posted has at most 32 chunks and 16384 rough bytes, or is one oversized chunk |
| `EmitterTheorems.JoinedCloseSendsEverything` | apps/code-worker/session_event_emitter.py:182-216 | once the flusher has exited, everything queued before close was posted, once and in order, and to an open client unless close did not wait for it |
| `EmitterTheorems.CountersAddUp` | apps/code-worker/session_event_emitter.py:220-228 | emitted, failed, dropped, still queued and in producers' hands add up to what was offered |
| `Emitter.SessionEventEmitter.Admit` | apps/code-worker/session_event_emitter.py:135-178 | a non-empty chunk is dropped and counted exactly when more than 1000 are queued and its kind is one of the three; otherwise it is the producer's to put, and nothing is counted |
| `Emitter.SessionEventEmitter.Enqueue` | apps/code-worker/session_event_emitter.py:180-180 | the put as a step of its own |
| `Emitter.SessionEventEmitter.GetNowait` | apps/code-worker/session_event_emitter.py:266-282 | one chunk taken off the queue and added to the open batch unless a cap forbids |
| `Emitter.SessionEventEmitter.PostBatch` | apps/code-worker/session_event_emitter.py:286-323 | the counters for a closed client, an accepted, a refused and a raising post |
| `Emitter.SessionEventEmitter.FlushOnce` | apps/code-worker/session_event_emitter.py:260-284 | with producers putting chunks before any look at the queue, the whole queue and everything put meanwhile goes out in order as the greedy batches, and nothing is dropped |
| `Emitter.SessionEventEmitter.EmitAndFlush` | apps/code-worker/session_event_emitter.py:135-284 | a chunk emitted to an idle emitter below the mark leaves with the next flush, behind everything queued before it |
| `Emitter.SessionEventEmitter.FlushTail` | apps/code-worker/session_event_emitter.py:241-258 | the end of a pass: the tail is posted, and the last pass ends the thread |
| `PumpMachine.StepInv` | apps/code-worker/cli_runtime.py:519-637 | every step of the child, the drain threads and the main thread keeps the invariant |
| `PumpMachine.JoinLines` | apps/code-worker/cli_runtime.py:544-546 | the lines of a text join back to it |
| `PumpTheorems.OutputIsNeverInvented` | apps/code-worker/cli_runtime.py:586-594 | returned stdout and stderr are prefixes of what was written, with the child's exit code, and the whole of it when that drain thread ended before its join timed out and no read raised |
| `PumpTheorems.ChunksAreTheLines` | apps/code-worker/cli_runtime.py:541-557 | on_chunk gets whole lines only, each once and in order, and all of them once the thread ended at the end of the pipe |
| `PumpTheorems.DrainsDoneMeansBoth` | apps/code-worker/cli_runtime.py:558-567 | the event is set if and only if both drain threads are past their end |
| `PumpTheorems.RaiseKillsTheChild` | apps/code-worker/cli_runtime.py:619-637 | an exception that leaves the try leaves the child exited or killed, unless the handler's last kill itself raised |
| `PumpTheorems.StartupExceptionLeaksTheChild` | apps/code-worker/cli_runtime.py:577-582 | the first heartbeat is outside the try: when it raises, the child is left running |
| `PumpTheorems.ChildIsKilledExactly` | apps/code-worker/cli_runtime.py:564-637 | with kills that go through, a run that ends in an exception with the child alive has killed it if and only if the exception came after the try was entered; otherwise an unkilled child means the first heartbeat or the handler's kill raised |
| `PumpTheorems.NoKillInTime` | apps/code-worker/cli_runtime.py:595-602 | in every interleaving in which the limit is not passed and no exception comes up the child is not killed and nothing is raised |
| `PumpTheorems.PastTheLimitNeverReturns` | apps/code-worker/cli_runtime.py:595-602 | once the limit was passed the call returns no result in any continuation |
| `PumpTheorems.DrainGoesOn` | apps/code-worker/cli_runtime.py:541-557 | a drain thread can read exactly when a newline has arrived or the closed pipe holds more, and meets the end exactly when it does not |
| `PumpTheorems.EveryOutputCanBeReturned` | apps/code-worker/cli_runtime.py:519-594 | whatever the child writes and exits with, some schedule returns all of it |
| `Pump.Pump.Collect` | apps/code-worker/cli_runtime.py:545-546 | one line appended to the shared list |
| `Pump.Pump.DrainEnds` | apps/code-worker/cli_runtime.py:564-567 | the last thread to decrement the counter sets the event |
| `Pump.Pump.PollChild` | apps/code-worker/cli_runtime.py:586-589 | an exit code starts the joins, none another round |
| `Pump.Pump.CheckClock` | apps/code-worker/cli_runtime.py:595-596 | a time strictly over the limit leads to the kill, any other one to the heartbeat, and neither touches the child yet |
| `Pump.Pump.JoinThread` | apps/code-worker/cli_runtime.py:589-591 | what a join that ended or timed out says about its drain thread |
| `Pump.Pump.KillChild` | apps/code-worker/cli_runtime.py:599-632 | the kill after a timeout; the handler's first kill, and the second one after a raise |
| `Pump.Pump.PollInHandler` | apps/code-worker/cli_runtime.py:625-630 | an exited child is left alone, a running one killed, a raising poll goes straight to the fallback kill |
| `Pump.Pump.Raise` | apps/code-worker/cli_runtime.py:580-582 | an exception before the try escapes, one inside it reaches the handler |
| `Pump.Pump.Joining` | apps/code-worker/cli_runtime.py:592-594 | joining the collected lines |
| `Pump.Pump.Finish` | apps/code-worker/cli_runtime.py:587-594 | the way out after the child's exit, from the joins to the process result |
| `Pump.Pump.HandleException` | apps/code-worker/cli_runtime.py:619-637 | the whole handler: exactly when it kills |
| `Pump.Pump.TakeStderr` | apps/code-worker/cli_runtime.py:592-594 | the process result returned, and what it promises about both pipes |
| `SessionMachine.StepInv` | apps/code-worker/session_manager.py:73-160 | every step of every caller and process keeps the invariant |
| `SessionMachine.ReadInOrder` | apps/code-worker/session_manager.py:110-146 | the next result on the pipe is that of the oldest message whose result nobody read |
| `SessionTheorems.PairingIsExact` | apps/code-worker/session_manager.py:92-154 | a successful send returns its own message's result if and only if every message written to that session before was a send that succeeded |
| `SessionTheorems.ResultsComeInTurn` | apps/code-worker/session_manager.py:103-154 | results are handed out in the order the messages were written, one to each success |
| `SessionTheorems.OneReaderAtATime` | apps/code-worker/session_manager.py:92-92 | two calls never hold the same session's lock |
| `SessionTheorems.LostForGood` | apps/code-worker/session_manager.py:104-154 | a session that lost one result gives every later sender another message's result |
| `SessionTheorems.TimeoutPoisonsTheSession` | apps/code-worker/session_manager.py:110-117 | a send that times out leaves its session running and in the dictionary, and every later sender there another message's result |
| `SessionTheorems.NextSendGetsTheFirstAnswer` | apps/code-worker/session_manager.py:110-117 | a concrete run: the first send times out, the second one succeeds with the first one's answer |
| `Sessions.SessionManager.Lookup` | apps/code-worker/session_manager.py:84-90 | a session is shared exactly when the tenant has one whose process runs |
| `Sessions.SessionManager.CreateSession` | apps/code-worker/session_manager.py:182-265 | a new session replaces the tenant's entry |
| `Sessions.SessionManager.Read` | apps/code-worker/session_manager.py:110-148 | one line: a result ends the call, releases the lock, and is the caller's own exactly when every earlier message was a send that succeeded; another line is skipped |
| `Sessions.SessionManager.AwaitResult` | apps/code-worker/session_manager.py:110-154 | the read loop returns the first result on the pipe, or fails when it runs dry |
| `Sessions.SessionManager.SendMessage` | apps/code-worker/session_manager.py:73-154 | a whole send with no other caller in between: reuse or creation, and when the response is the message's own |
| `Sessions.SessionManager.GiveUp` | apps/code-worker/session_manager.py:110-117 | a reader that times out or is cancelled frees the lock, and its session, with the message in it, stays the tenant's |
| `Sessions.SessionManager.KillAndFail` | apps/code-worker/session_manager.py:156-160 | whatever session the tenant has by then is forgotten, and the send has failed |
| `Sessions.SessionManager.BrokenRead` | apps/code-worker/session_manager.py:119-160 | a send whose read meets the end or raises: it fails, the tenant's session is forgotten, the lock is free, and the tenant's next message starts a session |
| `Sessions.SessionManager.BrokenWrite` | apps/code-worker/session_manager.py:103-160 | the same for a write that raises, whether or not the process got the message |
| `Sessions.SessionManager.KillSession` | apps/code-worker/session_manager.py:267-310 | a session stopped from outside is forgotten, and calls in flight are where they were |
| `DeviceFlow.Classify` | apps/agentprovision-core/src/auth.rs:341-380 | approved exactly on a success with a token, which it carries; each of the four protocol errors has its own reply, and polling goes on after two of them only |
| `DeviceFlow.DeviceFlow.Complete` | apps/agentprovision-core/src/auth.rs:387-414 | before poll k the client slept the interval plus five seconds for each slow_down so far; at most the ceiling of lifetime over interval polls; which reply or deadline ended it; each decoded reply reported once |
| `DeviceFlow.WaitsFollowAnswers` | apps/agentprovision-core/src/auth.rs:395-410 | the first wait is the code's interval, at least one second; each later one is the one before it, and five seconds more after a slow_down |
| `DeviceFlow.LastAnswerDecides` | apps/agentprovision-core/src/auth.rs:401-414 | the flow ends as the last answer says, expires when the deadline comes first, and went on only after slow_down and authorization_pending; each answer was reported as decoded |
| `DeviceFlow.SlowServerBound` | apps/agentprovision-core/src/auth.rs:395-413 | in a flow whose server always answers slow_down the waits before the last poll form an arithmetic series below the lifetime |
| `DeviceFlow.PatientServerCount` | apps/agentprovision-core/src/auth.rs:395-408 | the bound on polls is met exactly by a flow whose server stays pending while no time is lost |
| `DeviceFlow.DemandGrows` | apps/agentprovision-core/src/auth.rs:408-410 | the demanded wait never shrinks |
| `Toml.EscapeIsPerChar` | apps/code-worker/workflows.py:1660-1661 | the two successive replacements escape each character on its own |
| `Toml.ReadEscaped` | apps/code-worker/workflows.py:1660-1661 | a TOML basic-string reader gives back an escaped text exactly when it has no control character other than the tab, and rejects it otherwise |
| `Toml.PlainCharacters` | apps/code-worker/workflows.py:1660-1661 | which characters a basic string may hold unescaped: all but the codes below 32 other than the tab, and 127 |
| `Toml.RoundTrip` | apps/code-worker/workflows.py:1655-1657 | reading a printed inline table gives the table if and only if no key or value holds a control character; otherwise it is not TOML |
| `Toml.PrintedTablesDiffer` | apps/code-worker/workflows.py:1655-1657 | two different tables without control characters print differently |
| `Toml.RewriteOnce` | apps/code-worker/workflows.py:1627-1652 | the URL rewrite is idempotent and leaves no event-stream route behind |
| `Toml.RouteIsReplaced` | apps/code-worker/workflows.py:1627-1652 | a known host's URL that ends in /sse, with any number of slashes after it, ends in /mcp/ instead |
| `Toml.RewrittenHadTheRoute` | apps/code-worker/workflows.py:1627-1652 | every other URL is left alone |
| `FlagCache.StepInv` | apps/code-worker/tenant_feature_flags.py:56-72 | every step of every thread keeps the invariant, a slow fetch overwriting a newer entry included |
| `FlagCache.BoundedStaleness` | apps/code-worker/tenant_feature_flags.py:56-72 | flags served were fetched for the caller's tenant, by itself or by a call begun less than 60 seconds before it |
| `FlagCache.FlagStore.Lookup` | apps/code-worker/tenant_feature_flags.py:62-68 | a flag is served from the cache exactly when the tenant's entry was begun less than 60 seconds before the call, with its default; otherwise a fetch is due |
| `FlagCache.FlagStore.Remember` | apps/code-worker/tenant_feature_flags.py:69-72 | the second locked section: the call's own fetch, stamped with its beginning, replaces the entry |
| `FlagCache.FlagStore.IsEnabled` | apps/code-worker/tenant_feature_flags.py:56-72 | a whole call with no other in between: the default for no tenant, the cached flags within the minute, and otherwise the fetched ones, which the cache then holds |
| `FlagCache.FlagStore.ResetCache` | apps/code-worker/tenant_feature_flags.py:75-78 | the cache emptied under the lock |

## Left out

- HTTP, SSE, Temporal, Redis, subprocess, keychain and file-system calls themselves: each is a reply or a failure that may be anything the source allows for.
- The text classifier and redaction: an adapter's exception comes with an arbitrary status.
- Metrics, logging, reasons and other wording, run identifiers, and the RL mirror in the executor; the webhook events are kept as a trace. An unknown status beyond the ten listed cannot occur.
- Switching tenants or logging in and out while calls are in flight, a change of the persistence callback, a callback whose save fails, and the tenant and device headers, in token rotation.
- A tree that other processes change during a quota run, and the unlocking and closing of the lock file.
- The stack frames of library calls inside a removal: the room for nested calls counts those of `_safe_rm_tree` only, and running out of it strikes when such a call begins.
- `DEFAULT_BUDGET_BYTES` and its environment variable: the budget is a parameter.
- The emitter switched off for an empty session, the time stamps and raw events of chunks, the waiting time between flushes and how long a join may take: a wake or a timed-out join may come at any moment.
- Decoding and newline translation of the child's output: a pipe carries the text `readline` sees. A second exception inside the pump's own handler.
- PumpTheorems.RaiseKillsTheChild: does not promise a dead child when the handler's last `kill` raises, because the source swallows that error.
- The session cap and the eviction of the oldest session as a bound: a creation may evict any tenant's session at any time, as may the idle cleanup. Session options, message counts and time stamps. A result event whose fields have the wrong type, which fails a send after its result was taken.
- SessionTheorems.PairingIsExact: assumes one result event for each message in order, which only the agent process can promise.
- Interval overflow and the unused verification fields in the device flow.
- Toml.RoundTrip: the reader accepts quoted keys and basic strings only, which is all the printer writes; the rest of the Codex configuration (`_codex_mcp_config_lines`), whose table headers do not escape server names, is not modelled.
- Toml.RewriteOnce: which hosts count as in-cluster is a parameter; URL parsing is not modelled.
- Preflight.Redis.CheckCached: the age of a cached verdict is counted from its write, not from the probe before it.
- The review council, code tasks, fan-out workflows, configuration and desktop code, migrations and scripts: plumbing, or easy members only.
