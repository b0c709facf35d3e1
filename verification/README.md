# vcf-salt-operator in Dafny

A model of the operator that gives vSphere virtual machines their Salt keys and keeps them
converged, with proofs about every run of it. `dafny verify dfyconfig.toml` checks everything.

The heart is the VirtualMachine reconciler. All its state is in annotations, so each reconcile is
one step of a protocol that runs interleaved with tenants editing annotations, operators changing
configs and tokens, vSphere, minions, the Salt master and the clock. The proofs are about those runs.

- `Model`, `Reconcile`: the state and one reconcile as a function of what it reads. Every Salt call
  may fail and every API write may be lost, independently (`Input.lost`).
- `Controller`: the same reconcile as a class that changes annotations, finalizer, master and Secret
  step by step, with the loops of the source, proved equal to the function.
- `Turns`: what one reconcile does in each state, said from outside with the source's own numbers.
- `Consistency`, `Keyring`, `World`: what every reconcile keeps, what it does to keys, and key
  ownership for any number of VMs sharing a master.
- `History`, `LostIntent`: what the log of a run shows: pillar before highstate, spacing of scheduled runs,
  the job a VM polls and how it ended, and which intent a Ready VM was converged to.
- `Progress`, `Restarts`, `Wakeups`: one VM over time: fixpoints, termination, the amortised bound on
  re-runs, wake-ups, keys obtained once. `Lives` carries them over to runs of the whole cluster and its log.
- `Release`, `Acceptances`, `Secrecy`: release on deletion, what becomes of a lost record, Secrets.
- `Scenarios`: runs from an empty cluster that show where each of these theorems ends.
- `Intent`, `Annotations`, `Watch`: the hashed text, the operator's annotations, and the update filter.
- `Matcher`, `Enforcement`, `ClientCache`, `Scavenger`, `Enrolment`: the parts around it.
- `Text`: strings; SHA-256, case folding and number formatting are fields of a `Foreign` record,
  so every theorem holds for whatever those functions are.

## Assumptions

- Only the operator writes the annotations listed as its own; nobody else touches the key of a VM that
  records one, or the Secret of a VM that exists. Finalizers may be removed by hand.
- One reconcile is one atomic step at one instant. One master; an ID is never both pending and accepted.
  A Salt call that returns an error leaves the master unchanged. A dispatch that succeeds has a JID.
- Annotation patches and the clearing of the Secret are JSON merge patches (section 2 of RFC 7396): named
  keys change, others stay. Timestamps are RFC 3339 in whole seconds. An empty annotation is an absent one.
- VMs are fresh: a stored hash is empty or of the current version. `requeueInterval` is positive where a
  lemma says so. Label selectors, duration parsing and globs are given as answers or functions.

## Where code and documentation differ

The model follows the code.

- README.md:178-184 lists `ip` before `shifted-ip`; the code tries both in one loop
  (`Matcher.ShiftedMayOutrankIP`, and `Matcher.DocumentedOrderIff` for exactly when it matters).
- README.md:105-106 lets an intent change restart every failed VM; before the first highstate there is no
  stored hash and edits do nothing (`Progress.FailedReactsIff`).
- README.md:1009-1011 has the scavenger look at VMs in any namespace; it looks at the namespaces of Ready,
  resolvable configs with one URL (`Scavenger.OutsideTheGroup`, `Scavenger.ScavengeKeepsOwnershipIff`).
- Three lost writes break what otherwise always holds, each with its exact condition over runs and a run
  that shows it: the record of a key deletion (`World.RunOwnershipIff`, `Scenarios.OrphanTakesAKey`), the
  last patch of a preseeding (`Release.RunNamedIff`, `Scenarios.FinalizerIsStranded`), and the patch of a
  Day-2 run for a changed intent (`LostIntent.RunSureIff`, `Scenarios.LostPatchIsMissed`). The last theorem
  also names the late edit that a bootstrap chain misses (`Scenarios.LateEditIsLost`).
- While the key stays accepted, a lost record of an acceptance is made up for by a preseeding of the VM of
  that name and by nothing else (`Acceptances.LostAcceptanceIsFinalIff`).
- A deletion without a Salt client is neither retried nor reported (`Release.DeletionIsDroppedIff`), and
  interval plus jitter can overflow (`Enforcement.NeverEarlyIffFits`).

## Model

| member | source | states |
|---|---|---|
| `Controller.Reconciler.Reconcile` | internal/controller/virtualmachine_controller.go:211-246 | One reconcile of a VM, done call by call and patch by patch, leaves annotations, finalizer, master keys, Secret and call history, and returns the outcome, exactly as `ReconcileVm` specifies, for every pattern of failing calls and lost writes; the intent hash it uses is the one over all annotations of the object |
| `Controller.Reconciler.FindSaltKeyConfig` | internal/controller/virtualmachine_controller.go:1198-1217 | The loop returns the first Ready config of the team's own, failing that the first Ready enrolled one, and nothing only when none is Ready |
| `Controller.FindConfigPicks` | internal/controller/virtualmachine_controller.go:1198-1217 | The recursive choice of a config meets the same declarative preference, for every list of configs |
| `Controller.Reconciler.CreateVm` | internal/controller/virtualmachine_controller.go:248-325 | Clearing on guest signal or timeout, then key acquisition or the Salt chain, refines `ReconcileCreate` including every early return |
| `Controller.Reconciler.AcceptKey` | internal/controller/virtualmachine_controller.go:327-386 | Discovery: list, match, accept, patch, finalizer, in that order, with the timeout branches; refines `RunAcceptKey` |
| `Controller.Reconciler.MinionIdOwner` | internal/controller/virtualmachine_controller.go:465-482 | The loop finds an owner exactly when another VM records the ID, and then the first one listed |
| `Controller.Reconciler.PreseedKey` | internal/controller/virtualmachine_controller.go:388-416 | Preseed up to the key-state check refines `RunPreseedKey`: wait for a deleting owner, fail on a living one |
| `Controller.Reconciler.GenerateKey` | internal/controller/virtualmachine_controller.go:417-463 | Force only over an existing key, no pair when a key appeared in between, Secret before finalizer before annotations; refines `Generate` |
| `Controller.Reconciler.ClearKey` | internal/controller/virtualmachine_controller.go:636-654 | Clears the Secret and then marks it, only for a preseeded key not yet cleared, and touches neither finalizer nor master |
| `Controller.Reconciler.ConvergeVm` | internal/controller/virtualmachine_controller.go:311-325 | Finalizer re-added, client obtained, then the step the status names; refines `Converge` |
| `Controller.Reconciler.RunPing` | internal/controller/virtualmachine_controller.go:550-634 | Grace period, ping, 60 s retries inside ten minutes, clearing before the patch on both ends; refines the ping plan |
| `Controller.Reconciler.RunRefreshPillar` | internal/controller/virtualmachine_controller.go:706-760 | Refines the refresh plan with its retry window |
| `Controller.Reconciler.RunDispatchHighstate` | internal/controller/virtualmachine_controller.go:762-803 | Refines the dispatch plan: the hash stored is that of the intent at the dispatch |
| `Controller.Reconciler.RunPollHighstate` | internal/controller/virtualmachine_controller.go:805-867 | Refines the poll plan: done and OK, done and failed, not done, erroring, missing JID |
| `Controller.Reconciler.CheckReconvergence` | internal/controller/virtualmachine_controller.go:869-967 | The trigger logic, with its separate bulk-token patch before a scheduled run, refines the plans for Ready and failed VMs |
| `Controller.Reconciler.RestartChain` | internal/controller/virtualmachine_controller.go:932-954 | A triggered failed VM goes back to the start in one patch that records all triggers as handled |
| `Controller.Reconciler.RunDay2` | internal/controller/virtualmachine_controller.go:969-1032 | Refresh and dispatch in one reconcile; the markers of the run are written on each of its three ends |
| `Controller.Reconciler.DeleteVm` | internal/controller/virtualmachine_controller.go:1140-1177 | Deletion of the key, its record (whose loss is ignored) and the finalizer refine `ReconcileDelete` |
| `Controller.BulkComesFirst` | internal/controller/virtualmachine_controller.go:901-920 | Recording a bulk token and then carrying on is the same as the one turn that names the token, whether or not the write is lost |
| `Turns.KeyIsClearedIff` | internal/controller/virtualmachine_controller.go:259-268 | A preseeded key is cleared exactly when the guest has signalled, the VM's time since creation is up, or this reconcile's ping was answered or missed ten minutes or more after the acceptance; until then its Secret is left as it is |
| `Turns.SecretIsLeftAlone` | internal/controller/virtualmachine_controller.go:636-654 | Before that no reconcile touches the Secret, whatever fails or is lost |
| `Turns.PingTurn` | internal/controller/virtualmachine_controller.go:550-634 | No ping inside 30 s of the acceptance; an unanswered one inside ten minutes changes nothing and is retried after 60 s; Failed/Ping exactly for an unanswered one from then on; Pinged exactly for an answered one |
| `Turns.RefreshTurn` | internal/controller/virtualmachine_controller.go:706-760 | The same window for the refresh: changed status, requeue and call in each case |
| `Turns.DispatchTurn` | internal/controller/virtualmachine_controller.go:762-803 | Stores the job the dispatch returned and the hash of the intent of that moment, or fails |
| `Turns.PollTurn` | internal/controller/virtualmachine_controller.go:805-867 | Ready exactly on a highstate that succeeded; Failed/Highstate with exactly its failed states and no requeue exactly on one that did not; otherwise unchanged |
| `Turns.ReadyReactsIff` | internal/controller/virtualmachine_controller.go:895-966 | A healthy VM runs again exactly when its intent differs from the stored one, a new retry request is there, or interval plus jitter is over; a new bulk token alone is recorded and makes no call; what a run calls and writes, with the job of its own dispatch |
| `Turns.FailedTurn` | internal/controller/virtualmachine_controller.go:880-954 | A failed VM starts over exactly on a new request, a new token or an intent other than a stored one, in one patch that handles all of them |
| `Turns.BootTurn` | internal/controller/virtualmachine_controller.go:284-309 | A preseeded VM is accepted exactly when it is up and given up exactly when its time is up before that, without a call |
| `Turns.DiscoveryTurn` | internal/controller/virtualmachine_controller.go:327-386 | Once the VM is up the match the rules give is accepted with its own pair and recorded with method and time; without one the key fails exactly once the time is up |
| `Turns.HeldNameTurn` | internal/controller/virtualmachine_controller.go:397-414 | Under a name another VM records: wait while that VM is being deleted, fail otherwise, and call nothing |
| `Turns.PreseedTurn` | internal/controller/virtualmachine_controller.go:416-463 | Under a free name the generated pair becomes the accepted key of exactly that name and the content of the VM's Secret, with the master's key |
| `Turns.ForeignKeyTurn` | internal/controller/virtualmachine_controller.go:416-436 | A key that reached the master after the check is not overwritten |
| `Turns.DeletionTurn` | internal/controller/virtualmachine_controller.go:1140-1196 | Deletes the VM's own key and no other, records how that went, drops the finalizer, and does not delete twice |
| `Turns.IdleTurn` | internal/controller/virtualmachine_controller.go:211-246 | Unmanaged, unconfigured and unselected VMs are left alone, and only a failed listing is an error |
| `Consistency.ReconcileKeepsConsistency` | internal/controller/virtualmachine_controller.go:211-1196 | Whatever a reconcile is told and whichever writes are lost, it keeps: ready iff salt-status is Ready; HighstateDispatched has a JID and is InProgress; dispatched, Ready and Failed/Highstate have a hash; Accepted has minion ID and time; a started chain of a preseeded VM has its key cleared |
| `Consistency.PlanKeeps` | internal/controller/virtualmachine_controller.go:538-1093 | Every turn of the chain writes annotations that satisfy that invariant |
| `Consistency.ClearKeeps` | internal/controller/virtualmachine_controller.go:636-654 | Clearing changes the mark only, and a success leaves a preseeded key marked cleared |
| `Keyring.ReconcileKeyEffect` | internal/controller/virtualmachine_controller.go:327-519 | A reconcile does one of three things to the master: nothing, obtain one key for a VM that has none and may have it, or remove the VM's own key |
| `Keyring.ReconcileKeepsSecretFresh` | internal/controller/virtualmachine_controller.go:484-519 | Every reconcile keeps: a preseeded VM not being deleted has its own Secret, which is cleared or holds exactly the pair accepted on the master, and is cleared once marked so |
| `Keyring.ConvergeChainOnly` | internal/controller/virtualmachine_controller.go:538-1093 | The Salt chain never touches keys or the key part of the annotations |
| `World.StepKeepsInv` | internal/controller/virtualmachine_controller.go:211-1196 | Reconciles, new VMs, edits, hand-removed finalizers, foreign key changes, garbage collection and time all keep the ownership invariant |
| `World.RunKeepsInv` | internal/controller/virtualmachine_controller.go:211-1196 | So does every run of any length over any number of VMs |
| `World.KeyOwnership` | internal/controller/virtualmachine_controller.go:327-482 | In every state of every run: two VMs never record the same live key, every recorded live key is accepted on the master, and the next reconcile of any VM, in either mode, leaves all other live VMs' keys as they are |
| `World.ReconcileSparesOthers` | internal/controller/virtualmachine_controller.go:1140-1177 | Acquisition and deletion change no key another live VM records |
| `World.OwnershipIffNotOrphaned` | internal/controller/virtualmachine_controller.go:1155-1176 | A reconcile keeps ownership exactly when it does not delete a key, lose the record of it, and leave the VM in place |
| `World.RunOwnershipIff` | internal/controller/virtualmachine_controller.go:1155-1176 | Of all possible runs, those that keep ownership in every state are exactly those without such a reconcile |
| `Scenarios.OrphanTakesAKey` | internal/controller/virtualmachine_controller.go:1140-1177 | What that one lost write leads to: a run from an empty cluster whose last step, the first VM's deletion resumed, removes the key a second, living VM records |
| `History.ScheduledRunsAreSpaced` | internal/controller/virtualmachine_controller.go:829-840 | In every run a purely scheduled run starts at least interval plus jitter after the recorded completion, hence more than interval minus one second after the real one, when interval plus jitter fits 64 bits |
| `History.PillarBeforeHighstate` | internal/controller/virtualmachine_controller.go:550-572 | In every run each dispatch is preceded by a successful refresh of that minion with no reset, new run or completed highstate in between, and in a bootstrap chain by a ping before that refresh |
| `History.PollsAskForTheLastJob` | internal/controller/virtualmachine_controller.go:805-823 | In every run every poll asks for the job that the last successful dispatch of that VM returned, on the same minion |
| `History.ReadyMeansSuccess` | internal/controller/virtualmachine_controller.go:825-866 | In every state of every run the last completed highstate of a Ready VM succeeded and that of one in Failed/Highstate failed with exactly the states it records |
| `History.FailedPingsAreLate` | internal/controller/virtualmachine_controller.go:601-622 | In every state of every run a VM in Failed/Ping has an unanswered ping in its log ten minutes or more after its acceptance |
| `History.FailedRefreshesAreLate` | internal/controller/virtualmachine_controller.go:733-751 | And one in Failed/PillarRefresh a failed refresh that late, or one of a Day-2 run |
| `History.RunsAreOrderly` | internal/controller/virtualmachine_controller.go:538-1093 | Every call in the log of every run was due when made, and annotations agree with the log in every state |
| `History.ReconcileTracked` | internal/controller/virtualmachine_controller.go:538-1093 | One reconcile makes only calls that are due and keeps annotations and past in agreement, even when its patch is lost |
| `LostIntent.NoLostIntent` | internal/controller/virtualmachine_controller.go:958-1025 | From any state in which the VM is not in doubt, whatever else is edited or lost, as long as no edit falls between refresh and dispatch and no Day-2 run for a changed intent loses its patch: a Ready VM whose stored hash is its current one had that intent at its last pillar refresh |
| `LostIntent.NoIntentLostInRun` | internal/controller/virtualmachine_controller.go:958-1025 | The same for whole runs from an empty cluster |
| `LostIntent.RunSureIff` | internal/controller/virtualmachine_controller.go:706-796 | Over every run the annotations can be trusted about the pillar in all states if and only if none of those two kinds of step occurs |
| `LostIntent.ReconcileSureIff` | internal/controller/virtualmachine_controller.go:982-1025 | One reconcile, exactly: trust is kept unless a Day-2 run for a changed intent refreshes the pillar and loses its patch |
| `LostIntent.Day2IsSure` | internal/controller/virtualmachine_controller.go:969-1025 | A Day-2 run whose dispatch is recorded restores trust, whatever happened before |
| `Scenarios.LateEditIsLost` | internal/controller/virtualmachine_controller.go:706-796 | For any two intents, a run from an empty cluster with no failure at all that ends Ready on the second one's hash with the first one's pillar |
| `Scenarios.LostPatchIsMissed` | internal/controller/virtualmachine_controller.go:1015-1025 | For any two intents of different hash, a run that loses one Day-2 patch and ends Ready on the hash of the current intent with the other one's pillar |
| `LostIntent.EqualHashIsEqualIntent` | internal/controller/virtualmachine_controller.go:1095-1114 | With a collision-free digest and separator-free annotations equal hashes mean equal intents |
| `Progress.FailedIsFixpoint` | internal/controller/virtualmachine_controller.go:880-921 | From a failed state with no unhandled trigger, any number of reconciles at any time and under any enforcement interval change nothing anywhere and call Salt not once |
| `Progress.FailedReactsIff` | internal/controller/virtualmachine_controller.go:882-954 | An error-free reconcile restarts a failed VM if and only if a retry request or bulk token is unhandled, or the intent differs from a stored hash; without a stored hash edits do nothing |
| `Progress.ChainTerminates` | internal/controller/virtualmachine_controller.go:538-867 | With nothing asked for, an accepted VM is Ready or failed after four reconciles plus one per stalled one, whatever is edited in between, and stays there |
| `Progress.ActAdvances` | internal/controller/virtualmachine_controller.go:538-867 | A rank on salt-status never rises and falls at every reconcile that is not stalled |
| `Restarts.RerunsArePaidFor` | internal/controller/virtualmachine_controller.go:869-967 | Over every sequence of edits and reconciles of a VM, chain resets and unscheduled Day-2 runs plus what is still owed never exceed what was owed plus the changes to intent, retry request and token, plus reconciles that lost a write |
| `Lives.RunIsMoves` | internal/controller/virtualmachine_controller.go:211-246 | A run of the whole cluster is, for each VM that lives through it, a proper sequence of its moves with the same end and exactly the calls the log gained |
| `Lives.SameUidSurvives` | internal/controller/virtualmachine_controller.go:211-246 | A VM with the same UID at both ends of a run was there all along |
| `Lives.RerunsInLog` | internal/controller/virtualmachine_controller.go:869-967 | The amortised bound on the log of every run, with the credit counted over the run's own steps |
| `Lives.LifetimeReruns` | internal/controller/virtualmachine_controller.go:869-967 | Over the whole life of a VM, at most two more re-runs than were asked for since it appeared |
| `Lives.FailedStaysInRun` | internal/controller/virtualmachine_controller.go:880-921 | In every run a failed VM that nothing triggers keeps its annotations and its log gains no call |
| `Lives.ChainEndsInRun` | internal/controller/virtualmachine_controller.go:538-867 | In every run four reconciles of a calm VM plus the stalled ones end its chain |
| `Lives.KeyObtainedOnceInLog` | internal/controller/virtualmachine_controller.go:269-309 | In every run, after a VM records a key its log holds no further acceptance or generation, and the minion ID stays |
| `Lives.StrandedInRun` | internal/controller/virtualmachine_controller.go:1147-1150 | In every run a stranded VM stays as it is unless its finalizer is taken away by hand |
| `Restarts.MovePaid` | internal/controller/virtualmachine_controller.go:994-1027 | Each edit or reconcile pays for the re-runs it causes out of the potential hash≠intent, request≠handled, token≠handled |
| `Wakeups.WaitingIsWoken` | internal/controller/virtualmachine_controller.go:248-325 | Every error-free reconcile that leaves the VM waiting for its key, its boot or its chain asks to be called again after a positive time |
| `Wakeups.NobodyWaitsForever` | internal/controller/virtualmachine_controller.go:1224-1226 | The same in every reachable state of every run, where nothing but that timer need wake the VM |
| `Wakeups.ReadyIsScheduled` | internal/controller/virtualmachine_controller.go:915-921 | A Ready VM under an interval that fits either starts a run or is called again at exactly last completion plus interval plus jitter |
| `Release.DeletedVmIsReleasedIff` | internal/controller/virtualmachine_controller.go:1140-1196 | A deleting VM loses its finalizer exactly when it records a minion ID, a client is at hand or nothing is left to delete, and the patch lands |
| `Release.DeletionIsDroppedIff` | internal/controller/virtualmachine_controller.go:1140-1196 | A deletion that keeps the finalizer neither fails nor asks for a requeue exactly when the VM is unmanaged, has no Ready config, records no minion ID, or has a key to delete and no client |
| `Release.FinalizerNamedIff` | internal/controller/virtualmachine_controller.go:444-456 | A reconcile keeps finalizers with a minion ID exactly when it does not lose the last patch of a preseeding |
| `Release.RunNamedIff` | internal/controller/virtualmachine_controller.go:444-456 | Over every run, every finalizer comes with a minion ID in all states if and only if that write is never lost |
| `Release.DeletingVmIsLetGo` | internal/controller/virtualmachine_controller.go:1140-1196 | In every run without that loss, a managed VM being deleted is let go by the first reconcile with a Ready config and a client whose finalizer patch lands |
| `Release.StrandedForever` | internal/controller/virtualmachine_controller.go:1147-1150 | A deleting VM without a minion ID is never changed by any later reconcile |
| `Scenarios.FinalizerIsStranded` | internal/controller/virtualmachine_controller.go:444-456 | A run from an empty cluster that ends with a VM being deleted under the finalizer without a minion ID, its key still accepted |
| `Acceptances.AcceptanceIsRecordedIff` | internal/controller/virtualmachine_controller.go:345-355 | An accepted key is recorded exactly when the patch lands, and is accepted either way |
| `Acceptances.AcceptedIdIsRecordedIff` | internal/controller/virtualmachine_controller.go:388-463 | A reconcile records an ID that is already accepted if and only if it is a complete preseeding of the VM of that name |
| `Acceptances.LostAcceptanceIsFinalIff` | internal/controller/virtualmachine_controller.go:345-355 | Over every run in which the key stays accepted, a VM whose record was lost comes to record it if and only if such a preseeding occurs |
| `Acceptances.DiscoveryNeverRecordsIt` | internal/controller/virtualmachine_controller.go:327-386 | So under discovery configs it never does |
| `Acceptances.PingsWaitForTheMinion` | internal/controller/virtualmachine_controller.go:550-572 | In the log of every run no ping of a VM comes before its recorded acceptance plus 30 s |
| `Wakeups.KeyIsObtainedOnce` | internal/controller/virtualmachine_controller.go:269-309 | From the moment a VM records a key, no later reconcile under any change of mode accepts or generates another, and the minion ID stays |
| `Wakeups.ActObtainsNothing` | internal/controller/virtualmachine_controller.go:550-572 | A reconcile of a VM with a key obtains none, and pings only from accepted-at plus 30 s on |
| `Wakeups.PreseededIsWritten` | internal/controller/virtualmachine_controller.go:429-456 | The reconcile that marks a VM Preseeded leaves its Secret holding exactly the pair the master accepted |
| `Secrecy.PreseededHasItsSecret` | internal/controller/virtualmachine_controller.go:429-519 | In every state of every run a VM that was preseeded and is not being deleted has its own Secret, either cleared or holding exactly the pair accepted on the master for it |
| `Secrecy.HeldUntilCleared` | internal/controller/virtualmachine_controller.go:259-268 | In every run, from its preseeding until the first reconcile in which clearing is due, a VM has in its Secret exactly the pair the master accepted |
| `Secrecy.ClearedForGood` | internal/controller/virtualmachine_controller.go:636-704 | Once marked key-cleared, in every later state of every run the mark is there and the Secret holds no key |
| `Secrecy.ReconcileKeepsCleared` | internal/controller/virtualmachine_controller.go:636-654 | No reconcile takes the mark back |
| `Intent.ComputePreimage` | internal/controller/virtualmachine_controller.go:1095-1111 | Whatever order the map is enumerated in, the loop writes the one canonical text |
| `Intent.ComputeIntentHash` | internal/controller/virtualmachine_controller.go:1095-1114 | The hash is that of the canonical text |
| `Intent.AscendingIsUnique` | internal/controller/virtualmachine_controller.go:1096-1103 | Any sorted, repetition-free listing of the keys is the same listing |
| `Intent.PreimageOfIntent` | internal/controller/virtualmachine_controller.go:1095-1114 | The text depends on the tenant's intent annotations alone |
| `Intent.OperatorWritesKeepIntent` | internal/controller/virtualmachine_controller.go:123-141 | No write to a non-intent annotation changes intent or text |
| `Intent.IntentChangesIff` | internal/controller/virtualmachine_controller.go:123-141 | Setting an annotation changes the intent exactly when it has the operator's prefix, is none of the sixteen exceptions, and the value is new |
| `Intent.ParsePreimage` | internal/controller/virtualmachine_controller.go:1105-1111 | The text of an intent with no '=' in keys and no newline in values parses back to its entries |
| `Intent.PreimageIsInjective` | internal/controller/virtualmachine_controller.go:1105-1111 | On such intents the text is injective |
| `Intent.NewlinesCollide` | internal/controller/virtualmachine_controller.go:1105-1111 | With newlines allowed, every intent of two or more annotations shares its text with another |
| `Annotations.HashIgnoresMarks` | internal/controller/virtualmachine_controller.go:1095-1103 | The hash over all annotations is the hash over the tenant's, whatever the operator has written |
| `Annotations.MarksReadBack` | internal/controller/virtualmachine_controller.go:69-121 | Reading the annotations the operator wrote, beside the tenant's, gives back its whole state but the list of failed states, which it never reads |
| `Watch.WithoutOwnWrites` | internal/controller/virtualmachine_controller.go:1247-1275 | The two loops compute the object without operator annotations, backup annotations and backup conditions; an emptied condition list disappears, an emptied annotation map does not |
| `Watch.OwnWritesOnly` | internal/controller/virtualmachine_controller.go:1238-1245 | Drops an update exactly when both are VirtualMachines that agree after that |
| `Watch.BackupsDoNotMatter` | internal/controller/virtualmachine_controller.go:656-686 | First-match and any-match searches over conditions survive the removal of backup conditions |
| `Watch.DroppedAgree` | internal/controller/virtualmachine_controller.go:1238-1275 | A dropped update leaves intent, retry request, managed flag, labels, finalizers, deletion, power, address, guest signal and creation time as they were |
| `Watch.DroppedIsHarmless` | internal/controller/virtualmachine_controller.go:1224-1226 | A dropped update makes no difference: from any state and with any answers, every reconcile does to the new object exactly what it would have done to the old one |
| `Watch.OwnWriteIsDroppedIff` | internal/controller/virtualmachine_controller.go:1350-1363 | The update an operator write causes is dropped if and only if the VM had annotations and the write left the finalizer alone |
| `Watch.AnnotationIsDroppedIff` | internal/controller/virtualmachine_controller.go:1247-1259 | An update that sets one annotation is dropped exactly when it is the operator's, one of the two of the backup service, or no change |
| `Watch.ConditionIsDroppedIff` | internal/controller/virtualmachine_controller.go:1261-1273 | An update that adds a condition anywhere is dropped exactly when it is the backup service's |
| `Watch.CreatedAtIsFirst` | internal/controller/virtualmachine_controller.go:671-686 | The creation time is that of the first condition that says the VM was created, or none |
| `Enforcement.Jitter` | internal/controller/virtualmachine_controller.go:1389-1396 | The delay is zero or below a tenth of the interval |
| `Enforcement.JitterSpreads` | internal/controller/virtualmachine_controller.go:1389-1396 | Every delay below a tenth of the interval occurs, and digests share one exactly as their remainders do |
| `Enforcement.WaitIsExact` | internal/controller/virtualmachine_controller.go:1380-1386 | Not due with wait w means w > 0 and due from exactly now + w on |
| `Enforcement.WaitEnds` | internal/controller/virtualmachine_controller.go:1380-1386 | The wait ends at last completion plus interval plus jitter |
| `Enforcement.NeverEarlyIffFits` | internal/controller/virtualmachine_controller.go:1381-1385 | No run is due before the interval is over, for all instants, if and only if interval plus jitter fits 64 bits |
| `Enforcement.OrdinaryIntervalsFit` | internal/controller/virtualmachine_controller.go:1389-1396 | Intervals below ten elevenths of the range always fit |
| `ClientCache.SaltClientCache.Get` | internal/controller/virtualmachine_controller.go:164-176 | Serves the entry only for the same resourceVersion and up to its expiry, and evicts it otherwise |
| `ClientCache.SaltClientCache.Set` | internal/controller/virtualmachine_controller.go:178-186 | Afterwards a look-up serves this client for exactly this resourceVersion and exactly until 20 minutes later, and look-ups of other configs answer as before |
| `ClientCache.SaltClientCache.ClientFor` | internal/controller/virtualmachine_controller.go:1324-1348 | An undisturbed call fails exactly when nothing fresh is cached and resolving or logging in fails, returns a client built for that version, and leaves other entries alone |
| `ClientCache.ServedClientIsCurrent` | internal/controller/virtualmachine_controller.go:153-186 | Under every interleaving of any number of reconciles a served client was built for the asked config and resourceVersion, from what the cluster said for it, and was stored at most 20 minutes before |
| `ClientCache.NextKeepsSound` | internal/controller/virtualmachine_controller.go:1324-1348 | Each look-up, resolution, login and store keeps that, also when an older reconcile stores after a newer one |
| `Scavenger.GroupConfigs` | cmd/scavenger/main.go:135-154 | One group per URL, with the namespaces of all usable configs of that URL in order and the connection of the first |
| `Scavenger.EachConfigInOneGroup` | cmd/scavenger/main.go:135-154 | Every Ready, resolvable config is in exactly one group and nothing else is in any |
| `Scavenger.LiveMinionIds` | cmd/scavenger/main.go:259-277 | The non-empty minion IDs recorded in a namespace |
| `Scavenger.MatchesAny` | cmd/scavenger/main.go:240-247 | True exactly when some pattern matches |
| `Scavenger.CollectLive` | cmd/scavenger/main.go:195-205 | The union over the group's namespaces, or nothing as soon as one listing fails |
| `Scavenger.DeleteStale` | cmd/scavenger/main.go:207-228 | Attempts exactly the accepted keys that are neither live nor excluded, none in a dry run; live + excluded + stale is the number accepted and deleted ≤ stale |
| `Scavenger.ScavengeGroup` | cmd/scavenger/main.go:164-238 | The same for the group as a whole; a failed login, key list or VM listing attempts nothing |
| `Scavenger.Scavenge` | cmd/scavenger/main.go:120-162 | Every group is treated on its own: what happens at one URL depends neither on the other groups nor on their order |
| `Scavenger.ScavengeKeepsOwnershipIff` | cmd/scavenger/main.go:207-228 | A scavenge keeps key ownership, and is a legal step of every run theorem, if and only if every key a live VM records is in the group's live set, excluded, or not deleted |
| `Scavenger.CoveredIsGuarded` | cmd/scavenger/main.go:195-205 | It is enough that every live VM is in one of the group's namespaces |
| `Scavenger.OutsideTheGroup` | cmd/scavenger/main.go:135-154 | Two configs for one URL, one not Ready, form a group under which a VM of the second namespace loses the key it records |
| `Enrolment.Matches` | internal/controller/enrolment_controller.go:48-58 | True exactly when no non-empty excluded prefix applies and the name, the all flag or a non-empty selector enrols the namespace |
| `Enrolment.EnrolmentReconciler.Reconcile` | internal/controller/enrolment_controller.go:67-138 | One reconcile makes the one change `Reconciled` specifies, or none; it fails exactly when the look-up, the listing or the write it needs fails, and a deletion or creation somebody else made first is no failure |
| `Enrolment.TeamIsKept` | internal/controller/enrolment_controller.go:67-138 | No reconcile under any settings deletes, changes, adds or reorders an unlabelled config |
| `Enrolment.OneStepCloser` | internal/controller/enrolment_controller.go:89-137 | Each reconcile is exactly one step closer to the goal and changes nothing only at the goal |
| `Enrolment.EnrolmentConverges` | internal/controller/enrolment_controller.go:67-138 | From any configs and with any failures in between, exactly the Distance-th success reaches one operator config where the namespace is enrolled and has none of its own, and none elsewhere, and it stays so |
| `Enrolment.Cluster.ReleaseEnrolled` | internal/controller/enrolment_controller.go:140-156 | Deletes by name up to the first refusal, counts exactly the configs it found there, leaves every unlabelled config alone while the listing is true, and leaves no labelled one when it is complete and nothing is refused |
| `Matcher.FindMinionID` | pkg/salt/matcher.go:24-49 | Three loops that return the earliest key of the highest non-empty tier, labelled with a rule it satisfies, and none only when no key satisfies any rule |
| `Matcher.MatchIsUnique` | pkg/salt/matcher.go:24-49 | The tiered specification has one answer |
| `Matcher.SearchIsMatch` | pkg/salt/matcher.go:24-49 | The functional form used by the reconcile meets it too |
| `Matcher.MatchIsListed` | pkg/salt/matcher.go:24-49 | For a named VM a match is a listed, non-empty ID |
| `Matcher.ShiftedMayOutrankIP` | pkg/salt/matcher.go:33-40 | Either address wins when it is listed first |
| `Matcher.DocumentedOrderIff` | pkg/salt/matcher.go:33-40 | The result follows the documented order of the four strategies if and only if it is not the case that no key has the name and the rotated address is listed before the plain one |
| `Matcher.ShiftFirstOctet` | pkg/salt/matcher.go:51-69 | The loop rotates exactly the strings of four octets and maps all others to the empty string |
| `Matcher.ShiftRotates` | pkg/salt/matcher.go:51-69 | A dotted quad rotates to a dotted quad, one place on |
| `Matcher.FourShifts` | pkg/salt/matcher.go:51-69 | Four rotations of any dotted quad give it back |

## Left out

- Adoption of hashes stored by older versions: a one-off upgrade path.
- The RaaS client (HTTP, JSON, login, polling) and connection resolution: only their answers appear.
- The SaltKeyConfig controller and its validation, and the VMs a config change enqueues: easy lookups.
- Kubernetes events, log lines and the master-silence message: they change no state.
- Concurrency inside one reconcile: tenant edits fall between reconciles, never between two of its patches;
  only the client cache is modelled at the grain of its lock.
- Several masters: groups of the scavenger have their own, the reconciler's world has one.
- Denied keys: a key in that state alone counts as no key, as in the source's `force` test.
- Scavenger.Scavenge: does not model the ten-minute limit on the whole run.
