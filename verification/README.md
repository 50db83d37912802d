# A verified model of the LocalStorage protocol

The CSI driver keeps one `LocalStorage` object per node in the Kubernetes API server. It records which
storage backend the node uses, in what phase it is, how many bytes it has and has left, and which volumes
live on it. Four parties write that object without talking to each other: users through the admission
webhooks, the central controller, the node plugin's reconcile loop, and the CSI calls `CreateVolume` and
`DeleteVolume`. All but the webhooks work from a copy in an informer cache that may be arbitrarily old.

This project models that protocol as a state machine, proves that every interleaving of it is a run of a
simple atomic ledger, and proves what the ledger keeps. It also models the code below the protocol (slices
shifted in place, quantities changed through pointers, deep copies, work queues, the scheduler extender
and the file-backed volume store) and ties it to the functions the protocol is made of.

## Layout

| file | what it holds |
|---|---|
| `Types.dfy` | the stored object, its spec, status and phases |
| `Volumes.dfy` | the volume list: `AddVolume`, the deletion loop, and what "remove this ID" means |
| `Admission.dfy` | mutating and validating webhooks, and the write-once relation they implement |
| `Ledger.dfy` | the atomic machine: one act per commit, all past stores kept; version and life-cycle lemmas |
| `Accounting.dfy` | conservation, no overcommit, exactly-once accounting, order of the list |
| `Workqueue.dfy` | the rate-limited queue, with active and delayed entries, and `handleErr` |
| `Reconcile.dfy` | the decisions of `sync` and `syncStorage`, the edits of the two CSI calls |
| `Protocol.dfy` | the whole system: API server, plugins, controller, users, crashes, lost replies and late updates |
| `Promises.dfy` | what each call promises its caller, in terms of requests, copies and stores alone |
| `Refinement.dfy` | every protocol step commits at most one atomic ledger act |
| `CrashOrdering.dfy` | directories against the ledger, and exactly when a volume loses its directory |
| `Ownership.dfy` | which plugin writes which object, and exactly when it is another node's |
| `Convergence.dfy` | nothing is forgotten; quiet states are converged; racing initiators |
| `Termination.dfy` | a potential that phase writes use up; exactly when an object leaves Terminating; termination is absorbing |
| `Theorems.dfy` | the main results for every run from an empty cluster; repeated deletion |
| `Scenarios.dfy` | concrete runs that break a property when its hypothesis is missing |
| `ApiServer.dfy`, `Nodes.dfy` | the store as clients see it; finding and creating the objects of nodes |
| `Scheduler.dfy` | `Filter` and `Score` |
| `Heap.dfy` | the object as Go holds it: pointers, slices over shared arrays, `DeepCopy` |
| `Driver.dfy` | the components as they run: edit a deep copy in place, send it, drive the queue |
| `VolumeStore.dfy` | the file-backed map |

`dafny verify dfyconfig.toml` checks everything.

## How the system is modelled

- **Runs.** `Protocol.Next` is total: a step that cannot be taken leaves the state as it is. So every
  `seq<Step>` is a run, and a theorem about `Run(Start(nodes), steps)` speaks of all interleavings.
- **API server.** A resource version is the index of the commit that wrote the object. `Update` passes both
  webhooks, then compares resource versions. As in Kubernetes, an update that changes nothing succeeds
  without a new version, and a marked object whose last finalizer goes is erased. The history keeps every
  past store and a log that names the writer and the act; nothing in the protocol reads the log except the
  event handlers, which need the name of the changed object.
- **Caches.** `seen` is the revision the lister shows, `told` the last revision whose event the handlers
  got; `told` lags `seen`, and both lag the store by any amount. Handlers hear one event after the other
  (`Hear`), or, after an interrupted watch, a whole list in place of the events in between (`HearList`).
- **CSI calls.** `CreateVolume` is a step that makes the directory, then a step that sends the update;
  `DeleteVolume` is the reading of a copy, the update, and the removal of the directory. A crash
  (`Restart`) may come between any two, and a directory call may fail with or without its effect. The
  plugin's lock is the single `op` field.
- **Updates.** Every update, of a CSI call, the plugin or the controller, may be answered, be committed
  while its answer is lost, never be sent, or stay in flight: then its sender sees a failure, may go on or
  crash, and the update arrives at any later time (`Land`) or never. Updates in flight are a set; two equal
  ones count once, since the first to be committed makes the second one stale.
- **Queues.** A key has at most one active and one delayed entry, as in client-go's rate-limited queue: a
  retry waits in `delayed` until `Fire`, and an event meanwhile adds an active entry of its own. `Get` takes
  an active entry, and the key stays in the worker's hands (`work`), where it can be added again, until the
  worker is done with it. `NumRequeues` counts the rate-limited adds since the last `Forget`.
- **Controller.** Several workers, one key each at a time.
- **Promises.** The methods in `Driver.dfy` are tied to functions that the protocol shares, and also to
  predicates of `Promises.dfy` that say, without these functions, when a call succeeds, which answer it gives
  otherwise and what is stored. They speak of every copy that is `Genuine`: sound, and equal to what is stored
  if it carries the stored resource version. Every copy that a lister of any run shows is
  (`Theorems.EveryCopyIsGenuine`).

## Assumptions

- A lister shows a past committed store; `Update` is compare-and-swap on the resource version.
- Admission lists the current store, atomically with the create it admits. Without that, uniqueness fails
  (`Admission.StaleListBreaksUnique`).
- Creates arrive with an empty status. Users edit only spec and metadata.
- Volume IDs are fresh UUIDs, requested sizes are at least 0, IDs map to distinct paths below the volume
  directory. `AddVolume` skips a duplicate ID while Allocatable is still reduced, so freshness matters. The
  IDs in `DeleteVolume` requests are plain file names too: with "." the call would remove the base directory.
- `DeleteVolume` is not called with the ID of a create that is in flight and would still be accepted.
  `CreateVolume` makes a new ID on every call and returns it only on success, so no caller has been told
  such an ID. Only the theorems about directories need this (`CrashOrdering.Informed`).
- The scheduler passes node names to `Filter` and `Score`, which dereference the list without looking.
- Quantities are exact integers. The node-size annotation is absent, malformed, or a number of bytes.
- `calculateAllocatedSize` on a nil Allocatable panics before the update. `CreateVolume` has already made
  the directory by then, and the model keeps it.

## What the code does not do

Each of these comes with its exact condition, and all but the last with a run from an empty cluster or an
input that shows it.

- **Conservation is not unconditional.** `sync` does not look at the phase again when it rewrites Capacity
  and Allocatable (`pkg/localstorage/localstorage.go:158-195`); only the informer filter does, when the key
  is queued. A key queued during initialisation and synced after volumes exist resets Allocatable
  (`Scenarios.ConservationCanFail`). `Accounting.DriftIsStandingAtReady` gives the exact amount,
  `Accounting.ConservedIff` the exact condition.
- **Creates can overcommit.** `CreateVolume` does not compare the size with Allocatable
  (`Scenarios.OvercommitCanHappen`). An object has been within its capacity all its life if and only if each
  commit in its life met its guard: a create fits into Allocatable and into what the capacity leaves, a
  delete gives back no more than the capacity leaves, and a new size holds the volumes that stand there
  (`Accounting.NoOvercommitIff`). Without drift the first of these is enough, with sizes of at least 0
  (`Accounting.NoOvercommitWithoutDriftIff`), and what `Filter` admits against the replaced version meets it;
  with drift it is not (`Scenarios.AffordableIsNotEnough`).
- **Termination can be undone.** `sync` does not look at the deletion mark, so a key left in the queue, or
  queued by a restart with an old list, takes a Terminating object back to Ready
  (`Scenarios.TerminationCanBeUndone`). That happens if and only if a sync of the current version is
  delivered (`Termination.LeavesTerminatingIff`).
- **A plugin can write another node's object.** `sync` does not look at the node of the copy it has read. A
  key queued for an object that is then deleted and created again for another node makes the old node's
  plugin write the new object (`Scenarios.ForeignWriteCanHappen`). A write is foreign if and only if it is a
  sync whose copy is bound to another node (`Ownership.ForeignWriteIff`); volume writes never are.
- **`Score` can leave 0..100**, after drift and a delete (`Scenarios.ScoreCanLeaveRange`). With a positive
  capacity it is in range if and only if -Capacity < 100 Allocatable < 101 Capacity; with a negative one, which
  a negative node size gives, if and only if 101 Capacity < 100 Allocatable < -Capacity; with none the result
  is whatever the platform makes of a quotient that is infinite or no number (`Scheduler.ScoreRangeIff`). A
  negative capacity also turns the order of scores round.
- **A ledger volume can lose its directory** if `DeleteVolume` is called with the ID of a create that is still
  in flight and would be accepted (`Scenarios.DirectoryCanBeMissing`); `CrashOrdering.LosesDirectoryIff` is the
  exact condition, and `CrashOrdering.LandedBeforeRemoval` says how a directory under a ledger volume comes to
  be removed.
- **`RemoveVolume` does not always remove the ID.** Its comment says it removes the ID if present, but the
  loop does not step back after a deletion, so of two neighbours with that ID one stays
  (`Volumes.RemoveVolumeCanLeaveOne`). `Volumes.RemoveVolumeIsFilterIff` is the exact condition; on every
  committed list it holds.
- **`CreateVolume` panics without Allocatable** after it has made the directory, which stays behind
  (`Scenarios.OrphanDirectoryCanRemain`); from a current copy it gets through if and only if Allocatable is set
  (`Theorems.CreateSucceedsIff`).
- **`DeleteVolume` panics without Allocatable**, also for an unknown ID; from a current copy it gets through
  if and only if Allocatable is set (`Theorems.DeleteSucceedsIff`).

## Model

| member | source | states |
|---|---|---|
| Refinement.StaleReadsAreHarmless | pkg/localstorage/controllerserver.go:56-127 | For every interleaving over arbitrarily lagging caches, with crashes, lost replies, retries and updates that arrive after their sender has given up, the committed history is a run of the atomic ledger machine, and no volume ID is committed twice. |
| Refinement.StepIsAtomic | pkg/localstorage/localstorage.go:131-196 | Each step of any party commits nothing, or exactly one act that the ledger allows that party on the current store. |
| Refinement.StatusUpdateIsAtomic | pkg/util/storage/storage.go:191-202 | A read-copy-edit-Update from any past version is accepted only if that version is current; then it is the atomic act, and otherwise nothing changes. It is never refused by admission. |
| Refinement.RequestIsAtomic | pkg/localstorage/controllerserver.go:111-127 | Whatever a plugin is busy with, its request is one atomic act by that plugin on the object it read, or nothing. |
| Refinement.CarriedIsAtomic | pkg/util/storage/storage.go:191-197 | The same for an update that arrives late, also the controller's. |
| Refinement.CreateIsAtomic | pkg/localstorage/controllerserver.go:62-77 | CreateVolume's edit of the current version appends the new volume and takes its bytes, and the ledger allows it. |
| Refinement.DeleteIsAtomic | pkg/localstorage/controllerserver.go:117-122 | DeleteVolume's edit of the current version removes exactly that ID and gives back its bytes; it changes something if and only if the ID is there. |
| Refinement.RunKeepsInv | pkg/localstorage/localstorage.go:141-195 | Every copy a component or an update in flight works on was once committed, and creates begun or in flight carry distinct unused IDs, in every reachable state. |
| Ledger.HistorySound | pkg/webhook/validating.go:84-119 | In every past store each object is well-formed, has its status fields filled exactly as its phase demands, distinct volume IDs and sizes of at least 0, and no two objects share a node. |
| Ledger.VersionStable | pkg/util/storage/storage.go:191-197 | A version is what the store held at every revision from its own on. |
| Ledger.SameRvSameObject | pkg/util/storage/storage.go:191-197 | A copy whose resource version is current equals the stored object in every field. |
| Ledger.LifeIsMonotone | pkg/localstorage/localstorage.go:153-195 | Through the life of an object its node and set backend never change, no later phase returns to Pending or Initiating, and deletion mark and quantities stay. |
| Ledger.ReadyHasQuantities | pkg/scheduler/extender/predicate.go:79-84 | Ready implies non-nil Capacity and Allocatable, nil Allocatable implies no volumes, never both backends, one object per node. |
| Accounting.DriftIsStandingAtReady | pkg/localstorage/localstorage.go:193-195 | With no hypothesis: Allocatable + volumes - Capacity is the bytes that stood at the last Ready write. |
| Accounting.ConservedIff | pkg/localstorage/controllerserver.go:71-77 | Capacity = Allocatable + volumes if and only if nothing stood at the last Ready write. |
| Accounting.ConservationWhenFiltered | pkg/localstorage/localstorage.go:98-106 | If every Ready write in the life of the object replaced a version that the informer filter accepts, its bytes are conserved. |
| Accounting.NeverShortIff | pkg/localstorage/controllerserver.go:70-77 | The object's Allocatable was never negative in its life if and only if each create took no more than the Allocatable it replaced and each node size was at least 0. |
| Accounting.AlwaysWithinIff | pkg/localstorage/controllerserver.go:70-77 | From any revision at which an object is within its capacity on, it stays so if and only if each commit to it meets its guard, whatever drift there is. |
| Accounting.NoOvercommitIff | pkg/localstorage/controllerserver.go:70-82 | With no hypothesis: 0 <= Allocatable <= Capacity and volumes within Capacity at every revision of an object's life, if and only if each commit in that life met its guard. |
| Accounting.NoOvercommitWithoutDriftIff | pkg/localstorage/controllerserver.go:70-82 | With nothing standing at the Ready writes of its life, if and only if each commit in that life was affordable. |
| Accounting.NoOvercommit | pkg/scheduler/extender/predicate.go:73-90 | An object without drift whose creates were no larger than requests that Filter admitted against the versions they replaced has been within its capacity all its life. |
| Accounting.ExactlyOnce | pkg/localstorage/controllerserver.go:103-136 | Each volume is debited at most once and credited at most as often; one in the ledger is debited and not credited. |
| Accounting.LiveAtHome | pkg/localstorage/controllerserver.go:71-82 | A volume in the ledger was added to that same object. |
| Accounting.ListIsCreationOrder | pkg/util/controller_utils.go:57-79 | The committed list is the volumes added and not removed since the object was born, in order of creation. |
| Theorems.EveryRunConservesCapacity | pkg/localstorage/localstorage.go:158-195 | For every run, revision and object: the drift, the exact condition of conservation, and the exact conditions for staying within the capacity all its life, with drift and without. |
| Theorems.EveryRunIsMonotone | pkg/controller/storage/storage_controller.go:160-176 | For every run and any two revisions of one object: write-once spec, monotone stage, sound later version, unique nodes. |
| Theorems.EveryRunCountsOnce | pkg/localstorage/controllerserver.go:103-136 | For every run: exactly-once debits and credits, and the list in order of creation. |
| Theorems.UnknownDeleteCommitsNothing | pkg/localstorage/controllerserver.go:119-127 | In every reachable state, delivering a delete of an ID that is not in the ledger, in time or late, commits nothing, however stale the copy. |
| Theorems.CreateSucceedsIff | pkg/localstorage/controllerserver.go:56-100 | From the current version CreateVolume with a new ID succeeds, and the volume is in the ledger, if and only if Allocatable is set; otherwise it panics, the ledger unchanged and the directory left behind. |
| Theorems.DeleteSucceedsIff | pkg/localstorage/controllerserver.go:103-148 | From the current version DeleteVolume answers with success if and only if Allocatable is set; otherwise it panics with nothing changed. |
| Theorems.CurrentDeleteAccepted | pkg/localstorage/controllerserver.go:119-127 | From the current version there is an update exactly if Allocatable is set; it is accepted, and afterwards no object of the node holds the ID. |
| Theorems.CurrentDeleteSucceeds | pkg/localstorage/controllerserver.go:103-136 | From a current copy, with Allocatable set, DeleteVolume gets through whatever earlier attempts left behind: the ID and its directory are gone, every other directory stays, and an unknown ID leaves the ledger as it was. Without Allocatable nothing changes. |
| Theorems.RepeatedDeleteIsIdempotent | pkg/localstorage/controllerserver.go:103-136 | DeleteVolume twice is DeleteVolume once, for ledger and directories. |
| Theorems.StateOf | pkg/localstorage/localstorage.go:131-247 | Every reachable state satisfies all the invariants at once: sound copies, ownership, no lost work, bounded retry counters, a directory for every create begun. |
| Theorems.RunSettles | pkg/controller/storage/storage_controller.go:161-167 | From any reachable state on, as long as an object stays in the store, phase writes to it are bounded by the potential of that state and the cost of user edits, lists that show it to a plugin, and restarts. |
| Theorems.RunStaysTerminating | pkg/controller/storage/storage_controller.go:161-167 | From a reachable state in which nothing is left to sync a Terminating object, no run leaves Terminating as long as the object stays, unless a plugin restarts from a list that shows it a version of that name in an early phase. |
| Theorems.EveryRunSchedulesSafely | pkg/scheduler/extender/predicate.go:66-90 | On any snapshot of any run Filter dereferences no nil, both searches agree, and the node's one object decides: not Ready, less Allocatable than requested, or fitting, also when it is all that is left; without one the reason is that there is none. |
| Theorems.EveryCopyIsGenuine | pkg/util/storage/storage.go:191-197 | Whatever version a lister of any run shows is sound, and is what is stored if it carries the stored resource version; so the calls keep their promises on it. |
| CrashOrdering.LedgerVolumesHaveDirectories | pkg/localstorage/controllerserver.go:64-82 | With crashes, failures and late updates between any two steps, every volume in the committed ledger of a node has its directory there, as long as nobody deletes an ID whose create is in flight and would be accepted. |
| CrashOrdering.AcceptedDeleteIsGone | pkg/localstorage/controllerserver.go:119-132 | An accepted delete proves its copy was current: no object of the node holds the ID when the directory is removed. |
| CrashOrdering.StepKeepsDirs | pkg/localstorage/controllerserver.go:119-132 | Every such step keeps: ledger volumes, creates begun and creates in flight that would be accepted have directories, and a directory under removal is in no ledger entry. |
| CrashOrdering.LosesDirectoryIff | pkg/localstorage/controllerserver.go:129-132 | After every run, whatever callers delete: a step leaves a ledger volume without directory if and only if a current create lands whose directory is gone, or DeleteVolume removes the directory of an ID in the ledger. |
| CrashOrdering.LandedBeforeRemoval | pkg/localstorage/controllerserver.go:119-132 | In every run, if DeleteVolume is about to remove the directory of an ID in the ledger, a create of that ID landed after its update was accepted. |
| Ownership.ForeignWriteIff | pkg/localstorage/localstorage.go:141-195 | A plugin's commit changes another node's object if and only if it is a sync whose copy is bound to another node. |
| Ownership.PluginsWriteOwnObjects | pkg/localstorage/localstorage.go:98-106 | In every run a plugin's volume writes go to its own node's object, and so do its phase writes if that name was bound to one node only up to then. |
| Ownership.RunKeepsOwned | pkg/localstorage/localstorage.go:141-195 | Every queued key, every key in the worker's hands and every sync in flight was once bound to the plugin's node, in every reachable state. |
| Convergence.RunKeepsWake | pkg/localstorage/localstorage.go:217-247 | No announced work is lost: a filtered current version that the plugin has heard of is queued, being synced, given up, or waiting for a backend; likewise for the controller. |
| Convergence.QuietMeansConverged | pkg/localstorage/localstorage.go:153-195 | When nothing is queued or unannounced, every object not given up is Terminating if marked, Ready with quantities if it has a path, and otherwise Initiating. |
| Convergence.QuietControllerHasInitiated | pkg/controller/storage/storage_controller.go:160-176 | In every run, once the controller has heard everything and holds no entry, key or copy of a name that it has not given up, the object is not Pending if unmarked and Terminating if marked, whether or not its node has a plugin. |
| Convergence.ResyncQueuesListed | pkg/localstorage/localstorage.go:92-108 | A resync queues, beside what is queued, exactly the listed objects that the filter lets through, and for the controller every listed object. |
| Convergence.RelistQueuesListed | pkg/controller/storage/storage_controller.go:123-139 | After an interrupted watch the plugin's handlers queue exactly the listed objects that the filter lets through, and the controller's every object listed or gone. |
| Convergence.RacingInitiatorsIff | pkg/localstorage/localstorage.go:153-195 | Between two revisions of an unmarked object's life the phase writes are at least the stages it rises by, and exactly as many if and only if each Ready write between them replaced a version that the filter accepts. |
| Convergence.RacingInitiatorsConverge | pkg/controller/storage/storage_controller.go:169-176 | Then every phase write strictly raises Pending < Initiating < Ready, so at most two occur. |
| Convergence.ControllerUnchangedIsRejected | pkg/controller/storage/storage_controller.go:160-176 | The controller never sends a write that changes nothing; what it sends commits or is refused. |
| Termination.StepPotential | pkg/localstorage/localstorage.go:98-106 | Every committed phase write by anyone, in time or late, uses up potential (of every plugin: unannounced versions, attempts left in active, delayed and held entries; a sync in flight; the phase); only user edits, lists that show the object to a plugin and restarts add to it, by a stated cost. |
| Termination.PhaseWritesBounded | pkg/localstorage/localstorage.go:141-195 | Over any run in which the object stays, with crashes and restarts and whatever its name was used for before, its phase writes are bounded: the reconcilers cannot fight for ever. |
| Termination.LeavesTerminatingIff | pkg/localstorage/localstorage.go:158-195 | In every reachable state a Terminating object that stays in the store leaves its phase if and only if a sync of its current version is delivered. |
| Termination.TerminationIsAbsorbing | pkg/controller/storage/storage_controller.go:161-167 | Once Terminating, with no plugin's entry, worker or future event and no flight left for it, an object stays Terminating through every run in which it stays, as long as no plugin restarts from a list that shows it an early version of that name, or one with such a version still to come. |
| Termination.StepKeepsAbsorbedIff | pkg/localstorage/localstorage.go:98-106 | A step keeps that state if and only if it is no such restart. |
| Scenarios.ConservationCanFail | pkg/localstorage/localstorage.go:158-195 | A concrete run after which Capacity differs from Allocatable + volumes. |
| Scenarios.OvercommitCanHappen | pkg/localstorage/controllerserver.go:70-77 | A concrete run after which Allocatable is -1 and 11 of 10 bytes are taken, without drift. |
| Scenarios.AffordableIsNotEnough | pkg/localstorage/controllerserver.go:121-122 | A concrete run with drift in which each create was affordable and Allocatable ends above Capacity. |
| Scenarios.TerminationCanBeUndone | pkg/localstorage/localstorage.go:158-195 | A concrete run in which a marked object goes from Terminating back to Ready. |
| Scenarios.ScoreCanLeaveRange | pkg/scheduler/extender/prioritie.go:80-91 | A concrete run after which the score is 140. |
| Scenarios.DirectoryCanBeMissing | pkg/localstorage/controllerserver.go:129-132 | A concrete run with a late create after which a ledger volume has no directory. |
| Scenarios.OrphanDirectoryCanRemain | pkg/localstorage/controllerserver.go:64-77 | A concrete run in which CreateVolume panics and its directory stays. |
| Scenarios.ForeignWriteCanHappen | pkg/localstorage/localstorage.go:141-156 | A concrete run in which the plugin of one node initiates the object of another. |
| Volumes.RemoveVolumeIsFilterIff | pkg/util/controller_utils.go:67-79 | RemoveVolume filters out the ID if and only if no two neighbours carry it. |
| Volumes.RemoveVolumeCanLeaveOne | pkg/util/controller_utils.go:67-79 | A list of two neighbours with the ID, of which RemoveVolume leaves one. |
| Volumes.RemoveFromSkips | pkg/util/controller_utils.go:70-75 | What the loop leaves of the part ahead of its index: the entry after each deleted one is never looked at. |
| Volumes.RemoveVolumeOnDistinct | pkg/util/controller_utils.go:67-79 | With distinct IDs it filters and returns the volume whose bytes it freed, or the zero volume if there was none. |
| Volumes.AddVolumeAppends | pkg/util/controller_utils.go:57-64 | A new ID is appended, and distinct IDs stay distinct. |
| Admission.CreateAllowedIff | pkg/webhook/validating.go:126-164 | A create is allowed if and only if the name length, the spec and the node are right and no listed object is bound to the node. |
| Admission.UpdateAllowedIff | pkg/webhook/validating.go:100-119 | On a well-formed object an update is allowed if and only if identity and node stay and the spec only grows. |
| Admission.CreateDeniedWhy | pkg/webhook/validating.go:84-164 | Every reason for which a create is refused holds, and the checks that come before it in the source pass. |
| Admission.UpdateDeniedWhy | pkg/webhook/validating.go:100-251 | Every reason for which an update of a well-formed object is refused holds. |
| Admission.MutateSays | pkg/webhook/mutating.go:43-101 | An object that is not being deleted gets the protecting finalizer behind its own; a create starts without volumes and Pending unless it names a phase; nothing else changes. |
| Admission.AdmittedChainIsWriteOnce | pkg/webhook/validating.go:167-251 | Across any chain of admitted updates the node is constant, a set backend is never changed, dropped or swapped, and never are both set. |
| Admission.StatusWritePasses | pkg/webhook/mutating.go:43-101 | A component's status write passes both webhooks untouched. |
| Admission.TakenIff | pkg/webhook/validating.go:157-161 | The search loop finds a listed object of the node if and only if there is one. |
| Admission.UniqueAfterCreateIff | pkg/webhook/validating.go:153-161 | A create keeps one object per node if and only if no stored object is bound to its node. |
| Admission.FreshListKeepsUnique | pkg/webhook/validating.go:153-161 | Admission against a list that shows the whole store keeps one object per node. |
| Admission.StaleListBreaksUnique | pkg/webhook/validating.go:153-161 | A create admitted against a stale list can break it. |
| Workqueue.BoundedRetry | pkg/localstorage/localstorage.go:228-247 | In whatever order delays end and entries are processed, a key that always fails is processed 16 times from a reset counter, then dropped with its counter reset, and no other key is affected; exactly if its last retry is given up while a second entry is delayed, that one starts over. |
| Workqueue.CounterIsStreak | pkg/localstorage/localstorage.go:228-247 | Over every sequence of successful and failed attempts of a key: its counter is the number of failures since the last success or drop, so it is dropped exactly on every 16th failure in a row, waits for a retry after any other, and other keys do not notice. |
| Reconcile.SyncSays | pkg/localstorage/localstorage.go:153-195 | sync writes exactly for a Pending object, or for a path alone whose annotation is absent or parses and whose directory could be made; it then writes Initiating, or Ready with both quantities 500Gi or the annotated size. It fails exactly for an object past Pending with a path and another backend, a malformed size or no directory. |
| Reconcile.SyncStorageSays | pkg/controller/storage/storage_controller.go:160-176 | The controller writes Terminating exactly for a marked object that is not, Initiating exactly for an unmarked Pending one, and nothing else. |
| Driver.SentSays | pkg/util/storage/storage.go:191-197 | A status change sent on any genuine copy is known to be done exactly if the copy is current and the reply arrives, and is stored exactly if the copy is current, the update arrives and it changes something. |
| Driver.CreateKeepsPromise | pkg/localstorage/controllerserver.go:42-100 | For every copy, store, directory result and delivery: CreateVolume succeeds if and only if name and capabilities are given, the object is found, the directory is made, Allocatable is set, the copy is current and the reply arrives; invalid arguments and the panic have their exact conditions too. The update stores one more volume with the requested name, new ID, its path and the size, and that many bytes less; otherwise the store is as it was. |
| Driver.DeleteKeepsPromise | pkg/localstorage/controllerserver.go:103-136 | DeleteVolume succeeds if and only if an ID is given, the object is found, Allocatable is set, the copy is current, the reply arrives and the directory is removed. The update takes the volume out and gives back its bytes; an ID that is not there changes nothing. |
| Driver.SyncKeepsPromise | pkg/localstorage/localstorage.go:141-195 | sync of a copy returns an error exactly for a backend that cannot be set up and for a write not known to have succeeded; it stores the phase, and for Ready both quantities, exactly if the copy is current and the update arrives. |
| Driver.SyncStorageKeepsPromise | pkg/controller/storage/storage_controller.go:146-176 | The same for the controller's Terminating and Initiating. |
| Promises.UpdateSays | pkg/util/storage/storage.go:191-197 | When an update is not found, conflicts, is refused, changes nothing, erases or is stored with the next revision, by the resource version, the growth of the spec and the finalizers. |
| Promises.StatusUpdateSays | pkg/util/storage/storage.go:191-197 | An update that changes only the status of a genuine copy: stored exactly if the copy is current and something changes, and never refused. |
| Promises.UserEditSays | pkg/webhook/validating.go:100-119 | A user's edit of a stored object is refused exactly if it changes the type or shrinks the spec; a marked object without finalizers goes; otherwise annotation, spec and finalizers, with the protection, are stored and all else stays. |
| Promises.UserCreateSays | pkg/webhook/validating.go:84-98 | A user's create is stored exactly if the name is new and its length right, the spec well-formed and the node known and free; the object is then Pending, protected, without quantities and volumes, and keeps its own finalizers. |
| Promises.UserDeleteSays | pkg/webhook/mutating.go:50-53 | In every history a user's delete marks a stored unmarked object, and does nothing else. |
| Nodes.GetLocalStorageByNode | pkg/util/storage/storage.go:45-63 | The listed object of the node that no other precedes, or none if there is none. |
| Nodes.GetLocalStorageMap | pkg/util/storage/storage.go:65-76 | The map holds for every node the last listed object bound to it, and nothing else. |
| Nodes.LastBoundIsLast | pkg/util/storage/storage.go:65-76 | What the map holds for a node is the listed object of the node that no other follows. |
| Nodes.SearchesAgree | pkg/util/storage/storage.go:45-76 | With one object per node both searches return the one bound object for every name. |
| Nodes.CreateLocalStorages | pkg/util/storage/storage.go:79-118 | The loop leaves the store that the specification of the job gives, whatever other clients write between its list and its creates, stopping at the first refused create. |
| Nodes.CreateAllBinds | pkg/util/storage/storage.go:79-118 | Whatever others write meanwhile, nodes stay unique; if they unbind no node, neither does the job, and a successful one leaves an object for every name; if they write nothing, it changes nothing that was there. |
| Nodes.CreateOneMakes | pkg/util/storage/storage.go:95-112 | A create of the job stores, under the node's name with `ls-` in front, a path backend in `/data`, Pending, protected and unmarked. |
| Nodes.CreateAllMakes | pkg/util/storage/storage.go:79-118 | If no one else writes, a successful job leaves that object for every name that had none. |
| Nodes.CreateAllSucceedsIff | pkg/util/storage/storage.go:79-118 | If no one else writes, the job succeeds if and only if every name that had no object is a non-empty name of at most 49 characters of a cluster node that no object is bound to or named after, and is given once. |
| Nodes.TakenMeanwhileStops | pkg/util/storage/storage.go:95-112 | If another client has bound a name since the list was taken, the job stops with an error instead of binding it twice. |
| Nodes.CreateLocalStoragesIsIdempotent | pkg/util/storage/storage.go:79-118 | A second run after a successful one creates nothing and succeeds, if others unbound no node during the first. |
| ApiServer.CreatedIsAdmitted | pkg/webhook/validating.go:84-98 | The create that clients see is exactly the one that the webhooks decide with the store as their list. |
| Scheduler.FindClaimFindsFirst | pkg/util/storage/storage.go:149-180 | The first volume of the pod that is this driver's or cannot be read decides: the lookup fails if and only if it cannot be read, finds the claim if and only if it is this driver's, and reports no use if and only if there is no such volume. |
| Scheduler.FilterNodes | pkg/scheduler/extender/predicate.go:71-90 | The list of fitting names and the failure map with the reason for exactly the other names. |
| Scheduler.TestNode | pkg/scheduler/extender/predicate.go:74-87 | Missing, not Ready or too small, in that order, and otherwise fitting. |
| Scheduler.Filter | pkg/scheduler/extender/predicate.go:43-98 | Error if and only if the pod is missing, a claim or class cannot be read before any claim of this driver, or that claim has no request; untouched names if and only if every claim can be read and none is this driver's; otherwise fit and failures for the request of the first such claim. |
| Scheduler.WhyNotSays | pkg/scheduler/extender/predicate.go:74-87 | No object, not Ready, Allocatable below the request, or fitting: each if and only if it is so, and an equal request fits. |
| Scheduler.FittingSplits | pkg/scheduler/extender/predicate.go:73-90 | A name is scheduled exactly if it was given and fits, as often as it was given. |
| Scheduler.FittingKeepsOrder | pkg/scheduler/extender/predicate.go:73-90 | The order of names is kept. |
| Scheduler.Score | pkg/scheduler/extender/prioritie.go:40-78 | Nil unless some claim of the pod is the first of this driver and all before it can be read; otherwise one entry per name in order, 0 for a node without object. |
| Scheduler.ScoreIsQuotient | pkg/scheduler/extender/prioritie.go:80-91 | 100 Allocatable is the score times the capacity plus a rest that is smaller than the capacity and has the sign of Allocatable; a capacity of 0 gives what the platform makes of the quotient. |
| Scheduler.ScoreRangeIff | pkg/scheduler/extender/prioritie.go:80-91 | The truncated score is in 0..100 if and only if Allocatable is above minus 1 and below 101 percent of the capacity, positive or negative; without a capacity, if and only if the platform's value is. |
| Scheduler.ScoreMonotone | pkg/scheduler/extender/prioritie.go:80-91 | More allocatable never scores lower on a positive capacity, and never higher on a negative one. |
| Scheduler.SnapshotsAreDereferenceable | pkg/scheduler/extender/predicate.go:79-84 | On every snapshot of every history Ready objects have their quantities. |
| Scheduler.FilterThenScore | pkg/scheduler/extender/prioritie.go:62-91 | On what Filter let through on the same snapshot, Score meets no nil field, and is in 0..100 exactly under that condition. |
| Scheduler.FilterThenScoreInRange | pkg/scheduler/extender/prioritie.go:62-91 | It is, where the node's object is within its capacity on that snapshot; with a capacity of 0 the platform's value of 0/0 comes out. |
| Scheduler.GuardedScoresInRange | pkg/scheduler/extender/prioritie.go:62-91 | So it is where each commit in the object's life met its guard, or there was no drift and each was affordable. |
| Scheduler.ScoreAfterFilter | pkg/scheduler/extender/prioritie.go:62-91 | On a later snapshot than Filter's, Score meets a nil field on a node that passed if and only if the node has a new object by then that is not yet initialised. |
| Scheduler.ScoreFollowsLedger | pkg/scheduler/extender/prioritie.go:80-91 | On a positive capacity a committed create never raises the score of its object and a committed delete never lowers it; on a negative one it is the other way round. |
| Heap.LocalStorageObject.DeepCopy | pkg/apis/localstorage/v1/zz_generated.deepcopy.go:45-62 | The copy has the same value and shares nothing with its source; its Allocatable and Capacity are separate even if the source's are one. |
| Heap.LocalStorageObject.CopySpecInto | pkg/apis/localstorage/v1/zz_generated.deepcopy.go:106-119 | New path and lvm structs and a new disk slice of equal value. |
| Heap.LocalStorageObject.CopyStatusInto | pkg/apis/localstorage/v1/zz_generated.deepcopy.go:132-150 | Two new quantities, never one, and a new volume slice without spare room. |
| Heap.ShiftLeft | pkg/util/controller_utils.go:73 | Deleting entry i in place drops it and keeps the order of the rest. |
| Heap.LocalStorageObject.ContainsVolume | pkg/util/controller_utils.go:82-91 | True exactly if some listed volume has the ID. |
| Heap.LocalStorageObject.AddVolume | pkg/util/controller_utils.go:57-64 | append, into spare room or a new array, refines the list function and changes no other field. |
| Heap.LocalStorageObject.RemoveVolume | pkg/util/controller_utils.go:67-79 | The in-place loop computes the list and volume of the functional deletion loop and changes no other field. |
| Heap.LocalStorageObject.ChangeAllocatable | pkg/localstorage/controllerserver.go:138-148 | The change through the pointer moves Allocatable alone, given that it is not Capacity. |
| Heap.LocalStorageObject.SetQuantities | pkg/localstorage/localstorage.go:193-194 | One quantity behind two pointers: both become the size. |
| Heap.RemoveFinalizerIsFilter | pkg/util/finalizer.go:43-54 | The loop that steps back filters every list and reports true exactly if something was removed. |
| Heap.LocalStorageObject.RemoveFinalizer | pkg/util/finalizer.go:43-54 | The in-place loop leaves the filtered list and changes no other field. |
| Heap.LocalStorageObject.AddFinalizer | pkg/util/finalizer.go:30-39 | Appends unless present, and says which. |
| Heap.LocalStorageObject.Default | pkg/webhook/mutating.go:43-101 | The mutating webhook on the decoded object in place computes the admission default of its value. |
| Driver.EditForCreate | pkg/localstorage/controllerserver.go:62-77 | On a fresh deep copy: append and subtract; no edit exactly if Allocatable is nil; no existing object is modified. |
| Driver.EditForDelete | pkg/localstorage/controllerserver.go:117-122 | On a fresh deep copy: shift out and add back; no existing object is modified. |
| Driver.EditForSync | pkg/localstorage/localstorage.go:151-195 | On a fresh deep copy: the write, the error or the end that sync decides on, which `Reconcile.SyncSays` describes. |
| Driver.EditForSyncStorage | pkg/controller/storage/storage_controller.go:158-176 | On a fresh deep copy: the phase that the controller decides on, which `Reconcile.SyncStorageSays` describes. |
| Driver.SendUpdate | pkg/util/storage/storage.go:191-197 | The store after an update that may be lost either way, and what the client believes. |
| Driver.NodePlugin.CreateVolume | pkg/localstorage/controllerserver.go:42-100 | From the copy found first: the promise of CreateVolume over request fields, directories, store and answer, and the step function shared with the protocol; the lister's objects are outside its frame. |
| Driver.NodePlugin.DeleteVolume | pkg/localstorage/controllerserver.go:103-136 | The same for DeleteVolume, the directory going only after an accepted update. |
| Driver.NodePlugin.SyncKey | pkg/localstorage/localstorage.go:131-196 | The promise of sync for the copy under the key: which size is stored, when it fails; a missing object is no error. |
| Driver.NodePlugin.ProcessNextWorkItem | pkg/localstorage/localstorage.go:217-247 | The same promise, and the whole queue after one work item. |
| Driver.StorageController.ProcessNextWorkItem | pkg/controller/storage/storage_controller.go:142-237 | The promise of syncStorage, and the whole queue after one work item of the controller. |
| Driver.WorkQueue.HandleErr | pkg/controller/storage/storage_controller.go:218-237 | Forget on success, retry up to 15 times, then drop; `Workqueue.CounterIsStreak` says what that makes of any sequence of outcomes. |
| Driver.WorkQueue.WorkFailing | pkg/controller/storage/storage_controller.go:200-237 | The worker loop on a key that always fails ends after exactly 16 attempts with the key dropped. |
| Driver.CreateVolumeIsTwoSteps | pkg/localstorage/controllerserver.go:42-100 | The method's outcome is that of the two protocol steps. |
| Driver.DeleteVolumeIsThreeSteps | pkg/localstorage/controllerserver.go:103-136 | The method's outcome is that of the three protocol steps. |
| Driver.WorkItemIsThreeSteps | pkg/localstorage/localstorage.go:217-247 | The work item's outcome, queue included, is that of the three protocol steps. |
| Driver.ControllerItemIsThreeSteps | pkg/controller/storage/storage_controller.go:205-237 | The same for the controller. |
| VolumeStore.Durable | pkg/cache/store.go:78-172 | After any sequence of successful calls, reopening the file gives exactly the map the calls asked for, keyed by volume ID; a nil map counts as empty. |
| VolumeStore.MemoryIsWanted | pkg/cache/store.go:150-172 | After any sequence of calls the memory holds what they asked for, also where a write failed. |
| VolumeStore.LastCallWins | pkg/cache/store.go:150-172 | For each ID that is the volume of the last call about it, nothing if that was a delete, and what was there at first if there was none. |
| VolumeStore.InStepIff | pkg/cache/store.go:150-172 | After a successful call file and memory agree if and only if the call wrote or they agreed before. |
| VolumeStore.CallSucceedsIff | pkg/cache/store.go:78-172 | A call succeeds if and only if its write does or it deletes an unknown ID, which writes nothing; the file then holds the map asked for, or what a broken write left. Opening succeeds if and only if the file is missing or holds a map, and memory is what could be decoded. |
| VolumeStore.Cache.Restore | pkg/cache/store.go:91-111 | A missing file is an empty store, an unreadable one an error with an empty map, and one with values of a wrong type an error with what was understood. |
| VolumeStore.Cache.SetVolume | pkg/cache/store.go:150-160 | Memory and file after the write-through. |
| VolumeStore.Cache.DeleteVolume | pkg/cache/store.go:162-172 | The same; an unknown ID writes nothing and succeeds. |
| VolumeStore.Cache.GetVolumeByID | pkg/cache/store.go:113-123 | Where every entry stands under its own ID, which all calls keep: succeeds if and only if a stored volume has the ID, and returns the only such volume. |
| VolumeStore.Cache.GetVolumeByName | pkg/cache/store.go:125-136 | Succeeds if and only if a match exists, with a match. |
| VolumeStore.Cache.GetVolumes | pkg/cache/store.go:138-148 | Every entry once, whatever order the map is walked in. |

## Left out

- Start-up, flags, leader election, gRPC and HTTP serving (`cmd`, `pkg/signals`, `pkg/localstorage/server.go`): no property of their own. Two controllers at once during a change of leader are not modelled; a second one could only add writes of the same kinds.
- The generated clients, informers and listers: only their contract is kept.
- `nodeserver.go`, `identityserver.go` and the unimplemented calls: constant answers.
- JSON decoding in webhooks, extender and volume store: treated as injective.
- Parsing of quantity strings, and int64 limits and float64 rounding in `AsApproximateFloat64`: scores are exact quotients of integers, rounded toward zero.
- The polling of claims with wall-clock time: a lookup that may fail.
- The LVM backend: the source stops with a warning, and so does `Sync`.
- The `NamespaceTerminating` cause in `handleErr`: `LocalStorage` is cluster-scoped, so the cause does not arise.
- The length of the rate limiter's delays, and fairness: a delayed entry may fire at any time, and convergence is stated for quiet states and as bounds, not as eventual progress.
- Volume attributes other than those `CreateVolume` sets, object conditions, labels, and annotations other than the node size.
- Idempotence of `CreateVolume` by name, a score range of 0..10, and pods with several claims of this driver: the code does not provide them.
- Heap.LocalStorageObject.SetVolumes: does not distinguish a nil slice from an empty one, because the stored object does not.
- Termination.TerminationIsAbsorbing: does not cover a plugin that restarts from a list in which that name is still Pending or Initiating on its node, because that list queues the key again; `LeavesTerminatingIff` says what a step then does.
- Termination.PhaseWritesBounded: does not add up over several objects of one name, because each life starts anew from Pending; it holds for each of them.
- Scheduler.ScoreFollowsLedger: does not cover a capacity of 0, where the source divides by zero and the platform decides.
