# Game server operator: a verified model

The operator manages game servers on Kubernetes with three nested custom resources. A
**GameType** owns **Fleets**, a fleet owns **Servers**, and a server owns one **Pod** that
runs the game containers next to a **sidecar**. Deletion goes the other way and is held up by
finalizers: a server's finalizer, and the one on its pod, come off only when the pod is not
running, deletion is forced, the server's deadline has passed, or the game server has told its
sidecar that it may go. Four controllers act on the one object store at the same time, every
call of theirs may fail, and a reconcile may stop between any two calls.

The project models that protocol and proves what every interleaving keeps, how rollouts, scaling
and teardown end, and, where the code does not meet what it is for, exactly when it does.

## How it is built

- `Api`, `Admission`, `PodSpecs`, `Victims`: the objects, the rules of the object store, the
  admission webhooks, pod construction, and the choice of the server to delete.
- `Machine`: the operator as a state machine. One step is one API or sidecar call of one
  worker, one action of the environment (users, kubelet, game servers, clock), or a reconcile cut
  off. Only the permission checks of one scale-down pass are a single step; its answers are
  arbitrary, which covers answers given at different times. A run is any sequence of steps.
- `Lifecycle`, `ReleaseSafety`, `Scaling`, `Convergence`, `Rollout`, `RolloutConvergence`,
  `Teardown`: what every run keeps, and measures that bound how often a run can change anything.
- `Schedules`, `ServerFate`, `FleetCompletion`, `Draining`, `RolloutCompletion`, `Teardown`:
  where the operator can still get. A schedule is a sequence of the workers' own calls, failing ones
  included, and of time passing, with the sidecars' true answers; these theorems construct one, or
  show that none exists.
- `Steady`, `Exposure`: what no schedule changes, and what some schedule can spoil.
- `Races`, `Stranded`: runs that go wrong, and exactly when.
- `Cluster`, `ServerController`, `FleetController`, `GameController`, `Autoscaling`: the
  controllers in their own imperative form, on a mutable `Store`. The store's ghost field `run`
  ties them to the machine: whatever fails, each `Reconcile` is proved to continue the run by its
  own worker's calls, so the theorems about runs hold for it. If it completes it does what a pass
  is specified to do, and without faults it completes exactly when it can.
- `Ancestry`, `Provenance`: what a pod inherits from its server, fleet and game type; and, over
  whole runs and in the objects' own fields, what every created object is made from and who may change
  it afterwards.

## What is assumed

- A name identifies one object of its kind. Namespaces are not modelled; since the fleets of a game
  type are listed across namespaces (`operator/internal/utils/gametype.go:14-18`), this amounts
  to game type names being unique across namespaces.
- An update succeeds only if the stored object still equals the copy that was read. This allows
  every update that resource versions allow, and more.
- A failed call has no effect. A call that took effect although its answer was lost is a
  successful call followed by a cut.
- Deleting a pod is graceful: it is marked, and the kubelet removes it some time after its last
  finalizer is gone. Only server reconciles create pods under a server's pod name.
- Users leave the operator's own finalizers, and the labels by which it finds its objects, alone.
- Reads are fresh: there is no cache lag.
- Theorems about runs start with idle workers in an orderly store, of which the empty store is one,
  or from any state that keeps the invariants, as every state of such a run does
  (`Lifecycle.InvHolds`).

## What does not hold

Each of these follows the code; the counterexample and the exact condition are theorems.

- **Scale-down can undershoot.** A pass counts terminating servers but may choose a live one, and
  it lists twice, first to compare the count with the target and then to choose
  (`operator/internal/controller/fleet_controller.go:79-93` and `:127-136`). From its second
  listing on it goes below the target exactly if no more than the target is live and the server
  that the policy ranks first now is one of the live ones: `Races.PassUndershootsIff`. That happens
  when a terminating server is released between the listings
  (`Races.ReleaseBetweenListingsUndershoots`), when another sidecar begins to allow deletion while
  a blocked server terminates (`Races.GrantUndershoots`), and when the sidecar of a server that was
  marked for its permission takes it back (`Races.RetractionUndershoots`). Otherwise scale-down is
  serial: `Scaling.ScaleDownIsSerial`. Undershooting does not prevent convergence:
  `Convergence.Converges` has no such hypothesis.
- **A deleting server whose pod is gone is never released.** The pod is fetched before anything
  else and its absence is an error, so that not even the deadline helps:
  `ServerFate.WedgedForever`, `ServerFate.TerminatingPodWedges`, `ServerFate.ReconcileReleasesIff`.
  As long as nobody else's finalizers are in the way, this is exactly what can make a fleet's target
  unreachable (`FleetCompletion.TargetReachableIff`), a rollout unable to settle
  (`Steady.RolloutSettlesIff`) and a game type impossible to tear down
  (`Teardown.TeardownCompletesIff`, `Teardown.WedgedKeepsGame`).
- **The operator wedges servers by itself.** A drain pass, or a scale-down pass that does not ask for
  permission, marks a server that has no pod yet (`Teardown.DrainPassWedges`,
  `Exposure.ExposedIsWedged`). So a teardown that can be completed need not be: it stays completable
  whatever the operator does exactly if every server still has its pod
  (`Teardown.TeardownIsAssuredIff`). A standing fleet is safe from it exactly if it asks for
  permission, or none of its servers without a pod is within reach of its passes
  (`Exposure.StandingFleetWedgesIff`).
- **A worker goes on by what it has read.** If the target or the spec changes while the owner's own
  worker is in the middle of a reconcile, it may still create servers or a fleet by the old one
  (`Convergence.StaleCreateOvershoots`, `RolloutConvergence.StaleCreateUnsettles`). The bounds on
  convergence allow for it.
- **A game type that has lost its fleets is stuck** as long as its status names one of them,
  because the named fleet is fetched before the list is looked at: `Rollout.StuckForever`,
  `Rollout.EmptyRecoversIff`. It gets there when a user deletes its fleet
  (`Stranded.DeletedFleetStrands`).
- **Ties are broken by list order**, for servers and for fleets:
  `Victims.VictimOrderIndependence`, `Rollout.DropDependsOnOrderIff`. With two equally old fleets
  the operator by itself marks both and strands the game type: `Stranded.TiedFleetsBothDrop`,
  `Stranded.TiedFleetsStrand`. Two creations within one tick of the clock make such a tie:
  `Stranded.TieArises`.
- **Newest-first cannot be used.** The schema of the custom resource admits `oldest_first` and
  `smallest_first`, the webhook `oldest_first` and `newest_first`:
  `Admission.OnlyOldestFirstIsAdmitted`.
- **A negative replica target never completes**: `Convergence.NegativeTargetNeverCompletes`.
- The comment on `handleUpdating` says that it waits for the new fleet; the code deletes the old
  one on the next reconcile. The model follows the code and claims no readiness.

## Model

| member | source | states |
|---|---|---|
| `Admission.OnlyOldestFirstIsAdmitted` | operator/api/v1alpha1/fleet_types.go:32-55 | schema and webhook together admit exactly oldest-first; newest-first passes the webhook alone |
| `Admission.DefaultServer` | operator/api/v1alpha1/server_webhook.go:48-52 | a given timeout, the pod and force are kept, and an absent timeout becomes forty minutes |
| `Admission.DefaultFleet` | operator/api/v1alpha1/fleet_webhook.go:46-50 | the same for the server spec of a fleet; replicas and scaling policy are kept |
| `Admission.AdmittedIff` | operator/api/v1alpha1/fleet_webhook.go:46-119 | after defaulting, a fleet is admitted if and only if its priority is one of the two and every container has an image, a server if and only if it has a container and every container has an image |
| `Victims.GetOldestServer` | operator/internal/utils/fleet_deletion.go:38-82 | the four-tracker loop computes `Victim`, and a server it picks was created no later than any eligible one and strictly before every eligible one listed ahead of it; eligible are the allowed servers if these are preferred and there are any, all otherwise |
| `Victims.GetNewestServer` | operator/internal/utils/fleet_deletion.go:87-131 | the mirror loop: the picked server was created no earlier than any eligible one and strictly after every eligible one listed ahead of it |
| `Victims.VictimIsExtreme` | operator/internal/utils/fleet_deletion.go:35-82 | fails iff a wanted check failed or the list is empty; else the first extreme-age server among the allowed ones if wanted and any, among all otherwise |
| `Victims.PriorityDecides` | operator/internal/utils/fleet_deletion.go:20-33 | "oldest_first" picks the first listed server of least creation time among the eligible ones, "newest_first" the first of greatest, and no other priority picks any |
| `Victims.VictimOrderIndependence` | operator/internal/utils/fleet_deletion.go:38-131 | the victim is the same for every order of the list if and only if its pool has a single extreme-age server |
| `Victims.NewestMirrorsOldest` | operator/internal/utils/fleet_deletion.go:84-131 | choosing the newest is choosing the oldest with all times negated, errors included |
| `FleetController.FindDeleteServer` | operator/internal/utils/fleet_deletion.go:20-33 | the dispatch on the age priority refines its specification: "oldest_first" yields the least creation time, "newest_first" the greatest |
| `Lifecycle.StrategyIffValid` | operator/internal/utils/fleet_deletion.go:20-33 | the dispatch rejects exactly the priorities that the fleet webhook rejects |
| `Lifecycle.EveryFleetHasStrategy` | operator/api/v1alpha1/fleet_webhook.go:59-119 | in every run of admitted creates and updates, no stored fleet's scale-down fails for want of a strategy |
| `PodSpecs.InjectAll` | operator/internal/utils/pod.go:36-76 | the in-place loop gives every container exactly the environment that `InjectedLookup` is about after its own, and changes nothing else |
| `PodSpecs.GetPodSpec` | operator/internal/utils/pod.go:11-83 | builds the pod spec that `Ancestry.BuildMakes` is about, and reports the default image |
| `PodSpecs.InheritLabels` | operator/internal/utils/server.go:9-13 | an owner's label map is extended in place and shared with the child; an owner without one is left alone |
| `PodSpecs.InjectedLookup` | operator/internal/utils/pod.go:37-75 | the injected variables resolve to the container's image, the server name, the pod's address and its node, and to the fleet and game names exactly if the server has those labels; no other variable is defined |
| `Ancestry.BuildMakes` | operator/internal/utils/pod.go:11-83 | for every server and template: the template's containers in order, then one sidecar with its name and its configured or default image; each keeps its environment as a prefix, sees the six variables as the operator sets them and every other as before; pull secret appended, everything else the template's |
| `Ancestry.PodKnowsItsAncestry` | operator/internal/utils/pod.go:16-104 | along every GameType, Fleet, Server, Pod chain and whatever the template defines, the pod is so built from the game type's template, with the true server, fleet and game names; labels are the inherited ones overridden by type, fleet, server |
| `Provenance.FleetsAreMadeToSpec` | operator/internal/utils/gametype.go:26-46 | in every run a fleet that appears under a game type has, field by field, the template, force, timeout (or forty minutes), replicas, permission rule, age priority and labels that the then live game type had when the reconcile that created the fleet began, and a count of zero |
| `Provenance.ServersAreMadeToSpec` | operator/internal/utils/server.go:8-27 | in every run a server that appears under a fleet has the template, force, timeout and labels that the then live fleet had when the reconcile that created the server began |
| `Provenance.PodsAreMadeToSpec` | operator/internal/utils/pod.go:85-104 | in every run a pod that appears is built as `Ancestry` says from the then live server that the reconcile which created it began with, and is pending |
| `Provenance.OnlyUsersChangeSpecs` | operator/internal/controller/gametype_controller.go:161-170 | in every run a spec changes only by a user's edit of that very object, except for the replicas of a fleet, which a game type's worker sets and nothing else with them |
| `Provenance.MetaStands` | operator/internal/controller/server_controller.go:84-99 | in every run identity and age stay and a deletion time is set once, to the time of the deletion; the operator touches no finalizer but its own and removes no object that another finalizer holds |
| `Provenance.FlagsAreTheGames` | sidecar/internal/handlers/deletion.go:15-46 | in every step the permission of a sidecar changes only by a post to it, and shutdown is requested only by a post or by a server's worker that has read that pod |
| `Provenance.SidecarsAreNotShared` | sidecar/internal/handlers/deletion.go:28-46 | in every run from a start where no two pods share a sidecar none ever do, and a pod never gets one whose flags an earlier pod has had |
| `Lifecycle.NextKeepsInv` | operator/internal/controller/server_controller.go:63-124 | every step of every worker and of the environment keeps the local invariants of all workers |
| `Lifecycle.AlwaysOrderly` | operator/internal/controller/fleet_controller.go:52-186 | at every call boundary of every run: a pod that is protected or not marked for deletion has its protected server, a server its protected fleet, a fleet its protected game type; servers run their fleet's template; at most two fleets per game type; every server has a timeout and at least one container, and every container an image |
| `Lifecycle.TeardownIsBottomUp` | operator/internal/controller/gametype_controller.go:203-230 | when an owner loses its finalizer, it owned nothing already before that step |
| `Lifecycle.StepSeenByServer` | operator/internal/controller/fleet_controller.go:112-186 | what any other worker's step can do to a server: never protect, unprotect or replace its pod, never unmark it |
| `Lifecycle.StepSeenByFleet` | operator/internal/controller/gametype_controller.go:136-230 | what any other worker's step can do to a fleet: never add, unmark or re-template a server, never take its finalizer |
| `Lifecycle.StepSeenByGame` | operator/internal/controller/gameautoscaler_controller.go:99-104 | what any other worker's step can do to a game type: never add or unmark a fleet, never take its finalizer |
| `ReleaseSafety.EvidenceHolds` | operator/internal/controller/server_controller.go:181-224 | at every point of a deletion the run contains the reads, and the delivered shutdown, that the worker acts on |
| `ReleaseSafety.ReleaseIsJustified` | operator/internal/utils/server_communication.go:15-35 | in every run, when a server's or its pod's finalizer comes off, its worker had seen that very server deleting and had made its check, when its pod was not running, force was set, its deadline had passed, or its sidecar allowed deletion after a delivered shutdown request |
| `ServerFate.ReconcilePlays` | operator/internal/controller/server_controller.go:63-124 | an undisturbed reconcile is a schedule in which only that worker moves |
| `ServerFate.SetUpIsStable` | operator/internal/controller/server_controller.go:101-124 | a reconcile leaves a live server with finalizer, pod and pod finalizer exactly as it is |
| `ServerFate.ThreeReconcilesSetUp` | operator/internal/controller/server_controller.go:73-118 | three reconciles set up any live server whose pod is not terminating |
| `ServerFate.SetUpServers` | operator/internal/controller/server_controller.go:73-118 | reconciling each of them gives any set of live servers their finalizers and pods and changes nothing else |
| `ServerFate.FailedCreateLabels` | operator/internal/controller/server_controller.go:104-110 | after a failed pod creation the update stores the server with its own label added if it had labels, and nothing else |
| `ServerFate.ReconcileReleasesIff` | operator/internal/controller/server_controller.go:84-99 | a reconcile takes a deleting server's finalizer off if and only if its pod is there and the pod is not running, force is set, the deadline has passed, or the sidecar answers and allows it; the pod is then marked for deletion and unprotected, and the server is gone if and only if nobody else's finalizer holds it |
| `ServerFate.ReleaseTakesOnly` | operator/internal/controller/server_controller.go:84-99 | a release takes that server and no other server, pod, fleet or game type |
| `ServerFate.PodGoesWithServer` | operator/internal/controller/server_controller.go:199-224 | in every run, when a server loses its finalizer its pod is gone, or marked and unprotected; and a pod that is not marked has its server |
| `ServerFate.DeadlineReleases` | operator/internal/utils/server_communication.go:23-28 | once the deadline has passed, a reconcile at any later time takes the finalizers off server and pod whatever the sidecar says |
| `ServerFate.WaitAndRelease` | operator/internal/controller/server_controller.go:181-224 | waiting and one reconcile remove any deleting server that has its pod and that nobody else holds |
| `ServerFate.EveryServerHasDeadline` | operator/api/v1alpha1/server_webhook.go:48-52 | in every run every stored server has a timeout |
| `ServerFate.ChecksAgree` | operator/internal/utils/fleet_deletion.go:134-148 | the server that a fleet picks because its sidecar allows deletion is released by its first reconcile in any later world with the same pod and permission |
| `ServerFate.WedgedForever` | operator/internal/controller/server_controller.go:181-186 | a deleting server without a pod keeps its finalizer in every continuation of the run |
| `ServerFate.TerminatingPodWedges` | operator/internal/controller/server_controller.go:199-213 | how a release whose check passes ends there: the pod was already terminating and goes before it is read again |
| `ServerFate.WedgedPlays` | operator/internal/controller/server_controller.go:181-186 | no continuation whatever releases such a server or takes it out of its fleet |
| `ServerFate.NoResurrection` | operator/internal/controller/server_controller.go:181-243 | once a server's pod has lost its protection, no later step of any run protects or replaces the pod of that server |
| `Scaling.NeverOvershoots` | operator/internal/controller/fleet_controller.go:112-125 | for every pattern of failed and cut-off reconciles, from any point where the count plus the servers the worker still has to create is within the standing target, it stays so |
| `Scaling.SubtractionFitsInt32` | operator/internal/controller/fleet_controller.go:83-115 | below an int32 target neither the conversion of the count nor the subtraction wraps around, and exactly the difference is created |
| `Scaling.PickIsTop` | operator/internal/utils/fleet_deletion.go:20-131 | with distinct ages and fixed answers, any pass over any listing picks the one server that the policy ranks first |
| `Scaling.ScaleDownIsSerial` | operator/internal/controller/fleet_controller.go:127-141 | for a fixed target, distinct ages, answers that stand if they are asked, and second listings above the target, every reachable state has at most one terminating server and at least the target live |
| `Races.PassUndershootsIff` | operator/internal/controller/fleet_controller.go:127-136 | with distinct ages and at least the target live, a pass from its second listing on goes below the target if and only if exactly the target is live, the checks it asks find every pod, and the server ranked first by the current answers is live |
| `Races.ReleaseBetweenListingsUndershoots` | operator/internal/controller/fleet_controller.go:79-93 | from any fleet one above its target with the surplus server terminating and releasable, a schedule of the operator that ends below the target |
| `Races.GrantUndershoots` | operator/internal/utils/fleet_deletion.go:54-81 | while a blocked server terminates, another sidecar's permission makes the next pass mark a second server and go below the target |
| `Races.RetractionUndershoots` | operator/internal/utils/fleet_deletion.go:54-81 | the same when the sidecar of a server marked for its permission takes it back: a second server is marked although nobody allows deletion |
| `Convergence.Converges` | operator/internal/controller/fleet_controller.go:52-143 | in every run, from any step on the target stands, whatever the fleet's own worker was in the middle of, with any failures, cuts, races, answers and other workers: changes to the fleet's servers plus the remaining potential are at most the potential at that step plus three for each live server that others take |
| `Convergence.ExhaustedIff` | operator/internal/controller/fleet_controller.go:84-97 | the potential is used up exactly at the target with nothing terminating |
| `Convergence.TargetIsStable` | operator/internal/controller/fleet_controller.go:84-97 | a fleet at its target whose worker has nothing in hand from an earlier target or count stays there in every run until others take a server or change the target |
| `Convergence.StaleCreateOvershoots` | operator/internal/controller/fleet_controller.go:113-123 | a worker with servers left to create by an earlier target takes a fleet that is exactly at its target above it |
| `Convergence.PassMoves` | operator/internal/controller/fleet_controller.go:84-97 | with nothing terminating, a completed pass reaches the target from below, takes exactly one server from above, and changes nothing at the target |
| `FleetCompletion.TargetIsReachable` | operator/internal/controller/fleet_controller.go:52-143 | from any state, in the middle of any reconciles, in which no server of the fleet is being deleted without its pod, the schedule that reaches the target, leaving all owners as they are |
| `FleetCompletion.TargetReachableIff` | operator/internal/controller/fleet_controller.go:52-143 | from any state of rest, with an admissible template, a target of at least zero and nobody else's finalizers, the operator can still reach exactly the target with nothing terminating if and only if no server of the fleet is being deleted without its pod |
| `Exposure.ExposedIsWedged` | operator/internal/controller/fleet_controller.go:126-141 | the schedule that does, by passes and releases, the last of them possibly between the two listings of a pass |
| `Exposure.StandingFleetWedgesIff` | operator/internal/controller/fleet_controller.go:126-141 | of a fleet that stands, at rest, the operator can wedge a server by itself if and only if the fleet does not ask for permission and some server without a pod is within reach: the count exceeds the target, and so does what there is from each live server before that one on |
| `Convergence.NegativeTargetNeverCompletes` | operator/api/v1alpha1/fleet_types.go:44-46 | with a negative target and no servers left no reconcile can complete |
| `Rollout.DropDependsOnOrderIff` | operator/internal/controller/gametype_controller.go:172-180 | list order decides which of two fleets is dropped if and only if they are equally old |
| `Rollout.YoungestIsLatest` | operator/internal/controller/gametype_controller.go:259-264 | the status loop finds a latest-created fleet |
| `Rollout.YoungestIsFirst` | operator/internal/controller/gametype_controller.go:259-264 | and the first listed one of several |
| `Rollout.OldestIsEarliest` | operator/internal/controller/gametype_controller.go:173-180 | the rollout loop finds an earliest-created fleet |
| `Rollout.OldestIsFirst` | operator/internal/controller/gametype_controller.go:173-180 | and the first listed one of several |
| `Rollout.KeepsLiveFleet` | operator/internal/controller/gametype_controller.go:136-190 | in every run with distinct fleet ages and no outside fleet deletes, from its first fleet on a live game type always has a live fleet, the youngest |
| `Rollout.StuckForever` | operator/internal/controller/gametype_controller.go:109-122 | without fleets and with a lost fleet in the status, no continuation gives the game type a fleet while the status stands |
| `Rollout.EmptyRecoversIff` | operator/internal/controller/gametype_controller.go:109-148 | a reconcile without fleets creates one if and only if the status names none |
| `Stranded.DeletedFleetStrands` | operator/internal/controller/gametype_controller.go:109-122 | from any settled game type: a user deletes its fleet, the operator drains it, and the game type is stuck |
| `Stranded.TiedFleetsBothDrop` | operator/internal/controller/gametype_controller.go:172-188 | with two equally old fleets, two reconciles of the operator alone mark both and leave no live fleet |
| `Stranded.TiedFleetsStrand` | operator/internal/controller/gametype_controller.go:172-188 | and once both have drained, the game type is stuck |
| `Stranded.TieArises` | operator/internal/controller/gametype_controller.go:141-158 | from any game type without fleets: two fleets of the same age, when its template is edited and both are created within one tick |
| `RolloutConvergence.RunKeepsShape` | operator/internal/controller/gametype_controller.go:136-190 | every run with distinct fleet ages and no outside fleet deletes, from rest or from the creation of the game type, stays in the states for which the rollout measure is defined |
| `RolloutConvergence.BeginsAtBirth` | operator/internal/controller/gametype_controller.go:233-241 | whenever a game type is created, whatever the workers are in the middle of, the theorems about rollouts apply from then on |
| `RolloutConvergence.SettledIff` | operator/api/v1alpha1/fleet_types.go:91-93 | the rank is zero if and only if there is exactly one fleet, live, with the pod template and replicas of the spec |
| `RolloutConvergence.UnsettledMoves` | operator/internal/controller/gametype_controller.go:136-190 | a settled rollout is left alone; otherwise a reconcile lowers the rank or an old fleet is still draining |
| `RolloutConvergence.RolloutConverges` | operator/internal/controller/gametype_controller.go:90-105 | in every such run, from any step on the spec stands, wherever an earlier rollout had got and whatever the game type's own worker was in the middle of: each change to the game type's fleets lowers the rank, so that there are at most six, and at most thirteen if the worker was still at work for an earlier spec |
| `RolloutConvergence.StaleCreateUnsettles` | operator/internal/controller/gametype_controller.go:155-158 | a worker about to create a fleet by an earlier spec takes a settled rollout to the highest rank in one call |
| `RolloutCompletion.RolloutCompletes` | operator/internal/controller/gametype_controller.go:90-190 | from any point of an interrupted rollout and of any reconciles the operator can still settle on one fleet that matches the spec, if the spec is admissible, no lost fleet is named, nobody else is in the way and no server is wedged in a fleet that must go |
| `Steady.RolloutSettlesIff` | operator/internal/controller/gametype_controller.go:90-190 | at rest and under those provisos it can if and only if no server is wedged in a fleet that is not made to the spec or not the youngest |
| `RolloutConvergence.StatusIsCache` | operator/internal/controller/gametype_controller.go:109-130 | in every run, when a reconcile with one fleet decides, its status holds that fleet's own replica count |
| `RolloutConvergence.StatusComparisonIsExact` | operator/internal/controller/gametype_controller.go:149-170 | in every run, with equal templates the worker goes on to resize if and only if the fleet's count differs from the spec's, ends if and only if the rollout has settled, and after resizing it has |
| `Teardown.WindsDown` | operator/internal/controller/gametype_controller.go:80-88 | once a game type and its fleets are marked, no later step of any run creates a fleet or server for it or unmarks one |
| `Teardown.TeardownIsFinite` | operator/internal/controller/gametype_controller.go:203-230 | from then on, in every run and whatever is interleaved, at most as many steps change anything as there were servers, unmarked servers and fleets |
| `Draining.DrainCompletes` | operator/internal/controller/fleet_controller.go:160-186 | passes and releases empty and remove a deleting fleet whose servers have their pods, and touch nothing else |
| `Teardown.TeardownCompletesIff` | operator/internal/controller/gametype_controller.go:203-230 | with nobody else's finalizers, the operator can still remove a marked game type if and only if no server under it is being deleted without its pod |
| `Teardown.TeardownCompletes` | operator/internal/controller/gametype_controller.go:203-230 | the schedule that removes it, from the middle of any reconciles |
| `Teardown.DrainPassWedges` | operator/internal/controller/fleet_controller.go:166-170 | an ordinary drain pass wedges a server that has no pod yet, and with it the game type |
| `Teardown.TeardownIsAssuredIff` | operator/internal/controller/fleet_controller.go:160-186 | once the game type and its fleets are marked, completion stays possible after everything the operator may do if and only if every server under it has its pod |
| `Teardown.WedgedKeepsGame` | operator/internal/controller/server_controller.go:181-186 | a wedged server keeps its fleet and its game type in every continuation, whatever anybody does |
| `Cluster.ContinuesMovesOnly` | operator/internal/controller/fleet_controller.go:101-108 | a run continued by one worker's calls, as each `Reconcile` continues it, leaves every other worker, hence every other reconcile under way, where it was |
| `Cluster.Store.IsOrderly` | operator/internal/controller/fleet_controller.go:160-186 | whatever the controllers did, the store has no orphans, matching templates and at most two fleets per game type |
| `Cluster.Store.List` | operator/internal/controller/fleet_controller.go:147-154 | a list answer has every selected object once, in some order |
| `ServerController.Reconcile` | operator/internal/controller/server_controller.go:63-124 | whatever fails, continues the run by this worker's own calls; undisturbed, exactly the reconcile that `ServerFate` is about |
| `ServerController.EnsurePodExists` | operator/internal/controller/server_controller.go:136-178 | found, created, or failed without effect; to be reported is the server as it was read, or, only after a failed creation and only if it has labels, with its own label added; the undisturbed outcome is unchanged |
| `ServerController.EnsurePodFinalizer` | operator/internal/controller/server_controller.go:227-243 | ends the reconcile with the outcome it was heading for |
| `ServerController.IsDeletionAllowed` | operator/internal/utils/server_communication.go:15-35 | allowed only if the pod is not running, force is set, the deadline has passed, or the sidecar allows it, and without failures exactly then; a reachable sidecar that refuses has been asked to shut down; never allowed with an error |
| `ServerController.HandleDeletion` | operator/internal/controller/server_controller.go:181-224 | without an error the pod was there and the check passed, and the pod is now marked for deletion and unprotected; without faults it errs exactly otherwise; the undisturbed outcome is unchanged |
| `FleetController.Reconcile` | operator/internal/controller/fleet_controller.go:52-99 | whatever fails, continues the run by this worker's own calls; completed, the finalizer of a new fleet, a scaling pass of a live one with the re-listed count stored, or a drain pass of a deleting one; without faults it errs if and only if the fleet is missing, the template to create from is inadmissible, or no victim can be chosen |
| `FleetController.ScaleUp` | operator/internal/controller/fleet_controller.go:113-125 | completed, adds exactly the missing number of live servers with the fleet's spec and touches no other; without faults it completes if and only if the template is admissible |
| `FleetController.ScaleDown` | operator/internal/controller/fleet_controller.go:126-141 | completed, deletes one server that the age priority picks for some listing and answers; without faults it completes if and only if there is a server, the priority is valid, and, if permissions are asked, every server has its pod |
| `FleetController.PickedIffChoosable` | operator/internal/utils/fleet_deletion.go:20-148 | with the production checker a victim is found if and only if there is a server, the priority is valid, and, if permissions are asked, no server lacks its pod |
| `FleetController.IsDeleteAllowed` | operator/internal/utils/fleet_deletion.go:134-148 | an error exactly without a pod, and permission only if the sidecar of that pod gives it |
| `FleetController.HandleDeletion` | operator/internal/controller/fleet_controller.go:160-186 | completed, every server of the fleet is deleted or marked and the finalizer is off if and only if none is left; without faults it completes |
| `GameController.Reconcile` | operator/internal/controller/gametype_controller.go:56-106 | whatever fails, continues the run by this worker's own calls; completed, the finalizer of a new game type, a rollout pass of a live one with a status that names a youngest fleet and holds the replicas that fleet then has, or a drain pass of a deleting one; without faults it errs if and only if the game type is missing, its status names a lost fleet while it has none, or the fleet to create or resize is inadmissible |
| `GameController.FindYoungest` | operator/internal/controller/gametype_controller.go:259-264 | the loop refines `Youngest`: no fleet in the list was created later |
| `GameController.FindOldest` | operator/internal/controller/gametype_controller.go:173-180 | the loop refines `Oldest`: no fleet in the list was created earlier |
| `GameController.HandleStatus` | operator/internal/controller/gametype_controller.go:254-274 | the status names a youngest fleet if there is one, and the store is unchanged |
| `GameController.UpdateReplicaCount` | operator/internal/controller/gametype_controller.go:109-130 | the stored status then holds the named fleet's replicas, and nothing but the status has changed |
| `GameController.HandleUpdating` | operator/internal/controller/gametype_controller.go:136-190 | completed, the fleets have changed as a rollout pass changes them, a resized fleet in its replicas alone, and the status says so |
| `GameController.HandleCreation` | operator/internal/controller/gametype_controller.go:233-241 | completed, exactly one fleet is added, new and named, with the game type's template, force, replicas, permission rule, age priority and labels, its timeout or else forty minutes, and a count of zero; without faults it completes if and only if that fleet is admissible |
| `GameController.HandleDeletion` | operator/internal/controller/gametype_controller.go:203-230 | completed, every fleet is deleted or marked and the finalizer is off if and only if none is left; without faults it completes |
| `Api.ToInt32` | operator/internal/controller/gameautoscaler_controller.go:100 | the narrowing keeps the value modulo 2^32, and keeps it exactly if and only if it fits |
| `Autoscaling.AdmittedIff` | operator/api/v1alpha1/gameautoscaler_webhook.go:54-75 | admitted if and only if a game type is named, the policy is not empty, a webhook policy has a service or a URL, and the interval is at least a millisecond |
| `Autoscaling.Reconcile` | operator/internal/controller/gameautoscaler_controller.go:53-111 | an admitted autoscaler never dereferences an absent interval or service and comes back after a positive interval, without faults if and only if the game type is there, the webhook answers and path and types are supported; a scale request stores the narrowed count as the replicas of that game type and leaves every other field, game type and object as it was; an error changes nothing |
| `Autoscaling.TargetIsReached` | operator/internal/controller/gameautoscaler_controller.go:99-104 | in every run, whatever the workers are in the middle of when the update with a desired count in 0..2^31-1 lands, and while the spec then stands, the fleets change at most thirteen times; from wherever it has got, the operator can still reach exactly that many live servers and none terminating; and a state that it cannot improve is that one |
| `Autoscaling.QuietIffServed` | operator/internal/controller/fleet_controller.go:52-143 | at rest, no schedule of the operator changes fleets or servers any more if and only if there is one fleet made to the spec with exactly the target live and none terminating |

## Left out

- service/ and the sidecar's HTTP handlers beyond the two flags they read and write: thin wrappers.
- HTTP, JSON and addresses in the sidecar and autoscaler requests: a request is an answer or a failure.
- Events, logging and status conditions: observational. The status update that ends a server
  reconcile writes nothing that is modelled.
- Requeue results, and with them the difference that `ErrorOnNotAllowed` makes: only whether a
  reconcile ends in an error is modelled. Fair scheduling is not: the theorems bound the changes
  of every run and give a schedule to the goal from wherever it has got.
- Manager setup, leader election, metrics, generated code, charts, RBAC: wiring and configuration.
- Server counts are unbounded integers; the int32 conversion of a list's length is exact below
  2^31 (`Scaling.SubtractionFitsInt32`), and its wrap-around beyond that is not modelled.
- Validation of game types on creation: the model admits more game types than the webhook does, so
  that a fleet creation can also fail admission.
- Warnings of the fleet update webhook: advisory.
- Owner references and the garbage collector: the operator deletes explicitly.
- Sharing of slices between a server and the pod template built from it
  (`operator/internal/utils/pod.go:16-25`): the template is built from a copy. Sharing of label
  maps is in `PodSpecs.InheritLabels`, and its one lasting effect, the label in the update after a
  failed pod creation, is in `Machine`.
