/**
 What every interleaving keeps: no orphans (teardown is strictly bottom-up), at most two fleets
 per game type, and servers that match their fleet.

 The invariant is local: each worker has one about its own key. `SeenByServer`,
 `SeenByFleet` and `SeenByGame` say what steps of others may do to the facts a worker relies on,
 so that a step has to be checked only against its own worker's invariant.
 */
module Lifecycle {
  import opened Api
  import opened Admission
  import opened Machine
  import V = Victims

  // ---------------------------------------------------------------- what is claimed

  /** A pod that is protected, or not marked for deletion. */
  predicate Standing(w: World, k: Name) {
    k in w.pods && (SERVER_FINALIZER in w.pods[k].meta.finalizers || !Deleting(w.pods[k]))
  }

  /** Each owned object has its owner, and the owner still carries its finalizer. */
  ghost predicate NoOrphans(w: World) {
    && (forall k :: Standing(w, k) ==> Held(w.servers, k, SERVER_FINALIZER))
    && (forall f, k :: k in ServersOf(w, f) ==> Held(w.fleets, f, FLEET_FINALIZER))
    && (forall g, f :: f in FleetsOf(w, g) ==> Held(w.games, g, TYPE_FINALIZER))
  }

  function Template(w: World, f: Name): PodSpec
    requires f in w.fleets
  {
    w.fleets[f].body.spec.server.pod
  }

  /** Every server of a fleet runs the fleet's pod template. */
  ghost predicate Homogeneous(w: World) {
    forall f, k :: k in ServersOf(w, f) ==> RunsTemplate(w, f, k)
  }

  ghost predicate RunsTemplate(w: World, f: Name, k: Name)
    requires k in ServersOf(w, f)
  {
    f in w.fleets && w.servers[k].body.pod == Template(w, f)
  }

  /**
   A stored fleet has a name, an age priority that FindDeleteServer can handle, and an image for
   every container, and is not from the future.
   */
  ghost predicate Sane(w: World, f: Name) {
    f in w.fleets ==>
      && f != "" && ValidPriority(w.fleets[f].body.spec.agePriority)
      && w.fleets[f].meta.created <= w.clock
      && EveryImageGiven(w.fleets[f].body.spec.server.pod)
  }

  predicate EveryImageGiven(p: PodSpec) {
    forall i :: 0 <= i < |p.containers| ==> p.containers[i].image != ""
  }

  ghost predicate AtMostTwoFleets(w: World) {
    forall g :: |FleetsOf(w, g)| <= 2
  }

  /**
   A stored server has a timeout, at least one container, an image for every container, and a uid
   that will not be handed out again.
   */
  ghost predicate Admitted(w: World, k: Name) {
    k in w.servers ==>
      && w.servers[k].body.timeout.Some? && w.servers[k].meta.uid < w.nextUid
      && |w.servers[k].body.pod.containers| > 0 && EveryImageGiven(w.servers[k].body.pod)
  }

  ghost predicate Orderly(w: World) {
    && NoOrphans(w) && Homogeneous(w) && AtMostTwoFleets(w)
    && (forall f :: Sane(w, f)) && (forall k :: Admitted(w, k))
  }

  // ---------------------------------------------------------------- local invariants

  ghost predicate DeletesServer(w: World, k: Name, s: Server) {
    && Deleting(s)
    && (SERVER_FINALIZER in s.meta.finalizers <==> Held(w.servers, k, SERVER_FINALIZER))
    && (Held(w.servers, k, SERVER_FINALIZER) ==>
          w.servers[k].meta.uid == s.meta.uid && Deleting(w.servers[k]))
  }

  ghost predicate ServerInv(w: World, k: Name, pc: ServerPc) {
    && (Standing(w, k) ==> Held(w.servers, k, SERVER_FINALIZER))
    && Admitted(w, k)
    && match pc
       case SIdle => true
       case SAddFinalizer(s) => !Deleting(s)
       case SFindPod(s) => Held(w.servers, k, SERVER_FINALIZER)
       case SCreatePod(s) => Held(w.servers, k, SERVER_FINALIZER)
       case SReportFailure(s, t) => Held(w.servers, k, SERVER_FINALIZER) && SameButServerLabel(s, t)
       case SGetPod(s) => Held(w.servers, k, SERVER_FINALIZER)
       case SProtectPod(s, p) => Held(w.servers, k, SERVER_FINALIZER)
       case SDeletionPod(s) => DeletesServer(w, k, s)
       case SCheck(s, p) => DeletesServer(w, k, s) && UnprotectedLike(w, k, p)
       case SShutdown(s, p) => DeletesServer(w, k, s) && UnprotectedLike(w, k, p)
       case SAsk(s, p) => DeletesServer(w, k, s) && UnprotectedLike(w, k, p)
       case SUnprotectPod(s, p) => DeletesServer(w, k, s)
       case SGetPodAgain(s) => DeletesServer(w, k, s) && !Held(w.pods, k, SERVER_FINALIZER)
       case SDeletePod(s) => DeletesServer(w, k, s) && !Held(w.pods, k, SERVER_FINALIZER)
       case SRemoveFinalizer(s) => DeletesServer(w, k, s) && !Standing(w, k)
  }

  ghost predicate SameButServerLabel(s: Server, t: Server) {
    && s.meta == t.meta && s.body == t.body
    && ("fleet" in t.labels <==> "fleet" in s.labels)
    && ("fleet" in t.labels ==> t.labels["fleet"] == s.labels["fleet"])
  }

  ghost predicate UnprotectedLike(w: World, k: Name, p: Pod) {
    SERVER_FINALIZER !in p.meta.finalizers ==> !Held(w.pods, k, SERVER_FINALIZER)
  }

  /** The worker of `f` holds a copy with the stored template of a fleet that cannot go. */
  ghost predicate ScalesFleet(w: World, f: Name, o: Fleet) {
    Held(w.fleets, f, FLEET_FINALIZER) && o.body.spec.server.pod == Template(w, f)
  }

  ghost predicate FleetInv(w: World, f: Name, pc: FleetPc) {
    && (forall k :: k in ServersOf(w, f) ==>
          Held(w.fleets, f, FLEET_FINALIZER) && w.servers[k].body.pod == Template(w, f))
    && Sane(w, f)
    && match pc
       case FIdle => true
       case FAddFinalizer(o) => !Deleting(o)
       case FCount(o) => ScalesFleet(w, f, o)
       case FCreate(o, left) => ScalesFleet(w, f, o)
       case FChoose(o) => ScalesFleet(w, f, o)
       case FPick(o, items) => ScalesFleet(w, f, o)
       case FDelete(o, v) => ScalesFleet(w, f, o)
       case FRecount(o) => ScalesFleet(w, f, o)
       case FSave(o, n) => ScalesFleet(w, f, o)
       case FDrain(o) => true
       case FDrainEach(o, todo) => true
       case FDrained(o) => true
       case FRemoveFinalizer(o) => ServersOf(w, f) == {}
  }

  ghost predicate GameInv(w: World, g: Name, pc: GamePc) {
    && (FleetsOf(w, g) != {} ==> Held(w.games, g, TYPE_FINALIZER))
    && |FleetsOf(w, g)| <= 2
    && match pc
       case GIdle => true
       case GAddFinalizer(o) => !Deleting(o)
       case GStatus(o) => Held(w.games, g, TYPE_FINALIZER)
       case GTouch(o, t, y, fleet) => Held(w.games, g, TYPE_FINALIZER) && o.meta == t.meta
       case GFetch(o, t) => Held(w.games, g, TYPE_FINALIZER) && o.meta == t.meta
       case GSaveReplicas(o, t) => Held(w.games, g, TYPE_FINALIZER) && o.meta == t.meta
       case GList(o) => Held(w.games, g, TYPE_FINALIZER)
       case GSaveName(o, f, fleet) => Held(w.games, g, TYPE_FINALIZER) && |FleetsOf(w, g)| <= 1
       case GResize(o, f, fleet) => Held(w.games, g, TYPE_FINALIZER)
       case GSaveSize(o) => Held(w.games, g, TYPE_FINALIZER)
       case GCreate(o) => Held(w.games, g, TYPE_FINALIZER) && |FleetsOf(w, g)| <= 1
       case GDrop(o, f) => true
       case GDrain(o) => true
       case GDrainEach(o, todo) => true
       case GDrained(o) => true
       case GRemoveFinalizer(o) => FleetsOf(w, g) == {}
  }

  ghost predicate Inv(s: State) {
    && (forall k :: ServerInv(s.w, k, SPc(s, k)))
    && (forall f :: FleetInv(s.w, f, FPc(s, f)))
    && (forall g :: GameInv(s.w, g, GPc(s, g)))
  }

  // ---------------------------------------------------------------- interference

  /** What anybody but the worker of server `k` may change about `k`. */
  ghost predicate SeenByServer(w: World, w': World, k: Name) {
    && (Held(w.servers, k, SERVER_FINALIZER) <==> Held(w'.servers, k, SERVER_FINALIZER))
    && (Held(w.servers, k, SERVER_FINALIZER) ==>
          && w'.servers[k].meta.uid == w.servers[k].meta.uid
          && SameLabel(w'.servers[k], w.servers[k], "fleet")
          && (Deleting(w.servers[k]) ==> Deleting(w'.servers[k])))
    && (Held(w.pods, k, SERVER_FINALIZER) <==> Held(w'.pods, k, SERVER_FINALIZER))
    && w.nextUid <= w'.nextUid
    && (Admitted(w, k) ==> Admitted(w', k))
    && (k in w'.pods ==>
          && k in w.pods && w'.pods[k].meta.uid == w.pods[k].meta.uid
          && (Deleting(w.pods[k]) ==> Deleting(w'.pods[k])))
    && (k in w'.servers ==>
          || w'.servers[k].meta.uid >= w.nextUid
          || (k in w.servers && w'.servers[k].meta.uid == w.servers[k].meta.uid
              && (Deleting(w.servers[k]) ==> Deleting(w'.servers[k]))))
  }

  /** What anybody but the worker of fleet `f` may change about `f` and its servers. */
  ghost predicate SeenByFleet(w: World, w': World, f: Name) {
    && (Held(w.fleets, f, FLEET_FINALIZER) ==>
          && Held(w'.fleets, f, FLEET_FINALIZER) && Template(w', f) == Template(w, f)
          && SameLabel(w'.fleets[f], w.fleets[f], "type"))
    && (forall k :: k in ServersOf(w', f) ==>
          && k in ServersOf(w, f)
          && w'.servers[k].body.pod == w.servers[k].body.pod
          && w'.servers[k].meta.created == w.servers[k].meta.created
          && (Deleting(w.servers[k]) ==> Deleting(w'.servers[k])))
    && (Sane(w, f) ==> Sane(w', f))
  }

  /** What anybody but the worker of game type `g` may change about `g` and its fleets. */
  ghost predicate SeenByGame(w: World, w': World, g: Name) {
    && (Held(w.games, g, TYPE_FINALIZER) ==> Held(w'.games, g, TYPE_FINALIZER))
    && (g in w.games && g in w'.games && Deleting(w.games[g]) ==> Deleting(w'.games[g]))
    && (forall f :: f in FleetsOf(w', g) ==>
          && f in FleetsOf(w, g)
          && w'.fleets[f].meta.created == w.fleets[f].meta.created
          && Template(w', f) == Template(w, f)
          && (Deleting(w.fleets[f]) ==> Deleting(w'.fleets[f])))
  }

  lemma ServerKeeps(w: World, w': World, k: Name, pc: ServerPc)
    requires ServerInv(w, k, pc) && SeenByServer(w, w', k)
    ensures ServerInv(w', k, pc)
  {}

  lemma FleetKeeps(w: World, w': World, f: Name, pc: FleetPc)
    requires FleetInv(w, f, pc) && SeenByFleet(w, w', f)
    ensures FleetInv(w', f, pc)
  {}

  lemma SubsetSize<T>(a: set<T>, b: set<T>)
    requires a <= b
    ensures |a| <= |b|
  {
    assert b == a + (b - a);
  }

  lemma GameKeeps(w: World, w': World, g: Name, pc: GamePc)
    requires GameInv(w, g, pc) && SeenByGame(w, w', g)
    ensures GameInv(w', g, pc)
  {
    assert FleetsOf(w', g) <= FleetsOf(w, g);
    SubsetSize(FleetsOf(w', g), FleetsOf(w, g));
  }

  // ---------------------------------------------------------------- steps as seen by others

  lemma SetServerSeen(w: World, k: Name, s: Server, t: Server, ok: bool, w': World)
    requires w' == SetServer(w, k, s, t, ok)
    requires SameLabel(t, s, "fleet") && t.body.pod == s.body.pod
    ensures forall j :: j != k ==> SeenByServer(w, w', j)
    ensures forall f :: SeenByFleet(w, w', f)
    ensures forall g :: SeenByGame(w, w', g)
  {}

  lemma PodChangeSeen(w: World, k: Name, w': World)
    requires w' == w.(pods := w'.pods, sidecars := w'.sidecars, nextUid := w'.nextUid)
    requires w.nextUid <= w'.nextUid
    requires forall j :: j != k ==> (j in w'.pods <==> j in w.pods) && (j in w.pods ==> w'.pods[j] == w.pods[j])
    ensures forall j :: j != k ==> SeenByServer(w, w', j)
    ensures forall f :: SeenByFleet(w, w', f)
    ensures forall g :: SeenByGame(w, w', g)
  {}

  lemma ServerStepSeen(w: World, k: Name, pc: ServerPc, ok: bool, w': World)
    requires ServerInv(w, k, pc) && w' == ServerNext(w, k, pc, ok).0
    ensures forall j :: j != k ==> SeenByServer(w, w', j)
    ensures forall f :: SeenByFleet(w, w', f)
    ensures forall g :: SeenByGame(w, w', g)
  {
    match pc
    case SAddFinalizer(s) => SetServerSeen(w, k, s, WithFinalizer(s, SERVER_FINALIZER), ok, w');
    case SReportFailure(s, t) => SetServerSeen(w, k, s, t, ok, w');
    case SRemoveFinalizer(s) => SetServerSeen(w, k, s, WithoutFinalizer(s, SERVER_FINALIZER), ok, w');
    case _ =>
      ServerStepTouchesPod(w, k, pc, ok);
      PodChangeSeen(w, k, w');
  }

  lemma ServerStepTouchesPod(w: World, k: Name, pc: ServerPc, ok: bool)
    requires !pc.SAddFinalizer? && !pc.SReportFailure? && !pc.SRemoveFinalizer?
    ensures var w' := ServerNext(w, k, pc, ok).0;
      && w' == w.(pods := w'.pods, sidecars := w'.sidecars, nextUid := w'.nextUid)
      && w.nextUid <= w'.nextUid
      && forall j :: j != k ==> (j in w'.pods <==> j in w.pods) && (j in w.pods ==> w'.pods[j] == w.pods[j])
  {}

  // The elementary changes of the store.

  ghost predicate Unnoticed(w: World, w': World) {
    && (forall j :: SeenByServer(w, w', j))
    && (forall f :: SeenByFleet(w, w', f))
    && (forall g :: SeenByGame(w, w', g))
  }

  lemma DeleteServerUnnoticed(w: World, v: Name)
    requires v in w.servers
    ensures Unnoticed(w, w.(servers := Api.Delete(w.servers, v, w.clock)))
  {
    var w' := w.(servers := Api.Delete(w.servers, v, w.clock));
    DeleteServerSeenByServers(w, v, w');
    DeleteServerSeenByFleets(w, v, w');
  }

  lemma DeleteServerSeenByServers(w: World, v: Name, w': World)
    requires v in w.servers && w' == w.(servers := Api.Delete(w.servers, v, w.clock))
    ensures forall j :: SeenByServer(w, w', j)
  {}

  lemma DeleteServerSeenByFleets(w: World, v: Name, w': World)
    requires v in w.servers && w' == w.(servers := Api.Delete(w.servers, v, w.clock))
    ensures forall f :: SeenByFleet(w, w', f)
  {}

  lemma DeleteFleetUnnoticed(w: World, f: Name)
    requires f in w.fleets
    ensures Unnoticed(w, w.(fleets := Api.Delete(w.fleets, f, w.clock)))
  {}

  lemma DeleteGameUnnoticed(w: World, g: Name)
    requires g in w.games
    ensures Unnoticed(w, w.(games := Api.Delete(w.games, g, w.clock)))
  {}

  /** An update of a fleet that keeps its template, its label, its finalizer and a valid priority. */
  lemma SetFleetUnnoticed(w: World, f: Name, o: Fleet)
    requires f in w.fleets && o.meta.deleted == w.fleets[f].meta.deleted
    requires o.meta.created == w.fleets[f].meta.created
    requires FLEET_FINALIZER in w.fleets[f].meta.finalizers ==> FLEET_FINALIZER in o.meta.finalizers
    requires o.body.spec.server.pod == Template(w, f)
    requires ValidPriority(w.fleets[f].body.spec.agePriority) ==> ValidPriority(o.body.spec.agePriority)
    requires SameLabel(o, w.fleets[f], "type")
    ensures Unnoticed(w, w.(fleets := Put(w.fleets, f, o)))
  {}

  ghost predicate SameLabel<B>(o: Obj<B>, p: Obj<B>, key: string) {
    && (key in o.labels <==> key in p.labels)
    && (key in o.labels ==> o.labels[key] == p.labels[key])
  }

  lemma SetGameUnnoticed(w: World, g: Name, o: Game)
    requires g in w.games && o.meta.deleted == w.games[g].meta.deleted
    requires TYPE_FINALIZER in w.games[g].meta.finalizers ==> TYPE_FINALIZER in o.meta.finalizers
    ensures Unnoticed(w, w.(games := Put(w.games, g, o)))
  {}

  lemma CreateServerSeen(w: World, f: Name, o: Fleet, name: Name, w': World)
    requires name !in w.servers && w' == CreateServer(w, f, o, name) && ValidServer(DefaultServer(o.body.spec.server))
    ensures forall j :: SeenByServer(w, w', j)
    ensures forall h :: h != f ==> SeenByFleet(w, w', h)
    ensures forall g :: SeenByGame(w, w', g)
  {}

  lemma RemoveFleetFinalizerSeen(w: World, f: Name, o: Fleet, ok: bool, w': World)
    requires w' == SetFleet(w, f, o, WithoutFinalizer(o, FLEET_FINALIZER), ok)
    ensures forall j :: SeenByServer(w, w', j)
    ensures forall h :: h != f ==> SeenByFleet(w, w', h)
    ensures forall g :: SeenByGame(w, w', g)
  {}

  lemma FleetStepSeen(w: World, f: Name, pc: FleetPc, a: Answer, w': World)
    requires FleetInv(w, f, pc) && w' == FleetNext(w, f, pc, a).0
    ensures forall j :: SeenByServer(w, w', j)
    ensures forall h :: h != f ==> SeenByFleet(w, w', h)
    ensures forall g :: SeenByGame(w, w', g)
  {
    if w' != w {
      match pc
      case FAddFinalizer(o) => SetFleetUnnoticed(w, f, WithFinalizer(o, FLEET_FINALIZER));
      case FCreate(o, left) => CreateServerSeen(w, f, o, a.name, w');
      case FDelete(o, v) => DeleteServerUnnoticed(w, v);
      case FSave(o, n) => SetFleetUnnoticed(w, f, o.(body := o.body.(current := n)));
      case FDrainEach(o, todo) => DeleteServerUnnoticed(w, todo[0]);
      case FRemoveFinalizer(o) => RemoveFleetFinalizerSeen(w, f, o, a.ok, w');
    }
  }

  lemma CreateFleetSeen(w: World, g: Name, o: Game, name: Name, w': World)
    requires name != "" && name !in w.fleets && w' == CreateFleet(w, g, o, name)
    requires ValidFleet(DefaultFleet(o.body.spec))
    ensures forall j :: SeenByServer(w, w', j)
    ensures forall f :: SeenByFleet(w, w', f)
    ensures forall h :: h != g ==> SeenByGame(w, w', h)
  {}

  lemma RemoveGameFinalizerSeen(w: World, g: Name, o: Game, ok: bool, w': World)
    requires w' == SetGame(w, g, o, WithoutFinalizer(o, TYPE_FINALIZER), ok)
    ensures forall j :: SeenByServer(w, w', j)
    ensures forall f :: SeenByFleet(w, w', f)
    ensures forall h :: h != g ==> SeenByGame(w, w', h)
  {}

  lemma GameStepSeen(w: World, g: Name, pc: GamePc, a: Answer, w': World)
    requires GameInv(w, g, pc) && w' == GameNext(w, g, pc, a).0
    ensures forall j :: SeenByServer(w, w', j)
    ensures forall f :: SeenByFleet(w, w', f)
    ensures forall h :: h != g ==> SeenByGame(w, w', h)
  {
    if w' != w {
      match pc
      case GAddFinalizer(o) => SetGameUnnoticed(w, g, WithFinalizer(o, TYPE_FINALIZER));
      case GSaveReplicas(o, t) => SetGameUnnoticed(w, g, t);
      case GSaveName(o, f, fleet) => SetGameUnnoticed(w, g, Named(o, f));
      case GResize(o, f, fleet) => SetFleetUnnoticed(w, f, Resized(fleet, o.body.spec.replicas));
      case GSaveSize(o) => SetGameUnnoticed(w, g, Counted(o, o.body.spec.replicas));
      case GCreate(o) => CreateFleetSeen(w, g, o, a.name, w');
      case GDrop(o, f) => DeleteFleetUnnoticed(w, f);
      case GDrainEach(o, todo) => DeleteFleetUnnoticed(w, todo[0]);
      case GRemoveFinalizer(o) => RemoveGameFinalizerSeen(w, g, o, a.ok, w');
    }
  }

  lemma EditServerUnnoticed(w: World, k: Name, o: Server)
    requires UserEdit(w.servers, k, o, SERVER_FINALIZER, "fleet")
    requires ValidServerUpdate(w.servers[k].body, o.body) && o.body == DefaultServer(o.body)
    ensures Unnoticed(w, w.(servers := Put(w.servers, k, o)))
  {
    var w' := w.(servers := Put(w.servers, k, o));
    EditServerSeenByServers(w, k, o, w');
    EditServerSeenByFleets(w, k, o, w');
  }

  lemma EditServerSeenByServers(w: World, k: Name, o: Server, w': World)
    requires UserEdit(w.servers, k, o, SERVER_FINALIZER, "fleet") && o.body.timeout.Some?
    requires o.body.pod == w.servers[k].body.pod
    requires w' == w.(servers := Put(w.servers, k, o))
    ensures forall j :: SeenByServer(w, w', j)
  {}

  lemma EditServerSeenByFleets(w: World, k: Name, o: Server, w': World)
    requires UserEdit(w.servers, k, o, SERVER_FINALIZER, "fleet") && o.body.pod == w.servers[k].body.pod
    requires w' == w.(servers := Put(w.servers, k, o))
    ensures forall f :: SeenByFleet(w, w', f)
  {}

  lemma NewGameUnnoticed(w: World, g: Name, o: Game)
    requires g !in w.games
    ensures Unnoticed(w, w.(games := w.games[g := o], nextUid := w.nextUid + 1))
  {}

  lemma NewFleetUnnoticed(w: World, f: Name, o: Fleet)
    requires f != "" && f !in w.fleets && "type" !in o.labels && ValidPriority(o.body.spec.agePriority)
    requires ImagesGiven(o.body.spec.server.pod)
    requires o.meta.created == w.clock && FLEET_FINALIZER !in o.meta.finalizers
    ensures Unnoticed(w, w.(fleets := w.fleets[f := o], nextUid := w.nextUid + 1))
  {}

  lemma NewServerUnnoticed(w: World, k: Name, o: Server)
    requires k !in w.servers && "fleet" !in o.labels && o.body.timeout.Some? && ValidServer(o.body)
    requires o.meta.uid == w.nextUid && o.meta.finalizers == {}
    ensures Unnoticed(w, w.(servers := w.servers[k := o], nextUid := w.nextUid + 1))
  {
    var w' := w.(servers := w.servers[k := o], nextUid := w.nextUid + 1);
    forall j ensures SeenByServer(w, w', j) {}
    forall f ensures SeenByFleet(w, w', f) {
      assert ServersOf(w', f) == ServersOf(w, f);
    }
  }

  /** A change of pods that takes no protection off, sidecars and the clock. */
  lemma PodsUnnoticed(w: World, w': World)
    requires w' == w.(pods := w'.pods, sidecars := w'.sidecars, clock := w'.clock) && w.clock <= w'.clock
    requires forall j :: j in w'.pods ==>
      && j in w.pods && w'.pods[j].meta.uid == w.pods[j].meta.uid && (Deleting(w.pods[j]) ==> Deleting(w'.pods[j]))
    requires forall j :: Held(w.pods, j, SERVER_FINALIZER) <==> Held(w'.pods, j, SERVER_FINALIZER)
    ensures Unnoticed(w, w')
  {}

  lemma PodOpsUnnoticed(w: World, e: EnvOp)
    requires e.EditPod? || e.DeletePod? || e.ReapPod? || e.PostPermission? || e.PostShutdown? || e.Tick?
    ensures Unnoticed(w, EnvNext(w, e))
  {
    PodOpsKeepProtection(w, e);
    PodsUnnoticed(w, EnvNext(w, e));
  }

  lemma PodOpsKeepProtection(w: World, e: EnvOp)
    requires e.EditPod? || e.DeletePod? || e.ReapPod? || e.PostPermission? || e.PostShutdown? || e.Tick?
    ensures var w' := EnvNext(w, e);
      && w' == w.(pods := w'.pods, sidecars := w'.sidecars, clock := w'.clock) && w.clock <= w'.clock
      && (forall j :: j in w'.pods ==>
            && j in w.pods && w'.pods[j].meta.uid == w.pods[j].meta.uid
            && (Deleting(w.pods[j]) ==> Deleting(w'.pods[j])))
      && forall j :: Held(w.pods, j, SERVER_FINALIZER) <==> Held(w'.pods, j, SERVER_FINALIZER)
  {}

  lemma CreateOpsUnnoticed(w: World, e: EnvOp)
    requires e.CreateGameOp? || e.CreateFleetOp? || e.CreateServerOp?
    ensures Unnoticed(w, EnvNext(w, e))
  {
    if EnvNext(w, e) != w {
      if e.CreateGameOp? {
        NewGameUnnoticed(w, e.g, EnvNext(w, e).games[e.g]);
      } else if e.CreateFleetOp? {
        NewFleetUnnoticed(w, e.f, EnvNext(w, e).fleets[e.f]);
      } else {
        CreateServerOpUnnoticed(w, e);
      }
    }
  }

  lemma CreateServerOpUnnoticed(w: World, e: EnvOp)
    requires e.CreateServerOp? && EnvNext(w, e) != w
    ensures Unnoticed(w, EnvNext(w, e))
  {
    NewServerUnnoticed(w, e.k, EnvNext(w, e).servers[e.k]);
  }

  lemma EnvStepSeen(w: World, e: EnvOp)
    ensures Unnoticed(w, EnvNext(w, e))
  {
    if e.CreateGameOp? || e.CreateFleetOp? || e.CreateServerOp? {
      CreateOpsUnnoticed(w, e);
    } else if EnvNext(w, e) != w {
      match e
      case EditGame(g, o) => SetGameUnnoticed(w, g, o);
      case EditFleet(f, o) => SetFleetUnnoticed(w, f, o);
      case EditServer(k, o) => EditServerUnnoticed(w, k, o);
      case DeleteGame(g) => DeleteGameUnnoticed(w, g);
      case DeleteFleet(f) => DeleteFleetUnnoticed(w, f);
      case DeleteServer(k) => DeleteServerUnnoticed(w, k);
      case _ => PodOpsUnnoticed(w, e);
    }
  }

  // ---------------------------------------------------------------- steps of the worker itself

  lemma ServerStepOwn(w: World, k: Name, pc: ServerPc, ok: bool)
    requires ServerInv(w, k, pc)
    ensures ServerInv(ServerNext(w, k, pc, ok).0, k, ServerNext(w, k, pc, ok).1)
  {}

  lemma FleetCreateOwn(w: World, f: Name, o: Fleet, name: Name)
    requires FleetInv(w, f, FCount(o)) && name !in w.servers
    ensures FleetInv(CreateServer(w, f, o, name), f, FCount(o))
  {}

  lemma FleetRemoveOwn(w: World, f: Name, o: Fleet, ok: bool)
    requires FleetInv(w, f, FRemoveFinalizer(o))
    ensures FleetInv(SetFleet(w, f, o, WithoutFinalizer(o, FLEET_FINALIZER), ok), f, FIdle)
  {}

  lemma FleetStepOwn(w: World, f: Name, pc: FleetPc, a: Answer)
    requires FleetInv(w, f, pc)
    ensures FleetInv(FleetNext(w, f, pc, a).0, f, FleetNext(w, f, pc, a).1)
  {
    var w' := FleetNext(w, f, pc, a).0;
    match pc
    case FCreate(o, left) =>
      if w' != w {
        FleetCreateOwn(w, f, o, a.name);
      }
    case FRemoveFinalizer(o) => FleetRemoveOwn(w, f, o, a.ok);
    case FAddFinalizer(o) =>
      if w' != w {
        SetFleetUnnoticed(w, f, WithFinalizer(o, FLEET_FINALIZER));
        FleetKeeps(w, w', f, pc);
      }
    case FSave(o, n) =>
      if w' != w {
        SetFleetUnnoticed(w, f, o.(body := o.body.(current := n)));
        FleetKeeps(w, w', f, pc);
      }
    case FDelete(o, v) =>
      if w' != w {
        DeleteServerUnnoticed(w, v);
        FleetKeeps(w, w', f, pc);
      }
    case FDrainEach(o, todo) =>
      if w' != w {
        DeleteServerUnnoticed(w, todo[0]);
        FleetKeeps(w, w', f, pc);
      }
    case FDrained(o) =>
      if Lists(w, f, a) {
        ListingSize(a.order, ServersOf(w, f));
      }
    case _ =>
  }

  lemma GameCreateOwn(w: World, g: Name, o: Game, name: Name)
    requires GameInv(w, g, GCreate(o)) && name !in w.fleets
    ensures GameInv(CreateFleet(w, g, o, name), g, GIdle)
  {
    assert FleetsOf(CreateFleet(w, g, o, name), g) == FleetsOf(w, g) + {name};
  }

  lemma GameRemoveOwn(w: World, g: Name, o: Game, ok: bool)
    requires GameInv(w, g, GRemoveFinalizer(o))
    ensures GameInv(SetGame(w, g, o, WithoutFinalizer(o, TYPE_FINALIZER), ok), g, GIdle)
  {
    assert FleetsOf(SetGame(w, g, o, WithoutFinalizer(o, TYPE_FINALIZER), ok), g) == FleetsOf(w, g);
  }

  lemma GameStepOwn(w: World, g: Name, pc: GamePc, a: Answer)
    requires GameInv(w, g, pc)
    ensures GameInv(GameNext(w, g, pc, a).0, g, GameNext(w, g, pc, a).1)
  {
    var w' := GameNext(w, g, pc, a).0;
    if ListsFleets(w, g, a) {
      ListingSize(a.order, FleetsOf(w, g));
    }
    if w' != w {
      match pc
      case GCreate(o) => GameCreateOwn(w, g, o, a.name);
      case GRemoveFinalizer(o) => GameRemoveOwn(w, g, o, a.ok);
      case GAddFinalizer(o) => GameUpdateOwn(w, g, pc, WithFinalizer(o, TYPE_FINALIZER));
      case GSaveReplicas(o, t) => GameUpdateOwn(w, g, pc, t);
      case GSaveName(o, f, fleet) => GameUpdateOwn(w, g, pc, Named(o, f));
      case GSaveSize(o) => GameUpdateOwn(w, g, pc, Counted(o, o.body.spec.replicas));
      case _ => GameFleetOwn(w, g, pc, a);
    }
  }

  lemma GameFleetOwn(w: World, g: Name, pc: GamePc, a: Answer)
    requires GameInv(w, g, pc) && (pc.GResize? || pc.GDrop? || pc.GDrainEach?)
    ensures GameInv(GameNext(w, g, pc, a).0, g, pc)
  {
    var w' := GameNext(w, g, pc, a).0;
    if w' != w {
      match pc {
        case GResize(o, f, fleet) => SetFleetUnnoticed(w, f, Resized(fleet, o.body.spec.replicas));
        case GDrop(o, f) => DeleteFleetUnnoticed(w, f);
        case GDrainEach(o, todo) => DeleteFleetUnnoticed(w, todo[0]);
      }
      GameKeeps(w, w', g, pc);
    }
  }

  lemma GameUpdateOwn(w: World, g: Name, pc: GamePc, t: Game)
    requires GameInv(w, g, pc)
    requires g in w.games && t.meta.deleted == w.games[g].meta.deleted
    requires TYPE_FINALIZER in w.games[g].meta.finalizers ==> TYPE_FINALIZER in t.meta.finalizers
    ensures GameInv(w.(games := Put(w.games, g, t)), g, pc)
  {
    SetGameUnnoticed(w, g, t);
    GameKeeps(w, w.(games := Put(w.games, g, t)), g, pc);
  }

  lemma OtherServersKeep(s: State, t: State, except: Option<Name>)
    requires Inv(s)
    requires forall j :: Some(j) != except ==> SeenByServer(s.w, t.w, j)
    requires forall j :: Some(j) != except ==> SPc(t, j) == SPc(s, j)
    ensures forall j :: Some(j) != except ==> ServerInv(t.w, j, SPc(t, j))
  {
    forall j | Some(j) != except ensures ServerInv(t.w, j, SPc(t, j)) {
      ServerKeeps(s.w, t.w, j, SPc(s, j));
    }
  }

  lemma OtherFleetsKeep(s: State, t: State, except: Option<Name>)
    requires Inv(s)
    requires forall j :: Some(j) != except ==> SeenByFleet(s.w, t.w, j)
    requires forall j :: Some(j) != except ==> FPc(t, j) == FPc(s, j)
    ensures forall j :: Some(j) != except ==> FleetInv(t.w, j, FPc(t, j))
  {
    forall j | Some(j) != except ensures FleetInv(t.w, j, FPc(t, j)) {
      FleetKeeps(s.w, t.w, j, FPc(s, j));
    }
  }

  lemma OtherGamesKeep(s: State, t: State, except: Option<Name>)
    requires Inv(s)
    requires forall j :: Some(j) != except ==> SeenByGame(s.w, t.w, j)
    requires forall j :: Some(j) != except ==> GPc(t, j) == GPc(s, j)
    ensures forall j :: Some(j) != except ==> GameInv(t.w, j, GPc(t, j))
  {
    forall j | Some(j) != except ensures GameInv(t.w, j, GPc(t, j)) {
      GameKeeps(s.w, t.w, j, GPc(s, j));
    }
  }

  lemma ServerCallKeepsInv(s: State, k: Name, ok: bool)
    requires Inv(s)
    ensures Inv(Next(s, ServerCall(k, ok)))
  {
    var t := Next(s, ServerCall(k, ok));
    ServerStepSeen(s.w, k, SPc(s, k), ok, t.w);
    ServerStepOwn(s.w, k, SPc(s, k), ok);
    OtherServersKeep(s, t, Some(k));
    OtherFleetsKeep(s, t, None);
    OtherGamesKeep(s, t, None);
  }

  lemma FleetCallKeepsInv(s: State, f: Name, a: Answer)
    requires Inv(s)
    ensures Inv(Next(s, FleetCall(f, a)))
  {
    var t := Next(s, FleetCall(f, a));
    FleetStepSeen(s.w, f, FPc(s, f), a, t.w);
    FleetStepOwn(s.w, f, FPc(s, f), a);
    OtherServersKeep(s, t, None);
    OtherFleetsKeep(s, t, Some(f));
    OtherGamesKeep(s, t, None);
  }

  lemma GameCallKeepsInv(s: State, g: Name, a: Answer)
    requires Inv(s)
    ensures Inv(Next(s, GameCall(g, a)))
  {
    var t := Next(s, GameCall(g, a));
    GameStepSeen(s.w, g, GPc(s, g), a, t.w);
    GameStepOwn(s.w, g, GPc(s, g), a);
    OtherServersKeep(s, t, None);
    OtherFleetsKeep(s, t, None);
    OtherGamesKeep(s, t, Some(g));
  }

  lemma EnvKeepsInv(s: State, e: EnvOp)
    requires Inv(s)
    ensures Inv(Next(s, Env(e)))
  {
    var t := Next(s, Env(e));
    EnvStepSeen(s.w, e);
    OtherServersKeep(s, t, None);
    OtherFleetsKeep(s, t, None);
    OtherGamesKeep(s, t, None);
  }

  lemma CutKeepsInv(s: State, a: Act)
    requires Inv(s)
    requires a.Start? || a.ServerCut? || a.FleetCut? || a.GameCut?
    ensures Inv(Next(s, a))
  {
    var t := Next(s, a);
    forall k ensures ServerInv(t.w, k, SPc(t, k)) {
      assert ServerInv(s.w, k, SPc(s, k));
    }
    forall f ensures FleetInv(t.w, f, FPc(t, f)) {
      assert FleetInv(s.w, f, FPc(s, f));
    }
    forall g ensures GameInv(t.w, g, GPc(t, g)) {
      assert GameInv(s.w, g, GPc(s, g));
    }
  }

  lemma NextKeepsInv(s: State, a: Act)
    requires Inv(s)
    ensures Inv(Next(s, a))
  {
    match a
    case Env(e) => EnvKeepsInv(s, e);
    case ServerCall(k, ok) => ServerCallKeepsInv(s, k, ok);
    case FleetCall(f, ans) => FleetCallKeepsInv(s, f, ans);
    case GameCall(g, ans) => GameCallKeepsInv(s, g, ans);
    case _ => CutKeepsInv(s, a);
  }

  // ---------------------------------------------------------------- one worker's view of a step

  lemma StepSeenByServer(s: State, a: Act, k: Name)
    requires Inv(s) && !(a.ServerCall? && a.k == k)
    ensures SeenByServer(s.w, Next(s, a).w, k)
    ensures SPc(Next(s, a), k) == SPc(s, k) || SPc(Next(s, a), k) == SIdle
  {
    var t := Next(s, a);
    match a
    case Env(e) => EnvStepSeen(s.w, e);
    case ServerCall(j, ok) =>
      assert ServerInv(s.w, j, SPc(s, j));
      ServerStepSeen(s.w, j, SPc(s, j), ok, t.w);
    case FleetCall(f, ans) =>
      assert FleetInv(s.w, f, FPc(s, f));
      FleetStepSeen(s.w, f, FPc(s, f), ans, t.w);
    case GameCall(g, ans) =>
      assert GameInv(s.w, g, GPc(s, g));
      GameStepSeen(s.w, g, GPc(s, g), ans, t.w);
    case _ =>
  }

  lemma StepSeenByFleet(s: State, a: Act, f: Name)
    requires Inv(s) && !(a.FleetCall? && a.f == f)
    ensures SeenByFleet(s.w, Next(s, a).w, f)
    ensures FPc(Next(s, a), f) == FPc(s, f) || FPc(Next(s, a), f) == FIdle
  {
    var t := Next(s, a);
    match a
    case Env(e) => EnvStepSeen(s.w, e);
    case ServerCall(j, ok) =>
      assert ServerInv(s.w, j, SPc(s, j));
      ServerStepSeen(s.w, j, SPc(s, j), ok, t.w);
    case FleetCall(h, ans) =>
      assert FleetInv(s.w, h, FPc(s, h));
      FleetStepSeen(s.w, h, FPc(s, h), ans, t.w);
    case GameCall(g, ans) =>
      assert GameInv(s.w, g, GPc(s, g));
      GameStepSeen(s.w, g, GPc(s, g), ans, t.w);
    case _ =>
  }

  lemma StepSeenByGame(s: State, a: Act, g: Name)
    requires Inv(s) && !(a.GameCall? && a.g == g)
    ensures SeenByGame(s.w, Next(s, a).w, g)
    ensures GPc(Next(s, a), g) == GPc(s, g) || GPc(Next(s, a), g) == GIdle
  {
    var t := Next(s, a);
    match a
    case Env(e) => EnvStepSeen(s.w, e);
    case ServerCall(j, ok) =>
      assert ServerInv(s.w, j, SPc(s, j));
      ServerStepSeen(s.w, j, SPc(s, j), ok, t.w);
    case FleetCall(f, ans) =>
      assert FleetInv(s.w, f, FPc(s, f));
      FleetStepSeen(s.w, f, FPc(s, f), ans, t.w);
    case GameCall(h, ans) =>
      assert GameInv(s.w, h, GPc(s, h));
      GameStepSeen(s.w, h, GPc(s, h), ans, t.w);
    case _ =>
  }

  // ---------------------------------------------------------------- whole runs

  lemma StartInv(s: State)
    requires AllIdle(s) && Orderly(s.w)
    ensures Inv(s)
  {}

  lemma InvIsHomogeneous(s: State)
    requires Inv(s)
    ensures Homogeneous(s.w)
  {
    forall f, k | k in ServersOf(s.w, f)
      ensures RunsTemplate(s.w, f, k)
    {
      assert FleetInv(s.w, f, FPc(s, f));
    }
  }

  lemma InvHoldsFleets(s: State)
    requires Inv(s)
    ensures forall f, k :: k in ServersOf(s.w, f) ==> Held(s.w.fleets, f, FLEET_FINALIZER)
  {
    forall f, k | k in ServersOf(s.w, f) ensures Held(s.w.fleets, f, FLEET_FINALIZER) {
      assert FleetInv(s.w, f, FPc(s, f));
    }
  }

  lemma InvBoundsFleets(s: State)
    requires Inv(s)
    ensures AtMostTwoFleets(s.w)
    ensures forall g, f :: f in FleetsOf(s.w, g) ==> Held(s.w.games, g, TYPE_FINALIZER)
  {
    forall g
      ensures |FleetsOf(s.w, g)| <= 2
      ensures FleetsOf(s.w, g) != {} ==> Held(s.w.games, g, TYPE_FINALIZER)
    {
      assert GameInv(s.w, g, GPc(s, g));
    }
  }

  lemma InvIsAdmitted(s: State)
    requires Inv(s)
    ensures forall k :: Admitted(s.w, k)
    ensures forall k :: Standing(s.w, k) ==> Held(s.w.servers, k, SERVER_FINALIZER)
  {
    forall k
      ensures Admitted(s.w, k)
      ensures Standing(s.w, k) ==> Held(s.w.servers, k, SERVER_FINALIZER)
    {
      assert ServerInv(s.w, k, SPc(s, k));
    }
  }

  lemma InvIsSane(s: State)
    requires Inv(s)
    ensures forall f :: Sane(s.w, f)
  {
    forall f ensures Sane(s.w, f) {
      assert FleetInv(s.w, f, FPc(s, f));
    }
  }

  lemma InvIsOrderly(s: State)
    requires Inv(s)
    ensures Orderly(s.w)
  {
    InvIsHomogeneous(s);
    InvHoldsFleets(s);
    InvBoundsFleets(s);
    InvIsAdmitted(s);
    InvIsSane(s);
  }

  lemma {:induction false} InvHolds(run: seq<State>, i: nat)
    requires IsRun(run) && i < |run| && Inv(run[0])
    ensures Inv(run[i])
  {
    if i > 0 {
      InvHolds(run, i - 1);
      assert StepAt(run, i);
      NextKeepsInv(run[i - 1], run[i].act);
    }
  }

  /**
   At every API-call boundary of every run: no orphans, matching pod templates, manageable
   priorities, and at most two fleets per game type.
   */
  lemma AlwaysOrderly(run: seq<State>, i: nat)
    requires IsRun(run) && i < |run|
    requires AllIdle(run[0]) && Orderly(run[0].w)
    ensures Orderly(run[i].w)
  {
    StartInv(run[0]);
    InvHolds(run, i);
    InvIsOrderly(run[i]);
  }

  /** FindDeleteServer rejects exactly the priorities that admission rejects. */
  lemma StrategyIffValid(spec: FleetSpec, servers: seq<V.Candidate>)
    ensures V.FindDeleteServer(spec, servers) == V.BadStrategy <==> !ValidPriority(spec.agePriority)
  {
    V.VictimIsExtreme(servers, false, spec.prioritizeAllowed);
    V.VictimIsExtreme(servers, true, spec.prioritizeAllowed);
  }

  /** So in every run every fleet has a deletion strategy. */
  lemma EveryFleetHasStrategy(run: seq<State>, i: nat, f: Name, servers: seq<V.Candidate>)
    requires IsRun(run) && i < |run|
    requires AllIdle(run[0]) && Orderly(run[0].w)
    requires f in run[i].w.fleets
    ensures V.FindDeleteServer(run[i].w.fleets[f].body.spec, servers) != V.BadStrategy
  {
    AlwaysOrderly(run, i);
    assert Sane(run[i].w, f);
    StrategyIffValid(run[i].w.fleets[f].body.spec, servers);
  }

  /**
   Teardown is strictly bottom-up: when an owner goes or loses its finalizer, it owns nothing any
   more already before that step.
   */
  lemma TeardownIsBottomUp(run: seq<State>, i: nat)
    requires IsRun(run) && i + 1 < |run|
    requires AllIdle(run[0]) && Orderly(run[0].w)
    ensures forall g :: Held(run[i].w.games, g, TYPE_FINALIZER) && !Held(run[i + 1].w.games, g, TYPE_FINALIZER)
                        ==> FleetsOf(run[i].w, g) == {}
    ensures forall f :: Held(run[i].w.fleets, f, FLEET_FINALIZER) && !Held(run[i + 1].w.fleets, f, FLEET_FINALIZER)
                        ==> ServersOf(run[i].w, f) == {}
    ensures forall k :: Held(run[i].w.servers, k, SERVER_FINALIZER) && !Held(run[i + 1].w.servers, k, SERVER_FINALIZER)
                        ==> !Standing(run[i].w, k)
  {
    StartInv(run[0]);
    InvHolds(run, i);
    assert StepAt(run, i + 1);
    forall g | Held(run[i].w.games, g, TYPE_FINALIZER) && !Held(run[i + 1].w.games, g, TYPE_FINALIZER)
      ensures FleetsOf(run[i].w, g) == {}
    {
      GameGoesEmpty(run[i], run[i + 1].act, g);
    }
    forall f | Held(run[i].w.fleets, f, FLEET_FINALIZER) && !Held(run[i + 1].w.fleets, f, FLEET_FINALIZER)
      ensures ServersOf(run[i].w, f) == {}
    {
      FleetGoesEmpty(run[i], run[i + 1].act, f);
    }
    forall k | Held(run[i].w.servers, k, SERVER_FINALIZER) && !Held(run[i + 1].w.servers, k, SERVER_FINALIZER)
      ensures !Standing(run[i].w, k)
    {
      ServerGoesUnprotected(run[i], run[i + 1].act, k);
    }
  }

  lemma GameGoesEmpty(s: State, a: Act, g: Name)
    requires Inv(s) && Held(s.w.games, g, TYPE_FINALIZER) && !Held(Next(s, a).w.games, g, TYPE_FINALIZER)
    ensures FleetsOf(s.w, g) == {}
  {
    assert GameInv(s.w, g, GPc(s, g));
    if a.GameCall? && a.g == g {
      OnlyDrainedGameGoes(s.w, g, GPc(s, g), a.a);
    } else {
      StepSeenByGame(s, a, g);
    }
  }

  lemma OnlyDrainedGameGoes(w: World, g: Name, pc: GamePc, a: Answer)
    requires GameInv(w, g, pc) && Held(w.games, g, TYPE_FINALIZER)
    requires !Held(GameNext(w, g, pc, a).0.games, g, TYPE_FINALIZER)
    ensures pc.GRemoveFinalizer?
  {}

  lemma FleetGoesEmpty(s: State, a: Act, f: Name)
    requires Inv(s) && Held(s.w.fleets, f, FLEET_FINALIZER) && !Held(Next(s, a).w.fleets, f, FLEET_FINALIZER)
    ensures ServersOf(s.w, f) == {}
  {
    assert FleetInv(s.w, f, FPc(s, f));
    if !(a.FleetCall? && a.f == f) {
      StepSeenByFleet(s, a, f);
    }
  }

  lemma ServerGoesUnprotected(s: State, a: Act, k: Name)
    requires Inv(s) && Held(s.w.servers, k, SERVER_FINALIZER) && !Held(Next(s, a).w.servers, k, SERVER_FINALIZER)
    ensures !Standing(s.w, k)
  {
    assert ServerInv(s.w, k, SPc(s, k));
    if !(a.ServerCall? && a.k == k) {
      StepSeenByServer(s, a, k);
    }
  }
}
