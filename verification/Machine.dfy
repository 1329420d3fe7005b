/**
 The operator as an interleaving state machine over the store.

 Every step is one API call (or sidecar call) of one worker, or one action of the environment;
 only the permission checks of a scale-down pass are taken together, as one step with arbitrary
 answers, which covers answers given at different times.
 A worker reconciles one key; the work queue serialises reconciles of one key, while workers
 of different keys interleave freely. Between two of its calls a worker holds only the copies
 it has read, recorded in its program counter. Any call may fail and any reconcile may be cut
 off between two calls, in which case the worker is idle again and keeps nothing.

 The machine is deterministic in the recorded act, so a run is a sequence of states in which
 every state is `Next` of its predecessor and its own act.
 */
module Machine {
  import opened Api
  import opened Admission
  import opened PodSpecs
  import V = Victims

  // ---------------------------------------------------------------- program counters

  datatype ServerPc =
    | SIdle
    | SAddFinalizer(s: Server)
    | SFindPod(s: Server)
    | SCreatePod(s: Server)
    | SReportFailure(s: Server, t: Server)
    | SGetPod(s: Server)
    | SProtectPod(s: Server, p: Pod)
    | SDeletionPod(s: Server)
    | SCheck(s: Server, p: Pod)
    | SShutdown(s: Server, p: Pod)
    | SAsk(s: Server, p: Pod)
    | SUnprotectPod(s: Server, p: Pod)
    | SGetPodAgain(s: Server)
    | SDeletePod(s: Server)
    | SRemoveFinalizer(s: Server)

  datatype FleetPc =
    | FIdle
    | FAddFinalizer(o: Fleet)
    | FCount(o: Fleet)
    | FCreate(o: Fleet, left: nat)
    | FChoose(o: Fleet)
    | FPick(o: Fleet, items: seq<V.Candidate>)
    | FDelete(o: Fleet, victim: Name)
    | FRecount(o: Fleet)
    | FSave(o: Fleet, n: nat)
    | FDrain(o: Fleet)
    | FDrainEach(o: Fleet, todo: seq<Name>)
    | FDrained(o: Fleet)
    | FRemoveFinalizer(o: Fleet)

  /** `o` is the stored copy, `t` the copy with the status changes made in memory. */
  datatype GamePc =
    | GIdle
    | GAddFinalizer(o: Game)
    | GStatus(o: Game)
    | GTouch(o: Game, t: Game, y: Name, fleet: Fleet)
    | GFetch(o: Game, t: Game)
    | GSaveReplicas(o: Game, t: Game)
    | GList(o: Game)
    | GSaveName(o: Game, f: Name, fleet: Fleet)
    | GResize(o: Game, f: Name, fleet: Fleet)
    | GSaveSize(o: Game)
    | GCreate(o: Game)
    | GDrop(o: Game, f: Name)
    | GDrain(o: Game)
    | GDrainEach(o: Game, todo: seq<Name>)
    | GDrained(o: Game)
    | GRemoveFinalizer(o: Game)

  /**
   How the world answers a call: whether it succeeds, the order of a list, the suffix chosen
   for a generated name, and the permission checker's answers.
   */
  datatype Answer = Answer(ok: bool, order: seq<Name>, name: Name, checks: seq<V.Answer>)

  // ---------------------------------------------------------------- the server worker

  /** The checks of IsDeletionAllowed that need no sidecar. */
  predicate AllowedOutright(s: Server, p: Pod, now: int) {
    || p.body.phase != Running
    || s.body.force
    || (s.body.timeout.Some? && s.meta.deleted.Some?
        && s.meta.deleted.value + s.body.timeout.value < now)
  }

  /** The copy of a server after GetNewPod wrote its label map, if it has one. */
  function Relabelled(k: Name, s: Server): Server {
    if s.labels == map[] then s else s.(labels := s.labels["server" := k])
  }

  function CreatePod(w: World, k: Name, s: Server): World {
    var body := PodBody(BuildSpec(w.config, k, s.labels, s.body.pod), Pending);
    w.(pods := w.pods[k := NewObj(w.nextUid, w.clock, s.labels["server" := k], body)],
       nextUid := w.nextUid + 1)
  }

  function Shutdown(w: World, uid: nat): World {
    w.(sidecars := w.sidecars[uid := SidecarOf(w, uid).(shutdownRequested := true)])
  }

  function Release(s: Server, p: Pod): ServerPc {
    if SERVER_FINALIZER in p.meta.finalizers then SUnprotectPod(s, p) else SDeletePod(s)
  }

  function ServerNext(w: World, k: Name, pc: ServerPc, ok: bool): (World, ServerPc) {
    match pc
    case SIdle =>
      if !ok || k !in w.servers then (w, SIdle)
      else if Deleting(w.servers[k]) then (w, SDeletionPod(w.servers[k]))
      else if SERVER_FINALIZER in w.servers[k].meta.finalizers then (w, SFindPod(w.servers[k]))
      else (w, SAddFinalizer(w.servers[k]))
    case SAddFinalizer(s) =>
      (SetServer(w, k, s, WithFinalizer(s, SERVER_FINALIZER), ok), SIdle)
    case SFindPod(s) =>
      if !ok then (w, SReportFailure(s, s))
      else if k in w.pods then (w, SGetPod(s))
      else (w, SCreatePod(s))
    case SCreatePod(s) =>
      if ok && k !in w.pods then (CreatePod(w, k, s), SIdle)
      else (w, SReportFailure(s, Relabelled(k, s)))
    case SReportFailure(s, t) =>
      (SetServer(w, k, s, t, ok), SIdle)
    case SGetPod(s) =>
      if ok && k in w.pods && SERVER_FINALIZER !in w.pods[k].meta.finalizers
      then (w, SProtectPod(s, w.pods[k])) else (w, SIdle)
    case SProtectPod(s, p) =>
      (SetPod(w, k, p, WithFinalizer(p, SERVER_FINALIZER), ok), SIdle)
    case SDeletionPod(s) =>
      if ok && k in w.pods then (w, SCheck(s, w.pods[k])) else (w, SIdle)
    case SCheck(s, p) =>
      if AllowedOutright(s, p, w.clock) then (w, Release(s, p)) else (w, SShutdown(s, p))
    case SShutdown(s, p) =>
      if ok then (Shutdown(w, p.meta.uid), SAsk(s, p)) else (w, SIdle)
    case SAsk(s, p) =>
      if ok && SidecarOf(w, p.meta.uid).deleteAllowed then (w, Release(s, p)) else (w, SIdle)
    case SUnprotectPod(s, p) =>
      var q := WithoutFinalizer(p, SERVER_FINALIZER);
      if ok && CanUpdate(w.pods, k, p, q) then (SetPod(w, k, p, q, true), SGetPodAgain(s)) else (w, SIdle)
    case SGetPodAgain(s) =>
      if ok && k in w.pods then (w, SDeletePod(s)) else (w, SIdle)
    case SDeletePod(s) =>
      if ok && k in w.pods then (w.(pods := Mark(w.pods, k, w.clock)), SRemoveFinalizer(s)) else (w, SIdle)
    case SRemoveFinalizer(s) =>
      (SetServer(w, k, s, WithoutFinalizer(s, SERVER_FINALIZER), ok), SIdle)
  }

  // Updates, which change nothing when the call fails or conflicts.

  function SetServer(w: World, k: Name, copy: Server, o: Server, ok: bool): World {
    if ok && CanUpdate(w.servers, k, copy, o) then w.(servers := Put(w.servers, k, o)) else w
  }

  function SetFleet(w: World, f: Name, copy: Fleet, o: Fleet, ok: bool): World {
    if ok && CanUpdate(w.fleets, f, copy, o) then w.(fleets := Put(w.fleets, f, o)) else w
  }

  function SetGame(w: World, g: Name, copy: Game, o: Game, ok: bool): World {
    if ok && CanUpdate(w.games, g, copy, o) then w.(games := Put(w.games, g, o)) else w
  }

  /** A terminating pod without finalizers stays until the kubelet is done with it. */
  function SetPod(w: World, k: Name, copy: Pod, o: Pod, ok: bool): World {
    if ok && CanUpdate(w.pods, k, copy, o) then w.(pods := w.pods[k := o]) else w
  }

  // ---------------------------------------------------------------- the fleet worker

  function Items(w: World, order: seq<Name>): (items: seq<V.Candidate>)
    requires forall n :: n in order ==> n in w.servers
    ensures |items| == |order|
    ensures forall i :: 0 <= i < |items| ==>
      items[i] == V.Candidate(order[i], w.servers[order[i]].meta.created, V.Denied)
  {
    seq(|order|, i requires 0 <= i < |order| =>
      V.Candidate(order[i], w.servers[order[i]].meta.created, V.Denied))
  }

  function WithChecks(items: seq<V.Candidate>, checks: seq<V.Answer>): (r: seq<V.Candidate>)
    requires |checks| == |items|
    ensures |r| == |items|
    ensures forall i :: 0 <= i < |items| ==> r[i] == items[i].(answer := checks[i])
  {
    seq(|items|, i requires 0 <= i < |items| => items[i].(answer := checks[i]))
  }

  /** ProdDeletionChecker.isDeleteAllowed: an unreachable sidecar counts as a refusal. */
  function FleetCheck(w: World, k: Name, reach: bool): V.Answer {
    if k !in w.pods then V.CheckFailed
    else if reach && SidecarOf(w, w.pods[k].meta.uid).deleteAllowed then V.Allowed
    else V.Denied
  }

  /** The checker's answers for a list of servers, with the sidecars of `reach` in reach. */
  function Checks(w: World, items: seq<V.Candidate>, reach: set<Name>): (checks: seq<V.Answer>)
    ensures |checks| == |items|
    ensures forall i :: 0 <= i < |items| ==> checks[i] == FleetCheck(w, items[i].name, items[i].name in reach)
  {
    seq(|items|, i requires 0 <= i < |items| => FleetCheck(w, items[i].name, items[i].name in reach))
  }

  function CreateServer(w: World, f: Name, o: Fleet, name: Name): World {
    w.(servers := w.servers[name :=
         NewObj(w.nextUid, w.clock, o.labels["fleet" := f], DefaultServer(o.body.spec.server))],
       nextUid := w.nextUid + 1)
  }

  predicate Lists(w: World, f: Name, a: Answer) {
    a.ok && IsListing(a.order, ServersOf(w, f))
  }

  function FleetNext(w: World, f: Name, pc: FleetPc, a: Answer): (World, FleetPc) {
    match pc
    case FIdle =>
      if !a.ok || f !in w.fleets then (w, FIdle)
      else if Deleting(w.fleets[f]) then (w, FDrain(w.fleets[f]))
      else if FLEET_FINALIZER in w.fleets[f].meta.finalizers then (w, FCount(w.fleets[f]))
      else (w, FAddFinalizer(w.fleets[f]))
    case FAddFinalizer(o) =>
      (SetFleet(w, f, o, WithFinalizer(o, FLEET_FINALIZER), a.ok), FIdle)
    case FCount(o) =>
      if !Lists(w, f, a) then (w, FIdle)
      else if |a.order| < o.body.spec.replicas then (w, FCreate(o, o.body.spec.replicas - |a.order|))
      else if |a.order| > o.body.spec.replicas then (w, FChoose(o))
      else (w, FSave(o, |a.order|))
    case FCreate(o, left) =>
      if left == 0 then (w, FRecount(o))
      else if a.ok && a.name !in w.servers && ValidServer(DefaultServer(o.body.spec.server))
      then (CreateServer(w, f, o, a.name), FCreate(o, left - 1))
      else (w, FIdle)
    case FChoose(o) =>
      if Lists(w, f, a) then (w, FPick(o, Items(w, a.order))) else (w, FIdle)
    case FPick(o, items) =>
      if !a.ok || |a.checks| != |items| then (w, FIdle)
      else
        var pick := V.FindDeleteServer(o.body.spec, WithChecks(items, a.checks));
        if pick.Picked? then (w, FDelete(o, pick.server.name)) else (w, FIdle)
    case FDelete(o, v) =>
      if a.ok && v in w.servers
      then (w.(servers := Delete(w.servers, v, w.clock)), FRecount(o)) else (w, FIdle)
    case FRecount(o) =>
      if Lists(w, f, a) then (w, FSave(o, |a.order|)) else (w, FIdle)
    case FSave(o, n) =>
      (SetFleet(w, f, o, o.(body := o.body.(current := n)), a.ok), FIdle)
    case FDrain(o) =>
      if Lists(w, f, a) then (w, FDrainEach(o, a.order)) else (w, FIdle)
    case FDrainEach(o, todo) =>
      if todo == [] then (w, FDrained(o))
      else if a.ok && todo[0] in w.servers
      then (w.(servers := Delete(w.servers, todo[0], w.clock)), FDrainEach(o, todo[1..]))
      else (w, FIdle)
    case FDrained(o) =>
      if Lists(w, f, a) && a.order == [] then (w, FRemoveFinalizer(o)) else (w, FIdle)
    case FRemoveFinalizer(o) =>
      (SetFleet(w, f, o, WithoutFinalizer(o, FLEET_FINALIZER), a.ok), FIdle)
  }

  // ---------------------------------------------------------------- the game type worker

  /** The loop of handleGametypeStatus: the youngest fleet, the first one on ties. */
  function Youngest(w: World, order: seq<Name>): (y: Name)
    requires order != [] && forall n :: n in order ==> n in w.fleets
    ensures y in order
  {
    var last := order[|order| - 1];
    if |order| == 1 then last
    else
      var y := Youngest(w, order[..|order| - 1]);
      if w.fleets[last].meta.created > w.fleets[y].meta.created then last else y
  }

  /** The loop of handleUpdating: the oldest fleet, the first one on ties. */
  function Oldest(w: World, order: seq<Name>): (y: Name)
    requires order != [] && forall n :: n in order ==> n in w.fleets
    ensures y in order
  {
    var last := order[|order| - 1];
    if |order| == 1 then last
    else
      var y := Oldest(w, order[..|order| - 1]);
      if w.fleets[last].meta.created < w.fleets[y].meta.created then last else y
  }

  predicate ListsFleets(w: World, g: Name, a: Answer) {
    a.ok && IsListing(a.order, FleetsOf(w, g))
  }

  function Named(o: Game, f: Name): Game {
    o.(body := o.body.(fleetName := f))
  }

  function Counted(o: Game, n: int): Game {
    o.(body := o.body.(fleetReplicas := n))
  }

  function Resized(o: Fleet, n: int): Fleet {
    o.(body := o.body.(spec := o.body.spec.(replicas := n)))
  }

  predicate PodsEqual(a: FleetSpec, b: FleetSpec) {
    a.server.pod == b.server.pod
  }

  /** GetFleetObjectForType, after the fleet webhook's defaulting. */
  function CreateFleet(w: World, g: Name, o: Game, name: Name): World {
    w.(fleets := w.fleets[name :=
         NewObj(w.nextUid, w.clock, o.labels["type" := g], FleetBody(DefaultFleet(o.body.spec), 0))],
       nextUid := w.nextUid + 1)
  }

  function FetchOrList(o: Game, t: Game): GamePc {
    if t.body.fleetName == "" then GList(o) else GFetch(o, t)
  }

  function GameNext(w: World, g: Name, pc: GamePc, a: Answer): (World, GamePc) {
    match pc
    case GIdle =>
      if !a.ok || g !in w.games then (w, GIdle)
      else if TYPE_FINALIZER in w.games[g].meta.finalizers
      then (w, if Deleting(w.games[g]) then GDrain(w.games[g]) else GStatus(w.games[g]))
      else (w, if Deleting(w.games[g]) then GIdle else GAddFinalizer(w.games[g]))
    case GAddFinalizer(o) =>
      (SetGame(w, g, o, WithFinalizer(o, TYPE_FINALIZER), a.ok), GIdle)
    case GStatus(o) =>
      if !ListsFleets(w, g, a) then (w, GIdle)
      else if a.order == [] then (w, FetchOrList(o, o))
      else
        var y := Youngest(w, a.order);
        (w, GTouch(o, Named(o, y), y, w.fleets[y]))
    case GTouch(o, t, y, fleet) =>
      if a.ok && y in w.fleets && w.fleets[y] == fleet then (w, FetchOrList(o, t)) else (w, GIdle)
    case GFetch(o, t) =>
      if a.ok && t.body.fleetName in w.fleets
      then (w, GSaveReplicas(o, Counted(t, w.fleets[t.body.fleetName].body.spec.replicas)))
      else (w, GIdle)
    case GSaveReplicas(o, t) =>
      if a.ok && CanUpdate(w.games, g, o, t) then (SetGame(w, g, o, t, true), GList(t)) else (w, GIdle)
    case GList(o) =>
      if !ListsFleets(w, g, a) then (w, GIdle)
      else if |a.order| == 0 then (w, GCreate(o))
      else if |a.order| == 1 then
        assert a.order[0] in a.order;
        (w, GSaveName(o, a.order[0], w.fleets[a.order[0]]))
      else
        var x := Oldest(w, a.order);
        if Deleting(w.fleets[x]) then (w, GIdle) else (w, GDrop(o, x))
    case GSaveName(o, f, fleet) =>
      var t := Named(o, f);
      if !a.ok || !CanUpdate(w.games, g, o, t) then (w, GIdle)
      else if !PodsEqual(fleet.body.spec, o.body.spec) then (SetGame(w, g, o, t, true), GCreate(t))
      else if o.body.spec.replicas != o.body.fleetReplicas then (SetGame(w, g, o, t, true), GResize(t, f, fleet))
      else (SetGame(w, g, o, t, true), GIdle)
    case GResize(o, f, fleet) =>
      var n := Resized(fleet, o.body.spec.replicas);
      if a.ok && CanUpdate(w.fleets, f, fleet, n) && ValidFleetUpdate(fleet.body.spec, n.body.spec)
      then (SetFleet(w, f, fleet, n, true), GSaveSize(o)) else (w, GIdle)
    case GSaveSize(o) =>
      (SetGame(w, g, o, Counted(o, o.body.spec.replicas), a.ok), GIdle)
    case GCreate(o) =>
      if a.ok && a.name != "" && a.name !in w.fleets && ValidFleet(DefaultFleet(o.body.spec))
      then (CreateFleet(w, g, o, a.name), GIdle) else (w, GIdle)
    case GDrop(o, f) =>
      if a.ok && f in w.fleets then (w.(fleets := Delete(w.fleets, f, w.clock)), GIdle) else (w, GIdle)
    case GDrain(o) =>
      if ListsFleets(w, g, a) then (w, GDrainEach(o, a.order)) else (w, GIdle)
    case GDrainEach(o, todo) =>
      if todo == [] then (w, GDrained(o))
      else if a.ok && todo[0] in w.fleets
      then (w.(fleets := Delete(w.fleets, todo[0], w.clock)), GDrainEach(o, todo[1..]))
      else (w, GIdle)
    case GDrained(o) =>
      if ListsFleets(w, g, a) && a.order == [] then (w, GRemoveFinalizer(o)) else (w, GIdle)
    case GRemoveFinalizer(o) =>
      (SetGame(w, g, o, WithoutFinalizer(o, TYPE_FINALIZER), a.ok), GIdle)
  }

  // ---------------------------------------------------------------- the environment

  /**
   What users, the kubelet, the game servers and time do. Users never touch the operator's
   finalizers or the labels by which it finds its objects; everything else, other parties'
   finalizers included, they may edit within what the webhooks admit.
   */
  datatype EnvOp =
    | CreateGameOp(g: Name, labels: map<string, string>, spec: FleetSpec)
    | CreateFleetOp(f: Name, labels: map<string, string>, spec: FleetSpec)
    | CreateServerOp(k: Name, labels: map<string, string>, server: ServerSpec)
    | EditGame(g: Name, game: Game)
    | EditFleet(f: Name, fleet: Fleet)
    | EditServer(k: Name, s: Server)
    | EditPod(k: Name, p: Pod)
    | DeleteGame(g: Name)
    | DeleteFleet(f: Name)
    | DeleteServer(k: Name)
    | DeletePod(k: Name)
    | ReapPod(k: Name)
    | PostPermission(uid: nat, allowed: bool)
    | PostShutdown(uid: nat, requested: bool)
    | Tick(d: nat)

  /** A user's edit: an accepted update that leaves our finalizer and our label alone. */
  predicate UserEdit<B(==)>(m: map<Name, Obj<B>>, k: Name, o: Obj<B>, fin: string, key: string) {
    && k in m && CanUpdate(m, k, m[k], o)
    && (fin in o.meta.finalizers <==> fin in m[k].meta.finalizers)
    && (key in o.labels <==> key in m[k].labels)
    && (key in o.labels ==> o.labels[key] == m[k].labels[key])
  }

  function EnvNext(w: World, e: EnvOp): World {
    match e
    case CreateGameOp(g, labels, spec) =>
      if g in w.games then w
      else w.(games := w.games[g := NewObj(w.nextUid, w.clock, labels, GameBody(DefaultFleet(spec), "", 0))],
              nextUid := w.nextUid + 1)
    case CreateFleetOp(f, labels, spec) =>
      if f == "" || f in w.fleets || "type" in labels || !ValidFleet(DefaultFleet(spec)) then w
      else w.(fleets := w.fleets[f := NewObj(w.nextUid, w.clock, labels, FleetBody(DefaultFleet(spec), 0))],
              nextUid := w.nextUid + 1)
    case CreateServerOp(k, labels, spec) =>
      if k in w.servers || "fleet" in labels || !ValidServer(DefaultServer(spec)) then w
      else w.(servers := w.servers[k := NewObj(w.nextUid, w.clock, labels, DefaultServer(spec))],
              nextUid := w.nextUid + 1)
    case EditGame(g, o) =>
      if UserEdit(w.games, g, o, TYPE_FINALIZER, "type") then w.(games := Put(w.games, g, o)) else w
    case EditFleet(f, o) =>
      if UserEdit(w.fleets, f, o, FLEET_FINALIZER, "type")
         && ValidFleetUpdate(w.fleets[f].body.spec, o.body.spec)
      then w.(fleets := Put(w.fleets, f, o)) else w
    case EditServer(k, o) =>
      if UserEdit(w.servers, k, o, SERVER_FINALIZER, "fleet")
         && ValidServerUpdate(w.servers[k].body, o.body) && o.body == DefaultServer(o.body)
      then w.(servers := Put(w.servers, k, o)) else w
    case EditPod(k, o) =>
      if UserEdit(w.pods, k, o, SERVER_FINALIZER, "server") then w.(pods := w.pods[k := o]) else w
    case DeleteGame(g) => if g in w.games then w.(games := Delete(w.games, g, w.clock)) else w
    case DeleteFleet(f) => if f in w.fleets then w.(fleets := Delete(w.fleets, f, w.clock)) else w
    case DeleteServer(k) => if k in w.servers then w.(servers := Delete(w.servers, k, w.clock)) else w
    case DeletePod(k) => if k in w.pods then w.(pods := Mark(w.pods, k, w.clock)) else w
    case ReapPod(k) =>
      if k in w.pods && Deleting(w.pods[k]) && w.pods[k].meta.finalizers == {}
      then w.(pods := w.pods - {k}) else w
    case PostPermission(uid, b) =>
      w.(sidecars := w.sidecars[uid := SidecarOf(w, uid).(deleteAllowed := b)])
    case PostShutdown(uid, b) =>
      w.(sidecars := w.sidecars[uid := SidecarOf(w, uid).(shutdownRequested := b)])
    case Tick(n) => w.(clock := w.clock + n)
  }

  // ---------------------------------------------------------------- runs

  /** What happened in a step: an environment action, a worker's call, or a reconcile cut off. */
  datatype Act =
    | Start
    | Env(e: EnvOp)
    | ServerCall(k: Name, ok: bool)
    | FleetCall(f: Name, a: Answer)
    | GameCall(g: Name, a: Answer)
    | ServerCut(k: Name)
    | FleetCut(f: Name)
    | GameCut(g: Name)

  datatype State = State(
    w: World,
    sp: map<Name, ServerPc>,
    fp: map<Name, FleetPc>,
    gp: map<Name, GamePc>,
    act: Act)

  function SPc(s: State, k: Name): ServerPc {
    if k in s.sp then s.sp[k] else SIdle
  }

  function FPc(s: State, f: Name): FleetPc {
    if f in s.fp then s.fp[f] else FIdle
  }

  function GPc(s: State, g: Name): GamePc {
    if g in s.gp then s.gp[g] else GIdle
  }

  function Next(s: State, a: Act): State {
    match a
    case Start => s.(act := a)
    case Env(e) => s.(w := EnvNext(s.w, e), act := a)
    case ServerCall(k, ok) =>
      var (w, pc) := ServerNext(s.w, k, SPc(s, k), ok);
      s.(w := w, sp := s.sp[k := pc], act := a)
    case FleetCall(f, ans) =>
      var (w, pc) := FleetNext(s.w, f, FPc(s, f), ans);
      s.(w := w, fp := s.fp[f := pc], act := a)
    case GameCall(g, ans) =>
      var (w, pc) := GameNext(s.w, g, GPc(s, g), ans);
      s.(w := w, gp := s.gp[g := pc], act := a)
    case ServerCut(k) => s.(sp := s.sp[k := SIdle], act := a)
    case FleetCut(f) => s.(fp := s.fp[f := FIdle], act := a)
    case GameCut(g) => s.(gp := s.gp[g := GIdle], act := a)
  }

  ghost predicate Step(s: State, t: State) {
    t == Next(s, t.act)
  }

  ghost predicate StepAt(run: seq<State>, i: int)
    requires 0 < i < |run|
  {
    Step(run[i - 1], run[i])
  }

  ghost predicate IsRun(run: seq<State>) {
    && |run| > 0
    && forall i :: 0 < i < |run| ==> StepAt(run, i)
  }

  /** Every worker is between two reconciles. */
  ghost predicate AllIdle(s: State) {
    && (forall k :: SPc(s, k) == SIdle)
    && (forall f :: FPc(s, f) == FIdle)
    && (forall g :: GPc(s, g) == GIdle)
  }
}
