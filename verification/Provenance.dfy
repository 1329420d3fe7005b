/**
 Where things come from, over whole runs: every fleet, server and pod that a worker creates has,
 field by field, what its owner asked for when the reconcile that created it began; and after that
 only users change what was asked for, apart from the replica count of a fleet.
 */
module Provenance {
  import opened Api
  import opened Admission
  import opened Machine
  import RC = RolloutConvergence
  import CV = Convergence
  import A = Ancestry
  import L = Lifecycle
  import Ro = Rollout

  // ---------------------------------------------------------------- the copy a worker holds

  /** The worker of a game type may still come to create a fleet. */
  predicate MayCreate(pc: GamePc) {
    pc.GStatus? || pc.GTouch? || pc.GFetch? || pc.GSaveReplicas? || pc.GList? || pc.GSaveName? || pc.GCreate?
  }

  /** Apart from the status and what the store keeps about it, `o` is the game type `p`. */
  predicate AsksLike(o: Game, p: Game) {
    o.body.spec == p.body.spec && o.labels == p.labels
  }

  /** Every copy it holds asks for what `p` asks for. */
  predicate Asks(pc: GamePc, p: Game) {
    match pc
    case GTouch(o, t, y, fleet) => AsksLike(o, p) && AsksLike(t, p)
    case GFetch(o, t) => AsksLike(o, p) && AsksLike(t, p)
    case GSaveReplicas(o, t) => AsksLike(o, p) && AsksLike(t, p)
    case GStatus(o) => AsksLike(o, p)
    case GList(o) => AsksLike(o, p)
    case GSaveName(o, f, fleet) => AsksLike(o, p)
    case GCreate(o) => AsksLike(o, p)
    case _ => false
  }

  /** The copy by which the worker of a fleet may still create servers. */
  function FleetCopy(pc: FleetPc): Option<Fleet> {
    match pc
    case FCount(o) => Some(o)
    case FCreate(o, left) => Some(o)
    case _ => None
  }

  /** The copy by which the worker of a server may still create the pod. */
  function ServerCopy(pc: ServerPc): Option<Server> {
    match pc
    case SFindPod(s) => Some(s)
    case SCreatePod(s) => Some(s)
    case _ => None
  }

  lemma AskedStep(w: World, g: Name, pc: GamePc, a: Answer, p: Game)
    requires MayCreate(GameNext(w, g, pc, a).1)
    requires if pc == GIdle then g in w.games && p == w.games[g] else Asks(pc, p)
    ensures Asks(GameNext(w, g, pc, a).1, p)
  {}

  lemma AskedStart(w: World, g: Name, pc: GamePc, a: Answer)
    requires MayCreate(GameNext(w, g, pc, a).1)
    ensures if pc == GIdle then g in w.games && !Deleting(w.games[g]) else MayCreate(pc)
  {}

  lemma FleetCopyStep(w: World, f: Name, pc: FleetPc, a: Answer)
    requires FleetCopy(FleetNext(w, f, pc, a).1).Some?
    ensures var o := FleetCopy(FleetNext(w, f, pc, a).1);
      || (pc == FIdle && f in w.fleets && !Deleting(w.fleets[f]) && o == Some(w.fleets[f]))
      || o == FleetCopy(pc)
  {}

  lemma ServerCopyStep(w: World, k: Name, pc: ServerPc, ok: bool)
    requires ServerCopy(ServerNext(w, k, pc, ok).1).Some?
    ensures var s := ServerCopy(ServerNext(w, k, pc, ok).1);
      || (pc == SIdle && k in w.servers && !Deleting(w.servers[k]) && s == Some(w.servers[k]))
      || s == ServerCopy(pc)
  {}

  // ---------------------------------------------------------------- where a reconcile began

  /** The reconcile of `g` that is under way at `i` began at `j`, with a live game type. */
  ghost predicate GameBegan(run: seq<State>, j: nat, i: nat, g: Name) {
    && j < i < |run| && g in run[j].w.games && !Deleting(run[j].w.games[g])
    && GPc(run[j], g) == GIdle && forall m :: j < m <= i ==> GPc(run[m], g) != GIdle
  }

  ghost predicate FleetBegan(run: seq<State>, j: nat, i: nat, f: Name) {
    && j < i < |run| && f in run[j].w.fleets && !Deleting(run[j].w.fleets[f])
    && FPc(run[j], f) == FIdle && forall m :: j < m <= i ==> FPc(run[m], f) != FIdle
  }

  ghost predicate ServerBegan(run: seq<State>, j: nat, i: nat, k: Name) {
    && j < i < |run| && k in run[j].w.servers && !Deleting(run[j].w.servers[k])
    && SPc(run[j], k) == SIdle && forall m :: j < m <= i ==> SPc(run[m], k) != SIdle
  }

  lemma {:induction false} SpecIsRead(run: seq<State>, i: nat, g: Name) returns (j: nat)
    requires IsRun(run) && i < |run| && AllIdle(run[0]) && MayCreate(GPc(run[i], g))
    ensures GameBegan(run, j, i, g) && Asks(GPc(run[i], g), run[j].w.games[g])
  {
    assert StepAt(run, i);
    var s, a := run[i - 1], run[i].act;
    var called := a.GameCall? && a.g == g;
    if called {
      AskedStart(s.w, g, GPc(s, g), a.a);
    }
    if GPc(s, g) == GIdle {
      j := i - 1;
    } else {
      j := SpecIsRead(run, i - 1, g);
    }
    if called {
      AskedStep(s.w, g, GPc(s, g), a.a, run[j].w.games[g]);
    }
  }

  lemma {:induction false} FleetCopyIsRead(run: seq<State>, i: nat, f: Name) returns (j: nat)
    requires IsRun(run) && i < |run| && AllIdle(run[0]) && FleetCopy(FPc(run[i], f)).Some?
    ensures FleetBegan(run, j, i, f) && FleetCopy(FPc(run[i], f)).value == run[j].w.fleets[f]
  {
    assert StepAt(run, i);
    var s, a := run[i - 1], run[i].act;
    if a.FleetCall? && a.f == f {
      FleetCopyStep(s.w, f, FPc(s, f), a.a);
    }
    if FPc(s, f) == FIdle {
      j := i - 1;
    } else {
      j := FleetCopyIsRead(run, i - 1, f);
    }
  }

  lemma {:induction false} ServerCopyIsRead(run: seq<State>, i: nat, k: Name) returns (j: nat)
    requires IsRun(run) && i < |run| && AllIdle(run[0]) && ServerCopy(SPc(run[i], k)).Some?
    ensures ServerBegan(run, j, i, k) && ServerCopy(SPc(run[i], k)).value == run[j].w.servers[k]
  {
    assert StepAt(run, i);
    var s, a := run[i - 1], run[i].act;
    if a.ServerCall? && a.k == k {
      ServerCopyStep(s.w, k, SPc(s, k), a.ok);
    }
    if SPc(s, k) == SIdle {
      j := i - 1;
    } else {
      j := ServerCopyIsRead(run, i - 1, k);
    }
  }

  // ---------------------------------------------------------------- what is created

  /** `s` is a new server of `f`, created now from the copy `o` of the fleet. */
  predicate ServerMadeFrom(s: Server, f: Name, o: Fleet, now: int) {
    CV.NewServer(s, f, o) && s.meta.created == now
  }

  /** `p` is the new pod of server `k`, created now from the copy `s` of the server. */
  ghost predicate PodMadeFrom(p: Pod, config: Config, k: Name, s: Server, now: int) {
    && A.PodMadeFrom(p.body.spec, config, k, s.labels, s.body.pod) && p.body.phase == Pending
    && p.labels == s.labels["server" := k]
    && p.meta.created == now && p.meta.deleted.None? && p.meta.finalizers == {}
  }

  // The calls of one worker, and the environment.

  /** Servers are created and changed by fleets and users; a server's worker creates its pod. */
  lemma ServerCallMakes(w: World, k: Name, pc: ServerPc, ok: bool)
    ensures var w' := ServerNext(w, k, pc, ok).0;
      && w'.games == w.games && w'.fleets == w.fleets
      && (forall j :: j in w'.servers ==> j in w.servers)
      && (forall j :: j in w'.pods && j !in w.pods ==>
            && j == k && pc.SCreatePod? && PodMadeFrom(w'.pods[k], w.config, k, pc.s, w.clock))
  {
    if pc.SCreatePod? {
      A.BuildMakes(w.config, k, pc.s.labels, pc.s.body.pod);
    }
  }

  lemma FleetCallMakes(w: World, f: Name, pc: FleetPc, a: Answer)
    ensures var w' := FleetNext(w, f, pc, a).0;
      && w'.games == w.games && w'.pods == w.pods
      && (forall h :: h in w'.fleets ==> h in w.fleets && w'.fleets[h].body.spec == w.fleets[h].body.spec)
      && (forall j :: j in w'.servers && j in w.servers ==> w'.servers[j].body == w.servers[j].body)
      && (forall j :: j in w'.servers && j !in w.servers ==>
            && pc.FCreate? && ServerMadeFrom(w'.servers[j], f, pc.o, w.clock))
  {}

  lemma GameCallMakes(w: World, g: Name, pc: GamePc, a: Answer)
    ensures var w' := GameNext(w, g, pc, a).0;
      && w'.servers == w.servers && w'.pods == w.pods
      && (forall f :: f in w'.fleets && f in w.fleets ==>
            || w'.fleets[f].body.spec == w.fleets[f].body.spec
            || (pc.GResize? && RC.ResizedTo(w.fleets[f], w'.fleets[f], pc.o.body.spec.replicas)))
      && (forall f :: f in w'.fleets && f !in w.fleets ==>
            && pc.GCreate? && RC.MadeFrom(w'.fleets[f], g, pc.o, w.clock))
  {
    match pc
    case GCreate(o) => GameCreateMakes(w, g, o, a);
    case GResize(o, f, fleet) => GameResizeMakes(w, g, pc, a);
    case GDrop(o, f) => GameDeleteMakes(w, g, pc, a);
    case GDrainEach(o, todo) => GameDeleteMakes(w, g, pc, a);
    case _ => Ro.OnlyFleetCalls(w, g, pc, a);
      GameCallFrame(w, g, pc, a);
  }

  lemma GameCallFrame(w: World, g: Name, pc: GamePc, a: Answer)
    ensures GameNext(w, g, pc, a).0.servers == w.servers && GameNext(w, g, pc, a).0.pods == w.pods
  {}

  lemma GameCreateMakes(w: World, g: Name, o: Game, a: Answer)
    ensures var w' := GameNext(w, g, GCreate(o), a).0;
      && w'.servers == w.servers && w'.pods == w.pods
      && (forall f :: f in w'.fleets && f in w.fleets ==> w'.fleets[f] == w.fleets[f])
      && (forall f :: f in w'.fleets && f !in w.fleets ==> RC.MadeFrom(w'.fleets[f], g, o, w.clock))
  {}

  lemma GameResizeMakes(w: World, g: Name, pc: GamePc, a: Answer)
    requires pc.GResize?
    ensures var w' := GameNext(w, g, pc, a).0;
      && w'.servers == w.servers && w'.pods == w.pods && w'.fleets.Keys <= w.fleets.Keys
      && (forall f :: f in w'.fleets && w'.fleets[f] != w.fleets[f] ==>
            RC.ResizedTo(w.fleets[f], w'.fleets[f], pc.o.body.spec.replicas))
  {}

  lemma GameDeleteMakes(w: World, g: Name, pc: GamePc, a: Answer)
    requires pc.GDrop? || pc.GDrainEach?
    ensures var w' := GameNext(w, g, pc, a).0;
      && w'.servers == w.servers && w'.pods == w.pods
      && (forall f :: f in w'.fleets ==> f in w.fleets && w'.fleets[f].body == w.fleets[f].body)
  {}

  lemma EnvMakes(w: World, e: EnvOp)
    ensures var w' := EnvNext(w, e);
      && (forall k :: k in w'.pods ==> k in w.pods)
      && (forall k :: k in w'.servers && k !in w.servers ==> "fleet" !in w'.servers[k].labels)
      && (forall f :: f in w'.fleets && f !in w.fleets ==> "type" !in w'.fleets[f].labels)
  {}

  lemma NewFleetIsGames(s: State, t: State, g: Name, f: Name)
    requires Step(s, t) && f in FleetsOf(t.w, g) && f !in s.w.fleets
    ensures GPc(s, g).GCreate? && RC.MadeFrom(t.w.fleets[f], g, GPc(s, g).o, s.w.clock)
  {
    match t.act
    case Env(e) => EnvMakes(s.w, e);
    case ServerCall(k, ok) => ServerCallMakes(s.w, k, SPc(s, k), ok);
    case FleetCall(h, a) => FleetCallMakes(s.w, h, FPc(s, h), a);
    case GameCall(h, a) => GameCallMakes(s.w, h, GPc(s, h), a);
    case _ =>
  }

  lemma NewServerIsFleets(s: State, t: State, f: Name, k: Name)
    requires Step(s, t) && k in ServersOf(t.w, f) && k !in s.w.servers
    ensures FPc(s, f).FCreate? && ServerMadeFrom(t.w.servers[k], f, FPc(s, f).o, s.w.clock)
  {
    match t.act
    case Env(e) => EnvMakes(s.w, e);
    case ServerCall(j, ok) => ServerCallMakes(s.w, j, SPc(s, j), ok);
    case FleetCall(h, a) => FleetCallMakes(s.w, h, FPc(s, h), a);
    case GameCall(h, a) => GameCallMakes(s.w, h, GPc(s, h), a);
    case _ =>
  }

  lemma NewPodIsServers(s: State, t: State, k: Name)
    requires Step(s, t) && k in t.w.pods && k !in s.w.pods
    ensures SPc(s, k).SCreatePod? && PodMadeFrom(t.w.pods[k], s.w.config, k, SPc(s, k).s, s.w.clock)
  {
    match t.act
    case Env(e) => EnvMakes(s.w, e);
    case ServerCall(j, ok) => ServerCallMakes(s.w, j, SPc(s, j), ok);
    case FleetCall(h, a) => FleetCallMakes(s.w, h, FPc(s, h), a);
    case GameCall(h, a) => GameCallMakes(s.w, h, GPc(s, h), a);
    case _ =>
  }

  // ---------------------------------------------------------------- over whole runs

  /** At `i` fleet `f` is as the game type asked for at `j`, when the reconcile under way began. */
  ghost predicate FleetFromGame(run: seq<State>, j: nat, i: nat, g: Name, f: Name)
    requires 0 < i < |run| && f in run[i].w.fleets
  {
    && GameBegan(run, j, i - 1, g)
    && RC.MadeFrom(run[i].w.fleets[f], g, run[j].w.games[g], run[i - 1].w.clock)
  }

  ghost predicate ServerFromFleet(run: seq<State>, j: nat, i: nat, f: Name, k: Name)
    requires 0 < i < |run| && k in run[i].w.servers
  {
    && FleetBegan(run, j, i - 1, f)
    && ServerMadeFrom(run[i].w.servers[k], f, run[j].w.fleets[f], run[i - 1].w.clock)
  }

  ghost predicate PodFromServer(run: seq<State>, j: nat, i: nat, k: Name)
    requires 0 < i < |run| && k in run[i].w.pods
  {
    && ServerBegan(run, j, i - 1, k)
    && PodMadeFrom(run[i].w.pods[k], run[i - 1].w.config, k, run[j].w.servers[k], run[i - 1].w.clock)
  }

  /**
   Every fleet that appears under a game type has what the game type, then live, asked for when the
   reconcile that created it began: template, force, timeout or forty minutes, replicas, and how
   to scale down.
   */
  lemma FleetsAreMadeToSpec(run: seq<State>, i: nat, g: Name, f: Name)
    requires IsRun(run) && 0 < i < |run| && AllIdle(run[0])
    requires f in FleetsOf(run[i].w, g) && f !in run[i - 1].w.fleets
    ensures exists j :: 0 <= j && FleetFromGame(run, j, i, g, f)
  {
    assert StepAt(run, i);
    NewFleetIsGames(run[i - 1], run[i], g, f);
    var j := SpecIsRead(run, i - 1, g);
    assert FleetFromGame(run, j, i, g, f);
  }

  /** So has every server that appears under a fleet. */
  lemma ServersAreMadeToSpec(run: seq<State>, i: nat, f: Name, k: Name)
    requires IsRun(run) && 0 < i < |run| && AllIdle(run[0])
    requires k in ServersOf(run[i].w, f) && k !in run[i - 1].w.servers
    ensures exists j :: 0 <= j && ServerFromFleet(run, j, i, f, k)
  {
    assert StepAt(run, i);
    NewServerIsFleets(run[i - 1], run[i], f, k);
    var j := FleetCopyIsRead(run, i - 1, f);
    assert ServerFromFleet(run, j, i, f, k);
  }

  /** And so has every pod, with the sidecar and the environment that the operator adds. */
  lemma PodsAreMadeToSpec(run: seq<State>, i: nat, k: Name)
    requires IsRun(run) && 0 < i < |run| && AllIdle(run[0])
    requires k in run[i].w.pods && k !in run[i - 1].w.pods
    ensures exists j :: 0 <= j && PodFromServer(run, j, i, k)
  {
    var s := NewPodAt(run, i, k);
    var j := ServerCopyIsRead(run, i - 1, k);
    assert PodFromServer(run, j, i, k);
  }

  lemma NewPodAt(run: seq<State>, i: nat, k: Name) returns (s: Server)
    requires IsRun(run) && 0 < i < |run| && k in run[i].w.pods && k !in run[i - 1].w.pods
    ensures ServerCopy(SPc(run[i - 1], k)) == Some(s)
    ensures PodMadeFrom(run[i].w.pods[k], run[i - 1].w.config, k, s, run[i - 1].w.clock)
  {
    assert StepAt(run, i);
    NewPodIsServers(run[i - 1], run[i], k);
    s := SPc(run[i - 1], k).s;
  }

  // ---------------------------------------------------------------- who changes it

  lemma GameCallKeepsSpecs(w: World, g: Name, pc: GamePc, a: Answer)
    requires pc.GSaveReplicas? ==> pc.t.body.spec == pc.o.body.spec
    ensures var w' := GameNext(w, g, pc, a).0;
      forall h :: h in w.games && h in w'.games ==> w'.games[h].body.spec == w.games[h].body.spec
  {}

  lemma ServerCallKeepsSpecs(w: World, k: Name, pc: ServerPc, ok: bool)
    requires L.ServerInv(w, k, pc)
    ensures var w' := ServerNext(w, k, pc, ok).0;
      forall j :: j in w.servers && j in w'.servers ==> w'.servers[j].body == w.servers[j].body
  {}

  lemma EnvKeepsSpecs(w: World, e: EnvOp)
    ensures var w' := EnvNext(w, e);
      && (forall g :: g in w.games && g in w'.games && w'.games[g].body.spec != w.games[g].body.spec ==>
            e.EditGame? && e.g == g)
      && (forall f :: f in w.fleets && f in w'.fleets && w'.fleets[f].body.spec != w.fleets[f].body.spec ==>
            e.EditFleet? && e.f == f)
      && (forall k :: k in w.servers && k in w'.servers && w'.servers[k].body != w.servers[k].body ==>
            e.EditServer? && e.k == k)
  {
    EnvKeepsOwners(w, e);
    EnvKeepsServers(w, e);
  }

  lemma EnvKeepsOwners(w: World, e: EnvOp)
    ensures var w' := EnvNext(w, e);
      && (forall g :: g in w.games && g in w'.games && w'.games[g].body.spec != w.games[g].body.spec ==>
            e.EditGame? && e.g == g)
      && (forall f :: f in w.fleets && f in w'.fleets && w'.fleets[f].body.spec != w.fleets[f].body.spec ==>
            e.EditFleet? && e.f == f)
  {}

  lemma EnvKeepsServers(w: World, e: EnvOp)
    ensures var w' := EnvNext(w, e);
      forall k :: k in w.servers && k in w'.servers && w'.servers[k].body != w.servers[k].body ==>
        e.EditServer? && e.k == k
  {}

  /**
   What was asked for is changed by users alone, or by the autoscaler in a user's place, except for
   the replica count of a fleet, which follows its game type's.
   */
  lemma OnlyUsersChangeSpecs(run: seq<State>, i: nat)
    requires IsRun(run) && i + 1 < |run|
    requires AllIdle(run[0]) && L.Orderly(run[0].w)
    ensures var w, w', a := run[i].w, run[i + 1].w, run[i + 1].act;
      && (forall g :: g in w.games && g in w'.games && w'.games[g].body.spec != w.games[g].body.spec ==>
            a.Env? && a.e.EditGame? && a.e.g == g)
      && (forall f :: f in w.fleets && f in w'.fleets && w'.fleets[f].body.spec != w.fleets[f].body.spec ==>
            || (a.Env? && a.e.EditFleet? && a.e.f == f)
            || (a.GameCall? && GPc(run[i], a.g).GResize?
                && RC.ResizedTo(w.fleets[f], w'.fleets[f], GPc(run[i], a.g).o.body.spec.replicas)))
      && (forall k :: k in w.servers && k in w'.servers && w'.servers[k].body != w.servers[k].body ==>
            a.Env? && a.e.EditServer? && a.e.k == k)
  {
    assert StepAt(run, i + 1);
    L.StartInv(run[0]);
    L.InvHolds(run, i);
    var s := run[i];
    match run[i + 1].act
    case Env(e) => EnvKeepsSpecs(s.w, e);
    case ServerCall(k, ok) =>
      ServerCallMakes(s.w, k, SPc(s, k), ok);
      assert L.ServerInv(s.w, k, SPc(s, k));
      ServerCallKeepsSpecs(s.w, k, SPc(s, k), ok);
    case FleetCall(h, a) => FleetCallMakes(s.w, h, FPc(s, h), a);
    case GameCall(h, a) =>
      GameCallMakes(s.w, h, GPc(s, h), a);
      SpecsKeptByGame(run, i, h, a);
    case _ =>
  }

  lemma SpecsKeptByGame(run: seq<State>, i: nat, h: Name, a: Answer)
    requires IsRun(run) && i < |run| && AllIdle(run[0])
    ensures var w, w' := run[i].w, GameNext(run[i].w, h, GPc(run[i], h), a).0;
      forall g :: g in w.games && g in w'.games ==> w'.games[g].body.spec == w.games[g].body.spec
  {
    var pc := GPc(run[i], h);
    if pc.GSaveReplicas? {
      var j := SpecIsRead(run, i, h);
    }
    GameCallKeepsSpecs(run[i].w, h, pc, a);
  }

  /** A permission is given and taken by the game server alone, and shutdown is asked of its own pod's sidecar. */
  lemma FlagsAreTheGames(s: State, t: State, uid: nat)
    requires Step(s, t)
    ensures SidecarOf(t.w, uid).deleteAllowed != SidecarOf(s.w, uid).deleteAllowed ==>
      t.act.Env? && t.act.e == PostPermission(uid, SidecarOf(t.w, uid).deleteAllowed)
    ensures SidecarOf(t.w, uid).shutdownRequested != SidecarOf(s.w, uid).shutdownRequested ==>
      || (t.act.Env? && t.act.e == PostShutdown(uid, SidecarOf(t.w, uid).shutdownRequested))
      || (t.act.ServerCall? && t.act.ok && SPc(s, t.act.k).SShutdown? && SPc(s, t.act.k).p.meta.uid == uid
          && SidecarOf(t.w, uid).shutdownRequested)
  {
    match t.act
    case Env(e) => EnvAndSidecars(s.w, e, uid);
    case ServerCall(k, ok) => ServerAndSidecars(s.w, k, SPc(s, k), ok, uid);
    case FleetCall(f, a) => FleetLeavesSidecars(s.w, f, FPc(s, f), a);
    case GameCall(g, a) => GameLeavesSidecars(s.w, g, GPc(s, g), a);
    case _ =>
  }

  lemma EnvAndSidecars(w: World, e: EnvOp, uid: nat)
    ensures var a, b := SidecarOf(w, uid), SidecarOf(EnvNext(w, e), uid);
      && (b.deleteAllowed != a.deleteAllowed ==> e == PostPermission(uid, b.deleteAllowed))
      && (b.shutdownRequested != a.shutdownRequested ==> e == PostShutdown(uid, b.shutdownRequested))
  {}

  lemma ServerAndSidecars(w: World, k: Name, pc: ServerPc, ok: bool, uid: nat)
    ensures var a, b := SidecarOf(w, uid), SidecarOf(ServerNext(w, k, pc, ok).0, uid);
      && b.deleteAllowed == a.deleteAllowed
      && (b.shutdownRequested != a.shutdownRequested ==>
            ok && pc.SShutdown? && pc.p.meta.uid == uid && b.shutdownRequested)
  {}

  lemma FleetLeavesSidecars(w: World, f: Name, pc: FleetPc, a: Answer)
    ensures FleetNext(w, f, pc, a).0.sidecars == w.sidecars
  {}

  lemma GameLeavesSidecars(w: World, g: Name, pc: GamePc, a: Answer)
    ensures GameNext(w, g, pc, a).0.sidecars == w.sidecars
  {}

  // ---------------------------------------------------------------- what the store keeps about it

  /** Identity and age stay, and a deletion time is set once, to the current time. */
  predicate StampsKept<B>(m: map<Name, Obj<B>>, m': map<Name, Obj<B>>, now: int) {
    forall k :: k in m && k in m' ==>
      && m'[k].meta.uid == m[k].meta.uid && m'[k].meta.created == m[k].meta.created
      && (m[k].meta.deleted.Some? ==> m'[k].meta.deleted == m[k].meta.deleted)
      && (m[k].meta.deleted.None? && m'[k].meta.deleted.Some? ==> m'[k].meta.deleted == Some(now))
  }

  /** Finalizers other than `fin` stay, and keep their objects. */
  predicate OthersKept<B>(m: map<Name, Obj<B>>, m': map<Name, Obj<B>>, fin: string) {
    && (forall k :: k in m && !(m[k].meta.finalizers <= {fin}) ==> k in m')
    && (forall k :: k in m && k in m' ==> m'[k].meta.finalizers - {fin} == m[k].meta.finalizers - {fin})
  }

  ghost predicate AllStampsKept(w: World, w': World) {
    && StampsKept(w.games, w'.games, w.clock) && StampsKept(w.fleets, w'.fleets, w.clock)
    && StampsKept(w.servers, w'.servers, w.clock) && StampsKept(w.pods, w'.pods, w.clock)
  }

  ghost predicate AllOthersKept(w: World, w': World) {
    && OthersKept(w.games, w'.games, TYPE_FINALIZER) && OthersKept(w.fleets, w'.fleets, FLEET_FINALIZER)
    && OthersKept(w.servers, w'.servers, SERVER_FINALIZER) && OthersKept(w.pods, w'.pods, SERVER_FINALIZER)
  }

  lemma SameKept<B>(m: map<Name, Obj<B>>, fin: string, now: int)
    ensures StampsKept(m, m, now) && OthersKept(m, m, fin)
  {}

  lemma NothingKept(w: World)
    ensures AllStampsKept(w, w) && AllOthersKept(w, w)
  {
    SameKept(w.games, TYPE_FINALIZER, w.clock);
    SameKept(w.fleets, FLEET_FINALIZER, w.clock);
    SameKept(w.servers, SERVER_FINALIZER, w.clock);
    SameKept(w.pods, SERVER_FINALIZER, w.clock);
  }

  lemma NewKept<B>(m: map<Name, Obj<B>>, k: Name, o: Obj<B>, fin: string, now: int)
    requires k !in m
    ensures StampsKept(m, m[k := o], now) && OthersKept(m, m[k := o], fin)
  {}

  lemma MarkKept<B>(m: map<Name, Obj<B>>, k: Name, fin: string, now: int)
    requires k in m
    ensures StampsKept(m, Mark(m, k, now), now) && OthersKept(m, Mark(m, k, now), fin)
  {}

  lemma DeleteKept<B>(m: map<Name, Obj<B>>, k: Name, fin: string, now: int)
    requires k in m
    ensures StampsKept(m, Api.Delete(m, k, now), now) && OthersKept(m, Api.Delete(m, k, now), fin)
  {}

  lemma SetKept<B>(m: map<Name, Obj<B>>, k: Name, copy: Obj<B>, o: Obj<B>, fin: string, now: int)
    requires CanUpdate(m, k, copy, o)
    ensures StampsKept(m, m[k := o], now) && StampsKept(m, Put(m, k, o), now)
    ensures o.meta.finalizers - {fin} == copy.meta.finalizers - {fin} ==>
      OthersKept(m, m[k := o], fin) && OthersKept(m, Put(m, k, o), fin)
  {
    if o.meta.finalizers == {} && o.meta.finalizers - {fin} == copy.meta.finalizers - {fin} {
      assert copy.meta.finalizers <= {fin} by {
        forall x | x in copy.meta.finalizers ensures x == fin {
          assert x in copy.meta.finalizers - {fin} || x == fin;
        }
      }
    }
  }

  lemma ServerCallKeepsMeta(w: World, k: Name, pc: ServerPc, ok: bool)
    requires L.ServerInv(w, k, pc)
    ensures AllStampsKept(w, ServerNext(w, k, pc, ok).0) && AllOthersKept(w, ServerNext(w, k, pc, ok).0)
  {
    NothingKept(w);
    if ServerNext(w, k, pc, ok).0 != w {
      match pc
      case SAddFinalizer(s) =>
        SetKept(w.servers, k, s, WithFinalizer(s, SERVER_FINALIZER), SERVER_FINALIZER, w.clock);
      case SReportFailure(s, t) => SetKept(w.servers, k, s, t, SERVER_FINALIZER, w.clock);
      case SRemoveFinalizer(s) =>
        SetKept(w.servers, k, s, WithoutFinalizer(s, SERVER_FINALIZER), SERVER_FINALIZER, w.clock);
      case SCreatePod(s) =>
        NewKept(w.pods, k, CreatePod(w, k, s).pods[k], SERVER_FINALIZER, w.clock);
      case SProtectPod(s, p) =>
        SetKept(w.pods, k, p, WithFinalizer(p, SERVER_FINALIZER), SERVER_FINALIZER, w.clock);
      case SUnprotectPod(s, p) =>
        SetKept(w.pods, k, p, WithoutFinalizer(p, SERVER_FINALIZER), SERVER_FINALIZER, w.clock);
      case SDeletePod(s) => MarkKept(w.pods, k, SERVER_FINALIZER, w.clock);
      case SShutdown(s, p) =>
    }
  }

  lemma FleetCallKeepsMeta(w: World, f: Name, pc: FleetPc, a: Answer)
    ensures AllStampsKept(w, FleetNext(w, f, pc, a).0) && AllOthersKept(w, FleetNext(w, f, pc, a).0)
  {
    NothingKept(w);
    if FleetNext(w, f, pc, a).0 != w {
      match pc
      case FAddFinalizer(o) =>
        SetKept(w.fleets, f, o, WithFinalizer(o, FLEET_FINALIZER), FLEET_FINALIZER, w.clock);
      case FRemoveFinalizer(o) =>
        SetKept(w.fleets, f, o, WithoutFinalizer(o, FLEET_FINALIZER), FLEET_FINALIZER, w.clock);
      case FSave(o, n) =>
        SetKept(w.fleets, f, o, o.(body := o.body.(current := n)), FLEET_FINALIZER, w.clock);
      case FCreate(o, left) =>
        NewKept(w.servers, a.name, CreateServer(w, f, o, a.name).servers[a.name], SERVER_FINALIZER, w.clock);
      case FDelete(o, v) => DeleteKept(w.servers, v, SERVER_FINALIZER, w.clock);
      case FDrainEach(o, todo) => DeleteKept(w.servers, todo[0], SERVER_FINALIZER, w.clock);
    }
  }

  lemma GameCallKeepsMeta(w: World, g: Name, pc: GamePc, a: Answer)
    requires L.GameInv(w, g, pc)
    ensures AllStampsKept(w, GameNext(w, g, pc, a).0) && AllOthersKept(w, GameNext(w, g, pc, a).0)
  {
    NothingKept(w);
    if pc.GAddFinalizer? || pc.GRemoveFinalizer? || pc.GSaveReplicas? || pc.GSaveName? || pc.GSaveSize? {
      GameUpdateKeepsMeta(w, g, pc, a);
    } else if pc.GResize? || pc.GCreate? || pc.GDrop? || pc.GDrainEach? {
      GameFleetsKeepMeta(w, g, pc, a);
    }
  }

  /** What a call that updates the game type stores. */
  lemma GameWrites(w: World, g: Name, pc: GamePc, a: Answer) returns (t: Game)
    requires L.GameInv(w, g, pc) && GameNext(w, g, pc, a).0 != w
    requires pc.GAddFinalizer? || pc.GRemoveFinalizer? || pc.GSaveReplicas? || pc.GSaveName? || pc.GSaveSize?
    ensures CanUpdate(w.games, g, pc.o, t) && GameNext(w, g, pc, a).0 == w.(games := Put(w.games, g, t))
    ensures t.meta.finalizers - {TYPE_FINALIZER} == pc.o.meta.finalizers - {TYPE_FINALIZER}
  {
    match pc
    case GAddFinalizer(o) => t := WithFinalizer(o, TYPE_FINALIZER);
    case GRemoveFinalizer(o) => t := WithoutFinalizer(o, TYPE_FINALIZER);
    case GSaveReplicas(o, u) => t := u;
    case GSaveName(o, f, fleet) => t := Named(o, f);
    case GSaveSize(o) => t := Counted(o, o.body.spec.replicas);
  }

  lemma GameUpdateKeepsMeta(w: World, g: Name, pc: GamePc, a: Answer)
    requires L.GameInv(w, g, pc)
    requires pc.GAddFinalizer? || pc.GRemoveFinalizer? || pc.GSaveReplicas? || pc.GSaveName? || pc.GSaveSize?
    ensures var w' := GameNext(w, g, pc, a).0;
      && w' == w.(games := w'.games)
      && StampsKept(w.games, w'.games, w.clock) && OthersKept(w.games, w'.games, TYPE_FINALIZER)
  {
    if GameNext(w, g, pc, a).0 == w {
      SameKept(w.games, TYPE_FINALIZER, w.clock);
    } else {
      var t := GameWrites(w, g, pc, a);
      SetKept(w.games, g, pc.o, t, TYPE_FINALIZER, w.clock);
    }
  }

  lemma GameFleetsKeepMeta(w: World, g: Name, pc: GamePc, a: Answer)
    requires pc.GResize? || pc.GCreate? || pc.GDrop? || pc.GDrainEach?
    ensures var w' := GameNext(w, g, pc, a).0;
      && w'.games == w.games && w'.servers == w.servers && w'.pods == w.pods
      && StampsKept(w.fleets, w'.fleets, w.clock) && OthersKept(w.fleets, w'.fleets, FLEET_FINALIZER)
  {
    SameKept(w.fleets, FLEET_FINALIZER, w.clock);
    if GameNext(w, g, pc, a).0 != w {
      match pc
      case GResize(o, f, fleet) =>
        SetKept(w.fleets, f, fleet, Resized(fleet, o.body.spec.replicas), FLEET_FINALIZER, w.clock);
      case GCreate(o) =>
        NewKept(w.fleets, a.name, CreateFleet(w, g, o, a.name).fleets[a.name], FLEET_FINALIZER, w.clock);
      case GDrop(o, f) => DeleteKept(w.fleets, f, FLEET_FINALIZER, w.clock);
      case GDrainEach(o, todo) => DeleteKept(w.fleets, todo[0], FLEET_FINALIZER, w.clock);
    }
  }

  lemma EnvKeepsStamps(w: World, e: EnvOp)
    ensures AllStampsKept(w, EnvNext(w, e))
  {
    NothingKept(w);
    if EnvNext(w, e) != w {
      match e
      case CreateGameOp(g, labels, spec) => NewKept(w.games, g, EnvNext(w, e).games[g], "", w.clock);
      case CreateFleetOp(f, labels, spec) => NewKept(w.fleets, f, EnvNext(w, e).fleets[f], "", w.clock);
      case CreateServerOp(k, labels, spec) => NewKept(w.servers, k, EnvNext(w, e).servers[k], "", w.clock);
      case EditGame(g, o) => SetKept(w.games, g, w.games[g], o, "", w.clock);
      case EditFleet(f, o) => SetKept(w.fleets, f, w.fleets[f], o, "", w.clock);
      case EditServer(k, o) => SetKept(w.servers, k, w.servers[k], o, "", w.clock);
      case EditPod(k, o) => SetKept(w.pods, k, w.pods[k], o, "", w.clock);
      case DeleteGame(g) => DeleteKept(w.games, g, "", w.clock);
      case DeleteFleet(f) => DeleteKept(w.fleets, f, "", w.clock);
      case DeleteServer(k) => DeleteKept(w.servers, k, "", w.clock);
      case DeletePod(k) => MarkKept(w.pods, k, "", w.clock);
      case ReapPod(k) =>
      case PostPermission(uid, b) =>
      case PostShutdown(uid, b) =>
      case Tick(d) =>
    }
  }

  /**
   In every run identity and age stay and a deletion time is never restarted, so that a deadline
   stands; and the operator takes no finalizer but its own and removes nothing that another holds.
   */
  lemma MetaStands(run: seq<State>, i: nat)
    requires IsRun(run) && i + 1 < |run|
    requires AllIdle(run[0]) && L.Orderly(run[0].w)
    ensures AllStampsKept(run[i].w, run[i + 1].w)
    ensures !run[i + 1].act.Env? ==> AllOthersKept(run[i].w, run[i + 1].w)
  {
    assert StepAt(run, i + 1);
    L.StartInv(run[0]);
    L.InvHolds(run, i);
    var s := run[i];
    match run[i + 1].act
    case Env(e) => EnvKeepsStamps(s.w, e);
    case ServerCall(k, ok) =>
      assert L.ServerInv(s.w, k, SPc(s, k));
      ServerCallKeepsMeta(s.w, k, SPc(s, k), ok);
    case FleetCall(f, a) => FleetCallKeepsMeta(s.w, f, FPc(s, f), a);
    case GameCall(g, a) =>
      assert L.GameInv(s.w, g, GPc(s, g));
      GameCallKeepsMeta(s.w, g, GPc(s, g), a);
    case _ => NothingKept(s.w);
  }

  /** As long as a deleting server is there, its deletion time is the same. */
  lemma {:induction false} DeletionTimeStands(run: seq<State>, i: nat, j: nat, k: Name)
    requires IsRun(run) && i <= j < |run|
    requires AllIdle(run[0]) && L.Orderly(run[0].w)
    requires forall m :: i <= m <= j ==> k in run[m].w.servers
    requires Deleting(run[i].w.servers[k])
    ensures run[j].w.servers[k].meta.deleted == run[i].w.servers[k].meta.deleted
    ensures run[j].w.servers[k].meta.uid == run[i].w.servers[k].meta.uid
  {
    if i < j {
      DeletionTimeStands(run, i, j - 1, k);
      MetaStands(run, j - 1);
    }
  }

  // ---------------------------------------------------------------- one sidecar for each pod

  /** No two pods share a sidecar, and none will get one that was there before. */
  ghost predicate OwnSidecars(w: World) {
    && (forall k :: k in w.pods ==> w.pods[k].meta.uid < w.nextUid)
    && (forall j, k :: j in w.pods && k in w.pods && j != k ==> w.pods[j].meta.uid != w.pods[k].meta.uid)
  }

  /** A new pod is the only one and takes the next uid. */
  lemma NewPodUid(s: State, t: State)
    requires Step(s, t)
    ensures s.w.nextUid <= t.w.nextUid
    ensures forall k :: k in t.w.pods && k !in s.w.pods ==>
      && t.act.ServerCall? && t.act.k == k
      && t.w.pods[k].meta.uid == s.w.nextUid && t.w.nextUid == s.w.nextUid + 1
  {
    match t.act
    case Env(e) => EnvMakes(s.w, e);
      EnvUids(s.w, e);
    case ServerCall(j, ok) => ServerCallUids(s.w, j, SPc(s, j), ok);
    case FleetCall(h, a) => FleetCallMakes(s.w, h, FPc(s, h), a);
      FleetCallUids(s.w, h, FPc(s, h), a);
    case GameCall(h, a) => GameCallMakes(s.w, h, GPc(s, h), a);
      GameCallUids(s.w, h, GPc(s, h), a);
    case _ =>
  }

  lemma EnvUids(w: World, e: EnvOp)
    ensures w.nextUid <= EnvNext(w, e).nextUid
  {}

  lemma ServerCallUids(w: World, k: Name, pc: ServerPc, ok: bool)
    ensures var w' := ServerNext(w, k, pc, ok).0;
      && w.nextUid <= w'.nextUid
      && forall j :: j in w'.pods && j !in w.pods ==>
           j == k && w'.pods[j].meta.uid == w.nextUid && w'.nextUid == w.nextUid + 1
  {}

  lemma FleetCallUids(w: World, f: Name, pc: FleetPc, a: Answer)
    ensures w.nextUid <= FleetNext(w, f, pc, a).0.nextUid
  {}

  lemma GameCallUids(w: World, g: Name, pc: GamePc, a: Answer)
    ensures w.nextUid <= GameNext(w, g, pc, a).0.nextUid
  {}

  /** Pods with uids that had been given out are pods that were there. */
  ghost predicate OldPods(w: World, w': World) {
    forall k :: k in w'.pods && w'.pods[k].meta.uid < w.nextUid ==>
      k in w.pods && w.pods[k].meta.uid == w'.pods[k].meta.uid
  }

  lemma OwnSidecarsStay(s: State, t: State)
    requires OwnSidecars(s.w) && Step(s, t) && StampsKept(s.w.pods, t.w.pods, s.w.clock)
    ensures OwnSidecars(t.w) && OldPods(s.w, t.w)
  {
    NewPodUid(s, t);
    forall j, k | j in t.w.pods && k in t.w.pods && j != k
      ensures t.w.pods[j].meta.uid != t.w.pods[k].meta.uid
    {
      assert j in s.w.pods || k in s.w.pods;
    }
  }

  lemma PodStampsStand(run: seq<State>, i: nat)
    requires IsRun(run) && 0 < i < |run|
    requires AllIdle(run[0]) && L.Orderly(run[0].w)
    ensures StampsKept(run[i - 1].w.pods, run[i].w.pods, run[i - 1].w.clock)
  {
    MetaStands(run, i - 1);
  }

  lemma PodsStep(run: seq<State>, i: nat)
    requires IsRun(run) && 0 < i < |run|
    requires AllIdle(run[0]) && L.Orderly(run[0].w) && OwnSidecars(run[i - 1].w)
    ensures OwnSidecarsAt(run, i)
  {
    PodStampsStand(run, i);
    assert StepAt(run, i);
    OwnSidecarsStay(run[i - 1], run[i]);
  }

  ghost predicate OwnSidecarsAt(run: seq<State>, i: int)
    requires 0 <= i < |run|
  {
    OwnSidecars(run[i].w) && (i > 0 ==> OldPods(run[i - 1].w, run[i].w))
  }

  lemma {:induction false} EveryPodHasItsOwn(run: seq<State>, i: nat)
    requires IsRun(run) && i < |run|
    requires AllIdle(run[0]) && L.Orderly(run[0].w) && OwnSidecars(run[0].w)
    ensures OwnSidecarsAt(run, i)
  {
    if i > 0 {
      EveryPodHasItsOwn(run, i - 1);
      PodsStep(run, i);
    }
  }

  lemma {:induction false} UidsGrow(run: seq<State>, j: nat, i: nat)
    requires IsRun(run) && j <= i < |run| && AllIdle(run[0]) && L.Orderly(run[0].w)
    ensures run[j].w.nextUid <= run[i].w.nextUid
  {
    if j < i {
      UidsGrow(run, j, i - 1);
      assert StepAt(run, i);
      NewPodUid(run[i - 1], run[i]);
    }
  }

  /**
   In every run each pod has a sidecar of its own, with flags that no other pod has had: a pod whose
   uid had been given out at an earlier point was there at that point.
   */
  lemma {:induction false} SidecarsAreNotShared(run: seq<State>, j: nat, i: nat, k: Name)
    requires IsRun(run) && j <= i < |run|
    requires AllIdle(run[0]) && L.Orderly(run[0].w) && OwnSidecars(run[0].w)
    requires k in run[i].w.pods
    ensures forall h :: h in run[i].w.pods && h != k ==> run[i].w.pods[h].meta.uid != run[i].w.pods[k].meta.uid
    ensures run[i].w.pods[k].meta.uid < run[j].w.nextUid ==>
      k in run[j].w.pods && run[j].w.pods[k].meta.uid == run[i].w.pods[k].meta.uid
  {
    EveryPodHasItsOwn(run, i);
    if j < i && run[i].w.pods[k].meta.uid < run[j].w.nextUid {
      UidsGrow(run, j, i - 1);
      assert OldPods(run[i - 1].w, run[i].w);
      SidecarsAreNotShared(run, j, i - 1, k);
    }
  }
}
