/**
 What the operator leaves alone. First, fleets that it cannot get rid of: a wedged server in a fleet
 that must go keeps a rollout from ever settling. Second, a game type that is served: nothing that
 the operator does changes its fleet or its servers any more.
 */
module Steady {
  import opened Api
  import opened Admission
  import opened Machine
  import opened Lifecycle
  import opened Scaling
  import opened Schedules
  import opened FleetCompletion
  import opened Rollout
  import opened RolloutCompletion
  import RC = RolloutConvergence
  import CV = Convergence
  import T = Teardown
  import SF = ServerFate
  import E = Exposure
  import V = Victims

  // ---------------------------------------------------------------- hands off other game types' fleets

  /** A worker in the middle of a reconcile has nothing in hand that touches fleet `y`. */
  predicate Leaves(pc: GamePc, y: Name) {
    match pc
    case GSaveName(o, f, fleet) => f != y
    case GResize(o, f, fleet) => f != y
    case GDrop(o, f) => f != y
    case GDrainEach(o, todo) => y !in todo
    case _ => true
  }

  lemma OtherGameLeaves(w: World, h: Name, pc: GamePc, a: Answer, y: Name)
    requires Leaves(pc, y) && y in w.fleets && y !in FleetsOf(w, h)
    ensures var (w', pc') := GameNext(w, h, pc, a);
      Leaves(pc', y) && y in w'.fleets && w'.fleets[y] == w.fleets[y]
  {
    if pc.GList? && ListsFleets(w, h, a) && |a.order| == 1 {
      assert a.order[0] in a.order;
    }
  }

  lemma OtherGameKeepsGame(w: World, h: Name, pc: GamePc, a: Answer, g: Name)
    requires h != g && g in w.games
    ensures var w' := GameNext(w, h, pc, a).0; g in w'.games && w'.games[g] == w.games[g]
  {}

  /** The operator does not touch a spec, or a live game type's life. */
  lemma GameCallKeepsSpec(w: World, g: Name, pc: GamePc, a: Answer, spec: FleetSpec)
    requires g in w.games && RC.SpecOf(w, g) == spec && RC.CarriesSpec(pc, spec)
    ensures var (w', pc') := GameNext(w, g, pc, a);
      && RC.CarriesSpec(pc', spec) && (g in w'.games ==> RC.SpecOf(w', g) == spec)
      && (!Deleting(w.games[g]) ==> g in w'.games && !Deleting(w'.games[g]))
  {
    RC.SpecStays(w, g, pc, a, spec);
  }

  lemma OwnKeepsSpec(s: State, a: Act, g: Name, spec: FleetSpec)
    requires Own(a) && g in s.w.games && RC.SpecOf(s.w, g) == spec && RC.CarriesSpec(GPc(s, g), spec)
    ensures var t := Next(s, a);
      && RC.CarriesSpec(GPc(t, g), spec) && (g in t.w.games ==> RC.SpecOf(t.w, g) == spec)
      && (!Deleting(s.w.games[g]) ==> g in t.w.games && !Deleting(t.w.games[g]))
  {
    if a.GameCall? && a.g == g {
      GameCallKeepsSpec(s.w, g, GPc(s, g), a.a, spec);
    } else if a.GameCall? {
      OtherGameKeepsGame(s.w, a.g, GPc(s, a.g), a.a, g);
    } else if a.FleetCall? {
      T.FleetCallKeepsGames(s.w, a.f, FPc(s, a.f), a.a);
    } else if a.ServerCall? {
      SF.StepIsLocal(s.w, a.k, SPc(s, a.k), a.ok);
    }
  }

  lemma GameCallKeepsTemplate(w: World, g: Name, pc: GamePc, a: Answer, f: Name)
    requires f in w.fleets && f in GameNext(w, g, pc, a).0.fleets
    ensures Template(GameNext(w, g, pc, a).0, f) == Template(w, f)
  {}

  // ---------------------------------------------------------------- a fleet of the wrong make

  /** A wedged server in a fleet that is not made to the spec. */
  ghost predicate WrongMake(s: State, k: Name, f: Name, g: Name, spec: FleetSpec) {
    && Inv(s) && T.HeldUp(s, k, f, g) && g in s.w.games && RC.SpecOf(s.w, g) == spec
    && RC.CarriesSpec(GPc(s, g), spec) && Template(s.w, f) != spec.server.pod
  }

  lemma WrongMakeStep(s: State, a: Act, k: Name, f: Name, g: Name, spec: FleetSpec)
    requires WrongMake(s, k, f, g, spec) && Own(a)
    ensures WrongMake(Next(s, a), k, f, g, spec)
  {
    var t := Next(s, a);
    T.HeldUpStep(s, a, k, f, g);
    NextKeepsInv(s, a);
    InvBoundsFleets(t);
    OwnKeepsSpec(s, a, g, spec);
    if a.GameCall? && a.g == g {
      GameCallKeepsTemplate(s.w, g, GPc(s, g), a.a, f);
    } else {
      StepSeenByGame(s, a, g);
    }
  }

  lemma {:induction false} WrongMakeStays(s: State, acts: seq<Act>, k: Name, f: Name, g: Name, spec: FleetSpec)
    requires WrongMake(s, k, f, g, spec) && Schedule(s, acts)
    ensures WrongMake(Play(s, acts), k, f, g, spec)
    decreases |acts|
  {
    if acts != [] {
      WrongMakeStep(s, acts[0], k, f, g, spec);
      WrongMakeStays(Next(s, acts[0]), acts[1..], k, f, g, spec);
    }
  }

  // ---------------------------------------------------------------- a fleet that is not the youngest

  /** A wedged server in a fleet next to a younger live one. */
  ghost predicate Outlived(s: State, k: Name, f: Name, y: Name, g: Name) {
    && Inv(s) && T.HeldUp(s, k, f, g) && y in FleetsOf(s.w, g) && !Deleting(s.w.fleets[y])
    && s.w.fleets[f].meta.created < s.w.fleets[y].meta.created
    && g in s.w.games && !Deleting(s.w.games[g]) && RC.CarriesSpec(GPc(s, g), RC.SpecOf(s.w, g))
    && (forall h :: h != g ==> Leaves(GPc(s, h), y))
    && (GPc(s, g).GDrop? ==> GPc(s, g).f != y) && !DrainsEarlier(GPc(s, g))
  }

  /** What matters about fleet `y`. */
  ghost predicate Kept(w: World, w': World, y: Name) {
    && y in w.fleets && y in w'.fleets && w'.fleets[y].labels == w.fleets[y].labels
    && w'.fleets[y].meta.created == w.fleets[y].meta.created
    && w'.fleets[y].meta.deleted == w.fleets[y].meta.deleted
  }

  lemma FleetCallKeeps(w: World, h: Name, pc: FleetPc, a: Answer, y: Name)
    requires y in w.fleets && !Deleting(w.fleets[y])
    ensures Kept(w, FleetNext(w, h, pc, a).0, y)
  {}

  lemma OwnGameKeeps(w: World, g: Name, pc: GamePc, a: Answer, f: Name, y: Name)
    requires f in FleetsOf(w, g) && y in FleetsOf(w, g) && !Deleting(w.fleets[y])
    requires w.fleets[f].meta.created < w.fleets[y].meta.created
    requires g in w.games && !Deleting(w.games[g]) && !DrainsEarlier(pc) && (pc.GDrop? ==> pc.f != y)
    ensures var (w', pc') := GameNext(w, g, pc, a);
      Kept(w, w', y) && !DrainsEarlier(pc') && (pc'.GDrop? ==> pc'.f != y)
  {
    NeverDrains(w, g, pc, a);
    if pc.GList? && ListsFleets(w, g, a) && |a.order| >= 2 {
      OldestIsEarliest(w, a.order);
      assert f in a.order;
    }
  }

  lemma OutlivedStep(s: State, a: Act, k: Name, f: Name, y: Name, g: Name)
    requires Outlived(s, k, f, y, g) && Own(a)
    ensures Outlived(Next(s, a), k, f, y, g)
  {
    T.HeldUpStep(s, a, k, f, g);
    NextKeepsInv(s, a);
    OwnKeepsSpec(s, a, g, RC.SpecOf(s.w, g));
    AgeStays(s, a, g, f);
    YoungerStays(s, a, f, y, g);
  }

  lemma YoungerStays(s: State, a: Act, f: Name, y: Name, g: Name)
    requires Own(a) && f in FleetsOf(s.w, g) && y in FleetsOf(s.w, g) && !Deleting(s.w.fleets[y])
    requires s.w.fleets[f].meta.created < s.w.fleets[y].meta.created
    requires g in s.w.games && !Deleting(s.w.games[g]) && (forall h :: h != g ==> Leaves(GPc(s, h), y))
    requires (GPc(s, g).GDrop? ==> GPc(s, g).f != y) && !DrainsEarlier(GPc(s, g))
    ensures var t := Next(s, a);
      && Kept(s.w, t.w, y) && (forall h :: h != g ==> Leaves(GPc(t, h), y))
      && (GPc(t, g).GDrop? ==> GPc(t, g).f != y) && !DrainsEarlier(GPc(t, g))
  {
    var t := Next(s, a);
    if a.GameCall? && a.g == g {
      OwnGameKeeps(s.w, g, GPc(s, g), a.a, f, y);
    } else if a.GameCall? {
      assert Leaves(GPc(s, a.g), y);
      OtherGameLeaves(s.w, a.g, GPc(s, a.g), a.a, y);
    } else if a.FleetCall? {
      FleetCallKeeps(s.w, a.f, FPc(s, a.f), a.a, y);
    } else if a.ServerCall? {
      SF.StepIsLocal(s.w, a.k, SPc(s, a.k), a.ok);
    }
    forall h | h != g ensures Leaves(GPc(t, h), y) {
      assert Leaves(GPc(s, h), y);
    }
  }

  lemma AgeStays(s: State, a: Act, g: Name, f: Name)
    requires Inv(s) && f in FleetsOf(s.w, g) && f in FleetsOf(Next(s, a).w, g)
    ensures Next(s, a).w.fleets[f].meta.created == s.w.fleets[f].meta.created
  {
    if a.GameCall? && a.g == g {
      GameCallKeepsAge(s.w, g, GPc(s, g), a.a, f);
    } else {
      StepSeenByGame(s, a, g);
    }
  }

  lemma GameCallKeepsAge(w: World, g: Name, pc: GamePc, a: Answer, f: Name)
    requires f in w.fleets && f in GameNext(w, g, pc, a).0.fleets
    ensures GameNext(w, g, pc, a).0.fleets[f].meta.created == w.fleets[f].meta.created
  {}

  lemma {:induction false} OutlivedStays(s: State, acts: seq<Act>, k: Name, f: Name, y: Name, g: Name)
    requires Outlived(s, k, f, y, g) && Schedule(s, acts)
    ensures Outlived(Play(s, acts), k, f, y, g)
    decreases |acts|
  {
    if acts != [] {
      OutlivedStep(s, acts[0], k, f, y, g);
      OutlivedStays(Next(s, acts[0]), acts[1..], k, f, y, g);
    }
  }

  // ---------------------------------------------------------------- whether a rollout can settle

  ghost predicate LeadsToSettled(s: State, acts: seq<Act>, g: Name) {
    Schedule(s, acts) && g in Play(s, acts).w.games && RC.Settled(Play(s, acts).w, g)
  }

  lemma MustGoUnsettled(s: State, acts: seq<Act>, k: Name, f: Name, g: Name)
    requires Rest(s) && RC.Shape(s.w, g) && !Deleting(s.w.games[g]) && f in FleetsOf(s.w, g) && MustGo(s.w, g, f)
    requires k in Terminating(s.w, f) && k !in s.w.pods && SERVER_FINALIZER in s.w.servers[k].meta.finalizers
    ensures !LeadsToSettled(s, acts, g)
  {
    if Schedule(s, acts) {
      var spec := RC.SpecOf(s.w, g);
      var w := Play(s, acts).w;
      if Template(s.w, f) != spec.server.pod {
        WrongAtRest(s, k, f, g);
        WrongMakeStays(s, acts, k, f, g, spec);
        assert f in FleetsOf(w, g);
      } else {
        var y := OutlivedAtRest(s, k, f, g);
        OutlivedStays(s, acts, k, f, y, g);
        assert f in FleetsOf(w, g) && y in FleetsOf(w, g) && f != y;
      }
    }
  }

  lemma WrongAtRest(s: State, k: Name, f: Name, g: Name)
    requires Rest(s) && g in s.w.games && f in FleetsOf(s.w, g) && Template(s.w, f) != RC.SpecOf(s.w, g).server.pod
    requires k in Terminating(s.w, f) && k !in s.w.pods && SERVER_FINALIZER in s.w.servers[k].meta.finalizers
    ensures WrongMake(s, k, f, g, RC.SpecOf(s.w, g))
  {
    StartInv(s);
    assert SPc(s, k) == SIdle && GPc(s, g) == GIdle;
  }

  lemma OutlivedAtRest(s: State, k: Name, f: Name, g: Name) returns (y: Name)
    requires Rest(s) && RC.Shape(s.w, g) && !Deleting(s.w.games[g]) && f in FleetsOf(s.w, g) && !IsYoungest(s.w, g, f)
    requires k in Terminating(s.w, f) && k !in s.w.pods && SERVER_FINALIZER in s.w.servers[k].meta.finalizers
    ensures Outlived(s, k, f, y, g)
  {
    StartInv(s);
    assert SPc(s, k) == SIdle && GPc(s, g) == GIdle;
    y :| IsYoungest(s.w, g, y) && y in LiveFleets(s.w, g);
    forall h | h != g ensures Leaves(GPc(s, h), y) {
      assert GPc(s, h) == GIdle;
    }
  }

  /**
   From any point of an interrupted rollout the operator can still settle it if and only if no
   server is wedged in a fleet that must go.
   */
  lemma RolloutSettlesIff(s: State, g: Name)
    requires Rest(s) && RC.Shape(s.w, g) && !Deleting(s.w.games[g]) && OurFleets(s.w, g)
    requires StatusHelps(s.w, g) && ValidFleet(DefaultFleet(RC.SpecOf(s.w, g)))
    ensures (exists acts :: LeadsToSettled(s, acts, g)) <==> Clear(s.w, g, false)
  {
    StartInv(s);
    if Clear(s.w, g, false) {
      var acts := RolloutCompletes(s, g, false);
      assert LeadsToSettled(s, acts, g);
    } else {
      var f :| f in FleetsOf(s.w, g) && MustGo(s.w, g, f) && !Unwedged(s.w, f);
      var k :| k in Terminating(s.w, f) && k !in s.w.pods;
      assert FleetIsOurs(s.w, f);
      forall acts ensures !LeadsToSettled(s, acts, g) {
        MustGoUnsettled(s, acts, k, f, g);
      }
    }
  }

  // ---------------------------------------------------------------- a game type that is served

  /** Another fleet's worker has none of these servers in hand. */
  ghost predicate SparesAll(pc: FleetPc, names: set<Name>) {
    match pc
    case FPick(o, items) => forall c :: c in items ==> c.name !in names
    case FDelete(o, v) => v !in names
    case FDrainEach(o, todo) => forall v :: v in todo ==> v !in names
    case _ => true
  }

  /** The fleet's own worker finds it at its target. */
  predicate Content(pc: FleetPc, target: int) {
    pc.FIdle? || pc.FAddFinalizer? || (pc.FCount? && pc.o.body.spec.replicas == target) || pc.FSave?
  }

  /** The game type's own worker finds nothing to roll out. */
  predicate Satisfied(pc: GamePc) {
    || pc.GIdle? || pc.GAddFinalizer? || pc.GStatus? || pc.GTouch? || pc.GFetch?
    || pc.GSaveReplicas? || pc.GList? || pc.GSaveName?
  }

  /** The fleet `x` of game type `g` and its servers `names` are as the spec wants them. */
  ghost predicate ServedBy(w: World, g: Name, x: Name, names: set<Name>, spec: FleetSpec, born: int) {
    && g in w.games && !Deleting(w.games[g]) && RC.SpecOf(w, g) == spec
    && FleetsOf(w, g) == {x} && x in w.fleets && !Deleting(w.fleets[x]) && w.fleets[x].meta.created == born
    && PodsEqual(w.fleets[x].body.spec, spec) && w.fleets[x].body.spec.replicas == spec.replicas
    && ServersOf(w, x) == names && Live(w, x) == names && |names| == spec.replicas
  }

  ghost predicate Frozen(s: State, g: Name, x: Name, names: set<Name>, spec: FleetSpec, born: int) {
    && Inv(s) && ServedBy(s.w, g, x, names, spec, born)
    && RC.CarriesSpec(GPc(s, g), spec) && RC.CacheInv(s.w, g, GPc(s, g)) && Satisfied(GPc(s, g))
    && Content(FPc(s, x), spec.replicas)
    && (forall h :: h != g ==> Leaves(GPc(s, h), x))
    && (forall h :: h != x ==> SparesAll(FPc(s, h), names))
  }

  /** What `Frozen` says about the store, after a step that leaves the fleet and its servers alone. */
  lemma StillServed(w: World, w': World, g: Name, x: Name, names: set<Name>, spec: FleetSpec, born: int)
    requires ServedBy(w, g, x, names, spec, born)
    requires g in w'.games && !Deleting(w'.games[g]) && RC.SpecOf(w', g) == spec
    requires FleetsOf(w', g) <= FleetsOf(w, g) && Kept(w, w', x) && w'.fleets[x].body.spec == w.fleets[x].body.spec
    requires ServersOf(w', x) <= ServersOf(w, x) && Live(w, x) <= Live(w', x)
    ensures ServedBy(w', g, x, names, spec, born)
  {
    assert x in FleetsOf(w, g);
    assert x in FleetsOf(w', g);
    assert Live(w', x) <= ServersOf(w', x);
  }

  lemma YoungestIs(w: World, g: Name, x: Name, names: set<Name>, spec: FleetSpec, born: int)
    requires ServedBy(w, g, x, names, spec, born)
    ensures YoungestLives(w, g) && FleetAgesDistinct(w, g) && forall y :: IsYoungest(w, g, y) ==> y == x
  {
    assert x in FleetsOf(w, g);
    assert IsYoungest(w, g, x) && x in LiveFleets(w, g);
  }

  // The steps, worker by worker.

  lemma FrozenServer(s: State, k: Name, ok: bool, g: Name, x: Name, names: set<Name>, spec: FleetSpec, born: int)
    requires Frozen(s, g, x, names, spec, born)
    ensures var w' := Next(s, ServerCall(k, ok)).w;
      ServedBy(w', g, x, names, spec, born) && RC.CacheInv(w', g, GPc(s, g))
  {
    var w' := Next(s, ServerCall(k, ok)).w;
    E.ServerCallThins(s, k, ok, x);
    SF.StepIsLocal(s.w, k, SPc(s, k), ok);
    assert FleetsOf(w', g) == FleetsOf(s.w, g);
    StillServed(s.w, w', g, x, names, spec, born);
    SameFleetsCache(s.w, w', g, GPc(s, g));
  }

  lemma SameFleetsCache(w: World, w': World, g: Name, pc: GamePc)
    requires RC.CacheInv(w, g, pc) && w'.fleets == w.fleets
    ensures RC.CacheInv(w', g, pc)
  {
    assert FleetsOf(w', g) == FleetsOf(w, g);
    forall y | IsYoungest(w', g, y) ensures IsYoungest(w, g, y) {}
  }

  /** The calls of a fleet's worker touch only its own fleet, and servers that it has in hand. */
  lemma FleetCallScope(w: World, h: Name, pc: FleetPc, a: Answer, k: Name)
    requires k in w.servers && SparesAll(pc, {k})
    ensures var w' := FleetNext(w, h, pc, a).0;
      && k in w'.servers && w'.servers[k] == w.servers[k] && w'.fleets - {h} == w.fleets - {h}
  {
    var w' := FleetNext(w, h, pc, a).0;
    if w'.fleets != w.fleets {
      assert w'.fleets - {h} == w.fleets - {h};
    }
  }

  lemma SparesNext(w: World, h: Name, pc: FleetPc, a: Answer, x: Name)
    requires h != x && SparesAll(pc, ServersOf(w, x))
    ensures SparesAll(FleetNext(w, h, pc, a).1, ServersOf(w, x))
  {
    var pc' := FleetNext(w, h, pc, a).1;
    if pc.FChoose? && pc'.FPick? {
      forall c | c in pc'.items ensures c.name !in ServersOf(w, x) {
        var i :| 0 <= i < |pc'.items| && pc'.items[i] == c;
        assert a.order[i] in a.order;
      }
    } else if pc.FPick? && pc'.FDelete? {
      PickedFromItems(pc.o.body.spec, pc.items, a.checks);
    }
  }

  lemma PickedFromItems(spec: FleetSpec, items: seq<V.Candidate>, checks: seq<V.Answer>)
    requires |checks| == |items| && V.FindDeleteServer(spec, WithChecks(items, checks)).Picked?
    ensures exists c :: c in items && c.name == V.FindDeleteServer(spec, WithChecks(items, checks)).server.name
  {
    var asked := WithChecks(items, checks);
    V.VictimIsAnExtreme(asked, Newest(spec), spec.prioritizeAllowed);
    var i :| 0 <= i < |asked| && asked[i] == V.FindDeleteServer(spec, asked).server;
    assert items[i] in items;
  }

  lemma FrozenOtherFleet(s: State, h: Name, a: Answer, g: Name, x: Name, names: set<Name>, spec: FleetSpec, born: int)
    requires Frozen(s, g, x, names, spec, born) && h != x
    ensures var t := Next(s, FleetCall(h, a));
      && ServedBy(t.w, g, x, names, spec, born) && RC.CacheInv(t.w, g, GPc(s, g)) && SparesAll(FPc(t, h), names)
  {
    var w, w' := s.w, Next(s, FleetCall(h, a)).w;
    var act := FleetCall(h, a);
    StepSeenByFleet(s, act, x);
    StepSeenByGame(s, act, g);
    T.FleetCallKeepsGames(w, h, FPc(s, h), a);
    assert SparesAll(FPc(s, h), names);
    SparesNext(w, h, FPc(s, h), a, x);
    forall k | k in names ensures k in w'.servers && w'.servers[k] == w.servers[k] && w'.fleets - {h} == w.fleets - {h} {
      FleetCallScope(w, h, FPc(s, h), a, k);
    }
    FleetCallOnlyOwn(w, h, FPc(s, h), a, x);
    assert Live(w, x) <= Live(w', x);
    StillServed(w, w', g, x, names, spec, born);
    OneFleetCache(w, w', g, x, GPc(s, g), names, spec, born);
  }

  lemma FleetCallOnlyOwn(w: World, h: Name, pc: FleetPc, a: Answer, x: Name)
    requires h != x && x in w.fleets
    ensures x in FleetNext(w, h, pc, a).0.fleets && FleetNext(w, h, pc, a).0.fleets[x] == w.fleets[x]
  {}

  /** What the game type's worker knows survives as long as the one fleet does. */
  lemma OneFleetCache(w: World, w': World, g: Name, x: Name, pc: GamePc, names: set<Name>, spec: FleetSpec, born: int)
    requires RC.CacheInv(w, g, pc) && ServedBy(w, g, x, names, spec, born) && ServedBy(w', g, x, names, spec, born) && Satisfied(pc)
    requires Template(w', x) == Template(w, x)
    ensures RC.CacheInv(w', g, pc)
  {
    YoungestIs(w, g, x, names, spec, born);
    YoungestIs(w', g, x, names, spec, born);
    assert x in FleetsOf(w, g);
    assert IsYoungest(w, g, x);
    if pc.GSaveName? {
      assert pc.f in FleetsOf(w, g);
    }
  }

  lemma FrozenOwnFleet(s: State, a: Answer, g: Name, x: Name, names: set<Name>, spec: FleetSpec, born: int)
    requires Frozen(s, g, x, names, spec, born)
    ensures var t := Next(s, FleetCall(x, a));
      && ServedBy(t.w, g, x, names, spec, born) && RC.CacheInv(t.w, g, GPc(s, g)) && Content(FPc(t, x), spec.replicas)
  {
    var w, pc := s.w, FPc(s, x);
    var (w', pc') := FleetNext(w, x, pc, a);
    if pc.FCount? && Lists(w, x, a) {
      ListingSize(a.order, ServersOf(w, x));
    }
    ContentCall(w, x, pc, a, spec.replicas);
    OwnLabels(w, w', g, x);
    assert ServersOf(w', x) == ServersOf(w, x) && Live(w', x) == Live(w, x);
    StillServed(w, w', g, x, names, spec, born);
    OneFleetCache(w, w', g, x, GPc(s, g), names, spec, born);
  }

  lemma ContentCall(w: World, x: Name, pc: FleetPc, a: Answer, target: int)
    requires x in w.fleets && !Deleting(w.fleets[x]) && w.fleets[x].body.spec.replicas == target && Content(pc, target)
    requires pc.FCount? && Lists(w, x, a) ==> |a.order| == target
    ensures var (w', pc') := FleetNext(w, x, pc, a);
      && w'.servers == w.servers && w'.games == w.games && Kept(w, w', x) && Content(pc', target)
      && w'.fleets[x].body.spec == w.fleets[x].body.spec && w'.fleets - {x} == w.fleets - {x}
  {
    var w' := FleetNext(w, x, pc, a).0;
    assert w'.fleets - {x} == w.fleets - {x};
  }

  lemma OwnLabels(w: World, w': World, g: Name, x: Name)
    requires Kept(w, w', x) && w'.fleets - {x} == w.fleets - {x}
    ensures FleetsOf(w', g) == FleetsOf(w, g)
  {
    forall h ensures h in FleetsOf(w', g) <==> h in FleetsOf(w, g) {
      if h != x {
        assert h in w'.fleets <==> h in w'.fleets - {x};
        assert h in w.fleets <==> h in w.fleets - {x};
        if h in w.fleets {
          assert (w'.fleets - {x})[h] == (w.fleets - {x})[h];
        }
      }
    }
  }

  lemma FrozenOtherGame(s: State, h: Name, a: Answer, g: Name, x: Name, names: set<Name>, spec: FleetSpec, born: int)
    requires Frozen(s, g, x, names, spec, born) && h != g
    ensures var t := Next(s, GameCall(h, a));
      && ServedBy(t.w, g, x, names, spec, born) && RC.CacheInv(t.w, g, GPc(s, g)) && Leaves(GPc(t, h), x)
  {
    var w, w' := s.w, Next(s, GameCall(h, a)).w;
    assert x in FleetsOf(w, g);
    assert Leaves(GPc(s, h), x);
    OtherGameLeaves(w, h, GPc(s, h), a, x);
    OtherGameKeepsGame(w, h, GPc(s, h), a, g);
    StepSeenByGame(s, GameCall(h, a), g);
    T.GameCallKeepsServers(w, h, GPc(s, h), a);
    assert ServersOf(w', x) == ServersOf(w, x) && Live(w', x) == Live(w, x);
    StillServed(w, w', g, x, names, spec, born);
    OneFleetCache(w, w', g, x, GPc(s, g), names, spec, born);
  }

  lemma FrozenOwnGame(s: State, a: Answer, g: Name, x: Name, names: set<Name>, spec: FleetSpec, born: int)
    requires Frozen(s, g, x, names, spec, born)
    ensures var t := Next(s, GameCall(g, a));
      && ServedBy(t.w, g, x, names, spec, born) && RC.CacheInv(t.w, g, GPc(t, g)) && Satisfied(GPc(t, g))
      && RC.CarriesSpec(GPc(t, g), spec)
  {
    var w, pc := s.w, GPc(s, g);
    var (w', pc') := GameNext(w, g, pc, a);
    YoungestIs(w, g, x, names, spec, born);
    InvIsSane(s);
    GameCallKeepsSpec(w, g, pc, a, spec);
    SatisfiedCall(w, g, pc, a, x, names, spec, born);
    T.GameCallKeepsServers(w, g, pc, a);
    assert ServersOf(w', x) == ServersOf(w, x) && Live(w', x) == Live(w, x);
    assert FleetsOf(w', g) == FleetsOf(w, g);
    StillServed(w, w', g, x, names, spec, born);
    assert RolloutInv(s, g);
    RC.CacheOwn(s, a, g);
  }

  lemma SatisfiedCall(w: World, g: Name, pc: GamePc, a: Answer, x: Name, names: set<Name>, spec: FleetSpec, born: int)
    requires ServedBy(w, g, x, names, spec, born) && Satisfied(pc) && RC.CacheInv(w, g, pc) && RC.CarriesSpec(pc, spec)
    ensures var (w', pc') := GameNext(w, g, pc, a);
      w'.fleets == w.fleets && Satisfied(pc')
  {
    if pc.GList? && ListsFleets(w, g, a) {
      ListingSize(a.order, FleetsOf(w, g));
    }
    if pc.GSaveName? {
      assert pc.f in FleetsOf(w, g);
    }
  }

  lemma FrozenStep(s: State, a: Act, g: Name, x: Name, names: set<Name>, spec: FleetSpec, born: int)
    requires Frozen(s, g, x, names, spec, born) && Own(a)
    ensures Frozen(Next(s, a), g, x, names, spec, born)
  {
    NextKeepsInv(s, a);
    StoreStays(s, a, g, x, names, spec, born);
    OthersStillSpare(s, a, Next(s, a), g, x, names);
  }

  lemma StoreStays(s: State, a: Act, g: Name, x: Name, names: set<Name>, spec: FleetSpec, born: int)
    requires Frozen(s, g, x, names, spec, born) && Own(a)
    ensures var t := Next(s, a);
      && ServedBy(t.w, g, x, names, spec, born) && RC.CacheInv(t.w, g, GPc(t, g))
      && RC.CarriesSpec(GPc(t, g), spec) && Satisfied(GPc(t, g)) && Content(FPc(t, x), spec.replicas)
      && (a.FleetCall? && a.f != x ==> SparesAll(FPc(t, a.f), names))
      && (a.GameCall? && a.g != g ==> Leaves(GPc(t, a.g), x))
  {
    if a.ServerCall? {
      FrozenServer(s, a.k, a.ok, g, x, names, spec, born);
    } else if a.FleetCall? {
      FrozenFleetCall(s, a.f, a.a, g, x, names, spec, born);
    } else if a.GameCall? {
      FrozenGameCall(s, a.g, a.a, g, x, names, spec, born);
    } else {
      FrozenTick(s.w, Next(s, a).w, g, x, names, spec, born, GPc(s, g));
    }
  }

  lemma FrozenFleetCall(s: State, h: Name, a: Answer, g: Name, x: Name, names: set<Name>, spec: FleetSpec, born: int)
    requires Frozen(s, g, x, names, spec, born)
    ensures var t := Next(s, FleetCall(h, a));
      && ServedBy(t.w, g, x, names, spec, born) && RC.CacheInv(t.w, g, GPc(s, g))
      && Content(FPc(t, x), spec.replicas) && (h != x ==> SparesAll(FPc(t, h), names))
  {
    if h == x {
      FrozenOwnFleet(s, a, g, x, names, spec, born);
    } else {
      FrozenOtherFleet(s, h, a, g, x, names, spec, born);
    }
  }

  lemma FrozenGameCall(s: State, h: Name, a: Answer, g: Name, x: Name, names: set<Name>, spec: FleetSpec, born: int)
    requires Frozen(s, g, x, names, spec, born)
    ensures var t := Next(s, GameCall(h, a));
      && ServedBy(t.w, g, x, names, spec, born) && RC.CacheInv(t.w, g, GPc(t, g))
      && RC.CarriesSpec(GPc(t, g), spec) && Satisfied(GPc(t, g)) && (h != g ==> Leaves(GPc(t, h), x))
  {
    if h == g {
      FrozenOwnGame(s, a, g, x, names, spec, born);
    } else {
      FrozenOtherGame(s, h, a, g, x, names, spec, born);
    }
  }

  lemma FrozenTick(w: World, w': World, g: Name, x: Name, names: set<Name>, spec: FleetSpec, born: int, pc: GamePc)
    requires ServedBy(w, g, x, names, spec, born) && w' == w.(clock := w'.clock) && RC.CacheInv(w, g, pc)
    ensures ServedBy(w', g, x, names, spec, born) && RC.CacheInv(w', g, pc)
  {
    assert FleetsOf(w', g) == FleetsOf(w, g) && ServersOf(w', x) == ServersOf(w, x) && Live(w', x) == Live(w, x);
    SameFleetsCache(w, w', g, pc);
  }

  lemma OthersStillSpare(s: State, a: Act, t: State, g: Name, x: Name, names: set<Name>)
    requires t == Next(s, a) && (forall h :: h != g ==> Leaves(GPc(s, h), x))
    requires forall h :: h != x ==> SparesAll(FPc(s, h), names)
    requires a.FleetCall? && a.f != x ==> SparesAll(FPc(t, a.f), names)
    requires a.GameCall? && a.g != g ==> Leaves(GPc(t, a.g), x)
    requires Own(a)
    ensures forall h :: h != g ==> Leaves(GPc(t, h), x)
    ensures forall h :: h != x ==> SparesAll(FPc(t, h), names)
  {
    forall h | h != g ensures Leaves(GPc(t, h), x) {
      assert Leaves(GPc(s, h), x);
    }
    forall h | h != x ensures SparesAll(FPc(t, h), names) {
      assert SparesAll(FPc(s, h), names);
    }
  }

  lemma {:induction false} FrozenStays(s: State, acts: seq<Act>, g: Name, x: Name, names: set<Name>, spec: FleetSpec, born: int)
    requires Frozen(s, g, x, names, spec, born) && Schedule(s, acts)
    ensures Frozen(Play(s, acts), g, x, names, spec, born)
    decreases |acts|
  {
    if acts != [] {
      FrozenStep(s, acts[0], g, x, names, spec, born);
      FrozenStays(Next(s, acts[0]), acts[1..], g, x, names, spec, born);
    }
  }

  /** At rest, being served is enough. */
  lemma FrozenAtRest(s: State, g: Name, x: Name, names: set<Name>, spec: FleetSpec, born: int)
    requires Rest(s) && ServedBy(s.w, g, x, names, spec, born)
    ensures Frozen(s, g, x, names, spec, born)
  {
    StartInv(s);
    assert GPc(s, g) == GIdle && FPc(s, x) == FIdle;
    forall h ensures Leaves(GPc(s, h), x) && SparesAll(FPc(s, h), names) {
      assert GPc(s, h) == GIdle && FPc(s, h) == FIdle;
    }
  }
}
