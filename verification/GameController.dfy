/** The game type reconciler, call by call. */
module GameController {
  import opened Api
  import opened Admission
  import opened Machine
  import opened Cluster
  import opened Rollout
  import RC = RolloutConvergence
  import RCo = RolloutCompletion
  import FC = FleetController
  import D = Draining
  import T = Teardown

  predicate ListingFleets(pc: GamePc) {
    pc.GStatus? || pc.GList? || pc.GDrain? || pc.GDrained?
  }

  /** The stored game type is `o`, and only its status differs from what it was. */
  ghost predicate Current(w: World, c: World, g: Name, o: Game) {
    && g in w.games && g in c.games && c.games[g] == o && !Deleting(o)
    && o.meta == w.games[g].meta && o.labels == w.games[g].labels && o.body.spec == w.games[g].body.spec
    && c.games == w.games[g := o]
    && c.fleets == w.fleets && c.nextUid == w.nextUid && c.clock == w.clock
  }

  /**
   The status of `o` names a youngest of the fleets, or without fleets what it named before, and
   holds the replica count that the named fleet has in `fleets`.
   */
  ghost predicate Informed(w: World, fleets: map<Name, Fleet>, g: Name, o: Game)
    requires g in w.games
  {
    var name := o.body.fleetName;
    && (FleetsOf(w, g) != {} ==> IsYoungest(w, g, name))
    && (FleetsOf(w, g) == {} ==> name == w.games[g].body.fleetName)
    && (name == "" ==> o == w.games[g])
    && (name != "" && name in fleets ==> o.body.fleetReplicas == fleets[name].body.spec.replicas)
  }

  /** The named fleet, if any, has been found. */
  ghost predicate Fetched(w: World, g: Name, o: Game)
    requires g in w.games
  {
    Informed(w, w.fleets, g, o) && (o.body.fleetName != "" ==> o.body.fleetName in w.fleets)
  }

  /** What a completed reconcile of a live game type reports; it writes nothing else to game types. */
  ghost predicate StatusRolled(w: World, w': World, g: Name)
    requires g in w.games
  {
    && g in w'.games && w'.games == w.games[g := w'.games[g]]
    && var o, o' := w.games[g], w'.games[g];
       && o'.meta == o.meta && o'.labels == o.labels && o'.body.spec == o.body.spec
       && Informed(w, w'.fleets, g, o')
  }

  /** What a rollout pass with the single fleet `f` needs. */
  ghost predicate CanRollSingle(w: World, g: Name, f: Name)
    requires g in w.games && f in w.fleets
  {
    var spec, want := w.fleets[f].body.spec, RC.SpecOf(w, g);
    if spec.server.pod != want.server.pod then ValidFleet(DefaultFleet(want))
    else spec.replicas != want.replicas ==> ValidPriority(spec.agePriority)
  }

  /** What a rollout pass needs: a fleet it can find and one it can create or resize. */
  ghost predicate CanRoll(w: World, g: Name)
    requires g in w.games
  {
    && RCo.StatusHelps(w, g)
    && (FleetsOf(w, g) == {} ==> ValidFleet(DefaultFleet(RC.SpecOf(w, g))))
    && forall f :: FleetsOf(w, g) == {f} ==> f in w.fleets && CanRollSingle(w, g, f)
  }

  /** When a reconcile without faults completes. */
  ghost predicate CanComplete(w: World, g: Name)
    requires g in w.games
  {
    Deleting(w.games[g]) || !Held(w.games, g, TYPE_FINALIZER) || CanRoll(w, g)
  }

  /**
   Reconcile of one game type. With every call failing or succeeding at will it is a run of the
   machine. Completed without an error, it rolls a live game type out, and drains a deleting one.
   */
  method Reconcile(c: Store, g: Name, faulty: bool) returns (err: bool)
    requires c.Valid() && GPc(c.Now(), g) == GIdle
    modifies c
    ensures c.Valid() && GPc(c.Now(), g) == GIdle && Continues(old(c.run), c.run, OfGame(g))
    ensures g !in old(c.games) ==> err
    ensures !faulty ==> (err <==> g !in old(c.games) || !CanComplete(old(c.View()), g))
    ensures !err && !Held(old(c.games), g, TYPE_FINALIZER) ==>
      && c.games == (if Deleting(old(c.games)[g]) then old(c.games)
                     else old(c.games)[g := WithFinalizer(old(c.games)[g], TYPE_FINALIZER)])
      && c.fleets == old(c.fleets) && c.servers == old(c.servers)
    ensures !err && Held(old(c.games), g, TYPE_FINALIZER) && !Deleting(old(c.games)[g]) ==>
      RC.Rolled(old(c.View()), c.View(), g) && StatusRolled(old(c.View()), c.View(), g)
    ensures !err && Held(old(c.games), g, TYPE_FINALIZER) && Deleting(old(c.games)[g]) ==>
      T.GameDrainPass(old(c.View()), c.View(), g)
  {
    c.Begin(OfGame(g));
    var ok := c.Succeeds(faulty);
    c.LogGame(g, FC.Plain(ok, []));
    if !ok || g !in c.games {
      return true;
    }
    var game := c.games[g];
    if !Deleting(game) && TYPE_FINALIZER !in game.meta.finalizers {
      err := SaveGame(c, g, game, WithFinalizer(game, TYPE_FINALIZER), faulty);
      return err;
    }
    if Deleting(game) {
      if TYPE_FINALIZER in game.meta.finalizers {
        err := HandleDeletion(c, g, game, faulty);
      } else {
        err := false;
      }
      return err;
    }
    err := RollOut(c, g, game, faulty);
  }

  /** An update of the game type that ends a reconcile. */
  method SaveGame(c: Store, g: Name, game: Game, o: Game, faulty: bool) returns (err: bool)
    requires c.Reconciling(OfGame(g))
    requires
      || (GPc(c.Now(), g) == GAddFinalizer(game) && o == WithFinalizer(game, TYPE_FINALIZER))
      || (GPc(c.Now(), g) == GRemoveFinalizer(game) && o == WithoutFinalizer(game, TYPE_FINALIZER))
      || (GPc(c.Now(), g) == GSaveSize(game) && o == Counted(game, game.body.spec.replicas))
    modifies c
    ensures c.Reconciling(OfGame(g)) && GPc(c.Now(), g) == GIdle && c.begun == old(c.begun)
    ensures c.fleets == old(c.fleets) && c.servers == old(c.servers) && c.clock == old(c.clock)
    ensures !err ==> CanUpdate(old(c.games), g, game, o) && c.games == Put(old(c.games), g, o)
    ensures !faulty && CanUpdate(old(c.games), g, game, o) ==> !err
  {
    var ok := c.Succeeds(faulty);
    var done := c.UpdateGame(g, game, o, ok);
    c.LogGame(g, FC.Plain(ok, []));
    err := !done;
  }

  method GetFleets(c: Store, g: Name, faulty: bool) returns (ok: bool, order: seq<Name>)
    requires c.Reconciling(OfGame(g)) && ListingFleets(GPc(c.Now(), g))
    modifies c`run
    ensures c.Reconciling(OfGame(g))
    ensures IsListing(order, FleetsOf(c.View(), g)) && |order| == |FleetsOf(c.View(), g)|
    ensures forall n :: n in order ==> n in c.fleets
    ensures GPc(c.Now(), g) == GameNext(c.View(), g, old(GPc(c.Now(), g)), FC.Plain(ok, order)).1
    ensures !ok ==> GPc(c.Now(), g) == GIdle
    ensures !faulty ==> ok
  {
    var names := set f | f in c.fleets && HasLabel(c.fleets[f], "type", g);
    assert names == FleetsOf(c.View(), g);
    order := c.List(names);
    ListingSize(order, names);
    ok := c.Succeeds(faulty);
    c.LogGame(g, FC.Plain(ok, order));
  }

  // ---------------------------------------------------------------- the loops over fleets

  method FindYoungest(c: Store, order: seq<Name>) returns (y: Name)
    requires order != [] && forall n :: n in order ==> n in c.fleets
    ensures y in order && y == Youngest(c.View(), order)
    ensures forall n :: n in order ==> c.fleets[n].meta.created <= c.fleets[y].meta.created
  {
    var youngest: Option<Name> := None;
    for i := 0 to |order|
      invariant youngest.None? <==> i == 0
      invariant i > 0 ==> youngest.value in order[..i] && youngest.value == Youngest(c.View(), order[..i])
    {
      assert order[..i + 1][..i] == order[..i];
      if youngest.None? || c.fleets[order[i]].meta.created > c.fleets[youngest.value].meta.created {
        youngest := Some(order[i]);
      }
    }
    assert order[..|order|] == order;
    y := youngest.value;
    YoungestIsLatest(c.View(), order);
  }

  method FindOldest(c: Store, order: seq<Name>) returns (x: Name)
    requires order != [] && forall n :: n in order ==> n in c.fleets
    ensures x in order && x == Oldest(c.View(), order)
    ensures forall n :: n in order ==> c.fleets[x].meta.created <= c.fleets[n].meta.created
  {
    var oldest: Option<Name> := None;
    for i := 0 to |order|
      invariant oldest.None? <==> i == 0
      invariant i > 0 ==> oldest.value in order[..i] && oldest.value == Oldest(c.View(), order[..i])
    {
      assert order[..i + 1][..i] == order[..i];
      if oldest.None? || c.fleets[order[i]].meta.created < c.fleets[oldest.value].meta.created {
        oldest := Some(order[i]);
      }
    }
    assert order[..|order|] == order;
    x := oldest.value;
    OldestIsEarliest(c.View(), order);
  }

  // ---------------------------------------------------------------- status

  method RollOut(c: Store, g: Name, game: Game, faulty: bool) returns (err: bool)
    requires c.Reconciling(OfGame(g)) && GPc(c.Now(), g) == GStatus(game)
    requires g in c.games && c.games[g] == game && !Deleting(game)
    modifies c
    ensures c.Reconciling(OfGame(g)) && GPc(c.Now(), g) == GIdle && c.begun == old(c.begun)
    ensures !err ==> RC.Rolled(old(c.View()), c.View(), g) && StatusRolled(old(c.View()), c.View(), g)
    ensures !faulty ==> (err <==> !CanRoll(old(c.View()), g))
  {
    var t, o;
    ghost var w := c.View();
    err, t := HandleStatus(c, g, game, faulty);
    if err {
      return;
    }
    assert c.View() == w;
    err, o := UpdateReplicaCount(c, g, game, t, faulty);
    if err {
      return;
    }
    assert FleetsOf(c.View(), g) == FleetsOf(w, g);
    err := HandleUpdating(c, g, o, faulty, w);
  }

  /** Names the youngest fleet in the status, in memory. */
  method HandleStatus(c: Store, g: Name, game: Game, faulty: bool) returns (err: bool, t: Game)
    requires c.Reconciling(OfGame(g)) && GPc(c.Now(), g) == GStatus(game)
    modifies c`run
    ensures c.Reconciling(OfGame(g))
    ensures GPc(c.Now(), g) == if err then GIdle else FetchOrList(game, t)
    ensures !err ==> t == Named(game, t.body.fleetName)
    ensures !err && FleetsOf(c.View(), g) != {} ==>
      IsYoungest(c.View(), g, t.body.fleetName) && t.body.fleetName != ""
    ensures FleetsOf(c.View(), g) == {} ==> t == game
    ensures !faulty ==> !err
  {
    t := game;
    var ok, order := GetFleets(c, g, faulty);
    if !ok {
      return true, t;
    }
    if |order| == 0 {
      return false, t;
    }
    var y := FindYoungest(c, order);
    c.IsOrderly();
    t := Named(game, y);
    ok := c.Succeeds(faulty);
    c.LogGame(g, FC.Plain(ok, []));
    err := !ok;
  }

  /** Copies the replica count of the named fleet into the status and saves it. */
  method UpdateReplicaCount(c: Store, g: Name, game: Game, t: Game, faulty: bool) returns (err: bool, o: Game)
    requires c.Reconciling(OfGame(g)) && GPc(c.Now(), g) == FetchOrList(game, t)
    requires g in c.games && c.games[g] == game && !Deleting(game) && t == Named(game, t.body.fleetName)
    modifies c
    ensures c.Reconciling(OfGame(g)) && c.begun == old(c.begun)
    ensures GPc(c.Now(), g) == if err then GIdle else GList(o)
    ensures !err ==> Current(old(c.View()), c.View(), g, o)
    ensures t.body.fleetName == "" ==> o == game
    ensures !err && t.body.fleetName != "" ==>
      && t.body.fleetName in c.fleets && o.body.fleetName == t.body.fleetName
      && o.body.fleetReplicas == c.fleets[t.body.fleetName].body.spec.replicas
    ensures !faulty ==> (err <==> t.body.fleetName != "" && t.body.fleetName !in old(c.fleets))
  {
    o := game;
    if t.body.fleetName == "" {
      return false, o;
    }
    var ok := c.Succeeds(faulty);
    c.LogGame(g, FC.Plain(ok, []));
    if !ok || t.body.fleetName !in c.fleets {
      return true, o;
    }
    o := Counted(t, c.fleets[t.body.fleetName].body.spec.replicas);
    err := SaveStatus(c, g, game, o, faulty);
  }

  /** The update that stores what the status says now. */
  method SaveStatus(c: Store, g: Name, game: Game, o: Game, faulty: bool) returns (err: bool)
    requires c.Reconciling(OfGame(g)) && GPc(c.Now(), g) == GSaveReplicas(game, o)
    requires g in c.games && c.games[g] == game && o.meta == game.meta && !Deleting(o)
    modifies c
    ensures c.Reconciling(OfGame(g)) && c.begun == old(c.begun)
    ensures GPc(c.Now(), g) == if err then GIdle else GList(o)
    ensures !err ==> c.View() == old(c.View()).(games := old(c.games)[g := o])
    ensures !faulty ==> !err
  {
    var ok := c.Succeeds(faulty);
    ok := c.UpdateGame(g, game, o, ok);
    c.LogGame(g, FC.Plain(ok, []));
    err := !ok;
  }

  // ---------------------------------------------------------------- rollout

  method HandleUpdating(c: Store, g: Name, o: Game, faulty: bool, ghost w: World) returns (err: bool)
    requires c.Reconciling(OfGame(g)) && GPc(c.Now(), g) == GList(o)
    requires Current(w, c.View(), g, o) && Fetched(w, g, o)
    modifies c
    ensures c.Reconciling(OfGame(g)) && GPc(c.Now(), g) == GIdle && c.begun == old(c.begun)
    ensures !err ==> RC.Rolled(w, c.View(), g) && StatusRolled(w, c.View(), g)
    ensures !faulty && RCo.StatusHelps(w, g) ==> (err <==> !CanRoll(w, g))
  {
    assert FleetsOf(c.View(), g) == FleetsOf(w, g);
    var ok, order := GetFleets(c, g, faulty);
    if !ok {
      return true;
    }
    if |order| == 0 {
      ghost var v := c.View();
      err := HandleCreation(c, g, o, faulty, w);
      Reported(w, v, c.View(), g, o);
      return err;
    }
    if |order| == 1 {
      assert FleetsOf(w, g) == {order[0]} by { OneListed(order, FleetsOf(w, g)); }
      OneRolls(w, g, order[0]);
      err := HandleSingle(c, g, o, order[0], faulty, w);
      return err;
    }
    ManyRoll(w, g);
    DecidesExtra(c.View(), g, o, order);
    err := HandleExtra(c, g, o, order, faulty, w);
  }

  /** With more than one fleet, the oldest is dropped unless that has been done. */
  method HandleExtra(c: Store, g: Name, o: Game, order: seq<Name>, faulty: bool, ghost w: World) returns (err: bool)
    requires Current(w, c.View(), g, o) && IsListing(order, FleetsOf(c.View(), g)) && |order| >= 2
    requires Fetched(w, g, o)
    requires |order| == |FleetsOf(c.View(), g)| && forall n :: n in order ==> n in c.fleets
    requires c.Reconciling(OfGame(g)) && GPc(c.Now(), g) == ExtraPc(c.View(), o, Oldest(c.View(), order))
    modifies c
    ensures c.Reconciling(OfGame(g)) && GPc(c.Now(), g) == GIdle && c.begun == old(c.begun)
    ensures !err ==> RC.Rolled(w, c.View(), g) && StatusRolled(w, c.View(), g)
    ensures !faulty ==> !err
  {
    assert FleetsOf(c.View(), g) == FleetsOf(w, g);
    var x := FindOldest(c, order);
    assert IsOldest(w, g, x);
    ghost var v := c.View();
    if Deleting(c.fleets[x]) {
      Reported(w, v, v, g, o);
      DropRolls(w, v, g, x);
      return false;
    }
    err := DropFleet(c, g, o, x, faulty);
    if !err {
      Reported(w, v, c.View(), g, o);
      DropRolls(w, c.View(), g, x);
    }
  }

  /** How the worker goes on when the oldest of several fleets is `x`. */
  function ExtraPc(w: World, o: Game, x: Name): GamePc
    requires x in w.fleets
  {
    if Deleting(w.fleets[x]) then GIdle else GDrop(o, x)
  }

  lemma DecidesExtra(w: World, g: Name, o: Game, order: seq<Name>)
    requires IsListing(order, FleetsOf(w, g)) && |order| >= 2 && forall n :: n in order ==> n in w.fleets
    ensures GameNext(w, g, GList(o), FC.Plain(true, order)).1 == ExtraPc(w, o, Oldest(w, order))
  {}

  lemma DropRolls(w: World, w': World, g: Name, x: Name)
    requires g in w.games && |FleetsOf(w, g)| >= 2 && IsOldest(w, g, x) && w'.fleets == RC.Dropped(w, x)
    ensures RC.Rolled(w, w', g)
  {
    assert forall f: Name :: |{f}| == 1;
  }

  /** Dropping or creating a fleet leaves what has been reported true. */
  lemma Reported(w: World, v: World, w': World, g: Name, o: Game)
    requires Current(w, v, g, o) && Fetched(w, g, o) && w'.games == v.games
    requires forall f :: f in w.fleets && f in w'.fleets ==> w'.fleets[f].body.spec == w.fleets[f].body.spec
    ensures StatusRolled(w, w', g)
  {}

  lemma OneRolls(w: World, g: Name, f: Name)
    requires g in w.games && FleetsOf(w, g) == {f}
    ensures f in w.fleets && (CanRoll(w, g) <==> CanRollSingle(w, g, f))
  {
    assert f in FleetsOf(w, g);
    assert forall h :: FleetsOf(w, g) == {h} ==> h == f by {
      forall h | FleetsOf(w, g) == {h} ensures h == f {
        assert f in {h};
      }
    }
  }

  lemma ManyRoll(w: World, g: Name)
    requires g in w.games && |FleetsOf(w, g)| >= 2
    ensures CanRoll(w, g)
  {
    assert forall f: Name :: |{f}| == 1;
  }

  lemma OneListed(order: seq<Name>, names: set<Name>)
    requires IsListing(order, names) && |order| == 1
    ensures names == {order[0]}
  {
    assert order[0] in order;
  }

  method DropFleet(c: Store, g: Name, o: Game, x: Name, faulty: bool) returns (err: bool)
    requires c.Reconciling(OfGame(g)) && GPc(c.Now(), g) == GDrop(o, x) && x in c.fleets
    modifies c
    ensures c.Reconciling(OfGame(g)) && GPc(c.Now(), g) == GIdle && c.begun == old(c.begun)
    ensures c.games == old(c.games)
    ensures !err ==> c.fleets == Api.Delete(old(c.fleets), x, old(c.clock))
    ensures !faulty ==> !err
  {
    var ok := c.Succeeds(faulty);
    if ok {
      c.DeleteFleet(x);
    }
    c.LogGame(g, FC.Plain(ok, []));
    err := !ok;
  }

  method HandleCreation(c: Store, g: Name, o: Game, faulty: bool, ghost w: World) returns (err: bool)
    requires c.Reconciling(OfGame(g)) && GPc(c.Now(), g) == GCreate(o) && Current(w, c.View(), g, o)
    modifies c
    ensures c.Reconciling(OfGame(g)) && GPc(c.Now(), g) == GIdle && c.begun == old(c.begun)
    ensures !err ==> RC.AddsFleet(w, c.View(), g)
    ensures c.games == old(c.games)
    ensures forall f :: f in old(c.fleets) ==> f in c.fleets && c.fleets[f] == old(c.fleets)[f]
    ensures !faulty ==> (err <==> !ValidFleet(DefaultFleet(o.body.spec)))
  {
    var name := c.GenerateName(c.fleets.Keys, faulty);
    var ok := c.Succeeds(faulty);
    ok := ok && name !in c.fleets && ValidFleet(DefaultFleet(o.body.spec));
    if ok {
      c.CreateFleetFor(g, o, name);
    }
    c.LogGame(g, Answer(ok, [], name, []));
    err := !ok;
    assert ok ==> RC.MadeFrom(c.fleets[name], g, w.games[g], w.clock);
  }

  method HandleSingle(c: Store, g: Name, o: Game, f: Name, faulty: bool, ghost w: World) returns (err: bool)
    requires Current(w, c.View(), g, o) && FleetsOf(w, g) == {f} && Fetched(w, g, o)
    requires c.Reconciling(OfGame(g)) && f in c.fleets && GPc(c.Now(), g) == GSaveName(o, f, c.fleets[f])
    modifies c
    ensures c.Reconciling(OfGame(g)) && GPc(c.Now(), g) == GIdle && c.begun == old(c.begun)
    ensures !err ==> RC.Rolled(w, c.View(), g) && StatusRolled(w, c.View(), g)
    ensures !faulty ==> (err <==> !CanRollSingle(w, g, f))
  {
    assert FleetsOf(c.View(), g) == {f};
    var fleet := c.fleets[f];
    assert f in FleetsOf(w, g) && o.body.fleetName == f;
    c.IsOrderly();
    var t := Named(o, f);
    assert t == o && c.games[g := o] == c.games && o.body.fleetReplicas == w.fleets[f].body.spec.replicas;
    err := SaveName(c, g, o, f, fleet, faulty);
    if err {
      return true;
    }
    assert Current(w, c.View(), g, t);
    if !PodsEqual(fleet.body.spec, o.body.spec) {
      err := HandleCreation(c, g, t, faulty, w);
      assert !err ==> RC.Rolled(w, c.View(), g) by {
        SingleRolled(w, c.View(), g, f);
      }
    } else if o.body.spec.replicas != o.body.fleetReplicas {
      ghost var v := c.View();
      err := Resize(c, g, t, f, fleet, faulty);
      assert !err ==> RC.Rolled(w, c.View(), g) by {
        ResizedSince(w, v, c.View(), f, o.body.spec.replicas);
        SingleRolled(w, c.View(), g, f);
      }
    } else {
      SingleRolled(w, c.View(), g, f);
    }
  }

  lemma ResizedSince(w: World, v: World, w': World, f: Name, n: int)
    requires f in w.fleets && v.fleets == w.fleets
    ensures RC.ResizesFleet(v, w', f, n) ==> RC.ResizesFleet(w, w', f, n)
  {}

  /** What a completed reconcile has to do with a single fleet. */
  ghost predicate SingleDone(w: World, w': World, g: Name, f: Name)
    requires g in w.games && f in w.fleets
  {
    var spec := w.fleets[f].body.spec;
    if spec.server.pod != RC.SpecOf(w, g).server.pod then RC.AddsFleet(w, w', g)
    else if spec.replicas != RC.SpecOf(w, g).replicas
    then RC.ResizesFleet(w, w', f, RC.SpecOf(w, g).replicas)
    else w'.fleets == w.fleets
  }

  lemma SingleRolled(w: World, w': World, g: Name, f: Name)
    requires g in w.games && FleetsOf(w, g) == {f}
    ensures SingleDone(w, w', g, f) ==> RC.Rolled(w, w', g)
  {
    assert f in FleetsOf(w, g);
    forall h | FleetsOf(w, g) == {h} ensures h == f {
      assert f in {h};
    }
  }

  method SaveName(c: Store, g: Name, o: Game, f: Name, fleet: Fleet, faulty: bool) returns (err: bool)
    requires c.Reconciling(OfGame(g)) && GPc(c.Now(), g) == GSaveName(o, f, fleet) && g in c.games && c.games[g] == o
    modifies c
    ensures c.Reconciling(OfGame(g)) && c.begun == old(c.begun)
    ensures GPc(c.Now(), g) ==
      if err then GIdle
      else if !PodsEqual(fleet.body.spec, o.body.spec) then GCreate(Named(o, f))
      else if o.body.spec.replicas != o.body.fleetReplicas then GResize(Named(o, f), f, fleet)
      else GIdle
    ensures !err ==> CanUpdate(old(c.games), g, o, Named(o, f))
                     && c.View() == SetGame(old(c.View()), g, o, Named(o, f), true)
    ensures !faulty ==> !err
  {
    var ok := c.Succeeds(faulty);
    ok := c.UpdateGame(g, o, Named(o, f), ok);
    c.LogGame(g, FC.Plain(ok, []));
    err := !ok;
  }

  /** `r` is the game type `o` with `n` for the replica count in its status. */
  predicate ReportsSize(o: Game, r: Game, n: int) {
    && r.body.fleetReplicas == n && r.body.fleetName == o.body.fleetName && r.body.spec == o.body.spec
    && r.meta == o.meta && r.labels == o.labels
  }

  method Resize(c: Store, g: Name, o: Game, f: Name, fleet: Fleet, faulty: bool) returns (err: bool)
    requires c.Reconciling(OfGame(g)) && GPc(c.Now(), g) == GResize(o, f, fleet)
    requires f in c.fleets && c.fleets[f] == fleet && g in c.games && c.games[g] == o
    modifies c
    ensures c.Reconciling(OfGame(g)) && GPc(c.Now(), g) == GIdle && c.begun == old(c.begun)
    ensures !err ==> RC.ResizesFleet(old(c.View()), c.View(), f, o.body.spec.replicas)
    ensures !err && !Deleting(o) ==>
      && g in c.games && c.games == old(c.games)[g := c.games[g]]
      && ReportsSize(o, c.games[g], o.body.spec.replicas)
      && (f in c.fleets ==> c.fleets[f].body.spec.replicas == o.body.spec.replicas)
    ensures !faulty ==> (err <==> !ValidPriority(fleet.body.spec.agePriority))
  {
    err := SaveFleet(c, g, o, f, fleet, faulty);
    if !err {
      err := SaveGame(c, g, o, Counted(o, o.body.spec.replicas), faulty);
    }
  }

  /** Stores the fleet with the game type's replica count. */
  method SaveFleet(c: Store, g: Name, o: Game, f: Name, fleet: Fleet, faulty: bool) returns (err: bool)
    requires c.Reconciling(OfGame(g)) && GPc(c.Now(), g) == GResize(o, f, fleet)
    requires f in c.fleets && c.fleets[f] == fleet
    modifies c
    ensures c.Reconciling(OfGame(g)) && GPc(c.Now(), g) == (if err then GIdle else GSaveSize(o))
    ensures c.begun == old(c.begun) && c.games == old(c.games)
    ensures !err ==> RC.ResizesFleet(old(c.View()), c.View(), f, o.body.spec.replicas)
    ensures !err && f in c.fleets ==> c.fleets[f].body.spec.replicas == o.body.spec.replicas
    ensures !faulty ==> (err <==> !ValidPriority(fleet.body.spec.agePriority))
  {
    var n := Resized(fleet, o.body.spec.replicas);
    assert RC.ResizedTo(fleet, n, o.body.spec.replicas);
    var ok := c.Succeeds(faulty);
    ok := ok && ValidFleetUpdate(fleet.body.spec, n.body.spec);
    ok := c.UpdateFleet(f, fleet, n, ok);
    c.LogGame(g, FC.Plain(ok, []));
    err := !ok;
  }

  // ---------------------------------------------------------------- deletion

  method HandleDeletion(c: Store, g: Name, game: Game, faulty: bool) returns (err: bool)
    requires c.Reconciling(OfGame(g)) && GPc(c.Now(), g) == GDrain(game)
    requires g in c.games && c.games[g] == game
    modifies c
    ensures c.Reconciling(OfGame(g)) && GPc(c.Now(), g) == GIdle && c.begun == old(c.begun)
    ensures !err ==> T.GameDrainPass(old(c.View()), c.View(), g)
    ensures !faulty ==> !err
  {
    var ok, order := GetFleets(c, g, faulty);
    if !ok {
      return true;
    }
    err := DeleteEach(c, g, game, order, faulty);
    if err {
      return true;
    }
    assert D.Names(order) == FleetsOf(old(c.View()), g);
    err := FinishDeletion(c, g, game, faulty);
  }

  /** Lists the fleets again and, if none is left, lets the game type go. */
  method FinishDeletion(c: Store, g: Name, game: Game, faulty: bool) returns (err: bool)
    requires c.Reconciling(OfGame(g)) && GPc(c.Now(), g) == GDrained(game)
    requires g in c.games && c.games[g] == game
    modifies c
    ensures c.Reconciling(OfGame(g)) && GPc(c.Now(), g) == GIdle && c.begun == old(c.begun)
    ensures c.fleets == old(c.fleets) && c.servers == old(c.servers)
    ensures !err ==> c.games == if FleetsOf(c.View(), g) == {}
                                then Put(old(c.games), g, WithoutFinalizer(game, TYPE_FINALIZER)) else old(c.games)
    ensures !faulty ==> !err
  {
    var ok, order := GetFleets(c, g, faulty);
    if !ok {
      return true;
    }
    assert FleetsOf(c.View(), g) == FleetsOf(old(c.View()), g);
    err := false;
    if |order| == 0 {
      err := SaveGame(c, g, game, WithoutFinalizer(game, TYPE_FINALIZER), faulty);
      assert FleetsOf(c.View(), g) == FleetsOf(old(c.View()), g);
    }
  }

  method DeleteEach(c: Store, g: Name, game: Game, order: seq<Name>, faulty: bool) returns (err: bool)
    requires c.Reconciling(OfGame(g)) && GPc(c.Now(), g) == GDrainEach(game, order)
    requires IsListing(order, FleetsOf(c.View(), g))
    modifies c
    ensures c.Reconciling(OfGame(g)) && c.begun == old(c.begun)
    ensures GPc(c.Now(), g) == if err then GIdle else GDrained(game)
    ensures c.servers == old(c.servers) && c.games == old(c.games) && c.clock == old(c.clock)
    ensures !err ==> c.fleets == D.DeleteAll(old(c.fleets), D.Names(order), c.clock)
    ensures !faulty ==> !err
  {
    assert D.DeleteAll(c.fleets, {}, c.clock) == c.fleets;
    for i := 0 to |order|
      invariant c.Reconciling(OfGame(g)) && c.begun == old(c.begun)
      invariant GPc(c.Now(), g) == GDrainEach(game, order[i..])
      invariant c.servers == old(c.servers) && c.games == old(c.games) && c.clock == old(c.clock)
      invariant c.fleets == D.DeleteAll(old(c.fleets), D.Names(order[..i]), c.clock)
    {
      D.DeleteNext(old(c.fleets), order, i, c.clock);
      assert order[i..][1..] == order[i + 1..];
      err := DeleteOne(c, g, game, order[i..], faulty);
      if err {
        return true;
      }
    }
    assert order[..|order|] == order;
    c.LogGame(g, FC.Plain(true, []));
    err := false;
  }

  method DeleteOne(c: Store, g: Name, game: Game, todo: seq<Name>, faulty: bool) returns (err: bool)
    requires c.Reconciling(OfGame(g)) && GPc(c.Now(), g) == GDrainEach(game, todo)
    requires todo != [] && todo[0] in c.fleets
    modifies c
    ensures c.Reconciling(OfGame(g)) && c.begun == old(c.begun)
    ensures GPc(c.Now(), g) == if err then GIdle else GDrainEach(game, todo[1..])
    ensures c.View() == if err then old(c.View())
                        else old(c.View()).(fleets := Api.Delete(old(c.fleets), todo[0], c.clock))
    ensures !faulty ==> !err
  {
    var ok := c.Succeeds(faulty);
    if ok {
      c.DeleteFleet(todo[0]);
    }
    c.LogGame(g, FC.Plain(ok, []));
    err := !ok;
  }
}
