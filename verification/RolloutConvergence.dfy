/**
 Once the spec of a game type stands still, every run leads, in at most six changes, towards
 exactly one fleet that matches the spec, from wherever an earlier rollout was interrupted. Also:
 comparing the spec with the status is comparing it with the fleet.
 */
module RolloutConvergence {
  import opened Api
  import opened Admission
  import opened Machine
  import opened Rollout
  import opened Lifecycle

  function SpecOf(w: World, g: Name): FleetSpec
    requires g in w.games
  {
    w.games[g].body.spec
  }

  // ---------------------------------------------------------------- the steps

  /** `o` is a new fleet of `g`, with everything that the copy `game` of the game type asks for. */
  predicate MadeFrom(o: Fleet, g: Name, game: Game, now: int) {
    && FleetAdmittedAs(game.body.spec, o.body.spec) && o.body.current == 0
    && o.labels == game.labels["type" := g]
    && o.meta.created == now && o.meta.deleted.None? && o.meta.finalizers == {}
  }

  ghost predicate AddsFleet(w: World, w': World, g: Name)
    requires g in w.games
  {
    exists name ::
      && name != "" && name !in w.fleets && name in w'.fleets && w'.fleets == w.fleets[name := w'.fleets[name]]
      && MadeFrom(w'.fleets[name], g, w.games[g], w.clock)
  }

  /** `r` is the fleet `o` with `n` replicas and otherwise as it was. */
  predicate ResizedTo(o: Fleet, r: Fleet, n: int) {
    && r.body.spec.replicas == n
    && r.meta == o.meta && r.labels == o.labels && r.body.current == o.body.current
    && r.body.spec.server == o.body.spec.server
    && r.body.spec.prioritizeAllowed == o.body.spec.prioritizeAllowed
    && r.body.spec.agePriority == o.body.spec.agePriority
  }

  ghost predicate ResizesFleet(w: World, w': World, f: Name, n: int)
    requires f in w.fleets
  {
    exists r :: ResizedTo(w.fleets[f], r, n) && w'.fleets == Put(w.fleets, f, r)
  }

  /** The fleets after dropping the oldest, which is done once. */
  function Dropped(w: World, x: Name): map<Name, Fleet>
    requires x in w.fleets
  {
    if Deleting(w.fleets[x]) then w.fleets else Api.Delete(w.fleets, x, w.clock)
  }

  /** What a completed, undisturbed reconcile of a live game type does to the fleets. */
  ghost predicate Rolled(w: World, w': World, g: Name)
    requires g in w.games
  {
    var fleets := FleetsOf(w, g);
    && (fleets == {} ==> AddsFleet(w, w', g))
    && (forall f :: fleets == {f} ==>
          var spec := w.fleets[f].body.spec;
          if spec.server.pod != SpecOf(w, g).server.pod then AddsFleet(w, w', g)
          else if spec.replicas != SpecOf(w, g).replicas
          then ResizesFleet(w, w', f, SpecOf(w, g).replicas)
          else w'.fleets == w.fleets)
    && (|fleets| >= 2 ==> exists x :: IsOldest(w, g, x) && w'.fleets == Dropped(w, x))
  }

  // ---------------------------------------------------------------- the rank

  /** What every run keeps: at most two fleets, of different ages, the youngest of them live. */
  ghost predicate Shape(w: World, g: Name) {
    && g in w.games && |FleetsOf(w, g)| <= 2 && FleetAgesDistinct(w, g)
    && (FleetsOf(w, g) != {} ==> YoungestLives(w, g))
  }

  /** Time has passed since the last fleet was created. */
  ghost predicate TimePassed(w: World, g: Name) {
    forall f :: f in FleetsOf(w, g) ==> w.fleets[f].meta.created < w.clock
  }

  ghost predicate Ready(w: World, g: Name) {
    Shape(w, g) && TimePassed(w, g)
  }

  predicate MadeTo(w: World, g: Name, f: Name)
    requires g in w.games && f in w.fleets
  {
    w.fleets[f].body.spec.server.pod == SpecOf(w, g).server.pod
  }

  predicate SizedTo(w: World, g: Name, f: Name)
    requires g in w.games && f in w.fleets
  {
    w.fleets[f].body.spec.replicas == SpecOf(w, g).replicas
  }

  predicate Marked(w: World, f: Name)
    requires f in w.fleets
  {
    Deleting(w.fleets[f])
  }

  ghost predicate YoungestMatches(w: World, g: Name)
    requires g in w.games
  {
    exists y :: IsYoungest(w, g, y) && MadeTo(w, g, y)
  }

  ghost predicate YoungestSized(w: World, g: Name)
    requires g in w.games
  {
    exists y :: IsYoungest(w, g, y) && SizedTo(w, g, y)
  }

  ghost predicate OldestDeleting(w: World, g: Name) {
    exists x :: IsOldest(w, g, x) && Marked(w, x)
  }

  ghost function Rank(w: World, g: Name): nat
    requires g in w.games
  {
    if FleetsOf(w, g) == {} then 1
    else if |FleetsOf(w, g)| == 1 then
      if !YoungestMatches(w, g) then 4 else if !YoungestSized(w, g) then 1 else 0
    else
      (if YoungestMatches(w, g) then 2 else 5) + if OldestDeleting(w, g) then 0 else 1
  }

  /** Exactly one fleet, live, with the pod template and the replica count of the spec. */
  ghost predicate Settled(w: World, g: Name)
    requires g in w.games
  {
    exists f ::
      && FleetsOf(w, g) == {f} && !Deleting(w.fleets[f])
      && w.fleets[f].body.spec.server.pod == SpecOf(w, g).server.pod
      && w.fleets[f].body.spec.replicas == SpecOf(w, g).replicas
  }

  lemma OneFleet(w: World, g: Name) returns (f: Name)
    requires g in w.games && |FleetsOf(w, g)| == 1
    ensures FleetsOf(w, g) == {f} && IsYoungest(w, g, f)
    ensures forall y :: IsYoungest(w, g, y) ==> y == f
  {
    f :| f in FleetsOf(w, g);
    assert |FleetsOf(w, g) - {f}| == 0;
    assert FleetsOf(w, g) == {f};
  }

  lemma TwoFleets(w: World, g: Name) returns (x: Name, y: Name)
    requires |FleetsOf(w, g)| == 2 && FleetAgesDistinct(w, g)
    ensures FleetsOf(w, g) == {x, y} && w.fleets[x].meta.created < w.fleets[y].meta.created
    ensures IsOldest(w, g, x) && forall z :: IsOldest(w, g, z) ==> z == x
    ensures IsYoungest(w, g, y) && forall z :: IsYoungest(w, g, z) ==> z == y
  {
    x :| x in FleetsOf(w, g);
    assert |FleetsOf(w, g) - {x}| == 1;
    y :| y in FleetsOf(w, g) - {x};
    assert |FleetsOf(w, g) - {x} - {y}| == 0;
    assert FleetsOf(w, g) == {x, y};
    if w.fleets[y].meta.created < w.fleets[x].meta.created {
      x, y := y, x;
    }
  }

  lemma RankOfOne(w: World, g: Name, f: Name)
    requires g in w.games && FleetsOf(w, g) == {f}
    ensures Rank(w, g) ==
      if !PodsEqual(w.fleets[f].body.spec, SpecOf(w, g)) then 4
      else if w.fleets[f].body.spec.replicas != SpecOf(w, g).replicas then 1 else 0
  {
    var h := OneFleet(w, g);
  }

  lemma RankOfTwo(w: World, g: Name, x: Name, y: Name)
    requires g in w.games && FleetsOf(w, g) == {x, y}
    requires w.fleets[x].meta.created < w.fleets[y].meta.created
    ensures Rank(w, g) ==
      (if PodsEqual(w.fleets[y].body.spec, SpecOf(w, g)) then 2 else 5) + if Deleting(w.fleets[x]) then 0 else 1
  {
    assert IsOldest(w, g, x) && IsYoungest(w, g, y);
    assert forall z :: IsYoungest(w, g, z) ==> z == y;
    assert forall z :: IsOldest(w, g, z) ==> z == x;
  }

  lemma SettledIff(w: World, g: Name)
    requires Shape(w, g)
    ensures Rank(w, g) == 0 <==> Settled(w, g)
    ensures Rank(w, g) <= 6
  {
    if |FleetsOf(w, g)| == 1 {
      var f := OneFleet(w, g);
      RankOfOne(w, g, f);
    } else if |FleetsOf(w, g)| == 2 {
      var x, y := TwoFleets(w, g);
    }
  }

  /** Every run under the circumstances of `RolloutRun` keeps that shape. */
  lemma RunKeepsShape(run: seq<State>, i: nat, g: Name)
    requires IsRun(run) && i < |run| && RolloutRun(run, g)
    requires Begins(run[0], g)
    ensures Shape(run[i].w, g)
  {
    InvHolds(run, i);
    InvBoundsFleets(run[i]);
    RolloutHolds(run, i, g);
    assert RollingAt(run, i, g);
  }

  // ---------------------------------------------------------------- descent

  /** `o` is a new fleet of the game type, made to its spec. */
  ghost predicate Fresh(w: World, w': World, g: Name, name: Name, o: Fleet)
    requires g in w.games
  {
    && name !in w.fleets && w'.fleets == w.fleets[name := o]
    && HasLabel(o, "type", g) && o.meta.created == w.clock && !Deleting(o)
    && PodsEqual(o.body.spec, SpecOf(w, g)) && o.body.spec.replicas == SpecOf(w, g).replicas
  }

  lemma FreshDescends(w: World, w': World, g: Name, name: Name, o: Fleet)
    requires Ready(w, g) && g in w'.games && SpecOf(w', g) == SpecOf(w, g)
    requires Fresh(w, w', g, name, o) && |FleetsOf(w, g)| <= 1
    requires forall f :: f in FleetsOf(w, g) ==> !PodsEqual(w.fleets[f].body.spec, SpecOf(w, g))
    ensures Rank(w', g) < Rank(w, g)
  {
    assert FleetsOf(w', g) == FleetsOf(w, g) + {name};
    if FleetsOf(w, g) == {} {
      RankOfOne(w', g, name);
    } else {
      var f := OneFleet(w, g);
      RankOfOne(w, g, f);
      assert FleetsOf(w', g) == {f, name};
      assert f in LiveFleets(w, g);
      RankOfTwo(w', g, f, name);
    }
  }

  lemma AddDescends(w: World, w': World, g: Name)
    requires Ready(w, g) && g in w'.games && SpecOf(w', g) == SpecOf(w, g)
    requires AddsFleet(w, w', g) && |FleetsOf(w, g)| <= 1
    requires forall f :: f in FleetsOf(w, g) ==> !PodsEqual(w.fleets[f].body.spec, SpecOf(w, g))
    ensures Rank(w', g) < Rank(w, g)
  {
    var name :|
      && name != "" && name !in w.fleets && name in w'.fleets && w'.fleets == w.fleets[name := w'.fleets[name]]
      && MadeFrom(w'.fleets[name], g, w.games[g], w.clock);
    FreshDescends(w, w', g, name, w'.fleets[name]);
  }

  lemma ResizeDescends(w: World, w': World, g: Name, f: Name)
    requires g in w.games && g in w'.games && SpecOf(w', g) == SpecOf(w, g)
    requires FleetsOf(w, g) == {f} && !Deleting(w.fleets[f]) && PodsEqual(w.fleets[f].body.spec, SpecOf(w, g))
    requires w.fleets[f].body.spec.replicas != SpecOf(w, g).replicas
    requires ResizesFleet(w, w', f, SpecOf(w, g).replicas)
    ensures Rank(w', g) < Rank(w, g)
  {
    var r :| ResizedTo(w.fleets[f], r, SpecOf(w, g).replicas) && w'.fleets == Put(w.fleets, f, r);
    RankOfOne(w, g, f);
    assert FleetsOf(w', g) == {f};
    RankOfOne(w', g, f);
  }

  /** Taking the older of two fleets away leaves the other. */
  lemma LossDescends(w: World, w': World, g: Name, x: Name, y: Name)
    requires g in w.games && g in w'.games && SpecOf(w', g) == SpecOf(w, g)
    requires FleetsOf(w, g) == {x, y} && w.fleets[x].meta.created < w.fleets[y].meta.created
    requires FleetsOf(w', g) == {y} && PodsEqual(w'.fleets[y].body.spec, w.fleets[y].body.spec)
    ensures Rank(w', g) < Rank(w, g)
  {
    RankOfTwo(w, g, x, y);
    RankOfOne(w', g, y);
  }

  lemma LossLeaves(w: World, w': World, g: Name, x: Name, y: Name)
    requires FleetsOf(w, g) == {x, y} && x != y && w'.fleets == w.fleets - {x}
    ensures FleetsOf(w', g) == {y} && w'.fleets[y] == w.fleets[y]
  {
    forall f ensures f in FleetsOf(w', g) <==> f == y {
      assert f in FleetsOf(w, g) <==> f in {x, y};
    }
  }

  /** Marking the older of two fleets, or removing it at once. */
  lemma MarkDescends(w: World, w': World, g: Name, x: Name, y: Name)
    requires g in w.games && g in w'.games && SpecOf(w', g) == SpecOf(w, g)
    requires FleetsOf(w, g) == {x, y} && w.fleets[x].meta.created < w.fleets[y].meta.created
    requires !Deleting(w.fleets[x]) && w'.fleets == Api.Delete(w.fleets, x, w.clock)
    ensures Rank(w', g) < Rank(w, g)
    ensures FleetsOf(w', g) == if w.fleets[x].meta.finalizers == {} then {y} else {x, y}
  {
    if w.fleets[x].meta.finalizers == {} {
      LossLeaves(w, w', g, x, y);
      LossDescends(w, w', g, x, y);
    } else {
      RankOfTwo(w, g, x, y);
      assert FleetsOf(w', g) == {x, y};
      RankOfTwo(w', g, x, y);
    }
  }

  /**
   Nothing else is stable: unless the rollout has settled, a completed reconcile makes progress,
   or the oldest of two fleets is still draining.
   */
  lemma UnsettledMoves(w: World, w': World, g: Name)
    requires Ready(w, g) && g in w'.games && SpecOf(w', g) == SpecOf(w, g) && Rolled(w, w', g)
    ensures Settled(w, g) ==> w'.fleets == w.fleets
    ensures !Settled(w, g) ==> Rank(w', g) < Rank(w, g) || (|FleetsOf(w, g)| == 2 && OldestDeleting(w, g))
  {
    SettledIff(w, g);
    if FleetsOf(w, g) == {} {
      AddDescends(w, w', g);
    } else if |FleetsOf(w, g)| == 1 {
      var f := OneFleet(w, g);
      RankOfOne(w, g, f);
      assert f in LiveFleets(w, g);
      if !PodsEqual(w.fleets[f].body.spec, SpecOf(w, g)) {
        AddDescends(w, w', g);
      } else if w.fleets[f].body.spec.replicas != SpecOf(w, g).replicas {
        ResizeDescends(w, w', g, f);
      }
    } else {
      var x, y := TwoFleets(w, g);
      if !Deleting(w.fleets[x]) {
        MarkDescends(w, w', g, x, y);
      }
    }
  }

  // ---------------------------------------------------------------- status as a cache

  /** Nobody else changes the replica targets of the game type's fleets. */
  ghost predicate SameSizes(w: World, w': World, g: Name) {
    forall f :: f in FleetsOf(w', g) && f in FleetsOf(w, g) ==>
      w'.fleets[f].body.spec.replicas == w.fleets[f].body.spec.replicas
  }

  ghost predicate SizesStandAt(run: seq<State>, i: int, g: Name)
    requires 0 < i < |run|
  {
    !(run[i].act.GameCall? && run[i].act.g == g) ==> SameSizes(run[i - 1].w, run[i].w, g)
  }

  ghost predicate SizesStand(run: seq<State>, g: Name) {
    forall i :: 0 < i < |run| ==> SizesStandAt(run, i, g)
  }

  ghost predicate NamesYoungest(w: World, g: Name, t: Game) {
    forall y :: IsYoungest(w, g, y) ==> y == t.body.fleetName
  }

  ghost predicate CachesYoungest(w: World, g: Name, o: Game) {
    forall y :: IsYoungest(w, g, y) ==> o.body.fleetReplicas == w.fleets[y].body.spec.replicas
  }

  ghost predicate OnlyFleetIs(w: World, g: Name, f: Name, pod: PodSpec) {
    FleetsOf(w, g) == {f} && Template(w, f) == pod
  }

  /** What the worker of the game type knows about its fleets between two of its calls. */
  ghost predicate CacheInv(w: World, g: Name, pc: GamePc) {
    match pc
    case GTouch(o, t, y, fleet) => NamesYoungest(w, g, t)
    case GFetch(o, t) => NamesYoungest(w, g, t)
    case GSaveReplicas(o, t) => CachesYoungest(w, g, t)
    case GList(o) => CachesYoungest(w, g, o)
    case GSaveName(o, f, fleet) =>
      && OnlyFleetIs(w, g, f, fleet.body.spec.server.pod)
      && o.body.fleetReplicas == w.fleets[f].body.spec.replicas
    case GResize(o, f, fleet) => OnlyFleetIs(w, g, f, o.body.spec.server.pod)
    case GSaveSize(o) =>
      exists f :: OnlyFleetIs(w, g, f, o.body.spec.server.pod)
                  && w.fleets[f].body.spec.replicas == o.body.spec.replicas
    case GCreate(o) => forall f :: f in FleetsOf(w, g) ==> Template(w, f) != o.body.spec.server.pod
    case _ => true
  }

  /** What the theorems about rollouts start from. */
  ghost predicate Begins(s: State, g: Name) {
    Inv(s) && RolloutInv(s, g) && CacheInv(s.w, g, GPc(s, g))
  }

  /** It holds at rest, if the youngest fleet is live, and whenever a game type is created. */
  lemma BeginsAtRest(s: State, g: Name)
    requires AllIdle(s) && Orderly(s.w) && (FleetsOf(s.w, g) != {} ==> YoungestLives(s.w, g))
    ensures Begins(s, g)
  {
    StartInv(s);
    assert GPc(s, g) == GIdle;
  }

  lemma BeginsAtBirth(s: State, t: State, g: Name)
    requires Inv(s) && Step(s, t) && g !in s.w.games && g in t.w.games
    ensures Begins(t, g)
  {
    BornEmpty(s, t, g);
    NextKeepsInv(s, t.act);
    BornIdle(s, t, g);
    EmptyCache(t.w, g, GPc(t, g));
  }

  /** Without a game type its worker is not in the middle of a rollout. */
  lemma BornIdle(s: State, t: State, g: Name)
    requires Inv(s) && Step(s, t) && g !in s.w.games && g in t.w.games
    ensures !GPc(t, g).GSaveName? && !GPc(t, g).GResize? && !GPc(t, g).GSaveSize?
  {
    assert GameInv(s.w, g, GPc(s, g));
    if t.act.GameCall? && t.act.g == g {
      NoGameNoBirth(s.w, g, GPc(s, g), t.act.a);
    }
  }

  lemma EmptyCache(w: World, g: Name, pc: GamePc)
    requires FleetsOf(w, g) == {} && g in w.games && !pc.GSaveName? && !pc.GResize? && !pc.GSaveSize?
    ensures CacheInv(w, g, pc)
  {}

  /** The youngest fleet is live, so that others cannot take it away or put another in its place. */
  lemma YoungestStays(w: World, w': World, g: Name, y: Name)
    requires SeenByGame(w, w', g) && LiveFleets(w', g) == LiveFleets(w, g)
    requires FleetAgesDistinct(w, g) && (FleetsOf(w, g) != {} ==> YoungestLives(w, g))
    requires IsYoungest(w', g, y)
    ensures IsYoungest(w, g, y)
  {
    assert y in FleetsOf(w, g);
    var z :| IsYoungest(w, g, z) && z in LiveFleets(w, g);
    assert z in LiveFleets(w', g);
  }

  lemma OnlyFleetStays(w: World, w': World, g: Name, f: Name)
    requires SeenByGame(w, w', g) && LiveFleets(w', g) == LiveFleets(w, g) && FleetsOf(w, g) == {f}
    requires YoungestLives(w, g)
    ensures FleetsOf(w', g) == {f} && Template(w', f) == Template(w, f)
  {
    var y :| IsYoungest(w, g, y) && y in LiveFleets(w, g);
    assert y in {f};
    assert f in LiveFleets(w', g);
    assert FleetsOf(w', g) <= FleetsOf(w, g);
  }

  lemma CacheOther(w: World, w': World, g: Name, pc: GamePc)
    requires CacheInv(w, g, pc) && SeenByGame(w, w', g) && LiveFleets(w', g) == LiveFleets(w, g)
    requires FleetAgesDistinct(w, g) && (FleetsOf(w, g) != {} ==> YoungestLives(w, g)) && SameSizes(w, w', g)
    ensures CacheInv(w', g, pc)
  {
    forall y | IsYoungest(w', g, y) ensures IsYoungest(w, g, y) {
      YoungestStays(w, w', g, y);
    }
    if exists f :: FleetsOf(w, g) == {f} {
      var f :| FleetsOf(w, g) == {f};
      assert f in FleetsOf(w, g);
      OnlyFleetStays(w, w', g, f);
    }
  }

  lemma OneListed(w: World, g: Name, order: seq<Name>)
    requires IsListing(order, FleetsOf(w, g)) && |order| == 1
    ensures FleetsOf(w, g) == {order[0]} && IsYoungest(w, g, order[0])
  {
    assert order[0] in order;
  }

  lemma CacheList(w: World, g: Name, o: Game, a: Answer)
    requires CacheInv(w, g, GList(o))
    ensures GameNext(w, g, GList(o), a).0 == w && CacheInv(w, g, GameNext(w, g, GList(o), a).1)
  {
    if ListsFleets(w, g, a) {
      ListingSize(a.order, FleetsOf(w, g));
      if |a.order| == 1 {
        OneListed(w, g, a.order);
      }
    }
  }

  lemma CacheStatus(w: World, g: Name, o: Game, a: Answer)
    requires FleetAgesDistinct(w, g) && forall f :: Sane(w, f)
    ensures GameNext(w, g, GStatus(o), a).0 == w && CacheInv(w, g, GameNext(w, g, GStatus(o), a).1)
  {
    if ListsFleets(w, g, a) {
      ListingSize(a.order, FleetsOf(w, g));
      if a.order != [] {
        YoungestIsLatest(w, a.order);
        var y := Youngest(w, a.order);
        forall z | IsYoungest(w, g, z) ensures z == y {
          assert z in a.order;
        }
      }
    }
  }

  lemma CacheFetch(w: World, g: Name, pc: GamePc, a: Answer)
    requires CacheInv(w, g, pc) && (pc.GTouch? || pc.GFetch?) && forall f :: Sane(w, f)
    ensures GameNext(w, g, pc, a).0 == w && CacheInv(w, g, GameNext(w, g, pc, a).1)
  {
    assert Sane(w, "");
  }

  /** Saving the status changes no fleet. */
  lemma CacheSave(w: World, g: Name, pc: GamePc, a: Answer)
    requires CacheInv(w, g, pc) && (pc.GSaveReplicas? || pc.GSaveName? || pc.GSaveSize?)
    ensures CacheInv(GameNext(w, g, pc, a).0, g, GameNext(w, g, pc, a).1)
  {
    var w' := GameNext(w, g, pc, a).0;
    assert w'.fleets == w.fleets;
    assert FleetsOf(w', g) == FleetsOf(w, g);
    forall y | IsYoungest(w', g, y) ensures IsYoungest(w, g, y) {}
  }

  lemma CacheResize(w: World, g: Name, pc: GamePc, a: Answer)
    requires CacheInv(w, g, pc) && pc.GResize? && YoungestLives(w, g)
    ensures CacheInv(GameNext(w, g, pc, a).0, g, GameNext(w, g, pc, a).1)
  {
    var (w', pc') := GameNext(w, g, pc, a);
    if pc'.GSaveSize? {
      var f := pc.f;
      var y :| IsYoungest(w, g, y) && y in LiveFleets(w, g);
      assert y in {f};
      assert FleetsOf(w', g) == {f};
      assert OnlyFleetIs(w', g, f, pc.o.body.spec.server.pod);
    }
  }

  lemma CacheOwn(s: State, a: Answer, g: Name)
    requires CacheInv(s.w, g, GPc(s, g)) && RolloutInv(s, g) && Rolling(s.w, g) && (forall f :: Sane(s.w, f))
    ensures CacheInv(Next(s, GameCall(g, a)).w, g, GPc(Next(s, GameCall(g, a)), g))
  {
    var w, pc := s.w, GPc(s, g);
    if pc.GList? {
      CacheList(w, g, pc.o, a);
    } else if pc.GStatus? {
      CacheStatus(w, g, pc.o, a);
    } else if pc.GTouch? || pc.GFetch? {
      CacheFetch(w, g, pc, a);
    } else if pc.GSaveReplicas? || pc.GSaveName? || pc.GSaveSize? {
      CacheSave(w, g, pc, a);
    } else if pc.GResize? {
      assert pc.f in FleetsOf(w, g);
      CacheResize(w, g, pc, a);
    } else {
      EndsOrBegins(w, g, pc, a);
    }
  }

  lemma EndsOrBegins(w: World, g: Name, pc: GamePc, a: Answer)
    requires pc.GIdle? || pc.GAddFinalizer? || pc.GCreate? || pc.GDrop?
             || pc.GDrain? || pc.GDrainEach? || pc.GDrained? || pc.GRemoveFinalizer?
    ensures var pc' := GameNext(w, g, pc, a).1;
            pc'.GIdle? || pc'.GAddFinalizer? || pc'.GStatus?
            || pc'.GDrain? || pc'.GDrainEach? || pc'.GDrained? || pc'.GRemoveFinalizer?
  {}

  lemma CacheStep(run: seq<State>, i: nat, g: Name)
    requires IsRun(run) && 0 < i < |run| && RolloutRun(run, g) && SizesStand(run, g)
    requires Begins(run[0], g)
    requires CacheInv(run[i - 1].w, g, GPc(run[i - 1], g))
    ensures CacheInv(run[i].w, g, GPc(run[i], g))
  {
    var s, t := run[i - 1], run[i];
    InvHolds(run, i - 1);
    InvIsSane(s);
    RolloutHolds(run, i - 1, g);
    assert StepAt(run, i);
    assert RollingAt(run, i - 1, g) && OthersSpare(run, i, g) && SizesStandAt(run, i, g);
    if t.act.GameCall? && t.act.g == g {
      CacheOwn(s, t.act.a, g);
    } else {
      StepSeenByGame(s, t.act, g);
      CacheOther(s.w, t.w, g, GPc(s, g));
    }
  }

  lemma {:induction false} CacheHolds(run: seq<State>, i: nat, g: Name)
    requires IsRun(run) && i < |run| && RolloutRun(run, g) && SizesStand(run, g)
    requires Begins(run[0], g)
    ensures CacheInv(run[i].w, g, GPc(run[i], g))
  {
    if i > 0 {
      CacheHolds(run, i - 1, g);
      CacheStep(run, i, g);
    }
  }

  /** Under every interleaving: when a reconcile with one fleet decides, its status holds that fleet's count. */
  lemma StatusIsCache(run: seq<State>, i: nat, g: Name)
    requires IsRun(run) && i < |run| && RolloutRun(run, g) && SizesStand(run, g)
    requires Begins(run[0], g)
    ensures GPc(run[i], g).GSaveName? ==>
      var GSaveName(o, f, fleet) := GPc(run[i], g);
      FleetsOf(run[i].w, g) == {f} && o.body.fleetReplicas == run[i].w.fleets[f].body.spec.replicas
  {
    CacheHolds(run, i, g);
  }

  /** The update of the status goes through. */
  predicate NameSaved(s: State, g: Name, a: Answer) {
    GPc(s, g).GSaveName? && a.ok && CanUpdate(s.w.games, g, GPc(s, g).o, Named(GPc(s, g).o, GPc(s, g).f))
  }

  /**
   So comparing the spec with the status is comparing it with the fleet: with equal pod templates
   the worker goes on to resize exactly if the fleet's own count differs from the spec's, and ends
   the reconcile exactly if the rollout has settled; and after resizing it has.
   */
  lemma StatusComparisonIsExact(run: seq<State>, i: nat, g: Name, a: Answer)
    requires IsRun(run) && i < |run| && RolloutRun(run, g) && SizesStand(run, g)
    requires Begins(run[0], g)
    requires g in run[i].w.games
    ensures NameSaved(run[i], g, a) && PodsEqual(GPc(run[i], g).fleet.body.spec, SpecOf(run[i].w, g)) ==>
      var pc' := GPc(Next(run[i], GameCall(g, a)), g);
      && GPc(run[i], g).f in run[i].w.fleets
      && (pc'.GResize? <==> run[i].w.fleets[GPc(run[i], g).f].body.spec.replicas != SpecOf(run[i].w, g).replicas)
      && (pc'.GIdle? <==> Settled(run[i].w, g))
    ensures GPc(run[i], g).GSaveSize? && run[i].w.games[g] == GPc(run[i], g).o ==> Settled(run[i].w, g)
  {
    CacheHolds(run, i, g);
    RolloutHolds(run, i, g);
    DecisionIsExact(run[i], g, a);
  }

  lemma DecisionIsExact(s: State, g: Name, a: Answer)
    requires CacheInv(s.w, g, GPc(s, g)) && g in s.w.games
    requires FleetsOf(s.w, g) != {} ==> YoungestLives(s.w, g)
    ensures NameSaved(s, g, a) && PodsEqual(GPc(s, g).fleet.body.spec, SpecOf(s.w, g)) ==>
      var pc' := GPc(Next(s, GameCall(g, a)), g);
      && GPc(s, g).f in s.w.fleets
      && (pc'.GResize? <==> s.w.fleets[GPc(s, g).f].body.spec.replicas != SpecOf(s.w, g).replicas)
      && (pc'.GIdle? <==> Settled(s.w, g))
    ensures GPc(s, g).GSaveSize? && s.w.games[g] == GPc(s, g).o ==> Settled(s.w, g)
  {
    var pc := GPc(s, g);
    if NameSaved(s, g, a) && PodsEqual(pc.fleet.body.spec, SpecOf(s.w, g)) {
      assert pc.f in FleetsOf(s.w, g);
      SettledOnly(s.w, g, pc.f);
    } else if pc.GSaveSize? && s.w.games[g] == pc.o {
      var f :| OnlyFleetIs(s.w, g, f, pc.o.body.spec.server.pod)
               && s.w.fleets[f].body.spec.replicas == pc.o.body.spec.replicas;
      assert f in FleetsOf(s.w, g);
      SettledOnly(s.w, g, f);
    }
  }

  lemma SettledOnly(w: World, g: Name, f: Name)
    requires g in w.games && FleetsOf(w, g) == {f} && YoungestLives(w, g)
    ensures f in w.fleets && !Deleting(w.fleets[f])
    ensures Settled(w, g) <==> PodsEqual(w.fleets[f].body.spec, SpecOf(w, g))
                               && w.fleets[f].body.spec.replicas == SpecOf(w, g).replicas
  {
    var y :| IsYoungest(w, g, y) && y in LiveFleets(w, g);
    assert y in {f};
    forall h | FleetsOf(w, g) == {h} ensures h == f {
      assert f in {h};
    }
  }

  // ---------------------------------------------------------------- whole runs

  /** The copies a worker holds have the spec that stands. */
  predicate CarriesSpec(pc: GamePc, spec: FleetSpec) {
    match pc
    case GStatus(o) => o.body.spec == spec
    case GTouch(o, t, y, fleet) => o.body.spec == spec && t.body.spec == spec
    case GFetch(o, t) => o.body.spec == spec && t.body.spec == spec
    case GSaveReplicas(o, t) => o.body.spec == spec && t.body.spec == spec
    case GList(o) => o.body.spec == spec
    case GSaveName(o, f, fleet) => o.body.spec == spec
    case GResize(o, f, fleet) => o.body.spec == spec
    case GSaveSize(o) => o.body.spec == spec
    case GCreate(o) => o.body.spec == spec
    case _ => true
  }

  lemma SpecStays(w: World, g: Name, pc: GamePc, a: Answer, spec: FleetSpec)
    requires g in w.games && SpecOf(w, g) == spec && CarriesSpec(pc, spec)
    ensures CarriesSpec(GameNext(w, g, pc, a).1, spec)
  {}

  /** The same fleets, marked or not as before, with the same replica targets. */
  ghost predicate SameFleets(w: World, w': World, g: Name) {
    && FleetsOf(w', g) == FleetsOf(w, g)
    && forall f :: f in FleetsOf(w, g) ==>
         && Deleting(w'.fleets[f]) == Deleting(w.fleets[f])
         && w'.fleets[f].body.spec.replicas == w.fleets[f].body.spec.replicas
         && Template(w', f) == Template(w, f) && w'.fleets[f].meta.created == w.fleets[f].meta.created
  }

  lemma SameRank(w: World, w': World, g: Name)
    requires g in w.games && g in w'.games && SpecOf(w', g) == SpecOf(w, g) && SameFleets(w, w', g)
    ensures Rank(w', g) == Rank(w, g)
  {
    forall y ensures IsYoungest(w', g, y) <==> IsYoungest(w, g, y) {}
    forall y ensures IsOldest(w', g, y) <==> IsOldest(w, g, y) {}
  }

  lemma EqualFleets(w: World, w': World, g: Name)
    requires w'.fleets == w.fleets
    ensures SameFleets(w, w', g)
  {
    assert FleetsOf(w', g) == FleetsOf(w, g);
  }

  /** Fleets that are not the game type's own do not matter. */
  lemma OutsideFleet(w: World, w': World, g: Name, x: Name)
    requires x !in FleetsOf(w, g) && x in w.fleets && w'.fleets == Api.Delete(w.fleets, x, w.clock)
    ensures SameFleets(w, w', g)
  {
    forall f ensures f in FleetsOf(w', g) <==> f in FleetsOf(w, g) {}
  }

  /** What holds whatever spec the worker has read. */
  ghost predicate Underway(s: State, g: Name, spec: FleetSpec) {
    && RolloutInv(s, g) && Rolling(s.w, g) && CacheInv(s.w, g, GPc(s, g)) && SpecOf(s.w, g) == spec
    && |FleetsOf(s.w, g)| <= 2 && (GPc(s, g).GCreate? ==> |FleetsOf(s.w, g)| <= 1)
    && forall f :: Sane(s.w, f)
  }

  /** What the steps of an up-to-date worker rely on. */
  ghost predicate Planned(s: State, g: Name, spec: FleetSpec) {
    Underway(s, g, spec) && CarriesSpec(GPc(s, g), spec)
  }

  ghost predicate Descends(w: World, w': World, g: Name)
    requires g in w.games && g in w'.games
  {
    if SameFleets(w, w', g) then Rank(w', g) == Rank(w, g) else Rank(w', g) < Rank(w, g)
  }

  lemma CreateRank(w: World, w': World, g: Name, o: Game, name: Name)
    requires Shape(w, g) && FleetAgesDistinct(w', g) && (forall f :: Sane(w, f))
    requires |FleetsOf(w, g)| <= 1 && CacheInv(w, g, GCreate(o)) && o.body.spec == SpecOf(w, g)
    requires name !in w.fleets && w' == CreateFleet(w, g, o, name)
    ensures Descends(w, w', g)
  {
    assert name in FleetsOf(w', g) && name !in FleetsOf(w, g);
    forall f | f in FleetsOf(w, g) ensures w.fleets[f].meta.created < w.clock {
      assert Sane(w, f);
      assert f in FleetsOf(w', g) && f != name;
      assert w'.fleets[f].meta.created != w'.fleets[name].meta.created;
    }
    FreshDescends(w, w', g, name, w'.fleets[name]);
  }

  lemma DropRank(w: World, w': World, g: Name, x: Name)
    requires g in w.games && |FleetsOf(w, g)| <= 2 && Superseded(w, g, x) && x in w.fleets
    requires w' == w.(fleets := Api.Delete(w.fleets, x, w.clock))
    ensures Descends(w, w', g)
  {
    if x !in FleetsOf(w, g) {
      OutsideFleet(w, w', g, x);
      SameRank(w, w', g);
    } else {
      var y :| y in LiveFleets(w, g) && w.fleets[x].meta.created < w.fleets[y].meta.created;
      PairOf(FleetsOf(w, g), x, y);
      if Deleting(w.fleets[x]) && w.fleets[x].meta.finalizers != {} {
        EqualFleets(w, w', g);
        SameRank(w, w', g);
      } else if Deleting(w.fleets[x]) {
        LossLeaves(w, w', g, x, y);
        LossDescends(w, w', g, x, y);
        assert x !in FleetsOf(w', g);
      } else {
        MarkDescends(w, w', g, x, y);
      }
    }
  }

  lemma PairOf(names: set<Name>, x: Name, y: Name)
    requires |names| <= 2 && x in names && y in names && x != y
    ensures names == {x, y}
  {
    assert names == {x, y} + (names - {x, y});
    assert |names| == 2 + |names - {x, y}|;
  }

  lemma ResizeRank(w: World, w': World, g: Name, o: Game, f: Name, fleet: Fleet)
    requires g in w.games && YoungestLives(w, g) && o.body.spec == SpecOf(w, g)
    requires CacheInv(w, g, GResize(o, f, fleet))
    requires f in w.fleets && w.fleets[f] == fleet && w' == w.(fleets := Put(w.fleets, f, Resized(fleet, o.body.spec.replicas)))
    ensures Descends(w, w', g)
  {
    SettledOnly(w, g, f);
    if fleet.body.spec.replicas == o.body.spec.replicas {
      assert Resized(fleet, o.body.spec.replicas) == fleet;
      EqualFleets(w, w', g);
      SameRank(w, w', g);
    } else {
      assert ResizedTo(fleet, Resized(fleet, o.body.spec.replicas), o.body.spec.replicas);
      ResizeDescends(w, w', g, f);
    }
  }

  lemma OwnRank(s: State, a: Answer, g: Name, spec: FleetSpec)
    requires Planned(s, g, spec)
    requires Rolling(Next(s, GameCall(g, a)).w, g) && SpecOf(Next(s, GameCall(g, a)).w, g) == spec
    ensures Descends(s.w, Next(s, GameCall(g, a)).w, g)
  {
    var w, pc := s.w, GPc(s, g);
    GameCallMoves(s, a, g);
    var w' := Next(s, GameCall(g, a)).w;
    if DrainsEarlier(pc) {
      DrainsOthers(w, g, pc, a);
      SameRank(w, w', g);
    } else if w'.fleets == w.fleets {
      EqualFleets(w, w', g);
      SameRank(w, w', g);
    } else if pc.GCreate? {
      CreateRank(w, w', g, pc.o, a.name);
    } else {
      DropOrResizeRank(s, a, g, spec);
    }
  }

  /** What a call of the game type's worker can do to the fleets. */
  lemma GameCallMoves(s: State, a: Answer, g: Name)
    requires RolloutInv(s, g)
    ensures var w' := Next(s, GameCall(g, a)).w;
      && w' == GameNext(s.w, g, GPc(s, g), a).0
      && (w'.fleets != s.w.fleets ==>
            && (GPc(s, g).GCreate? || GPc(s, g).GDrop? || GPc(s, g).GResize? || DrainsEarlier(GPc(s, g)))
            && (GPc(s, g).GCreate? ==> a.name !in s.w.fleets && w' == CreateFleet(s.w, g, GPc(s, g).o, a.name)))
  {
    var pc := GPc(s, g);
    if !(pc.GCreate? || pc.GDrop? || pc.GResize? || DrainsEarlier(pc)) {
      OnlyFleetCalls(s.w, g, pc, a);
    }
  }

  lemma DropOrResizeRank(s: State, a: Answer, g: Name, spec: FleetSpec)
    requires Planned(s, g, spec) && (GPc(s, g).GDrop? || GPc(s, g).GResize?)
    requires GameNext(s.w, g, GPc(s, g), a).0 != s.w
    ensures Descends(s.w, GameNext(s.w, g, GPc(s, g), a).0, g)
  {
    var w, pc := s.w, GPc(s, g);
    var w' := GameNext(w, g, pc, a).0;
    if pc.GDrop? {
      DropRank(w, w', g, pc.f);
    } else {
      assert pc.f in FleetsOf(w, g);
      ResizeRank(w, w', g, pc.o, pc.f, pc.fleet);
    }
  }

  lemma OtherRank(w: World, w': World, g: Name)
    requires Shape(w, g) && g in w'.games && SpecOf(w', g) == SpecOf(w, g)
    requires SeenByGame(w, w', g) && LiveFleets(w', g) == LiveFleets(w, g) && SameSizes(w, w', g)
    ensures Descends(w, w', g)
  {
    if FleetsOf(w', g) == FleetsOf(w, g) {
      forall f | f in FleetsOf(w, g) ensures Deleting(w'.fleets[f]) == Deleting(w.fleets[f]) {
        assert f in LiveFleets(w', g) <==> f in LiveFleets(w, g);
      }
      SameRank(w, w', g);
    } else {
      var y :| IsYoungest(w, g, y) && y in LiveFleets(w, g);
      assert y in LiveFleets(w', g);
      var x :| x in FleetsOf(w, g) && x !in FleetsOf(w', g);
      PairOf(FleetsOf(w, g), x, y);
      assert FleetsOf(w', g) == {y};
      LossDescends(w, w', g, x, y);
    }
  }

  // ---------------------------------------------------------------- a worker with an old spec

  /** The worker will not change the fleets by a spec other than the one that stands. */
  predicate UpToDate(pc: GamePc, spec: FleetSpec) {
    CarriesSpec(pc, spec) || pc.GSaveSize?
  }

  ghost function RankAt(s: State, g: Name, spec: FleetSpec): nat
    requires g in s.w.games
  {
    Rank(s.w, g) + if UpToDate(GPc(s, g), spec) then 0 else 7
  }

  /** The rank falls with every change and never rises. */
  ghost predicate DescendsAt(s: State, t: State, g: Name, spec: FleetSpec)
    requires g in s.w.games && g in t.w.games
  {
    RankAt(t, g, spec) + (if SameFleets(s.w, t.w, g) then 0 else 1) <= RankAt(s, g, spec)
  }

  lemma NextUpToDate(w: World, g: Name, pc: GamePc, a: Answer, spec: FleetSpec)
    requires g in w.games && SpecOf(w, g) == spec
    ensures UpToDate(pc, spec) ==> UpToDate(GameNext(w, g, pc, a).1, spec)
    ensures GameNext(w, g, pc, a).0.fleets != w.fleets ==> UpToDate(GameNext(w, g, pc, a).1, spec)
  {
    if CarriesSpec(pc, spec) {
      SpecStays(w, g, pc, a, spec);
    }
  }

  lemma OwnRankAt(s: State, a: Answer, g: Name, spec: FleetSpec)
    requires Underway(s, g, spec) && Shape(Next(s, GameCall(g, a)).w, g)
    requires Rolling(Next(s, GameCall(g, a)).w, g) && SpecOf(Next(s, GameCall(g, a)).w, g) == spec
    ensures DescendsAt(s, Next(s, GameCall(g, a)), g, spec)
  {
    var t := Next(s, GameCall(g, a));
    GameCallMoves(s, a, g);
    NextUpToDate(s.w, g, GPc(s, g), a, spec);
    if CarriesSpec(GPc(s, g), spec) {
      OwnRank(s, a, g, spec);
    } else if t.w.fleets == s.w.fleets {
      EqualFleets(s.w, t.w, g);
      SameRank(s.w, t.w, g);
    } else {
      SettledIff(t.w, g);
    }
  }

  lemma StepDescends(s: State, t: State, g: Name, spec: FleetSpec)
    requires Inv(s) && Step(s, t) && Underway(s, g, spec)
    requires Rolling(t.w, g) && SpecOf(t.w, g) == spec && Shape(t.w, g)
    requires !(t.act.GameCall? && t.act.g == g) ==>
      LiveFleets(t.w, g) == LiveFleets(s.w, g) && SameSizes(s.w, t.w, g)
    ensures DescendsAt(s, t, g, spec)
  {
    if t.act.GameCall? && t.act.g == g {
      OwnRankAt(s, t.act.a, g, spec);
    } else {
      StepSeenByGame(s, t.act, g);
      OtherRank(s.w, t.w, g);
    }
  }

  // ---------------------------------------------------------------- whole runs

  /** From step `m` on the spec stands. */
  ghost predicate SpecStands(run: seq<State>, m: nat, g: Name, spec: FleetSpec) {
    forall i :: m <= i < |run| ==> SpecAt(run, i, g, spec)
  }

  ghost predicate SpecAt(run: seq<State>, i: int, g: Name, spec: FleetSpec)
    requires 0 <= i < |run|
  {
    g in run[i].w.games && SpecOf(run[i].w, g) == spec
  }

  lemma UnderwayHolds(run: seq<State>, i: nat, g: Name)
    requires IsRun(run) && i < |run| && RolloutRun(run, g) && SizesStand(run, g)
    requires Begins(run[0], g)
    ensures g in run[i].w.games && Underway(run[i], g, SpecOf(run[i].w, g))
  {
    InvHolds(run, i);
    InvIsSane(run[i]);
    assert GameInv(run[i].w, g, GPc(run[i], g));
    RolloutHolds(run, i, g);
    CacheHolds(run, i, g);
    assert RollingAt(run, i, g);
  }

  lemma LastDescends(run: seq<State>, i: nat, g: Name, spec: FleetSpec)
    requires IsRun(run) && 0 < i < |run| && RolloutRun(run, g) && SizesStand(run, g)
    requires Begins(run[0], g)
    requires SpecAt(run, i - 1, g, spec) && SpecAt(run, i, g, spec)
    ensures DescendsAt(run[i - 1], run[i], g, spec)
  {
    UnderwayHolds(run, i - 1, g);
    RunKeepsShape(run, i, g);
    InvHolds(run, i - 1);
    assert StepAt(run, i);
    assert RollingAt(run, i, g) && OthersSpare(run, i, g) && SizesStandAt(run, i, g);
    StepDescends(run[i - 1], run[i], g, spec);
  }

  /** How many steps from `m` to `i` changed the game type's fleets. */
  ghost function Changes(run: seq<State>, m: nat, i: nat, g: Name): nat
    requires m <= i < |run|
  {
    if i == m then 0
    else Changes(run, m, i - 1, g) + if SameFleets(run[i - 1].w, run[i].w, g) then 0 else 1
  }

  /**
   In every run, from whatever step `m` on the spec stands, wherever an earlier rollout had got,
   whatever the game type's own worker was in the middle of, and whatever is interleaved or fails:
   each step that changes the game type's fleets lowers the rank, so that there are at most six of
   them, and at most thirteen if the worker was still at work for an earlier spec.
   */
  lemma RolloutConverges(run: seq<State>, m: nat, i: nat, g: Name, spec: FleetSpec)
    requires IsRun(run) && m <= i < |run| && RolloutRun(run, g) && SizesStand(run, g)
    requires Begins(run[0], g)
    requires SpecStands(run, m, g, spec)
    ensures SpecAt(run, m, g, spec) && SpecAt(run, i, g, spec)
            && Changes(run, m, i, g) + RankAt(run[i], g, spec) <= RankAt(run[m], g, spec)
            && RankAt(run[m], g, spec) <= if UpToDate(GPc(run[m], g), spec) then 6 else 13
  {
    assert SpecAt(run, m, g, spec) && SpecAt(run, i, g, spec);
    RanksFall(run, m, i, g, spec);
    FallsByChanges(run, m, i, g, spec);
    RankIsBounded(run, m, g, spec);
  }

  /** Step `j` descends. */
  ghost predicate FallsAt(run: seq<State>, j: int, g: Name, spec: FleetSpec)
    requires 0 < j < |run|
  {
    g in run[j - 1].w.games && g in run[j].w.games && DescendsAt(run[j - 1], run[j], g, spec)
  }

  lemma RanksFall(run: seq<State>, m: nat, i: nat, g: Name, spec: FleetSpec)
    requires IsRun(run) && m <= i < |run| && RolloutRun(run, g) && SizesStand(run, g)
    requires Begins(run[0], g) && SpecStands(run, m, g, spec)
    ensures forall j :: m < j <= i ==> FallsAt(run, j, g, spec)
  {
    forall j | m < j <= i ensures FallsAt(run, j, g, spec) {
      assert SpecAt(run, j - 1, g, spec) && SpecAt(run, j, g, spec);
      LastDescends(run, j, g, spec);
    }
  }

  lemma {:induction false} FallsByChanges(run: seq<State>, m: nat, i: nat, g: Name, spec: FleetSpec)
    requires m <= i < |run| && g in run[m].w.games && g in run[i].w.games
    requires forall j :: m < j <= i ==> FallsAt(run, j, g, spec)
    ensures Changes(run, m, i, g) + RankAt(run[i], g, spec) <= RankAt(run[m], g, spec)
  {
    if m < i {
      assert FallsAt(run, i, g, spec);
      FallsByChanges(run, m, i - 1, g, spec);
    }
  }

  lemma RankIsBounded(run: seq<State>, m: nat, g: Name, spec: FleetSpec)
    requires IsRun(run) && m < |run| && RolloutRun(run, g) && Begins(run[0], g)
    ensures g in run[m].w.games && RankAt(run[m], g, spec) <= if UpToDate(GPc(run[m], g), spec) then 6 else 13
  {
    RunKeepsShape(run, m, g);
    SettledIff(run[m].w, g);
  }

  /**
   Six would be wrong: a worker that is about to create a fleet by an earlier spec takes a settled
   rollout back to the highest rank in one call.
   */
  lemma StaleCreateUnsettles(s: State, g: Name, name: Name)
    requires GPc(s, g).GCreate? && g in s.w.games && Settled(s.w, g) && TimePassed(s.w, g)
    requires !PodsEqual(GPc(s, g).o.body.spec, SpecOf(s.w, g))
    requires name != "" && name !in s.w.fleets && ValidFleet(DefaultFleet(GPc(s, g).o.body.spec))
    ensures var t := Next(s, GameCall(g, Answer(true, [], name, [])));
            Rank(s.w, g) == 0 && g in t.w.games && Rank(t.w, g) == 6
  {
    var f :| FleetsOf(s.w, g) == {f} && !Deleting(s.w.fleets[f])
             && s.w.fleets[f].body.spec.server.pod == SpecOf(s.w, g).server.pod
             && s.w.fleets[f].body.spec.replicas == SpecOf(s.w, g).replicas;
    RankOfOne(s.w, g, f);
    var t := Next(s, GameCall(g, Answer(true, [], name, [])));
    assert t.w == CreateFleet(s.w, g, GPc(s, g).o, name);
    assert f in FleetsOf(s.w, g);
    assert FleetsOf(t.w, g) == {f, name};
    RankOfTwo(t.w, g, f, name);
  }
}
