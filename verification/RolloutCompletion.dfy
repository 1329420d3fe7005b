/**
 Where a rollout can still get: from any state in which no worker is in the middle of a reconcile,
 the operator's own calls and time settle a live game type on one fleet that matches its spec.
 */
module RolloutCompletion {
  import opened Api
  import opened Admission
  import opened Machine
  import opened Lifecycle
  import opened Scaling
  import opened Schedules
  import opened FleetCompletion
  import opened Draining
  import opened Rollout
  import RC = RolloutConvergence
  import SF = ServerFate

  function Told(order: seq<Name>, name: Name): Answer {
    Answer(true, order, name, [])
  }

  /** The game type has only got a new status. */
  predicate SameGame(o: Game, t: Game) {
    t.meta == o.meta && t.labels == o.labels && t.body.spec == o.body.spec
  }

  /** The named fleet can be fetched if the reconcile gets that far without any. */
  ghost predicate StatusHelps(w: World, g: Name)
    requires g in w.games
  {
    FleetsOf(w, g) == {} ==> w.games[g].body.fleetName == "" || w.games[g].body.fleetName in w.fleets
  }

  // ---------------------------------------------------------------- up to the decision

  function Saved(w: World, g: Name, t: Game): World {
    w.(games := w.games[g := t])
  }

  lemma Begins(w: World, g: Name, a: Answer)
    requires Held(w.games, g, TYPE_FINALIZER) && !Deleting(w.games[g]) && a.ok
    ensures GameTurns(w, g, GIdle, [a]) == (w, GStatus(w.games[g]))
  {
    GameTurnThen(w, g, GIdle, [], a);
    assert [] + [a] == [a];
  }

  /** Fetching the named fleet and saving its replica count. */
  lemma Fetches(w: World, g: Name, t: Game, a: Answer)
    requires g in w.games && !Deleting(w.games[g]) && a.ok && SameGame(w.games[g], t)
    requires t.body.fleetName in w.fleets
    ensures var u := Counted(t, w.fleets[t.body.fleetName].body.spec.replicas);
            GameTurns(w, g, GFetch(w.games[g], t), [a, a]) == (Saved(w, g, u), GList(u))
  {
    var o := w.games[g];
    var u := Counted(t, w.fleets[t.body.fleetName].body.spec.replicas);
    GameTurnThen(w, g, GFetch(o, t), [], a);
    assert [] + [a] == [a] && [a] + [a] == [a, a];
    assert GameTurns(w, g, GFetch(o, t), [a]) == (w, GSaveReplicas(o, u));
    GameTurnThen(w, g, GFetch(o, t), [a], a);
    assert CanUpdate(w.games, g, o, u);
  }

  lemma NamesTheYoungest(w: World, g: Name, o: Game, a: Answer)
    requires ListsFleets(w, g, a) && a.order != [] && "" !in w.fleets
    ensures var t := Named(o, Youngest(w, a.order));
            GameTurns(w, g, GStatus(o), [a, a]) == (w, GFetch(o, t))
  {
    var y := Youngest(w, a.order);
    assert y in w.fleets;
    GameTurnThen(w, g, GStatus(o), [], a);
    assert [] + [a] == [a] && [a] + [a] == [a, a];
    assert GameTurns(w, g, GStatus(o), [a]) == (w, GTouch(o, Named(o, y), y, w.fleets[y]));
    GameTurnThen(w, g, GStatus(o), [a], a);
  }

  lemma FindsNone(w: World, g: Name, o: Game, a: Answer)
    requires ListsFleets(w, g, a) && a.order == []
    ensures GameTurns(w, g, GStatus(o), [a]) == (w, FetchOrList(o, o))
  {
    GameTurnThen(w, g, GStatus(o), [], a);
    assert [] + [a] == [a];
  }

  /** From the start of a reconcile to its second listing. */
  lemma ReachesList(w: World, g: Name, a: Answer) returns (answers: seq<Answer>, t: Game)
    requires Held(w.games, g, TYPE_FINALIZER) && !Deleting(w.games[g]) && ListsFleets(w, g, a)
    requires "" !in w.fleets && StatusHelps(w, g)
    ensures GameTurns(w, g, GIdle, answers) == (Saved(w, g, t), GList(t)) && SameGame(w.games[g], t)
    ensures a.order != [] ==>
      && t.body.fleetName == Youngest(w, a.order)
      && t.body.fleetReplicas == w.fleets[Youngest(w, a.order)].body.spec.replicas
  {
    var o := w.games[g];
    Begins(w, g, a);
    ListingSize(a.order, FleetsOf(w, g));
    assert Saved(w, g, o) == w;
    if a.order == [] {
      FindsNone(w, g, o, a);
      GameTurnsConcat(w, g, GIdle, [a], [a]);
      answers, t := [a] + [a], o;
      if o.body.fleetName != "" {
        Fetches(w, g, o, a);
        GameTurnsConcat(w, g, GIdle, answers, [a, a]);
        t := Counted(o, w.fleets[o.body.fleetName].body.spec.replicas);
        answers := answers + [a, a];
      }
    } else {
      var y := Youngest(w, a.order);
      NamesTheYoungest(w, g, o, a);
      GameTurnsConcat(w, g, GIdle, [a], [a, a]);
      Fetches(w, g, Named(o, y), a);
      GameTurnsConcat(w, g, GIdle, [a] + [a, a], [a, a]);
      t := Counted(Named(o, y), w.fleets[y].body.spec.replicas);
      answers := [a] + [a, a] + [a, a];
    }
  }

  // ---------------------------------------------------------------- the decisions

  lemma CreatesFirst(w: World, g: Name, t: Game, a: Answer)
    requires ListsFleets(w, g, a) && a.order == []
    requires a.name != "" && a.name !in w.fleets && ValidFleet(DefaultFleet(t.body.spec))
    ensures GameTurns(w, g, GList(t), [a, a]) == (CreateFleet(w, g, t, a.name), GIdle)
  {
    GameTurnThen(w, g, GList(t), [], a);
    assert [] + [a] == [a] && [a] + [a] == [a, a];
    assert GameTurns(w, g, GList(t), [a]) == (w, GCreate(t));
    GameTurnThen(w, g, GList(t), [a], a);
  }

  /** With one fleet, the status is saved first. */
  lemma SavesName(w: World, g: Name, t: Game, f: Name, a: Answer)
    requires g in w.games && w.games[g] == t && !Deleting(t)
    requires ListsFleets(w, g, a) && a.order == [f] && f in w.fleets
    ensures var spec, u := w.fleets[f].body.spec, Named(t, f);
      GameTurns(w, g, GList(t), [a, a]) ==
        (Saved(w, g, u), if !PodsEqual(spec, t.body.spec) then GCreate(u)
                         else if t.body.spec.replicas != t.body.fleetReplicas then GResize(u, f, w.fleets[f])
                         else GIdle)
  {
    GameTurnThen(w, g, GList(t), [], a);
    assert [] + [a] == [a] && [a] + [a] == [a, a];
    assert GameTurns(w, g, GList(t), [a]) == (w, GSaveName(t, f, w.fleets[f]));
    GameTurnThen(w, g, GList(t), [a], a);
    assert CanUpdate(w.games, g, t, Named(t, f));
  }

  lemma CreatesNext(w: World, g: Name, u: Game, a: Answer)
    requires a.ok && a.name != "" && a.name !in w.fleets && ValidFleet(DefaultFleet(u.body.spec))
    ensures GameTurns(w, g, GCreate(u), [a]) == (CreateFleet(w, g, u, a.name), GIdle)
  {
    GameTurnThen(w, g, GCreate(u), [], a);
    assert [] + [a] == [a];
  }

  lemma Resizes(w: World, g: Name, u: Game, f: Name, a: Answer)
    requires a.ok && g in w.games && w.games[g] == u && !Deleting(u) && f in w.fleets && !Deleting(w.fleets[f])
    requires ValidPriority(w.fleets[f].body.spec.agePriority)
    ensures var n := u.body.spec.replicas;
      GameTurns(w, g, GResize(u, f, w.fleets[f]), [a, a]) ==
        (Saved(w.(fleets := w.fleets[f := Resized(w.fleets[f], n)]), g, Counted(u, n)), GIdle)
  {
    var n, o := u.body.spec.replicas, w.fleets[f];
    var w1 := w.(fleets := w.fleets[f := Resized(o, n)]);
    GameTurnThen(w, g, GResize(u, f, o), [], a);
    assert [] + [a] == [a] && [a] + [a] == [a, a];
    assert CanUpdate(w.fleets, f, o, Resized(o, n)) && ValidFleetUpdate(o.body.spec, Resized(o, n).body.spec);
    assert GameTurns(w, g, GResize(u, f, o), [a]) == (w1, GSaveSize(u));
    GameTurnThen(w, g, GResize(u, f, o), [a], a);
    assert CanUpdate(w1.games, g, u, Counted(u, n));
  }

  lemma Drops(w: World, g: Name, t: Game, a: Answer)
    requires ListsFleets(w, g, a) && |a.order| >= 2 && !Deleting(w.fleets[Oldest(w, a.order)])
    ensures var x := Oldest(w, a.order);
      GameTurns(w, g, GList(t), [a, a]) == (w.(fleets := Api.Delete(w.fleets, x, w.clock)), GIdle)
  {
    var x := Oldest(w, a.order);
    assert x in w.fleets;
    GameTurnThen(w, g, GList(t), [], a);
    assert [] + [a] == [a] && [a] + [a] == [a, a];
    assert GameTurns(w, g, GList(t), [a]) == (w, GDrop(t, x));
    GameTurnThen(w, g, GList(t), [a], a);
  }

  // ---------------------------------------------------------------- whole reconciles

  /** A live game type, protected, whose reconciles get as far as the decision. */
  ghost predicate Reconcilable(s: State, g: Name) {
    && Rest(s) && Held(s.w.games, g, TYPE_FINALIZER) && !Deleting(s.w.games[g]) && StatusHelps(s.w, g)
  }

  /** Only the status of `g` and its fleets have changed. */
  ghost predicate OnlyRolled(w: World, w': World, g: Name) {
    && w'.games.Keys == w.games.Keys && (forall h :: h in w.games && h != g ==> w'.games[h] == w.games[h])
    && (g in w.games ==> SameGame(w.games[g], w'.games[g]))
    && w'.servers == w.servers && w'.pods == w.pods && w'.clock == w.clock
  }

  lemma CreatePass(s: State, g: Name) returns (acts: seq<Act>, name: Name)
    requires Reconcilable(s, g) && ValidFleet(DefaultFleet(RC.SpecOf(s.w, g)))
    requires FleetsOf(s.w, g) == {} || exists f :: FleetsOf(s.w, g) == {f}
    requires forall f :: f in FleetsOf(s.w, g) ==> !PodsEqual(s.w.fleets[f].body.spec, RC.SpecOf(s.w, g))
    ensures Schedule(s, acts) && Rest(Play(s, acts)) && OnlyRolled(s.w, Play(s, acts).w, g)
    ensures name !in s.w.fleets && name in Play(s, acts).w.fleets
    ensures RC.Fresh(s.w, Play(s, acts).w, g, name, Play(s, acts).w.fleets[name])
    ensures Play(s, acts).w.fleets[name].meta.finalizers == {}
  {
    var w := s.w;
    var order := SomeListing(FleetsOf(w, g));
    ListingSize(order, FleetsOf(w, g));
    name := FreshName(w.fleets.Keys);
    var a := Told(order, name);
    assert Sane(w, "");
    var head, t := ReachesList(w, g, a);
    var w1 := Saved(w, g, t);
    assert FleetsOf(w1, g) == FleetsOf(w, g);
    if order == [] {
      CreatesFirst(w1, g, t, a);
      GameTurnsConcat(w, g, GIdle, head, [a, a]);
      acts := GameReconciles(s, g, head + [a, a]);
    } else {
      var f := SingleListed(w, g, order);
      SavesName(w1, g, t, f, a);
      GameTurnsConcat(w, g, GIdle, head, [a, a]);
      CreatesNext(Saved(w1, g, Named(t, f)), g, Named(t, f), a);
      GameTurnsConcat(w, g, GIdle, head + [a, a], [a]);
      acts := GameReconciles(s, g, head + [a, a] + [a]);
    }
  }

  lemma SingleListed(w: World, g: Name, order: seq<Name>) returns (f: Name)
    requires IsListing(order, FleetsOf(w, g)) && exists f :: FleetsOf(w, g) == {f}
    ensures FleetsOf(w, g) == {f} && order == [f] && f in w.fleets
  {
    f :| FleetsOf(w, g) == {f};
    ListingSize(order, FleetsOf(w, g));
    assert order[0] in order;
    assert f in FleetsOf(w, g);
  }

  lemma ResizePass(s: State, g: Name, f: Name) returns (acts: seq<Act>)
    requires Reconcilable(s, g) && FleetsOf(s.w, g) == {f} && f in s.w.fleets && !Deleting(s.w.fleets[f])
    requires PodsEqual(s.w.fleets[f].body.spec, RC.SpecOf(s.w, g))
    requires s.w.fleets[f].body.spec.replicas != RC.SpecOf(s.w, g).replicas
    ensures Schedule(s, acts) && Rest(Play(s, acts)) && OnlyRolled(s.w, Play(s, acts).w, g)
    ensures Play(s, acts).w.fleets == s.w.fleets[f := Resized(s.w.fleets[f], RC.SpecOf(s.w, g).replicas)]
  {
    var w := s.w;
    var order := SomeListing(FleetsOf(w, g));
    var h := SingleListed(w, g, order);
    assert h in {f};
    var a := Told(order, "");
    assert Sane(w, "") && Sane(w, f);
    var head, t := ReachesList(w, g, a);
    assert Youngest(w, order) == f;
    var w1 := Saved(w, g, t);
    assert FleetsOf(w1, g) == FleetsOf(w, g);
    SavesName(w1, g, t, f, a);
    GameTurnsConcat(w, g, GIdle, head, [a, a]);
    Resizes(Saved(w1, g, Named(t, f)), g, Named(t, f), f, a);
    GameTurnsConcat(w, g, GIdle, head + [a, a], [a, a]);
    acts := GameReconciles(s, g, head + [a, a] + [a, a]);
  }

  /** The reconcile that drops the oldest fleet, with any listing. */
  lemma DropPass(s: State, g: Name, order: seq<Name>) returns (acts: seq<Act>)
    requires Reconcilable(s, g) && IsListing(order, FleetsOf(s.w, g)) && |order| >= 2
    requires !Deleting(s.w.fleets[Oldest(s.w, order)])
    ensures Schedule(s, acts) && Rest(Play(s, acts)) && OnlyRolled(s.w, Play(s, acts).w, g)
    ensures Play(s, acts).w.fleets == Api.Delete(s.w.fleets, Oldest(s.w, order), s.w.clock)
    ensures Play(s, acts).w.games[g].body.fleetName == Youngest(s.w, order)
  {
    assert Sane(s.w, "");
    var answers, t := DropTurns(s.w, g, order);
    acts := GameReconciles(s, g, answers);
  }

  lemma DropTurns(w: World, g: Name, order: seq<Name>) returns (answers: seq<Answer>, t: Game)
    requires Held(w.games, g, TYPE_FINALIZER) && !Deleting(w.games[g]) && "" !in w.fleets
    requires IsListing(order, FleetsOf(w, g)) && |order| >= 2 && !Deleting(w.fleets[Oldest(w, order)])
    ensures SameGame(w.games[g], t) && t.body.fleetName == Youngest(w, order)
    ensures GameTurns(w, g, GIdle, answers) ==
            (Saved(w, g, t).(fleets := Api.Delete(w.fleets, Oldest(w, order), w.clock)), GIdle)
  {
    var a := Told(order, "");
    ListingSize(order, FleetsOf(w, g));
    var head;
    head, t := ReachesList(w, g, a);
    var w1 := Saved(w, g, t);
    assert FleetsOf(w1, g) == FleetsOf(w, g);
    OldestSame(w, w1, order);
    Drops(w1, g, t, a);
    GameTurnsConcat(w, g, GIdle, head, [a, a]);
    answers := head + [a, a];
  }

  lemma {:induction false} OldestSame(w: World, w': World, order: seq<Name>)
    requires order != [] && (forall n :: n in order ==> n in w.fleets) && w'.fleets == w.fleets
    ensures Oldest(w', order) == Oldest(w, order)
  {
    if |order| > 1 {
      OldestSame(w, w', order[..|order| - 1]);
    }
  }

  // ---------------------------------------------------------------- settling

  /** A fleet that does not outlast the rollout: it is not made to the spec, or not the youngest. */
  ghost predicate MustGo(w: World, g: Name, f: Name)
    requires g in w.games && f in w.fleets
  {
    !PodsEqual(w.fleets[f].body.spec, RC.SpecOf(w, g)) || !IsYoungest(w, g, f)
  }

  /** Nobody else holds the game type's fleets and servers. */
  ghost predicate OurFleets(w: World, g: Name) {
    forall f :: f in FleetsOf(w, g) ==> FleetIsOurs(w, f)
  }

  /** No server is wedged in a fleet that must go, or, with `all`, in any fleet. */
  ghost predicate Clear(w: World, g: Name, all: bool)
    requires g in w.games
  {
    forall f :: f in FleetsOf(w, g) && (all || MustGo(w, g, f)) ==> Unwedged(w, f)
  }

  ghost predicate Tended(w: World, g: Name, all: bool)
    requires g in w.games
  {
    OurFleets(w, g) && Clear(w, g, all)
  }

  /** What must go had to go before. */
  lemma StillMust(w: World, w': World, g: Name, f: Name)
    requires g in w.games && g in w'.games && RC.SpecOf(w', g) == RC.SpecOf(w, g)
    requires FleetsOf(w', g) <= FleetsOf(w, g) && f in FleetsOf(w', g)
    requires PodsEqual(w'.fleets[f].body.spec, w.fleets[f].body.spec)
    requires forall h :: h in FleetsOf(w', g) ==> w'.fleets[h].meta.created == w.fleets[h].meta.created
    ensures MustGo(w', g, f) ==> MustGo(w, g, f)
  {}

  /** A rollout that can go on. */
  ghost predicate CanGoOn(s: State, g: Name, all: bool) {
    && Reconcilable(s, g) && RC.Shape(s.w, g) && g in s.w.games && Tended(s.w, g, all)
    && ValidFleet(DefaultFleet(RC.SpecOf(s.w, g)))
  }

  /** It has gone on: the spec is the same, and the rank is lower. */
  ghost predicate GoneOn(s: State, t: State, g: Name, all: bool) {
    && CanGoOn(t, g, all) && g in s.w.games && RC.SpecOf(t.w, g) == RC.SpecOf(s.w, g)
    && RC.Rank(t.w, g) < RC.Rank(s.w, g)
  }

  lemma UntouchedServers(w: World, w': World, f: Name)
    requires w'.servers == w.servers && w'.pods == w.pods
    ensures OnlyOurs(w, f) ==> OnlyOurs(w', f)
    ensures Unwedged(w, f) ==> Unwedged(w', f)
  {
    assert ServersOf(w', f) == ServersOf(w, f);
    assert Terminating(w', f) == Terminating(w, f);
  }

  /** Owners may have changed, but servers and pods have not. */
  lemma TendedStill(w: World, w': World, g: Name, all: bool)
    requires g in w.games && g in w'.games && RC.SpecOf(w', g) == RC.SpecOf(w, g) && Tended(w, g, all)
    requires w'.servers == w.servers && w'.pods == w.pods && FleetsOf(w', g) <= FleetsOf(w, g)
    requires forall f :: f in FleetsOf(w', g) ==>
      && PodsEqual(w'.fleets[f].body.spec, w.fleets[f].body.spec)
      && w'.fleets[f].meta.created == w.fleets[f].meta.created
      && w'.fleets[f].meta.finalizers <= {FLEET_FINALIZER}
      && (Deleting(w'.fleets[f]) ==> w'.fleets[f].meta.finalizers == {FLEET_FINALIZER})
    ensures Tended(w', g, all)
  {
    forall f | f in FleetsOf(w', g)
      ensures FleetIsOurs(w', f) && (all || MustGo(w', g, f) ==> Unwedged(w', f))
    {
      assert f in FleetsOf(w, g) && FleetIsOurs(w, f);
      StillMust(w, w', g, f);
      UntouchedServers(w, w', f);
    }
  }

  lemma TickKeeps(w: World, w': World, g: Name, all: bool)
    requires g in w.games && w' == w.(clock := w'.clock) && RC.Shape(w, g) && Tended(w, g, all)
    ensures RC.Shape(w', g) && Tended(w', g, all) && RC.Rank(w', g) == RC.Rank(w, g) && FleetsOf(w', g) == FleetsOf(w, g)
  {
    RC.EqualFleets(w, w', g);
    RC.SameRank(w, w', g);
    if FleetsOf(w, g) != {} {
      YoungestStillLives(w, w', g);
    }
    forall f | f in FleetsOf(w, g) ensures FleetIsOurs(w, f) {}
    TendedStill(w, w', g, all);
  }

  lemma FreshTended(w: World, w': World, g: Name, name: Name, all: bool)
    requires NoOrphans(w) && g in w.games && Tended(w, g, all) && name in w'.fleets
    requires RC.Fresh(w, w', g, name, w'.fleets[name]) && w'.fleets[name].meta.finalizers == {}
    requires w'.servers == w.servers && w'.pods == w.pods && g in w'.games
    requires forall f :: f in FleetsOf(w, g) ==> !PodsEqual(w.fleets[f].body.spec, RC.SpecOf(w, g))
    ensures Tended(w', g, all)
  {
    forall f | f in FleetsOf(w', g) ensures FleetIsOurs(w', f) && Unwedged(w', f) {
      UntouchedServers(w, w', f);
      if f == name {
        forall k ensures k !in ServersOf(w, f) {
          assert k in ServersOf(w, f) ==> Held(w.fleets, f, FLEET_FINALIZER);
        }
        assert OnlyOurs(w, f) && Unwedged(w, f);
      } else {
        assert f in FleetsOf(w, g) && MustGo(w, g, f);
      }
    }
  }

  lemma FreshShape(w: World, w': World, g: Name, name: Name)
    requires RC.Ready(w, g) && g in w'.games && |FleetsOf(w, g)| <= 1 && name in w'.fleets
    requires RC.Fresh(w, w', g, name, w'.fleets[name])
    ensures RC.Shape(w', g)
  {
    assert FleetsOf(w', g) == FleetsOf(w, g) + {name};
    if FleetsOf(w, g) == {} {
      LoneShape(w', g, name);
    } else {
      var f := RC.OneFleet(w, g);
      assert FleetsOf(w', g) == {f, name};
      PairShape(w', g, f, name);
    }
  }

  lemma LoneShape(w: World, g: Name, y: Name)
    requires g in w.games && FleetsOf(w, g) == {y} && !Deleting(w.fleets[y])
    ensures RC.Shape(w, g)
  {
    assert IsYoungest(w, g, y) && y in LiveFleets(w, g);
  }

  lemma PairShape(w: World, g: Name, x: Name, y: Name)
    requires g in w.games && FleetsOf(w, g) == {x, y} && !Deleting(w.fleets[y])
    requires w.fleets[x].meta.created < w.fleets[y].meta.created
    ensures RC.Shape(w, g)
  {
    assert IsYoungest(w, g, y) && y in LiveFleets(w, g);
  }

  lemma GoOnByCreating(s: State, g: Name, all: bool) returns (acts: seq<Act>)
    requires CanGoOn(s, g, all) && |FleetsOf(s.w, g)| <= 1
    requires forall f :: f in FleetsOf(s.w, g) ==> !PodsEqual(s.w.fleets[f].body.spec, RC.SpecOf(s.w, g))
    ensures Schedule(s, acts) && GoneOn(s, Play(s, acts), g, all)
  {
    Wait(s, 1);
    var wait := [Env(Tick(1))];
    var t := Play(s, wait);
    RestAfter(s, wait);
    TickKeeps(s.w, t.w, g, all);
    forall f | f in FleetsOf(t.w, g) ensures t.w.fleets[f].meta.created < t.w.clock {
      assert Sane(s.w, f);
    }
    if |FleetsOf(t.w, g)| == 1 {
      var f := RC.OneFleet(t.w, g);
    }
    var rest, name := CreatePass(t, g);
    Then(s, wait, rest);
    acts := wait + rest;
    var u := Play(s, acts);
    RC.FreshDescends(t.w, u.w, g, name, u.w.fleets[name]);
    FreshShape(t.w, u.w, g, name);
    FreshTended(t.w, u.w, g, name, all);
    assert name in FleetsOf(u.w, g);
  }

  lemma GoOnByResizing(s: State, g: Name, f: Name, all: bool) returns (acts: seq<Act>)
    requires CanGoOn(s, g, all) && FleetsOf(s.w, g) == {f} && f in s.w.fleets
    requires PodsEqual(s.w.fleets[f].body.spec, RC.SpecOf(s.w, g))
    requires s.w.fleets[f].body.spec.replicas != RC.SpecOf(s.w, g).replicas
    ensures Schedule(s, acts) && GoneOn(s, Play(s, acts), g, all)
  {
    RC.SettledOnly(s.w, g, f);
    acts := ResizePass(s, g, f);
    var u := Play(s, acts);
    assert RC.ResizedTo(s.w.fleets[f], u.w.fleets[f], RC.SpecOf(s.w, g).replicas);
    RC.ResizeDescends(s.w, u.w, g, f);
    assert FleetsOf(u.w, g) == {f};
    LoneShape(u.w, g, f);
    assert f in FleetsOf(s.w, g) && FleetIsOurs(s.w, f);
    TendedStill(s.w, u.w, g, all);
  }

  lemma GoOnByDropping(s: State, g: Name, x: Name, y: Name, all: bool) returns (acts: seq<Act>)
    requires CanGoOn(s, g, all) && FleetsOf(s.w, g) == {x, y} && !Deleting(s.w.fleets[x]) && !Deleting(s.w.fleets[y])
    requires s.w.fleets[x].meta.created < s.w.fleets[y].meta.created
    ensures Schedule(s, acts) && GoneOn(s, Play(s, acts), g, all)
  {
    var order := SomeListing(FleetsOf(s.w, g));
    ListingSize(order, FleetsOf(s.w, g));
    OldestIsEarliest(s.w, order);
    assert Oldest(s.w, order) == x by {
      assert Oldest(s.w, order) in {x, y};
      assert x in order;
    }
    acts := DropPass(s, g, order);
    DroppedGoesOn(s, Play(s, acts), g, x, y, all);
  }

  lemma DroppedGoesOn(s: State, t: State, g: Name, x: Name, y: Name, all: bool)
    requires CanGoOn(s, g, all) && FleetsOf(s.w, g) == {x, y} && !Deleting(s.w.fleets[x]) && !Deleting(s.w.fleets[y])
    requires s.w.fleets[x].meta.created < s.w.fleets[y].meta.created
    requires Rest(t) && OnlyRolled(s.w, t.w, g) && t.w.fleets == Api.Delete(s.w.fleets, x, s.w.clock)
    ensures GoneOn(s, t, g, all)
  {
    RC.MarkDescends(s.w, t.w, g, x, y);
    assert x in FleetsOf(s.w, g) && y in FleetsOf(s.w, g) && y in FleetsOf(t.w, g);
    assert FleetIsOurs(s.w, x) && FleetIsOurs(s.w, y);
    TendedStill(s.w, t.w, g, all);
    if s.w.fleets[x].meta.finalizers == {} {
      LoneShape(t.w, g, y);
    } else {
      PairShape(t.w, g, x, y);
    }
  }

  lemma GoOnByDraining(s: State, g: Name, x: Name, y: Name, all: bool) returns (acts: seq<Act>)
    requires CanGoOn(s, g, all) && FleetsOf(s.w, g) == {x, y} && Deleting(s.w.fleets[x]) && !Deleting(s.w.fleets[y])
    requires s.w.fleets[x].meta.created < s.w.fleets[y].meta.created
    ensures Schedule(s, acts) && GoneOn(s, Play(s, acts), g, all)
  {
    assert x in FleetsOf(s.w, g) && MustGo(s.w, g, x) && FleetIsOurs(s.w, x);
    var first := SF.SetUpServers(s, Live(s.w, x));
    var t := Play(s, first);
    SetUpDrainable(s.w, t.w, x);
    var rest := DrainCompletes(t, x);
    Then(s, first, rest);
    acts := first + rest;
    DrainedGoesOn(s, t, Play(s, acts), g, x, y, all);
  }

  lemma SetUpDrainable(w: World, w': World, x: Name)
    requires OnlyOurs(w, x) && Unwedged(w, x) && SF.Prepared(w, w', Live(w, x))
    ensures Drainable(w', x) && ServersOf(w', x) == ServersOf(w, x)
  {
    forall k ensures k in ServersOf(w', x) <==> k in ServersOf(w, x) {
      if k in w.servers {
        assert w'.servers[k].labels == w.servers[k].labels;
      }
    }
    forall k | k in ServersOf(w', x) ensures w'.servers[k].meta.finalizers == {SERVER_FINALIZER} && k in w'.pods {
      if k !in Live(w, x) {
        assert k in Terminating(w, x);
      }
    }
  }

  /** The servers of the other fleet are as they were. */
  lemma OtherFleetTended(w: World, w1: World, w2: World, x: Name, y: Name)
    requires x != y && SF.Prepared(w, w1, Live(w, x)) && OthersKept(w1, w2, x)
    requires ServersOf(w1, x) == ServersOf(w, x)
    ensures OnlyOurs(w, y) ==> OnlyOurs(w2, y)
    ensures Unwedged(w, y) ==> Unwedged(w2, y)
  {
    forall k | k in ServersOf(w2, y)
      ensures k in ServersOf(w, y) && w2.servers[k] == w.servers[k] && (k in w.pods ==> k in w2.pods)
    {
      assert k !in ServersOf(w2, x);
      assert k !in ServersOf(w1, x) && w2.servers[k] == w1.servers[k];
      assert k !in Live(w, x);
    }
    forall k | k in Terminating(w2, y) ensures k in Terminating(w, y) && (k in w.pods ==> k in w2.pods) {}
  }

  lemma DrainedGoesOn(s: State, t: State, u: State, g: Name, x: Name, y: Name, all: bool)
    requires CanGoOn(s, g, all) && FleetsOf(s.w, g) == {x, y} && !Deleting(s.w.fleets[y])
    requires s.w.fleets[x].meta.created < s.w.fleets[y].meta.created
    requires SF.Prepared(s.w, t.w, Live(s.w, x)) && ServersOf(t.w, x) == ServersOf(s.w, x)
    requires Rest(u) && x !in u.w.fleets && OthersKept(t.w, u.w, x)
    ensures GoneOn(s, u, g, all)
  {
    assert x in FleetsOf(s.w, g) && y in FleetsOf(s.w, g);
    assert u.w.fleets == s.w.fleets - {x} by {
      assert u.w.fleets - {x} == u.w.fleets;
    }
    RC.LossLeaves(s.w, u.w, g, x, y);
    RC.LossDescends(s.w, u.w, g, x, y);
    LoneShape(u.w, g, y);
    OtherFleetTended(s.w, t.w, u.w, x, y);
    assert FleetIsOurs(s.w, y);
    StillMust(s.w, u.w, g, y);
  }

  lemma GoOn(s: State, g: Name, all: bool) returns (acts: seq<Act>)
    requires CanGoOn(s, g, all) && !RC.Settled(s.w, g)
    ensures Schedule(s, acts) && GoneOn(s, Play(s, acts), g, all)
  {
    var w := s.w;
    if FleetsOf(w, g) == {} {
      acts := GoOnByCreating(s, g, all);
    } else if |FleetsOf(w, g)| == 1 {
      var f := RC.OneFleet(w, g);
      RC.SettledOnly(w, g, f);
      if PodsEqual(w.fleets[f].body.spec, RC.SpecOf(w, g)) {
        acts := GoOnByResizing(s, g, f, all);
      } else {
        acts := GoOnByCreating(s, g, all);
      }
    } else {
      var x, y := RC.TwoFleets(w, g);
      assert y in LiveFleets(w, g);
      if Deleting(w.fleets[x]) {
        acts := GoOnByDraining(s, g, x, y, all);
      } else {
        acts := GoOnByDropping(s, g, x, y, all);
      }
    }
  }

  lemma {:induction false} Settles(s: State, g: Name, all: bool) returns (acts: seq<Act>)
    requires CanGoOn(s, g, all)
    ensures Schedule(s, acts) && CanGoOn(Play(s, acts), g, all)
    ensures RC.SpecOf(Play(s, acts).w, g) == RC.SpecOf(s.w, g) && RC.Settled(Play(s, acts).w, g)
    decreases RC.Rank(s.w, g)
  {
    acts := [];
    if !RC.Settled(s.w, g) {
      var first := GoOn(s, g, all);
      var rest := Settles(Play(s, first), g, all);
      Then(s, first, rest);
      acts := first + rest;
    }
  }

  lemma ProtectGame(s: State, g: Name) returns (acts: seq<Act>)
    requires Rest(s) && g in s.w.games && !Deleting(s.w.games[g])
    ensures Schedule(s, acts) && Rest(Play(s, acts))
    ensures Play(s, acts).w == Saved(s.w, g, WithFinalizer(s.w.games[g], TYPE_FINALIZER))
  {
    var w, o := s.w, s.w.games[g];
    if TYPE_FINALIZER in o.meta.finalizers {
      acts := [];
      assert WithFinalizer(o, TYPE_FINALIZER) == o;
    } else {
      var a := Heard([]);
      GameTurnThen(w, g, GIdle, [], a);
      assert GameTurns(w, g, GIdle, [] + [a]) == (w, GAddFinalizer(o));
      GameTurnThen(w, g, GIdle, [] + [a], a);
      acts := GameReconciles(s, g, [] + [a] + [a]);
    }
  }

  /**
   A live game type can still settle on one fleet that matches its spec, from any point of an
   interrupted rollout and from the middle of any reconciles, if the spec is admissible, its status
   does not name a lost fleet while it has none, nobody else's finalizer is in the way, and no
   server is wedged in a fleet that must go.
   */
  lemma RolloutCompletes(s: State, g: Name, all: bool) returns (acts: seq<Act>)
    requires Inv(s) && RC.Shape(s.w, g) && !Deleting(s.w.games[g])
    requires StatusHelps(s.w, g) && Tended(s.w, g, all) && ValidFleet(DefaultFleet(RC.SpecOf(s.w, g)))
    ensures Schedule(s, acts) && CanGoOn(Play(s, acts), g, all)
    ensures RC.SpecOf(Play(s, acts).w, g) == RC.SpecOf(s.w, g) && RC.Settled(Play(s, acts).w, g)
  {
    var pause := ToRest(s);
    var first := ProtectGame(Play(s, pause), g);
    Then(s, pause, first);
    var t := Play(s, pause + first);
    RC.EqualFleets(s.w, t.w, g);
    if FleetsOf(s.w, g) != {} {
      YoungestStillLives(s.w, t.w, g);
    }
    forall f | f in FleetsOf(s.w, g) ensures FleetIsOurs(s.w, f) {}
    TendedStill(s.w, t.w, g, all);
    var rest := Settles(t, g, all);
    Then(s, pause + first, rest);
    acts := pause + first + rest;
  }
}
