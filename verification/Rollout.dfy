/**
 Rollouts of a game type: under every interleaving it keeps a live fleet once it has one, and
 its reconciles converge to a single fleet that matches the spec. Also when neither holds.
 */
module Rollout {
  import opened Api
  import opened Admission
  import opened Machine
  import opened Lifecycle
  import opened Schedules

  function LiveFleets(w: World, g: Name): set<Name> {
    set f | f in FleetsOf(w, g) && !Deleting(w.fleets[f])
  }

  ghost predicate FleetAgesDistinct(w: World, g: Name) {
    forall a, b :: a in FleetsOf(w, g) && b in FleetsOf(w, g) && a != b ==>
      w.fleets[a].meta.created != w.fleets[b].meta.created
  }

  ghost predicate IsYoungest(w: World, g: Name, y: Name) {
    && y in FleetsOf(w, g)
    && forall h :: h in FleetsOf(w, g) ==> w.fleets[h].meta.created <= w.fleets[y].meta.created
  }

  ghost predicate IsOldest(w: World, g: Name, x: Name) {
    && x in FleetsOf(w, g)
    && forall h :: h in FleetsOf(w, g) ==> w.fleets[x].meta.created <= w.fleets[h].meta.created
  }

  // ---------------------------------------------------------------- the two loops

  lemma {:induction false} YoungestIsLatest(w: World, order: seq<Name>)
    requires order != [] && forall n :: n in order ==> n in w.fleets
    ensures forall n :: n in order ==> w.fleets[n].meta.created <= w.fleets[Youngest(w, order)].meta.created
  {
    if |order| > 1 {
      var rest := order[..|order| - 1];
      YoungestIsLatest(w, rest);
      forall n | n in order ensures n in rest || n == order[|order| - 1] {
        assert order == rest + [order[|order| - 1]];
      }
    }
  }

  lemma {:induction false} OldestIsEarliest(w: World, order: seq<Name>)
    requires order != [] && forall n :: n in order ==> n in w.fleets
    ensures forall n :: n in order ==> w.fleets[Oldest(w, order)].meta.created <= w.fleets[n].meta.created
  {
    if |order| > 1 {
      var rest := order[..|order| - 1];
      OldestIsEarliest(w, rest);
      forall n | n in order ensures n in rest || n == order[|order| - 1] {
        assert order == rest + [order[|order| - 1]];
      }
    }
  }

  /** The fleet at `i` was created after, or for the oldest before, every fleet listed ahead of it. */
  predicate StandsOut(w: World, order: seq<Name>, i: nat, youngest: bool)
    requires i < |order| && forall n :: n in order ==> n in w.fleets
  {
    var at := w.fleets[order[i]].meta.created;
    forall j :: 0 <= j < i ==>
      if youngest then w.fleets[order[j]].meta.created < at else at < w.fleets[order[j]].meta.created
  }

  /** Of several equally young fleets the first listed one is taken. */
  lemma {:induction false} YoungestIsFirst(w: World, order: seq<Name>) returns (i: nat)
    requires order != [] && forall n :: n in order ==> n in w.fleets
    ensures i < |order| && order[i] == Youngest(w, order) && StandsOut(w, order, i, true)
  {
    var last := |order| - 1;
    var rest := order[..last];
    i := 0;
    if last > 0 {
      i := YoungestIsFirst(w, rest);
      YoungestIsLatest(w, rest);
      if w.fleets[order[last]].meta.created > w.fleets[rest[i]].meta.created {
        i := last;
        forall j | 0 <= j < last ensures w.fleets[order[j]].meta.created < w.fleets[order[last]].meta.created {
          assert rest[j] in rest;
        }
      } else {
        assert forall j :: 0 <= j < i ==> order[j] == rest[j];
      }
    }
  }

  /** And so it is with the oldest. */
  lemma {:induction false} OldestIsFirst(w: World, order: seq<Name>) returns (i: nat)
    requires order != [] && forall n :: n in order ==> n in w.fleets
    ensures i < |order| && order[i] == Oldest(w, order) && StandsOut(w, order, i, false)
  {
    var last := |order| - 1;
    var rest := order[..last];
    i := 0;
    if last > 0 {
      i := OldestIsFirst(w, rest);
      OldestIsEarliest(w, rest);
      if w.fleets[order[last]].meta.created < w.fleets[rest[i]].meta.created {
        i := last;
        forall j | 0 <= j < last ensures w.fleets[order[last]].meta.created < w.fleets[order[j]].meta.created {
          assert rest[j] in rest;
        }
      } else {
        assert forall j :: 0 <= j < i ==> order[j] == rest[j];
      }
    }
  }

  /** With two fleets, list order decides which one is dropped exactly when they are equally old. */
  lemma DropDependsOnOrderIff(w: World, a: Name, b: Name)
    requires a in w.fleets && b in w.fleets && a != b
    ensures Oldest(w, [a, b]) != Oldest(w, [b, a]) <==> w.fleets[a].meta.created == w.fleets[b].meta.created
  {
    assert [a, b][..1] == [a] && [b, a][..1] == [b];
    assert Oldest(w, [a]) == a && Oldest(w, [b]) == b;
  }

  // ---------------------------------------------------------------- a live fleet at all times

  /** `f`, if it is still there, is older than some live fleet. */
  ghost predicate Superseded(w: World, g: Name, f: Name) {
    f in FleetsOf(w, g) ==>
      exists y :: y in LiveFleets(w, g) && w.fleets[f].meta.created < w.fleets[y].meta.created
  }

  ghost predicate YoungestLives(w: World, g: Name) {
    exists y :: IsYoungest(w, g, y) && y in LiveFleets(w, g)
  }

  ghost predicate RolloutInv(s: State, g: Name) {
    && (FleetsOf(s.w, g) != {} ==> YoungestLives(s.w, g))
    && match GPc(s, g)
       case GDrop(o, f) => Superseded(s.w, g, f)
       case GDrain(o) => FleetsOf(s.w, g) == {}
       case GDrainEach(o, todo) => FleetsOf(s.w, g) == {}
       case GDrained(o) => FleetsOf(s.w, g) == {}
       case GRemoveFinalizer(o) => FleetsOf(s.w, g) == {}
       case _ => true
  }

  /** What a rollout starts with, for one: when the game type is created, it has no fleets. */
  lemma BornEmpty(s: State, t: State, g: Name)
    requires Inv(s) && Step(s, t) && g !in s.w.games && g in t.w.games
    ensures FleetsOf(t.w, g) == {} && RolloutInv(t, g)
  {
    assert GameInv(s.w, g, GPc(s, g));
    if t.act.GameCall? && t.act.g == g {
      NoGameNoBirth(s.w, g, GPc(s, g), t.act.a);
    } else {
      StepSeenByGame(s, t.act, g);
    }
  }

  lemma NoGameNoBirth(w: World, g: Name, pc: GamePc, a: Answer)
    requires g !in w.games
    ensures g !in GameNext(w, g, pc, a).0.games
  {}

  /** The game type is never deleted, and no two of its fleets are equally old. */
  ghost predicate Rolling(w: World, g: Name) {
    g in w.games && !Deleting(w.games[g]) && FleetAgesDistinct(w, g)
  }

  ghost predicate RollingAt(run: seq<State>, i: int, g: Name)
    requires 0 <= i < |run|
  {
    Rolling(run[i].w, g)
  }

  /** If step `i` is not the game type's own, it marks none of its fleets. */
  ghost predicate OthersSpare(run: seq<State>, i: int, g: Name)
    requires 0 < i < |run|
  {
    !(run[i].act.GameCall? && run[i].act.g == g) ==> LiveFleets(run[i].w, g) == LiveFleets(run[i - 1].w, g)
  }

  ghost predicate RolloutRun(run: seq<State>, g: Name) {
    && (forall i :: 0 <= i < |run| ==> RollingAt(run, i, g))
    && (forall i :: 0 < i < |run| ==> OthersSpare(run, i, g))
  }

  lemma RolloutOther(s: State, t: State, g: Name)
    requires RolloutInv(s, g) && SeenByGame(s.w, t.w, g)
    requires LiveFleets(t.w, g) == LiveFleets(s.w, g)
    requires GPc(t, g) == GPc(s, g) || GPc(t, g) == GIdle
    ensures RolloutInv(t, g) && (YoungestLives(s.w, g) ==> YoungestLives(t.w, g))
  {
    if FleetsOf(s.w, g) != {} {
      var y :| IsYoungest(s.w, g, y) && y in LiveFleets(s.w, g);
      assert y in LiveFleets(t.w, g);
      assert IsYoungest(t.w, g, y);
    }
    if GPc(t, g).GDrop? {
      var f := GPc(t, g).f;
      if f in FleetsOf(t.w, g) {
        var y :| y in LiveFleets(s.w, g) && s.w.fleets[f].meta.created < s.w.fleets[y].meta.created;
        assert y in LiveFleets(t.w, g);
      }
    }
  }

  lemma DropSupersedes(w: World, g: Name, order: seq<Name>)
    requires IsListing(order, FleetsOf(w, g)) && |order| >= 2
    requires FleetAgesDistinct(w, g) && YoungestLives(w, g)
    ensures Superseded(w, g, Oldest(w, order))
  {
    OldestIsEarliest(w, order);
    var x := Oldest(w, order);
    var y :| IsYoungest(w, g, y) && y in LiveFleets(w, g);
    var z := if order[0] == x then order[1] else order[0];
    assert z in order && z != x;
    assert w.fleets[x].meta.created < w.fleets[z].meta.created <= w.fleets[y].meta.created;
  }

  lemma RolloutCreate(w: World, w': World, g: Name, o: Game, name: Name)
    requires name !in w.fleets && w' == CreateFleet(w, g, o, name)
    requires forall f :: Sane(w, f)
    ensures YoungestLives(w', g)
  {
    forall h | h in FleetsOf(w', g) ensures w'.fleets[h].meta.created <= w.clock {
      assert h != name ==> Sane(w, h);
    }
    assert IsYoungest(w', g, name);
    assert name in LiveFleets(w', g);
  }

  lemma RolloutDrop(w: World, w': World, g: Name, f: Name)
    requires FleetsOf(w, g) != {} ==> YoungestLives(w, g)
    requires f in w.fleets && Superseded(w, g, f)
    requires w' == w.(fleets := Api.Delete(w.fleets, f, w.clock))
    ensures FleetsOf(w, g) != {} ==> YoungestLives(w', g)
    ensures FleetsOf(w', g) <= FleetsOf(w, g)
  {
    if FleetsOf(w, g) != {} {
      var y :| IsYoungest(w, g, y) && y in LiveFleets(w, g);
      assert f in FleetsOf(w, g) ==> f != y;
      assert f != y;
      assert y in LiveFleets(w', g) && IsYoungest(w', g, y);
    }
  }

  lemma YoungestStillLives(w: World, w': World, g: Name)
    requires w'.fleets == w.fleets && YoungestLives(w, g)
    ensures YoungestLives(w', g)
  {
    var y :| IsYoungest(w, g, y) && y in LiveFleets(w, g);
    assert IsYoungest(w', g, y) && y in LiveFleets(w', g);
  }

  lemma RolloutResize(w: World, w': World, g: Name, f: Name, n: int)
    requires f in w.fleets && YoungestLives(w, g)
    requires w'.fleets == Put(w.fleets, f, Resized(w.fleets[f], n))
    ensures YoungestLives(w', g)
  {
    var y :| IsYoungest(w, g, y) && y in LiveFleets(w, g);
    assert y in LiveFleets(w', g) && IsYoungest(w', g, y);
  }

  /** Which calls of the game type worker change fleets. */
  lemma OnlyFleetCalls(w: World, g: Name, pc: GamePc, a: Answer)
    requires !pc.GCreate? && !pc.GDrop? && !pc.GDrainEach? && !pc.GResize?
    ensures GameNext(w, g, pc, a).0.fleets == w.fleets
  {}

  /** The worker was draining an earlier game type of that name. */
  predicate DrainsEarlier(pc: GamePc) {
    pc.GDrain? || pc.GDrainEach? || pc.GDrained? || pc.GRemoveFinalizer?
  }

  /** The worker of a live game type never starts to drain it. */
  lemma NeverDrains(w: World, g: Name, pc: GamePc, a: Answer)
    requires g in w.games && !Deleting(w.games[g])
    ensures DrainsEarlier(GameNext(w, g, pc, a).1) ==> DrainsEarlier(pc)
    ensures GameNext(w, g, pc, a).1.GDrop? ==>
      pc.GList? && IsListing(a.order, FleetsOf(w, g)) && |a.order| >= 2
      && GameNext(w, g, pc, a).1.f == Oldest(w, a.order)
  {}

  lemma RolloutOwn(s: State, a: Answer, g: Name)
    requires RolloutInv(s, g) && Rolling(s.w, g) && (forall f :: Sane(s.w, f))
    ensures RolloutInv(Next(s, GameCall(g, a)), g)
    ensures YoungestLives(s.w, g) ==> YoungestLives(Next(s, GameCall(g, a)).w, g)
  {
    var pc := GPc(s, g);
    var (w', pc') := GameNext(s.w, g, pc, a);
    NeverDrains(s.w, g, pc, a);
    if pc.GCreate? || pc.GDrop? || pc.GResize? {
      RolloutChange(s.w, g, pc, a);
    } else if DrainsEarlier(pc) {
      DrainsOthers(s.w, g, pc, a);
    } else {
      RolloutCalm(s.w, g, pc, a);
    }
  }

  /** The calls that leave the fleets alone. */
  lemma RolloutCalm(w: World, g: Name, pc: GamePc, a: Answer)
    requires Rolling(w, g) && (FleetsOf(w, g) != {} ==> YoungestLives(w, g))
    requires !pc.GCreate? && !pc.GDrop? && !pc.GResize? && !DrainsEarlier(pc)
    ensures var (w', pc') := GameNext(w, g, pc, a);
      && FleetsOf(w', g) == FleetsOf(w, g) && (FleetsOf(w, g) != {} ==> YoungestLives(w', g))
      && (pc'.GDrop? ==> Superseded(w', g, pc'.f)) && !DrainsEarlier(pc')
  {
    var (w', pc') := GameNext(w, g, pc, a);
    NeverDrains(w, g, pc, a);
    OnlyFleetCalls(w, g, pc, a);
    assert FleetsOf(w', g) == FleetsOf(w, g);
    if FleetsOf(w, g) != {} {
      YoungestStillLives(w, w', g);
    }
    if pc'.GDrop? {
      assert a.order[0] in a.order;
      DropSupersedes(w, g, a.order);
      assert w' == w;
    }
  }

  lemma DrainsOthers(w: World, g: Name, pc: GamePc, a: Answer)
    requires DrainsEarlier(pc) && FleetsOf(w, g) == {}
    ensures FleetsOf(GameNext(w, g, pc, a).0, g) == {} && !GameNext(w, g, pc, a).1.GDrop?
  {
    var w' := GameNext(w, g, pc, a).0;
    if pc.GDrainEach? && w' != w {
      DeleteFleetUnnoticed(w, pc.todo[0]);
    } else {
      assert w'.fleets == w.fleets;
    }
  }

  /** The calls that change fleets. */
  lemma RolloutChange(w: World, g: Name, pc: GamePc, a: Answer)
    requires (FleetsOf(w, g) != {} ==> YoungestLives(w, g)) && forall f :: Sane(w, f)
    requires pc.GCreate? || pc.GResize? || (pc.GDrop? && Superseded(w, g, pc.f))
    ensures var w' := GameNext(w, g, pc, a).0;
            && (FleetsOf(w', g) != {} ==> YoungestLives(w', g))
            && (YoungestLives(w, g) ==> YoungestLives(w', g))
    ensures !GameNext(w, g, pc, a).1.GDrop?
  {
    var w' := GameNext(w, g, pc, a).0;
    if w' != w {
      if pc.GCreate? {
        RolloutCreate(w, w', g, pc.o, a.name);
      } else if pc.GDrop? {
        RolloutDrop(w, w', g, pc.f);
      } else if FleetsOf(w, g) != {} {
        RolloutResize(w, w', g, pc.f, pc.o.body.spec.replicas);
      } else {
        assert FleetsOf(w', g) == {};
      }
    }
  }

  lemma RolloutStep(s: State, t: State, g: Name)
    requires Inv(s) && Step(s, t) && RolloutInv(s, g) && Rolling(s.w, g)
    requires !(t.act.GameCall? && t.act.g == g) ==> LiveFleets(t.w, g) == LiveFleets(s.w, g)
    ensures RolloutInv(t, g) && (YoungestLives(s.w, g) ==> YoungestLives(t.w, g))
  {
    InvIsOrderly(s);
    if t.act.GameCall? && t.act.g == g {
      RolloutOwn(s, t.act.a, g);
    } else {
      StepSeenByGame(s, t.act, g);
      RolloutOther(s, t, g);
    }
  }

  lemma {:induction false} RolloutHolds(run: seq<State>, i: nat, g: Name)
    requires IsRun(run) && i < |run| && RolloutRun(run, g)
    requires Inv(run[0]) && RolloutInv(run[0], g)
    ensures RolloutInv(run[i], g)
  {
    if i > 0 {
      RolloutHolds(run, i - 1, g);
      RolloutNext(run, i, g);
    }
  }

  lemma RolloutNext(run: seq<State>, i: nat, g: Name)
    requires IsRun(run) && 0 < i < |run| && RolloutRun(run, g)
    requires Inv(run[0])
    requires RolloutInv(run[i - 1], g)
    ensures RolloutInv(run[i], g) && (YoungestLives(run[i - 1].w, g) ==> YoungestLives(run[i].w, g))
  {
    InvHolds(run, i - 1);
    assert StepAt(run, i);
    assert RollingAt(run, i - 1, g) && OthersSpare(run, i, g);
    RolloutStep(run[i - 1], run[i], g);
  }

  /**
   From the first creation on, a game type that is not deleted always has a live fleet, its
   youngest, if nobody else deletes its fleets and no two of them are equally old.
   */
  lemma {:induction false} KeepsLiveFleet(run: seq<State>, i: nat, j: nat, g: Name)
    requires IsRun(run) && i <= j < |run| && RolloutRun(run, g)
    requires Inv(run[0]) && RolloutInv(run[0], g)
    requires FleetsOf(run[i].w, g) != {}
    ensures YoungestLives(run[j].w, g)
  {
    if i < j {
      KeepsLiveFleet(run, i, j - 1, g);
      KeepsLiveStep(run, j, g);
    } else {
      RolloutHolds(run, i, g);
    }
  }

  lemma KeepsLiveStep(run: seq<State>, j: nat, g: Name)
    requires IsRun(run) && 0 < j < |run| && RolloutRun(run, g)
    requires Inv(run[0]) && RolloutInv(run[0], g)
    requires YoungestLives(run[j - 1].w, g)
    ensures YoungestLives(run[j].w, g)
  {
    RolloutHolds(run, j - 1, g);
    RolloutNext(run, j, g);
  }

  // ---------------------------------------------------------------- stuck without a fleet

  /** The status of the game type names a fleet that does not exist. */
  ghost predicate NamesLostFleet(w: World, g: Name, n: Name) {
    && g in w.games && !Deleting(w.games[g])
    && w.games[g].body.fleetName == n && n != "" && n !in w.fleets
  }

  ghost predicate Stuck(s: State, g: Name, n: Name) {
    && NamesLostFleet(s.w, g, n) && FleetsOf(s.w, g) == {}
    && match GPc(s, g)
       case GIdle => true
       case GAddFinalizer(o) => true
       case GStatus(o) => o.body.fleetName == n
       case GFetch(o, t) => t.body.fleetName == n
       case _ => false
  }

  lemma StuckOwn(s: State, a: Answer, g: Name, n: Name)
    requires Stuck(s, g, n)
    ensures FleetsOf(Next(s, GameCall(g, a)).w, g) == {}
    ensures var pc := GPc(Next(s, GameCall(g, a)), g);
      || pc.GIdle? || pc.GAddFinalizer? || (pc.GStatus? && pc.o.body.fleetName == n)
      || (pc.GFetch? && pc.t.body.fleetName == n)
  {
    OnlyFleetCalls(s.w, g, GPc(s, g), a);
    assert FleetsOf(Next(s, GameCall(g, a)).w, g) == FleetsOf(s.w, g);
    if GPc(s, g).GStatus? && ListsFleets(s.w, g, a) {
      ListingSize(a.order, FleetsOf(s.w, g));
    }
  }

  /**
   A game type that has lost all its fleets while its status still names one never gets another:
   every reconcile fails at fetching the named fleet, before it looks at the list.
   */
  lemma {:induction false} StuckForever(run: seq<State>, i: nat, j: nat, g: Name, n: Name)
    requires IsRun(run) && i <= j < |run|
    requires Inv(run[0])
    requires forall m :: i <= m < |run| ==> NamesLostFleet(run[m].w, g, n)
    requires Stuck(run[i], g, n)
    ensures Stuck(run[j], g, n)
  {
    if i < j {
      StuckForever(run, i, j - 1, g, n);
      StuckNext(run, j, g, n);
    }
  }

  lemma StuckNext(run: seq<State>, j: nat, g: Name, n: Name)
    requires IsRun(run) && 0 < j < |run|
    requires Inv(run[0])
    requires Stuck(run[j - 1], g, n) && NamesLostFleet(run[j].w, g, n)
    ensures Stuck(run[j], g, n)
  {
    InvHolds(run, j - 1);
    assert StepAt(run, j);
    StuckStep(run[j - 1], run[j], g, n);
  }

  lemma StuckStep(s: State, t: State, g: Name, n: Name)
    requires Inv(s) && Step(s, t) && Stuck(s, g, n) && NamesLostFleet(t.w, g, n)
    ensures Stuck(t, g, n)
  {
    if t.act.GameCall? && t.act.g == g {
      StuckOwn(s, t.act.a, g, n);
    } else {
      StepSeenByGame(s, t.act, g);
    }
  }

  /** One undisturbed reconcile of a game type without fleets, all calls answered by `a`. */
  function ReconcileEmpty(s: State, g: Name, a: Answer): State {
    var call := GameCall(g, a);
    Next(Next(Next(Next(s, call), call), call), call)
  }

  /** Such a reconcile creates a fleet exactly when the status names none. */
  lemma EmptyRecoversIff(s: State, g: Name, a: Answer)
    requires GPc(s, g) == GIdle && Held(s.w.games, g, TYPE_FINALIZER) && !Deleting(s.w.games[g])
    requires FleetsOf(s.w, g) == {} && s.w.games[g].body.fleetName !in s.w.fleets
    requires a.ok && a.order == [] && a.name != "" && a.name !in s.w.fleets && ValidFleet(DefaultFleet(s.w.games[g].body.spec))
    ensures FleetsOf(ReconcileEmpty(s, g, a).w, g) != {} <==> s.w.games[g].body.fleetName == ""
  {
    var call := GameCall(g, a);
    var o := s.w.games[g];
    var s1 := Next(s, call);
    GameCallTurns(s, g, a);
    assert GPc(s1, g) == GStatus(o) && s1.w == s.w;
    var s2 := Next(s1, call);
    GameCallTurns(s1, g, a);
    assert s2.w == s.w && GPc(s2, g) == FetchOrList(o, o);
    var s3 := Next(s2, call);
    GameCallTurns(s2, g, a);
    var s4 := Next(s3, call);
    GameCallTurns(s3, g, a);
    if o.body.fleetName == "" {
      assert GPc(s3, g) == GCreate(o) && s3.w == s.w;
      assert s4.w == CreateFleet(s.w, g, o, a.name);
      assert a.name in FleetsOf(s4.w, g);
    } else {
      assert GPc(s3, g) == GIdle && s3.w == s.w;
      assert s4.w == s.w;
    }
  }
}
