/**
 Teardown of a game type: once it and all its fleets are marked, nothing is created for it any
 more, and drain passes and releases use everything up until the game type itself can go.
 */
module Teardown {
  import opened Api
  import opened Machine
  import opened Lifecycle
  import opened Scaling
  import opened Schedules
  import opened FleetCompletion
  import opened Draining
  import SF = ServerFate

  function ServersUnder(w: World, g: Name): set<Name> {
    set f, k | f in FleetsOf(w, g) && k in ServersOf(w, f) :: k
  }

  function UnmarkedUnder(w: World, g: Name): set<Name> {
    set k | k in ServersUnder(w, g) && !Deleting(w.servers[k])
  }

  predicate FleetDrains(pc: FleetPc) {
    pc.FIdle? || pc.FDrain? || pc.FDrainEach? || pc.FDrained? || pc.FRemoveFinalizer?
  }

  predicate GameDrains(pc: GamePc) {
    pc.GIdle? || pc.GDrain? || pc.GDrainEach? || pc.GDrained? || pc.GRemoveFinalizer?
  }

  /** The game type and all its fleets are marked, and their workers know. */
  ghost predicate Winding(s: State, g: Name) {
    && g in s.w.games && Deleting(s.w.games[g]) && GameDrains(GPc(s, g))
    && forall f :: f in FleetsOf(s.w, g) ==> Deleting(s.w.fleets[f]) && FleetDrains(FPc(s, f))
  }

  /** Servers of `f` only go or get marked. */
  ghost predicate ServersWane(w: World, w': World, f: Name) {
    forall k :: k in ServersOf(w', f) ==>
      k in ServersOf(w, f) && (Deleting(w.servers[k]) ==> Deleting(w'.servers[k]))
  }

  ghost predicate FleetsWane(w: World, w': World, g: Name) {
    forall f :: f in FleetsOf(w', g) ==>
      f in FleetsOf(w, g) && (Deleting(w.fleets[f]) ==> Deleting(w'.fleets[f]))
  }

  // ---------------------------------------------------------------- nothing is created

  lemma FleetDrainOwn(w: World, f: Name, pc: FleetPc, a: Answer)
    requires FleetDrains(pc) && (f in w.fleets ==> Deleting(w.fleets[f]))
    ensures ServersWane(w, FleetNext(w, f, pc, a).0, f)
    ensures FleetDrains(FleetNext(w, f, pc, a).1)
  {
    if pc.FDrainEach? && FleetNext(w, f, pc, a).0 != w {
      DeleteServerUnnoticed(w, pc.todo[0]);
    }
  }

  lemma GameDrainOwn(w: World, g: Name, pc: GamePc, a: Answer)
    requires GameDrains(pc) && g in w.games && Deleting(w.games[g])
    ensures var (w', pc') := GameNext(w, g, pc, a);
      && FleetsWane(w, w', g) && w'.servers == w.servers
      && GameDrains(pc') && (g in w'.games ==> Deleting(w'.games[g]))
  {
    if pc.GDrainEach? && GameNext(w, g, pc, a).0 != w {
      DeleteFleetUnnoticed(w, pc.todo[0]);
    }
  }

  lemma StepWanes(s: State, a: Act, g: Name, f: Name)
    requires Inv(s) && Winding(s, g) && f in FleetsOf(s.w, g)
    ensures ServersWane(s.w, Next(s, a).w, f)
    ensures FleetDrains(FPc(Next(s, a), f))
  {
    if a.FleetCall? && a.f == f {
      FleetDrainOwn(s.w, f, FPc(s, f), a.a);
    } else {
      StepSeenByFleet(s, a, f);
    }
  }

  lemma StepFleetsWane(s: State, a: Act, g: Name)
    requires Inv(s) && Winding(s, g)
    ensures FleetsWane(s.w, Next(s, a).w, g)
    ensures GameDrains(GPc(Next(s, a), g))
    ensures g in Next(s, a).w.games ==> Deleting(Next(s, a).w.games[g])
  {
    if a.GameCall? && a.g == g {
      GameDrainOwn(s.w, g, GPc(s, g), a.a);
    } else {
      StepSeenByGame(s, a, g);
    }
  }

  /** No step creates anything for a game type that is winding down, or unmarks anything. */
  lemma WindingStep(s: State, a: Act, g: Name)
    requires Inv(s) && Winding(s, g)
    ensures var t := Next(s, a);
      && FleetsOf(t.w, g) <= FleetsOf(s.w, g)
      && ServersUnder(t.w, g) <= ServersUnder(s.w, g)
      && UnmarkedUnder(t.w, g) <= UnmarkedUnder(s.w, g)
      && (g in t.w.games ==> Winding(t, g))
  {
    var t := Next(s, a);
    StepFleetsWane(s, a, g);
    forall f | f in FleetsOf(t.w, g) ensures ServersWane(s.w, t.w, f) && FleetDrains(FPc(t, f)) {
      StepWanes(s, a, g, f);
    }
    forall k | k in ServersUnder(t.w, g)
      ensures k in ServersUnder(s.w, g) && (k in UnmarkedUnder(t.w, g) ==> k in UnmarkedUnder(s.w, g))
    {
      var f :| f in FleetsOf(t.w, g) && k in ServersOf(t.w, f);
      assert ServersWane(s.w, t.w, f);
    }
  }

  /** So from then on, for as long as the game type is there, nothing is created for it. */
  lemma {:induction false} WindsDown(run: seq<State>, i: nat, j: nat, g: Name)
    requires IsRun(run) && i <= j < |run|
    requires Inv(run[0])
    requires Winding(run[i], g)
    requires forall m :: i <= m <= j ==> g in run[m].w.games
    ensures Winding(run[j], g)
    ensures FleetsOf(run[j].w, g) <= FleetsOf(run[i].w, g)
    ensures ServersUnder(run[j].w, g) <= ServersUnder(run[i].w, g)
    ensures UnmarkedUnder(run[j].w, g) <= UnmarkedUnder(run[i].w, g)
  {
    if i < j {
      WindsDown(run, i, j - 1, g);
      WindingNext(run, j, g);
    }
  }

  lemma WindingNext(run: seq<State>, j: nat, g: Name)
    requires IsRun(run) && 0 < j < |run|
    requires Inv(run[0])
    requires Winding(run[j - 1], g)
    ensures FleetsOf(run[j].w, g) <= FleetsOf(run[j - 1].w, g)
    ensures ServersUnder(run[j].w, g) <= ServersUnder(run[j - 1].w, g)
    ensures UnmarkedUnder(run[j].w, g) <= UnmarkedUnder(run[j - 1].w, g)
    ensures g in run[j].w.games ==> Winding(run[j], g)
  {
    InvHolds(run, j - 1);
    assert StepAt(run, j);
    WindingStep(run[j - 1], run[j].act, g);
  }

  // ---------------------------------------------------------------- the measure

  /** What is left to do: servers to release, servers to mark, fleets to drain. */
  function Size(w: World, g: Name): nat {
    |ServersUnder(w, g)| + |UnmarkedUnder(w, g)| + |FleetsOf(w, g)|
  }

  ghost predicate Stutters(w: World, w': World, g: Name) {
    && ServersUnder(w', g) == ServersUnder(w, g)
    && UnmarkedUnder(w', g) == UnmarkedUnder(w, g)
    && FleetsOf(w', g) == FleetsOf(w, g)
  }

  lemma Shrinks(w: World, w': World, g: Name)
    requires ServersUnder(w', g) <= ServersUnder(w, g)
    requires UnmarkedUnder(w', g) <= UnmarkedUnder(w, g)
    requires FleetsOf(w', g) <= FleetsOf(w, g)
    ensures Stutters(w, w', g) || Size(w', g) < Size(w, g)
    ensures Size(w', g) <= Size(w, g)
  {
    Smaller(FleetsOf(w', g), FleetsOf(w, g));
    Smaller(ServersUnder(w', g), ServersUnder(w, g));
    Smaller(UnmarkedUnder(w', g), UnmarkedUnder(w, g));
  }

  lemma Smaller<T>(a: set<T>, b: set<T>)
    requires a <= b
    ensures |a| <= |b|
    ensures a != b ==> |a| < |b|
  {
    SubsetSize(a, b);
    if a != b {
      var x :| x in b && x !in a;
      SubsetSize(a, b - {x});
    }
  }

  /** How many of the steps from `i` to `j` changed anything about the teardown. */
  ghost function Changes(run: seq<State>, i: nat, j: nat, g: Name): nat
    requires i <= j < |run|
  {
    if i == j then 0
    else Changes(run, i, j - 1, g) + if Stutters(run[j - 1].w, run[j].w, g) then 0 else 1
  }

  /**
   Teardown is finite: in every run, from the point on where the game type and its fleets are
   marked, at most as many steps change anything as there was to do, whatever is interleaved.
   */
  lemma {:induction false} TeardownIsFinite(run: seq<State>, i: nat, j: nat, g: Name)
    requires IsRun(run) && i <= j < |run|
    requires Inv(run[0])
    requires Winding(run[i], g)
    requires forall m :: i <= m <= j ==> g in run[m].w.games
    ensures Changes(run, i, j, g) + Size(run[j].w, g) <= Size(run[i].w, g)
  {
    if i < j {
      TeardownIsFinite(run, i, j - 1, g);
      LastShrinks(run, i, j, g);
    }
  }

  lemma LastShrinks(run: seq<State>, i: nat, j: nat, g: Name)
    requires IsRun(run) && i < j < |run|
    requires Inv(run[0])
    requires Winding(run[i], g)
    requires forall m :: i <= m <= j ==> g in run[m].w.games
    ensures Size(run[j].w, g) + (if Stutters(run[j - 1].w, run[j].w, g) then 0 else 1) <= Size(run[j - 1].w, g)
  {
    WindsDown(run, i, j - 1, g);
    WindingNext(run, j, g);
    Shrinks(run[j - 1].w, run[j].w, g);
  }

  // ---------------------------------------------------------------- passes of the game type

  /** A completed, undisturbed reconcile of a deleting game type that still has its finalizer. */
  ghost predicate GameDrainPass(w: World, w': World, g: Name)
    requires g in w.games
  {
    && w'.fleets == DeleteAll(w.fleets, FleetsOf(w, g), w.clock)
    && w'.games == (if FleetsOf(w', g) == {} then Put(w.games, g, WithoutFinalizer(w.games[g], TYPE_FINALIZER))
                    else w.games)
    && w'.servers == w.servers
  }

  lemma DropNext(w: World, g: Name, o: Game, todo: seq<Name>)
    requires todo != [] && todo[0] in w.fleets
    ensures GameNext(w, g, GDrainEach(o, todo), Heard([])) ==
            (w.(fleets := Api.Delete(w.fleets, todo[0], w.clock)), GDrainEach(o, todo[1..]))
  {}

  lemma {:induction false} DropsEach(w: World, g: Name, o: Game, todo: seq<Name>, n: nat)
    returns (answers: seq<Answer>)
    requires n <= |todo| && (forall f :: f in todo ==> f in w.fleets)
    requires forall i, j :: 0 <= i < j < |todo| ==> todo[i] != todo[j]
    ensures GameTurns(w, g, GDrainEach(o, todo), answers) ==
            (w.(fleets := DeleteAll(w.fleets, Names(todo[..n]), w.clock)), GDrainEach(o, todo[n..]))
  {
    answers := [];
    if n == 0 {
      NoneDeleted(w.fleets, todo, w.clock);
    } else {
      var xs := DropsEach(w, g, o, todo, n - 1);
      DropsOneMore(w, g, o, todo, n, xs);
      answers := xs + [Heard([])];
    }
  }

  lemma DropsOneMore(w: World, g: Name, o: Game, todo: seq<Name>, n: nat, xs: seq<Answer>)
    requires 0 < n <= |todo| && (forall f :: f in todo ==> f in w.fleets)
    requires forall i, j :: 0 <= i < j < |todo| ==> todo[i] != todo[j]
    requires GameTurns(w, g, GDrainEach(o, todo), xs) ==
             (w.(fleets := DeleteAll(w.fleets, Names(todo[..n - 1]), w.clock)), GDrainEach(o, todo[n - 1..]))
    ensures GameTurns(w, g, GDrainEach(o, todo), xs + [Heard([])]) ==
            (w.(fleets := DeleteAll(w.fleets, Names(todo[..n]), w.clock)), GDrainEach(o, todo[n..]))
  {
    var left := todo[n - 1..];
    assert left[0] == todo[n - 1] && left[1..] == todo[n..];
    DeleteNext(w.fleets, todo, n - 1, w.clock);
    DropNext(w.(fleets := DeleteAll(w.fleets, Names(todo[..n - 1]), w.clock)), g, o, left);
    GameTurnThen(w, g, GDrainEach(o, todo), xs, Heard([]));
  }

  lemma DropsAll(w: World, g: Name, order: seq<Name>) returns (answers: seq<Answer>)
    requires Held(w.games, g, TYPE_FINALIZER) && Deleting(w.games[g]) && IsListing(order, FleetsOf(w, g))
    ensures GameTurns(w, g, GIdle, answers) ==
            (w.(fleets := DeleteAll(w.fleets, FleetsOf(w, g), w.clock)), GDrained(w.games[g]))
  {
    var o, a := w.games[g], Heard(order);
    GameFindsFleets(w, g, order);
    var xs := DropsEach(w, g, o, order, |order|);
    assert order[..|order|] == order && order[|order|..] == [];
    assert Names(order) == FleetsOf(w, g);
    GameTurnThen(w, g, GDrainEach(o, order), xs, a);
    GameTurnsConcat(w, g, GIdle, [a, a], xs + [a]);
    answers := [a, a] + (xs + [a]);
  }

  lemma GameFindsFleets(w: World, g: Name, order: seq<Name>)
    requires Held(w.games, g, TYPE_FINALIZER) && Deleting(w.games[g]) && IsListing(order, FleetsOf(w, g))
    ensures GameTurns(w, g, GIdle, [Heard(order), Heard(order)]) == (w, GDrainEach(w.games[g], order))
  {
    var o, a := w.games[g], Heard(order);
    GameTurnThen(w, g, GIdle, [], a);
    assert [] + [a] == [a] && [a] + [a] == [a, a];
    assert GameTurns(w, g, GIdle, [a]) == (w, GDrain(o));
    GameTurnThen(w, g, GIdle, [a], a);
  }

  lemma GameLetsGo(w: World, g: Name, o: Game) returns (answers: seq<Answer>)
    requires g in w.games && w.games[g] == o
    ensures GameTurns(w, g, GDrained(o), answers) ==
      (if FleetsOf(w, g) == {} then w.(games := Put(w.games, g, WithoutFinalizer(o, TYPE_FINALIZER))) else w, GIdle)
  {
    var order := SomeListing(FleetsOf(w, g));
    ListingSize(order, FleetsOf(w, g));
    var a := Heard(order);
    GameTurnThen(w, g, GDrained(o), [], a);
    answers := [] + [a];
    if FleetsOf(w, g) == {} {
      GameTurnThen(w, g, GDrained(o), answers, a);
      answers := answers + [a];
    }
  }

  /** A whole reconcile of a deleting game type. */
  lemma GamePass(s: State, g: Name) returns (acts: seq<Act>)
    requires Rest(s) && Held(s.w.games, g, TYPE_FINALIZER) && Deleting(s.w.games[g])
    ensures Schedule(s, acts) && Rest(Play(s, acts))
    ensures GameDrainPass(s.w, Play(s, acts).w, g) && Play(s, acts).w.pods == s.w.pods
  {
    var w, o := s.w, s.w.games[g];
    var order := SomeListing(FleetsOf(w, g));
    var head := DropsAll(w, g, order);
    var w1 := w.(fleets := DeleteAll(w.fleets, FleetsOf(w, g), w.clock));
    var tail := GameLetsGo(w1, g, o);
    GameTurnsConcat(w, g, GIdle, head, tail);
    acts := GameReconciles(s, g, head + tail);
    assert FleetsOf(Play(s, acts).w, g) == FleetsOf(w1, g);
  }

  // ---------------------------------------------------------------- completing a teardown

  /** Only the operator's own finalizers hold the game type, its fleets and their servers. */
  ghost predicate OnlyOurFinalizers(w: World, g: Name) {
    && g in w.games && w.games[g].meta.finalizers == {TYPE_FINALIZER} && Deleting(w.games[g])
    && forall f :: f in FleetsOf(w, g) ==> FleetIsOurs(w, f)
  }

  /** Nothing under the game type is being deleted without its pod. */
  ghost predicate NoneWedged(w: World, g: Name) {
    forall f :: f in FleetsOf(w, g) ==> Unwedged(w, f)
  }

  /** Marked fleets whose servers can all be released. */
  ghost predicate AllDrainable(w: World, g: Name) {
    forall f :: f in FleetsOf(w, g) ==>
      && Deleting(w.fleets[f]) && w.fleets[f].meta.finalizers == {FLEET_FINALIZER} && Drainable(w, f)
  }

  lemma OtherFleetsDrainable(w: World, w': World, g: Name, f: Name)
    requires AllDrainable(w, g) && f in FleetsOf(w, g) && OthersKept(w, w', f) && f !in w'.fleets
    ensures AllDrainable(w', g) && FleetsOf(w', g) == FleetsOf(w, g) - {f}
  {
    forall h ensures h in FleetsOf(w', g) <==> h in FleetsOf(w, g) - {f} {
      assert h in w.fleets - {f} <==> h in w'.fleets - {f};
    }
    forall h | h in FleetsOf(w', g)
      ensures Deleting(w'.fleets[h]) && w'.fleets[h].meta.finalizers == {FLEET_FINALIZER} && Drainable(w', h)
    {
      assert (w'.fleets - {f})[h] == (w.fleets - {f})[h];
      OtherDrainable(w, w', f, h);
    }
  }

  /** Draining one fleet after the other, and then letting the game type go. */
  lemma {:induction false} DrainsAll(s: State, g: Name) returns (acts: seq<Act>)
    requires Rest(s) && AllDrainable(s.w, g)
    requires g in s.w.games && s.w.games[g].meta.finalizers == {TYPE_FINALIZER} && Deleting(s.w.games[g])
    ensures Schedule(s, acts) && Rest(Play(s, acts)) && g !in Play(s, acts).w.games
    decreases |FleetsOf(s.w, g)|
  {
    if FleetsOf(s.w, g) == {} {
      acts := GamePass(s, g);
      EmptyGameGoes(s.w, Play(s, acts).w, g);
    } else {
      var f :| f in FleetsOf(s.w, g);
      var first := DrainCompletes(s, f);
      OtherFleetsDrainable(s.w, Play(s, first).w, g, f);
      var rest := DrainsAll(Play(s, first), g);
      Then(s, first, rest);
      acts := first + rest;
    }
  }

  lemma EmptyGameGoes(w: World, w': World, g: Name)
    requires g in w.games && w.games[g].meta.finalizers == {TYPE_FINALIZER} && Deleting(w.games[g])
    requires FleetsOf(w, g) == {} && GameDrainPass(w, w', g)
    ensures g !in w'.games
  {
    assert FleetsOf(w', g) == {};
    assert WithoutFinalizer(w.games[g], TYPE_FINALIZER).meta.finalizers == {};
  }

  lemma MarkedDrainable(w: World, w': World, g: Name)
    requires g in w.games && GameDrainPass(w, w', g) && w'.pods == w.pods
    requires forall f :: f in FleetsOf(w, g) ==> FleetIsOurs(w, f) && Drainable(w, f)
    ensures AllDrainable(w', g)
  {
    forall f | f in FleetsOf(w', g)
      ensures Deleting(w'.fleets[f]) && w'.fleets[f].meta.finalizers == {FLEET_FINALIZER} && Drainable(w', f)
    {
      assert f in FleetsOf(w, g);
      assert ServersOf(w', f) == ServersOf(w, f);
    }
  }

  lemma PreparedDrainable(w: World, w': World, g: Name)
    requires OnlyOurFinalizers(w, g) && NoneWedged(w, g) && SF.Prepared(w, w', UnmarkedUnder(w, g))
    ensures FleetsOf(w', g) == FleetsOf(w, g)
    ensures forall f :: f in FleetsOf(w', g) ==> FleetIsOurs(w', f) && Drainable(w', f)
  {
    forall f | f in FleetsOf(w, g) ensures FleetIsOurs(w', f) && Drainable(w', f) {
      forall k ensures k in ServersOf(w', f) <==> k in ServersOf(w, f) {
        if k in w.servers {
          assert w'.servers[k].labels == w.servers[k].labels;
        }
      }
      forall k | k in ServersOf(w', f)
        ensures w'.servers[k].meta.finalizers == {SERVER_FINALIZER} && k in w'.pods
      {
        if Deleting(w.servers[k]) {
          assert k in Terminating(w, f);
        } else {
          assert k in UnmarkedUnder(w, g);
        }
      }
    }
  }

  lemma CompletesFromRest(s: State, g: Name) returns (acts: seq<Act>)
    requires Rest(s) && OnlyOurFinalizers(s.w, g) && NoneWedged(s.w, g)
    ensures Schedule(s, acts) && g !in Play(s, acts).w.games
  {
    var first := SF.SetUpServers(s, UnmarkedUnder(s.w, g));
    var t := Play(s, first);
    PreparedDrainable(s.w, t.w, g);
    var second := GamePass(t, g);
    var u := Play(t, second);
    Then(s, first, second);
    acts := first + second;
    if g in u.w.games {
      MarkedDrainable(t.w, u.w, g);
      GameStays(t.w, u.w, g);
      var third := DrainsAll(u, g);
      Then(s, acts, third);
      acts := acts + third;
    }
  }

  /** The operator's own calls and time remove a marked game type under which nothing is wedged. */
  lemma TeardownCompletes(s: State, g: Name) returns (acts: seq<Act>)
    requires Inv(s) && OnlyOurFinalizers(s.w, g) && NoneWedged(s.w, g)
    ensures Schedule(s, acts) && g !in Play(s, acts).w.games
  {
    var first := ToRest(s);
    var rest := CompletesFromRest(Play(s, first), g);
    Then(s, first, rest);
    acts := first + rest;
  }

  lemma GameStays(w: World, w': World, g: Name)
    requires g in w.games && w.games[g].meta.finalizers == {TYPE_FINALIZER} && Deleting(w.games[g])
    requires GameDrainPass(w, w', g) && g in w'.games
    ensures w'.games == w.games
  {
    assert WithoutFinalizer(w.games[g], TYPE_FINALIZER).meta.finalizers == {};
  }

  // ---------------------------------------------------------------- held up for good

  /** The server `k` of a fleet `f` of the game type `g` is wedged. */
  ghost predicate HeldUp(s: State, k: Name, f: Name, g: Name) {
    SF.Wedged(s, k) && k in ServersOf(s.w, f) && f in FleetsOf(s.w, g)
  }

  lemma OwnFleetKeepsLabels(w: World, f: Name, pc: FleetPc, a: Answer)
    ensures var w' := FleetNext(w, f, pc, a).0;
            f in w.fleets && f in w'.fleets ==> w'.fleets[f].labels == w.fleets[f].labels
  {}

  lemma HeldUpStep(s: State, a: Act, k: Name, f: Name, g: Name)
    requires Inv(s) && HeldUp(s, k, f, g)
    ensures HeldUp(Next(s, a), k, f, g)
  {
    var t := Next(s, a);
    assert t.act == a;
    SF.WedgedStep(s, t, k);
    NextKeepsInv(s, a);
    InvHoldsFleets(s);
    InvHoldsFleets(t);
    assert k in ServersOf(t.w, f);
    if a.FleetCall? && a.f == f {
      OwnFleetKeepsLabels(s.w, f, FPc(s, f), a.a);
    } else {
      StepSeenByFleet(s, a, f);
    }
  }

  /** A wedged server keeps its game type for ever, whatever anybody does. */
  lemma {:induction false} WedgedKeepsGame(s: State, acts: seq<Act>, k: Name, f: Name, g: Name)
    requires Inv(s) && HeldUp(s, k, f, g)
    ensures HeldUp(Play(s, acts), k, f, g) && g in Play(s, acts).w.games
    decreases |acts|
  {
    if acts == [] {
      assert GameInv(s.w, g, GPc(s, g));
    } else {
      HeldUpStep(s, acts[0], k, f, g);
      NextKeepsInv(s, acts[0]);
      WedgedKeepsGame(Next(s, acts[0]), acts[1..], k, f, g);
    }
  }

  ghost predicate LeadsToEnd(s: State, acts: seq<Act>, g: Name) {
    Schedule(s, acts) && g !in Play(s, acts).w.games
  }

  /**
   A marked game type can still be torn down if and only if none of the servers under it is being
   deleted without its pod.
   */
  lemma TeardownCompletesIff(s: State, g: Name)
    requires Rest(s) && OnlyOurFinalizers(s.w, g)
    ensures (exists acts :: LeadsToEnd(s, acts, g)) <==> NoneWedged(s.w, g)
  {
    StartInv(s);
    if NoneWedged(s.w, g) {
      var acts := TeardownCompletes(s, g);
      assert LeadsToEnd(s, acts, g);
    } else {
      var f :| f in FleetsOf(s.w, g) && !Unwedged(s.w, f);
      var k :| k in Terminating(s.w, f) && k !in s.w.pods;
      assert SPc(s, k) == SIdle;
      assert HeldUp(s, k, f, g);
      forall acts ensures !LeadsToEnd(s, acts, g) {
        WedgedKeepsGame(s, acts, k, f, g);
      }
    }
  }

  // ---------------------------------------------------------------- whether it can be lost

  /** Every server under the game type has its pod. */
  ghost predicate AllPodded(w: World, g: Name) {
    forall k :: k in ServersUnder(w, g) ==> k in w.pods
  }

  /** The operator takes no pod away: only the kubelet does. */
  lemma OwnKeepsPods(s: State, a: Act)
    requires Own(a)
    ensures forall k :: k in s.w.pods ==> k in Next(s, a).w.pods
  {
    if a.ServerCall? {
      ServerKeepsPods(s.w, a.k, SPc(s, a.k), a.ok);
    } else if a.FleetCall? {
      FleetCallKeepsGames(s.w, a.f, FPc(s, a.f), a.a);
    } else if a.GameCall? {
      GameCallKeepsServers(s.w, a.g, GPc(s, a.g), a.a);
    }
  }

  lemma ServerKeepsPods(w: World, k: Name, pc: ServerPc, ok: bool)
    ensures forall j :: j in w.pods ==> j in ServerNext(w, k, pc, ok).0.pods
  {}

  /** Only the operator's finalizers are on the object, and on a marked one they are. */
  ghost predicate Ours<B>(m: map<Name, Obj<B>>, k: Name, fin: string) {
    k in m ==> m[k].meta.finalizers <= {fin} && (Deleting(m[k]) ==> m[k].meta.finalizers == {fin})
  }

  lemma DeleteKeepsOurs<B>(m: map<Name, Obj<B>>, v: Name, now: int, k: Name, fin: string)
    requires Ours(m, k, fin) && v in m
    ensures Ours(Api.Delete(m, v, now), k, fin)
  {}

  lemma ServerStaysOurs(s: State, a: Act, k: Name)
    requires Inv(s) && Own(a) && Ours(s.w.servers, k, SERVER_FINALIZER)
    ensures Ours(Next(s, a).w.servers, k, SERVER_FINALIZER)
  {
    if a.ServerCall? {
      assert ServerInv(s.w, a.k, SPc(s, a.k));
      ServerCallKeepsOurs(s.w, a.k, SPc(s, a.k), a.ok, k);
    } else if a.FleetCall? {
      FleetCallKeepsOurs(s.w, a.f, FPc(s, a.f), a.a, k);
    } else if a.GameCall? {
      GameCallKeepsServers(s.w, a.g, GPc(s, a.g), a.a);
    }
  }

  lemma ServerCallKeepsOurs(w: World, j: Name, pc: ServerPc, ok: bool, k: Name)
    requires ServerInv(w, j, pc) && Ours(w.servers, k, SERVER_FINALIZER)
    ensures Ours(ServerNext(w, j, pc, ok).0.servers, k, SERVER_FINALIZER)
  {}

  lemma FleetCallKeepsOurs(w: World, f: Name, pc: FleetPc, a: Answer, k: Name)
    requires Ours(w.servers, k, SERVER_FINALIZER)
    ensures Ours(FleetNext(w, f, pc, a).0.servers, k, SERVER_FINALIZER)
  {
    if FleetNext(w, f, pc, a).0.servers != w.servers {
      if pc.FDelete? {
        DeleteKeepsOurs(w.servers, pc.victim, w.clock, k, SERVER_FINALIZER);
      } else if pc.FDrainEach? {
        DeleteKeepsOurs(w.servers, pc.todo[0], w.clock, k, SERVER_FINALIZER);
      }
    }
  }

  lemma GameCallKeepsServers(w: World, g: Name, pc: GamePc, a: Answer)
    ensures GameNext(w, g, pc, a).0.servers == w.servers && GameNext(w, g, pc, a).0.pods == w.pods
  {}

  lemma FleetStaysOurs(s: State, a: Act, f: Name)
    requires Inv(s) && Own(a) && Ours(s.w.fleets, f, FLEET_FINALIZER)
    ensures Ours(Next(s, a).w.fleets, f, FLEET_FINALIZER)
  {
    if a.FleetCall? {
      assert FleetInv(s.w, a.f, FPc(s, a.f));
      FleetCallKeepsFleets(s.w, a.f, FPc(s, a.f), a.a, f);
    } else if a.GameCall? {
      GameCallKeepsOurs(s.w, a.g, GPc(s, a.g), a.a, f);
    } else if a.ServerCall? {
      SF.StepIsLocal(s.w, a.k, SPc(s, a.k), a.ok);
    }
  }

  lemma FleetCallKeepsFleets(w: World, h: Name, pc: FleetPc, a: Answer, f: Name)
    requires FleetInv(w, h, pc) && Ours(w.fleets, f, FLEET_FINALIZER)
    ensures Ours(FleetNext(w, h, pc, a).0.fleets, f, FLEET_FINALIZER)
  {}

  lemma GameCallKeepsOurs(w: World, g: Name, pc: GamePc, a: Answer, f: Name)
    requires Ours(w.fleets, f, FLEET_FINALIZER)
    ensures Ours(GameNext(w, g, pc, a).0.fleets, f, FLEET_FINALIZER)
  {
    if GameNext(w, g, pc, a).0.fleets != w.fleets {
      if pc.GDrop? {
        DeleteKeepsOurs(w.fleets, pc.f, w.clock, f, FLEET_FINALIZER);
      } else if pc.GDrainEach? {
        DeleteKeepsOurs(w.fleets, pc.todo[0], w.clock, f, FLEET_FINALIZER);
      }
    }
  }

  /** The marked game type either goes or keeps just our finalizer. */
  lemma GameStaysOurs(s: State, a: Act, g: Name)
    requires Inv(s) && Own(a) && g in s.w.games && Deleting(s.w.games[g])
    requires s.w.games[g].meta.finalizers == {TYPE_FINALIZER}
    ensures g in Next(s, a).w.games ==>
      Deleting(Next(s, a).w.games[g]) && Next(s, a).w.games[g].meta.finalizers == {TYPE_FINALIZER}
  {
    if a.GameCall? {
      assert GameInv(s.w, a.g, GPc(s, a.g));
      GameCallKeepsGames(s.w, a.g, GPc(s, a.g), a.a, g);
    } else if a.ServerCall? {
      SF.StepIsLocal(s.w, a.k, SPc(s, a.k), a.ok);
    } else if a.FleetCall? {
      FleetCallKeepsGames(s.w, a.f, FPc(s, a.f), a.a);
    }
  }

  lemma FleetCallKeepsGames(w: World, f: Name, pc: FleetPc, a: Answer)
    ensures FleetNext(w, f, pc, a).0.games == w.games && FleetNext(w, f, pc, a).0.pods == w.pods
  {}

  lemma GameCallKeepsGames(w: World, h: Name, pc: GamePc, a: Answer, g: Name)
    requires GameInv(w, h, pc) && g in w.games && Deleting(w.games[g])
    requires w.games[g].meta.finalizers == {TYPE_FINALIZER}
    ensures var w' := GameNext(w, h, pc, a).0;
      g in w'.games ==> Deleting(w'.games[g]) && w'.games[g].meta.finalizers == {TYPE_FINALIZER}
  {}

  /** The operator creates no game type. */
  lemma OwnCreatesNoGame(s: State, a: Act, g: Name)
    requires Own(a) && g !in s.w.games
    ensures g !in Next(s, a).w.games
  {
    if a.ServerCall? {
      SF.StepIsLocal(s.w, a.k, SPc(s, a.k), a.ok);
    } else if a.FleetCall? {
      FleetCallKeepsGames(s.w, a.f, FPc(s, a.f), a.a);
    } else if a.GameCall? {
      NoGameMade(s.w, a.g, GPc(s, a.g), a.a, g);
    }
  }

  lemma NoGameMade(w: World, h: Name, pc: GamePc, a: Answer, g: Name)
    requires g !in w.games
    ensures g !in GameNext(w, h, pc, a).0.games
  {}

  /** Winding down with nobody else's finalizers and every pod in place. */
  ghost predicate Assured(s: State, g: Name) {
    Inv(s) && Winding(s, g) && OnlyOurFinalizers(s.w, g) && AllPodded(s.w, g)
  }

  lemma AssuredStep(s: State, a: Act, g: Name)
    requires Assured(s, g) && Own(a) && g in Next(s, a).w.games
    ensures Assured(Next(s, a), g)
  {
    var t := Next(s, a);
    NextKeepsInv(s, a);
    WindingStep(s, a, g);
    OwnKeepsPods(s, a);
    GameStaysOurs(s, a, g);
    forall f | f in FleetsOf(t.w, g) ensures FleetIsOurs(t.w, f) {
      assert f in FleetsOf(s.w, g) && FleetIsOurs(s.w, f);
      FleetStaysOurs(s, a, f);
      ServersStayOurs(s, a, g, f);
    }
  }

  lemma ServersStayOurs(s: State, a: Act, g: Name, f: Name)
    requires Inv(s) && Winding(s, g) && Own(a) && f in FleetsOf(s.w, g) && OnlyOurs(s.w, f)
    ensures OnlyOurs(Next(s, a).w, f)
  {
    StepWanes(s, a, g, f);
    forall k | k in ServersOf(Next(s, a).w, f)
      ensures Ours(Next(s, a).w.servers, k, SERVER_FINALIZER)
    {
      assert k in ServersOf(s.w, f);
      ServerStaysOurs(s, a, k);
    }
  }

  lemma {:induction false} AssuredStays(s: State, acts: seq<Act>, g: Name)
    requires Schedule(s, acts) && (g !in s.w.games || Assured(s, g))
    ensures g !in Play(s, acts).w.games || Assured(Play(s, acts), g)
    decreases |acts|
  {
    if acts != [] {
      if g !in s.w.games {
        OwnCreatesNoGame(s, acts[0], g);
      } else if g in Next(s, acts[0]).w.games {
        AssuredStep(s, acts[0], g);
      }
      AssuredStays(Next(s, acts[0]), acts[1..], g);
    }
  }

  ghost predicate CanEnd(s: State, g: Name) {
    exists acts :: LeadsToEnd(s, acts, g)
  }

  lemma AssuredCanEnd(s: State, g: Name)
    requires g !in s.w.games || Assured(s, g)
    ensures CanEnd(s, g)
  {
    if g !in s.w.games {
      assert LeadsToEnd(s, [], g);
    } else {
      forall f | f in FleetsOf(s.w, g) ensures Unwedged(s.w, f) {
        forall k | k in Terminating(s.w, f) ensures k in s.w.pods {
          assert k in ServersUnder(s.w, g);
        }
      }
      var acts := TeardownCompletes(s, g);
      assert LeadsToEnd(s, acts, g);
    }
  }

  /** A state of rest with a wedged server cannot end. */
  lemma HeldUpCannotEnd(s: State, k: Name, f: Name, g: Name)
    requires Inv(s) && HeldUp(s, k, f, g)
    ensures !CanEnd(s, g)
  {
    forall acts ensures !LeadsToEnd(s, acts, g) {
      WedgedKeepsGame(s, acts, k, f, g);
    }
  }

  /**
   How the operator wedges a teardown by itself: an ordinary drain pass marks a server that has
   no pod yet. (Where it does not have its finalizer yet either, its own reconcile adds that first.)
   */
  lemma DrainPassWedges(s: State, g: Name, f: Name, k: Name) returns (acts: seq<Act>)
    requires Rest(s) && f in FleetsOf(s.w, g) && Deleting(s.w.fleets[f])
    requires k in ServersOf(s.w, f) && !Deleting(s.w.servers[k]) && k !in s.w.pods
    ensures Schedule(s, acts) && Rest(Play(s, acts)) && HeldUp(Play(s, acts), k, f, g)
  {
    var first := SF.ProtectOne(s, k);
    var t := Play(s, first);
    assert k in ServersOf(t.w, f);
    var second := DrainPass(t, f);
    Then(s, first, second);
    acts := first + second;
    var u := Play(s, acts);
    MarkedByPass(t.w, u.w, f, k);
    assert SPc(u, k) == SIdle;
    assert f in FleetsOf(u.w, g);
  }

  lemma MarkedByPass(w: World, w': World, f: Name, k: Name)
    requires f in w.fleets && FleetDrainPass(w, w', f) && k in ServersOf(w, f)
    requires SERVER_FINALIZER in w.servers[k].meta.finalizers
    ensures k in ServersOf(w', f) && Deleting(w'.servers[k]) && SERVER_FINALIZER in w'.servers[k].meta.finalizers
    ensures w'.fleets == w.fleets
  {}

  /**
   So that teardown can be completed is not enough for it to be: with every fleet marked, it stays
   completable whatever the operator does if and only if every server still has its pod.
   */
  lemma TeardownIsAssuredIff(s: State, g: Name)
    requires Inv(s) && Winding(s, g) && OnlyOurFinalizers(s.w, g)
    ensures (forall acts :: Schedule(s, acts) ==> CanEnd(Play(s, acts), g)) <==> AllPodded(s.w, g)
  {
    if AllPodded(s.w, g) {
      forall acts | Schedule(s, acts) ensures CanEnd(Play(s, acts), g) {
        AssuredStays(s, acts, g);
        AssuredCanEnd(Play(s, acts), g);
      }
    } else {
      var k :| k in ServersUnder(s.w, g) && k !in s.w.pods;
      var f :| f in FleetsOf(s.w, g) && k in ServersOf(s.w, f);
      var acts := LosesIt(s, g, f, k);
      assert Schedule(s, acts) && !CanEnd(Play(s, acts), g);
    }
  }

  lemma LosesIt(s: State, g: Name, f: Name, k: Name) returns (acts: seq<Act>)
    requires Inv(s) && Winding(s, g) && OnlyOurFinalizers(s.w, g)
    requires f in FleetsOf(s.w, g) && k in ServersOf(s.w, f) && k !in s.w.pods
    ensures Schedule(s, acts) && !CanEnd(Play(s, acts), g)
  {
    acts := ToRest(s);
    var t := Play(s, acts);
    if !Deleting(s.w.servers[k]) {
      var rest := DrainPassWedges(t, g, f, k);
      Then(s, acts, rest);
      acts := acts + rest;
    } else {
      assert FleetIsOurs(s.w, f);
      assert SPc(t, k) == SIdle;
    }
    var u := Play(s, acts);
    StartInv(u);
    HeldUpCannotEnd(u, k, f, g);
  }
}
