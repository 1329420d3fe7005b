/**
 How a game type gets stuck without a fleet: by a user who deletes its only fleet, or by the
 operator itself when two of its fleets are equally old.
 */
module Stranded {
  import opened Api
  import opened Machine
  import opened Lifecycle
  import opened Schedules
  import opened Draining
  import opened Rollout
  import opened RolloutCompletion
  import opened FleetCompletion
  import opened Admission
  import RC = RolloutConvergence

  /** The last fleet of the game type, which its status names, is gone. */
  lemma LastFleetGone(s: State, g: Name, f: Name)
    requires Rest(s) && g in s.w.games && !Deleting(s.w.games[g]) && s.w.games[g].body.fleetName == f
    requires f != "" && f !in s.w.fleets && FleetsOf(s.w, g) == {}
    ensures Stuck(s, g, f)
  {
    assert GPc(s, g) == GIdle;
  }

  lemma FleetTaken(w: World, w': World, g: Name, x: Name)
    requires x !in w'.fleets && w'.fleets - {x} == w.fleets - {x}
    ensures FleetsOf(w', g) == FleetsOf(w, g) - {x}
  {
    forall h ensures h in FleetsOf(w', g) <==> h in FleetsOf(w, g) - {x} {
      if h != x {
        assert h in w'.fleets <==> h in w'.fleets - {x};
        assert h in w.fleets <==> h in w.fleets - {x};
        if h in w.fleets {
          assert (w'.fleets - {x})[h] == (w.fleets - {x})[h];
        }
      }
    }
  }

  /**
   A user deletes the only fleet of a live game type; the operator drains it as it should, and
   the game type is stuck for as long as its status stands.
   */
  lemma DeletedFleetStrands(s: State, g: Name, f: Name) returns (acts: seq<Act>)
    requires Rest(s) && g in s.w.games && !Deleting(s.w.games[g]) && s.w.games[g].body.fleetName == f
    requires FleetsOf(s.w, g) == {f} && f in s.w.fleets && !Deleting(s.w.fleets[f])
    requires s.w.fleets[f].meta.finalizers == {FLEET_FINALIZER} && Drainable(s.w, f)
    ensures acts != [] && acts[0] == Env(DeleteFleet(f)) && Schedule(Next(s, acts[0]), acts[1..])
    ensures Stuck(Play(s, acts), g, f)
  {
    var first := [Env(DeleteFleet(f))];
    var t := Next(s, first[0]);
    assert first[1..] == [];
    assert Play(t, []) == t && Play(s, first) == t;
    SamePcsIdle(s, t);
    RestAfter(s, first);
    assert ServersOf(t.w, f) == ServersOf(s.w, f);
    var rest := DrainCompletes(t, f);
    acts := first + rest;
    PlayConcat(s, first, rest);
    assert acts[1..] == rest;
    var u := Play(s, acts);
    assert t.w.fleets - {f} == s.w.fleets - {f};
    FleetTaken(s.w, u.w, g, f);
    assert Sane(s.w, f);
    LastFleetGone(u, g, f);
  }

  /** Two live fleets of the same age. */
  ghost predicate Tied(w: World, g: Name, a: Name, b: Name) {
    && a != b && a in w.fleets && b in w.fleets && FleetsOf(w, g) == {a, b}
    && !Deleting(w.fleets[a]) && !Deleting(w.fleets[b])
    && w.fleets[a].meta.created == w.fleets[b].meta.created
    && w.fleets[a].meta.finalizers == {FLEET_FINALIZER} && w.fleets[b].meta.finalizers == {FLEET_FINALIZER}
  }

  // ---------------------------------------------------------------- how a tie comes about

  /** A fleet is created for a game type whose fleets are all of another make, and protected. */
  lemma CreateAndProtect(s: State, g: Name) returns (acts: seq<Act>, name: Name)
    requires Reconcilable(s, g) && ValidFleet(DefaultFleet(RC.SpecOf(s.w, g)))
    requires FleetsOf(s.w, g) == {} || exists f :: FleetsOf(s.w, g) == {f}
    requires forall f :: f in FleetsOf(s.w, g) ==> !PodsEqual(s.w.fleets[f].body.spec, RC.SpecOf(s.w, g))
    ensures Schedule(s, acts) && Rest(Play(s, acts)) && OnlyRolled(s.w, Play(s, acts).w, g)
    ensures name !in s.w.fleets && FleetsOf(Play(s, acts).w, g) == FleetsOf(s.w, g) + {name}
    ensures var w := Play(s, acts).w;
      && name in w.fleets && w.fleets[name].meta.created == s.w.clock && !Deleting(w.fleets[name])
      && w.fleets[name].meta.finalizers == {FLEET_FINALIZER}
      && PodsEqual(w.fleets[name].body.spec, RC.SpecOf(s.w, g))
      && forall f :: f in s.w.fleets ==> f in w.fleets && w.fleets[f] == s.w.fleets[f]
  {
    var first;
    first, name := CreatePass(s, g);
    var t := Play(s, first);
    var second := ProtectFleet(t, name);
    Then(s, first, second);
    acts := first + second;
    OneMoreFleet(s.w, t.w, Play(s, acts).w, g, name);
  }

  lemma OneMoreFleet(w: World, w1: World, w2: World, g: Name, name: Name)
    requires g in w.games && name in w1.fleets && RC.Fresh(w, w1, g, name, w1.fleets[name]) && OwnersKept(w1, w2, name)
    ensures FleetsOf(w2, g) == FleetsOf(w, g) + {name}
    ensures forall f :: f in w.fleets ==> f in w2.fleets && w2.fleets[f] == w.fleets[f]
  {
    forall f ensures f in FleetsOf(w2, g) <==> f in FleetsOf(w, g) + {name} {
      if f in w1.fleets && f != name {
        assert w2.fleets[f] == w1.fleets[f];
      }
    }
  }

  /** The game type with another spec. */
  function Respecified(o: Game, spec: FleetSpec): Game {
    o.(body := o.body.(spec := spec))
  }

  /**
   Two fleets of the same age: a game type gets its first fleet, a user edits the pod template, and
   it gets its second, all within one tick of the clock.
   */
  lemma TieArises(s: State, g: Name, spec: FleetSpec) returns (first: seq<Act>, edit: Act, second: seq<Act>, a: Name, b: Name)
    requires Reconcilable(s, g) && FleetsOf(s.w, g) == {} && ValidFleet(DefaultFleet(RC.SpecOf(s.w, g)))
    requires ValidFleet(DefaultFleet(spec)) && spec.server.pod != RC.SpecOf(s.w, g).server.pod
    ensures Schedule(s, first) && Schedule(Next(Play(s, first), edit), second)
    ensures edit.Env? && edit.e.EditGame? && edit.e.g == g
    ensures var t := Play(Next(Play(s, first), edit), second);
            Reconcilable(t, g) && Tied(t.w, g, a, b)
  {
    first, a := CreateAndProtect(s, g);
    var t := Play(s, first);
    var o := Respecified(t.w.games[g], spec);
    edit := Env(EditGame(g, o));
    var u := Next(t, edit);
    EditIsAccepted(t, g, o);
    assert FleetsOf(u.w, g) == {a};
    second, b := CreateAndProtect(u, g);
  }

  lemma EditIsAccepted(s: State, g: Name, o: Game)
    requires Rest(s) && g in s.w.games && !Deleting(s.w.games[g]) && o == Respecified(s.w.games[g], o.body.spec)
    ensures var t := Next(s, Env(EditGame(g, o)));
            Rest(t) && t.w == s.w.(games := s.w.games[g := o])
  {
    var t := Next(s, Env(EditGame(g, o)));
    assert UserEdit(s.w.games, g, o, TYPE_FINALIZER, "type");
    SamePcsIdle(s, t);
    StartInv(s);
    NextKeepsInv(s, Env(EditGame(g, o)));
    InvIsOrderly(t);
  }

  lemma FirstOfTwo(w: World, a: Name, b: Name)
    requires a in w.fleets && b in w.fleets && w.fleets[a].meta.created == w.fleets[b].meta.created
    ensures Oldest(w, [a, b]) == a && Youngest(w, [a, b]) == a
  {
    assert [a, b][..1] == [a];
    assert Oldest(w, [a]) == a && Youngest(w, [a]) == a;
  }

  /**
   With two equally old fleets, two reconciles that list them in opposite orders mark both: the
   game type is left without a live fleet, by the operator's own calls alone.
   */
  lemma TiedFleetsBothDrop(s: State, g: Name, a: Name, b: Name) returns (acts: seq<Act>)
    requires Reconcilable(s, g) && Tied(s.w, g, a, b)
    ensures Schedule(s, acts) && Rest(Play(s, acts))
    ensures var w := Play(s, acts).w;
      && LiveFleets(w, g) == {} && FleetsOf(w, g) == {a, b}
      && (forall f :: f in {a, b} ==> Deleting(w.fleets[f]) && w.fleets[f].meta.finalizers == {FLEET_FINALIZER})
      && w.servers == s.w.servers && w.pods == s.w.pods
      && g in w.games && !Deleting(w.games[g]) && w.games[g].body.fleetName == b
  {
    var first := DropFirstListed(s, g, a, b);
    var t := Play(s, first);
    var second := DropFirstListed(t, g, b, a);
    Then(s, first, second);
    acts := first + second;
  }

  /** Of two equally old fleets, the one that is listed first is dropped, and named in the status. */
  lemma DropFirstListed(s: State, g: Name, a: Name, b: Name) returns (acts: seq<Act>)
    requires Reconcilable(s, g) && a != b && a in s.w.fleets && b in s.w.fleets && FleetsOf(s.w, g) == {a, b}
    requires s.w.fleets[a].meta.created == s.w.fleets[b].meta.created
    requires !Deleting(s.w.fleets[a]) && s.w.fleets[a].meta.finalizers == {FLEET_FINALIZER}
    ensures Schedule(s, acts) && Reconcilable(Play(s, acts), g)
    ensures var w := Play(s, acts).w;
      && w.servers == s.w.servers && w.pods == s.w.pods && FleetsOf(w, g) == {a, b}
      && a in w.fleets && Deleting(w.fleets[a]) && w.fleets[a].meta.finalizers == {FLEET_FINALIZER}
      && b in w.fleets && w.fleets[b] == s.w.fleets[b]
      && w.fleets[a].meta.created == w.fleets[b].meta.created
      && w.games[g].body.fleetName == a
  {
    FirstOfTwo(s.w, a, b);
    acts := DropPass(s, g, [a, b]);
    Marked(s.w, Play(s, acts).w, g, a);
  }

  lemma Marked(w: World, w': World, g: Name, x: Name)
    requires x in w.fleets && w.fleets[x].meta.finalizers != {} && w'.fleets == Api.Delete(w.fleets, x, w.clock)
    ensures FleetsOf(w', g) == FleetsOf(w, g) && x in w'.fleets && Deleting(w'.fleets[x])
    ensures forall f :: f in w.fleets ==> f in w'.fleets && w'.fleets[f].meta.created == w.fleets[f].meta.created
                                          && w'.fleets[f].meta.finalizers == w.fleets[f].meta.finalizers
                                          && (f != x ==> w'.fleets[f] == w.fleets[f])
  {}

  /** And once both have drained, it is stuck. */
  lemma TiedFleetsStrand(s: State, g: Name, a: Name, b: Name) returns (acts: seq<Act>)
    requires Reconcilable(s, g) && Tied(s.w, g, a, b) && Drainable(s.w, a) && Drainable(s.w, b)
    ensures Schedule(s, acts) && Stuck(Play(s, acts), g, b)
  {
    var first := TiedFleetsBothDrop(s, g, a, b);
    var t := Play(s, first);
    assert ServersOf(t.w, a) == ServersOf(s.w, a) && ServersOf(t.w, b) == ServersOf(s.w, b);
    assert a in FleetsOf(t.w, g) && b in FleetsOf(t.w, g);
    var second := DrainCompletes(t, a);
    var u := Play(t, second);
    OtherDrainable(t.w, u.w, a, b);
    assert b in t.w.fleets - {a} && (u.w.fleets - {a})[b] == (t.w.fleets - {a})[b];
    var third := DrainCompletes(u, b);
    Then(t, second, third);
    Then(s, first, second + third);
    acts := first + (second + third);
    FleetTaken(t.w, u.w, g, a);
    FleetTaken(u.w, Play(u, third).w, g, b);
    assert Sane(t.w, b);
    LastFleetGone(Play(u, third), g, b);
  }
}
