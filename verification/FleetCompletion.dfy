/**
 Where a fleet can still get: from any state in which no worker is in the middle of a reconcile,
 the operator's own calls and time alone scale a live fleet to its target and drain a deleting
 one, exactly unless one of its servers is being deleted and has lost its pod.
 */
module FleetCompletion {
  import opened Api
  import opened Admission
  import opened Machine
  import opened Lifecycle
  import opened Scaling
  import opened Schedules
  import opened Convergence
  import V = Victims
  import SF = ServerFate

  /** Nobody else's finalizer holds a server of the fleet, and a marked one still has the operator's. */
  ghost predicate OnlyOurs(w: World, f: Name) {
    forall k :: k in ServersOf(w, f) ==>
      && w.servers[k].meta.finalizers <= {SERVER_FINALIZER}
      && (Deleting(w.servers[k]) ==> w.servers[k].meta.finalizers == {SERVER_FINALIZER})
  }

  /** Nor the fleet itself. */
  ghost predicate FleetIsOurs(w: World, f: Name)
    requires f in w.fleets
  {
    && w.fleets[f].meta.finalizers <= {FLEET_FINALIZER}
    && (Deleting(w.fleets[f]) ==> w.fleets[f].meta.finalizers == {FLEET_FINALIZER})
    && OnlyOurs(w, f)
  }

  /** No server of the fleet is being deleted without its pod. */
  ghost predicate Unwedged(w: World, f: Name) {
    forall k :: k in Terminating(w, f) ==> k in w.pods
  }

  /** Only the fleet's own finalizers and status have changed among the owners. */
  ghost predicate OwnersKept(w: World, w': World, f: Name) {
    && w'.games == w.games && w'.fleets.Keys == w.fleets.Keys
    && (forall h :: h in w.fleets && h != f ==> w'.fleets[h] == w.fleets[h])
    && (f in w.fleets ==>
          && w'.fleets[f].labels == w.fleets[f].labels && w'.fleets[f].body.spec == w.fleets[f].body.spec
          && w'.fleets[f].meta.created == w.fleets[f].meta.created
          && w'.fleets[f].meta.deleted == w.fleets[f].meta.deleted
          && w.fleets[f].meta.finalizers <= w'.fleets[f].meta.finalizers)
  }

  function Heard(order: seq<Name>): Answer {
    Answer(true, order, "", [])
  }

  // ---------------------------------------------------------------- reconciles of a live fleet

  lemma ProtectFleet(s: State, f: Name) returns (acts: seq<Act>)
    requires Rest(s) && f in s.w.fleets && !Deleting(s.w.fleets[f])
    ensures Schedule(s, acts) && Rest(Play(s, acts)) && Within(acts, f)
    ensures var w := Play(s, acts).w;
      && OwnersKept(s.w, w, f) && Held(w.fleets, f, FLEET_FINALIZER)
      && w.fleets[f].meta.finalizers == s.w.fleets[f].meta.finalizers + {FLEET_FINALIZER}
      && w.servers == s.w.servers && w.pods == s.w.pods && w.clock == s.w.clock
  {
    if Held(s.w.fleets, f, FLEET_FINALIZER) {
      acts := [];
    } else {
      var w, a := s.w, Heard([]);
      TurnThen(w, f, FIdle, [], a);
      assert Turns(w, f, FIdle, [] + [a]) == (w, FAddFinalizer(w.fleets[f]));
      TurnThen(w, f, FIdle, [] + [a], a);
      acts := FleetReconciles(s, f, [] + [a] + [a]);
    }
  }

  /** The two calls that every pass of a live fleet begins with. */
  lemma Counts(w: World, f: Name, order: seq<Name>)
    requires Held(w.fleets, f, FLEET_FINALIZER) && !Deleting(w.fleets[f]) && IsListing(order, ServersOf(w, f))
    ensures var o := w.fleets[f];
      var xs := [Heard(order), Heard(order)];
      && HonestTurns(w, f, FIdle, xs)
      && (|ServersOf(w, f)| < o.body.spec.replicas ==>
            Turns(w, f, FIdle, xs) == (w, FCreate(o, o.body.spec.replicas - |ServersOf(w, f)|)))
      && (|ServersOf(w, f)| > o.body.spec.replicas ==> Turns(w, f, FIdle, xs) == (w, FChoose(o)))
  {
    var o, a := w.fleets[f], Heard(order);
    ListingSize(order, ServersOf(w, f));
    TurnThen(w, f, FIdle, [], a);
    assert [] + [a] == [a];
    assert Turns(w, f, FIdle, [a]) == (w, FCount(o));
    TurnThen(w, f, FIdle, [a], a);
    assert [a] + [a] == [a, a];
  }

  /** The two calls that every pass ends with. */
  lemma Records(w: World, f: Name, o: Fleet, order: seq<Name>)
    requires f in w.fleets && w.fleets[f] == o && !Deleting(o) && IsListing(order, ServersOf(w, f))
    ensures var xs := [Heard(order), Heard(order)];
      && HonestTurns(w, f, FRecount(o), xs)
      && Turns(w, f, FRecount(o), xs).1 == FIdle
      && var w' := Turns(w, f, FRecount(o), xs).0;
         OwnersKept(w, w', f) && w'.servers == w.servers && w'.pods == w.pods
  {
    var a := Heard(order);
    TurnThen(w, f, FRecount(o), [], a);
    assert [] + [a] == [a];
    assert Turns(w, f, FRecount(o), [a]) == (w, FSave(o, |order|));
    TurnThen(w, f, FRecount(o), [a], a);
    assert [a] + [a] == [a, a];
  }

  lemma CreateCall(w: World, f: Name, o: Fleet, left: nat, name: Name)
    requires left > 0 && name !in w.servers && ValidServer(DefaultServer(o.body.spec.server))
    ensures FleetNext(w, f, FCreate(o, left), Answer(true, [], name, [])) ==
            (CreateServer(w, f, o, name), FCreate(o, left - 1))
  {}

  lemma {:induction false} Creates(w: World, f: Name, o: Fleet, left: nat, n: nat)
    returns (answers: seq<Answer>, names: set<Name>)
    requires f in w.fleets && w.fleets[f] == o && n <= left && ValidServer(DefaultServer(o.body.spec.server))
    ensures HonestTurns(w, f, FCreate(o, left), answers)
    ensures var (w', pc') := Turns(w, f, FCreate(o, left), answers);
      && pc' == FCreate(o, left - n) && Adds(w, w', f, names) && |names| == n
      && w'.fleets == w.fleets && w'.games == w.games && w'.pods == w.pods
  {
    answers, names := [], {};
    if n > 0 {
      var xs, before := Creates(w, f, o, left, n - 1);
      var w1 := Turns(w, f, FCreate(o, left), xs).0;
      var name := FreshName(w1.servers.Keys);
      var a := Answer(true, [], name, []);
      TurnThen(w, f, FCreate(o, left), xs, a);
      CreateCall(w1, f, o, left - n + 1, name);
      AddsOneMore(w, w1, CreateServer(w1, f, o, name), f, before, name);
      answers, names := xs + [a], before + {name};
    }
  }

  /** A whole reconcile below the target. */
  lemma ScaleUpPass(s: State, f: Name) returns (acts: seq<Act>, names: set<Name>)
    requires Rest(s) && Held(s.w.fleets, f, FLEET_FINALIZER) && !Deleting(s.w.fleets[f])
    requires |ServersOf(s.w, f)| < s.w.fleets[f].body.spec.replicas
    requires ValidServer(DefaultServer(s.w.fleets[f].body.spec.server))
    ensures Schedule(s, acts) && Rest(Play(s, acts))
    ensures var w := Play(s, acts).w;
      && Adds(s.w, w, f, names) && |names| == s.w.fleets[f].body.spec.replicas - |ServersOf(s.w, f)|
      && OwnersKept(s.w, w, f) && w.pods == s.w.pods
  {
    var w, o := s.w, s.w.fleets[f];
    var order := SomeListing(ServersOf(w, f));
    Counts(w, f, order);
    var left := o.body.spec.replicas - |ServersOf(w, f)|;
    var made;
    made, names := Creates(w, f, o, left, left);
    var w1 := Turns(w, f, FCreate(o, left), made).0;
    TurnThen(w, f, FCreate(o, left), made, Heard([]));
    assert Turns(w, f, FCreate(o, left), made + [Heard([])]) == (w1, FRecount(o));
    var after := SomeListing(ServersOf(w1, f));
    Records(w1, f, o, after);
    var head, mid, tail := [Heard(order), Heard(order)], made + [Heard([])], [Heard(after), Heard(after)];
    TurnsConcat(w, f, FCreate(o, left), mid, tail);
    TurnsConcat(w, f, FIdle, head, mid + tail);
    acts := FleetReconciles(s, f, head + (mid + tail));
    SameServersAdd(w, w1, Play(s, acts).w, f, names);
  }

  lemma SameServersAdd(w: World, w1: World, w2: World, f: Name, names: set<Name>)
    requires f in w.fleets && Adds(w, w1, f, names) && w2.servers == w1.servers
    ensures Adds(w, w2, f, names)
  {}

  /** From the second listing to the deletion, with the sidecars' answers. */
  lemma Marks(w: World, f: Name, order: seq<Name>) returns (answers: seq<Answer>, v: Name)
    requires Held(w.fleets, f, FLEET_FINALIZER) && IsListing(order, ServersOf(w, f)) && order != []
    requires ValidPriority(w.fleets[f].body.spec.agePriority)
    requires forall k :: k in ServersOf(w, f) ==> k in w.pods
    ensures v in ServersOf(w, f) && HonestTurns(w, f, FChoose(w.fleets[f]), answers)
    ensures Turns(w, f, FChoose(w.fleets[f]), answers) ==
            (w.(servers := Api.Delete(w.servers, v, w.clock)), FRecount(w.fleets[f]))
  {
    var o, items := w.fleets[f], Items(w, order);
    var checks := Checks(w, items, {});
    var pick := V.FindDeleteServer(o.body.spec, WithChecks(items, checks));
    v := NobodyReachable(w, f, order);
    var a, p := Heard(order), Answer(true, [], "", checks);
    TurnThen(w, f, FChoose(o), [], a);
    assert Turns(w, f, FChoose(o), [] + [a]) == (w, FPick(o, items));
    TurnThen(w, f, FChoose(o), [] + [a], p);
    assert Turns(w, f, FChoose(o), [] + [a] + [p]) == (w, FDelete(o, v));
    TurnThen(w, f, FChoose(o), [] + [a] + [p], a);
    answers := [] + [a] + [p] + [a];
  }

  lemma NobodyReachable(w: World, f: Name, order: seq<Name>) returns (v: Name)
    requires f in w.fleets && IsListing(order, ServersOf(w, f)) && order != []
    requires ValidPriority(w.fleets[f].body.spec.agePriority)
    requires forall k :: k in ServersOf(w, f) ==> k in w.pods
    ensures v in ServersOf(w, f)
    ensures PickedName(w.fleets[f].body.spec, Items(w, order), Checks(w, Items(w, order), {})) == Some(v)
  {
    var spec := w.fleets[f].body.spec;
    var checks := Checks(w, Items(w, order), {});
    var asked := WithChecks(Items(w, order), checks);
    forall i | 0 <= i < |asked| ensures asked[i].answer != V.CheckFailed {
      assert order[i] in order;
    }
    StrategyIffValid(spec, asked);
    V.VictimIsExtreme(asked, false, spec.prioritizeAllowed);
    V.VictimIsExtreme(asked, true, spec.prioritizeAllowed);
    v := V.FindDeleteServer(spec, asked).server.name;
    assert IsVictim(w, f, v);
    VictimIsMember(w, f, v);
  }

  /** A whole reconcile above the target. */
  lemma ScaleDownPass(s: State, f: Name) returns (acts: seq<Act>, v: Name)
    requires Rest(s) && Held(s.w.fleets, f, FLEET_FINALIZER) && !Deleting(s.w.fleets[f])
    requires |ServersOf(s.w, f)| > s.w.fleets[f].body.spec.replicas && ServersOf(s.w, f) != {}
    requires forall k :: k in ServersOf(s.w, f) ==> k in s.w.pods
    ensures Schedule(s, acts) && Rest(Play(s, acts))
    ensures v in ServersOf(s.w, f)
    ensures var w := Play(s, acts).w;
      && w.servers == Api.Delete(s.w.servers, v, s.w.clock)
      && OwnersKept(s.w, w, f) && w.pods == s.w.pods
  {
    var w, o := s.w, s.w.fleets[f];
    var order := SomeListing(ServersOf(w, f));
    ListingSize(order, ServersOf(w, f));
    Counts(w, f, order);
    assert Sane(w, f);
    var mid;
    mid, v := Marks(w, f, order);
    var w1 := w.(servers := Api.Delete(w.servers, v, w.clock));
    var after := SomeListing(ServersOf(w1, f));
    Records(w1, f, o, after);
    var head, tail := [Heard(order), Heard(order)], [Heard(after), Heard(after)];
    TurnsConcat(w, f, FChoose(o), mid, tail);
    TurnsConcat(w, f, FIdle, head, mid + tail);
    acts := FleetReconciles(s, f, head + (mid + tail));
  }

  // ---------------------------------------------------------------- reaching the target

  /** What the steps towards the target rely on. */
  ghost predicate Scalable(w: World, f: Name) {
    && Held(w.fleets, f, FLEET_FINALIZER) && !Deleting(w.fleets[f]) && w.fleets[f].body.spec.replicas >= 0
    && ValidServer(DefaultServer(w.fleets[f].body.spec.server))
    && OnlyOurs(w, f) && Unwedged(w, f)
    && (|ServersOf(w, f)| > w.fleets[f].body.spec.replicas ==>
          forall k :: k in ServersOf(w, f) ==> k in w.pods && w.servers[k].meta.finalizers == {SERVER_FINALIZER})
  }

  ghost predicate Nearer(w: World, w': World, f: Name, target: int) {
    Potential(|Live(w', f)|, |Terminating(w', f)|, target, false)
      < Potential(|Live(w, f)|, |Terminating(w, f)|, target, false)
  }

  lemma ReleaseNearer(s: State, f: Name) returns (acts: seq<Act>)
    requires Rest(s) && Scalable(s.w, f) && Terminating(s.w, f) != {}
    ensures Schedule(s, acts) && Rest(Play(s, acts))
    ensures var w := Play(s, acts).w;
      Scalable(w, f) && OwnersKept(s.w, w, f) && Nearer(s.w, w, f, s.w.fleets[f].body.spec.replicas)
  {
    var k :| k in Terminating(s.w, f);
    StartInv(s);
    assert SPc(s, k) == SIdle;
    acts := SF.WaitAndRelease(s, k);
    Gone(s.w, Play(s, acts).w, f, k);
  }

  lemma Gone(w: World, w': World, f: Name, k: Name)
    requires k in Terminating(w, f) && w'.servers == w.servers - {k} && w'.pods - {k} == w.pods - {k}
    ensures ServersOf(w', f) == ServersOf(w, f) - {k}
    ensures Live(w', f) == Live(w, f) && Terminating(w', f) == Terminating(w, f) - {k}
    ensures forall j :: j in ServersOf(w', f) ==> w'.servers[j] == w.servers[j] && (j in w.pods ==> j in w'.pods)
    ensures |Terminating(w', f)| == |Terminating(w, f)| - 1
  {
    forall j | j in ServersOf(w', f) && j in w.pods ensures j in w'.pods {
      assert j in w.pods - {k};
    }
  }

  lemma ScaleUpNearer(s: State, f: Name) returns (acts: seq<Act>)
    requires Rest(s) && Scalable(s.w, f) && |ServersOf(s.w, f)| < s.w.fleets[f].body.spec.replicas
    ensures Schedule(s, acts) && Rest(Play(s, acts))
    ensures var w := Play(s, acts).w;
      Scalable(w, f) && OwnersKept(s.w, w, f) && Nearer(s.w, w, f, s.w.fleets[f].body.spec.replicas)
  {
    var names;
    acts, names := ScaleUpPass(s, f);
    AddedNearer(s.w, Play(s, acts).w, f, names);
  }

  lemma AddedNearer(w: World, w': World, f: Name, names: set<Name>)
    requires Scalable(w, f) && Adds(w, w', f, names) && OwnersKept(w, w', f) && w'.pods == w.pods
    requires |names| == w.fleets[f].body.spec.replicas - |ServersOf(w, f)| > 0
    ensures Scalable(w', f) && Nearer(w, w', f, w.fleets[f].body.spec.replicas)
  {
    AddsCounts(w, w', f, names);
    Split(w, f);
    Split(w', f);
    AddsOurs(w, w', f, names);
  }

  lemma AddsOurs(w: World, w': World, f: Name, names: set<Name>)
    requires f in w.fleets && Adds(w, w', f, names) && w'.pods == w.pods && OnlyOurs(w, f) && Unwedged(w, f)
    ensures OnlyOurs(w', f) && Unwedged(w', f)
  {
    forall k | k in ServersOf(w', f)
      ensures w'.servers[k].meta.finalizers <= {SERVER_FINALIZER}
      ensures Deleting(w'.servers[k]) ==> w'.servers[k].meta.finalizers == {SERVER_FINALIZER} && k in w'.pods
    {
      AddsMembers(w, w', f, names, k);
      if k !in names && Deleting(w'.servers[k]) {
        assert k in Terminating(w, f);
      }
    }
  }

  lemma ScaleDownNearer(s: State, f: Name) returns (acts: seq<Act>)
    requires Rest(s) && Scalable(s.w, f) && Terminating(s.w, f) == {}
    requires |ServersOf(s.w, f)| > s.w.fleets[f].body.spec.replicas
    ensures Schedule(s, acts) && Rest(Play(s, acts))
    ensures var w := Play(s, acts).w;
      Scalable(w, f) && OwnersKept(s.w, w, f) && Nearer(s.w, w, f, s.w.fleets[f].body.spec.replicas)
  {
    var v;
    acts, v := ScaleDownPass(s, f);
    MarkedNearer(s.w, Play(s, acts).w, f, v);
  }

  lemma MarkedNearer(w: World, w': World, f: Name, v: Name)
    requires Scalable(w, f) && Terminating(w, f) == {} && v in ServersOf(w, f)
    requires |ServersOf(w, f)| > w.fleets[f].body.spec.replicas
    requires w'.servers == Api.Delete(w.servers, v, w.clock) && OwnersKept(w, w', f) && w'.pods == w.pods
    ensures Scalable(w', f) && Nearer(w, w', f, w.fleets[f].body.spec.replicas)
  {
    MarkCounts(w, w', f, v);
    assert v in Live(w, f);
    Split(w, f);
    MarkedServers(w, w', f, v);
    Split(w', f);
  }

  lemma MarkedServers(w: World, w': World, f: Name, v: Name)
    requires v in ServersOf(w, f) && w.servers[v].meta.finalizers != {}
    requires w'.servers == Api.Delete(w.servers, v, w.clock)
    ensures ServersOf(w', f) == ServersOf(w, f)
    ensures forall k :: k in ServersOf(w, f) ==> w'.servers[k].meta.finalizers == w.servers[k].meta.finalizers
  {}

  lemma {:induction false} ReachTarget(s: State, f: Name) returns (acts: seq<Act>)
    requires Rest(s) && Scalable(s.w, f)
    ensures Schedule(s, acts) && Rest(Play(s, acts))
    ensures OwnersKept(s.w, Play(s, acts).w, f)
    ensures AtTarget(Play(s, acts).w, f, s.w.fleets[f].body.spec.replicas)
    decreases Potential(|Live(s.w, f)|, |Terminating(s.w, f)|, s.w.fleets[f].body.spec.replicas, false)
  {
    var target := s.w.fleets[f].body.spec.replicas;
    Split(s.w, f);
    if AtTarget(s.w, f, target) {
      acts := [];
    } else {
      var first;
      if Terminating(s.w, f) != {} {
        first := ReleaseNearer(s, f);
      } else if |ServersOf(s.w, f)| < target {
        first := ScaleUpNearer(s, f);
      } else {
        first := ScaleDownNearer(s, f);
      }
      var rest := ReachTarget(Play(s, first), f);
      Then(s, first, rest);
      acts := first + rest;
    }
  }

  /** Adding the missing finalizers and pods first, any unwedged fleet gets there. */
  lemma ReachableFromRest(s: State, f: Name) returns (acts: seq<Act>)
    requires Rest(s) && f in s.w.fleets && !Deleting(s.w.fleets[f]) && s.w.fleets[f].body.spec.replicas >= 0
    requires ValidServer(DefaultServer(s.w.fleets[f].body.spec.server))
    requires OnlyOurs(s.w, f) && Unwedged(s.w, f)
    ensures Schedule(s, acts) && Rest(Play(s, acts)) && OwnersKept(s.w, Play(s, acts).w, f)
    ensures AtTarget(Play(s, acts).w, f, s.w.fleets[f].body.spec.replicas)
  {
    var first := ProtectFleet(s, f);
    var t := Play(s, first);
    assert ServersOf(t.w, f) == ServersOf(s.w, f);
    var live := Live(t.w, f);
    var second := SF.SetUpServers(t, live);
    var u := Play(t, second);
    SetUpScalable(s.w, t.w, u.w, f);
    var third := ReachTarget(u, f);
    Then(t, second, third);
    Then(s, first, second + third);
    acts := first + (second + third);
  }

  /** So does it from the middle of any reconciles, which end first. */
  lemma TargetIsReachable(s: State, f: Name) returns (acts: seq<Act>)
    requires Inv(s) && f in s.w.fleets && !Deleting(s.w.fleets[f]) && s.w.fleets[f].body.spec.replicas >= 0
    requires ValidServer(DefaultServer(s.w.fleets[f].body.spec.server))
    requires OnlyOurs(s.w, f) && Unwedged(s.w, f)
    ensures Schedule(s, acts) && Rest(Play(s, acts)) && OwnersKept(s.w, Play(s, acts).w, f)
    ensures AtTarget(Play(s, acts).w, f, s.w.fleets[f].body.spec.replicas)
  {
    var first := ToRest(s);
    var rest := ReachableFromRest(Play(s, first), f);
    Then(s, first, rest);
    acts := first + rest;
  }

  lemma SetUpScalable(w: World, w1: World, w2: World, f: Name)
    requires f in w.fleets && !Deleting(w.fleets[f]) && w.fleets[f].body.spec.replicas >= 0
    requires ValidServer(DefaultServer(w.fleets[f].body.spec.server)) && OnlyOurs(w, f) && Unwedged(w, f)
    requires OwnersKept(w, w1, f) && Held(w1.fleets, f, FLEET_FINALIZER)
    requires w1.servers == w.servers && w1.pods == w.pods
    requires SF.Prepared(w1, w2, Live(w1, f))
    ensures Scalable(w2, f) && OwnersKept(w, w2, f)
  {
    forall k ensures k in ServersOf(w2, f) <==> k in ServersOf(w1, f) {
      if k in w1.servers {
        assert w2.servers[k].labels == w1.servers[k].labels;
      }
    }
    forall k | k in ServersOf(w2, f)
      ensures w2.servers[k].meta.finalizers == {SERVER_FINALIZER} && k in w2.pods
    {
      assert k in ServersOf(w, f);
      if k !in Live(w1, f) {
        assert k in Terminating(w, f);
      }
    }
  }

  ghost predicate LeadsToTarget(s: State, acts: seq<Act>, f: Name, target: int) {
    Schedule(s, acts) && AtTarget(Play(s, acts).w, f, target)
  }

  /**
   A live fleet can still reach its target if and only if none of its servers is being deleted
   without its pod: otherwise no continuation whatever brings it there.
   */
  lemma TargetReachableIff(s: State, f: Name)
    requires Rest(s) && f in s.w.fleets && !Deleting(s.w.fleets[f]) && s.w.fleets[f].body.spec.replicas >= 0
    requires ValidServer(DefaultServer(s.w.fleets[f].body.spec.server)) && OnlyOurs(s.w, f)
    ensures (exists acts :: LeadsToTarget(s, acts, f, s.w.fleets[f].body.spec.replicas)) <==> Unwedged(s.w, f)
  {
    var target := s.w.fleets[f].body.spec.replicas;
    StartInv(s);
    if Unwedged(s.w, f) {
      var acts := TargetIsReachable(s, f);
      assert LeadsToTarget(s, acts, f, target);
    } else {
      var k :| k in Terminating(s.w, f) && k !in s.w.pods;
      forall acts ensures !LeadsToTarget(s, acts, f, target) {
        SF.WedgedPlays(s, acts, k, f);
        assert k in Terminating(Play(s, acts).w, f);
      }
    }
  }
}
