/**
 Draining a deleting fleet: what a pass does, and that passes and releases empty and remove any
 deleting fleet whose servers still have their pods.
 */
module Draining {
  import opened Api
  import opened Machine
  import opened Lifecycle
  import opened Scaling
  import opened Schedules
  import opened FleetCompletion
  import SF = ServerFate

  /** Deleting every object of `names` in turn. */
  function DeleteAll<B>(m: map<Name, Obj<B>>, names: set<Name>, now: int): map<Name, Obj<B>> {
    map k | k in m && !(k in names && m[k].meta.finalizers == {}) ::
      if k in names && !Deleting(m[k]) then m[k].(meta := m[k].meta.(deleted := Some(now))) else m[k]
  }

  /** A completed, undisturbed reconcile of a deleting fleet. */
  ghost predicate FleetDrainPass(w: World, w': World, f: Name)
    requires f in w.fleets
  {
    && w'.servers == DeleteAll(w.servers, ServersOf(w, f), w.clock)
    && w'.fleets == (if ServersOf(w', f) == {} then Put(w.fleets, f, WithoutFinalizer(w.fleets[f], FLEET_FINALIZER))
                     else w.fleets)
    && w'.games == w.games
  }

  function Names(order: seq<Name>): set<Name> {
    set n | n in order
  }

  lemma DeleteOneMore<B>(m: map<Name, Obj<B>>, names: set<Name>, k: Name, now: int)
    requires k in m && k !in names
    ensures k in DeleteAll(m, names, now)
    ensures Api.Delete(DeleteAll(m, names, now), k, now) == DeleteAll(m, names + {k}, now)
  {}

  lemma DeleteNext<B>(m: map<Name, Obj<B>>, order: seq<Name>, i: nat, now: int)
    requires i < |order| && (forall n :: n in order ==> n in m)
    requires forall a, b :: 0 <= a < b < |order| ==> order[a] != order[b]
    ensures order[i] in DeleteAll(m, Names(order[..i]), now)
    ensures Api.Delete(DeleteAll(m, Names(order[..i]), now), order[i], now) ==
            DeleteAll(m, Names(order[..i + 1]), now)
  {
    assert order[i] in order;
    assert order[i] !in Names(order[..i]);
    DeleteOneMore(m, Names(order[..i]), order[i], now);
    assert Names(order[..i + 1]) == Names(order[..i]) + {order[i]};
  }

  // ---------------------------------------------------------------- a pass, call by call

  lemma {:induction false} DeletesEach(w: World, f: Name, o: Fleet, todo: seq<Name>, n: nat)
    returns (answers: seq<Answer>)
    requires n <= |todo| && (forall k :: k in todo ==> k in w.servers)
    requires forall i, j :: 0 <= i < j < |todo| ==> todo[i] != todo[j]
    ensures HonestTurns(w, f, FDrainEach(o, todo), answers)
    ensures Turns(w, f, FDrainEach(o, todo), answers) ==
            (w.(servers := DeleteAll(w.servers, Names(todo[..n]), w.clock)), FDrainEach(o, todo[n..]))
  {
    answers := [];
    if n == 0 {
      NoneDeleted(w.servers, todo, w.clock);
    } else {
      var xs := DeletesEach(w, f, o, todo, n - 1);
      DeletesOneMore(w, f, o, todo, n, xs);
      answers := xs + [Heard([])];
    }
  }

  lemma NoneDeleted<B>(m: map<Name, Obj<B>>, todo: seq<Name>, now: int)
    ensures DeleteAll(m, Names(todo[..0]), now) == m && todo[0..] == todo
  {}

  lemma DeletesOneMore(w: World, f: Name, o: Fleet, todo: seq<Name>, n: nat, xs: seq<Answer>)
    requires 0 < n <= |todo| && (forall k :: k in todo ==> k in w.servers)
    requires forall i, j :: 0 <= i < j < |todo| ==> todo[i] != todo[j]
    requires HonestTurns(w, f, FDrainEach(o, todo), xs)
    requires Turns(w, f, FDrainEach(o, todo), xs) ==
             (w.(servers := DeleteAll(w.servers, Names(todo[..n - 1]), w.clock)), FDrainEach(o, todo[n - 1..]))
    ensures HonestTurns(w, f, FDrainEach(o, todo), xs + [Heard([])])
    ensures Turns(w, f, FDrainEach(o, todo), xs + [Heard([])]) ==
            (w.(servers := DeleteAll(w.servers, Names(todo[..n]), w.clock)), FDrainEach(o, todo[n..]))
  {
    var left := todo[n - 1..];
    assert left[0] == todo[n - 1] && left[1..] == todo[n..];
    DeleteNext(w.servers, todo, n - 1, w.clock);
    TurnThen(w, f, FDrainEach(o, todo), xs, Heard([]));
  }

  /** From the first listing to the second. */
  lemma MarksAll(w: World, f: Name, order: seq<Name>) returns (answers: seq<Answer>)
    requires f in w.fleets && Deleting(w.fleets[f]) && IsListing(order, ServersOf(w, f))
    ensures HonestTurns(w, f, FIdle, answers)
    ensures Turns(w, f, FIdle, answers) ==
            (w.(servers := DeleteAll(w.servers, ServersOf(w, f), w.clock)), FDrained(w.fleets[f]))
  {
    var o, a := w.fleets[f], Heard(order);
    TurnThen(w, f, FIdle, [], a);
    assert Turns(w, f, FIdle, [] + [a]) == (w, FDrain(o));
    TurnThen(w, f, FIdle, [] + [a], a);
    assert Turns(w, f, FIdle, [] + [a] + [a]) == (w, FDrainEach(o, order));
    var xs := DeletesEach(w, f, o, order, |order|);
    assert order[..|order|] == order && order[|order|..] == [];
    assert Names(order) == ServersOf(w, f);
    TurnThen(w, f, FDrainEach(o, order), xs, a);
    TurnsConcat(w, f, FIdle, [] + [a] + [a], xs + [a]);
    answers := [] + [a] + [a] + (xs + [a]);
  }

  /** The end of the pass: the finalizer comes off if nothing is left. */
  lemma LetsGo(w: World, f: Name, o: Fleet) returns (answers: seq<Answer>)
    requires f in w.fleets && w.fleets[f] == o
    ensures HonestTurns(w, f, FDrained(o), answers)
    ensures Turns(w, f, FDrained(o), answers) ==
      (if ServersOf(w, f) == {} then w.(fleets := Put(w.fleets, f, WithoutFinalizer(o, FLEET_FINALIZER))) else w, FIdle)
  {
    var order := SomeListing(ServersOf(w, f));
    ListingSize(order, ServersOf(w, f));
    var a := Heard(order);
    TurnThen(w, f, FDrained(o), [], a);
    answers := [] + [a];
    if ServersOf(w, f) == {} {
      TurnThen(w, f, FDrained(o), answers, a);
      answers := answers + [a];
    }
  }

  /** A whole reconcile of a deleting fleet. */
  lemma DrainPass(s: State, f: Name) returns (acts: seq<Act>)
    requires Rest(s) && f in s.w.fleets && Deleting(s.w.fleets[f])
    ensures Schedule(s, acts) && Rest(Play(s, acts))
    ensures FleetDrainPass(s.w, Play(s, acts).w, f) && Play(s, acts).w.pods == s.w.pods
  {
    var w, o := s.w, s.w.fleets[f];
    var order := SomeListing(ServersOf(w, f));
    var head := MarksAll(w, f, order);
    var w1 := w.(servers := DeleteAll(w.servers, ServersOf(w, f), w.clock));
    var tail := LetsGo(w1, f, o);
    TurnsConcat(w, f, FIdle, head, tail);
    acts := FleetReconciles(s, f, head + tail);
    assert ServersOf(Play(s, acts).w, f) == ServersOf(w1, f);
  }

  // ---------------------------------------------------------------- draining to the end

  /** Every server of the fleet that will have to be released has its pod. */
  ghost predicate Drainable(w: World, f: Name) {
    && OnlyOurs(w, f)
    && forall k :: k in ServersOf(w, f) && w.servers[k].meta.finalizers != {} ==> k in w.pods
  }

  /** Apart from the fleet, its servers and their pods, nothing was changed. */
  ghost predicate OthersKept(w: World, w': World, f: Name) {
    && w'.games == w.games && w'.fleets - {f} == w.fleets - {f}
    && (forall k :: k in w'.servers ==> k in w.servers)
    && (forall k :: k in w.servers && k !in ServersOf(w, f) ==> k in w'.servers && w'.servers[k] == w.servers[k])
    && (forall k :: k in w.pods && k !in ServersOf(w, f) ==> k in w'.pods)
    && (forall k :: k in w'.servers ==> (k in ServersOf(w', f) <==> k in ServersOf(w, f)))
  }

  lemma OthersKeptTwice(w: World, w1: World, w2: World, f: Name)
    requires OthersKept(w, w1, f) && OthersKept(w1, w2, f)
    ensures OthersKept(w, w2, f)
  {}

  lemma PassDrains(w: World, w': World, f: Name)
    requires f in w.fleets && w.fleets[f].meta.finalizers == {FLEET_FINALIZER} && Deleting(w.fleets[f])
    requires FleetDrainPass(w, w', f) && w'.pods == w.pods && Drainable(w, f)
    ensures OthersKept(w, w', f) && Drainable(w', f) && Live(w', f) == {}
    ensures w'.fleets == if ServersOf(w', f) == {} then w.fleets - {f} else w.fleets
    ensures ServersOf(w, f) == {} ==> ServersOf(w', f) == {}
  {
    assert WithoutFinalizer(w.fleets[f], FLEET_FINALIZER).meta.finalizers == {};
    forall k | k in ServersOf(w', f)
      ensures k in ServersOf(w, f) && Deleting(w'.servers[k])
      ensures w'.servers[k].meta.finalizers == w.servers[k].meta.finalizers != {}
    {}
  }

  lemma ReleaseDrains(s: State, f: Name) returns (acts: seq<Act>)
    requires Rest(s) && Drainable(s.w, f) && Terminating(s.w, f) != {}
    ensures Schedule(s, acts) && Rest(Play(s, acts))
    ensures var w := Play(s, acts).w;
      && w.fleets == s.w.fleets && OthersKept(s.w, w, f) && Drainable(w, f)
      && Live(w, f) == Live(s.w, f) && |Terminating(w, f)| < |Terminating(s.w, f)|
  {
    var k :| k in Terminating(s.w, f);
    StartInv(s);
    assert SPc(s, k) == SIdle;
    acts := SF.WaitAndRelease(s, k);
    Gone(s.w, Play(s, acts).w, f, k);
    ReleasedOthers(s.w, Play(s, acts).w, f, k);
  }

  lemma ReleasedOthers(w: World, w': World, f: Name, k: Name)
    requires k in ServersOf(w, f) && w'.servers == w.servers - {k} && w'.pods - {k} == w.pods - {k}
    requires w'.fleets == w.fleets && w'.games == w.games
    ensures OthersKept(w, w', f)
  {
    forall j | j in w.pods && j != k ensures j in w'.pods {
      assert j in w.pods - {k};
    }
  }

  /** Passes and releases remove the fleet. */
  lemma {:induction false} DrainCompletes(s: State, f: Name) returns (acts: seq<Act>)
    requires Rest(s) && f in s.w.fleets && Deleting(s.w.fleets[f])
    requires s.w.fleets[f].meta.finalizers == {FLEET_FINALIZER} && Drainable(s.w, f)
    ensures Schedule(s, acts) && Rest(Play(s, acts))
    ensures f !in Play(s, acts).w.fleets && OthersKept(s.w, Play(s, acts).w, f)
    decreases |Live(s.w, f)|, |Terminating(s.w, f)|
  {
    var first;
    if Live(s.w, f) == {} && Terminating(s.w, f) != {} {
      first := ReleaseDrains(s, f);
    } else {
      first := DrainPass(s, f);
      PassDrains(s.w, Play(s, first).w, f);
    }
    var t := Play(s, first);
    if f in t.w.fleets {
      NotYetEmpty(s.w, t.w, f);
      var rest := DrainCompletes(t, f);
      Then(s, first, rest);
      OthersKeptTwice(s.w, t.w, Play(t, rest).w, f);
      acts := first + rest;
    } else {
      acts := first;
    }
  }

  lemma NotYetEmpty(w: World, w': World, f: Name)
    requires Live(w', f) == {} && (Live(w, f) != {} || |Terminating(w', f)| < |Terminating(w, f)|)
    ensures |Live(w', f)| < |Live(w, f)| || (|Live(w', f)| == |Live(w, f)| && |Terminating(w', f)| < |Terminating(w, f)|)
  {}

  /** Draining one fleet does not get in the way of draining another. */
  lemma OtherDrainable(w: World, w': World, f: Name, h: Name)
    requires h != f && OthersKept(w, w', f) && Drainable(w, h)
    ensures Drainable(w', h)
  {
    forall k | k in ServersOf(w', h)
      ensures k in ServersOf(w, h) && k !in ServersOf(w, f) && w'.servers[k] == w.servers[k]
    {
      assert k !in ServersOf(w', f);
    }
  }
}
