/**
 A fleet converges to its target. Under every interleaving, with failures, races and changing
 answers, the changes to its servers use up a potential that is only exhausted at the target; and
 from wherever it is, the operator's own calls and time lead it there, unless a server has lost
 its pod while it was being deleted.
 */
module Convergence {
  import opened Api
  import opened Admission
  import opened Machine
  import opened Lifecycle
  import opened Scaling
  import opened Schedules
  import V = Victims

  // ---------------------------------------------------------------- what a pass does

  /** `names` are new live servers of fleet `f`; nothing else happened to the servers. */
  ghost predicate Adds(w: World, w': World, f: Name, names: set<Name>)
    requires f in w.fleets
  {
    && (forall k :: k in w'.servers ==> k in w.servers || k in names)
    && (forall k :: k in w.servers ==> k in w'.servers && w'.servers[k] == w.servers[k])
    && (forall k :: k in names ==>
          && k !in w.servers && k in w'.servers
          && NewServer(w'.servers[k], f, w.fleets[f]))
  }

  /** `s` is a new server of `f`, with everything that the copy `o` of the fleet asks for. */
  predicate NewServer(s: Server, f: Name, o: Fleet) {
    && AdmittedAs(o.body.spec.server, s.body) && s.labels == o.labels["fleet" := f]
    && s.meta.deleted.None? && s.meta.finalizers == {}
  }

  /** `v` is the server that FindDeleteServer returns for some listing and the sidecars' answers. */
  ghost predicate IsVictim(w: World, f: Name, v: Name)
    requires f in w.fleets
  {
    exists order, reach ::
      && IsListing(order, ServersOf(w, f))
      && PickedName(w.fleets[f].body.spec, Items(w, order), Checks(w, Items(w, order), reach)) == Some(v)
  }

  function PickedName(spec: FleetSpec, items: seq<V.Candidate>, checks: seq<V.Answer>): Option<Name>
    requires |checks| == |items|
  {
    var pick := V.FindDeleteServer(spec, WithChecks(items, checks));
    if pick.Picked? then Some(pick.server.name) else None
  }

  lemma VictimBy(w: World, f: Name, order: seq<Name>, reach: set<Name>, v: Name)
    requires f in w.fleets && IsListing(order, ServersOf(w, f))
    requires PickedName(w.fleets[f].body.spec, Items(w, order), Checks(w, Items(w, order), reach)) == Some(v)
    ensures IsVictim(w, f, v)
  {}

  /** Without preference for allowed servers, the answers do not matter. */
  lemma UnaskedPick(spec: FleetSpec, items: seq<V.Candidate>, a: seq<V.Answer>, b: seq<V.Answer>)
    requires |a| == |b| == |items| && !spec.prioritizeAllowed
    ensures PickedName(spec, items, a) == PickedName(spec, items, b)
  {
    V.UnaskedAnswers(WithChecks(items, a), WithChecks(items, b), false);
    V.UnaskedAnswers(WithChecks(items, a), WithChecks(items, b), true);
  }

  /** What a completed, undisturbed reconcile of a live fleet does to the servers. */
  ghost predicate Scaled(w: World, w': World, f: Name)
    requires f in w.fleets
  {
    var target := w.fleets[f].body.spec.replicas;
    var n := |ServersOf(w, f)|;
    && (n < target ==> exists names :: Adds(w, w', f, names) && |names| == target - n)
    && (n > target ==> exists v :: IsVictim(w, f, v) && v in w.servers
                                   && w'.servers == Api.Delete(w.servers, v, w.clock))
    && (n == target ==> w'.servers == w.servers)
  }

  ghost predicate Stutters(w: World, w': World, f: Name) {
    Live(w', f) == Live(w, f) && Terminating(w', f) == Terminating(w, f)
  }

  ghost predicate AtTarget(w: World, f: Name, target: int) {
    |Live(w, f)| == target && Terminating(w, f) == {}
  }

  lemma VictimIsMember(w: World, f: Name, v: Name)
    requires f in w.fleets
    ensures IsVictim(w, f, v) ==> v in ServersOf(w, f)
  {
    if IsVictim(w, f, v) {
      var spec := w.fleets[f].body.spec;
      var order, reach :|
        && IsListing(order, ServersOf(w, f))
        && PickedName(spec, Items(w, order), Checks(w, Items(w, order), reach)) == Some(v);
      var asked := WithChecks(Items(w, order), Checks(w, Items(w, order), reach));
      V.VictimIsAnExtreme(asked, Newest(spec), spec.prioritizeAllowed);
      var c := V.FindDeleteServer(spec, asked).server;
      var i :| 0 <= i < |asked| && asked[i] == c;
      assert order[i] in order;
    }
  }

  lemma AddsNone(w: World, f: Name)
    requires f in w.fleets
    ensures Adds(w, w, f, {})
  {}

  lemma AddsMembers(w: World, w': World, f: Name, names: set<Name>, k: Name)
    requires f in w.fleets && Adds(w, w', f, names)
    ensures k in ServersOf(w', f) <==> k in ServersOf(w, f) || k in names
    ensures k in w.servers ==> k !in names && k in w'.servers && w'.servers[k] == w.servers[k]
    ensures k in names ==> k in w'.servers && !Deleting(w'.servers[k])
  {}

  lemma AddsLive(w: World, w': World, f: Name, names: set<Name>, k: Name)
    requires f in w.fleets && Adds(w, w', f, names)
    ensures k in Live(w', f) <==> k in Live(w, f) || k in names
    ensures k in Terminating(w', f) <==> k in Terminating(w, f)
    ensures k in names ==> k !in Live(w, f)
  {
    AddsMembers(w, w', f, names, k);
  }

  lemma AddsCounts(w: World, w': World, f: Name, names: set<Name>)
    requires f in w.fleets && Adds(w, w', f, names)
    ensures |Live(w', f)| == |Live(w, f)| + |names|
    ensures Terminating(w', f) == Terminating(w, f)
  {
    var live, live', gone, gone' := Live(w, f), Live(w', f), Terminating(w, f), Terminating(w', f);
    forall k
      ensures k in live' <==> k in live || k in names
      ensures k in gone' <==> k in gone
      ensures k in names ==> k !in live
    {
      AddsLive(w, w', f, names, k);
    }
    assert live' == live + names && live !! names;
  }

  lemma AddsOneMore(w: World, w1: World, w2: World, f: Name, names: set<Name>, name: Name)
    requires f in w.fleets && Adds(w, w1, f, names)
    requires name !in w1.servers && w2 == CreateServer(w1, f, w.fleets[f], name)
    ensures Adds(w, w2, f, names + {name}) && |names + {name}| == |names| + 1
  {
    AddsObject(w, w1, w2, f, names, name, w2.servers[name]);
  }

  lemma AddsObject(w: World, w1: World, w2: World, f: Name, names: set<Name>, name: Name, o: Server)
    requires f in w.fleets && Adds(w, w1, f, names)
    requires name !in w1.servers && w2.servers == w1.servers[name := o]
    requires NewServer(o, f, w.fleets[f])
    ensures Adds(w, w2, f, names + {name}) && |names + {name}| == |names| + 1
  {
    assert name !in names;
  }

  lemma MarkCounts(w: World, w': World, f: Name, v: Name)
    requires v in ServersOf(w, f) && w'.servers == Api.Delete(w.servers, v, w.clock)
    ensures Live(w', f) == Live(w, f) - {v}
    ensures |Terminating(w', f)| <= |Terminating(w, f)| + |Live(w, f)| - |Live(w', f)|
    ensures v in Terminating(w, f) ==> |Terminating(w', f)| < |Terminating(w, f)| || Stutters(w, w', f)
  {
    var m := w.(servers := w'.servers);
    DeleteMember(w, m, f, v);
    assert Live(w', f) == Live(m, f) && Terminating(w', f) == Terminating(m, f);
    Split(w, f);
    Split(m, f);
    if w.servers[v].meta.finalizers != {} && v in Terminating(w, f) {
      assert Terminating(m, f) == Terminating(w, f);
    }
  }

  /**
   A completed pass of a fleet that is off its target with nothing terminating brings it to the
   target from below, and one server nearer to it from above; at the target it changes nothing.
   */
  lemma PassMoves(w: World, w': World, f: Name)
    requires f in w.fleets && Terminating(w, f) == {}
    ensures var target := w.fleets[f].body.spec.replicas;
      Scaled(w, w', f) ==>
        && (|Live(w, f)| < target ==> AtTarget(w', f, target))
        && (|Live(w, f)| > target ==> |Live(w', f)| == |Live(w, f)| - 1)
        && (AtTarget(w, f, target) ==> Stutters(w, w', f))
  {
    var target := w.fleets[f].body.spec.replicas;
    Split(w, f);
    if Scaled(w, w', f) {
      if |ServersOf(w, f)| < target {
        var names :| Adds(w, w', f, names) && |names| == target - |ServersOf(w, f)|;
        AddsCounts(w, w', f, names);
      } else if |ServersOf(w, f)| > target {
        var v :| IsVictim(w, f, v) && v in w.servers && w'.servers == Api.Delete(w.servers, v, w.clock);
        VictimIsMember(w, f, v);
        LiveOneMarked(w, w', f, v);
      } else {
        assert ServersOf(w', f) == ServersOf(w, f);
      }
    }
  }

  lemma LiveOneMarked(w: World, w': World, f: Name, v: Name)
    requires Terminating(w, f) == {} && v in ServersOf(w, f) && w'.servers == Api.Delete(w.servers, v, w.clock)
    ensures |Live(w', f)| == |Live(w, f)| - 1
  {
    MarkCounts(w, w', f, v);
    assert v in Live(w, f);
  }

  /** A negative target is never met: without servers left, no reconcile completes. */
  lemma NegativeTargetNeverCompletes(w: World, w': World, f: Name)
    requires f in w.fleets && w.fleets[f].body.spec.replicas < 0 && ServersOf(w, f) == {}
    ensures !Scaled(w, w', f)
  {
    if Scaled(w, w', f) {
      var v :| IsVictim(w, f, v) && v in w.servers && w'.servers == Api.Delete(w.servers, v, w.clock);
      VictimIsMember(w, f, v);
    }
  }

  // ---------------------------------------------------------------- the potential

  /** The worker has decided to scale down and has not done it yet. */
  predicate Pending(pc: FleetPc) {
    pc.FChoose? || pc.FPick? || pc.FDelete?
  }

  function Potential(live: nat, terminating: nat, target: int, pending: bool): nat {
    if live + terminating > target then 3 * live + 2 * terminating + 3
    else 2 * terminating + (target - live - terminating) + if pending then 3 else 0
  }

  function PotentialOf(s: State, f: Name, target: int): nat {
    Potential(|Live(s.w, f)|, |Terminating(s.w, f)|, target, Pending(FPc(s, f)))
  }

  /** The potential is used up exactly at the target. */
  lemma ExhaustedIff(s: State, f: Name, target: int)
    requires FPc(s, f) == FIdle
    ensures PotentialOf(s, f, target) == 0 <==> AtTarget(s.w, f, target)
  {
    assert Terminating(s.w, f) == {} <==> |Terminating(s.w, f)| == 0;
  }

  /** The fleet is not deleted and its target stands. */
  ghost predicate StandsAt(w: World, f: Name, target: int) {
    f in w.fleets && !Deleting(w.fleets[f]) && w.fleets[f].body.spec.replicas == target
  }

  ghost predicate PcFits(s: State, f: Name, target: int) {
    match FPc(s, f)
    case FCount(o) => o.body.spec.replicas == target
    case FCreate(o, left) => |ServersOf(s.w, f)| + left <= target
    case FDrain(o) => false
    case FDrainEach(o, todo) => false
    case FDrained(o) => false
    case FRemoveFinalizer(o) => false
    case _ => true
  }

  // ---------------------------------------------------------------- what a step does to it

  lemma LossArithmetic(l: nat, k: nat, l': nat, k': nat, target: int, p: bool, p': bool)
    requires l' <= l && k' <= k + (l - l') && (p' ==> p)
    ensures Potential(l', k', target, p') + (if l' != l || k' != k then 1 else 0)
            <= Potential(l, k, target, p) + 3 * (l - l')
  {}

  lemma MarkArithmetic(l: nat, k: nat, l': nat, k': nat, target: int)
    requires (l' == l - 1 && k' <= k + 1) || (l' == l && k' <= k)
    ensures Potential(l', k', target, false) + (if l' != l || k' != k then 1 else 0)
            <= Potential(l, k, target, true)
  {}

  /** Steps of others take servers away or mark them, and each live server lost costs at most three. */
  lemma OtherStep(s: State, t: State, f: Name, target: int)
    requires SeenByFleet(s.w, t.w, f) && PcFits(s, f, target)
    requires FPc(t, f) == FPc(s, f) || FPc(t, f) == FIdle
    ensures PcFits(t, f, target) && |Live(t.w, f)| <= |Live(s.w, f)|
    ensures PotentialOf(t, f, target) + (if Stutters(s.w, t.w, f) then 0 else 1)
            <= PotentialOf(s, f, target) + 3 * (|Live(s.w, f)| - |Live(t.w, f)|)
  {
    OthersTake(s.w, t.w, f);
    LossArithmetic(|Live(s.w, f)|, |Terminating(s.w, f)|, |Live(t.w, f)|, |Terminating(t.w, f)|, target,
                   Pending(FPc(s, f)), Pending(FPc(t, f)));
  }

  lemma OthersTake(w: World, w': World, f: Name)
    requires SeenByFleet(w, w', f)
    ensures |ServersOf(w', f)| <= |ServersOf(w, f)| && |Live(w', f)| <= |Live(w, f)|
    ensures |Terminating(w', f)| <= |Terminating(w, f)| + |Live(w, f)| - |Live(w', f)|
    ensures |Live(w', f)| == |Live(w, f)| && |Terminating(w', f)| == |Terminating(w, f)| ==> Stutters(w, w', f)
  {
    OthersOnlyMark(w, w', f);
    SubsetSize(ServersOf(w', f), ServersOf(w, f));
    WaningSets(Live(w, f), Live(w', f), Terminating(w, f), Terminating(w', f));
  }

  lemma OthersOnlyMark(w: World, w': World, f: Name)
    requires SeenByFleet(w, w', f)
    ensures ServersOf(w', f) <= ServersOf(w, f)
    ensures Live(w', f) <= Live(w, f) && Terminating(w', f) <= Terminating(w, f) + (Live(w, f) - Live(w', f))
  {}

  lemma WaningSets(live: set<Name>, live': set<Name>, gone: set<Name>, gone': set<Name>)
    requires live' <= live && gone' <= gone + (live - live')
    ensures |live'| <= |live| && |gone'| <= |gone| + |live| - |live'|
    ensures |live'| == |live| && |gone'| == |gone| ==> live' == live && gone' == gone
  {
    assert live == live' + (live - live');
    SubsetSize(gone', gone + (live - live'));
    if |live'| == |live| {
      assert |live - live'| == 0;
      assert live - live' == {};
      assert gone == gone' + (gone - gone');
      if |gone'| == |gone| {
        assert |gone - gone'| == 0;
      }
    }
  }

  lemma CreateStep(w: World, f: Name, o: Fleet, name: Name)
    requires name !in w.servers
    ensures var w' := CreateServer(w, f, o, name);
      && |ServersOf(w', f)| == |ServersOf(w, f)| + 1
      && |Live(w', f)| == |Live(w, f)| + 1 && Terminating(w', f) == Terminating(w, f)
  {
    var w' := CreateServer(w, f, o, name);
    CreateGrows(w, f, o, name);
    CreatesLive(w, w', f, name);
    assert Live(w', f) == Live(w, f) + {name};
  }

  lemma CreatesLive(w: World, w': World, f: Name, name: Name)
    requires name !in w.servers && name in w'.servers && w'.servers == w.servers[name := w'.servers[name]]
    requires HasLabel(w'.servers[name], "fleet", f) && !Deleting(w'.servers[name])
    ensures forall k :: k in Live(w', f) <==> k in Live(w, f) || k == name
    ensures forall k :: k in Terminating(w', f) <==> k in Terminating(w, f)
  {}

  lemma DeleteStep(w: World, w': World, f: Name, v: Name, target: int)
    requires v in w.servers && w' == w.(servers := Api.Delete(w.servers, v, w.clock))
    ensures Potential(|Live(w', f)|, |Terminating(w', f)|, target, false) + (if Stutters(w, w', f) then 0 else 1)
            <= Potential(|Live(w, f)|, |Terminating(w, f)|, target, true)
  {
    if v in ServersOf(w, f) {
      MarkCounts(w, w', f, v);
      if v in Live(w, f) {
        assert |Live(w', f)| == |Live(w, f)| - 1;
      } else {
        assert v in Terminating(w, f);
        assert Live(w', f) == Live(w, f);
      }
      MarkArithmetic(|Live(w, f)|, |Terminating(w, f)|, |Live(w', f)|, |Terminating(w', f)|, target);
    } else {
      DeleteOutsider(w, w', f, v);
    }
  }

  /** The worker's own calls never raise the potential, and lower it if they change anything. */
  lemma OwnStep(s: State, a: Answer, f: Name, target: int)
    requires PcFits(s, f, target) && StandsAt(s.w, f, target)
    ensures var t := Next(s, FleetCall(f, a));
      && PcFits(t, f, target)
      && PotentialOf(t, f, target) + (if Stutters(s.w, t.w, f) then 0 else 1) <= PotentialOf(s, f, target)
  {
    var (w', pc') := FleetNext(s.w, f, FPc(s, f), a);
    if FPc(s, f).FCreate? {
      if w' != s.w {
        CreateStep(s.w, f, FPc(s, f).o, a.name);
        Split(s.w, f);
      }
    } else if FPc(s, f).FDelete? {
      if w' != s.w {
        DeleteStep(s.w, w', f, FPc(s, f).victim, target);
      }
    } else {
      IdleStep(s.w, f, FPc(s, f), a, target);
    }
  }

  lemma IdleStep(w: World, f: Name, pc: FleetPc, a: Answer, target: int)
    requires StandsAt(w, f, target) && !pc.FCreate? && !pc.FDelete?
    requires !pc.FDrain? && !pc.FDrainEach? && !pc.FDrained? && !pc.FRemoveFinalizer?
    requires pc.FCount? ==> pc.o.body.spec.replicas == target
    ensures var (w', pc') := FleetNext(w, f, pc, a);
      && Stutters(w, w', f) && |ServersOf(w', f)| == |ServersOf(w, f)|
      && (pc'.FCount? ==> pc'.o.body.spec.replicas == target)
      && (pc'.FCreate? ==> |ServersOf(w, f)| + pc'.left <= target)
      && !pc'.FDrain? && !pc'.FDrainEach? && !pc'.FDrained? && !pc'.FRemoveFinalizer?
      && (Pending(pc') ==> Pending(pc) || |ServersOf(w, f)| > target)
      && |ServersOf(w, f)| == |Live(w, f)| + |Terminating(w, f)|
  {
    Split(w, f);
    ServersUntouched(w, f, pc, a);
    IdlePc(w, f, pc, a, target);
  }

  lemma IdlePc(w: World, f: Name, pc: FleetPc, a: Answer, target: int)
    requires StandsAt(w, f, target) && !pc.FCreate? && !pc.FDelete?
    requires !pc.FDrain? && !pc.FDrainEach? && !pc.FDrained? && !pc.FRemoveFinalizer?
    requires pc.FCount? ==> pc.o.body.spec.replicas == target
    ensures var pc' := FleetNext(w, f, pc, a).1;
      && (pc'.FCount? ==> pc'.o.body.spec.replicas == target)
      && (pc'.FCreate? ==> |ServersOf(w, f)| + pc'.left <= target)
      && !pc'.FDrain? && !pc'.FDrainEach? && !pc'.FDrained? && !pc'.FRemoveFinalizer?
      && (Pending(pc') ==> Pending(pc) || |ServersOf(w, f)| > target)
  {
    if pc.FCount? && Lists(w, f, a) {
      ListingSize(a.order, ServersOf(w, f));
    }
  }

  lemma ServersUntouched(w: World, f: Name, pc: FleetPc, a: Answer)
    requires !pc.FCreate? && !pc.FDelete? && !pc.FDrainEach?
    ensures var w' := FleetNext(w, f, pc, a).0;
            Stutters(w, w', f) && |ServersOf(w', f)| == |ServersOf(w, f)|
  {
    var w' := FleetNext(w, f, pc, a).0;
    assert w'.servers == w.servers;
    assert ServersOf(w', f) == ServersOf(w, f);
  }

  // ---------------------------------------------------------------- a worker with an old target

  /** How many servers the worker may still create by what it has read. */
  function Leftover(pc: FleetPc): nat {
    match pc
    case FCount(o) => if o.body.spec.replicas > 0 then o.body.spec.replicas else 0
    case FCreate(o, left) => left
    case _ => 0
  }

  function StalePotential(live: nat, terminating: nat, target: int, leftover: nat): nat {
    3 * live + 2 * terminating + 3 + (if target > 0 then target else 0) + 4 * leftover
  }

  /**
   The potential when the worker may be in the middle of a reconcile that it began before the
   target was set, or before the fleet was there.
   */
  ghost function PotentialAt(s: State, f: Name, target: int): nat {
    if PcFits(s, f, target) then PotentialOf(s, f, target)
    else StalePotential(|Live(s.w, f)|, |Terminating(s.w, f)|, target, Leftover(FPc(s, f)))
  }

  lemma AtMostStale(s: State, f: Name, target: int)
    ensures PotentialAt(s, f, target) <= StalePotential(|Live(s.w, f)|, |Terminating(s.w, f)|, target, Leftover(FPc(s, f)))
  {}

  lemma StaleOther(s: State, t: State, f: Name, target: int)
    requires SeenByFleet(s.w, t.w, f) && !PcFits(s, f, target)
    requires FPc(t, f) == FPc(s, f) || FPc(t, f) == FIdle
    ensures |Live(t.w, f)| <= |Live(s.w, f)|
    ensures PotentialAt(t, f, target) + (if Stutters(s.w, t.w, f) then 0 else 1)
            <= PotentialAt(s, f, target) + 3 * (|Live(s.w, f)| - |Live(t.w, f)|)
  {
    OthersTake(s.w, t.w, f);
    AtMostStale(t, f, target);
  }

  lemma DeleteLowers(w: World, w': World, f: Name, v: Name)
    requires v in w.servers && w' == w.(servers := Api.Delete(w.servers, v, w.clock))
    ensures 3 * |Live(w', f)| + 2 * |Terminating(w', f)| + (if Stutters(w, w', f) then 0 else 1)
            <= 3 * |Live(w, f)| + 2 * |Terminating(w, f)|
  {
    if v in ServersOf(w, f) {
      MarkCounts(w, w', f, v);
      if v in Live(w, f) {
        assert |Live(w', f)| == |Live(w, f)| - 1;
      } else {
        assert v in Terminating(w, f);
        assert Live(w', f) == Live(w, f);
      }
    } else {
      DeleteOutsider(w, w', f, v);
    }
  }

  lemma StalePc(w: World, f: Name, pc: FleetPc, a: Answer)
    requires pc.FCount? || pc.FCreate? || pc.FDrain? || pc.FDrainEach? || pc.FDrained? || pc.FRemoveFinalizer?
    ensures var (w', pc') := FleetNext(w, f, pc, a);
      && (w'.servers == w.servers ==> Leftover(pc') <= Leftover(pc))
      && (w'.servers != w.servers ==> pc.FCreate? || pc.FDrainEach?)
      && (pc.FCreate? && w' != w ==>
            a.name !in w.servers && w' == CreateServer(w, f, pc.o, a.name) && Leftover(pc') + 1 == Leftover(pc))
      && (pc.FDrainEach? && w' != w ==>
            && pc.todo != [] && pc.todo[0] in w.servers && Leftover(pc') == 0
            && w' == w.(servers := Api.Delete(w.servers, pc.todo[0], w.clock)))
  {}

  lemma StaleOwn(s: State, a: Answer, f: Name, target: int)
    requires !PcFits(s, f, target)
    ensures var t := Next(s, FleetCall(f, a));
      PotentialAt(t, f, target) + (if Stutters(s.w, t.w, f) then 0 else 1) <= PotentialAt(s, f, target)
  {
    var pc := FPc(s, f);
    var (w', pc') := FleetNext(s.w, f, pc, a);
    StalePc(s.w, f, pc, a);
    AtMostStale(Next(s, FleetCall(f, a)), f, target);
    if w'.servers == s.w.servers {
      assert ServersOf(w', f) == ServersOf(s.w, f);
      assert Stutters(s.w, w', f);
    } else if pc.FCreate? {
      CreateStep(s.w, f, pc.o, a.name);
    } else {
      DeleteLowers(s.w, w', f, pc.todo[0]);
    }
  }

  // ---------------------------------------------------------------- whole runs

  /** How many steps from `m` to `i` changed which servers of the fleet are live or terminating. */
  ghost function Changes(run: seq<State>, m: nat, i: nat, f: Name): nat
    requires m <= i < |run|
  {
    if i == m then 0
    else Changes(run, m, i - 1, f) + if Stutters(run[i - 1].w, run[i].w, f) then 0 else 1
  }

  /** How many live servers a step took that was not the fleet's own. */
  ghost function Loss(s: State, t: State, f: Name): nat {
    if (t.act.FleetCall? && t.act.f == f) || |Live(t.w, f)| >= |Live(s.w, f)| then 0
    else |Live(s.w, f)| - |Live(t.w, f)|
  }

  /** How many live servers others have taken from step `m` to `i`. */
  ghost function Losses(run: seq<State>, m: nat, i: nat, f: Name): nat
    requires m <= i < |run|
  {
    if i == m then 0 else Losses(run, m, i - 1, f) + Loss(run[i - 1], run[i], f)
  }

  lemma StepConverges(s: State, t: State, f: Name, target: int)
    requires Inv(s) && Step(s, t) && StandsAt(s.w, f, target)
    ensures PcFits(s, f, target) ==> PcFits(t, f, target)
    ensures PotentialAt(t, f, target) + (if Stutters(s.w, t.w, f) then 0 else 1)
            <= PotentialAt(s, f, target) + 3 * Loss(s, t, f)
  {
    if t.act.FleetCall? && t.act.f == f {
      if PcFits(s, f, target) {
        OwnStep(s, t.act.a, f, target);
      } else {
        StaleOwn(s, t.act.a, f, target);
      }
    } else {
      StepSeenByFleet(s, t.act, f);
      if PcFits(s, f, target) {
        OtherStep(s, t, f, target);
      } else {
        StaleOther(s, t, f, target);
      }
    }
  }

  /**
   In every run, from whatever step `m` on the target stands, whatever the fleet's own worker was
   in the middle of, and whatever is interleaved, fails or races: the number of steps that change
   the fleet's servers is bounded by the potential used up, plus three for each live server that
   somebody else takes.
   */
  lemma {:induction false} Converges(run: seq<State>, m: nat, i: nat, f: Name, target: int)
    requires IsRun(run) && Inv(run[0]) && m <= i < |run|
    requires forall j :: m <= j < |run| ==> StandsAt(run[j].w, f, target)
    ensures PcFits(run[m], f, target) ==> PcFits(run[i], f, target)
    ensures Changes(run, m, i, f) + PotentialAt(run[i], f, target)
            <= PotentialAt(run[m], f, target) + 3 * Losses(run, m, i, f)
  {
    if m < i {
      Converges(run, m, i - 1, f, target);
      LastConverges(run, i, f, target);
    }
  }

  lemma LastConverges(run: seq<State>, n: nat, f: Name, target: int)
    requires IsRun(run) && Inv(run[0]) && 0 < n < |run|
    requires StandsAt(run[n - 1].w, f, target)
    ensures PcFits(run[n - 1], f, target) ==> PcFits(run[n], f, target)
    ensures PotentialAt(run[n], f, target) + (if Stutters(run[n - 1].w, run[n].w, f) then 0 else 1)
            <= PotentialAt(run[n - 1], f, target) + 3 * Loss(run[n - 1], run[n], f)
  {
    InvHolds(run, n - 1);
    assert StepAt(run, n);
    StepConverges(run[n - 1], run[n], f, target);
  }

  /** The worker has nothing left to do that an earlier target or count gave it. */
  ghost predicate UpToDate(s: State, f: Name, target: int) {
    PcFits(s, f, target) && !Pending(FPc(s, f))
  }

  /**
   So a fleet at its target whose worker is up to date stays there until somebody else takes a
   server or changes the target.
   */
  lemma TargetIsStable(run: seq<State>, m: nat, i: nat, f: Name, target: int)
    requires IsRun(run) && Inv(run[0]) && m <= i < |run|
    requires forall j :: m <= j < |run| ==> StandsAt(run[j].w, f, target)
    requires AtTarget(run[m].w, f, target) && UpToDate(run[m], f, target) && Losses(run, m, i, f) == 0
    ensures Changes(run, m, i, f) == 0 && AtTarget(run[i].w, f, target)
  {
    Converges(run, m, i, f, target);
    assert PotentialAt(run[m], f, target) == 0;
    assert PotentialOf(run[i], f, target) == 0;
    assert |Terminating(run[i].w, f)| == 0;
  }

  /**
   Up to date it has to be: a worker that still has servers to create by an earlier target takes
   a fleet that is exactly at its target above it.
   */
  lemma StaleCreateOvershoots(s: State, f: Name, name: Name, target: int)
    requires FPc(s, f).FCreate? && FPc(s, f).left > 0 && AtTarget(s.w, f, target)
    requires name !in s.w.servers && ValidServer(DefaultServer(FPc(s, f).o.body.spec.server))
    ensures |Live(Next(s, FleetCall(f, Answer(true, [], name, []))).w, f)| == target + 1
  {
    CreateStep(s.w, f, FPc(s, f).o, name);
  }
}
