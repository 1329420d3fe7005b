/**
 The object store as the controllers use it: one mutable object, one method per API call. Its
 ghost field `run` records the state machine's view of what happened, so that `Valid` says the
 store got where it is by a run of the machine from where it started.
 */
module Cluster {
  import opened Api
  import opened Admission
  import opened PodSpecs
  import opened Machine
  import opened Lifecycle
  import opened Schedules

  /** `run` is a run of the machine that starts in `origin`, with idle workers in an orderly store. */
  ghost predicate Lawful(origin: State, run: seq<State>) {
    && |run| > 0 && run[0] == origin && Rest(origin)
    && forall i :: 0 < i < |run| ==> StepAt(run, i)
  }

  lemma LawfulIsRun(origin: State, run: seq<State>)
    requires Lawful(origin, run)
    ensures IsRun(run) && run[0] == origin && Rest(origin)
  {
    forall i | 0 < i < |run| ensures StepAt(run, i) {
      assert StepAt(run, i);
    }
  }

  lemma LawfulGrows(origin: State, run: seq<State>, a: Act)
    requires Lawful(origin, run)
    ensures Lawful(origin, run + [Next(run[|run| - 1], a)])
  {
    var longer := run + [Next(run[|run| - 1], a)];
    forall i | 0 < i < |longer| ensures StepAt(longer, i) {
      if i < |run| {
        assert StepAt(run, i);
      }
    }
  }

  /** Who makes a call: the worker of one server, one fleet or one game type. */
  datatype Worker = OfServer(k: Name) | OfFleet(f: Name) | OfGame(g: Name)

  predicate CallOf(a: Act, who: Worker) {
    match who
    case OfServer(k) => a.ServerCall? && a.k == k
    case OfFleet(f) => a.FleetCall? && a.f == f
    case OfGame(g) => a.GameCall? && a.g == g
  }

  ghost predicate CallAt(run: seq<State>, i: nat, who: Worker)
    requires i < |run|
  {
    CallOf(run[i].act, who)
  }

  /** Nothing of `before` is forgotten, and all that `after` adds are calls of one worker. */
  ghost predicate Continues(before: seq<State>, after: seq<State>, who: Worker) {
    && before <= after
    && forall i :: |before| <= i < |after| ==> CallAt(after, i, who)
  }

  lemma ContinuesLonger(before: seq<State>, after: seq<State>, who: Worker, s: State)
    requires Continues(before, after, who) && CallOf(s.act, who)
    ensures Continues(before, after + [s], who)
  {
    forall i | |before| <= i < |after| + 1 ensures CallAt(after + [s], i, who) {
      if i < |after| {
        assert CallAt(after, i, who);
      }
    }
  }

  ghost predicate OnlyMoves(before: State, after: State, who: Worker) {
    && (forall k :: who != OfServer(k) ==> SPc(after, k) == SPc(before, k))
    && (forall f :: who != OfFleet(f) ==> FPc(after, f) == FPc(before, f))
    && (forall g :: who != OfGame(g) ==> GPc(after, g) == GPc(before, g))
  }

  lemma CallMovesOnly(s: State, a: Act, who: Worker)
    requires CallOf(a, who)
    ensures OnlyMoves(s, Next(s, a), who)
  {}

  /** No other worker has moved then. */
  lemma {:induction false} ContinuesMovesOnly(origin: State, before: seq<State>, after: seq<State>, who: Worker)
    requires Lawful(origin, after) && |before| > 0 && Continues(before, after, who)
    ensures |after| > 0 && OnlyMoves(before[|before| - 1], after[|after| - 1], who)
  {
    if |after| > |before| {
      var n := |after| - 1;
      var rest := after[..n];
      assert CallAt(after, n, who) && StepAt(after, n);
      CallMovesOnly(after[n - 1], after[n].act, who);
      forall i | 0 < i < n ensures StepAt(rest, i) {
        assert StepAt(after, i);
      }
      forall i | |before| <= i < n ensures CallAt(rest, i, who) {
        assert CallAt(after, i, who);
      }
      ContinuesMovesOnly(origin, before, rest, who);
    }
  }

  class Store {
    var games: map<Name, Game>
    var fleets: map<Name, Fleet>
    var servers: map<Name, Server>
    var pods: map<Name, Pod>
    var sidecars: map<nat, Sidecar>
    var clock: int
    var nextUid: nat
    const config: Config
    ghost const origin: State
    ghost var run: seq<State>
    /** The run as it was when the current reconcile began. */
    ghost var begun: seq<State>

    ghost function View(): World
      reads this
    {
      World(games, fleets, servers, pods, sidecars, clock, nextUid, config)
    }

    /** The current state of the machine. */
    ghost function Now(): State
      requires |run| > 0
      reads this
    {
      run[|run| - 1]
    }

    ghost predicate Valid()
      reads this
    {
      Lawful(origin, run) && Now().w == View()
    }

    /** A reconcile is under way, and its worker alone has made calls since it began. */
    ghost predicate Reconciling(who: Worker)
      reads this
    {
      Valid() && Continues(begun, run, who)
    }

    ghost method Begin(who: Worker)
      requires Valid()
      modifies this`begun
      ensures Reconciling(who) && begun == run
    {
      begun := run;
    }

    constructor (config: Config)
      ensures Valid() && AllIdle(Now())
      ensures games == map[] && fleets == map[] && servers == map[] && pods == map[]
    {
      this.config := config;
      games, fleets, servers, pods, sidecars := map[], map[], map[], map[], map[];
      clock, nextUid := 0, 0;
      var start := State(World(map[], map[], map[], map[], map[], 0, 0, config), map[], map[], map[], Start);
      origin := start;
      run := [start];
      begun := [start];
    }

    /** Records a step that has just been taken. */
    ghost method Log(a: Act)
      requires Lawful(origin, run) && Next(Now(), a).w == View()
      modifies this`run
      ensures Valid() && run == old(run) + [Next(old(Now()), a)]
    {
      LawfulGrows(origin, run, a);
      run := run + [Next(Now(), a)];
    }

    ghost method LogServer(k: Name, ok: bool)
      requires Continues(begun, run, OfServer(k))
      requires Lawful(origin, run) && ServerNext(Now().w, k, SPc(Now(), k), ok).0 == View()
      modifies this`run
      ensures Reconciling(OfServer(k))
      ensures SPc(Now(), k) == old(ServerNext(Now().w, k, SPc(Now(), k), ok).1)
    {
      ContinuesLonger(begun, run, OfServer(k), Next(Now(), ServerCall(k, ok)));
      Log(ServerCall(k, ok));
    }

    ghost method LogFleet(f: Name, a: Answer)
      requires Continues(begun, run, OfFleet(f))
      requires Lawful(origin, run) && FleetNext(Now().w, f, FPc(Now(), f), a).0 == View()
      modifies this`run
      ensures Reconciling(OfFleet(f))
      ensures FPc(Now(), f) == old(FleetNext(Now().w, f, FPc(Now(), f), a).1)
    {
      ContinuesLonger(begun, run, OfFleet(f), Next(Now(), FleetCall(f, a)));
      Log(FleetCall(f, a));
    }

    ghost method LogGame(g: Name, a: Answer)
      requires Continues(begun, run, OfGame(g))
      requires Lawful(origin, run) && GameNext(Now().w, g, GPc(Now(), g), a).0 == View()
      modifies this`run
      ensures Reconciling(OfGame(g))
      ensures GPc(Now(), g) == old(GameNext(Now().w, g, GPc(Now(), g), a).1)
    {
      ContinuesLonger(begun, run, OfGame(g), Next(Now(), GameCall(g, a)));
      Log(GameCall(g, a));
    }

    /** Whatever the controllers did, the store is orderly. */
    lemma IsOrderly()
      requires Valid()
      ensures Orderly(View()) && "" !in fleets
    {
      LawfulIsRun(origin, run);
      AlwaysOrderly(run, |run| - 1);
      assert Sane(View(), "");
    }

    /** Whether a call goes through; a faulty store may fail any call. */
    method Succeeds(faulty: bool) returns (ok: bool)
      ensures !faulty ==> ok
    {
      ok := *;
      ok := ok || !faulty;
    }

    /** A generated name: any name may come out, but without faults an unused one does. */
    method GenerateName(used: set<Name>, faulty: bool) returns (name: Name)
      ensures name != "" && (!faulty ==> name !in used)
    {
      name := *;
      if name == "" || (!faulty && name in used) {
        name := Longer(used);
      }
    }

    method Longer(used: set<Name>) returns (name: Name)
      ensures name !in used && name != ""
    {
      name := "-";
      var rest := used;
      while rest != {}
        invariant rest <= used && name != ""
        invariant forall n :: n in used - rest ==> |n| < |name|
        decreases |rest|
      {
        var n :| n in rest;
        if |n| >= |name| {
          name := n + ['-'];
        }
        rest := rest - {n};
      }
      assert used - rest == used;
    }

    /** A list answer: some order of the names. */
    method List(names: set<Name>) returns (order: seq<Name>)
      ensures IsListing(order, names)
    {
      order := [];
      var rest := names;
      while rest != {}
        invariant rest <= names
        invariant IsListing(order, names - rest)
        decreases |rest|
      {
        var n :| n in rest;
        var longer := order + [n];
        assert forall m :: m in longer <==> m in order || m == n;
        assert forall i, j :: 0 <= i < j < |longer| ==> longer[i] != longer[j] by {
          forall i, j | 0 <= i < j < |longer| ensures longer[i] != longer[j] {
            if j == |order| {
              assert longer[i] in order;
            }
          }
        }
        order, rest := longer, rest - {n};
      }
    }

    // ---------------------------------------------------------------- servers and pods

    method UpdateServer(k: Name, copy: Server, o: Server, ok: bool) returns (done: bool)
      modifies this`servers
      ensures View() == SetServer(old(View()), k, copy, o, ok)
      ensures done == (ok && CanUpdate(old(servers), k, copy, o))
    {
      done := ok && CanUpdate(servers, k, copy, o);
      if done {
        servers := Put(servers, k, o);
      }
    }

    method CreateServerFor(f: Name, o: Fleet, name: Name)
      modifies this`servers, this`nextUid
      ensures View() == CreateServer(old(View()), f, o, name)
    {
      var labels := Inherit(o.labels, "fleet", f);
      servers := servers[name := NewObj(nextUid, clock, labels, DefaultServer(o.body.spec.server))];
      nextUid := nextUid + 1;
    }

    /** What a child made from a copy with these labels is labelled with. */
    method Inherit(labels: map<string, string>, key: string, value: string) returns (r: map<string, string>)
      ensures r == labels[key := value]
    {
      var owner: LabelMap? := null;
      if labels != map[] {
        owner := new LabelMap(labels);
      }
      var child := InheritLabels(owner, key, value);
      r := child.entries;
    }

    method DeleteServer(k: Name)
      requires k in servers
      modifies this`servers
      ensures View() == old(View()).(servers := Api.Delete(old(servers), k, clock))
    {
      servers := Api.Delete(servers, k, clock);
    }

    method UpdatePod(k: Name, copy: Pod, o: Pod, ok: bool) returns (done: bool)
      modifies this`pods
      ensures View() == SetPod(old(View()), k, copy, o, ok)
      ensures done == (ok && CanUpdate(old(pods), k, copy, o))
    {
      done := ok && CanUpdate(pods, k, copy, o);
      if done {
        pods := pods[k := o];
      }
    }

    method CreatePodFor(k: Name, s: Server)
      modifies this`pods, this`nextUid
      ensures View() == CreatePod(old(View()), k, s)
    {
      var spec, defaultImage := GetPodSpec(config, k, s.labels, s.body.pod);
      var labels := Inherit(s.labels, "server", k);
      pods := pods[k := NewObj(nextUid, clock, labels, PodBody(spec, Pending))];
      nextUid := nextUid + 1;
    }

    method DeletePod(k: Name)
      requires k in pods
      modifies this`pods
      ensures View() == old(View()).(pods := Mark(old(pods), k, clock))
    {
      pods := Mark(pods, k, clock);
    }

    // ---------------------------------------------------------------- the sidecar

    method AskPermission(uid: nat) returns (allowed: bool)
      ensures allowed == SidecarOf(View(), uid).deleteAllowed
    {
      allowed := uid in sidecars && sidecars[uid].deleteAllowed;
    }

    method RequestShutdown(uid: nat)
      modifies this`sidecars
      ensures View() == Shutdown(old(View()), uid)
    {
      var s := if uid in sidecars then sidecars[uid] else Sidecar(false, false);
      sidecars := sidecars[uid := s.(shutdownRequested := true)];
    }

    // ---------------------------------------------------------------- fleets and game types

    method UpdateFleet(f: Name, copy: Fleet, o: Fleet, ok: bool) returns (done: bool)
      modifies this`fleets
      ensures View() == SetFleet(old(View()), f, copy, o, ok)
      ensures done == (ok && CanUpdate(old(fleets), f, copy, o))
    {
      done := ok && CanUpdate(fleets, f, copy, o);
      if done {
        fleets := Put(fleets, f, o);
      }
    }

    method CreateFleetFor(g: Name, o: Game, name: Name)
      modifies this`fleets, this`nextUid
      ensures View() == CreateFleet(old(View()), g, o, name)
    {
      var labels := Inherit(o.labels, "type", g);
      fleets := fleets[name := NewObj(nextUid, clock, labels, FleetBody(DefaultFleet(o.body.spec), 0))];
      nextUid := nextUid + 1;
    }

    method DeleteFleet(f: Name)
      requires f in fleets
      modifies this`fleets
      ensures View() == old(View()).(fleets := Api.Delete(old(fleets), f, clock))
    {
      fleets := Api.Delete(fleets, f, clock);
    }

    method UpdateGame(g: Name, copy: Game, o: Game, ok: bool) returns (done: bool)
      modifies this`games
      ensures View() == SetGame(old(View()), g, copy, o, ok)
      ensures done == (ok && CanUpdate(old(games), g, copy, o))
    {
      done := ok && CanUpdate(games, g, copy, o);
      if done {
        games := Put(games, g, o);
      }
    }
  }
}
