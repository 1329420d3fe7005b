/** The autoscaler: its admission, and its reconcile, which writes the replica target. */
module Autoscaling {
  import opened Api
  import opened Machine
  import opened Lifecycle
  import opened Cluster
  import opened Admission
  import opened Schedules
  import opened Rollout
  import CV = Convergence
  import FC = FleetCompletion
  import RC = RolloutConvergence
  import RP = RolloutCompletion
  import S = Scaling
  import St = Steady

  const WEBHOOK := "webhook"
  const FIXED_INTERVAL := "fixedinterval"
  const MILLISECOND: int := 1_000_000

  datatype Service = Service(name: string, namespace: string, port: int)

  datatype Policy = Policy(kind: string, url: Option<string>, path: Option<string>, service: Option<Service>)

  datatype Sync = Sync(kind: string, interval: Option<int>)

  datatype Autoscaler = Autoscaler(gameName: Name, policy: Policy, sync: Sync)

  /** What the scaling webhook answers; `desired` is a 64-bit integer. */
  datatype Advice = NoAnswer | Advice(scale: bool, desired: int)

  /** `Panic` is the dereference of an absent pointer. */
  datatype Result = Error | Panic | Requeue(after: int)

  /** Duration.Milliseconds: truncates toward zero. */
  function Milliseconds(d: int): int {
    if d >= 0 then d / MILLISECOND else -(-d / MILLISECOND)
  }

  predicate ValidAutoscaler(a: Autoscaler) {
    && a.gameName != ""
    && a.sync != Sync("", None)
    && a.policy != Policy("", None, None, None)
    && !(a.policy.kind == WEBHOOK && a.policy.service.None? && a.policy.url.None?)
    && !(a.sync.interval.None? || Milliseconds(a.sync.interval.value) <= 0)
  }

  /** The conditions in plain terms; the one on an empty sync follows from the others. */
  lemma AdmittedIff(a: Autoscaler)
    ensures ValidAutoscaler(a) <==>
      && a.gameName != "" && a.policy != Policy("", None, None, None)
      && (a.policy.kind == WEBHOOK ==> a.policy.service.Some? || a.policy.url.Some?)
      && a.sync.interval.Some? && a.sync.interval.value >= 1_000_000
  {}

  function Retargeted(o: Game, n: int): Game {
    o.(body := o.body.(spec := o.body.spec.(replicas := n)))
  }

  /** `r` is the game type `o` with `n` replicas and otherwise as it was. */
  predicate OnlyRetargeted(o: Game, r: Game, n: int) {
    && r.body.spec.replicas == n
    && r.meta == o.meta && r.labels == o.labels
    && r.body.fleetName == o.body.fleetName && r.body.fleetReplicas == o.body.fleetReplicas
    && r.body.spec.server == o.body.spec.server
    && r.body.spec.prioritizeAllowed == o.body.spec.prioritizeAllowed
    && r.body.spec.agePriority == o.body.spec.agePriority
  }

  /** The replica target of `g` is stored as `n`, and no other game type and no other field changes. */
  ghost predicate StoresTarget(games: map<Name, Game>, games': map<Name, Game>, g: Name, n: int) {
    g in games && exists r :: OnlyRetargeted(games[g], r, n) && games' == Put(games, g, r)
  }

  /** Whether the request has an address; building one from an absent service would panic. */
  predicate HasAddress(p: Policy) {
    p.url.Some? || p.service.Some?
  }

  /** The policy and sync types are the supported ones, and the request has a path. */
  predicate CanAsk(a: Autoscaler) {
    a.policy.kind == WEBHOOK && a.policy.path.Some? && a.sync.kind == FIXED_INTERVAL
  }

  /**
   Reconcile of an autoscaler. An admitted one never panics, a completed reconcile comes back
   after a positive interval, and a request to scale stores the desired count narrowed to 32
   bits and changes nothing else.
   */
  method Reconcile(c: Store, stored: Option<Autoscaler>, advice: Advice, faulty: bool) returns (r: Result)
    requires c.Valid()
    modifies c
    ensures c.Valid()
    ensures stored.Some? && ValidAutoscaler(stored.value) ==> r != Panic
    ensures r == Panic ==>
      && stored.Some?
      && (stored.value.sync.interval.None? || (stored.value.policy.url.None? && stored.value.policy.service.None?))
    ensures stored.Some? && ValidAutoscaler(stored.value) && r.Requeue? ==> r.after > 0
    ensures r.Requeue? ==> stored.Some? && stored.value.gameName in old(c.games) && advice.Advice?
    ensures r.Requeue? ==> stored.value.sync.interval == Some(r.after)
    ensures !faulty && stored.Some? && ValidAutoscaler(stored.value) ==>
      (r.Requeue? <==> CanAsk(stored.value) && stored.value.gameName in old(c.games) && advice.Advice?)
    ensures old(c.run) <= c.run
    ensures c.View() == old(c.View()).(games := c.games)
    ensures r.Requeue? && advice.scale ==>
      StoresTarget(old(c.games), c.games, stored.value.gameName, ToInt32(advice.desired))
    ensures r == Error || (advice.Advice? && !advice.scale) ==> c.View() == old(c.View())
  {
    var ok := c.Succeeds(faulty);
    if !ok || stored.None? {
      return Error;
    }
    var a := stored.value;
    ok := c.Succeeds(faulty);
    if !ok || a.gameName !in c.games {
      return Error;
    }
    var game := c.games[a.gameName];
    if a.policy.kind != WEBHOOK {
      return Error;
    }
    if !HasAddress(a.policy) {
      return Panic;
    }
    if a.policy.path.None? || advice.NoAnswer? {
      return Error;
    }
    if a.sync.kind != FIXED_INTERVAL {
      return Error;
    }
    if advice.scale {
      var o := Retargeted(game, ToInt32(advice.desired));
      ok := c.Succeeds(faulty);
      if !ok {
        return Error;
      }
      assert OnlyRetargeted(game, o, ToInt32(advice.desired));
      var done := c.UpdateGame(a.gameName, game, o, true);
      c.Log(Env(EditGame(a.gameName, o)));
    }
    if a.sync.interval.None? {
      return Panic;
    }
    return Requeue(a.sync.interval.value);
  }

  // ---------------------------------------------------------------- end to end

  /** One fleet, live, made to the spec, with exactly `n` live servers and none terminating. */
  ghost predicate Serves(w: World, g: Name, n: int) {
    && g in w.games && RC.Settled(w, g)
    && forall f :: FleetsOf(w, g) == {f} ==> CV.AtTarget(w, f, n)
  }

  /** Everything that rollout and scaling measure is as it was. */
  ghost predicate Unimproved(w: World, w': World, g: Name) {
    && RC.SameFleets(w, w', g) && g in w.games && g in w'.games && RC.SpecOf(w', g) == RC.SpecOf(w, g)
    && forall f :: f in FleetsOf(w, g) ==> CV.Stutters(w, w', f)
  }

  /** No schedule of the operator's own calls and time changes anything any more. */
  ghost predicate Quiet(s: State, g: Name) {
    forall acts :: Schedule(s, acts) ==> Unimproved(s.w, Play(s, acts).w, g)
  }

  /** A live game type about which nobody else is in the way. */
  ghost predicate Serviceable(s: State, g: Name) {
    && Inv(s) && RC.Shape(s.w, g) && !Deleting(s.w.games[g]) && RP.StatusHelps(s.w, g) && RP.Tended(s.w, g, true)
    && ValidFleet(DefaultFleet(RC.SpecOf(s.w, g))) && ValidServer(DefaultServer(RC.SpecOf(s.w, g).server))
    && RC.SpecOf(s.w, g).replicas >= 0
  }

  lemma SettledFleet(w: World, g: Name) returns (f: Name)
    requires g in w.games && RC.Settled(w, g)
    ensures FleetsOf(w, g) == {f} && f in w.fleets && !Deleting(w.fleets[f])
    ensures PodsEqual(w.fleets[f].body.spec, RC.SpecOf(w, g))
    ensures w.fleets[f].body.spec.replicas == RC.SpecOf(w, g).replicas
    ensures forall h :: FleetsOf(w, g) == {h} ==> h == f
  {
    f :| && FleetsOf(w, g) == {f} && !Deleting(w.fleets[f])
         && w.fleets[f].body.spec.server.pod == RC.SpecOf(w, g).server.pod
         && w.fleets[f].body.spec.replicas == RC.SpecOf(w, g).replicas;
    assert f in FleetsOf(w, g);
    forall h | FleetsOf(w, g) == {h} ensures h == f {
      assert f in {h};
    }
  }

  /** Scaling the settled fleet leaves the rollout settled. */
  lemma StillSettled(w: World, w': World, g: Name, f: Name)
    requires g in w.games && RC.Settled(w, g) && FleetsOf(w, g) == {f} && FC.OwnersKept(w, w', f)
    ensures g in w'.games && RC.Settled(w', g) && FleetsOf(w', g) == {f} && RC.SpecOf(w', g) == RC.SpecOf(w, g)
  {
    var h := SettledFleet(w, g);
    assert f in FleetsOf(w, g);
    forall x ensures x in FleetsOf(w', g) <==> x in FleetsOf(w, g) {
      if x in w.fleets && x != f {
        assert w'.fleets[x] == w.fleets[x];
      }
    }
  }

  /** From wherever it is, the game type can get to serving its target. */
  lemma CanServe(s: State, g: Name) returns (acts: seq<Act>)
    requires Serviceable(s, g)
    ensures Schedule(s, acts) && Serves(Play(s, acts).w, g, RC.SpecOf(s.w, g).replicas)
  {
    var first := RP.RolloutCompletes(s, g, true);
    var t := Play(s, first);
    PlayKeepsInv(s, first);
    var f := SettledFleet(t.w, g);
    assert f in FleetsOf(t.w, g) && FC.FleetIsOurs(t.w, f) && FC.Unwedged(t.w, f);
    SameServerAdmitted(t.w.fleets[f].body.spec.server, RC.SpecOf(t.w, g).server);
    var second := FC.TargetIsReachable(t, f);
    Then(s, first, second);
    acts := first + second;
    StillSettled(t.w, Play(t, second).w, g, f);
    var h := SettledFleet(Play(t, second).w, g);
    assert f in {h};
  }

  /** Server admission looks at the pod template alone. */
  lemma SameServerAdmitted(a: ServerSpec, b: ServerSpec)
    requires a.pod == b.pod && ValidServer(DefaultServer(b))
    ensures ValidServer(DefaultServer(a))
  {}

  /** A state that nothing can improve any more is one in which the target is served. */
  lemma QuietServes(s: State, g: Name)
    requires Serviceable(s, g) && Quiet(s, g)
    ensures Serves(s.w, g, RC.SpecOf(s.w, g).replicas)
  {
    var acts := CanServe(s, g);
    var w, w' := s.w, Play(s, acts).w;
    assert Unimproved(w, w', g);
    var f := SettledFleet(w', g);
    assert f in FleetsOf(w', g) && FleetsOf(w, g) == {f};
    assert CV.AtTarget(w', f, RC.SpecOf(w, g).replicas);
    assert RC.Settled(w, g);
    forall h | FleetsOf(w, g) == {h} ensures CV.AtTarget(w, h, RC.SpecOf(w, g).replicas) {
      assert f in {h};
    }
  }

  /** Once the target is served at rest, nothing the operator does changes anything any more. */
  lemma ServedIsQuiet(s: State, g: Name)
    requires Rest(s) && g in s.w.games && !Deleting(s.w.games[g])
    requires Serves(s.w, g, RC.SpecOf(s.w, g).replicas)
    ensures Quiet(s, g)
  {
    var w, spec := s.w, RC.SpecOf(s.w, g);
    var x := SettledFleet(w, g);
    var names, born := ServersOf(w, x), w.fleets[x].meta.created;
    S.Split(w, x);
    assert S.Live(w, x) == names;
    St.FrozenAtRest(s, g, x, names, spec, born);
    forall acts | Schedule(s, acts) ensures Unimproved(w, Play(s, acts).w, g) {
      St.FrozenStays(s, acts, g, x, names, spec, born);
      ServedSame(w, Play(s, acts).w, g, x, names, spec, born);
    }
  }

  lemma ServedSame(w: World, w': World, g: Name, x: Name, names: set<Name>, spec: FleetSpec, born: int)
    requires St.ServedBy(w, g, x, names, spec, born) && St.ServedBy(w', g, x, names, spec, born)
    ensures Unimproved(w, w', g)
  {
    assert S.Terminating(w, x) == {} && S.Terminating(w', x) == {};
  }

  /** So at rest the two are the same. */
  lemma QuietIffServed(s: State, g: Name)
    requires Rest(s) && Serviceable(s, g)
    ensures Quiet(s, g) <==> Serves(s.w, g, RC.SpecOf(s.w, g).replicas)
  {
    if Quiet(s, g) {
      QuietServes(s, g);
    }
    if Serves(s.w, g, RC.SpecOf(s.w, g).replicas) {
      ServedIsQuiet(s, g);
    }
  }

  /** Step `m` of the run is the autoscaler's update, which stores the desired count. */
  ghost predicate Retargets(run: seq<State>, m: nat, g: Name, desired: int) {
    && 0 < m < |run| && g in run[m - 1].w.games && !Deleting(run[m - 1].w.games[g])
    && run[m].act == Env(EditGame(g, Retargeted(run[m - 1].w.games[g], ToInt32(desired))))
  }

  lemma StoresDesired(run: seq<State>, m: nat, g: Name, desired: int)
    requires IsRun(run) && Retargets(run, m, g, desired) && 0 <= desired < TWO_31
    ensures g in run[m].w.games && RC.SpecOf(run[m].w, g).replicas == desired
  {
    assert StepAt(run, m);
    var o := Retargeted(run[m - 1].w.games[g], ToInt32(desired));
    assert UserEdit(run[m - 1].w.games, g, o, TYPE_FINALIZER, "type");
  }

  /**
   From a webhook's answer to servers. In every run, whatever the workers are in the middle of when
   the autoscaler stores a desired count of 0..2^31-1, and as long as the spec then stands: the
   fleets change at most thirteen times; wherever the run has got, the operator's own calls and
   time still lead to exactly the desired number of live servers and none terminating; and a state
   that they cannot improve is that one.
   */
  lemma TargetIsReached(run: seq<State>, m: nat, i: nat, g: Name, desired: int)
    requires IsRun(run) && Retargets(run, m, g, desired) && 0 <= desired < TWO_31 && m <= i < |run|
    requires RC.Begins(run[0], g) && RolloutRun(run, g) && RC.SizesStand(run, g)
    requires g in run[m].w.games && RC.SpecStands(run, m, g, RC.SpecOf(run[m].w, g))
    ensures RC.Changes(run, m, i, g) <= 13
    ensures Serviceable(run[i], g) ==> exists acts :: LeadsToService(run[i], acts, g, desired)
    ensures Serviceable(run[i], g) && Quiet(run[i], g) ==> Serves(run[i].w, g, desired)
  {
    StoresDesired(run, m, g, desired);
    RC.RolloutConverges(run, m, i, g, RC.SpecOf(run[m].w, g));
    if Serviceable(run[i], g) {
      var acts := CanServe(run[i], g);
      assert LeadsToService(run[i], acts, g, desired);
      if Quiet(run[i], g) {
        QuietServes(run[i], g);
      }
    }
  }

  ghost predicate LeadsToService(s: State, acts: seq<Act>, g: Name, n: int) {
    Schedule(s, acts) && Serves(Play(s, acts).w, g, n)
  }
}
