/**
 Where scale-down is not safe. A scale-down pass lists the servers twice, once to compare the
 count with the target and once to choose a victim, and it counts terminating servers but may
 choose a live one. It goes below the target exactly when it should not have chosen at all.
 */
module Races {
  import opened Api
  import opened Admission
  import opened Machine
  import opened Lifecycle
  import opened Scaling
  import opened Schedules
  import opened FleetCompletion
  import V = Victims
  import SF = ServerFate

  /** What a pass goes by now: the fleet's spec and the answers of the sidecars in reach. */
  function PolicyNow(w: World, f: Name, spec: FleetSpec, reach: set<Name>): Policy {
    Policy(spec, set k | k in ServersOf(w, f) && FleetCheck(w, k, k in reach) == V.Allowed)
  }

  /** The rest of a scale-down pass from its second listing on, if nobody else moves. */
  function RestOfPass(s: State, f: Name, order: seq<Name>, checks: seq<V.Answer>): State {
    var pick := Answer(true, [], "", checks);
    Next(Next(Next(s, FleetCall(f, Heard(order))), FleetCall(f, pick)), FleetCall(f, Heard(order)))
  }

  lemma RestOfPassMarks(s: State, f: Name, order: seq<Name>, checks: seq<V.Answer>)
    requires FPc(s, f).FChoose? && IsListing(order, ServersOf(s.w, f)) && |checks| == |order|
    ensures var pick := V.FindDeleteServer(FPc(s, f).o.body.spec, WithChecks(Items(s.w, order), checks));
      && (!pick.Picked? ==> RestOfPass(s, f, order, checks).w.servers == s.w.servers)
      && (pick.Picked? ==>
            && pick.server.name in ServersOf(s.w, f)
            && RestOfPass(s, f, order, checks).w ==
               s.w.(servers := Api.Delete(s.w.servers, pick.server.name, s.w.clock)))
  {
    var o, items := FPc(s, f).o, Items(s.w, order);
    var pick := V.FindDeleteServer(o.body.spec, WithChecks(items, checks));
    var s1 := Next(s, FleetCall(f, Heard(order)));
    FleetCallTurns(s, f, Heard(order));
    assert FPc(s1, f) == FPick(o, items) && s1.w == s.w;
    var s2 := Next(s1, FleetCall(f, Answer(true, [], "", checks)));
    FleetCallTurns(s1, f, Answer(true, [], "", checks));
    FleetCallTurns(s2, f, Heard(order));
    if pick.Picked? {
      PickedIsListed(o.body.spec, items, checks);
      var i :| 0 <= i < |items| && items[i].name == pick.server.name;
      assert order[i] in order;
      assert FPc(s2, f) == FDelete(o, pick.server.name) && s2.w == s.w;
    } else {
      assert FPc(s2, f) == FIdle && s2.w == s.w;
      IdleCallKeepsServers(s2, f, Heard(order));
    }
  }

  lemma IdleCallKeepsServers(s: State, f: Name, a: Answer)
    requires FPc(s, f) == FIdle
    ensures Next(s, FleetCall(f, a)).w == s.w
  {}

  lemma PickedIsListed(spec: FleetSpec, items: seq<V.Candidate>, checks: seq<V.Answer>)
    requires |checks| == |items|
    requires V.FindDeleteServer(spec, WithChecks(items, checks)).Picked?
    ensures exists i :: 0 <= i < |items| &&
              items[i].name == V.FindDeleteServer(spec, WithChecks(items, checks)).server.name
  {
    var asked := WithChecks(items, checks);
    V.VictimIsAnExtreme(asked, Newest(spec), spec.prioritizeAllowed);
    var c := V.FindDeleteServer(spec, asked).server;
    var i :| 0 <= i < |asked| && asked[i] == c;
    assert items[i].name == c.name;
  }

  // ---------------------------------------------------------------- exactly when it undershoots

  /** The permission checks, if they are asked, find every pod. */
  ghost predicate PodsFound(w: World, f: Name, spec: FleetSpec) {
    spec.prioritizeAllowed ==> forall k :: k in ServersOf(w, f) ==> k in w.pods
  }

  /** With distinct ages, the pass picks the server that the policy ranks first now, if it gets that far. */
  lemma PicksTop(w: World, f: Name, spec: FleetSpec, order: seq<Name>, reach: set<Name>)
    requires IsListing(order, ServersOf(w, f)) && DistinctAges(w, f) && ValidPriority(spec.agePriority)
    ensures var pick := V.FindDeleteServer(spec, WithChecks(Items(w, order), Checks(w, Items(w, order), reach)));
      && (pick.Picked? <==> PodsFound(w, f, spec) && ServersOf(w, f) != {})
      && (pick.Picked? ==> IsTop(w, f, PolicyNow(w, f, spec, reach), pick.server.name))
  {
    var items := Items(w, order);
    var checks := Checks(w, items, reach);
    var asked := WithChecks(items, checks);
    ListingSize(order, ServersOf(w, f));
    StrategyIffValid(spec, asked);
    V.VictimIsExtreme(asked, false, spec.prioritizeAllowed);
    V.VictimIsExtreme(asked, true, spec.prioritizeAllowed);
    FailedIffPodMissing(w, f, order, checks);
    var pick := V.FindDeleteServer(spec, asked);
    if pick.Picked? {
      TopIsPicked(w, f, spec, order, reach, pick.server);
    }
  }

  lemma TopIsPicked(w: World, f: Name, spec: FleetSpec, order: seq<Name>, reach: set<Name>, c: V.Candidate)
    requires IsListing(order, ServersOf(w, f)) && DistinctAges(w, f)
    requires V.FindDeleteServer(spec, WithChecks(Items(w, order), Checks(w, Items(w, order), reach))) == V.Picked(c)
    ensures IsTop(w, f, PolicyNow(w, f, spec, reach), c.name)
  {
    var q := PolicyNow(w, f, spec, reach);
    var items := Items(w, order);
    var checks := Checks(w, items, reach);
    ListedItems(w, f, order);
    forall j | 0 <= j < |items|
      ensures checks[j] == V.CheckFailed || checks[j] == if items[j].name in q.allowed then V.Allowed else V.Denied
    {
      assert order[j] in order;
    }
    PickIsTop(q, items, checks, c);
    var d :| d in items && d.name == c.name && d.created == c.created && TopItem(items, q, d);
    var i :| 0 <= i < |items| && items[i] == d;
    assert order[i] in order;
    TopItemIsTop(w, f, q, items, d);
  }

  /**
   A scale-down pass from its second listing on goes below the target if and only if exactly the
   target is live and the server that the policy ranks first now, by the answers as they are, is
   one of the live ones.
   */
  lemma PassUndershootsIff(s: State, f: Name, order: seq<Name>, reach: set<Name>)
    requires FPc(s, f).FChoose? && IsListing(order, ServersOf(s.w, f)) && DistinctAges(s.w, f)
    requires ValidPriority(FPc(s, f).o.body.spec.agePriority)
    requires |Live(s.w, f)| >= FPc(s, f).o.body.spec.replicas
    ensures var spec := FPc(s, f).o.body.spec;
      var t := RestOfPass(s, f, order, Checks(s.w, Items(s.w, order), reach));
      |Live(t.w, f)| < spec.replicas <==>
        && |Live(s.w, f)| == spec.replicas && PodsFound(s.w, f, spec)
        && exists v :: v in Live(s.w, f) && IsTop(s.w, f, PolicyNow(s.w, f, spec, reach), v)
  {
    var w, spec := s.w, FPc(s, f).o.body.spec;
    var q := PolicyNow(w, f, spec, reach);
    var checks := Checks(w, Items(w, order), reach);
    var pick := V.FindDeleteServer(spec, WithChecks(Items(w, order), checks));
    var t := RestOfPass(s, f, order, checks);
    RestOfPassMarks(s, f, order, checks);
    PicksTop(w, f, spec, order, reach);
    if pick.Picked? {
      TopGoes(w, t.w, f, q, pick.server.name);
    } else {
      assert Live(t.w, f) == Live(w, f) by {
        assert ServersOf(t.w, f) == ServersOf(w, f);
      }
    }
  }

  lemma TopGoes(w: World, w': World, f: Name, q: Policy, v: Name)
    requires IsTop(w, f, q, v) && w' == w.(servers := Api.Delete(w.servers, v, w.clock))
    ensures |Live(w', f)| == |Live(w, f)| - if v in Live(w, f) then 1 else 0
    ensures (exists u :: u in Live(w, f) && IsTop(w, f, q, u)) <==> v in Live(w, f)
  {
    DeleteMember(w, w', f, v);
    forall u | IsTop(w, f, q, u) ensures u == v {
      OneTop(w, f, q, u, v);
    }
  }

  // ---------------------------------------------------------------- a release between the listings

  /** A live, protected fleet with one terminating server, one above its target, its worker idle. */
  ghost predicate OneTooMany(s: State, f: Name, k: Name) {
    && FPc(s, f) == FIdle && Held(s.w.fleets, f, FLEET_FINALIZER) && !Deleting(s.w.fleets[f])
    && Terminating(s.w, f) == {k} && |Live(s.w, f)| == s.w.fleets[f].body.spec.replicas
    && ValidPriority(s.w.fleets[f].body.spec.agePriority)
  }

  /** The worker gets and counts, and decides to scale down. */
  lemma Decides(s: State, f: Name, k: Name, order: seq<Name>) returns (acts: seq<Act>)
    requires OneTooMany(s, f, k) && IsListing(order, ServersOf(s.w, f))
    ensures Schedule(s, acts)
    ensures var t := Play(s, acts);
      t.w == s.w && FPc(t, f) == FChoose(s.w.fleets[f]) && t.sp == s.sp
  {
    Split(s.w, f);
    Counts(s.w, f, order);
    acts := FleetPlays(s, f, [Heard(order), Heard(order)]);
  }

  /** The rest of the pass as a schedule. */
  lemma RestPlays(s: State, f: Name, order: seq<Name>, reach: set<Name>) returns (acts: seq<Act>)
    requires FPc(s, f).FChoose? && IsListing(order, ServersOf(s.w, f))
    ensures Schedule(s, acts)
    ensures Play(s, acts) == RestOfPass(s, f, order, Checks(s.w, Items(s.w, order), reach))
  {
    var checks := Checks(s.w, Items(s.w, order), reach);
    var a, p := FleetCall(f, Heard(order)), FleetCall(f, Answer(true, [], "", checks));
    One(s, a);
    FleetCallTurns(s, f, Heard(order));
    var s1 := Next(s, a);
    assert FPc(s1, f) == FPick(FPc(s, f).o, Items(s.w, order)) && s1.w == s.w;
    AndThen(s, [a], p);
    FleetCallTurns(s1, f, Answer(true, [], "", checks));
    var s2 := Next(s1, p);
    AfterPick(s1, f, Answer(true, [], "", checks));
    AndThen(s, [a] + [p], a);
    acts := [a] + [p] + [a];
  }

  lemma AfterPick(s: State, f: Name, a: Answer)
    requires FPc(s, f).FPick?
    ensures !FPc(Next(s, FleetCall(f, a)), f).FPick?
  {}

  /**
   An undershooting run of the operator's own calls: the worker counts, the surplus server is
   released, the worker goes on, and one server fewer than the target stays live.
   */
  lemma ReleaseBetweenListingsUndershoots(s: State, f: Name, k: Name) returns (acts: seq<Act>)
    requires OneTooMany(s, f, k) && SPc(s, k) == SIdle && Live(s.w, f) != {}
    requires s.w.servers[k].meta.finalizers == {SERVER_FINALIZER}
    requires k in s.w.pods && SF.CheckPasses(s.w, s.w.servers[k], s.w.pods[k], true)
    requires forall j :: j in Live(s.w, f) ==> j in s.w.pods
    ensures Schedule(s, acts)
    ensures |Live(Play(s, acts).w, f)| == s.w.fleets[f].body.spec.replicas - 1
  {
    var order := SomeListing(ServersOf(s.w, f));
    var first := Decides(s, f, k, order);
    var s1 := Play(s, first);
    assert k in Terminating(s.w, f);
    var second := SF.ReconcilePlays(s1, k, true);
    var s2 := Play(s1, second);
    SF.ReconcileReleasesIff(s1.w, k, true);
    SF.ReleaseTakesOnly(s1.w, k, true);
    Gone(s.w, s2.w, f, k);
    var after := SomeListing(ServersOf(s2.w, f));
    var third := RestPlays(s2, f, after, {});
    Then(s1, second, third);
    Then(s, first, second + third);
    acts := first + (second + third);
    MarksALiveOne(s2, f, after);
  }

  /** With nothing terminating, the rest of the pass marks a live server. */
  lemma MarksALiveOne(s: State, f: Name, order: seq<Name>)
    requires FPc(s, f).FChoose? && IsListing(order, ServersOf(s.w, f)) && Terminating(s.w, f) == {}
    requires Live(s.w, f) != {} && ValidPriority(FPc(s, f).o.body.spec.agePriority)
    requires forall j :: j in Live(s.w, f) ==> j in s.w.pods
    ensures |Live(RestOfPass(s, f, order, Checks(s.w, Items(s.w, order), {})).w, f)| == |Live(s.w, f)| - 1
  {
    var w, spec := s.w, FPc(s, f).o.body.spec;
    var checks := Checks(w, Items(w, order), {});
    PicksSomebody(w, f, spec, order, checks);
    RestOfPassMarks(s, f, order, checks);
    var v := V.FindDeleteServer(spec, WithChecks(Items(w, order), checks)).server.name;
    DeleteMember(w, RestOfPass(s, f, order, checks).w, f, v);
    Split(w, f);
    assert v in Live(w, f);
  }

  lemma PicksSomebody(w: World, f: Name, spec: FleetSpec, order: seq<Name>, checks: seq<V.Answer>)
    requires IsListing(order, ServersOf(w, f)) && checks == Checks(w, Items(w, order), {})
    requires Terminating(w, f) == {} && Live(w, f) != {} && ValidPriority(spec.agePriority)
    requires forall j :: j in Live(w, f) ==> j in w.pods
    ensures V.FindDeleteServer(spec, WithChecks(Items(w, order), checks)).Picked?
  {
    var asked := WithChecks(Items(w, order), checks);
    Split(w, f);
    ListingSize(order, ServersOf(w, f));
    StrategyIffValid(spec, asked);
    V.VictimIsExtreme(asked, false, spec.prioritizeAllowed);
    V.VictimIsExtreme(asked, true, spec.prioritizeAllowed);
    FailedIffPodMissing(w, f, order, checks);
    forall k | k in ServersOf(w, f) ensures k in w.pods {
      assert k !in Terminating(w, f);
    }
  }

  // ---------------------------------------------------------------- changing answers

  /**
   A pass that starts while a surplus server `k` is terminating ends below the target if the
   policy now ranks a live server first.
   */
  lemma PassUndershoots(s: State, f: Name, k: Name, v: Name, reach: set<Name>) returns (acts: seq<Act>)
    requires OneTooMany(s, f, k) && DistinctAges(s.w, f) && PodsFound(s.w, f, s.w.fleets[f].body.spec)
    requires v in Live(s.w, f) && IsTop(s.w, f, PolicyNow(s.w, f, s.w.fleets[f].body.spec, reach), v)
    ensures Schedule(s, acts) && |Live(Play(s, acts).w, f)| < s.w.fleets[f].body.spec.replicas
  {
    var order := SomeListing(ServersOf(s.w, f));
    var first := Decides(s, f, k, order);
    var s1 := Play(s, first);
    var second := RestPlays(s1, f, order, reach);
    Then(s, first, second);
    acts := first + second;
    PassUndershootsIff(s1, f, order, reach);
  }

  /** Whether the sidecar of the server's pod allows its deletion. */
  predicate Permits(w: World, k: Name) {
    k in w.pods && SidecarOf(w, w.pods[k].meta.uid).deleteAllowed
  }

  /**
   Granting: while `k` is blocked and no other sidecar allows deletion, the game server of a live
   `j` says that it may go. The next pass, which asks, marks `j` as well.
   */
  lemma GrantUndershoots(s: State, f: Name, k: Name, j: Name) returns (grant: Act, acts: seq<Act>)
    requires OneTooMany(s, f, k) && DistinctAges(s.w, f) && s.w.fleets[f].body.spec.prioritizeAllowed
    requires j in Live(s.w, f) && forall i :: i in ServersOf(s.w, f) ==> i in s.w.pods && !Permits(s.w, i)
    requires forall i :: i in ServersOf(s.w, f) && i != j ==> s.w.pods[i].meta.uid != s.w.pods[j].meta.uid
    ensures grant == Env(PostPermission(s.w.pods[j].meta.uid, true)) && Schedule(Next(s, grant), acts)
    ensures |Live(Play(Next(s, grant), acts).w, f)| < s.w.fleets[f].body.spec.replicas
  {
    var uid := s.w.pods[j].meta.uid;
    grant := Env(PostPermission(uid, true));
    var t := Next(s, grant);
    PostKeeps(s, t, f, k, uid, true);
    var q := PolicyNow(t.w, f, t.w.fleets[f].body.spec, {j});
    assert q.allowed == {j};
    assert IsTop(t.w, f, q, j);
    acts := PassUndershoots(t, f, k, j, {j});
  }

  /**
   Retracting: `k` was marked because its sidecar allowed it, although a live `u` is first by age,
   and then its game server takes that back. The next pass marks `u`, while nobody allows deletion.
   */
  lemma RetractionUndershoots(s: State, f: Name, k: Name, u: Name) returns (retract: Act, acts: seq<Act>)
    requires OneTooMany(s, f, k) && DistinctAges(s.w, f) && s.w.fleets[f].body.spec.prioritizeAllowed
    requires u in Live(s.w, f) && forall i :: i in ServersOf(s.w, f) ==> i in s.w.pods
    requires forall i :: i in ServersOf(s.w, f) && i != u ==>
      V.Before(Newest(s.w.fleets[f].body.spec), s.w.servers[u].meta.created, s.w.servers[i].meta.created)
    requires Permits(s.w, k) && forall i :: i in ServersOf(s.w, f) && i != k ==> !Permits(s.w, i)
    ensures retract == Env(PostPermission(s.w.pods[k].meta.uid, false)) && Schedule(Next(s, retract), acts)
    ensures |Live(Play(Next(s, retract), acts).w, f)| < s.w.fleets[f].body.spec.replicas
    ensures forall i :: i in ServersOf(s.w, f) ==> !Permits(Next(s, retract).w, i)
  {
    var uid := s.w.pods[k].meta.uid;
    retract := Env(PostPermission(uid, false));
    var t := Next(s, retract);
    PostKeeps(s, t, f, k, uid, false);
    var q := PolicyNow(t.w, f, t.w.fleets[f].body.spec, {});
    assert q.allowed == {};
    assert IsTop(t.w, f, q, u);
    acts := PassUndershoots(t, f, k, u, {});
  }

  lemma PostKeeps(s: State, t: State, f: Name, k: Name, uid: nat, allowed: bool)
    requires OneTooMany(s, f, k) && t == Next(s, Env(PostPermission(uid, allowed)))
    ensures OneTooMany(t, f, k) && t.w.servers == s.w.servers && t.w.pods == s.w.pods && t.w.fleets == s.w.fleets
    ensures ServersOf(t.w, f) == ServersOf(s.w, f) && Live(t.w, f) == Live(s.w, f)
    ensures forall u :: SidecarOf(t.w, u).deleteAllowed == if u == uid then allowed else SidecarOf(s.w, u).deleteAllowed
    ensures DistinctAges(s.w, f) ==> DistinctAges(t.w, f)
  {
    assert ServersOf(t.w, f) == ServersOf(s.w, f);
    assert Live(t.w, f) == Live(s.w, f) && Terminating(t.w, f) == Terminating(s.w, f);
  }
}
