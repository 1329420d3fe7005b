/** The fleet reconciler, call by call. */
module FleetController {
  import opened Api
  import opened Admission
  import opened Machine
  import opened Cluster
  import CV = Convergence
  import D = Draining
  import L = Lifecycle
  import S = Scaling
  import V = Victims

  function Plain(ok: bool, order: seq<Name>): Answer {
    Answer(ok, order, "", [])
  }

  predicate Listing(pc: FleetPc) {
    pc.FCount? || pc.FChoose? || pc.FRecount? || pc.FDrain? || pc.FDrained?
  }

  /** A scale-down finds a victim. */
  ghost predicate CanChoose(w: World, f: Name)
    requires f in w.fleets
  {
    && ServersOf(w, f) != {} && ValidPriority(w.fleets[f].body.spec.agePriority)
    && (w.fleets[f].body.spec.prioritizeAllowed ==> forall k :: k in ServersOf(w, f) ==> k in w.pods)
  }

  /** What a scaling pass needs: an admissible server template, or somebody to delete. */
  ghost predicate CanScale(w: World, f: Name)
    requires f in w.fleets
  {
    var spec, n := w.fleets[f].body.spec, |ServersOf(w, f)|;
    && (n < spec.replicas ==> ValidServer(DefaultServer(spec.server)))
    && (n > spec.replicas ==> CanChoose(w, f))
  }

  /** When a reconcile without faults completes. */
  ghost predicate CanComplete(w: World, f: Name)
    requires f in w.fleets
  {
    Deleting(w.fleets[f]) || !Held(w.fleets, f, FLEET_FINALIZER) || CanScale(w, f)
  }

  /**
   Reconcile of one fleet. With every call failing or succeeding at will it is a run of the
   machine. Completed without an error, it protects a new fleet, scales a live one and records
   the new count, and drains a deleting one. Without faults it fails only where it must.
   */
  method Reconcile(c: Store, f: Name, faulty: bool) returns (err: bool)
    requires c.Valid() && FPc(c.Now(), f) == FIdle
    modifies c
    ensures c.Valid() && FPc(c.Now(), f) == FIdle && Continues(old(c.run), c.run, OfFleet(f))
    ensures f !in old(c.fleets) ==> err
    ensures !faulty ==> (err <==> f !in old(c.fleets) || !CanComplete(old(c.View()), f))
    ensures !err && !Held(old(c.fleets), f, FLEET_FINALIZER) && !Deleting(old(c.fleets)[f]) ==>
      && c.fleets == old(c.fleets)[f := WithFinalizer(old(c.fleets)[f], FLEET_FINALIZER)]
      && c.servers == old(c.servers) && c.games == old(c.games)
    ensures !err && Held(old(c.fleets), f, FLEET_FINALIZER) && !Deleting(old(c.fleets)[f]) ==>
      && CV.Scaled(old(c.View()), c.View(), f)
      && f in c.fleets && c.fleets[f].body.current == |ServersOf(c.View(), f)|
    ensures !err && f in old(c.fleets) && Deleting(old(c.fleets)[f]) ==>
      D.FleetDrainPass(old(c.View()), c.View(), f)
  {
    c.Begin(OfFleet(f));
    var ok := c.Succeeds(faulty);
    c.LogFleet(f, Plain(ok, []));
    if !ok || f !in c.fleets {
      return true;
    }
    var fleet := c.fleets[f];
    if Deleting(fleet) {
      err := HandleDeletion(c, f, fleet, faulty);
      return err;
    }
    if FLEET_FINALIZER !in fleet.meta.finalizers {
      err := Save(c, f, fleet, WithFinalizer(fleet, FLEET_FINALIZER), faulty);
      return err;
    }
    err := Scale(c, f, fleet, faulty);
  }

  /** The update that ends a reconcile. */
  method Save(c: Store, f: Name, fleet: Fleet, o: Fleet, faulty: bool) returns (err: bool)
    requires c.Reconciling(OfFleet(f))
    requires
      || (FPc(c.Now(), f) == FAddFinalizer(fleet) && o == WithFinalizer(fleet, FLEET_FINALIZER))
      || (FPc(c.Now(), f) == FRemoveFinalizer(fleet) && o == WithoutFinalizer(fleet, FLEET_FINALIZER))
      || (FPc(c.Now(), f).FSave? && FPc(c.Now(), f).o == fleet
          && o == fleet.(body := fleet.body.(current := FPc(c.Now(), f).n)))
    modifies c
    ensures c.Reconciling(OfFleet(f)) && FPc(c.Now(), f) == FIdle && c.begun == old(c.begun)
    ensures c.servers == old(c.servers) && c.games == old(c.games)
    ensures !err ==> CanUpdate(old(c.fleets), f, fleet, o) && c.fleets == Put(old(c.fleets), f, o)
    ensures !faulty && CanUpdate(old(c.fleets), f, fleet, o) ==> !err
  {
    var ok := c.Succeeds(faulty);
    var done := c.UpdateFleet(f, fleet, o, ok);
    c.LogFleet(f, Plain(ok, []));
    err := !done;
  }

  method GetServers(c: Store, f: Name, faulty: bool) returns (ok: bool, order: seq<Name>)
    requires c.Reconciling(OfFleet(f)) && Listing(FPc(c.Now(), f))
    modifies c`run
    ensures c.Reconciling(OfFleet(f))
    ensures IsListing(order, ServersOf(c.View(), f)) && |order| == |ServersOf(c.View(), f)|
    ensures FPc(c.Now(), f) == FleetNext(c.View(), f, old(FPc(c.Now(), f)), Plain(ok, order)).1
    ensures !ok ==> FPc(c.Now(), f) == FIdle
    ensures !faulty ==> ok
  {
    var names := set k | k in c.servers && HasLabel(c.servers[k], "fleet", f);
    assert names == ServersOf(c.View(), f);
    order := c.List(names);
    ListingSize(order, names);
    ok := c.Succeeds(faulty);
    c.LogFleet(f, Plain(ok, order));
  }

  /** Counting, scaling and saving the new count. */
  method Scale(c: Store, f: Name, fleet: Fleet, faulty: bool) returns (err: bool)
    requires c.Reconciling(OfFleet(f)) && FPc(c.Now(), f) == FCount(fleet)
    requires f in c.fleets && c.fleets[f] == fleet && !Deleting(fleet)
    modifies c
    ensures c.Reconciling(OfFleet(f)) && FPc(c.Now(), f) == FIdle && c.begun == old(c.begun)
    ensures !err ==>
      && CV.Scaled(old(c.View()), c.View(), f)
      && f in c.fleets && c.fleets[f].body.current == |ServersOf(c.View(), f)|
    ensures !faulty ==> (err <==> !CanScale(old(c.View()), f))
  {
    var n;
    err, n := CountAndScale(c, f, fleet, faulty);
    if !err {
      ghost var scaled := c.View();
      err := Save(c, f, fleet, fleet.(body := fleet.body.(current := n)), faulty);
      SameServersScaled(old(c.View()), scaled, c.View(), f);
    }
  }

  method CountAndScale(c: Store, f: Name, fleet: Fleet, faulty: bool) returns (err: bool, n: nat)
    requires c.Reconciling(OfFleet(f)) && FPc(c.Now(), f) == FCount(fleet) && f in c.fleets && c.fleets[f] == fleet
    modifies c
    ensures c.Reconciling(OfFleet(f)) && c.begun == old(c.begun)
    ensures FPc(c.Now(), f) == if err then FIdle else FSave(fleet, n)
    ensures c.fleets == old(c.fleets)
    ensures !err ==> CV.Scaled(old(c.View()), c.View(), f) && n == |ServersOf(c.View(), f)|
    ensures !faulty ==> (err <==> !CanScale(old(c.View()), f))
  {
    n := 0;
    ghost var w := c.View();
    var ok, order := GetServers(c, f, faulty);
    assert c.View() == w;
    if !ok {
      return true, n;
    }
    n := |order|;
    if n == fleet.body.spec.replicas {
      UnscaledAtTarget(w, f);
      return false, n;
    }
    err := ScaleServerCount(c, f, fleet, n, faulty);
    if err {
      return;
    }
    err, n := CountAgain(c, f, fleet, faulty);
  }

  method CountAgain(c: Store, f: Name, fleet: Fleet, faulty: bool) returns (err: bool, n: nat)
    requires c.Reconciling(OfFleet(f)) && FPc(c.Now(), f) == FRecount(fleet)
    modifies c`run
    ensures c.Reconciling(OfFleet(f))
    ensures FPc(c.Now(), f) == if err then FIdle else FSave(fleet, n)
    ensures c.View() == old(c.View()) && n == |ServersOf(c.View(), f)|
    ensures !faulty ==> !err
  {
    var ok, order := GetServers(c, f, faulty);
    return !ok, |order|;
  }

  lemma UnscaledAtTarget(w: World, f: Name)
    requires f in w.fleets && |ServersOf(w, f)| == w.fleets[f].body.spec.replicas
    ensures CV.Scaled(w, w, f)
  {}

  lemma ScaledByVictim(w: World, w': World, f: Name, v: Name)
    requires f in w.fleets && |ServersOf(w, f)| > w.fleets[f].body.spec.replicas
    requires v in w.servers && w'.servers == Api.Delete(w.servers, v, w.clock)
    ensures CV.IsVictim(w, f, v) ==> CV.Scaled(w, w', f)
  {}

  lemma SameServersScaled(w: World, w1: World, w2: World, f: Name)
    requires f in w.fleets && CV.Scaled(w, w1, f) && w2.servers == w1.servers
    ensures CV.Scaled(w, w2, f) && ServersOf(w2, f) == ServersOf(w1, f)
  {
    assert ServersOf(w2, f) == ServersOf(w1, f);
    if |ServersOf(w, f)| < w.fleets[f].body.spec.replicas {
      var names :| CV.Adds(w, w1, f, names) && |names| == w.fleets[f].body.spec.replicas - |ServersOf(w, f)|;
      assert CV.Adds(w, w2, f, names);
    }
  }

  method ScaleServerCount(c: Store, f: Name, fleet: Fleet, n: nat, faulty: bool) returns (err: bool)
    requires c.Reconciling(OfFleet(f)) && f in c.fleets && c.fleets[f] == fleet
    requires n == |ServersOf(c.View(), f)| && n != fleet.body.spec.replicas
    requires FPc(c.Now(), f) ==
      if n < fleet.body.spec.replicas then FCreate(fleet, fleet.body.spec.replicas - n) else FChoose(fleet)
    modifies c
    ensures c.Reconciling(OfFleet(f)) && c.begun == old(c.begun)
    ensures FPc(c.Now(), f) == if err then FIdle else FRecount(fleet)
    ensures c.fleets == old(c.fleets)
    ensures !faulty ==> (err <==> !CanScale(old(c.View()), f))
    ensures !err ==> CV.Scaled(old(c.View()), c.View(), f)
  {
    if n < fleet.body.spec.replicas {
      err := ScaleUp(c, f, fleet, fleet.body.spec.replicas - n, faulty);
    } else {
      err := ScaleDown(c, f, fleet, faulty);
    }
  }

  method ScaleUp(c: Store, f: Name, fleet: Fleet, needed: nat, faulty: bool) returns (err: bool)
    requires c.Reconciling(OfFleet(f)) && f in c.fleets && c.fleets[f] == fleet
    requires FPc(c.Now(), f) == FCreate(fleet, needed)
    modifies c
    ensures c.Reconciling(OfFleet(f)) && c.begun == old(c.begun)
    ensures FPc(c.Now(), f) == if err then FIdle else FRecount(fleet)
    ensures c.fleets == old(c.fleets)
    ensures !err ==> exists names :: CV.Adds(old(c.View()), c.View(), f, names) && |names| == needed
    ensures !faulty && needed > 0 ==> (err <==> !ValidServer(DefaultServer(fleet.body.spec.server)))
  {
    ghost var names;
    err, names := CreateMissing(c, f, fleet, needed, faulty);
    if !err {
      c.LogFleet(f, Plain(true, []));
    }
  }

  method CreateMissing(c: Store, f: Name, fleet: Fleet, needed: nat, faulty: bool)
    returns (err: bool, ghost names: set<Name>)
    requires c.Reconciling(OfFleet(f)) && f in c.fleets && c.fleets[f] == fleet
    requires FPc(c.Now(), f) == FCreate(fleet, needed)
    modifies c
    ensures c.Reconciling(OfFleet(f)) && c.begun == old(c.begun) && c.fleets == old(c.fleets)
    ensures FPc(c.Now(), f) == if err then FIdle else FCreate(fleet, 0)
    ensures !err ==> CV.Adds(old(c.View()), c.View(), f, names) && |names| == needed
    ensures !faulty && needed > 0 ==> (err <==> !ValidServer(DefaultServer(fleet.body.spec.server)))
  {
    ghost var w := c.View();
    CV.AddsNone(w, f);
    names := {};
    err := false;
    for i := 0 to needed
      invariant !err && Creating(c, f, fleet, needed - i, w, names) && |names| == i
      invariant c.begun == old(c.begun)
      invariant i > 0 ==> ValidServer(DefaultServer(fleet.body.spec.server))
    {
      var name;
      err, name := AddOne(c, f, fleet, needed - i, faulty, w, names);
      if err {
        return;
      }
      names := names + {name};
    }
  }

  /** The pass has created `names` since `w` and has `left` servers to go. */
  ghost predicate Creating(c: Store, f: Name, fleet: Fleet, left: nat, w: World, names: set<Name>)
    reads c
  {
    && c.Reconciling(OfFleet(f)) && FPc(c.Now(), f) == FCreate(fleet, left)
    && f in w.fleets && w.fleets[f] == fleet && c.fleets == w.fleets && CV.Adds(w, c.View(), f, names)
  }

  method AddOne(c: Store, f: Name, fleet: Fleet, left: nat, faulty: bool, ghost w: World, ghost names: set<Name>)
    returns (err: bool, name: Name)
    requires Creating(c, f, fleet, left, w, names) && left > 0
    modifies c
    ensures c.begun == old(c.begun) && c.fleets == old(c.fleets)
    ensures err ==> c.Reconciling(OfFleet(f)) && FPc(c.Now(), f) == FIdle
    ensures !err ==> Creating(c, f, fleet, left - 1, w, names + {name}) && |names + {name}| == |names| + 1
    ensures !err ==> ValidServer(DefaultServer(fleet.body.spec.server))
    ensures !faulty ==> (err <==> !ValidServer(DefaultServer(fleet.body.spec.server)))
  {
    ghost var before := c.View();
    err, name := CreateOne(c, f, fleet, left, faulty);
    if !err {
      CV.AddsOneMore(w, before, c.View(), f, names, name);
    }
  }

  method CreateOne(c: Store, f: Name, fleet: Fleet, left: nat, faulty: bool) returns (err: bool, name: Name)
    requires c.Reconciling(OfFleet(f)) && FPc(c.Now(), f) == FCreate(fleet, left) && left > 0
    modifies c
    ensures c.Reconciling(OfFleet(f)) && c.begun == old(c.begun)
    ensures FPc(c.Now(), f) == if err then FIdle else FCreate(fleet, left - 1)
    ensures err ==> c.View() == old(c.View())
    ensures !err ==> name !in old(c.servers) && c.View() == CreateServer(old(c.View()), f, fleet, name)
    ensures !err ==> ValidServer(DefaultServer(fleet.body.spec.server))
    ensures !faulty ==> (err <==> !ValidServer(DefaultServer(fleet.body.spec.server)))
  {
    name := c.GenerateName(c.servers.Keys, faulty);
    var ok := c.Succeeds(faulty);
    ok := ok && name !in c.servers && ValidServer(DefaultServer(fleet.body.spec.server));
    if ok {
      c.CreateServerFor(f, fleet, name);
    }
    c.LogFleet(f, Answer(ok, [], name, []));
    err := !ok;
  }

  /**
   The permission checker, asked about each server in turn if the fleet wants that; `reach` are
   the servers whose sidecars answer.
   */
  method CheckAll(c: Store, items: seq<V.Candidate>, ask: bool, reach: set<Name>) returns (checks: seq<V.Answer>)
    ensures |checks| == |items|
    ensures ask ==> checks == Checks(c.View(), items, reach)
    ensures !ask ==> V.CheckFailed !in checks
  {
    checks := [];
    for i := 0 to |items|
      invariant |checks| == i
      invariant forall j :: 0 <= j < i ==>
        checks[j] == if ask then FleetCheck(c.View(), items[j].name, items[j].name in reach) else V.Denied
    {
      var answer := V.Denied;
      if ask {
        answer := IsDeleteAllowed(c, items[i].name, items[i].name in reach);
      }
      checks := checks + [answer];
    }
  }

  method IsDeleteAllowed(c: Store, k: Name, reach: bool) returns (answer: V.Answer)
    ensures answer == FleetCheck(c.View(), k, reach)
    ensures answer == V.CheckFailed <==> k !in c.pods
    ensures answer == V.Allowed <==> k in c.pods && reach && SidecarOf(c.View(), c.pods[k].meta.uid).deleteAllowed
  {
    if k !in c.pods {
      return V.CheckFailed;
    }
    var allowed := c.AskPermission(c.pods[k].meta.uid);
    return if reach && allowed then V.Allowed else V.Denied;
  }

  method ScaleDown(c: Store, f: Name, fleet: Fleet, faulty: bool) returns (err: bool)
    requires c.Reconciling(OfFleet(f)) && f in c.fleets && c.fleets[f] == fleet
    requires FPc(c.Now(), f) == FChoose(fleet) && |ServersOf(c.View(), f)| > fleet.body.spec.replicas
    modifies c
    ensures c.Reconciling(OfFleet(f)) && c.begun == old(c.begun)
    ensures FPc(c.Now(), f) == if err then FIdle else FRecount(fleet)
    ensures c.fleets == old(c.fleets)
    ensures !faulty ==> (err <==> !CanChoose(old(c.View()), f))
    ensures !err ==> CV.Scaled(old(c.View()), c.View(), f)
  {
    var v;
    ghost var w := c.View();
    err, v := ChooseVictim(c, f, fleet, faulty);
    assert c.View() == w;
    if err {
      return;
    }
    CV.VictimIsMember(w, f, v);
    err := DeleteVictim(c, f, fleet, v, faulty);
    if !err {
      ScaledByVictim(w, c.View(), f, v);
    }
  }

  method DeleteVictim(c: Store, f: Name, fleet: Fleet, v: Name, faulty: bool) returns (err: bool)
    requires c.Reconciling(OfFleet(f)) && FPc(c.Now(), f) == FDelete(fleet, v) && v in c.servers
    modifies c
    ensures c.Reconciling(OfFleet(f)) && c.begun == old(c.begun)
    ensures FPc(c.Now(), f) == if err then FIdle else FRecount(fleet)
    ensures c.View() == if err then old(c.View())
                        else old(c.View()).(servers := Api.Delete(old(c.servers), v, c.clock))
    ensures !faulty ==> !err
  {
    var ok := c.Succeeds(faulty);
    if ok {
      c.DeleteServer(v);
    }
    c.LogFleet(f, Plain(ok, []));
    err := !ok;
  }

  method ChooseVictim(c: Store, f: Name, fleet: Fleet, faulty: bool) returns (err: bool, v: Name)
    requires c.Reconciling(OfFleet(f)) && f in c.fleets && c.fleets[f] == fleet
    requires FPc(c.Now(), f) == FChoose(fleet)
    modifies c`run
    ensures c.Reconciling(OfFleet(f))
    ensures FPc(c.Now(), f) == if err then FIdle else FDelete(fleet, v)
    ensures !err ==> CV.IsVictim(c.View(), f, v)
    ensures !faulty ==> (err <==> !CanChoose(c.View(), f))
  {
    v := "";
    var ok, order := GetServers(c, f, faulty);
    if !ok {
      return true, v;
    }
    var pick, checks := Pick(c, f, fleet, order);
    c.LogFleet(f, Answer(true, [], "", checks));
    if !pick.Picked? {
      return true, v;
    }
    v := pick.server.name;
    err := false;
  }

  /** The choice among the listed servers. */
  method Pick(c: Store, f: Name, fleet: Fleet, order: seq<Name>) returns (pick: V.Pick, checks: seq<V.Answer>)
    requires f in c.fleets && c.fleets[f] == fleet && IsListing(order, ServersOf(c.View(), f))
    ensures |checks| == |order|
    ensures pick == V.FindDeleteServer(fleet.body.spec, WithChecks(Items(c.View(), order), checks))
    ensures pick.Picked? <==> CanChoose(c.View(), f)
    ensures pick.Picked? ==> CV.IsVictim(c.View(), f, pick.server.name)
  {
    var items := ItemsOf(c, order);
    var reach: set<Name> := *;
    checks := CheckAll(c, items, fleet.body.spec.prioritizeAllowed, reach);
    pick := FindDeleteServer(fleet.body.spec, WithChecks(items, checks));
    PickedIffChoosable(c.View(), f, order, checks);
    if !fleet.body.spec.prioritizeAllowed {
      CV.UnaskedPick(fleet.body.spec, items, checks, Checks(c.View(), items, reach));
    }
    if pick.Picked? {
      CV.VictimBy(c.View(), f, order, reach, pick.server.name);
    }
  }

  lemma PickedIffChoosable(w: World, f: Name, order: seq<Name>, checks: seq<V.Answer>)
    requires f in w.fleets && IsListing(order, ServersOf(w, f)) && |checks| == |order|
    requires forall i :: 0 <= i < |order| ==>
      (checks[i] == V.CheckFailed <==> w.fleets[f].body.spec.prioritizeAllowed && order[i] !in w.pods)
    ensures V.FindDeleteServer(w.fleets[f].body.spec, WithChecks(Items(w, order), checks)).Picked?
            <==> CanChoose(w, f)
  {
    var spec := w.fleets[f].body.spec;
    var asked := WithChecks(Items(w, order), checks);
    ListingSize(order, ServersOf(w, f));
    L.StrategyIffValid(spec, asked);
    V.VictimIsExtreme(asked, false, spec.prioritizeAllowed);
    V.VictimIsExtreme(asked, true, spec.prioritizeAllowed);
    if spec.prioritizeAllowed {
      S.FailedIffPodMissing(w, f, order, checks);
    }
  }

  method FindDeleteServer(spec: FleetSpec, servers: seq<V.Candidate>) returns (pick: V.Pick)
    ensures pick == V.FindDeleteServer(spec, servers)
    ensures pick.Picked? && spec.agePriority == "oldest_first" ==>
      exists i :: 0 <= i < |servers| && V.IsOldestOf(servers, spec.prioritizeAllowed, i) && pick.server == servers[i]
    ensures pick.Picked? && spec.agePriority == "newest_first" ==>
      exists i :: 0 <= i < |servers| && V.IsNewestOf(servers, spec.prioritizeAllowed, i) && pick.server == servers[i]
  {
    if V.FindDeleteServer(spec, servers).Picked? {
      V.PriorityDecides(spec, servers);
    }
    if spec.agePriority == OLDEST_FIRST {
      pick := V.GetOldestServer(servers, spec.prioritizeAllowed);
    } else if spec.agePriority == NEWEST_FIRST {
      pick := V.GetNewestServer(servers, spec.prioritizeAllowed);
    } else {
      pick := V.BadStrategy;
    }
  }

  method ItemsOf(c: Store, order: seq<Name>) returns (items: seq<V.Candidate>)
    requires forall n :: n in order ==> n in c.servers
    ensures items == Items(c.View(), order)
  {
    items := [];
    for i := 0 to |order|
      invariant |items| == i
      invariant forall j :: 0 <= j < i ==>
        items[j] == V.Candidate(order[j], c.servers[order[j]].meta.created, V.Denied)
    {
      items := items + [V.Candidate(order[i], c.servers[order[i]].meta.created, V.Denied)];
    }
  }

  // ---------------------------------------------------------------- deletion

  method HandleDeletion(c: Store, f: Name, fleet: Fleet, faulty: bool) returns (err: bool)
    requires c.Reconciling(OfFleet(f)) && FPc(c.Now(), f) == FDrain(fleet)
    requires f in c.fleets && c.fleets[f] == fleet && Deleting(fleet)
    modifies c
    ensures c.Reconciling(OfFleet(f)) && FPc(c.Now(), f) == FIdle && c.begun == old(c.begun)
    ensures !err ==> D.FleetDrainPass(old(c.View()), c.View(), f)
    ensures !faulty ==> !err
  {
    var ok, order := GetServers(c, f, faulty);
    if !ok {
      return true;
    }
    err := DeleteEach(c, f, fleet, order, faulty);
    if err {
      return true;
    }
    assert D.Names(order) == ServersOf(old(c.View()), f);
    err := FinishDeletion(c, f, fleet, faulty);
  }

  /** Lists the servers again and, if none is left, lets the fleet go. */
  method FinishDeletion(c: Store, f: Name, fleet: Fleet, faulty: bool) returns (err: bool)
    requires c.Reconciling(OfFleet(f)) && FPc(c.Now(), f) == FDrained(fleet)
    requires f in c.fleets && c.fleets[f] == fleet
    modifies c
    ensures c.Reconciling(OfFleet(f)) && FPc(c.Now(), f) == FIdle && c.begun == old(c.begun)
    ensures c.servers == old(c.servers) && c.games == old(c.games)
    ensures !err ==> c.fleets == if ServersOf(c.View(), f) == {}
                                 then Put(old(c.fleets), f, WithoutFinalizer(fleet, FLEET_FINALIZER)) else old(c.fleets)
    ensures !faulty ==> !err
  {
    var ok, order := GetServers(c, f, faulty);
    if !ok {
      return true;
    }
    assert ServersOf(c.View(), f) == ServersOf(old(c.View()), f);
    err := false;
    if |order| == 0 {
      err := Save(c, f, fleet, WithoutFinalizer(fleet, FLEET_FINALIZER), faulty);
      assert ServersOf(c.View(), f) == ServersOf(old(c.View()), f);
    }
  }

  method DeleteEach(c: Store, f: Name, fleet: Fleet, order: seq<Name>, faulty: bool) returns (err: bool)
    requires c.Reconciling(OfFleet(f)) && FPc(c.Now(), f) == FDrainEach(fleet, order)
    requires IsListing(order, ServersOf(c.View(), f))
    modifies c
    ensures c.Reconciling(OfFleet(f)) && c.begun == old(c.begun)
    ensures FPc(c.Now(), f) == if err then FIdle else FDrained(fleet)
    ensures c.fleets == old(c.fleets) && c.games == old(c.games) && c.clock == old(c.clock)
    ensures !err ==> c.servers == D.DeleteAll(old(c.servers), D.Names(order), c.clock)
    ensures !faulty ==> !err
  {
    assert D.DeleteAll(c.servers, {}, c.clock) == c.servers;
    for i := 0 to |order|
      invariant c.Reconciling(OfFleet(f)) && c.begun == old(c.begun)
      invariant FPc(c.Now(), f) == FDrainEach(fleet, order[i..])
      invariant c.fleets == old(c.fleets) && c.games == old(c.games) && c.clock == old(c.clock)
      invariant c.servers == D.DeleteAll(old(c.servers), D.Names(order[..i]), c.clock)
    {
      D.DeleteNext(old(c.servers), order, i, c.clock);
      assert order[i..][1..] == order[i + 1..];
      err := DeleteOne(c, f, fleet, order[i..], faulty);
      if err {
        return true;
      }
    }
    assert order[..|order|] == order;
    c.LogFleet(f, Plain(true, []));
    err := false;
  }

  method DeleteOne(c: Store, f: Name, fleet: Fleet, todo: seq<Name>, faulty: bool) returns (err: bool)
    requires c.Reconciling(OfFleet(f)) && FPc(c.Now(), f) == FDrainEach(fleet, todo)
    requires todo != [] && todo[0] in c.servers
    modifies c
    ensures c.Reconciling(OfFleet(f)) && c.begun == old(c.begun)
    ensures FPc(c.Now(), f) == if err then FIdle else FDrainEach(fleet, todo[1..])
    ensures c.View() == if err then old(c.View())
                        else old(c.View()).(servers := Api.Delete(old(c.servers), todo[0], c.clock))
    ensures !faulty ==> !err
  {
    var ok := c.Succeeds(faulty);
    if ok {
      c.DeleteServer(todo[0]);
    }
    c.LogFleet(f, Plain(ok, []));
    err := !ok;
  }
}
