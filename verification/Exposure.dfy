/**
 Which servers of a standing fleet the operator can wedge by itself. A scale-down pass that does
 not ask for permission marks servers whether they have a pod or not, and a server that is marked
 before it has its pod is never released. This says exactly which servers such passes can reach.
 */
module Exposure {
  import opened Api
  import opened Admission
  import opened Machine
  import opened Lifecycle
  import opened Scaling
  import opened Schedules
  import opened FleetCompletion
  import V = Victims
  import SF = ServerFate
  import T = Teardown

  // ---------------------------------------------------------------- what protects a server

  /** Whether server `u` comes strictly before `k` by the fleet's age priority. */
  predicate Earlier(w: World, spec: FleetSpec, u: Name, k: Name)
    requires u in w.servers && k in w.servers
  {
    V.Before(Newest(spec), w.servers[u].meta.created, w.servers[k].meta.created)
  }

  /** Everything that does not come strictly before `u`. */
  function FromOn(w: World, f: Name, spec: FleetSpec, u: Name): set<Name>
    requires u in w.servers
  {
    set x | x in ServersOf(w, f) && !Earlier(w, spec, x, u)
  }

  /** A live server before `k` that itself has no more than the target from it on. */
  ghost predicate Shields(w: World, f: Name, spec: FleetSpec, u: Name, k: Name)
    requires k in w.servers
  {
    u in Live(w, f) && Earlier(w, spec, u, k) && |FromOn(w, f, spec, u)| <= spec.replicas
  }

  /** No pass gets as far as `k`: the count is within the target, or a server before `k` shields it. */
  ghost predicate OutOfReach(w: World, f: Name, spec: FleetSpec, k: Name)
    requires k in w.servers
  {
    |ServersOf(w, f)| <= spec.replicas || exists u :: Shields(w, f, spec, u, k)
  }

  /** What a worker in the middle of a pass must not have in hand for `k` to be safe from it. */
  ghost predicate Spared(w: World, pc: FleetPc, f: Name, spec: FleetSpec, k: Name)
    requires k in w.servers
  {
    match pc
    case FChoose(o) => spec.prioritizeAllowed || exists u :: u in Live(w, f) && Earlier(w, spec, u, k)
    case FPick(o, items) =>
      if spec.prioritizeAllowed then exists c :: c in items && c.name == k
      else exists c :: c in items && V.Before(Newest(spec), c.created, w.servers[k].meta.created)
    case FDelete(o, v) => v != k
    case _ => true
  }

  /** A server that has its pod, or cannot be marked before it has. */
  ghost predicate Safe(w: World, pc: FleetPc, f: Name, spec: FleetSpec, k: Name)
    requires k in w.servers
  {
    || k in w.pods
    || (k in Live(w, f) && (spec.prioritizeAllowed || OutOfReach(w, f, spec, k)) && Spared(w, pc, f, spec, k))
  }

  ghost predicate AllSafe(w: World, pc: FleetPc, f: Name, spec: FleetSpec) {
    forall k :: k in ServersOf(w, f) ==> Safe(w, pc, f, spec, k)
  }

  ghost predicate AgesMatch(w: World, f: Name, items: seq<V.Candidate>) {
    forall c :: c in items && c.name in ServersOf(w, f) ==> c.created == w.servers[c.name].meta.created
  }

  /** The fleet stands with this spec, and its worker goes by it. */
  ghost predicate Sound(w: World, pc: FleetPc, f: Name, spec: FleetSpec) {
    && f in w.fleets && !Deleting(w.fleets[f]) && w.fleets[f].body.spec == spec
    && match pc
       case FCount(o) => o.body.spec == spec
       case FCreate(o, left) => |ServersOf(w, f)| + left <= spec.replicas
       case FChoose(o) => o.body.spec == spec
       case FPick(o, items) => o.body.spec == spec && Covers(w, f, items) && AgesMatch(w, f, items)
       case FDelete(o, v) =>
         spec.prioritizeAllowed || (v in ServersOf(w, f) ==> forall x :: x in ServersOf(w, f) ==> !Earlier(w, spec, x, v))
       case FDrain(o) => false
       case FDrainEach(o, todo) => false
       case FDrained(o) => false
       case FRemoveFinalizer(o) => false
       case _ => true
  }

  // ---------------------------------------------------------------- servers go

  /** Terminating servers of the fleet go, live ones stay, and no pod goes. */
  ghost predicate Thins(w: World, w': World, f: Name) {
    && SeenByFleet(w, w', f) && Live(w', f) == Live(w, f) && forall k :: k in w.pods ==> k in w'.pods
  }

  lemma ThinsOutOfReach(w: World, w': World, f: Name, spec: FleetSpec, k: Name)
    requires Thins(w, w', f) && k in ServersOf(w', f) && k in w.servers && OutOfReach(w, f, spec, k)
    ensures OutOfReach(w', f, spec, k)
  {
    assert ServersOf(w', f) <= ServersOf(w, f);
    SubsetSize(ServersOf(w', f), ServersOf(w, f));
    if u :| Shields(w, f, spec, u, k) {
      assert u in Live(w', f);
      assert FromOn(w', f, spec, u) <= FromOn(w, f, spec, u);
      SubsetSize(FromOn(w', f, spec, u), FromOn(w, f, spec, u));
      assert Shields(w', f, spec, u, k);
    }
  }

  lemma ThinsSafe(w: World, w': World, pc: FleetPc, f: Name, spec: FleetSpec)
    requires Thins(w, w', f) && AllSafe(w, pc, f, spec) && Sound(w, pc, f, spec) && w'.fleets == w.fleets
    ensures AllSafe(w', pc, f, spec) && Sound(w', pc, f, spec)
  {
    assert ServersOf(w', f) <= ServersOf(w, f);
    SubsetSize(ServersOf(w', f), ServersOf(w, f));
    forall k | k in ServersOf(w', f) ensures Safe(w', pc, f, spec, k) {
      assert k in ServersOf(w, f) && Safe(w, pc, f, spec, k);
      if k !in w.pods {
        assert k in Live(w', f);
        if !spec.prioritizeAllowed {
          ThinsOutOfReach(w, w', f, spec, k);
          if pc.FChoose? {
            var u :| u in Live(w, f) && Earlier(w, spec, u, k);
            assert u in Live(w', f) && Earlier(w', spec, u, k);
          }
        }
      }
    }
  }

  lemma ServerCallThins(s: State, j: Name, ok: bool, f: Name)
    requires Inv(s)
    ensures Thins(s.w, Next(s, ServerCall(j, ok)).w, f)
    ensures Next(s, ServerCall(j, ok)).w.fleets == s.w.fleets
  {
    var w' := ServerNext(s.w, j, SPc(s, j), ok).0;
    assert ServerInv(s.w, j, SPc(s, j));
    ServerStepSeen(s.w, j, SPc(s, j), ok, w');
    SF.StepIsLocal(s.w, j, SPc(s, j), ok);
    T.ServerKeepsPods(s.w, j, SPc(s, j), ok);
    ServerCallKeepsLive(s.w, j, SPc(s, j), ok, f);
  }

  lemma ServerCallKeepsLive(w: World, j: Name, pc: ServerPc, ok: bool, f: Name)
    requires ServerInv(w, j, pc) && SeenByFleet(w, ServerNext(w, j, pc, ok).0, f)
    ensures Live(ServerNext(w, j, pc, ok).0, f) == Live(w, f)
  {
    var w' := ServerNext(w, j, pc, ok).0;
    forall k | k in Live(w, f) ensures k in Live(w', f) {
      LiveStays(w, j, pc, ok, k);
    }
    forall k | k in Live(w', f) ensures k in Live(w, f) {
      assert k in ServersOf(w, f);
    }
  }

  lemma LiveStays(w: World, j: Name, pc: ServerPc, ok: bool, k: Name)
    requires ServerInv(w, j, pc) && k in w.servers && !Deleting(w.servers[k])
    ensures var w' := ServerNext(w, j, pc, ok).0;
      && k in w'.servers && !Deleting(w'.servers[k])
      && SameLabel(w'.servers[k], w.servers[k], "fleet")
  {}

  // ---------------------------------------------------------------- the worker's own calls

  lemma SameServersSafe(w: World, w': World, pc: FleetPc, pc': FleetPc, f: Name, spec: FleetSpec)
    requires AllSafe(w, pc, f, spec) && w'.servers == w.servers && w'.pods == w.pods
    requires !pc'.FChoose? && !pc'.FPick? && !pc'.FDelete?
    ensures AllSafe(w', pc', f, spec)
  {
    assert ServersOf(w', f) == ServersOf(w, f);
    forall k | k in ServersOf(w', f) ensures Safe(w', pc', f, spec, k) {
      assert Safe(w, pc, f, spec, k);
      assert Live(w', f) == Live(w, f);
      if u :| Shields(w, f, spec, u, k) {
        assert FromOn(w', f, spec, u) == FromOn(w, f, spec, u);
        assert Shields(w', f, spec, u, k);
      }
    }
  }

  /** A pass is begun only above the target, where whoever is out of reach has a live server before it. */
  lemma CountSafe(w: World, f: Name, o: Fleet, a: Answer, spec: FleetSpec)
    requires Sound(w, FCount(o), f, spec) && AllSafe(w, FCount(o), f, spec)
    ensures var (w', pc') := FleetNext(w, f, FCount(o), a);
            Sound(w', pc', f, spec) && AllSafe(w', pc', f, spec)
  {
    var (w', pc') := FleetNext(w, f, FCount(o), a);
    if Lists(w, f, a) {
      ListingSize(a.order, ServersOf(w, f));
    }
    if pc'.FChoose? {
      forall k | k in ServersOf(w, f) ensures Safe(w, pc', f, spec, k) {
        assert Safe(w, FCount(o), f, spec, k);
        if k !in w.pods && !spec.prioritizeAllowed {
          var u :| Shields(w, f, spec, u, k);
          assert u in Live(w, f) && Earlier(w, spec, u, k);
        }
      }
    } else {
      SameServersSafe(w, w', FCount(o), pc', f, spec);
    }
  }

  lemma CreateSafe(w: World, f: Name, o: Fleet, left: nat, a: Answer, spec: FleetSpec)
    requires Sound(w, FCreate(o, left), f, spec) && AllSafe(w, FCreate(o, left), f, spec)
    ensures var (w', pc') := FleetNext(w, f, FCreate(o, left), a);
            Sound(w', pc', f, spec) && AllSafe(w', pc', f, spec)
  {
    var (w', pc') := FleetNext(w, f, FCreate(o, left), a);
    if w' != w {
      CreateGrows(w, f, o, a.name);
      forall k | k in ServersOf(w', f) ensures Safe(w', pc', f, spec, k) {
        if k != a.name {
          assert Safe(w, FCreate(o, left), f, spec, k);
        }
      }
    } else {
      SameServersSafe(w, w', FCreate(o, left), pc', f, spec);
    }
  }

  lemma ChooseSafe(w: World, f: Name, o: Fleet, a: Answer, spec: FleetSpec)
    requires Sound(w, FChoose(o), f, spec) && AllSafe(w, FChoose(o), f, spec)
    ensures var (w', pc') := FleetNext(w, f, FChoose(o), a);
            Sound(w', pc', f, spec) && AllSafe(w', pc', f, spec)
  {
    var (w', pc') := FleetNext(w, f, FChoose(o), a);
    if Lists(w, f, a) {
      var items := Items(w, a.order);
      ListedAll(w, f, a.order);
      forall k | k in ServersOf(w, f) ensures Safe(w, pc', f, spec, k) {
        assert Safe(w, FChoose(o), f, spec, k);
        if k !in w.pods {
          ListedSpared(w, f, o, items, spec, k);
        }
      }
    } else {
      SameServersSafe(w, w', FChoose(o), pc', f, spec);
    }
  }

  lemma ListedSpared(w: World, f: Name, o: Fleet, items: seq<V.Candidate>, spec: FleetSpec, k: Name)
    requires k in ServersOf(w, f) && Covers(w, f, items) && Spared(w, FChoose(o), f, spec, k)
    ensures Spared(w, FPick(o, items), f, spec, k)
  {
    assert V.Candidate(k, w.servers[k].meta.created, V.Denied) in items;
    if !spec.prioritizeAllowed {
      var u :| u in Live(w, f) && Earlier(w, spec, u, k);
      assert V.Candidate(u, w.servers[u].meta.created, V.Denied) in items;
    }
  }

  lemma ListedAll(w: World, f: Name, order: seq<Name>)
    requires IsListing(order, ServersOf(w, f))
    ensures Covers(w, f, Items(w, order))
    ensures forall c :: c in Items(w, order) ==> c.name in w.servers && c.created == w.servers[c.name].meta.created
  {
    var items := Items(w, order);
    forall u | u in ServersOf(w, f) ensures V.Candidate(u, w.servers[u].meta.created, V.Denied) in items {
      var i :| 0 <= i < |order| && order[i] == u;
      assert items[i] in items;
    }
    forall c | c in items ensures c.name in w.servers && c.created == w.servers[c.name].meta.created {
      var i :| 0 <= i < |items| && items[i] == c;
      assert order[i] in order;
    }
  }

  /** Asking, a missing pod ends the pass; not asking, the pick is first by age among the listed. */
  lemma PickSafe(w: World, f: Name, o: Fleet, items: seq<V.Candidate>, a: Answer, spec: FleetSpec)
    requires Sound(w, FPick(o, items), f, spec) && AllSafe(w, FPick(o, items), f, spec)
    requires HonestAnswer(w, FPick(o, items), a)
    ensures var (w', pc') := FleetNext(w, f, FPick(o, items), a);
            Sound(w', pc', f, spec) && AllSafe(w', pc', f, spec)
  {
    var (w', pc') := FleetNext(w, f, FPick(o, items), a);
    if pc'.FDelete? {
      var asked := WithChecks(items, a.checks);
      var pick := V.FindDeleteServer(spec, asked);
      var v := pick.server.name;
      V.VictimIsAnExtreme(asked, Newest(spec), spec.prioritizeAllowed);
      V.VictimIsExtreme(asked, Newest(spec), spec.prioritizeAllowed);
      if spec.prioritizeAllowed {
        AskedPick(w, f, o, items, a, spec);
      } else {
        FirstByAge(w, f, items, a.checks, spec, pick.server);
      }
      forall k | k in ServersOf(w, f) ensures Safe(w, pc', f, spec, k) {
        assert Safe(w, FPick(o, items), f, spec, k);
        if k !in w.pods && !spec.prioritizeAllowed {
          NotPicked(w, f, items, a.checks, spec, pick.server, k);
        }
      }
    } else {
      SameServersSafe(w, w', FPick(o, items), pc', f, spec);
    }
  }

  lemma AskedPick(w: World, f: Name, o: Fleet, items: seq<V.Candidate>, a: Answer, spec: FleetSpec)
    requires spec.prioritizeAllowed && o.body.spec == spec && HonestAnswer(w, FPick(o, items), a)
    requires |a.checks| == |items| && V.FindDeleteServer(spec, WithChecks(items, a.checks)).Picked?
    ensures forall c :: c in items ==> c.name in w.pods
    ensures forall k :: k in w.servers && Spared(w, FPick(o, items), f, spec, k) && k !in w.pods ==> false
  {
    var asked := WithChecks(items, a.checks);
    V.VictimIsExtreme(asked, Newest(spec), true);
    var reach :| a.checks == Checks(w, items, reach);
    forall c | c in items ensures c.name in w.pods {
      var i :| 0 <= i < |items| && items[i] == c;
      assert asked[i].answer != V.CheckFailed;
    }
  }

  /** The pick comes from the list, and nothing listed is before it. */
  lemma FirstByAge(w: World, f: Name, items: seq<V.Candidate>, checks: seq<V.Answer>, spec: FleetSpec, c: V.Candidate)
    requires !spec.prioritizeAllowed && |checks| == |items| && Covers(w, f, items)
    requires V.FindDeleteServer(spec, WithChecks(items, checks)) == V.Picked(c)
    ensures forall d :: d in items ==> !V.Before(Newest(spec), d.created, c.created)
    ensures exists d :: d in items && d.name == c.name && d.created == c.created
    ensures c.name in ServersOf(w, f) && c.created == w.servers[c.name].meta.created ==>
      forall x :: x in ServersOf(w, f) ==> !Earlier(w, spec, x, c.name)
  {
    var asked := WithChecks(items, checks);
    V.VictimIsAnExtreme(asked, Newest(spec), false);
    forall d | d in items ensures !V.Before(Newest(spec), d.created, c.created) {
      var i :| 0 <= i < |items| && items[i] == d;
      assert asked[i] in asked && V.InPool(false, asked[i]);
    }
    var i :| 0 <= i < |asked| && asked[i] == c;
    assert items[i] in items;
    forall x | c.name in ServersOf(w, f) && c.created == w.servers[c.name].meta.created && x in ServersOf(w, f)
      ensures !Earlier(w, spec, x, c.name)
    {
      assert V.Candidate(x, w.servers[x].meta.created, V.Denied) in items;
    }
  }

  lemma NotPicked(w: World, f: Name, items: seq<V.Candidate>, checks: seq<V.Answer>, spec: FleetSpec,
                  c: V.Candidate, k: Name)
    requires !spec.prioritizeAllowed && |checks| == |items| && Covers(w, f, items) && k in w.servers
    requires V.FindDeleteServer(spec, WithChecks(items, checks)) == V.Picked(c)
    requires exists d :: d in items && V.Before(Newest(spec), d.created, w.servers[k].meta.created)
    requires k in ServersOf(w, f) && AgesMatch(w, f, items)
    ensures c.name != k
  {
    FirstByAge(w, f, items, checks, spec, c);
  }

  lemma DeleteOutOfReach(w: World, w': World, f: Name, spec: FleetSpec, v: Name, k: Name)
    requires v in ServersOf(w, f) && w' == w.(servers := Api.Delete(w.servers, v, w.clock)) && v != k
    requires forall x :: x in ServersOf(w, f) ==> !Earlier(w, spec, x, v)
    requires k in ServersOf(w, f) && OutOfReach(w, f, spec, k)
    ensures k in w'.servers && OutOfReach(w', f, spec, k)
  {
    DeleteMember(w, w', f, v);
    assert ServersOf(w', f) <= ServersOf(w, f);
    SubsetSize(ServersOf(w', f), ServersOf(w, f));
    if u :| Shields(w, f, spec, u, k) {
      if u == v {
        assert FromOn(w, f, spec, u) == ServersOf(w, f);
      } else {
        assert u in Live(w', f);
        assert FromOn(w', f, spec, u) <= FromOn(w, f, spec, u);
        SubsetSize(FromOn(w', f, spec, u), FromOn(w, f, spec, u));
        assert Shields(w', f, spec, u, k);
      }
    }
  }

  lemma DeleteSafe(w: World, f: Name, o: Fleet, v: Name, a: Answer, spec: FleetSpec)
    requires Sound(w, FDelete(o, v), f, spec) && AllSafe(w, FDelete(o, v), f, spec)
    ensures var (w', pc') := FleetNext(w, f, FDelete(o, v), a);
            Sound(w', pc', f, spec) && AllSafe(w', pc', f, spec)
  {
    var (w', pc') := FleetNext(w, f, FDelete(o, v), a);
    if w'.servers == w.servers {
      SameServersSafe(w, w', FDelete(o, v), pc', f, spec);
    } else if v !in ServersOf(w, f) {
      OutsiderSafe(w, w', FDelete(o, v), pc', f, spec, v);
    } else {
      DeleteMember(w, w', f, v);
      forall k | k in ServersOf(w', f) ensures Safe(w', pc', f, spec, k) {
        assert k in ServersOf(w, f) && Safe(w, FDelete(o, v), f, spec, k);
        if k !in w.pods && !spec.prioritizeAllowed {
          DeleteOutOfReach(w, w', f, spec, v, k);
        }
      }
    }
  }

  lemma OutsiderSafe(w: World, w': World, pc: FleetPc, pc': FleetPc, f: Name, spec: FleetSpec, v: Name)
    requires AllSafe(w, pc, f, spec) && v in w.servers && v !in ServersOf(w, f)
    requires w' == w.(servers := Api.Delete(w.servers, v, w.clock))
    requires !pc'.FChoose? && !pc'.FPick? && !pc'.FDelete?
    ensures AllSafe(w', pc', f, spec)
  {
    DeleteOutsider(w, w', f, v);
    forall k | k in ServersOf(w', f) ensures Safe(w', pc', f, spec, k) {
      assert Safe(w, pc, f, spec, k);
      if u :| Shields(w, f, spec, u, k) {
        assert FromOn(w', f, spec, u) == FromOn(w, f, spec, u);
        assert Shields(w', f, spec, u, k);
      }
    }
  }

  /** The remaining calls change no server and choose nobody. */
  lemma PlainSafe(w: World, f: Name, pc: FleetPc, a: Answer, spec: FleetSpec)
    requires Sound(w, pc, f, spec) && AllSafe(w, pc, f, spec)
    requires pc.FIdle? || pc.FAddFinalizer? || pc.FRecount? || pc.FSave?
    ensures var (w', pc') := FleetNext(w, f, pc, a);
            Sound(w', pc', f, spec) && AllSafe(w', pc', f, spec)
  {
    var (w', pc') := FleetNext(w, f, pc, a);
    PlainCall(w, f, pc, a, spec);
    SameServersSafe(w, w', pc, pc', f, spec);
  }

  lemma PlainCall(w: World, f: Name, pc: FleetPc, a: Answer, spec: FleetSpec)
    requires f in w.fleets && !Deleting(w.fleets[f]) && w.fleets[f].body.spec == spec
    requires pc.FIdle? || pc.FAddFinalizer? || pc.FRecount? || pc.FSave?
    ensures var (w', pc') := FleetNext(w, f, pc, a);
      && w'.servers == w.servers && w'.pods == w.pods && Sound(w', pc', f, spec)
      && !pc'.FChoose? && !pc'.FPick? && !pc'.FDelete?
  {}

  lemma OwnSafe(w: World, f: Name, pc: FleetPc, a: Answer, spec: FleetSpec)
    requires Sound(w, pc, f, spec) && AllSafe(w, pc, f, spec) && HonestAnswer(w, pc, a)
    ensures var (w', pc') := FleetNext(w, f, pc, a);
            Sound(w', pc', f, spec) && AllSafe(w', pc', f, spec)
  {
    match pc
    case FCount(o) => CountSafe(w, f, o, a, spec);
    case FCreate(o, left) => CreateSafe(w, f, o, left, a, spec);
    case FChoose(o) => ChooseSafe(w, f, o, a, spec);
    case FPick(o, items) => PickSafe(w, f, o, items, a, spec);
    case FDelete(o, v) => DeleteSafe(w, f, o, v, a, spec);
    case _ => PlainSafe(w, f, pc, a, spec);
  }

  // ---------------------------------------------------------------- safe for good

  ghost predicate Guarded(s: State, f: Name, spec: FleetSpec) {
    Inv(s) && Sound(s.w, FPc(s, f), f, spec) && AllSafe(s.w, FPc(s, f), f, spec)
  }

  lemma GuardedStep(s: State, a: Act, f: Name, spec: FleetSpec)
    requires Guarded(s, f, spec) && Own(a) && Honest(s, a) && !a.GameCall? && (a.FleetCall? ==> a.f == f)
    ensures Guarded(Next(s, a), f, spec)
  {
    NextKeepsInv(s, a);
    if a.FleetCall? {
      OwnSafe(s.w, f, FPc(s, f), a.a, spec);
    } else if a.ServerCall? {
      ServerCallThins(s, a.k, a.ok, f);
      ThinsSafe(s.w, Next(s, a).w, FPc(s, f), f, spec);
    } else {
      TickThins(s.w, a.e.d, f);
      ThinsSafe(s.w, Next(s, a).w, FPc(s, f), f, spec);
    }
  }

  lemma TickThins(w: World, d: nat, f: Name)
    ensures Thins(w, w.(clock := w.clock + d), f)
  {
    PodsUnnoticed(w, w.(clock := w.clock + d));
  }

  lemma {:induction false} GuardedStays(s: State, acts: seq<Act>, f: Name, spec: FleetSpec)
    requires Guarded(s, f, spec) && Schedule(s, acts) && Within(acts, f)
    ensures Guarded(Play(s, acts), f, spec)
    decreases |acts|
  {
    if acts != [] {
      assert acts[0] in acts;
      GuardedStep(s, acts[0], f, spec);
      GuardedStays(Next(s, acts[0]), acts[1..], f, spec);
    }
  }

  lemma GuardedUnwedged(s: State, f: Name, spec: FleetSpec)
    requires Guarded(s, f, spec)
    ensures Unwedged(s.w, f)
  {
    forall k | k in Terminating(s.w, f) ensures k in s.w.pods {
      assert Safe(s.w, FPc(s, f), f, spec, k);
    }
  }

  // ---------------------------------------------------------------- reaching a server

  /** Nothing comes strictly before `v`. */
  ghost predicate First(w: World, f: Name, spec: FleetSpec, v: Name) {
    v in ServersOf(w, f) && forall x :: x in ServersOf(w, f) ==> !Earlier(w, spec, x, v)
  }

  lemma {:induction false} SomeFirst(w: World, f: Name, spec: FleetSpec, names: set<Name>) returns (e: Name)
    requires names != {} && names <= ServersOf(w, f)
    ensures e in names && forall x :: x in names ==> !Earlier(w, spec, x, e)
    decreases |names|
  {
    var n :| n in names;
    if names == {n} {
      e := n;
    } else {
      var d := SomeFirst(w, f, spec, names - {n});
      e := if Earlier(w, spec, n, d) then n else d;
      forall x | x in names ensures !Earlier(w, spec, x, e) {
        if x != n {
          assert x in names - {n};
        }
      }
    }
  }

  function Before(w: World, f: Name, spec: FleetSpec, k: Name): set<Name>
    requires k in w.servers
  {
    set x | x in ServersOf(w, f) && Earlier(w, spec, x, k)
  }

  /** Without asking, a pass that lists a first server first marks it. */
  lemma MarksListedFirst(w: World, f: Name, v: Name) returns (answers: seq<Answer>)
    requires f in w.fleets && First(w, f, w.fleets[f].body.spec, v)
    requires !w.fleets[f].body.spec.prioritizeAllowed && ValidPriority(w.fleets[f].body.spec.agePriority)
    ensures HonestTurns(w, f, FChoose(w.fleets[f]), answers)
    ensures Turns(w, f, FChoose(w.fleets[f]), answers) ==
            (w.(servers := Api.Delete(w.servers, v, w.clock)), FRecount(w.fleets[f]))
  {
    var o := w.fleets[f];
    var rest := SomeListing(ServersOf(w, f) - {v});
    var order := [v] + rest;
    var items := Items(w, order);
    var checks := Checks(w, items, {});
    PicksListedFirst(w, f, order, checks);
    var a, p := Heard(order), Answer(true, [], "", checks);
    TurnThen(w, f, FChoose(o), [], a);
    assert Turns(w, f, FChoose(o), [] + [a]) == (w, FPick(o, items));
    TurnThen(w, f, FChoose(o), [] + [a], p);
    assert Turns(w, f, FChoose(o), [] + [a] + [p]) == (w, FDelete(o, v));
    TurnThen(w, f, FChoose(o), [] + [a] + [p], a);
    answers := [] + [a] + [p] + [a];
  }

  lemma PicksListedFirst(w: World, f: Name, order: seq<Name>, checks: seq<V.Answer>)
    requires f in w.fleets && IsListing(order, ServersOf(w, f)) && |checks| == |order| > 0
    requires order[0] in w.servers && First(w, f, w.fleets[f].body.spec, order[0])
    requires !w.fleets[f].body.spec.prioritizeAllowed && ValidPriority(w.fleets[f].body.spec.agePriority)
    ensures var pick := V.FindDeleteServer(w.fleets[f].body.spec, WithChecks(Items(w, order), checks));
            pick.Picked? && pick.server.name == order[0]
  {
    var spec := w.fleets[f].body.spec;
    var asked := WithChecks(Items(w, order), checks);
    StrategyIffValid(spec, asked);
    V.VictimIsExtreme(asked, Newest(spec), false);
    var i: nat :| V.FirstBest(asked, Newest(spec), false, i)
                  && V.Victim(asked, Newest(spec), false).server == asked[i];
    assert V.InPool(false, asked[0]);
    assert order[i] in order;
    assert !Earlier(w, spec, order[i], order[0]);
    assert i == 0;
  }

  /** A whole reconcile above the target that marks a given first server. */
  lemma MarkPass(s: State, f: Name, v: Name) returns (acts: seq<Act>)
    requires Rest(s) && Held(s.w.fleets, f, FLEET_FINALIZER) && !Deleting(s.w.fleets[f])
    requires |ServersOf(s.w, f)| > s.w.fleets[f].body.spec.replicas && !s.w.fleets[f].body.spec.prioritizeAllowed
    requires First(s.w, f, s.w.fleets[f].body.spec, v)
    ensures Schedule(s, acts) && Rest(Play(s, acts)) && Within(acts, f)
    ensures var w := Play(s, acts).w;
      w.servers == Api.Delete(s.w.servers, v, s.w.clock) && OwnersKept(s.w, w, f) && w.pods == s.w.pods
  {
    var w, o := s.w, s.w.fleets[f];
    var order := SomeListing(ServersOf(w, f));
    Counts(w, f, order);
    assert Sane(w, f);
    var mid := MarksListedFirst(w, f, v);
    var w1 := w.(servers := Api.Delete(w.servers, v, w.clock));
    var after := SomeListing(ServersOf(w1, f));
    Records(w1, f, o, after);
    var head, tail := [Heard(order), Heard(order)], [Heard(after), Heard(after)];
    TurnsConcat(w, f, FChoose(o), mid, tail);
    TurnsConcat(w, f, FIdle, head, mid + tail);
    acts := FleetReconciles(s, f, head + (mid + tail));
  }

  lemma {:induction false} ReleaseAll(s: State, ks: set<Name>) returns (acts: seq<Act>)
    requires Inv(s)
    requires forall k :: k in ks ==>
      && SPc(s, k) == SIdle && k in s.w.servers && Deleting(s.w.servers[k]) && k in s.w.pods
      && s.w.servers[k].meta.finalizers == {SERVER_FINALIZER}
    ensures Schedule(s, acts) && NoOwner(acts) && Inv(Play(s, acts))
    ensures var t := Play(s, acts);
      && t.w.servers == s.w.servers - ks && t.w.fleets == s.w.fleets && t.fp == s.fp
      && (forall k :: k !in ks ==> SPc(t, k) == SPc(s, k) && (k in t.w.pods <==> k in s.w.pods))
    decreases |ks|
  {
    acts := [];
    if ks == {} {
      assert s.w.servers - ks == s.w.servers;
    } else {
      var k :| k in ks;
      var first := ReleaseAll(s, ks - {k});
      var t := Play(s, first);
      var rest := SF.WaitAndRelease(t, k);
      Then(s, first, rest);
      acts := first + rest;
      ReleasedMore(s.w, t.w, Play(s, acts).w, ks, k);
    }
  }

  lemma ReleasedMore(w: World, w1: World, w2: World, ks: set<Name>, k: Name)
    requires k in ks && w1.servers == w.servers - (ks - {k}) && w2.servers == w1.servers - {k}
    requires w2.pods - {k} == w1.pods - {k}
    requires forall j :: j !in ks - {k} ==> (j in w1.pods <==> j in w.pods)
    ensures w2.servers == w.servers - ks
    ensures forall j :: j !in ks ==> (j in w2.pods <==> j in w.pods)
  {
    forall j | j !in ks ensures j in w2.pods <==> j in w.pods {
      assert j in w2.pods <==> j in w2.pods - {k};
      assert j in w1.pods <==> j in w1.pods - {k};
    }
  }

  // ---------------------------------------------------------------- the schedule that wedges it

  /** A server without a pod within reach of a fleet's passes. */
  ghost predicate Exposed(s: State, f: Name, spec: FleetSpec, k: Name) {
    && Rest(s) && Held(s.w.fleets, f, FLEET_FINALIZER) && !Deleting(s.w.fleets[f]) && s.w.fleets[f].body.spec == spec
    && !spec.prioritizeAllowed && OnlyOurs(s.w, f) && Unwedged(s.w, f)
    && k in Live(s.w, f) && SERVER_FINALIZER in s.w.servers[k].meta.finalizers && k !in s.w.pods
    && !OutOfReach(s.w, f, spec, k)
  }

  /** The server is marked, and has no pod. */
  ghost predicate Lost(s: State, f: Name, k: Name) {
    k in Terminating(s.w, f) && k !in s.w.pods && SERVER_FINALIZER in s.w.servers[k].meta.finalizers
  }

  /** Everything before it is terminating: a pass begins, all of that goes, and the pass marks `k`. */
  lemma RacesToIt(s: State, f: Name, spec: FleetSpec, k: Name) returns (acts: seq<Act>)
    requires Exposed(s, f, spec, k) && Before(s.w, f, spec, k) <= Terminating(s.w, f)
    ensures Schedule(s, acts) && Within(acts, f) && Lost(Play(s, acts), f, k)
  {
    var w, gone := s.w, Before(s.w, f, spec, k);
    StartInv(s);
    assert Sane(w, f);
    var order := SomeListing(ServersOf(w, f));
    Counts(w, f, order);
    assert FPc(s, f) == FIdle;
    var first := FleetPlays(s, f, [Heard(order), Heard(order)]);
    var t := Play(s, first);
    PlayKeepsInv(s, first);
    forall j | j in gone
      ensures SPc(t, j) == SIdle && j in w.servers && Deleting(w.servers[j]) && j in w.pods
      ensures w.servers[j].meta.finalizers == {SERVER_FINALIZER}
    {
      assert j in Terminating(w, f) && SPc(s, j) == SIdle;
    }
    var second := ReleaseAll(t, gone);
    var u := Play(t, second);
    NowFirst(w, u.w, f, spec, k, gone);
    var answers := MarksListedFirst(u.w, f, k);
    assert FPc(u, f) == FPc(t, f);
    var third := FleetPlays(u, f, answers);
    Then(t, second, third);
    Then(s, first, second + third);
    acts := first + (second + third);
    MarkedLost(u.w, Play(s, acts).w, f, k);
  }

  lemma NowFirst(w: World, w': World, f: Name, spec: FleetSpec, k: Name, gone: set<Name>)
    requires k in ServersOf(w, f) && gone == Before(w, f, spec, k) && w'.servers == w.servers - gone
    ensures First(w', f, spec, k) && w'.servers[k] == w.servers[k]
  {
    assert k !in gone;
  }

  lemma MarkedLost(w: World, w': World, f: Name, k: Name)
    requires k in ServersOf(w, f) && SERVER_FINALIZER in w.servers[k].meta.finalizers && k !in w.pods
    requires w' == w.(servers := Api.Delete(w.servers, k, w.clock))
    ensures k in Terminating(w', f) && k !in w'.pods && SERVER_FINALIZER in w'.servers[k].meta.finalizers
  {}

  /** Ages and labels are as they were, and so are pods, except for servers that got one. */
  ghost predicate SameAges(w: World, w': World, f: Name, got: set<Name>) {
    && ServersOf(w', f) == ServersOf(w, f)
    && (forall x :: x in ServersOf(w, f) ==> w'.servers[x].meta.created == w.servers[x].meta.created)
    && w'.pods.Keys == w.pods.Keys + got
  }

  lemma StillExposed(s: State, t: State, f: Name, spec: FleetSpec, k: Name, v: Name)
    requires Exposed(s, f, spec, k) && Rest(t) && OwnersKept(s.w, t.w, f) && SameAges(s.w, t.w, f, {v}) && k != v
    requires Live(t.w, f) == Live(s.w, f) - {v} && v in Live(s.w, f)
    requires forall x :: x in ServersOf(s.w, f) ==>
      t.w.servers[x].meta.finalizers == if x == v then {SERVER_FINALIZER} else s.w.servers[x].meta.finalizers
    requires forall x :: x in ServersOf(s.w, f) && x != v ==> Deleting(t.w.servers[x]) == Deleting(s.w.servers[x])
    ensures Exposed(t, f, spec, k)
  {
    forall x | x in Terminating(t.w, f) ensures x in t.w.pods {
      if x != v {
        assert x in Terminating(s.w, f);
      }
    }
    forall u | u in Live(t.w, f) && Earlier(t.w, spec, u, k) ensures !Shields(t.w, f, spec, u, k) {
      assert FromOn(t.w, f, spec, u) == FromOn(s.w, f, spec, u);
      assert !Shields(s.w, f, spec, u, k);
    }
  }

  /** Setting up and marking a live server that is first. */
  lemma TakesLive(s: State, f: Name, spec: FleetSpec, k: Name, v: Name) returns (acts: seq<Act>)
    requires Exposed(s, f, spec, k) && v in Live(s.w, f) && First(s.w, f, spec, v) && v != k
    requires Earlier(s.w, spec, v, k)
    ensures Schedule(s, acts) && Within(acts, f) && Exposed(Play(s, acts), f, spec, k)
    ensures Before(Play(s, acts).w, f, spec, k) * Live(Play(s, acts).w, f) ==
            Before(s.w, f, spec, k) * Live(s.w, f) - {v}
  {
    var first := SF.SetUpServers(s, {v});
    var t := Play(s, first);
    SetUpSame(s.w, t.w, f, v);
    assert First(t.w, f, spec, v);
    var second := MarkPass(t, f, v);
    Then(s, first, second);
    acts := first + second;
    TakenLive(s, t, Play(s, acts), f, spec, k, v);
  }

  lemma TakenLive(s: State, t: State, u: State, f: Name, spec: FleetSpec, k: Name, v: Name)
    requires Exposed(s, f, spec, k) && v in Live(s.w, f) && v != k && Rest(u)
    requires SF.Prepared(s.w, t.w, {v}) && OwnersKept(t.w, u.w, f) && u.w.pods == t.w.pods
    requires v in t.w.servers && u.w.servers == Api.Delete(t.w.servers, v, t.w.clock)
    ensures Exposed(u, f, spec, k)
    ensures Before(u.w, f, spec, k) * Live(u.w, f) == Before(s.w, f, spec, k) * Live(s.w, f) - {v}
  {
    SetUpSame(s.w, t.w, f, v);
    MarkSame(t.w, u.w, f, v);
    StillExposed(s, u, f, spec, k, v);
  }

  lemma SetUpSame(w: World, w': World, f: Name, v: Name)
    requires SF.Prepared(w, w', {v}) && v in ServersOf(w, f)
    ensures SameAges(w, w', f, {v}) && Live(w', f) == Live(w, f)
    ensures forall x :: x in ServersOf(w, f) ==>
      && w'.servers[x].meta.finalizers == (if x == v then w.servers[x].meta.finalizers + {SERVER_FINALIZER}
                                           else w.servers[x].meta.finalizers)
      && Deleting(w'.servers[x]) == Deleting(w.servers[x])
  {
    forall x ensures x in ServersOf(w', f) <==> x in ServersOf(w, f) {
      if x in w.servers {
        assert w'.servers[x].labels == w.servers[x].labels;
      }
    }
  }

  lemma MarkSame(w: World, w': World, f: Name, v: Name)
    requires v in ServersOf(w, f) && w.servers[v].meta.finalizers != {} && w'.pods == w.pods
    requires w'.servers == Api.Delete(w.servers, v, w.clock)
    ensures SameAges(w, w', f, {}) && Live(w', f) == Live(w, f) - {v}
    ensures forall x :: x in ServersOf(w, f) ==>
      && w'.servers[x].meta.finalizers == w.servers[x].meta.finalizers
      && (x != v ==> Deleting(w'.servers[x]) == Deleting(w.servers[x]))
  {}

  /** If no live server is first, one that is first is terminating and goes. */
  lemma TakesTerminating(s: State, f: Name, spec: FleetSpec, k: Name) returns (acts: seq<Act>)
    requires Exposed(s, f, spec, k) && Before(s.w, f, spec, k) * Live(s.w, f) != {}
    requires forall v :: v in Live(s.w, f) && First(s.w, f, spec, v) && v != k ==> !Earlier(s.w, spec, v, k)
    ensures Schedule(s, acts) && Within(acts, f) && Exposed(Play(s, acts), f, spec, k)
    ensures var w := Play(s, acts).w;
      && Before(w, f, spec, k) * Live(w, f) == Before(s.w, f, spec, k) * Live(s.w, f)
      && |Before(w, f, spec, k)| < |Before(s.w, f, spec, k)|
  {
    var e := FirstIsTerminating(s.w, f, spec, k);
    StartInv(s);
    assert SPc(s, e) == SIdle;
    acts := SF.WaitAndRelease(s, e);
    Gone(s.w, Play(s, acts).w, f, e);
    ExposedAfter(s, Play(s, acts), f, spec, k, e);
  }

  lemma FirstIsTerminating(w: World, f: Name, spec: FleetSpec, k: Name) returns (e: Name)
    requires k in ServersOf(w, f) && Before(w, f, spec, k) * Live(w, f) != {}
    requires forall v :: v in Live(w, f) && First(w, f, spec, v) && v != k ==> !Earlier(w, spec, v, k)
    ensures First(w, f, spec, e) && e in Terminating(w, f) && Earlier(w, spec, e, k)
  {
    var u :| u in Before(w, f, spec, k) * Live(w, f);
    e := SomeFirst(w, f, spec, ServersOf(w, f));
    assert First(w, f, spec, e) && !Earlier(w, spec, u, e);
    assert Earlier(w, spec, e, k) && e != k;
  }

  lemma ExposedAfter(s: State, t: State, f: Name, spec: FleetSpec, k: Name, e: Name)
    requires Exposed(s, f, spec, k) && Rest(t) && First(s.w, f, spec, e) && e in Terminating(s.w, f)
    requires Before(s.w, f, spec, k) * Live(s.w, f) != {} && Earlier(s.w, spec, e, k)
    requires forall v :: v in Live(s.w, f) && First(s.w, f, spec, v) && v != k ==> !Earlier(s.w, spec, v, k)
    requires t.w.servers == s.w.servers - {e} && t.w.pods - {e} == s.w.pods - {e} && t.w.fleets == s.w.fleets
    requires ServersOf(t.w, f) == ServersOf(s.w, f) - {e} && Live(t.w, f) == Live(s.w, f)
    requires Terminating(t.w, f) == Terminating(s.w, f) - {e}
    ensures Exposed(t, f, spec, k)
    ensures Before(t.w, f, spec, k) == Before(s.w, f, spec, k) - {e}
    ensures |Before(t.w, f, spec, k)| < |Before(s.w, f, spec, k)|
  {
    assert k != e;
    PodsAfter(s.w, t.w, f, k, e);
    ReachAfter(s, t, f, spec, k, e);
  }

  lemma PodsAfter(w: World, w': World, f: Name, k: Name, e: Name)
    requires w'.pods - {e} == w.pods - {e} && Unwedged(w, f) && k != e && k !in w.pods
    requires Terminating(w', f) == Terminating(w, f) - {e}
    ensures Unwedged(w', f) && k !in w'.pods
  {
    forall x | x != e ensures x in w'.pods <==> x in w.pods {
      assert x in w'.pods <==> x in w'.pods - {e};
      assert x in w.pods <==> x in w.pods - {e};
    }
  }

  lemma ReachAfter(s: State, t: State, f: Name, spec: FleetSpec, k: Name, e: Name)
    requires k in Live(s.w, f) && k != e && !OutOfReach(s.w, f, spec, k)
    requires First(s.w, f, spec, e) && e in Terminating(s.w, f)
    requires Before(s.w, f, spec, k) * Live(s.w, f) != {} && Earlier(s.w, spec, e, k)
    requires forall v :: v in Live(s.w, f) && First(s.w, f, spec, v) && v != k ==> !Earlier(s.w, spec, v, k)
    requires t.w.servers == s.w.servers - {e}
    requires ServersOf(t.w, f) == ServersOf(s.w, f) - {e} && Live(t.w, f) == Live(s.w, f)
    ensures !OutOfReach(t.w, f, spec, k)
    ensures Before(t.w, f, spec, k) == Before(s.w, f, spec, k) - {e}
    ensures |Before(t.w, f, spec, k)| < |Before(s.w, f, spec, k)|
  {
    var w, w' := s.w, t.w;
    assert Before(w', f, spec, k) == Before(w, f, spec, k) - {e};
    assert e in Before(w, f, spec, k);
    forall x | x in Before(w, f, spec, k) * Live(w, f)
      ensures |FromOn(w, f, spec, x)| > spec.replicas && FromOn(w, f, spec, x) <= ServersOf(w', f)
      ensures FromOn(w', f, spec, x) == FromOn(w, f, spec, x)
    {
      LaterThanFirst(s, f, spec, k, e, x);
      assert !Shields(w, f, spec, x, k);
    }
    var u :| u in Before(w, f, spec, k) * Live(w, f);
    SubsetSize(FromOn(w, f, spec, u), ServersOf(w', f));
    forall x | x in Live(w', f) && Earlier(w', spec, x, k) ensures !Shields(w', f, spec, x, k) {
      assert x in Before(w, f, spec, k) * Live(w, f);
    }
  }

  /** A live server before `k` is not first, so the first one comes before it. */
  lemma LaterThanFirst(s: State, f: Name, spec: FleetSpec, k: Name, e: Name, u: Name)
    requires k in Live(s.w, f) && First(s.w, f, spec, e) && u in Before(s.w, f, spec, k) * Live(s.w, f)
    requires forall v :: v in Live(s.w, f) && First(s.w, f, spec, v) && v != k ==> !Earlier(s.w, spec, v, k)
    ensures Earlier(s.w, spec, e, u)
  {
    assert u != k;
    assert !First(s.w, f, spec, u);
    var x :| x in ServersOf(s.w, f) && Earlier(s.w, spec, x, u);
    assert !Earlier(s.w, spec, x, e);
  }

  lemma {:induction false} IsReached(s: State, f: Name, spec: FleetSpec, k: Name) returns (acts: seq<Act>)
    requires Exposed(s, f, spec, k)
    ensures Schedule(s, acts) && Within(acts, f) && Lost(Play(s, acts), f, k)
    decreases |Before(s.w, f, spec, k) * Live(s.w, f)|, |Before(s.w, f, spec, k)|
  {
    var w := s.w;
    if Before(w, f, spec, k) * Live(w, f) == {} {
      forall x | x in Before(w, f, spec, k) ensures x in Terminating(w, f) {
        assert x !in Before(w, f, spec, k) * Live(w, f);
      }
      acts := RacesToIt(s, f, spec, k);
    } else {
      var first;
      if v :| v in Live(w, f) && First(w, f, spec, v) && v != k && Earlier(w, spec, v, k) {
        first := TakesLive(s, f, spec, k, v);
      } else {
        first := TakesTerminating(s, f, spec, k);
      }
      var rest := IsReached(Play(s, first), f, spec, k);
      Then(s, first, rest);
      acts := first + rest;
    }
  }

  // ---------------------------------------------------------------- exactly which servers

  ghost predicate LeadsToWedge(s: State, acts: seq<Act>, f: Name) {
    Schedule(s, acts) && Within(acts, f) && !Unwedged(Play(s, acts).w, f)
  }

  /** A server that has no pod yet, in a fleet that does not ask for permission and whose passes reach it. */
  ghost predicate SomeExposed(w: World, f: Name)
    requires f in w.fleets
  {
    var spec := w.fleets[f].body.spec;
    !spec.prioritizeAllowed && exists k :: k in Live(w, f) && k !in w.pods && !OutOfReach(w, f, spec, k)
  }

  /**
   The operator can wedge a server of a standing fleet by itself if and only if the fleet does not
   ask for permission and its passes reach a server that has no pod yet: they are above the target,
   and no live server shields that one.
   */
  lemma StandingFleetWedgesIff(s: State, f: Name)
    requires Rest(s) && f in s.w.fleets && !Deleting(s.w.fleets[f]) && OnlyOurs(s.w, f) && Unwedged(s.w, f)
    ensures (exists acts :: LeadsToWedge(s, acts, f)) <==> SomeExposed(s.w, f)
  {
    var spec := s.w.fleets[f].body.spec;
    if SomeExposed(s.w, f) {
      var k :| k in Live(s.w, f) && k !in s.w.pods && !OutOfReach(s.w, f, spec, k);
      var acts := ExposedIsWedged(s, f, k);
      assert LeadsToWedge(s, acts, f);
    } else {
      NobodyExposed(s, f);
      forall acts ensures !LeadsToWedge(s, acts, f) {
        if Schedule(s, acts) && Within(acts, f) {
          GuardedStays(s, acts, f, spec);
          GuardedUnwedged(Play(s, acts), f, spec);
        }
      }
    }
  }

  lemma NobodyExposed(s: State, f: Name)
    requires Rest(s) && f in s.w.fleets && !Deleting(s.w.fleets[f]) && Unwedged(s.w, f) && !SomeExposed(s.w, f)
    ensures Guarded(s, f, s.w.fleets[f].body.spec)
  {
    StartInv(s);
    assert FPc(s, f) == FIdle;
    forall k | k in ServersOf(s.w, f) ensures Safe(s.w, FIdle, f, s.w.fleets[f].body.spec, k) {
      if k !in Live(s.w, f) {
        assert k in Terminating(s.w, f);
      }
    }
  }

  /** The run: the fleet and the server get their finalizers, and passes and releases get to it. */
  lemma ExposedIsWedged(s: State, f: Name, k: Name) returns (acts: seq<Act>)
    requires Rest(s) && f in s.w.fleets && !Deleting(s.w.fleets[f]) && OnlyOurs(s.w, f) && Unwedged(s.w, f)
    requires !s.w.fleets[f].body.spec.prioritizeAllowed
    requires k in Live(s.w, f) && k !in s.w.pods && !OutOfReach(s.w, f, s.w.fleets[f].body.spec, k)
    ensures Schedule(s, acts) && Within(acts, f) && Lost(Play(s, acts), f, k)
  {
    var spec := s.w.fleets[f].body.spec;
    var first := ProtectFleet(s, f);
    var t := Play(s, first);
    assert ServersOf(t.w, f) == ServersOf(s.w, f);
    var second := SF.ProtectOne(t, k);
    var u := Play(t, second);
    ProtectedExposed(s, u, f, spec, k);
    var third := IsReached(u, f, spec, k);
    Then(t, second, third);
    Then(s, first, second + third);
    acts := first + (second + third);
  }

  lemma ProtectedExposed(s: State, u: State, f: Name, spec: FleetSpec, k: Name)
    requires f in s.w.fleets && !Deleting(s.w.fleets[f]) && OnlyOurs(s.w, f) && Unwedged(s.w, f)
    requires s.w.fleets[f].body.spec == spec && !spec.prioritizeAllowed
    requires k in Live(s.w, f) && k !in s.w.pods && !OutOfReach(s.w, f, spec, k)
    requires Rest(u) && OwnersKept(s.w, u.w, f) && Held(u.w.fleets, f, FLEET_FINALIZER) && u.w.pods == s.w.pods
    requires u.w.servers == s.w.servers[k := WithFinalizer(s.w.servers[k], SERVER_FINALIZER)]
    ensures Exposed(u, f, spec, k)
  {
    assert ServersOf(u.w, f) == ServersOf(s.w, f);
    assert Live(u.w, f) == Live(s.w, f) && Terminating(u.w, f) == Terminating(s.w, f);
    forall x | x in Live(u.w, f) && Earlier(u.w, spec, x, k) ensures !Shields(u.w, f, spec, x, k) {
      assert FromOn(u.w, f, spec, x) == FromOn(s.w, f, spec, x);
      assert !Shields(s.w, f, spec, x, k);
    }
  }
}
