/**
 How a fleet's server count moves under every interleaving: while the target stands, scale-up never
 overshoots, and scale-down is serial and never undershoots as long as the second listing of every
 scale-down pass still exceeds the target.
 */
module Scaling {
  import opened Api
  import opened Admission
  import opened Machine
  import opened Lifecycle
  import V = Victims

  function Live(w: World, f: Name): set<Name> {
    set k | k in ServersOf(w, f) && !Deleting(w.servers[k])
  }

  function Terminating(w: World, f: Name): set<Name> {
    set k | k in ServersOf(w, f) && Deleting(w.servers[k])
  }

  lemma Split(w: World, f: Name)
    ensures ServersOf(w, f) == Live(w, f) + Terminating(w, f)
    ensures |ServersOf(w, f)| == |Live(w, f)| + |Terminating(w, f)|
  {
    assert ServersOf(w, f) == Live(w, f) + Terminating(w, f);
  }

  // ---------------------------------------------------------------- scaling up

  ghost predicate TargetIs(w: World, f: Name, target: int) {
    f in w.fleets ==> w.fleets[f].body.spec.replicas == target
  }

  ghost predicate UpInv(s: State, f: Name, target: int) {
    && |ServersOf(s.w, f)| <= target
    && match FPc(s, f)
       case FCount(o) => o.body.spec.replicas == target
       case FCreate(o, left) => |ServersOf(s.w, f)| + left <= target
       case _ => true
  }

  lemma OwnStepShrinks(w: World, f: Name, pc: FleetPc, a: Answer)
    requires !pc.FCreate?
    ensures ServersOf(FleetNext(w, f, pc, a).0, f) <= ServersOf(w, f)
  {
    if FleetNext(w, f, pc, a).0 != w {
      match pc
      case FDelete(o, v) => DeleteServerUnnoticed(w, v);
      case FDrainEach(o, todo) => DeleteServerUnnoticed(w, todo[0]);
      case _ =>
    }
  }

  lemma CreateGrows(w: World, f: Name, o: Fleet, name: Name)
    requires name !in w.servers
    ensures ServersOf(CreateServer(w, f, o, name), f) == ServersOf(w, f) + {name}
    ensures |ServersOf(CreateServer(w, f, o, name), f)| == |ServersOf(w, f)| + 1
  {
    assert ServersOf(CreateServer(w, f, o, name), f) == ServersOf(w, f) + {name};
  }

  lemma UpStepOwn(s: State, a: Answer, f: Name, target: int)
    requires UpInv(s, f, target) && TargetIs(s.w, f, target)
    ensures UpInv(Next(s, FleetCall(f, a)), f, target)
  {
    var pc := FPc(s, f);
    if pc.FCreate? {
      if a.name !in s.w.servers {
        CreateGrows(s.w, f, pc.o, a.name);
      }
    } else {
      OwnStepShrinks(s.w, f, pc, a);
      SubsetSize(ServersOf(Next(s, FleetCall(f, a)).w, f), ServersOf(s.w, f));
      if pc.FCount? && Lists(s.w, f, a) {
        ListingSize(a.order, ServersOf(s.w, f));
      }
    }
  }

  lemma UpStep(s: State, a: Act, f: Name, target: int)
    requires Inv(s) && UpInv(s, f, target) && TargetIs(s.w, f, target)
    ensures UpInv(Next(s, a), f, target)
  {
    if a.FleetCall? && a.f == f {
      UpStepOwn(s, a.a, f, target);
    } else {
      StepSeenByFleet(s, a, f);
      assert ServersOf(Next(s, a).w, f) <= ServersOf(s.w, f);
      SubsetSize(ServersOf(Next(s, a).w, f), ServersOf(s.w, f));
    }
  }

  /**
   Crash-safe scale-up: from whatever step on the target stands and the servers there are and those
   that the worker is still to create are within it, no pattern of failed or cut-off reconciles
   ever brings the number of servers above it.
   */
  lemma {:induction false} NeverOvershoots(run: seq<State>, m: nat, i: nat, f: Name, target: int)
    requires IsRun(run) && m <= i < |run|
    requires Inv(run[0])
    requires forall j :: m <= j < |run| ==> TargetIs(run[j].w, f, target)
    requires UpInv(run[m], f, target)
    ensures UpInv(run[i], f, target)
  {
    if m < i {
      NeverOvershoots(run, m, i - 1, f, target);
      InvHolds(run, i - 1);
      assert StepAt(run, i);
      UpStep(run[i - 1], run[i].act, f, target);
    }
  }

  /**
   The 32-bit arithmetic of scaling up is exact: below an int32 target, neither the conversion of
   the count nor the subtraction wraps around, and the worker goes on to create the difference.
   */
  lemma SubtractionFitsInt32(s: State, a: Answer, f: Name, target: int)
    requires UpInv(s, f, target) && FPc(s, f).FCount? && Lists(s.w, f, a) && target < TWO_31
    ensures var n := ToInt32(|a.order|);
            && n == |a.order| && ToInt32(target - n) == target - |ServersOf(s.w, f)| >= 0
            && (n < target ==> FPc(Next(s, FleetCall(f, a)), f) == FCreate(FPc(s, f).o, ToInt32(target - n)))
  {
    ListingSize(a.order, ServersOf(s.w, f));
  }

  // ---------------------------------------------------------------- the order of victims

  /** What a scale-down pass goes by: the fleet's spec and the sidecars' fixed answers. */
  datatype Policy = Policy(spec: FleetSpec, allowed: set<Name>)

  predicate Newest(spec: FleetSpec) {
    spec.agePriority == NEWEST_FIRST
  }

  /** Whether server `a`, created at `s`, is taken before `b`, created at `t`. */
  predicate Prefers(q: Policy, a: Name, s: int, b: Name, t: int) {
    if q.spec.prioritizeAllowed && (a in q.allowed) != (b in q.allowed) then a in q.allowed
    else V.Before(Newest(q.spec), s, t)
  }

  predicate IsTop(w: World, f: Name, q: Policy, v: Name) {
    && v in ServersOf(w, f)
    && forall u :: u in ServersOf(w, f) && u != v ==>
         Prefers(q, v, w.servers[v].meta.created, u, w.servers[u].meta.created)
  }

  predicate TopItem(items: seq<V.Candidate>, q: Policy, c: V.Candidate) {
    && c in items
    && forall d :: d in items && d.name != c.name ==> Prefers(q, c.name, c.created, d.name, d.created)
  }

  ghost predicate DistinctAges(w: World, f: Name) {
    forall a, b :: a in ServersOf(w, f) && b in ServersOf(w, f) && a != b ==>
      w.servers[a].meta.created != w.servers[b].meta.created
  }

  /** The checker's answers, if they are asked at all, are those of the policy, or an error. */
  ghost predicate AnswersFit(q: Policy, items: seq<V.Candidate>, checks: seq<V.Answer>) {
    q.spec.prioritizeAllowed && |checks| == |items| ==>
      forall j :: 0 <= j < |items| ==>
        checks[j] == V.CheckFailed || checks[j] == if items[j].name in q.allowed then V.Allowed else V.Denied
  }

  ghost predicate DistinctItems(items: seq<V.Candidate>) {
    forall c, d :: c in items && d in items && (c.name == d.name || c.created == d.created) ==> c == d
  }

  /** The server found by a pass is the one the policy puts first. */
  lemma PickIsTop(q: Policy, items: seq<V.Candidate>, checks: seq<V.Answer>, c: V.Candidate)
    requires |checks| == |items| && AnswersFit(q, items, checks) && DistinctItems(items)
    requires V.FindDeleteServer(q.spec, WithChecks(items, checks)) == V.Picked(c)
    ensures exists d :: d in items && d.name == c.name && d.created == c.created && TopItem(items, q, d)
  {
    var asked := WithChecks(items, checks);
    var first := q.spec.prioritizeAllowed;
    var pool := V.FromAllowed(asked, first);
    V.VictimIsAnExtreme(asked, Newest(q.spec), first);
    V.VictimIsExtreme(asked, Newest(q.spec), first);
    var i :| 0 <= i < |asked| && asked[i] == c;
    var d := items[i];
    assert first ==> asked[i].answer != V.CheckFailed;
    forall e | e in items && e.name != d.name
      ensures Prefers(q, d.name, d.created, e.name, e.created)
    {
      var j :| 0 <= j < |items| && items[j] == e;
      assert asked[j] in asked;
      assert first ==> asked[j].answer != V.CheckFailed;
      assert e.created != d.created;
      PreferredToOther(q, asked, i, j);
    }
    assert TopItem(items, q, d);
  }

  /** An extreme of its pool is preferred to any server of another age. */
  lemma PreferredToOther(q: Policy, asked: seq<V.Candidate>, i: nat, j: nat)
    requires i < |asked| && j < |asked| && asked[i].created != asked[j].created
    requires V.Extreme(asked, Newest(q.spec), V.FromAllowed(asked, q.spec.prioritizeAllowed), asked[i])
    requires q.spec.prioritizeAllowed ==> forall m :: m == i || m == j ==>
      asked[m].answer == if asked[m].name in q.allowed then V.Allowed else V.Denied
    ensures Prefers(q, asked[i].name, asked[i].created, asked[j].name, asked[j].created)
  {
    assert asked[j] in asked;
    if q.spec.prioritizeAllowed && asked[j].answer == V.Allowed {
      assert V.InPool(true, asked[j]);
    }
  }

  /** The checks of a listing fail exactly if a server has no pod. */
  lemma FailedIffPodMissing(w: World, f: Name, order: seq<Name>, checks: seq<V.Answer>)
    requires IsListing(order, ServersOf(w, f)) && |checks| == |order|
    requires forall i :: 0 <= i < |order| ==> (checks[i] == V.CheckFailed <==> order[i] !in w.pods)
    ensures V.AnyFailed(WithChecks(Items(w, order), checks)) <==> exists k :: k in ServersOf(w, f) && k !in w.pods
  {
    var asked := WithChecks(Items(w, order), checks);
    if V.AnyFailed(asked) {
      var i :| 0 <= i < |asked| && asked[i].answer == V.CheckFailed;
      assert order[i] in order;
    }
    if k :| k in ServersOf(w, f) && k !in w.pods {
      var i :| 0 <= i < |order| && order[i] == k;
      assert asked[i].answer == V.CheckFailed;
    }
  }

  // ---------------------------------------------------------------- scaling down

  /** Every current server of the fleet is among the listed items, with its age. */
  ghost predicate Covers(w: World, f: Name, items: seq<V.Candidate>) {
    forall u :: u in ServersOf(w, f) ==> V.Candidate(u, w.servers[u].meta.created, V.Denied) in items
  }

  ghost predicate SerialInv(s: State, f: Name, q: Policy) {
    && |Live(s.w, f)| >= q.spec.replicas
    && (forall t :: t in Terminating(s.w, f) ==> IsTop(s.w, f, q, t))
    && match FPc(s, f)
       case FIdle => true
       case FAddFinalizer(o) => true
       case FCount(o) => o.body.spec == q.spec
       case FChoose(o) => o.body.spec == q.spec
       case FPick(o, items) =>
         && o.body.spec == q.spec && DistinctItems(items) && Covers(s.w, f, items)
         && forall c :: TopItem(items, q, c) && c.name in ServersOf(s.w, f) ==>
              |ServersOf(s.w, f)| > q.spec.replicas
       case FDelete(o, v) =>
         v in ServersOf(s.w, f) ==> IsTop(s.w, f, q, v) && |ServersOf(s.w, f)| > q.spec.replicas
       case FRecount(o) => true
       case FSave(o, n) => true
       case _ => false
  }

  /** The fleet stands with the policy's spec, and no two of its servers are equally old. */
  ghost predicate Stands(w: World, f: Name, q: Policy) {
    && f in w.fleets && w.fleets[f].body.spec == q.spec && !Deleting(w.fleets[f])
    && DistinctAges(w, f)
  }

  lemma OneTop(w: World, f: Name, q: Policy, a: Name, b: Name)
    requires IsTop(w, f, q, a) && IsTop(w, f, q, b)
    ensures a == b
  {}

  lemma TopItemIsTop(w: World, f: Name, q: Policy, items: seq<V.Candidate>, c: V.Candidate)
    requires DistinctItems(items) && Covers(w, f, items) && TopItem(items, q, c)
    requires c.name in ServersOf(w, f)
    ensures IsTop(w, f, q, c.name)
  {
    assert V.Candidate(c.name, w.servers[c.name].meta.created, V.Denied) in items;
    forall u | u in ServersOf(w, f) && u != c.name
      ensures Prefers(q, c.name, c.created, u, w.servers[u].meta.created)
    {
      assert V.Candidate(u, w.servers[u].meta.created, V.Denied) in items;
    }
  }

  lemma SerialOther(s: State, t: State, f: Name, q: Policy)
    requires SerialInv(s, f, q)
    requires SeenByFleet(s.w, t.w, f) && Live(t.w, f) == Live(s.w, f)
    requires FPc(t, f) == FPc(s, f) || FPc(t, f) == FIdle
    ensures SerialInv(t, f, q)
  {
    forall x | x in Terminating(t.w, f) ensures IsTop(t.w, f, q, x) {
      assert x in ServersOf(s.w, f);
      assert x !in Live(s.w, f);
      assert x in Terminating(s.w, f);
    }
    if ServersOf(t.w, f) != ServersOf(s.w, f) {
      var x :| x in ServersOf(s.w, f) && x !in ServersOf(t.w, f);
      assert x !in Live(t.w, f);
      assert x in Terminating(s.w, f);
      match FPc(t, f)
      case FPick(o, items) =>
        forall c | TopItem(items, q, c) ensures c.name !in ServersOf(t.w, f) {
          if c.name in ServersOf(t.w, f) {
            TopItemIsTop(s.w, f, q, items, c);
            OneTop(s.w, f, q, c.name, x);
          }
        }
      case FDelete(o, v) =>
        if v in ServersOf(t.w, f) {
          OneTop(s.w, f, q, v, x);
        }
      case _ =>
    }
  }

  lemma ListedItems(w: World, f: Name, order: seq<Name>)
    requires IsListing(order, ServersOf(w, f)) && DistinctAges(w, f)
    ensures DistinctItems(Items(w, order)) && Covers(w, f, Items(w, order))
  {
    var items := Items(w, order);
    forall u | u in ServersOf(w, f) ensures V.Candidate(u, w.servers[u].meta.created, V.Denied) in items {
      var i :| 0 <= i < |order| && order[i] == u;
      assert items[i] in items;
    }
    forall c | c in items ensures c == V.Candidate(c.name, w.servers[c.name].meta.created, V.Denied)
      && c.name in ServersOf(w, f)
    {
      var i :| 0 <= i < |items| && items[i] == c;
      assert order[i] in order;
    }
  }

  lemma PickSerial(s: State, a: Answer, f: Name, q: Policy)
    requires SerialInv(s, f, q) && FPc(s, f).FPick?
    requires AnswersFit(q, FPc(s, f).items, a.checks)
    ensures SerialInv(Next(s, FleetCall(f, a)), f, q)
  {
    var FPick(o, items) := FPc(s, f);
    if a.ok && |a.checks| == |items| {
      var pick := V.FindDeleteServer(o.body.spec, WithChecks(items, a.checks));
      if pick.Picked? {
        PickIsTop(q, items, a.checks, pick.server);
        var d :| d in items && d.name == pick.server.name && TopItem(items, q, d);
        if d.name in ServersOf(s.w, f) {
          TopItemIsTop(s.w, f, q, items, d);
        }
      }
    }
  }

  lemma DeleteSerial(s: State, a: Answer, f: Name, q: Policy)
    requires SerialInv(s, f, q) && FPc(s, f).FDelete?
    ensures SerialInv(Next(s, FleetCall(f, a)), f, q)
  {
    var v := FPc(s, f).victim;
    var t := Next(s, FleetCall(f, a));
    if t.w != s.w {
      if v in ServersOf(s.w, f) {
        DeleteTop(s.w, t.w, f, q, v);
      } else {
        DeleteOutsider(s.w, t.w, f, v);
      }
    }
  }

  lemma DeleteOutsider(w: World, w': World, f: Name, v: Name)
    requires v in w.servers && v !in ServersOf(w, f)
    requires w' == w.(servers := Api.Delete(w.servers, v, w.clock))
    ensures Live(w', f) == Live(w, f) && Terminating(w', f) == Terminating(w, f)
    ensures ServersOf(w', f) == ServersOf(w, f)
    ensures forall k :: k in ServersOf(w, f) ==> w'.servers[k] == w.servers[k]
  {
    assert ServersOf(w', f) == ServersOf(w, f);
  }

  /** What marking (or removing) one server of the fleet does to its sets. */
  lemma DeleteMember(w: World, w': World, f: Name, v: Name)
    requires v in ServersOf(w, f)
    requires w' == w.(servers := Api.Delete(w.servers, v, w.clock))
    ensures ServersOf(w', f) == if w.servers[v].meta.finalizers == {} then ServersOf(w, f) - {v} else ServersOf(w, f)
    ensures Live(w', f) == Live(w, f) - {v}
    ensures Terminating(w', f) == (Terminating(w, f) + {v}) * ServersOf(w', f)
    ensures forall k :: k in ServersOf(w', f) ==> w'.servers[k].meta.created == w.servers[k].meta.created
  {}

  lemma DeleteTop(w: World, w': World, f: Name, q: Policy, v: Name)
    requires IsTop(w, f, q, v) && |ServersOf(w, f)| > q.spec.replicas
    requires |Live(w, f)| >= q.spec.replicas
    requires forall t :: t in Terminating(w, f) ==> IsTop(w, f, q, t)
    requires w' == w.(servers := Api.Delete(w.servers, v, w.clock))
    ensures |Live(w', f)| >= q.spec.replicas
    ensures forall t :: t in Terminating(w', f) ==> IsTop(w', f, q, t)
  {
    DeleteMember(w, w', f, v);
    forall t | t in Terminating(w, f) ensures t == v {
      OneTop(w, f, q, t, v);
    }
    if v in Live(w, f) {
      assert Terminating(w, f) == {};
      Split(w, f);
    } else {
      assert Live(w', f) == Live(w, f);
    }
  }

  lemma SerialOwn(s: State, a: Answer, f: Name, q: Policy)
    requires SerialInv(s, f, q) && Stands(s.w, f, q)
    requires FPc(s, f).FPick? ==> AnswersFit(q, FPc(s, f).items, a.checks)
    requires FPc(s, f).FChoose? && Lists(s.w, f, a) ==> |ServersOf(s.w, f)| > q.spec.replicas
    ensures SerialInv(Next(s, FleetCall(f, a)), f, q)
  {
    if FPc(s, f).FPick? {
      PickSerial(s, a, f, q);
    } else if FPc(s, f).FDelete? {
      DeleteSerial(s, a, f, q);
    } else if FPc(s, f).FChoose? {
      ChooseSerial(s, a, f, q);
    } else {
      SameServersSerial(s, a, f, q);
    }
  }

  lemma ChooseSerial(s: State, a: Answer, f: Name, q: Policy)
    requires SerialInv(s, f, q) && FPc(s, f).FChoose? && DistinctAges(s.w, f)
    requires Lists(s.w, f, a) ==> |ServersOf(s.w, f)| > q.spec.replicas
    ensures SerialInv(Next(s, FleetCall(f, a)), f, q)
  {
    if Lists(s.w, f, a) {
      ListedItems(s.w, f, a.order);
    }
  }

  predicate Harmless(pc: FleetPc) {
    pc.FIdle? || pc.FAddFinalizer? || pc.FCount? || pc.FRecount? || pc.FSave?
  }

  lemma HarmlessKeepsServers(w: World, f: Name, pc: FleetPc, a: Answer)
    requires Harmless(pc)
    ensures FleetNext(w, f, pc, a).0.servers == w.servers
  {}

  lemma HarmlessPc(w: World, f: Name, pc: FleetPc, a: Answer, q: Policy)
    requires Harmless(pc) && Stands(w, f, q) && |Live(w, f)| >= q.spec.replicas
    requires pc.FCount? ==> pc.o.body.spec == q.spec
    ensures var pc' := FleetNext(w, f, pc, a).1;
      && (Harmless(pc') || pc'.FChoose?)
      && (pc'.FCount? || pc'.FChoose? ==> pc'.o.body.spec == q.spec)
      && (pc'.FChoose? ==> |ServersOf(w, f)| > q.spec.replicas)
  {
    if pc.FCount? && Lists(w, f, a) {
      Split(w, f);
      ListingSize(a.order, ServersOf(w, f));
    }
  }

  lemma SameServersSerial(s: State, a: Answer, f: Name, q: Policy)
    requires SerialInv(s, f, q) && Stands(s.w, f, q) && Harmless(FPc(s, f))
    ensures SerialInv(Next(s, FleetCall(f, a)), f, q)
  {
    var t := Next(s, FleetCall(f, a));
    HarmlessKeepsServers(s.w, f, FPc(s, f), a);
    HarmlessPc(s.w, f, FPc(s, f), a, q);
    assert ServersOf(t.w, f) == ServersOf(s.w, f);
    assert Live(t.w, f) == Live(s.w, f);
    forall x | x in Terminating(t.w, f) ensures IsTop(t.w, f, q, x) {
      assert x in Terminating(s.w, f);
    }
  }

  /**
   The circumstances under which scale-down is serial: the spec stands, ages are distinct, only
   the fleet's own worker marks its servers, the sidecars' answers do not change (if they are
   asked at all), and the second listing of a pass still exceeds the target.
   */
  ghost predicate SerialRun(run: seq<State>, f: Name, q: Policy) {
    && (forall i :: 0 <= i < |run| ==> Stands(run[i].w, f, q))
    && forall i :: 0 < i < |run| ==>
         && (!(run[i].act.FleetCall? && run[i].act.f == f) ==> Live(run[i].w, f) == Live(run[i - 1].w, f))
         && (FPc(run[i - 1], f).FChoose? && run[i].act.FleetCall? && run[i].act.f == f ==>
               Lists(run[i - 1].w, f, run[i].act.a) ==> |ServersOf(run[i - 1].w, f)| > q.spec.replicas)
         && (FPc(run[i - 1], f).FPick? && run[i].act.FleetCall? && run[i].act.f == f ==>
               AnswersFit(q, FPc(run[i - 1], f).items, run[i].act.a.checks))
  }

  lemma {:induction false} SerialHolds(run: seq<State>, i: nat, f: Name, q: Policy)
    requires IsRun(run) && i < |run| && SerialRun(run, f, q)
    requires Inv(run[0]) && FPc(run[0], f) == FIdle
    requires Terminating(run[0].w, f) == {} && |Live(run[0].w, f)| >= q.spec.replicas
    ensures SerialInv(run[i], f, q)
  {
    if i > 0 {
      SerialHolds(run, i - 1, f, q);
      SerialNext(run, i, f, q);
    }
  }

  lemma SerialNext(run: seq<State>, i: nat, f: Name, q: Policy)
    requires IsRun(run) && 0 < i < |run| && SerialRun(run, f, q) && Inv(run[0])
    requires SerialInv(run[i - 1], f, q)
    ensures SerialInv(run[i], f, q)
  {
    InvHolds(run, i - 1);
    assert StepAt(run, i);
    SerialStep(run[i - 1], run[i], f, q);
  }

  lemma SerialStep(s: State, t: State, f: Name, q: Policy)
    requires Inv(s) && Step(s, t) && SerialInv(s, f, q) && Stands(s.w, f, q) && Stands(t.w, f, q)
    requires !(t.act.FleetCall? && t.act.f == f) ==> Live(t.w, f) == Live(s.w, f)
    requires FPc(s, f).FChoose? && t.act.FleetCall? && t.act.f == f ==>
      Lists(s.w, f, t.act.a) ==> |ServersOf(s.w, f)| > q.spec.replicas
    requires FPc(s, f).FPick? && t.act.FleetCall? && t.act.f == f ==>
      AnswersFit(q, FPc(s, f).items, t.act.a.checks)
    ensures SerialInv(t, f, q)
  {
    if t.act.FleetCall? && t.act.f == f {
      SerialOwn(s, t.act.a, f, q);
    } else {
      StepSeenByFleet(s, t.act, f);
      SerialOther(s, t, f, q);
    }
  }

  /** Scale-down takes one server at a time and never goes below the target. */
  lemma ScaleDownIsSerial(run: seq<State>, i: nat, f: Name, q: Policy)
    requires IsRun(run) && i < |run| && SerialRun(run, f, q)
    requires Inv(run[0]) && FPc(run[0], f) == FIdle
    requires Terminating(run[0].w, f) == {} && |Live(run[0].w, f)| >= q.spec.replicas
    ensures |Terminating(run[i].w, f)| <= 1
    ensures |Live(run[i].w, f)| >= q.spec.replicas
  {
    SerialHolds(run, i, f, q);
    var gone := Terminating(run[i].w, f);
    if gone != {} {
      var t :| t in gone;
      forall u | u in gone ensures u == t {
        OneTop(run[i].w, f, q, u, t);
      }
      assert gone == {t};
    }
  }
}
