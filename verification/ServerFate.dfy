/**
 The fate of a single server: how a live one is set up, how a deleting one is released, when it
 can never be released any more, and that a released pod does not come back.

 An undisturbed reconcile is the server worker of the machine run to completion with no other
 step in between and every store call succeeding; `reach` says whether the sidecar answers.
 */
module ServerFate {
  import opened Api
  import opened Admission
  import opened Machine
  import opened Lifecycle
  import opened Schedules
  import V = Victims

  function Rank(pc: ServerPc): nat {
    match pc
    case SIdle => 0
    case SAddFinalizer(_) => 1
    case SReportFailure(_, _) => 1
    case SCreatePod(_) => 2
    case SProtectPod(_, _) => 1
    case SGetPod(_) => 2
    case SFindPod(_) => 3
    case SRemoveFinalizer(_) => 1
    case SDeletePod(_) => 2
    case SGetPodAgain(_) => 3
    case SUnprotectPod(_, _) => 4
    case SAsk(_, _) => 5
    case SShutdown(_, _) => 6
    case SCheck(_, _) => 7
    case SDeletionPod(_) => 8
  }

  function Finish(w: World, k: Name, pc: ServerPc, reach: bool): World
    decreases Rank(pc)
  {
    if pc == SIdle then w
    else
      var (w', pc') := ServerNext(w, k, pc, (pc.SShutdown? || pc.SAsk?) ==> reach);
      Finish(w', k, pc', reach)
  }

  /** One undisturbed reconcile of the server `k`. */
  function Reconcile(w: World, k: Name, reach: bool): World {
    var (w', pc') := ServerNext(w, k, SIdle, true);
    Finish(w', k, pc', reach)
  }

  /** Only the worker of `k` has moved, and it is idle again. */
  ghost predicate OnlyWorked(s: State, t: State, k: Name) {
    && SPc(t, k) == SIdle && t.fp == s.fp && t.gp == s.gp
    && forall j :: j != k ==> SPc(t, j) == SPc(s, j)
  }

  /** Such a reconcile is a schedule of the machine in which only the worker of `k` moves. */
  lemma {:induction false} FinishPlays(s: State, k: Name, reach: bool) returns (acts: seq<Act>)
    ensures Schedule(s, acts) && OnlyWorked(s, Play(s, acts), k) && NoOwner(acts)
    ensures Play(s, acts).w == Finish(s.w, k, SPc(s, k), reach)
    decreases Rank(SPc(s, k))
  {
    var pc := SPc(s, k);
    if pc == SIdle {
      acts := [];
    } else {
      var call := ServerCall(k, (pc.SShutdown? || pc.SAsk?) ==> reach);
      var rest := FinishPlays(Next(s, call), k, reach);
      One(s, call);
      Then(s, [call], rest);
      acts := [call] + rest;
    }
  }

  lemma ReconcilePlays(s: State, k: Name, reach: bool) returns (acts: seq<Act>)
    requires SPc(s, k) == SIdle
    ensures Schedule(s, acts) && OnlyWorked(s, Play(s, acts), k) && NoOwner(acts)
    ensures Play(s, acts).w == Reconcile(s.w, k, reach)
    ensures Rest(s) ==> Rest(Play(s, acts))
  {
    var call := ServerCall(k, true);
    var rest := FinishPlays(Next(s, call), k, reach);
    One(s, call);
    Then(s, [call], rest);
    acts := [call] + rest;
    if Rest(s) {
      WorkedIdle(s, Play(s, acts), k);
      RestAfter(s, acts);
    }
  }

  lemma WorkedIdle(s: State, t: State, k: Name)
    requires AllIdle(s) && OnlyWorked(s, t, k)
    ensures AllIdle(t)
  {
    forall j ensures SPc(t, j) == SIdle {
      assert SPc(s, j) == SIdle;
    }
    forall f ensures FPc(t, f) == FIdle {
      assert FPc(s, f) == FIdle;
    }
    forall g ensures GPc(t, g) == GIdle {
      assert GPc(s, g) == GIdle;
    }
  }

  /** It touches no other server or pod, no fleet and no game type. */
  lemma {:induction false} FinishIsLocal(w: World, k: Name, pc: ServerPc, reach: bool)
    ensures var w' := Finish(w, k, pc, reach);
            && w'.servers - {k} == w.servers - {k} && w'.pods - {k} == w.pods - {k}
            && w'.clock == w.clock && w'.fleets == w.fleets && w'.games == w.games
    decreases Rank(pc)
  {
    if pc != SIdle {
      var ok := (pc.SShutdown? || pc.SAsk?) ==> reach;
      var (w', pc') := ServerNext(w, k, pc, ok);
      StepIsLocal(w, k, pc, ok);
      FinishIsLocal(w', k, pc', reach);
    }
  }

  lemma StepIsLocal(w: World, k: Name, pc: ServerPc, ok: bool)
    ensures var w' := ServerNext(w, k, pc, ok).0;
            && w'.servers - {k} == w.servers - {k} && w'.pods - {k} == w.pods - {k}
            && w'.clock == w.clock && w'.fleets == w.fleets && w'.games == w.games
  {
    var w' := ServerNext(w, k, pc, ok).0;
    if w'.servers != w.servers {
      assert w'.servers - {k} == w.servers - {k};
    }
    if w'.pods != w.pods {
      assert w'.pods - {k} == w.pods - {k};
    }
  }

  // ---------------------------------------------------------------- setting up

  ghost predicate SetUp(w: World, k: Name) {
    && Held(w.servers, k, SERVER_FINALIZER) && !Deleting(w.servers[k])
    && Held(w.pods, k, SERVER_FINALIZER)
  }

  lemma SetUpIsStable(w: World, k: Name, reach: bool)
    requires SetUp(w, k)
    ensures Reconcile(w, k, reach) == w
  {
    var s := w.servers[k];
    assert Finish(w, k, SGetPod(s), reach) == w;
    assert Finish(w, k, SFindPod(s), reach) == w;
  }

  lemma AddsFinalizer(w: World, k: Name, reach: bool)
    requires k in w.servers && !Deleting(w.servers[k])
    requires SERVER_FINALIZER !in w.servers[k].meta.finalizers
    ensures var s := WithFinalizer(w.servers[k], SERVER_FINALIZER);
            Reconcile(w, k, reach) == w.(servers := w.servers[k := s])
  {
    assert Finish(w, k, SAddFinalizer(w.servers[k]), reach) ==
           SetServer(w, k, w.servers[k], WithFinalizer(w.servers[k], SERVER_FINALIZER), true);
  }

  lemma AddsPod(w: World, k: Name, reach: bool)
    requires Held(w.servers, k, SERVER_FINALIZER) && !Deleting(w.servers[k]) && k !in w.pods
    ensures Reconcile(w, k, reach) == CreatePod(w, k, w.servers[k])
  {
    var s := w.servers[k];
    assert Finish(w, k, SCreatePod(s), reach) == CreatePod(w, k, s);
  }

  lemma ProtectsPod(w: World, k: Name, reach: bool)
    requires Held(w.servers, k, SERVER_FINALIZER) && !Deleting(w.servers[k])
    requires k in w.pods && !Deleting(w.pods[k])
    ensures var p := WithFinalizer(w.pods[k], SERVER_FINALIZER);
            Reconcile(w, k, reach) == w.(pods := w.pods[k := p])
  {
    var s := w.servers[k];
    if SERVER_FINALIZER in w.pods[k].meta.finalizers {
      SetUpIsStable(w, k, reach);
      assert WithFinalizer(w.pods[k], SERVER_FINALIZER) == w.pods[k];
    } else {
      var w' := w.(pods := w.pods[k := WithFinalizer(w.pods[k], SERVER_FINALIZER)]);
      assert Finish(w, k, SProtectPod(s, w.pods[k]), reach) == w';
      assert Finish(w, k, SGetPod(s), reach) == w';
      assert Finish(w, k, SFindPod(s), reach) == w';
    }
  }

  /** Three undisturbed reconciles set up any live server whose pod is not terminating. */
  lemma ThreeReconcilesSetUp(w: World, k: Name, reach: bool)
    requires k in w.servers && !Deleting(w.servers[k])
    requires k in w.pods ==> !Deleting(w.pods[k])
    ensures SetUp(Reconcile(Reconcile(Reconcile(w, k, reach), k, reach), k, reach), k)
  {
    var w1 := Reconcile(w, k, reach);
    var w2 := Reconcile(w1, k, reach);
    if SERVER_FINALIZER !in w.servers[k].meta.finalizers {
      AddsFinalizer(w, k, reach);
      SetUpWithinTwo(w1, k, reach);
    } else {
      SetUpWithinTwo(w, k, reach);
      SetUpIsStable(w2, k, reach);
    }
  }

  lemma SetUpWithinTwo(w: World, k: Name, reach: bool)
    requires Held(w.servers, k, SERVER_FINALIZER) && !Deleting(w.servers[k])
    requires k in w.pods ==> !Deleting(w.pods[k])
    ensures SetUp(Reconcile(Reconcile(w, k, reach), k, reach), k)
  {
    var w1 := Reconcile(w, k, reach);
    if k in w.pods {
      ProtectsPod(w, k, reach);
      SetUpIsStable(w1, k, reach);
    } else {
      AddsPod(w, k, reach);
      ProtectsPod(w1, k, reach);
    }
  }

  /** The servers `ks` have got their finalizer and a pod, and nothing else was changed or taken away. */
  ghost predicate Prepared(w: World, w': World, ks: set<Name>) {
    && w'.fleets == w.fleets && w'.games == w.games && w'.servers.Keys == w.servers.Keys
    && (forall k :: k in w.servers ==>
          w'.servers[k] == if k in ks then WithFinalizer(w.servers[k], SERVER_FINALIZER) else w.servers[k])
    && w'.pods.Keys == w.pods.Keys + ks
  }

  lemma ProtectOne(s: State, k: Name) returns (acts: seq<Act>)
    requires Rest(s) && k in s.w.servers && !Deleting(s.w.servers[k])
    ensures Schedule(s, acts) && Rest(Play(s, acts)) && NoOwner(acts)
    ensures Play(s, acts).w ==
            s.w.(servers := s.w.servers[k := WithFinalizer(s.w.servers[k], SERVER_FINALIZER)])
  {
    if SERVER_FINALIZER in s.w.servers[k].meta.finalizers {
      acts := [];
      assert WithFinalizer(s.w.servers[k], SERVER_FINALIZER) == s.w.servers[k];
    } else {
      AddsFinalizer(s.w, k, true);
      acts := ReconcilePlays(s, k, true);
    }
  }

  lemma EquipOne(s: State, k: Name) returns (acts: seq<Act>)
    requires Rest(s) && Held(s.w.servers, k, SERVER_FINALIZER) && !Deleting(s.w.servers[k])
    ensures Schedule(s, acts) && Rest(Play(s, acts)) && NoOwner(acts)
    ensures Prepared(s.w, Play(s, acts).w, {k})
  {
    assert WithFinalizer(s.w.servers[k], SERVER_FINALIZER) == s.w.servers[k];
    if k in s.w.pods {
      acts := [];
    } else {
      AddsPod(s.w, k, true);
      acts := ReconcilePlays(s, k, true);
    }
  }

  /** Reconciling each of them sets up any number of live servers. */
  lemma {:induction false} SetUpServers(s: State, ks: set<Name>) returns (acts: seq<Act>)
    requires Rest(s) && forall k :: k in ks ==> k in s.w.servers && !Deleting(s.w.servers[k])
    ensures Schedule(s, acts) && Rest(Play(s, acts)) && NoOwner(acts)
    ensures Prepared(s.w, Play(s, acts).w, ks)
    decreases |ks|
  {
    if ks == {} {
      acts := [];
    } else {
      var k :| k in ks;
      var first := SetUpServers(s, ks - {k});
      var t := Play(s, first);
      var second := ProtectOne(t, k);
      var u := Play(t, second);
      var third := EquipOne(u, k);
      Then(t, second, third);
      Then(s, first, second + third);
      acts := first + (second + third);
      PreparedMore(s.w, t.w, u.w, Play(u, third).w, ks, k);
    }
  }

  lemma PreparedMore(w: World, w1: World, w2: World, w3: World, ks: set<Name>, k: Name)
    requires k in ks && k in w.servers && Prepared(w, w1, ks - {k})
    requires k in w1.servers && w2 == w1.(servers := w1.servers[k := WithFinalizer(w1.servers[k], SERVER_FINALIZER)])
    requires Prepared(w2, w3, {k})
    ensures Prepared(w, w3, ks)
  {
    assert WithFinalizer(w2.servers[k], SERVER_FINALIZER) == w2.servers[k];
    forall j | j in w.servers
      ensures w3.servers[j] == if j in ks then WithFinalizer(w.servers[j], SERVER_FINALIZER) else w.servers[j]
    {
      if j != k {
        assert w3.servers[j] == w2.servers[j] == w1.servers[j];
      }
    }
  }

  // ---------------------------------------------------------------- releasing

  /**
   What IsDeletionAllowed answers for a server and its pod in this world: the pod is not running,
   force is set, the deadline has passed, or the sidecar answers and allows it.
   */
  predicate CheckPasses(w: World, s: Server, p: Pod, reach: bool) {
    || p.body.phase != Running
    || s.body.force
    || (s.body.timeout.Some? && s.meta.deleted.Some? && s.meta.deleted.value + s.body.timeout.value < w.clock)
    || (reach && SidecarOf(w, p.meta.uid).deleteAllowed)
  }

  lemma ReleaseFinishes(w: World, k: Name, s: Server, p: Pod, reach: bool)
    requires k in w.servers && w.servers[k] == s && k in w.pods && w.pods[k] == p && Deleting(s)
    ensures var w' := Finish(w, k, Release(s, p), reach);
            && w'.servers == Put(w.servers, k, WithoutFinalizer(s, SERVER_FINALIZER))
            && k in w'.pods && Deleting(w'.pods[k]) && !Held(w'.pods, k, SERVER_FINALIZER)
  {
    if SERVER_FINALIZER in p.meta.finalizers {
      var w1 := w.(pods := w.pods[k := WithoutFinalizer(p, SERVER_FINALIZER)]);
      assert Finish(w, k, SUnprotectPod(s, p), reach) == Finish(w1, k, SGetPodAgain(s), reach);
      assert Finish(w1, k, SGetPodAgain(s), reach) == Finish(w1, k, SDeletePod(s), reach);
      KillFinishes(w1, k, s, reach);
    } else {
      KillFinishes(w, k, s, reach);
    }
  }

  lemma KillFinishes(w: World, k: Name, s: Server, reach: bool)
    requires k in w.servers && w.servers[k] == s && k in w.pods && !Held(w.pods, k, SERVER_FINALIZER)
    requires Deleting(s)
    ensures var w' := Finish(w, k, SDeletePod(s), reach);
            && w'.servers == Put(w.servers, k, WithoutFinalizer(s, SERVER_FINALIZER))
            && k in w'.pods && Deleting(w'.pods[k]) && !Held(w'.pods, k, SERVER_FINALIZER)
  {
    var w1 := w.(pods := Mark(w.pods, k, w.clock));
    var t := WithoutFinalizer(s, SERVER_FINALIZER);
    assert Finish(w, k, SDeletePod(s), reach) == Finish(w1, k, SRemoveFinalizer(s), reach);
    assert Finish(w1, k, SRemoveFinalizer(s), reach) == SetServer(w1, k, s, t, true);
  }

  /**
   An undisturbed reconcile of a deleting server takes its finalizer off exactly when its pod is
   still there and not running, or force is set, or the deadline has passed, or the sidecar answers
   and allows it. The pod is then marked and no longer protected, and the server goes exactly when
   nobody else's finalizer holds it.
   */
  lemma ReconcileReleasesIff(w: World, k: Name, reach: bool)
    requires Held(w.servers, k, SERVER_FINALIZER) && Deleting(w.servers[k])
    ensures !Held(Reconcile(w, k, reach).servers, k, SERVER_FINALIZER) <==>
      && k in w.pods
      && var s, p := w.servers[k], w.pods[k];
         || p.body.phase != Running
         || s.body.force
         || (s.body.timeout.Some? && s.meta.deleted.value + s.body.timeout.value < w.clock)
         || (reach && SidecarOf(w, p.meta.uid).deleteAllowed)
    ensures !Held(Reconcile(w, k, reach).servers, k, SERVER_FINALIZER) ==>
      var w' := Reconcile(w, k, reach);
      k in w'.pods && Deleting(w'.pods[k]) && !Held(w'.pods, k, SERVER_FINALIZER)
    ensures k !in Reconcile(w, k, reach).servers
            <==> !Held(Reconcile(w, k, reach).servers, k, SERVER_FINALIZER)
                 && w.servers[k].meta.finalizers == {SERVER_FINALIZER}
  {
    var s := w.servers[k];
    if k in w.pods && CheckPasses(w, s, w.pods[k], reach) {
      Releasing(w, k, reach);
    } else {
      Refusing(w, k, reach);
    }
  }

  lemma Releasing(w: World, k: Name, reach: bool)
    requires Held(w.servers, k, SERVER_FINALIZER) && Deleting(w.servers[k])
    requires k in w.pods && CheckPasses(w, w.servers[k], w.pods[k], reach)
    ensures var w' := Reconcile(w, k, reach);
            && w'.servers == Put(w.servers, k, WithoutFinalizer(w.servers[k], SERVER_FINALIZER))
            && k in w'.pods && Deleting(w'.pods[k]) && !Held(w'.pods, k, SERVER_FINALIZER)
  {
    var s, p := w.servers[k], w.pods[k];
    if AllowedOutright(s, p, w.clock) {
      ReleaseFinishes(w, k, s, p, reach);
      assert Finish(w, k, SCheck(s, p), reach) == Finish(w, k, Release(s, p), reach);
    } else {
      var w1 := Shutdown(w, p.meta.uid);
      assert SidecarOf(w1, p.meta.uid).deleteAllowed;
      ReleaseFinishes(w1, k, s, p, reach);
      AskOutcome(w1, k, s, p, reach);
      assert Finish(w, k, SShutdown(s, p), reach) == Finish(w1, k, SAsk(s, p), reach);
      assert Finish(w, k, SCheck(s, p), reach) == Finish(w, k, SShutdown(s, p), reach);
    }
    assert Finish(w, k, SDeletionPod(s), reach) == Finish(w, k, SCheck(s, p), reach);
  }

  lemma Refusing(w: World, k: Name, reach: bool)
    requires k in w.servers && Deleting(w.servers[k])
    requires k in w.pods ==> !CheckPasses(w, w.servers[k], w.pods[k], reach)
    ensures Reconcile(w, k, reach).servers == w.servers
  {
    var s := w.servers[k];
    if k in w.pods {
      var p := w.pods[k];
      var w1 := Shutdown(w, p.meta.uid);
      assert SidecarOf(w1, p.meta.uid).deleteAllowed == SidecarOf(w, p.meta.uid).deleteAllowed;
      AskOutcome(w1, k, s, p, reach);
      assert Finish(w, k, SShutdown(s, p), reach).servers == w.servers;
      assert Finish(w, k, SCheck(s, p), reach) == Finish(w, k, SShutdown(s, p), reach);
      assert Finish(w, k, SDeletionPod(s), reach) == Finish(w, k, SCheck(s, p), reach);
    } else {
      assert Finish(w, k, SDeletionPod(s), reach) == w;
    }
  }

  lemma AskOutcome(w: World, k: Name, s: Server, p: Pod, reach: bool)
    ensures Finish(w, k, SAsk(s, p), reach) ==
            if reach && SidecarOf(w, p.meta.uid).deleteAllowed then Finish(w, k, Release(s, p), reach) else w
  {}

  /** If it lets the server go, the server is all that goes. */
  lemma ReleaseTakesOnly(w: World, k: Name, reach: bool)
    requires k !in Reconcile(w, k, reach).servers
    ensures var w' := Reconcile(w, k, reach);
            && w'.servers == w.servers - {k} && w'.pods - {k} == w.pods - {k}
            && w'.fleets == w.fleets && w'.games == w.games
  {
    var w' := Reconcile(w, k, reach);
    var (w1, pc1) := ServerNext(w, k, SIdle, true);
    FinishIsLocal(w1, k, pc1, reach);
    assert w'.servers == w'.servers - {k};
  }

  /** The check passes at the latest when the deadline has passed. */
  predicate Overdue(w: World, k: Name)
    requires k in w.servers
  {
    var s := w.servers[k];
    Deleting(s) && s.body.timeout.Some? && s.meta.deleted.value + s.body.timeout.value < w.clock
  }

  /**
   Bounded blocking: once the deadline of a deleting server has passed, an undisturbed
   reconcile at any later time releases it and its pod, whatever the sidecar says.
   */
  lemma DeadlineReleases(w: World, k: Name, late: nat, reach: bool)
    requires Held(w.servers, k, SERVER_FINALIZER) && Overdue(w, k) && k in w.pods
    ensures var w' := Reconcile(w.(clock := w.clock + late), k, reach);
            && !Held(w'.servers, k, SERVER_FINALIZER) && !Held(w'.pods, k, SERVER_FINALIZER)
            && (w.servers[k].meta.finalizers == {SERVER_FINALIZER} ==> k !in w'.servers)
  {
    ReconcileReleasesIff(w.(clock := w.clock + late), k, reach);
  }

  /**
   So waiting for the deadline and reconciling once releases any deleting server that still has
   its pod and that nobody else holds, and touches no other server, no other pod and no owner.
   */
  lemma WaitAndRelease(s: State, k: Name) returns (acts: seq<Act>)
    requires Inv(s) && SPc(s, k) == SIdle && k in s.w.servers && Deleting(s.w.servers[k]) && k in s.w.pods
    requires s.w.servers[k].meta.finalizers == {SERVER_FINALIZER}
    ensures Schedule(s, acts) && NoOwner(acts) && OnlyWorked(s, Play(s, acts), k) && Inv(Play(s, acts))
    ensures Rest(s) ==> Rest(Play(s, acts))
    ensures var w := Play(s, acts).w;
            && w.servers == s.w.servers - {k} && w.pods - {k} == s.w.pods - {k}
            && w.fleets == s.w.fleets && w.games == s.w.games
  {
    var d := TimeLeft(s, k);
    var wait := Env(Tick(d));
    One(s, wait);
    var t := Next(s, wait);
    var rest := ReconcilePlays(t, k, true);
    Then(s, [wait], rest);
    acts := [wait] + rest;
    ReconcileReleasesIff(t.w, k, true);
    ReleaseTakesOnly(t.w, k, true);
    AfterWork(s, acts, k);
  }

  /** How long until the deadline has passed. */
  lemma TimeLeft(s: State, k: Name) returns (d: nat)
    requires Inv(s) && k in s.w.servers && Deleting(s.w.servers[k])
    ensures Overdue(s.w.(clock := s.w.clock + d), k)
  {
    InvIsAdmitted(s);
    assert Admitted(s.w, k);
    var o := s.w.servers[k];
    var due := o.meta.deleted.value + o.body.timeout.value;
    d := if due < s.w.clock then 0 else due - s.w.clock + 1;
  }

  lemma AfterWork(s: State, acts: seq<Act>, k: Name)
    requires Inv(s) && OnlyWorked(s, Play(s, acts), k)
    ensures Inv(Play(s, acts)) && (Rest(s) ==> Rest(Play(s, acts)))
  {
    PlayKeepsInv(s, acts);
    if Rest(s) {
      WorkedIdle(s, Play(s, acts), k);
      RestAfter(s, acts);
    }
  }

  /** In every run every stored server has such a deadline. */
  lemma EveryServerHasDeadline(run: seq<State>, i: nat, k: Name)
    requires IsRun(run) && i < |run|
    requires AllIdle(run[0]) && Orderly(run[0].w)
    requires k in run[i].w.servers
    ensures run[i].w.servers[k].body.timeout.Some?
  {
    AlwaysOrderly(run, i);
    assert Admitted(run[i].w, k);
  }

  /** No pod runs on without its server: when a server loses its finalizer, its pod is gone or marked. */
  lemma PodGoesWithServer(run: seq<State>, i: nat, k: Name)
    requires IsRun(run) && i + 1 < |run|
    requires AllIdle(run[0]) && Orderly(run[0].w)
    ensures Held(run[i].w.servers, k, SERVER_FINALIZER) && !Held(run[i + 1].w.servers, k, SERVER_FINALIZER) ==>
      k in run[i + 1].w.pods ==> Deleting(run[i + 1].w.pods[k]) && !Held(run[i + 1].w.pods, k, SERVER_FINALIZER)
    ensures k in run[i].w.pods && !Deleting(run[i].w.pods[k]) ==> k in run[i].w.servers
  {
    AlwaysOrderly(run, i);
    AlwaysOrderly(run, i + 1);
    assert !Held(run[i + 1].w.servers, k, SERVER_FINALIZER) ==> !Standing(run[i + 1].w, k);
    assert Standing(run[i].w, k) ==> Held(run[i].w.servers, k, SERVER_FINALIZER);
  }

  /** A pod that could not be created leaves its server labelled, if it has any labels. */
  lemma FailedCreateLabels(w: World, k: Name, s: Server)
    requires k in w.servers && w.servers[k] == s && !Deleting(s) && k !in w.pods
    ensures var (w1, pc1) := ServerNext(w, k, SCreatePod(s), false);
      var (w2, pc2) := ServerNext(w1, k, pc1, true);
      && pc2 == SIdle && w2.pods == w.pods && w2.servers.Keys == w.servers.Keys
      && w2.servers[k].meta == s.meta && w2.servers[k].body == s.body
      && w2.servers[k].labels == if s.labels == map[] then map[] else s.labels["server" := k]
  {}

  // ---------------------------------------------------------------- the fleet's own check

  /**
   The two checks agree: the server that a fleet picks because its sidecar allows deletion is
   released by its first undisturbed reconcile in any later world in which it is marked, its pod
   is the same one, and the sidecar's answer stands.
   */
  lemma ChecksAgree(w: World, spec: FleetSpec, order: seq<Name>, reach: set<Name>, c: V.Candidate, w': World)
    requires forall n :: n in order ==> n in w.servers
    requires spec.prioritizeAllowed && V.Allowed in Checks(w, Items(w, order), reach)
    requires V.FindDeleteServer(spec, WithChecks(Items(w, order), Checks(w, Items(w, order), reach))) == V.Picked(c)
    requires Held(w'.servers, c.name, SERVER_FINALIZER) && Deleting(w'.servers[c.name]) && c.name in w'.pods
    requires c.name in w.pods ==> SamePermission(w, w', c.name)
    ensures !Held(Reconcile(w', c.name, true).servers, c.name, SERVER_FINALIZER)
  {
    PickedIsAllowed(w, spec, order, reach, c);
    ReconcileReleasesIff(w', c.name, true);
  }

  predicate SamePermission(w: World, w': World, k: Name)
    requires k in w.pods && k in w'.pods
  {
    var uid := w.pods[k].meta.uid;
    w'.pods[k].meta.uid == uid && SidecarOf(w', uid).deleteAllowed == SidecarOf(w, uid).deleteAllowed
  }

  lemma PickedIsAllowed(w: World, spec: FleetSpec, order: seq<Name>, reach: set<Name>, c: V.Candidate)
    requires forall n :: n in order ==> n in w.servers
    requires spec.prioritizeAllowed && V.Allowed in Checks(w, Items(w, order), reach)
    requires V.FindDeleteServer(spec, WithChecks(Items(w, order), Checks(w, Items(w, order), reach))) == V.Picked(c)
    ensures c.name in w.pods && SidecarOf(w, w.pods[c.name].meta.uid).deleteAllowed
  {
    var checks := Checks(w, Items(w, order), reach);
    var asked := WithChecks(Items(w, order), checks);
    V.VictimIsAnExtreme(asked, spec.agePriority == NEWEST_FIRST, true);
    var j :| 0 <= j < |checks| && checks[j] == V.Allowed;
    assert V.InPool(true, asked[j]);
    var i :| 0 <= i < |asked| && asked[i] == c;
    assert checks[i] == V.Allowed;
  }

  // ---------------------------------------------------------------- wedged for good

  predicate Finalising(pc: ServerPc) {
    || pc.SDeletionPod? || pc.SCheck? || pc.SShutdown? || pc.SAsk?
    || pc.SUnprotectPod? || pc.SGetPodAgain? || pc.SDeletePod?
  }

  /** A deleting server that has lost its pod before its own finalizer came off. */
  ghost predicate Wedged(s: State, k: Name) {
    && Held(s.w.servers, k, SERVER_FINALIZER) && Deleting(s.w.servers[k])
    && k !in s.w.pods
    && (SPc(s, k) == SIdle || Finalising(SPc(s, k)))
  }

  lemma WedgedStep(s: State, t: State, k: Name)
    requires Inv(s) && Step(s, t) && Wedged(s, k)
    ensures Wedged(t, k) && SameLabel(t.w.servers[k], s.w.servers[k], "fleet")
  {
    assert ServerInv(s.w, k, SPc(s, k));
    if !(t.act.ServerCall? && t.act.k == k) {
      StepSeenByServer(s, t.act, k);
    }
  }

  /**
   Release is not live: a deleting server without a pod keeps its finalizer for ever, under
   every continuation of the run, the passing of its deadline included.
   */
  lemma {:induction false} WedgedForever(run: seq<State>, i: nat, j: nat, k: Name)
    requires IsRun(run) && i <= j < |run|
    requires Inv(run[0])
    requires Wedged(run[i], k)
    ensures Wedged(run[j], k)
  {
    if i < j {
      WedgedForever(run, i, j - 1, k);
      WedgedNext(run, j, k);
    }
  }

  lemma WedgedNext(run: seq<State>, j: nat, k: Name)
    requires IsRun(run) && 0 < j < |run|
    requires Inv(run[0])
    requires Wedged(run[j - 1], k)
    ensures Wedged(run[j], k)
  {
    InvHolds(run, j - 1);
    assert StepAt(run, j);
    WedgedStep(run[j - 1], run[j], k);
  }

  /** The same for schedules, and it stays in its fleet. */
  lemma {:induction false} WedgedPlays(s: State, acts: seq<Act>, k: Name, f: Name)
    requires Rest(s) && k in ServersOf(s.w, f) && Deleting(s.w.servers[k]) && k !in s.w.pods
    requires SERVER_FINALIZER in s.w.servers[k].meta.finalizers
    ensures Wedged(Play(s, acts), k) && k in ServersOf(Play(s, acts).w, f)
  {
    StartInv(s);
    assert SPc(s, k) == SIdle;
    WedgedStays(s, acts, k, f);
  }

  lemma {:induction false} WedgedStays(s: State, acts: seq<Act>, k: Name, f: Name)
    requires Inv(s) && Wedged(s, k) && k in ServersOf(s.w, f)
    ensures Inv(Play(s, acts)) && Wedged(Play(s, acts), k) && k in ServersOf(Play(s, acts).w, f)
    decreases |acts|
  {
    if acts != [] {
      var t := Next(s, acts[0]);
      assert t.act == acts[0];
      WedgedStep(s, t, k);
      NextKeepsInv(s, acts[0]);
      WedgedStays(t, acts[1..], k, f);
    }
  }

  /**
   How a server gets there although its check passes: its pod was already terminating, so the
   kubelet may take it away as soon as the operator's finalizer comes off.
   */
  lemma TerminatingPodWedges(s: State, k: Name)
    requires SPc(s, k) == SIdle
    requires Held(s.w.servers, k, SERVER_FINALIZER) && Deleting(s.w.servers[k])
    requires k in s.w.pods && Deleting(s.w.pods[k]) && s.w.pods[k].meta.finalizers == {SERVER_FINALIZER}
    requires AllowedOutright(s.w.servers[k], s.w.pods[k], s.w.clock)
    ensures var call := ServerCall(k, true);
            Wedged(Next(Next(Next(Next(Next(s, call), call), call), call), Env(ReapPod(k))), k)
  {
    var call := ServerCall(k, true);
    var o, p := s.w.servers[k], s.w.pods[k];
    var s1 := Next(s, call);
    ServerCallTurns(s, k);
    assert SPc(s1, k) == SDeletionPod(o) && s1.w == s.w;
    var s2 := Next(s1, call);
    ServerCallTurns(s1, k);
    assert SPc(s2, k) == SCheck(o, p) && s2.w == s.w;
    var s3 := Next(s2, call);
    ServerCallTurns(s2, k);
    assert SPc(s3, k) == SUnprotectPod(o, p) && s3.w == s.w;
    UnprotectedAndReaped(s3, k, o, p);
  }

  lemma ServerCallTurns(s: State, k: Name)
    ensures var t := Next(s, ServerCall(k, true));
            (t.w, SPc(t, k)) == ServerNext(s.w, k, SPc(s, k), true)
  {}

  lemma UnprotectedAndReaped(s: State, k: Name, o: Server, p: Pod)
    requires SPc(s, k) == SUnprotectPod(o, p) && k in s.w.pods && s.w.pods[k] == p
    requires Held(s.w.servers, k, SERVER_FINALIZER) && Deleting(s.w.servers[k])
    requires Deleting(p) && p.meta.finalizers == {SERVER_FINALIZER}
    ensures Wedged(Next(Next(s, ServerCall(k, true)), Env(ReapPod(k))), k)
  {
    var t := Next(s, ServerCall(k, true));
    ServerCallTurns(s, k);
    var q := WithoutFinalizer(p, SERVER_FINALIZER);
    assert q.meta.finalizers == {};
    assert SPc(t, k) == SGetPodAgain(o) && t.w.pods[k] == q;
  }

  // ---------------------------------------------------------------- no resurrection

  /** The server with this uid, if it is still there, is only being finalised. */
  ghost predicate Released(s: State, k: Name, uid: nat, pod: nat) {
    && uid < s.w.nextUid
    && (k in s.w.servers && s.w.servers[k].meta.uid == uid ==>
          && Deleting(s.w.servers[k])
          && (SPc(s, k) == SIdle || Finalising(SPc(s, k)) || SPc(s, k).SRemoveFinalizer?)
          && !Held(s.w.pods, k, SERVER_FINALIZER)
          && (k in s.w.pods ==> s.w.pods[k].meta.uid == pod))
  }

  lemma ReleasedStaysOwn(s: State, k: Name, ok: bool, uid: nat, pod: nat)
    requires Inv(s) && Released(s, k, uid, pod)
    ensures Released(Next(s, ServerCall(k, ok)), k, uid, pod)
  {
    assert ServerInv(s.w, k, SPc(s, k));
  }

  lemma ReleasedStaysOther(s: State, a: Act, k: Name, uid: nat, pod: nat)
    requires Inv(s) && Released(s, k, uid, pod)
    requires !(a.ServerCall? && a.k == k)
    ensures Released(Next(s, a), k, uid, pod)
  {
    StepSeenByServer(s, a, k);
  }

  lemma {:induction false} ReleasedStays(run: seq<State>, i: nat, j: nat, k: Name, uid: nat, pod: nat)
    requires IsRun(run) && i <= j < |run|
    requires Inv(run[0])
    requires Released(run[i], k, uid, pod)
    ensures Released(run[j], k, uid, pod)
  {
    if i < j {
      ReleasedStays(run, i, j - 1, k, uid, pod);
      ReleasedStep(run, j, k, uid, pod);
    }
  }

  lemma ReleasedStep(run: seq<State>, j: nat, k: Name, uid: nat, pod: nat)
    requires IsRun(run) && 0 < j < |run|
    requires Inv(run[0])
    requires Released(run[j - 1], k, uid, pod)
    ensures Released(run[j], k, uid, pod)
  {
    InvHolds(run, j - 1);
    assert StepAt(run, j);
    if run[j].act.ServerCall? && run[j].act.k == k {
      ReleasedStaysOwn(run[j - 1], k, run[j].act.ok, uid, pod);
    } else {
      ReleasedStaysOther(run[j - 1], run[j].act, k, uid, pod);
    }
  }

  /**
   No resurrection: once the pod of a server has lost its protection, no later step protects or
   replaces the pod of that server again.
   */
  lemma NoResurrection(run: seq<State>, i: nat, j: nat, k: Name)
    requires IsRun(run) && i < j < |run|
    requires Inv(run[0])
    ensures Held(run[i].w.pods, k, SERVER_FINALIZER) && !Held(run[i + 1].w.pods, k, SERVER_FINALIZER) ==>
      k in run[i].w.servers && NotRevived(run[i].w, run[j].w, k)
  {
    if Held(run[i].w.pods, k, SERVER_FINALIZER) && !Held(run[i + 1].w.pods, k, SERVER_FINALIZER) {
      UnprotectedAt(run, i, k);
      ReleasedStays(run, i + 1, j, k, run[i].w.servers[k].meta.uid, run[i].w.pods[k].meta.uid);
    }
  }

  lemma UnprotectedAt(run: seq<State>, i: nat, k: Name)
    requires IsRun(run) && i + 1 < |run|
    requires Inv(run[0])
    ensures Held(run[i].w.pods, k, SERVER_FINALIZER) && !Held(run[i + 1].w.pods, k, SERVER_FINALIZER) ==>
      k in run[i].w.servers && Released(run[i + 1], k, run[i].w.servers[k].meta.uid, run[i].w.pods[k].meta.uid)
  {
    InvHolds(run, i);
    assert StepAt(run, i + 1);
    UnprotectedIsReleased(run[i], run[i + 1], k);
  }

  /** If the server `k` of `w` is still there in `w'`, it is deleting, and its pod unprotected and no other. */
  ghost predicate NotRevived(w: World, w': World, k: Name) {
    k in w.servers && k in w.pods && k in w'.servers && w'.servers[k].meta.uid == w.servers[k].meta.uid ==>
      && Deleting(w'.servers[k])
      && !Held(w'.pods, k, SERVER_FINALIZER)
      && (k in w'.pods ==> w'.pods[k].meta.uid == w.pods[k].meta.uid)
  }

  lemma UnprotectedIsReleased(s: State, t: State, k: Name)
    requires Inv(s) && Step(s, t)
    ensures Held(s.w.pods, k, SERVER_FINALIZER) && !Held(t.w.pods, k, SERVER_FINALIZER) ==>
      k in s.w.servers && Released(t, k, s.w.servers[k].meta.uid, s.w.pods[k].meta.uid)
  {
    assert ServerInv(s.w, k, SPc(s, k));
    if !(t.act.ServerCall? && t.act.k == k) {
      StepSeenByServer(s, t.act, k);
    }
  }
}
