/** The server reconciler, call by call. */
module ServerController {
  import opened Api
  import opened Machine
  import opened Cluster
  import SF = ServerFate

  /** Where the worker of `k` will have brought the store if nothing disturbs it. */
  ghost function Outcome(c: Store, k: Name, reach: bool): World
    requires |c.run| > 0
    reads c
  {
    SF.Finish(c.View(), k, SPc(c.Now(), k), reach)
  }

  /**
   Reconcile of one server. With every call failing or succeeding at will it is a run of the
   machine; undisturbed it is exactly `ServerFate.Reconcile`.
   */
  method Reconcile(c: Store, k: Name, faulty: bool, reach: bool) returns (err: bool)
    requires c.Valid() && SPc(c.Now(), k) == SIdle
    modifies c
    ensures c.Valid() && SPc(c.Now(), k) == SIdle && Continues(old(c.run), c.run, OfServer(k))
    ensures !faulty ==> c.View() == SF.Reconcile(old(c.View()), k, reach)
  {
    c.Begin(OfServer(k));
    var ok := c.Succeeds(faulty);
    c.LogServer(k, ok);
    assert !faulty ==> Outcome(c, k, reach) == SF.Reconcile(old(c.View()), k, reach);
    if !ok {
      return true;
    }
    if k !in c.servers {
      return false;
    }
    var server := c.servers[k];
    if !Deleting(server) && SERVER_FINALIZER !in server.meta.finalizers {
      err := Save(c, k, server, WithFinalizer(server, SERVER_FINALIZER), faulty, reach);
      return err;
    }
    if Deleting(server) {
      err := HandleDeletion(c, k, server, faulty, reach);
      if !err {
        err := Save(c, k, server, WithoutFinalizer(server, SERVER_FINALIZER), faulty, reach);
      }
      return err;
    }
    var found, copy;
    found, err, copy := EnsurePodExists(c, k, server, faulty, reach);
    if err {
      var _ := Save(c, k, server, copy, faulty, reach);
      return true;
    }
    if found {
      err := EnsurePodFinalizer(c, k, server, faulty, reach);
    }
  }

  /** The update that ends a reconcile. */
  method Save(c: Store, k: Name, server: Server, o: Server, faulty: bool, ghost reach: bool) returns (err: bool)
    requires c.Reconciling(OfServer(k))
    requires
      || (SPc(c.Now(), k) == SAddFinalizer(server) && o == WithFinalizer(server, SERVER_FINALIZER))
      || (SPc(c.Now(), k) == SRemoveFinalizer(server) && o == WithoutFinalizer(server, SERVER_FINALIZER))
      || SPc(c.Now(), k) == SReportFailure(server, o)
    modifies c
    ensures c.Reconciling(OfServer(k)) && SPc(c.Now(), k) == SIdle && c.begun == old(c.begun)
    ensures !faulty ==> c.View() == old(Outcome(c, k, reach))
  {
    var ok := c.Succeeds(faulty);
    var done := c.UpdateServer(k, server, o, ok);
    c.LogServer(k, ok);
    assert !faulty ==> Outcome(c, k, reach) == old(Outcome(c, k, reach));
    err := !done;
  }

  method EnsurePodExists(c: Store, k: Name, server: Server, faulty: bool, ghost reach: bool)
    returns (found: bool, err: bool, copy: Server)
    requires c.Reconciling(OfServer(k)) && SPc(c.Now(), k) == SFindPod(server)
    modifies c
    ensures c.Reconciling(OfServer(k)) && c.begun == old(c.begun)
    ensures SPc(c.Now(), k) ==
      if err then SReportFailure(server, copy) else if found then SGetPod(server) else SIdle
    ensures found ==> !err && k in old(c.pods)
    ensures err || found ==> c.View() == old(c.View())
    ensures copy == server
      || (k !in old(c.pods) && server.labels != map[] && copy == server.(labels := server.labels["server" := k]))
    ensures !err && !found ==> k !in old(c.pods) && k in c.pods
    ensures !faulty ==> Outcome(c, k, reach) == old(Outcome(c, k, reach))
  {
    copy := server;
    var ok := c.Succeeds(faulty);
    c.LogServer(k, ok);
    assert !faulty ==> Outcome(c, k, reach) == old(Outcome(c, k, reach));
    if !ok {
      return false, true, copy;
    }
    if k in c.pods {
      return true, false, copy;
    }
    copy := Relabelled(k, server);
    err := MakePod(c, k, server, faulty, reach);
    return false, err, copy;
  }

  method MakePod(c: Store, k: Name, server: Server, faulty: bool, ghost reach: bool) returns (err: bool)
    requires c.Reconciling(OfServer(k)) && SPc(c.Now(), k) == SCreatePod(server) && k !in c.pods
    modifies c
    ensures c.Reconciling(OfServer(k)) && c.begun == old(c.begun)
    ensures SPc(c.Now(), k) == if err then SReportFailure(server, Relabelled(k, server)) else SIdle
    ensures if err then c.View() == old(c.View()) else k in c.pods
    ensures !faulty ==> Outcome(c, k, reach) == old(Outcome(c, k, reach))
  {
    var ok := c.Succeeds(faulty);
    if ok {
      c.CreatePodFor(k, server);
    }
    c.LogServer(k, ok);
    assert !faulty ==> Outcome(c, k, reach) == old(Outcome(c, k, reach));
    err := !ok;
  }

  method EnsurePodFinalizer(c: Store, k: Name, server: Server, faulty: bool, ghost reach: bool) returns (err: bool)
    requires c.Reconciling(OfServer(k)) && SPc(c.Now(), k) == SGetPod(server)
    modifies c
    ensures c.Reconciling(OfServer(k)) && SPc(c.Now(), k) == SIdle && c.begun == old(c.begun)
    ensures !faulty ==> c.View() == old(Outcome(c, k, reach))
  {
    var ok := c.Succeeds(faulty);
    c.LogServer(k, ok);
    assert !faulty ==> Outcome(c, k, reach) == old(Outcome(c, k, reach));
    if !ok || k !in c.pods {
      return true;
    }
    var pod := c.pods[k];
    if SERVER_FINALIZER in pod.meta.finalizers {
      return false;
    }
    err := ProtectPod(c, k, server, pod, faulty, reach);
  }

  method ProtectPod(c: Store, k: Name, server: Server, pod: Pod, faulty: bool, ghost reach: bool) returns (err: bool)
    requires c.Reconciling(OfServer(k)) && SPc(c.Now(), k) == SProtectPod(server, pod)
    modifies c
    ensures c.Reconciling(OfServer(k)) && SPc(c.Now(), k) == SIdle && c.begun == old(c.begun)
    ensures !faulty ==> c.View() == old(Outcome(c, k, reach))
  {
    var ok := c.Succeeds(faulty);
    var done := c.UpdatePod(k, pod, WithFinalizer(pod, SERVER_FINALIZER), ok);
    c.LogServer(k, ok);
    assert !faulty ==> Outcome(c, k, reach) == old(Outcome(c, k, reach));
    err := !done;
  }

  /** The deletion check: phase, force and deadline first, then the sidecar. */
  method IsDeletionAllowed(c: Store, k: Name, server: Server, pod: Pod, faulty: bool, reach: bool)
    returns (allowed: bool, err: bool)
    requires c.Reconciling(OfServer(k)) && SPc(c.Now(), k) == SCheck(server, pod) && Deleting(server)
    modifies c
    ensures c.Reconciling(OfServer(k)) && c.begun == old(c.begun)
    ensures SPc(c.Now(), k) == if allowed then Release(server, pod) else SIdle
    ensures err ==> !allowed
    ensures c.View() == old(c.View()) || c.View() == Shutdown(old(c.View()), pod.meta.uid)
    ensures !faulty && reach && !allowed ==> !err && SidecarOf(c.View(), pod.meta.uid).shutdownRequested
    ensures allowed ==>
      || pod.body.phase != Running
      || server.body.force
      || (server.body.timeout.Some? && server.meta.deleted.value + server.body.timeout.value < c.clock)
      || (reach && SidecarOf(old(c.View()), pod.meta.uid).deleteAllowed)
    ensures !faulty && !allowed ==>
      && pod.body.phase == Running
      && !server.body.force
      && (server.body.timeout.Some? ==> c.clock <= server.meta.deleted.value + server.body.timeout.value)
      && (reach ==> !SidecarOf(old(c.View()), pod.meta.uid).deleteAllowed)
    ensures !faulty ==> Outcome(c, k, reach) == old(Outcome(c, k, reach))
  {
    c.LogServer(k, true);
    assert !faulty ==> Outcome(c, k, reach) == old(Outcome(c, k, reach));
    if pod.body.phase != Running {
      return true, false;
    }
    if server.body.force {
      return true, false;
    }
    if server.body.timeout.Some? {
      var timeWhenAllowDelete := server.meta.deleted.value + server.body.timeout.value;
      if timeWhenAllowDelete < c.clock {
        return true, false;
      }
    }
    allowed, err := AskSidecar(c, k, server, pod, faulty, reach);
  }

  /** Requests the shutdown, and asks for permission once the request is delivered. */
  method AskSidecar(c: Store, k: Name, server: Server, pod: Pod, faulty: bool, reach: bool)
    returns (allowed: bool, err: bool)
    requires c.Reconciling(OfServer(k)) && SPc(c.Now(), k) == SShutdown(server, pod)
    modifies c
    ensures c.Reconciling(OfServer(k)) && c.begun == old(c.begun)
    ensures SPc(c.Now(), k) == if allowed then Release(server, pod) else SIdle
    ensures err ==> !allowed
    ensures !faulty ==> (err <==> !reach)
    ensures !err ==> c.View() == Shutdown(old(c.View()), pod.meta.uid)
    ensures allowed ==> reach && SidecarOf(old(c.View()), pod.meta.uid).deleteAllowed
    ensures c.View() == old(c.View()) || c.View() == Shutdown(old(c.View()), pod.meta.uid)
    ensures !faulty ==> allowed == (reach && SidecarOf(old(c.View()), pod.meta.uid).deleteAllowed)
    ensures !faulty ==> Outcome(c, k, reach) == old(Outcome(c, k, reach))
  {
    var ok := PostShutdown(c, k, server, pod, faulty, reach);
    if !ok {
      return false, true;
    }
    ok := c.Succeeds(faulty);
    allowed := c.AskPermission(pod.meta.uid);
    c.LogServer(k, ok);
    assert !faulty ==> Outcome(c, k, reach) == old(Outcome(c, k, reach));
    return ok && allowed, !ok;
  }

  method PostShutdown(c: Store, k: Name, server: Server, pod: Pod, faulty: bool, reach: bool) returns (ok: bool)
    requires c.Reconciling(OfServer(k)) && SPc(c.Now(), k) == SShutdown(server, pod)
    modifies c
    ensures c.Reconciling(OfServer(k)) && c.begun == old(c.begun)
    ensures SPc(c.Now(), k) == if ok then SAsk(server, pod) else SIdle
    ensures c.View() == if ok then Shutdown(old(c.View()), pod.meta.uid) else old(c.View())
    ensures ok ==> reach
    ensures !faulty ==> ok == reach
    ensures !faulty ==> Outcome(c, k, reach) == old(Outcome(c, k, reach))
  {
    ok := c.Succeeds(faulty);
    ok := ok && reach;
    if ok {
      c.RequestShutdown(pod.meta.uid);
    }
    c.LogServer(k, ok);
    assert !faulty ==> Outcome(c, k, reach) == old(Outcome(c, k, reach));
  }

  /** The pod is marked for deletion, and our finalizer does not keep it. */
  predicate PodIsGoing(pods: map<Name, Pod>, k: Name) {
    k in pods && pods[k].meta.deleted.Some? && SERVER_FINALIZER !in pods[k].meta.finalizers
  }

  /** Without an error the deletion was allowed, and the pod is on its way out. */
  method HandleDeletion(c: Store, k: Name, server: Server, faulty: bool, reach: bool) returns (err: bool)
    requires c.Reconciling(OfServer(k)) && SPc(c.Now(), k) == SDeletionPod(server) && Deleting(server)
    modifies c
    ensures c.Reconciling(OfServer(k)) && c.begun == old(c.begun)
    ensures SPc(c.Now(), k) == if err then SIdle else SRemoveFinalizer(server)
    ensures !err ==> PodIsGoing(c.pods, k)
    ensures !err ==> k in old(c.pods) && SF.CheckPasses(old(c.View()), server, old(c.pods)[k], reach)
    ensures !faulty && err ==> k in old(c.pods) ==> !SF.CheckPasses(old(c.View()), server, old(c.pods)[k], reach)
    ensures !faulty ==> Outcome(c, k, reach) == old(Outcome(c, k, reach))
  {
    var ok := c.Succeeds(faulty);
    c.LogServer(k, ok);
    assert !faulty ==> Outcome(c, k, reach) == old(Outcome(c, k, reach));
    if !ok || k !in c.pods {
      return true;
    }
    var pod := c.pods[k];
    var allowed;
    allowed, err := IsDeletionAllowed(c, k, server, pod, faulty, reach);
    if err || !allowed {
      return true;
    }
    if SERVER_FINALIZER in pod.meta.finalizers {
      err := UnprotectPod(c, k, server, pod, faulty, reach);
      if err {
        return true;
      }
    }
    err := KillPod(c, k, server, faulty, reach);
  }

  /** Takes the finalizer off the pod and reads the pod again. */
  method UnprotectPod(c: Store, k: Name, server: Server, pod: Pod, faulty: bool, ghost reach: bool) returns (err: bool)
    requires c.Reconciling(OfServer(k)) && SPc(c.Now(), k) == SUnprotectPod(server, pod)
    requires k in c.pods && c.pods[k] == pod
    modifies c
    ensures c.Reconciling(OfServer(k)) && c.begun == old(c.begun)
    ensures SPc(c.Now(), k) == if err then SIdle else SDeletePod(server)
    ensures !err ==> k in c.pods && SERVER_FINALIZER !in c.pods[k].meta.finalizers
    ensures !faulty ==> !err
    ensures !faulty ==> Outcome(c, k, reach) == old(Outcome(c, k, reach))
  {
    var ok := c.Succeeds(faulty);
    ok := c.UpdatePod(k, pod, WithoutFinalizer(pod, SERVER_FINALIZER), ok);
    c.LogServer(k, ok);
    assert !faulty ==> Outcome(c, k, reach) == old(Outcome(c, k, reach));
    if !ok {
      return true;
    }
    ok := c.Succeeds(faulty);
    c.LogServer(k, ok);
    assert !faulty ==> Outcome(c, k, reach) == old(Outcome(c, k, reach));
    err := !ok || k !in c.pods;
  }

  method KillPod(c: Store, k: Name, server: Server, faulty: bool, ghost reach: bool) returns (err: bool)
    requires c.Reconciling(OfServer(k)) && SPc(c.Now(), k) == SDeletePod(server)
    requires k in c.pods && SERVER_FINALIZER !in c.pods[k].meta.finalizers
    modifies c
    ensures c.Reconciling(OfServer(k)) && c.begun == old(c.begun)
    ensures SPc(c.Now(), k) == if err then SIdle else SRemoveFinalizer(server)
    ensures !err ==> PodIsGoing(c.pods, k)
    ensures !faulty ==> !err
    ensures !faulty ==> Outcome(c, k, reach) == old(Outcome(c, k, reach))
  {
    var ok := c.Succeeds(faulty);
    if ok {
      c.DeletePod(k);
    }
    c.LogServer(k, ok);
    assert !faulty ==> Outcome(c, k, reach) == old(Outcome(c, k, reach));
    err := !ok;
  }
}
