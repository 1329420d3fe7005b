/**
 Release safety: a server, and its pod, lose their protection only after a deletion check of
 that server that was entitled to pass. The evidence is in the run itself, in the worlds the
 worker really went through, not in a log the worker keeps.
 */
module ReleaseSafety {
  import opened Api
  import opened Machine
  import opened Lifecycle

  /** At `h` the deleting server `s` was stored under `k`, and at `i`, no earlier, the pod `p`. */
  ghost predicate Saw(run: seq<State>, h: nat, i: nat, k: Name, s: Server, p: Pod) {
    && h <= i < |run|
    && k in run[h].w.servers && run[h].w.servers[k] == s && Deleting(s)
    && k in run[i].w.pods && run[i].w.pods[k] == p
  }

  /** Step `j` is the delivery of the shutdown request of this worker to the sidecar of `p`. */
  ghost predicate Delivered(run: seq<State>, j: nat, k: Name, s: Server, p: Pod) {
    && 0 < j < |run|
    && SPc(run[j - 1], k) == SShutdown(s, p) && run[j].act == ServerCall(k, true)
    && SidecarOf(run[j].w, p.meta.uid).shutdownRequested
  }

  /**
   The worker of `k` checked server `s` with pod `p`, read by step `i`, at `j`, and the check was
   entitled to pass: the pod was not running, force was set, the deadline had passed, or the
   sidecar, asked then, allowed deletion after the shutdown request had been delivered to it.
   */
  ghost predicate Entitled(run: seq<State>, i: nat, j: nat, k: Name, s: Server, p: Pod) {
    && i <= j < |run|
    && (|| (SPc(run[j], k) == SCheck(s, p) && Outright(s, p, run[j].w.clock))
        || (SPc(run[j], k) == SAsk(s, p) && SidecarOf(run[j].w, p.meta.uid).deleteAllowed
            && exists d: nat :: i < d <= j && Delivered(run, d, k, s, p)))
  }

  /** The grounds that need no sidecar. */
  predicate Outright(s: Server, p: Pod, now: int) {
    || p.body.phase != Running
    || s.body.force
    || (s.body.timeout.Some? && s.meta.deleted.Some? && s.meta.deleted.value + s.body.timeout.value < now)
  }

  /** By step `n` a check of the server `k` with this uid was made that was entitled to pass. */
  ghost predicate Justified(run: seq<State>, n: nat, k: Name, uid: nat) {
    exists h: nat, i: nat, j: nat, s: Server, p: Pod ::
      j <= n && s.meta.uid == uid && Saw(run, h, i, k, s, p) && Entitled(run, i, j, k, s, p)
  }

  // ---------------------------------------------------------------- what a worker knows

  ghost predicate SawBy(run: seq<State>, n: nat, k: Name, s: Server, p: Pod) {
    exists h: nat, i: nat :: i <= n && Saw(run, h, i, k, s, p)
  }

  ghost predicate SawServer(run: seq<State>, n: nat, k: Name, s: Server) {
    Deleting(s) && exists h: nat :: h <= n && h < |run| && k in run[h].w.servers && run[h].w.servers[k] == s
  }

  ghost predicate PostedBy(run: seq<State>, n: nat, k: Name, s: Server, p: Pod) {
    exists h: nat, i: nat, d: nat ::
      i < d <= n && Saw(run, h, i, k, s, p) && Delivered(run, d, k, s, p)
  }

  ghost predicate Evidence(run: seq<State>, n: nat, k: Name)
    requires n < |run|
  {
    match SPc(run[n], k)
    case SDeletionPod(s) => SawServer(run, n, k, s)
    case SCheck(s, p) => SawBy(run, n, k, s, p)
    case SShutdown(s, p) => SawBy(run, n, k, s, p)
    case SAsk(s, p) => PostedBy(run, n, k, s, p)
    case SUnprotectPod(s, p) => Justified(run, n, k, s.meta.uid)
    case SGetPodAgain(s) => Justified(run, n, k, s.meta.uid)
    case SDeletePod(s) => Justified(run, n, k, s.meta.uid)
    case SRemoveFinalizer(s) => Justified(run, n, k, s.meta.uid)
    case _ => true
  }

  lemma CheckGathers(run: seq<State>, n: nat, k: Name, s: Server, p: Pod)
    requires IsRun(run) && n + 1 < |run|
    requires SPc(run[n], k) == SCheck(s, p) && SawBy(run, n, k, s, p)
    requires AllowedOutright(s, p, run[n].w.clock)
    ensures Justified(run, n + 1, k, s.meta.uid)
  {
    var h: nat, i: nat :| i <= n && Saw(run, h, i, k, s, p);
    assert Entitled(run, i, n, k, s, p);
  }

  lemma AskGathers(run: seq<State>, n: nat, k: Name, s: Server, p: Pod)
    requires IsRun(run) && n + 1 < |run|
    requires SPc(run[n], k) == SAsk(s, p) && PostedBy(run, n, k, s, p)
    requires SidecarOf(run[n].w, p.meta.uid).deleteAllowed
    ensures Justified(run, n + 1, k, s.meta.uid)
  {
    var h: nat, i: nat, d: nat :|
      i < d <= n && Saw(run, h, i, k, s, p) && Delivered(run, d, k, s, p);
    assert Entitled(run, i, n, k, s, p);
  }

  lemma ShutdownGathers(run: seq<State>, n: nat, k: Name, s: Server, p: Pod)
    requires IsRun(run) && n + 1 < |run|
    requires SPc(run[n], k) == SShutdown(s, p) && SawBy(run, n, k, s, p)
    requires run[n + 1].act == ServerCall(k, true)
    ensures PostedBy(run, n + 1, k, s, p)
  {
    var h: nat, i: nat :| i <= n && Saw(run, h, i, k, s, p);
    assert StepAt(run, n + 1);
    assert Delivered(run, n + 1, k, s, p);
  }

  lemma PodGathers(run: seq<State>, n: nat, k: Name, s: Server)
    requires n + 1 < |run| && SawServer(run, n, k, s)
    requires k in run[n].w.pods
    ensures SawBy(run, n + 1, k, s, run[n].w.pods[k])
  {
    var h: nat :| h <= n && h < |run| && k in run[h].w.servers && run[h].w.servers[k] == s;
    assert Saw(run, h, n, k, s, run[n].w.pods[k]);
  }

  lemma OwnStepGathers(run: seq<State>, n: nat, k: Name, ok: bool)
    requires IsRun(run) && n + 1 < |run| && Evidence(run, n, k)
    requires run[n + 1].act == ServerCall(k, ok)
    ensures Evidence(run, n + 1, k)
  {
    assert StepAt(run, n + 1);
    match SPc(run[n], k)
    case SDeletionPod(s) =>
      if k in run[n].w.pods {
        PodGathers(run, n, k, s);
      }
    case SCheck(s, p) =>
      if AllowedOutright(s, p, run[n].w.clock) {
        CheckGathers(run, n, k, s, p);
      }
    case SShutdown(s, p) =>
      if ok {
        ShutdownGathers(run, n, k, s, p);
      }
    case SAsk(s, p) =>
      if SidecarOf(run[n].w, p.meta.uid).deleteAllowed {
        AskGathers(run, n, k, s, p);
      }
    case _ =>
  }

  lemma {:induction false} EvidenceHolds(run: seq<State>, n: nat, k: Name)
    requires IsRun(run) && n < |run| && AllIdle(run[0])
    ensures Evidence(run, n, k)
  {
    if n > 0 {
      EvidenceHolds(run, n - 1, k);
      assert StepAt(run, n);
      if run[n].act.ServerCall? && run[n].act.k == k {
        OwnStepGathers(run, n - 1, k, run[n].act.ok);
      } else if run[n].act != ServerCut(k) {
        assert SPc(run[n], k) == SPc(run[n - 1], k);
      }
    }
  }

  // ---------------------------------------------------------------- the theorem

  /** The finalizer of the server `k`, or that of its pod, comes off. */
  ghost predicate LosesProtection(w: World, w': World, k: Name) {
    || (Held(w.servers, k, SERVER_FINALIZER) && !Held(w'.servers, k, SERVER_FINALIZER))
    || (Held(w.pods, k, SERVER_FINALIZER) && !Held(w'.pods, k, SERVER_FINALIZER))
  }

  /**
   Under every interleaving and with reconciles cut off anywhere: when a server's finalizer
   comes off, or its pod's, a check of this very server was entitled to pass before.
   */
  lemma ReleaseIsJustified(run: seq<State>, i: nat, k: Name)
    requires IsRun(run) && i + 1 < |run|
    requires AllIdle(run[0]) && Orderly(run[0].w)
    ensures LosesProtection(run[i].w, run[i + 1].w, k) ==>
      k in run[i].w.servers && Justified(run, i, k, run[i].w.servers[k].meta.uid)
  {
    StartInv(run[0]);
    InvHolds(run, i);
    assert ServerInv(run[i].w, k, SPc(run[i], k));
    assert StepAt(run, i + 1);
    if !(run[i + 1].act.ServerCall? && run[i + 1].act.k == k) {
      StepSeenByServer(run[i], run[i + 1].act, k);
    }
    EvidenceHolds(run, i, k);
  }
}
