/** The admission webhooks of Fleet and Server: defaulting and validation. */
module Admission {
  import opened Api

  const OLDEST_FIRST := "oldest_first"
  const NEWEST_FIRST := "newest_first"

  /** Forty minutes. */
  const DEFAULT_TIMEOUT: int := 40 * 60 * 1_000_000_000

  /** The admitted spec `r` is `s`, with forty minutes (in nanoseconds) for an absent timeout. */
  predicate AdmittedAs(s: ServerSpec, r: ServerSpec) {
    && r.pod == s.pod && r.force == s.force
    && (s.timeout.Some? ==> r.timeout == s.timeout)
    && (s.timeout.None? ==> r.timeout == Some(2_400_000_000_000))
  }

  predicate FleetAdmittedAs(s: FleetSpec, r: FleetSpec) {
    && AdmittedAs(s.server, r.server) && r.replicas == s.replicas
    && r.prioritizeAllowed == s.prioritizeAllowed && r.agePriority == s.agePriority
  }

  function DefaultServer(s: ServerSpec): (r: ServerSpec)
    ensures AdmittedAs(s, r)
  {
    if s.timeout.None? then s.(timeout := Some(DEFAULT_TIMEOUT)) else s
  }

  function DefaultFleet(s: FleetSpec): (r: FleetSpec)
    ensures FleetAdmittedAs(s, r)
  {
    s.(server := DefaultServer(s.server))
  }

  predicate ImagesGiven(p: PodSpec) {
    forall c :: c in p.containers ==> c.image != ""
  }

  predicate ValidServer(s: ServerSpec) {
    |s.pod.containers| >= 1 && ImagesGiven(s.pod)
  }

  predicate ValidPriority(p: string) {
    p != "" && (p == OLDEST_FIRST || p == NEWEST_FIRST)
  }

  predicate ValidFleet(s: FleetSpec) {
    ValidPriority(s.agePriority) && ImagesGiven(s.server.pod) && s.server.timeout.Some?
  }

  /** Fleet.ValidateUpdate: the priority must stay valid and the pod template must not change. */
  predicate ValidFleetUpdate(before: FleetSpec, after: FleetSpec) {
    ValidPriority(after.agePriority) && before.server.pod == after.server.pod
  }

  /** Server.ValidateUpdate: the pod template must not change. */
  predicate ValidServerUpdate(before: ServerSpec, after: ServerSpec) {
    before.pod == after.pod
  }

  /** What a fleet or a server needs to be created, in plain terms; the timeout is always there. */
  lemma AdmittedIff(fleet: FleetSpec, server: ServerSpec)
    ensures ValidFleet(DefaultFleet(fleet)) <==>
      && (fleet.agePriority == "oldest_first" || fleet.agePriority == "newest_first")
      && forall i :: 0 <= i < |fleet.server.pod.containers| ==> fleet.server.pod.containers[i].image != ""
    ensures ValidServer(DefaultServer(server)) <==>
      && server.pod.containers != []
      && forall i :: 0 <= i < |server.pod.containers| ==> server.pod.containers[i].image != ""
  {}

  /** What the generated schema of the custom resource admits. */
  predicate SchemaPriority(p: string) {
    p == "oldest_first" || p == "smallest_first"
  }

  /**
   Schema and webhook disagree about the second priority, so that only one is admitted by both,
   although the webhook alone also admits newest-first.
   */
  lemma OnlyOldestFirstIsAdmitted(p: string)
    ensures SchemaPriority(p) && ValidPriority(p) <==> p == OLDEST_FIRST
    ensures ValidPriority(NEWEST_FIRST) && !SchemaPriority(NEWEST_FIRST)
  {
    assert |NEWEST_FIRST| == 12 && |OLDEST_FIRST| == 12 && |"smallest_first"| == 14;
    assert NEWEST_FIRST[0] == 'n' && OLDEST_FIRST[0] == 'o';
  }
}
