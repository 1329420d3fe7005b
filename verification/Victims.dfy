/**
 Which server a fleet deletes when it scales down: the oldest or the newest, preferring those
 whose sidecar already allows deletion when the fleet asks for that.
 */
module Victims {
  import opened Api
  import opened Admission

  /** What the permission checker answers for a server, if it is asked. */
  datatype Answer = Allowed | Denied | CheckFailed

  datatype Candidate = Candidate(name: Name, created: int, answer: Answer)

  datatype Pick = Picked(server: Candidate) | NoServers | CheckError | BadStrategy

  /** Whether creation time `a` is strictly preferred to `b`. */
  predicate Before(newest: bool, a: int, b: int) {
    if newest then b < a else a < b
  }

  predicate InPool(allowedOnly: bool, c: Candidate) {
    allowedOnly ==> c.answer == Allowed
  }

  // ---------------------------------------------------------------- the loops

  /** The tracker loop as a function of the list prefix seen so far. */
  function Best(servers: seq<Candidate>, newest: bool, allowedOnly: bool): Option<Candidate> {
    if servers == [] then None
    else
      var c := servers[|servers| - 1];
      var b := Best(servers[..|servers| - 1], newest, allowedOnly);
      if InPool(allowedOnly, c) && (b.None? || Before(newest, c.created, b.value.created))
      then Some(c) else b
  }

  predicate AnyFailed(servers: seq<Candidate>) {
    exists i :: 0 <= i < |servers| && servers[i].answer == CheckFailed
  }

  function Victim(servers: seq<Candidate>, newest: bool, deleteFirst: bool): Pick {
    var overall := Best(servers, newest, false);
    var allowed := Best(servers, newest, true);
    if deleteFirst && AnyFailed(servers) then CheckError
    else if overall.None? then NoServers
    else if deleteFirst && allowed.Some? then Picked(allowed.value)
    else Picked(overall.value)
  }

  function FindDeleteServer(spec: FleetSpec, servers: seq<Candidate>): Pick {
    if spec.agePriority == OLDEST_FIRST then Victim(servers, false, spec.prioritizeAllowed)
    else if spec.agePriority == NEWEST_FIRST then Victim(servers, true, spec.prioritizeAllowed)
    else BadStrategy
  }

  method GetOldestServer(servers: seq<Candidate>, deleteFirst: bool) returns (r: Pick)
    ensures r == Victim(servers, false, deleteFirst)
    ensures r.Picked? ==> exists i :: 0 <= i < |servers| && IsOldestOf(servers, deleteFirst, i) && r.server == servers[i]
  {
    VictimHasAge(servers, deleteFirst);
    var oldestServer: Option<Candidate> := None;
    var oldestTime: Option<int> := None;
    var oldestAllowedServer: Option<Candidate> := None;
    var oldestAllowTime: Option<int> := None;
    for i := 0 to |servers|
      invariant oldestServer == Best(servers[..i], false, false)
      invariant oldestTime == TimeOf(oldestServer)
      invariant oldestAllowedServer == if deleteFirst then Best(servers[..i], false, true) else None
      invariant oldestAllowTime == TimeOf(oldestAllowedServer)
      invariant deleteFirst ==> !AnyFailed(servers[..i])
    {
      var server := servers[i];
      assert servers[..i + 1][..i] == servers[..i];
      if oldestTime.None? || server.created < oldestTime.value {
        oldestTime := Some(server.created);
        oldestServer := Some(server);
      }
      if deleteFirst {
        if server.answer == CheckFailed {
          return CheckError;
        }
        if server.answer == Allowed {
          if oldestAllowTime.None? || server.created < oldestAllowTime.value {
            oldestAllowTime := Some(server.created);
            oldestAllowedServer := Some(server);
          }
        }
      }
    }
    assert servers[..|servers|] == servers;
    if oldestServer.None? {
      return NoServers;
    }
    if oldestAllowedServer.Some? {
      return Picked(oldestAllowedServer.value);
    }
    return Picked(oldestServer.value);
  }

  method GetNewestServer(servers: seq<Candidate>, deleteFirst: bool) returns (r: Pick)
    ensures r == Victim(servers, true, deleteFirst)
    ensures r.Picked? ==> exists i :: 0 <= i < |servers| && IsNewestOf(servers, deleteFirst, i) && r.server == servers[i]
  {
    VictimHasAge(servers, deleteFirst);
    var newestServer: Option<Candidate> := None;
    var newestTime: Option<int> := None;
    var newestAllowedServer: Option<Candidate> := None;
    var newestAllowTime: Option<int> := None;
    for i := 0 to |servers|
      invariant newestServer == Best(servers[..i], true, false)
      invariant newestTime == TimeOf(newestServer)
      invariant newestAllowedServer == if deleteFirst then Best(servers[..i], true, true) else None
      invariant newestAllowTime == TimeOf(newestAllowedServer)
      invariant deleteFirst ==> !AnyFailed(servers[..i])
    {
      var server := servers[i];
      assert servers[..i + 1][..i] == servers[..i];
      if newestTime.None? || server.created > newestTime.value {
        newestTime := Some(server.created);
        newestServer := Some(server);
      }
      if deleteFirst {
        if server.answer == CheckFailed {
          return CheckError;
        }
        if server.answer == Allowed {
          if newestAllowTime.None? || server.created > newestAllowTime.value {
            newestAllowTime := Some(server.created);
            newestAllowedServer := Some(server);
          }
        }
      }
    }
    assert servers[..|servers|] == servers;
    if newestServer.None? {
      return NoServers;
    }
    if newestAllowedServer.Some? {
      return Picked(newestAllowedServer.value);
    }
    return Picked(newestServer.value);
  }

  function TimeOf(c: Option<Candidate>): Option<int> {
    if c.None? then None else Some(c.value.created)
  }

  // ---------------------------------------------------------------- what they mean

  /** `i` is in the pool, nothing in the pool is strictly preferred, and ties go to the first. */
  predicate FirstBest(servers: seq<Candidate>, newest: bool, allowedOnly: bool, i: nat) {
    && i < |servers|
    && InPool(allowedOnly, servers[i])
    && forall j :: 0 <= j < |servers| && InPool(allowedOnly, servers[j]) ==>
        && !Before(newest, servers[j].created, servers[i].created)
        && (j < i ==> servers[j].created != servers[i].created)
  }

  predicate AnyInPool(servers: seq<Candidate>, allowedOnly: bool) {
    exists i :: 0 <= i < |servers| && InPool(allowedOnly, servers[i])
  }

  lemma {:induction false} BestIsFirstBest(servers: seq<Candidate>, newest: bool, allowedOnly: bool)
    returns (i: nat)
    ensures Best(servers, newest, allowedOnly).Some? <==> AnyInPool(servers, allowedOnly)
    ensures AnyInPool(servers, allowedOnly) ==>
      && FirstBest(servers, newest, allowedOnly, i)
      && Best(servers, newest, allowedOnly) == Some(servers[i])
  {
    i := 0;
    if servers != [] {
      var n := |servers| - 1;
      i := BestIsFirstBest(servers[..n], newest, allowedOnly);
      if InPool(allowedOnly, servers[n]) &&
         (!AnyInPool(servers[..n], allowedOnly)
          || Before(newest, servers[n].created, servers[i].created)) {
        if AnyInPool(servers[..n], allowedOnly) {
          assert servers[..n][i] == servers[i];
        }
        i := n;
      }
    }
  }

  /** The pool a victim comes from. */
  predicate FromAllowed(servers: seq<Candidate>, deleteFirst: bool) {
    deleteFirst && AnyInPool(servers, true)
  }

  /**
   The loops do what their documentation says: they fail only on a checker error or an empty
   list, and otherwise return the first extreme-age server among the allowed ones if there are
   any and they are wanted, among all servers if not.
   */
  lemma VictimIsExtreme(servers: seq<Candidate>, newest: bool, deleteFirst: bool)
    ensures Victim(servers, newest, deleteFirst) == CheckError <==> deleteFirst && AnyFailed(servers)
    ensures Victim(servers, newest, deleteFirst) == NoServers <==> servers == []
    ensures Victim(servers, newest, deleteFirst) != BadStrategy
    ensures Victim(servers, newest, deleteFirst).Picked? ==>
      exists i: nat :: FirstBest(servers, newest, FromAllowed(servers, deleteFirst), i)
                  && Victim(servers, newest, deleteFirst).server == servers[i]
  {
    if servers != [] {
      assert InPool(false, servers[0]);
    }
    var i := BestIsFirstBest(servers, newest, false);
    var j := BestIsFirstBest(servers, newest, true);
    if Victim(servers, newest, deleteFirst).Picked? {
      assert FirstBest(servers, newest, FromAllowed(servers, deleteFirst),
                       if FromAllowed(servers, deleteFirst) then j else i);
    }
  }

  /** The server may be chosen: it is allowed, or allowed ones are not asked for or do not exist. */
  predicate Eligible(servers: seq<Candidate>, deleteFirst: bool, j: int)
    requires 0 <= j < |servers|
  {
    servers[j].answer == Allowed
    || !deleteFirst || forall i :: 0 <= i < |servers| ==> servers[i].answer != Allowed
  }

  /** Created no later than any eligible server, and before all that are listed before it. */
  ghost predicate IsOldestOf(servers: seq<Candidate>, deleteFirst: bool, i: int)
    requires 0 <= i < |servers|
  {
    && Eligible(servers, deleteFirst, i)
    && forall j :: 0 <= j < |servers| && Eligible(servers, deleteFirst, j) ==>
         && servers[i].created <= servers[j].created
         && (j < i ==> servers[i].created < servers[j].created)
  }

  /** Created no earlier than any eligible server, and after all that are listed before it. */
  ghost predicate IsNewestOf(servers: seq<Candidate>, deleteFirst: bool, i: int)
    requires 0 <= i < |servers|
  {
    && Eligible(servers, deleteFirst, i)
    && forall j :: 0 <= j < |servers| && Eligible(servers, deleteFirst, j) ==>
         && servers[i].created >= servers[j].created
         && (j < i ==> servers[i].created > servers[j].created)
  }

  lemma EligibleIsPool(servers: seq<Candidate>, deleteFirst: bool, j: nat)
    requires j < |servers|
    ensures Eligible(servers, deleteFirst, j) <==> InPool(FromAllowed(servers, deleteFirst), servers[j])
  {
    if i :| 0 <= i < |servers| && servers[i].answer == Allowed {
      assert InPool(true, servers[i]);
    }
  }

  /** Oldest-first takes the least creation time, newest-first the greatest. */
  lemma VictimHasAge(servers: seq<Candidate>, deleteFirst: bool)
    ensures var v := Victim(servers, false, deleteFirst);
      v.Picked? ==> exists i :: 0 <= i < |servers| && IsOldestOf(servers, deleteFirst, i) && v.server == servers[i]
    ensures var v := Victim(servers, true, deleteFirst);
      v.Picked? ==> exists i :: 0 <= i < |servers| && IsNewestOf(servers, deleteFirst, i) && v.server == servers[i]
  {
    var pool := FromAllowed(servers, deleteFirst);
    forall j: nat | j < |servers| ensures Eligible(servers, deleteFirst, j) <==> InPool(pool, servers[j]) {
      EligibleIsPool(servers, deleteFirst, j);
    }
    VictimIsExtreme(servers, false, deleteFirst);
    VictimIsExtreme(servers, true, deleteFirst);
    if Victim(servers, false, deleteFirst).Picked? {
      var i: nat :| FirstBest(servers, false, pool, i) && Victim(servers, false, deleteFirst).server == servers[i];
      assert IsOldestOf(servers, deleteFirst, i);
    }
    if Victim(servers, true, deleteFirst).Picked? {
      var i: nat :| FirstBest(servers, true, pool, i) && Victim(servers, true, deleteFirst).server == servers[i];
      assert IsNewestOf(servers, deleteFirst, i);
    }
  }

  /** The priority strings mean what they say. */
  lemma PriorityDecides(spec: FleetSpec, servers: seq<Candidate>)
    requires FindDeleteServer(spec, servers).Picked?
    ensures spec.agePriority == "oldest_first" || spec.agePriority == "newest_first"
    ensures var c := FindDeleteServer(spec, servers).server;
      && (spec.agePriority == "oldest_first" ==>
            exists i :: 0 <= i < |servers| && IsOldestOf(servers, spec.prioritizeAllowed, i) && c == servers[i])
      && (spec.agePriority == "newest_first" ==>
            exists i :: 0 <= i < |servers| && IsNewestOf(servers, spec.prioritizeAllowed, i) && c == servers[i])
  {
    VictimHasAge(servers, spec.prioritizeAllowed);
    assert OLDEST_FIRST[0] != NEWEST_FIRST[0];
  }

  /** An extreme element of the pool, wherever it stands in the list. */
  predicate Extreme(servers: seq<Candidate>, newest: bool, allowedOnly: bool, c: Candidate) {
    && c in servers && InPool(allowedOnly, c)
    && forall d :: d in servers && InPool(allowedOnly, d) ==> !Before(newest, d.created, c.created)
  }

  ghost predicate UniqueExtreme(servers: seq<Candidate>, newest: bool, allowedOnly: bool) {
    forall c, d :: Extreme(servers, newest, allowedOnly, c) && Extreme(servers, newest, allowedOnly, d)
                   ==> c == d
  }

  lemma VictimIsAnExtreme(servers: seq<Candidate>, newest: bool, deleteFirst: bool)
    requires Victim(servers, newest, deleteFirst).Picked?
    ensures Extreme(servers, newest, FromAllowed(servers, deleteFirst),
                    Victim(servers, newest, deleteFirst).server)
  {
    VictimIsExtreme(servers, newest, deleteFirst);
    var i: nat :| FirstBest(servers, newest, FromAllowed(servers, deleteFirst), i)
                  && Victim(servers, newest, deleteFirst).server == servers[i];
  }

  lemma SamePool(a: seq<Candidate>, b: seq<Candidate>)
    requires multiset(a) == multiset(b)
    ensures forall c :: c in a <==> c in b
    ensures AnyFailed(a) == AnyFailed(b)
    ensures AnyInPool(a, true) == AnyInPool(b, true)
    ensures (a == []) == (b == [])
  {
    assert forall c :: c in a <==> c in multiset(a);
    assert forall c :: c in b <==> c in multiset(b);
    assert |a| == |multiset(a)| && |b| == |multiset(b)|;
    SameFlags(a, b);
    SameFlags(b, a);
  }

  lemma SameFlags(a: seq<Candidate>, b: seq<Candidate>)
    requires forall c :: c in a ==> c in b
    ensures AnyFailed(a) ==> AnyFailed(b)
    ensures AnyInPool(a, true) ==> AnyInPool(b, true)
  {
    forall i | 0 <= i < |a| ensures exists j :: 0 <= j < |b| && b[j] == a[i] {
      assert a[i] in b;
    }
  }

  /**
   List order matters exactly when the extreme is not unique: the victim is the same for every
   order of the list if and only if the pool has a single extreme-age server.
   */
  lemma VictimOrderIndependence(servers: seq<Candidate>, newest: bool, deleteFirst: bool)
    requires Victim(servers, newest, deleteFirst).Picked?
    ensures (forall p | multiset(p) == multiset(servers) ::
               Victim(p, newest, deleteFirst) == Victim(servers, newest, deleteFirst))
            <==> UniqueExtreme(servers, newest, FromAllowed(servers, deleteFirst))
  {
    if UniqueExtreme(servers, newest, FromAllowed(servers, deleteFirst)) {
      forall p | multiset(p) == multiset(servers)
        ensures Victim(p, newest, deleteFirst) == Victim(servers, newest, deleteFirst)
      {
        UniqueVictim(servers, p, newest, deleteFirst);
      }
    } else {
      TiedVictim(servers, newest, deleteFirst);
    }
  }

  lemma UniqueVictim(a: seq<Candidate>, b: seq<Candidate>, newest: bool, deleteFirst: bool)
    requires multiset(a) == multiset(b)
    requires Victim(a, newest, deleteFirst).Picked?
    requires UniqueExtreme(a, newest, FromAllowed(a, deleteFirst))
    ensures Victim(a, newest, deleteFirst) == Victim(b, newest, deleteFirst)
  {
    SamePool(a, b);
    VictimIsExtreme(a, newest, deleteFirst);
    VictimIsExtreme(b, newest, deleteFirst);
    VictimIsAnExtreme(a, newest, deleteFirst);
    VictimIsAnExtreme(b, newest, deleteFirst);
    assert Extreme(a, newest, FromAllowed(a, deleteFirst), Victim(b, newest, deleteFirst).server);
  }

  /** With a tie, listing another extreme first picks that one. */
  lemma TiedVictim(servers: seq<Candidate>, newest: bool, deleteFirst: bool)
    requires Victim(servers, newest, deleteFirst).Picked?
    requires !UniqueExtreme(servers, newest, FromAllowed(servers, deleteFirst))
    ensures exists p :: multiset(p) == multiset(servers)
                        && Victim(p, newest, deleteFirst) != Victim(servers, newest, deleteFirst)
  {
    var pool := FromAllowed(servers, deleteFirst);
    VictimIsExtreme(servers, newest, deleteFirst);
    var i: nat :| FirstBest(servers, newest, pool, i) && Victim(servers, newest, deleteFirst).server == servers[i];
    VictimIsAnExtreme(servers, newest, deleteFirst);
    var d :| Extreme(servers, newest, pool, d) && d != servers[i];
    var j :| 0 <= j < |servers| && servers[j] == d;
    assert i < j;
    var p := ToFront(servers, j);
    assert multiset(p) == multiset(servers) by { ToFrontIsPermutation(servers, j); }
    SamePool(servers, p);
    VictimIsExtreme(p, newest, deleteFirst);
    var k: nat :| FirstBest(p, newest, pool, k) && Victim(p, newest, deleteFirst).server == p[k];
    assert p[0] == d;
    assert p[k] in servers;
    assert k == 0;
  }

  /** The list with its element `j` moved to the front. */
  function ToFront(s: seq<Candidate>, j: nat): seq<Candidate>
    requires j < |s|
  {
    [s[j]] + s[..j] + s[j + 1..]
  }

  lemma ToFrontIsPermutation(s: seq<Candidate>, j: nat)
    requires j < |s|
    ensures multiset(ToFront(s, j)) == multiset(s)
  {
    assert s == s[..j] + [s[j]] + s[j + 1..];
  }

  /** Answers that are not asked for do not matter. */
  lemma {:induction false} UnaskedAnswers(a: seq<Candidate>, b: seq<Candidate>, newest: bool)
    requires |a| == |b| && forall i :: 0 <= i < |a| ==> a[i].name == b[i].name && a[i].created == b[i].created
    ensures Best(a, newest, false).Some? == Best(b, newest, false).Some?
    ensures Best(a, newest, false).Some? ==>
      && Best(a, newest, false).value.name == Best(b, newest, false).value.name
      && Best(a, newest, false).value.created == Best(b, newest, false).value.created
  {
    if a != [] {
      UnaskedAnswers(a[..|a| - 1], b[..|b| - 1], newest);
    }
  }

  // ---------------------------------------------------------------- newest mirrors oldest

  function Mirror(c: Candidate): Candidate {
    c.(created := -c.created)
  }

  function MirrorAll(servers: seq<Candidate>): (r: seq<Candidate>)
    ensures |r| == |servers|
    ensures forall i :: 0 <= i < |r| ==> r[i] == Mirror(servers[i])
  {
    if servers == [] then [] else MirrorAll(servers[..|servers| - 1]) + [Mirror(servers[|servers| - 1])]
  }

  function MirrorPick(p: Pick): Pick {
    if p.Picked? then Picked(Mirror(p.server)) else p
  }

  lemma {:induction false} MirrorBest(servers: seq<Candidate>, allowedOnly: bool)
    ensures Best(MirrorAll(servers), false, allowedOnly) ==
            (match Best(servers, true, allowedOnly) case None => None case Some(c) => Some(Mirror(c)))
  {
    if servers != [] {
      MirrorBest(servers[..|servers| - 1], allowedOnly);
      assert MirrorAll(servers)[..|servers| - 1] == MirrorAll(servers[..|servers| - 1]);
    }
  }

  /** Choosing the newest is choosing the oldest with time running backwards. */
  lemma NewestMirrorsOldest(servers: seq<Candidate>, deleteFirst: bool)
    ensures Victim(MirrorAll(servers), false, deleteFirst) == MirrorPick(Victim(servers, true, deleteFirst))
  {
    MirrorBest(servers, false);
    MirrorBest(servers, true);
    assert AnyFailed(MirrorAll(servers)) == AnyFailed(servers) by {
      forall i | 0 <= i < |servers|
        ensures MirrorAll(servers)[i].answer == servers[i].answer
      {}
    }
  }
}
