/**
 Schedules: sequences of acts played from a state. The machine is deterministic in its acts, so a
 schedule determines a run. Statements that something can still be reached give the schedule.
 */
module Schedules {
  import opened Api
  import opened Machine
  import opened Lifecycle
  import V = Victims

  function Play(s: State, acts: seq<Act>): State
    decreases |acts|
  {
    if acts == [] then s else Play(Next(s, acts[0]), acts[1..])
  }

  /** A worker's call, or time passing; nothing that users, game servers or the kubelet do. */
  predicate Own(a: Act) {
    a.ServerCall? || a.FleetCall? || a.GameCall? || (a.Env? && a.e.Tick?)
  }

  /** The permission answers of a scale-down pass are those of the sidecars, some of them in reach. */
  ghost predicate Honest(s: State, a: Act) {
    a.FleetCall? && FPc(s, a.f).FPick? && FPc(s, a.f).o.body.spec.prioritizeAllowed ==>
      exists reach :: a.a.checks == Checks(s.w, FPc(s, a.f).items, reach)
  }

  /** What the operator does of itself. */
  ghost predicate Schedule(s: State, acts: seq<Act>)
    decreases |acts|
  {
    acts == [] || (Own(acts[0]) && Honest(s, acts[0]) && Schedule(Next(s, acts[0]), acts[1..]))
  }

  /** No owner's worker moves. */
  ghost predicate NoOwner(acts: seq<Act>) {
    forall a :: a in acts ==> !a.FleetCall? && !a.GameCall?
  }

  /** Of the owners' workers only that of fleet `f` moves. */
  ghost predicate Within(acts: seq<Act>, f: Name) {
    forall a :: a in acts ==> !a.GameCall? && (a.FleetCall? ==> a.f == f)
  }

  lemma One(s: State, a: Act)
    requires Own(a) && Honest(s, a)
    ensures Schedule(s, [a]) && Play(s, [a]) == Next(s, a)
  {
    assert [a][1..] == [];
    assert Play(Next(s, a), []) == Next(s, a);
  }

  /** One schedule after another. */
  lemma {:induction false} Then(s: State, a: seq<Act>, b: seq<Act>)
    requires Schedule(s, a) && Schedule(Play(s, a), b)
    ensures Schedule(s, a + b) && Play(s, a + b) == Play(Play(s, a), b)
    decreases |a|
  {
    if a == [] {
      assert a + b == b;
    } else {
      assert (a + b)[1..] == a[1..] + b;
      Then(Next(s, a[0]), a[1..], b);
    }
  }

  lemma AndThen(s: State, acts: seq<Act>, a: Act)
    requires Schedule(s, acts) && Own(a) && Honest(Play(s, acts), a)
    ensures Schedule(s, acts + [a]) && Play(s, acts + [a]) == Next(Play(s, acts), a)
  {
    One(Play(s, acts), a);
    Then(s, acts, [a]);
  }

  lemma {:induction false} PlayConcat(s: State, a: seq<Act>, b: seq<Act>)
    ensures Play(s, a + b) == Play(Play(s, a), b)
    decreases |a|
  {
    if a == [] {
      assert a + b == b;
    } else {
      assert (a + b)[1..] == a[1..] + b;
      PlayConcat(Next(s, a[0]), a[1..], b);
    }
  }

  lemma {:induction false} PlayIsRun(s: State, acts: seq<Act>) returns (run: seq<State>)
    ensures IsRun(run) && run[0] == s && run[|run| - 1] == Play(s, acts)
    decreases |acts|
  {
    if acts == [] {
      run := [s];
    } else {
      var rest := PlayIsRun(Next(s, acts[0]), acts[1..]);
      run := [s] + rest;
      forall i | 0 < i < |run| ensures StepAt(run, i) {
        if i > 1 {
          assert StepAt(rest, i - 1);
        }
      }
    }
  }

  lemma {:induction false} PlayKeepsInv(s: State, acts: seq<Act>)
    requires Inv(s)
    ensures Inv(Play(s, acts))
    decreases |acts|
  {
    if acts != [] {
      NextKeepsInv(s, acts[0]);
      PlayKeepsInv(Next(s, acts[0]), acts[1..]);
    }
  }

  /** No worker is in the middle of a reconcile, and the invariants hold. */
  ghost predicate Rest(s: State) {
    AllIdle(s) && Orderly(s.w)
  }

  lemma RestAfter(s: State, acts: seq<Act>)
    requires Rest(s) && AllIdle(Play(s, acts))
    ensures Rest(Play(s, acts))
  {
    StartInv(s);
    PlayKeepsInv(s, acts);
    InvIsOrderly(Play(s, acts));
  }

  /** Waiting. */
  lemma Wait(s: State, d: nat)
    ensures Schedule(s, [Env(Tick(d))])
    ensures Play(s, [Env(Tick(d))]).w == s.w.(clock := s.w.clock + d)
    ensures AllIdle(s) ==> AllIdle(Play(s, [Env(Tick(d))]))
  {
    One(s, Env(Tick(d)));
    if AllIdle(s) {
      SamePcsIdle(s, Next(s, Env(Tick(d))));
    }
  }

  lemma SamePcsIdle(s: State, t: State)
    requires AllIdle(s) && t.sp == s.sp && t.fp == s.fp && t.gp == s.gp
    ensures AllIdle(t)
  {
    forall k ensures SPc(t, k) == SIdle {
      assert SPc(s, k) == SIdle;
    }
    forall f ensures FPc(t, f) == FIdle {
      assert FPc(s, f) == FIdle;
    }
    forall g ensures GPc(t, g) == GIdle {
      assert GPc(s, g) == GIdle;
    }
  }

  // ---------------------------------------------------------------- one fleet's worker alone

  /** Where the worker of `f` gets with these answers if nobody else moves. */
  function Turns(w: World, f: Name, pc: FleetPc, answers: seq<Answer>): (World, FleetPc) {
    if answers == [] then (w, pc)
    else
      var (w1, pc1) := Turns(w, f, pc, answers[..|answers| - 1]);
      FleetNext(w1, f, pc1, answers[|answers| - 1])
  }

  ghost predicate HonestAnswer(w: World, pc: FleetPc, a: Answer) {
    pc.FPick? && pc.o.body.spec.prioritizeAllowed ==> exists reach :: a.checks == Checks(w, pc.items, reach)
  }

  ghost predicate HonestTurns(w: World, f: Name, pc: FleetPc, answers: seq<Answer>) {
    answers == [] ||
    var n := |answers| - 1;
    var (w1, pc1) := Turns(w, f, pc, answers[..n]);
    HonestTurns(w, f, pc, answers[..n]) && HonestAnswer(w1, pc1, answers[n])
  }

  lemma TurnThen(w: World, f: Name, pc: FleetPc, answers: seq<Answer>, a: Answer)
    requires HonestTurns(w, f, pc, answers)
    requires HonestAnswer(Turns(w, f, pc, answers).0, Turns(w, f, pc, answers).1, a)
    ensures HonestTurns(w, f, pc, answers + [a])
    ensures Turns(w, f, pc, answers + [a]) ==
            FleetNext(Turns(w, f, pc, answers).0, f, Turns(w, f, pc, answers).1, a)
  {
    assert (answers + [a])[..|answers|] == answers;
  }

  lemma {:induction false} TurnsConcat(w: World, f: Name, pc: FleetPc, a: seq<Answer>, b: seq<Answer>)
    requires HonestTurns(w, f, pc, a)
    requires HonestTurns(Turns(w, f, pc, a).0, f, Turns(w, f, pc, a).1, b)
    ensures HonestTurns(w, f, pc, a + b)
    ensures Turns(w, f, pc, a + b) == Turns(Turns(w, f, pc, a).0, f, Turns(w, f, pc, a).1, b)
    decreases |b|
  {
    if b == [] {
      assert a + b == a;
    } else {
      var n := |b| - 1;
      TurnsConcat(w, f, pc, a, b[..n]);
      TurnThen(w, f, pc, a + b[..n], b[n]);
      assert a + b[..n] + [b[n]] == a + b;
    }
  }

  /** Only the worker of fleet `f` has moved. */
  ghost predicate OnlyFleetWorked(s: State, t: State, f: Name) {
    && t.sp == s.sp && t.gp == s.gp
    && forall h :: h != f ==> FPc(t, h) == FPc(s, h)
  }

  lemma {:induction false} FleetPlays(s: State, f: Name, answers: seq<Answer>) returns (acts: seq<Act>)
    requires HonestTurns(s.w, f, FPc(s, f), answers)
    ensures Schedule(s, acts) && OnlyFleetWorked(s, Play(s, acts), f) && Within(acts, f)
    ensures (Play(s, acts).w, FPc(Play(s, acts), f)) == Turns(s.w, f, FPc(s, f), answers)
    decreases |answers|
  {
    acts := [];
    if answers != [] {
      var n := |answers| - 1;
      var first := FleetPlays(s, f, answers[..n]);
      var call := FleetCall(f, answers[n]);
      AndThen(s, first, call);
      acts := first + [call];
      FleetCallTurns(Play(s, first), f, answers[n]);
    }
  }

  lemma FleetCallTurns(s: State, f: Name, a: Answer)
    ensures var t := Next(s, FleetCall(f, a));
            OnlyFleetWorked(s, t, f) && (t.w, FPc(t, f)) == FleetNext(s.w, f, FPc(s, f), a)
  {}

  /** A whole reconcile of the fleet. */
  lemma FleetReconciles(s: State, f: Name, answers: seq<Answer>) returns (acts: seq<Act>)
    requires Rest(s) && HonestTurns(s.w, f, FIdle, answers) && Turns(s.w, f, FIdle, answers).1 == FIdle
    ensures Schedule(s, acts) && Rest(Play(s, acts)) && Within(acts, f)
    ensures Play(s, acts).w == Turns(s.w, f, FIdle, answers).0
  {
    assert FPc(s, f) == FIdle;
    acts := FleetPlays(s, f, answers);
    FleetWorkedIdle(s, Play(s, acts), f);
    RestAfter(s, acts);
  }

  lemma FleetWorkedIdle(s: State, t: State, f: Name)
    requires AllIdle(s) && OnlyFleetWorked(s, t, f) && FPc(t, f) == FIdle
    ensures AllIdle(t)
  {
    forall k ensures SPc(t, k) == SIdle {
      assert SPc(s, k) == SIdle;
    }
    forall h ensures FPc(t, h) == FIdle {
      assert FPc(s, h) == FIdle;
    }
    forall g ensures GPc(t, g) == GIdle {
      assert GPc(s, g) == GIdle;
    }
  }

  // ---------------------------------------------------------------- one game type's worker alone

  /** Where the worker of `g` gets with these answers if nobody else moves. */
  function GameTurns(w: World, g: Name, pc: GamePc, answers: seq<Answer>): (World, GamePc) {
    if answers == [] then (w, pc)
    else
      var (w1, pc1) := GameTurns(w, g, pc, answers[..|answers| - 1]);
      GameNext(w1, g, pc1, answers[|answers| - 1])
  }

  lemma GameTurnThen(w: World, g: Name, pc: GamePc, answers: seq<Answer>, a: Answer)
    ensures GameTurns(w, g, pc, answers + [a]) ==
            GameNext(GameTurns(w, g, pc, answers).0, g, GameTurns(w, g, pc, answers).1, a)
  {
    assert (answers + [a])[..|answers|] == answers;
  }

  lemma {:induction false} GameTurnsConcat(w: World, g: Name, pc: GamePc, a: seq<Answer>, b: seq<Answer>)
    ensures GameTurns(w, g, pc, a + b) == GameTurns(GameTurns(w, g, pc, a).0, g, GameTurns(w, g, pc, a).1, b)
    decreases |b|
  {
    if b == [] {
      assert a + b == a;
    } else {
      var n := |b| - 1;
      GameTurnsConcat(w, g, pc, a, b[..n]);
      GameTurnThen(w, g, pc, a + b[..n], b[n]);
      assert a + b[..n] + [b[n]] == a + b;
    }
  }

  ghost predicate OnlyGameWorked(s: State, t: State, g: Name) {
    && t.sp == s.sp && t.fp == s.fp
    && forall h :: h != g ==> GPc(t, h) == GPc(s, h)
  }

  lemma {:induction false} GamePlays(s: State, g: Name, answers: seq<Answer>) returns (acts: seq<Act>)
    ensures Schedule(s, acts) && OnlyGameWorked(s, Play(s, acts), g)
    ensures (Play(s, acts).w, GPc(Play(s, acts), g)) == GameTurns(s.w, g, GPc(s, g), answers)
    decreases |answers|
  {
    acts := [];
    if answers != [] {
      var n := |answers| - 1;
      var first := GamePlays(s, g, answers[..n]);
      var call := GameCall(g, answers[n]);
      AndThen(s, first, call);
      acts := first + [call];
      GameCallTurns(Play(s, first), g, answers[n]);
    }
  }

  lemma GameCallTurns(s: State, g: Name, a: Answer)
    ensures var t := Next(s, GameCall(g, a));
            OnlyGameWorked(s, t, g) && (t.w, GPc(t, g)) == GameNext(s.w, g, GPc(s, g), a)
  {}

  /** A whole reconcile of the game type. */
  lemma GameReconciles(s: State, g: Name, answers: seq<Answer>) returns (acts: seq<Act>)
    requires Rest(s) && GameTurns(s.w, g, GIdle, answers).1 == GIdle
    ensures Schedule(s, acts) && Rest(Play(s, acts))
    ensures Play(s, acts).w == GameTurns(s.w, g, GIdle, answers).0
  {
    assert GPc(s, g) == GIdle;
    acts := GamePlays(s, g, answers);
    GameWorkedIdle(s, Play(s, acts), g);
    RestAfter(s, acts);
  }

  lemma GameWorkedIdle(s: State, t: State, g: Name)
    requires AllIdle(s) && OnlyGameWorked(s, t, g) && GPc(t, g) == GIdle
    ensures AllIdle(t)
  {
    forall k ensures SPc(t, k) == SIdle {
      assert SPc(s, k) == SIdle;
    }
    forall f ensures FPc(t, f) == FIdle {
      assert FPc(s, f) == FIdle;
    }
    forall h ensures GPc(t, h) == GIdle {
      assert GPc(s, h) == GIdle;
    }
  }

  // ---------------------------------------------------------------- coming to rest

  function Refusal(checks: seq<V.Answer>): Answer {
    Answer(false, [], "", checks)
  }

  /** Two failing calls end any reconcile of a server without changing anything. */
  lemma ServerStops(s: State, k: Name) returns (acts: seq<Act>)
    ensures Schedule(s, acts) && Play(s, acts).w == s.w
    ensures var t := Play(s, acts);
            t.sp == s.sp[k := SIdle] && t.fp == s.fp && t.gp == s.gp
  {
    var call := ServerCall(k, false);
    One(s, call);
    AndThen(s, [call], call);
    acts := [call] + [call];
    ServerFails(s.w, k, SPc(s, k));
  }

  lemma ServerFails(w: World, k: Name, pc: ServerPc)
    ensures ServerNext(w, k, pc, false).0 == w
    ensures ServerNext(w, k, ServerNext(w, k, pc, false).1, false) == (w, SIdle)
  {}

  lemma FleetStops(s: State, f: Name) returns (acts: seq<Act>)
    ensures Schedule(s, acts) && Play(s, acts).w == s.w
    ensures var t := Play(s, acts);
            t.fp == s.fp[f := FIdle] && t.sp == s.sp && t.gp == s.gp
  {
    var pc := FPc(s, f);
    var checks := if pc.FPick? then Checks(s.w, pc.items, {}) else [];
    var call := FleetCall(f, Refusal(checks));
    FleetFails(s.w, f, pc, checks);
    One(s, call);
    FleetCallTurns(s, f, Refusal(checks));
    AndThen(s, [call], call);
    acts := [call] + [call];
  }

  lemma FleetFails(w: World, f: Name, pc: FleetPc, checks: seq<V.Answer>)
    ensures FleetNext(w, f, pc, Refusal(checks)).0 == w && !FleetNext(w, f, pc, Refusal(checks)).1.FPick?
    ensures FleetNext(w, f, FleetNext(w, f, pc, Refusal(checks)).1, Refusal(checks)) == (w, FIdle)
  {}

  lemma GameStops(s: State, g: Name) returns (acts: seq<Act>)
    ensures Schedule(s, acts) && Play(s, acts).w == s.w
    ensures var t := Play(s, acts);
            t.gp == s.gp[g := GIdle] && t.sp == s.sp && t.fp == s.fp
  {
    var call := GameCall(g, Refusal([]));
    One(s, call);
    AndThen(s, [call], call);
    acts := [call] + [call];
    GameFails(s.w, g, GPc(s, g));
  }

  lemma GameFails(w: World, g: Name, pc: GamePc)
    ensures GameNext(w, g, pc, Refusal([])).0 == w
    ensures GameNext(w, g, GameNext(w, g, pc, Refusal([])).1, Refusal([])) == (w, GIdle)
  {}

  lemma {:induction false} ServersStop(s: State, ks: set<Name>) returns (acts: seq<Act>)
    ensures Schedule(s, acts) && Play(s, acts).w == s.w
    ensures var t := Play(s, acts);
            t.fp == s.fp && t.gp == s.gp && forall k :: SPc(t, k) == if k in ks then SIdle else SPc(s, k)
    decreases |ks|
  {
    acts := [];
    if ks != {} {
      var k :| k in ks;
      var first := ServersStop(s, ks - {k});
      var rest := ServerStops(Play(s, first), k);
      Then(s, first, rest);
      acts := first + rest;
      forall j ensures SPc(Play(s, acts), j) == if j in ks then SIdle else SPc(s, j) {
        assert SPc(Play(s, first), j) == if j in ks - {k} then SIdle else SPc(s, j);
      }
    }
  }

  lemma {:induction false} FleetsStop(s: State, fs: set<Name>) returns (acts: seq<Act>)
    ensures Schedule(s, acts) && Play(s, acts).w == s.w
    ensures var t := Play(s, acts);
            t.sp == s.sp && t.gp == s.gp && forall f :: FPc(t, f) == if f in fs then FIdle else FPc(s, f)
    decreases |fs|
  {
    acts := [];
    if fs != {} {
      var f :| f in fs;
      var first := FleetsStop(s, fs - {f});
      var rest := FleetStops(Play(s, first), f);
      Then(s, first, rest);
      acts := first + rest;
      forall j ensures FPc(Play(s, acts), j) == if j in fs then FIdle else FPc(s, j) {
        assert FPc(Play(s, first), j) == if j in fs - {f} then FIdle else FPc(s, j);
      }
    }
  }

  lemma {:induction false} GamesStop(s: State, gs: set<Name>) returns (acts: seq<Act>)
    ensures Schedule(s, acts) && Play(s, acts).w == s.w
    ensures var t := Play(s, acts);
            t.sp == s.sp && t.fp == s.fp && forall g :: GPc(t, g) == if g in gs then GIdle else GPc(s, g)
    decreases |gs|
  {
    acts := [];
    if gs != {} {
      var g :| g in gs;
      var first := GamesStop(s, gs - {g});
      var rest := GameStops(Play(s, first), g);
      Then(s, first, rest);
      acts := first + rest;
      forall j ensures GPc(Play(s, acts), j) == if j in gs then GIdle else GPc(s, j) {
        assert GPc(Play(s, first), j) == if j in gs - {g} then GIdle else GPc(s, j);
      }
    }
  }

  /** From wherever they are, the workers come to rest without changing anything. */
  lemma ToRest(s: State) returns (acts: seq<Act>)
    requires Inv(s)
    ensures Schedule(s, acts) && Rest(Play(s, acts)) && Play(s, acts).w == s.w
  {
    var first := ServersStop(s, s.sp.Keys);
    var t := Play(s, first);
    var second := FleetsStop(t, t.fp.Keys);
    var u := Play(t, second);
    var third := GamesStop(u, u.gp.Keys);
    Then(t, second, third);
    Then(s, first, second + third);
    acts := first + (second + third);
    var v := Play(s, acts);
    NobodyMoves(s, t, u, v);
    PlayKeepsInv(s, acts);
    InvIsOrderly(v);
  }

  lemma NobodyMoves(s: State, t: State, u: State, v: State)
    requires forall k :: SPc(t, k) == if k in s.sp then SIdle else SPc(s, k)
    requires u.sp == t.sp && forall f :: FPc(u, f) == if f in t.fp then FIdle else FPc(t, f)
    requires v.sp == u.sp && v.fp == u.fp && forall g :: GPc(v, g) == if g in u.gp then GIdle else GPc(u, g)
    ensures AllIdle(v)
  {
    forall k ensures SPc(v, k) == SIdle {
      assert SPc(t, k) == SIdle;
    }
    forall f ensures FPc(v, f) == FIdle {
      assert FPc(u, f) == FIdle;
    }
    forall g ensures GPc(v, g) == GIdle {}
  }

  // ---------------------------------------------------------------- listings and names

  /** Every finite set of names can be listed, and starting with any of its members. */
  lemma {:induction false} SomeListing(names: set<Name>) returns (order: seq<Name>)
    ensures IsListing(order, names)
    decreases |names|
  {
    if names == {} {
      order := [];
    } else {
      var n :| n in names;
      var rest := SomeListing(names - {n});
      order := [n] + rest;
    }
  }

  lemma {:induction false} LongerName(used: set<Name>) returns (name: Name)
    ensures forall n :: n in used ==> |n| < |name|
    decreases |used|
  {
    if used == {} {
      name := "";
    } else {
      var n :| n in used;
      var other := LongerName(used - {n});
      name := if |n| < |other| then other else n + "-";
    }
  }

  lemma FreshName(used: set<Name>) returns (name: Name)
    ensures name !in used && name != ""
  {
    name := LongerName(used + {""});
  }
}
