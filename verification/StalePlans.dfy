/**
 * Runs in which a go-ahead executes a plan that is no longer current: replaced by a newer proposal, or
 * dropped because the user asked for something else (services/pending_plans.py, orchestrator.py).
 */
module StalePlans {
  import opened Calls
  import opened PendingPlans
  import opened PlanRaces
  import opened PlanFreshness
  import Router
  import ApprovedBatches

  /** Process 0 saves a plan, and the table answers. */
  function Shown(k: Key, older: seq<Call>): seq<Action> { [BeginSave(0, 0, k, older), Stamp(0), Post(0, true)] }

  /** How the user moves on from it: another plan is shown, or none is. `reaches` says whether the table
      carries the request out. */
  function Replaces(pid: nat, k: Key, newer: seq<Call>, reaches: bool): seq<Action> {
    [BeginSave(1, pid, k, newer), Stamp(1), Post(1, reaches)]
  }

  function Drops(pid: nat, k: Key, reaches: bool): seq<Action> { [BeginClear(1, pid, k), Delete(1, reaches)] }

  /** Process 0 takes what the go-ahead is for, from the table if it answers, else from its memory. */
  function Takes(k: Key, answered: bool): seq<Action> {
    if answered then [BeginTake(2, 0, k), Delete(2, true), EmptyMemory(2), Check(2)]
    else [BeginTake(2, 0, k), Delete(2, false), FallBack(2), Check(2)]
  }

  // --- running them ---------------------------------------------------------------------------------

  /** The world holds this copy of operation 0, under this key, where a take that is answered or not looks. */
  predicate Keeps(w: World, k: Key, c: Copy, answered: bool) {
    && 2 !in w.ops && if answered then k in w.rows && w.rows[k] == c else (0, k) in w.memory && w.memory[(0, k)] == c
  }

  /** A save by another process, or one the table does not get, leaves the older plan where the take looks. */
  lemma ReplacingKeeps(t0: int, xs: seq<Action>, v: World, k: Key, c: Copy, pid: nat, newer: seq<Call>, answered: bool)
    returns (r: (seq<Action>, World))
    requires After(t0, xs) == Some(v) && 1 !in v.ops && Keeps(v, k, c, answered) && (!answered ==> pid != 0)
    ensures r.0 == xs + Replaces(pid, k, newer, !answered) && After(t0, r.0) == Some(r.1)
    ensures r.1.now == v.now && Keeps(r.1, k, c, answered)
  {
    r := Then(t0, xs, v, BeginSave(1, pid, k, newer));
    r := Then(t0, r.0, r.1, Stamp(1));
    r := Then(t0, r.0, r.1, Post(1, !answered));
  }

  lemma DroppingKeeps(t0: int, xs: seq<Action>, v: World, k: Key, c: Copy, pid: nat, answered: bool)
    returns (r: (seq<Action>, World))
    requires After(t0, xs) == Some(v) && 1 !in v.ops && Keeps(v, k, c, answered) && (!answered ==> pid != 0)
    ensures r.0 == xs + Drops(pid, k, !answered) && After(t0, r.0) == Some(r.1)
    ensures r.1.now == v.now && Keeps(r.1, k, c, answered)
  {
    r := Then(t0, xs, v, BeginClear(1, pid, k));
    r := Then(t0, r.0, r.1, Delete(1, !answered));
  }

  lemma TakeBegins(t0: int, xs: seq<Action>, v: World, k: Key, c: Copy, answered: bool)
    returns (r: (seq<Action>, World))
    requires After(t0, xs) == Some(v) && Keeps(v, k, c, answered)
    ensures r.0 == xs + Takes(k, answered)[..2] && After(t0, r.0) == Some(r.1) && r.1.now == v.now
    ensures 2 in r.1.ops && r.1.ops[2] == Op(0, k, Taking, if answered then Emptying(Some(c)) else FallingBack)
    ensures !answered ==> (0, k) in r.1.memory && r.1.memory[(0, k)] == c
  {
    r := Then(t0, xs, v, BeginTake(2, 0, k));
    r := Then(t0, r.0, r.1, Delete(2, answered));
  }

  lemma TakeReturns(t0: int, xs: seq<Action>, v: World, k: Key, c: Copy, answered: bool)
    returns (r: (seq<Action>, World))
    requires After(t0, xs) == Some(v) && Keeps(v, k, c, answered)
    ensures r.0 == xs + Takes(k, answered) && After(t0, r.0) == Some(r.1)
    ensures 2 in r.1.ops
    ensures r.1.ops[2] == Op(0, k, Taking, Returned(Some(c), if answered then Table else Memory, v.now))
  {
    r := TakeBegins(t0, xs, v, k, c, answered);
    r := Then(t0, r.0, r.1, if answered then EmptyMemory(2) else FallBack(2));
    r := Then(t0, r.0, r.1, Check(2));
  }

  lemma {:induction false} QuietTail(xs: seq<Action>, ys: seq<Action>, k: Key)
    requires forall a :: a in ys ==> !Changes(a, k)
    ensures LastChange(xs + ys, k) == LastChange(xs, k)
    decreases |ys|
  {
    if ys == [] {
      assert xs + ys == xs;
    } else {
      assert (xs + ys)[..|xs + ys| - 1] == xs + ys[..|ys| - 1];
      QuietTail(xs, ys[..|ys| - 1], k);
    }
  }

  /** Once operation 1 has moved on, the plan of operation 0 is not current. */
  lemma MovedOn(xs: seq<Action>, moved: seq<Action>, k: Key, answered: bool)
    requires moved != [] && Changes(moved[0], k) && moved[0].op == 1 && forall a :: a in moved[1..] ==> !Changes(a, k)
    ensures !Current(xs + moved + Takes(k, answered), k, 0)
  {
    var ys := moved[1..] + Takes(k, answered);
    assert (xs + [moved[0]])[..|xs|] == xs;
    QuietTail(xs + [moved[0]], ys, k);
    assert xs + moved + Takes(k, answered) == xs + [moved[0]] + ys;
  }

  // --- the gate after them --------------------------------------------------------------------------

  /** In this run a go-ahead turn executes these calls, although their save is no longer current. */
  ghost predicate ExecutesStale(t0: int, actions: seq<Action>, s: Router.State, calls: seq<Call>) {
    && !Current(actions, Router.ChatKey(s.intent), 0)
    && exists w :: After(t0, actions) == Some(w) && Executes(w, s, calls)
  }

  predicate Executes(w: World, s: Router.State, calls: seq<Call>) {
    && ApprovedBatches.Confirms(w, 2, s) && w.ops[2].phase.found.Some? && w.ops[2].phase.found.value.id == 0
    && forall next :: ApprovedBatches.GateAfter(w, 2, s, next, None, None).calls == Some(calls)
  }

  predicate GoAhead(s: Router.State) { Router.ConfirmationGiven(s.intent) && Router.ToolExecution !in s.visited }

  lemma GateExecutes(w: World, s: Router.State, c: Copy, tier: Tier, at: int)
    requires GoAhead(s) && 2 in w.ops && c.id == 0 && c.calls != [] && !Expired(c.expires, at)
    requires w.ops[2] == Op(0, Router.ChatKey(s.intent), Taking, Returned(Some(c), tier, at))
    ensures Executes(w, s, c.calls)
  {
  }

  lemma ShownIsKept(t0: int, k: Key, older: seq<Call>, answered: bool) returns (r: (seq<Action>, World))
    ensures r.0 == Shown(k, older) && After(t0, r.0) == Some(r.1) && r.1.now == t0 && 1 !in r.1.ops
    ensures Keeps(r.1, k, Copy(0, older, Some(t0 + PLAN_TTL_S)), answered)
  {
    r := PlanIsStored(t0, k, older);
  }

  /** A plan that was replaced is executed. The table answers the take but never got the newer plan, or it
      does not answer, and the newer plan was saved by another process. */
  lemma ReplacedPlanIsExecuted(t0: int, s: Router.State, older: seq<Call>, newer: seq<Call>, answered: bool, pid: nat)
    requires PLAN_TTL_S > 0 && older != [] && GoAhead(s) && (!answered ==> pid != 0)
    ensures var k := Router.ChatKey(s.intent);
      ExecutesStale(t0, Shown(k, older) + Replaces(pid, k, newer, !answered) + Takes(k, answered), s, older)
  {
    var k, c := Router.ChatKey(s.intent), Copy(0, older, Some(t0 + PLAN_TTL_S));
    var r := ShownIsKept(t0, k, older, answered);
    r := ReplacingKeeps(t0, r.0, r.1, k, c, pid, newer, answered);
    r := TakeReturns(t0, r.0, r.1, k, c, answered);
    GateExecutes(r.1, s, c, if answered then Table else Memory, t0);
    MovedOn(Shown(k, older), Replaces(pid, k, newer, !answered), k, answered);
  }

  /** A plan that was dropped is executed, though the gate clears it to prevent just that: the clear did not
      reach the tier that the take is answered from. */
  lemma DroppedPlanIsExecuted(t0: int, s: Router.State, older: seq<Call>, answered: bool, pid: nat)
    requires PLAN_TTL_S > 0 && older != [] && GoAhead(s) && (!answered ==> pid != 0)
    ensures var k := Router.ChatKey(s.intent);
      ExecutesStale(t0, Shown(k, older) + Drops(pid, k, !answered) + Takes(k, answered), s, older)
  {
    var k, c := Router.ChatKey(s.intent), Copy(0, older, Some(t0 + PLAN_TTL_S));
    var r := ShownIsKept(t0, k, older, answered);
    r := DroppingKeeps(t0, r.0, r.1, k, c, pid, answered);
    r := TakeReturns(t0, r.0, r.1, k, c, answered);
    GateExecutes(r.1, s, c, if answered then Table else Memory, t0);
    MovedOn(Shown(k, older), Drops(pid, k, !answered), k, answered);
  }
}
