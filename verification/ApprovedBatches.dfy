/**
 * The batch that a go-ahead turn executes, end to end over the interleaved and failing store: the gate
 * of orchestrator.py decides by what its take came back with (services/pending_plans.py).
 */
module ApprovedBatches {
  import opened Calls
  import opened PendingPlans
  import PlanRaces
  import opened Router

  /** The take has returned: it popped this copy, or nothing, and judged it at this moment. */
  predicate Took(w: PlanRaces.World, op: nat) { op in w.ops && w.ops[op].phase.Returned? }

  /** What the gate sees of the store: the one slot as its take found it. */
  function Seen(w: PlanRaces.World, op: nat): Slots
    requires Took(w, op)
  {
    var found := w.ops[op].phase.found;
    if found.Some? then map[w.ops[op].key := found.value] else map[]
  }

  /** A confirming turn of that user and chat, at the visit whose take this is. */
  predicate Confirms(w: PlanRaces.World, op: nat, s: State) {
    Took(w, op) && w.ops[op].key == ChatKey(s.intent) && ConfirmationGiven(s.intent) && ToolExecution !in s.visited
  }

  /** The gate of that turn, whatever the router asked for. */
  function GateAfter(w: PlanRaces.World, op: nat, s: State, next: Next, calls: Option<seq<Call>>,
                     request: Option<Call>): Gated
    requires Took(w, op)
  {
    Gate(s, next, calls, request, Seen(w, op), w.ops[op].phase.at, 0)
  }

  /** The take came back with a live plan of at least one call. */
  predicate Approves(w: PlanRaces.World, op: nat) {
    Took(w, op) && Answer(w.ops[op].phase.found, Table, w.ops[op].phase.at).Some?
  }

  predicate ApprovedFrom(w: PlanRaces.World, op: nat, id: nat) {
    Approves(w, op) && w.ops[op].phase.found.value.id == id
  }

  function ReleaseOf(w: PlanRaces.World, op: nat): PlanRaces.Release
    requires Took(w, op) && w.ops[op].phase.found.Some?
  {
    var Returned(found, tier, at) := w.ops[op].phase;
    PlanRaces.Release(op, w.ops[op].key, found.value, tier, at)
  }

  /** Every plan that a take answered with is on record as released by it. */
  ghost predicate AnswersAreReleased(w: PlanRaces.World) {
    forall op :: Took(w, op) && Answer(w.ops[op].phase.found, w.ops[op].phase.tier, w.ops[op].phase.at).Some?
      ==> ReleaseOf(w, op) in w.released
  }

  lemma StepKeepsAnswers(w: PlanRaces.World, a: PlanRaces.Action)
    requires AnswersAreReleased(w) && PlanRaces.Enabled(w, a)
    ensures AnswersAreReleased(PlanRaces.Step(w, a))
  {
    var w' := PlanRaces.Step(w, a);
    forall op | Took(w', op) && Answer(w'.ops[op].phase.found, w'.ops[op].phase.tier, w'.ops[op].phase.at).Some?
      ensures ReleaseOf(w', op) in w'.released
    {
      if Took(w, op) { assert w'.ops[op] == w.ops[op] && ReleaseOf(w, op) in w.released; }
    }
  }

  lemma {:induction false} RunsKeepAnswers(t0: int, actions: seq<PlanRaces.Action>)
    ensures match PlanRaces.After(t0, actions) case None => true case Some(w) => AnswersAreReleased(w)
    decreases |actions|
  {
    if actions != [] {
      var n := |actions| - 1;
      RunsKeepAnswers(t0, actions[..n]);
      match PlanRaces.After(t0, actions[..n])
      case None =>
      case Some(w) => if PlanRaces.Enabled(w, actions[n]) { StepKeepsAnswers(w, actions[n]); }
    }
  }

  lemma ApprovalIsReleased(t0: int, actions: seq<PlanRaces.Action>, w: PlanRaces.World, op: nat) returns (i: nat)
    requires PlanRaces.After(t0, actions) == Some(w) && Approves(w, op)
    ensures i < |w.released| && w.released[i] == ReleaseOf(w, op)
  {
    RunsKeepAnswers(t0, actions);
    i :| 0 <= i < |w.released| && w.released[i] == ReleaseOf(w, op);
  }

  /** End to end, whatever fails, restarts or interleaves: a batch that a go-ahead turn executes as
      approved is, call for call, what some save of the same user and chat stored, inside the TTL of
      that save. Without such a plan the turn executes what the router asked for, or nothing. */
  lemma ApprovedBatchWasSaved(t0: int, actions: seq<PlanRaces.Action>, w: PlanRaces.World, op: nat,
                              s: State, next: Next, calls: Option<seq<Call>>, request: Option<Call>)
    requires PlanRaces.After(t0, actions) == Some(w) && Confirms(w, op, s)
    ensures var g := GateAfter(w, op, s, next, calls, request);
      if Approves(w, op) then
        var copy := w.ops[op].phase.found.value;
        && g.next == ToTools && g.calls == Some(copy.calls) && copy.calls != []
        && SavedInTime(w, copy, ChatKey(s.intent), w.ops[op].phase.at)
      else if calls.Some? then g.next == next && g.calls == calls
      else g.next == ToLocal && g.calls == None && g.planNote
  {
    if Approves(w, op) {
      var i := ApprovalIsReleased(t0, actions, w, op);
      PlanRaces.HandedOutPlansWereSaved(t0, actions, w, i);
    }
  }

  /** Some save put these calls under this key, and `at` is inside the TTL from when it stamped them. */
  predicate SavedInTime(w: PlanRaces.World, copy: Copy, k: Key, at: int) {
    && copy.id in w.ops && w.ops[copy.id].kind.Saving? && w.ops[copy.id].key == k
    && w.ops[copy.id].kind.calls == copy.calls
    && copy.expires.Some? && w.ops[copy.id].kind.begun <= copy.expires.value - PLAN_TTL_S <= at < copy.expires.value
  }

  /** The turns that executed what this save stored. */
  function Executions(w: PlanRaces.World, id: nat): set<nat> { set op | op in w.ops && ApprovedFrom(w, op, id) }

  lemma OneExecutionPerTier(t0: int, actions: seq<PlanRaces.Action>, w: PlanRaces.World, id: nat, op: nat, op': nat)
    requires PlanRaces.After(t0, actions) == Some(w) && ApprovedFrom(w, op, id) && ApprovedFrom(w, op', id)
    requires w.ops[op].phase.tier == w.ops[op'].phase.tier
    ensures op == op'
  {
    var i := ApprovalIsReleased(t0, actions, w, op);
    var j := ApprovalIsReleased(t0, actions, w, op');
    if i < j { PlanRaces.OncePerTier(t0, actions, w, i, j); }
    if j < i { PlanRaces.OncePerTier(t0, actions, w, j, i); }
  }

  lemma AtMostOne(s: set<nat>)
    requires forall x, y :: x in s && y in s ==> x == y
    ensures |s| <= 1
  {
    if x :| x in s { assert s == {x}; }
  }

  /** Whatever fails, a proposal is executed in at most two turns. */
  lemma AtMostTwoExecutions(t0: int, actions: seq<PlanRaces.Action>, w: PlanRaces.World, id: nat)
    requires PlanRaces.After(t0, actions) == Some(w)
    ensures |Executions(w, id)| <= 2
  {
    var all := Executions(w, id);
    var fromTable := set op | op in all && w.ops[op].phase.tier == Table;
    var fromMemory := set op | op in all && w.ops[op].phase.tier == Memory;
    forall x, y | x in all && y in all && w.ops[x].phase.tier == w.ops[y].phase.tier ensures x == y {
      OneExecutionPerTier(t0, actions, w, id, x, y);
    }
    AtMostOne(fromTable);
    AtMostOne(fromMemory);
    assert all == fromTable + fromMemory;
  }
}
