/**
 * tool_execution's batch: several calls on a bounded pool of threads, gathered in call order
 * (orchestrator.py). The pool hands out calls in order and completes them in any order.
 */
module ParallelBatch {
  import opened Calls
  import opened Router

  /** Set by the deployment. */
  const MAX_PARALLEL_TOOL_CALLS: int

  /** A call handed to a backend, with the identity it ran under. */
  datatype Dispatch = Dispatch(index: nat, call: Call, user: string)

  datatype Pool = Pool(handed: nat, running: set<nat>, results: map<nat, string>, dispatched: seq<Dispatch>)

  datatype Action = Take | Complete(index: nat, result: string)

  const IDLE := Pool(0, {}, map[], [])

  function Workers(calls: seq<Call>): int {
    if |calls| < MAX_PARALLEL_TOOL_CALLS then |calls| else MAX_PARALLEL_TOOL_CALLS
  }

  predicate Enabled(calls: seq<Call>, p: Pool, a: Action) {
    match a
    case Take => p.handed < |calls| && |p.running| < Workers(calls)
    case Complete(i, _) => i in p.running
  }

  function Step(calls: seq<Call>, user: string, p: Pool, a: Action): Pool
    requires Enabled(calls, p, a)
  {
    match a
    case Take =>
      Pool(p.handed + 1, p.running + {p.handed}, p.results,
           p.dispatched + [Dispatch(p.handed, calls[p.handed], user)])
    case Complete(i, result) => p.(running := p.running - {i}, results := p.results[i := result])
  }

  function After(calls: seq<Call>, user: string, schedule: seq<Action>): Option<Pool>
    decreases |schedule|
  {
    if schedule == [] then Some(IDLE)
    else
      var last := |schedule| - 1;
      match After(calls, user, schedule[..last])
      case None => None
      case Some(p) => if Enabled(calls, p, schedule[last]) then Some(Step(calls, user, p, schedule[last])) else None
  }

  function Indices(n: nat): (s: set<nat>)
    ensures |s| == n && forall i: nat :: i in s <==> i < n
  {
    if n == 0 then {} else Indices(n - 1) + {n - 1}
  }

  predicate Finished(calls: seq<Call>, p: Pool) { p.results.Keys == Indices(|calls|) }

  /** Calls are handed out once each, in order, under the run's user. */
  predicate InOrder(calls: seq<Call>, user: string, p: Pool) {
    && p.handed <= |calls| && |p.dispatched| == p.handed
    && forall i :: 0 <= i < p.handed ==> p.dispatched[i] == Dispatch(i, calls[i], user)
  }

  /** Each call handed out is running or has its result. */
  predicate Tracked(p: Pool) {
    && |p.running| + |p.results| == p.handed
    && (forall i :: i in p.running ==> i < p.handed && i !in p.results) && (forall i :: i in p.results ==> i < p.handed)
    && (forall i :: 0 <= i < p.handed ==> i in p.running || i in p.results)
  }

  function Progress(p: Pool): nat { p.handed + |p.results| }

  lemma TakeKeepsTracked(p: Pool, dispatched: seq<Dispatch>)
    requires Tracked(p)
    ensures Tracked(Pool(p.handed + 1, p.running + {p.handed}, p.results, dispatched))
  {
    var running := p.running + {p.handed};
    assert p.handed !in p.running && |running| == |p.running| + 1;
    forall i | i in running ensures i < p.handed + 1 && i !in p.results {
      assert i in p.running || i == p.handed;
    }
    forall i | 0 <= i < p.handed + 1 ensures i in running || i in p.results {
      assert i < p.handed ==> i in p.running || i in p.results;
    }
  }

  lemma CompleteKeepsTracked(p: Pool, i: nat, result: string)
    requires Tracked(p) && i in p.running
    ensures Tracked(p.(running := p.running - {i}, results := p.results[i := result]))
    ensures |p.results[i := result]| == |p.results| + 1
  {
    assert |p.running - {i}| == |p.running| - 1;
    assert p.results[i := result].Keys == p.results.Keys + {i};
  }

  lemma StepKeepsInv(calls: seq<Call>, user: string, p: Pool, a: Action)
    requires InOrder(calls, user, p) && Tracked(p) && Enabled(calls, p, a)
    ensures var p' := Step(calls, user, p, a);
      InOrder(calls, user, p') && Tracked(p') && Progress(p') == Progress(p) + 1
  {
    match a
    case Take => TakeKeepsTracked(p, Step(calls, user, p, a).dispatched);
    case Complete(i, result) => CompleteKeepsTracked(p, i, result);
  }

  ghost predicate AtInv(calls: seq<Call>, user: string, schedule: seq<Action>, p: Pool) {
    InOrder(calls, user, p) && Tracked(p) && |schedule| == Progress(p)
  }

  lemma {:induction false} ScheduleInv(calls: seq<Call>, user: string, schedule: seq<Action>, p: Pool)
    requires After(calls, user, schedule) == Some(p)
    ensures AtInv(calls, user, schedule, p)
    decreases |schedule|
  {
    if schedule == [] {
    } else {
      var last := |schedule| - 1;
      var before := After(calls, user, schedule[..last]).value;
      ScheduleInv(calls, user, schedule[..last], before);
      StepKeepsInv(calls, user, before, schedule[last]);
    }
  }

  predicate Bounded(p: Pool) { p.running != {} ==> |p.running| <= MAX_PARALLEL_TOOL_CALLS }

  lemma StepKeepsBounded(calls: seq<Call>, user: string, p: Pool, a: Action)
    requires Tracked(p) && Bounded(p) && Enabled(calls, p, a)
    ensures Bounded(Step(calls, user, p, a))
  {
    assert p.handed !in p.running;
    if a.Take? {
      assert |p.running + {p.handed}| == |p.running| + 1;
    } else {
      assert |p.running - {a.index}| == |p.running| - 1;
    }
  }

  lemma {:induction false} ScheduleBounded(calls: seq<Call>, user: string, schedule: seq<Action>, p: Pool)
    requires After(calls, user, schedule) == Some(p)
    ensures Bounded(p)
    decreases |schedule|
  {
    if schedule != [] {
      var last := |schedule| - 1;
      var before := After(calls, user, schedule[..last]).value;
      ScheduleBounded(calls, user, schedule[..last], before);
      ScheduleInv(calls, user, schedule[..last], before);
      StepKeepsBounded(calls, user, before, schedule[last]);
    }
  }

  /** The pool never runs more calls at once than the deployment allows, and it can take up the next one
      exactly as long as it runs fewer and one is left. */
  lemma PoolIsBounded(calls: seq<Call>, user: string, schedule: seq<Action>, p: Pool)
    requires After(calls, user, schedule) == Some(p)
    ensures p.running != {} ==> |p.running| <= MAX_PARALLEL_TOOL_CALLS
    ensures Enabled(calls, p, Take) <==> p.handed < |calls| && |p.running| < MAX_PARALLEL_TOOL_CALLS
  {
    ScheduleInv(calls, user, schedule, p);
    ScheduleBounded(calls, user, schedule, p);
  }

  /** No schedule can stall, and none is longer than two steps a call: so every schedule that is
      carried on completes. */
  lemma SchedulesComplete(calls: seq<Call>, user: string, schedule: seq<Action>, p: Pool)
    requires MAX_PARALLEL_TOOL_CALLS >= 1 && calls != []
    requires After(calls, user, schedule) == Some(p)
    ensures |schedule| <= 2 * |calls|
    ensures Finished(calls, p) || Enabled(calls, p, Take) || exists i, result :: Enabled(calls, p, Complete(i, result))
  {
    ScheduleInv(calls, user, schedule, p);
    if p.running != {} {
      var i :| i in p.running;
      assert Enabled(calls, p, Complete(i, ""));
    } else {
      assert p.results.Keys == Indices(p.handed);
    }
  }

  /** When a schedule completes, every call has run exactly once, under the run's own user, whatever
      order the workers finished in. */
  lemma EachCallRunsOnce(calls: seq<Call>, user: string, schedule: seq<Action>, p: Pool)
    requires MAX_PARALLEL_TOOL_CALLS >= 1
    requires After(calls, user, schedule) == Some(p) && Finished(calls, p)
    ensures |p.dispatched| == |calls|
    ensures forall i :: 0 <= i < |calls| ==> p.dispatched[i] == Dispatch(i, calls[i], user)
    ensures p.running == {}
  {
    ScheduleInv(calls, user, schedule, p);
    assert forall i: nat :: i in p.results <==> i < |calls|;
  }

  // --- what the pool returns ------------------------------------------------------------------------

  /** The text that call `i` delivered when it completed. */
  function Delivered(schedule: seq<Action>, i: nat): Option<string>
    decreases |schedule|
  {
    if schedule == [] then None
    else
      var last := schedule[|schedule| - 1];
      if last.Complete? && last.index == i then Some(last.result) else Delivered(schedule[..|schedule| - 1], i)
  }

  /** What the pool holds for a call is what that call itself delivered. */
  lemma {:induction false} ResultsAreDelivered(calls: seq<Call>, user: string, schedule: seq<Action>, p: Pool, i: nat)
    requires After(calls, user, schedule) == Some(p)
    ensures Delivered(schedule, i) == if i in p.results then Some(p.results[i]) else None
    decreases |schedule|
  {
    if schedule != [] {
      var last := |schedule| - 1;
      ResultsAreDelivered(calls, user, schedule[..last], After(calls, user, schedule[..last]).value, i);
    }
  }

  /** `list(pool.map(...))`: the results in call order. */
  function Ordered(calls: seq<Call>, p: Pool): (texts: seq<string>)
    requires Finished(calls, p)
    ensures |texts| == |calls| && forall i :: 0 <= i < |calls| ==> i in p.results && texts[i] == p.results[i]
  {
    seq(|calls|, i requires 0 <= i < |calls| && i in p.results => p.results[i])
  }

  // --- gathering ------------------------------------------------------------------------------------

  datatype Message = Message(tool: string, result: string, step: nat)
  datatype ToolEvent = ToolEvent(call: Call, result: string)

  /** One message and one event a call, in call order, and the signatures that are recorded. */
  datatype Gathered = Gathered(messages: seq<Message>, events: seq<ToolEvent>, executed: seq<string>)

  predicate InCallOrder(g: Gathered, calls: seq<Call>, results: seq<string>, step: nat)
    requires |results| == |calls|
  {
    && |g.messages| == |g.events| == |calls|
    && (forall i :: 0 <= i < |calls| ==>
          g.messages[i] == Message(calls[i].name, results[i], step) && g.events[i] == ToolEvent(calls[i], results[i]))
    && g.executed == Signatures(calls)
  }

  /** The loop after the pool. */
  method Gather(calls: seq<Call>, results: seq<string>, step: nat) returns (g: Gathered)
    requires |results| == |calls|
    ensures InCallOrder(g, calls, results, step)
  {
    var messages: seq<Message>, events: seq<ToolEvent> := [], [];
    for k := 0 to |calls|
      invariant |messages| == |events| == k
      invariant forall i :: 0 <= i < k ==>
        messages[i] == Message(calls[i].name, results[i], step) && events[i] == ToolEvent(calls[i], results[i])
    {
      messages := messages + [Message(calls[k].name, results[k], step)];
      events := events + [ToolEvent(calls[k], results[k])];
    }
    g := Gathered(messages, events, Signatures(calls));
  }

  /** The whole node: whatever is gathered from a completed pool carries, at each call's place, the text
      that very call delivered. */
  lemma GatheredIsWhatCallsDelivered(calls: seq<Call>, user: string, schedule: seq<Action>, p: Pool,
                                     step: nat, g: Gathered)
    requires After(calls, user, schedule) == Some(p) && Finished(calls, p)
    requires InCallOrder(g, calls, Ordered(calls, p), step)
    ensures forall i :: 0 <= i < |calls| ==>
      && Delivered(schedule, i) == Some(g.messages[i].result)
      && g.messages[i] == Message(calls[i].name, g.messages[i].result, step)
      && g.events[i] == ToolEvent(calls[i], g.messages[i].result)
  {
    forall i | 0 <= i < |calls| ensures Delivered(schedule, i) == Some(Ordered(calls, p)[i]) {
      ResultsAreDelivered(calls, user, schedule, p, i);
    }
  }

  lemma OnlyOneInCallOrder(g: Gathered, g': Gathered, calls: seq<Call>, results: seq<string>, step: nat)
    requires |results| == |calls| && InCallOrder(g, calls, results, step) && InCallOrder(g', calls, results, step)
    ensures g == g'
  {
  }

  lemma SameTextsSameResults(calls: seq<Call>, user: string,
                             schedule: seq<Action>, p: Pool, schedule': seq<Action>, p': Pool)
    requires After(calls, user, schedule) == Some(p) && Finished(calls, p)
    requires After(calls, user, schedule') == Some(p') && Finished(calls, p')
    requires forall i: nat :: i < |calls| ==> Delivered(schedule, i) == Delivered(schedule', i)
    ensures Ordered(calls, p) == Ordered(calls, p')
  {
    forall i | 0 <= i < |calls| ensures Ordered(calls, p)[i] == Ordered(calls, p')[i] {
      ResultsAreDelivered(calls, user, schedule, p, i);
      ResultsAreDelivered(calls, user, schedule', p', i);
    }
  }

  /** So messages, events and signatures do not depend on the order the workers finished in: two
      completed schedules whose calls return the same texts give the same output. */
  lemma CompletionOrderDoesNotShow(calls: seq<Call>, user: string, step: nat,
                                   schedule: seq<Action>, p: Pool, g: Gathered,
                                   schedule': seq<Action>, p': Pool, g': Gathered)
    requires After(calls, user, schedule) == Some(p) && Finished(calls, p)
    requires After(calls, user, schedule') == Some(p') && Finished(calls, p')
    requires InCallOrder(g, calls, Ordered(calls, p), step) && InCallOrder(g', calls, Ordered(calls, p'), step)
    requires forall i: nat :: i < |calls| ==> Delivered(schedule, i) == Delivered(schedule', i)
    ensures g == g'
  {
    SameTextsSameResults(calls, user, schedule, p, schedule', p');
    OnlyOneInCallOrder(g, g', calls, Ordered(calls, p), step);
  }
}
