/**
 * One run of the graph: supervisor -> local_llm | tool_execution | finish, and back
 * (orchestrator.py, build_graph). Every visit gets an arbitrary oracle and an arbitrary plan store,
 * so what is proved here holds for every model, every store and every concurrent turn.
 */
module Runs {
  import opened Calls
  import opened PendingPlans
  import opened Router

  datatype Pc = AtSupervisor | AtLocal | AtTools | Done | Raised

  /** One visit of tool_execution: the calls it ran, and whether they came as a batch. */
  datatype ToolStep = ToolStep(batch: bool, calls: seq<Call>)

  /** A run with its history: the steps at which a routing model was called, and the tool steps. */
  datatype Run = Run(s: State, pc: Pc, askedAt: seq<nat>, toolSteps: seq<ToolStep>)

  datatype Input = Input(oracle: Oracle, slots: Slots, now: int, id: nat, composition: Composition)

  datatype Advanced = Advanced(run: Run, slots: Slots, event: GateEvent)

  predicate Terminal(r: Run) { r.pc == Done || r.pc == Raised }

  function Begin(i: Intent): Run { Run(InitialState(i), AtSupervisor, [], []) }

  function Follow(n: Option<Next>): Pc {
    match n
    case Some(ToLocal) => AtLocal
    case Some(ToTools) => AtTools
    case Some(ToFinish) => Done
    case None => Raised
  }

  /** The run after a supervisor visit. */
  function Land(r: Run, v: Visit): Run {
    var asked := r.askedAt + seq(v.asked, _ => r.s.step);
    if v.update == None then r.(pc := Raised, askedAt := asked)
    else
      var s' := Merge(r.s, v.update.value);
      r.(s := s', pc := Follow(s'.next), askedAt := asked)
  }

  predicate HasBatch(s: State) { s.toolCalls.Some? && s.toolCalls.value != [] }

  /** The run after local_llm, which reports this cost. */
  function Compose(r: Run, cost: Usage): Run {
    r.(s := Merge(r.s, LocalUpdate(cost)), pc := AtSupervisor)
  }

  /** The run after tool_execution. */
  function RunTools(r: Run): Run {
    r.(s := Merge(r.s, ToolUpdate(r.s)), pc := AtSupervisor,
       toolSteps := r.toolSteps + [ToolStep(HasBatch(r.s), RequestedToolCalls(r.s))])
  }

  function Advance(r: Run, x: Input): Advanced
    requires !Terminal(r)
  {
    if r.pc == AtSupervisor then
      var v := Supervisor(r.s, x.oracle, x.slots, x.now, x.id);
      Advanced(Land(r, v), v.slots, v.event)
    else if r.pc == AtLocal then
      Advanced(Compose(r, Charged(r.s.cannedReply, x.composition)), x.slots, Bypassed)
    else
      Advanced(RunTools(r), x.slots, Bypassed)
  }

  /** The run after at most `n` node visits. */
  function RunAfter(i: Intent, env: nat -> Input, n: nat): Run {
    if n == 0 then Begin(i) else Onward(RunAfter(i, env, n - 1), env(n - 1))
  }

  function Onward(r: Run, x: Input): Run { if Terminal(r) then r else Advance(r, x).run }

  // --- termination --------------------------------------------------------------------------------

  function Replies(visited: seq<Worker>): nat {
    if visited == [] then 0
    else Replies(visited[..|visited| - 1]) + (if visited[|visited| - 1] == LocalLlm then 1 else 0)
  }

  lemma {:induction false} NoReplies(visited: seq<Worker>)
    ensures Replies(visited) == 0 <==> LocalLlm !in visited
    decreases |visited|
  {
    if visited != [] {
      NoReplies(visited[..|visited| - 1]);
      assert visited == visited[..|visited| - 1] + [visited[|visited| - 1]];
    }
  }

  lemma RepliesAppend(visited: seq<Worker>, w: Worker)
    ensures Replies(visited + [w]) == Replies(visited) + (if w == LocalLlm then 1 else 0)
  {
    assert (visited + [w])[..|visited|] == visited;
  }

  /** The supervisor sits at even steps and the workers at odd ones; the bounds on `step` are what
      makes the run end. */
  predicate Bounded(r: Run) {
    var answered := LocalLlm in r.s.visited;
    && Replies(r.s.visited) <= 1
    && (r.pc != Done && r.pc != Raised ==> r.s.step == 2 * |r.s.visited| + (if r.pc == AtSupervisor then 0 else 1))
    && (match r.pc
        case AtSupervisor => r.s.step % 2 == 0 && r.s.step <= (if answered then MAX_STEPS + 2 else MAX_STEPS)
        case AtLocal => r.s.step % 2 == 1 && r.s.step <= MAX_STEPS + 1 && !answered
        case AtTools => r.s.step % 2 == 1 && r.s.step <= MAX_STEPS - 1 && !answered
        case Done => r.s.step <= MAX_STEPS + 3 && r.s.status != Unset
        case Raised => r.s.step < MAX_STEPS)
    && (forall k :: k in r.askedAt ==> k < MAX_STEPS)
    && |r.askedAt| <= 2 * (if r.s.step % 2 == 1 then r.s.step + 1 else r.s.step) + (if r.pc == Raised then 4 else 0)
    && |r.askedAt| <= 2 * MAX_STEPS
  }

  /** What termination needs to know about a supervisor visit. */
  predicate Orderly(s: State, v: Visit) {
    var answered := LocalLlm in s.visited;
    && v.asked <= 4
    && (s.step >= MAX_STEPS || answered ==> v.asked == 0)
    && (v.update == None ==> s.step < MAX_STEPS && !answered)
    && (v.update.Some? ==>
          var u := v.update.value;
          && u.step == 1 && u.visited == [] && u.next.Some?
          && (answered ==> u.next == Some(ToFinish))
          && (!answered && s.step >= MAX_STEPS ==> u.next == Some(ToLocal))
          && (u.next == Some(ToFinish) ==> u.status.Some? && u.status != Some(Unset)))
  }

  lemma VisitsAreOrderly(s: State, o: Oracle, slots: Slots, now: int, id: nat)
    ensures Orderly(s, Supervisor(s, o, slots, now, id))
  {
  }

  lemma LandingBounded(r: Run, v: Visit)
    requires Bounded(r) && r.pc == AtSupervisor && Orderly(r.s, v)
    ensures Bounded(Land(r, v))
    ensures Land(r, v).pc != Raised ==> Land(r, v).s.step == r.s.step + 1
  {
    if v.update.Some? { assert Land(r, v).s.visited == r.s.visited; }
  }

  lemma ReplyKeepsBounded(r: Run, cost: Usage)
    requires Bounded(r) && r.pc == AtLocal
    ensures Bounded(Compose(r, cost)) && Compose(r, cost).s.step == r.s.step + 1
  {
    assert Compose(r, cost).s.visited == r.s.visited + [LocalLlm];
    AfterReplyBounded(r, Compose(r, cost));
  }

  lemma AfterReplyBounded(r: Run, r': Run)
    requires Bounded(r) && r.pc == AtLocal
    requires r'.pc == AtSupervisor && r'.askedAt == r.askedAt && r'.s.step == r.s.step + 1
    requires r'.s.visited == r.s.visited + [LocalLlm]
    ensures Bounded(r')
  {
    NoReplies(r.s.visited);
    RepliesAppend(r.s.visited, LocalLlm);
  }

  lemma ToolsKeepBounded(r: Run)
    requires Bounded(r) && r.pc == AtTools
    ensures Bounded(RunTools(r)) && RunTools(r).s.step == r.s.step + 1
  {
    assert RunTools(r).s.visited == r.s.visited + [ToolExecution];
    AfterToolsBounded(r, RunTools(r));
  }

  lemma AfterToolsBounded(r: Run, r': Run)
    requires Bounded(r) && r.pc == AtTools
    requires r'.pc == AtSupervisor && r'.askedAt == r.askedAt && r'.s.step == r.s.step + 1
    requires r'.s.visited == r.s.visited + [ToolExecution]
    ensures Bounded(r')
  {
    RepliesAppend(r.s.visited, ToolExecution);
  }

  lemma AdvanceKeepsBounded(r: Run, x: Input)
    requires Bounded(r) && !Terminal(r)
    ensures Bounded(Advance(r, x).run)
    ensures Advance(r, x).run.pc != Raised ==> Advance(r, x).run.s.step == r.s.step + 1
  {
    if r.pc == AtSupervisor {
      VisitsAreOrderly(r.s, x.oracle, x.slots, x.now, x.id);
      LandingBounded(r, Supervisor(r.s, x.oracle, x.slots, x.now, x.id));
    } else if r.pc == AtLocal {
      ReplyKeepsBounded(r, Charged(r.s.cannedReply, x.composition));
    } else {
      ToolsKeepBounded(r);
    }
  }

  lemma {:induction false} RunBounded(i: Intent, env: nat -> Input, n: nat)
    ensures Bounded(RunAfter(i, env, n))
    ensures !Terminal(RunAfter(i, env, n)) ==> RunAfter(i, env, n).s.step == n
  {
    if n == 0 {
    } else {
      RunBounded(i, env, n - 1);
      var r := RunAfter(i, env, n - 1);
      if !Terminal(r) { AdvanceKeepsBounded(r, env(n - 1)); }
    }
  }

  /** Every run ends, whatever the models do: within MAX_STEPS + 3 node visits, which the graph's own
      recursion limit allows, with at most one reply, a status that is one of the three, and no
      routing model called at or past the bound (and at most 2 * MAX_STEPS times in all). */
  lemma EveryRunEnds(i: Intent, env: nat -> Input, n: nat)
    requires n >= MAX_STEPS + 3
    ensures MAX_STEPS + 3 < RECURSION_LIMIT
    ensures var r := RunAfter(i, env, n);
      && Terminal(r)
      && (r.pc == Done ==> r.s.status in {Completed, Degraded, HaltedStepBound} && r.s.step <= MAX_STEPS + 3)
      && Replies(r.s.visited) <= 1
      && |r.askedAt| <= 2 * MAX_STEPS && forall k :: k in r.askedAt ==> k < MAX_STEPS
  {
    RunBounded(i, env, n);
    var status := RunAfter(i, env, n).s.status;
    assert status.Unset? || status.Completed? || status.Degraded? || status.HaltedStepBound?;
  }

  /** A visit asks a routing model. */
  predicate Asks(s: State, o: Oracle) { s.step < MAX_STEPS && LocalLlm !in s.visited && o.client }

  /** The native router answered with a known tool whose first arguments do not fit the typed schema. */
  predicate Raises(s: State, o: Oracle) {
    Asks(s, o) && o.native.NativeCalls? && Dispatchable(o.native.calls) != [] && !o.native.argsFit
  }

  /** In that case alone a visit raises, which turns the run's status into "error". */
  lemma VisitRaisesIff(s: State, o: Oracle, slots: Slots, now: int, id: nat)
    ensures Supervisor(s, o, slots, now, id).update == None <==> Raises(s, o)
  {
  }

  // --- exactly one reply --------------------------------------------------------------------------

  predicate GoodNative(o: Oracle) { o.client && o.native.NativeCalls? && o.native.argsFit }

  predicate FinishesAnswered(s: State, v: Visit) {
    v.update.Some? && (v.update.value.next == Some(ToFinish) ==> LocalLlm in s.visited)
  }

  lemma GoodVisitsFinishAnswered(s: State, o: Oracle, slots: Slots, now: int, id: nat)
    requires GoodNative(o)
    ensures FinishesAnswered(s, Supervisor(s, o, slots, now, id))
  {
    if s.step < MAX_STEPS && LocalLlm !in s.visited {
      var calls := Dispatchable(o.native.calls);
      GoodRoutingFinishesAnswered(s, calls, NativeUsage(o.native.usage.seen), slots, now, id);
    }
  }

  lemma GoodRoutingFinishesAnswered(s: State, calls: seq<Call>, usage: Usage, slots: Slots, now: int, id: nat)
    ensures var r := FinishRouting(s, NativeDecision(calls), usage, calls, slots, now, id);
      FinishesAnswered(s, Visit(Some(r.update), r.slots, r.event, 1))
  {
  }

  lemma LandingAnswered(r: Run, v: Visit)
    requires FinishesAnswered(r.s, v) && Orderly(r.s, v)
    ensures Land(r, v).pc != Raised && (Land(r, v).pc == Done ==> LocalLlm in Land(r, v).s.visited)
  {
    assert Land(r, v).s.visited == r.s.visited;
  }

  lemma {:induction false} GoodRunsAnswer(i: Intent, env: nat -> Input, n: nat)
    requires forall m :: GoodNative(env(m).oracle)
    ensures var r := RunAfter(i, env, n); r.pc != Raised && (r.pc == Done ==> LocalLlm in r.s.visited)
  {
    if n == 0 {
    } else {
      GoodRunsAnswer(i, env, n - 1);
      var r := RunAfter(i, env, n - 1);
      var x := env(n - 1);
      if r.pc == AtSupervisor {
        VisitsAreOrderly(r.s, x.oracle, x.slots, x.now, x.id);
        GoodVisitsFinishAnswered(r.s, x.oracle, x.slots, x.now, x.id);
        LandingAnswered(r, Supervisor(r.s, x.oracle, x.slots, x.now, x.id));
      }
    }
  }

  /** With a client and native decisions that succeed, the user gets exactly one reply. */
  lemma ExactlyOneReply(i: Intent, env: nat -> Input, n: nat)
    requires n >= MAX_STEPS + 3
    requires forall m :: GoodNative(env(m).oracle)
    ensures RunAfter(i, env, n).pc == Done && Replies(RunAfter(i, env, n).s.visited) == 1
  {
    EveryRunEnds(i, env, n);
    GoodRunsAnswer(i, env, n);
    NoReplies(RunAfter(i, env, n).s.visited);
  }

  // --- the repeat guard ---------------------------------------------------------------------------

  function AllSignatures(steps: seq<ToolStep>): seq<string>
    decreases |steps|
  {
    if steps == [] then []
    else AllSignatures(steps[..|steps| - 1]) + Signatures(steps[|steps| - 1].calls)
  }

  /** An approved plan runs once even where the deployment's limit is below one. */
  function Cap(): int { if MAX_SAME_TOOL_CALLS > 1 then MAX_SAME_TOOL_CALLS else 1 }

  predicate BatchFresh(calls: seq<Call>, already: seq<string>) {
    forall c :: c in calls ==> Signature(c) !in already && TimesRun(already, c.name) < Cap()
  }

  predicate StepFresh(steps: seq<ToolStep>, j: nat)
    requires j < |steps|
  {
    (steps[j].batch ==> BatchFresh(steps[j].calls, AllSignatures(steps[..j])))
    && forall c :: c in steps[j].calls ==> c.name in DISPATCHABLE_TOOLS
  }

  predicate Guarded(r: Run) {
    && r.s.executedCalls == AllSignatures(r.toolSteps)
    && (ToolExecution in r.s.visited <==> r.toolSteps != [])
    && (forall j :: 0 <= j < |r.toolSteps| ==> StepFresh(r.toolSteps, j))
    && (r.pc == AtTools && HasBatch(r.s) ==> BatchFresh(r.s.toolCalls.value, r.s.executedCalls))
  }

  /** A batch leaves the supervisor fresh, or as an approved plan before any tool has run. */
  predicate FreshBatch(s: State, v: Visit) {
    v.update.Some? ==>
      var u := v.update.value;
      && u.executedCalls == [] && u.visited == [] && u.next.Some?
      && (u.next == Some(ToTools) ==> u.toolCalls.Some?)
      && (u.next == Some(ToTools) && u.toolCalls.value.Some? ==>
            (forall c :: c in u.toolCalls.value.value ==> IsFresh(c, s.executedCalls)) || ToolExecution !in s.visited)
  }

  lemma VisitsFreshenBatches(s: State, o: Oracle, slots: Slots, now: int, id: nat)
    ensures FreshBatch(s, Supervisor(s, o, slots, now, id))
  {
  }

  lemma LandingGuarded(r: Run, v: Visit)
    requires Guarded(r) && FreshBatch(r.s, v)
    ensures Guarded(Land(r, v))
  {
    if v.update.Some? {
      var w := Land(r, v);
      assert w.s.visited == r.s.visited && w.s.executedCalls == r.s.executedCalls;
      if w.pc == AtTools && HasBatch(w.s) {
        forall c | c in w.s.toolCalls.value
          ensures Signature(c) !in r.s.executedCalls && TimesRun(r.s.executedCalls, c.name) < Cap()
        {
          if ToolExecution !in r.s.visited {
            assert r.s.executedCalls == [];
          } else {
            assert IsFresh(c, r.s.executedCalls);
          }
        }
      }
    }
  }

  lemma ToolsKeepGuarded(r: Run)
    requires Guarded(r) && r.pc == AtTools
    ensures Guarded(RunTools(r))
  {
    var w := RunTools(r);
    var n := |r.toolSteps|;
    assert w.toolSteps[..n] == r.toolSteps;
    assert w.s.visited == r.s.visited + [ToolExecution];
    forall j | 0 <= j < |w.toolSteps| ensures StepFresh(w.toolSteps, j) {
      if j < n {
        assert StepFresh(r.toolSteps, j) && w.toolSteps[..j] == r.toolSteps[..j];
      }
    }
  }

  lemma AdvanceKeepsGuarded(r: Run, x: Input)
    requires Guarded(r) && !Terminal(r)
    ensures Guarded(Advance(r, x).run)
  {
    if r.pc == AtSupervisor {
      VisitsFreshenBatches(r.s, x.oracle, x.slots, x.now, x.id);
      LandingGuarded(r, Supervisor(r.s, x.oracle, x.slots, x.now, x.id));
    } else if r.pc == AtLocal {
      var w := Compose(r, Charged(r.s.cannedReply, x.composition));
      assert w.s.executedCalls == r.s.executedCalls && w.s.visited == r.s.visited + [LocalLlm];
    } else {
      ToolsKeepGuarded(r);
    }
  }

  lemma {:induction false} RunGuarded(i: Intent, env: nat -> Input, n: nat)
    ensures Guarded(RunAfter(i, env, n))
  {
    if n == 0 {
    } else {
      RunGuarded(i, env, n - 1);
      var r := RunAfter(i, env, n - 1);
      if !Terminal(r) { AdvanceKeepsGuarded(r, env(n - 1)); }
    }
  }

  lemma {:induction false} EarlierCallsAreCounted(steps: seq<ToolStep>, i: nat, c: Call)
    requires i < |steps| && c in steps[i].calls
    ensures Signature(c) in AllSignatures(steps)
    decreases |steps|
  {
    var last := |steps| - 1;
    if i < last {
      assert steps[..last][i] == steps[i];
      EarlierCallsAreCounted(steps[..last], i, c);
    } else {
      var k :| 0 <= k < |steps[i].calls| && steps[i].calls[k] == c;
      assert Signatures(steps[i].calls)[k] == Signature(c);
    }
  }

  /** A batch never repeats a call this turn has already run, by whichever path it ran. */
  lemma NoCallRunsInTwoSteps(i: Intent, env: nat -> Input, n: nat, p: nat, q: nat, c: Call)
    requires var r := RunAfter(i, env, n);
      p < q < |r.toolSteps| && r.toolSteps[q].batch && c in r.toolSteps[p].calls
    ensures c !in RunAfter(i, env, n).toolSteps[q].calls
  {
    RunGuarded(i, env, n);
    var steps := RunAfter(i, env, n).toolSteps;
    assert StepFresh(steps, q);
    assert steps[..q][p] == steps[p];
    EarlierCallsAreCounted(steps[..q], p, c);
  }

  predicate Runs(step: ToolStep, name: string) { exists c :: c in step.calls && c.name == name }

  function StepsRunning(steps: seq<ToolStep>, name: string): nat
    decreases |steps|
  {
    if steps == [] then 0
    else StepsRunning(steps[..|steps| - 1], name) + (if Runs(steps[|steps| - 1], name) then 1 else 0)
  }

  lemma {:induction false} TimesRunSum(a: seq<string>, b: seq<string>, name: string)
    ensures TimesRun(a + b, name) == TimesRun(a, name) + TimesRun(b, name)
  {
    if a == [] {
      assert a + b == b;
    } else {
      assert (a + b)[1..] == a[1..] + b;
      TimesRunSum(a[1..], b, name);
    }
  }

  lemma {:induction false} NamedCallCounts(calls: seq<Call>, c: Call)
    requires c in calls && c.name in DISPATCHABLE_TOOLS
    ensures TimesRun(Signatures(calls), c.name) >= 1
  {
    assert Signatures(calls)[1..] == Signatures(calls[1..]);
    if calls[0] == c {
      DispatchableNamesAreSafe(c, c);
    } else {
      NamedCallCounts(calls[1..], c);
    }
  }

  lemma {:induction false} StepsAreCounted(steps: seq<ToolStep>, name: string)
    requires forall j :: 0 <= j < |steps| ==> forall c :: c in steps[j].calls ==> c.name in DISPATCHABLE_TOOLS
    ensures StepsRunning(steps, name) <= TimesRun(AllSignatures(steps), name)
    decreases |steps|
  {
    if steps == [] {
    } else {
      var last := |steps| - 1;
      StepsAreCounted(steps[..last], name);
      TimesRunSum(AllSignatures(steps[..last]), Signatures(steps[last].calls), name);
      if Runs(steps[last], name) {
        var c :| c in steps[last].calls && c.name == name;
        NamedCallCounts(steps[last].calls, c);
      }
    }
  }

  /** On the native path each tool name runs in at most MAX_SAME_TOOL_CALLS tool steps (in one, if
      the limit is set below one and the user approved it). More generally: once it has run in that
      many, no later batch runs it. */
  lemma ToolRunsBoundedly(i: Intent, env: nat -> Input, n: nat, q: nat, name: string)
    requires var r := RunAfter(i, env, n); q < |r.toolSteps| && r.toolSteps[q].batch && Runs(r.toolSteps[q], name)
    ensures StepsRunning(RunAfter(i, env, n).toolSteps[..q], name) < Cap()
  {
    RunGuarded(i, env, n);
    var steps := RunAfter(i, env, n).toolSteps;
    forall j | 0 <= j < q ensures forall c :: c in steps[..q][j].calls ==> c.name in DISPATCHABLE_TOOLS {
      assert StepFresh(steps, j);
    }
    assert StepFresh(steps, q);
    StepsAreCounted(steps[..q], name);
  }
}
