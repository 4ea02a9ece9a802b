/**
 * Whole conversations: any number of turns by any users in any chats, their node visits
 * interleaved freely over one plan store, with the log of what each did.
 *
 * The store here is the single TTL slot per key that PlanRaces.OneSlotPerKey shows the real one to
 * be while its table is reachable.
 */
module Conversations {
  import opened Calls
  import opened PendingPlans
  import opened Router
  import opened Runs

  datatype Event =
    | Proposed(turn: nat, key: Key, plan: seq<Call>, at: int)   // the gate stored a plan
    | Released(turn: nat, key: Key, plan: seq<Call>, at: int)   // the gate took one
    | NoPlan(turn: nat, key: Key, at: int)                      // the gate found none to take
    | Dropped(turn: nat, key: Key, at: int)                     // the gate cleared the slot
    | Executed(turn: nat, key: Key, batch: bool, calls: seq<Call>)

  datatype World = World(now: int, slots: Slots, turns: map<nat, Run>, log: seq<Event>)

  datatype Action =
    | Tick(seconds: nat)
    | StartTurn(turn: nat, intent: Intent)
    | Go(turn: nat, oracle: Oracle, composition: Composition)

  function Start(now: int): World { World(now, map[], map[], []) }

  predicate Enabled(w: World, a: Action) {
    match a
    case Tick(_) => true
    case StartTurn(t, _) => t !in w.turns
    case Go(t, _, _) => t in w.turns && !Terminal(w.turns[t])
  }

  function Logged(t: nat, r: Run, event: GateEvent, now: int): seq<Event> {
    var k := ChatKey(r.s.intent);
    if r.pc == AtTools then [Executed(t, k, HasBatch(r.s), RequestedToolCalls(r.s))]
    else match event
      case Bypassed => []
      case Took(Some(plan)) => [Released(t, k, plan, now)]
      case Took(None) => [NoPlan(t, k, now)]
      case Stored(plan) => [Proposed(t, k, plan, now)]
      case Cleared => [Dropped(t, k, now)]
  }

  function Step(w: World, a: Action): World
    requires Enabled(w, a)
  {
    match a
    case Tick(seconds) => w.(now := w.now + seconds)
    case StartTurn(t, intent) => w.(turns := w.turns[t := Begin(intent)])
    case Go(t, oracle, composition) =>
      var r := w.turns[t];
      var adv := Advance(r, Input(oracle, w.slots, w.now, |w.log|, composition));
      World(w.now, adv.slots, w.turns[t := adv.run], w.log + Logged(t, r, adv.event, w.now))
  }

  function After(t0: int, actions: seq<Action>): Option<World>
    decreases |actions|
  {
    if actions == [] then Some(Start(t0))
    else
      var last := |actions| - 1;
      match After(t0, actions[..last])
      case None => None
      case Some(w) => if Enabled(w, actions[last]) then Some(Step(w, actions[last])) else None
  }

  // --- the log and the store ----------------------------------------------------------------------

  predicate TouchesSlot(e: Event, k: Key) { !e.Executed? && e.key == k }

  /** The slots as the log implies them. A plan's copy is named by the position of its proposal. */
  function Replay(log: seq<Event>): Slots
    decreases |log|
  {
    if log == [] then map[]
    else
      var n := |log| - 1;
      var before := Replay(log[..n]);
      match log[n]
      case Proposed(_, k, plan, at) => SlotSave(before, k, Copy(n, plan, Some(at + PLAN_TTL_S)))
      case Executed(_, _, _, _) => before
      case _ => SlotDrop(before, log[n].key)
  }

  /** Each take answered what the slot held. */
  predicate Sound(log: seq<Event>, i: nat)
    requires i < |log|
  {
    match log[i]
    case Released(_, k, plan, at) => Answer(Lookup(Replay(log[..i]), k), Table, at) == Some(plan)
    case NoPlan(_, k, at) => Answer(Lookup(Replay(log[..i]), k), Table, at) == None
    case Proposed(_, _, plan, _) => plan != [] && NeedsConfirmation(plan)
    case _ => true
  }

  lemma {:induction false} SlotComesFromItsLastProposal(log: seq<Event>, k: Key) returns (j: nat)
    requires k in Replay(log)
    ensures j < |log| && log[j].Proposed? && log[j].key == k
    ensures Replay(log)[k] == Copy(j, log[j].plan, Some(log[j].at + PLAN_TTL_S))
    ensures forall m :: j < m < |log| ==> !TouchesSlot(log[m], k)
    decreases |log|
  {
    var n := |log| - 1;
    if log[n].Proposed? && log[n].key == k {
      j := n;
    } else {
      j := SlotComesFromItsLastProposal(log[..n], k);
      forall m | j < m < |log| ensures !TouchesSlot(log[m], k) {
        if m < n { assert log[..n][m] == log[m]; }
      }
    }
  }

  // --- one turn's transcript ----------------------------------------------------------------------

  function Transcript(log: seq<Event>, t: nat): seq<Event>
    decreases |log|
  {
    if log == [] then []
    else Transcript(log[..|log| - 1], t) + (if log[|log| - 1].turn == t then [log[|log| - 1]] else [])
  }

  lemma TranscriptGrows(log: seq<Event>, more: seq<Event>, t: nat)
    requires |more| <= 1
    ensures Transcript(log + more, t) == Transcript(log, t) + (if more != [] && more[0].turn == t then more else [])
  {
    if more == [] {
      assert log + more == log;
    } else {
      assert (log + more)[..|log|] == log;
    }
  }

  /** Nothing left to do in this turn but reply and finish. */
  predicate Settled(r: Run) {
    r.pc == AtLocal || Terminal(r) || (r.pc == AtSupervisor && LocalLlm in r.s.visited)
  }

  predicate AllDispatchable(calls: seq<Call>) { forall c :: c in calls ==> c.name in DISPATCHABLE_TOOLS }

  /** What must stand last in the transcript when a batch is about to run. */
  predicate Justifies(events: seq<Event>, batch: seq<Call>) {
    events != [] &&
    match events[|events| - 1]
    case Released(_, _, plan, _) => |events| == 1 && plan == batch
    case NoPlan(_, _, _) => |events| == 1
    case Dropped(_, _, _) => !NeedsConfirmation(batch)
    case _ => false
  }

  predicate WellOrdered(events: seq<Event>, i: nat, r: Run)
    requires i < |events|
  {
    match events[i]
    case Proposed(_, _, _, _) => i == |events| - 1 && Settled(r)
    case Released(_, _, _, _) => i == 0 && ConfirmationGiven(r.s.intent)
    case NoPlan(_, _, _) => i == 0 && ConfirmationGiven(r.s.intent)
    case Dropped(_, _, _) => i == 0 ==> !ConfirmationGiven(r.s.intent)
    case Executed(_, _, batch, calls) =>
      batch && NeedsConfirmation(calls) ==>
        i == 1 && (events[0].NoPlan? || (events[0].Released? && events[0].plan == calls))
  }

  /** The turn has got past routing: a worker was reached, or it ended other than by degrading. */
  predicate PastTheGate(r: Run) {
    r.s.visited != [] || r.pc == AtLocal || r.pc == AtTools || (r.pc == Done && r.s.status != Degraded)
  }

  /** A turn has events exactly when it has been routed, and the first of them is the gate's. */
  predicate Entered(events: seq<Event>, r: Run) {
    (PastTheGate(r) <==> events != []) && (events != [] ==> !events[0].Executed?)
  }

  predicate TurnInv(t: nat, events: seq<Event>, r: Run) { Ordered(t, events, r) && Entered(events, r) }

  predicate Ordered(t: nat, events: seq<Event>, r: Run) {
    && Bounded(r)
    && (r.s.step == 0 && r.pc == AtSupervisor ==> events == [])
    && (forall i :: 0 <= i < |events| ==> events[i].turn == t && events[i].key == ChatKey(r.s.intent))
    && (forall i :: 0 <= i < |events| ==> WellOrdered(events, i, r))
    && (r.pc == AtTools && HasBatch(r.s) ==>
          Justifies(events, r.s.toolCalls.value) && AllDispatchable(r.s.toolCalls.value))
    && (ToolExecution in r.s.visited ==> events != [])
  }

  predicate SlotsHoldPlans(slots: Slots) {
    forall k :: k in slots ==> slots[k].calls != [] && AllDispatchable(slots[k].calls)
  }

  ghost predicate Inv(w: World) {
    LogInv(w.slots, w.log) && Started(w.log, w.turns) && TurnsInv(w.log, w.turns)
  }

  /** The store is what the log implies, and every take answered what the slot held. */
  predicate LogInv(slots: Slots, log: seq<Event>) {
    slots == Replay(log) && SlotsHoldPlans(slots) && forall i :: 0 <= i < |log| ==> Sound(log, i)
  }

  predicate Started(log: seq<Event>, turns: map<nat, Run>) { forall i :: 0 <= i < |log| ==> log[i].turn in turns }

  predicate TurnsInv(log: seq<Event>, turns: map<nat, Run>) {
    forall t :: t in turns ==> TurnInv(t, Transcript(log, t), turns[t])
  }

  // --- one gate visit -----------------------------------------------------------------------------

  /** Everything the log needs to know about a supervisor visit. */
  predicate GateFacts(s: State, v: Visit, slots: Slots, now: int, id: nat) {
    var k := ChatKey(s.intent);
    var next := if v.update.Some? then v.update.value.next else None;
    var batch := if v.update.Some? && v.update.value.toolCalls.Some? then v.update.value.toolCalls.value else None;
    && (v.event != Bypassed ==> v.update.Some? && LocalLlm !in s.visited && s.step < MAX_STEPS)
    && (next == Some(ToTools) ==> v.event != Bypassed && v.update.value.toolCalls.Some?)
    && (next == Some(ToTools) && batch.Some? ==> AllDispatchable(batch.value))
    && match v.event
       case Bypassed => v.slots == slots
       case Took(found) =>
         && ConfirmationGiven(s.intent) && ToolExecution !in s.visited
         && v.slots == SlotDrop(slots, k) && found == Answer(Lookup(slots, k), Table, now)
         && (found.Some? ==> next == Some(ToTools) && batch == found)
       case Stored(plan) =>
         && v.slots == SlotSave(slots, k, Copy(id, plan, Some(now + PLAN_TTL_S)))
         && plan != [] && AllDispatchable(plan) && NeedsConfirmation(plan) && next == Some(ToLocal)
       case Cleared =>
         && v.slots == SlotDrop(slots, k)
         && (ConfirmationGiven(s.intent) ==> ToolExecution in s.visited)
         && (next == Some(ToTools) && batch.Some? ==> !NeedsConfirmation(batch.value))
  }

  lemma RoutingObeysTheGate(s: State, d: Decision, usage: Usage, native: seq<Call>,
        slots: Slots, now: int, id: nat, asked: nat)
    requires SlotsHoldPlans(slots) && AllDispatchable(native)
    requires LocalLlm !in s.visited && s.step < MAX_STEPS
    ensures var r := FinishRouting(s, d, usage, native, slots, now, id);
      GateFacts(s, Visit(Some(r.update), r.slots, r.event, asked), slots, now, id)
  {
  }

  lemma VisitsObeyTheGate(s: State, o: Oracle, slots: Slots, now: int, id: nat)
    requires SlotsHoldPlans(slots)
    ensures GateFacts(s, Supervisor(s, o, slots, now, id), slots, now, id)
  {
    if s.step < MAX_STEPS && LocalLlm !in s.visited && o.client {
      if o.native.NativeCalls? {
        NativeVisitsObeyTheGate(s, o, slots, now, id);
      } else {
        StructuredVisitsObeyTheGate(s, o, slots, now, id, Supervisor(s, o, slots, now, id));
      }
    }
  }

  lemma NativeVisitsObeyTheGate(s: State, o: Oracle, slots: Slots, now: int, id: nat)
    requires SlotsHoldPlans(slots) && s.step < MAX_STEPS && LocalLlm !in s.visited && o.client && o.native.NativeCalls?
    ensures GateFacts(s, Supervisor(s, o, slots, now, id), slots, now, id)
  {
    var calls := Dispatchable(o.native.calls);
    RoutingObeysTheGate(s, NativeDecision(calls), NativeUsage(o.native.usage.seen), calls, slots, now, id, 1);
  }

  lemma StructuredVisitIs(s: State, o: Oracle, slots: Slots, now: int, id: nat, tried: seq<Attempt>, v: Visit)
    requires s.step < MAX_STEPS && LocalLlm !in s.visited && o.client && !o.native.NativeCalls?
    requires tried == Attempts(o)[..Asked(Attempts(o))] && v == Supervisor(s, o, slots, now, id)
    ensures match tried[|tried| - 1]
      case Failed(_, _) => v == Visit(Some(Degrade(ReturnedIn(tried))), slots, Bypassed, v.asked)
      case Decided(d, _) =>
        var r := FinishRouting(s, d, ReturnedIn(tried), [], slots, now, id);
        v == Visit(Some(r.update), r.slots, r.event, v.asked)
  {
  }

  lemma DegradingObeysTheGate(s: State, usage: Usage, slots: Slots, now: int, id: nat, asked: nat)
    ensures GateFacts(s, Visit(Some(Degrade(usage)), slots, Bypassed, asked), slots, now, id)
  {
  }

  lemma StructuredVisitsObeyTheGate(s: State, o: Oracle, slots: Slots, now: int, id: nat, v: Visit)
    requires SlotsHoldPlans(slots) && s.step < MAX_STEPS && LocalLlm !in s.visited && o.client && !o.native.NativeCalls?
    requires v == Supervisor(s, o, slots, now, id)
    ensures GateFacts(s, v, slots, now, id)
  {
    var tried := Attempts(o)[..Asked(Attempts(o))];
    StructuredVisitIs(s, o, slots, now, id, tried, v);
    match tried[|tried| - 1]
    case Failed(_, _) => DegradingObeysTheGate(s, ReturnedIn(tried), slots, now, id, v.asked);
    case Decided(d, _) => RoutingObeysTheGate(s, d, ReturnedIn(tried), [], slots, now, id, v.asked);
  }

  // --- every step keeps it ------------------------------------------------------------------------

  lemma SomeWorkerVisited(visited: seq<Worker>)
    ensures visited == [] || LocalLlm in visited || ToolExecution in visited
  {
    if visited != [] {
      assert visited[0] in visited;
      assert visited[0].LocalLlm? || visited[0].ToolExecution?;
    }
  }

  lemma SupervisorKeepsTurn(t: nat, events: seq<Event>, r: Run, v: Visit, slots: Slots, now: int, id: nat)
    requires Ordered(t, events, r) && r.pc == AtSupervisor
    requires GateFacts(r.s, v, slots, now, id) && Orderly(r.s, v)
    ensures Ordered(t, events + Logged(t, r, v.event, now), Land(r, v))
  {
    var r' := Land(r, v);
    var all := events + Logged(t, r, v.event, now);
    LandingBounded(r, v);
    assert r'.s.intent == r.s.intent;
    if v.update.Some? { assert r'.s.visited == r.s.visited; }
    SomeWorkerVisited(r.s.visited);
    forall i | 0 <= i < |all| ensures WellOrdered(all, i, r') {
      if i < |events| { assert WellOrdered(events, i, r); }
    }
  }

  lemma ReplyKeepsTurn(t: nat, events: seq<Event>, r: Run, cost: Usage)
    requires Ordered(t, events, r) && r.pc == AtLocal
    ensures Ordered(t, events, Compose(r, cost))
  {
    var r' := Compose(r, cost);
    ReplyKeepsBounded(r, cost);
    assert r'.s.visited == r.s.visited + [LocalLlm];
    forall i | 0 <= i < |events| ensures WellOrdered(events, i, r') {
      assert WellOrdered(events, i, r);
    }
  }

  lemma ToolsKeepOrder(events: seq<Event>, e: Event, r: Run, r': Run, i: nat)
    requires r.pc == AtTools && r' == RunTools(r) && i < |events| && WellOrdered(events, i, r)
    ensures WellOrdered(events + [e], i, r')
  {
    assert (events + [e])[i] == events[i] && (events + [e])[0] == events[0];
  }

  lemma JustifiedIsOrdered(events: seq<Event>, e: Event, r: Run)
    requires e.Executed? && (e.batch ==> Justifies(events, e.calls))
    ensures WellOrdered(events + [e], |events|, r)
  {
  }

  lemma BatchIsJustified(events: seq<Event>, r: Run)
    requires HasBatch(r.s) ==> Justifies(events, r.s.toolCalls.value) && AllDispatchable(r.s.toolCalls.value)
    ensures HasBatch(r.s) ==> Justifies(events, RequestedToolCalls(r.s))
  {
  }

  lemma ToolsKeepTurn(t: nat, events: seq<Event>, r: Run, now: int)
    requires Ordered(t, events, r) && r.pc == AtTools
    ensures Ordered(t, events + Logged(t, r, Bypassed, now), RunTools(r))
  {
    var e := Executed(t, ChatKey(r.s.intent), HasBatch(r.s), RequestedToolCalls(r.s));
    ToolsKeepBounded(r);
    BatchIsJustified(events, r);
    JustifiedIsOrdered(events, e, RunTools(r));
    forall i | 0 <= i < |events| ensures WellOrdered(events + [e], i, RunTools(r)) {
      ToolsKeepOrder(events, e, r, RunTools(r), i);
    }
    ToolsAreOrdered(t, events, e, r, RunTools(r));
  }

  lemma ToolsAreOrdered(t: nat, events: seq<Event>, e: Event, r: Run, r': Run)
    requires Ordered(t, events, r) && r.pc == AtTools && r' == RunTools(r) && Bounded(r') && r'.s.step == r.s.step + 1
    requires e.turn == t && e.key == ChatKey(r.s.intent)
    requires forall i :: 0 <= i < |events + [e]| ==> WellOrdered(events + [e], i, r')
    ensures Ordered(t, events + [e], r')
  {
    assert r'.s.visited == r.s.visited + [ToolExecution];
  }

  /** A visit that does not reach the gate degrades or raises, unless a worker has run before. */
  predicate GateOrDegrade(s: State, v: Visit) {
    && (v.event != Bypassed ==>
          v.update.Some? && v.update.value.next.Some? && v.update.value.visited == []
          && (v.update.value.next == Some(ToFinish) ==> v.update.value.status == Some(Completed)))
    && (v.event == Bypassed && v.update.Some? ==>
          v.update.value.visited == []
          && (s.visited != [] || s.step >= MAX_STEPS
              || (v.update.value.next == Some(ToFinish) && v.update.value.status == Some(Degraded))))
  }

  lemma RoutingGates(s: State, d: Decision, usage: Usage, native: seq<Call>,
        slots: Slots, now: int, id: nat, asked: nat)
    requires LocalLlm !in s.visited
    ensures var r := FinishRouting(s, d, usage, native, slots, now, id);
      GateOrDegrade(s, Visit(Some(r.update), r.slots, r.event, asked))
  {
  }

  lemma NativeVisitsGate(s: State, o: Oracle, slots: Slots, now: int, id: nat)
    requires s.step < MAX_STEPS && LocalLlm !in s.visited && o.client && o.native.NativeCalls?
    ensures GateOrDegrade(s, Supervisor(s, o, slots, now, id))
  {
    var calls := Dispatchable(o.native.calls);
    RoutingGates(s, NativeDecision(calls), NativeUsage(o.native.usage.seen), calls, slots, now, id, 1);
  }

  lemma StructuredVisitsGate(s: State, o: Oracle, slots: Slots, now: int, id: nat)
    requires s.step < MAX_STEPS && LocalLlm !in s.visited && o.client && !o.native.NativeCalls?
    ensures GateOrDegrade(s, Supervisor(s, o, slots, now, id))
  {
    var v := Supervisor(s, o, slots, now, id);
    var tried := Attempts(o)[..Asked(Attempts(o))];
    match tried[|tried| - 1]
    case Failed(_, _) =>
    case Decided(d, _) => RoutingGates(s, d, ReturnedIn(tried), [], slots, now, id, v.asked);
  }

  lemma VisitsGateOrDegrade(s: State, o: Oracle, slots: Slots, now: int, id: nat)
    ensures GateOrDegrade(s, Supervisor(s, o, slots, now, id))
  {
    if s.step < MAX_STEPS && LocalLlm !in s.visited && o.client {
      if o.native.NativeCalls? {
        NativeVisitsGate(s, o, slots, now, id);
      } else {
        StructuredVisitsGate(s, o, slots, now, id);
      }
    }
  }

  lemma SupervisorEnters(t: nat, events: seq<Event>, r: Run, v: Visit, now: int)
    requires Entered(events, r) && Bounded(r) && r.pc == AtSupervisor && GateOrDegrade(r.s, v)
    ensures Entered(events + Logged(t, r, v.event, now), Land(r, v))
  {
    if v.update.Some? { assert Land(r, v).s.visited == r.s.visited; }
  }

  lemma WorkersEnter(t: nat, events: seq<Event>, r: Run, x: Input)
    requires Entered(events, r) && (r.pc == AtLocal || r.pc == AtTools)
    ensures Entered(events + Logged(t, r, Bypassed, x.now), Advance(r, x).run)
  {
    assert Advance(r, x).run.s.visited == r.s.visited + [if r.pc == AtLocal then LocalLlm else ToolExecution];
  }

  lemma AdvanceEnters(t: nat, events: seq<Event>, r: Run, x: Input)
    requires Entered(events, r) && Bounded(r) && !Terminal(r)
    ensures var adv := Advance(r, x); Entered(events + Logged(t, r, adv.event, x.now), adv.run)
  {
    if r.pc == AtSupervisor {
      VisitsGateOrDegrade(r.s, x.oracle, x.slots, x.now, x.id);
      SupervisorEnters(t, events, r, Supervisor(r.s, x.oracle, x.slots, x.now, x.id), x.now);
    } else {
      WorkersEnter(t, events, r, x);
    }
  }

  /** What a visit logs matches what it does to the slots. `n` is the length of the log before. */
  predicate Paced(before: Slots, more: seq<Event>, after: Slots, n: nat) {
    |more| <= 1 &&
    if more == [] then after == before
    else
      match more[0]
      case Proposed(_, k, plan, at) =>
        after == SlotSave(before, k, Copy(n, plan, Some(at + PLAN_TTL_S)))
        && plan != [] && AllDispatchable(plan) && NeedsConfirmation(plan)
      case Released(_, k, plan, at) =>
        after == SlotDrop(before, k) && Answer(Lookup(before, k), Table, at) == Some(plan)
      case NoPlan(_, k, at) => after == SlotDrop(before, k) && Answer(Lookup(before, k), Table, at) == None
      case Dropped(_, k, _) => after == SlotDrop(before, k)
      case Executed(_, _, _, _) => after == before
  }

  lemma LogKeepsPace(log: seq<Event>, slots: Slots, more: seq<Event>, slots': Slots)
    requires LogInv(slots, log) && Paced(slots, more, slots', |log|)
    ensures LogInv(slots', log + more)
  {
    var all := log + more;
    if more == [] {
      assert all == log;
    } else {
      assert all[..|log|] == log;
      forall i | 0 <= i < |all| ensures Sound(all, i) {
        if i < |log| { assert Sound(log, i) && all[..i] == log[..i]; }
      }
    }
  }

  lemma VisitIsPaced(t: nat, r: Run, v: Visit, slots: Slots, now: int, n: nat)
    requires r.pc == AtSupervisor && GateFacts(r.s, v, slots, now, n)
    ensures Paced(slots, Logged(t, r, v.event, now), v.slots, n)
  {
  }

  lemma AdvanceIsPaced(t: nat, r: Run, x: Input, n: nat)
    requires !Terminal(r) && SlotsHoldPlans(x.slots) && x.id == n
    ensures var adv := Advance(r, x); Paced(x.slots, Logged(t, r, adv.event, x.now), adv.slots, n)
  {
    if r.pc == AtSupervisor {
      VisitsObeyTheGate(r.s, x.oracle, x.slots, x.now, x.id);
      VisitIsPaced(t, r, Supervisor(r.s, x.oracle, x.slots, x.now, x.id), x.slots, x.now, n);
    }
  }

  lemma AdvanceKeepsOrder(t: nat, events: seq<Event>, r: Run, x: Input)
    requires Ordered(t, events, r) && !Terminal(r) && SlotsHoldPlans(x.slots)
    ensures var adv := Advance(r, x); Ordered(t, events + Logged(t, r, adv.event, x.now), adv.run)
  {
    if r.pc == AtSupervisor {
      VisitsAreOrderly(r.s, x.oracle, x.slots, x.now, x.id);
      VisitsObeyTheGate(r.s, x.oracle, x.slots, x.now, x.id);
      SupervisorKeepsTurn(t, events, r, Supervisor(r.s, x.oracle, x.slots, x.now, x.id), x.slots, x.now, x.id);
    } else if r.pc == AtLocal {
      ReplyKeepsTurn(t, events, r, Charged(r.s.cannedReply, x.composition));
      assert events + [] == events;
    } else {
      ToolsKeepTurn(t, events, r, x.now);
    }
  }

  lemma AdvanceKeepsTurn(t: nat, events: seq<Event>, r: Run, x: Input)
    requires TurnInv(t, events, r) && !Terminal(r) && SlotsHoldPlans(x.slots)
    ensures var adv := Advance(r, x); TurnInv(t, events + Logged(t, r, adv.event, x.now), adv.run)
  {
    AdvanceKeepsOrder(t, events, r, x);
    AdvanceEnters(t, events, r, x);
  }

  predicate LoggedBy(t: nat, more: seq<Event>) { |more| <= 1 && forall e :: e in more ==> e.turn == t }

  lemma AppendKeepsInv(w: World, t: nat, r: Run, more: seq<Event>, slots: Slots)
    requires Inv(w) && t in w.turns && LoggedBy(t, more)
    requires Paced(w.slots, more, slots, |w.log|) && TurnInv(t, Transcript(w.log, t) + more, r)
    ensures Inv(World(w.now, slots, w.turns[t := r], w.log + more))
  {
    LogKeepsPace(w.log, w.slots, more, slots);
    AppendKeepsStarted(w.log, w.turns, t, r, more);
    AppendKeepsTurns(w.log, w.turns, t, r, more);
  }

  lemma AppendKeepsStarted(log: seq<Event>, turns: map<nat, Run>, t: nat, r: Run, more: seq<Event>)
    requires Started(log, turns) && t in turns && LoggedBy(t, more)
    ensures Started(log + more, turns[t := r])
  {
  }

  lemma AppendKeepsTurns(log: seq<Event>, turns: map<nat, Run>, t: nat, r: Run, more: seq<Event>)
    requires TurnsInv(log, turns) && t in turns && LoggedBy(t, more) && TurnInv(t, Transcript(log, t) + more, r)
    ensures TurnsInv(log + more, turns[t := r])
  {
    forall u | u in turns ensures TurnInv(u, Transcript(log + more, u), turns[t := r][u]) {
      AppendKeepsTurn(log, turns, t, r, more, u);
    }
  }

  lemma AppendKeepsTurn(log: seq<Event>, turns: map<nat, Run>, t: nat, r: Run, more: seq<Event>, u: nat)
    requires t in turns && u in turns && LoggedBy(t, more)
    requires TurnInv(u, Transcript(log, u), turns[u]) && TurnInv(t, Transcript(log, t) + more, r)
    ensures TurnInv(u, Transcript(log + more, u), turns[t := r][u])
  {
    if u == t { OwnTranscript(log, t, more); } else { OtherTranscript(log, t, more, u); }
  }

  lemma OwnTranscript(log: seq<Event>, t: nat, more: seq<Event>)
    requires LoggedBy(t, more)
    ensures Transcript(log + more, t) == Transcript(log, t) + more
  {
    TranscriptGrows(log, more, t);
  }

  lemma OtherTranscript(log: seq<Event>, t: nat, more: seq<Event>, u: nat)
    requires LoggedBy(t, more) && u != t
    ensures Transcript(log + more, u) == Transcript(log, u)
  {
    TranscriptGrows(log, more, u);
  }

  lemma LoggedByItsTurn(t: nat, r: Run, event: GateEvent, now: int)
    ensures LoggedBy(t, Logged(t, r, event, now))
  {
  }

  lemma GoKeepsInv(w: World, t: nat, x: Input)
    requires Inv(w) && t in w.turns && !Terminal(w.turns[t])
    requires x.slots == w.slots && x.now == w.now && x.id == |w.log|
    ensures var adv := Advance(w.turns[t], x);
      Inv(World(w.now, adv.slots, w.turns[t := adv.run], w.log + Logged(t, w.turns[t], adv.event, w.now)))
  {
    var adv := Advance(w.turns[t], x);
    AdvanceIsPaced(t, w.turns[t], x, |w.log|);
    AdvanceKeepsTurn(t, Transcript(w.log, t), w.turns[t], x);
    LoggedByItsTurn(t, w.turns[t], adv.event, w.now);
    AppendKeepsInv(w, t, adv.run, Logged(t, w.turns[t], adv.event, w.now), adv.slots);
  }

  lemma StartKeepsInv(w: World, t: nat, intent: Intent)
    requires Inv(w) && t !in w.turns
    ensures Inv(w.(turns := w.turns[t := Begin(intent)]))
  {
    NoTranscript(w.log, t);
    assert Bounded(Begin(intent));
  }

  lemma StepKeepsInv(w: World, a: Action)
    requires Inv(w) && Enabled(w, a)
    ensures Inv(Step(w, a))
  {
    match a
    case Tick(_) =>
    case StartTurn(t, intent) => StartKeepsInv(w, t, intent);
    case Go(t, oracle, composition) => GoKeepsInv(w, t, Input(oracle, w.slots, w.now, |w.log|, composition));
  }

  lemma {:induction false} NoTranscript(log: seq<Event>, t: nat)
    requires forall i :: 0 <= i < |log| ==> log[i].turn != t
    ensures Transcript(log, t) == []
    decreases |log|
  {
    if log != [] { NoTranscript(log[..|log| - 1], t); }
  }

  lemma {:induction false} ReachableInv(t0: int, actions: seq<Action>)
    ensures match After(t0, actions) case None => true case Some(w) => Inv(w)
    decreases |actions|
  {
    if actions == [] {
    } else {
      var last := |actions| - 1;
      ReachableInv(t0, actions[..last]);
      match After(t0, actions[..last])
      case None =>
      case Some(w) => if Enabled(w, actions[last]) { StepKeepsInv(w, actions[last]); }
    }
  }

  // --- what conversations guarantee ---------------------------------------------------------------

  lemma ReachableLog(t0: int, actions: seq<Action>, w: World)
    requires After(t0, actions) == Some(w)
    ensures LogInv(w.slots, w.log) && Started(w.log, w.turns)
  {
    ReachableInv(t0, actions);
  }

  lemma ReachableTurn(t0: int, actions: seq<Action>, w: World, t: nat)
    requires After(t0, actions) == Some(w) && t in w.turns
    ensures TurnInv(t, Transcript(w.log, t), w.turns[t])
  {
    ReachableInv(t0, actions);
  }

  lemma SoundReleaseIsOfAProposal(log: seq<Event>, i: nat) returns (j: nat)
    requires i < |log| && log[i].Released? && Sound(log, i)
    ensures j < i && log[j].Proposed? && log[j].key == log[i].key
    ensures log[i].plan == log[j].plan && log[i].at < log[j].at + PLAN_TTL_S
    ensures forall m :: j < m < i ==> !TouchesSlot(log[m], log[i].key)
  {
    j := SlotComesFromItsLastProposal(log[..i], log[i].key);
    forall m | j < m < i ensures !TouchesSlot(log[m], log[i].key) {
      assert log[..i][m] == log[m];
    }
  }

  /** A released plan is, call for call, the last one proposed for that user and chat, it is inside
      its TTL, and between the two no turn of that conversation has touched the slot: not a release,
      not a newer proposal, not a turn about something else. */
  lemma ReleaseIsTheLastProposal(t0: int, actions: seq<Action>, w: World, i: nat) returns (j: nat)
    requires After(t0, actions) == Some(w) && i < |w.log| && w.log[i].Released?
    ensures j < i && w.log[j].Proposed? && w.log[j].key == w.log[i].key
    ensures w.log[i].plan == w.log[j].plan && w.log[i].at < w.log[j].at + PLAN_TTL_S
    ensures forall m :: j < m < i ==> !TouchesSlot(w.log[m], w.log[i].key)
  {
    ReachableLog(t0, actions, w);
    j := SoundReleaseIsOfAProposal(w.log, i);
  }

  /** Approved-plan integrity: a batch with a delete, or with enough writes, runs as a batch only in a
      turn that is a bare go-ahead after an assistant turn, as the first thing the turn's tools do,
      and straight after the take; and if there was a plan on record, it is that plan. */
  lemma GatedBatchesAreApproved(t0: int, actions: seq<Action>, w: World, t: nat, i: nat)
    requires After(t0, actions) == Some(w) && t in w.turns && i < |Transcript(w.log, t)|
    requires var e := Transcript(w.log, t)[i]; e.Executed? && e.batch && NeedsConfirmation(e.calls)
    ensures ConfirmationGiven(w.turns[t].s.intent)
    ensures var turn := Transcript(w.log, t);
      && i == 1 && turn[0].key == ChatKey(w.turns[t].s.intent)
      && (turn[0].NoPlan? || (turn[0].Released? && turn[0].plan == turn[1].calls))
  {
    ReachableInv(t0, actions);
    assert WellOrdered(Transcript(w.log, t), i, w.turns[t]);
    assert WellOrdered(Transcript(w.log, t), 0, w.turns[t]);
  }

  lemma {:induction false} TranscriptPlace(log: seq<Event>, t: nat, i: nat) returns (p: nat)
    requires i < |Transcript(log, t)|
    ensures p < |log| && log[p] == Transcript(log, t)[i]
    decreases |log|
  {
    var n := |log| - 1;
    if i < |Transcript(log[..n], t)| {
      p := TranscriptPlace(log[..n], t, i);
      assert log[..n][p] == log[p];
    } else {
      p := n;
    }
  }

  /** End to end: a batch that needs confirmation, run where a plan was on record, is exactly the last
      sequence of calls proposed in that user's chat - in the same order, inside its TTL, with nothing
      in between that touched the slot. */
  lemma ApprovedBatchWasProposed(t0: int, actions: seq<Action>, w: World, t: nat, i: nat) returns (j: nat, p: nat)
    requires After(t0, actions) == Some(w) && t in w.turns && i < |Transcript(w.log, t)|
    requires var turn := Transcript(w.log, t);
      turn[i].Executed? && turn[i].batch && NeedsConfirmation(turn[i].calls) && !turn[0].NoPlan?
    ensures j < p < |w.log| && w.log[p] == Transcript(w.log, t)[0] && w.log[j].Proposed?
    ensures w.log[j].key == ChatKey(w.turns[t].s.intent) && w.log[j].plan == Transcript(w.log, t)[i].calls
    ensures w.log[p].Released? && w.log[p].at < w.log[j].at + PLAN_TTL_S
    ensures forall m :: j < m < p ==> !TouchesSlot(w.log[m], ChatKey(w.turns[t].s.intent))
  {
    GatedBatchesAreApproved(t0, actions, w, t, i);
    p := TranscriptPlace(w.log, t, 0);
    j := ReleaseIsTheLastProposal(t0, actions, w, p);
  }

  /** The gate's one opening, exactly: a batch that needs confirmation goes to the tools without
      being the approved plan if and only if the turn is a go-ahead, no tool has run in it, and no
      live plan is on record. */
  lemma UnshownBatchRunsIff(s: State, d: Decision, usage: Usage, native: seq<Call>, slots: Slots, now: int, id: nat)
    requires d.next == ToTools && native != []
    requires var batch := Fresh(native, s.executedCalls); batch != [] && NeedsConfirmation(batch)
    ensures var r := FinishRouting(s, d, usage, native, slots, now, id);
      (r.update.next == Some(ToTools) && r.event != Took(r.update.toolCalls.value)) <==>
      (ConfirmationGiven(s.intent) && ToolExecution !in s.visited
       && Answer(Lookup(slots, ChatKey(s.intent)), Table, now) == None)
  {
    assert Fresh(native, s.executedCalls) != [];
  }

  lemma SoundMissIsOfAnExpiredPlan(log: seq<Event>, i: nat, j: nat)
    requires j < i < |log| && log[i].NoPlan? && log[j].Proposed? && log[j].key == log[i].key
    requires Sound(log, i) && Sound(log, j) && forall m :: j < m < i ==> !TouchesSlot(log[m], log[i].key)
    ensures log[i].at >= log[j].at + PLAN_TTL_S
  {
    var before := log[..i];
    assert before[j] == log[j];
    assert forall m :: j < m < i ==> before[m] == log[m];
    UntouchedProposalStays(before, j);
  }

  /** When a take found nothing, nothing was on record: the slot was empty, or its plan had expired. */
  lemma NoPlanMeansNone(t0: int, actions: seq<Action>, w: World, i: nat)
    requires After(t0, actions) == Some(w) && i < |w.log| && w.log[i].NoPlan?
    ensures forall j :: 0 <= j < i && w.log[j].Proposed? && w.log[j].key == w.log[i].key
              && (forall m :: j < m < i ==> !TouchesSlot(w.log[m], w.log[i].key))
              ==> w.log[i].at >= w.log[j].at + PLAN_TTL_S
  {
    ReachableLog(t0, actions, w);
    forall j | 0 <= j < i && w.log[j].Proposed? && w.log[j].key == w.log[i].key
               && (forall m :: j < m < i ==> !TouchesSlot(w.log[m], w.log[i].key))
      ensures w.log[i].at >= w.log[j].at + PLAN_TTL_S
    {
      SoundMissIsOfAnExpiredPlan(w.log, i, j);
    }
  }

  lemma {:induction false} UntouchedProposalStays(log: seq<Event>, j: nat)
    requires j < |log| && log[j].Proposed?
    requires forall m :: j < m < |log| ==> !TouchesSlot(log[m], log[j].key)
    ensures log[j].key in Replay(log) && Replay(log)[log[j].key] == Copy(j, log[j].plan, Some(log[j].at + PLAN_TTL_S))
    decreases |log|
  {
    var n := |log| - 1;
    if j < n {
      assert !TouchesSlot(log[n], log[j].key);
      UntouchedProposalStays(log[..n], j);
    }
  }

  /** Once a turn has stored a proposal it does nothing more to any slot and runs no tool; a turn that
      is not a go-ahead never takes a plan, and what it does first, as soon as it is routed at all, is
      to replace or clear whatever was on record. */
  lemma ProposalsSurviveTheirTurn(t0: int, actions: seq<Action>, w: World, t: nat, i: nat)
    requires After(t0, actions) == Some(w) && t in w.turns && i < |Transcript(w.log, t)|
    ensures var turn := Transcript(w.log, t);
      && (turn[i].Proposed? ==> i == |turn| - 1)
      && (!ConfirmationGiven(w.turns[t].s.intent) ==> !turn[i].Released? && !turn[i].NoPlan?)
      && (!ConfirmationGiven(w.turns[t].s.intent) ==> turn[0].Proposed? || turn[0].Dropped?)
      && TouchesSlot(turn[0], ChatKey(w.turns[t].s.intent))
  {
    ReachableInv(t0, actions);
    assert WellOrdered(Transcript(w.log, t), i, w.turns[t]);
    assert WellOrdered(Transcript(w.log, t), 0, w.turns[t]);
  }
}
