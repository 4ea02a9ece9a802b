/**
 * supervisor, _finish_routing and the retry loop written the way orchestrator.py runs them:
 * local variables reassigned guard by guard, driving the plan store. Each method is proved to
 * compute the function of the same name in Router.dfy: over the table's slots when the table answers,
 * and over the process's own otherwise. What it leaves in each tier is stated for every reply.
 */
module RouterCode {
  import opened Calls
  import opened PendingPlans
  import opened Router

  class Gateway {
    const plans: PlanStore

    constructor (plans: PlanStore)
      ensures this.plans == plans
    {
      this.plans := plans;
    }

    /** local_llm: a canned reply as it stands, else the cloud's, else the local model's. */
    method ComposeReply(s: State, c: Composition) returns (u: Update)
      ensures u == LocalUpdate(Charged(s.cannedReply, c))
    {
      if s.cannedReply {
        return QUIET.(visited := [LocalLlm], usage := NO_USAGE);
      }
      var draft := c.local;
      if c.cloud.Some? {
        draft := c.cloud.value;
        if !draft.written {
          draft := c.local;
        }
      }
      if !draft.written {
        return QUIET.(visited := [LocalLlm], usage := NO_USAGE);
      }
      u := QUIET.(visited := [LocalLlm], usage := draft.usage.seen);
    }

    /** The bounded retry: asks again after a transient failure, adding up what every attempt returned. */
    method AskWithRetries(attempts: seq<Attempt>) returns (last: Attempt, usage: Usage, asked: nat)
      requires |attempts| == 1 + MAX_ROUTING_RETRIES
      ensures asked == Asked(attempts) && last == attempts[asked - 1]
      ensures usage == ReturnedIn(attempts[..asked])
    {
      usage := NO_USAGE;
      asked := 0;
      last := attempts[0];
      var maxAttempts := 1 + MAX_ROUTING_RETRIES;
      for attempt := 1 to maxAttempts + 1
        invariant asked == attempt - 1 && (asked >= 1 ==> last == attempts[asked - 1])
        invariant usage == ReturnedIn(attempts[..asked])
        invariant forall i :: 0 <= i < asked ==> RetryAfter(attempts[i])
      {
        ReturnedNext(attempts, asked);
        last := attempts[attempt - 1];
        asked := attempt;
        usage := usage + Returned(last);
        if last.Decided? {
          break;
        }
        if !Retryable(last.category) || attempt == maxAttempts {
          break;
        }
      }
    }

    /** An empty plan counts as none. */
    method TakePendingPlan(i: Intent, now: int, reply: Reply) returns (approved: Option<seq<Call>>)
      modifies plans`memory, plans.table
      ensures plans.memory == SlotDrop(old(plans.memory), ChatKey(i))
      ensures plans.table.rows ==
        if reply == Refused then old(plans.table.rows) else SlotDrop(old(plans.table.rows), ChatKey(i))
      ensures var seen := if reply == Answered then old(plans.table.rows) else old(plans.memory);
        approved == Answer(Lookup(seen, ChatKey(i)), Table, now)
    {
      var calls, _ := plans.Take(i.user, i.chat, now, reply);
      approved := if calls == Some([]) then None else calls;
    }

    /** The write gate. */
    method RunGate(s: State, next0: Next, calls0: Option<seq<Call>>, toolRequest0: Option<Call>,
                   now: int, id: nat, reply: Reply)
      returns (next: Next, calls: Option<seq<Call>>, toolRequest: Option<Call>,
               pendingPlan: Option<seq<Call>>, planNote: bool, ghost event: GateEvent)
      requires calls0 != Some([])
      modifies plans`memory, plans.table
      ensures var seen := if reply == Answered then old(plans.table.rows) else old(plans.memory);
        var g := Gate(s, next0, calls0, toolRequest0, seen, now, id);
        Gated(next, calls, toolRequest, pendingPlan, planNote, g.slots, event) == g
      ensures plans.memory == Gate(s, next0, calls0, toolRequest0, old(plans.memory), now, id).slots
      ensures plans.table.rows == if reply == Refused then old(plans.table.rows)
        else Gate(s, next0, calls0, toolRequest0, old(plans.table.rows), now, id).slots
    {
      next, calls, toolRequest := next0, calls0, toolRequest0;
      pendingPlan, planNote := None, false;
      var toolsRan := ToolExecution in s.visited;
      if ConfirmationGiven(s.intent) && !toolsRan {
        var approved := TakePendingPlan(s.intent, now, reply);
        event := Took(approved);
        if approved.Some? {
          calls, toolRequest, next := approved, None, ToTools;
        } else if calls == None {
          planNote := true;
          next := ToLocal;
        }
      } else if calls.Some? && NeedsConfirmation(calls.value) {
        pendingPlan := calls;
        var _ := plans.Save(s.intent.user, s.intent.chat, calls.value, id, now, now, reply);
        event := Stored(calls.value);
        calls := None;
        toolRequest := None;
        next := ToLocal;
      } else {
        plans.Clear(s.intent.user, s.intent.chat, reply);
        event := Cleared;
      }
    }

    method FinishRouting(s: State, decision: Decision, usage: Usage, nativeCalls: seq<Call>,
                         now: int, id: nat, reply: Reply)
      returns (u: Update, ghost event: GateEvent)
      modifies plans`memory, plans.table
      ensures var seen := if reply == Answered then old(plans.table.rows) else old(plans.memory);
        var r := Router.FinishRouting(s, decision, usage, nativeCalls, seen, now, id);
        u == r.update && event == r.event
      ensures plans.memory == Router.FinishRouting(s, decision, usage, nativeCalls, old(plans.memory), now, id).slots
      ensures plans.table.rows == if reply == Refused then old(plans.table.rows)
        else Router.FinishRouting(s, decision, usage, nativeCalls, old(plans.table.rows), now, id).slots
    {
      var next := decision.next;
      var canned := false;
      if next == ToLocal && s.visited == [] && nativeCalls == [] && decision.tool == None
         && !s.intent.documents && !s.intent.images {
        canned := s.intent.savedDocument;
      }
      if next == ToLocal && LocalLlm in s.visited {
        return FinishAnswered(usage), Bypassed;
      }
      var toolRequest: Option<Call> := None;
      if next == ToTools && decision.tool.Some? {
        toolRequest := decision.tool;
      }
      var calls: Option<seq<Call>> := if nativeCalls != [] && next == ToTools then Some(nativeCalls) else None;

      if calls.Some? {
        calls := Some(Fresh(calls.value, s.executedCalls));
        if calls.value == [] {
          next := ToLocal;
          toolRequest := None;
          calls := None;
        }
      }

      var pendingPlan, planNote;
      next, calls, toolRequest, pendingPlan, planNote, event := RunGate(s, next, calls, toolRequest, now, id, reply);
      u := QUIET.(next := Some(next), usage := usage, toolRequest := Some(toolRequest), toolCalls := Some(calls),
                  pendingPlan := Some(pendingPlan), planNote := Some(planNote),
                  cannedReply := Some(canned && next == ToLocal && pendingPlan == None));
      if next == ToFinish {
        u := u.(status := Some(Completed));
      }
    }

    method Supervisor(s: State, o: Oracle, now: int, id: nat, reply: Reply)
      returns (u: Option<Update>, asked: nat, ghost event: GateEvent)
      modifies plans`memory, plans.table
      ensures var seen := if reply == Answered then old(plans.table.rows) else old(plans.memory);
        var v := Router.Supervisor(s, o, seen, now, id);
        u == v.update && event == v.event && asked == v.asked
      ensures plans.memory == Router.Supervisor(s, o, old(plans.memory), now, id).slots
      ensures plans.table.rows == if reply == Refused then old(plans.table.rows)
        else Router.Supervisor(s, o, old(plans.table.rows), now, id).slots
    {
      event, asked := Bypassed, 0;
      if s.step >= MAX_STEPS {
        var halt := QUIET.(status := Some(HaltedStepBound));
        if LocalLlm !in s.visited {
          return Some(halt.(next := Some(ToLocal), truncated := Some(true), toolRequest := Some(None),
                            toolCalls := Some(None), pendingPlan := Some(None), planNote := Some(false))), 0, Bypassed;
        }
        return Some(halt.(next := Some(ToFinish))), 0, Bypassed;
      }
      if LocalLlm in s.visited {
        return Some(FinishAnswered(NO_USAGE)), 0, Bypassed;
      }
      if !o.client {
        return Some(Degrade(NO_USAGE)), 0, Bypassed;
      }
      if o.native.NativeCalls? {
        u, event := RouteNatively(s, o, now, id, reply);
        return u, 1, event;
      }
      asked := if o.native != Off then 1 else 0;
      var more;
      u, more, event := RouteWithRetries(s, o, now, id, reply);
      asked := asked + more;
    }

    /** The native router's answer, normalised into a decision: only a known tool's arguments can fail that. */
    method RouteNatively(s: State, o: Oracle, now: int, id: nat, reply: Reply)
      returns (u: Option<Update>, ghost event: GateEvent)
      requires s.step < MAX_STEPS && LocalLlm !in s.visited && o.client && o.native.NativeCalls?
      modifies plans`memory, plans.table
      ensures var seen := if reply == Answered then old(plans.table.rows) else old(plans.memory);
        var v := Router.Supervisor(s, o, seen, now, id);
        u == v.update && event == v.event
      ensures plans.memory == Router.Supervisor(s, o, old(plans.memory), now, id).slots
      ensures plans.table.rows == if reply == Refused then old(plans.table.rows)
        else Router.Supervisor(s, o, old(plans.table.rows), now, id).slots
    {
      var calls := Dispatchable(o.native.calls);
      if calls != [] && !o.native.argsFit {
        return None, Bypassed;
      }
      var usage := NativeUsage(o.native.usage.seen);
      var update;
      update, event := FinishRouting(s, NativeDecision(calls), usage, calls, now, id, reply);
      u := Some(update);
    }

    /** The structured router, asked again after a transient failure. */
    method RouteWithRetries(s: State, o: Oracle, now: int, id: nat, reply: Reply)
      returns (u: Option<Update>, asked: nat, ghost event: GateEvent)
      requires s.step < MAX_STEPS && LocalLlm !in s.visited && o.client && !o.native.NativeCalls?
      modifies plans`memory, plans.table
      ensures var seen := if reply == Answered then old(plans.table.rows) else old(plans.memory);
        var v := Router.Supervisor(s, o, seen, now, id);
        u == v.update && event == v.event && asked + (if o.native != Off then 1 else 0) == v.asked
      ensures plans.memory == Router.Supervisor(s, o, old(plans.memory), now, id).slots
      ensures plans.table.rows == if reply == Refused then old(plans.table.rows)
        else Router.Supervisor(s, o, old(plans.table.rows), now, id).slots
    {
      var last, usage;
      last, usage, asked := AskWithRetries(Attempts(o));
      if last.Failed? {
        return Some(Degrade(usage)), asked, Bypassed;
      }
      var update;
      update, event := FinishRouting(s, last.decision, usage, [], now, id, reply);
      u := Some(update);
    }
  }
}
