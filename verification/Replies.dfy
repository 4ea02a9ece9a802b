/**
 * What the one reply of a run is composed from (orchestrator.py): the plan shown for approval, the
 * apology for a plan that is gone, the fixed pointer to a saved document, and the notice that the step
 * bound was hit.
 */
module Replies {
  import opened Calls
  import opened PendingPlans
  import opened Router
  import opened Runs

  /** Everything a visit says to the node that composes the reply. */
  predicate SaysToComposer(s: State, v: Visit) {
    v.update.Some? ==>
      var u := v.update.value;
      && u.visited == [] && u.next.Some?
      && (u.next == Some(ToLocal) ==>
            && u.pendingPlan == Some(if v.event.Stored? then Some(v.event.plan) else None)
            && (u.planNote == Some(true) || u.planNote == Some(false))
            && (u.planNote == Some(true) ==>
                  v.event == Took(None) && ConfirmationGiven(s.intent) && ToolExecution !in s.visited)
            && (u.cannedReply == Some(true) ==> v.event != Bypassed && !v.event.Stored? && IsPointer(s))
            && (u.truncated == (if s.step >= MAX_STEPS then Some(true) else None))
            && (u.cannedReply == None <==> s.step >= MAX_STEPS))
      && (u.next == Some(ToTools) ==> u.cannedReply == Some(false) && u.truncated == None)
  }

  /** The turn's first message is about a saved document, with nothing attached. */
  predicate IsPointer(s: State) {
    s.visited == [] && s.intent.savedDocument && !s.intent.documents && !s.intent.images
  }

  lemma RoutingSays(s: State, d: Decision, usage: Usage, native: seq<Call>, slots: Slots, now: int, id: nat, asked: nat)
    requires LocalLlm !in s.visited && s.step < MAX_STEPS
    ensures var r := FinishRouting(s, d, usage, native, slots, now, id);
      SaysToComposer(s, Visit(Some(r.update), r.slots, r.event, asked))
  {
  }

  lemma VisitsSay(s: State, o: Oracle, slots: Slots, now: int, id: nat)
    ensures SaysToComposer(s, Supervisor(s, o, slots, now, id))
  {
    if s.step < MAX_STEPS && LocalLlm !in s.visited && o.client {
      if o.native.NativeCalls? {
        NativeVisitsSay(s, o, slots, now, id);
      } else {
        StructuredVisitsSay(s, o, slots, now, id);
      }
    }
  }

  lemma NativeVisitsSay(s: State, o: Oracle, slots: Slots, now: int, id: nat)
    requires s.step < MAX_STEPS && LocalLlm !in s.visited && o.client && o.native.NativeCalls?
    ensures SaysToComposer(s, Supervisor(s, o, slots, now, id))
  {
    var calls := Dispatchable(o.native.calls);
    RoutingSays(s, NativeDecision(calls), NativeUsage(o.native.usage.seen), calls, slots, now, id, 1);
  }

  lemma StructuredVisitsSay(s: State, o: Oracle, slots: Slots, now: int, id: nat)
    requires s.step < MAX_STEPS && LocalLlm !in s.visited && o.client && !o.native.NativeCalls?
    ensures SaysToComposer(s, Supervisor(s, o, slots, now, id))
  {
    var v := Supervisor(s, o, slots, now, id);
    var tried := Attempts(o)[..Asked(Attempts(o))];
    match tried[|tried| - 1]
    case Failed(_, _) =>
    case Decided(d, _) => RoutingSays(s, d, ReturnedIn(tried), [], slots, now, id, v.asked);
  }

  /** What is shown for approval is what was stored: the composer is handed a plan exactly when this
      visit stored it, and it is the same calls in the same order. */
  lemma StoredPlanIsShown(r: Run, o: Oracle, slots: Slots, now: int, id: nat)
    requires r.pc == AtSupervisor && Land(r, Supervisor(r.s, o, slots, now, id)).pc == AtLocal
    ensures var v := Supervisor(r.s, o, slots, now, id); var shown := Land(r, v).s.pendingPlan;
      shown == if v.event.Stored? then Some(v.event.plan) else None
  {
    VisitsSay(r.s, o, slots, now, id);
  }

  /** The reply fits what the run has done. */
  predicate Fits(r: Run) {
    && (r.pc == AtLocal ==>
          && (r.s.planNote ==> ConfirmationGiven(r.s.intent) && r.toolSteps == [] && r.s.pendingPlan == None)
          && (r.s.cannedReply ==> IsPointer(r.s) && r.s.pendingPlan == None)
          && (r.s.truncated <==> r.s.step > MAX_STEPS))
    && (r.pc == AtSupervisor && LocalLlm !in r.s.visited ==> !r.s.cannedReply && !r.s.truncated)
    && (r.pc == AtTools ==> !r.s.cannedReply && !r.s.truncated)
  }

  lemma LandingFits(r: Run, v: Visit)
    requires r.pc == AtSupervisor && Fits(r) && Guarded(r) && Bounded(r)
    requires SaysToComposer(r.s, v) && Orderly(r.s, v)
    ensures Fits(Land(r, v))
  {
    if v.update.Some? { assert Land(r, v).s.visited == r.s.visited; }
  }

  lemma WorkersFit(r: Run, x: Input)
    requires Fits(r) && (r.pc == AtLocal || r.pc == AtTools)
    ensures Fits(Advance(r, x).run)
  {
    var r' := Advance(r, x).run;
    assert r'.s.visited == r.s.visited + [if r.pc == AtLocal then LocalLlm else ToolExecution];
  }

  lemma AdvanceFits(r: Run, x: Input)
    requires !Terminal(r) && Fits(r) && Guarded(r) && Bounded(r)
    ensures Fits(Advance(r, x).run)
  {
    if r.pc == AtSupervisor {
      VisitsSay(r.s, x.oracle, x.slots, x.now, x.id);
      VisitsAreOrderly(r.s, x.oracle, x.slots, x.now, x.id);
      LandingFits(r, Supervisor(r.s, x.oracle, x.slots, x.now, x.id));
    } else {
      WorkersFit(r, x);
    }
  }

  /** In every run: the apology for a missing plan is only composed in a go-ahead turn that has run no
      tool, so never after the writes it would deny; the fixed pointer only as the turn's first and
      only answer; and the notice of the step bound exactly when the bound was hit. */
  lemma {:induction false} RepliesFit(i: Intent, env: nat -> Input, n: nat)
    ensures Fits(RunAfter(i, env, n))
  {
    if n > 0 {
      RepliesFit(i, env, n - 1);
      RunGuarded(i, env, n - 1);
      RunBounded(i, env, n - 1);
      var r := RunAfter(i, env, n - 1);
      if !Terminal(r) { AdvanceFits(r, env(n - 1)); }
    }
  }
}
