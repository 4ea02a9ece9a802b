/**
 * What routing and the write gate do with a request (orchestrator.py), told from outside: from what the
 * router asked for, what has run in the turn, and the four names of the tools that write. Nothing here is
 * stated through the functions that compute it.
 */
module WriteGate {
  import opened Calls
  import opened PendingPlans
  import opened Picks
  import opened Router
  import opened Runs
  import opened Conversations
  import Composer = Replies

  // --- which batches have to be shown ---------------------------------------------------------------

  predicate IsDelete(c: Call) { c.name == "delete_calendar_event" }

  predicate IsWrite(c: Call) {
    IsDelete(c) || c.name == "write_user_note" || c.name == "create_calendar_event" || c.name == "update_calendar_event"
  }

  /** A delete, or as many writes as the deployment's threshold. */
  predicate MustAsk(calls: seq<Call>) {
    (exists k :: 0 <= k < |calls| && IsDelete(calls[k])) || |Marked(calls, IsWrite)| >= WRITE_CONFIRM_THRESHOLD
  }

  lemma {:induction false} WritesAreCounted(calls: seq<Call>)
    ensures Writes(calls) == |Marked(calls, IsWrite)|
    decreases |calls|
  {
    if calls != [] {
      var n := |calls| - 1;
      WritesAreCounted(calls[..n]);
      assert calls == calls[..n] + [calls[n]];
      WritesOfBoth(calls[..n], [calls[n]]);
      MarkedInLonger(calls[..n], calls[n], IsWrite);
    }
  }

  lemma {:induction false} WritesOfBoth(a: seq<Call>, b: seq<Call>)
    ensures Writes(a + b) == Writes(a) + Writes(b)
  {
    if a == [] {
      assert a + b == b;
    } else {
      assert (a + b)[1..] == a[1..] + b;
      WritesOfBoth(a[1..], b);
    }
  }

  lemma ConfirmationIsNeededIff(calls: seq<Call>)
    ensures NeedsConfirmation(calls) <==> MustAsk(calls)
  {
    WritesAreCounted(calls);
    if c :| c in calls && c.name in ALWAYS_CONFIRM_TOOLS {
      var k :| 0 <= k < |calls| && calls[k] == c;
      assert IsDelete(calls[k]);
    }
    if k :| 0 <= k < |calls| && IsDelete(calls[k]) { assert calls[k] in calls; }
  }

  /** The text is a bare go-ahead and the assistant has spoken before. */
  predicate GoAhead(i: Intent) { i.affirmation && exists k :: 0 <= k < |i.prior| && i.prior[k] == Assistant }

  lemma ConfirmationIsGivenIff(i: Intent)
    ensures ConfirmationGiven(i) <==> GoAhead(i)
  {
  }

  /** Over whole conversations: a batch with a delete, or with so many writes, is run only in a go-ahead
      turn, as the first thing its tools do, straight after the take - which found nothing, or released
      exactly this batch. */
  lemma NothingIsWrittenUnasked(t0: int, actions: seq<Action>, w: World, t: nat, i: nat)
    requires After(t0, actions) == Some(w) && t in w.turns && i < |Transcript(w.log, t)|
    requires var e := Transcript(w.log, t)[i]; e.Executed? && e.batch && MustAsk(e.calls)
    ensures GoAhead(w.turns[t].s.intent) && i == 1
    ensures var turn := Transcript(w.log, t);
      turn[0].NoPlan? || (turn[0].Released? && turn[0].plan == turn[1].calls)
  {
    ConfirmationIsNeededIff(Transcript(w.log, t)[i].calls);
    ConfirmationIsGivenIff(w.turns[t].s.intent);
    GatedBatchesAreApproved(t0, actions, w, t, i);
  }

  // --- which calls are kept -------------------------------------------------------------------------

  predicate IsKnown(c: Call) { c.name in DISPATCHABLE_TOOLS }

  function FreshAfter(already: seq<string>): Call -> bool { c => IsFresh(c, already) }

  function Wanted(already: seq<string>): Call -> bool { c => IsKnown(c) && IsFresh(c, already) }

  lemma {:induction false} DispatchableIsFiltered(calls: seq<Call>)
    ensures Dispatchable(calls) == Filter(calls, IsKnown)
  {
    if calls != [] { DispatchableIsFiltered(calls[1..]); }
  }

  lemma {:induction false} FreshIsFiltered(calls: seq<Call>, already: seq<string>)
    ensures Fresh(calls, already) == Filter(calls, FreshAfter(already))
  {
    if calls != [] { FreshIsFiltered(calls[1..], already); }
  }

  lemma {:induction false} FilterTwice<T>(whole: seq<T>, p: T -> bool, q: T -> bool, both: T -> bool)
    requires forall x :: both(x) <==> p(x) && q(x)
    ensures Filter(Filter(whole, p), q) == Filter(whole, both)
  {
    if whole != [] {
      FilterTwice(whole[1..], p, q, both);
      assert both(whole[0]) <==> p(whole[0]) && q(whole[0]);
      if p(whole[0]) {
        FilterOfCons(whole[0], Filter(whole[1..], p), q);
      } else {
        assert Filter(whole, p) == Filter(whole[1..], p);
      }
    }
  }

  /** What the known-name filter and then the repeat guard keep of a batch: each call that is known and
      fresh, in the order asked and as often. */
  lemma KeptIs(calls: seq<Call>, already: seq<string>)
    ensures PicksOut(Fresh(Dispatchable(calls), already), calls, Wanted(already))
  {
    DispatchableIsFiltered(calls);
    FreshIsFiltered(Dispatchable(calls), already);
    FilterTwice(calls, IsKnown, FreshAfter(already), Wanted(already));
    FilterPicksOut(calls, Wanted(already));
  }

  lemma KeptIsDetermined(calls: seq<Call>, already: seq<string>, kept: seq<Call>)
    requires PicksOut(kept, calls, Wanted(already))
    ensures kept == Fresh(Dispatchable(calls), already)
  {
    KeptIs(calls, already);
    PickedIsFiltered(kept, calls, Wanted(already));
    PickedIsFiltered(Fresh(Dispatchable(calls), already), calls, Wanted(already));
  }

  // --- one visit ------------------------------------------------------------------------------------

  predicate HasLivePlan(slots: Slots, k: Key, now: int) {
    k in slots && slots[k].calls != [] && (slots[k].expires.Some? ==> now < slots[k].expires.value)
  }

  function LivePlan(slots: Slots, k: Key, now: int): Option<seq<Call>> {
    if HasLivePlan(slots, k, now) then Some(slots[k].calls) else None
  }

  /** The turn is a go-ahead and none of its tools has run. */
  predicate Confirming(s: State) { GoAhead(s.intent) && ToolExecution !in s.visited }

  lemma TakeAnswers(slots: Slots, k: Key, now: int)
    ensures Answer(Lookup(slots, k), Table, now) == LivePlan(slots, k, now)
  {
  }

  /** Where a visit sends a native batch of which `kept` is kept. */
  predicate SendsBatch(s: State, v: Visit, kept: seq<Call>, slots: Slots, now: int, id: nat) {
    var k := ChatKey(s.intent);
    var asks := !Confirming(s) && kept != [] && MustAsk(kept);
    var live := Confirming(s) && HasLivePlan(slots, k, now);
    && v.update.Some?
    && var u := v.update.value;
       && u.pendingPlan == Some(if asks then Some(kept) else None)
       && u.planNote == Some(Confirming(s) && !live && kept == [])
       && u.next == Some(if live || (kept != [] && !asks) then ToTools else ToLocal)
       && u.toolCalls == Some(if live then Some(slots[k].calls) else if asks || kept == [] then None else Some(kept))
       && v.slots == (if asks then slots[k := Copy(id, kept, Some(now + PLAN_TTL_S))] else slots - {k})
       && v.event == if Confirming(s) then Took(LivePlan(slots, k, now)) else if asks then Stored(kept) else Cleared
  }

  lemma GateSends(s: State, d: Decision, usage: Usage, native: seq<Call>, kept: seq<Call>,
                  slots: Slots, now: int, id: nat, asked: nat)
    requires LocalLlm !in s.visited && kept == Fresh(native, s.executedCalls) && d == NativeDecision(native)
    ensures var r := FinishRouting(s, d, usage, native, slots, now, id);
      SendsBatch(s, Visit(Some(r.update), r.slots, r.event, asked), kept, slots, now, id)
  {
    ConfirmationIsNeededIff(kept);
    ConfirmationIsGivenIff(s.intent);
    TakeAnswers(slots, ChatKey(s.intent), now);
  }

  /** The native router's batch, cut down to the known and fresh calls. In an ordinary turn it goes to the
      tools as it is unless it has to be shown; then it is stored and shown, and nothing runs. A go-ahead
      runs the live plan on record, whatever the router asked for; without one, the batch itself. */
  lemma NativeVisitSends(s: State, o: Oracle, slots: Slots, now: int, id: nat, kept: seq<Call>)
    requires Asks(s, o) && o.native.NativeCalls? && !Raises(s, o)
    requires PicksOut(kept, o.native.calls, Wanted(s.executedCalls))
    ensures SendsBatch(s, Supervisor(s, o, slots, now, id), kept, slots, now, id)
  {
    var calls := Dispatchable(o.native.calls);
    KeptIsDetermined(o.native.calls, s.executedCalls, kept);
    GateSends(s, NativeDecision(calls), NativeUsage(o.native.usage.seen), calls, kept, slots, now, id, 1);
  }

  predicate Transient(a: Attempt) {
    a.Failed? && (a.category == Timeout || a.category == Network || a.category == InvalidOutput)
  }

  predicate AnswersWith(a: Attempt, d: Decision) { a.Decided? && a.decision == d }

  /** The structured router decides this in one of its three attempts, after transient failures only. */
  predicate Decides(o: Oracle, d: Decision) {
    || AnswersWith(o.first, d)
    || (Transient(o.first) && AnswersWith(o.second, d))
    || (Transient(o.first) && Transient(o.second) && AnswersWith(o.third, d))
  }

  /** Where a visit goes on a structured decision. */
  predicate Obeys(s: State, v: Visit, d: Decision, slots: Slots, now: int) {
    var k := ChatKey(s.intent);
    var live := Confirming(s) && HasLivePlan(slots, k, now);
    && v.update.Some? && v.slots == slots - {k}
    && v.event == (if Confirming(s) then Took(LivePlan(slots, k, now)) else Cleared)
    && var u := v.update.value;
       && u.pendingPlan == Some(None) && u.planNote == Some(Confirming(s) && !live)
       && u.next == Some(if live then ToTools else if Confirming(s) then ToLocal else d.next)
       && u.toolCalls == Some(if live then Some(slots[k].calls) else None)
       && (!Confirming(s) && d.next == ToTools ==> u.toolRequest == Some(d.tool))
       && u.status == if u.next == Some(ToFinish) then Some(Completed) else None
  }

  lemma RoutingObeys(s: State, d: Decision, usage: Usage, slots: Slots, now: int, id: nat, asked: nat)
    requires LocalLlm !in s.visited
    ensures var r := FinishRouting(s, d, usage, [], slots, now, id);
      Obeys(s, Visit(Some(r.update), r.slots, r.event, asked), d, slots, now)
  {
    ConfirmationIsGivenIff(s.intent);
    TakeAnswers(slots, ChatKey(s.intent), now);
  }

  lemma LastTried(o: Oracle, tried: seq<Attempt>, d: Decision)
    requires tried == Attempts(o)[..Asked(Attempts(o))]
    ensures tried != [] && (AnswersWith(tried[|tried| - 1], d) <==> Decides(o, d))
  {
    var all := Attempts(o);
    assert all[1..] == [o.second, o.third] && all[1..][1..] == [o.third];
  }

  /** The structured router's decision is what happens, except that a go-ahead runs the live plan on record
      or is told that there is none. */
  lemma StructuredVisitObeys(s: State, o: Oracle, slots: Slots, now: int, id: nat, d: Decision)
    requires Asks(s, o) && !o.native.NativeCalls? && Decides(o, d)
    ensures Obeys(s, Supervisor(s, o, slots, now, id), d, slots, now)
  {
    var tried := Attempts(o)[..Asked(Attempts(o))];
    var v := Supervisor(s, o, slots, now, id);
    LastTried(o, tried, d);
    StructuredVisitIs(s, o, slots, now, id, tried, v);
    RoutingObeys(s, d, ReturnedIn(tried), slots, now, id, v.asked);
  }

  /** Without a decision the turn degrades, and the store is left as it is. */
  lemma UndecidedVisitDegrades(s: State, o: Oracle, slots: Slots, now: int, id: nat)
    requires Asks(s, o) && !o.native.NativeCalls? && forall d :: !Decides(o, d)
    ensures var v := Supervisor(s, o, slots, now, id);
      && v.slots == slots && v.update.Some?
      && v.update.value.next == Some(ToFinish) && v.update.value.status == Some(Degraded)
  {
    var tried := Attempts(o)[..Asked(Attempts(o))];
    StructuredVisitIs(s, o, slots, now, id, tried, Supervisor(s, o, slots, now, id));
    var last := tried[|tried| - 1];
    if last.Decided? { LastTried(o, tried, last.decision); }
  }

  /** After the reply the run ends, and nothing that was asked for is left standing. */
  lemma AnsweredVisitFinishes(s: State, o: Oracle, slots: Slots, now: int, id: nat)
    requires s.step < MAX_STEPS && LocalLlm in s.visited
    ensures var v := Supervisor(s, o, slots, now, id);
      && v.update.Some? && v.slots == slots && v.asked == 0
      && var u := v.update.value;
         && u.next == Some(ToFinish) && u.status == Some(Completed) && u.usage == multiset{}
         && u.toolRequest == Some(None) && u.toolCalls == Some(None)
         && u.pendingPlan == Some(None) && u.planNote == Some(false)
  {
  }

  // --- what a visit asks and reports ----------------------------------------------------------------

  /** What is reported of an attempt: what its response said it cost, readable or not. */
  function ReportOf(a: Attempt): Usage {
    if a.Decided? || a.category == InvalidOutput then a.usage.seen else multiset{}
  }

  /** The attempts made: the next one after each transient failure. */
  function AttemptsMade(o: Oracle): seq<Attempt> {
    if !Transient(o.first) then [o.first] else if !Transient(o.second) then [o.first, o.second]
    else [o.first, o.second, o.third]
  }

  /** Their reports together. */
  function ReportsOf(o: Oracle): Usage {
    ReportOf(o.first) + (if !Transient(o.first) then multiset{} else
      ReportOf(o.second) + (if !Transient(o.second) then multiset{} else ReportOf(o.third)))
  }

  lemma TriedAreMade(o: Oracle)
    ensures Attempts(o)[..Asked(Attempts(o))] == AttemptsMade(o)
  {
    var all := Attempts(o);
    assert all[1..] == [o.second, o.third] && all[1..][1..] == [o.third];
  }

  lemma ReportsAdd(o: Oracle)
    ensures ReturnedIn(AttemptsMade(o)) == ReportsOf(o)
  {
    var two, three := [o.first, o.second], [o.first, o.second, o.third];
    assert [o.first][..0] == [] && two[..1] == [o.first] && three[..2] == two;
    assert ReturnedIn([o.first]) == ReportOf(o.first);
    assert ReturnedIn(two) == ReturnedIn([o.first]) + ReportOf(o.second);
    assert ReturnedIn(three) == ReturnedIn(two) + ReportOf(o.third);
  }

  /** A structured visit reports the sum over the attempts made, and a native one the input and the output but
      never the total. */
  lemma VisitReports(s: State, o: Oracle, slots: Slots, now: int, id: nat)
    requires Asks(s, o) && !Raises(s, o)
    ensures var v := Supervisor(s, o, slots, now, id);
      v.update.Some? && v.update.value.usage ==
        if o.native.NativeCalls? then o.native.usage.seen[TotalTokens := 0] else ReportsOf(o)
  {
    TriedAreMade(o);
    ReportsAdd(o);
    if !o.native.NativeCalls? {
      StructuredVisitIs(s, o, slots, now, id, AttemptsMade(o), Supervisor(s, o, slots, now, id));
    }
  }

  /** How many calls a visit makes to a routing model. */
  function CallsMade(s: State, o: Oracle): nat {
    if !Asks(s, o) then 0
    else if o.native.NativeCalls? then 1
    else |AttemptsMade(o)| + (if o.native.NativeFailed? then 1 else 0)
  }

  /** Each of them is on record, under the step at which it was made. */
  lemma VisitIsRecorded(r: Run, x: Input)
    requires r.pc == AtSupervisor
    ensures |Onward(r, x).askedAt| == |r.askedAt| + CallsMade(r.s, x.oracle)
    ensures r.askedAt <= Onward(r, x).askedAt
    ensures forall k :: |r.askedAt| <= k < |Onward(r, x).askedAt| ==> Onward(r, x).askedAt[k] == r.s.step
  {
    TriedAreMade(x.oracle);
  }

  // --- the fixed pointer to a saved document --------------------------------------------------------

  lemma CannedIff(s: State, d: Decision, usage: Usage, native: seq<Call>, slots: Slots, now: int, id: nat)
    requires LocalLlm !in s.visited
    ensures FinishRouting(s, d, usage, native, slots, now, id).update.cannedReply ==
      Some(Composer.IsPointer(s) && d.next == ToLocal && native == [] && d.tool == None
           && !(Confirming(s) && HasLivePlan(slots, ChatKey(s.intent), now)))
  {
    ConfirmationIsGivenIff(s.intent);
    TakeAnswers(slots, ChatKey(s.intent), now);
  }

  /** The pointer is the reply if and only if the native router asks for no known tool, or the structured one
      decides to answer and names none - and the visit does not carry out an approved plan. */
  lemma PointerIsTheReplyIff(s: State, o: Oracle, slots: Slots, now: int, id: nat, d: Decision)
    requires Asks(s, o) && !Raises(s, o) && (!o.native.NativeCalls? ==> Decides(o, d))
    ensures var v := Supervisor(s, o, slots, now, id);
      var answers := if o.native.NativeCalls? then forall k :: 0 <= k < |o.native.calls| ==> !IsKnown(o.native.calls[k])
                     else d == Decision(ToLocal, None);
      v.update.Some? && v.update.value.cannedReply ==
        Some(Composer.IsPointer(s) && answers && !(Confirming(s) && HasLivePlan(slots, ChatKey(s.intent), now)))
  {
    if o.native.NativeCalls? {
      var calls := Dispatchable(o.native.calls);
      CannedIff(s, NativeDecision(calls), NativeUsage(o.native.usage.seen), calls, slots, now, id);
      assert calls == [] <==> forall k :: 0 <= k < |o.native.calls| ==> !IsKnown(o.native.calls[k]) by {
        if calls != [] { assert calls[0] in calls; }
      }
    } else {
      var tried := Attempts(o)[..Asked(Attempts(o))];
      LastTried(o, tried, d);
      StructuredVisitIs(s, o, slots, now, id, tried, Supervisor(s, o, slots, now, id));
      CannedIff(s, d, ReturnedIn(tried), [], slots, now, id);
    }
  }

  // --- and then the tools run -----------------------------------------------------------------------

  /** The run has gone through one more tool step, with these calls; each is on record, in this order. */
  predicate Ran(r: Run, r': Run, batch: bool, calls: seq<Call>) {
    var before, after := r.s.executedCalls, r'.s.executedCalls;
    && r'.toolSteps == r.toolSteps + [ToolStep(batch, calls)]
    && |after| == |before| + |calls| && before == after[..|before|]
    && forall k :: 0 <= k < |calls| ==> after[|before| + k] == calls[k].name + ":" + calls[k].args
  }

  /** The visit, and the node it leads to. */
  function TwoSteps(r: Run, x: Input, y: Input): Run
    requires r.pc == AtSupervisor
  {
    Onward(Onward(r, x), y)
  }

  lemma ToolsRun(r: Run, y: Input)
    requires r.pc == AtTools
    ensures Ran(r, Onward(r, y), HasBatch(r.s), RequestedToolCalls(r.s))
  {
  }

  /** The run stands at the tools, and nothing has run since `r`. */
  predicate Reaches(r: Run, w: Run) {
    w.pc == AtTools && w.toolSteps == r.toolSteps && w.s.executedCalls == r.s.executedCalls
  }

  lemma RanSince(r: Run, w: Run, y: Input)
    requires Reaches(r, w)
    ensures Ran(r, Onward(w, y), HasBatch(w.s), RequestedToolCalls(w.s))
  {
    ToolsRun(w, y);
  }

  lemma BatchRuns(r: Run, v: Visit, calls: seq<Call>, y: Input)
    requires r.pc == AtSupervisor && v.update.Some? && v.update.value.executedCalls == []
    requires v.update.value.next == Some(ToTools) && v.update.value.toolCalls == Some(Some(calls)) && calls != []
    requires forall c :: c in calls ==> IsKnown(c)
    ensures Ran(r, Onward(Land(r, v), y), true, calls)
  {
    assert Reaches(r, Land(r, v)) && HasBatch(Land(r, v).s);
    RanSince(r, Land(r, v), y);
  }

  /** What a single request comes to: the call, if its name is known. */
  function Only(request: Option<Call>): seq<Call> {
    if request.Some? && IsKnown(request.value) then [request.value] else []
  }

  lemma RequestRuns(r: Run, v: Visit, request: Option<Call>, y: Input)
    requires r.pc == AtSupervisor && v.update.Some? && v.update.value.executedCalls == []
    requires v.update.value.next == Some(ToTools) && v.update.value.toolCalls == Some(None)
    requires v.update.value.toolRequest == Some(request)
    ensures Ran(r, Onward(Land(r, v), y), false, Only(request))
  {
    assert Reaches(r, Land(r, v)) && !HasBatch(Land(r, v).s);
    RanSince(r, Land(r, v), y);
    if request.Some? { assert [request.value][1..] == []; }
  }

  /** A visit by itself records no call as executed. */
  lemma VisitsRunNothing(s: State, o: Oracle, slots: Slots, now: int, id: nat)
    ensures FreshBatch(s, Supervisor(s, o, slots, now, id))
  {
    VisitsFreshenBatches(s, o, slots, now, id);
  }

  lemma KeptAreKnown(kept: seq<Call>, calls: seq<Call>, already: seq<string>)
    requires PicksOut(kept, calls, Wanted(already))
    ensures forall c :: c in kept ==> IsKnown(c)
  {
    KeptIsDetermined(calls, already, kept);
  }

  /** A native batch that need not be shown is carried out: the known and fresh calls of it, in the order
      asked and as often, and nothing else. */
  lemma NativeBatchIsCarriedOut(r: Run, x: Input, y: Input, kept: seq<Call>)
    requires r.pc == AtSupervisor && Asks(r.s, x.oracle) && x.oracle.native.NativeCalls? && !Raises(r.s, x.oracle)
    requires PicksOut(kept, x.oracle.native.calls, Wanted(r.s.executedCalls)) && kept != []
    requires if Confirming(r.s) then !HasLivePlan(x.slots, ChatKey(r.s.intent), x.now) else !MustAsk(kept)
    ensures Ran(r, TwoSteps(r, x, y), true, kept)
  {
    NativeVisitSends(r.s, x.oracle, x.slots, x.now, x.id, kept);
    VisitsRunNothing(r.s, x.oracle, x.slots, x.now, x.id);
    KeptAreKnown(kept, x.oracle.native.calls, r.s.executedCalls);
    BatchRuns(r, Supervisor(r.s, x.oracle, x.slots, x.now, x.id), kept, y);
  }

  /** A structured request is carried out: the one call decided on, if its name is known, and nothing else. */
  lemma RequestIsCarriedOut(r: Run, x: Input, y: Input, request: Option<Call>)
    requires r.pc == AtSupervisor && Asks(r.s, x.oracle) && !x.oracle.native.NativeCalls? && !Confirming(r.s)
    requires Decides(x.oracle, Decision(ToTools, request))
    ensures Ran(r, TwoSteps(r, x, y), false, Only(request))
  {
    StructuredVisitObeys(r.s, x.oracle, x.slots, x.now, x.id, Decision(ToTools, request));
    VisitsRunNothing(r.s, x.oracle, x.slots, x.now, x.id);
    RequestRuns(r, Supervisor(r.s, x.oracle, x.slots, x.now, x.id), request, y);
  }

  /** Some router answers. */
  ghost predicate IsRouted(s: State, o: Oracle) {
    Asks(s, o) && !Raises(s, o) && (o.native.NativeCalls? || exists d :: Decides(o, d))
  }

  /** A go-ahead carries out the live plan on record, call for call, whatever either router says. */
  lemma ApprovedPlanIsCarriedOut(r: Run, x: Input, y: Input)
    requires r.pc == AtSupervisor && IsRouted(r.s, x.oracle) && Confirming(r.s)
    requires HasLivePlan(x.slots, ChatKey(r.s.intent), x.now) && SlotsHoldPlans(x.slots)
    ensures Ran(r, TwoSteps(r, x, y), true, x.slots[ChatKey(r.s.intent)].calls)
  {
    var o := x.oracle;
    if o.native.NativeCalls? {
      var kept := Fresh(Dispatchable(o.native.calls), r.s.executedCalls);
      KeptIs(o.native.calls, r.s.executedCalls);
      NativeVisitSends(r.s, o, x.slots, x.now, x.id, kept);
    } else {
      var d :| Decides(o, d);
      StructuredVisitObeys(r.s, o, x.slots, x.now, x.id, d);
    }
    VisitsRunNothing(r.s, o, x.slots, x.now, x.id);
    BatchRuns(r, Supervisor(r.s, o, x.slots, x.now, x.id), x.slots[ChatKey(r.s.intent)].calls, y);
  }

  /** What the log says was executed is what the tool step ran. */
  lemma LogSaysWhatRan(t: nat, r: Run, x: Input)
    requires r.pc == AtTools
    ensures var steps := Advance(r, x).run.toolSteps;
      && |steps| == |r.toolSteps| + 1
      && Logged(t, r, Advance(r, x).event, x.now) ==
         [Executed(t, ChatKey(r.s.intent), steps[|r.toolSteps|].batch, steps[|r.toolSteps|].calls)]
  {
  }

  // --- a plan that is too old -----------------------------------------------------------------------

  predicate Stamped(log: seq<Event>, now: int) {
    forall i :: 0 <= i < |log| && !log[i].Executed? ==> log[i].at <= now
  }

  lemma {:induction false} LogIsStamped(t0: int, actions: seq<Action>, w: World)
    requires After(t0, actions) == Some(w)
    ensures Stamped(w.log, w.now)
    decreases |actions|
  {
    if actions != [] {
      var n := |actions| - 1;
      var before := After(t0, actions[..n]).value;
      LogIsStamped(t0, actions[..n], before);
      StepStamps(before, actions[n]);
    }
  }

  lemma StepStamps(w: World, a: Action)
    requires Stamped(w.log, w.now) && Enabled(w, a)
    ensures Stamped(Step(w, a).log, Step(w, a).now)
  {
  }

  lemma NoPlanOutlivesItsTtl(t0: int, actions: seq<Action>, w: World, k: Key, now: int)
    requires After(t0, actions) == Some(w) && now >= w.now + PLAN_TTL_S
    ensures !HasLivePlan(w.slots, k, now)
  {
    ReachableLog(t0, actions, w);
    LogIsStamped(t0, actions, w);
    if k in w.slots { var j := SlotComesFromItsLastProposal(w.log, k); }
  }

  lemma OneMore(t0: int, actions: seq<Action>, w: World, a: Action)
    requires After(t0, actions) == Some(w) && Enabled(w, a)
    ensures After(t0, actions + [a]) == Some(Step(w, a))
  {
    assert (actions + [a])[..|actions|] == actions;
  }

  lemma GoAheadTakes(s: State, o: Oracle, slots: Slots, now: int, id: nat)
    requires IsRouted(s, o) && Confirming(s)
    ensures Supervisor(s, o, slots, now, id).event == Took(LivePlan(slots, ChatKey(s.intent), now))
  {
    if o.native.NativeCalls? {
      KeptIs(o.native.calls, s.executedCalls);
      NativeVisitSends(s, o, slots, now, id, Fresh(Dispatchable(o.native.calls), s.executedCalls));
    } else {
      var d :| Decides(o, d);
      StructuredVisitObeys(s, o, slots, now, id, d);
    }
  }

  /** Whatever has been proposed in any chat: a go-ahead that comes a TTL later finds no plan. */
  lemma LateYesFindsNothing(t0: int, actions: seq<Action>, w: World, seconds: nat,
                            t: nat, i: Intent, o: Oracle, c: Composition)
    returns (w': World)
    requires After(t0, actions) == Some(w) && t !in w.turns && seconds >= PLAN_TTL_S
    requires GoAhead(i) && IsRouted(InitialState(i), o)
    ensures After(t0, actions + [Tick(seconds)] + [StartTurn(t, i)] + [Go(t, o, c)]) == Some(w')
    ensures w'.log == w.log + [NoPlan(t, ChatKey(i), w.now + seconds)]
  {
    var w1, w2 := w.(now := w.now + seconds), World(w.now + seconds, w.slots, w.turns[t := Begin(i)], w.log);
    OneMore(t0, actions, w, Tick(seconds));
    OneMore(t0, actions + [Tick(seconds)], w1, StartTurn(t, i));
    OneMore(t0, actions + [Tick(seconds)] + [StartTurn(t, i)], w2, Go(t, o, c));
    NoPlanOutlivesItsTtl(t0, actions, w, ChatKey(i), w2.now);
    w' := NothingIsTaken(w2, t, i, o, c);
  }

  lemma NothingIsTaken(w: World, t: nat, i: Intent, o: Oracle, c: Composition) returns (w': World)
    requires t in w.turns && w.turns[t] == Begin(i) && GoAhead(i) && IsRouted(InitialState(i), o)
    requires !HasLivePlan(w.slots, ChatKey(i), w.now)
    ensures w' == Step(w, Go(t, o, c)) && w'.log == w.log + [NoPlan(t, ChatKey(i), w.now)]
  {
    GoAheadTakes(InitialState(i), o, w.slots, w.now, |w.log|);
    w' := Step(w, Go(t, o, c));
  }

  // --- the repeat guard, from what has run ----------------------------------------------------------

  /** Every call of these tool steps, in order. */
  function AllCalls(steps: seq<ToolStep>): seq<Call>
    decreases |steps|
  {
    if steps == [] then [] else AllCalls(steps[..|steps| - 1]) + steps[|steps| - 1].calls
  }

  function Names(name: string): Call -> bool { (c: Call) => c.name == name }

  lemma {:induction false} SignaturesOfAll(steps: seq<ToolStep>)
    ensures AllSignatures(steps) == Signatures(AllCalls(steps))
    decreases |steps|
  {
    if steps != [] { SignaturesOfAll(steps[..|steps| - 1]); }
  }

  lemma OneMoreRun(calls: seq<Call>, c: Call, name: string)
    requires IsKnown(c)
    ensures TimesRun(Signatures(calls + [c]), name) ==
      TimesRun(Signatures(calls), name) + (if c.name == name then 1 else 0)
  {
    assert Signatures(calls + [c]) == Signatures(calls) + [Signature(c)];
    TimesRunSum(Signatures(calls), [Signature(c)], name);
    DispatchableNamesAreSafe(c, c);
    assert [Signature(c)][1..] == [];
  }

  lemma {:induction false} TimesRunIsCounted(calls: seq<Call>, name: string)
    requires forall k :: 0 <= k < |calls| ==> IsKnown(calls[k])
    ensures TimesRun(Signatures(calls), name) == |Marked(calls, Names(name))|
    decreases |calls|
  {
    if calls != [] {
      var n := |calls| - 1;
      TimesRunIsCounted(calls[..n], name);
      assert calls == calls[..n] + [calls[n]];
      OneMoreRun(calls[..n], calls[n], name);
      MarkedInLonger(calls[..n], calls[n], Names(name));
    }
  }

  lemma {:induction false} AllAreKnown(steps: seq<ToolStep>)
    requires forall j :: 0 <= j < |steps| ==> forall c :: c in steps[j].calls ==> IsKnown(c)
    ensures forall k :: 0 <= k < |AllCalls(steps)| ==> IsKnown(AllCalls(steps)[k])
    decreases |steps|
  {
    if steps != [] {
      var n := |steps| - 1;
      AllAreKnown(steps[..n]);
      var before, last := AllCalls(steps[..n]), steps[n].calls;
      forall k | 0 <= k < |AllCalls(steps)| ensures IsKnown(AllCalls(steps)[k]) {
        if k >= |before| { assert last[k - |before|] in last; }
      }
    }
  }

  /** In every run: a known call is kept if and only if this very call has not run in the turn, and its tool
      has run fewer times than the deployment allows. */
  lemma RepeatGuardIs(i: Intent, env: nat -> Input, n: nat, c: Call)
    requires IsKnown(c)
    ensures var r := RunAfter(i, env, n); var ran := AllCalls(r.toolSteps);
      Wanted(r.s.executedCalls)(c) <==>
        (forall k :: 0 <= k < |ran| ==> ran[k] != c) && |Marked(ran, Names(c.name))| < MAX_SAME_TOOL_CALLS
  {
    var r := RunAfter(i, env, n);
    var ran := AllCalls(r.toolSteps);
    RunGuarded(i, env, n);
    SignaturesOfAll(r.toolSteps);
    forall j | 0 <= j < |r.toolSteps| ensures forall c :: c in r.toolSteps[j].calls ==> IsKnown(c) {
      assert StepFresh(r.toolSteps, j);
    }
    AllAreKnown(r.toolSteps);
    TimesRunIsCounted(ran, c.name);
    SignatureIsAmongIff(ran, c);
  }

  lemma SignatureIsAmongIff(calls: seq<Call>, c: Call)
    requires IsKnown(c) && forall k :: 0 <= k < |calls| ==> IsKnown(calls[k])
    ensures Signature(c) in Signatures(calls) <==> exists k :: 0 <= k < |calls| && calls[k] == c
  {
    forall k | 0 <= k < |calls| ensures Signatures(calls)[k] == Signature(c) <==> calls[k] == c {
      DispatchableNamesAreSafe(calls[k], c);
    }
    if k :| 0 <= k < |calls| && calls[k] == c { assert Signatures(calls)[k] in Signatures(calls); }
  }
}
