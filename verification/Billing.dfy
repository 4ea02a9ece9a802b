/**
 * What a run is billed, and what the code drops of what its model calls cost (orchestrator.py).
 */
module Billing {
  import opened Calls
  import opened PendingPlans
  import opened Router
  import opened Runs

  function Cost(m: Metered): Usage { m.seen + m.unseen }

  /** What these attempts cost, whether or not they brought a response. */
  function CostIn(attempts: seq<Attempt>): Usage {
    if attempts == [] then NO_USAGE else CostIn(attempts[..|attempts| - 1]) + Cost(attempts[|attempts| - 1].usage)
  }

  /** What an attempt cost beyond the usage it returns. */
  function Withheld(a: Attempt): Usage { if NoResponse(a) then Cost(a.usage) else a.usage.unseen }

  function WithheldIn(attempts: seq<Attempt>): Usage {
    if attempts == [] then NO_USAGE else WithheldIn(attempts[..|attempts| - 1]) + Withheld(attempts[|attempts| - 1])
  }

  /** The attempts that the structured router makes. */
  function Made(o: Oracle): seq<Attempt> { Attempts(o)[..Asked(Attempts(o))] }

  /** What the native decision cost if it failed, which leaves the structured router to be asked. */
  function NativeFailure(o: Oracle): Usage { if o.native.NativeFailed? then Cost(o.native.usage) else NO_USAGE }

  /** What composing costs: the local model is asked only when the cloud was not, or failed. */
  function Drafting(canned: bool, c: Composition): Usage {
    if canned then NO_USAGE
    else if c.cloud == None then Cost(c.local.usage)
    else if c.cloud.value.written then Cost(c.cloud.value.usage)
    else Cost(c.cloud.value.usage) + Cost(c.local.usage)
  }

  /** What of a draft local_llm does not report: all of a failed one, and of a written one what its
      stream did not carry, as when it broke and the part that had arrived was kept. */
  function Untold(d: Draft): Usage { if d.written then d.usage.unseen else Cost(d.usage) }

  function Unreported(canned: bool, c: Composition): Usage {
    if canned then NO_USAGE
    else if c.cloud == None then Untold(c.local)
    else if c.cloud.value.written then Untold(c.cloud.value)
    else Cost(c.cloud.value.usage) + Untold(c.local)
  }

  /** What every model call of this step cost, and the fixed cost of a tool step. */
  function Spending(r: Run, x: Input): Usage
    requires !Terminal(r)
  {
    if r.pc == AtLocal then Drafting(r.s.cannedReply, x.composition)
    else if r.pc == AtTools then TOOL_USAGE
    else if !Asks(r.s, x.oracle) then NO_USAGE
    else if x.oracle.native.NativeCalls? then Cost(x.oracle.native.usage)
    else NativeFailure(x.oracle) + CostIn(Made(x.oracle))
  }

  /** What the total of a native decision comes to: the one figure that is not read. */
  function TotalOnly(u: Usage): Usage { multiset{}[TotalTokens := u[TotalTokens]] }

  /** What a visit spent and does not report. */
  function VisitForgets(s: State, o: Oracle): Usage {
    if !Asks(s, o) then NO_USAGE
    else if Raises(s, o) then Cost(o.native.usage)
    else if o.native.NativeCalls? then o.native.usage.unseen + TotalOnly(o.native.usage.seen)
    else NativeFailure(o) + WithheldIn(Made(o))
  }

  /** What the code drops in this step: what its calls do not report, and in a visit that raises all
      that the run had been billed. */
  function Forgotten(r: Run, x: Input): Usage
    requires !Terminal(r)
  {
    if r.pc == AtLocal then Unreported(r.s.cannedReply, x.composition)
    else if r.pc == AtTools then NO_USAGE
    else VisitForgets(r.s, x.oracle) + (if Raises(r.s, x.oracle) then r.s.usage else NO_USAGE)
  }

  /** The usage in the outcome of a run: the channel's, but nothing when the run raised. */
  function Bill(r: Run): Usage { if r.pc == Raised then NO_USAGE else r.s.usage }

  /** One step's entry in the books; a run that has ended spends nothing. */
  datatype Item = Item(spent: Usage, lost: Usage)

  function ItemOf(r: Run, x: Input): Item {
    if Terminal(r) then Item(NO_USAGE, NO_USAGE) else Item(Spending(r, x), Forgotten(r, x))
  }

  /** The books of the first `n` steps. */
  function Items(i: Intent, env: nat -> Input, n: nat): (items: seq<Item>)
    ensures |items| == n && forall m :: 0 <= m < n ==> items[m] == ItemOf(RunAfter(i, env, m), env(m))
  {
    seq(n, m requires 0 <= m < n => ItemOf(RunAfter(i, env, m), env(m)))
  }

  function SpentIn(items: seq<Item>): Usage {
    if items == [] then NO_USAGE else SpentIn(items[..|items| - 1]) + items[|items| - 1].spent
  }

  function LostIn(items: seq<Item>): Usage {
    if items == [] then NO_USAGE else LostIn(items[..|items| - 1]) + items[|items| - 1].lost
  }

  // --- one step -------------------------------------------------------------------------------------

  /** A step adds to the bill what it spent, but for what it forgets. */
  predicate Billed(before: Usage, after: Usage, item: Item) { after + item.lost == before + item.spent }

  function Reported(v: Visit): Usage { if v.update.Some? then v.update.value.usage else NO_USAGE }

  lemma {:induction false} AttemptsAreSplit(attempts: seq<Attempt>)
    ensures ReturnedIn(attempts) + WithheldIn(attempts) == CostIn(attempts)
    decreases |attempts|
  {
    if attempts != [] { AttemptsAreSplit(attempts[..|attempts| - 1]); }
  }

  /** What a visit reports and what it forgets make up what it spent. */
  lemma VisitIsBilled(r: Run, x: Input, v: Visit)
    requires r.pc == AtSupervisor && v == Supervisor(r.s, x.oracle, x.slots, x.now, x.id)
    ensures Reported(v) + VisitForgets(r.s, x.oracle) == Spending(r, x)
    ensures v.update == None <==> Raises(r.s, x.oracle)
  {
    VisitRaisesIff(r.s, x.oracle, x.slots, x.now, x.id);
    if Asks(r.s, x.oracle) && !x.oracle.native.NativeCalls? { StructuredVisitReports(r, x, v); }
  }

  lemma StructuredVisitReports(r: Run, x: Input, v: Visit)
    requires Asks(r.s, x.oracle) && !x.oracle.native.NativeCalls?
    requires v == Supervisor(r.s, x.oracle, x.slots, x.now, x.id)
    ensures Reported(v) == ReturnedIn(Made(x.oracle))
    ensures ReturnedIn(Made(x.oracle)) + WithheldIn(Made(x.oracle)) == CostIn(Made(x.oracle))
  {
    AttemptsAreSplit(Made(x.oracle));
  }

  lemma SupervisorStepIsBilled(r: Run, x: Input, v: Visit)
    requires r.pc == AtSupervisor && v == Supervisor(r.s, x.oracle, x.slots, x.now, x.id)
    ensures Billed(r.s.usage, Bill(Land(r, v)), ItemOf(r, x))
  {
    VisitIsBilled(r, x, v);
    VisitsAreOrderly(r.s, x.oracle, x.slots, x.now, x.id);
  }

  lemma DraftingIsSplit(canned: bool, c: Composition)
    ensures Charged(canned, c) + Unreported(canned, c) == Drafting(canned, c)
  {
  }

  lemma StepIsBilled(r: Run, x: Input)
    ensures Billed(Bill(r), Bill(Onward(r, x)), ItemOf(r, x))
  {
    if r.pc == AtSupervisor { SupervisorStepIsBilled(r, x, Supervisor(r.s, x.oracle, x.slots, x.now, x.id)); }
    if r.pc == AtLocal { DraftingIsSplit(r.s.cannedReply, x.composition); }
  }

  // --- when nothing is forgotten --------------------------------------------------------------------

  predicate IsFree(m: Metered) { m.seen == NO_USAGE && m.unseen == NO_USAGE }

  /** The attempt cost nothing, or brought a response that reported all it cost. */
  predicate Accounted(a: Attempt) { if NoResponse(a) then IsFree(a.usage) else a.usage.unseen == NO_USAGE }

  predicate Told(d: Draft) { if d.written then d.usage.unseen == NO_USAGE else IsFree(d.usage) }

  predicate ReplyIsComplete(canned: bool, c: Composition) {
    if canned then true
    else if c.cloud == None then Told(c.local)
    else Told(c.cloud.value) && (!c.cloud.value.written ==> Told(c.local))
  }

  predicate StructuredIsComplete(o: Oracle) {
    (o.native.NativeFailed? ==> IsFree(o.native.usage)) && forall a :: a in Made(o) ==> Accounted(a)
  }

  /** Every call of this step that cost anything is billed in full. */
  predicate Complete(r: Run, x: Input) {
    var native := x.oracle.native;
    match r.pc
    case AtLocal => ReplyIsComplete(r.s.cannedReply, x.composition)
    case AtSupervisor =>
      if !Asks(r.s, x.oracle) then true
      else if Raises(r.s, x.oracle) then IsFree(native.usage) && r.s.usage == NO_USAGE
      else if native.NativeCalls? then native.usage.unseen == NO_USAGE && native.usage.seen[TotalTokens] == 0
      else StructuredIsComplete(x.oracle)
    case _ => true
  }

  lemma NothingAddedIff(a: Usage, b: Usage)
    ensures a + b == NO_USAGE <==> a == NO_USAGE && b == NO_USAGE
  {
    if a + b == NO_USAGE { assert |a + b| == |a| + |b|; }
  }

  lemma WithheldIff(a: Attempt)
    ensures Withheld(a) == NO_USAGE <==> Accounted(a)
  {
    NothingAddedIff(a.usage.seen, a.usage.unseen);
  }

  lemma {:induction false} NothingWithheldIff(attempts: seq<Attempt>)
    ensures WithheldIn(attempts) == NO_USAGE <==> forall a :: a in attempts ==> Accounted(a)
    decreases |attempts|
  {
    if attempts != [] {
      var last := attempts[|attempts| - 1];
      var before := attempts[..|attempts| - 1];
      assert forall a :: a in attempts <==> a in before || a == last;
      NothingWithheldIff(before);
      WithheldIff(last);
      NothingAddedIff(WithheldIn(before), Withheld(last));
    }
  }

  lemma ReplyForgetsNothingIff(canned: bool, c: Composition)
    ensures Unreported(canned, c) == NO_USAGE <==> ReplyIsComplete(canned, c)
  {
    NothingAddedIff(c.local.usage.seen, c.local.usage.unseen);
    if c.cloud.Some? {
      NothingAddedIff(c.cloud.value.usage.seen, c.cloud.value.usage.unseen);
      NothingAddedIff(Cost(c.cloud.value.usage), Untold(c.local));
    }
  }

  lemma VisitForgetsNothingIff(r: Run, x: Input)
    requires r.pc == AtSupervisor
    ensures Forgotten(r, x) == NO_USAGE <==> Complete(r, x)
  {
    var o := x.oracle;
    NothingAddedIff(VisitForgets(r.s, o), if Raises(r.s, o) then r.s.usage else NO_USAGE);
    if o.native != Off { NothingAddedIff(o.native.usage.seen, o.native.usage.unseen); }
    if o.native.NativeCalls? {
      NothingAddedIff(o.native.usage.unseen, TotalOnly(o.native.usage.seen));
    } else {
      NothingWithheldIff(Made(o));
      NothingAddedIff(NativeFailure(o), WithheldIn(Made(o)));
    }
  }

  lemma ForgetsNothingIff(r: Run, x: Input)
    ensures ItemOf(r, x).lost == NO_USAGE <==> Complete(r, x)
  {
    if r.pc == AtSupervisor { VisitForgetsNothingIff(r, x); }
    if r.pc == AtLocal { ReplyForgetsNothingIff(r.s.cannedReply, x.composition); }
  }

  // --- whole runs -----------------------------------------------------------------------------------

  lemma BooksCarryOver(bill: Usage, bill': Usage, lost: Usage, spent: Usage, next: Item)
    requires bill + lost == spent && Billed(bill, bill', next)
    ensures bill' + (lost + next.lost) == spent + next.spent
  {
    forall m: Meter ensures (bill' + (lost + next.lost))[m] == (spent + next.spent)[m] {
      assert (bill' + next.lost)[m] == (bill + next.spent)[m];
    }
  }

  lemma {:induction false} BooksBalance(bills: seq<Usage>, items: seq<Item>)
    requires |bills| == |items| + 1 && bills[0] == NO_USAGE
    requires forall m {:trigger items[m]} :: 0 <= m < |items| ==> Billed(bills[m], bills[m + 1], items[m])
    ensures bills[|items|] + LostIn(items) == SpentIn(items)
    decreases |items|
  {
    if items != [] {
      var n := |items| - 1;
      var booked := items[..n];
      forall m | 0 <= m < n ensures Billed(bills[..n + 1][m], bills[..n + 1][m + 1], booked[m]) {
        assert booked[m] == items[m];
      }
      BooksBalance(bills[..n + 1], booked);
      BooksCarryOver(bills[n], bills[n + 1], LostIn(booked), SpentIn(booked), items[n]);
    }
  }

  /** No item has lost anything. */
  predicate NothingLost(items: seq<Item>) { forall m :: 0 <= m < |items| ==> items[m].lost == NO_USAGE }

  lemma NothingLostBefore(items: seq<Item>)
    requires items != []
    ensures NothingLost(items) <==> NothingLost(items[..|items| - 1]) && items[|items| - 1].lost == NO_USAGE
  {
    var n := |items| - 1;
    assert forall m :: 0 <= m < n ==> items[..n][m] == items[m];
  }

  lemma {:induction false} NothingLostIff(items: seq<Item>)
    ensures LostIn(items) == NO_USAGE <==> NothingLost(items)
    decreases |items|
  {
    if items != [] {
      var n := |items| - 1;
      NothingLostIff(items[..n]);
      NothingAddedIff(LostIn(items[..n]), items[n].lost);
      NothingLostBefore(items);
    }
  }

  function Bills(i: Intent, env: nat -> Input, n: nat): (bills: seq<Usage>)
    ensures |bills| == n + 1 && forall m :: 0 <= m <= n ==> bills[m] == Bill(RunAfter(i, env, m))
  {
    seq(n + 1, m requires 0 <= m <= n => Bill(RunAfter(i, env, m)))
  }

  lemma StepOfRunIsBilled(i: Intent, env: nat -> Input, m: nat)
    ensures Billed(Bill(RunAfter(i, env, m)), Bill(RunAfter(i, env, m + 1)), ItemOf(RunAfter(i, env, m), env(m)))
  {
    StepIsBilled(RunAfter(i, env, m), env(m));
    assert RunAfter(i, env, m + 1) == Onward(RunAfter(i, env, m), env(m));
  }

  lemma RunIsBilled(i: Intent, env: nat -> Input, n: nat, bills: seq<Usage>, items: seq<Item>)
    requires bills == Bills(i, env, n) && items == Items(i, env, n)
    ensures bills[n] + LostIn(items) == SpentIn(items)
  {
    forall m | 0 <= m < n ensures Billed(bills[m], bills[m + 1], items[m]) { StepOfRunIsBilled(i, env, m); }
    BooksBalance(bills, items);
  }

  /** Every step of the run billed all that its calls cost. */
  predicate CompleteSoFar(i: Intent, env: nat -> Input, n: nat) {
    forall m :: 0 <= m < n ==> Complete(RunAfter(i, env, m), env(m))
  }

  lemma CompleteIffNothingLost(i: Intent, env: nat -> Input, n: nat, items: seq<Item>)
    requires items == Items(i, env, n)
    ensures NothingLost(items) <==> CompleteSoFar(i, env, n)
  {
    forall m | 0 <= m < n ensures items[m].lost == NO_USAGE <==> Complete(RunAfter(i, env, m), env(m)) {
      ForgetsNothingIff(RunAfter(i, env, m), env(m));
    }
  }

  lemma NothingMissingIff(bill: Usage, lost: Usage, spent: Usage)
    requires bill + lost == spent
    ensures bill == spent <==> lost == NO_USAGE
  {
    if bill == spent { assert |bill + lost| == |bill| + |lost|; }
  }

  /** Every run's bill, exactly: with what was forgotten it is what all its model calls cost, failed
      attempts and retries included. So it is complete if and only if every step is `Complete`: each
      call that brought no response cost nothing, each response reported all it cost, no native
      decision had a total, and no visit raised after a cost. */
  lemma UsageIsConserved(i: Intent, env: nat -> Input, n: nat)
    ensures var items := Items(i, env, n); var bill := Bill(RunAfter(i, env, n));
      && bill + LostIn(items) == SpentIn(items)
      && (bill == SpentIn(items) <==> CompleteSoFar(i, env, n))
  {
    var items := Items(i, env, n);
    RunIsBilled(i, env, n, Bills(i, env, n), items);
    NothingLostIff(items);
    CompleteIffNothingLost(i, env, n, items);
    NothingMissingIff(Bill(RunAfter(i, env, n)), LostIn(items), SpentIn(items));
  }

  // --- one short bill -------------------------------------------------------------------------------

  /** The first attempt times out after costing 100, the second decides at a cost of 10. */
  function TimesOutFirst(d: Decision): Oracle {
    Oracle(true, Off, Failed(Timeout, Metered(NO_USAGE, multiset{}[TotalTokens := 100])),
           Decided(d, Metered(multiset{}[TotalTokens := 10], NO_USAGE)), Decided(d, FREE))
  }

  /** A retry alone makes a bill short: with no native router and a second attempt that decides, 10
      tokens are billed of the 110 that the two attempts cost. */
  lemma TimedOutAttemptIsNotBilled(i: Intent, env: nat -> Input, d: Decision)
    requires env(0).oracle == TimesOutFirst(d)
    ensures Bill(RunAfter(i, env, 1))[TotalTokens] == 10
    ensures SpentIn(Items(i, env, 1))[TotalTokens] == 110
  {
    var items := Items(i, env, 1);
    UsageIsConserved(i, env, 1);
    StructuredItem(Begin(i), env(0), items[0]);
    TimesOutFirstIsAskedTwice(d);
    OneItemBilled(Bill(RunAfter(i, env, 1)), items);
  }

  lemma OneItemBilled(bill: Usage, items: seq<Item>)
    requires |items| == 1 && bill + LostIn(items) == SpentIn(items)
    ensures SpentIn(items) == items[0].spent && bill + items[0].lost == items[0].spent
  {
    assert items[..0] == [];
  }

  lemma StructuredItem(r: Run, x: Input, item: Item)
    requires r.pc == AtSupervisor && Asks(r.s, x.oracle) && x.oracle.native.Off? && item == ItemOf(r, x)
    ensures item.spent == CostIn(Made(x.oracle)) && item.lost == WithheldIn(Made(x.oracle))
  {
  }

  lemma TimesOutFirstIsAskedTwice(d: Decision)
    ensures var tried := Made(TimesOutFirst(d));
      && CostIn(tried)[TotalTokens] == 110 && WithheldIn(tried)[TotalTokens] == 100
  {
    var a := Attempts(TimesOutFirst(d));
    assert Asked(a) == 2 by { assert RetryAfter(a[0]) && a[1..][0] == a[1]; }
    assert a[..2] == [a[0], a[1]];
    TwoAttempts(a[0], a[1]);
  }

  lemma TwoAttempts(a: Attempt, b: Attempt)
    ensures CostIn([a, b]) == Cost(a.usage) + Cost(b.usage)
    ensures WithheldIn([a, b]) == Withheld(a) + Withheld(b)
  {
    assert [a, b][..1] == [a];
    OneAttempt(a);
  }

  lemma OneAttempt(a: Attempt)
    ensures CostIn([a]) == Cost(a.usage)
    ensures WithheldIn([a]) == Withheld(a)
  {
    assert [a][..0] == [];
  }
}
