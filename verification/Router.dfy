/**
 * The supervisor node: bounds, fast path, the two routing paths with their retries, and the
 * deterministic guards that stand between a model's decision and the tools (orchestrator.py).
 *
 * A routing model is an oracle: it may decide anything or fail in any way. Each function below is
 * the meaning of the method of the same name in RouterCode.dfy, which is written as the code is.
 */
module Router {
  import opened Calls
  import opened PendingPlans

  const MAX_STEPS := 8
  const RECURSION_LIMIT := 25
  const MAX_ROUTING_RETRIES := 2

  /** Set by the deployment. */
  const MAX_SAME_TOOL_CALLS: int
  const WRITE_CONFIRM_THRESHOLD: int

  const WRITE_TOOLS := {"write_user_note", "create_calendar_event", "update_calendar_event", "delete_calendar_event"}
  const ALWAYS_CONFIRM_TOOLS := {"delete_calendar_event"}
  const DISPATCHABLE_TOOLS := WRITE_TOOLS + {
    "read_user_note", "search_user_vault", "list_calendar_events", "search_web", "find_sources", "fetch_url",
    "search_flights", "list_reit_issuers", "list_reit_reports", "get_reit_report", "get_latest_reit_report",
    "get_latest_briefing", "search_briefings", "reread_attachment"}

  datatype Worker = LocalLlm | ToolExecution
  datatype Next = ToLocal | ToTools | ToFinish
  datatype Status = Unset | Completed | Degraded | HaltedStepBound

  /** The three figures of a model call's usage, and how many tokens were counted on each. Two usages
      are added figure by figure, as `add_usage` does. */
  datatype Meter = InputTokens | OutputTokens | TotalTokens

  type Usage = multiset<Meter>

  const NO_USAGE: Usage := multiset{}
  const TOOL_USAGE: Usage := multiset{}[InputTokens := 5][TotalTokens := 5]

  datatype Speaker = User | Assistant

  /** What a turn brings: who asks, in which chat, whether the text is a bare go-ahead, the earlier
      turns, attachments, and whether the text is about one of the user's saved documents. */
  datatype Intent = Intent(
    user: string, chat: Option<string>, affirmation: bool, prior: seq<Speaker>,
    documents: bool, images: bool, savedDocument: bool)

  function ChatKey(i: Intent): Key { KeyOf(i.user, i.chat) }

  datatype State = State(
    intent: Intent,
    step: nat,
    visited: seq<Worker>,
    next: Option<Next>,
    status: Status,
    toolRequest: Option<Call>,
    toolCalls: Option<seq<Call>>,
    pendingPlan: Option<seq<Call>>,
    planNote: bool,
    cannedReply: bool,
    truncated: bool,
    executedCalls: seq<string>,
    usage: Usage)

  function InitialState(i: Intent): State {
    State(i, 0, [], None, Unset, None, None, None, false, false, false, [], NO_USAGE)
  }

  /** What a node returns. Additive channels carry an increment; a last-value channel is left as it
      was when its field is None. */
  datatype Update = Update(
    step: nat,
    visited: seq<Worker>,
    executedCalls: seq<string>,
    usage: Usage,
    next: Option<Next>,
    status: Option<Status>,
    toolRequest: Option<Option<Call>>,
    toolCalls: Option<Option<seq<Call>>>,
    pendingPlan: Option<Option<seq<Call>>>,
    planNote: Option<bool>,
    cannedReply: Option<bool>,
    truncated: Option<bool>)

  const QUIET := Update(1, [], [], NO_USAGE, None, None, None, None, None, None, None, None)

  function Or<T>(o: Option<T>, was: T): T { if o.Some? then o.value else was }

  function Merge(s: State, u: Update): State {
    State(s.intent, s.step + u.step, s.visited + u.visited,
          if u.next.Some? then u.next else s.next, Or(u.status, s.status),
          Or(u.toolRequest, s.toolRequest), Or(u.toolCalls, s.toolCalls), Or(u.pendingPlan, s.pendingPlan),
          Or(u.planNote, s.planNote), Or(u.cannedReply, s.cannedReply), Or(u.truncated, s.truncated),
          s.executedCalls + u.executedCalls, s.usage + u.usage)
  }

  // --- oracles ------------------------------------------------------------------------------------

  datatype Category = MissingCredential | Auth | Timeout | Network | InvalidOutput

  predicate Retryable(c: Category) { c.Timeout? || c.Network? || c.InvalidOutput? }

  /** The structured router's decision: a node, and possibly one named tool. */
  datatype Decision = Decision(next: Next, tool: Option<Call>)

  /** What a model call cost: the part its response reported, and the part the gateway never saw. */
  datatype Metered = Metered(seen: Usage, unseen: Usage)

  const FREE := Metered(NO_USAGE, NO_USAGE)

  datatype Attempt = Decided(decision: Decision, usage: Metered) | Failed(category: Category, usage: Metered)

  /** The native router: switched off, failed, or a list of requested calls. `argsFit` says whether the
      first call's arguments pass the typed argument schema the result is normalised into. */
  datatype Native = Off | NativeFailed(usage: Metered) | NativeCalls(calls: seq<Call>, argsFit: bool, usage: Metered)

  datatype Oracle = Oracle(client: bool, native: Native, first: Attempt, second: Attempt, third: Attempt)

  function Attempts(o: Oracle): (a: seq<Attempt>)
    ensures |a| == 1 + MAX_ROUTING_RETRIES
  {
    [o.first, o.second, o.third]
  }

  // --- call identity ------------------------------------------------------------------------------

  function Signature(c: Call): string { c.name + ":" + c.args }

  /** What `sig.split(":", 1)[0]` recovers. */
  function NameOf(sig: string): string {
    if sig == "" || sig[0] == ':' then "" else [sig[0]] + NameOf(sig[1..])
  }

  /** The name read back from a signature is the name that built it exactly when the name has no
      colon. */
  lemma {:induction false} NameComesBack(c: Call)
    ensures NameOf(Signature(c)) == c.name <==> ':' !in c.name
    decreases |c.name|
  {
    var sig := Signature(c);
    if c.name == "" {
    } else {
      var rest := Call(c.name[1..], c.args);
      assert sig[1..] == Signature(rest);
      NameComesBack(rest);
      if c.name[0] != ':' {
        assert c.name == [c.name[0]] + rest.name;
      } else {
        assert NameOf(sig) == "";
      }
    }
  }

  lemma WriteNamesHaveNoColon(name: string)
    requires name in WRITE_TOOLS
    ensures ':' !in name
  {
  }

  lemma ReadNamesHaveNoColon(name: string)
    requires name in DISPATCHABLE_TOOLS - WRITE_TOOLS
    ensures ':' !in name
  {
  }

  /** No dispatchable tool has a colon in its name, so for them a signature identifies the call. */
  lemma DispatchableNamesAreSafe(c: Call, d: Call)
    requires c.name in DISPATCHABLE_TOOLS && d.name in DISPATCHABLE_TOOLS
    ensures NameOf(Signature(c)) == c.name
    ensures Signature(c) == Signature(d) <==> c == d
  {
    if c.name in WRITE_TOOLS { WriteNamesHaveNoColon(c.name); } else { ReadNamesHaveNoColon(c.name); }
    if d.name in WRITE_TOOLS { WriteNamesHaveNoColon(d.name); } else { ReadNamesHaveNoColon(d.name); }
    NameComesBack(c);
    NameComesBack(d);
    if Signature(c) == Signature(d) {
      assert Signature(c)[|c.name| + 1..] == c.args;
      assert Signature(d)[|d.name| + 1..] == d.args;
    }
  }

  function TimesRun(already: seq<string>, name: string): nat {
    if already == [] then 0
    else (if NameOf(already[0]) == name then 1 else 0) + TimesRun(already[1..], name)
  }

  predicate IsFresh(c: Call, already: seq<string>) {
    Signature(c) !in already && TimesRun(already, c.name) < MAX_SAME_TOOL_CALLS
  }

  /** The calls the repeat guard keeps. */
  function Fresh(calls: seq<Call>, already: seq<string>): (kept: seq<Call>)
    ensures |kept| <= |calls|
    ensures forall c :: c in kept <==> c in calls && IsFresh(c, already)
  {
    if calls == [] then []
    else (if IsFresh(calls[0], already) then [calls[0]] else []) + Fresh(calls[1..], already)
  }

  /** The calls whose name a backend knows. */
  function Dispatchable(calls: seq<Call>): (kept: seq<Call>)
    ensures |kept| <= |calls|
    ensures forall c :: c in kept <==> c in calls && c.name in DISPATCHABLE_TOOLS
    ensures (forall c :: c in calls ==> c.name in DISPATCHABLE_TOOLS) ==> kept == calls
  {
    if calls == [] then []
    else (if calls[0].name in DISPATCHABLE_TOOLS then [calls[0]] else []) + Dispatchable(calls[1..])
  }

  // --- the gate -----------------------------------------------------------------------------------

  function Writes(calls: seq<Call>): nat {
    if calls == [] then 0 else (if calls[0].name in WRITE_TOOLS then 1 else 0) + Writes(calls[1..])
  }

  predicate NeedsConfirmation(calls: seq<Call>) {
    (exists c :: c in calls && c.name in ALWAYS_CONFIRM_TOOLS) || Writes(calls) >= WRITE_CONFIRM_THRESHOLD
  }

  predicate ConfirmationGiven(i: Intent) { i.affirmation && Assistant in i.prior }

  /** What the gate did to the store. */
  datatype GateEvent = Bypassed | Took(found: Option<seq<Call>>) | Stored(plan: seq<Call>) | Cleared

  datatype Gated = Gated(
    next: Next, calls: Option<seq<Call>>, toolRequest: Option<Call>,
    pendingPlan: Option<seq<Call>>, planNote: bool, slots: Slots, event: GateEvent)

  function Gate(s: State, next: Next, calls: Option<seq<Call>>, toolRequest: Option<Call>,
                slots: Slots, now: int, id: nat): Gated
  {
    var k := ChatKey(s.intent);
    if ConfirmationGiven(s.intent) && ToolExecution !in s.visited then
      var approved := Answer(Lookup(slots, k), Table, now);
      var slots' := SlotDrop(slots, k);
      if approved.Some? then Gated(ToTools, approved, None, None, false, slots', Took(approved))
      else if calls == None then Gated(ToLocal, None, toolRequest, None, true, slots', Took(None))
      else Gated(next, calls, toolRequest, None, false, slots', Took(None))
    else if calls.Some? && NeedsConfirmation(calls.value) then
      Gated(ToLocal, None, None, calls, false,
            SlotSave(slots, k, Copy(id, calls.value, Some(now + PLAN_TTL_S))), Stored(calls.value))
    else
      Gated(next, calls, toolRequest, None, false, SlotDrop(slots, k), Cleared)
  }

  datatype Routed = Routed(update: Update, slots: Slots, event: GateEvent)

  function FinishAnswered(usage: Usage): Update {
    QUIET.(next := Some(ToFinish), status := Some(Completed), usage := usage,
           toolRequest := Some(None), toolCalls := Some(None), pendingPlan := Some(None), planNote := Some(false))
  }

  function FinishRouting(s: State, d: Decision, usage: Usage, native: seq<Call>,
                         slots: Slots, now: int, id: nat): Routed
  {
    var canned := d.next == ToLocal && s.visited == [] && native == [] && d.tool == None
                  && !s.intent.documents && !s.intent.images && s.intent.savedDocument;
    if d.next == ToLocal && LocalLlm in s.visited then Routed(FinishAnswered(usage), slots, Bypassed)
    else
      var request := if d.next == ToTools then d.tool else None;
      var batch := if native != [] && d.next == ToTools then Some(Fresh(native, s.executedCalls)) else None;
      var allRepeats := batch == Some([]);
      var g := Gate(s, if allRepeats then ToLocal else d.next, if allRepeats then None else batch,
                    if allRepeats then None else request, slots, now, id);
      Routed(
        QUIET.(next := Some(g.next), usage := usage, toolRequest := Some(g.toolRequest), toolCalls := Some(g.calls),
               pendingPlan := Some(g.pendingPlan), planNote := Some(g.planNote),
               cannedReply := Some(canned && g.next == ToLocal && g.pendingPlan == None),
               status := if g.next == ToFinish then Some(Completed) else None),
        g.slots, g.event)
  }

  // --- the supervisor -----------------------------------------------------------------------------

  /** An attempt that brought no response: timed out, refused, or failed in transport. */
  predicate NoResponse(a: Attempt) { a.Failed? && !a.category.InvalidOutput? }

  /** The usage an attempt returns: what its response reported, and nothing if there was none. */
  function Returned(a: Attempt): Usage { if NoResponse(a) then NO_USAGE else a.usage.seen }

  /** Total usage that these attempts return. */
  function ReturnedIn(attempts: seq<Attempt>): Usage {
    if attempts == [] then NO_USAGE
    else ReturnedIn(attempts[..|attempts| - 1]) + Returned(attempts[|attempts| - 1])
  }

  lemma ReturnedNext(attempts: seq<Attempt>, n: nat)
    requires n < |attempts|
    ensures ReturnedIn(attempts[..n + 1]) == ReturnedIn(attempts[..n]) + Returned(attempts[n])
  {
    assert attempts[..n + 1][..n] == attempts[..n];
  }

  /** The native router reads two of the three figures; the total stays zero. */
  function NativeUsage(reported: Usage): Usage { reported[TotalTokens := 0] }

  predicate RetryAfter(a: Attempt) { a.Failed? && Retryable(a.category) }

  /** How many attempts are made: up to the first that is not a retryable failure. */
  function Asked(attempts: seq<Attempt>): (n: nat)
    requires attempts != []
    ensures 1 <= n <= |attempts|
    ensures forall i :: 0 <= i < n - 1 ==> RetryAfter(attempts[i])
    ensures n == |attempts| || !RetryAfter(attempts[n - 1])
  {
    if RetryAfter(attempts[0]) && |attempts| > 1 then 1 + Asked(attempts[1..]) else 1
  }

  /** One supervisor visit. `update` is None when the visit raises. `asked` counts the calls made to
      a routing model. */
  datatype Visit = Visit(update: Option<Update>, slots: Slots, event: GateEvent, asked: nat)

  function Degrade(usage: Usage): Update {
    QUIET.(next := Some(ToFinish), status := Some(Degraded), usage := usage)
  }

  function NativeDecision(calls: seq<Call>): Decision {
    if calls == [] then Decision(ToLocal, None) else Decision(ToTools, Some(calls[0]))
  }

  function Supervisor(s: State, o: Oracle, slots: Slots, now: int, id: nat): Visit {
    if s.step >= MAX_STEPS then
      var halt := QUIET.(status := Some(HaltedStepBound));
      if LocalLlm !in s.visited then
        Visit(Some(halt.(next := Some(ToLocal), truncated := Some(true), toolRequest := Some(None),
                         toolCalls := Some(None), pendingPlan := Some(None), planNote := Some(false))),
              slots, Bypassed, 0)
      else Visit(Some(halt.(next := Some(ToFinish))), slots, Bypassed, 0)
    else if LocalLlm in s.visited then Visit(Some(FinishAnswered(NO_USAGE)), slots, Bypassed, 0)
    else if !o.client then Visit(Some(Degrade(NO_USAGE)), slots, Bypassed, 0)
    else if o.native.NativeCalls? then
      var calls := Dispatchable(o.native.calls);
      if calls != [] && !o.native.argsFit then Visit(None, slots, Bypassed, 1)
      else
        var r := FinishRouting(s, NativeDecision(calls), NativeUsage(o.native.usage.seen), calls, slots, now, id);
        Visit(Some(r.update), r.slots, r.event, 1)
    else
      var tried := Attempts(o)[..Asked(Attempts(o))];
      var asked := |tried| + (if o.native.NativeFailed? then 1 else 0);
      match tried[|tried| - 1]
      case Failed(_, _) => Visit(Some(Degrade(ReturnedIn(tried))), slots, Bypassed, asked)
      case Decided(d, _) =>
        var r := FinishRouting(s, d, ReturnedIn(tried), [], slots, now, id);
        Visit(Some(r.update), r.slots, r.event, asked)
  }

  // --- the workers --------------------------------------------------------------------------------

  /** The calls tool_execution runs: the batch if there is one, else the single request. */
  function RequestedToolCalls(s: State): seq<Call> {
    var raw := if s.toolCalls.Some? && s.toolCalls.value != [] then s.toolCalls.value
               else if s.toolRequest.Some? then [s.toolRequest.value] else [];
    Dispatchable(raw)
  }

  function Signatures(calls: seq<Call>): (sigs: seq<string>)
    ensures |sigs| == |calls|
    ensures forall i :: 0 <= i < |calls| ==> sigs[i] == Signature(calls[i])
  {
    seq(|calls|, i requires 0 <= i < |calls| => Signature(calls[i]))
  }

  function ToolUpdate(s: State): Update {
    QUIET.(visited := [ToolExecution], usage := TOOL_USAGE, executedCalls := Signatures(RequestedToolCalls(s)))
  }

  /** One attempt at composing the reply: whether it succeeded, and what it cost. */
  datatype Draft = Draft(written: bool, usage: Metered)

  /** The cloud's attempt, if composing is offloaded, and the local one that would be made. */
  datatype Composition = Composition(cloud: Option<Draft>, local: Draft)

  /** What local_llm reports: nothing for a canned reply or a failure, else what the successful attempt saw. */
  function Charged(canned: bool, c: Composition): Usage {
    if canned then NO_USAGE
    else if c.cloud.Some? && c.cloud.value.written then c.cloud.value.usage.seen
    else if c.local.written then c.local.usage.seen
    else NO_USAGE
  }

  function LocalUpdate(usage: Usage): Update {
    QUIET.(visited := [LocalLlm], usage := usage)
  }
}
