/**
 * Whether the plan that a take hands out is the one the user was shown last and has not moved on from
 * (services/pending_plans.py). A save replaces the plan of its chat and a clear drops it; either may reach
 * only one of the two tiers, or the table late. So over every schedule a plan handed out is current exactly
 * when the tier it came from had last been changed by the newest save or clear of its key.
 */
module PlanFreshness {
  import opened Calls
  import opened PendingPlans
  import opened PlanRaces

  // --- saves and clears -----------------------------------------------------------------------------

  /** A save or clear of some key, and who ran it. */
  datatype Change = Change(op: nat, pid: nat, saved: bool)

  predicate Changes(a: Action, k: Key) { (a.BeginSave? || a.BeginClear?) && a.key == k }

  function ChangeOf(a: Action): Change
    requires a.BeginSave? || a.BeginClear?
  {
    Change(a.op, a.pid, a.BeginSave?)
  }

  /** The newest save or clear of this key, by any process. */
  function LastChange(actions: seq<Action>, k: Key): Option<Change>
    decreases |actions|
  {
    if actions == [] then None
    else
      var n := |actions| - 1;
      if Changes(actions[n], k) then Some(ChangeOf(actions[n])) else LastChange(actions[..n], k)
  }

  /** The newest that this process ran. */
  function LastChangeBy(actions: seq<Action>, pid: nat, k: Key): Option<Change>
    decreases |actions|
  {
    if actions == [] then None
    else
      var n := |actions| - 1;
      if Changes(actions[n], k) && actions[n].pid == pid then Some(ChangeOf(actions[n]))
      else LastChangeBy(actions[..n], pid, k)
  }

  /** This save's plan has been neither replaced nor dropped. */
  predicate Current(actions: seq<Action>, k: Key, id: nat) {
    var last := LastChange(actions, k);
    last.Some? && last.value.saved && last.value.op == id
  }

  lemma {:induction false} LastIsItsOwnLast(actions: seq<Action>, k: Key)
    requires LastChange(actions, k).Some?
    ensures LastChangeBy(actions, LastChange(actions, k).value.pid, k) == LastChange(actions, k)
    decreases |actions|
  {
    var n := |actions| - 1;
    if !Changes(actions[n], k) { LastIsItsOwnLast(actions[..n], k); }
  }

  lemma {:induction false} OwnLastHasALast(actions: seq<Action>, pid: nat, k: Key)
    requires LastChangeBy(actions, pid, k).Some?
    ensures LastChange(actions, k).Some? && LastChangeBy(actions, pid, k).value.pid == pid
    decreases |actions|
  {
    var n := |actions| - 1;
    if !(Changes(actions[n], k) && actions[n].pid == pid) { OwnLastHasALast(actions[..n], pid, k); }
  }

  predicate Began(w: World, k: Key, c: Option<Change>) {
    c.Some? ==>
      && c.value.op in w.ops && w.ops[c.value.op].key == k && w.ops[c.value.op].pid == c.value.pid
      && if c.value.saved then w.ops[c.value.op].kind.Saving? else w.ops[c.value.op].kind.Clearing?
  }

  lemma BegunStays(w: World, a: Action, k: Key, c: Option<Change>)
    requires Enabled(w, a) && Began(w, k, c)
    ensures Began(Step(w, a), k, c)
  {
  }

  lemma ChangeBegins(w: World, a: Action, k: Key)
    requires Enabled(w, a) && Changes(a, k)
    ensures Began(Step(w, a), k, Some(ChangeOf(a)))
  {
  }

  lemma {:induction false} LastChangesBegan(t0: int, actions: seq<Action>, w: World, pid: nat, k: Key)
    requires After(t0, actions) == Some(w)
    ensures Began(w, k, LastChange(actions, k)) && Began(w, k, LastChangeBy(actions, pid, k))
    decreases |actions|
  {
    if actions != [] {
      var n := |actions| - 1;
      var v := After(t0, actions[..n]).value;
      LastChangesBegan(t0, actions[..n], v, pid, k);
      BegunStays(v, actions[n], k, LastChange(actions[..n], k));
      BegunStays(v, actions[n], k, LastChangeBy(actions[..n], pid, k));
      if Changes(actions[n], k) { ChangeBegins(v, actions[n], k); }
    }
  }

  predicate Saves(w: World, op: nat, k: Key) { op in w.ops && w.ops[op].kind.Saving? && w.ops[op].key == k }

  lemma SavesBegin(w: World, a: Action, op: nat, k: Key)
    requires Enabled(w, a) && Saves(Step(w, a), op, k)
    ensures Saves(w, op, k) || Changes(a, k)
  {
  }

  lemma {:induction false} SavedMeansChanged(t0: int, actions: seq<Action>, w: World, op: nat, k: Key)
    requires After(t0, actions) == Some(w) && Saves(w, op, k)
    ensures LastChange(actions, k).Some?
    decreases |actions|
  {
    if actions != [] {
      var n := |actions| - 1;
      var v := After(t0, actions[..n]).value;
      SavesBegin(v, actions[n], op, k);
      if Saves(v, op, k) { SavedMeansChanged(t0, actions[..n], v, op, k); }
    }
  }

  // --- what the table holds -------------------------------------------------------------------------

  /** The last request of this key that the table has carried out. */
  function LastEffect(effects: seq<Effect>, k: Key): Option<Effect>
    decreases |effects|
  {
    if effects == [] then None
    else
      var n := |effects| - 1;
      if effects[n].key == k then Some(effects[n]) else LastEffect(effects[..n], k)
  }

  /** What a slot holds once this was the last request of its key. */
  function Left(e: Option<Effect>): Option<Copy> { if e.Some? && e.value.Stored? then Some(e.value.row) else None }

  lemma {:induction false} SlotIsLastEffect(effects: seq<Effect>, k: Key)
    ensures Lookup(SlotsAfter(effects), k) == Left(LastEffect(effects, k))
    decreases |effects|
  {
    if effects != [] { SlotIsLastEffect(effects[..|effects| - 1], k); }
  }

  /** What carrying out one more request makes of the table. */
  function RowsWith(rows: Slots, e: Effect): Slots {
    if e.Stored? then SlotSave(rows, e.key, e.row) else SlotDrop(rows, e.key)
  }

  lemma SlotsAfterNext(effects: seq<Effect>, e: Effect)
    ensures SlotsAfter(effects + [e]) == RowsWith(SlotsAfter(effects), e)
  {
    assert (effects + [e])[..|effects|] == effects;
  }

  lemma StepIsOneEffect(w: World, a: Action, w': World)
    requires Enabled(w, a) && w' == Step(w, a)
    ensures if w'.effects == w.effects then w'.rows == w.rows else
      && |w'.effects| > 0 && w'.effects == w.effects + [w'.effects[|w'.effects| - 1]]
      && w'.rows == RowsWith(w.rows, w'.effects[|w'.effects| - 1])
  {
  }

  lemma StepKeepsRows(w: World, a: Action, w': World)
    requires w.rows == SlotsAfter(w.effects) && Enabled(w, a) && w' == Step(w, a)
    ensures w'.rows == SlotsAfter(w'.effects)
  {
    StepIsOneEffect(w, a, w');
    if w'.effects != w.effects { SlotsAfterNext(w.effects, w'.effects[|w'.effects| - 1]); }
  }

  /** Over every schedule, whatever fails or arrives late, the table is what its requests made of it. */
  lemma {:induction false} RowsFollowEffects(t0: int, actions: seq<Action>, w: World)
    requires After(t0, actions) == Some(w)
    ensures w.rows == SlotsAfter(w.effects)
    decreases |actions|
  {
    if actions != [] {
      var n := |actions| - 1;
      RowsFollowEffects(t0, actions[..n], After(t0, actions[..n]).value);
      StepKeepsRows(After(t0, actions[..n]).value, actions[n], w);
    }
  }

  /** Every row, on its way or stored, bears the name of the save that sent it. */
  ghost predicate RowsAreOwn(w: World) { SendersOwn(w.ops) && SentIsOwn(w.wire) && StoredIsOwn(w.effects) }

  predicate SendersOwn(ops: map<nat, Op>) {
    forall op :: op in ops && ops[op].phase.Posting? ==> ops[op].phase.row.id == op
  }

  predicate SentIsOwn(wire: map<nat, Request>) { forall op :: op in wire && wire[op].Upsert? ==> wire[op].row.id == op }

  predicate StoredIsOwn(effects: seq<Effect>) { forall e :: e in effects && e.Stored? ==> e.row.id == e.op }

  lemma StepKeepsSendersOwn(w: World, a: Action)
    requires SendersOwn(w.ops) && Enabled(w, a)
    ensures SendersOwn(Step(w, a).ops)
  {
  }

  lemma StepKeepsSentOwn(w: World, a: Action)
    requires SendersOwn(w.ops) && SentIsOwn(w.wire) && Enabled(w, a)
    ensures SentIsOwn(Step(w, a).wire)
  {
  }

  lemma StepKeepsStoredOwn(w: World, a: Action)
    requires RowsAreOwn(w) && Enabled(w, a)
    ensures StoredIsOwn(Step(w, a).effects)
  {
  }

  lemma StepKeepsRowsOwn(w: World, a: Action)
    requires RowsAreOwn(w) && Enabled(w, a)
    ensures RowsAreOwn(Step(w, a))
  {
    StepKeepsSendersOwn(w, a);
    StepKeepsSentOwn(w, a);
    StepKeepsStoredOwn(w, a);
  }

  lemma {:induction false} RowsStayOwn(t0: int, actions: seq<Action>, w: World)
    requires After(t0, actions) == Some(w)
    ensures RowsAreOwn(w)
    decreases |actions|
  {
    if actions != [] {
      var n := |actions| - 1;
      RowsStayOwn(t0, actions[..n], After(t0, actions[..n]).value);
      StepKeepsRowsOwn(After(t0, actions[..n]).value, actions[n]);
    }
  }

  lemma {:induction false} LastEffectIsOne(effects: seq<Effect>, k: Key)
    requires LastEffect(effects, k).Some?
    ensures LastEffect(effects, k).value in effects && LastEffect(effects, k).value.key == k
    decreases |effects|
  {
    var n := |effects| - 1;
    if effects[n].key != k { LastEffectIsOne(effects[..n], k); }
  }

  /** The row in a slot was stored by the last request of its key, which was its own save's. */
  lemma RowIsLastStored(t0: int, actions: seq<Action>, w: World, k: Key)
    requires After(t0, actions) == Some(w) && k in w.rows
    ensures LastEffect(w.effects, k) == Some(Stored(w.rows[k].id, k, w.rows[k]))
  {
    RowsFollowEffects(t0, actions, w);
    RowsStayOwn(t0, actions, w);
    SlotIsLastEffect(w.effects, k);
    LastEffectIsOne(w.effects, k);
  }

  /** The request of this operation is the last of its key that the table has carried out. */
  predicate CarriedOutLast(w: World, k: Key, op: nat) {
    var last := LastEffect(w.effects, k);
    last.Some? && last.value.op == op
  }

  /** Over every schedule: a take that the table answers pops a current plan if and only if the request of
      the newest save or clear of that key is the last that the table has carried out under it. */
  lemma AnsweredTakeIsCurrentIff(t0: int, actions: seq<Action>, w: World, op: nat)
    requires After(t0, actions) == Some(w) && Enabled(w, Delete(op, true)) && w.ops[op].kind.Taking?
    requires w.ops[op].key in w.rows
    ensures var k := w.ops[op].key; var row := w.rows[k]; var last := LastChange(actions, k);
      && Step(w, Delete(op, true)).ops[op].phase == Emptying(Some(row))
      && last.Some? && (Current(actions, k, row.id) <==> CarriedOutLast(w, k, last.value.op))
  {
    var k := w.ops[op].key;
    RowIsLastStored(t0, actions, w, k);
    RowIsOfASave(t0, actions, w, k);
    SavedMeansChanged(t0, actions, w, w.rows[k].id, k);
    LastChangesBegan(t0, actions, w, 0, k);
  }

  lemma RowIsOfASave(t0: int, actions: seq<Action>, w: World, k: Key)
    requires After(t0, actions) == Some(w) && k in w.rows
    ensures Saves(w, w.rows[k].id, k)
  {
    ReachableInv(t0, actions);
    assert Holds(w, InRow(k));
  }

  // --- what a process holds -------------------------------------------------------------------------

  /** What this process has in memory under this key, if anything, is of this change. */
  predicate MemoryIs(w: World, pid: nat, k: Key, c: Option<Change>) {
    (pid, k) in w.memory ==> c.Some? && c.value.saved && w.memory[(pid, k)].id == c.value.op
  }

  lemma MemoryFollowsChanges(w: World, a: Action, pid: nat, k: Key, c: Option<Change>)
    requires Enabled(w, a) && MemoryIs(w, pid, k, c)
    ensures MemoryIs(Step(w, a), pid, k, if Changes(a, k) && a.pid == pid then Some(ChangeOf(a)) else c)
  {
  }

  /** A process's memory only ever holds what it saved itself, and has not cleared since. */
  lemma {:induction false} MemoryIsOwnLast(t0: int, actions: seq<Action>, w: World, pid: nat, k: Key)
    requires After(t0, actions) == Some(w)
    ensures MemoryIs(w, pid, k, LastChangeBy(actions, pid, k))
    decreases |actions|
  {
    if actions != [] {
      var n := |actions| - 1;
      var v := After(t0, actions[..n]).value;
      MemoryIsOwnLast(t0, actions[..n], v, pid, k);
      MemoryFollowsChanges(v, actions[n], pid, k, LastChangeBy(actions[..n], pid, k));
    }
  }

  /** Over every schedule: a take that falls back to memory pops a current plan if and only if the newest
      save or clear of that key, by any process, was this process's own. */
  lemma FallBackIsCurrentIff(t0: int, actions: seq<Action>, w: World, op: nat)
    requires After(t0, actions) == Some(w) && Enabled(w, FallBack(op))
    requires (w.ops[op].pid, w.ops[op].key) in w.memory
    ensures var pid, k := w.ops[op].pid, w.ops[op].key;
      var copy, last := w.memory[(pid, k)], LastChange(actions, k);
      && Step(w, FallBack(op)).ops[op].phase == Checking(Some(copy), Memory)
      && last.Some? && (Current(actions, k, copy.id) <==> last.value.pid == pid)
  {
    var pid, k := w.ops[op].pid, w.ops[op].key;
    MemoryIsOwnLast(t0, actions, w, pid, k);
    OwnLastHasALast(actions, pid, k);
    LastIsItsOwnLast(actions, k);
    LastChangesBegan(t0, actions, w, pid, k);
  }

  // --- every release --------------------------------------------------------------------------------

  /** The plan a take has popped but not lost, and the tier it came from. */
  function Holding(p: Phase): Option<(Copy, Tier)> {
    match p
    case Emptying(Some(c)) => Some((c, Table))
    case Checking(Some(c), t) => Some((c, t))
    case Returned(Some(c), t, _) => Some((c, t))
    case _ => None
  }

  /** In this step the take pops this copy from this tier. */
  predicate Pops(v: World, a: Action, op: nat, k: Key, c: Copy, tier: Tier) {
    && op in v.ops && v.ops[op].key == k && Enabled(v, a)
    && match tier
       case Table => a == Delete(op, true) && v.ops[op].kind.Taking? && Lookup(v.rows, k) == Some(c)
       case Memory => a == FallBack(op) && (v.ops[op].pid, k) in v.memory && v.memory[(v.ops[op].pid, k)] == c
  }

  /** Only the step that pops gives a take what it holds. */
  lemma HeldOrPopped(v: World, a: Action, w: World, op: nat)
    requires Enabled(v, a) && w == Step(v, a) && op in w.ops && Holding(w.ops[op].phase).Some?
    requires !(op in v.ops && Holding(v.ops[op].phase) == Holding(w.ops[op].phase))
    ensures var (c, tier) := Holding(w.ops[op].phase).value; Pops(v, a, op, w.ops[op].key, c, tier)
  {
    if a.Delete? || a.FallBack? { PopperPops(v, a, w, op); } else { OthersHold(v, a, w, op); }
  }

  lemma PopperPops(v: World, a: Action, w: World, op: nat)
    requires Enabled(v, a) && w == Step(v, a) && (a.Delete? || a.FallBack?)
    requires op in w.ops && Holding(w.ops[op].phase).Some?
    requires !(op in v.ops && Holding(v.ops[op].phase) == Holding(w.ops[op].phase))
    ensures var (c, tier) := Holding(w.ops[op].phase).value; Pops(v, a, op, w.ops[op].key, c, tier)
  {
  }

  lemma OthersHold(v: World, a: Action, w: World, op: nat)
    requires Enabled(v, a) && w == Step(v, a) && !a.Delete? && !a.FallBack?
    requires op in w.ops && Holding(w.ops[op].phase).Some?
    ensures op in v.ops && Holding(v.ops[op].phase) == Holding(w.ops[op].phase)
  {
  }

  lemma KeysStay(v: World, a: Action, op: nat)
    requires Enabled(v, a) && op in v.ops
    ensures op in Step(v, a).ops && Step(v, a).ops[op].key == v.ops[op].key
  {
  }

  /** The step at which a take popped what it holds. */
  lemma {:induction false} PopOf(t0: int, actions: seq<Action>, w: World, op: nat) returns (m: nat, v: World)
    requires After(t0, actions) == Some(w) && op in w.ops && Holding(w.ops[op].phase).Some?
    ensures m < |actions| && After(t0, actions[..m]) == Some(v)
    ensures var (c, tier) := Holding(w.ops[op].phase).value; Pops(v, actions[m], op, w.ops[op].key, c, tier)
    decreases |actions|
  {
    var n := |actions| - 1;
    var u := After(t0, actions[..n]).value;
    if op in u.ops && Holding(u.ops[op].phase) == Holding(w.ops[op].phase) {
      m, v := PopOf(t0, actions[..n], u, op);
      KeysStay(u, actions[n], op);
      assert actions[..n][..m] == actions[..m];
    } else {
      HeldOrPopped(u, actions[n], w, op);
      m, v := n, u;
    }
  }

  /** The take that released a plan has returned with it. */
  predicate TakerHas(w: World, r: Release) {
    && r.taker in w.ops && w.ops[r.taker].key == r.key && w.ops[r.taker].phase == Returned(Some(r.copy), r.tier, r.at)
  }

  lemma ReturnedStays(w: World, a: Action, op: nat)
    requires Enabled(w, a) && op in w.ops && w.ops[op].phase.Returned?
    ensures op in Step(w, a).ops && Step(w, a).ops[op] == w.ops[op]
  {
  }

  lemma ReleasesOnlyGrow(w: World, a: Action, w': World)
    requires Enabled(w, a) && w' == Step(w, a)
    ensures w.released <= w'.released && (!a.Check? ==> w'.released == w.released)
    ensures |w'.released| <= |w.released| + 1
  {
  }

  lemma CheckerHasIt(w: World, op: nat)
    requires Enabled(w, Check(op)) && |Step(w, Check(op)).released| > |w.released|
    ensures TakerHas(Step(w, Check(op)), Step(w, Check(op)).released[|w.released|])
  {
  }

  lemma StepKeepsTaker(w: World, a: Action, w': World, i: nat)
    requires Enabled(w, a) && w' == Step(w, a)
    requires i < |w'.released| && (i < |w.released| ==> TakerHas(w, w.released[i]))
    ensures TakerHas(w', w'.released[i])
  {
    ReleasesOnlyGrow(w, a, w');
    if i < |w.released| { ReturnedStays(w, a, w.released[i].taker); } else { CheckerHasIt(w, a.op); }
  }

  lemma {:induction false} ReleasesHaveTakers(t0: int, actions: seq<Action>, w: World, i: nat)
    requires After(t0, actions) == Some(w) && i < |w.released|
    ensures TakerHas(w, w.released[i])
    decreases |actions|
  {
    if actions != [] {
      var n := |actions| - 1;
      var v := After(t0, actions[..n]).value;
      if i < |v.released| { ReleasesHaveTakers(t0, actions[..n], v, i); }
      StepKeepsTaker(v, actions[n], w, i);
    }
  }

  /** The tier had last been changed by this save or clear: the table by its request, memory by its process. */
  predicate UpToDate(v: World, r: Release, c: Change)
    requires r.taker in v.ops
  {
    match r.tier
    case Table => CarriedOutLast(v, r.key, c.op)
    case Memory => v.ops[r.taker].pid == c.pid
  }

  /** Every plan ever released, from either tier and whatever failed, was current when it was popped if and
      only if that tier was up to date with the newest save or clear of its key. */
  lemma ReleaseIsCurrentIff(t0: int, actions: seq<Action>, w: World, i: nat) returns (m: nat, v: World)
    requires After(t0, actions) == Some(w) && i < |w.released|
    ensures m < |actions| && After(t0, actions[..m]) == Some(v)
    ensures var r := w.released[i]; var last := LastChange(actions[..m], r.key);
      && Pops(v, actions[m], r.taker, r.key, r.copy, r.tier)
      && last.Some? && (Current(actions[..m], r.key, r.copy.id) <==> UpToDate(v, r, last.value))
  {
    var r := w.released[i];
    ReleasesHaveTakers(t0, actions, w, i);
    m, v := PopOf(t0, actions, w, r.taker);
    if r.tier == Table {
      AnsweredTakeIsCurrentIff(t0, actions[..m], v, r.taker);
    } else {
      FallBackIsCurrentIff(t0, actions[..m], v, r.taker);
    }
  }

  /** Over every schedule, a take that the table answered comes back with the row stored last under its key:
      nothing of that key was carried out between, whether or not other requests failed. */
  lemma AnsweredTakeIsNewest(t0: int, actions: seq<Action>, w: World, op: nat) returns (i: nat)
    requires After(t0, actions) == Some(w) && op in w.ops
    requires w.ops[op].phase.Returned? && w.ops[op].phase.found.Some? && w.ops[op].phase.tier == Table
    ensures i < |w.effects| && w.effects[i] == Popped(op, w.ops[op].key, w.ops[op].phase.found)
    ensures var row := w.ops[op].phase.found.value;
      LastEffect(w.effects[..i], w.ops[op].key) == Some(Stored(row.id, w.ops[op].key, row))
  {
    var m, v := PopOf(t0, actions, w, op);
    RowIsLastStored(t0, actions[..m], v, w.ops[op].key);
    i := |v.effects|;
    var u := Step(v, actions[m]);
    assert actions[..m + 1][..m] == actions[..m];
    assert After(t0, actions[..m + 1]) == Some(u);
    EffectsOnlyGrow(t0, actions, m + 1, u, w);
    assert w.effects[..i] == v.effects;
  }

  /** So with the table always reachable, saves and clears of a chat that do not overlap, and the newest of
      them ended, what the table holds is current. */
  lemma OneAtATimeIsCurrent(t0: int, actions: seq<Action>, w: World, k: Key, m: nat, v: World)
    requires AlwaysReachable(actions) && After(t0, actions) == Some(w) && k in w.rows
    requires m < |actions| && After(t0, actions[..m]) == Some(v) && Enabled(v, actions[m]) && Changes(actions[m], k)
    requires LastChange(actions, k) == Some(ChangeOf(actions[m]))
    requires EndedBut(w, k, v, actions[m].op)
    ensures Current(actions, k, w.rows[k].id)
  {
    var id, last := w.rows[k].id, actions[m].op;
    RowIsLastStored(t0, actions, w, k);
    RowIsOfASave(t0, actions, w, k);
    LastChangesBegan(t0, actions, w, 0, k);
    if id != last {
      ReachableLinear(t0, actions);
      var i, j := EndedFirstTakesEffectFirst(t0, actions, m, v, w, id, last);
      EffectHasItsKey(w, last, j);
      LastEffectIsLast(w.effects, k, j);
    }
  }

  /** The save or clear `last` has ended, and every other of its key had before `v`. */
  predicate EndedBut(w: World, k: Key, v: World, last: nat) {
    && last in w.ops && Done(w.ops[last].phase)
    && forall op :: op in w.ops && w.ops[op].key == k && !w.ops[op].kind.Taking? && op != last ==>
         op in v.ops && Done(v.ops[op].phase)
  }

  lemma EffectHasItsKey(w: World, op: nat, j: nat)
    requires Linear(w) && EffectAt(w, op, j)
    ensures op in w.ops && w.effects[j].key == w.ops[op].key
  {
    assert w.effects[j] in w.effects && Effected(w, w.effects[j]);
  }

  /** No effect of the key comes after the last one. */
  lemma {:induction false} LastEffectIsLast(effects: seq<Effect>, k: Key, j: nat)
    requires j < |effects| && effects[j].key == k
    ensures LastEffect(effects, k).Some?
    ensures exists i :: j <= i < |effects| && effects[i] == LastEffect(effects, k).value
    decreases |effects|
  {
    var n := |effects| - 1;
    if effects[n].key != k {
      LastEffectIsLast(effects[..n], k, j);
      var i :| j <= i < n && effects[..n][i] == LastEffect(effects[..n], k).value;
      assert effects[i] == LastEffect(effects, k).value;
    }
  }
}
