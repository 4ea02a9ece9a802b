/**
 * Any number of gateway processes running save, take and clear against one table, with every
 * memory operation, clock reading and table request a separate step (services/pending_plans.py).
 *
 * A table request ends answered or unanswered. An unanswered request stays on the wire: it may
 * be carried out at any later moment, or never. That covers refusals, unreachable networks, lost
 * responses and requests that arrive after their caller gave up. A process may also restart,
 * which empties its memory and kills its operations.
 */
module PlanRaces {
  import opened Calls
  import opened PendingPlans

  datatype Kind = Saving(calls: seq<Call>, begun: int) | Taking | Clearing

  datatype Phase =
    | Stamping                                     // save: memory written, expiry not yet computed
    | Posting(row: Copy)                           // save: POST not yet sent
    | Deleting                                     // take and clear: DELETE not yet sent
    | Emptying(removed: Option<Copy>)              // take: DELETE answered, memory pop still to do
    | FallingBack                                  // take: DELETE raised, memory pop still to do
    | Checking(found: Option<Copy>, tier: Tier)    // take: expiry check still to do
    | Returned(found: Option<Copy>, tier: Tier, at: int)   // take: done, answering from what it held then
    | Finished                                     // save and clear: done
    | Died

  datatype Op = Op(pid: nat, key: Key, kind: Kind, phase: Phase)

  datatype Request = Upsert(row: Copy) | Remove

  /** A plan handed out by the take operation `taker`. */
  datatype Release = Release(taker: nat, key: Key, copy: Copy, tier: Tier, at: int)

  /** What a table step did, in the order the table saw it. */
  datatype Effect = Stored(op: nat, key: Key, row: Copy) | Popped(op: nat, key: Key, got: Option<Copy>)

  datatype World = World(
    now: int,
    rows: Slots,
    memory: map<(nat, Key), Copy>,
    ops: map<nat, Op>,
    wire: map<nat, Request>,
    released: seq<Release>,
    effects: seq<Effect>)

  datatype Action =
    | Tick(seconds: nat)
    | BeginSave(op: nat, pid: nat, key: Key, calls: seq<Call>)
    | Stamp(op: nat)
    | Post(op: nat, answered: bool)
    | BeginTake(op: nat, pid: nat, key: Key)
    | BeginClear(op: nat, pid: nat, key: Key)
    | Delete(op: nat, answered: bool)
    | EmptyMemory(op: nat)
    | FallBack(op: nat)
    | Check(op: nat)
    | Deliver(op: nat)
    | Restart(pid: nat)

  function Start(now: int): World { World(now, map[], map[], map[], map[], [], []) }

  predicate Enabled(w: World, a: Action) {
    match a
    case Tick(_) => true
    case BeginSave(op, _, _, _) => op !in w.ops
    case BeginTake(op, _, _) => op !in w.ops
    case BeginClear(op, _, _) => op !in w.ops
    case Stamp(op) => op in w.ops && w.ops[op].phase.Stamping? && w.ops[op].kind.Saving?
    case Post(op, _) => op in w.ops && w.ops[op].phase.Posting?
    case Delete(op, _) => op in w.ops && w.ops[op].phase.Deleting? && !w.ops[op].kind.Saving?
    case EmptyMemory(op) => op in w.ops && w.ops[op].phase.Emptying?
    case FallBack(op) => op in w.ops && w.ops[op].phase.FallingBack?
    case Check(op) => op in w.ops && w.ops[op].phase.Checking?
    case Deliver(op) => op in w.wire && op in w.ops
    case Restart(_) => true
  }

  function Move(w: World, op: nat, phase: Phase): World
    requires op in w.ops
  {
    w.(ops := w.ops[op := w.ops[op].(phase := phase)])
  }

  /** The table carries out an upsert. */
  function ApplyUpsert(w: World, op: nat, row: Copy): World
    requires op in w.ops
  {
    var k := w.ops[op].key;
    w.(rows := SlotSave(w.rows, k, row), effects := w.effects + [Stored(op, k, row)])
  }

  /** The table carries out a delete. */
  function ApplyRemove(w: World, op: nat): World
    requires op in w.ops
  {
    var k := w.ops[op].key;
    w.(rows := SlotDrop(w.rows, k), effects := w.effects + [Popped(op, k, Lookup(w.rows, k))])
  }

  function Pop(memory: map<(nat, Key), Copy>, pid: nat, k: Key): map<(nat, Key), Copy> {
    memory - {(pid, k)}
  }

  predicate Done(p: Phase) { p.Finished? || p.Returned? }

  function Step(w: World, a: Action): World
    requires Enabled(w, a)
  {
    match a
    case Tick(seconds) => w.(now := w.now + seconds)
    case BeginSave(op, pid, key, calls) =>
      w.(memory := w.memory[(pid, key) := Copy(op, calls, Some(w.now + PLAN_TTL_S))],
         ops := w.ops[op := Op(pid, key, Saving(calls, w.now), Stamping)])
    case Stamp(op) =>
      Move(w, op, Posting(Copy(op, w.ops[op].kind.calls, Some(w.now + PLAN_TTL_S))))
    case Post(op, answered) =>
      var row := w.ops[op].phase.row;
      var w' := Move(w, op, Finished);
      if answered then ApplyUpsert(w', op, row) else w'.(wire := w'.wire[op := Upsert(row)])
    case BeginTake(op, pid, key) => w.(ops := w.ops[op := Op(pid, key, Taking, Deleting)])
    case BeginClear(op, pid, key) =>
      w.(memory := Pop(w.memory, pid, key), ops := w.ops[op := Op(pid, key, Clearing, Deleting)])
    case Delete(op, answered) =>
      var removed := Lookup(w.rows, w.ops[op].key);
      var next := if w.ops[op].kind.Clearing? then Finished
                  else if answered then Emptying(removed) else FallingBack;
      var w' := Move(w, op, next);
      if answered then ApplyRemove(w', op) else w'.(wire := w'.wire[op := Remove])
    case EmptyMemory(op) =>
      var w' := Move(w, op, Checking(w.ops[op].phase.removed, Table));
      w'.(memory := Pop(w.memory, w.ops[op].pid, w.ops[op].key))
    case FallBack(op) =>
      var at := (w.ops[op].pid, w.ops[op].key);
      var w' := Move(w, op, Checking(if at in w.memory then Some(w.memory[at]) else None, Memory));
      w'.(memory := Pop(w.memory, at.0, at.1))
    case Check(op) =>
      var Checking(found, tier) := w.ops[op].phase;
      var w' := Move(w, op, Returned(found, tier, w.now));
      if Answer(found, tier, w.now) == None then w'
      else w'.(released := w.released + [Release(op, w.ops[op].key, found.value, tier, w.now)])
    case Deliver(op) =>
      var w' := w.(wire := w.wire - {op});
      if w.wire[op].Upsert? then ApplyUpsert(w', op, w.wire[op].row) else ApplyRemove(w', op)
    case Restart(pid) =>
      w.(memory := map at | at in w.memory && at.0 != pid :: w.memory[at],
         ops := map o | o in w.ops :: if w.ops[o].pid == pid && !Done(w.ops[o].phase)
                                      then w.ops[o].(phase := Died) else w.ops[o])
  }

  /** Where a schedule of actions leads from an empty start; None if one was not enabled. */
  function After(t0: int, actions: seq<Action>): Option<World>
    decreases |actions|
  {
    if actions == [] then Some(Start(t0))
    else
      var last := |actions| - 1;
      match After(t0, actions[..last])
      case None => None
      case Some(w) => if Enabled(w, actions[last]) then Some(Step(w, actions[last])) else None
  }

  // --- where the copies are ---------------------------------------------------------------------

  datatype Place = InMemory(pid: nat, key: Key) | InOp(op: nat) | OnWire(req: nat) | InRow(row: Key) | Out(i: nat)

  function CopyAt(w: World, p: Place): Option<(Tier, Copy)> {
    match p
    case InMemory(pid, k) => if (pid, k) in w.memory then Some((Memory, w.memory[(pid, k)])) else None
    case InOp(op) =>
      if op !in w.ops then None else
        (match w.ops[op].phase
         case Posting(row) => Some((Table, row))
         case Emptying(Some(c)) => Some((Table, c))
         case Checking(Some(c), t) => Some((t, c))
         case _ => None)
    case OnWire(op) => if op in w.wire && w.wire[op].Upsert? then Some((Table, w.wire[op].row)) else None
    case InRow(k) => if k in w.rows then Some((Table, w.rows[k])) else None
    case Out(i) => if i < |w.released| then Some((w.released[i].tier, w.released[i].copy)) else None
  }

  predicate Holds(w: World, p: Place) { CopyAt(w, p).Some? }

  function KeyAt(w: World, p: Place): Key
    requires Holds(w, p)
  {
    match p
    case InMemory(_, k) => k
    case InOp(op) => w.ops[op].key
    case OnWire(op) => if op in w.ops then w.ops[op].key else ("", "")
    case InRow(k) => k
    case Out(i) => w.released[i].key
  }

  /** The copy is what some save stored under this key, stamped no earlier than that save began. */
  predicate Genuine(w: World, k: Key, c: Copy) {
    && c.id in w.ops && w.ops[c.id].kind.Saving? && w.ops[c.id].key == k
    && c.calls == w.ops[c.id].kind.calls
    && c.expires.Some? && w.ops[c.id].kind.begun <= c.expires.value - PLAN_TTL_S <= w.now
  }

  function Token(w: World, p: Place): (nat, Tier)
    requires Holds(w, p)
  {
    (CopyAt(w, p).value.1.id, CopyAt(w, p).value.0)
  }

  /** Handed out after its expiry was stamped and before it ran out. */
  predicate Timely(r: Release, now: int) {
    r.copy.expires.Some? && r.copy.expires.value - PLAN_TTL_S <= r.at < r.copy.expires.value && r.at <= now
  }

  ghost predicate Inv(w: World) {
    && AllGenuine(w) && AllUnique(w) && UnstampedHaveNoRow(w)
    && (forall i :: 0 <= i < |w.released| ==> Timely(w.released[i], w.now))
    && Begun(w)
  }

  ghost predicate AllGenuine(w: World) {
    forall p: Place :: Holds(w, p) ==> Genuine(w, KeyAt(w, p), CopyAt(w, p).value.1)
  }

  /** Each save has at most one copy for each tier. */
  ghost predicate AllUnique(w: World) {
    forall p: Place, q: Place :: Holds(w, p) && Holds(w, q) && Token(w, p) == Token(w, q) ==> p == q
  }

  ghost predicate UnstampedHaveNoRow(w: World) {
    forall op, p: Place :: op in w.ops && w.ops[op].phase.Stamping? && Holds(w, p) ==> Token(w, p) != (op, Table)
  }

  predicate Begun(w: World) {
    w.wire.Keys <= w.ops.Keys && forall op :: op in w.ops && w.ops[op].kind.Saving? ==> w.ops[op].kind.begun <= w.now
  }

  /** Where the copy found at `p` after the step was before it. */
  function Origin(w: World, a: Action, p: Place): Place
    requires Enabled(w, a)
  {
    match a
    case Post(op, answered) =>
      if (answered && p == InRow(w.ops[op].key)) || (!answered && p == OnWire(op)) then InOp(op) else p
    case Delete(op, answered) => if answered && p == InOp(op) then InRow(w.ops[op].key) else p
    case FallBack(op) => if p == InOp(op) then InMemory(w.ops[op].pid, w.ops[op].key) else p
    case Check(op) => if p == Out(|w.released|) then InOp(op) else p
    case Deliver(op) => if w.wire[op].Upsert? && p == InRow(w.ops[op].key) then OnWire(op) else p
    case _ => p
  }

  /** The two steps that make a copy: the save's memory write and its row. */
  predicate Newborn(a: Action, p: Place) {
    (a.BeginSave? && p == InMemory(a.pid, a.key)) || (a.Stamp? && p == InOp(a.op))
  }

  predicate Moved(w: World, a: Action, p: Place)
    requires Enabled(w, a) && Holds(Step(w, a), p)
  {
    && Holds(w, Origin(w, a, p))
    && CopyAt(w, Origin(w, a, p)) == CopyAt(Step(w, a), p)
    && KeyAt(w, Origin(w, a, p)) == KeyAt(Step(w, a), p)
  }

  predicate Sends(a: Action) { a.Post? || a.Delete? }

  lemma PostedCopiesMove(w: World, a: Action, p: Place)
    requires a.Post? && w.wire.Keys <= w.ops.Keys && Enabled(w, a) && Holds(Step(w, a), p)
    ensures Moved(w, a, p)
  {
  }

  lemma DeletedCopiesMove(w: World, a: Action, p: Place)
    requires a.Delete? && w.wire.Keys <= w.ops.Keys && Enabled(w, a) && Holds(Step(w, a), p)
    ensures Moved(w, a, p)
  {
  }

  lemma DeliveredCopiesMove(w: World, a: Action, p: Place)
    requires a.Deliver? && w.wire.Keys <= w.ops.Keys && Enabled(w, a) && Holds(Step(w, a), p)
    ensures Moved(w, a, p)
  {
  }

  /** The steps of a process that come between its table steps. */
  predicate Local(a: Action) { a.Stamp? || a.EmptyMemory? || a.FallBack? || a.Check? }

  lemma PoppedCopiesMove(w: World, a: Action, p: Place)
    requires (a.EmptyMemory? || a.FallBack?) && Enabled(w, a) && Holds(Step(w, a), p)
    ensures Moved(w, a, p)
  {
  }

  lemma LocalCopiesMove(w: World, a: Action, p: Place)
    requires (a.Stamp? || a.Check?) && Enabled(w, a) && Holds(Step(w, a), p) && !Newborn(a, p)
    ensures Moved(w, a, p)
  {
  }

  lemma OtherCopiesStay(w: World, a: Action, p: Place)
    requires !Sends(a) && !Local(a) && !a.Deliver? && Enabled(w, a) && Holds(Step(w, a), p) && !Newborn(a, p)
    requires w.wire.Keys <= w.ops.Keys
    ensures Moved(w, a, p)
  {
  }

  /** Every copy but a newborn one was somewhere already, unchanged and under the same key. */
  lemma CopiesOnlyMove(w: World, a: Action, p: Place)
    requires Enabled(w, a) && w.wire.Keys <= w.ops.Keys && Holds(Step(w, a), p) && !Newborn(a, p)
    ensures Moved(w, a, p)
  {
    if a.Post? { PostedCopiesMove(w, a, p); }
    else if a.Delete? { DeletedCopiesMove(w, a, p); }
    else if a.Deliver? { DeliveredCopiesMove(w, a, p); }
    else if a.EmptyMemory? || a.FallBack? { PoppedCopiesMove(w, a, p); }
    else if Local(a) { LocalCopiesMove(w, a, p); }
    else { OtherCopiesStay(w, a, p); }
  }

  lemma SentCopiesNeverFork(w: World, a: Action, p: Place, q: Place)
    requires (Sends(a) || a.Deliver?) && Enabled(w, a) && w.wire.Keys <= w.ops.Keys
    requires Holds(Step(w, a), p) && Holds(Step(w, a), q) && Origin(w, a, p) == Origin(w, a, q)
    ensures p == q
  {
  }

  lemma LocalCopiesNeverFork(w: World, a: Action, p: Place, q: Place)
    requires !Sends(a) && !a.Deliver? && Enabled(w, a)
    requires Holds(Step(w, a), p) && Holds(Step(w, a), q) && Origin(w, a, p) == Origin(w, a, q)
    ensures p == q
  {
  }

  /** No step duplicates a copy. */
  lemma CopiesNeverFork(w: World, a: Action, p: Place, q: Place)
    requires Enabled(w, a) && Holds(Step(w, a), p) && Holds(Step(w, a), q)
    requires w.wire.Keys <= w.ops.Keys
    requires Origin(w, a, p) == Origin(w, a, q)
    ensures p == q
  {
    if Sends(a) || a.Deliver? { SentCopiesNeverFork(w, a, p, q); } else { LocalCopiesNeverFork(w, a, p, q); }
  }

  lemma CopiesStayGenuine(w: World, a: Action, p: Place)
    requires Inv(w) && Enabled(w, a) && Holds(Step(w, a), p)
    ensures Genuine(Step(w, a), KeyAt(Step(w, a), p), CopyAt(Step(w, a), p).value.1)
  {
    if Newborn(a, p) {
      NewbornsAreGenuine(w, a, p);
    } else {
      CopiesOnlyMove(w, a, p);
      GenuineStays(w, a, KeyAt(Step(w, a), p), CopyAt(Step(w, a), p).value.1);
    }
  }

  lemma GenuineStays(w: World, a: Action, k: Key, c: Copy)
    requires Enabled(w, a) && Genuine(w, k, c)
    ensures Genuine(Step(w, a), k, c)
  {
  }

  lemma NewbornsAreGenuine(w: World, a: Action, p: Place)
    requires Inv(w) && Enabled(w, a) && Holds(Step(w, a), p) && Newborn(a, p)
    ensures Genuine(Step(w, a), KeyAt(Step(w, a), p), CopyAt(Step(w, a), p).value.1)
  {
  }

  lemma TokensStayUnique(w: World, a: Action, p: Place, q: Place)
    requires Inv(w) && Enabled(w, a) && Holds(Step(w, a), p) && Holds(Step(w, a), q)
    requires Token(Step(w, a), p) == Token(Step(w, a), q)
    ensures p == q
  {
    if !Newborn(a, p) { CopiesOnlyMove(w, a, p); }
    if !Newborn(a, q) { CopiesOnlyMove(w, a, q); }
    if !Newborn(a, p) && !Newborn(a, q) {
      assert Token(w, Origin(w, a, p)) == Token(w, Origin(w, a, q));
      CopiesNeverFork(w, a, p, q);
    }
  }

  lemma StampingIsOldOrNew(w: World, a: Action, w': World, op: nat)
    requires Enabled(w, a) && w' == Step(w, a) && op in w'.ops && w'.ops[op].phase.Stamping?
    ensures if op in w.ops then w.ops[op].phase.Stamping? && !(a.Stamp? && a.op == op) else a.BeginSave? && a.op == op
  {
  }

  lemma UnstampedSavesHaveNoRow(w: World, a: Action, w': World, op: nat, p: Place)
    requires Inv(w) && Enabled(w, a) && w' == Step(w, a) && Holds(w', p)
    requires op in w'.ops && w'.ops[op].phase.Stamping?
    ensures Token(w', p) != (op, Table)
  {
    StampingIsOldOrNew(w, a, w', op);
    if Newborn(a, p) {
      NewbornsAreTheirSaves(w, a, w', p);
    } else {
      CopiesOnlyMove(w, a, p);
      assert Genuine(w, KeyAt(w, Origin(w, a, p)), CopyAt(w, Origin(w, a, p)).value.1);
      assert Token(w', p) == Token(w, Origin(w, a, p));
    }
  }

  lemma NewbornsAreTheirSaves(w: World, a: Action, w': World, p: Place)
    requires Enabled(w, a) && w' == Step(w, a) && Newborn(a, p) && Holds(w', p)
    ensures Token(w', p) == (a.op, if a.BeginSave? then Memory else Table)
  {
  }

  lemma ReleasesStayTimely(w: World, a: Action, i: nat)
    requires Inv(w) && Enabled(w, a) && i < |Step(w, a).released|
    ensures Timely(Step(w, a).released[i], Step(w, a).now)
  {
    if i == |w.released| { assert Holds(w, InOp(a.op)); }
  }

  lemma StepKeepsInv(w: World, a: Action)
    requires Inv(w) && Enabled(w, a)
    ensures Inv(Step(w, a))
  {
    AllStayGenuine(w, a, Step(w, a));
    AllStayUnique(w, a, Step(w, a));
    UnstampedStillHaveNoRow(w, a, Step(w, a));
    forall i | 0 <= i < |Step(w, a).released| ensures Timely(Step(w, a).released[i], Step(w, a).now) {
      ReleasesStayTimely(w, a, i);
    }
    StepKeepsBegun(w, a);
  }

  lemma AllStayGenuine(w: World, a: Action, w': World)
    requires Inv(w) && Enabled(w, a) && w' == Step(w, a)
    ensures AllGenuine(w')
  {
    forall p: Place | Holds(w', p) ensures Genuine(w', KeyAt(w', p), CopyAt(w', p).value.1) {
      CopiesStayGenuine(w, a, p);
    }
  }

  lemma AllStayUnique(w: World, a: Action, w': World)
    requires Inv(w) && Enabled(w, a) && w' == Step(w, a)
    ensures AllUnique(w')
  {
    forall p: Place, q: Place | Holds(w', p) && Holds(w', q) && Token(w', p) == Token(w', q) ensures p == q {
      TokensStayUnique(w, a, p, q);
    }
  }

  lemma UnstampedStillHaveNoRow(w: World, a: Action, w': World)
    requires Inv(w) && Enabled(w, a) && w' == Step(w, a)
    ensures UnstampedHaveNoRow(w')
  {
    forall op, p: Place | op in w'.ops && w'.ops[op].phase.Stamping? && Holds(w', p)
      ensures Token(w', p) != (op, Table)
    {
      UnstampedSavesHaveNoRow(w, a, w', op, p);
    }
  }

  lemma StepKeepsBegun(w: World, a: Action)
    requires Begun(w) && Enabled(w, a)
    ensures Begun(Step(w, a))
  {
  }

  lemma {:induction false} ReachableInv(t0: int, actions: seq<Action>)
    ensures match After(t0, actions) case None => true case Some(w) => Inv(w)
    decreases |actions|
  {
    if actions == [] {
    } else {
      var last := |actions| - 1;
      ReachableInv(t0, actions[..last]);
      match After(t0, actions[..last])
      case None =>
      case Some(w) => if Enabled(w, actions[last]) { StepKeepsInv(w, actions[last]); }
    }
  }

  // --- what a take may hand out -----------------------------------------------------------------

  /** Under any failures, any interleaving and any restarts: a plan that is handed out was saved
      under the same key, is handed out whole, and inside the TTL counted from a moment between the
      beginning of its save and now. */
  lemma HandedOutPlansWereSaved(t0: int, actions: seq<Action>, w: World, i: nat)
    requires After(t0, actions) == Some(w) && i < |w.released|
    ensures var r := w.released[i];
      && r.copy.id in w.ops && w.ops[r.copy.id].kind.Saving?
      && w.ops[r.copy.id].key == r.key && w.ops[r.copy.id].kind.calls == r.copy.calls
      && r.copy.expires.Some?
      && var stamped := r.copy.expires.value - PLAN_TTL_S;
         w.ops[r.copy.id].kind.begun <= stamped <= r.at < stamped + PLAN_TTL_S
  {
    ReachableInv(t0, actions);
    assert Holds(w, Out(i));
    assert Timely(w.released[i], w.now);
  }

  /** Each tier hands out a given save at most once, whatever fails. */
  lemma OncePerTier(t0: int, actions: seq<Action>, w: World, i: nat, j: nat)
    requires After(t0, actions) == Some(w) && i < j < |w.released|
    requires w.released[i].copy.id == w.released[j].copy.id
    ensures w.released[i].tier != w.released[j].tier
  {
    ReachableInv(t0, actions);
    assert Holds(w, Out(i)) && Holds(w, Out(j));
    assert Out(i) != Out(j);
  }

  function TimesReleased(released: seq<Release>, id: nat): nat {
    if released == [] then 0
    else (if released[|released| - 1].copy.id == id then 1 else 0) + TimesReleased(released[..|released| - 1], id)
  }

  lemma {:induction false} CountBound(released: seq<Release>, id: nat, tiers: set<Tier>)
    requires forall r :: r in released && r.copy.id == id ==> r.tier in tiers
    requires forall i, j :: 0 <= i < j < |released| && released[i].copy.id == id && released[j].copy.id == id
                            ==> released[i].tier != released[j].tier
    ensures TimesReleased(released, id) <= |tiers|
    decreases |released|
  {
    if released == [] {
    } else {
      var n := |released| - 1;
      var front := released[..n];
      if released[n].copy.id == id {
        forall r | r in front && r.copy.id == id ensures r.tier in tiers - {released[n].tier} {
          var i :| 0 <= i < n && front[i] == r;
          assert released[i].tier != released[n].tier;
        }
        CountBound(front, id, tiers - {released[n].tier});
        assert released[n] in released;
        assert |tiers - {released[n].tier}| == |tiers| - 1;
      } else {
        CountBound(front, id, tiers);
      }
    }
  }

  /** So a save is released at most twice. */
  lemma AtMostTwice(t0: int, actions: seq<Action>, w: World, id: nat)
    requires After(t0, actions) == Some(w)
    ensures TimesReleased(w.released, id) <= 2
  {
    forall i, j | 0 <= i < j < |w.released| && w.released[i].copy.id == id && w.released[j].copy.id == id
      ensures w.released[i].tier != w.released[j].tier
    {
      OncePerTier(t0, actions, w, i, j);
    }
    forall r | r in w.released && r.copy.id == id ensures r.tier in {Memory, Table} {
      assert r.tier == Memory || r.tier == Table;
    }
    CountBound(w.released, id, {Memory, Table});
  }

  /** The table answers every request. */
  predicate AlwaysReachable(actions: seq<Action>) {
    forall i :: 0 <= i < |actions| ==> Reaches(actions[i])
  }

  predicate OnlyTable(w: World) {
    && w.wire == map[]
    && (forall op :: op in w.ops ==> !w.ops[op].phase.FallingBack?)
    && (forall op :: op in w.ops && (w.ops[op].phase.Checking? || w.ops[op].phase.Returned?) ==>
          w.ops[op].phase.tier == Table)
    && (forall i :: 0 <= i < |w.released| ==> w.released[i].tier == Table)
  }

  predicate Reaches(a: Action) { a.Post? || a.Delete? ==> a.answered }

  lemma StepKeepsOnlyTable(w: World, a: Action)
    requires OnlyTable(w) && Enabled(w, a) && Reaches(a)
    ensures OnlyTable(Step(w, a))
  {
  }

  lemma {:induction false} ReachableMeansOnlyTable(t0: int, actions: seq<Action>)
    requires AlwaysReachable(actions)
    ensures match After(t0, actions) case None => true case Some(w) => OnlyTable(w)
    decreases |actions|
  {
    if actions == [] {
    } else {
      var last := |actions| - 1;
      ReachableMeansOnlyTable(t0, actions[..last]);
      match After(t0, actions[..last])
      case None =>
      case Some(w) => if Enabled(w, actions[last]) { StepKeepsOnlyTable(w, actions[last]); }
    }
  }

  // --- one slot per key -------------------------------------------------------------------------

  /** The imagined store after these effects. */
  function SlotsAfter(effects: seq<Effect>): Slots
    decreases |effects|
  {
    if effects == [] then map[]
    else
      var last := effects[|effects| - 1];
      var before := SlotsAfter(effects[..|effects| - 1]);
      if last.Stored? then SlotSave(before, last.key, last.row) else SlotDrop(before, last.key)
  }

  /** Every pop got exactly what the imagined store held. */
  predicate Sequential(effects: seq<Effect>) {
    forall i :: 0 <= i < |effects| && effects[i].Popped? ==>
      effects[i].got == Lookup(SlotsAfter(effects[..i]), effects[i].key)
  }

  /** Each operation that got past its table step has one effect, which fixes what it answers. */
  ghost predicate Linear(w: World) {
    && w.rows == SlotsAfter(w.effects) && Sequential(w.effects)
    && OneEffectEach(w)
    && (forall e :: e in w.effects ==> Effected(w, e))
    && (forall op :: op in w.ops ==> Accounted(w, op))
  }

  predicate Effected(w: World, e: Effect) {
    e.op in w.ops && w.ops[e.op].key == e.key
    && !w.ops[e.op].phase.Stamping? && !w.ops[e.op].phase.Posting? && !w.ops[e.op].phase.Deleting?
    && (e.Stored? <==> w.ops[e.op].kind.Saving?)
    && (e.Stored? ==> RowOf(w.ops[e.op].kind, e.op, e.row))
  }

  /** The row of this save: its calls under its name, stamped after it began. */
  predicate RowOf(kind: Kind, op: nat, row: Copy)
    requires kind.Saving?
  {
    row.id == op && row.calls == kind.calls && row.expires.Some? && kind.begun + PLAN_TTL_S <= row.expires.value
  }

  ghost predicate Accounted(w: World, op: nat)
    requires op in w.ops
  {
    match w.ops[op].phase
    case Stamping => w.ops[op].kind.Saving? ==> w.ops[op].kind.begun <= w.now
    case Posting(row) => w.ops[op].kind.Saving? && RowOf(w.ops[op].kind, op, row)
    case Emptying(got) => Popped(op, w.ops[op].key, got) in w.effects
    case Checking(got, t) => t == Table && Popped(op, w.ops[op].key, got) in w.effects
    case Returned(got, t, at) => t == Table && Popped(op, w.ops[op].key, got) in w.effects && at <= w.now
    case Finished => exists e :: e in w.effects && e.op == op && (e.Stored? <==> w.ops[op].kind.Saving?)
    case _ => true
  }

  lemma AppendEffect(effects: seq<Effect>, e: Effect)
    requires Sequential(effects)
    requires e.Popped? ==> e.got == Lookup(SlotsAfter(effects), e.key)
    ensures Sequential(effects + [e])
    ensures SlotsAfter(effects + [e]) ==
            if e.Stored? then SlotSave(SlotsAfter(effects), e.key, e.row) else SlotDrop(SlotsAfter(effects), e.key)
  {
    var all := effects + [e];
    assert all[..|effects|] == effects;
    forall i | 0 <= i < |all| && all[i].Popped? ensures all[i].got == Lookup(SlotsAfter(all[..i]), all[i].key) {
      if i < |effects| { assert all[..i] == effects[..i]; }
    }
  }

  lemma RestartKeepsAnswers(w: World, a: Action, op: nat)
    requires a.Restart? && op in w.ops && Accounted(w, op)
    ensures Accounted(Step(w, a), op)
  {
  }

  lemma OtherStepKeepsAnswers(w: World, a: Action, op: nat)
    requires Enabled(w, a) && !Sends(a) && !a.Restart? && op in w.ops && Accounted(w, op)
    requires a.Tick? || a.BeginSave? || a.BeginTake? || a.BeginClear? || a.Deliver? || op != a.op
    ensures Accounted(Step(w, a), op)
  {
  }

  lemma OwnStepKeepsAnswers(w: World, a: Action)
    requires OnlyTable(w) && Enabled(w, a) && Local(a) && Accounted(w, a.op)
    ensures Accounted(Step(w, a), a.op)
  {
  }

  lemma LocalStepKeepsAnswers(w: World, a: Action, op: nat)
    requires Linear(w) && OnlyTable(w) && Enabled(w, a) && !Sends(a) && op in Step(w, a).ops
    ensures Accounted(Step(w, a), op)
  {
    if op in w.ops {
      assert Accounted(w, op);
      if a.Restart? {
        RestartKeepsAnswers(w, a, op);
      } else if (a.Stamp? || a.EmptyMemory? || a.FallBack? || a.Check?) && op == a.op {
        OwnStepKeepsAnswers(w, a);
      } else {
        OtherStepKeepsAnswers(w, a, op);
      }
    }
  }

  lemma LocalStepKeepsEffects(w: World, a: Action, e: Effect)
    requires Enabled(w, a) && !Sends(a) && Effected(w, e)
    ensures Effected(Step(w, a), e)
  {
  }

  lemma SentStepKeepsAnswers(w: World, a: Action, op: nat)
    requires Linear(w) && Enabled(w, a) && Sends(a) && Reaches(a) && op in w.ops
    ensures Accounted(Step(w, a), op)
  {
    assert Accounted(w, op);
    var w' := Step(w, a);
    assert w'.effects[|w.effects|] in w'.effects;
    if op != a.op && w.ops[op].phase.Finished? {
      var e :| e in w.effects && e.op == op && (e.Stored? <==> w.ops[op].kind.Saving?);
      assert e in w'.effects;
    }
  }

  lemma SentStepKeepsSequence(w: World, a: Action)
    requires Linear(w) && Enabled(w, a) && Sends(a) && Reaches(a)
    ensures var w' := Step(w, a);
      && w'.rows == SlotsAfter(w'.effects) && Sequential(w'.effects)
      && |w'.effects| == |w.effects| + 1 && w'.effects == w.effects + [w'.effects[|w.effects|]]
      && w'.effects[|w.effects|].op == a.op && Effected(w', w'.effects[|w.effects|])
  {
    AppendEffect(w.effects, Step(w, a).effects[|w.effects|]);
  }

  lemma SentStepKeepsEffects(w: World, a: Action, e: Effect)
    requires Enabled(w, a) && Sends(a) && Effected(w, e)
    ensures e.op != a.op && Effected(Step(w, a), e)
  {
  }

  ghost predicate OneEffectEach(w: World) {
    forall i, j :: 0 <= i < j < |w.effects| ==> w.effects[i].op != w.effects[j].op
  }

  lemma AssembleLinear(w: World, w': World, last: Effect)
    requires OneEffectEach(w) && w'.effects == w.effects + [last]
    requires w'.rows == SlotsAfter(w'.effects) && Sequential(w'.effects)
    requires Effected(w', last)
    requires forall op :: op in w'.ops ==> Accounted(w', op)
    requires forall e :: e in w.effects ==> e.op != last.op && Effected(w', e)
    ensures Linear(w')
  {
    forall i, j | 0 <= i < j < |w'.effects| ensures w'.effects[i].op != w'.effects[j].op {
      assert w'.effects[i] == w.effects[i] && w.effects[i] in w.effects;
    }
    assert OneEffectEach(w');
    forall e | e in w'.effects ensures Effected(w', e) {
      assert e in w.effects || e == last;
    }
  }

  lemma SentStepKeepsLinear(w: World, a: Action)
    requires Linear(w) && Enabled(w, a) && Sends(a) && Reaches(a)
    ensures Linear(Step(w, a))
  {
    forall op | op in Step(w, a).ops ensures Accounted(Step(w, a), op) { SentStepKeepsAnswers(w, a, op); }
    forall e | e in w.effects ensures e.op != a.op && Effected(Step(w, a), e) { SentStepKeepsEffects(w, a, e); }
    SentStepKeepsSequence(w, a);
    AssembleLinear(w, Step(w, a), Step(w, a).effects[|w.effects|]);
  }

  lemma LocalStepKeepsLinear(w: World, a: Action)
    requires Linear(w) && OnlyTable(w) && Enabled(w, a) && !Sends(a)
    ensures Linear(Step(w, a))
  {
    forall op | op in Step(w, a).ops ensures Accounted(Step(w, a), op) { LocalStepKeepsAnswers(w, a, op); }
    forall e | e in w.effects ensures Effected(Step(w, a), e) { LocalStepKeepsEffects(w, a, e); }
    assert Step(w, a).effects == w.effects && Step(w, a).rows == w.rows;
  }

  lemma {:induction false} ReachableLinear(t0: int, actions: seq<Action>)
    requires AlwaysReachable(actions)
    ensures match After(t0, actions) case None => true case Some(w) => Linear(w)
    decreases |actions|
  {
    if actions == [] {
    } else {
      var last := |actions| - 1;
      ReachableLinear(t0, actions[..last]);
      ReachableMeansOnlyTable(t0, actions[..last]);
      match After(t0, actions[..last])
      case None =>
      case Some(w) =>
        if Enabled(w, actions[last]) {
          if Sends(actions[last]) { SentStepKeepsLinear(w, actions[last]); }
          else { LocalStepKeepsLinear(w, actions[last]); }
        }
    }
  }

  lemma StepAppendsEffects(w: World, a: Action)
    requires Enabled(w, a)
    ensures w.effects <= Step(w, a).effects
  {
  }

  /** Effects are only ever appended, so an operation that ended before another began also takes
      effect before it. */
  lemma {:induction false} EffectsOnlyGrow(t0: int, actions: seq<Action>, m: nat, v: World, w: World)
    requires m <= |actions| && After(t0, actions[..m]) == Some(v) && After(t0, actions) == Some(w)
    ensures v.effects <= w.effects
    decreases |actions|
  {
    if m == |actions| {
      assert actions[..m] == actions;
    } else {
      var last := |actions| - 1;
      assert actions[..last][..m] == actions[..m];
      var u := After(t0, actions[..last]).value;
      EffectsOnlyGrow(t0, actions[..last], m, v, u);
      StepAppendsEffects(u, actions[last]);
    }
  }

  /** The one effect of an operation that has ended. */
  ghost predicate EffectAt(w: World, op: nat, i: int) {
    && 0 <= i < |w.effects| && w.effects[i].op == op
    && forall j :: 0 <= j < |w.effects| && w.effects[j].op == op ==> j == i
  }

  lemma EffectOf(w: World, op: nat) returns (i: nat)
    requires Linear(w) && op in w.ops && Done(w.ops[op].phase)
    ensures EffectAt(w, op, i) && Effected(w, w.effects[i])
  {
    assert Accounted(w, op);
    if w.ops[op].phase.Returned? {
      var e := Popped(op, w.ops[op].key, w.ops[op].phase.found);
      i :| 0 <= i < |w.effects| && w.effects[i] == e;
    } else {
      var e :| e in w.effects && e.op == op && (e.Stored? <==> w.ops[op].kind.Saving?);
      i :| 0 <= i < |w.effects| && w.effects[i] == e;
    }
    assert w.effects[i] in w.effects;
  }

  lemma OldEffectsAreOfOldOperations(v: World, i: nat)
    requires Linear(v) && i < |v.effects|
    ensures v.effects[i].op in v.ops
  {
    assert v.effects[i] in v.effects;
    assert Effected(v, v.effects[i]);
  }

  /** Real-time order: an operation that had ended before another began takes effect before it. */
  lemma EndedFirstTakesEffectFirst(t0: int, actions: seq<Action>, m: nat, v: World, w: World, a: nat, b: nat)
    returns (i: nat, j: nat)
    requires AlwaysReachable(actions) && m <= |actions|
    requires After(t0, actions[..m]) == Some(v) && After(t0, actions) == Some(w)
    requires a in v.ops && Done(v.ops[a].phase) && b !in v.ops
    requires b in w.ops && Done(w.ops[b].phase)
    ensures i < j && EffectAt(w, a, i) && EffectAt(w, b, j)
  {
    ReachableLinear(t0, actions[..m]);
    ReachableLinear(t0, actions);
    EffectsOnlyGrow(t0, actions, m, v, w);
    i := EffectOf(v, a);
    j := EffectOf(w, b);
    if j < |v.effects| { OldEffectsAreOfOldOperations(v, j); }
    assert w.effects[i] == v.effects[i];
  }

  /** A save that has ended put exactly its own row - its calls, under its own name, stamped after it
      began - into the imagined store, and once. */
  lemma SavesTakeEffectOnce(t0: int, actions: seq<Action>, w: World, op: nat) returns (i: nat)
    requires AlwaysReachable(actions) && After(t0, actions) == Some(w)
    requires op in w.ops && w.ops[op].phase.Finished? && w.ops[op].kind.Saving?
    ensures EffectAt(w, op, i)
    ensures var e := w.effects[i]; e.Stored? && e.key == w.ops[op].key && RowOf(w.ops[op].kind, op, e.row)
    ensures SlotsAfter(w.effects[..i + 1]) == SlotSave(SlotsAfter(w.effects[..i]), w.ops[op].key, w.effects[i].row)
  {
    ReachableLinear(t0, actions);
    i := EffectOf(w, op);
    assert w.effects[..i + 1][..i] == w.effects[..i];
  }

  /** A clear that has ended emptied its key's slot of the imagined store, and once. */
  lemma ClearsTakeEffectOnce(t0: int, actions: seq<Action>, w: World, op: nat) returns (i: nat)
    requires AlwaysReachable(actions) && After(t0, actions) == Some(w)
    requires op in w.ops && w.ops[op].phase.Finished? && w.ops[op].kind.Clearing?
    ensures EffectAt(w, op, i)
    ensures SlotsAfter(w.effects[..i + 1]) == SlotDrop(SlotsAfter(w.effects[..i]), w.ops[op].key)
  {
    ReachableLinear(t0, actions);
    i := EffectOf(w, op);
    assert w.effects[..i + 1][..i] == w.effects[..i];
  }

  /** Linearisation: with the table always reachable, the table steps in their order are a run of
      one TTL slot per key, each operation has at most one of them, and a take answers with exactly
      what that slot held at its step, judged against the clock when it returns. Process memory
      never decides anything. */
  lemma OneSlotPerKey(t0: int, actions: seq<Action>, w: World, op: nat)
    requires AlwaysReachable(actions) && After(t0, actions) == Some(w)
    requires op in w.ops && w.ops[op].phase.Returned?
    ensures Sequential(w.effects) && w.rows == SlotsAfter(w.effects)
    ensures exists i :: 0 <= i < |w.effects|
              && w.effects[i] == Popped(op, w.ops[op].key, Lookup(SlotsAfter(w.effects[..i]), w.ops[op].key))
              && w.ops[op].phase.found == w.effects[i].got && w.ops[op].phase.tier == Table
              && forall j :: 0 <= j < |w.effects| && w.effects[j].op == op ==> j == i
  {
    ReachableLinear(t0, actions);
    assert Accounted(w, op);
    var e := Popped(op, w.ops[op].key, w.ops[op].phase.found);
    var i :| 0 <= i < |w.effects| && w.effects[i] == e;
  }

  // --- the methods of PlanStore are these steps taken without interruption ------------------------

  lemma SaveAlone(w: World, op: nat, pid: nat, k: Key, calls: seq<Call>, wait: nat, reply: Reply)
    requires op !in w.ops
    ensures
      var began := Step(Step(w, BeginSave(op, pid, k, calls)), Tick(wait));
      var posted := Step(Step(began, Stamp(op)), Post(op, reply == Answered));
      var done := if reply == Lost then Step(posted, Deliver(op)) else posted;
      && done.memory == w.memory[(pid, k) := Copy(op, calls, Some(w.now + PLAN_TTL_S))]
      && done.rows == if reply == Refused then w.rows
                      else SlotSave(w.rows, k, Copy(op, calls, Some(w.now + wait + PLAN_TTL_S)))
  {
  }

  lemma AnsweredTakeAlone(w: World, op: nat, pid: nat, k: Key)
    requires op !in w.ops
    ensures
      var sent := Step(Step(w, BeginTake(op, pid, k)), Delete(op, true));
      var done := Step(Step(sent, EmptyMemory(op)), Check(op));
      && done.memory == Pop(w.memory, pid, k) && done.rows == SlotDrop(w.rows, k)
      && done.ops[op].phase == Returned(Lookup(w.rows, k), Table, w.now)
  {
  }

  /** A take whose DELETE has raised, with or without having been carried out. */
  function Unanswered(w: World, op: nat, pid: nat, k: Key, delivered: bool): World
    requires op !in w.ops
  {
    var sent := Step(Step(w, BeginTake(op, pid, k)), Delete(op, false));
    if delivered then Step(sent, Deliver(op)) else sent
  }

  lemma UnansweredLeaves(w: World, op: nat, pid: nat, k: Key, delivered: bool)
    requires op !in w.ops
    ensures var u := Unanswered(w, op, pid, k, delivered);
      && u.now == w.now && u.memory == w.memory && u.rows == (if delivered then SlotDrop(w.rows, k) else w.rows)
      && op in u.ops && u.ops[op] == Op(pid, k, Taking, FallingBack)
  {
  }

  lemma FallBackAlone(u: World, op: nat)
    requires op in u.ops && u.ops[op].phase.FallingBack?
    ensures var at := (u.ops[op].pid, u.ops[op].key); var done := Step(Step(u, FallBack(op)), Check(op));
      && done.memory == Pop(u.memory, at.0, at.1) && done.rows == u.rows
      && done.ops[op].phase == Returned(if at in u.memory then Some(u.memory[at]) else None, Memory, u.now)
  {
  }

  lemma UnansweredTakeAlone(w: World, op: nat, pid: nat, k: Key, delivered: bool)
    requires op !in w.ops
    ensures
      var unanswered := Unanswered(w, op, pid, k, delivered);
      && op in unanswered.ops && unanswered.ops[op] == Op(pid, k, Taking, FallingBack)
      && var done := Step(Step(unanswered, FallBack(op)), Check(op));
      && done.memory == Pop(w.memory, pid, k)
      && done.rows == (if delivered then SlotDrop(w.rows, k) else w.rows)
      && done.ops[op].phase == Returned(if (pid, k) in w.memory then Some(w.memory[(pid, k)]) else None, Memory, w.now)
  {
    UnansweredLeaves(w, op, pid, k, delivered);
    FallBackAlone(Unanswered(w, op, pid, k, delivered), op);
  }

  // --- the two-release bound is met -------------------------------------------------------------

  lemma Then(t0: int, xs: seq<Action>, w: World, a: Action) returns (r: (seq<Action>, World))
    requires After(t0, xs) == Some(w) && Enabled(w, a)
    ensures r == (xs + [a], Step(w, a)) && After(t0, r.0) == Some(r.1)
  {
    r := (xs + [a], Step(w, a));
    assert r.0[..|xs|] == xs;
  }

  lemma PlanIsStored(t0: int, k: Key, calls: seq<Call>) returns (r: (seq<Action>, World))
    ensures r.0 == [BeginSave(0, 0, k, calls), Stamp(0), Post(0, true)] && After(t0, r.0) == Some(r.1)
    ensures var c := Copy(0, calls, Some(t0 + PLAN_TTL_S));
      r.1 == World(t0, map[k := c], map[(0, k) := c], map[0 := Op(0, k, Saving(calls, t0), Finished)], map[], [],
                   [Stored(0, k, c)])
  {
    r := Then(t0, [], Start(t0), BeginSave(0, 0, k, calls));
    r := Then(t0, r.0, r.1, Stamp(0));
    r := Then(t0, r.0, r.1, Post(0, true));
  }

  lemma TheTakeIsMissed(t0: int, k: Key, calls: seq<Call>) returns (r: (seq<Action>, World))
    ensures After(t0, r.0) == Some(r.1) && r.1.now == t0 && r.1.released == []
    ensures var c := Copy(0, calls, Some(t0 + PLAN_TTL_S));
      && r.1.rows == map[k := c] && r.1.memory == map[(0, k) := c]
      && r.1.ops.Keys == {0, 1} && r.1.ops[1] == Op(0, k, Taking, FallingBack)
  {
    r := PlanIsStored(t0, k, calls);
    r := Then(t0, r.0, r.1, BeginTake(1, 0, k));
    r := Then(t0, r.0, r.1, Delete(1, false));
  }

  lemma MemoryAnswersThePlan(t0: int, k: Key, calls: seq<Call>) returns (r: (seq<Action>, World))
    requires PLAN_TTL_S > 0
    ensures After(t0, r.0) == Some(r.1) && r.1.now == t0
    ensures var c := Copy(0, calls, Some(t0 + PLAN_TTL_S));
      r.1.rows == map[k := c] && r.1.released == [Release(1, k, c, Memory, t0)] && r.1.ops.Keys == {0, 1}
  {
    r := TheTakeIsMissed(t0, k, calls);
    r := Then(t0, r.0, r.1, FallBack(1));
    r := Then(t0, r.0, r.1, Check(1));
  }

  /** A save whose row is stored, a take whose DELETE goes unanswered (memory answers), then a
      second take: the same plan is released twice. */
  lemma TwoReleasesHappen(t0: int, k: Key, calls: seq<Call>)
    requires calls != [] && PLAN_TTL_S > 0
    ensures exists actions, w :: After(t0, actions) == Some(w) && TimesReleased(w.released, 0) == 2
  {
    var c := Copy(0, calls, Some(t0 + PLAN_TTL_S));
    var r := MemoryAnswersThePlan(t0, k, calls);
    r := Then(t0, r.0, r.1, BeginTake(2, 0, k));
    r := Then(t0, r.0, r.1, Delete(2, true));
    r := Then(t0, r.0, r.1, EmptyMemory(2));
    r := Then(t0, r.0, r.1, Check(2));
    var out := r.1.released;
    assert out == [Release(1, k, c, Memory, t0), Release(2, k, c, Table, t0)];
    assert out[..1] == [Release(1, k, c, Memory, t0)];
    assert TimesReleased(out[..1], 0) == 1;
  }
}
