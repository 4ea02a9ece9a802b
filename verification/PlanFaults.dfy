/**
 * Which faults of the shared table cost a plan its single use (services/pending_plans.py): exactly
 * those under which a row can reach the table, a take can be answered, and a take can also go
 * unanswered.
 */
module PlanFaults {
  import opened Calls
  import opened PendingPlans
  import opened PlanRaces

  /** What may happen to the requests; whatever is not named here is left open. A save's POST may be
      answered, or may go unanswered and be carried out later; a take's DELETE may be answered, or not. */
  datatype Faults = Faults(postAnswered: bool, postLate: bool, takeAnswered: bool, takeMissed: bool)

  predicate IsTake(w: World, op: nat) { op in w.ops && w.ops[op].kind.Taking? }

  predicate Allowed(f: Faults, w: World, a: Action) {
    && (a.Post? && a.answered ==> f.postAnswered)
    && (a.Deliver? && a.op in w.wire && w.wire[a.op].Upsert? ==> f.postLate)
    && (a.Delete? && IsTake(w, a.op) ==> if a.answered then f.takeAnswered else f.takeMissed)
  }

  /** `After`, along schedules in which nothing else happens to the requests. */
  function AfterUnder(f: Faults, t0: int, actions: seq<Action>): Option<World>
    decreases |actions|
  {
    if actions == [] then Some(Start(t0))
    else
      var last := |actions| - 1;
      match AfterUnder(f, t0, actions[..last])
      case None => None
      case Some(w) =>
        if Enabled(w, actions[last]) && Allowed(f, w, actions[last]) then Some(Step(w, actions[last])) else None
  }

  lemma {:induction false} UnderIsAfter(f: Faults, t0: int, actions: seq<Action>, w: World)
    requires AfterUnder(f, t0, actions) == Some(w)
    ensures After(t0, actions) == Some(w)
    decreases |actions|
  {
    if actions != [] {
      var last := |actions| - 1;
      UnderIsAfter(f, t0, actions[..last], AfterUnder(f, t0, actions[..last]).value);
    }
  }

  // --- each fault missing leaves one tier -----------------------------------------------------------

  /** No take has fallen back to memory. */
  predicate TakesUseTable(w: World) {
    (forall op :: op in w.ops ==> UsesTable(w.ops[op])) && ReleasedFrom(w, Table)
  }

  /** No take has been answered. */
  predicate TakesUseMemory(w: World) {
    (forall op :: op in w.ops ==> UsesMemory(w.ops[op])) && ReleasedFrom(w, Memory)
  }

  /** Nothing is in the table, and takes it answered found nothing. */
  predicate TableIsEmpty(w: World) {
    w.rows == map[] && (forall op :: op in w.ops ==> FoundNothing(w.ops[op])) && ReleasedFrom(w, Memory)
  }

  predicate ReleasedFrom(w: World, tier: Tier) { forall i :: 0 <= i < |w.released| ==> w.released[i].tier == tier }

  predicate UsesTable(op: Op) {
    && !op.phase.FallingBack? && (op.phase.Checking? ==> op.phase.tier == Table)
    && (op.phase.Deleting? ==> !op.kind.Saving?)
  }

  predicate UsesMemory(op: Op) {
    !op.phase.Emptying? && (op.phase.Checking? ==> op.phase.tier == Memory) && (op.phase.Deleting? ==> !op.kind.Saving?)
  }

  predicate FoundNothing(op: Op) {
    && (op.phase.Emptying? ==> op.phase.removed == None)
    && (op.phase.Checking? && op.phase.tier == Table ==> op.phase.found == None)
  }

  lemma OpUsesTable(f: Faults, w: World, a: Action, op: nat)
    requires Enabled(w, a) && Allowed(f, w, a) && !f.takeMissed && op in Step(w, a).ops
    requires op in w.ops ==> UsesTable(w.ops[op])
    ensures UsesTable(Step(w, a).ops[op])
  {
  }

  lemma OpUsesMemory(f: Faults, w: World, a: Action, op: nat)
    requires Enabled(w, a) && Allowed(f, w, a) && !f.takeAnswered && op in Step(w, a).ops
    requires op in w.ops ==> UsesMemory(w.ops[op])
    ensures UsesMemory(Step(w, a).ops[op])
  {
  }

  lemma OpFindsNothing(w: World, a: Action, op: nat)
    requires Enabled(w, a) && w.rows == map[] && op in Step(w, a).ops
    requires op in w.ops ==> FoundNothing(w.ops[op])
    ensures FoundNothing(Step(w, a).ops[op])
  {
  }

  lemma ReleaseIsOfTheCheck(w: World, a: Action, tier: Tier)
    requires Enabled(w, a) && ReleasedFrom(w, tier)
    requires a.Check? ==> w.ops[a.op].phase.tier == tier || w.ops[a.op].phase.found == None
    ensures ReleasedFrom(Step(w, a), tier)
  {
  }

  lemma StepUsesTable(f: Faults, w: World, a: Action)
    requires TakesUseTable(w) && Enabled(w, a) && Allowed(f, w, a) && !f.takeMissed
    ensures TakesUseTable(Step(w, a))
  {
    forall op | op in Step(w, a).ops ensures UsesTable(Step(w, a).ops[op]) { OpUsesTable(f, w, a, op); }
    ReleaseIsOfTheCheck(w, a, Table);
  }

  lemma StepUsesMemory(f: Faults, w: World, a: Action)
    requires TakesUseMemory(w) && Enabled(w, a) && Allowed(f, w, a) && !f.takeAnswered
    ensures TakesUseMemory(Step(w, a))
  {
    forall op | op in Step(w, a).ops ensures UsesMemory(Step(w, a).ops[op]) { OpUsesMemory(f, w, a, op); }
    ReleaseIsOfTheCheck(w, a, Memory);
  }

  lemma StepKeepsTableEmpty(f: Faults, w: World, a: Action)
    requires TableIsEmpty(w) && Enabled(w, a) && Allowed(f, w, a) && !f.postAnswered && !f.postLate
    ensures TableIsEmpty(Step(w, a))
  {
    forall op | op in Step(w, a).ops ensures FoundNothing(Step(w, a).ops[op]) { OpFindsNothing(w, a, op); }
    ReleaseIsOfTheCheck(w, a, Memory);
  }

  /** Every release comes from this tier. */
  function TierOf(f: Faults): Tier { if !f.takeMissed then Table else Memory }

  predicate Safe(f: Faults) { !(f.postAnswered || f.postLate) || !f.takeAnswered || !f.takeMissed }

  predicate SafeInv(f: Faults, w: World) {
    if !f.takeMissed then TakesUseTable(w) else if !f.takeAnswered then TakesUseMemory(w) else TableIsEmpty(w)
  }

  lemma {:induction false} SafeRunsUseOneTier(f: Faults, t0: int, actions: seq<Action>, w: World)
    requires Safe(f) && AfterUnder(f, t0, actions) == Some(w)
    ensures SafeInv(f, w)
    decreases |actions|
  {
    if actions != [] {
      var last := |actions| - 1;
      var before := AfterUnder(f, t0, actions[..last]).value;
      SafeRunsUseOneTier(f, t0, actions[..last], before);
      if !f.takeMissed {
        StepUsesTable(f, before, actions[last]);
      } else if !f.takeAnswered {
        StepUsesMemory(f, before, actions[last]);
      } else {
        StepKeepsTableEmpty(f, before, actions[last]);
      }
    }
  }

  lemma SafeRunsReleaseOnce(f: Faults, t0: int, actions: seq<Action>, w: World, id: nat)
    requires Safe(f) && AfterUnder(f, t0, actions) == Some(w)
    ensures TimesReleased(w.released, id) <= 1
  {
    UnderIsAfter(f, t0, actions, w);
    SafeRunsUseOneTier(f, t0, actions, w);
    forall i, j | 0 <= i < j < |w.released| && w.released[i].copy.id == id && w.released[j].copy.id == id
      ensures w.released[i].tier != w.released[j].tier
    {
      OncePerTier(t0, actions, w, i, j);
    }
    CountBound(w.released, id, {TierOf(f)});
  }

  /** A plan whose time to live is not positive is never released. */
  lemma NoLifeNoRelease(t0: int, actions: seq<Action>, w: World)
    requires After(t0, actions) == Some(w) && PLAN_TTL_S <= 0
    ensures w.released == []
  {
    if w.released != [] {
      HandedOutPlansWereSaved(t0, actions, w, 0);
      assert false;
    }
  }

  // --- and all three together lose it ---------------------------------------------------------------

  lemma ThenUnder(f: Faults, t0: int, xs: seq<Action>, w: World, a: Action) returns (r: (seq<Action>, World))
    requires AfterUnder(f, t0, xs) == Some(w) && Enabled(w, a) && Allowed(f, w, a)
    ensures r == (xs + [a], Step(w, a)) && AfterUnder(f, t0, r.0) == Some(r.1)
  {
    r := (xs + [a], Step(w, a));
    assert r.0[..|xs|] == xs;
  }

  lemma SaveIsSent(f: Faults, t0: int, k: Key, calls: seq<Call>) returns (r: (seq<Action>, World))
    ensures AfterUnder(f, t0, r.0) == Some(r.1)
    ensures var c := Copy(0, calls, Some(t0 + PLAN_TTL_S));
      r.1 == World(t0, map[], map[(0, k) := c], map[0 := Op(0, k, Saving(calls, t0), Posting(c))], map[], [], [])
  {
    r := ThenUnder(f, t0, [], Start(t0), BeginSave(0, 0, k, calls));
    r := ThenUnder(f, t0, r.0, r.1, Stamp(0));
  }

  /** Only operation 0 exists, its plan is in both tiers, and nothing has been released. */
  predicate PlanInBoth(w: World, t0: int, k: Key, c: Copy) {
    w.now == t0 && w.rows == map[k := c] && w.memory == map[(0, k) := c] && w.ops.Keys == {0} && w.released == []
  }

  lemma RowIsPosted(f: Faults, t0: int, k: Key, calls: seq<Call>) returns (r: (seq<Action>, World))
    requires f.postAnswered
    ensures AfterUnder(f, t0, r.0) == Some(r.1) && PlanInBoth(r.1, t0, k, Copy(0, calls, Some(t0 + PLAN_TTL_S)))
  {
    r := SaveIsSent(f, t0, k, calls);
    r := ThenUnder(f, t0, r.0, r.1, Post(0, true));
  }

  lemma RowIsLate(f: Faults, t0: int, k: Key, calls: seq<Call>) returns (r: (seq<Action>, World))
    requires f.postLate
    ensures AfterUnder(f, t0, r.0) == Some(r.1) && PlanInBoth(r.1, t0, k, Copy(0, calls, Some(t0 + PLAN_TTL_S)))
  {
    r := SaveIsSent(f, t0, k, calls);
    r := ThenUnder(f, t0, r.0, r.1, Post(0, false));
    r := ThenUnder(f, t0, r.0, r.1, Deliver(0));
  }

  lemma TakeIsMissed(f: Faults, t0: int, xs: seq<Action>, w: World, k: Key, c: Copy) returns (r: (seq<Action>, World))
    requires AfterUnder(f, t0, xs) == Some(w) && PlanInBoth(w, t0, k, c) && f.takeMissed
    ensures AfterUnder(f, t0, r.0) == Some(r.1)
    ensures r.1.now == t0 && r.1.rows == map[k := c] && r.1.memory == map[(0, k) := c] && r.1.released == []
    ensures r.1.ops.Keys == {0, 1} && r.1.ops[1] == Op(0, k, Taking, FallingBack)
  {
    r := ThenUnder(f, t0, xs, w, BeginTake(1, 0, k));
    r := ThenUnder(f, t0, r.0, r.1, Delete(1, false));
  }

  lemma MissedTakeReleases(f: Faults, t0: int, k: Key, calls: seq<Call>) returns (r: (seq<Action>, World))
    requires (f.postAnswered || f.postLate) && f.takeMissed && PLAN_TTL_S > 0
    ensures AfterUnder(f, t0, r.0) == Some(r.1) && r.1.now == t0
    ensures var c := Copy(0, calls, Some(t0 + PLAN_TTL_S));
      r.1.rows == map[k := c] && r.1.released == [Release(1, k, c, Memory, t0)] && r.1.ops.Keys == {0, 1}
  {
    if f.postAnswered { r := RowIsPosted(f, t0, k, calls); } else { r := RowIsLate(f, t0, k, calls); }
    r := TakeIsMissed(f, t0, r.0, r.1, k, Copy(0, calls, Some(t0 + PLAN_TTL_S)));
    r := ThenUnder(f, t0, r.0, r.1, FallBack(1));
    r := ThenUnder(f, t0, r.0, r.1, Check(1));
  }

  lemma UnsafeRunReleasesTwice(f: Faults, t0: int, k: Key, calls: seq<Call>) returns (actions: seq<Action>, w: World)
    requires !Safe(f) && PLAN_TTL_S > 0 && calls != []
    ensures AfterUnder(f, t0, actions) == Some(w) && TimesReleased(w.released, 0) == 2
  {
    var c := Copy(0, calls, Some(t0 + PLAN_TTL_S));
    var r := MissedTakeReleases(f, t0, k, calls);
    r := ThenUnder(f, t0, r.0, r.1, BeginTake(2, 0, k));
    r := ThenUnder(f, t0, r.0, r.1, Delete(2, true));
    r := ThenUnder(f, t0, r.0, r.1, EmptyMemory(2));
    r := ThenUnder(f, t0, r.0, r.1, Check(2));
    actions, w := r.0, r.1;
    assert w.released == [Release(1, k, c, Memory, t0), Release(2, k, c, Table, t0)];
    assert w.released[..1] == [Release(1, k, c, Memory, t0)];
    assert TimesReleased(w.released[..1], 0) == 1;
  }

  /** The promise of single use, exactly: under a pattern of faults every run of any number of processes
      releases each save at most once if and only if the pattern cannot do all three - bring a row to
      the table, answer a take, and leave a take unanswered - or plans expire as they are made. */
  lemma SingleUseIff(f: Faults, t0: int)
    ensures (forall actions, w, id :: AfterUnder(f, t0, actions) == Some(w) ==> TimesReleased(w.released, id) <= 1)
      <==> Safe(f) || PLAN_TTL_S <= 0
  {
    if Safe(f) {
      forall actions, w, id | AfterUnder(f, t0, actions) == Some(w) ensures TimesReleased(w.released, id) <= 1 {
        SafeRunsReleaseOnce(f, t0, actions, w, id);
      }
    } else if PLAN_TTL_S <= 0 {
      forall actions, w, id: nat | AfterUnder(f, t0, actions) == Some(w) ensures TimesReleased(w.released, id) <= 1 {
        UnderIsAfter(f, t0, actions, w);
        NoLifeNoRelease(t0, actions, w);
      }
    } else {
      var actions, w := UnsafeRunReleasesTwice(f, t0, ("", ""), [Call("", "")]);
      assert AfterUnder(f, t0, actions) == Some(w) && TimesReleased(w.released, 0) > 1;
    }
  }
}
