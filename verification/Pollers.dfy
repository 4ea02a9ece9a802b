/**
 * Health of the fund pollers (services/fund_pollers.py): what the report says about the funds, when
 * every query it is built from returns at most so many rows.
 */
module Pollers {
  import opened Calls
  import opened Picks

  /** The statuses that count as a failed attempt. */
  const FAILURE_STATUSES: set<string>

  const SKIPPED := "skipped"

  datatype Fund = Fund(id: int, ticker: string)

  /** A current accepted snapshot; dates are day numbers, None where there is no readable date. */
  datatype Snapshot = Snapshot(fund: int, asOf: Option<int>)

  // --- the loops ------------------------------------------------------------------------------------

  predicate Skips(status: string) { SKIPPED <= status }

  predicate Ends(status: string) { !Skips(status) && status !in FAILURE_STATUSES }

  /** The attempts, newest first, down to the last one that proved the pipeline works. */
  function SinceProof(statuses: seq<string>): (run: seq<string>)
    ensures run <= statuses && forall i :: 0 <= i < |run| ==> !Ends(run[i])
    ensures |run| < |statuses| ==> Ends(statuses[|run|])
  {
    if statuses == [] || Ends(statuses[0]) then [] else [statuses[0]] + SinceProof(statuses[1..])
  }

  function Failures(statuses: seq<string>): nat {
    if statuses == [] then 0
    else
      var last := statuses[|statuses| - 1];
      Failures(statuses[..|statuses| - 1]) + (if Skips(last) || Ends(last) then 0 else 1)
  }

  /** The streak is the failures since the last proof that the pipeline works. */
  method ConsecutiveFailures(statuses: seq<string>) returns (streak: nat)
    ensures streak == Failures(SinceProof(statuses))
  {
    streak := 0;
    for i := 0 to |statuses|
      invariant streak == Failures(statuses[..i])
      invariant i <= |SinceProof(statuses)|
    {
      assert statuses[..i + 1][..i] == statuses[..i];
      assert statuses[..i] == SinceProof(statuses)[..i];
      if Skips(statuses[i]) {
        continue;
      }
      if statuses[i] in FAILURE_STATUSES {
        streak := streak + 1;
        continue;
      }
      break;
    }
    assert statuses[..|SinceProof(statuses)|] == SinceProof(statuses);
  }

  predicate IsFailure(status: string) { status in FAILURE_STATUSES && !("skipped" <= status) }

  /** A streak counts the failed attempts; skipped ones neither count nor end it. */
  lemma {:induction false} FailuresAreCounted(statuses: seq<string>)
    ensures Failures(statuses) == |Marked(statuses, IsFailure)|
    decreases |statuses|
  {
    if statuses != [] {
      var n := |statuses| - 1;
      FailuresAreCounted(statuses[..n]);
      MarkedInLonger(statuses[..n], statuses[n], IsFailure);
      assert statuses == statuses[..n] + [statuses[n]];
    }
  }

  function Count(rows: seq<int>, fund: int): nat {
    if rows == [] then 0
    else Count(rows[..|rows| - 1], fund) + (if rows[|rows| - 1] == fund then 1 else 0)
  }

  /** The per-fund tally of a query's rows. */
  method CountByFund(rows: seq<int>) returns (counts: map<int, nat>)
    ensures forall f :: (if f in counts then counts[f] else 0) == Count(rows, f)
  {
    counts := map[];
    for i := 0 to |rows|
      invariant forall f :: (if f in counts then counts[f] else 0) == Count(rows[..i], f)
    {
      assert rows[..i + 1][..i] == rows[..i];
      var f := rows[i];
      counts := counts[f := (if f in counts then counts[f] else 0) + 1];
    }
    assert rows[..|rows|] == rows;
  }

  /** The first readable date of a fund. */
  function FirstDated(rows: seq<Snapshot>, fund: int): Option<int> {
    if rows == [] then None
    else if rows[0].fund == fund && rows[0].asOf.Some? then rows[0].asOf
    else FirstDated(rows[1..], fund)
  }

  function Found(latest: map<int, int>, fund: int): Option<int> { if fund in latest then Some(latest[fund]) else None }

  function Either(a: Option<int>, b: Option<int>): Option<int> { if a.Some? then a else b }

  method LatestAsOf(rows: seq<Snapshot>) returns (latest: map<int, int>)
    ensures forall f :: Found(latest, f) == FirstDated(rows, f)
  {
    latest := map[];
    for i := 0 to |rows|
      invariant forall f :: FirstDated(rows, f) == Either(Found(latest, f), FirstDated(rows[i..], f))
    {
      assert rows[i..][1..] == rows[i + 1..];
      var row := rows[i];
      if row.asOf.Some? && row.fund !in latest {
        latest := latest[row.fund := row.asOf.value];
      }
    }
  }

  // --- the report -----------------------------------------------------------------------------------

  /** What the queries returned. */
  datatype Queried = Queried(funds: seq<Fund>, snapshots: seq<Snapshot>, unresolved: seq<int>, reviews: seq<int>,
                             recent: int -> seq<string>)

  datatype Entry = Entry(
    ticker: string, asOf: Option<int>, stale: bool, streak: nat, unresolved: nat, review: nat, healthy: bool)

  datatype Report = Report(entries: seq<Entry>, fundsHealthy: nat, fundsStale: nat, unresolved: nat, reviews: nat,
                           maxStreak: nat, staleData: bool, healthy: bool)

  predicate Stale(asOf: Option<int>, today: int, staleAfter: int) { asOf.None? || today - asOf.value > staleAfter }

  function EntryOf(q: Queried, fund: Fund, today: int, staleAfter: int): Entry {
    var asOf := FirstDated(q.snapshots, fund.id);
    var stale := Stale(asOf, today, staleAfter);
    var unresolved := Count(q.unresolved, fund.id);
    Entry(fund.ticker, asOf, stale, Failures(SinceProof(q.recent(fund.id))), unresolved, Count(q.reviews, fund.id),
          !stale && unresolved == 0)
  }

  function Entries(q: Queried, funds: seq<Fund>, today: int, staleAfter: int): (es: seq<Entry>)
    ensures |es| == |funds| && forall i :: 0 <= i < |funds| ==> es[i] == EntryOf(q, funds[i], today, staleAfter)
  {
    seq(|funds|, i requires 0 <= i < |funds| => EntryOf(q, funds[i], today, staleAfter))
  }

  function HealthyOnes(es: seq<Entry>): nat {
    if es == [] then 0 else HealthyOnes(es[..|es| - 1]) + if es[|es| - 1].healthy then 1 else 0
  }

  function StaleOnes(es: seq<Entry>): nat {
    if es == [] then 0 else StaleOnes(es[..|es| - 1]) + if es[|es| - 1].stale then 1 else 0
  }

  function UnresolvedSum(es: seq<Entry>): nat {
    if es == [] then 0 else UnresolvedSum(es[..|es| - 1]) + es[|es| - 1].unresolved
  }

  function ReviewSum(es: seq<Entry>): nat {
    if es == [] then 0 else ReviewSum(es[..|es| - 1]) + es[|es| - 1].review
  }

  /** `max(..., default=0)` */
  function MaxStreak(es: seq<Entry>): nat {
    if es == [] then 0
    else if es[|es| - 1].streak > MaxStreak(es[..|es| - 1]) then es[|es| - 1].streak
    else MaxStreak(es[..|es| - 1])
  }

  /** The roll-up of the entries; with no matched fund there is nothing that proved healthy. */
  function RollUp(es: seq<Entry>): Report {
    Report(es, HealthyOnes(es), StaleOnes(es), UnresolvedSum(es), ReviewSum(es), MaxStreak(es),
           exists i :: 0 <= i < |es| && es[i].stale, es != [] && forall i :: 0 <= i < |es| ==> es[i].healthy)
  }

  lemma {:induction false} CountsOfEntries(es: seq<Entry>)
    ensures HealthyOnes(es) <= |es| && (HealthyOnes(es) == |es| <==> forall i :: 0 <= i < |es| ==> es[i].healthy)
    ensures StaleOnes(es) > 0 <==> exists i :: 0 <= i < |es| && es[i].stale
    ensures forall i :: 0 <= i < |es| ==> es[i].streak <= MaxStreak(es)
    ensures es != [] ==> exists i :: 0 <= i < |es| && es[i].streak == MaxStreak(es)
  {
    if es != [] {
      var n := |es| - 1;
      CountsOfEntries(es[..n]);
      assert forall i :: 0 <= i < n ==> es[..n][i] == es[i];
      if es[n].streak > MaxStreak(es[..n]) || n == 0 {
        assert es[n].streak == MaxStreak(es);
      } else {
        var i :| 0 <= i < n && es[..n][i].streak == MaxStreak(es[..n]);
        assert es[i].streak == MaxStreak(es);
      }
      if StaleOnes(es[..n]) > 0 {
        var i :| 0 <= i < n && es[..n][i].stale;
        assert es[i].stale;
      }
      if i :| 0 <= i < |es| && es[i].stale {
        if i < n { assert es[..n][i].stale; }
      }
    }
  }

  predicate IsHealthy(e: Entry) { e.healthy }

  predicate IsStale(e: Entry) { e.stale }

  /** The two counts of funds are just that. */
  lemma {:induction false} FundsAreCounted(es: seq<Entry>)
    ensures RollUp(es).fundsHealthy == |Marked(es, IsHealthy)| && RollUp(es).fundsStale == |Marked(es, IsStale)|
    decreases |es|
  {
    if es != [] {
      var n := |es| - 1;
      FundsAreCounted(es[..n]);
      MarkedInLonger(es[..n], es[n], IsHealthy);
      MarkedInLonger(es[..n], es[n], IsStale);
      assert es == es[..n] + [es[n]];
    }
  }

  /** The report's numbers agree: healthy when all its funds are, stale when one is, and the streak is
      the worst of the funds'. */
  lemma ReportAgrees(es: seq<Entry>)
    requires forall i :: 0 <= i < |es| ==> es[i].healthy == (!es[i].stale && es[i].unresolved == 0)
    ensures var r := RollUp(es);
      && (r.healthy <==> es != [] && r.fundsHealthy == |es|) && (r.staleData <==> r.fundsStale > 0)
      && (r.healthy ==> !r.staleData)
      && (forall i :: 0 <= i < |es| ==> es[i].streak <= r.maxStreak)
      && (es != [] ==> exists i :: 0 <= i < |es| && es[i].streak == r.maxStreak)
  {
    CountsOfEntries(es);
  }

  method PollerReport(q: Queried, today: int, staleAfter: int) returns (r: Report)
    ensures r == RollUp(Entries(q, q.funds, today, staleAfter))
  {
    var latest := LatestAsOf(q.snapshots);
    var unresolved := CountByFund(q.unresolved);
    var review := CountByFund(q.reviews);
    var entries: seq<Entry> := [];
    for i := 0 to |q.funds|
      invariant entries == Entries(q, q.funds[..i], today, staleAfter)
    {
      var fund := q.funds[i];
      var streak := ConsecutiveFailures(q.recent(fund.id));
      var asOf := if fund.id in latest then Some(latest[fund.id]) else None;
      assert asOf == Found(latest, fund.id);
      var stale := asOf.None? || today - asOf.value > staleAfter;
      var unresolvedCount := if fund.id in unresolved then unresolved[fund.id] else 0;
      var reviewCount := if fund.id in review then review[fund.id] else 0;
      var healthy := !stale && unresolvedCount == 0;
      entries := entries + [Entry(fund.ticker, asOf, stale, streak, unresolvedCount, reviewCount, healthy)];
    }
    assert q.funds[..|q.funds|] == q.funds;
    r := RollUp(entries);
  }

  // --- the tables behind the queries ----------------------------------------------------------------

  /** All rows that match, without limits: snapshots by date, newest first; failures and reviews in no
      promised order; every fund's attempts, newest first. */
  datatype Database = Database(
    snapshots: seq<Snapshot>, unresolved: seq<int>, reviews: seq<int>, attempts: int -> seq<string>)

  datatype Limits = Limits(snapshots: nat, unresolved: nat, reviews: nat, recent: nat)

  predicate NewestFirst(rows: seq<Snapshot>) {
    forall i, j :: 0 <= i < j < |rows| && rows[i].asOf.Some? && rows[j].asOf.Some? ==>
      rows[i].asOf.value >= rows[j].asOf.value
  }

  function First<T>(rows: seq<T>, n: nat): (r: seq<T>)
    ensures r <= rows
  {
    if n < |rows| then rows[..n] else rows
  }

  /** Some `limit` of the rows, or all of them. */
  predicate SomeOf(rows: seq<int>, all: seq<int>, limit: nat) {
    multiset(rows) <= multiset(all) && |rows| == if limit < |all| then limit else |all|
  }

  ghost predicate Answers(q: Queried, db: Database, limits: Limits) {
    && NewestFirst(db.snapshots)
    && q.snapshots == First(db.snapshots, limits.snapshots)
    && SomeOf(q.unresolved, db.unresolved, limits.unresolved)
    && SomeOf(q.reviews, db.reviews, limits.reviews)
    && (forall f :: q.recent(f) == First(db.attempts(f), limits.recent))
    && (forall i, j :: 0 <= i < j < |q.funds| ==> q.funds[i].id != q.funds[j].id)
    && (forall i :: 0 <= i < |db.unresolved| ==> Matched(q.funds, db.unresolved[i]))
  }

  predicate Matched(funds: seq<Fund>, id: int) { exists j :: 0 <= j < |funds| && funds[j].id == id }

  predicate Dated(rows: seq<Snapshot>, fund: int, d: int) { Snapshot(fund, Some(d)) in rows }

  /** `d` is the newest date of the fund among all rows. */
  ghost predicate IsLatest(rows: seq<Snapshot>, fund: int, d: int) {
    Dated(rows, fund, d) && forall e :: Dated(rows, fund, e) ==> e <= d
  }

  lemma {:induction false} FirstDatedIs(rows: seq<Snapshot>, fund: int)
    ensures match FirstDated(rows, fund)
      case None => forall e :: !Dated(rows, fund, e)
      case Some(d) => Dated(rows, fund, d)
  {
    if rows != [] {
      FirstDatedIs(rows[1..], fund);
      assert rows == [rows[0]] + rows[1..];
      if FirstDated(rows, fund).None? {
        forall e ensures !Dated(rows, fund, e) { assert !Dated(rows[1..], fund, e); }
      }
    }
  }

  lemma {:induction false} FirstDatedIsNewest(rows: seq<Snapshot>, fund: int, e: int)
    requires NewestFirst(rows) && Dated(rows, fund, e)
    ensures FirstDated(rows, fund).Some? && e <= FirstDated(rows, fund).value
  {
    if rows[0].fund == fund && rows[0].asOf.Some? {
      var j :| 0 <= j < |rows| && rows[j] == Snapshot(fund, Some(e));
    } else {
      assert rows == [rows[0]] + rows[1..];
      FirstDatedIsNewest(rows[1..], fund, e);
    }
  }

  lemma {:induction false} FirstDatedOfPrefix(rows: seq<Snapshot>, n: nat, fund: int)
    requires n <= |rows| && FirstDated(rows[..n], fund).Some?
    ensures FirstDated(rows, fund) == FirstDated(rows[..n], fund)
  {
    if !(rows[0].fund == fund && rows[0].asOf.Some?) {
      assert rows[..n][1..] == rows[1..][..n - 1];
      FirstDatedOfPrefix(rows[1..], n - 1, fund);
    }
  }

  /** Whatever the row limit, a reported date is the fund's true latest; it is absent exactly when the
      limit cut off every dated row of the fund. */
  lemma ReportedDateIsLatest(q: Queried, db: Database, limits: Limits, fund: Fund, today: int, staleAfter: int)
    requires Answers(q, db, limits)
    ensures match EntryOf(q, fund, today, staleAfter).asOf
      case Some(d) => IsLatest(db.snapshots, fund.id, d)
      case None => forall d :: !Dated(First(db.snapshots, limits.snapshots), fund.id, d)
  {
    var rows := First(db.snapshots, limits.snapshots);
    assert rows == db.snapshots[..|rows|];
    FirstDatedIs(rows, fund.id);
    FirstDatedIs(db.snapshots, fund.id);
    if FirstDated(rows, fund.id).Some? {
      FirstDatedOfPrefix(db.snapshots, |rows|, fund.id);
      forall e | Dated(db.snapshots, fund.id, e) ensures e <= FirstDated(rows, fund.id).value {
        FirstDatedIsNewest(db.snapshots, fund.id, e);
      }
    }
  }

  lemma {:induction false} CountIsMultiplicity(rows: seq<int>, fund: int)
    ensures Count(rows, fund) == multiset(rows)[fund]
  {
    if rows != [] {
      CountIsMultiplicity(rows[..|rows| - 1], fund);
      assert rows == rows[..|rows| - 1] + [rows[|rows| - 1]];
    }
  }

  lemma SomeOfCounts(rows: seq<int>, all: seq<int>, limit: nat, fund: int)
    requires SomeOf(rows, all, limit)
    ensures Count(rows, fund) <= Count(all, fund) && (|all| <= limit ==> Count(rows, fund) == Count(all, fund))
  {
    CountIsMultiplicity(rows, fund);
    CountIsMultiplicity(all, fund);
    if |all| <= limit { SubMultiset(multiset(rows), multiset(all)); }
  }

  /** A fund's reported counts are never more than the truth, and are the truth when nothing was cut. */
  lemma CountsAreSound(q: Queried, db: Database, limits: Limits, fund: Fund, today: int, staleAfter: int)
    requires Answers(q, db, limits)
    ensures var e := EntryOf(q, fund, today, staleAfter);
      && e.unresolved <= Count(db.unresolved, fund.id) && e.review <= Count(db.reviews, fund.id)
      && (|db.unresolved| <= limits.unresolved ==> e.unresolved == Count(db.unresolved, fund.id))
      && (|db.reviews| <= limits.reviews ==> e.review == Count(db.reviews, fund.id))
  {
    SomeOfCounts(q.unresolved, db.unresolved, limits.unresolved, fund.id);
    SomeOfCounts(q.reviews, db.reviews, limits.reviews, fund.id);
  }

  lemma SubMultiset(a: multiset<int>, b: multiset<int>)
    requires a <= b && |a| == |b|
    ensures a == b
  {
    assert b == a + (b - a);
  }

  // --- soundness of "healthy" -----------------------------------------------------------------------

  /** The fund's newest date is recent enough. */
  ghost predicate Fresh(db: Database, fund: int, today: int, staleAfter: int) {
    exists d :: IsLatest(db.snapshots, fund, d) && today - d <= staleAfter
  }

  /** Some dated row of the fund is within the limit. */
  ghost predicate Reached(db: Database, limits: Limits, fund: int) {
    exists d :: Dated(First(db.snapshots, limits.snapshots), fund, d)
  }

  lemma NotStaleIff(q: Queried, db: Database, limits: Limits, fund: Fund, today: int, staleAfter: int)
    requires Answers(q, db, limits)
    ensures !EntryOf(q, fund, today, staleAfter).stale <==>
      Fresh(db, fund.id, today, staleAfter) && Reached(db, limits, fund.id)
  {
    ReportedDateIsLatest(q, db, limits, fund, today, staleAfter);
    FirstDatedIs(q.snapshots, fund.id);
  }

  lemma {:induction false} SomeFundIsCounted(rows: seq<int>)
    requires rows != []
    ensures Count(rows, rows[|rows| - 1]) > 0
  {
  }

  /** For any positive limits, a poller is reported healthy exactly when it has funds, there is no
      unresolved failure at all, and every fund's newest date is recent and within the limit. Cutting
      rows can hide health, never a failure. */
  lemma HealthyIff(q: Queried, db: Database, limits: Limits, today: int, staleAfter: int)
    requires Answers(q, db, limits) && limits.unresolved > 0
    ensures RollUp(Entries(q, q.funds, today, staleAfter)).healthy <==>
      && q.funds != [] && db.unresolved == []
      && forall i :: 0 <= i < |q.funds| ==>
           Fresh(db, q.funds[i].id, today, staleAfter) && Reached(db, limits, q.funds[i].id)
  {
    forall i | 0 <= i < |q.funds|
      ensures !EntryOf(q, q.funds[i], today, staleAfter).stale
        <==> Fresh(db, q.funds[i].id, today, staleAfter) && Reached(db, limits, q.funds[i].id)
    {
      NotStaleIff(q, db, limits, q.funds[i], today, staleAfter);
    }
    if db.unresolved == [] {
      assert q.unresolved == [];
    } else {
      UnresolvedIsNoticed(q, db, limits, today, staleAfter);
    }
  }

  lemma UnresolvedIsNoticed(q: Queried, db: Database, limits: Limits, today: int, staleAfter: int)
    requires Answers(q, db, limits) && limits.unresolved > 0 && db.unresolved != []
    ensures exists j :: 0 <= j < |q.funds| && !Entries(q, q.funds, today, staleAfter)[j].healthy
  {
    var f := q.unresolved[|q.unresolved| - 1];
    assert f in multiset(q.unresolved) && f in multiset(db.unresolved);
    var i :| 0 <= i < |db.unresolved| && db.unresolved[i] == f;
    assert Matched(q.funds, db.unresolved[i]);
    var j :| 0 <= j < |q.funds| && q.funds[j].id == f;
    SomeFundIsCounted(q.unresolved);
    assert !Entries(q, q.funds, today, staleAfter)[j].healthy;
  }

  // --- when one fund's line can be wrong ------------------------------------------------------------

  /** The rows of the other funds. */
  function Others(rows: seq<int>, fund: int): (others: seq<int>)
    ensures fund !in others
  {
    if rows == [] then []
    else Others(rows[..|rows| - 1], fund) + (if rows[|rows| - 1] == fund then [] else [rows[|rows| - 1]])
  }

  lemma {:induction false} OthersAreTheRest(rows: seq<int>, fund: int)
    ensures |Others(rows, fund)| == |rows| - Count(rows, fund) && multiset(Others(rows, fund)) <= multiset(rows)
  {
    if rows != [] {
      var before, last := rows[..|rows| - 1], rows[|rows| - 1];
      OthersAreTheRest(before, fund);
      assert rows == before + [last];
      assert multiset(rows) == multiset(before) + multiset{last};
    }
  }

  /** An answer has no more rows of other funds than there are. */
  lemma OthersAreBounded(rows: seq<int>, all: seq<int>, fund: int)
    requires multiset(rows) <= multiset(all)
    ensures |rows| - Count(rows, fund) <= |all| - Count(all, fund)
  {
    CountIsMultiplicity(rows, fund);
    CountIsMultiplicity(all, fund);
    var some, rest := multiset(rows)[fund := 0], multiset(all)[fund := 0];
    assert rest == some + (rest - some);
    assert |some| == |rows| - Count(rows, fund) && |rest| == |all| - Count(all, fund);
  }

  /** As long as fewer rows of other funds exist than the limit, no answer can leave this fund out. */
  lemma FewOthersCountTheFund(rows: seq<int>, all: seq<int>, limit: nat, fund: int)
    requires SomeOf(rows, all, limit) && Count(all, fund) > 0 && |all| - Count(all, fund) < limit
    ensures Count(rows, fund) > 0
  {
    OthersAreBounded(rows, all, fund);
  }

  /** Otherwise one can: the first rows of the others fill it. */
  lemma ManyOthersHideTheFund(all: seq<int>, limit: nat, fund: int) returns (rows: seq<int>)
    requires Count(all, fund) > 0 && |all| - Count(all, fund) >= limit
    ensures SomeOf(rows, all, limit) && Count(rows, fund) == 0
  {
    var others := Others(all, fund);
    OthersAreTheRest(all, fund);
    rows := others[..limit];
    assert others == rows + others[limit..];
    OthersAreNotCounted(rows, fund);
  }

  /** The tables and the funds a check asks about. */
  ghost predicate Askable(db: Database, funds: seq<Fund>) {
    && NewestFirst(db.snapshots)
    && (forall i, j :: 0 <= i < j < |funds| ==> funds[i].id != funds[j].id)
    && (forall i :: 0 <= i < |db.unresolved| ==> Matched(funds, db.unresolved[i]))
  }

  lemma AnswersExist(db: Database, limits: Limits, funds: seq<Fund>, unresolved: seq<int>) returns (q: Queried)
    requires Askable(db, funds) && SomeOf(unresolved, db.unresolved, limits.unresolved)
    ensures Answers(q, db, limits) && q.funds == funds && q.unresolved == unresolved
  {
    var reviews := First(db.reviews, limits.reviews);
    assert db.reviews == reviews + db.reviews[|reviews|..];
    q := Queried(funds, First(db.snapshots, limits.snapshots), unresolved, reviews,
                 f => First(db.attempts(f), limits.recent));
  }

  /** Exactly when a failing fund's own line can say healthy: its date is recent and within the limit,
      and the other funds alone have enough unresolved failures to fill the row limit. */
  lemma FailingFundCanLookHealthyIff(db: Database, limits: Limits, funds: seq<Fund>, fund: Fund,
                                     today: int, staleAfter: int)
    requires Askable(db, funds) && Count(db.unresolved, fund.id) > 0
    ensures (exists q :: Answers(q, db, limits) && q.funds == funds && EntryOf(q, fund, today, staleAfter).healthy) <==>
      && Fresh(db, fund.id, today, staleAfter) && Reached(db, limits, fund.id)
      && |db.unresolved| - Count(db.unresolved, fund.id) >= limits.unresolved
  {
    var others := |db.unresolved| - Count(db.unresolved, fund.id);
    if q :| Answers(q, db, limits) && q.funds == funds && EntryOf(q, fund, today, staleAfter).healthy {
      NotStaleIff(q, db, limits, fund, today, staleAfter);
      if others < limits.unresolved { FewOthersCountTheFund(q.unresolved, db.unresolved, limits.unresolved, fund.id); }
    }
    if Fresh(db, fund.id, today, staleAfter) && Reached(db, limits, fund.id) && others >= limits.unresolved {
      var rows := ManyOthersHideTheFund(db.unresolved, limits.unresolved, fund.id);
      var q := AnswersExist(db, limits, funds, rows);
      NotStaleIff(q, db, limits, fund, today, staleAfter);
      assert EntryOf(q, fund, today, staleAfter).healthy;
    }
  }

  /** The count itself: every answer counts a failing fund if and only if fewer failures of other funds
      exist than rows are returned. */
  lemma FailingFundIsCountedIff(db: Database, limits: Limits, funds: seq<Fund>, fund: Fund, today: int, staleAfter: int)
    requires Askable(db, funds) && Count(db.unresolved, fund.id) > 0
    ensures
      (forall q :: Answers(q, db, limits) && q.funds == funds ==>
         EntryOf(q, fund, today, staleAfter).unresolved > 0) <==>
      |db.unresolved| - Count(db.unresolved, fund.id) < limits.unresolved
  {
    if |db.unresolved| - Count(db.unresolved, fund.id) < limits.unresolved {
      forall q | Answers(q, db, limits) && q.funds == funds ensures EntryOf(q, fund, today, staleAfter).unresolved > 0 {
        FewOthersCountTheFund(q.unresolved, db.unresolved, limits.unresolved, fund.id);
      }
    } else {
      var rows := ManyOthersHideTheFund(db.unresolved, limits.unresolved, fund.id);
      var q := AnswersExist(db, limits, funds, rows);
      assert EntryOf(q, fund, today, staleAfter).unresolved == 0;
    }
  }

  /** One such case: with its failures past the limit and those of another fund
      before it, a fund that is failing is reported healthy, though the poller is not. */
  lemma CutFundLooksHealthy(a: Fund, b: Fund, limit: nat, today: int, staleAfter: int)
    requires a.id != b.id && limit > 0 && staleAfter >= 0
    ensures var rows := seq(limit, _ => b.id);
      var q := Queried([a, b], [Snapshot(a.id, Some(today))], rows, [], _ => []);
      var db := Database(q.snapshots, rows + [a.id], [], _ => []);
      && Answers(q, db, Limits(1, limit, 1, 1))
      && Count(db.unresolved, a.id) > 0 && EntryOf(q, a, today, staleAfter).healthy
      && !RollUp(Entries(q, q.funds, today, staleAfter)).healthy
  {
    var rows := seq(limit, _ => b.id);
    var q := Queried([a, b], [Snapshot(a.id, Some(today))], rows, [], _ => []);
    var db := Database(q.snapshots, rows + [a.id], [], _ => []);
    assert multiset(db.unresolved) == multiset(rows) + multiset{a.id};
    forall i | 0 <= i < |db.unresolved| ensures Matched(q.funds, db.unresolved[i]) {
      assert q.funds[0].id == a.id && q.funds[1].id == b.id;
    }
    SomeFundIsCounted(db.unresolved);
    OthersAreNotCounted(rows, a.id);
    HealthyIff(q, db, Limits(1, limit, 1, 1), today, staleAfter);
  }

  lemma {:induction false} OthersAreNotCounted(rows: seq<int>, fund: int)
    requires fund !in rows
    ensures Count(rows, fund) == 0
  {
    if rows != [] { OthersAreNotCounted(rows[..|rows| - 1], fund); }
  }

  // --- the totals -----------------------------------------------------------------------------------

  function CountAmong(rows: seq<int>, funds: seq<Fund>): nat {
    if funds == [] then 0 else CountAmong(rows, funds[..|funds| - 1]) + Count(rows, funds[|funds| - 1].id)
  }

  lemma {:induction false} OneMoreRow(rows: seq<int>, f: int, funds: seq<Fund>)
    requires forall i, j :: 0 <= i < j < |funds| ==> funds[i].id != funds[j].id
    ensures CountAmong(rows + [f], funds) == CountAmong(rows, funds) + if Matched(funds, f) then 1 else 0
    decreases |funds|
  {
    if funds != [] {
      var n := |funds| - 1;
      var before := funds[..n];
      OneMoreRow(rows, f, before);
      assert (rows + [f])[..|rows|] == rows;
      assert Matched(funds, f) <==> Matched(before, f) || funds[n].id == f by {
        if Matched(before, f) { var j :| 0 <= j < n && before[j].id == f; assert funds[j].id == f; }
        if Matched(funds, f) { var j :| 0 <= j < |funds| && funds[j].id == f; if j < n { assert before[j].id == f; } }
      }
      if Matched(before, f) { var j :| 0 <= j < n && before[j].id == f; assert funds[j].id != funds[n].id; }
    }
  }

  lemma {:induction false} EveryRowIsCountedOnce(rows: seq<int>, funds: seq<Fund>)
    requires forall i, j :: 0 <= i < j < |funds| ==> funds[i].id != funds[j].id
    requires forall i :: 0 <= i < |rows| ==> Matched(funds, rows[i])
    ensures CountAmong(rows, funds) == |rows|
    decreases |rows|
  {
    if rows == [] {
      NothingToCount(funds);
    } else {
      var n := |rows| - 1;
      EveryRowIsCountedOnce(rows[..n], funds);
      OneMoreRow(rows[..n], rows[n], funds);
      assert rows == rows[..n] + [rows[n]];
    }
  }

  lemma {:induction false} NothingToCount(funds: seq<Fund>)
    ensures CountAmong([], funds) == 0
  {
    if funds != [] { NothingToCount(funds[..|funds| - 1]); }
  }

  function Among(funds: seq<Fund>): int -> bool { (id: int) => Matched(funds, id) }

  lemma {:induction false} MatchedRowsAreCounted(rows: seq<int>, funds: seq<Fund>)
    requires forall i, j :: 0 <= i < j < |funds| ==> funds[i].id != funds[j].id
    ensures CountAmong(rows, funds) == |Marked(rows, Among(funds))|
    decreases |rows|
  {
    if rows == [] {
      NothingToCount(funds);
    } else {
      var n := |rows| - 1;
      MatchedRowsAreCounted(rows[..n], funds);
      OneMoreRow(rows[..n], rows[n], funds);
      MarkedInLonger(rows[..n], rows[n], Among(funds));
      assert rows == rows[..n] + [rows[n]];
    }
  }

  lemma {:induction false} ReviewSumIsCountAmong(q: Queried, funds: seq<Fund>, today: int, staleAfter: int)
    ensures ReviewSum(Entries(q, funds, today, staleAfter)) == CountAmong(q.reviews, funds)
  {
    if funds != [] {
      var n := |funds| - 1;
      ReviewSumIsCountAmong(q, funds[..n], today, staleAfter);
      assert Entries(q, funds, today, staleAfter)[..n] == Entries(q, funds[..n], today, staleAfter);
    }
  }

  /** Both totals of a report count each returned row of a matched fund once, and no other. */
  lemma TotalsCountMatchedRows(q: Queried, today: int, staleAfter: int)
    requires forall i, j :: 0 <= i < j < |q.funds| ==> q.funds[i].id != q.funds[j].id
    ensures var r := RollUp(Entries(q, q.funds, today, staleAfter));
      && r.reviews == |Marked(q.reviews, Among(q.funds))|
      && r.unresolved == |Marked(q.unresolved, Among(q.funds))|
  {
    ReviewSumIsCountAmong(q, q.funds, today, staleAfter);
    MatchedRowsAreCounted(q.reviews, q.funds);
    SumIsCountAmong(q, q.funds, today, staleAfter);
    MatchedRowsAreCounted(q.unresolved, q.funds);
  }

  lemma {:induction false} SumIsCountAmong(q: Queried, funds: seq<Fund>, today: int, staleAfter: int)
    ensures UnresolvedSum(Entries(q, funds, today, staleAfter)) == CountAmong(q.unresolved, funds)
  {
    if funds != [] {
      var n := |funds| - 1;
      SumIsCountAmong(q, funds[..n], today, staleAfter);
      assert Entries(q, funds, today, staleAfter)[..n] == Entries(q, funds[..n], today, staleAfter);
    }
  }

  /** The poller's total counts every returned failure once: it is the true number of unresolved
      failures, or the limit if there are more. */
  lemma TotalIsTrueUpToTheLimit(q: Queried, db: Database, limits: Limits, today: int, staleAfter: int)
    requires Answers(q, db, limits)
    ensures RollUp(Entries(q, q.funds, today, staleAfter)).unresolved ==
      if limits.unresolved < |db.unresolved| then limits.unresolved else |db.unresolved|
  {
    forall i | 0 <= i < |q.unresolved| ensures Matched(q.funds, q.unresolved[i]) {
      assert q.unresolved[i] in multiset(q.unresolved) && q.unresolved[i] in multiset(db.unresolved);
      var k :| 0 <= k < |db.unresolved| && db.unresolved[k] == q.unresolved[i];
      assert Matched(q.funds, db.unresolved[k]);
    }
    SumIsCountAmong(q, q.funds, today, staleAfter);
    EveryRowIsCountedOnce(q.unresolved, q.funds);
  }

  lemma PrefixOfCons(statuses: seq<string>, n: nat)
    requires 0 < n <= |statuses|
    ensures statuses[..n] == [statuses[0]] + statuses[1..][..n - 1]
  {
  }

  lemma SinceProofOfCons(s: string, rest: seq<string>)
    ensures SinceProof([s] + rest) == if Ends(s) then [] else [s] + SinceProof(rest)
  {
    assert ([s] + rest)[1..] == rest;
  }

  lemma {:induction false} SinceProofOfPrefix(statuses: seq<string>, n: nat)
    requires n <= |statuses|
    ensures SinceProof(statuses[..n]) == First(SinceProof(statuses), n)
  {
    if n > 0 {
      var s, rest := statuses[0], statuses[1..];
      assert statuses == [s] + rest;
      PrefixOfCons(statuses, n);
      SinceProofOfCons(s, rest);
      SinceProofOfCons(s, rest[..n - 1]);
      if !Ends(s) {
        SinceProofOfPrefix(rest, n - 1);
        FirstOfCons(s, SinceProof(rest), n);
      }
    }
  }

  lemma FirstOfCons(s: string, rest: seq<string>, n: nat)
    requires n > 0
    ensures First([s] + rest, n) == [s] + First(rest, n - 1)
  {
  }

  lemma {:induction false} FailuresOfPrefix(statuses: seq<string>, n: nat)
    requires n <= |statuses|
    ensures Failures(statuses[..n]) <= Failures(statuses)
    decreases |statuses|
  {
    if n == |statuses| {
      assert statuses[..n] == statuses;
    } else {
      FailuresOfPrefix(statuses[..|statuses| - 1], n);
      assert statuses[..|statuses| - 1][..n] == statuses[..n];
    }
  }

  /** A reported streak is never more than the true one, and is the true one when an attempt that
      proves the pipeline works, or the beginning, is within the limit. */
  lemma StreakIsSound(q: Queried, db: Database, limits: Limits, fund: Fund, today: int, staleAfter: int)
    requires Answers(q, db, limits)
    ensures var streak := EntryOf(q, fund, today, staleAfter).streak; var run := SinceProof(db.attempts(fund.id));
      streak <= Failures(run) && (|run| <= limits.recent ==> streak == Failures(run))
  {
    var all := db.attempts(fund.id);
    var n := if limits.recent < |all| then limits.recent else |all|;
    assert First(all, limits.recent) == all[..n];
    SinceProofOfPrefix(all, n);
    var run := SinceProof(all);
    if n < |run| { FailuresOfPrefix(run, n); }
  }

  // --- all pollers ----------------------------------------------------------------------------------

  /** One poller's `healthy`: None when it could not be queried. */
  type Status = Option<bool>

  datatype Platform = Platform(healthy: bool, degraded: bool, unknown: bool)

  function Overall(statuses: seq<Status>): Platform {
    Platform(forall i :: 0 <= i < |statuses| ==> statuses[i] == Some(true), Some(false) in statuses, None in statuses)
  }

  /** One poller's check: what its queries answered, or None when they raised. */
  datatype Check = Check(answer: Option<Queried>, db: Database, limits: Limits, staleAfter: int)

  function StatusOf(c: Check, today: int): Status {
    match c.answer
    case None => None
    case Some(q) => Some(RollUp(Entries(q, q.funds, today, c.staleAfter)).healthy)
  }

  function Statuses(checks: seq<Check>, today: int): (ss: seq<Status>)
    ensures |ss| == |checks| && forall i :: 0 <= i < |ss| ==> ss[i] == StatusOf(checks[i], today)
  {
    seq(|checks|, i requires 0 <= i < |checks| => StatusOf(checks[i], today))
  }

  /** The platform is healthy exactly when it is neither degraded nor unknown, and then every fund of
      every poller has recent data and no failure anywhere is unresolved. */
  lemma PlatformHealthyMeansAllFresh(checks: seq<Check>, today: int)
    requires forall i :: 0 <= i < |checks| && checks[i].answer.Some? ==>
      Answers(checks[i].answer.value, checks[i].db, checks[i].limits) && checks[i].limits.unresolved > 0
    ensures var p := Overall(Statuses(checks, today));
      && (p.healthy <==> !p.degraded && !p.unknown)
      && (p.healthy ==> forall i :: 0 <= i < |checks| ==> Sound(checks[i], today))
  {
    var ss := Statuses(checks, today);
    forall i | 0 <= i < |checks| && ss[i] == Some(true) ensures Sound(checks[i], today) {
      var c := checks[i];
      HealthyIff(c.answer.value, c.db, c.limits, today, c.staleAfter);
    }
    assert forall i :: 0 <= i < |ss| ==> ss[i] == None || ss[i] == Some(false) || ss[i] == Some(true);
  }

  ghost predicate Sound(c: Check, today: int) {
    && c.answer.Some? && c.answer.value.funds != [] && c.db.unresolved == []
    && forall j :: 0 <= j < |c.answer.value.funds| ==> Fresh(c.db, c.answer.value.funds[j].id, today, c.staleAfter)
  }
}
