/**
 * Picking elements out of a sequence: which of them, each once, in their order.
 */
module Picks {
  /** `part` is what stands at these places of `whole`, in their order. */
  predicate StandsAt<T(==)>(places: seq<nat>, part: seq<T>, whole: seq<T>) {
    && |places| == |part|
    && (forall i, j :: 0 <= i < j < |places| ==> places[i] < places[j])
    && (forall i :: 0 <= i < |places| ==> places[i] < |whole| && part[i] == whole[places[i]])
  }

  lemma StandsInLonger<T>(places: seq<nat>, part: seq<T>, whole: seq<T>, next: T)
    requires StandsAt(places, part, whole)
    ensures StandsAt(places, part, whole + [next])
    ensures StandsAt(places + [|whole|], part + [next], whole + [next])
  {
  }

  /** These are the places of what `p` picks. */
  predicate Marks<T>(places: seq<nat>, whole: seq<T>, p: T -> bool) {
    forall k: nat :: k < |whole| ==> (k in places <==> p(whole[k]))
  }

  /** `part` is everything that `p` picks out of `whole`, and nothing else, in order. */
  ghost predicate PicksOut<T>(part: seq<T>, whole: seq<T>, p: T -> bool) {
    exists places :: StandsAt(places, part, whole) && Marks(places, whole, p)
  }

  function Filter<T>(whole: seq<T>, p: T -> bool): seq<T> {
    if whole == [] then [] else (if p(whole[0]) then [whole[0]] else []) + Filter(whole[1..], p)
  }

  function Later(places: seq<nat>): (later: seq<nat>)
    ensures |later| == |places| && forall i :: 0 <= i < |places| ==> later[i] == places[i] + 1
  {
    seq(|places|, i requires 0 <= i < |places| => places[i] + 1)
  }

  lemma PlacesInTail(places: seq<nat>, k: nat)
    requires k > 0
    ensures k in Later(places) <==> k - 1 in places
  {
    if k - 1 in places {
      var i :| 0 <= i < |places| && places[i] == k - 1;
      assert Later(places)[i] == k;
    }
  }

  lemma PlacesMoveOn<T>(places: seq<nat>, part: seq<T>, whole: seq<T>)
    requires whole != [] && StandsAt(places, part, whole[1..])
    ensures StandsAt(Later(places), part, whole)
  {
  }

  lemma HeadStandsFirst<T>(places: seq<nat>, part: seq<T>, whole: seq<T>)
    requires whole != [] && StandsAt(Later(places), part, whole)
    ensures StandsAt([0] + Later(places), [whole[0]] + part, whole)
  {
  }

  lemma MarksMoveOn<T>(places: seq<nat>, whole: seq<T>, p: T -> bool, all: seq<nat>)
    requires whole != [] && Marks(places, whole[1..], p)
    requires all == if p(whole[0]) then [0] + Later(places) else Later(places)
    ensures Marks(all, whole, p)
  {
    forall k: nat | k < |whole| ensures k in all <==> p(whole[k]) {
      if k > 0 {
        PlacesInTail(places, k);
        assert whole[k] == whole[1..][k - 1];
        assert k in all <==> k in Later(places);
      }
    }
  }

  lemma {:induction false} FilterStandsAt<T>(whole: seq<T>, p: T -> bool) returns (places: seq<nat>)
    ensures StandsAt(places, Filter(whole, p), whole) && Marks(places, whole, p)
  {
    if whole == [] {
      places := [];
    } else {
      var rest := FilterStandsAt(whole[1..], p);
      PlacesMoveOn(rest, Filter(whole[1..], p), whole);
      HeadStandsFirst(rest, Filter(whole[1..], p), whole);
      places := if p(whole[0]) then [0] + Later(rest) else Later(rest);
      MarksMoveOn(rest, whole, p, places);
    }
  }

  lemma FilterPicksOut<T>(whole: seq<T>, p: T -> bool)
    ensures PicksOut(Filter(whole, p), whole, p)
  {
    var places := FilterStandsAt(whole, p);
  }

  lemma FilterOfCons<T>(head: T, tail: seq<T>, p: T -> bool)
    ensures Filter([head] + tail, p) == (if p(head) then [head] else []) + Filter(tail, p)
  {
    assert ([head] + tail)[1..] == tail;
  }

  lemma FilterOne<T>(x: T, p: T -> bool)
    ensures Filter([x], p) == if p(x) then [x] else []
  {
    assert [x][1..] == [];
  }

  lemma Regroup<T>(a: seq<T>, b: seq<T>, c: seq<T>)
    ensures a + (b + c) == (a + b) + c
  {
  }

  lemma {:induction false} FilterOfBoth<T>(a: seq<T>, b: seq<T>, p: T -> bool)
    ensures Filter(a + b, p) == Filter(a, p) + Filter(b, p)
  {
    if a == [] {
      assert a + b == b;
    } else {
      var head, tail := a[0], a[1..];
      FilterOfBoth(tail, b, p);
      Regroup([head], tail, b);
      assert a == [head] + tail;
      FilterOfCons(head, tail, p);
      FilterOfCons(head, tail + b, p);
      Regroup(if p(head) then [head] else [], Filter(tail, p), Filter(b, p));
    }
  }

  /** What is picked is determined: anything picked by the same rule is equal. */
  lemma PickedIsFiltered<T>(part: seq<T>, whole: seq<T>, p: T -> bool)
    requires PicksOut(part, whole, p)
    ensures part == Filter(whole, p)
  {
    var places :| StandsAt(places, part, whole) && Marks(places, whole, p);
    var others := FilterStandsAt(whole, p);
    MarkedAre(places, part, whole, p);
    MarkedAre(others, Filter(whole, p), whole, p);
    SamePlaces(places, others, |whole|);
  }

  predicate Ascending(places: seq<nat>) { forall i, j :: 0 <= i < j < |places| ==> places[i] < places[j] }

  function AsSet(places: seq<nat>): set<nat> { set k | k in places }

  function Marked<T>(whole: seq<T>, p: T -> bool): set<nat> { set k: nat | k < |whole| && p(whole[k]) }

  lemma MarkedInLonger<T>(whole: seq<T>, next: T, p: T -> bool)
    ensures Marked(whole + [next], p) == Marked(whole, p) + (if p(next) then {|whole|} else {})
    ensures |Marked(whole + [next], p)| == |Marked(whole, p)| + (if p(next) then 1 else 0)
  {
    assert Marked(whole + [next], p) == Marked(whole, p) + (if p(next) then {|whole|} else {});
  }

  lemma MarkedAre<T>(places: seq<nat>, part: seq<T>, whole: seq<T>, p: T -> bool)
    requires StandsAt(places, part, whole) && Marks(places, whole, p)
    ensures AsSet(places) == Marked(whole, p) && Ascending(places)
  {
  }

  lemma {:induction false} SamePlaces(a: seq<nat>, b: seq<nat>, n: nat)
    requires Ascending(a) && Ascending(b) && AsSet(a) == AsSet(b)
    requires forall k :: k in AsSet(a) ==> k < n
    ensures a == b
    decreases n
  {
    if n == 0 {
      NoPlaces(a);
      NoPlaces(b);
    } else if n - 1 in AsSet(a) {
      LastPlace(a, n - 1);
      LastPlace(b, n - 1);
      SamePlaces(a[..|a| - 1], b[..|b| - 1], n - 1);
    } else {
      SamePlaces(a, b, n - 1);
    }
  }

  lemma NoPlaces(a: seq<nat>)
    ensures AsSet(a) == {} <==> a == []
  {
    if a != [] { assert a[0] in AsSet(a); }
  }

  lemma LastPlace(a: seq<nat>, k: nat)
    requires Ascending(a) && k in AsSet(a) && forall j :: j in AsSet(a) ==> j <= k
    ensures a != [] && a == a[..|a| - 1] + [k] && Ascending(a[..|a| - 1]) && AsSet(a[..|a| - 1]) == AsSet(a) - {k}
  {
    var i :| 0 <= i < |a| && a[i] == k;
    assert a[|a| - 1] in AsSet(a);
    forall j | j in AsSet(a) - {k} ensures j in AsSet(a[..|a| - 1]) {
      var m :| 0 <= m < |a| && a[m] == j;
      assert a[..|a| - 1][m] == j;
    }
  }
}
