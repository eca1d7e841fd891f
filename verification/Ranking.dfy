/** Choosing the best few of a scored list, as `sorted(..., reverse=True)[:limit]` does. */
module Ranking {

  /** An item with its token overlap and its place in the conversation. */
  datatype Scored<T> = Scored(overlap: nat, sequence: nat, item: T)

  /** a is listed before b when the best comes first: more overlap, then later. */
  predicate Beats<T>(a: Scored<T>, b: Scored<T>) {
    a.overlap > b.overlap || (a.overlap == b.overlap && a.sequence > b.sequence)
  }

  ghost predicate BestFirst<T>(s: seq<Scored<T>>) {
    forall i, j | 0 <= i < j < |s| :: Beats(s[i], s[j])
  }

  ghost predicate InOrder<T>(s: seq<Scored<T>>) {
    forall i, j | 0 <= i < j < |s| :: s[i].sequence < s[j].sequence
  }

  ghost predicate Distinct<T>(s: seq<Scored<T>>) {
    forall i, j | 0 <= i < j < |s| :: s[i].sequence != s[j].sequence
  }

  ghost predicate SameItems<T>(a: seq<Scored<T>>, b: seq<Scored<T>>) {
    |a| == |b| && (forall x | x in a :: x in b) && (forall x | x in b :: x in a)
  }

  /** chosen holds limit of the scored items, or all of them, and beats every item left out. */
  ghost predicate IsBest<T>(chosen: seq<Scored<T>>, scored: seq<Scored<T>>, limit: nat) {
    && |chosen| == (if |scored| < limit then |scored| else limit)
    && Distinct(chosen)
    && (forall x | x in chosen :: x in scored)
    && (forall x, y | x in scored && x !in chosen && y in chosen :: Beats(y, x))
  }

  method SortBestFirst<T(==)>(scored: seq<Scored<T>>) returns (sorted: seq<Scored<T>>)
    requires Distinct(scored)
    ensures BestFirst(sorted) && SameItems(sorted, scored)
  {
    sorted := [];
    for i := 0 to |scored|
      invariant BestFirst(sorted) && SameItems(sorted, scored[..i])
    {
      var k := 0;
      while k < |sorted| && Beats(sorted[k], scored[i])
        invariant 0 <= k <= |sorted|
        invariant forall j | 0 <= j < k :: Beats(sorted[j], scored[i])
      {
        k := k + 1;
      }
      PlaceBestFirst(sorted, scored, i, k);
      sorted := sorted[..k] + [scored[i]] + sorted[k..];
    }
    assert scored[..|scored|] == scored;
  }

  /** Reorders by place in the conversation. */
  method SortInOrder<T(==)>(scored: seq<Scored<T>>) returns (sorted: seq<Scored<T>>)
    requires Distinct(scored)
    ensures InOrder(sorted) && SameItems(sorted, scored)
  {
    sorted := [];
    for i := 0 to |scored|
      invariant InOrder(sorted) && SameItems(sorted, scored[..i])
    {
      var k := 0;
      while k < |sorted| && sorted[k].sequence < scored[i].sequence
        invariant 0 <= k <= |sorted|
        invariant forall j | 0 <= j < k :: sorted[j].sequence < scored[i].sequence
      {
        k := k + 1;
      }
      PlaceInOrder(sorted, scored, i, k);
      sorted := sorted[..k] + [scored[i]] + sorted[k..];
    }
    assert scored[..|scored|] == scored;
  }

  lemma InsertedItems<T>(sorted: seq<Scored<T>>, scored: seq<Scored<T>>, i: nat, k: nat)
    requires i < |scored| && k <= |sorted| && SameItems(sorted, scored[..i])
    ensures SameItems(sorted[..k] + [scored[i]] + sorted[k..], scored[..i + 1])
  {
    var longer := sorted[..k] + [scored[i]] + sorted[k..];
    assert scored[..i + 1] == scored[..i] + [scored[i]];
    assert sorted == sorted[..k] + sorted[k..];
  }

  lemma NewSequence<T>(sorted: seq<Scored<T>>, scored: seq<Scored<T>>, i: nat, j: nat)
    requires i < |scored| && j < |sorted| && Distinct(scored) && SameItems(sorted, scored[..i])
    ensures sorted[j].sequence != scored[i].sequence
  {
    assert sorted[j] in scored[..i];
  }

  lemma PlaceBestFirst<T>(sorted: seq<Scored<T>>, scored: seq<Scored<T>>, i: nat, k: nat)
    requires i < |scored| && k <= |sorted| && Distinct(scored)
    requires BestFirst(sorted) && SameItems(sorted, scored[..i])
    requires forall j | 0 <= j < k :: Beats(sorted[j], scored[i])
    requires k < |sorted| ==> !Beats(sorted[k], scored[i])
    ensures BestFirst(sorted[..k] + [scored[i]] + sorted[k..])
    ensures SameItems(sorted[..k] + [scored[i]] + sorted[k..], scored[..i + 1])
  {
    InsertedItems(sorted, scored, i, k);
    if k < |sorted| {
      NewSequence(sorted, scored, i, k);
    }
  }

  lemma PlaceInOrder<T>(sorted: seq<Scored<T>>, scored: seq<Scored<T>>, i: nat, k: nat)
    requires i < |scored| && k <= |sorted| && Distinct(scored)
    requires InOrder(sorted) && SameItems(sorted, scored[..i])
    requires forall j | 0 <= j < k :: sorted[j].sequence < scored[i].sequence
    requires k < |sorted| ==> sorted[k].sequence >= scored[i].sequence
    ensures InOrder(sorted[..k] + [scored[i]] + sorted[k..])
    ensures SameItems(sorted[..k] + [scored[i]] + sorted[k..], scored[..i + 1])
  {
    InsertedItems(sorted, scored, i, k);
    if k < |sorted| {
      NewSequence(sorted, scored, i, k);
    }
  }

  /** The first few of a best-first list are the best. */
  lemma TopIsBest<T>(sorted: seq<Scored<T>>, scored: seq<Scored<T>>, limit: nat)
    requires Distinct(scored) && BestFirst(sorted) && SameItems(sorted, scored)
    ensures IsBest(if |sorted| <= limit then sorted else sorted[..limit], scored, limit)
  {
    var chosen := if |sorted| <= limit then sorted else sorted[..limit];
    forall i, j | 0 <= i < j < |chosen| ensures chosen[i].sequence != chosen[j].sequence {
      assert Beats(sorted[i], sorted[j]) && sorted[i] in scored && sorted[j] in scored;
    }
    forall x, y | x in scored && x !in chosen && y in chosen ensures Beats(y, x) {
      var i :| 0 <= i < |sorted| && sorted[i] == x;
      var j :| 0 <= j < |chosen| && chosen[j] == y;
      assert i >= |chosen| > j;
    }
  }

  lemma BestAfterReordering<T>(sorted: seq<Scored<T>>, chosen: seq<Scored<T>>, scored: seq<Scored<T>>, limit: nat)
    requires IsBest(chosen, scored, limit) && SameItems(sorted, chosen) && InOrder(sorted)
    ensures IsBest(sorted, scored, limit)
  {
  }
}
