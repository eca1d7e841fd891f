/**
 The two-row edit distance that the wake-word diagnostics use to rank transcribed tokens.

 The reference is not another recurrence: it is the shortest chain of strings in which every
 string is one character edit away from the next, the edit being anywhere in the string.
 */
module EditDistance {

  // ---------- The reference: chains of single-character edits ----------

  ghost predicate InsertedAt(s: string, t: string, i: nat) {
    i <= |s| && |t| == |s| + 1 && t == s[..i] + [t[i]] + s[i..]
  }

  ghost predicate ReplacedAt(s: string, t: string, i: nat) {
    i < |s| && |t| == |s| && t == s[i := t[i]]
  }

  /** t is s after inserting, deleting or replacing one character anywhere. */
  ghost predicate OneEdit(s: string, t: string) {
    exists i: nat ::
      InsertedAt(s, t, i) || InsertedAt(t, s, i) || ReplacedAt(s, t, i)
  }

  /** A chain lists every intermediate string, so a chain of n + 1 strings makes n edits. */
  ghost predicate IsChain(chain: seq<string>, left: string, right: string) {
    && |chain| > 0 && chain[0] == left && chain[|chain| - 1] == right
    && forall k | 0 <= k < |chain| - 1 :: OneEdit(chain[k], chain[k + 1])
  }

  /** n edits can turn left into right, and fewer cannot. */
  ghost predicate IsLeastEdits(left: string, right: string, n: nat) {
    && (exists chain :: IsChain(chain, left, right) && |chain| == n + 1)
    && (forall chain | IsChain(chain, left, right) :: n + 1 <= |chain|)
  }

  // ---------- The recurrence on prefixes ----------

  function Min(a: int, b: int): int {
    if a <= b then a else b
  }

  function Init(s: string): string
    requires s != ""
  {
    s[..|s| - 1]
  }

  function Last(s: string): char
    requires s != ""
  {
    s[|s| - 1]
  }

  function Distance(a: string, b: string): nat
    decreases |a| + |b|
  {
    if a == "" then |b|
    else if b == "" then |a|
    else
      Min(Distance(a, Init(b)) + 1,
          Min(Distance(Init(a), b) + 1,
              Distance(Init(a), Init(b)) + if Last(a) != Last(b) then 1 else 0))
  }

  // ---------- The two-row loop ----------

  /** cells holds the first entries of row i of the table: the distances from left[..i]. */
  ghost predicate IsRow(left: string, right: string, i: nat, cells: seq<int>) {
    && i <= |left| && |cells| <= |right| + 1
    && forall j | 0 <= j < |cells| :: cells[j] == Distance(left[..i], right[..j])
  }

  lemma FirstRow(left: string, right: string, cells: seq<int>)
    requires |cells| == |right| + 1 && forall j | 0 <= j < |cells| :: cells[j] == j
    ensures IsRow(left, right, 0, cells)
  {
  }

  lemma FirstCell(left: string, right: string, i: nat)
    requires 1 <= i <= |left|
    ensures IsRow(left, right, i, [i])
  {
  }

  lemma NextCell(left: string, right: string, i: nat, previous: seq<int>, current: seq<int>, cell: int)
    requires 1 <= i <= |left| && |previous| == |right| + 1 && 1 <= |current| <= |right|
    requires IsRow(left, right, i - 1, previous) && IsRow(left, right, i, current)
    requires var j := |current|;
      cell == Min(Min(current[j - 1] + 1, previous[j] + 1),
                  previous[j - 1] + if left[i - 1] != right[j - 1] then 1 else 0)
    ensures IsRow(left, right, i, current + [cell])
  {
    var j := |current|;
    assert Init(left[..i]) == left[..i - 1] && Init(right[..j]) == right[..j - 1];
    assert cell == Distance(left[..i], right[..j]);
  }

  lemma LastCell(left: string, right: string, cells: seq<int>)
    requires |cells| == |right| + 1 && IsRow(left, right, |left|, cells)
    ensures cells[|right|] == Distance(left, right)
  {
    assert left[..|left|] == left && right[..|right|] == right;
  }

  /** Two rows of the table at a time: previous belongs to left[..i - 1], current to left[..i]. */
  method EditDistance(left: string, right: string) returns (distance: int)
    ensures distance == Distance(left, right)
    ensures IsLeastEdits(left, right, distance)
  {
    var previous: seq<int> := seq(|right| + 1, j => j);
    FirstRow(left, right, previous);
    for i := 1 to |left| + 1
      invariant |previous| == |right| + 1 && IsRow(left, right, i - 1, previous)
    {
      var current: seq<int> := [i];
      FirstCell(left, right, i);
      for j := 1 to |right| + 1
        invariant |current| == j && IsRow(left, right, i, current)
      {
        var cell := Min(Min(current[|current| - 1] + 1, previous[j] + 1),
                        previous[j - 1] + if left[i - 1] != right[j - 1] then 1 else 0);
        NextCell(left, right, i, previous, current, cell);
        current := current + [cell];
      }
      previous := current;
    }
    LastCell(left, right, previous);
    distance := previous[|previous| - 1];
    DistanceIsLeastEdits(left, right);
  }

  // ---------- One edit moves the distance by at most one ----------

  lemma {:induction false} DropLast(x: string, s: string)
    requires s != ""
    ensures Distance(x, Init(s)) <= Distance(x, s) + 1
    ensures Distance(x, s) <= Distance(x, Init(s)) + 1
  {
    if x != "" {
      DropLast(Init(x), s);
    }
  }

  lemma {:induction false} InsertionMovesByOne(x: string, s: string, t: string, i: nat)
    requires InsertedAt(s, t, i)
    ensures -1 <= Distance(x, t) - Distance(x, s) <= 1
    decreases |x| + |s|
  {
    if i == |s| {
      assert Init(t) == s;
      DropLast(x, t);
    } else {
      assert Last(s) == Last(t);
      assert InsertedAt(Init(s), Init(t), i);
      if x != "" {
        InsertionMovesByOne(x, Init(s), Init(t), i);
        InsertionMovesByOne(Init(x), s, t, i);
        InsertionMovesByOne(Init(x), Init(s), Init(t), i);
      }
    }
  }

  lemma {:induction false} ReplacementMovesByOne(x: string, s: string, t: string, i: nat)
    requires ReplacedAt(s, t, i)
    ensures -1 <= Distance(x, t) - Distance(x, s) <= 1
    decreases |x| + |s|
  {
    if x != "" {
      ReplacementMovesByOne(Init(x), s, t, i);
      if i == |s| - 1 {
        assert Init(t) == Init(s);
      } else {
        assert Last(s) == Last(t);
        assert ReplacedAt(Init(s), Init(t), i);
        ReplacementMovesByOne(x, Init(s), Init(t), i);
        ReplacementMovesByOne(Init(x), Init(s), Init(t), i);
      }
    }
  }

  lemma EditMovesByOne(x: string, s: string, t: string)
    requires OneEdit(s, t)
    ensures -1 <= Distance(x, t) - Distance(x, s) <= 1
  {
    var i: nat :| InsertedAt(s, t, i) || InsertedAt(t, s, i) || ReplacedAt(s, t, i);
    if InsertedAt(s, t, i) {
      InsertionMovesByOne(x, s, t, i);
    } else if InsertedAt(t, s, i) {
      InsertionMovesByOne(x, t, s, i);
    } else {
      ReplacementMovesByOne(x, s, t, i);
    }
  }

  lemma {:induction false} ChainMovesByItsLength(x: string, chain: seq<string>, s: string, t: string)
    requires IsChain(chain, s, t)
    ensures Distance(x, t) <= Distance(x, s) + |chain| - 1
    decreases |chain|
  {
    if |chain| > 1 {
      EditMovesByOne(x, chain[0], chain[1]);
      ChainMovesByItsLength(x, chain[1..], chain[1], t);
    }
  }

  lemma {:induction false} SelfDistance(s: string)
    ensures Distance(s, s) == 0
  {
    if s != "" {
      SelfDistance(Init(s));
    }
  }

  // ---------- The distance is reached by some chain ----------

  lemma Extend(chain: seq<string>, left: string, mid: string, right: string)
    requires IsChain(chain, left, mid) && OneEdit(mid, right)
    ensures IsChain(chain + [right], left, right)
  {
  }

  lemma AppendingKeepsEdit(s: string, t: string, c: char)
    requires OneEdit(s, t)
    ensures OneEdit(s + [c], t + [c])
  {
    var i: nat :| InsertedAt(s, t, i) || InsertedAt(t, s, i) || ReplacedAt(s, t, i);
    if InsertedAt(s, t, i) {
      assert InsertedAt(s + [c], t + [c], i);
    } else if InsertedAt(t, s, i) {
      assert InsertedAt(t + [c], s + [c], i);
    } else {
      assert ReplacedAt(s + [c], t + [c], i);
    }
  }

  ghost function Suffixed(chain: seq<string>, c: char): seq<string> {
    seq(|chain|, k requires 0 <= k < |chain| => chain[k] + [c])
  }

  lemma SuffixedIsChain(chain: seq<string>, left: string, right: string, c: char)
    requires IsChain(chain, left, right)
    ensures IsChain(Suffixed(chain, c), left + [c], right + [c])
  {
    forall k | 0 <= k < |chain| - 1
      ensures OneEdit(Suffixed(chain, c)[k], Suffixed(chain, c)[k + 1])
    {
      AppendingKeepsEdit(chain[k], chain[k + 1], c);
    }
  }

  lemma Prepend(chain: seq<string>, left: string, mid: string, right: string)
    requires IsChain(chain, mid, right) && OneEdit(left, mid)
    ensures IsChain([left] + chain, left, right)
  {
    var longer := [left] + chain;
    forall k | 0 <= k < |longer| - 1 ensures OneEdit(longer[k], longer[k + 1]) {
      if k > 0 {
        assert OneEdit(chain[k - 1], chain[k]);
      }
    }
  }

  lemma LastInsertion(s: string)
    requires s != ""
    ensures OneEdit(Init(s), s) && OneEdit(s, Init(s))
  {
    assert InsertedAt(Init(s), s, |s| - 1);
  }

  lemma AlignLast(a: string, b: string, rest: seq<string>) returns (chain: seq<string>)
    requires a != "" && b != "" && IsChain(rest, Init(a), Init(b))
    ensures IsChain(chain, a, b)
    ensures |chain| == |rest| + if Last(a) != Last(b) then 1 else 0
  {
    var middle := Init(b) + [Last(a)];
    SuffixedIsChain(rest, Init(a), Init(b), Last(a));
    assert Init(a) + [Last(a)] == a;
    chain := Suffixed(rest, Last(a));
    assert IsChain(chain, a, middle);
    if Last(a) == Last(b) {
      assert middle == b;
    } else {
      assert ReplacedAt(middle, b, |b| - 1);
      Extend(chain, a, middle, b);
      chain := chain + [b];
    }
  }

  lemma {:induction false} ShortestChain(a: string, b: string) returns (chain: seq<string>)
    ensures IsChain(chain, a, b) && |chain| == Distance(a, b) + 1
    decreases |a| + |b|
  {
    if a == "" && b == "" {
      chain := [a];
    } else if b != "" && Distance(a, b) == Distance(a, Init(b)) + 1 {
      chain := ShortestChain(a, Init(b));
      LastInsertion(b);
      Extend(chain, a, Init(b), b);
      chain := chain + [b];
    } else if a != "" && Distance(a, b) == Distance(Init(a), b) + 1 {
      chain := ShortestChain(Init(a), b);
      LastInsertion(a);
      Prepend(chain, a, Init(a), b);
      chain := [a] + chain;
    } else {
      chain := ShortestChain(Init(a), Init(b));
      chain := AlignLast(a, b, chain);
    }
  }

  /** No shorter chain exists and this many edits suffice, edits in any order and at any place. */
  lemma DistanceIsLeastEdits(a: string, b: string)
    ensures IsLeastEdits(a, b, Distance(a, b))
  {
    var shortest := ShortestChain(a, b);
    forall chain | IsChain(chain, a, b)
      ensures Distance(a, b) + 1 <= |chain|
    {
      SelfDistance(a);
      ChainMovesByItsLength(a, chain, a, b);
    }
  }

  // ---------- It is a metric, within the bounds the lengths give ----------

  lemma OneEditIsSymmetric(s: string, t: string)
    requires OneEdit(s, t)
    ensures OneEdit(t, s)
  {
    var i: nat :| InsertedAt(s, t, i) || InsertedAt(t, s, i) || ReplacedAt(s, t, i);
    if ReplacedAt(s, t, i) {
      assert ReplacedAt(t, s, i);
    }
  }

  ghost function Reversed(chain: seq<string>): seq<string> {
    seq(|chain|, k requires 0 <= k < |chain| => chain[|chain| - 1 - k])
  }

  lemma ReversedIsChain(chain: seq<string>, left: string, right: string)
    requires IsChain(chain, left, right)
    ensures IsChain(Reversed(chain), right, left)
  {
    var back := Reversed(chain);
    forall k | 0 <= k < |back| - 1 ensures OneEdit(back[k], back[k + 1]) {
      OneEditIsSymmetric(chain[|chain| - 2 - k], chain[|chain| - 1 - k]);
    }
  }

  lemma {:induction false} DistanceAtMostReverse(a: string, b: string)
    ensures Distance(b, a) <= Distance(a, b)
  {
    var chain := ShortestChain(a, b);
    ReversedIsChain(chain, a, b);
    DistanceIsLeastEdits(b, a);
  }

  lemma {:induction false} Symmetric(a: string, b: string)
    ensures Distance(a, b) == Distance(b, a)
  {
    DistanceAtMostReverse(a, b);
    DistanceAtMostReverse(b, a);
  }

  lemma {:induction false} Triangle(a: string, b: string, c: string)
    ensures Distance(a, c) <= Distance(a, b) + Distance(b, c)
  {
    var chain := ShortestChain(b, c);
    ChainMovesByItsLength(a, chain, b, c);
  }

  lemma {:induction false} ZeroExactlyOnEqual(a: string, b: string)
    ensures Distance(a, b) == 0 <==> a == b
  {
    SelfDistance(a);
    var chain := ShortestChain(a, b);
  }

  lemma {:induction false} BetweenLengths(a: string, b: string)
    ensures |a| - |b| <= Distance(a, b) && |b| - |a| <= Distance(a, b)
    ensures Distance(a, b) <= |a| || Distance(a, b) <= |b|
    decreases |a| + |b|
  {
    if a != "" && b != "" {
      BetweenLengths(a, Init(b));
      BetweenLengths(Init(a), b);
      BetweenLengths(Init(a), Init(b));
    }
  }
}
