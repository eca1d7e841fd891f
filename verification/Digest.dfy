/** The character-budgeted digest: which lines a first-in-first-out trimming loop keeps. */
module Digest {

  /** The size of lines with one separator counted per line. */
  function Total(lines: seq<string>): nat {
    if lines == [] then 0 else |lines[0]| + 1 + Total(lines[1..])
  }

  function Suffix(all: seq<string>, n: nat): seq<string>
    requires n <= |all|
  {
    all[|all| - n..]
  }

  /** kept is a suffix of all within the budget, and any longer suffix is over it. */
  ghost predicate IsLongestSuffix(kept: seq<string>, all: seq<string>, budget: nat) {
    && |kept| <= |all| && kept == Suffix(all, |kept|)
    && Total(kept) <= budget
    && forall n: nat | |kept| < n <= |all| :: Total(Suffix(all, n)) > budget
  }

  lemma {:induction false} TotalOfConcat(a: seq<string>, b: seq<string>)
    ensures Total(a + b) == Total(a) + Total(b)
  {
    if a == [] {
      assert a + b == b;
    } else {
      assert (a + b)[1..] == a[1..] + b;
      TotalOfConcat(a[1..], b);
    }
  }

  lemma {:induction false} LongestSuffixIsUnique(a: seq<string>, b: seq<string>, all: seq<string>, budget: nat)
    requires IsLongestSuffix(a, all, budget) && IsLongestSuffix(b, all, budget)
    ensures a == b
  {
  }

  /** Before trimming, the old lines plus the new one already exclude every longer suffix. */
  lemma LongerSuffixesStayOver(kept: seq<string>, all: seq<string>, line: string, budget: nat, n: nat)
    requires IsLongestSuffix(kept, all, budget) && |kept| + 1 < n <= |all| + 1
    ensures Total(Suffix(all + [line], n)) > budget
  {
    assert Suffix(all + [line], n) == Suffix(all, n - 1) + [line];
    TotalOfConcat(Suffix(all, n - 1), [line]);
  }
}
