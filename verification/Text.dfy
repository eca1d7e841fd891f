/**
 Text as the assistant bounds it. The character classes, the tokeniser, the whitespace compaction
 and the folding of case are given from outside; everything else about text is spelled out here.
 */
module Text {

  datatype Lexicon = Lexicon(
    isSpace: char -> bool,
    tokens: string -> set<string>,
    compact: string -> string,
    fold: string -> string)

  const NUL: char := 0 as char

  function Take(s: string, limit: nat): (r: string)
    ensures |r| == (if |s| <= limit then |s| else limit) && r <= s
  {
    if |s| <= limit then s else s[..limit]
  }

  function LastN<T>(s: seq<T>, n: nat): (r: seq<T>)
    ensures |r| == if |s| <= n then |s| else n
  {
    if |s| <= n then s else s[|s| - n..]
  }

  function WithoutNul(s: string): (r: string)
    ensures |r| <= |s| && NUL !in r
    ensures NUL !in s ==> r == s
  {
    if s == "" then ""
    else if s[0] == NUL then WithoutNul(s[1..])
    else [s[0]] + WithoutNul(s[1..])
  }

  function StripLeft(isSpace: char -> bool, s: string): (r: string)
    ensures |r| <= |s| && r == s[|s| - |r|..]
    ensures r != "" ==> !isSpace(r[0])
  {
    if s != "" && isSpace(s[0]) then StripLeft(isSpace, s[1..]) else s
  }

  function StripRight(isSpace: char -> bool, s: string): (r: string)
    ensures r <= s
    ensures r != "" ==> !isSpace(r[|r| - 1])
  {
    if s != "" && isSpace(s[|s| - 1]) then StripRight(isSpace, s[..|s| - 1]) else s
  }

  function Strip(isSpace: char -> bool, s: string): string {
    StripRight(isSpace, StripLeft(isSpace, s))
  }

  /** Drops NULs and surrounding whitespace, then cuts. */
  function Bounded(isSpace: char -> bool, s: string, limit: nat): (r: string)
    ensures |r| <= limit
  {
    Take(Strip(isSpace, WithoutNul(s)), limit)
  }

  /** What every bounded text satisfies and every prefix of one inherits. */
  predicate Presentable(isSpace: char -> bool, s: string) {
    NUL !in s && (s != "" ==> !isSpace(s[0]))
  }

  lemma BoundedIsPresentable(isSpace: char -> bool, s: string, limit: nat)
    ensures Presentable(isSpace, Bounded(isSpace, s, limit))
  {
    hide WithoutNul, StripLeft, StripRight;
    var clean := WithoutNul(s);
    var left := StripLeft(isSpace, clean);
    assert NUL !in left by {
      SuffixHasNoNul(clean, left);
    }
    PrefixIsPresentable(isSpace, left, Bounded(isSpace, s, limit));
  }

  lemma SuffixHasNoNul(s: string, suffix: string)
    requires NUL !in s && |suffix| <= |s| && suffix == s[|s| - |suffix|..]
    ensures NUL !in suffix
  {
  }

  lemma PrefixIsPresentable(isSpace: char -> bool, s: string, prefix: string)
    requires Presentable(isSpace, s) && prefix <= s
    ensures Presentable(isSpace, prefix)
  {
    if prefix != "" {
      assert prefix[0] == s[0];
    }
    forall c | c in prefix ensures c in s {
      var k :| 0 <= k < |prefix| && prefix[k] == c;
      assert s[k] == c;
    }
  }

  lemma {:induction false} StripRightKeepsFirst(isSpace: char -> bool, s: string)
    requires s != "" && !isSpace(s[0])
    ensures StripRight(isSpace, s) != ""
  {
    if isSpace(s[|s| - 1]) {
      StripRightKeepsFirst(isSpace, s[..|s| - 1]);
    }
  }

  lemma StripOfPresentable(isSpace: char -> bool, s: string)
    requires Presentable(isSpace, s)
    ensures Strip(isSpace, WithoutNul(s)) == StripRight(isSpace, s)
    ensures s != "" ==> StripRight(isSpace, s) != ""
  {
    assert WithoutNul(s) == s && StripLeft(isSpace, s) == s;
    if s != "" {
      StripRightKeepsFirst(isSpace, s);
    }
  }

  /** A presentable text that fits only loses the whitespace at its end. */
  lemma BoundedOfPresentable(isSpace: char -> bool, s: string, limit: nat)
    requires Presentable(isSpace, s) && |s| <= limit
    ensures Bounded(isSpace, s, limit) == StripRight(isSpace, s)
    ensures s != "" ==> StripRight(isSpace, s) != ""
  {
    StripOfPresentable(isSpace, s);
  }

  /** Bounding twice, with a limit that is no smaller, is bounding once up to trailing whitespace. */
  lemma BoundedTwice(isSpace: char -> bool, s: string, limit: nat)
    ensures Bounded(isSpace, Bounded(isSpace, s, limit), limit) == StripRight(isSpace, Bounded(isSpace, s, limit))
  {
    BoundedIsPresentable(isSpace, s, limit);
    BoundedOfPresentable(isSpace, Bounded(isSpace, s, limit), limit);
  }

  function Digit(n: nat): char
    requires n < 10
  {
    "0123456789"[n]
  }

  function Decimal(n: nat): (r: string)
    ensures r != ""
  {
    if n < 10 then [Digit(n)] else Decimal(n / 10) + [Digit(n % 10)]
  }

  /** The number that some decimal digits stand for. */
  function ValueOf(digits: string): int {
    if digits == "" then 0
    else ValueOf(digits[..|digits| - 1]) * 10 + (digits[|digits| - 1] as int - '0' as int)
  }

  predicate AreDigits(s: string) {
    forall c | c in s :: '0' <= c <= '9'
  }

  /** A number is written in digits that stand for it, without leading zeros. */
  lemma {:induction false} DecimalIsValue(n: nat)
    ensures AreDigits(Decimal(n)) && ValueOf(Decimal(n)) == n
    ensures Decimal(n)[0] == '0' ==> n == 0
  {
    hide Digit, ValueOf, Decimal, AreDigits;
    DecimalStep(n);
    DigitIsValue(n % 10);
    if n < 10 {
      OneMoreDigit("", Digit(n));
      assert "" + [Digit(n)] == [Digit(n)];
    } else {
      DecimalIsValue(n / 10);
      OneMoreDigit(Decimal(n / 10), Digit(n % 10));
    }
  }

  lemma DecimalStep(n: nat)
    ensures Decimal(n) == if n < 10 then [Digit(n)] else Decimal(n / 10) + [Digit(n % 10)]
    ensures n < 10 && Digit(n) == '0' ==> n == 0
  {
  }

  lemma DigitIsValue(n: nat)
    requires n < 10
    ensures '0' <= Digit(n) <= '9' && Digit(n) as int - '0' as int == n
  {
  }

  lemma OneMoreDigit(digits: string, digit: char)
    requires '0' <= digit <= '9'
    ensures ValueOf(digits + [digit]) == ValueOf(digits) * 10 + (digit as int - '0' as int)
    ensures digits == "" ==> AreDigits(digits) && ValueOf(digits) == 0
    ensures AreDigits(digits) ==> AreDigits(digits + [digit])
  {
    assert (digits + [digit])[..|digits|] == digits;
  }

  /** The order of strings by their first difference. */
  predicate AtMost(a: string, b: string) {
    a == "" || (b != "" && (a[0] < b[0] || (a[0] == b[0] && AtMost(a[1..], b[1..]))))
  }

  lemma {:induction false} AtMostIsOrder(a: string, b: string)
    ensures AtMost(a, b) || AtMost(b, a)
    ensures AtMost(a, b) && AtMost(b, a) ==> a == b
  {
    if a != "" && b != "" {
      AtMostIsOrder(a[1..], b[1..]);
      assert a == [a[0]] + a[1..] && b == [b[0]] + b[1..];
    }
  }

  lemma {:induction false} AtMostIsTransitive(a: string, b: string, c: string)
    requires AtMost(a, b) && AtMost(b, c)
    ensures AtMost(a, c)
  {
    if a != "" && a[0] == b[0] == c[0] {
      AtMostIsTransitive(a[1..], b[1..], c[1..]);
    }
  }

  function Join(separator: string, parts: seq<string>): string {
    if parts == [] then ""
    else if |parts| == 1 then parts[0]
    else parts[0] + separator + Join(separator, parts[1..])
  }

  lemma {:induction false} JoinBoth(separator: string, a: seq<string>, b: seq<string>)
    requires a != [] && b != []
    ensures Join(separator, a + b) == Join(separator, a) + separator + Join(separator, b)
  {
    assert (a + b)[1..] == a[1..] + b;
    if |a| > 1 {
      JoinBoth(separator, a[1..], b);
    }
  }

  lemma JoinOfFull(separator: string, parts: seq<string>)
    requires forall part | part in parts :: part != ""
    ensures Join(separator, parts) == "" <==> parts == []
  {
    if parts != [] {
      assert parts[0] in parts;
    }
  }

  /** The parts of a text between the places where the separator stands. */
  function Split(separator: char, s: string): (r: seq<string>)
    ensures r != []
  {
    if s == "" then [""]
    else
      var rest := Split(separator, s[1..]);
      if s[0] == separator then [""] + rest else [[s[0]] + rest[0]] + rest[1..]
  }

  /** Joined parts that do not hold the separator are found again by splitting. */
  lemma {:induction false} JoinedPartsAreFound(separator: char, parts: seq<string>)
    requires parts != [] && forall part | part in parts :: separator !in part
    ensures Split(separator, Join([separator], parts)) == parts
  {
    if |parts| == 1 {
      SplitOfPart(separator, parts[0]);
    } else {
      JoinedPartsAreFound(separator, parts[1..]);
      SplitAfterPart(separator, parts[0], Join([separator], parts[1..]));
      assert parts == [parts[0]] + parts[1..];
      assert parts[0] + [separator] + Join([separator], parts[1..])
          == parts[0] + ([separator] + Join([separator], parts[1..]));
    }
  }

  lemma {:induction false} SplitOfPart(separator: char, part: string)
    requires separator !in part
    ensures Split(separator, part) == [part]
  {
    if part != "" {
      SplitOfPart(separator, part[1..]);
      assert [part[0]] + part[1..] == part;
    }
  }

  lemma {:induction false} SplitAfterPart(separator: char, part: string, rest: string)
    requires separator !in part
    ensures Split(separator, part + ([separator] + rest)) == [part] + Split(separator, rest)
  {
    var all := part + ([separator] + rest);
    if part == "" {
      assert all[1..] == rest;
    } else {
      assert all[1..] == part[1..] + ([separator] + rest);
      SplitAfterPart(separator, part[1..], rest);
      assert [part[0]] + part[1..] == part;
    }
  }
}
