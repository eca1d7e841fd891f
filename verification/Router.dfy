/** The part of the provider router that a document request uses: who is a candidate, and the counters. */
module Router {
  const MAX_FAILURES := 3

  datatype ProviderStatus = ProviderStatus(
    available: bool, consecutiveFailures: nat, cooldownUntil: real, requestsToday: nat, lastRequest: real)

  type Providers = map<string, ProviderStatus>

  predicate NoRepeats(values: seq<string>) {
    forall i, j | 0 <= i < j < |values| :: values[i] != values[j]
  }

  /** Some of the values, in their order. */
  predicate IsSubsequence(some: seq<string>, all: seq<string>) {
    some == [] ||
    (all != [] &&
     var front, last := all[..|all| - 1], all[|all| - 1];
     if some[|some| - 1] == last then IsSubsequence(some[..|some| - 1], front) else IsSubsequence(some, front))
  }

  lemma {:induction false} SubsequenceOfMore(some: seq<string>, all: seq<string>, value: string)
    requires IsSubsequence(some, all) && value !in some
    ensures IsSubsequence(some, all + [value])
    ensures IsSubsequence(some + [value], all + [value])
  {
    var more, longer := all + [value], some + [value];
    assert more[..|more| - 1] == all && more[|more| - 1] == value;
    assert longer[..|longer| - 1] == some && longer[|longer| - 1] == value;
    if some != [] {
      assert some[|some| - 1] in some;
    }
  }

  lemma {:induction false} SubsequenceIsShorter(some: seq<string>, all: seq<string>)
    requires IsSubsequence(some, all)
    ensures |some| <= |all| && forall value | value in some :: value in all
    decreases |all|
  {
    if some != [] {
      var front := all[..|all| - 1];
      assert all == front + [all[|all| - 1]] && some == some[..|some| - 1] + [some[|some| - 1]];
      if some[|some| - 1] == all[|all| - 1] {
        SubsequenceIsShorter(some[..|some| - 1], front);
      } else {
        SubsequenceIsShorter(some, front);
      }
    }
  }

  lemma {:induction false} PrefixOfSubsequence(some: seq<string>, n: nat, all: seq<string>)
    requires n <= |some| && IsSubsequence(some, all)
    ensures IsSubsequence(some[..n], all)
    decreases |all|
  {
    if n == |some| {
      assert some[..n] == some;
    } else if some[|some| - 1] == all[|all| - 1] {
      PrefixOfSubsequence(some[..|some| - 1], n, all[..|all| - 1]);
      assert some[..|some| - 1][..n] == some[..n];
      OneMoreBehind(some[..n], all[..|all| - 1], all[|all| - 1]);
      assert all[..|all| - 1] + [all[|all| - 1]] == all;
    } else {
      PrefixOfSubsequence(some, n, all[..|all| - 1]);
      OneMoreBehind(some[..n], all[..|all| - 1], all[|all| - 1]);
      assert all[..|all| - 1] + [all[|all| - 1]] == all;
    }
  }

  /** A longer list has no fewer subsequences. */
  lemma {:induction false} OneMoreBehind(some: seq<string>, all: seq<string>, value: string)
    requires IsSubsequence(some, all)
    ensures IsSubsequence(some, all + [value])
    decreases |all|, 1
  {
    var more := all + [value];
    assert more[..|more| - 1] == all;
    if some != [] && some[|some| - 1] == value {
      FrontIsSubsequence(some, all);
    }
  }

  lemma {:induction false} FrontIsSubsequence(some: seq<string>, all: seq<string>)
    requires some != [] && IsSubsequence(some, all)
    ensures IsSubsequence(some[..|some| - 1], all)
    decreases |all|, 0
  {
    var front, last := all[..|all| - 1], all[|all| - 1];
    if some[|some| - 1] == last {
      OneMoreBehind(some[..|some| - 1], front, last);
    } else {
      FrontIsSubsequence(some, front);
      OneMoreBehind(some[..|some| - 1], front, last);
    }
    assert front + [last] == all;
  }

  lemma {:induction false} SubsequenceTwice(a: seq<string>, b: seq<string>, c: seq<string>)
    requires IsSubsequence(a, b) && IsSubsequence(b, c)
    ensures IsSubsequence(a, c)
    decreases |c|
  {
    if a != [] {
      var front, last := c[..|c| - 1], c[|c| - 1];
      if b[|b| - 1] == last {
        if a[|a| - 1] == last {
          SubsequenceTwice(a[..|a| - 1], b[..|b| - 1], front);
        } else {
          SubsequenceTwice(a, b[..|b| - 1], front);
        }
      } else {
        SubsequenceTwice(a, b, front);
        OneMoreBehind(a, front, last);
        assert front + [last] == c;
      }
    }
  }

  predicate IsReady(status: ProviderStatus, now: real) {
    status.available && now >= status.cooldownUntil
  }

  predicate CanServe(providers: Providers, provider: string, now: real) {
    && provider in providers && IsReady(providers[provider], now)
    && providers[provider].consecutiveFailures < MAX_FAILURES
  }

  /** The table once a provider has replied; a provider that is not in it is not entered. */
  function AfterReply(providers: Providers, provider: string, now: real): Providers {
    if provider !in providers then providers
    else
      var status := providers[provider];
      providers[provider := status.(
        requestsToday := status.requestsToday + 1, consecutiveFailures := 0, lastRequest := now)]
  }

  function AfterReplies(providers: Providers, replies: seq<(string, real)>): Providers {
    if replies == [] then providers
    else
      var last := replies[|replies| - 1];
      AfterReply(AfterReplies(providers, replies[..|replies| - 1]), last.0, last.1)
  }

  function RepliesOf(replies: seq<(string, real)>, provider: string): nat {
    if replies == [] then 0
    else RepliesOf(replies[..|replies| - 1], provider) + if replies[|replies| - 1].0 == provider then 1 else 0
  }

  /**
   Over any run of replies: every reply is counted once, at the provider that gave it; nobody stops being a
   candidate by it, and exactly the providers that replied are readmitted after too many failures.
   */
  lemma {:induction false} RepliesReadmit(
    providers: Providers, replies: seq<(string, real)>, provider: string, later: real)
    ensures var after := AfterReplies(providers, replies);
      && after.Keys == providers.Keys
      && (CanServe(after, provider, later) <==>
            || CanServe(providers, provider, later)
            || (provider in providers && IsReady(providers[provider], later) && RepliesOf(replies, provider) > 0))
      && (provider in providers ==>
            && after[provider].requestsToday == providers[provider].requestsToday + RepliesOf(replies, provider)
            && after[provider].available == providers[provider].available
            && after[provider].cooldownUntil == providers[provider].cooldownUntil)
  {
    if replies != [] {
      RepliesReadmit(providers, replies[..|replies| - 1], provider, later);
    }
  }

  class AIRouter {
    var providers: Providers
    const hasModel: string -> bool

    constructor (providers: Providers, hasModel: string -> bool)
      ensures this.providers == providers && this.hasModel == hasModel
    {
      this.providers, this.hasModel := providers, hasModel;
    }

    predicate IsUsable(provider: string, now: real)
      reads this
    {
      CanServe(providers, provider, now)
    }

    /** The allowed providers that are usable when looked at, each once, and no others. */
    method Candidates(allowed: seq<string>, clock: nat -> real) returns (candidates: seq<string>)
      ensures NoRepeats(candidates) && (NoRepeats(allowed) ==> IsSubsequence(candidates, allowed))
      ensures forall p :: p in candidates <==>
                exists i :: 0 <= i < |allowed| && allowed[i] == p && IsUsable(p, clock(i))
      ensures forall p :: p in candidates <==>
                && p in providers && providers[p].available && providers[p].consecutiveFailures < 3
                && exists i :: 0 <= i < |allowed| && allowed[i] == p && providers[p].cooldownUntil <= clock(i)
    {
      candidates := [];
      for k := 0 to |allowed|
        invariant NoRepeats(candidates) && (NoRepeats(allowed) ==> IsSubsequence(candidates, allowed[..k]))
        invariant forall p :: p in candidates <==> exists i :: 0 <= i < k && allowed[i] == p && IsUsable(p, clock(i))
      {
        assert allowed[..k + 1] == allowed[..k] + [allowed[k]];
        if NoRepeats(allowed) {
          assert forall p | p in candidates :: p != allowed[k];
          SubsequenceOfMore(candidates, allowed[..k], allowed[k]);
        }
        if allowed[k] !in candidates && IsUsable(allowed[k], clock(k)) {
          candidates := candidates + [allowed[k]];
        }
      }
      assert allowed[..|allowed|] == allowed;
    }

    /** A reply counts one request and forgives earlier failures. */
    method CountReply(provider: string, now: real)
      modifies this
      ensures providers == AfterReply(old(providers), provider, now)
    {
      if provider in providers {
        providers := providers[provider := providers[provider].(
          requestsToday := providers[provider].requestsToday + 1, consecutiveFailures := 0, lastRequest := now)];
      }
    }
  }
}
