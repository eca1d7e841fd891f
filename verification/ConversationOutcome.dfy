/**
 What a scope's history is told: the packet is determined by the history and the question, although
 the ranking and the budget are specified without naming an algorithm. With the independence of the
 scopes it follows that no operation on another scope shows in a packet.
 */
module ConversationOutcome {
  import opened Text
  import opened Ranking
  import Digest
  import opened ConversationContext
  import opened ConversationScopes
  import opened ConversationPacket

  // ---------- The best few are determined ----------

  ghost function Members<T(!new)>(s: seq<T>): set<T> {
    set x | x in s
  }

  lemma {:induction false} MembersOfDistinct<T(!new)>(s: seq<Scored<T>>)
    requires Distinct(s)
    ensures |Members(s)| == |s|
  {
    if s != [] {
      var front, last := s[..|s| - 1], s[|s| - 1];
      MembersOfDistinct(front);
      assert s == front + [last];
      assert Members(s) == Members(front) + {last};
      assert last !in front;
    }
  }

  lemma NotBothBeat<T>(a: Scored<T>, b: Scored<T>)
    ensures !(Beats(a, b) && Beats(b, a))
  {
  }

  /** Two choices of the best hold the same items: one left out of either would have to beat and be beaten. */
  lemma {:induction false} BestIsDetermined<T(!new)>(
    a: seq<Scored<T>>, b: seq<Scored<T>>, scored: seq<Scored<T>>, limit: nat)
    requires IsBest(a, scored, limit) && IsBest(b, scored, limit)
    ensures Members(a) == Members(b)
  {
    MembersOfDistinct(a);
    MembersOfDistinct(b);
    if x :| x in Members(a) && x !in Members(b) {
      OtherWayToo(Members(a), Members(b), x);
      var y :| y in Members(b) && y !in Members(a);
      NotBothBeat(x, y);
      assert false;
    }
    OfOneSize(Members(a), Members(b));
  }

  lemma OtherWayToo<T(!new)>(a: set<T>, b: set<T>, x: T)
    requires |a| <= |b| && x in a && x !in b
    ensures exists y :: y in b && y !in a
  {
    if forall y | y in b :: y in a {
      Smaller(b, a, x);
      assert false;
    }
  }

  lemma {:induction false} OfOneSize<T(!new)>(a: set<T>, b: set<T>)
    requires |a| == |b| && a <= b
    ensures a == b
  {
    if x :| x in b && x !in a {
      Smaller(a, b, x);
      assert false;
    }
  }

  lemma {:induction false} Smaller<T(!new)>(a: set<T>, b: set<T>, x: T)
    requires a <= b && x in b && x !in a
    ensures |a| < |b|
    decreases a
  {
    if a != {} {
      var y :| y in a;
      Smaller(a - {y}, b - {y}, x);
    }
  }

  // ---------- So is the selection ----------

  lemma LastIsGreatest(s: seq<Turn>, turn: Turn)
    requires s != [] && Increasing(s) && turn in Members(s)
    ensures turn.sequence <= s[|s| - 1].sequence
    ensures turn.sequence == s[|s| - 1].sequence ==> turn == s[|s| - 1]
  {
    var i :| 0 <= i < |s| && s[i] == turn;
  }

  lemma FrontMembers(s: seq<Turn>)
    requires s != [] && Increasing(s)
    ensures Increasing(s[..|s| - 1]) && s[|s| - 1] in Members(s)
    ensures Members(s[..|s| - 1]) == Members(s) - {s[|s| - 1]}
  {
    var n := |s| - 1;
    assert s == s[..n] + [s[n]];
    assert s[n] !in s[..n];
  }

  lemma {:induction false} IncreasingIsDetermined(a: seq<Turn>, b: seq<Turn>)
    requires Increasing(a) && Increasing(b) && Members(a) == Members(b)
    ensures a == b
  {
    if a == [] || b == [] {
      EmptyMembers(a);
      EmptyMembers(b);
    } else {
      hide Members, Increasing;
      FrontMembers(a);
      FrontMembers(b);
      LastIsGreatest(b, a[|a| - 1]);
      LastIsGreatest(a, b[|b| - 1]);
      IncreasingIsDetermined(a[..|a| - 1], b[..|b| - 1]);
      assert a == a[..|a| - 1] + [a[|a| - 1]];
      assert b == b[..|b| - 1] + [b[|b| - 1]];
    }
  }

  lemma EmptyMembers(s: seq<Turn>)
    ensures Members(s) == {} <==> s == []
  {
    if s != [] {
      assert s[0] in Members(s);
    }
  }

  lemma {:induction false} SelectionIsDetermined(
    lex: Lexicon, tokens: set<string>, history: seq<Turn>,
    relevant: seq<Scored<Turn>>, selected: seq<Turn>, relevant': seq<Scored<Turn>>, selected': seq<Turn>)
    requires IsSelection(lex, tokens, history, relevant, selected)
    requires IsSelection(lex, tokens, history, relevant', selected')
    ensures Members(relevant) == Members(relevant') && selected == selected'
  {
    BestIsDetermined(relevant, relevant', Matches(lex, tokens, Older(history)), MAX_RELEVANT_PAIRS);
    hide IsBest, Increasing;
    assert forall x :: x in relevant <==> x in Members(relevant);
    assert forall x :: x in relevant' <==> x in Members(relevant');
    assert Members(selected) == Members(selected');
    IncreasingIsDetermined(selected, selected');
  }

  // ---------- And the messages ----------

  lemma CharsOfPrefix(all: seq<Message>, n: nat)
    requires n <= |all|
    ensures Chars(all[..n]) <= Chars(all)
  {
    ContentsOfPrefix(all, n);
  }

  /** Before its last message a cut transcript has not used up the budget. */
  lemma PartBelow(messages: seq<Message>, all: seq<Message>, budget: nat, k: nat)
    requires IsBudgeted(messages, all, budget) && Chars(all) > budget > 0 && k < |messages|
    ensures Chars(all[..k]) < budget
  {
    var m := |messages| - 1;
    assert messages[..m][..k] == all[..k];
    CharsOfPrefix(messages[..m], k);
  }

  /** With its last message whole it would use up the budget. */
  lemma WholeReaches(messages: seq<Message>, all: seq<Message>, budget: nat)
    requires IsBudgeted(messages, all, budget) && Chars(all) > budget > 0
    ensures Chars(all[..|messages|]) >= budget
  {
    var m := |messages| - 1;
    assert all[..m + 1][..m] == messages[..m];
  }

  lemma BudgetStopsOnce(a: seq<Message>, b: seq<Message>, all: seq<Message>, budget: nat)
    requires IsBudgeted(a, all, budget) && IsBudgeted(b, all, budget) && Chars(all) > budget > 0
    ensures |a| >= |b|
  {
    WholeReaches(a, all, budget);
    if |a| < |b| {
      PartBelow(b, all, budget, |a|);
    }
  }

  lemma {:induction false} BudgetedIsDetermined(a: seq<Message>, b: seq<Message>, all: seq<Message>, budget: nat)
    requires IsBudgeted(a, all, budget) && IsBudgeted(b, all, budget)
    ensures a == b
  {
    if Chars(all) > budget > 0 {
      BudgetStopsOnce(a, b, all, budget);
      BudgetStopsOnce(b, a, all, budget);
      var n := |a| - 1;
      assert |a[n].content| == |b[n].content|;
      assert a[n].content == all[n].content[..|a[n].content|] == b[n].content;
      assert a == a[..n] + [a[n]] && b == b[..n] + [b[n]];
    }
  }

  // ---------- One packet for a history and a question ----------

  lemma {:induction false} PacketIsDetermined(
    lex: Lexicon, history: seq<Turn>, text: string,
    relevant: seq<Scored<Turn>>, selected: seq<Turn>, packet: Packet,
    relevant': seq<Scored<Turn>>, selected': seq<Turn>, packet': Packet)
    requires IsPacket(lex, history, text, relevant, selected, packet)
    requires IsPacket(lex, history, text, relevant', selected', packet')
    ensures packet == packet' && selected == selected'
  {
    hide IsSelection, IsBudgeted, IsPacketDigest, Transcript;
    SelectionIsDetermined(lex, lex.tokens(text), history, relevant, selected, relevant', selected');
    BudgetedIsDetermined(packet.messages, packet'.messages, Transcript(selected), MAX_MESSAGE_CHARS);
    DigestIsDetermined(lex, history, selected, packet.digest, packet'.digest);
  }

  /** Of two tails neither can have a turn the other lacks: it would be older than one the first lacks. */
  lemma TailHolds(history: seq<Turn>, selected: seq<Turn>, a: seq<Turn>, b: seq<Turn>, turn: Turn)
    requires IsTail(history, selected, a) && IsTail(history, selected, b) && turn in a
    ensures turn in b
  {
    hide IsLeftOut;
    if turn !in b {
      MembersOfIncreasing(a);
      MembersOfIncreasing(b);
      assert forall other | other in b :: other in a;
      Smaller(Members(b), Members(a), turn);
      assert false;
    }
  }

  lemma {:induction false} MembersOfIncreasing(s: seq<Turn>)
    requires Increasing(s)
    ensures |Members(s)| == |s|
  {
    if s != [] {
      FrontMembers(s);
      MembersOfIncreasing(s[..|s| - 1]);
    }
  }

  lemma {:induction false} TailIsDetermined(history: seq<Turn>, selected: seq<Turn>, a: seq<Turn>, b: seq<Turn>)
    requires IsTail(history, selected, a) && IsTail(history, selected, b)
    ensures a == b
  {
    hide IsLeftOut;
    forall turn ensures turn in Members(a) <==> turn in Members(b) {
      if turn in a {
        TailHolds(history, selected, a, b, turn);
      } else if turn in b {
        TailHolds(history, selected, b, a, turn);
      }
    }
    IncreasingIsDetermined(a, b);
  }

  lemma {:induction false} DigestIsDetermined(
    lex: Lexicon, history: seq<Turn>, selected: seq<Turn>, digest: string, digest': string)
    requires IsPacketDigest(lex, history, selected, digest) && IsPacketDigest(lex, history, selected, digest')
    ensures digest == digest'
  {
    hide IsTail, Digest.IsLongestSuffix;
    var all := Lines(lex, Evicted(history));
    var lines, tail :| Digest.IsLongestSuffix(lines, all, MAX_DIGEST_CHARS) && IsTail(history, selected, tail)
      && digest == LastN(Join("\n", lines + Lines(lex, tail)), MAX_DIGEST_CHARS);
    var lines', tail' :| Digest.IsLongestSuffix(lines', all, MAX_DIGEST_CHARS) && IsTail(history, selected, tail')
      && digest' == LastN(Join("\n", lines' + Lines(lex, tail')), MAX_DIGEST_CHARS);
    Digest.LongestSuffixIsUnique(lines, lines', all, MAX_DIGEST_CHARS);
    TailIsDetermined(history, selected, tail, tail');
  }

  /**
   Whatever else happened in other scopes, what a scope is told is what it would be told in the run in
   which nothing else happened.
   */
  lemma {:induction false} PacketsDoNotInterfere(
    lex: Lexicon, ops: seq<Op>, scope: Scope, text: string,
    relevant: seq<Scored<Turn>>, selected: seq<Turn>, packet: Packet,
    relevant': seq<Scored<Turn>>, selected': seq<Turn>, alone: Packet)
    requires IsComposed(lex, HistoryOf(Run(lex, map[], ops), scope), text, relevant, selected, packet)
    requires IsComposed(lex, HistoryOf(Run(lex, map[], Restrict(ops, scope)), scope), text, relevant', selected', alone)
    ensures packet == alone && selected == selected'
  {
    hide IsPacket;
    ScopesDoNotInterfere(lex, map[], ops, scope);
    var history := HistoryOf(Run(lex, map[], ops), scope);
    if history != [] {
      PacketIsDetermined(lex, history, text, relevant, selected, packet, relevant', selected', alone);
    }
  }

  // ---------- And what a search finds ----------

  /** The rows a search returns are determined by the rows it ranges over and the query. */
  lemma {:induction false} SearchIsDetermined(
    lex: Lexicon, query: set<string>, rows: seq<Turn>, limit: nat, a: seq<Scored<Turn>>, b: seq<Scored<Turn>>)
    requires IsBest(a, Matches(lex, query, rows), limit) && InOrder(a)
    requires IsBest(b, Matches(lex, query, rows), limit) && InOrder(b)
    ensures Items(a) == Items(b)
  {
    BestIsDetermined(a, b, Matches(lex, query, rows), limit);
    ItemsAreIncreasing(lex, query, rows, limit, a);
    ItemsAreIncreasing(lex, query, rows, limit, b);
    MembersOfItems(a);
    MembersOfItems(b);
    IncreasingIsDetermined(Items(a), Items(b));
  }

  lemma ItemsAreIncreasing(lex: Lexicon, query: set<string>, rows: seq<Turn>, limit: nat, best: seq<Scored<Turn>>)
    requires IsBest(best, Matches(lex, query, rows), limit) && InOrder(best)
    ensures Increasing(Items(best))
  {
    assert forall i | 0 <= i < |best| :: best[i] in best && best[i].sequence == best[i].item.sequence;
  }

  lemma MembersOfItems(best: seq<Scored<Turn>>)
    ensures Members(Items(best)) == set x | x in Members(best) :: x.item
  {
    forall i | 0 <= i < |best| ensures best[i].item in Members(Items(best)) {
      assert Items(best)[i] in Items(best);
    }
  }
}
