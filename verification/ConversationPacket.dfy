/**
 The bounded provider packet: which turns of a history it selects, how their text fills the
 character budget, and what the provider-side validator keeps of it.
 */
module ConversationPacket {
  import opened Text
  import opened Ranking
  import opened ConversationContext

  const MAX_RECENT_PAIRS := 8
  const MAX_RELEVANT_PAIRS := 4
  const MAX_MESSAGE_CHARS := 24_000
  const MAX_DIGEST_TAIL := 12

  datatype Role = User | Assistant

  datatype Message = Message(role: Role, content: string)

  datatype Packet = Packet(messages: seq<Message>, digest: string, coveredThrough: nat)

  // ---------- What is visible of a history ----------

  /** Archived turns, then exact ones. */
  ghost function Visible(history: seq<Turn>): seq<Turn> {
    LastN(CutAll(Evicted(history)), MAX_ARCHIVE_PAIRS) + LastN(history, MAX_SESSION_PAIRS)
  }

  ghost function Recent(history: seq<Turn>): seq<Turn> {
    LastN(history, MAX_RECENT_PAIRS)
  }

  ghost predicate Numbered(turns: seq<Turn>, first: nat) {
    forall i | 0 <= i < |turns| :: turns[i].sequence == first + i
  }

  /** Exactly the last 768 turns are visible, the newest 256 of them uncut. */
  lemma {:induction false} VisibleIsTheLastTurns(lex: Lexicon, history: seq<Turn>)
    requires IsHistory(lex, history)
    ensures |Visible(history)| == (if |history| <= 768 then |history| else 768)
    ensures Numbered(Visible(history), |history| - |Visible(history)| + 1)
    ensures forall i | 0 <= i < |Visible(history)| ::
              var turn := history[|history| - |Visible(history)| + i];
              Visible(history)[i] == if i < |Visible(history)| - MAX_SESSION_PAIRS then Cut(turn) else turn
  {
    hide IsText;
  }

  ghost function Older(history: seq<Turn>): seq<Turn> {
    var visible := Visible(history);
    if |visible| <= MAX_RECENT_PAIRS then [] else visible[..|visible| - MAX_RECENT_PAIRS]
  }

  // ---------- Selecting turns ----------

  function Overlap(lex: Lexicon, tokens: set<string>, turn: Turn): nat {
    |tokens * lex.tokens(turn.user + " " + turn.assistant)|
  }

  /** A turn scores one for each token of the new message that is said in it, by either side. */
  lemma OverlapCounts(lex: Lexicon, tokens: set<string>, turn: Turn)
    ensures Overlap(lex, tokens, turn) ==
      |set token | token in tokens && token in lex.tokens(turn.user + " " + turn.assistant)|
  {
    assert tokens * lex.tokens(turn.user + " " + turn.assistant) ==
           set token | token in tokens && token in lex.tokens(turn.user + " " + turn.assistant);
  }

  /** The turns that share a token with the new message, each with its score. */
  function Matches(lex: Lexicon, tokens: set<string>, turns: seq<Turn>): (r: seq<Scored<Turn>>)
    ensures |r| <= |turns|
    ensures forall x | x in r :: x.item in turns && x.sequence == x.item.sequence
                                 && x.overlap == Overlap(lex, tokens, x.item) > 0
  {
    if turns == [] then []
    else
      var last := turns[|turns| - 1];
      var front := Matches(lex, tokens, turns[..|turns| - 1]);
      var overlap := Overlap(lex, tokens, last);
      if overlap > 0 then front + [Scored(overlap, last.sequence, last)] else front
  }

  lemma {:induction false} MatchesMissNothing(lex: Lexicon, tokens: set<string>, turns: seq<Turn>, turn: Turn)
    requires turn in turns && Overlap(lex, tokens, turn) > 0
    ensures Scored(Overlap(lex, tokens, turn), turn.sequence, turn) in Matches(lex, tokens, turns)
  {
    if turns[|turns| - 1] != turn {
      MatchesMissNothing(lex, tokens, turns[..|turns| - 1], turn);
    }
  }

  lemma {:induction false} MatchesInOrder(lex: Lexicon, tokens: set<string>, turns: seq<Turn>, first: nat)
    requires Numbered(turns, first)
    ensures InOrder(Matches(lex, tokens, turns))
  {
    if turns != [] {
      var front := turns[..|turns| - 1];
      MatchesInOrder(lex, tokens, front, first);
      forall x | x in Matches(lex, tokens, front) ensures x.sequence < turns[|turns| - 1].sequence {
        var i :| 0 <= i < |front| && front[i] == x.item;
      }
    }
  }

  ghost predicate Increasing(turns: seq<Turn>) {
    forall i, j | 0 <= i < j < |turns| :: turns[i].sequence < turns[j].sequence
  }

  /**
   The newest eight turns and the best four matches among the older visible ones, no turn twice,
   in conversation order.
   */
  ghost predicate IsSelection(
    lex: Lexicon, tokens: set<string>, history: seq<Turn>, relevant: seq<Scored<Turn>>, selected: seq<Turn>)
  {
    && IsBest(relevant, Matches(lex, tokens, Older(history)), MAX_RELEVANT_PAIRS)
    && Increasing(selected)
    && |selected| == |relevant| + |Recent(history)|
    && (forall x | x in relevant :: x.item in selected)
    && (forall turn | turn in Recent(history) :: turn in selected)
    && (forall turn | turn in selected :: turn in Recent(history) || exists x :: x in relevant && x.item == turn)
  }

  function Unscored(turns: seq<Turn>): (r: seq<Scored<Turn>>)
    ensures |r| == |turns|
    ensures forall i | 0 <= i < |r| :: r[i] == Scored(0, turns[i].sequence, turns[i])
  {
    seq(|turns|, i requires 0 <= i < |turns| => Scored(0, turns[i].sequence, turns[i]))
  }

  function Items(scored: seq<Scored<Turn>>): (r: seq<Turn>)
    ensures |r| == |scored|
    ensures forall i | 0 <= i < |r| :: r[i] == scored[i].item
  {
    seq(|scored|, i requires 0 <= i < |scored| => scored[i].item)
  }

  lemma RelevantAndRecentAreDistinct(
    lex: Lexicon, tokens: set<string>, older: seq<Turn>, recent: seq<Turn>, relevant: seq<Scored<Turn>>, first: nat)
    requires Numbered(older + recent, first)
    requires IsBest(relevant, Matches(lex, tokens, older), MAX_RELEVANT_PAIRS)
    ensures Distinct(relevant + Unscored(recent))
    ensures forall x | x in relevant :: x.sequence == x.item.sequence
  {
    forall x, j | x in relevant && 0 <= j < |recent| ensures x.sequence < recent[j].sequence {
      assert x in Matches(lex, tokens, older);
      var i :| 0 <= i < |older| && older[i] == x.item;
      assert (older + recent)[i] == older[i] && (older + recent)[|older| + j] == recent[j];
    }
    assert forall j | 0 <= j < |recent| :: recent[j] == (older + recent)[|older| + j];
  }

  method Score(lex: Lexicon, tokens: set<string>, older: seq<Turn>) returns (scored: seq<Scored<Turn>>)
    ensures scored == Matches(lex, tokens, older)
  {
    scored := [];
    for i := 0 to |older|
      invariant scored == Matches(lex, tokens, older[..i])
    {
      assert older[..i + 1][..i] == older[..i];
      var overlap := Overlap(lex, tokens, older[i]);
      if overlap > 0 {
        scored := scored + [Scored(overlap, older[i].sequence, older[i])];
      }
    }
    assert older[..|older|] == older;
  }

  /** Ranks the older turns, keeps the best, and merges them with the recent ones in order. */
  method Select(lex: Lexicon, tokens: set<string>, older: seq<Turn>, recent: seq<Turn>, ghost first: nat)
    returns (ghost relevant: seq<Scored<Turn>>, selected: seq<Turn>, chosen: set<nat>)
    requires Numbered(older + recent, first)
    ensures IsBest(relevant, Matches(lex, tokens, older), MAX_RELEVANT_PAIRS)
    ensures Increasing(selected) && |selected| == |relevant| + |recent|
    ensures forall x | x in relevant :: x.item in selected
    ensures forall turn | turn in recent :: turn in selected
    ensures forall turn | turn in selected :: turn in recent || exists x :: x in relevant && x.item == turn
    ensures chosen == set x | x in relevant :: x.item.sequence
  {
    hide IsBest, Matches;
    var scored := Score(lex, tokens, older);
    assert Numbered(older, first) by {
      assert forall i | 0 <= i < |older| :: older[i] == (older + recent)[i];
    }
    MatchesInOrder(lex, tokens, older, first);
    var ranked := SortBestFirst(scored);
    var best := if |ranked| <= MAX_RELEVANT_PAIRS then ranked else ranked[..MAX_RELEVANT_PAIRS];
    TopIsBest(ranked, scored, MAX_RELEVANT_PAIRS);
    RelevantAndRecentAreDistinct(lex, tokens, older, recent, best, first);
    var merged := SortInOrder(best + Unscored(recent));
    selected := Items(merged);
    MergedItems(best, recent, merged);
    relevant := best;
    chosen := set x | x in best :: x.item.sequence;
  }

  lemma MergedItems(relevant: seq<Scored<Turn>>, recent: seq<Turn>, merged: seq<Scored<Turn>>)
    requires SameItems(merged, relevant + Unscored(recent)) && InOrder(merged)
    requires forall x | x in relevant :: x.sequence == x.item.sequence
    ensures Increasing(Items(merged))
    ensures forall x | x in relevant :: x.item in Items(merged)
    ensures forall turn | turn in recent :: turn in Items(merged)
    ensures forall turn | turn in Items(merged) :: turn in recent || exists x :: x in relevant && x.item == turn
  {
    var all := relevant + Unscored(recent);
    forall x | x in merged ensures x.sequence == x.item.sequence {
      assert x in all;
    }
    forall x | x in all ensures x.item in Items(merged) {
      assert x in merged;
      var i :| 0 <= i < |merged| && merged[i] == x;
      assert Items(merged)[i] == x.item;
    }
    forall turn | turn in recent ensures turn in Items(merged) {
      var i :| 0 <= i < |recent| && recent[i] == turn;
      assert Unscored(recent)[i] in all;
    }
    forall turn | turn in Items(merged)
      ensures turn in recent || exists x :: x in relevant && x.item == turn
    {
      var i :| 0 <= i < |merged| && Items(merged)[i] == turn;
      assert merged[i] in all;
    }
  }

  // ---------- Filling the character budget ----------

  function Chars(messages: seq<Message>): nat {
    if messages == [] then 0 else Chars(messages[..|messages| - 1]) + |messages[|messages| - 1].content|
  }

  function Contents(messages: seq<Message>): (r: string)
    ensures |r| == Chars(messages)
  {
    if messages == [] then "" else Contents(messages[..|messages| - 1]) + messages[|messages| - 1].content
  }

  function NonEmpty(message: Message): seq<Message> {
    if message.content == "" then [] else [message]
  }

  /** The transcript of some turns: a user message, then an assistant message, without empty ones. */
  function Transcript(turns: seq<Turn>): (r: seq<Message>)
    ensures |r| <= 2 * |turns|
    ensures forall m | m in r :: m.content != ""
  {
    if turns == [] then []
    else
      var last := turns[|turns| - 1];
      Transcript(turns[..|turns| - 1]) + NonEmpty(Message(User, last.user))
        + NonEmpty(Message(Assistant, last.assistant))
  }

  /** Of one turn the transcript has what the user said, and then what the assistant answered. */
  lemma TranscriptOfOne(turn: Turn)
    ensures Transcript([turn]) ==
            (if turn.user == "" then [] else [Message(User, turn.user)])
            + if turn.assistant == "" then [] else [Message(Assistant, turn.assistant)]
  {
    assert [turn][..0] == [];
  }

  /** The transcript of more turns follows that of the earlier ones. */
  lemma {:induction false} TranscriptOfBoth(a: seq<Turn>, b: seq<Turn>)
    ensures Transcript(a + b) == Transcript(a) + Transcript(b)
  {
    if b == [] {
      assert a + b == a;
    } else {
      assert (a + b)[..|a + b| - 1] == a + b[..|b| - 1];
      TranscriptOfBoth(a, b[..|b| - 1]);
    }
  }

  ghost predicate IsCutOf(cut: Message, whole: Message) {
    cut.role == whole.role && cut.content != "" && cut.content <= whole.content
  }

  /** All of it when it fits; otherwise whole messages and then one cut message, filling the budget. */
  ghost predicate IsBudgeted(messages: seq<Message>, all: seq<Message>, budget: nat) {
    if Chars(all) <= budget then messages == all
    else if budget == 0 then messages == []
    else
      && 0 < |messages| <= |all| && Chars(messages) == budget
      && messages[..|messages| - 1] == all[..|messages| - 1]
      && IsCutOf(messages[|messages| - 1], all[|messages| - 1])
  }

  ghost predicate NoneEmpty(messages: seq<Message>) {
    forall m | m in messages :: m.content != ""
  }

  lemma AppendedChars(messages: seq<Message>, next: Message)
    ensures Chars(messages + [next]) == Chars(messages) + |next.content|
  {
    assert (messages + [next])[..|messages|] == messages;
  }

  /** A budget with room left holds the whole of what came before. */
  lemma RoomMeansAll(messages: seq<Message>, all: seq<Message>, budget: nat)
    requires IsBudgeted(messages, all, budget) && Chars(messages) < budget
    ensures messages == all
  {
  }

  lemma BudgetRoom(messages: seq<Message>, all: seq<Message>, next: Message, budget: nat)
    requires IsBudgeted(messages, all, budget) && Chars(messages) < budget && next.content != ""
    ensures IsBudgeted(messages + [Message(next.role, Take(next.content, budget - Chars(messages)))],
                       all + [next], budget)
  {
    hide Chars;
    RoomMeansAll(messages, all, budget);
    var cut := Message(next.role, Take(next.content, budget - Chars(messages)));
    AppendedChars(messages, cut);
    AppendedChars(messages, next);
    assert (messages + [next])[..|messages|] == messages && (messages + [cut])[..|messages|] == messages;
  }

  lemma {:induction false} BudgetDone(messages: seq<Message>, all: seq<Message>, rest: seq<Message>, budget: nat)
    requires IsBudgeted(messages, all, budget) && Chars(messages) == budget
    requires NoneEmpty(all) && NoneEmpty(rest)
    ensures IsBudgeted(messages, all + rest, budget)
  {
    if rest == [] {
      assert all + rest == all;
    } else {
      var front := rest[..|rest| - 1];
      BudgetDone(messages, all, front, budget);
      assert (all + rest)[..|all + rest| - 1] == all + front;
      assert all + rest == (all + front) + [rest[|rest| - 1]];
      assert NoneEmpty(all + front);
      if messages == all + front && messages != [] {
        assert messages[|messages| - 1] in all + front;
      }
    }
  }

  lemma {:induction false} ContentsOfPrefix(all: seq<Message>, n: nat)
    requires n <= |all|
    ensures Contents(all[..n]) <= Contents(all)
  {
    if n == |all| {
      assert all[..n] == all;
    } else {
      ContentsOfPrefix(all[..|all| - 1], n);
      assert all[..|all| - 1][..n] == all[..n];
    }
  }

  lemma CutOfNext(messages: seq<Message>, all: seq<Message>, n: nat)
    requires |messages| == n + 1 <= |all| && messages[..n] == all[..n] && IsCutOf(messages[n], all[n])
    ensures Contents(messages) <= Contents(all[..n + 1])
  {
    assert all[..n + 1][..n] == all[..n];
  }

  /** The message contents run together are exactly the first characters of the transcript. */
  lemma BudgetedContents(messages: seq<Message>, all: seq<Message>, budget: nat)
    requires IsBudgeted(messages, all, budget)
    ensures Contents(messages) == Take(Contents(all), budget)
  {
    if Chars(all) > budget > 0 {
      var n := |messages| - 1;
      ContentsOfPrefix(all, n + 1);
      CutOfNext(messages, all, n);
    }
  }

  function Part(turn: Turn, k: nat): (r: seq<Message>)
    ensures forall m | m in r :: m.content != ""
  {
    (if k > 0 then NonEmpty(Message(User, turn.user)) else []) +
    (if k > 1 then NonEmpty(Message(Assistant, turn.assistant)) else [])
  }

  /** Appends messages turn by turn, cutting the one that would pass the budget and stopping there. */
  method FillBudget(selected: seq<Turn>, budget: nat) returns (messages: seq<Message>)
    ensures IsBudgeted(messages, Transcript(selected), budget) && Chars(messages) <= budget
  {
    hide IsBudgeted, Transcript;
    messages := [];
    var usedChars := 0;
    StartBudget(selected, budget);
    for i := 0 to |selected|
      invariant usedChars == Chars(messages) <= budget
      invariant IsBudgeted(messages, Transcript(selected[..i]), budget)
    {
      var turn := selected[i];
      ghost var done := Transcript(selected[..i]);
      assert done + Part(turn, 0) == done;
      var both := [Message(User, turn.user), Message(Assistant, turn.assistant)];
      for k := 0 to 2
        invariant usedChars == Chars(messages) <= budget
        invariant IsBudgeted(messages, done + Part(turn, k), budget)
      {
        PartGrows(done, turn, k);
        if both[k].content == "" {
          continue;
        }
        var remaining := budget - usedChars;
        if remaining <= 0 {
          RestOfTranscript(messages, selected, i, k, budget);
          return;
        }
        var bounded := Take(both[k].content, remaining);
        BudgetRoom(messages, done + Part(turn, k), both[k], budget);
        AppendedChars(messages, Message(both[k].role, bounded));
        messages := messages + [Message(both[k].role, bounded)];
        usedChars := usedChars + |bounded|;
      }
      if usedChars >= budget {
        RestOfTranscript(messages, selected, i, 2, budget);
        return;
      }
      TranscriptGrows(selected, i);
    }
    assert selected[..|selected|] == selected;
  }

  lemma StartBudget(selected: seq<Turn>, budget: nat)
    ensures IsBudgeted([], Transcript(selected[..0]), budget)
  {
  }

  lemma PartGrows(done: seq<Message>, turn: Turn, k: nat)
    requires k < 2
    ensures var next := if k == 0 then Message(User, turn.user) else Message(Assistant, turn.assistant);
      done + Part(turn, k + 1) == done + Part(turn, k) + NonEmpty(next)
      && (next.content == "" ==> done + Part(turn, k + 1) == done + Part(turn, k))
  {
  }

  lemma TranscriptGrows(selected: seq<Turn>, i: nat)
    requires i < |selected|
    ensures Transcript(selected[..i + 1]) == Transcript(selected[..i]) + Part(selected[i], 2)
  {
    assert selected[..i + 1][..i] == selected[..i];
  }

  lemma {:induction false} TranscriptOfPrefix(turns: seq<Turn>, n: nat)
    requires n <= |turns|
    ensures Transcript(turns[..n]) <= Transcript(turns)
  {
    if n == |turns| {
      assert turns[..n] == turns;
    } else {
      TranscriptOfPrefix(turns[..|turns| - 1], n);
      assert turns[..|turns| - 1][..n] == turns[..n];
    }
  }

  lemma PartIsPrefix(turn: Turn, k: nat)
    requires k <= 2
    ensures Part(turn, k) <= Part(turn, 2)
  {
  }

  lemma RestOfTranscript(messages: seq<Message>, selected: seq<Turn>, i: nat, k: nat, budget: nat)
    requires i < |selected| && k <= 2 && Chars(messages) == budget
    requires IsBudgeted(messages, Transcript(selected[..i]) + Part(selected[i], k), budget)
    ensures IsBudgeted(messages, Transcript(selected), budget)
  {
    hide IsBudgeted, Transcript, Part;
    var all, done := Transcript(selected), Transcript(selected[..i]) + Part(selected[i], k);
    TranscriptGrows(selected, i);
    TranscriptOfPrefix(selected, i + 1);
    PartIsPrefix(selected[i], k);
    assert done <= Transcript(selected[..i + 1]);
    var rest := all[|done|..];
    assert all == done + rest;
    BudgetDone(messages, done, rest, budget);
  }

  // ---------- The provider-side validator ----------

  datatype Item = Item(message: Message) | Improper

  datatype Verdict = Rejected | Kept(messages: seq<Message>)

  /** Bounds the items in order; an improper one that is reached rejects everything. */
  function Validation(lex: Lexicon, items: seq<Item>, used: nat): Verdict {
    if items == [] then Kept([])
    else if items[0].Improper? then Rejected
    else if used >= MAX_MESSAGE_CHARS then Kept([])
    else
      var bounded := Admitted(lex, items[0].message, used);
      Prepend(bounded, Validation(lex, items[1..], used + Chars(bounded)))
  }

  /** What is admitted of one message: its bounded text, or nothing when that is empty. */
  function Admitted(lex: Lexicon, message: Message, used: nat): seq<Message>
    requires used < MAX_MESSAGE_CHARS
  {
    var remaining := MAX_MESSAGE_CHARS - used;
    var limit := if remaining < MAX_TURN_TEXT then remaining else MAX_TURN_TEXT;
    NonEmpty(Message(message.role, Bounded(lex.isSpace, message.content, limit)))
  }

  function Prepend(messages: seq<Message>, verdict: Verdict): Verdict {
    match verdict
    case Rejected => Rejected
    case Kept(rest) => Kept(messages + rest)
  }

  lemma PrependTwice(a: seq<Message>, b: seq<Message>, verdict: Verdict)
    ensures Prepend(a, Prepend(b, verdict)) == Prepend(a + b, verdict)
    ensures Prepend([], verdict) == verdict
  {
    if verdict.Kept? {
      assert a + (b + verdict.messages) == (a + b) + verdict.messages;
    }
  }

  lemma EmptyValidation(lex: Lexicon)
    ensures forall used: nat :: Validation(lex, [], used) == Kept([])
  {
  }

  lemma ValidationAt(lex: Lexicon, read: seq<Item>, i: nat, used: nat)
    requires i < |read|
    ensures read[i].Improper? ==> Validation(lex, read[i..], used) == Rejected
    ensures read[i].Item? && used >= MAX_MESSAGE_CHARS ==> Validation(lex, read[i..], used) == Kept([])
    ensures read[i].Item? && used < MAX_MESSAGE_CHARS ==>
              var bounded := Admitted(lex, read[i].message, used);
              && Validation(lex, read[i..], used) ==
                 Prepend(bounded, Validation(lex, read[i + 1..], used + Chars(bounded)))
              && (bounded == [] ==> Validation(lex, read[i..], used) == Validation(lex, read[i + 1..], used))
  {
    hide Admitted;
    assert read[i..][1..] == read[i + 1..];
    PrependTwice([], [], Validation(lex, read[i + 1..], used));
  }

  const MAX_MESSAGES: nat := 2 * (MAX_RECENT_PAIRS + MAX_RELEVANT_PAIRS)

  method ValidateConversationMessages(lex: Lexicon, items: seq<Item>) returns (validated: seq<Message>)
    ensures validated == Validated(lex, items)
  {
    hide Validation, Bounded;
    var read := if |items| <= MAX_MESSAGES then items else items[..MAX_MESSAGES];
    validated := [];
    var usedChars: nat := 0;
    assert read[0..] == read;
    PrependTwice([], [], Validation(lex, read, 0));
    EmptyValidation(lex);
    for i := 0 to |read|
      invariant Validation(lex, read, 0) == Prepend(validated, Validation(lex, read[i..], usedChars))
    {
      ValidationAt(lex, read, i, usedChars);
      if read[i].Improper? {
        return [];
      }
      if usedChars >= MAX_MESSAGE_CHARS {
        return;
      }
      var remaining := MAX_MESSAGE_CHARS - usedChars;
      var limit := if remaining < MAX_TURN_TEXT then remaining else MAX_TURN_TEXT;
      var bounded := Bounded(lex.isSpace, read[i].message.content, limit);
      if bounded == "" {
        continue;
      }
      PrependTwice(validated, [Message(read[i].message.role, bounded)],
        Validation(lex, read[i + 1..], usedChars + |bounded|));
      validated := validated + [Message(read[i].message.role, bounded)];
      usedChars := usedChars + |bounded|;
    }
    assert read[|read|..] == [];
  }

  function Proper(messages: seq<Message>): (r: seq<Item>)
    ensures |r| == |messages|
  {
    seq(|messages|, i requires 0 <= i < |messages| => Item(messages[i]))
  }

  function RightStripped(lex: Lexicon, messages: seq<Message>): (r: seq<Message>)
    ensures |r| == |messages|
  {
    seq(|messages|, i requires 0 <= i < |messages| =>
      Message(messages[i].role, StripRight(lex.isSpace, messages[i].content)))
  }

  lemma {:induction false} CharsFromTheFront(messages: seq<Message>)
    requires messages != []
    ensures Chars(messages) == |messages[0].content| + Chars(messages[1..])
  {
    if |messages| > 1 {
      CharsFromTheFront(messages[..|messages| - 1]);
      assert messages[..|messages| - 1][1..] == messages[1..][..|messages| - 2];
    }
  }

  ghost predicate Sendable(lex: Lexicon, messages: seq<Message>) {
    forall m | m in messages :: m.content != "" && IsText(lex, m.content)
  }

  /** What the validator makes of a message that reaches it in full. */
  function Shortened(lex: Lexicon, messages: seq<Message>): (r: seq<Message>)
    ensures |r| == |messages|
  {
    seq(|messages|, i requires 0 <= i < |messages| =>
      Message(messages[i].role, Take(StripRight(lex.isSpace, messages[i].content), MAX_TURN_TEXT)))
  }

  ghost predicate AllPresentable(lex: Lexicon, messages: seq<Message>) {
    forall m | m in messages :: m.content != "" && Presentable(lex.isSpace, m.content)
  }

  lemma AdmittedShortened(lex: Lexicon, message: Message, used: nat)
    requires message.content != "" && Presentable(lex.isSpace, message.content)
    requires used + |message.content| <= MAX_MESSAGE_CHARS
    ensures var bounded := Take(StripRight(lex.isSpace, message.content), MAX_TURN_TEXT);
      && Admitted(lex, message, used) == [Message(message.role, bounded)]
      && Chars(Admitted(lex, message, used)) == |bounded| <= |message.content|
  {
    var stripped := StripRight(lex.isSpace, message.content);
    StripOfPresentable(lex.isSpace, message.content);
    hide StripRight, Strip, Presentable, Chars;
    var bounded := Take(stripped, MAX_TURN_TEXT);
    assert Admitted(lex, message, used) == [Message(message.role, bounded)];
    OneMessage(Message(message.role, bounded));
  }

  lemma OneMessage(message: Message)
    ensures Chars([message]) == |message.content|
  {
    AppendedChars([], message);
    assert [] + [message] == [message];
  }

  lemma FirstShortened(lex: Lexicon, messages: seq<Message>)
    requires messages != []
    ensures var bounded := Take(StripRight(lex.isSpace, messages[0].content), MAX_TURN_TEXT);
      Shortened(lex, messages) == [Message(messages[0].role, bounded)] + Shortened(lex, messages[1..])
    ensures Proper(messages) == [Item(messages[0])] + Proper(messages[1..])
  {
    hide StripRight;
  }

  /** Within the budget, the validator keeps each message in order, without trailing space and cut at 8,000. */
  lemma {:induction false} ValidatorShortens(lex: Lexicon, messages: seq<Message>, used: nat)
    requires AllPresentable(lex, messages) && used + Chars(messages) <= MAX_MESSAGE_CHARS
    ensures Validation(lex, Proper(messages), used) == Kept(Shortened(lex, messages))
  {
    hide Admitted, Presentable, StripRight;
    if messages == [] {
      assert Proper(messages) == [] && Shortened(lex, messages) == [];
    } else {
      hide Proper, Shortened, Take;
      var first, rest := messages[0], messages[1..];
      assert first in messages;
      CharsFromTheFront(messages);
      FirstShortened(lex, messages);
      AdmittedShortened(lex, first, used);
      ValidatorShortens(lex, rest, used + Chars(Admitted(lex, first, used)));
      assert Proper(messages)[1..] == Proper(rest);
    }
  }

  /** A sendable message fits, so the validator only drops the whitespace at its end. */
  lemma {:induction false} ValidatorKeepsAll(lex: Lexicon, messages: seq<Message>, used: nat)
    requires Sendable(lex, messages) && used + Chars(messages) <= MAX_MESSAGE_CHARS
    ensures Validation(lex, Proper(messages), used) == Kept(RightStripped(lex, messages))
  {
    hide Presentable, StripRight, Validation, Chars, Proper, Shortened, RightStripped;
    ValidatorShortens(lex, messages, used);
    SendableIsWhole(lex, messages);
  }

  lemma SendableIsWhole(lex: Lexicon, messages: seq<Message>)
    requires Sendable(lex, messages)
    ensures Shortened(lex, messages) == RightStripped(lex, messages)
  {
    hide Presentable, StripRight;
    forall i | 0 <= i < |messages| ensures Shortened(lex, messages)[i] == RightStripped(lex, messages)[i] {
      assert messages[i] in messages;
    }
  }

  /** What the validator passes on of some messages. */
  function Validated(lex: Lexicon, items: seq<Item>): seq<Message> {
    var verdict := Validation(lex, if |items| <= MAX_MESSAGES then items else items[..MAX_MESSAGES], 0);
    if verdict.Rejected? then [] else verdict.messages
  }

  function FirstMessages(messages: seq<Message>): (r: seq<Message>)
    ensures |r| <= MAX_MESSAGES && r <= messages
    ensures |messages| <= MAX_MESSAGES ==> r == messages
    ensures |messages| > MAX_MESSAGES ==> |r| == MAX_MESSAGES
  {
    if |messages| <= MAX_MESSAGES then messages else messages[..MAX_MESSAGES]
  }

  lemma ValidatedIsShortened(lex: Lexicon, messages: seq<Message>)
    requires AllPresentable(lex, messages) && Chars(messages) <= MAX_MESSAGE_CHARS
    ensures Validated(lex, Proper(messages)) == Shortened(lex, FirstMessages(messages))
  {
    var read := FirstMessages(messages);
    hide Presentable, StripRight, Validation, Shortened, Chars, FirstMessages;
    CharsOfPrefix(messages, |read|);
    assert read == messages[..|read|];
    assert AllPresentable(lex, read) by {
      forall m | m in read ensures m in messages {
        var i :| 0 <= i < |read| && read[i] == m;
        assert messages[i] == m;
      }
    }
    ValidatorShortens(lex, read, 0);
    assert Proper(read) == if |messages| <= MAX_MESSAGES then Proper(messages) else Proper(messages)[..MAX_MESSAGES];
  }

  lemma ShortenedIsWhole(lex: Lexicon, messages: seq<Message>)
    ensures Shortened(lex, messages) == RightStripped(lex, messages) <==>
            forall m | m in messages :: |StripRight(lex.isSpace, m.content)| <= MAX_TURN_TEXT
  {
    hide StripRight;
    if Shortened(lex, messages) == RightStripped(lex, messages) {
      forall m | m in messages ensures |StripRight(lex.isSpace, m.content)| <= MAX_TURN_TEXT {
        var i :| 0 <= i < |messages| && messages[i] == m;
        assert Shortened(lex, messages)[i] == RightStripped(lex, messages)[i];
      }
    } else {
      var i :| 0 <= i < |messages| && Shortened(lex, messages)[i] != RightStripped(lex, messages)[i];
      assert messages[i] in messages;
    }
  }

  /**
   Presentable messages within the budget reach the provider whole, up to trailing whitespace, exactly
   when there are at most 24 of them and none is longer than 8,000 characters; beyond 24 the newest are lost.
   */
  lemma {:induction false} ReachesProviderExactlyWhen(lex: Lexicon, messages: seq<Message>)
    requires AllPresentable(lex, messages) && Chars(messages) <= MAX_MESSAGE_CHARS
    ensures Validated(lex, Proper(messages)) == Shortened(lex, FirstMessages(messages))
    ensures Validated(lex, Proper(messages)) == RightStripped(lex, messages) <==>
            && |messages| <= MAX_MESSAGES
            && forall m | m in messages :: |StripRight(lex.isSpace, m.content)| <= MAX_TURN_TEXT
  {
    hide AllPresentable, StripRight, Validated, Shortened, RightStripped, Proper, Chars, FirstMessages;
    ValidatedIsShortened(lex, messages);
    ShortenedIsWhole(lex, messages);
  }

  lemma CharsOfPrefix(messages: seq<Message>, n: nat)
    requires n <= |messages|
    ensures Chars(messages[..n]) <= Chars(messages)
  {
    ContentsOfPrefix(messages, n);
  }

  // ---------- Composing a packet ----------

  /** The turns that were not chosen. */
  function Unchosen(turns: seq<Turn>, chosen: set<nat>): seq<Turn> {
    if turns == [] then []
    else
      var last := turns[|turns| - 1];
      Unchosen(turns[..|turns| - 1], chosen) + if last.sequence in chosen then [] else [last]
  }

  function ContextDigest(lex: Lexicon, digestLines: seq<string>, activeOlder: seq<Turn>, chosen: set<nat>): string {
    var digest := Join("\n", digestLines);
    var tail := Join("\n", Lines(lex, LastN(Unchosen(activeOlder, chosen), MAX_DIGEST_TAIL)));
    LastN(if digest == "" then tail else if tail == "" then digest else digest + "\n" + tail, MAX_DIGEST_CHARS)
  }

  /** A turn of the exact window, and no selected turn has its number. */
  ghost predicate IsLeftOut(history: seq<Turn>, selected: seq<Turn>, turn: Turn) {
    turn in LastN(history, MAX_SESSION_PAIRS) && forall other | other in selected :: other.sequence != turn.sequence
  }

  /** The newest turns left out, twelve or all of them, in order. */
  ghost predicate IsTail(history: seq<Turn>, selected: seq<Turn>, tail: seq<Turn>) {
    && Increasing(tail) && |tail| <= 12
    && (forall turn | turn in tail :: IsLeftOut(history, selected, turn))
    && (forall turn | IsLeftOut(history, selected, turn) && turn !in tail ::
          |tail| == 12 && forall other | other in tail :: turn.sequence < other.sequence)
  }

  lemma {:induction false} UnchosenInOrder(turns: seq<Turn>, chosen: set<nat>)
    requires Increasing(turns)
    ensures Increasing(Unchosen(turns, chosen))
    ensures forall turn :: turn in Unchosen(turns, chosen) <==> turn in turns && turn.sequence !in chosen
  {
    if turns != [] {
      var front, last := turns[..|turns| - 1], turns[|turns| - 1];
      UnchosenInOrder(front, chosen);
      assert turns == front + [last];
      assert forall turn | turn in front :: turn.sequence < last.sequence;
    }
  }

  lemma NewestIsLast(turns: seq<Turn>, n: nat, i: nat)
    requires |turns| - |LastN(turns, n)| <= i < |turns|
    ensures turns[i] in LastN(turns, n)
  {
    assert LastN(turns, n)[i - (|turns| - |LastN(turns, n)|)] == turns[i];
  }

  lemma LastOfIncreasing(turns: seq<Turn>, n: nat, turn: Turn)
    requires Increasing(turns) && turn in turns && turn !in LastN(turns, n)
    ensures |LastN(turns, n)| == n
    ensures forall other | other in LastN(turns, n) :: turn.sequence < other.sequence
  {
    var i :| 0 <= i < |turns| && turns[i] == turn;
    var from := |turns| - |LastN(turns, n)|;
    if i >= from {
      NewestIsLast(turns, n, i);
    }
    forall other | other in LastN(turns, n) ensures turn.sequence < other.sequence {
      var k :| 0 <= k < |LastN(turns, n)| && LastN(turns, n)[k] == other;
      assert other == turns[from + k];
    }
  }

  lemma LastKeepsOrder(turns: seq<Turn>, n: nat)
    requires Increasing(turns)
    ensures Increasing(LastN(turns, n)) && forall turn | turn in LastN(turns, n) :: turn in turns
  {
    var last, from := LastN(turns, n), |turns| - |LastN(turns, n)|;
    assert last == turns[from..];
    forall turn | turn in last ensures turn in turns {
      var i :| 0 <= i < |last| && last[i] == turn;
      assert turns[from + i] == turn;
    }
  }

  /** The last twelve unchosen turns before the recent ones are the tail. */
  lemma UnchosenTail(history: seq<Turn>, older: seq<Turn>, chosen: set<nat>, selected: seq<Turn>)
    requires Increasing(older)
    requires forall turn :: IsLeftOut(history, selected, turn) <==> turn in older && turn.sequence !in chosen
    ensures IsTail(history, selected, LastN(Unchosen(older, chosen), MAX_DIGEST_TAIL))
  {
    hide IsLeftOut, LastN, Unchosen, Increasing;
    var unchosen := Unchosen(older, chosen);
    var tail := LastN(unchosen, MAX_DIGEST_TAIL);
    UnchosenInOrder(older, chosen);
    LastKeepsOrder(unchosen, MAX_DIGEST_TAIL);
    forall turn | IsLeftOut(history, selected, turn) && turn !in tail
      ensures |tail| == 12 && forall other | other in tail :: turn.sequence < other.sequence
    {
      LastOfIncreasing(unchosen, MAX_DIGEST_TAIL, turn);
    }
  }

  lemma LinesAreFull(lex: Lexicon, turns: seq<Turn>)
    ensures forall line | line in Lines(lex, turns) :: line != ""
  {
    hide CompactTurn;
    forall k | 0 <= k < |turns| ensures Lines(lex, turns)[k] != "" {
      CompactTurnTells(lex, turns[k]);
    }
  }

  /** Joining both lists of lines, each alone and then together, is joining them in one go. */
  lemma DigestIsJoined(
    lex: Lexicon, digestLines: seq<string>, evicted: seq<Turn>, activeOlder: seq<Turn>, chosen: set<nat>)
    requires |digestLines| <= |evicted| && digestLines == Digest.Suffix(Lines(lex, evicted), |digestLines|)
    ensures var tail := LastN(Unchosen(activeOlder, chosen), MAX_DIGEST_TAIL);
      ContextDigest(lex, digestLines, activeOlder, chosen) ==
      LastN(Join("\n", digestLines + Lines(lex, tail)), MAX_DIGEST_CHARS)
  {
    hide Join, CompactTurn;
    var tail := Lines(lex, LastN(Unchosen(activeOlder, chosen), MAX_DIGEST_TAIL));
    assert forall line | line in digestLines :: line in Lines(lex, evicted);
    LinesAreFull(lex, evicted);
    LinesAreFull(lex, LastN(Unchosen(activeOlder, chosen), MAX_DIGEST_TAIL));
    JoinOfFull("\n", digestLines);
    JoinOfFull("\n", tail);
    if digestLines == [] {
      assert digestLines + tail == tail;
    } else if tail == [] {
      assert digestLines + tail == digestLines;
    } else {
      JoinBoth("\n", digestLines, tail);
    }
  }

  function MaxSequence(turns: seq<Turn>): nat {
    if turns == [] then 0
    else
      var rest := MaxSequence(turns[..|turns| - 1]);
      if turns[|turns| - 1].sequence > rest then turns[|turns| - 1].sequence else rest
  }

  lemma {:induction false} MaxOfNumbered(turns: seq<Turn>, first: nat)
    requires Numbered(turns, first)
    ensures MaxSequence(turns) == if turns == [] then 0 else first + |turns| - 1
  {
    if turns != [] {
      MaxOfNumbered(turns[..|turns| - 1], first);
    }
  }

  ghost predicate IsPacket(
    lex: Lexicon, history: seq<Turn>, text: string, relevant: seq<Scored<Turn>>, selected: seq<Turn>, packet: Packet)
  {
    && IsSelection(lex, lex.tokens(text), history, relevant, selected)
    && IsBudgeted(packet.messages, Transcript(selected), MAX_MESSAGE_CHARS)
    && packet.coveredThrough == (if |history| <= MAX_RECENT_PAIRS then 0 else |history| - MAX_RECENT_PAIRS)
    && IsPacketDigest(lex, history, selected, packet.digest)
  }

  /** Nothing for a scope without turns, else the packet of its history. */
  ghost predicate IsComposed(
    lex: Lexicon, history: seq<Turn>, text: string, relevant: seq<Scored<Turn>>, selected: seq<Turn>, packet: Packet)
  {
    if history == [] then packet == Packet([], "", 0) && selected == []
    else IsPacket(lex, history, text, relevant, selected, packet)
  }

  /**
   The last 12,000 characters of the kept lines of the evicted turns and the lines of the newest turns of the
   exact window that were not selected, one line below the other.
   */
  ghost predicate IsPacketDigest(lex: Lexicon, history: seq<Turn>, selected: seq<Turn>, digest: string) {
    exists lines, tail ::
      && Digest.IsLongestSuffix(lines, Lines(lex, Evicted(history)), MAX_DIGEST_CHARS)
      && IsTail(history, selected, tail)
      && digest == LastN(Join("\n", lines + Lines(lex, tail)), MAX_DIGEST_CHARS)
  }

  function ActiveOlder(turns: seq<Turn>): seq<Turn> {
    if |turns| <= MAX_RECENT_PAIRS then [] else turns[..|turns| - MAX_RECENT_PAIRS]
  }

  lemma OlderAndRecent(lex: Lexicon, fields: Fields, history: seq<Turn>)
    requires Represents(lex, fields, history)
    ensures fields.archive + ActiveOlder(fields.turns) == Older(history)
    ensures LastN(fields.turns, MAX_RECENT_PAIRS) == Recent(history)
    ensures Older(history) + Recent(history) == Visible(history)
    ensures |Older(history)| <= |history| && Numbered(Visible(history), |history| - |Visible(history)| + 1)
    ensures |Visible(history)| <= |history| && |Recent(history)| <= |Visible(history)|
  {
    hide IsText, Digest.IsLongestSuffix, Cut;
    VisibleIsTheLastTurns(lex, history);
  }

  lemma KeptFields(lex: Lexicon, state: SessionState)
    requires state.Valid(lex)
    ensures state.turns == LastN(state.history, MAX_SESSION_PAIRS)
    ensures Digest.IsLongestSuffix(state.digestLines, Lines(lex, Evicted(state.history)), MAX_DIGEST_CHARS)
    ensures state.archive + ActiveOlder(state.turns) == Older(state.history)
    ensures LastN(state.turns, MAX_RECENT_PAIRS) == Recent(state.history)
  {
    OlderAndRecent(lex, state.Kept(), state.history);
  }

  /** Reads one state; the engine's lookup by scope is Compose. */
  method ComposeState(lex: Lexicon, state: SessionState, currentUserText: string)
    returns (packet: Packet, ghost relevant: seq<Scored<Turn>>, ghost selectedTurns: seq<Turn>)
    requires state.Valid(lex)
    ensures IsPacket(lex, state.history, currentUserText, relevant, selectedTurns, packet)
  {
    hide Represents, IsBudgeted, IsBest, Matches, Transcript, Digest.IsLongestSuffix, ContextDigest, Visible, Lines;
    OlderAndRecent(lex, state.Kept(), state.history);
    KeptFields(lex, state);
    ghost var history := state.history;
    var recent := LastN(state.turns, MAX_RECENT_PAIRS);
    var activeOlder := ActiveOlder(state.turns);
    var older := state.archive + activeOlder;
    var selected, chosen;
    relevant, selected, chosen := Select(lex, lex.tokens(currentUserText), older, recent,
                                         |history| - |Visible(history)| + 1);
    var messages := FillBudget(selected, MAX_MESSAGE_CHARS);
    CoveredThrough(history, older);
    packet := Packet(messages, ContextDigest(lex, state.digestLines, activeOlder, chosen), MaxSequence(older));
    selectedTurns := selected;
    DigestOfWindow(lex, state, relevant, selected, chosen);
  }

  lemma DigestOfWindow(
    lex: Lexicon, state: SessionState, relevant: seq<Scored<Turn>>, selected: seq<Turn>, chosen: set<nat>)
    requires state.Valid(lex) && chosen == set x | x in relevant :: x.item.sequence
    requires forall x | x in relevant :: x.item in selected
    requires forall turn | turn in Recent(state.history) :: turn in selected
    requires forall turn | turn in selected ::
      turn in Recent(state.history) || exists x :: x in relevant && x.item == turn
    ensures IsPacketDigest(
              lex, state.history, selected, ContextDigest(lex, state.digestLines, ActiveOlder(state.turns), chosen))
  {
    hide IsTail, ContextDigest, Join, Digest.IsLongestSuffix;
    var older := ActiveOlder(state.turns);
    KeptFields(lex, state);
    WindowIsNumbered(lex, state);
    assert Increasing(older);
    forall turn
      ensures IsLeftOut(state.history, selected, turn) <==> turn in older && turn.sequence !in chosen
    {
      LeftOutExactly(state.history, relevant, selected, chosen, older, turn);
    }
    UnchosenTail(state.history, older, chosen, selected);
    KeptLines(lex, state);
    DigestIsJoined(lex, state.digestLines, Evicted(state.history), older, chosen);
  }

  lemma KeptLines(lex: Lexicon, state: SessionState)
    requires Digest.IsLongestSuffix(state.digestLines, Lines(lex, Evicted(state.history)), MAX_DIGEST_CHARS)
    ensures |state.digestLines| <= |Evicted(state.history)|
    ensures state.digestLines == Digest.Suffix(Lines(lex, Evicted(state.history)), |state.digestLines|)
  {
  }

  lemma WindowIsNumbered(lex: Lexicon, state: SessionState)
    requires state.Valid(lex)
    ensures state.turns == LastN(state.history, MAX_SESSION_PAIRS)
    ensures Numbered(state.turns, |state.history| - |state.turns| + 1)
    ensures ActiveOlder(state.turns) + Recent(state.history) == state.turns
  {
    hide IsText, Digest.IsLongestSuffix, CutAll, Lines;
    assert state.Kept().turns == state.turns;
  }

  lemma LeftOutExactly(
    history: seq<Turn>, relevant: seq<Scored<Turn>>, selected: seq<Turn>, chosen: set<nat>, older: seq<Turn>,
    turn: Turn)
    requires chosen == set x | x in relevant :: x.item.sequence
    requires forall x | x in relevant :: x.item in selected
    requires forall recent | recent in Recent(history) :: recent in selected
    requires forall other | other in selected ::
      other in Recent(history) || exists x :: x in relevant && x.item == other
    requires older + Recent(history) == LastN(history, MAX_SESSION_PAIRS)
    requires Numbered(older + Recent(history), |history| - |LastN(history, MAX_SESSION_PAIRS)| + 1)
    ensures IsLeftOut(history, selected, turn) <==> turn in older && turn.sequence !in chosen
  {
    var window := older + Recent(history);
    if turn in older && turn.sequence !in chosen {
      var i :| 0 <= i < |older| && older[i] == turn;
      assert window[i] == turn;
      forall other | other in selected ensures other.sequence != turn.sequence {
        if other in Recent(history) {
          var j :| 0 <= j < |Recent(history)| && Recent(history)[j] == other;
          assert window[|older| + j] == other;
        }
      }
    }
  }

  lemma CoveredThrough(history: seq<Turn>, older: seq<Turn>)
    requires older == Older(history)
    requires Older(history) + Recent(history) == Visible(history) && |Visible(history)| <= |history|
    requires |Recent(history)| <= |Visible(history)|
    requires Numbered(Visible(history), |history| - |Visible(history)| + 1)
    ensures MaxSequence(older) == if |history| <= MAX_RECENT_PAIRS then 0 else |history| - MAX_RECENT_PAIRS
  {
    var first := |history| - |Visible(history)| + 1;
    assert Numbered(older, first) by {
      assert forall i | 0 <= i < |older| :: older[i] == Visible(history)[i];
    }
    MaxOfNumbered(older, first);
  }

  method Compose(engine: ConversationContextEngine, scope: Scope, currentUserText: string)
    returns (packet: Packet, ghost relevant: seq<Scored<Turn>>, ghost selected: seq<Turn>)
    requires engine.Valid()
    ensures IsComposed(
              engine.lex, HistoryOf(engine.Views(), scope), currentUserText, relevant, selected, packet)
  {
    relevant, selected := [], [];
    packet := Packet([], "", 0);
    if scope in engine.sessions {
      var state := engine.sessions[scope];
      assert state.Valid(engine.lex);
      assert state.turns == LastN(state.history, MAX_SESSION_PAIRS) by {
        assert state.Kept().turns == state.turns;
      }
      hide Represents, IsPacket;
      if state.turns != [] {
        packet, relevant, selected := ComposeState(engine.lex, state, currentUserText);
      }
    }
  }

  // ---------- What a packet is worth to the provider ----------

  lemma PrefixOfText(lex: Lexicon, s: string, prefix: string)
    requires IsText(lex, s) && prefix <= s
    ensures IsText(lex, prefix)
  {
  }

  lemma SelectedTurnsAreTexts(
    lex: Lexicon, tokens: set<string>, history: seq<Turn>, relevant: seq<Scored<Turn>>, selected: seq<Turn>, turn: Turn)
    requires IsHistory(lex, history) && IsSelection(lex, tokens, history, relevant, selected) && turn in selected
    ensures IsText(lex, turn.user) && IsText(lex, turn.assistant)
  {
    hide IsText, IsSelection, IsHistory, Recent, Visible;
    if turn in Recent(history) {
      RecentIsText(lex, history, turn);
    } else {
      OlderIsVisible(lex, tokens, history, relevant, selected, turn);
      VisibleIsText(lex, history, turn);
    }
  }

  lemma RecentIsText(lex: Lexicon, history: seq<Turn>, turn: Turn)
    requires IsHistory(lex, history) && turn in Recent(history)
    ensures IsText(lex, turn.user) && IsText(lex, turn.assistant)
  {
    hide IsText;
  }

  lemma OlderIsVisible(
    lex: Lexicon, tokens: set<string>, history: seq<Turn>, relevant: seq<Scored<Turn>>, selected: seq<Turn>, turn: Turn)
    requires IsSelection(lex, tokens, history, relevant, selected) && turn in selected && turn !in Recent(history)
    ensures turn in Visible(history)
  {
    hide Visible, Recent;
    var x :| x in relevant && x.item == turn;
    assert x in Matches(lex, tokens, Older(history));
  }

  lemma VisibleIsText(lex: Lexicon, history: seq<Turn>, turn: Turn)
    requires IsHistory(lex, history) && turn in Visible(history)
    ensures IsText(lex, turn.user) && IsText(lex, turn.assistant)
  {
    hide IsText, Visible;
    VisibleIsTheLastTurns(lex, history);
    var i :| 0 <= i < |Visible(history)| && Visible(history)[i] == turn;
    var whole := history[|history| - |Visible(history)| + i];
    PrefixOfText(lex, whole.user, turn.user);
    PrefixOfText(lex, whole.assistant, turn.assistant);
  }

  lemma {:induction false} TranscriptIsSendable(lex: Lexicon, turns: seq<Turn>)
    requires forall turn | turn in turns :: IsText(lex, turn.user) && IsText(lex, turn.assistant)
    ensures Sendable(lex, Transcript(turns))
  {
    hide IsText;
    if turns != [] {
      TranscriptIsSendable(lex, turns[..|turns| - 1]);
      assert turns[|turns| - 1] in turns;
    }
  }

  lemma BudgetedIsSendable(lex: Lexicon, messages: seq<Message>, all: seq<Message>, budget: nat)
    requires Sendable(lex, all) && IsBudgeted(messages, all, budget)
    ensures Sendable(lex, messages)
  {
    hide IsText;
    if messages != all && messages != [] {
      var n := |messages| - 1;
      assert all[n] in all;
      PrefixOfText(lex, all[n].content, messages[n].content);
      forall m | m in messages ensures m.content != "" && IsText(lex, m.content) {
        if m in messages[..n] {
          assert m in all[..n];
        } else {
          assert m == messages[n];
        }
      }
    }
  }

  /**
   A packet is at most 24 messages, runs to exactly the first 24,000 characters of the transcript of
   its selection, and reaches the provider complete: the validator drops trailing whitespace only.
   */
  lemma {:induction false} PacketReachesProvider(
    lex: Lexicon, history: seq<Turn>, text: string, relevant: seq<Scored<Turn>>, selected: seq<Turn>, packet: Packet)
    requires IsHistory(lex, history) && IsPacket(lex, history, text, relevant, selected, packet)
    ensures |packet.messages| <= MAX_MESSAGES
    ensures Contents(packet.messages) == Take(Contents(Transcript(selected)), MAX_MESSAGE_CHARS)
    ensures Validation(lex, Proper(packet.messages), 0) == Kept(RightStripped(lex, packet.messages))
  {
    forall turn | turn in selected ensures IsText(lex, turn.user) && IsText(lex, turn.assistant) {
      SelectedTurnsAreTexts(lex, lex.tokens(text), history, relevant, selected, turn);
    }
    hide IsText, Validation, Matches;
    TranscriptIsSendable(lex, selected);
    BudgetedIsSendable(lex, packet.messages, Transcript(selected), MAX_MESSAGE_CHARS);
    BudgetedContents(packet.messages, Transcript(selected), MAX_MESSAGE_CHARS);
    ValidatorKeepsAll(lex, packet.messages, 0);
  }
}
