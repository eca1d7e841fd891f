/**
 Where the two stores of a conversation part: turns that were recorded but not appended, a guest at the
 microphone while a session is bound, and text that the scrubber changed. Each divergence is given with the
 exact condition under which it does not happen.
 */
module ConversationLimits {
  import opened Options
  import opened Text
  import opened Ranking
  import opened ConversationContext
  import opened ConversationPacket
  import opened ConversationSessions
  import opened ConversationMemory
  import opened ConversationRuns

  // ---------- Turns that were not appended ----------

  /** Turn i of the history, counted from zero, is still among the visible ones. */
  ghost predicate IsHeld(history: seq<Turn>, i: nat) {
    exists k :: 0 <= k < |Visible(history)| && Visible(history)[k].sequence == i + 1
  }

  /** Turn i of the run has a row, and the row is among those a search looks at. */
  ghost predicate IsSearched(run: Run, rows: seq<Turn>, i: nat)
    requires i < |run.flags|
  {
    && run.flags[i]
    && exists k :: 0 <= k < |SearchedRows(rows)|
                   && SearchedRows(rows)[k].sequence == |run.earlier| + Appended(run.flags[..i]) + 1
  }

  /** Turn i of the run can neither be recalled from the window nor found by a search. */
  ghost predicate IsLost(run: Run, rows: seq<Turn>, history: seq<Turn>, i: nat)
    requires i < |run.flags|
  {
    !IsHeld(history, i) && !IsSearched(run, rows, i)
  }

  lemma HeldExactly(lex: Lexicon, history: seq<Turn>, i: nat)
    requires IsHistory(lex, history) && i < |history|
    ensures IsHeld(history, i) <==> i + MAX_RESTORE_TURNS >= |history|
  {
    hide IsText, Visible;
    VisibleIsTheLastTurns(lex, history);
    if i + MAX_RESTORE_TURNS >= |history| {
      assert Visible(history)[i - (|history| - |Visible(history)|)].sequence == i + 1;
    }
  }

  lemma SearchedExactly(rules: Rules, run: Run, rows: seq<Turn>, i: nat)
    requires IsRun(rules, run, rows) && i < |run.flags|
    ensures IsSearched(run, rows, i) <==>
            run.flags[i] && Appended(run.flags[..i]) + 1 <= Appended(run.flags) - MAX_RESTORE_TURNS
  {
    hide HasRow, IsScrubbed;
    var number := |run.earlier| + Appended(run.flags[..i]) + 1;
    if run.flags[i] && Appended(run.flags[..i]) + 1 <= Appended(run.flags) - MAX_RESTORE_TURNS {
      assert SearchedRows(rows)[number - 1] == rows[number - 1];
    }
  }

  lemma {:induction false} AppendedOfPrefix(flags: seq<bool>, n: nat)
    requires n <= |flags|
    ensures Appended(flags[..n]) <= Appended(flags) <= Appended(flags[..n]) + |flags| - n
    ensures Appended(flags) == Appended(flags[..n]) + |flags| - n <==> forall i | n <= i < |flags| :: flags[i]
  {
    if n == |flags| {
      assert flags[..n] == flags;
    } else {
      var front := flags[..|flags| - 1];
      AppendedOfPrefix(front, n);
      assert front[..n] == flags[..n];
      assert (forall i | n <= i < |flags| :: flags[i]) <==>
             (forall i | n <= i < |front| :: front[i]) && flags[|flags| - 1];
    }
  }

  /** The last appended turn among the first n, which has all the other appended ones before it. */
  lemma {:induction false} LastAppended(flags: seq<bool>, n: nat) returns (last: nat)
    requires n <= |flags| && exists i :: 0 <= i < n && flags[i]
    ensures last < n && flags[last] && Appended(flags[..last]) + 1 == Appended(flags[..n])
  {
    assert flags[..n][..n - 1] == flags[..n - 1];
    if flags[n - 1] {
      last := n - 1;
    } else {
      last := LastAppended(flags, n - 1);
    }
  }

  lemma AppendedUpTo(flags: seq<bool>, i: nat, n: nat)
    requires i < n <= |flags| && flags[i]
    ensures Appended(flags[..i]) + 1 <= Appended(flags[..n])
  {
    assert flags[..i + 1][..i] == flags[..i];
    AppendedOfPrefix(flags[..n], i + 1);
    assert flags[..n][..i + 1] == flags[..i + 1];
  }

  /** A run that was spoken has as many turns as its history. */
  ghost predicate IsSpoken(lex: Lexicon, rules: Rules, scope: Scope, run: Run, rows: seq<Turn>, history: seq<Turn>) {
    && IsRun(rules, run, rows) && AllSpeak(lex, run.pairs)
    && history == Spoken(lex, scope, run.pairs)
  }

  /** What the window and the search make of turn i, in terms of the flags alone. */
  lemma HeldOrSearched(
    lex: Lexicon, rules: Rules, scope: Scope, run: Run, rows: seq<Turn>, history: seq<Turn>, i: nat)
    requires IsSpoken(lex, rules, scope, run, rows, history) && i < |run.flags|
    ensures |history| == |run.flags|
    ensures IsHeld(history, i) <==> i + MAX_RESTORE_TURNS >= |run.flags|
    ensures IsSearched(run, rows, i) <==>
            run.flags[i] && Appended(run.flags[..i]) + 1 <= Appended(run.flags) - MAX_RESTORE_TURNS
  {
    hide IsHeld, IsSearched, AllSpeak, Visible;
    SpokenIsHistory(lex, scope, run.pairs);
    SpokenLength(lex, scope, run.pairs);
    HeldExactly(lex, history, i);
    SearchedExactly(rules, run, rows, i);
  }

  /** No turn is both visible and searched. */
  lemma NeverHeldAndSearched(
    lex: Lexicon, rules: Rules, scope: Scope, run: Run, rows: seq<Turn>, history: seq<Turn>, i: nat)
    requires IsSpoken(lex, rules, scope, run, rows, history) && i < |run.flags| && IsHeld(history, i)
    ensures !IsSearched(run, rows, i)
  {
    hide IsHeld, IsSearched, IsSpoken;
    HeldOrSearched(lex, rules, scope, run, rows, history, i);
    AppendedOfPrefix(run.flags, i);
  }

  /**
   Of everything recorded in a run something is lost exactly when the run is longer than the window and
   some append failed: the turn itself when it has left the window, or else the newest turn that has.
   */
  lemma {:induction false} LostExactlyWhenAppendFailed(
    lex: Lexicon, rules: Rules, scope: Scope, run: Run, rows: seq<Turn>, history: seq<Turn>)
    requires IsSpoken(lex, rules, scope, run, rows, history)
    ensures (exists i :: 0 <= i < |run.flags| && IsLost(run, rows, history, i)) <==>
            |run.flags| > MAX_RESTORE_TURNS && exists i :: 0 <= i < |run.flags| && !run.flags[i]
  {
    hide IsHeld, IsSearched, IsSpoken;
    var flags := run.flags;
    forall i: nat | i < |flags|
      ensures IsLost(run, rows, history, i) <==>
              && i + MAX_RESTORE_TURNS < |flags|
              && !(flags[i] && Appended(flags[..i]) + 1 <= Appended(flags) - MAX_RESTORE_TURNS)
    {
      HeldOrSearched(lex, rules, scope, run, rows, history, i);
    }
    if forall i | 0 <= i < |flags| :: flags[i] {
      AllAppended(flags);
      forall i: nat | i < |flags| ensures !IsLost(run, rows, history, i) {
        AllAppended(flags[..i]);
      }
    } else if |flags| > MAX_RESTORE_TURNS {
      var newest := |flags| - MAX_RESTORE_TURNS - 1;
      if forall i | 0 <= i <= newest :: flags[i] {
        AppendedOfPrefix(flags, newest + 1);
        AllAppended(flags[..newest + 1]);
        AllAppended(flags[..newest]);
        assert IsLost(run, rows, history, newest);
      } else {
        var i :| 0 <= i <= newest && !flags[i];
        assert IsLost(run, rows, history, i);
      }
    }
  }

  /**
   An appended turn is lost exactly when the window still holds a turn whose append failed and an
   appended turn has already left the window.
   */
  lemma {:induction false} GapExactlyWhenAppendFailed(
    lex: Lexicon, rules: Rules, scope: Scope, run: Run, rows: seq<Turn>, history: seq<Turn>)
    requires IsSpoken(lex, rules, scope, run, rows, history)
    ensures (exists i :: 0 <= i < |run.flags| && run.flags[i] && IsLost(run, rows, history, i)) <==>
            && (exists i :: 0 <= i < |run.flags| && IsHeld(history, i) && !run.flags[i])
            && (exists i :: 0 <= i < |run.flags| && !IsHeld(history, i) && run.flags[i])
  {
    hide IsHeld, IsSearched, IsSpoken;
    var flags := run.flags;
    var n := if |flags| <= MAX_RESTORE_TURNS then 0 else |flags| - MAX_RESTORE_TURNS;
    forall i: nat | i < |flags|
      ensures IsHeld(history, i) <==> n <= i
      ensures IsSearched(run, rows, i) <==>
              flags[i] && Appended(flags[..i]) + 1 <= Appended(flags) - MAX_RESTORE_TURNS
    {
      HeldOrSearched(lex, rules, scope, run, rows, history, i);
    }
    GapOfFlags(flags, n);
    if exists i :: 0 <= i < n && flags[i] {
      var last := LastAppended(flags, n);
      assert Appended(flags) != Appended(flags[..n]) + |flags| - n ==> IsLost(run, rows, history, last);
    }
  }

  /** In terms of the flags: no appended turn before the window falls short when the window has all its rows. */
  lemma GapOfFlags(flags: seq<bool>, n: nat)
    requires n <= |flags| && (n > 0 ==> |flags| - n == MAX_RESTORE_TURNS)
    ensures Appended(flags) <= Appended(flags[..n]) + |flags| - n
    ensures Appended(flags) == Appended(flags[..n]) + |flags| - n <==> forall i | n <= i < |flags| :: flags[i]
    ensures Appended(flags) == Appended(flags[..n]) + |flags| - n ==>
              forall i: nat | i < n && flags[i] ::
                Appended(flags[..i]) + 1 <= Appended(flags) - MAX_RESTORE_TURNS
  {
    AppendedOfPrefix(flags, n);
    forall i: nat | i < n && flags[i] ensures Appended(flags[..i]) + 1 <= Appended(flags[..n]) {
      AppendedUpTo(flags, i, n);
    }
  }

  /** One failed append is enough: of 769 turns all were appended but the second, and the first is lost. */
  lemma {:induction false} GapAfterOneFailedAppend(
    lex: Lexicon, rules: Rules, scope: Scope, run: Run, rows: seq<Turn>, history: seq<Turn>)
    requires IsSpoken(lex, rules, scope, run, rows, history)
    requires |run.flags| == MAX_RESTORE_TURNS + 1 && forall i | 0 <= i < |run.flags| :: run.flags[i] <==> i != 1
    ensures run.flags[0] && IsLost(run, rows, history, 0)
  {
    hide IsHeld, IsSearched, IsSpoken;
    assert run.flags[0] && !run.flags[1];
    HeldOrSearched(lex, rules, scope, run, rows, history, 0);
    AppendedOfPrefix(run.flags, 1);
    assert run.flags[..1][..0] == run.flags[..0] == [];
    AllAppended(run.flags[..1]);
  }

  /** Appends may fail at any turns whatever: for every list of flags there is a run that has them. */
  lemma {:induction false} AnyAppendsMayFail(
    lex: Lexicon, rules: Rules, scope: Scope, pair: Pair, stored: Turn, flags: seq<bool>)
    returns (run: Run, rows: seq<Turn>)
    requires Speaks(lex, pair) && StoresTurn(rules, stored, pair.user, pair.assistant)
    ensures run.flags == flags && AllSpeak(lex, run.pairs)
    ensures IsSpoken(lex, rules, scope, run, rows, Spoken(lex, scope, run.pairs))
  {
    hide StoresTurn, IsRun, Spoken, IsTranscript, AllSpeak, Clean, TurnText, Speaks;
    if flags == [] {
      run, rows := Run([], 0, [], []), [];
      NothingSaid(lex, rules, scope);
    } else {
      var front, flag := flags[..|flags| - 1], flags[|flags| - 1];
      run, rows := AnyAppendsMayFail(lex, rules, scope, pair, stored, front);
      run, rows := OneMoreSaid(lex, rules, scope, run, rows, pair, stored, flag);
      assert flags == front + [flag];
    }
  }

  /** Any run goes on with this pair, appended or not. */
  lemma OneMoreSaid(
    lex: Lexicon, rules: Rules, scope: Scope, run: Run, rows: seq<Turn>, pair: Pair, stored: Turn, flag: bool)
    returns (longer: Run, after: seq<Turn>)
    requires IsRun(rules, run, rows) && AllSpeak(lex, run.pairs)
    requires Speaks(lex, pair) && StoresTurn(rules, stored, pair.user, pair.assistant)
    ensures longer.flags == run.flags + [flag] && AllSpeak(lex, longer.pairs)
    ensures IsSpoken(lex, rules, scope, longer, after, Spoken(lex, scope, longer.pairs))
  {
    hide StoresTurn, IsRun, Spoken, IsTranscript, AllSpeak, Clean, TurnText;
    var row := stored.(sequence := |rows| + 1);
    longer, after := Said(run, pair, flag), if flag then rows + [row] else rows;
    OneMoreRow(rules, run, rows, stored, pair);
    SpokenGrows(lex, scope, run.pairs, pair);
    SaidIsRun(rules, run, rows, pair, flag, after);
  }

  lemma NothingSaid(lex: Lexicon, rules: Rules, scope: Scope)
    ensures IsRun(rules, Run([], 0, [], []), []) && AllSpeak(lex, [])
  {
  }

  lemma OneMoreRow(rules: Rules, run: Run, rows: seq<Turn>, stored: Turn, pair: Pair)
    requires IsRun(rules, run, rows) && pair.Pair? && StoresTurn(rules, stored, pair.user, pair.assistant)
    ensures var row := stored.(sequence := |rows| + 1);
      && StoresTurn(rules, row, pair.user, pair.assistant)
      && IsTranscript(rules, rows) && IsTranscript(rules, rows + [row])
  {
    TranscriptGrowsByOne(rules, rows, stored.(sequence := |rows| + 1), pair.user, pair.assistant);
  }

  // ---------- A guest at the microphone while a session is bound ----------

  const QUESTION := "where is the key"
  const ANSWER := "under the mat"

  /** The ledger of a session in which the owner has asked one question. */
  ghost function OwnerRows(channel: string): seq<Turn> {
    [Turn(1, QUESTION, ANSWER, channel)]
  }

  /** The lexicon and the scrubber leave the question and the answer as they are. */
  ghost predicate PassesUnchanged(lex: Lexicon, rules: Rules) {
    && Tidy(lex, rules) && rules.scrub(QUESTION) == QUESTION && rules.scrub(ANSWER) == ANSWER
    && forall c | c in {'w', 'y', 'u', 't'} :: !lex.isSpace(c)
  }

  /** A guest's packet that repeats the owner's question and answer. */
  ghost predicate TellsAll(packet: Packet) {
    packet.messages == [Message(User, QUESTION), Message(Assistant, ANSWER)]
  }

  /**
   The owner has asked one question; a guest is at the microphone when the session is bound on a new engine.
   Every packet composed for the guest then has the owner's question and answer, the owner's own stream is
   empty, and the two stores are out of step.
   */
  lemma {:induction false} GuestIsHandedOwnerTurn(
    lex: Lexicon, rules: Rules, session: string, who: string, channel: string, text: string)
    requires PassesUnchanged(lex, rules)
    ensures var rows, guest := OwnerRows(channel), LocalScope(session, Some(who));
      var views := Bound(lex, map[], session, Some(who), rows);
      && IsTranscript(rules, rows) && guest.guest && HistoryOf(views, OwnerScope(session)) == []
      && !InStep(lex, rules, rows, HistoryOf(views, OwnerScope(session)))
      && forall relevant, selected, packet |
           IsComposed(lex, HistoryOf(views, guest), text, relevant, selected, packet) :: TellsAll(packet)
  {
    var rows, scope := OwnerRows(channel), LocalScope(session, Some(who));
    var views := Bound(lex, map[], session, Some(who), rows);
    var history := HistoryOf(views, scope);
    hide TurnText, Tidy, Strip, Bound, InStep, IsComposed, LocalScope, IsTranscript, Spoken, AllSpeak;
    hide Hydrate, Loaded;
    OwnerRowsAreTranscript(lex, rules, channel);
    BoundHistories(lex, rules, map[], session, Some(who), rows);
    InStepAfterBinding(lex, rules, map[], session, Some(who), rows);
    OwnerRowsAreSpoken(lex, rules, scope, channel);
    forall relevant, selected, packet | IsComposed(lex, history, text, relevant, selected, packet)
      ensures TellsAll(packet)
    {
      OneTurnIsTold(lex, history, text, relevant, selected, packet);
    }
  }

  lemma OwnerRowsAreTranscript(lex: Lexicon, rules: Rules, channel: string)
    requires PassesUnchanged(lex, rules)
    ensures IsTranscript(rules, OwnerRows(channel)) && OwnerRows(channel) != []
  {
    hide Tidy, TurnText;
    var question, answer := QUESTION, ANSWER;
    assert |question| == 16 && |answer| == 13;
    assert IsScrubbed(rules, question) && IsScrubbed(rules, answer);
  }

  lemma WordsHaveNoNul()
    ensures NUL !in QUESTION && NUL !in ANSWER
  {
    assert NUL !in "where is the key";
    assert NUL !in "under the mat";
  }

  lemma WordsAreShown(lex: Lexicon, rules: Rules)
    requires PassesUnchanged(lex, rules)
    ensures TurnText(lex, QUESTION) == QUESTION && TurnText(lex, ANSWER) == ANSWER
  {
    hide Tidy, TurnText;
    var question, answer := QUESTION, ANSWER;
    assert |question| == 16 && question[0] == 'w' && question[15] == 'y';
    assert |answer| == 13 && answer[0] == 'u' && answer[12] == 't';
    WordsHaveNoNul();
    WholeText(lex, question);
    WholeText(lex, answer);
  }

  /** A scrubber that only strips leaves them so, whenever their first and last letters are no whitespace. */
  lemma StrippingPasses(lex: Lexicon, rules: Rules)
    requires forall raw :: rules.scrub(raw) == Strip(lex.isSpace, WithoutNul(raw))
    requires forall c | c in {'w', 'y', 'u', 't'} :: !lex.isSpace(c)
    ensures PassesUnchanged(lex, rules)
  {
    hide Tidy, Strip, WithoutNul;
    var question, answer := QUESTION, ANSWER;
    assert |question| == 16 && question[0] == 'w' && question[15] == 'y';
    assert |answer| == 13 && answer[0] == 'u' && answer[12] == 't';
    WordsHaveNoNul();
    StrippingIsTidy(lex, rules);
    NothingToStrip(lex.isSpace, question);
    NothingToStrip(lex.isSpace, answer);
  }

  lemma NothingToStrip(isSpace: char -> bool, s: string)
    requires s != "" && NUL !in s && !isSpace(s[0]) && !isSpace(s[|s| - 1])
    ensures Strip(isSpace, WithoutNul(s)) == s
  {
    hide WithoutNul;
  }

  lemma OwnerRowsAreSpoken(lex: Lexicon, rules: Rules, scope: Scope, channel: string)
    requires PassesUnchanged(lex, rules) && AllSpeak(lex, Hydrate(Loaded(OwnerRows(channel))))
    ensures var history := Spoken(lex, scope, Hydrate(Loaded(OwnerRows(channel))));
      |history| == 1 && history[0].user == QUESTION && history[0].assistant == ANSWER
  {
    hide Tidy, TurnText, Spoken, AllSpeak, Bounded;
    WordsAreShown(lex, rules);
    SpokenLength(lex, scope, Hydrate(Loaded(OwnerRows(channel))));
    SpokenAt(lex, scope, Hydrate(Loaded(OwnerRows(channel))), 0);
  }

  /** Of a history of one turn everything is told. */
  lemma OneTurnIsTold(
    lex: Lexicon, history: seq<Turn>, text: string, relevant: seq<Scored<Turn>>, selected: seq<Turn>, packet: Packet)
    requires |history| == 1 && history[0].user == QUESTION && history[0].assistant == ANSWER
    requires IsComposed(lex, history, text, relevant, selected, packet)
    ensures TellsAll(packet)
  {
    hide IsPacketDigest, IsSelection, Transcript, Chars;
    var question, answer := QUESTION, ANSWER;
    assert |question| == 16 && |answer| == 13;
    OneTurnIsSelected(lex, lex.tokens(text), history, relevant, selected);
    TranscriptOfOne(history[0]);
    assert history == [history[0]];
    assert Transcript(history) == [Message(User, question), Message(Assistant, answer)];
    CharsOfTwo(Message(User, question), Message(Assistant, answer));
  }

  lemma CharsOfTwo(a: Message, b: Message)
    ensures Chars([a, b]) == |a.content| + |b.content|
  {
    assert [a, b][..1] == [a] && [a][..0] == [];
    assert Chars([a]) == |a.content|;
  }

  lemma OneTurnIsSelected(
    lex: Lexicon, tokens: set<string>, history: seq<Turn>, relevant: seq<Scored<Turn>>, selected: seq<Turn>)
    requires |history| == 1 && IsSelection(lex, tokens, history, relevant, selected)
    ensures selected == history
  {
    hide CutAll, Overlap;
    assert Older(history) == [] && Recent(history) == history;
    assert history[0] in selected;
  }

  // ---------- Text that the scrubber changed ----------

  const CREDENTIAL := "sk-" + "0123456789abcdef"
  const OMITTED := "[private credential" + " omitted]"

  /** A run of one turn in which both sides name a credential. */
  ghost function Leaked(): Run {
    Run([], 0, [Pair(CREDENTIAL, CREDENTIAL)], [true])
  }

  ghost function LeakedRows(channel: string): seq<Turn> {
    [Turn(1, OMITTED, OMITTED, channel)]
  }

  lemma LeakedIsRun(rules: Rules, channel: string)
    requires rules.scrub(CREDENTIAL) == OMITTED
    ensures IsRun(rules, Leaked(), LeakedRows(channel))
  {
    var run, rows := Leaked(), LeakedRows(channel);
    var omitted := OMITTED;
    assert |omitted| == 28;
    assert run.flags[..0] == [] && Appended(run.flags) == 1;
    assert IsScrubbed(rules, omitted);
    assert HasRow(rules, run, rows, 0);
  }

  lemma LeakedIsNotKept(lex: Lexicon, rules: Rules)
    requires Tidy(lex, rules) && rules.scrub(CREDENTIAL) == OMITTED
    requires !lex.isSpace('s') && !lex.isSpace('f')
    ensures AllSpeak(lex, Leaked().pairs) && !KeepsAll(lex, rules, Leaked())
  {
    hide Tidy, Speaks, KeepsPair, TurnText, Presentable;
    var text := CREDENTIAL;
    assert |text| == 19;
    OmissionIsPresentable(lex, rules);
    CredentialIsShown(lex);
    OmissionIsOther(lex);
    ChangedIsNotKept(lex, rules, text);
    assert IsRetained(1, 0) && ShownLimit(1, 0) == MAX_TURN_TEXT;
  }

  lemma OmissionIsPresentable(lex: Lexicon, rules: Rules)
    requires Tidy(lex, rules) && rules.scrub(CREDENTIAL) == OMITTED
    ensures Presentable(lex.isSpace, OMITTED)
  {
    hide TurnText, Presentable;
    var omitted := OMITTED;
    assert |omitted| == 28;
  }

  lemma ChangedIsNotKept(lex: Lexicon, rules: Rules, text: string)
    requires text != "" && TurnText(lex, text) == text && TurnText(lex, rules.scrub(text)) != text
    ensures Speaks(lex, Pair(text, text)) && !KeepsPair(lex, rules, Pair(text, text), MAX_TURN_TEXT)
  {
    TurnTextFits(lex, text);
    TurnTextFits(lex, rules.scrub(text));
    hide TurnText;
  }

  /** Under rules that take the credential out, a restart shows something else than what was said. */
  lemma {:induction false} ScrubbedCredentialShows(lex: Lexicon, rules: Rules, scope: Scope, channel: string)
    requires Tidy(lex, rules) && rules.scrub(CREDENTIAL) == OMITTED
    requires !lex.isSpace('s') && !lex.isSpace('f')
    ensures var rows := LeakedRows(channel);
      && IsRun(rules, Leaked(), rows) && AllSpeak(lex, Leaked().pairs) && AllSpeak(lex, Hydrate(Loaded(rows)))
      && !ShowSame(Spoken(lex, scope, Leaked().pairs), Spoken(lex, scope, Hydrate(Loaded(rows))))
  {
    hide ShowSame, Spoken, IsRun, Tidy, AllSpeak, KeepsAll, LeakedRows, Hydrate, Loaded;
    LeakedIsRun(rules, channel);
    LeakedIsNotKept(lex, rules);
    RestartShowsWhatWasSaid(lex, rules, scope, Leaked(), LeakedRows(channel));
  }

  lemma CredentialHasNoNul()
    ensures NUL !in CREDENTIAL
  {
    assert NUL !in "sk-";
    assert NUL !in "0123456789abcdef";
  }

  lemma CredentialIsShown(lex: Lexicon)
    requires !lex.isSpace('s') && !lex.isSpace('f')
    ensures TurnText(lex, CREDENTIAL) == CREDENTIAL
  {
    var text := CREDENTIAL;
    assert |text| == 19 && text[0] == 's' && text[18] == 'f';
    CredentialHasNoNul();
    WholeText(lex, text);
  }

  lemma WholeText(lex: Lexicon, s: string)
    requires 0 < |s| <= MAX_TURN_TEXT && NUL !in s && !lex.isSpace(s[0]) && !lex.isSpace(s[|s| - 1])
    ensures TurnText(lex, s) == s
  {
    hide Strip, WithoutNul;
    NothingToStrip(lex.isSpace, s);
  }

  /** What is shown of the omission starts with its bracket, so it is not the credential. */
  lemma OmissionIsOther(lex: Lexicon)
    requires Presentable(lex.isSpace, OMITTED)
    ensures TurnText(lex, OMITTED) != CREDENTIAL
  {
    var text, other := OMITTED, CREDENTIAL;
    assert text != "" && text[0] == '[' && other[0] == 's';
    KeepsFirst(lex, text);
  }

  lemma KeepsFirst(lex: Lexicon, s: string)
    requires s != "" && Presentable(lex.isSpace, s)
    ensures TurnText(lex, s) != "" && TurnText(lex, s)[0] == s[0]
  {
    hide WithoutNul, StripLeft, StripRight;
    StripOfPresentable(lex.isSpace, s);
  }
}
