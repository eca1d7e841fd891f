/**
 The in-memory context and the durable ledger together: a turn is recorded in one and appended to
 the other, a restart rebuilds the first from the second, and a packet draws on both.
 */
module ConversationMemory {
  import opened Options
  import opened Text
  import opened Ranking
  import opened ConversationContext
  import opened ConversationPacket
  import opened ConversationSessions

  const LOCAL_OWNER := "local-owner"
  const LOCAL_SESSION := "local"
  const HISTORICAL_LIMIT := 4

  // ---------- What recording a list of pairs leaves behind ----------

  ghost predicate Speaks(lex: Lexicon, pair: Pair) {
    pair.Pair? && (TurnText(lex, pair.user) != "" || TurnText(lex, pair.assistant) != "")
  }

  ghost predicate AllSpeak(lex: Lexicon, pairs: seq<Pair>) {
    forall i | 0 <= i < |pairs| :: Speaks(lex, pairs[i])
  }

  ghost function TurnAt(lex: Lexicon, scope: Scope, pairs: seq<Pair>, i: nat): Turn
    requires i < |pairs| && pairs[i].Pair?
  {
    Turn(i + 1, TurnText(lex, pairs[i].user), TurnText(lex, pairs[i].assistant),
         Bounded(lex.isSpace, scope.source, MAX_SOURCE))
  }

  /** The history that recording these pairs, one by one and from nothing, produces. */
  ghost function Spoken(lex: Lexicon, scope: Scope, pairs: seq<Pair>): (r: seq<Turn>)
    requires AllSpeak(lex, pairs)
    ensures |r| == |pairs|
  {
    seq(|pairs|, i requires 0 <= i < |pairs| && Speaks(lex, pairs[i]) => TurnAt(lex, scope, pairs, i))
  }

  lemma SpokenIsHistory(lex: Lexicon, scope: Scope, pairs: seq<Pair>)
    requires AllSpeak(lex, pairs)
    ensures IsHistory(lex, Spoken(lex, scope, pairs))
  {
    hide IsText, Bounded;
    forall i | 0 <= i < |pairs|
      ensures var turn := Spoken(lex, scope, pairs)[i];
        IsText(lex, turn.user) && IsText(lex, turn.assistant) && (turn.user != "" || turn.assistant != "")
    {
      TurnTextIsText(lex, pairs[i].user);
      TurnTextIsText(lex, pairs[i].assistant);
      assert Speaks(lex, pairs[i]);
    }
  }

  lemma {:induction false} RecordedPairsAreSpoken(lex: Lexicon, views: Views, scope: Scope, pairs: seq<Pair>)
    requires AllSpeak(lex, pairs) && scope !in views
    ensures HistoryOf(RecordedPairs(lex, views, scope, pairs), scope) == Spoken(lex, scope, pairs)
  {
    hide Bounded;
    if pairs != [] {
      var front := pairs[..|pairs| - 1];
      assert AllSpeak(lex, front);
      RecordedPairsAreSpoken(lex, views, scope, front);
      assert Speaks(lex, pairs[|front|]);
      assert forall i | 0 <= i < |front| :: Spoken(lex, scope, pairs)[i] == Spoken(lex, scope, front)[i];
      assert Spoken(lex, scope, pairs) == Spoken(lex, scope, front) + [TurnAt(lex, scope, pairs, |front|)];
    }
  }

  /** A restore keeps the last 768 pairs, spoken from nothing. */
  lemma RestoredIsSpoken(lex: Lexicon, views: Views, scope: Scope, pairs: seq<Pair>)
    requires AllSpeak(lex, pairs)
    ensures AllSpeak(lex, LastN(pairs, MAX_RESTORE_TURNS))
    ensures HistoryOf(Restored(lex, views, scope, pairs), scope) ==
            Spoken(lex, scope, LastN(pairs, MAX_RESTORE_TURNS))
  {
    hide Speaks;
    var newest := LastN(pairs, MAX_RESTORE_TURNS);
    assert AllSpeak(lex, newest);
    assert Malformed !in newest by {
      NoneMalformed(lex, newest);
    }
    RecordedPairsAreSpoken(lex, views - {scope}, scope, newest);
  }

  lemma NoneMalformed(lex: Lexicon, pairs: seq<Pair>)
    requires AllSpeak(lex, pairs)
    ensures Malformed !in pairs
  {
    assert forall i | 0 <= i < |pairs| :: Speaks(lex, pairs[i]) && pairs[i].Pair?;
  }

  // ---------- Restart equals replay ----------

  ghost predicate SameWords(a: Turn, b: Turn) {
    a.user == b.user && a.assistant == b.assistant && a.source == b.source
  }

  /** Both keep the same turns in the same order, cut alike; only the numbers may differ. */
  ghost predicate ShowSame(a: seq<Turn>, b: seq<Turn>) {
    && |Visible(a)| == |Visible(b)|
    && forall i | 0 <= i < |Visible(a)| :: SameWords(Visible(a)[i], Visible(b)[i])
  }

  lemma SpokenAt(lex: Lexicon, scope: Scope, pairs: seq<Pair>, i: nat)
    requires AllSpeak(lex, pairs) && i < |pairs|
    ensures pairs[i].Pair? && Spoken(lex, scope, pairs)[i] == TurnAt(lex, scope, pairs, i)
  {
    assert Speaks(lex, pairs[i]);
    hide TurnText, Bounded;
  }

  /** Visible turn i of a spoken list, found in the list itself. */
  lemma VisibleSpoken(lex: Lexicon, scope: Scope, pairs: seq<Pair>, i: nat)
    requires AllSpeak(lex, pairs) && i < |Visible(Spoken(lex, scope, pairs))|
    ensures |Visible(Spoken(lex, scope, pairs))| == |LastN(pairs, MAX_RESTORE_TURNS)|
    ensures var shown := Visible(Spoken(lex, scope, pairs));
      var at := |pairs| - |shown| + i;
      && pairs[at].Pair?
      && shown[i] == if i < |shown| - MAX_SESSION_PAIRS then Cut(TurnAt(lex, scope, pairs, at))
                     else TurnAt(lex, scope, pairs, at)
  {
    hide IsHistory, Visible, AllSpeak, Spoken, TurnAt, Cut;
    SpokenIsHistory(lex, scope, pairs);
    SpokenLength(lex, scope, pairs);
    VisibleIsTheLastTurns(lex, Spoken(lex, scope, pairs));
    SpokenAt(lex, scope, pairs, |pairs| - |Visible(Spoken(lex, scope, pairs))| + i);
  }

  lemma SpokenLength(lex: Lexicon, scope: Scope, pairs: seq<Pair>)
    requires AllSpeak(lex, pairs)
    ensures |Spoken(lex, scope, pairs)| == |pairs|
  {
  }

  lemma SameTurnAt(lex: Lexicon, scope: Scope, a: seq<Pair>, i: nat, b: seq<Pair>, j: nat)
    requires i < |a| && j < |b| && a[i] == b[j] && a[i].Pair?
    ensures SameWords(TurnAt(lex, scope, a, i), TurnAt(lex, scope, b, j))
    ensures SameWords(Cut(TurnAt(lex, scope, a, i)), Cut(TurnAt(lex, scope, b, j)))
  {
    hide TurnText, Bounded;
  }

  lemma VisibleTurnsAgree(lex: Lexicon, scope: Scope, pairs: seq<Pair>, newest: seq<Pair>, i: nat)
    requires AllSpeak(lex, pairs) && AllSpeak(lex, newest) && newest == LastN(pairs, MAX_RESTORE_TURNS) && i < |newest|
    ensures |Visible(Spoken(lex, scope, pairs))| == |newest| == |Visible(Spoken(lex, scope, newest))|
    ensures SameWords(Visible(Spoken(lex, scope, pairs))[i], Visible(Spoken(lex, scope, newest))[i])
  {
    hide Visible, AllSpeak, Spoken, TurnAt, Cut, SameWords, LastN;
    VisibleLength(lex, scope, pairs);
    VisibleLength(lex, scope, newest);
    LastOfLast(pairs, MAX_RESTORE_TURNS);
    VisibleSpoken(lex, scope, pairs, i);
    VisibleSpoken(lex, scope, newest, i);
    LastAt(pairs, MAX_RESTORE_TURNS, i);
    SameTurnAt(lex, scope, pairs, |pairs| - |newest| + i, newest, i);
  }

  lemma NewestSpeak(lex: Lexicon, pairs: seq<Pair>)
    requires AllSpeak(lex, pairs)
    ensures AllSpeak(lex, LastN(pairs, MAX_RESTORE_TURNS))
  {
    hide Speaks;
  }

  /** Loading the ledger shows the same exact and archived turns as having lived through it. */
  lemma {:induction false} RestartShowsTheSame(lex: Lexicon, scope: Scope, pairs: seq<Pair>)
    requires AllSpeak(lex, pairs)
    ensures AllSpeak(lex, LastN(pairs, MAX_RESTORE_TURNS))
    ensures ShowSame(Spoken(lex, scope, pairs), Spoken(lex, scope, LastN(pairs, MAX_RESTORE_TURNS)))
  {
    hide Visible, AllSpeak, Spoken, SameWords, LastN;
    var newest := LastN(pairs, MAX_RESTORE_TURNS);
    NewestSpeak(lex, pairs);
    VisibleLength(lex, scope, pairs);
    VisibleLength(lex, scope, newest);
    LastOfLast(pairs, MAX_RESTORE_TURNS);
    forall i | 0 <= i < |newest|
      ensures SameWords(Visible(Spoken(lex, scope, pairs))[i], Visible(Spoken(lex, scope, newest))[i])
    {
      VisibleTurnsAgree(lex, scope, pairs, newest, i);
    }
  }

  lemma LastAt<T>(s: seq<T>, n: nat, i: nat)
    requires i < |LastN(s, n)|
    ensures LastN(s, n)[i] == s[|s| - |LastN(s, n)| + i]
  {
  }

  lemma LastOfLast<T>(s: seq<T>, n: nat)
    ensures LastN(LastN(s, n), n) == LastN(s, n)
  {
  }

  lemma VisibleLength(lex: Lexicon, scope: Scope, pairs: seq<Pair>)
    requires AllSpeak(lex, pairs)
    ensures |Visible(Spoken(lex, scope, pairs))| == |LastN(pairs, MAX_RESTORE_TURNS)|
  {
    SpokenIsHistory(lex, scope, pairs);
    hide IsHistory, Visible, Speaks, Bounded;
    VisibleIsTheLastTurns(lex, Spoken(lex, scope, pairs));
  }

  /** The whole state, digest and numbering included, survives a restart exactly up to 768 turns. */
  lemma {:induction false} RestartRestoresWholeState(
    lex: Lexicon, scope: Scope, pairs: seq<Pair>, live: Fields, restored: Fields)
    requires AllSpeak(lex, pairs) && AllSpeak(lex, LastN(pairs, MAX_RESTORE_TURNS))
    requires Represents(lex, live, Spoken(lex, scope, pairs))
    requires Represents(lex, restored, Spoken(lex, scope, LastN(pairs, MAX_RESTORE_TURNS)))
    ensures live == restored <==> |pairs| <= MAX_RESTORE_TURNS
  {
    if |pairs| <= MAX_RESTORE_TURNS {
      hide Represents, Speaks;
      FieldsAreDetermined(lex, live, restored, Spoken(lex, scope, pairs));
    }
  }

  // ---------- The two stores in step ----------

  /** What the scrubber leaves is clear of NULs and of leading whitespace, and it leaves nothing of a blank text. */
  ghost predicate Tidy(lex: Lexicon, rules: Rules) {
    forall raw :: rules.scrub(raw) != "" ==>
      Presentable(lex.isSpace, rules.scrub(raw)) && TurnText(lex, raw) != ""
  }

  lemma PresentableSpeaks(lex: Lexicon, s: string)
    requires s != "" && Presentable(lex.isSpace, s)
    ensures TurnText(lex, s) != ""
  {
    StripOfPresentable(lex.isSpace, s);
    hide Strip, StripRight, Presentable, WithoutNul;
  }

  /** A scrubber that only strips is tidy, so there are rules for every lexicon. */
  lemma StrippingIsTidy(lex: Lexicon, rules: Rules)
    requires forall raw :: rules.scrub(raw) == Strip(lex.isSpace, WithoutNul(raw))
    ensures Tidy(lex, rules)
  {
    forall raw | rules.scrub(raw) != ""
      ensures Presentable(lex.isSpace, rules.scrub(raw)) && TurnText(lex, raw) != ""
    {
      BoundedIsPresentable(lex.isSpace, raw, |rules.scrub(raw)|);
    }
  }

  /** The engine holds the stored text, or the text it was scrubbed from. */
  ghost predicate IsTold(lex: Lexicon, rules: Rules, text: string, stored: string) {
    text == TurnText(lex, stored) || exists raw :: rules.scrub(raw) == stored && text == TurnText(lex, raw)
  }

  ghost predicate Recalls(lex: Lexicon, rules: Rules, turn: Turn, row: Turn) {
    IsTold(lex, rules, turn.user, row.user) && IsTold(lex, rules, turn.assistant, row.assistant)
  }

  /** The history recalls the newest rows, and lacks a row only when it is long enough to fill the window. */
  ghost predicate InStep(lex: Lexicon, rules: Rules, rows: seq<Turn>, history: seq<Turn>) {
    && IsTranscript(rules, rows) && IsHistory(lex, history)
    && RecallsAll(lex, rules, rows, history) && (|history| < |rows| ==> |history| >= MAX_RESTORE_TURNS)
  }

  ghost predicate RecallsAll(lex: Lexicon, rules: Rules, rows: seq<Turn>, history: seq<Turn>) {
    |history| <= |rows| &&
    forall i | 0 <= i < |history| :: Recalls(lex, rules, history[i], rows[|rows| - |history| + i])
  }

  lemma RecallsAllFits(lex: Lexicon, rules: Rules, rows: seq<Turn>, history: seq<Turn>)
    requires RecallsAll(lex, rules, rows, history)
    ensures |history| <= |rows|
  {
  }

  lemma RecallsOneMore(lex: Lexicon, rules: Rules, rows: seq<Turn>, history: seq<Turn>, row: Turn, turn: Turn)
    requires RecallsAll(lex, rules, rows, history) && Recalls(lex, rules, turn, row)
    ensures RecallsAll(lex, rules, rows + [row], history + [turn])
  {
    hide Recalls;
  }

  lemma {:induction false} InStepAfterTurn(
    lex: Lexicon, rules: Rules, rows: seq<Turn>, history: seq<Turn>, row: Turn,
    scope: Scope, userText: string, assistantText: string)
    requires Tidy(lex, rules) && InStep(lex, rules, rows, history)
    requires Clean(rules, userText, MAX_TURN_CODEPOINTS) == Ok(row.user)
    requires Clean(rules, assistantText, MAX_TURN_CODEPOINTS) == Ok(row.assistant)
    requires row.sequence == |rows| + 1
    ensures TurnText(lex, userText) != ""
    ensures InStep(lex, rules, rows + [row],
                   history + [Turn(|history| + 1, TurnText(lex, userText), TurnText(lex, assistantText),
                                   Bounded(lex.isSpace, scope.source, MAX_SOURCE))])
  {
    assert rules.scrub(userText) != "";
    hide Bounded, IsText, IsHistory, IsTranscript, RecallsAll, Recalls, TurnText;
    TranscriptGrowsByOne(rules, rows, row, userText, assistantText);
    TurnTextIsText(lex, userText);
    TurnTextIsText(lex, assistantText);
    var turn := Turn(|history| + 1, TurnText(lex, userText), TurnText(lex, assistantText),
                     Bounded(lex.isSpace, scope.source, MAX_SOURCE));
    HistoryAfterRecord(lex, history, turn);
    RecallsItsOwnRow(lex, rules, turn, row, userText, assistantText);
    RecallsOneMore(lex, rules, rows, history, row, turn);
    assert |history| <= |rows| by {
      RecallsAllFits(lex, rules, rows, history);
    }
  }

  lemma RecallsItsOwnRow(
    lex: Lexicon, rules: Rules, turn: Turn, row: Turn, userText: string, assistantText: string)
    requires Clean(rules, userText, MAX_TURN_CODEPOINTS) == Ok(row.user)
    requires Clean(rules, assistantText, MAX_TURN_CODEPOINTS) == Ok(row.assistant)
    requires turn.user == TurnText(lex, userText) && turn.assistant == TurnText(lex, assistantText)
    ensures Recalls(lex, rules, turn, row)
  {
    assert rules.scrub(userText) == row.user && rules.scrub(assistantText) == row.assistant;
  }

  function Hydrate(rows: seq<Turn>): (r: seq<Pair>)
    ensures |r| == |rows|
    ensures forall i | 0 <= i < |r| :: r[i] == Pair(rows[i].user, rows[i].assistant)
  {
    seq(|rows|, i requires 0 <= i < |rows| => Pair(rows[i].user, rows[i].assistant))
  }

  lemma HydratedRowsSpeak(lex: Lexicon, rules: Rules, rows: seq<Turn>)
    requires Tidy(lex, rules)
    requires forall i | 0 <= i < |rows| :: IsScrubbed(rules, rows[i].user)
    ensures AllSpeak(lex, Hydrate(rows))
  {
    hide TurnText;
    forall i | 0 <= i < |rows| ensures Speaks(lex, Hydrate(rows)[i]) {
      var raw :| rules.scrub(raw) == rows[i].user;
      PresentableSpeaks(lex, rules.scrub(raw));
    }
  }

  /** The rows a restart loads. */
  function Loaded(rows: seq<Turn>): seq<Turn> {
    LastN(rows, MAX_RESTORE_TURNS)
  }

  lemma StoredWordsAreTold(lex: Lexicon, rules: Rules, turn: Turn, row: Turn)
    requires turn.user == TurnText(lex, row.user) && turn.assistant == TurnText(lex, row.assistant)
    ensures Recalls(lex, rules, turn, row)
  {
    hide TurnText;
  }

  lemma RestartRecalls(lex: Lexicon, rules: Rules, rows: seq<Turn>, scope: Scope, i: nat)
    requires AllSpeak(lex, Hydrate(Loaded(rows)))
    requires i < |Loaded(rows)|
    ensures Recalls(lex, rules, Spoken(lex, scope, Hydrate(Loaded(rows)))[i], rows[|rows| - |Loaded(rows)| + i])
  {
    hide TurnText, Bounded, Spoken, AllSpeak, Recalls, LastN;
    SpokenAt(lex, scope, Hydrate(Loaded(rows)), i);
    LastAt(rows, MAX_RESTORE_TURNS, i);
    StoredWordsAreTold(lex, rules, Spoken(lex, scope, Hydrate(Loaded(rows)))[i], Loaded(rows)[i]);
  }

  /** A restart leaves the two stores in step, whatever the ledger holds. */
  lemma {:induction false} InStepAfterRestart(lex: Lexicon, rules: Rules, rows: seq<Turn>, scope: Scope)
    requires Tidy(lex, rules) && IsTranscript(rules, rows)
    ensures AllSpeak(lex, Hydrate(Loaded(rows)))
    ensures InStep(lex, rules, rows, Spoken(lex, scope, Hydrate(Loaded(rows))))
  {
    HydratedRowsSpeak(lex, rules, Loaded(rows));
    SpokenIsHistory(lex, scope, Hydrate(Loaded(rows)));
    hide TurnText, Bounded, IsTranscript, Tidy, Recalls, IsHistory, Spoken, AllSpeak;
    forall i | 0 <= i < |Loaded(rows)|
      ensures Recalls(lex, rules, Spoken(lex, scope, Hydrate(Loaded(rows)))[i], rows[|rows| - |Loaded(rows)| + i])
    {
      RestartRecalls(lex, rules, rows, scope, i);
    }
    RestartLength(lex, scope, rows);
  }

  lemma RestartLength(lex: Lexicon, scope: Scope, rows: seq<Turn>)
    requires AllSpeak(lex, Hydrate(Loaded(rows)))
    ensures |Spoken(lex, scope, Hydrate(Loaded(rows)))| == |Loaded(rows)|
  {
  }

  // ---------- The window and the search divide the history ----------

  /** The rows a search may return: all but the newest 768. */
  ghost function SearchedRows(rows: seq<Turn>): seq<Turn> {
    if |rows| > MAX_RESTORE_TURNS then rows[..|rows| - MAX_RESTORE_TURNS] else []
  }

  /** shown recalls the row, whole or cut as the archive cuts. */
  ghost predicate ShowsRow(lex: Lexicon, rules: Rules, shown: Turn, row: Turn) {
    exists whole :: Recalls(lex, rules, whole, row) && (shown == whole || shown == Cut(whole))
  }

  /**
   Every row is either searchable or recalled by exactly one visible turn, never both: the visible
   turns recall, in order, the rows that follow the searchable ones.
   */
  lemma {:induction false} WindowAndSearchDivideHistory(lex: Lexicon, rules: Rules, rows: seq<Turn>, history: seq<Turn>)
    requires InStep(lex, rules, rows, history)
    ensures |SearchedRows(rows)| + |Visible(history)| == |rows|
    ensures |Visible(history)| == |LastN(rows, MAX_RESTORE_TURNS)|
    ensures forall i | 0 <= i < |Visible(history)| ::
              ShowsRow(lex, rules, Visible(history)[i], rows[|SearchedRows(rows)| + i])
  {
    hide IsHistory, Visible, IsTranscript, Recalls, Cut;
    VisibleIsTheLastTurns(lex, history);
    forall i | 0 <= i < |Visible(history)|
      ensures ShowsRow(lex, rules, Visible(history)[i], rows[|SearchedRows(rows)| + i])
    {
      var at := |history| - |Visible(history)| + i;
      var whole := history[at];
      assert Recalls(lex, rules, whole, rows[|rows| - |history| + at]);
      assert |rows| - |history| + at == |SearchedRows(rows)| + i;
      assert Visible(history)[i] == whole || Visible(history)[i] == Cut(whole);
    }
  }

  /** The row, counted from one, that a visible turn of the history recalls. */
  ghost function RowOf(rows: seq<Turn>, history: seq<Turn>, turn: Turn): int {
    |rows| - |history| + turn.sequence
  }

  /** No row found by a search is also the row of a selected turn. */
  lemma {:induction false} FoundAndSelectedAreDistinct(
    lex: Lexicon, rules: Rules, rows: seq<Turn>, history: seq<Turn>, tokens: set<string>,
    relevant: seq<Scored<Turn>>, selected: seq<Turn>,
    query: set<string>, best: seq<Scored<Turn>>, limit: nat)
    requires InStep(lex, rules, rows, history)
    requires IsSelection(lex, tokens, history, relevant, selected)
    requires IsBest(best, Matches(lex, query, SearchedRows(rows)), limit) && InOrder(best)
    ensures Increasing(Items(best)) && Increasing(selected)
    ensures forall found, turn | found in Items(best) && turn in selected ::
              found.sequence < RowOf(rows, history, turn)
  {
    hide IsText, Recalls, IsBest, Matches, IsScrubbed, IsHistory, IsSelection, SearchedRows, Visible;
    forall found, turn | found in Items(best) && turn in selected
      ensures found.sequence < RowOf(rows, history, turn)
    {
      FoundIsSearched(lex, rules, rows, query, best, limit, found);
      SelectedIsVisible(lex, tokens, history, relevant, selected, turn);
      SearchedLength(rows);
    }
    FoundAreIncreasing(lex, query, SearchedRows(rows), best, limit);
    SelectedAreIncreasing(lex, tokens, history, relevant, selected);
  }

  lemma FoundAreIncreasing(lex: Lexicon, query: set<string>, rows: seq<Turn>, best: seq<Scored<Turn>>, limit: nat)
    requires IsBest(best, Matches(lex, query, rows), limit) && InOrder(best)
    ensures Increasing(Items(best))
  {
    assert forall i | 0 <= i < |best| :: best[i] in best && best[i].sequence == best[i].item.sequence;
  }

  lemma SelectedAreIncreasing(
    lex: Lexicon, tokens: set<string>, history: seq<Turn>, relevant: seq<Scored<Turn>>, selected: seq<Turn>)
    requires IsSelection(lex, tokens, history, relevant, selected)
    ensures Increasing(selected)
  {
  }

  lemma SearchedLength(rows: seq<Turn>)
    ensures |SearchedRows(rows)| == if |rows| > MAX_RESTORE_TURNS then |rows| - MAX_RESTORE_TURNS else 0
  {
  }

  lemma FoundIsSearched(
    lex: Lexicon, rules: Rules, rows: seq<Turn>, query: set<string>, best: seq<Scored<Turn>>, limit: nat, found: Turn)
    requires IsTranscript(rules, rows) && found in Items(best)
    requires IsBest(best, Matches(lex, query, SearchedRows(rows)), limit)
    ensures 1 <= found.sequence <= |SearchedRows(rows)|
  {
    hide IsScrubbed;
    var k :| 0 <= k < |best| && best[k].item == found;
    assert best[k] in best;
    assert best[k] in Matches(lex, query, SearchedRows(rows));
    assert found in SearchedRows(rows);
    var i :| 0 <= i < |SearchedRows(rows)| && SearchedRows(rows)[i] == found;
    assert found.sequence == rows[i].sequence == i + 1;
  }

  lemma SelectedIsVisible(
    lex: Lexicon, tokens: set<string>, history: seq<Turn>, relevant: seq<Scored<Turn>>, selected: seq<Turn>, turn: Turn)
    requires IsHistory(lex, history) && IsSelection(lex, tokens, history, relevant, selected) && turn in selected
    ensures |history| - |Visible(history)| < turn.sequence <= |history|
    ensures |Visible(history)| == if |history| <= MAX_RESTORE_TURNS then |history| else MAX_RESTORE_TURNS
  {
    hide IsText, Visible;
    VisibleIsTheLastTurns(lex, history);
    if turn in Recent(history) {
      hide IsSelection, IsHistory;
      var i :| 0 <= i < |Recent(history)| && Recent(history)[i] == turn;
      RecentIsVisible(lex, history, i);
    } else {
      OlderIsVisible(lex, tokens, history, relevant, selected, turn);
      VisibleIsNumbered(lex, history, turn);
    }
  }

  lemma RecentIsVisible(lex: Lexicon, history: seq<Turn>, i: nat)
    requires IsHistory(lex, history) && i < |Recent(history)|
    ensures |Recent(history)| <= |Visible(history)|
    ensures Recent(history)[i].sequence == |history| - |Recent(history)| + i + 1
  {
    hide IsText, Visible;
    VisibleIsTheLastTurns(lex, history);
    assert Recent(history)[i] == history[|history| - |Recent(history)| + i];
  }

  lemma VisibleIsNumbered(lex: Lexicon, history: seq<Turn>, turn: Turn)
    requires IsHistory(lex, history) && turn in Visible(history)
    ensures |history| - |Visible(history)| < turn.sequence <= |history|
  {
    hide IsText, Visible;
    VisibleIsTheLastTurns(lex, history);
    var i :| 0 <= i < |Visible(history)| && Visible(history)[i] == turn;
    assert history[|history| - |Visible(history)| + i].sequence == turn.sequence;
  }

  // ---------- The assistant's use of both ----------

  datatype ActorKind = OwnerActor | GuestActor | OtherActor

  datatype Caller = Caller(actorId: string, kind: ActorKind, sessionId: string)

  /** The stream a caller speaks in; a guest at the local microphone gets a stream of its own. */
  function ConversationScope(caller: Caller, localGuest: Option<string>): Scope {
    if caller.kind.GuestActor? then Scope(caller.actorId, caller.sessionId, "remote", "remote-guest", true)
    else if localGuest.Some? then
      Scope(caller.actorId, caller.sessionId, "local", "guest:" + Take(localGuest.value, 64), true)
    else Scope(caller.actorId, caller.sessionId, "local", "owner", false)
  }

  /**
   Two callers share a stream exactly when they act for one actor in one session, both remotely as guests or
   both locally, and at the microphone as the owner or as guests whose labels agree in their first 64 characters.
   */
  lemma {:induction false} StreamsAreShared(a: Caller, guestA: Option<string>, b: Caller, guestB: Option<string>)
    ensures ConversationScope(a, guestA) == ConversationScope(b, guestB) <==>
            && a.actorId == b.actorId && a.sessionId == b.sessionId && (a.kind.GuestActor? <==> b.kind.GuestActor?)
            && (|| a.kind.GuestActor?
                || (guestA.None? && guestB.None?)
                || (guestA.Some? && guestB.Some? && Take(guestA.value, 64) == Take(guestB.value, 64)))
  {
    var prefix := "guest:";
    if guestA.Some? && guestB.Some? {
      var x, y := Take(guestA.value, 64), Take(guestB.value, 64);
      assert (prefix + x)[|prefix|..] == x && (prefix + y)[|prefix|..] == y;
    }
  }

  /** The stream of the local owner's own context; while a guest is at the microphone, that is the guest's. */
  function LocalScope(sessionId: string, localGuest: Option<string>): (scope: Scope)
    ensures InActorSession(scope, LOCAL_OWNER, sessionId) && (scope.guest <==> localGuest.Some?)
  {
    ConversationScope(Caller(LOCAL_OWNER, OwnerActor, sessionId), localGuest)
  }

  function OwnerScope(sessionId: string): Scope {
    LocalScope(sessionId, None)
  }

  // ---------- Binding a session, with or without a guest at the microphone ----------

  lemma RecordedElsewhere(lex: Lexicon, views: Views, scope: Scope, user: string, assistant: string, other: Scope)
    requires other != scope
    ensures HistoryOf(Recorded(lex, views, scope, user, assistant), other) == HistoryOf(views, other)
  {
    hide TurnText, Bounded;
  }

  lemma {:induction false} RecordedPairsElsewhere(
    lex: Lexicon, views: Views, scope: Scope, pairs: seq<Pair>, other: Scope)
    requires other != scope
    ensures HistoryOf(RecordedPairs(lex, views, scope, pairs), other) == HistoryOf(views, other)
  {
    hide Recorded, HistoryOf;
    if pairs != [] {
      var front, last := pairs[..|pairs| - 1], pairs[|pairs| - 1];
      RecordedPairsElsewhere(lex, views, scope, front, other);
      if last.Pair? {
        RecordedElsewhere(
          lex, RecordedPairs(lex, views, scope, front), scope, last.user, last.assistant, other);
      }
    }
  }

  lemma RestoredElsewhere(lex: Lexicon, views: Views, scope: Scope, pairs: seq<Pair>, other: Scope)
    requires other != scope
    ensures HistoryOf(Restored(lex, views, scope, pairs), other) == HistoryOf(views, other)
  {
    hide RecordedPairs;
    RecordedPairsElsewhere(
      lex, views - {scope}, scope, LastN(pairs, MAX_SESSION_PAIRS + MAX_ARCHIVE_PAIRS), other);
  }

  /** The views once the rows are restored into the stream of the local owner's context. */
  ghost function Bound(
    lex: Lexicon, views: Views, session: string, localGuest: Option<string>, rows: seq<Turn>): Views {
    Step(lex, views, RestoreOp(LocalScope(session, localGuest), Hydrate(Loaded(rows))))
  }

  lemma BoundHistories(
    lex: Lexicon, rules: Rules, views: Views, session: string, localGuest: Option<string>, rows: seq<Turn>)
    requires Tidy(lex, rules) && IsTranscript(rules, rows)
    ensures AllSpeak(lex, Hydrate(Loaded(rows)))
    ensures HistoryOf(Bound(lex, views, session, localGuest, rows), LocalScope(session, localGuest)) ==
            Spoken(lex, LocalScope(session, localGuest), Hydrate(Loaded(rows)))
    ensures forall other | other != LocalScope(session, localGuest) ::
              HistoryOf(Bound(lex, views, session, localGuest, rows), other) == HistoryOf(views, other)
  {
    var scope, pairs := LocalScope(session, localGuest), Hydrate(Loaded(rows));
    hide Tidy, IsTranscript, InStep, AllSpeak, Spoken, Restored, HistoryOf, LocalScope, Hydrate;
    InStepAfterRestart(lex, rules, rows, scope);
    RestoredIsSpoken(lex, views, scope, pairs);
    LoadedIsNewest(rows);
    forall other | other != scope
      ensures HistoryOf(Bound(lex, views, session, localGuest, rows), other) == HistoryOf(views, other)
    {
      RestoredElsewhere(lex, views, scope, pairs, other);
    }
  }

  lemma LoadedIsNewest(rows: seq<Turn>)
    ensures LastN(Hydrate(Loaded(rows)), MAX_RESTORE_TURNS) == Hydrate(Loaded(rows))
  {
  }

  /**
   Binding a session whose owner has no context yet leaves both stores in step exactly when no guest is at
   the microphone or the ledger is empty: a guest gets the owner's rows, and the owner gets none.
   */
  lemma {:induction false} InStepAfterBinding(
    lex: Lexicon, rules: Rules, views: Views, session: string, localGuest: Option<string>, rows: seq<Turn>)
    requires Tidy(lex, rules) && IsTranscript(rules, rows) && HistoryOf(views, OwnerScope(session)) == []
    ensures InStep(lex, rules, rows, HistoryOf(Bound(lex, views, session, localGuest, rows), OwnerScope(session)))
            <==> localGuest.None? || rows == []
  {
    hide Tidy, IsTranscript, AllSpeak, Spoken, Step, HistoryOf, InStep, Hydrate;
    BoundHistories(lex, rules, views, session, localGuest, rows);
    if localGuest.None? {
      InStepAfterRestart(lex, rules, rows, OwnerScope(session));
    } else {
      assert LocalScope(session, localGuest) != OwnerScope(session);
      EmptyInStep(lex, rules, rows);
    }
  }

  lemma EmptyInStep(lex: Lexicon, rules: Rules, rows: seq<Turn>)
    requires IsTranscript(rules, rows)
    ensures InStep(lex, rules, rows, []) <==> rows == []
  {
    hide IsTranscript;
  }

  /** No stream of this session holds anything. */
  ghost predicate IsVacant(views: Views, session: string) {
    forall scope | InActorSession(scope, LOCAL_OWNER, session) :: HistoryOf(views, scope) == []
  }

  lemma OwnerIsVacant(views: Views, session: string)
    requires IsVacant(views, session)
    ensures HistoryOf(views, OwnerScope(session)) == []
  {
    hide HistoryOf;
  }

  /** Some guest of this session holds turns. */
  ghost predicate GuestHoldsTurns(views: Views, session: string) {
    exists scope: Scope :: scope.guest && InActorSession(scope, LOCAL_OWNER, session) && HistoryOf(views, scope) != []
  }

  /** Rows of the ledger come into a guest's hands exactly when a guest is at the microphone and there are any. */
  lemma {:induction false} GuestHoldsRowsExactlyWhen(
    lex: Lexicon, rules: Rules, views: Views, session: string, localGuest: Option<string>, rows: seq<Turn>)
    requires Tidy(lex, rules) && IsTranscript(rules, rows) && IsVacant(views, session)
    ensures GuestHoldsTurns(Bound(lex, views, session, localGuest, rows), session)
            <==> localGuest.Some? && rows != []
  {
    hide Tidy, IsTranscript, AllSpeak, Spoken, Step, HistoryOf, LocalScope;
    BoundHistories(lex, rules, views, session, localGuest, rows);
    SpokenLength(lex, LocalScope(session, localGuest), Hydrate(Loaded(rows)));
    var after := Bound(lex, views, session, localGuest, rows);
    var scope := LocalScope(session, localGuest);
    if localGuest.Some? && rows != [] {
      assert scope.guest && HistoryOf(after, scope) != [];
    }
    if GuestHoldsTurns(after, session) {
      var other: Scope :| other.guest && InActorSession(other, LOCAL_OWNER, session) && HistoryOf(after, other) != [];
      assert other == scope;
    }
  }

  /** How a packet is put together: what compose returned, and what the ledger search put before it. */
  datatype Parts = Parts(
    base: Packet, relevant: seq<Scored<Turn>>, selected: seq<Turn>, best: seq<Scored<Turn>>, historical: seq<Message>)

  ghost predicate IsMerged(packet: Packet, parts: Parts) {
    && packet == parts.base.(messages := parts.historical + parts.base.messages)
    && Chars(parts.base.messages) <= MAX_MESSAGE_CHARS
    && IsBudgeted(parts.historical, Transcript(Items(parts.best)), MAX_MESSAGE_CHARS - Chars(parts.base.messages))
  }

  ghost predicate IsBase(lex: Lexicon, history: seq<Turn>, text: string, parts: Parts) {
    IsComposed(lex, history, text, parts.relevant, parts.selected, parts.base)
  }

  /** The rows put in front are what a search for this very text finds among the rows too old for the window. */
  ghost predicate IsSearch(lex: Lexicon, rules: Rules, rows: seq<Turn>, text: string, best: seq<Scored<Turn>>) {
    IsFound(lex, rules, text, SearchedRows(rows), HISTORICAL_LIMIT, best)
  }

  lemma {:induction false} CharsOfConcat(a: seq<Message>, b: seq<Message>)
    ensures Chars(a + b) == Chars(a) + Chars(b)
  {
    if b == [] {
      assert a + b == a;
    } else {
      assert (a + b)[..|a + b| - 1] == a + b[..|b| - 1];
      CharsOfConcat(a, b[..|b| - 1]);
    }
  }

  lemma BudgetedFits(messages: seq<Message>, all: seq<Message>, budget: nat)
    requires IsBudgeted(messages, all, budget)
    ensures Chars(messages) <= budget
  {
  }

  /** Search results and composed messages together stay within the one budget. */
  lemma MergedFits(packet: Packet, parts: Parts)
    requires IsMerged(packet, parts)
    ensures Chars(packet.messages) <= MAX_MESSAGE_CHARS
  {
    hide IsBudgeted;
    BudgetedFits(parts.historical, Transcript(Items(parts.best)), MAX_MESSAGE_CHARS - Chars(parts.base.messages));
    CharsOfConcat(parts.historical, parts.base.messages);
  }

  lemma {:induction false} TranscriptIsPresentable(lex: Lexicon, turns: seq<Turn>)
    requires forall turn | turn in turns ::
               Presentable(lex.isSpace, turn.user) && Presentable(lex.isSpace, turn.assistant)
    ensures AllPresentable(lex, Transcript(turns))
  {
    hide Presentable;
    if turns != [] {
      TranscriptIsPresentable(lex, turns[..|turns| - 1]);
      assert turns[|turns| - 1] in turns;
    }
  }

  lemma BudgetedIsPresentable(lex: Lexicon, messages: seq<Message>, all: seq<Message>, budget: nat)
    requires AllPresentable(lex, all) && IsBudgeted(messages, all, budget)
    ensures AllPresentable(lex, messages)
  {
    hide Presentable;
    if messages != all && messages != [] {
      var n := |messages| - 1;
      assert all[n] in all;
      PrefixIsPresentable(lex.isSpace, all[n].content, messages[n].content);
      forall m | m in messages ensures m.content != "" && Presentable(lex.isSpace, m.content) {
        if m in messages[..n] {
          assert m in all[..n];
        } else {
          assert m == messages[n];
        }
      }
    }
  }

  lemma FoundArePresentable(
    lex: Lexicon, rules: Rules, rows: seq<Turn>, text: string, best: seq<Scored<Turn>>, turn: Turn)
    requires Tidy(lex, rules) && IsTranscript(rules, rows)
    requires IsSearch(lex, rules, rows, text, best) && turn in Items(best)
    ensures Presentable(lex.isSpace, turn.user) && Presentable(lex.isSpace, turn.assistant)
  {
    hide Presentable, TurnText;
    var k :| 0 <= k < |best| && best[k].item == turn;
    assert best[k] in best;
    assert turn in SearchedRows(rows);
    var i :| 0 <= i < |SearchedRows(rows)| && SearchedRows(rows)[i] == turn;
    assert rows[i] == turn;
  }

  /**
   A packet with search results in front reaches the provider whole, up to trailing whitespace, exactly
   when it has at most 24 messages and none of them is longer than 8,000 characters.
   */
  lemma {:induction false} MergedReachesProvider(
    lex: Lexicon, rules: Rules, rows: seq<Turn>, history: seq<Turn>, text: string, packet: Packet, parts: Parts)
    requires Tidy(lex, rules) && IsTranscript(rules, rows) && IsHistory(lex, history)
    requires IsMerged(packet, parts) && IsBase(lex, history, text, parts)
    requires IsSearch(lex, rules, rows, text, parts.best)
    ensures Validated(lex, Proper(packet.messages)) == RightStripped(lex, packet.messages) <==>
            && |packet.messages| <= MAX_MESSAGES
            && forall m | m in packet.messages :: |StripRight(lex.isSpace, m.content)| <= MAX_TURN_TEXT
  {
    hide IsBudgeted, IsBase, IsSearch, IsHistory, IsTranscript, Tidy, Validated, RightStripped, StripRight;
    hide Presentable, Items, Chars, Transcript, Proper;
    MergedFits(packet, parts);
    HistoricalIsPresentable(lex, rules, rows, text, packet, parts);
    BaseIsPresentable(lex, history, text, parts);
    ReachesProviderExactlyWhen(lex, packet.messages);
  }

  lemma HistoricalIsPresentable(
    lex: Lexicon, rules: Rules, rows: seq<Turn>, text: string, packet: Packet, parts: Parts)
    requires Tidy(lex, rules) && IsTranscript(rules, rows) && IsMerged(packet, parts)
    requires IsSearch(lex, rules, rows, text, parts.best)
    ensures AllPresentable(lex, parts.historical)
  {
    hide IsBudgeted, IsSearch, IsTranscript, Tidy, Presentable, Items, Chars, Transcript, AllPresentable;
    forall turn | turn in Items(parts.best)
      ensures Presentable(lex.isSpace, turn.user) && Presentable(lex.isSpace, turn.assistant)
    {
      FoundArePresentable(lex, rules, rows, text, parts.best, turn);
    }
    TranscriptIsPresentable(lex, Items(parts.best));
    BudgetedIsPresentable(
      lex, parts.historical, Transcript(Items(parts.best)), MAX_MESSAGE_CHARS - Chars(parts.base.messages));
  }

  lemma BaseIsPresentable(lex: Lexicon, history: seq<Turn>, text: string, parts: Parts)
    requires IsHistory(lex, history) && IsBase(lex, history, text, parts)
    ensures AllPresentable(lex, parts.base.messages)
  {
    if history != [] {
      forall turn | turn in parts.selected ensures IsText(lex, turn.user) && IsText(lex, turn.assistant) {
        SelectedTurnsAreTexts(lex, lex.tokens(text), history, parts.relevant, parts.selected, turn);
      }
      hide IsSelection, IsPacketDigest, IsHistory;
      TranscriptIsPresentable(lex, parts.selected);
      BudgetedIsPresentable(lex, parts.base.messages, Transcript(parts.selected), MAX_MESSAGE_CHARS);
    }
  }

  /** A session the local owner can be bound to. */
  predicate IsBindable(ledger: ConversationSessionStore, session: string)
    reads ledger
  {
    && ledger.rules.validSession(session) && ledger.rules.validOwner(LOCAL_OWNER)
    && ledger.Owns(LOCAL_OWNER, session) && !ledger.sessions[session].archived
  }

  class Memory {
    const engine: ConversationContextEngine
    var store: ConversationSessionStore?
    var sessionId: string

    ghost predicate Valid()
      reads this, engine, engine.sessions.Values, store
    {
      && engine.Valid()
      && (store != null ==> store.Valid() && store.lex == engine.lex && Tidy(engine.lex, store.rules))
    }

    /** The owner's stream and the bound session's rows are in step. */
    ghost predicate Linked()
      requires Valid()
      reads this, engine, engine.sessions.Values, store
    {
      && store != null && sessionId in store.turns
      && InStep(engine.lex, store.rules, store.turns[sessionId], HistoryOf(engine.Views(), OwnerScope(sessionId)))
    }

    constructor (engine: ConversationContextEngine)
      requires engine.Valid()
      ensures Valid() && this.engine == engine && store == null && sessionId == LOCAL_SESSION
    {
      this.engine := engine;
      store, sessionId := null, LOCAL_SESSION;
    }

    /**
     Binds a session: the scopes of the session bound before are cleared, and the newest rows of the ledger
     are restored into the stream of the local owner's context, which is a guest's while a guest is at the
     microphone. When the rows cannot be loaded the session stays bound with nothing restored.
     */
    method Configure(ledger: ConversationSessionStore, session: string, localGuest: Option<string>, loads: bool)
      returns (r: Result<nat>)
      requires Valid() && ledger.Valid() && ledger.lex == engine.lex && Tidy(engine.lex, ledger.rules)
      modifies this, engine, engine.sessions.Values
      ensures Valid() && fresh(engine.sessions.Values - old(engine.sessions.Values))
      ensures r.Ok? <==> IsBindable(ledger, session) && loads
      ensures if IsBindable(ledger, session) then store == ledger && sessionId == session
              else store == old(store) && sessionId == old(sessionId) && engine.Views() == old(engine.Views())
      ensures IsBindable(ledger, session) ==>
                var cleared := Step(engine.lex, old(engine.Views()), ClearActorSessionOp(LOCAL_OWNER, old(sessionId)));
                engine.Views() ==
                  if loads then Bound(engine.lex, cleared, session, localGuest, ledger.turns[session]) else cleared
      ensures r.Ok? ==> r.value == |Loaded(ledger.turns[session])|
      ensures r.Ok? && localGuest.None? ==> Linked()
      // With a guest at the microphone the stores part, and the guest holds the rows, unless there are none.
      ensures r.Ok? && IsVacant(
                Step(engine.lex, old(engine.Views()), ClearActorSessionOp(LOCAL_OWNER, old(sessionId))), session) ==>
                && (Linked() <==> localGuest.None? || ledger.turns[session] == [])
                && (GuestHoldsTurns(engine.Views(), session) <==> localGuest.Some? && ledger.turns[session] != [])
      ensures old(sessionId) == session ==>
                IsVacant(Step(engine.lex, old(engine.Views()), ClearActorSessionOp(LOCAL_OWNER, session)), session)
    {
      hide InStep, Represents, Tidy, Spoken, AllSpeak, Step, IsTranscript, SessionState.Valid, SessionState.Kept;
      hide IsVacant, GuestHoldsTurns;
      hide ConversationContextEngine.Views, ConversationContextEngine.Valid, Bound;
      ClearedIsVacant(engine.lex, engine.Views(), sessionId);
      if !ledger.rules.validSession(session) || !ledger.rules.validOwner(LOCAL_OWNER) {
        return Error(InvalidIdentifier);
      }
      if !ledger.Owns(LOCAL_OWNER, session) || ledger.sessions[session].archived {
        return Error(NotFound);
      }
      engine.ClearActorSession(LOCAL_OWNER, sessionId);
      store, sessionId := ledger, session;
      if !loads {
        return Error(LoadFailed);
      }
      ghost var cleared := engine.Views();
      var restored := Rebuild(localGuest);
      if IsVacant(cleared, session) {
        OwnerIsVacant(cleared, session);
        GuestHoldsRowsExactlyWhen(
          engine.lex, store.rules, cleared, session, localGuest, store.turns[session]);
      }
      return Ok(restored);
    }

    /** Puts the newest rows of the bound session into the stream of the local owner's context. */
    method Rebuild(localGuest: Option<string>) returns (restored: nat)
      requires Valid() && store != null && IsBindable(store, sessionId)
      modifies engine, engine.sessions.Values
      ensures Valid() && fresh(engine.sessions.Values - old(engine.sessions.Values))
      ensures restored == |Loaded(store.turns[sessionId])|
      ensures engine.Views() == Bound(engine.lex, old(engine.Views()), sessionId, localGuest, store.turns[sessionId])
      ensures localGuest.None? ==> Linked()
      ensures HistoryOf(old(engine.Views()), OwnerScope(sessionId)) == [] ==>
                (Linked() <==> localGuest.None? || store.turns[sessionId] == [])
    {
      hide InStep, IsTranscript, TurnText, Represents, Tidy, Restored, Spoken, AllSpeak, Step, HistoryOf;
      hide SessionState.Valid, SessionState.Kept, ConversationContextEngine.Views;
      var turns := store.LoadTurns(LOCAL_OWNER, sessionId, MAX_RESTORE_TURNS);
      var pairs := Hydrate(turns.value);
      ghost var before, rows := engine.Views(), store.turns[sessionId];
      engine.RestorePairs(LocalScope(sessionId, localGuest), pairs);
      BoundHistories(engine.lex, store.rules, before, sessionId, localGuest, rows);
      if localGuest.None? {
        InStepAfterRestart(engine.lex, store.rules, rows, OwnerScope(sessionId));
      }
      if HistoryOf(before, OwnerScope(sessionId)) == [] {
        InStepAfterBinding(engine.lex, store.rules, before, sessionId, localGuest, rows);
      }
      return |pairs|;
    }

    /** The turn is the bound owner's own, and its ledger takes it. */
    predicate Persists(
      caller: Caller, localGuest: Option<string>, userText: string, response: string, source: string)
      requires store != null ==> store.turns.Keys == store.sessions.Keys
      reads this, store
    {
      && store != null && caller.kind.OwnerActor? && sessionId != LOCAL_SESSION
      && ConversationScope(caller, localGuest) == OwnerScope(sessionId)
      && store.Accepts(LOCAL_OWNER, sessionId, userText, response, source)
    }

    /** Appends the turn exactly when it is the bound owner's own and the ledger takes it. */
    method PersistTurn(caller: Caller, localGuest: Option<string>, userText: string, response: string, source: string)
      returns (persisted: bool)
      requires Valid()
      modifies store
      ensures Valid()
      ensures persisted <==> old(Persists(caller, localGuest, userText, response, source))
      ensures persisted ==> HasOneMore(old(store.turns), userText, response)
      ensures store != null ==> forall session :: IsBindable(store, session) <==> old(IsBindable(store, session))
      ensures !persisted && store != null ==> store.turns == old(store.turns) && store.sessions == old(store.sessions)
    {
      hide IsTranscript, Clean, Tidy, ConversationContextEngine.Valid, ConversationSessionStore.NamesSession;
      var scope := ConversationScope(caller, localGuest);
      persisted := false;
      if store != null && caller.kind.OwnerActor? && !scope.guest && caller.actorId == LOCAL_OWNER
         && caller.sessionId == sessionId && sessionId != LOCAL_SESSION {
        var appended := store.AppendTurn(LOCAL_OWNER, sessionId, userText, response, source);
        persisted := appended.Ok?;
      }
    }

    /** The bound session has one more row, which holds these texts; no other session has changed. */
    ghost predicate HasOneMore(before: map<string, seq<Turn>>, userText: string, response: string)
      reads this, store
    {
      && store != null && sessionId in before && sessionId in store.turns
      && var rows := before[sessionId];
         && |store.turns[sessionId]| == |rows| + 1
         && store.turns == before[sessionId := rows + [store.turns[sessionId][|rows|]]]
         && store.turns[sessionId][|rows|].sequence == |rows| + 1
         && StoresTurn(store.rules, store.turns[sessionId][|rows|], userText, response)
    }

    /** Records a finished turn in its stream, and appends it to the ledger exactly when it is the bound owner's. */
    method ProcessTurn(caller: Caller, localGuest: Option<string>, userText: string, response: string, source: string)
      returns (persisted: bool)
      requires Valid()
      modifies engine, engine.sessions.Values, store
      ensures Valid() && fresh(engine.sessions.Values - old(engine.sessions.Values))
      ensures engine.Views() ==
              Step(engine.lex, old(engine.Views()), RecordOp(ConversationScope(caller, localGuest), userText, response))
      ensures persisted <==> old(Persists(caller, localGuest, userText, response, source))
      ensures persisted ==> HasOneMore(old(store.turns), userText, response)
      ensures persisted && old(Linked()) ==> Linked()
      ensures ConversationScope(caller, localGuest) != OwnerScope(sessionId) && old(Linked()) ==> Linked()
      ensures store != null ==> forall session :: IsBindable(store, session) <==> old(IsBindable(store, session))
      ensures !persisted && store != null ==> store.turns == old(store.turns) && store.sessions == old(store.sessions)
    {
      hide InStep, TurnText, Represents, Tidy, Recorded, Clean, SessionState.Valid, SessionState.Kept;
      hide ConversationSessionStore.Accepts, ConversationContextEngine.Views, ConversationSessionStore.Valid;
      hide IsBindable;
      ghost var before := engine.Views();
      engine.RecordTurn(ConversationScope(caller, localGuest), userText, response);
      persisted := PersistTurn(caller, localGuest, userText, response, source);
      if ConversationScope(caller, localGuest) != OwnerScope(sessionId) {
        RecordedElsewhere(
          engine.lex, before, ConversationScope(caller, localGuest), userText, response, OwnerScope(sessionId));
      }
      if persisted && old(Linked()) {
        ghost var rows := old(store.turns[sessionId]);
        LinkedAfterTurn(before, rows, store.turns[sessionId][|rows|], userText, response);
      }
    }

    lemma LinkedAfterTurn(before: Views, rows: seq<Turn>, row: Turn, userText: string, response: string)
      requires Valid() && store != null
      requires InStep(engine.lex, store.rules, rows, HistoryOf(before, OwnerScope(sessionId)))
      requires Clean(store.rules, userText, MAX_TURN_CODEPOINTS) == Ok(row.user)
      requires Clean(store.rules, response, MAX_TURN_CODEPOINTS) == Ok(row.assistant)
      requires row.sequence == |rows| + 1
      ensures InStep(engine.lex, store.rules, rows + [row],
                     HistoryOf(Recorded(engine.lex, before, OwnerScope(sessionId), userText, response),
                               OwnerScope(sessionId)))
    {
      hide InStep, TurnText, Tidy, Clean, Represents, Bounded, SessionState.Valid, SessionState.Kept;
      InStepAfterTurn(engine.lex, store.rules, rows, HistoryOf(before, OwnerScope(sessionId)), row,
                      OwnerScope(sessionId), userText, response);
    }

    /** The rows a search of the bound session may look at. */
    ghost function BoundRows(): seq<Turn>
      requires store != null && store.Valid()
      reads this, store
    {
      if store.rules.validOwner(LOCAL_OWNER) && store.rules.validSession(sessionId)
        && store.Owns(LOCAL_OWNER, sessionId)
      then store.turns[sessionId] else []
    }

    /** Puts what the ledger search finds, as far as it fits, in front of a composed packet. */
    method Merge(base: Packet, ghost composed: Parts, userInput: string) returns (packet: Packet, ghost parts: Parts)
      requires Valid() && store != null && Chars(base.messages) <= MAX_MESSAGE_CHARS
      requires composed == Parts(base, composed.relevant, composed.selected, [], [])
      requires IsBase(engine.lex, HistoryOf(engine.Views(), OwnerScope(sessionId)), userInput, composed)
      ensures IsMerged(packet, parts) && Chars(packet.messages) <= MAX_MESSAGE_CHARS
      ensures IsBase(engine.lex, HistoryOf(engine.Views(), OwnerScope(sessionId)), userInput, parts)
      ensures IsSearch(engine.lex, store.rules, BoundRows(), userInput, parts.best)
      ensures BoundRows() != [] && Linked() ==>
                NoTurnTwice(BoundRows(), HistoryOf(engine.Views(), OwnerScope(sessionId)), parts)
    {
      hide Represents, IsComposed, HistoryOf, IsBudgeted, InStep, Transcript, IsSearch, NoTurnTwice, Matches, IsBest;
      hide Tidy;
      hide SessionState.Valid, SessionState.Kept, IsTranscript, Clean, ConversationContextEngine.Views, IsFound;
      ghost var best;
      var older;
      older, best := store.SearchRelevantTurns(LOCAL_OWNER, sessionId, userInput, HISTORICAL_LIMIT, MAX_RESTORE_TURNS);
      SearchIsOfOldRows(userInput, older, best);
      packet, parts := base, composed.(best := best);
      if older.Ok? && older.value != [] {
        var historical := FillBudget(older.value, MAX_MESSAGE_CHARS - Chars(packet.messages));
        parts := parts.(historical := historical);
        packet := packet.(messages := historical + packet.messages);
      } else {
        NothingFound(packet, parts);
      }
      MergedFits(packet, parts);
      if BoundRows() != [] && Linked() {
        MergedTurnsAreDistinct(engine.lex, store.rules, BoundRows(),
                               HistoryOf(engine.Views(), OwnerScope(sessionId)), userInput, parts);
      }
    }

    /** The bound owner asked, so the ledger is searched too. */
    predicate SearchesLedger(caller: Caller, localGuest: Option<string>, profileSummary: bool)
      reads this
    {
      && !profileSummary && store != null && sessionId != LOCAL_SESSION
      && ConversationScope(caller, localGuest) == OwnerScope(sessionId)
    }

    /** The provider packet: composed context, preceded by ledger rows too old for the window. */
    method ConversationPacket(
      caller: Option<Caller>, localGuest: Option<string>, userInput: string, casual: bool, profileSummary: bool)
      returns (packet: Packet, ghost parts: Parts)
      requires Valid()
      ensures casual || caller.None? ==> packet == Packet([], "", 0)
      ensures !casual && caller.Some? ==>
                && IsMerged(packet, parts)
                && IsBase(engine.lex, HistoryOf(engine.Views(), ConversationScope(caller.value, localGuest)),
                          userInput, parts)
                && if SearchesLedger(caller.value, localGuest, profileSummary)
                   then IsSearch(engine.lex, store.rules, BoundRows(), userInput, parts.best)
                   else parts.best == []
      ensures Chars(packet.messages) <= MAX_MESSAGE_CHARS
      ensures !casual && caller.Some? && SearchesLedger(caller.value, localGuest, profileSummary)
              && BoundRows() != [] && Linked() ==>
                NoTurnTwice(BoundRows(), HistoryOf(engine.Views(), OwnerScope(sessionId)), parts)
    {
      hide Represents, IsComposed, HistoryOf, IsMerged, IsBudgeted, InStep, Transcript, IsSearch, NoTurnTwice, Tidy;
      hide SessionState.Valid, SessionState.Kept, ConversationContextEngine.Views, ConversationSessionStore.Valid;
      packet := Packet([], "", 0);
      parts := Parts(packet, [], [], [], []);
      if casual || caller.None? {
        return;
      }
      var scope := ConversationScope(caller.value, localGuest);
      ghost var relevant, selected;
      packet, relevant, selected := Compose(engine, scope, userInput);
      parts := Parts(packet, relevant, selected, [], []);
      BaseFits(engine.lex, HistoryOf(engine.Views(), scope), userInput, parts);
      NothingFound(packet, parts);
      if profileSummary || store == null || scope.guest || scope.actorId != LOCAL_OWNER
         || scope.sessionId != sessionId || sessionId == LOCAL_SESSION {
        return;
      }
      assert scope == OwnerScope(sessionId);
      packet, parts := Merge(packet, parts, userInput);
    }

    lemma SearchIsOfOldRows(query: string, older: Result<seq<Turn>>, best: seq<Scored<Turn>>)
      requires store != null && store.Valid() && store.lex == engine.lex
      requires older.Ok? <==>
                 && store.rules.validOwner(LOCAL_OWNER) && store.rules.validSession(sessionId)
                 && Clean(store.rules, query, MAX_TURN_CODEPOINTS).Ok?
      requires older.Ok? ==>
                 && IsFound(store.lex, store.rules, query,
                            store.Searchable(LOCAL_OWNER, sessionId, MAX_RESTORE_TURNS), HISTORICAL_LIMIT, best)
                 && older.value == Items(best)
      requires older.Error? ==> best == []
      ensures IsSearch(engine.lex, store.rules, BoundRows(), query, best)
    {
      hide IsTranscript, Clean;
      if older.Ok? {
        assert store.Searchable(LOCAL_OWNER, sessionId, MAX_RESTORE_TURNS) == SearchedRows(BoundRows());
      } else if Clean(store.rules, query, MAX_TURN_CODEPOINTS).Ok? {
        assert BoundRows() == [] && SearchedRows(BoundRows()) == [];
      }
    }
  }

  lemma ClearedIsVacant(lex: Lexicon, views: Views, session: string)
    ensures IsVacant(Step(lex, views, ClearActorSessionOp(LOCAL_OWNER, session)), session)
    ensures HistoryOf(Step(lex, views, ClearActorSessionOp(LOCAL_OWNER, session)), OwnerScope(session)) == []
  {
  }

  /** The row holds both texts as the scrubber leaves them. */
  ghost predicate StoresTurn(rules: Rules, row: Turn, userText: string, response: string) {
    && Clean(rules, userText, MAX_TURN_CODEPOINTS) == Ok(row.user)
    && Clean(rules, response, MAX_TURN_CODEPOINTS) == Ok(row.assistant)
  }

  /** Items of the search come from rows before those of the selected turns; neither repeats a turn. */
  ghost predicate NoTurnTwice(rows: seq<Turn>, history: seq<Turn>, parts: Parts) {
    && Increasing(Items(parts.best)) && Increasing(parts.selected)
    && forall found, turn | found in Items(parts.best) && turn in parts.selected ::
         found.sequence < RowOf(rows, history, turn)
  }

  lemma NothingFound(packet: Packet, parts: Parts)
    requires parts.base == packet && parts.best == [] && parts.historical == []
    requires Chars(packet.messages) <= MAX_MESSAGE_CHARS
    ensures IsMerged(packet, parts)
  {
    assert Items([]) == [] && [] + packet.messages == packet.messages;
  }

  lemma BaseFits(lex: Lexicon, history: seq<Turn>, text: string, parts: Parts)
    requires IsBase(lex, history, text, parts)
    ensures Chars(parts.base.messages) <= MAX_MESSAGE_CHARS
  {
    hide IsSelection, IsBudgeted, IsPacketDigest, Transcript;
    if history != [] {
      BudgetedFits(parts.base.messages, Transcript(parts.selected), MAX_MESSAGE_CHARS);
    }
  }

  lemma MergedTurnsAreDistinct(
    lex: Lexicon, rules: Rules, rows: seq<Turn>, history: seq<Turn>, text: string, parts: Parts)
    requires InStep(lex, rules, rows, history) && IsSearch(lex, rules, rows, text, parts.best)
    requires IsBase(lex, history, text, parts)
    ensures NoTurnTwice(rows, history, parts)
  {
    hide IsHistory, RecallsAll, IsTranscript, IsBudgeted, IsPacketDigest, IsSelection, Matches, IsBest;
    var query := QueryTokens(lex, rules, text);
    if query == {} {
      NothingIsSelectedTwice(lex, rows, history, text, parts);
    } else if history == [] {
      SearchedInOrder(lex, query, rows, parts.best, rules);
    } else {
      FoundAndSelectedAreDistinct(lex, rules, rows, history, lex.tokens(text), parts.relevant, parts.selected,
                                  query, parts.best, HISTORICAL_LIMIT);
    }
  }

  lemma NothingIsSelectedTwice(lex: Lexicon, rows: seq<Turn>, history: seq<Turn>, text: string, parts: Parts)
    requires parts.best == [] && IsBase(lex, history, text, parts)
    ensures NoTurnTwice(rows, history, parts)
  {
    hide IsBudgeted, IsPacketDigest, IsBest, Matches;
  }

  lemma SearchedInOrder(lex: Lexicon, query: set<string>, rows: seq<Turn>, best: seq<Scored<Turn>>, rules: Rules)
    requires IsBest(best, Matches(lex, query, SearchedRows(rows)), HISTORICAL_LIMIT) && InOrder(best)
    ensures Increasing(Items(best))
  {
    forall x | x in best ensures x.sequence == x.item.sequence {
      assert x in Matches(lex, query, SearchedRows(rows));
    }
    assert forall i | 0 <= i < |best| :: best[i] in best;
  }
}
