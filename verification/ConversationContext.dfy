/**
 The bounded in-memory context of a conversation: an exact window, an archive of cut turns and a
 digest of everything evicted, all kept incrementally, one state per scope.

 Each state carries its whole history as a ghost, and its invariant says what the bounded fields
 must be for that history.
 */
module ConversationContext {
  import opened Text
  import opened Digest
  import opened ToolSlots

  const MAX_TURN_TEXT := 8_000
  const MAX_SESSION_PAIRS := 256
  const MAX_ARCHIVE_PAIRS := 512
  const MAX_ARCHIVE_TEXT := 1_000
  const MAX_DIGEST_CHARS := 12_000
  const MAX_DIGEST_LINE := 360
  const MAX_TOOL_KIND := 48
  const MAX_SOURCE := 32

  datatype Scope = Scope(actorId: string, sessionId: string, source: string, speaker: string, guest: bool)

  datatype Turn = Turn(sequence: nat, user: string, assistant: string, source: string)

  datatype ToolFrame = ToolFrame(kind: string, sequence: nat, slots: seq<(string, string)>)

  datatype Pair = Pair(user: string, assistant: string) | Malformed

  // ---------- What a history determines ----------

  function CompactTurn(lex: Lexicon, turn: Turn): string {
    Take("#" + Decimal(turn.sequence) + " U: " + lex.compact(turn.user) + " | A: " + lex.compact(turn.assistant),
         MAX_DIGEST_LINE)
  }

  function Cut(turn: Turn): Turn {
    turn.(user := Take(turn.user, MAX_ARCHIVE_TEXT), assistant := Take(turn.assistant, MAX_ARCHIVE_TEXT))
  }

  /** A line says which turn it was, and then what the user said and what was answered, cut at 360 characters. */
  lemma CompactTurnTells(lex: Lexicon, turn: Turn)
    ensures var line, number := CompactTurn(lex, turn), Decimal(turn.sequence);
      var user, assistant := lex.compact(turn.user), lex.compact(turn.assistant);
      && line != "" && line[0] == '#' && |line| <= 360
      && line <= "#" + number + " U: " + user + " | A: " + assistant
      && (|line| < 360 ==> |line| == |number| + |user| + |assistant| + 11)
  {
    hide Decimal;
  }

  /** Cutting keeps the first thousand characters of either side, and all else. */
  lemma CutKeeps(turn: Turn)
    ensures var cut := Cut(turn);
      && cut.sequence == turn.sequence && cut.source == turn.source
      && cut.user <= turn.user && |cut.user| == (if |turn.user| < 1_000 then |turn.user| else 1_000)
      && cut.assistant <= turn.assistant
      && |cut.assistant| == if |turn.assistant| < 1_000 then |turn.assistant| else 1_000
  {
  }

  ghost function CutAll(turns: seq<Turn>): (r: seq<Turn>)
    ensures |r| == |turns|
  {
    seq(|turns|, i requires 0 <= i < |turns| => Cut(turns[i]))
  }

  function Lines(lex: Lexicon, turns: seq<Turn>): (r: seq<string>)
    ensures |r| == |turns|
  {
    seq(|turns|, i requires 0 <= i < |turns| => CompactTurn(lex, turns[i]))
  }

  /** The turns that have left the exact window. */
  ghost function Evicted(history: seq<Turn>): seq<Turn> {
    if |history| <= MAX_SESSION_PAIRS then [] else history[..|history| - MAX_SESSION_PAIRS]
  }

  ghost predicate IsText(lex: Lexicon, s: string) {
    |s| <= MAX_TURN_TEXT && Presentable(lex.isSpace, s)
  }

  /** Turns are numbered from one, bounded, and never empty on both sides. */
  ghost predicate IsHistory(lex: Lexicon, history: seq<Turn>) {
    forall i | 0 <= i < |history| ::
      && history[i].sequence == i + 1
      && IsText(lex, history[i].user) && IsText(lex, history[i].assistant)
      && (history[i].user != "" || history[i].assistant != "")
  }

  datatype Fields = Fields(
    turns: seq<Turn>, archive: seq<Turn>, digestLines: seq<string>, digestChars: int, nextSequence: nat)

  /** The bounded fields as the history determines them. */
  ghost predicate Represents(lex: Lexicon, fields: Fields, history: seq<Turn>) {
    && IsHistory(lex, history)
    && fields.turns == LastN(history, MAX_SESSION_PAIRS)
    && fields.archive == LastN(CutAll(Evicted(history)), MAX_ARCHIVE_PAIRS)
    && IsLongestSuffix(fields.digestLines, Lines(lex, Evicted(history)), MAX_DIGEST_CHARS)
    && fields.digestChars == Total(fields.digestLines)
    && (Evicted(history) != [] ==> fields.digestLines != [])
    && fields.nextSequence == |history| + 1
  }

  /** A history leaves no freedom: not in the window, nor in the archive, nor in the digest. */
  lemma {:induction false} FieldsAreDetermined(lex: Lexicon, a: Fields, b: Fields, history: seq<Turn>)
    requires Represents(lex, a, history) && Represents(lex, b, history)
    ensures a == b
  {
    LongestSuffixIsUnique(a.digestLines, b.digestLines, Lines(lex, Evicted(history)), MAX_DIGEST_CHARS);
  }

  function Push<T>(window: seq<T>, x: T, maxlen: nat): seq<T> {
    LastN(window + [x], maxlen)
  }

  lemma PushOnWindow<T>(all: seq<T>, x: T, maxlen: nat)
    ensures Push(LastN(all, maxlen), x, maxlen) == LastN(all + [x], maxlen)
  {
  }

  lemma EvictedAfterRecord(lex: Lexicon, history: seq<Turn>, turn: Turn)
    ensures |history| < MAX_SESSION_PAIRS ==> Evicted(history + [turn]) == Evicted(history) == []
    ensures |history| >= MAX_SESSION_PAIRS ==>
              var out := LastN(history, MAX_SESSION_PAIRS)[0];
              && Evicted(history + [turn]) == Evicted(history) + [out]
              && CutAll(Evicted(history + [turn])) == CutAll(Evicted(history)) + [Cut(out)]
              && Lines(lex, Evicted(history + [turn])) == Lines(lex, Evicted(history)) + [CompactTurn(lex, out)]
  {
    if |history| >= MAX_SESSION_PAIRS {
      var out := LastN(history, MAX_SESSION_PAIRS)[0];
      assert Evicted(history + [turn]) == Evicted(history) + [out];
    }
  }

  ghost predicate Recordable(lex: Lexicon, user: string, assistant: string) {
    IsText(lex, user) && IsText(lex, assistant) && (user != "" || assistant != "")
  }

  lemma HistoryAfterRecord(lex: Lexicon, history: seq<Turn>, turn: Turn)
    requires IsHistory(lex, history) && turn.sequence == |history| + 1
    requires Recordable(lex, turn.user, turn.assistant)
    ensures IsHistory(lex, history + [turn])
  {
  }

  /** Recording while the window still has room. */
  lemma RecordWithRoom(lex: Lexicon, f: Fields, history: seq<Turn>, turn: Turn)
    requires Represents(lex, f, history) && |f.turns| < MAX_SESSION_PAIRS
    requires turn.sequence == f.nextSequence && Recordable(lex, turn.user, turn.assistant)
    ensures Represents(lex, f.(turns := Push(f.turns, turn, MAX_SESSION_PAIRS), nextSequence := f.nextSequence + 1),
                       history + [turn])
  {
    HistoryAfterRecord(lex, history, turn);
    EvictedAfterRecord(lex, history, turn);
    PushOnWindow(history, turn, MAX_SESSION_PAIRS);
  }

  /** Recording into a full window, once the digest has taken in the line of the turn that leaves. */
  lemma RecordWithEviction(lex: Lexicon, f: Fields, history: seq<Turn>, turn: Turn, digest: seq<string>)
    requires Represents(lex, f, history) && |f.turns| == MAX_SESSION_PAIRS
    requires turn.sequence == f.nextSequence && Recordable(lex, turn.user, turn.assistant)
    requires digest != [] && IsLongestSuffix(
               digest, Lines(lex, Evicted(history)) + [CompactTurn(lex, f.turns[0])], MAX_DIGEST_CHARS)
    ensures Represents(
              lex, Fields(Push(f.turns, turn, MAX_SESSION_PAIRS), Push(f.archive, Cut(f.turns[0]), MAX_ARCHIVE_PAIRS),
                          digest, Total(digest), f.nextSequence + 1),
              history + [turn])
  {
    HistoryAfterRecord(lex, history, turn);
    EvictedAfterRecord(lex, history, turn);
    PushOnWindow(history, turn, MAX_SESSION_PAIRS);
    PushOnWindow(CutAll(Evicted(history)), Cut(f.turns[0]), MAX_ARCHIVE_PAIRS);
  }

  // ---------- One scope ----------

  class SessionState {
    var turns: seq<Turn>
    var archive: seq<Turn>
    var digestLines: seq<string>
    var digestChars: int
    var nextSequence: nat
    var tools: map<string, ToolFrame>
    ghost var history: seq<Turn>

    ghost function Kept(): Fields
      reads this
    {
      Fields(turns, archive, digestLines, digestChars, nextSequence)
    }

    ghost predicate Valid(lex: Lexicon)
      reads this
    {
      Represents(lex, Kept(), history)
    }

    constructor ()
      ensures forall lex: Lexicon :: Valid(lex)
      ensures history == [] && tools == map[]
    {
      turns, archive, digestLines, digestChars, nextSequence, tools := [], [], [], 0, 1, map[];
      history := [];
    }

    /** Appends one line and trims from the front until the budget holds; never trims everything. */
    method AppendDigest(lex: Lexicon, turn: Turn, ghost all: seq<string>)
      requires IsLongestSuffix(digestLines, all, MAX_DIGEST_CHARS) && digestChars == Total(digestLines)
      modifies this`digestLines, this`digestChars
      ensures IsLongestSuffix(digestLines, all + [CompactTurn(lex, turn)], MAX_DIGEST_CHARS)
      ensures digestChars == Total(digestLines) && digestLines != []
    {
      var line := CompactTurn(lex, turn);
      ghost var longer := all + [line];
      forall n: nat | |digestLines| + 1 < n <= |longer| ensures Total(Suffix(longer, n)) > MAX_DIGEST_CHARS {
        LongerSuffixesStayOver(digestLines, all, line, MAX_DIGEST_CHARS, n);
      }
      TotalOfConcat(digestLines, [line]);
      digestLines := digestLines + [line];
      digestChars := digestChars + |line| + 1;
      while digestLines != [] && digestChars > MAX_DIGEST_CHARS
        invariant 0 < |digestLines| <= |longer| && digestLines == Suffix(longer, |digestLines|)
        invariant digestChars == Total(digestLines)
        invariant forall n: nat | |digestLines| < n <= |longer| :: Total(Suffix(longer, n)) > MAX_DIGEST_CHARS
      {
        var removed := digestLines[0];
        assert |digestLines| == 1 ==> digestLines == [line];
        digestLines := digestLines[1..];
        digestChars := digestChars - (|removed| + 1);
      }
    }

    method NoteTool(lex: Lexicon, kind: string, slots: seq<(string, string)>)
      requires Valid(lex)
      modifies this`tools
      ensures Valid(lex)
      ensures tools == old(tools)[kind := ToolFrame(kind, |history|, slots)]
    {
      assert Kept().nextSequence == |history| + 1;
      hide Represents;
      tools := tools[kind := ToolFrame(kind, nextSequence - 1, slots)];
    }

    /** Moves the oldest exact turn out of the window, into the digest and the archive. */
    method Evict(lex: Lexicon)
      requires Valid(lex) && |turns| == MAX_SESSION_PAIRS
      modifies this`digestLines, this`digestChars, this`archive
      ensures digestLines != [] && digestChars == Total(digestLines)
      ensures IsLongestSuffix(
                digestLines, Lines(lex, Evicted(history)) + [CompactTurn(lex, turns[0])], MAX_DIGEST_CHARS)
      ensures archive == Push(old(archive), Cut(turns[0]), MAX_ARCHIVE_PAIRS)
    {
      hide IsLongestSuffix;
      var evicted := turns[0];
      AppendDigest(lex, evicted, Lines(lex, Evicted(history)));
      archive := Push(archive, Cut(evicted), MAX_ARCHIVE_PAIRS);
    }

    method Record(lex: Lexicon, user: string, assistant: string, source: string)
      requires Valid(lex)
      requires Recordable(lex, user, assistant)
      modifies this
      ensures Valid(lex)
      ensures history == old(history) + [Turn(|old(history)| + 1, user, assistant, source)]
      ensures tools == old(tools)
    {
      hide IsLongestSuffix, IsHistory, LastN, Push;
      ghost var before := Kept();
      var turn := Turn(nextSequence, user, assistant, source);
      ghost var longer := history + [turn];
      if |turns| == MAX_SESSION_PAIRS {
        Evict(lex);
        RecordWithEviction(lex, before, history, turn, digestLines);
      } else {
        RecordWithRoom(lex, before, history, turn);
      }
      turns := Push(turns, turn, MAX_SESSION_PAIRS);
      nextSequence := nextSequence + 1;
      assert Represents(lex, Kept(), longer);
      history := longer;
    }
  }

  // ---------- All scopes at once ----------

  /** What one scope amounts to: its whole history and its latest tool frames. */
  datatype View = View(history: seq<Turn>, tools: map<string, ToolFrame>)

  type Views = map<Scope, View>

  datatype Op =
    | RecordOp(scope: Scope, user: string, assistant: string)
    | NoteToolOp(scope: Scope, kind: string, slots: seq<(string, string)>)
    | RestoreOp(scope: Scope, pairs: seq<Pair>)
    | ClearOp(scope: Scope)
    | ClearActorSessionOp(actorId: string, sessionId: string)
    | ClearGuestsOp(actorId: string, sessionId: string)

  function TurnText(lex: Lexicon, s: string): string {
    Bounded(lex.isSpace, s, MAX_TURN_TEXT)
  }

  lemma TurnTextIsText(lex: Lexicon, s: string)
    ensures IsText(lex, TurnText(lex, s))
  {
    BoundedIsPresentable(lex.isSpace, s, MAX_TURN_TEXT);
  }

  ghost function HistoryOf(views: Views, scope: Scope): seq<Turn> {
    if scope in views then views[scope].history else []
  }

  ghost function ToolsOf(views: Views, scope: Scope): map<string, ToolFrame> {
    if scope in views then views[scope].tools else map[]
  }

  /** One more turn, unless both texts are blank. */
  ghost function Recorded(lex: Lexicon, views: Views, scope: Scope, user: string, assistant: string): Views {
    var u, a := TurnText(lex, user), TurnText(lex, assistant);
    if u == "" && a == "" then views
    else
      var history := HistoryOf(views, scope);
      views[scope := View(history + [Turn(|history| + 1, u, a, Bounded(lex.isSpace, scope.source, MAX_SOURCE))],
                          ToolsOf(views, scope))]
  }

  ghost function ToolNoted(
    lex: Lexicon, views: Views, scope: Scope, kind: string, slots: seq<(string, string)>): Views
  {
    var k := lex.fold(Bounded(lex.isSpace, kind, MAX_TOOL_KIND));
    if k == "" then views
    else
      var history := HistoryOf(views, scope);
      views[scope := View(history, ToolsOf(views, scope)[k := ToolFrame(k, |history|, KeptSlots(lex, slots))])]
  }

  ghost function RecordedPairs(lex: Lexicon, views: Views, scope: Scope, pairs: seq<Pair>): Views {
    if pairs == [] then views
    else
      var before := RecordedPairs(lex, views, scope, pairs[..|pairs| - 1]);
      match pairs[|pairs| - 1]
      case Pair(user, assistant) => Recorded(lex, before, scope, user, assistant)
      case Malformed => before
  }

  /** The newest pairs replace the scope; one malformed pair among them leaves it empty. */
  ghost function Restored(lex: Lexicon, views: Views, scope: Scope, pairs: seq<Pair>): Views {
    var newest := LastN(pairs, MAX_SESSION_PAIRS + MAX_ARCHIVE_PAIRS);
    if Malformed in newest then views - {scope}
    else RecordedPairs(lex, views - {scope}, scope, newest)
  }

  predicate InActorSession(scope: Scope, actorId: string, sessionId: string) {
    scope.actorId == actorId && scope.sessionId == sessionId
  }

  ghost function Step(lex: Lexicon, views: Views, op: Op): Views {
    match op
    case RecordOp(scope, user, assistant) => Recorded(lex, views, scope, user, assistant)
    case NoteToolOp(scope, kind, slots) => ToolNoted(lex, views, scope, kind, slots)
    case RestoreOp(scope, pairs) => Restored(lex, views, scope, pairs)
    case ClearOp(scope) => views - {scope}
    case ClearActorSessionOp(actorId, sessionId) =>
      map scope | scope in views && !InActorSession(scope, actorId, sessionId) :: views[scope]
    case ClearGuestsOp(actorId, sessionId) =>
      map scope | scope in views && !(InActorSession(scope, actorId, sessionId) && scope.guest) :: views[scope]
  }

  class ConversationContextEngine {
    const lex: Lexicon
    var sessions: map<Scope, SessionState>

    ghost predicate Valid()
      reads this, sessions.Values
    {
      && (forall scope | scope in sessions :: sessions[scope].Valid(lex))
      && (forall a, b | a in sessions && b in sessions && a != b :: sessions[a] != sessions[b])
    }

    ghost function Views(): Views
      reads this, sessions.Values
    {
      map scope | scope in sessions :: View(sessions[scope].history, sessions[scope].tools)
    }

    constructor (lex: Lexicon)
      ensures Valid() && Views() == map[] && this.lex == lex
    {
      this.lex := lex;
      sessions := map[];
    }

    /** The state of a scope, made on first use. */
    method State(scope: Scope) returns (state: SessionState)
      requires Valid()
      modifies this
      ensures Valid() && scope in sessions && sessions[scope] == state
      ensures sessions == old(sessions)[scope := state]
      ensures scope in old(sessions) ==> state == old(sessions)[scope]
      ensures scope !in old(sessions) ==> fresh(state) && state.history == [] && state.tools == map[]
    {
      hide Represents;
      if scope !in sessions {
        state := new SessionState();
        sessions := sessions[scope := state];
      } else {
        state := sessions[scope];
        assert sessions == sessions[scope := state];
      }
    }

    method RecordTurn(scope: Scope, userText: string, assistantText: string)
      requires Valid()
      modifies this, sessions.Values
      ensures Valid() && fresh(sessions.Values - old(sessions.Values))
      ensures Views() == Step(lex, old(Views()), RecordOp(scope, userText, assistantText))
    {
      hide Represents, Bounded, IsText, SessionState.Valid, SessionState.Kept;
      var user, assistant := TurnText(lex, userText), TurnText(lex, assistantText);
      if user == "" && assistant == "" {
        return;
      }
      TurnTextIsText(lex, userText);
      TurnTextIsText(lex, assistantText);
      RecordIn(scope, user, assistant);
    }

    /** Records bounded texts in the state of their scope. */
    method RecordIn(scope: Scope, user: string, assistant: string)
      requires Valid() && Recordable(lex, user, assistant)
      modifies this, sessions.Values
      ensures Valid() && fresh(sessions.Values - old(sessions.Values))
      ensures Views() == old(Views())[scope := View(
                HistoryOf(old(Views()), scope) + [Turn(
                  |HistoryOf(old(Views()), scope)| + 1, user, assistant,
                  Bounded(lex.isSpace, scope.source, MAX_SOURCE))],
                ToolsOf(old(Views()), scope))]
    {
      hide Represents, Bounded, Recordable, SessionState.Valid, SessionState.Kept;
      var state := State(scope);
      state.Record(lex, user, assistant, Bounded(lex.isSpace, scope.source, MAX_SOURCE));
    }

    method NoteTool(scope: Scope, kind: string, slots: seq<(string, string)>)
      requires Valid()
      modifies this, sessions.Values
      ensures Valid() && fresh(sessions.Values - old(sessions.Values))
      ensures Views() == Step(lex, old(Views()), NoteToolOp(scope, kind, slots))
    {
      hide Represents, Bounded, KeptSlots, SessionState.Valid, SessionState.Kept;
      var toolKind := lex.fold(Bounded(lex.isSpace, kind, MAX_TOOL_KIND));
      if toolKind == "" {
        return;
      }
      var state := State(scope);
      state.NoteTool(lex, toolKind, KeptSlots(lex, slots));
    }

    method Clear(scope: Scope)
      requires Valid()
      modifies this
      ensures Valid() && sessions.Values <= old(sessions.Values)
      ensures Views() == Step(lex, old(Views()), ClearOp(scope))
    {
      hide Represents;
      sessions := sessions - {scope};
    }

    /** Replaces one scope from a transcript, dropping the scope again at the first malformed pair. */
    method RestorePairs(scope: Scope, pairs: seq<Pair>)
      requires Valid()
      modifies this, sessions.Values
      ensures Valid() && fresh(sessions.Values - old(sessions.Values))
      ensures Views() == Step(lex, old(Views()), RestoreOp(scope, pairs))
    {
      hide Represents, Recorded, SessionState.Valid, SessionState.Kept;
      Clear(scope);
      ghost var cleared := Views();
      var newest := LastN(pairs, MAX_SESSION_PAIRS + MAX_ARCHIVE_PAIRS);
      for i := 0 to |newest|
        invariant Valid() && fresh(sessions.Values - old(sessions.Values))
        invariant Malformed !in newest[..i]
        invariant Views() == RecordedPairs(lex, cleared, scope, newest[..i])
        invariant Views() - {scope} == cleared
      {
        assert newest[..i + 1][..i] == newest[..i];
        match newest[i]
        case Malformed =>
          Clear(scope);
          return;
        case Pair(user, assistant) =>
          RecordTurn(scope, user, assistant);
          RecordedTouchesOneScope(lex, RecordedPairs(lex, cleared, scope, newest[..i]), scope, user, assistant);
      }
      assert newest[..|newest|] == newest;
    }

    method ClearActorSession(actorId: string, sessionId: string)
      requires Valid()
      modifies this
      ensures Valid() && sessions.Values <= old(sessions.Values)
      ensures Views() == Step(lex, old(Views()), ClearActorSessionOp(actorId, sessionId))
      ensures forall scope :: scope in sessions <==>
                scope in old(sessions) && (scope.actorId != actorId || scope.sessionId != sessionId)
    {
      hide Represents;
      sessions := map scope | scope in sessions && !InActorSession(scope, actorId, sessionId) :: sessions[scope];
    }

    method ClearGuestScopes(actorId: string, sessionId: string)
      requires Valid()
      modifies this
      ensures Valid() && sessions.Values <= old(sessions.Values)
      ensures Views() == Step(lex, old(Views()), ClearGuestsOp(actorId, sessionId))
      ensures forall scope :: scope in sessions <==>
                scope in old(sessions) && (scope.actorId != actorId || scope.sessionId != sessionId || !scope.guest)
    {
      hide Represents;
      sessions := map scope |
        scope in sessions && !(InActorSession(scope, actorId, sessionId) && scope.guest) :: sessions[scope];
    }
  }

  lemma RecordedTouchesOneScope(lex: Lexicon, views: Views, scope: Scope, user: string, assistant: string)
    ensures Recorded(lex, views, scope, user, assistant) - {scope} == views - {scope}
  {
  }
}
