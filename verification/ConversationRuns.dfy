/**
 A whole run of the assistant on one session: bind it, hold a conversation of which some turns fail to be
 appended and in which other callers speak as well, and bind it again. What the run leaves in the owner's
 stream and in the ledger is exact.
 */
module ConversationRuns {
  import opened Options
  import opened Text
  import opened ConversationContext
  import opened ConversationPacket
  import opened ConversationSessions
  import opened ConversationMemory

  // ---------- What a run leaves in the ledger ----------

  /** How many of the recorded turns have a row. */
  function Appended(flags: seq<bool>): nat {
    if flags == [] then 0 else Appended(flags[..|flags| - 1]) + if flags[|flags| - 1] then 1 else 0
  }

  /** The row holds a loaded pair word for word, and a spoken one as the scrubber leaves it. */
  ghost predicate Stores(rules: Rules, row: Turn, pair: Pair, verbatim: bool) {
    && pair.Pair?
    && if verbatim then row.user == pair.user && row.assistant == pair.assistant
       else StoresTurn(rules, row, pair.user, pair.assistant)
  }

  /** The ledger after a run: rows that were not loaded, then one for each turn that has its flag. */
  datatype Run = Run(earlier: seq<Turn>, loaded: nat, pairs: seq<Pair>, flags: seq<bool>)

  ghost predicate IsRun(rules: Rules, run: Run, rows: seq<Turn>) {
    && |run.flags| == |run.pairs| && run.loaded <= |run.pairs|
    && IsTranscript(rules, rows) && run.earlier <= rows && |rows| == |run.earlier| + Appended(run.flags)
    && (forall i | 0 <= i < |run.pairs| && run.flags[i] :: HasRow(rules, run, rows, i))
    && (forall i | 0 <= i < run.loaded :: run.flags[i])
  }

  ghost predicate HasRow(rules: Rules, run: Run, rows: seq<Turn>, i: nat)
    requires i < |run.pairs| == |run.flags|
  {
    var at := |run.earlier| + Appended(run.flags[..i]);
    at < |rows| && Stores(rules, rows[at], run.pairs[i], i < run.loaded)
  }

  function Trues(n: nat): (r: seq<bool>)
    ensures |r| == n && forall i | 0 <= i < n :: r[i]
  {
    seq(n, _ => true)
  }

  lemma {:induction false} AllAppended(flags: seq<bool>)
    requires forall i | 0 <= i < |flags| :: flags[i]
    ensures Appended(flags) == |flags|
  {
    if flags != [] {
      AllAppended(flags[..|flags| - 1]);
    }
  }

  /** How a session is bound: who is at the microphone, and whether its rows can be loaded. */
  datatype Binding = Binding(localGuest: Option<string>, loads: bool) {
    /** The owner's stream is rebuilt from the ledger. */
    predicate Restores() {
      loads && localGuest.None?
    }
  }

  /**
   The run in which nothing has been said yet since the binding: the newest rows are in the owner's stream,
   or else that stream holds what it held before, which has no row.
   */
  ghost function Opening(rows: seq<Turn>, restores: bool, prior: seq<Pair>): Run {
    if restores
    then Run(rows[..|rows| - |Loaded(rows)|], |Loaded(rows)|, Hydrate(Loaded(rows)), Trues(|Loaded(rows)|))
    else Run(rows, 0, prior, Falses(|prior|))
  }

  function Falses(n: nat): (r: seq<bool>)
    ensures |r| == n && forall i | 0 <= i < n :: !r[i]
  {
    seq(n, _ => false)
  }

  lemma {:induction false} NoneAppended(flags: seq<bool>)
    requires forall i | 0 <= i < |flags| :: !flags[i]
    ensures Appended(flags) == 0
  {
    if flags != [] {
      NoneAppended(flags[..|flags| - 1]);
    }
  }

  lemma KeptIsRun(rules: Rules, rows: seq<Turn>, prior: seq<Pair>)
    requires IsTranscript(rules, rows)
    ensures IsRun(rules, Opening(rows, false, prior), rows)
  {
    hide IsTranscript, Appended;
    NoneAppended(Falses(|prior|));
  }

  lemma RestoredIsRun(rules: Rules, rows: seq<Turn>, prior: seq<Pair>)
    requires IsTranscript(rules, rows)
    ensures IsRun(rules, Opening(rows, true, prior), rows)
  {
    hide IsTranscript, Appended;
    var run := Opening(rows, true, prior);
    AllAppended(run.flags);
    forall i | 0 <= i < |run.pairs| ensures HasRow(rules, run, rows, i) {
      AllAppended(run.flags[..i]);
      LastAt(rows, MAX_RESTORE_TURNS, i);
    }
  }

  ghost function Said(run: Run, pair: Pair, flag: bool): Run {
    run.(pairs := run.pairs + [pair], flags := run.flags + [flag])
  }

  lemma SaidIsRun(rules: Rules, run: Run, rows: seq<Turn>, pair: Pair, flag: bool, after: seq<Turn>)
    requires IsRun(rules, run, rows) && pair.Pair? && IsTranscript(rules, after)
    requires if flag
             then |after| == |rows| + 1 && after[..|rows|] == rows
                  && StoresTurn(rules, after[|rows|], pair.user, pair.assistant)
             else after == rows
    ensures IsRun(rules, Said(run, pair, flag), after)
  {
    hide IsTranscript, Stores, HasRow, StoresTurn;
    var longer := Said(run, pair, flag);
    assert longer.flags[..|run.flags|] == run.flags;
    forall i | 0 <= i < |longer.pairs| && longer.flags[i] ensures HasRow(rules, longer, after, i) {
      if i < |run.pairs| {
        assert HasRow(rules, run, rows, i);
        RowStays(rules, run, rows, pair, flag, after, i);
      } else {
        NewRow(rules, run, rows, pair, after);
      }
    }
  }

  lemma RowStays(
    rules: Rules, run: Run, rows: seq<Turn>, pair: Pair, flag: bool, after: seq<Turn>, i: nat)
    requires i < |run.pairs| == |run.flags| && HasRow(rules, run, rows, i) && rows <= after
    ensures HasRow(rules, Said(run, pair, flag), after, i)
  {
    hide Stores;
    assert Said(run, pair, flag).flags[..i] == run.flags[..i];
  }

  lemma NewRow(rules: Rules, run: Run, rows: seq<Turn>, pair: Pair, after: seq<Turn>)
    requires |run.pairs| == |run.flags| && run.loaded <= |run.pairs| && pair.Pair?
    requires |rows| == |run.earlier| + Appended(run.flags) && |after| == |rows| + 1
    requires StoresTurn(rules, after[|rows|], pair.user, pair.assistant)
    ensures HasRow(rules, Said(run, pair, true), after, |run.pairs|)
  {
    StoredIsStored(rules, after[|rows|], pair);
    hide Stores;
    assert Said(run, pair, true).flags[..|run.flags|] == run.flags;
  }

  lemma StoredIsStored(rules: Rules, row: Turn, pair: Pair)
    requires pair.Pair? && StoresTurn(rules, row, pair.user, pair.assistant)
    ensures Stores(rules, row, pair, false)
  {
  }

  // ---------- What a run leaves in the context ----------

  lemma SpokenGrows(lex: Lexicon, scope: Scope, pairs: seq<Pair>, pair: Pair)
    requires AllSpeak(lex, pairs) && Speaks(lex, pair)
    ensures AllSpeak(lex, pairs + [pair])
    ensures Spoken(lex, scope, pairs + [pair]) ==
            Spoken(lex, scope, pairs) + [TurnAt(lex, scope, pairs + [pair], |pairs|)]
  {
    hide TurnText, Bounded;
    assert AllSpeak(lex, pairs + [pair]) by {
      forall i | 0 <= i < |pairs| + 1 ensures Speaks(lex, (pairs + [pair])[i]) {
        assert i < |pairs| ==> (pairs + [pair])[i] == pairs[i];
      }
    }
    forall i | 0 <= i < |pairs|
      ensures Spoken(lex, scope, pairs + [pair])[i] == Spoken(lex, scope, pairs)[i]
    {
      SpokenAt(lex, scope, pairs + [pair], i);
      SpokenAt(lex, scope, pairs, i);
    }
    SpokenAt(lex, scope, pairs + [pair], |pairs|);
  }

  /** Recording one more speaking pair extends what was spoken. */
  lemma RecordedIsSpoken(lex: Lexicon, views: Views, scope: Scope, pairs: seq<Pair>, pair: Pair)
    requires AllSpeak(lex, pairs) && Speaks(lex, pair) && HistoryOf(views, scope) == Spoken(lex, scope, pairs)
    ensures AllSpeak(lex, pairs + [pair])
    ensures HistoryOf(Step(lex, views, RecordOp(scope, pair.user, pair.assistant)), scope) ==
            Spoken(lex, scope, pairs + [pair])
  {
    hide TurnText, Bounded, AllSpeak, Spoken, Recorded, Speaks, HistoryOf;
    SpokenGrows(lex, scope, pairs, pair);
    SpokenLength(lex, scope, pairs);
    RecordedGrows(lex, views, scope, pair);
  }

  lemma RecordedGrows(lex: Lexicon, views: Views, scope: Scope, pair: Pair)
    requires Speaks(lex, pair)
    ensures HistoryOf(Recorded(lex, views, scope, pair.user, pair.assistant), scope) ==
            HistoryOf(views, scope) + [Turn(
              |HistoryOf(views, scope)| + 1, TurnText(lex, pair.user), TurnText(lex, pair.assistant),
              Bounded(lex.isSpace, scope.source, MAX_SOURCE))]
  {
    hide TurnText, Bounded;
  }

  // ---------- The run itself ----------

  /** Both stores are as a run of the session leaves them. */
  ghost predicate Reflects(memory: Memory, session: string, run: Run)
    reads memory, memory.engine, memory.engine.sessions.Values, memory.store
    requires memory.Valid()
  {
    && memory.store != null && memory.sessionId == session && IsBindable(memory.store, session)
    && AllSpeak(memory.engine.lex, run.pairs)
    && HistoryOf(memory.engine.Views(), OwnerScope(session)) ==
         Spoken(memory.engine.lex, OwnerScope(session), run.pairs)
    && IsRun(memory.store.rules, run, memory.store.turns[session])
  }

  /** The owner's stream of the session once the streams of the session bound before are cleared. */
  ghost function Uncleared(memory: Memory, session: string): seq<Turn>
    reads memory, memory.engine, memory.engine.sessions.Values, memory.store
    requires memory.Valid()
  {
    HistoryOf(Step(memory.engine.lex, memory.engine.Views(), ClearActorSessionOp(LOCAL_OWNER, memory.sessionId)),
              OwnerScope(session))
  }

  /** The ledger can be bound, and what the owner's stream keeps of the session is prior. */
  ghost predicate CanOpen(
    memory: Memory, ledger: ConversationSessionStore, session: string, binding: Binding, prior: seq<Pair>)
    reads memory, memory.engine, memory.engine.sessions.Values, memory.store, ledger
  {
    && memory.Valid() && ledger.Valid() && ledger.lex == memory.engine.lex
    && Tidy(memory.engine.lex, ledger.rules) && IsBindable(ledger, session)
    && AllSpeak(memory.engine.lex, prior)
    && (!binding.Restores() ==>
          Uncleared(memory, session) == Spoken(memory.engine.lex, OwnerScope(session), prior))
  }

  method Open(
    memory: Memory, ledger: ConversationSessionStore, session: string, binding: Binding, ghost prior: seq<Pair>)
    returns (ghost run: Run)
    requires CanOpen(memory, ledger, session, binding, prior)
    modifies memory, memory.engine, memory.engine.sessions.Values
    ensures memory.Valid() && memory.store == ledger && Reflects(memory, session, run)
    ensures run == Opening(ledger.turns[session], binding.Restores(), prior)
    ensures fresh(memory.engine.sessions.Values - old(memory.engine.sessions.Values))
  {
    hide Memory.Linked, ConversationContextEngine.Views, ConversationContextEngine.Valid, Step, AllSpeak, Spoken, Tidy;
    hide IsRun, Bound, HistoryOf, IsTranscript, SessionState.Valid, LocalScope, Hydrate, Opening;
    ghost var rows, lex := ledger.turns[session], memory.engine.lex;
    ghost var cleared := Step(lex, memory.engine.Views(), ClearActorSessionOp(LOCAL_OWNER, memory.sessionId));
    var restored := memory.Configure(ledger, session, binding.localGuest, binding.loads);
    run := Opening(rows, binding.Restores(), prior);
    BoundHistories(lex, ledger.rules, cleared, session, binding.localGuest, rows);
    OpeningReflects(lex, ledger.rules, session, rows, binding, prior);
  }

  lemma OpeningReflects(
    lex: Lexicon, rules: Rules, session: string, rows: seq<Turn>, binding: Binding, prior: seq<Pair>)
    requires IsTranscript(rules, rows) && AllSpeak(lex, prior) && AllSpeak(lex, Hydrate(Loaded(rows)))
    ensures IsRun(rules, Opening(rows, binding.Restores(), prior), rows)
    ensures Opening(rows, binding.Restores(), prior).pairs ==
            if binding.Restores() then Hydrate(Loaded(rows)) else prior
    ensures binding.localGuest.Some? ==> LocalScope(session, binding.localGuest) != OwnerScope(session)
  {
    hide IsTranscript, AllSpeak, IsRun;
    if binding.Restores() {
      RestoredIsRun(rules, rows, prior);
    } else {
      KeptIsRun(rules, rows, prior);
    }
  }

  /** Something said to the assistant, by whomever, and the answer. */
  datatype Utterance = Utterance(caller: Caller, localGuest: Option<string>, user: string, response: string) {
    function Pair(): Pair {
      ConversationContext.Pair(user, response)
    }
  }

  /** The utterance leaves a turn in the owner's stream of the session. */
  ghost predicate IsOwn(lex: Lexicon, session: string, utterance: Utterance) {
    ConversationScope(utterance.caller, utterance.localGuest) == OwnerScope(session)
    && Speaks(lex, utterance.Pair())
  }

  /** What was said in the owner's stream of the session. */
  ghost function OwnPairs(lex: Lexicon, session: string, said: seq<Utterance>): seq<Pair> {
    if said == [] then [] else
    var front, last := said[..|said| - 1], said[|said| - 1];
    OwnPairs(lex, session, front) + if IsOwn(lex, session, last) then [last.Pair()] else []
  }

  /** Which of it has a row. */
  ghost function OwnFlags(lex: Lexicon, session: string, said: seq<Utterance>, flags: seq<bool>): seq<bool>
    requires |flags| == |said|
  {
    if said == [] then [] else
    var n := |said| - 1;
    OwnFlags(lex, session, said[..n], flags[..n]) + if IsOwn(lex, session, said[n]) then [flags[n]] else []
  }

  /** The run after one more utterance, which extends it exactly when it is the owner's in this session. */
  ghost function Heard(lex: Lexicon, session: string, run: Run, utterance: Utterance, flag: bool): Run {
    if IsOwn(lex, session, utterance) then Said(run, utterance.Pair(), flag) else run
  }

  method Say(memory: Memory, session: string, utterance: Utterance, source: string, ghost run: Run)
    returns (flag: bool)
    requires memory.Valid() && Reflects(memory, session, run)
    modifies memory.engine, memory.engine.sessions.Values, memory.store
    ensures memory.Valid() && Reflects(memory, session, Heard(memory.engine.lex, session, run, utterance, flag))
    ensures flag ==> IsOwn(memory.engine.lex, session, utterance)
    ensures fresh(memory.engine.sessions.Values - old(memory.engine.sessions.Values))
  {
    hide Memory.Linked, ConversationContextEngine.Views, ConversationContextEngine.Valid, Step, AllSpeak, Spoken, Tidy;
    hide IsRun, IsTranscript, Memory.Persists, Speaks, SessionState.Valid, HistoryOf, ConversationScope, OwnerScope;
    ghost var rows, views, lex := memory.store.turns[session], memory.engine.Views(), memory.engine.lex;
    ghost var scope := ConversationScope(utterance.caller, utterance.localGuest);
    SilentIsNotPersisted(memory, session, utterance, source);
    flag := memory.ProcessTurn(
      utterance.caller, utterance.localGuest, utterance.user, utterance.response, source);
    if IsOwn(lex, session, utterance) {
      RecordedIsSpoken(lex, views, scope, run.pairs, utterance.Pair());
      SaidIsRun(memory.store.rules, run, rows, utterance.Pair(), flag, memory.store.turns[session]);
    } else {
      NotRecorded(lex, views, session, utterance);
    }
  }

  /** Only the owner's utterances of this session are ever appended, and none that is blank. */
  lemma SilentIsNotPersisted(memory: Memory, session: string, utterance: Utterance, source: string)
    requires memory.Valid() && memory.store != null && memory.sessionId == session
    ensures memory.Persists(utterance.caller, utterance.localGuest, utterance.user, utterance.response, source) ==>
              IsOwn(memory.engine.lex, session, utterance)
  {
    hide TurnText, ConversationContextEngine.Valid, IsTranscript, ConversationScope;
    if memory.Persists(utterance.caller, utterance.localGuest, utterance.user, utterance.response, source) {
      assert memory.store.rules.scrub(utterance.user) != "";
    }
  }

  lemma NotRecorded(lex: Lexicon, views: Views, session: string, utterance: Utterance)
    requires !IsOwn(lex, session, utterance)
    ensures HistoryOf(
              Step(lex, views, RecordOp(ConversationScope(utterance.caller, utterance.localGuest),
                                        utterance.user, utterance.response)),
              OwnerScope(session)) == HistoryOf(views, OwnerScope(session))
  {
    var scope := ConversationScope(utterance.caller, utterance.localGuest);
    hide TurnText, ConversationScope, OwnerScope, Bounded;
    if scope != OwnerScope(session) {
      RecordedElsewhere(lex, views, scope, utterance.user, utterance.response, OwnerScope(session));
    }
  }

  /**
   Binds a session and lets anyone speak. The owner's stream then is what the binding left in it followed by
   what the owner said in the session, and the ledger holds a row for exactly the turns that were appended.
   */
  method Converse(
    memory: Memory, ledger: ConversationSessionStore, session: string, binding: Binding, ghost prior: seq<Pair>,
    said: seq<Utterance>, source: string)
    returns (flags: seq<bool>, ghost run: Run)
    requires CanOpen(memory, ledger, session, binding, prior)
    modifies memory, memory.engine, memory.engine.sessions.Values, ledger
    ensures memory.Valid() && memory.store == ledger && Reflects(memory, session, run)
    ensures |flags| == |said|
    ensures forall i | 0 <= i < |said| && flags[i] :: IsOwn(memory.engine.lex, session, said[i])
    ensures var opening := Opening(old(ledger.turns[session]), binding.Restores(), prior);
      run == opening.(pairs := opening.pairs + OwnPairs(memory.engine.lex, session, said),
                      flags := opening.flags + OwnFlags(memory.engine.lex, session, said, flags))
    ensures fresh(memory.engine.sessions.Values - old(memory.engine.sessions.Values))
  {
    hide Reflects, IsRun, Tidy, Memory.Linked, Memory.Valid, IsOwn, ConversationSessionStore.Valid, IsBindable;
    hide OwnPairs, OwnFlags, CanOpen, Heard;
    ghost var lex := memory.engine.lex;
    run := Open(memory, ledger, session, binding, prior);
    ghost var opening := run;
    flags := [];
    NothingHeard(lex, session, opening);
    for i := 0 to |said|
      invariant memory.Valid() && memory.store == ledger && Reflects(memory, session, run)
      invariant |flags| == i
      invariant forall j | 0 <= j < i && flags[j] :: IsOwn(lex, session, said[j])
      invariant run == HeardAll(lex, session, opening, said[..i], flags)
      invariant fresh(memory.engine.sessions.Values - old(memory.engine.sessions.Values))
    {
      var flag := Say(memory, session, said[i], source, run);
      OneMoreHeard(lex, session, opening, said[..i], flags, said[i], flag);
      run := Heard(lex, session, run, said[i], flag);
      flags := flags + [flag];
      assert said[..i + 1] == said[..i] + [said[i]];
    }
    assert said[..|said|] == said;
  }

  /** The run after everything that was said since its opening. */
  ghost function HeardAll(lex: Lexicon, session: string, opening: Run, said: seq<Utterance>, flags: seq<bool>): Run
    requires |flags| == |said|
  {
    opening.(pairs := opening.pairs + OwnPairs(lex, session, said),
             flags := opening.flags + OwnFlags(lex, session, said, flags))
  }

  lemma NothingHeard(lex: Lexicon, session: string, opening: Run)
    ensures HeardAll(lex, session, opening, [], []) == opening
  {
    hide IsOwn;
    assert opening.pairs + [] == opening.pairs && opening.flags + [] == opening.flags;
  }

  lemma OneMoreHeard(
    lex: Lexicon, session: string, opening: Run, said: seq<Utterance>, flags: seq<bool>,
    utterance: Utterance, flag: bool)
    requires |flags| == |said|
    ensures HeardAll(lex, session, opening, said + [utterance], flags + [flag]) ==
            Heard(lex, session, HeardAll(lex, session, opening, said, flags), utterance, flag)
  {
    hide IsOwn;
    assert (said + [utterance])[..|said|] == said && (flags + [flag])[..|said|] == flags;
  }

  // ---------- Binding the session again ----------

  /** The characters shown of pair i out of n: the archive's cut outside the exact window. */
  function ShownLimit(n: nat, i: nat): nat {
    if i + MAX_SESSION_PAIRS < n then MAX_ARCHIVE_TEXT else MAX_TURN_TEXT
  }

  /** As far as they are shown, the two pairs read alike. */
  ghost predicate ShowAlike(lex: Lexicon, a: Pair, b: Pair, limit: nat)
    requires a.Pair? && b.Pair?
  {
    && Take(TurnText(lex, a.user), limit) == Take(TurnText(lex, b.user), limit)
    && Take(TurnText(lex, a.assistant), limit) == Take(TurnText(lex, b.assistant), limit)
  }

  lemma TurnsAlike(lex: Lexicon, scope: Scope, said: seq<Pair>, kept: seq<Pair>, i: nat)
    requires i < |said| == |kept| && said[i].Pair? && kept[i].Pair?
    ensures SameWords(TurnAt(lex, scope, said, i), TurnAt(lex, scope, kept, i)) <==>
            ShowAlike(lex, said[i], kept[i], MAX_TURN_TEXT)
    ensures SameWords(Cut(TurnAt(lex, scope, said, i)), Cut(TurnAt(lex, scope, kept, i))) <==>
            ShowAlike(lex, said[i], kept[i], MAX_ARCHIVE_TEXT)
  {
    hide TurnText, Bounded;
    TurnTextFits(lex, said[i].user);
    TurnTextFits(lex, said[i].assistant);
    TurnTextFits(lex, kept[i].user);
    TurnTextFits(lex, kept[i].assistant);
  }

  lemma TurnTextFits(lex: Lexicon, s: string)
    ensures Take(TurnText(lex, s), MAX_TURN_TEXT) == TurnText(lex, s)
  {
  }

  lemma VisibleAlike(lex: Lexicon, scope: Scope, said: seq<Pair>, kept: seq<Pair>, i: nat)
    requires AllSpeak(lex, said) && AllSpeak(lex, kept) && |said| == |kept|
    requires i < |LastN(said, MAX_RESTORE_TURNS)|
    ensures |Visible(Spoken(lex, scope, said))| == |LastN(said, MAX_RESTORE_TURNS)| ==
            |Visible(Spoken(lex, scope, kept))|
    ensures var at := |said| - |LastN(said, MAX_RESTORE_TURNS)| + i;
      && said[at].Pair? && kept[at].Pair?
      && (SameWords(Visible(Spoken(lex, scope, said))[i], Visible(Spoken(lex, scope, kept))[i]) <==>
            ShowAlike(lex, said[at], kept[at], ShownLimit(|said|, at)))
  {
    hide Visible, AllSpeak, Spoken, TurnAt, SameWords, Cut, ShowAlike;
    VisibleLength(lex, scope, said);
    VisibleLength(lex, scope, kept);
    VisibleSpoken(lex, scope, said, i);
    VisibleSpoken(lex, scope, kept, i);
    TurnsAlike(lex, scope, said, kept, |said| - |LastN(said, MAX_RESTORE_TURNS)| + i);
  }

  /** Pair i of the list is among the last 768. */
  predicate IsRetained(n: nat, i: nat) {
    i < n <= i + MAX_RESTORE_TURNS
  }

  ghost predicate AllShowAlike(lex: Lexicon, said: seq<Pair>, kept: seq<Pair>) {
    forall i: nat | i < |said| && i < |kept| && IsRetained(|said|, i) ::
      said[i].Pair? && kept[i].Pair? && ShowAlike(lex, said[i], kept[i], ShownLimit(|said|, i))
  }

  /** Restoring what was kept shows what was said exactly when every retained pair reads alike. */
  lemma {:induction false} RestoredShows(lex: Lexicon, scope: Scope, said: seq<Pair>, kept: seq<Pair>)
    requires AllSpeak(lex, said) && AllSpeak(lex, kept) && |said| == |kept|
    ensures AllSpeak(lex, LastN(kept, MAX_RESTORE_TURNS))
    ensures ShowSame(Spoken(lex, scope, said), Spoken(lex, scope, LastN(kept, MAX_RESTORE_TURNS))) <==>
            AllShowAlike(lex, said, kept)
  {
    hide Visible, AllSpeak, Spoken, SameWords, ShowAlike;
    RestartShowsTheSame(lex, scope, kept);
    var live, stored := Visible(Spoken(lex, scope, said)), Visible(Spoken(lex, scope, kept));
    var restored := Visible(Spoken(lex, scope, LastN(kept, MAX_RESTORE_TURNS)));
    VisibleLength(lex, scope, said);
    VisibleLength(lex, scope, kept);
    var first := |said| - |live|;
    forall i | 0 <= i < |live|
      ensures said[first + i].Pair? && kept[first + i].Pair?
      ensures SameWords(live[i], restored[i]) <==>
              ShowAlike(lex, said[first + i], kept[first + i], ShownLimit(|said|, first + i))
    {
      VisibleAlike(lex, scope, said, kept, i);
      SameWordsTransitive(live[i], stored[i], restored[i]);
    }
    if forall i | 0 <= i < |live| :: SameWords(live[i], restored[i]) {
      forall i: nat | i < |said| && IsRetained(|said|, i)
        ensures said[i].Pair? && kept[i].Pair? && ShowAlike(lex, said[i], kept[i], ShownLimit(|said|, i))
      {
        assert SameWords(live[i - first], restored[i - first]);
      }
    }
  }

  lemma SameWordsTransitive(a: Turn, b: Turn, c: Turn)
    requires SameWords(b, c)
    ensures SameWords(a, b) <==> SameWords(a, c)
  {
  }

  /** Scrubbing changes nothing that is shown of the pair. */
  ghost predicate KeepsPair(lex: Lexicon, rules: Rules, pair: Pair, limit: nat)
    requires pair.Pair?
  {
    ShowAlike(lex, pair, Pair(rules.scrub(pair.user), rules.scrub(pair.assistant)), limit)
  }

  /** Scrubbing changes nothing that is shown of what was said in the run and is still retained. */
  ghost predicate KeepsAll(lex: Lexicon, rules: Rules, run: Run) {
    forall i: nat | run.loaded <= i < |run.pairs| && IsRetained(|run.pairs|, i) ::
      run.pairs[i].Pair? && KeepsPair(lex, rules, run.pairs[i], ShownLimit(|run.pairs|, i))
  }

  /** When every turn has its row, the rows follow the pairs one for one. */
  lemma RowsFollowPairs(rules: Rules, run: Run, rows: seq<Turn>)
    requires IsRun(rules, run, rows) && forall i | 0 <= i < |run.flags| :: run.flags[i]
    ensures |rows| == |run.earlier| + |run.pairs|
    ensures forall i | 0 <= i < |run.pairs| ::
              Stores(rules, rows[|run.earlier| + i], run.pairs[i], i < run.loaded)
  {
    hide IsTranscript, Stores;
    AllAppended(run.flags);
    forall i | 0 <= i < |run.pairs| ensures Stores(rules, rows[|run.earlier| + i], run.pairs[i], i < run.loaded) {
      AllAppended(run.flags[..i]);
      assert HasRow(rules, run, rows, i);
    }
  }

  /** No row that the binding left out comes in again: there is none, or the window is full without it. */
  predicate IsSelfContained(run: Run) {
    run.earlier == [] || |run.pairs| >= MAX_RESTORE_TURNS
  }

  /** Loading drops exactly what is older than 768 rows, and nothing of the run is unless that many follow. */
  lemma NewestRowsSpeak(lex: Lexicon, rules: Rules, run: Run, rows: seq<Turn>)
    requires Tidy(lex, rules) && IsRun(rules, run, rows) && |rows| == |run.earlier| + |run.pairs|
    ensures IsSelfContained(run) ==>
              LastN(Hydrate(rows[|run.earlier|..]), MAX_RESTORE_TURNS) == Hydrate(Loaded(rows))
    ensures !IsSelfContained(run) ==> |Loaded(rows)| > |LastN(run.pairs, MAX_RESTORE_TURNS)|
    ensures AllSpeak(lex, Hydrate(rows[|run.earlier|..]))
  {
    hide HasRow, Tidy, AllSpeak, IsScrubbed;
    var newest := rows[|run.earlier|..];
    assert forall i | 0 <= i < |newest| :: newest[i] == rows[|run.earlier| + i];
    HydratedRowsSpeak(lex, rules, newest);
  }

  lemma StoredAlike(lex: Lexicon, rules: Rules, row: Turn, pair: Pair, verbatim: bool, limit: nat)
    requires Stores(rules, row, pair, verbatim)
    ensures ShowAlike(lex, pair, Pair(row.user, row.assistant), limit) <==>
            verbatim || KeepsPair(lex, rules, pair, limit)
  {
    hide TurnText;
  }

  /**
   After a run in which every turn was appended, binding the session again shows what was said exactly
   when scrubbing changes nothing shown of the turns said in the run, and no row from before it comes in.
   */
  lemma {:induction false} RestartShowsWhatWasSaid(
    lex: Lexicon, rules: Rules, scope: Scope, run: Run, rows: seq<Turn>)
    requires Tidy(lex, rules) && IsRun(rules, run, rows) && AllSpeak(lex, run.pairs)
    requires forall i | 0 <= i < |run.flags| :: run.flags[i]
    ensures AllSpeak(lex, Hydrate(Loaded(rows)))
    ensures ShowSame(Spoken(lex, scope, run.pairs), Spoken(lex, scope, Hydrate(Loaded(rows)))) <==>
            KeepsAll(lex, rules, run) && IsSelfContained(run)
  {
    hide Tidy, IsRun, AllSpeak, Spoken, Stores, AllShowAlike, KeepsAll, ShowSame, Hydrate, LastN, Loaded;
    hide IsSelfContained;
    RowsFollowPairs(rules, run, rows);
    NewestRowsSpeak(lex, rules, run, rows);
    LoadedSpeak(lex, rules, run, rows);
    if IsSelfContained(run) {
      AlikeExactlyWhenKept(lex, rules, run, rows);
      RestoredShows(lex, scope, run.pairs, Hydrate(rows[|run.earlier|..]));
    } else {
      LongerShowsMore(lex, scope, run.pairs, Loaded(rows));
    }
  }

  lemma LoadedSpeak(lex: Lexicon, rules: Rules, run: Run, rows: seq<Turn>)
    requires Tidy(lex, rules) && IsRun(rules, run, rows)
    ensures AllSpeak(lex, Hydrate(Loaded(rows)))
    ensures |Loaded(rows)| <= MAX_RESTORE_TURNS
  {
    hide HasRow, Tidy, AllSpeak, IsScrubbed;
    HydratedRowsSpeak(lex, rules, Loaded(rows));
  }

  /** A list with more retained pairs does not show the same. */
  lemma LongerShowsMore(lex: Lexicon, scope: Scope, pairs: seq<Pair>, rows: seq<Turn>)
    requires AllSpeak(lex, pairs) && AllSpeak(lex, Hydrate(rows))
    requires |LastN(pairs, MAX_RESTORE_TURNS)| < |rows| <= MAX_RESTORE_TURNS
    ensures !ShowSame(Spoken(lex, scope, pairs), Spoken(lex, scope, Hydrate(rows)))
  {
    hide Visible, AllSpeak, Spoken, SameWords;
    VisibleLength(lex, scope, pairs);
    VisibleLength(lex, scope, Hydrate(rows));
  }

  lemma AlikeExactlyWhenKept(lex: Lexicon, rules: Rules, run: Run, rows: seq<Turn>)
    requires |rows| == |run.earlier| + |run.pairs|
    requires forall i | 0 <= i < |run.pairs| :: Stores(rules, rows[|run.earlier| + i], run.pairs[i], i < run.loaded)
    ensures AllShowAlike(lex, run.pairs, Hydrate(rows[|run.earlier|..])) <==> KeepsAll(lex, rules, run)
  {
    var kept := Hydrate(rows[|run.earlier|..]);
    hide Stores, ShowAlike, KeepsPair, ShownLimit;
    forall i: nat | i < |run.pairs|
      ensures run.pairs[i].Pair? && kept[i].Pair?
      ensures ShowAlike(lex, run.pairs[i], kept[i], ShownLimit(|run.pairs|, i)) <==>
              i < run.loaded || KeepsPair(lex, rules, run.pairs[i], ShownLimit(|run.pairs|, i))
    {
      var row := rows[|run.earlier| + i];
      assert kept[i] == Pair(row.user, row.assistant);
      StoresPair(rules, row, run.pairs[i], i < run.loaded);
      StoredAlike(lex, rules, row, run.pairs[i], i < run.loaded, ShownLimit(|run.pairs|, i));
    }
  }

  lemma StoresPair(rules: Rules, row: Turn, pair: Pair, verbatim: bool)
    requires Stores(rules, row, pair, verbatim)
    ensures pair.Pair?
  {
  }

  /**
   A conversation, and then the session bound again. When the second binding restores the owner's stream and
   every turn was appended, the restored context shows what was said exactly when scrubbing changed nothing
   shown of it and no row from before comes in. A second binding that does not restore it shows nothing.
   */
  method ConverseAndRestart(
    memory: Memory, ledger: ConversationSessionStore, session: string, binding: Binding, ghost prior: seq<Pair>,
    said: seq<Utterance>, source: string, again: Binding)
    returns (flags: seq<bool>, ghost run: Run, ghost live: seq<Turn>)
    requires CanOpen(memory, ledger, session, binding, prior)
    modifies memory, memory.engine, memory.engine.sessions.Values, ledger
    ensures memory.Valid() && memory.store == ledger && |flags| == |said|
    ensures var opening := Opening(old(ledger.turns[session]), binding.Restores(), prior);
      run == opening.(pairs := opening.pairs + OwnPairs(memory.engine.lex, session, said),
                      flags := opening.flags + OwnFlags(memory.engine.lex, session, said, flags))
    ensures AllSpeak(memory.engine.lex, run.pairs)
    ensures live == Spoken(memory.engine.lex, OwnerScope(session), run.pairs)
    ensures again.Restores() && (forall i | 0 <= i < |run.flags| :: run.flags[i]) ==>
              (ShowSame(live, HistoryOf(memory.engine.Views(), OwnerScope(session))) <==>
                 KeepsAll(memory.engine.lex, ledger.rules, run) && IsSelfContained(run))
    ensures !again.Restores() ==> HistoryOf(memory.engine.Views(), OwnerScope(session)) == []
  {
    hide IsRun, Tidy, Memory.Linked, AllSpeak, Spoken, ShowSame, KeepsAll, IsTranscript, IsOwn, OwnPairs, OwnFlags;
    hide ConversationContextEngine.Views, ConversationContextEngine.Valid, Step, CanOpen, HistoryOf, IsSelfContained;
    hide Opening, SessionState.Valid, Bound;
    flags, run := Converse(memory, ledger, session, binding, prior, said, source);
    ghost var lex, rows := memory.engine.lex, ledger.turns[session];
    live := HistoryOf(memory.engine.Views(), OwnerScope(session));
    if forall i | 0 <= i < |run.flags| :: run.flags[i] {
      RestartShowsWhatWasSaid(lex, ledger.rules, OwnerScope(session), run, rows);
    }
    BindAgain(memory, session, again);
  }

  /** Binds the bound session once more. */
  method BindAgain(memory: Memory, session: string, again: Binding)
    requires memory.Valid() && memory.store != null && memory.sessionId == session && IsBindable(memory.store, session)
    modifies memory, memory.engine, memory.engine.sessions.Values
    ensures memory.Valid() && memory.store == old(memory.store) && memory.sessionId == session
    ensures AllSpeak(memory.engine.lex, Hydrate(Loaded(memory.store.turns[session])))
    ensures HistoryOf(memory.engine.Views(), OwnerScope(session)) ==
            if again.Restores()
            then Spoken(memory.engine.lex, OwnerScope(session), Hydrate(Loaded(memory.store.turns[session]))) else []
  {
    hide Tidy, Memory.Linked, AllSpeak, Spoken, IsTranscript, ConversationContextEngine.Views, Step, HistoryOf, Bound;
    hide ConversationContextEngine.Valid, SessionState.Valid, LocalScope;
    var ledger := memory.store;
    ghost var rows, lex, views := ledger.turns[session], memory.engine.lex, memory.engine.Views();
    ghost var cleared := Step(lex, views, ClearActorSessionOp(LOCAL_OWNER, session));
    ClearedIsVacant(lex, views, session);
    BoundHistories(lex, ledger.rules, cleared, session, again.localGuest, rows);
    OpeningReflects(lex, ledger.rules, session, rows, again, Hydrate(Loaded(rows)));
    var restored := memory.Configure(ledger, session, again.localGuest, again.loads);
  }
}
