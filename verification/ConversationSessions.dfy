/** The durable transcript ledger: owner-scoped sessions whose turns are numbered from one without gaps. */
module ConversationSessions {
  import opened Text
  import opened Ranking
  import opened ConversationContext
  import opened ConversationPacket

  const MAX_TITLE_CODEPOINTS := 80
  const MAX_TURN_CODEPOINTS := 24_000
  const MAX_RESTORE_TURNS := 768
  const MAX_CREATE_ATTEMPTS := 4
  const MAX_SEARCH_LIMIT := 8
  const MAX_CHANNEL := 32
  const DEFAULT_TITLE := "New conversation"

  datatype Result<T> = Ok(value: T) | Error(reason: Failure)

  datatype Failure = InvalidIdentifier | InvalidText | InvalidBounds | NotFound | IdGenerationFailed | LoadFailed

  datatype SessionRecord = SessionRecord(owner: string, title: string, archived: bool)

  /** The identifier grammars, the credential scrubber and the automatic title, given from outside. */
  datatype Rules = Rules(
    validOwner: string -> bool,
    validSession: string -> bool,
    scrub: string -> string,
    titleFrom: string -> Result<string>)

  /** Scrubbed text is acceptable when something is left of it and it fits. */
  function Clean(rules: Rules, text: string, limit: nat): (r: Result<string>) {
    var scrubbed := rules.scrub(text);
    if scrubbed == "" || |scrubbed| > limit then Error(InvalidText) else Ok(scrubbed)
  }

  /** Text the ledger can hold: something the scrubber returned and that was not empty. */
  ghost predicate IsScrubbed(rules: Rules, text: string) {
    text != "" && exists raw :: rules.scrub(raw) == text
  }

  ghost predicate IsTranscript(rules: Rules, rows: seq<Turn>) {
    && Numbered(rows, 1)
    && forall i | 0 <= i < |rows| :: IsScrubbed(rules, rows[i].user) && IsScrubbed(rules, rows[i].assistant)
  }

  lemma TranscriptGrowsByOne(rules: Rules, rows: seq<Turn>, row: Turn, userText: string, assistantText: string)
    requires IsTranscript(rules, rows) && row.sequence == |rows| + 1
    requires Clean(rules, userText, MAX_TURN_CODEPOINTS) == Ok(row.user)
    requires Clean(rules, assistantText, MAX_TURN_CODEPOINTS) == Ok(row.assistant)
    ensures IsTranscript(rules, rows + [row])
  {
  }

  function MaxRow(rows: seq<Turn>): nat {
    MaxSequence(rows)
  }

  function UpTo(rows: seq<Turn>, cutoff: int): seq<Turn> {
    if rows == [] then []
    else
      var last := rows[|rows| - 1];
      UpTo(rows[..|rows| - 1], cutoff) + if last.sequence <= cutoff then [last] else []
  }

  lemma {:induction false} UpToIsPrefix(rows: seq<Turn>, cutoff: nat)
    requires Numbered(rows, 1)
    ensures UpTo(rows, cutoff) == if cutoff <= |rows| then rows[..cutoff] else rows
  {
    if rows != [] {
      var front := rows[..|rows| - 1];
      UpToIsPrefix(front, cutoff);
      if cutoff <= |front| {
        assert front[..cutoff] == rows[..cutoff];
      } else {
        assert front + [rows[|front|]] == rows;
      }
    }
  }

  /** The tokens a query is matched by: those of its cleaned text, and none when it cannot be cleaned. */
  function QueryTokens(lex: Lexicon, rules: Rules, query: string): set<string> {
    var cleaned := Clean(rules, query, MAX_TURN_CODEPOINTS);
    if cleaned.Ok? then lex.tokens(cleaned.value) else {}
  }

  /** What a search for this query is to find among these rows. */
  ghost predicate IsFound(
    lex: Lexicon, rules: Rules, query: string, rows: seq<Turn>, limit: nat, best: seq<Scored<Turn>>)
  {
    var tokens := QueryTokens(lex, rules, query);
    if tokens == {} then best == []
    else IsBest(best, Matches(lex, tokens, rows), limit) && InOrder(best)
  }

  class ConversationSessionStore {
    const rules: Rules
    const lex: Lexicon
    var sessions: map<string, SessionRecord>
    var turns: map<string, seq<Turn>>

    /** Every session has its own rows, scrubbed and numbered 1, 2, 3, ...; none outlive their session. */
    ghost predicate Valid()
      reads this
    {
      && turns.Keys == sessions.Keys
      && forall session | session in turns :: IsTranscript(rules, turns[session])
    }

    constructor (rules: Rules, lex: Lexicon)
      ensures Valid() && sessions == map[] && this.rules == rules && this.lex == lex
    {
      this.rules, this.lex := rules, lex;
      sessions, turns := map[], map[];
    }

    predicate Owns(owner: string, session: string)
      reads this
    {
      session in sessions && sessions[session].owner == owner
    }

    /** The k-th generated identifier is unused, and the earlier ones are taken; all of them are well formed. */
    ghost predicate IsFirstFree(newId: nat -> string, k: nat)
      reads this
    {
      && rules.validSession(newId(k)) && newId(k) !in sessions
      && forall j: nat | j < k :: rules.validSession(newId(j)) && newId(j) in sessions
    }

    /** Tries up to four generated identifiers and takes the first unused one. */
    method Create(owner: string, title: string, newId: nat -> string) returns (r: Result<string>)
      requires Valid()
      modifies this
      ensures Valid()
      ensures r.Ok? <==>
                && rules.validOwner(owner) && Clean(rules, title, MAX_TITLE_CODEPOINTS).Ok?
                && exists k: nat :: k < MAX_CREATE_ATTEMPTS && old(IsFirstFree(newId, k))
      ensures r.Error? ==> sessions == old(sessions) && turns == old(turns)
      ensures r.Ok? ==>
                && (exists k: nat :: k < MAX_CREATE_ATTEMPTS && old(IsFirstFree(newId, k)) && r.value == newId(k))
                && sessions == old(sessions)[r.value := SessionRecord(
                     owner, Clean(rules, title, MAX_TITLE_CODEPOINTS).value, false)]
                && turns == old(turns)[r.value := []]
                && forall other :: Owns(other, r.value) <==> other == owner
    {
      var bounded := Clean(rules, title, MAX_TITLE_CODEPOINTS);
      if !rules.validOwner(owner) {
        return Error(InvalidIdentifier);
      }
      if bounded.Error? {
        return Error(bounded.reason);
      }
      for attempt := 0 to MAX_CREATE_ATTEMPTS
        invariant Valid() && sessions == old(sessions) && turns == old(turns)
        invariant forall j: nat | j < attempt :: rules.validSession(newId(j)) && newId(j) in sessions
      {
        var session := newId(attempt);
        if !rules.validSession(session) {
          return Error(InvalidIdentifier);
        }
        if session !in sessions {
          assert old(IsFirstFree(newId, attempt));
          sessions := sessions[session := SessionRecord(owner, bounded.value, false)];
          turns := turns[session := []];
          return Ok(session);
        }
      }
      return Error(IdGenerationFailed);
    }

    /** The turn is the first of a session that still has its default title, so it names the session. */
    predicate NamesSession(session: string)
      requires session in sessions && session in turns
      reads this
    {
      sessions[session].title == DEFAULT_TITLE && turns[session] == []
    }

    /** Everything a turn needs to be appended. */
    predicate Accepts(owner: string, session: string, userText: string, assistantText: string, source: string)
      requires turns.Keys == sessions.Keys
      reads this
    {
      && rules.validOwner(owner) && rules.validSession(session)
      && Clean(rules, userText, MAX_TURN_CODEPOINTS).Ok? && Clean(rules, assistantText, MAX_TURN_CODEPOINTS).Ok?
      && Clean(rules, source, MAX_CHANNEL).Ok?
      && Owns(owner, session) && !sessions[session].archived
      && (NamesSession(session) ==> rules.titleFrom(Clean(rules, userText, MAX_TURN_CODEPOINTS).value).Ok?)
    }

    method AppendTurn(owner: string, session: string, userText: string, assistantText: string, source: string)
      returns (r: Result<Turn>)
      requires Valid()
      modifies this
      ensures Valid()
      ensures r.Ok? <==> old(Accepts(owner, session, userText, assistantText, source))
      ensures r.Error? ==> sessions == old(sessions) && turns == old(turns)
      ensures r.Ok? ==>
                && r.value.sequence == |old(turns)[session]| + 1
                && Clean(rules, userText, MAX_TURN_CODEPOINTS) == Ok(r.value.user)
                && Clean(rules, assistantText, MAX_TURN_CODEPOINTS) == Ok(r.value.assistant)
                && Clean(rules, source, MAX_CHANNEL) == Ok(r.value.source)
                && turns == old(turns)[session := old(turns)[session] + [r.value]]
                && sessions == old(sessions)[session := old(sessions)[session].(
                     title := if old(NamesSession(session)) then rules.titleFrom(r.value.user).value
                              else old(sessions)[session].title)]
    {
      var user := Clean(rules, userText, MAX_TURN_CODEPOINTS);
      var assistant := Clean(rules, assistantText, MAX_TURN_CODEPOINTS);
      var channel := Clean(rules, source, MAX_CHANNEL);
      if !rules.validOwner(owner) || !rules.validSession(session) {
        return Error(InvalidIdentifier);
      }
      if user.Error? || assistant.Error? || channel.Error? {
        return Error(InvalidText);
      }
      if !Owns(owner, session) || sessions[session].archived {
        return Error(NotFound);
      }
      MaxOfNumbered(turns[session], 1);
      var row := Turn(MaxRow(turns[session]) + 1, user.value, assistant.value, channel.value);
      var title := Ok(sessions[session].title);
      if sessions[session].title == DEFAULT_TITLE && row.sequence == 1 {
        title := rules.titleFrom(user.value);
      }
      if title.Error? {
        return Error(title.reason);
      }
      TranscriptGrowsByOne(rules, turns[session], row, userText, assistantText);
      turns := turns[session := turns[session] + [row]];
      sessions := sessions[session := sessions[session].(title := title.value)];
      return Ok(row);
    }

    /** The last rows of an owned session, oldest first; nothing for anyone else's. */
    method LoadTurns(owner: string, session: string, limit: nat) returns (r: Result<seq<Turn>>)
      requires Valid()
      ensures r.Ok? <==> rules.validOwner(owner) && rules.validSession(session) && 1 <= limit <= MAX_RESTORE_TURNS
      ensures r.Ok? ==> r.value == if Owns(owner, session) then LastN(turns[session], limit) else []
    {
      if !rules.validOwner(owner) || !rules.validSession(session) {
        return Error(InvalidIdentifier);
      }
      if !(1 <= limit <= MAX_RESTORE_TURNS) {
        return Error(InvalidBounds);
      }
      return Ok(if Owns(owner, session) then LastN(turns[session], limit) else []);
    }

    /** The rows old enough to be searched: everything but the newest ones. */
    ghost function Searchable(owner: string, session: string, excludeRecent: nat): seq<Turn>
      reads this
      requires Valid()
    {
      if Owns(owner, session) && |turns[session]| > excludeRecent
      then turns[session][..|turns[session]| - excludeRecent] else []
    }

    /**
     The best matches of the query among the rows old enough, in conversation order; nothing for a query
     without tokens.
     */
    method SearchRelevantTurns(owner: string, session: string, query: string, limit: nat, excludeRecent: nat)
      returns (r: Result<seq<Turn>>, ghost best: seq<Scored<Turn>>)
      requires Valid()
      ensures r.Ok? <==>
                && rules.validOwner(owner) && rules.validSession(session)
                && Clean(rules, query, MAX_TURN_CODEPOINTS).Ok?
                && (QueryTokens(lex, rules, query) != {} ==>
                      1 <= limit <= MAX_SEARCH_LIMIT && 1 <= excludeRecent <= MAX_RESTORE_TURNS)
      ensures r.Ok? ==>
                && IsFound(lex, rules, query, Searchable(owner, session, excludeRecent), limit, best)
                && r.value == Items(best)
      ensures r.Error? ==> best == []
    {
      best := [];
      if !rules.validOwner(owner) || !rules.validSession(session) {
        return Error(InvalidIdentifier), [];
      }
      var cleaned := Clean(rules, query, MAX_TURN_CODEPOINTS);
      if cleaned.Error? {
        return Error(cleaned.reason), [];
      }
      var tokens := lex.tokens(cleaned.value);
      if tokens == {} {
        return Ok([]), [];
      }
      if !(1 <= limit <= MAX_SEARCH_LIMIT) || !(1 <= excludeRecent <= MAX_RESTORE_TURNS) {
        return Error(InvalidBounds), [];
      }
      if !Owns(owner, session) {
        return Ok([]), [];
      }
      var rows := turns[session];
      MaxOfNumbered(rows, 1);
      var cutoff := MaxRow(rows) - excludeRecent;
      if cutoff <= 0 {
        return Ok([]), [];
      }
      UpToIsPrefix(rows, cutoff);
      var found;
      found, best := BestInOrder(lex, tokens, UpTo(rows, cutoff), limit);
      return Ok(found), best;
    }

    method SetArchived(owner: string, session: string, archived: bool) returns (r: Result<bool>)
      requires Valid()
      modifies this
      ensures Valid() && turns == old(turns)
      ensures r.Ok? <==> rules.validOwner(owner) && rules.validSession(session)
      ensures r.Ok? ==> r.value == old(Owns(owner, session))
      ensures r == Ok(true) ==>
                sessions == old(sessions)[session := old(sessions)[session].(archived := archived)]
      ensures r != Ok(true) ==> sessions == old(sessions)
    {
      if !rules.validOwner(owner) || !rules.validSession(session) {
        return Error(InvalidIdentifier);
      }
      if Owns(owner, session) {
        sessions := sessions[session := sessions[session].(archived := archived)];
        return Ok(true);
      }
      return Ok(false);
    }

    /** Removing a session removes its rows with it. */
    method Delete(owner: string, session: string) returns (r: Result<bool>)
      requires Valid()
      modifies this
      ensures Valid()
      ensures r.Ok? <==> rules.validOwner(owner) && rules.validSession(session)
      ensures r.Ok? ==> r.value == old(Owns(owner, session))
      ensures r == Ok(true) ==>
                && session !in turns
                && sessions == old(sessions) - {session} && turns == old(turns) - {session}
      ensures r != Ok(true) ==> sessions == old(sessions) && turns == old(turns)
    {
      if !rules.validOwner(owner) || !rules.validSession(session) {
        return Error(InvalidIdentifier);
      }
      if Owns(owner, session) {
        sessions := sessions - {session};
        turns := turns - {session};
        return Ok(true);
      }
      return Ok(false);
    }
  }

  /** The best few matches among numbered rows, listed in conversation order. */
  method BestInOrder(lex: Lexicon, tokens: set<string>, rows: seq<Turn>, limit: nat)
    returns (found: seq<Turn>, ghost best: seq<Scored<Turn>>)
    requires Numbered(rows, 1)
    ensures IsBest(best, Matches(lex, tokens, rows), limit) && InOrder(best) && found == Items(best)
  {
    hide IsBest, Matches;
    var scored := Score(lex, tokens, rows);
    MatchesInOrder(lex, tokens, rows, 1);
    var ranked := SortBestFirst(scored);
    var top := if |ranked| <= limit then ranked else ranked[..limit];
    TopIsBest(ranked, scored, limit);
    assert Distinct(top) by {
      BestAreDistinct(top, scored, limit);
    }
    var ordered := SortInOrder(top);
    BestAfterReordering(ordered, top, scored, limit);
    found, best := Items(ordered), ordered;
  }

  lemma BestAreDistinct(top: seq<Scored<Turn>>, scored: seq<Scored<Turn>>, limit: nat)
    requires IsBest(top, scored, limit)
    ensures Distinct(top)
  {
  }
}
