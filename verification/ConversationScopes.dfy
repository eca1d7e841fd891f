/** Runs over many scopes: what happens in one scope depends on the operations on that scope alone. */
module ConversationScopes {
  import opened Text
  import opened ConversationContext

  ghost function Run(lex: Lexicon, views: Views, ops: seq<Op>): Views {
    if ops == [] then views
    else Step(lex, Run(lex, views, ops[..|ops| - 1]), ops[|ops| - 1])
  }

  /** An operation touches the scope it names, or every scope its actor and session select. */
  predicate Touches(op: Op, scope: Scope) {
    match op
    case RecordOp(s, _, _) => s == scope
    case NoteToolOp(s, _, _) => s == scope
    case RestoreOp(s, _) => s == scope
    case ClearOp(s) => s == scope
    case ClearActorSessionOp(actorId, sessionId) => InActorSession(scope, actorId, sessionId)
    case ClearGuestsOp(actorId, sessionId) => InActorSession(scope, actorId, sessionId) && scope.guest
  }

  function Restrict(ops: seq<Op>, scope: Scope): seq<Op> {
    if ops == [] then []
    else
      var front := Restrict(ops[..|ops| - 1], scope);
      if Touches(ops[|ops| - 1], scope) then front + [ops[|ops| - 1]] else front
  }

  ghost predicate SameAt(a: Views, b: Views, scope: Scope) {
    && (scope in a <==> scope in b)
    && (scope in a ==> a[scope] == b[scope])
  }

  lemma {:induction false} RecordedPairsElsewhere(
    lex: Lexicon, views: Views, scope: Scope, pairs: seq<Pair>, other: Scope)
    requires other != scope
    ensures SameAt(RecordedPairs(lex, views, scope, pairs), views, other)
  {
    if pairs != [] {
      RecordedPairsElsewhere(lex, views, scope, pairs[..|pairs| - 1], other);
    }
  }

  lemma {:induction false} RecordedPairsAgree(lex: Lexicon, a: Views, b: Views, scope: Scope, pairs: seq<Pair>)
    requires SameAt(a, b, scope)
    ensures SameAt(RecordedPairs(lex, a, scope, pairs), RecordedPairs(lex, b, scope, pairs), scope)
  {
    if pairs != [] {
      RecordedPairsAgree(lex, a, b, scope, pairs[..|pairs| - 1]);
    }
  }

  lemma RecordedAgrees(lex: Lexicon, a: Views, b: Views, scope: Scope, user: string, assistant: string)
    requires SameAt(a, b, scope)
    ensures SameAt(Recorded(lex, a, scope, user, assistant), Recorded(lex, b, scope, user, assistant), scope)
  {
    hide Bounded;
  }

  lemma ToolNotedAgrees(
    lex: Lexicon, a: Views, b: Views, scope: Scope, kind: string, slots: seq<(string, string)>)
    requires SameAt(a, b, scope)
    ensures SameAt(ToolNoted(lex, a, scope, kind, slots), ToolNoted(lex, b, scope, kind, slots), scope)
  {
    hide Bounded;
  }

  lemma RestoredAgrees(lex: Lexicon, a: Views, b: Views, scope: Scope, pairs: seq<Pair>)
    requires SameAt(a, b, scope)
    ensures SameAt(Restored(lex, a, scope, pairs), Restored(lex, b, scope, pairs), scope)
  {
    hide Recorded;
    var newest := LastN(pairs, MAX_SESSION_PAIRS + MAX_ARCHIVE_PAIRS);
    RecordedPairsAgree(lex, a - {scope}, b - {scope}, scope, newest);
  }

  lemma StepElsewhere(lex: Lexicon, views: Views, op: Op, scope: Scope)
    requires !Touches(op, scope)
    ensures SameAt(Step(lex, views, op), views, scope)
  {
    hide Bounded;
    if op.RestoreOp? {
      var newest := LastN(op.pairs, MAX_SESSION_PAIRS + MAX_ARCHIVE_PAIRS);
      RecordedPairsElsewhere(lex, views - {op.scope}, op.scope, newest, scope);
    }
  }

  lemma StepAgrees(lex: Lexicon, a: Views, b: Views, op: Op, scope: Scope)
    requires Touches(op, scope) && SameAt(a, b, scope)
    ensures SameAt(Step(lex, a, op), Step(lex, b, op), scope)
  {
    hide Recorded, ToolNoted, Restored;
    match op
    case RecordOp(_, user, assistant) => RecordedAgrees(lex, a, b, scope, user, assistant);
    case NoteToolOp(_, kind, slots) => ToolNotedAgrees(lex, a, b, scope, kind, slots);
    case RestoreOp(_, pairs) => RestoredAgrees(lex, a, b, scope, pairs);
    case _ =>
  }

  /** Leaving out every operation on other scopes changes nothing in this one. */
  lemma {:induction false} ScopesDoNotInterfere(lex: Lexicon, views: Views, ops: seq<Op>, scope: Scope)
    ensures SameAt(Run(lex, views, ops), Run(lex, views, Restrict(ops, scope)), scope)
  {
    if ops != [] {
      var front, op := ops[..|ops| - 1], ops[|ops| - 1];
      ScopesDoNotInterfere(lex, views, front, scope);
      if Touches(op, scope) {
        var kept := Restrict(front, scope);
        assert (kept + [op])[..|kept|] == kept;
        StepAgrees(lex, Run(lex, views, front), Run(lex, views, kept), op, scope);
      } else {
        StepElsewhere(lex, Run(lex, views, front), op, scope);
      }
    }
  }

  // ---------- Where a turn comes from ----------

  /** The operation puts these two texts into this very scope. */
  ghost predicate Supplies(lex: Lexicon, op: Op, scope: Scope, turn: Turn) {
    match op
    case RecordOp(s, user, assistant) =>
      s == scope && turn.user == TurnText(lex, user) && turn.assistant == TurnText(lex, assistant)
    case RestoreOp(s, pairs) =>
      && s == scope
      && exists i :: 0 <= i < |pairs| && pairs[i].Pair?
                     && turn.user == TurnText(lex, pairs[i].user)
                     && turn.assistant == TurnText(lex, pairs[i].assistant)
    case _ => false
  }

  lemma {:induction false} RestoredTurnsAreSupplied(
    lex: Lexicon, views: Views, scope: Scope, all: seq<Pair>, pairs: seq<Pair>, turn: Turn)
    requires scope !in views && (forall p | p in pairs :: p in all)
    requires turn in HistoryOf(RecordedPairs(lex, views, scope, pairs), scope)
    ensures Supplies(lex, RestoreOp(scope, all), scope, turn)
  {
    hide TurnText, Bounded;
    if pairs != [] {
      var front, last := pairs[..|pairs| - 1], pairs[|pairs| - 1];
      if turn in HistoryOf(RecordedPairs(lex, views, scope, front), scope) {
        RestoredTurnsAreSupplied(lex, views, scope, all, front, turn);
      } else {
        assert last in pairs;
        var i :| 0 <= i < |all| && all[i] == last;
        assert all[i].Pair?;
      }
    }
  }

  /** Every turn a scope holds was put there by a record or a restore of that same scope. */
  lemma {:induction false} TurnsComeFromTheirScope(lex: Lexicon, ops: seq<Op>, scope: Scope, turn: Turn)
    requires turn in HistoryOf(Run(lex, map[], ops), scope)
    ensures exists i :: 0 <= i < |ops| && Supplies(lex, ops[i], scope, turn)
  {
    var front, op := ops[..|ops| - 1], ops[|ops| - 1];
    var before := Run(lex, map[], front);
    if turn in HistoryOf(before, scope) {
      TurnsComeFromTheirScope(lex, front, scope, turn);
      var i :| 0 <= i < |front| && Supplies(lex, front[i], scope, turn);
      assert ops[i] == front[i];
    } else {
      if !Touches(op, scope) {
        StepElsewhere(lex, before, op, scope);
      }
      if op.RestoreOp? {
        var newest := LastN(op.pairs, MAX_SESSION_PAIRS + MAX_ARCHIVE_PAIRS);
        RestoredTurnsAreSupplied(lex, before - {scope}, scope, op.pairs, newest, turn);
      }
      assert Supplies(lex, ops[|ops| - 1], scope, turn);
    }
  }

  /** A guest scope never holds what was recorded or restored for a scope that is not a guest's. */
  lemma {:induction false} GuestsNeverSeeOwnerTurns(lex: Lexicon, ops: seq<Op>, guest: Scope, turn: Turn)
    requires guest.guest && turn in HistoryOf(Run(lex, map[], ops), guest)
    ensures exists i :: 0 <= i < |ops| && Supplies(lex, ops[i], guest, turn) && Touches(ops[i], guest)
                        && (ops[i].RecordOp? || ops[i].RestoreOp?) && ops[i].scope.guest
  {
    TurnsComeFromTheirScope(lex, ops, guest, turn);
  }
}
