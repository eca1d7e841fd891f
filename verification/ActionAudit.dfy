/** Content-free audit rows, and the sanitiser that runs over whatever rows an older version left. */
module ActionAudit {
  import opened Options
  import opened ActionPolicy

  /** What a column of an untyped row may hold. */
  datatype Cell = Null | Text(s: string) | Other(n: int)

  datatype Row = Row(
    auditId: Cell, actorId: Cell, actor: Cell, sessionId: Cell, taskId: Cell, action: Cell, resourceRef: Cell,
    destination: Cell, outcome: Cell, reason: Cell, resultStatus: Cell, resultCode: Cell)

  datatype ResultStatus = Success | Failed | Cancelled

  datatype Result = Ok | Refused(reason: string)

  function ActorName(actor: Actor): string {
    match actor
    case Owner => "owner"
    case Guest => "guest"
    case System => "system"
    case Unknown => "unknown"
  }

  function OutcomeName(outcome: PolicyOutcome): string {
    match outcome
    case Allow => "allow"
    case RequireConfirmation => "require_confirmation"
    case Deny => "deny"
  }

  function StatusName(status: ResultStatus): string {
    match status
    case Success => "success"
    case Failed => "failed"
    case Cancelled => "cancelled"
  }

  /** The names in a row tell who acted and what came of it. */
  lemma ColumnsTell(actor: Actor, status: ResultStatus)
    ensures ActorName(actor) == "owner" <==> actor.Owner?
    ensures ActorName(actor) == "guest" <==> actor.Guest?
    ensures ActorName(actor) == "system" <==> actor.System?
    ensures StatusName(status) == "success" <==> status.Success?
    ensures StatusName(status) == "failed" <==> status.Failed?
  {
    var owner, guest, system, success, failed := "owner", "guest", "system", "success", "failed";
    assert owner[0] == 'o' && guest[0] == 'g' && system[1] == 'y' && success[1] == 'u' && failed[0] == 'f';
  }

  const ACTOR_NAMES: set<string> := {"owner", "guest", "system", "unknown"}
  const OUTCOME_NAMES: set<string> := {"allow", "require_confirmation", "deny"}
  const STATUS_NAMES: set<string> := {"success", "failed", "cancelled"}
  const DIGEST_PREFIX := "sha256."

  /** The prefix, then 64 lower-case hexadecimal digits. */
  predicate IsResourceReference(s: string) {
    && |s| == 71 && DIGEST_PREFIX <= s
    && forall i | 7 <= i < 71 :: '0' <= s[i] <= '9' || 'a' <= s[i] <= 'f'
  }

  function Maybe(value: Option<string>): Cell {
    if value.Some? then Text(value.value) else Null
  }

  // ---------- The sanitiser, one row at a time ----------

  predicate IsIdentifierCell(cell: Cell) {
    cell.Text? && IsIdentifier(cell.s)
  }

  function IdentifierOrNull(cell: Cell): Cell {
    if IsIdentifierCell(cell) then cell else Null
  }

  function OneOf(cell: Cell, names: set<string>, fallback: Cell): Cell {
    if cell.Text? && cell.s in names then cell else fallback
  }

  function ActorIdentifierOr(cell: Cell): Cell {
    if cell.Text? && IsActorIdentifier(cell.s) then cell else Text("invalid")
  }

  function Sanitized(row: Row, newId: string): Row {
    Row(
      if IsIdentifierCell(row.auditId) then row.auditId else Text(newId),
      ActorIdentifierOr(row.actorId),
      OneOf(row.actor, ACTOR_NAMES, Text("unknown")),
      ActorIdentifierOr(row.sessionId),
      IdentifierOrNull(row.taskId),
      if IsIdentifierCell(row.action) then row.action else Text("invalid_action"),
      if row.resourceRef.Text? && IsResourceReference(row.resourceRef.s) then row.resourceRef else Null,
      IdentifierOrNull(row.destination),
      OneOf(row.outcome, OUTCOME_NAMES, Text("deny")),
      if IsIdentifierCell(row.reason) then row.reason else Text("legacy_record"),
      OneOf(row.resultStatus, STATUS_NAMES, Null),
      IdentifierOrNull(row.resultCode))
  }

  /** A row the sanitiser has nothing to change in. */
  predicate IsSound(row: Row) {
    && IsIdentifierCell(row.auditId)
    && row.actorId.Text? && IsActorIdentifier(row.actorId.s)
    && row.actor.Text? && row.actor.s in ACTOR_NAMES
    && row.sessionId.Text? && IsActorIdentifier(row.sessionId.s)
    && (row.taskId == Null || IsIdentifierCell(row.taskId))
    && IsIdentifierCell(row.action)
    && (row.resourceRef == Null || (row.resourceRef.Text? && IsResourceReference(row.resourceRef.s)))
    && (row.destination == Null || IsIdentifierCell(row.destination))
    && row.outcome.Text? && row.outcome.s in OUTCOME_NAMES
    && IsIdentifierCell(row.reason)
    && (row.resultStatus == Null || (row.resultStatus.Text? && row.resultStatus.s in STATUS_NAMES))
    && (row.resultCode == Null || IsIdentifierCell(row.resultCode))
  }

  lemma FallbacksAreIdentifiers()
    ensures IsActorIdentifier("invalid") && IsIdentifier("invalid_action") && IsIdentifier("legacy_record")
  {
  }

  /** One pass makes a row sound, and sound rows are exactly the ones a pass leaves alone. */
  lemma {:induction false} SanitizedIsSound(row: Row, newId: string)
    requires IsIdentifier(newId)
    ensures IsSound(Sanitized(row, newId))
    ensures IsSound(row) <==> Sanitized(row, newId) == row
  {
    FallbacksAreIdentifiers();
    hide Matches, IsResourceReference;
  }

  /** A cell that is well formed is kept, and any other is replaced by this. */
  ghost predicate IsKeptOr(before: Cell, after: Cell, isWellFormed: bool, fallback: Cell) {
    after == if isWellFormed then before else fallback
  }

  predicate IsNamed(cell: Cell, names: set<string>) {
    cell.Text? && cell.s in names
  }

  /** What a pass keeps of a row, cell by cell: what is malformed is denied, disowned or dropped, never invented. */
  lemma SanitizedCells(row: Row, newId: string)
    ensures var r := Sanitized(row, newId);
      && IsKeptOr(row.outcome, r.outcome, IsNamed(row.outcome, {"allow", "require_confirmation", "deny"}), Text("deny"))
      && IsKeptOr(row.actor, r.actor, IsNamed(row.actor, {"owner", "guest", "system", "unknown"}), Text("unknown"))
      && IsKeptOr(row.actorId, r.actorId, row.actorId.Text? && IsActorIdentifier(row.actorId.s), Text("invalid"))
      && IsKeptOr(
           row.sessionId, r.sessionId, row.sessionId.Text? && IsActorIdentifier(row.sessionId.s), Text("invalid"))
      && IsKeptOr(row.auditId, r.auditId, IsIdentifierCell(row.auditId), Text(newId))
      && IsKeptOr(row.action, r.action, IsIdentifierCell(row.action), Text("invalid_action"))
      && IsKeptOr(row.reason, r.reason, IsIdentifierCell(row.reason), Text("legacy_record"))
      && IsKeptOr(row.resultStatus, r.resultStatus, IsNamed(row.resultStatus, {"success", "failed", "cancelled"}), Null)
      && IsKeptOr(
           row.resourceRef, r.resourceRef, row.resourceRef.Text? && IsResourceReference(row.resourceRef.s), Null)
      && IsKeptOr(row.taskId, r.taskId, IsIdentifierCell(row.taskId), Null)
      && IsKeptOr(row.destination, r.destination, IsIdentifierCell(row.destination), Null)
      && IsKeptOr(row.resultCode, r.resultCode, IsIdentifierCell(row.resultCode), Null)
  {
    hide Matches, IsResourceReference;
  }

  // ---------- The sanitiser over the table ----------

  /** Identifiers are a key, except that the table admits any number of rows without one. */
  ghost predicate IsKeyed(rows: seq<Row>) {
    forall i, j | 0 <= i < j < |rows| && rows[i].auditId != Null :: rows[i].auditId != rows[j].auditId
  }

  /** The identifiers generated for these rows are well formed, do not repeat, and are not in the table. */
  ghost predicate AreFresh(newId: nat -> string, rows: seq<Row>) {
    && (forall i: nat | i < |rows| :: IsIdentifier(newId(i)))
    && (forall i: nat, j: nat | i < j < |rows| :: newId(i) != newId(j))
    && (forall i: nat, k: nat | i < |rows| && k < |rows| :: rows[k].auditId != Text(newId(i)))
  }

  const LEGACY_PREFIX := "legacy."

  function LegacyId(i: nat): (id: string)
    ensures |id| == 7 + i && LEGACY_PREFIX <= id
    ensures i <= 73 ==> IsIdentifier(id)
  {
    LEGACY_PREFIX + seq(i, _ => '0')
  }

  /** A table that was never sanitised has fresh identifiers: here for any table of up to 73 rows. */
  lemma FreshIdsExist(rows: seq<Row>)
    requires |rows| <= 73
    requires forall k | 0 <= k < |rows| && rows[k].auditId.Text? :: !(LEGACY_PREFIX <= rows[k].auditId.s)
    ensures AreFresh(LegacyId, rows)
  {
    hide Matches;
    forall i: nat, j: nat | i < j < |rows| ensures LegacyId(i) != LegacyId(j) {
      assert |LegacyId(i)| != |LegacyId(j)|;
    }
  }

  /** An update by identifier; no row matches a missing one. */
  function UpdateWhere(rows: seq<Row>, auditId: Cell, row: Row): (r: seq<Row>)
    ensures |r| == |rows|
  {
    seq(|rows|, i requires 0 <= i < |rows| =>
      if auditId != Null && rows[i].auditId == auditId then row else rows[i])
  }

  /** What a pass makes of each row: a row without identifier escapes it. */
  ghost function AfterPass(row: Row, newId: string): Row {
    if row.auditId == Null then row else Sanitized(row, newId)
  }

  method SanitizeLegacyRows(rows: seq<Row>, newId: nat -> string) returns (after: seq<Row>, changed: bool)
    requires IsKeyed(rows) && AreFresh(newId, rows)
    ensures |after| == |rows|
    ensures forall i | 0 <= i < |rows| :: after[i] == AfterPass(rows[i], newId(i))
    ensures changed <==> exists i :: 0 <= i < |rows| && !IsSound(rows[i])
    ensures IsKeyed(after)
  {
    hide Matches, IsResourceReference, Sanitized, IsSound;
    after, changed := rows, false;
    for k := 0 to |rows|
      invariant |after| == |rows|
      invariant forall i | 0 <= i < k :: after[i] == AfterPass(rows[i], newId(i))
      invariant forall i | k <= i < |rows| :: after[i] == rows[i]
      invariant changed <==> exists i :: 0 <= i < k && !IsSound(rows[i])
    {
      var updates := Sanitized(rows[k], newId(k));
      SanitizedIsSound(rows[k], newId(k));
      if updates != rows[k] {
        KeyOfPassedRows(rows, newId, k);
        after := UpdateWhere(after, rows[k].auditId, updates);
        changed := true;
      }
    }
    PassedRowsAreKeyed(rows, after, newId);
  }

  /** Identifiers that were kept stay distinct, and the generated ones differ from them and each other. */
  lemma PassedRowsAreKeyed(rows: seq<Row>, after: seq<Row>, newId: nat -> string)
    requires IsKeyed(rows) && AreFresh(newId, rows) && |after| == |rows|
    requires forall i | 0 <= i < |rows| :: after[i] == AfterPass(rows[i], newId(i))
    ensures IsKeyed(after)
  {
    hide Matches;
    forall i, j | 0 <= i < j < |after| && after[i].auditId != Null ensures after[i].auditId != after[j].auditId {
      assert rows[i].auditId != Null;
      assert after[i].auditId == rows[i].auditId || after[i].auditId == Text(newId(i));
      assert after[j].auditId == rows[j].auditId || after[j].auditId == Text(newId(j));
    }
  }

  lemma KeyOfPassedRows(rows: seq<Row>, newId: nat -> string, k: nat)
    requires IsKeyed(rows) && AreFresh(newId, rows) && k < |rows|
    ensures rows[k].auditId != Null ==>
              && (forall i | 0 <= i < k :: AfterPass(rows[i], newId(i)).auditId != rows[k].auditId)
              && (forall i | k < i < |rows| :: rows[i].auditId != rows[k].auditId)
  {
    hide Matches;
  }

  ghost predicate HasUnkeyedRow(rows: seq<Row>) {
    exists i :: 0 <= i < |rows| && rows[i].auditId == Null
  }

  /**
   A second pass never changes the table, and it reports no change, with every row sound, exactly when
   no row lacks an identifier.
   */
  lemma {:induction false} SecondPass(
    rows: seq<Row>, after: seq<Row>, newId: nat -> string, newerId: nat -> string)
    requires IsKeyed(rows) && AreFresh(newId, rows) && AreFresh(newerId, after)
    requires |after| == |rows| && forall i | 0 <= i < |rows| :: after[i] == AfterPass(rows[i], newId(i))
    ensures forall i | 0 <= i < |after| :: AfterPass(after[i], newerId(i)) == after[i]
    ensures (forall i | 0 <= i < |after| :: IsSound(after[i])) <==> !HasUnkeyedRow(rows)
  {
    hide Matches, IsResourceReference, Sanitized;
    forall i | 0 <= i < |rows|
      ensures AfterPass(after[i], newerId(i)) == after[i]
      ensures IsSound(after[i]) <==> rows[i].auditId != Null
    {
      SanitizedIsSound(rows[i], newId(i));
      SanitizedIsSound(after[i], newerId(i));
      hide IsSound;
      assert rows[i].auditId == Null ==> !IsIdentifierCell(after[i].auditId);
    }
    if HasUnkeyedRow(rows) {
      var i :| 0 <= i < |rows| && rows[i].auditId == Null;
      assert !IsSound(after[i]);
    }
  }

  /** Such a row survives every pass unsound: the update by identifier never reaches it. */
  lemma {:induction false} UnkeyedRowEscapes(row: Row, newId: string)
    requires row.auditId == Null && IsIdentifier(newId)
    ensures AfterPass(row, newId) == row && !IsSound(row) && IsSound(Sanitized(row, newId))
  {
    SanitizedIsSound(row, newId);
  }

  // ---------- The store ----------

  predicate IsAudited(rows: seq<Row>, auditId: string) {
    exists i :: 0 <= i < |rows| && rows[i].auditId == Text(auditId)
  }

  lemma AuditedStays(before: seq<Row>, after: seq<Row>, auditId: string)
    requires |after| == |before| + 1 && after[..|before|] == before && after[|before|].auditId == Text(auditId)
    ensures forall id :: IsAudited(after, id) <==> IsAudited(before, id) || id == auditId
  {
    assert forall i | 0 <= i < |before| :: after[i] == before[i];
  }

  class ActionAuditStore {
    var rows: seq<Row>

    /** Every row is sound and findable by its own identifier. */
    ghost predicate Valid()
      reads this
    {
      && (forall i | 0 <= i < |rows| :: IsSound(rows[i]))
      && (forall i, j | 0 <= i < j < |rows| :: rows[i].auditId != rows[j].auditId)
    }

    constructor ()
      ensures Valid() && rows == []
    {
      rows := [];
    }

    predicate Has(auditId: string)
      reads this
    {
      IsAudited(rows, auditId)
    }

    /** Writes one row; malformed parts are refused, and so is an identifier that is a key already. */
    method RecordDecision(
      actor: ActorArg, taskId: Option<string>, action: string, resourceRef: Option<string>,
      destination: Option<string>, outcome: PolicyOutcome, reason: string, auditId: string)
      returns (r: Result)
      requires Valid() && IsIdentifier(auditId)
      modifies this
      ensures Valid()
      ensures r.Ok? <==>
                && !old(Has(auditId))
                && ValidActor(actor) && IsIdentifier(action) && IsIdentifier(reason)
                && (taskId.Some? ==> IsIdentifier(taskId.value))
                && (resourceRef.Some? ==> IsResourceReference(resourceRef.value))
                && (destination.Some? ==> IsIdentifier(destination.value))
      ensures r.Ok? ==>
                rows == old(rows) + [Row(
                  Text(auditId), Text(actor.actorId.s), Text(ActorName(actor.actor.actor)), Text(actor.sessionId.s),
                  Maybe(taskId), Text(action), Maybe(resourceRef), Maybe(destination), Text(OutcomeName(outcome)),
                  Text(reason), Null, Null)]
      ensures r.Refused? ==> rows == old(rows)
    {
      hide Matches, IsResourceReference;
      if !ValidActor(actor) {
        return Refused("invalid_actor");
      }
      if !IsIdentifier(action) {
        return Refused("invalid_action");
      }
      if !IsIdentifier(reason) {
        return Refused("invalid_reason");
      }
      if taskId.Some? && !IsIdentifier(taskId.value) {
        return Refused("invalid_task_id");
      }
      if resourceRef.Some? && !IsResourceReference(resourceRef.value) {
        return Refused("invalid_resource_ref");
      }
      if destination.Some? && !IsIdentifier(destination.value) {
        return Refused("invalid_destination");
      }
      if Has(auditId) {
        return Refused("duplicate_audit_id");
      }
      rows := rows + [Row(
        Text(auditId), Text(actor.actorId.s), Text(ActorName(actor.actor.actor)), Text(actor.sessionId.s),
        Maybe(taskId), Text(action), Maybe(resourceRef), Maybe(destination), Text(OutcomeName(outcome)),
        Text(reason), Null, Null)];
      return Ok;
    }

    /** Settles a recorded decision; an unknown identifier or an unstable code is refused. */
    method RecordResult(auditId: string, status: ResultStatus, code: Option<string>) returns (r: Result)
      requires Valid()
      modifies this
      ensures Valid() && |rows| == |old(rows)|
      ensures r.Ok? <==> (code.Some? ==> IsIdentifier(code.value)) && old(Has(auditId))
      ensures r.Refused? ==> rows == old(rows)
      ensures forall i | 0 <= i < |rows| :: rows[i].auditId == old(rows)[i].auditId
      ensures r.Ok? ==>
                forall i | 0 <= i < |rows| ::
                  rows[i] == if old(rows)[i].auditId == Text(auditId)
                             then old(rows)[i].(resultStatus := Text(StatusName(status)), resultCode := Maybe(code))
                             else old(rows)[i]
    {
      hide Matches, IsResourceReference;
      if code.Some? && !IsIdentifier(code.value) {
        return Refused("invalid_result_code");
      }
      for k := 0 to |rows|
        invariant rows == old(rows)
        invariant forall i | 0 <= i < k :: rows[i].auditId != Text(auditId)
      {
        if rows[k].auditId == Text(auditId) {
          rows := rows[k := rows[k].(resultStatus := Text(StatusName(status)), resultCode := Maybe(code))];
          return Ok;
        }
      }
      return Refused("audit record not found");
    }

    /** Rows this store wrote pass through the sanitiser untouched. */
    lemma {:induction false} WrittenRowsAreSound(newId: nat -> string, i: nat)
      requires Valid() && i < |rows| && IsIdentifier(newId(i))
      ensures Sanitized(rows[i], newId(i)) == rows[i]
    {
      SanitizedIsSound(rows[i], newId(i));
    }
  }
}
