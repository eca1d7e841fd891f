/**
 One-use approval grants. The table is accompanied by a ghost log of everything that ever happened
 to it, and the store's invariant ties every row to its own history.
 */
module Grants {
  import opened Options
  import opened ActionPolicy

  datatype Result<T> = Ok(value: T) | Error(reason: string)

  datatype Instant = At(t: real) | NotFinite

  datatype Grant = Grant(
    actorId: string, actor: Actor, sessionId: string, action: string, resource: Option<string>,
    destination: Option<string>, taskId: Option<string>, expiresAt: real, remainingUses: int, revoked: bool)

  /** What a grant was spent on, and when. */
  datatype Use = Use(
    actorId: string, actor: Actor, sessionId: string, action: string, resource: Option<string>,
    destination: Option<string>, taskId: Option<string>, at: real)

  datatype Event =
    | Issued(id: string, grant: Grant)
    | Revoked(id: string)
    | Spent(id: string, use: Use)

  datatype Refusal =
    | InvalidActor | InvalidResource | InvalidDestination | GrantNotFound | GrantRevoked | GrantExpired
    | GrantConsumed | GrantInvalidUses | GrantActorMismatch | GrantActionMismatch | GrantResourceMismatch
    | GrantDestinationMismatch | GrantTaskMismatch

  const SEND_DOCUMENT := "provider.send_document"

  // ---------- What a log means ----------

  ghost predicate Covers(grant: Grant, use: Use) {
    && grant.actorId == use.actorId && grant.actor == use.actor && grant.sessionId == use.sessionId
    && grant.action == use.action && grant.resource == use.resource
    && grant.destination == use.destination && grant.taskId == use.taskId
    && use.at < grant.expiresAt
  }

  ghost predicate IssuedIn(log: seq<Event>, id: string) {
    exists i :: 0 <= i < |log| && log[i].Issued? && log[i].id == id
  }

  ghost predicate RevokedIn(log: seq<Event>, id: string) {
    exists i :: 0 <= i < |log| && log[i].Revoked? && log[i].id == id
  }

  ghost predicate SpentIn(log: seq<Event>, id: string) {
    exists i :: 0 <= i < |log| && log[i].Spent? && log[i].id == id
  }

  /** The event at position i is a use of a grant issued before it on exactly these terms. */
  ghost predicate IsCovered(log: seq<Event>, i: nat)
    requires i < |log| && log[i].Spent?
  {
    exists j :: 0 <= j < i && log[j].Issued? && log[j].id == log[i].id && Covers(log[j].grant, log[i].use)
  }

  /**
   Every use is of a grant issued earlier on the same terms and not yet expired, comes after no
   revocation of it, and is its only use; identifiers are issued once.
   */
  ghost predicate IsSafe(log: seq<Event>) {
    && (forall i, j | 0 <= i < j < |log| && log[i].Issued? && log[j].Issued? :: log[i].id != log[j].id)
    && (forall i | 0 <= i < |log| && log[i].Spent? :: IsCovered(log, i))
    && (forall i, j | 0 <= i < j < |log| && log[j].Spent? && (log[i].Revoked? || log[i].Spent?) ::
          log[i].id != log[j].id)
  }

  function Issues(log: seq<Event>): nat {
    if log == [] then 0 else Issues(log[..|log| - 1]) + if log[|log| - 1].Issued? then 1 else 0
  }

  /** The uses of grants, in order. */
  function SpentEvents(log: seq<Event>): (r: seq<Event>)
    ensures forall event | event in r :: event.Spent?
  {
    if log == [] then []
    else
      var last := log[|log| - 1];
      SpentEvents(log[..|log| - 1]) + if last.Spent? then [last] else []
  }

  // ---------- The table as its log determines it ----------

  ghost predicate Records(row: Grant, issued: Grant, log: seq<Event>, id: string) {
    && issued.remainingUses == 1 && !issued.revoked
    && row == issued.(remainingUses := if SpentIn(log, id) then 0 else 1, revoked := RevokedIn(log, id))
  }

  ghost predicate RowFits(rows: map<string, Grant>, log: seq<Event>, i: nat)
    requires i < |log| && log[i].Issued?
  {
    log[i].id in rows && Records(rows[log[i].id], log[i].grant, log, log[i].id)
  }

  ghost predicate AllRowsFit(rows: map<string, Grant>, log: seq<Event>) {
    forall i | 0 <= i < |log| && log[i].Issued? :: RowFits(rows, log, i)
  }

  function Unspent(rows: map<string, Grant>): set<string> {
    set id | id in rows && rows[id].remainingUses > 0
  }

  ghost predicate Reflects(rows: map<string, Grant>, log: seq<Event>) {
    && IsSafe(log)
    && KnowsIds(rows, log)
    && AllRowsFit(rows, log)
    && Issues(log) == |Unspent(rows)| + |SpentEvents(log)|
  }

  lemma AppendedEvent(log: seq<Event>, event: Event)
    ensures (log + [event])[..|log|] == log
    ensures forall id :: SpentIn(log + [event], id) <==> SpentIn(log, id) || (event.Spent? && event.id == id)
    ensures forall id :: RevokedIn(log + [event], id) <==> RevokedIn(log, id) || (event.Revoked? && event.id == id)
    ensures forall id :: IssuedIn(log + [event], id) <==> IssuedIn(log, id) || (event.Issued? && event.id == id)
    ensures forall i | 0 <= i < |log| && log[i].Spent? :: IsCovered(log, i) ==> IsCovered(log + [event], i)
  {
    var longer := log + [event];
    assert longer[|log|] == event;
    assert forall i | 0 <= i < |log| :: longer[i] == log[i];
  }

  lemma FindIssue(rows: map<string, Grant>, log: seq<Event>, id: string) returns (i: nat)
    requires Reflects(rows, log) && id in rows
    ensures i < |log| && log[i].Issued? && log[i].id == id && Records(rows[id], log[i].grant, log, id)
  {
    assert IssuedIn(log, id);
    i :| 0 <= i < |log| && log[i].Issued? && log[i].id == id;
    assert RowFits(rows, log, i);
  }

  lemma SafeAfter(log: seq<Event>, event: Event)
    requires IsSafe(log)
    requires event.Issued? ==> !IssuedIn(log, event.id)
    requires event.Spent? ==>
               && !SpentIn(log, event.id) && !RevokedIn(log, event.id)
               && exists j :: 0 <= j < |log| && log[j].Issued? && log[j].id == event.id
                            && Covers(log[j].grant, event.use)
    ensures IsSafe(log + [event])
  {
    hide Covers;
    var longer := log + [event];
    AppendedEvent(log, event);
    if event.Spent? {
      var j :| 0 <= j < |log| && log[j].Issued? && log[j].id == event.id && Covers(log[j].grant, event.use);
      assert longer[j] == log[j] && IsCovered(longer, |log|);
    }
  }

  lemma RowsFitAfter(rows: map<string, Grant>, log: seq<Event>, event: Event, row: Grant)
    requires AllRowsFit(rows, log)
    requires if event.Issued? then row == event.grant && event.id !in rows && row.remainingUses == 1 && !row.revoked
                                   && !SpentIn(log, event.id) && !RevokedIn(log, event.id)
             else event.id in rows
                  && row == if event.Spent? then rows[event.id].(remainingUses := 0)
                            else rows[event.id].(revoked := true)
    ensures AllRowsFit(rows[event.id := row], log + [event])
  {
    var after := rows[event.id := row];
    AppendedEvent(log, event);
    forall i | 0 <= i < |log| && log[i].Issued? ensures RowFits(after, log + [event], i) {
      assert RowFits(rows, log, i);
    }
    if event.Issued? {
      assert RowFits(after, log + [event], |log|);
    }
  }

  lemma CountsAfter(log: seq<Event>, event: Event)
    ensures Issues(log + [event]) == Issues(log) + if event.Issued? then 1 else 0
    ensures SpentEvents(log + [event]) == SpentEvents(log) + if event.Spent? then [event] else []
  {
    assert (log + [event])[..|log|] == log;
  }

  lemma NeverSeen(rows: map<string, Grant>, log: seq<Event>, id: string)
    requires Reflects(rows, log) && id !in rows
    ensures !SpentIn(log, id) && !RevokedIn(log, id) && !IssuedIn(log, id)
  {
    hide IsSafe;
    forall i | 0 <= i < |log| ensures log[i].id != id {
      if log[i].Issued? {
        assert RowFits(rows, log, i);
      }
    }
  }

  ghost predicate KnowsIds(rows: map<string, Grant>, log: seq<Event>) {
    && (forall id | id in rows :: IssuedIn(log, id))
    && (forall i | 0 <= i < |log| && !log[i].Issued? :: log[i].id in rows)
  }

  lemma KnowsIdsAfter(rows: map<string, Grant>, log: seq<Event>, event: Event, row: Grant)
    requires KnowsIds(rows, log) && (event.Issued? || event.id in rows)
    ensures KnowsIds(rows[event.id := row], log + [event])
  {
    AppendedEvent(log, event);
  }

  lemma ReflectsIssue(rows: map<string, Grant>, log: seq<Event>, id: string, grant: Grant)
    requires Reflects(rows, log) && id !in rows && grant.remainingUses == 1 && !grant.revoked
    ensures Reflects(rows[id := grant], log + [Issued(id, grant)])
  {
    var event := Issued(id, grant);
    var after := rows[id := grant];
    NeverSeen(rows, log, id);
    hide IsSafe, AllRowsFit, KnowsIds, Issues, SpentEvents, SpentIn, RevokedIn, IssuedIn;
    assert Unspent(after) == Unspent(rows) + {id};
    SafeAfter(log, event);
    RowsFitAfter(rows, log, event, after[id]);
    CountsAfter(log, event);
    KnowsIdsAfter(rows, log, event, grant);
  }

  lemma ReflectsRevoke(rows: map<string, Grant>, log: seq<Event>, id: string)
    requires Reflects(rows, log) && id in rows
    ensures Reflects(rows[id := rows[id].(revoked := true)], log + [Revoked(id)])
  {
    var event := Revoked(id);
    var after := rows[id := rows[id].(revoked := true)];
    hide IsSafe, AllRowsFit, KnowsIds, Issues, SpentEvents, SpentIn, RevokedIn, IssuedIn;
    assert Unspent(after) == Unspent(rows);
    SafeAfter(log, event);
    RowsFitAfter(rows, log, event, after[id]);
    CountsAfter(log, event);
    KnowsIdsAfter(rows, log, event, after[id]);
  }

  lemma ReflectsSpend(rows: map<string, Grant>, log: seq<Event>, id: string, use: Use)
    requires Reflects(rows, log) && id in rows
    requires Covers(rows[id], use) && rows[id].remainingUses == 1 && !rows[id].revoked
    ensures Reflects(rows[id := rows[id].(remainingUses := 0)], log + [Spent(id, use)])
  {
    var event := Spent(id, use);
    var after := rows[id := rows[id].(remainingUses := 0)];
    var at := FindIssue(rows, log, id);
    assert Covers(log[at].grant, use);
    hide IsSafe, AllRowsFit, KnowsIds, Issues, SpentEvents, SpentIn, RevokedIn, IssuedIn, Covers;
    assert Unspent(after) == Unspent(rows) - {id};
    SafeAfter(log, event);
    RowsFitAfter(rows, log, event, after[id]);
    CountsAfter(log, event);
    KnowsIdsAfter(rows, log, event, after[id]);
  }

  /** No grant backs two uses. */
  lemma {:induction false} SpentIdsAreDistinct(log: seq<Event>)
    requires IsSafe(log)
    ensures forall i, j | 0 <= i < j < |SpentEvents(log)| :: SpentEvents(log)[i].id != SpentEvents(log)[j].id
    ensures forall event | event in SpentEvents(log) :: SpentIn(log, event.id)
  {
    if log != [] {
      var front, last := log[..|log| - 1], log[|log| - 1];
      assert IsSafe(front) by {
        forall i | 0 <= i < |front| && front[i].Spent? ensures IsCovered(front, i) {
          assert IsCovered(log, i);
        }
      }
      SpentIdsAreDistinct(front);
      AppendedEvent(front, last);
      assert front + [last] == log;
      forall event | event in SpentEvents(front) && last.Spent? ensures event.id != last.id {
        var i :| 0 <= i < |front| && front[i].Spent? && front[i].id == event.id;
        assert log[i] == front[i];
      }
    }
  }

  lemma {:induction false} SpentEventHappened(log: seq<Event>, event: Event) returns (i: nat)
    requires event in SpentEvents(log)
    ensures i < |log| && log[i] == event
  {
    var front := log[..|log| - 1];
    i := |front|;
    if log[i] != event {
      i := SpentEventHappened(front, event);
    }
  }

  // ---------- The store ----------

  /** Resolves a resource; None stays None, anything unusable is refused. */
  function CanonicalizeResource(canon: string -> Option<string>, resource: Option<Field>): Result<Option<string>> {
    match resource
    case None => Ok(None)
    case Some(NotStr) => Error("invalid_resource")
    case Some(Str(s)) => if canon(s).None? then Error("invalid_resource") else Ok(canon(s))
  }

  function Text(field: Option<Field>): Option<string> {
    if field.Some? && field.value.Str? then Some(field.value.s) else None
  }

  predicate NullOrIdentifier(field: Option<Field>) {
    field.Some? ==> field.value.Str? && IsIdentifier(field.value.s)
  }

  datatype Terms = Terms(
    actor: ActorArg, action: Field, resource: Option<Field>, destination: Option<Field>, taskId: Option<Field>,
    expiresAt: Instant, remainingUses: int)

  /** The requests for a grant that are honoured. */
  predicate IsIssuable(canon: string -> Option<string>, terms: Terms, now: real) {
    && ValidActor(terms.actor) && (terms.actor.actor.actor.Owner? || terms.actor.actor.actor.Guest?)
    && terms.action.Str? && IsIdentifier(terms.action.s)
    && NullOrIdentifier(terms.taskId) && NullOrIdentifier(terms.destination)
    && (terms.action.s == SEND_DOCUMENT <==> terms.destination.Some?)
    && terms.expiresAt.At? && terms.expiresAt.t > now
    && terms.remainingUses == 1
    && CanonicalizeResource(canon, terms.resource).Ok?
  }

  function GrantFor(canon: string -> Option<string>, terms: Terms, now: real): Grant
    requires IsIssuable(canon, terms, now)
  {
    Grant(terms.actor.actorId.s, terms.actor.actor.actor, terms.actor.sessionId.s, terms.action.s,
          CanonicalizeResource(canon, terms.resource).value, Text(terms.destination), Text(terms.taskId),
          terms.expiresAt.t, terms.remainingUses, false)
  }

  /** A grant that backs this use right now. */
  ghost predicate Consumable(rows: map<string, Grant>, id: string, use: Use) {
    id in rows && Covers(rows[id], use) && rows[id].remainingUses == 1 && !rows[id].revoked
  }

  /** The reason given for a refusal is a reason to refuse. */
  ghost predicate IsReason(refusal: Refusal, rows: map<string, Grant>, id: string, use: Use) {
    match refusal
    case GrantNotFound => id !in rows
    case GrantRevoked => id in rows && rows[id].revoked
    case GrantExpired => id in rows && rows[id].expiresAt <= use.at
    case GrantConsumed => id in rows && rows[id].remainingUses < 1
    case GrantInvalidUses => id in rows && rows[id].remainingUses > 1
    case GrantActorMismatch =>
      id in rows && (rows[id].actorId != use.actorId || rows[id].actor != use.actor
        || rows[id].sessionId != use.sessionId)
    case GrantActionMismatch => id in rows && rows[id].action != use.action
    case GrantResourceMismatch => id in rows && rows[id].resource != use.resource
    case GrantDestinationMismatch => id in rows && rows[id].destination != use.destination
    case GrantTaskMismatch => id in rows && rows[id].taskId != use.taskId
    case _ => false
  }

  class GrantStore {
    const canon: string -> Option<string>
    var rows: map<string, Grant>
    ghost var log: seq<Event>

    ghost predicate Valid()
      reads this
    {
      Reflects(rows, log)
    }

    constructor (canon: string -> Option<string>)
      ensures Valid() && rows == map[] && log == [] && this.canon == canon
    {
      this.canon := canon;
      rows := map[];
      log := [];
      assert Unspent(map[]) == {};
    }

    method Issue(terms: Terms, grantId: string, now: real) returns (r: Result<string>)
      requires Valid()
      modifies this
      ensures Valid()
      ensures r.Ok? <==> IsIssuable(canon, terms, now) && grantId !in old(rows)
      ensures r.Ok? ==>
                && r.value == grantId
                && rows == old(rows)[grantId := GrantFor(canon, terms, now)]
                && log == old(log) + [Issued(grantId, GrantFor(canon, terms, now))]
      ensures r.Error? ==> rows == old(rows) && log == old(log)
      ensures r == Error("duplicate_grant") <==> IsIssuable(canon, terms, now) && grantId in old(rows)
    {
      hide Reflects, IsIdentifier;
      if !ValidActor(terms.actor) || terms.actor.actor.actor.Unknown? || terms.actor.actor.actor.System? {
        return Error("invalid_actor");
      }
      if !terms.action.Str? || !IsIdentifier(terms.action.s) {
        return Error("invalid_action");
      }
      if !NullOrIdentifier(terms.taskId) {
        return Error("invalid_task_id");
      }
      if !NullOrIdentifier(terms.destination) {
        return Error("invalid_destination");
      }
      if terms.action.s == SEND_DOCUMENT && terms.destination.None? {
        return Error("destination_required");
      }
      if terms.action.s != SEND_DOCUMENT && terms.destination.Some? {
        return Error("unexpected_destination");
      }
      if terms.expiresAt.NotFinite? || terms.expiresAt.t <= now {
        return Error("invalid_expiry");
      }
      if terms.remainingUses != 1 {
        return Error("invalid_remaining_uses");
      }
      var resource := CanonicalizeResource(canon, terms.resource);
      if resource.Error? {
        return Error(resource.reason);
      }
      if grantId in rows {
        return Error("duplicate_grant");
      }
      var grant := Grant(
        terms.actor.actorId.s, terms.actor.actor.actor, terms.actor.sessionId.s, terms.action.s, resource.value,
        Text(terms.destination), Text(terms.taskId), terms.expiresAt.t, terms.remainingUses, false);
      ReflectsIssue(rows, log, grantId, grant);
      rows := rows[grantId := grant];
      log := log + [Issued(grantId, grant)];
      return Ok(grantId);
    }

    method Revoke(grantId: string) returns (found: bool)
      requires Valid()
      modifies this
      ensures Valid()
      ensures found <==> grantId in old(rows)
      ensures found ==>
                && rows == old(rows)[grantId := old(rows)[grantId].(revoked := true)]
                && log == old(log) + [Revoked(grantId)]
      ensures !found ==> rows == old(rows) && log == old(log)
    {
      hide Reflects;
      found := grantId in rows;
      if found {
        ReflectsRevoke(rows, log, grantId);
        rows := rows[grantId := rows[grantId].(revoked := true)];
        log := log + [Revoked(grantId)];
      }
    }

    function UseOf(
      actor: ActorArg, action: string, resource: Option<string>, destination: Option<string>, taskId: Option<string>,
      now: real): Use
      requires ValidActor(actor)
    {
      Use(actor.actorId.s, actor.actor.actor, actor.sessionId.s, action, resource, destination, taskId, now)
    }

    /** Spends the grant exactly when it backs this use; when several checks fail the first names the refusal. */
    method Consume(
      grantId: string, actor: ActorArg, action: string, resource: Option<Field>, destination: Option<Field>,
      taskId: Option<string>, now: real)
      returns (ok: bool, refusal: Refusal)
      requires Valid()
      modifies this
      ensures Valid()
      ensures ok <==>
                && ValidActor(actor) && CanonicalizeResource(canon, resource).Ok? && NullOrIdentifier(destination)
                && Consumable(old(rows), grantId, UseOf(
                     actor, action, CanonicalizeResource(canon, resource).value, Text(destination), taskId, now))
      ensures ok ==>
                && rows == old(rows)[grantId := old(rows)[grantId].(remainingUses := 0)]
                && log == old(log) + [Spent(grantId, UseOf(
                     actor, action, CanonicalizeResource(canon, resource).value, Text(destination), taskId, now))]
      ensures !ok ==> rows == old(rows) && log == old(log)
      ensures rows.Keys == old(rows.Keys)
      ensures !ok ==>
                match refusal
                case InvalidActor => !ValidActor(actor)
                case InvalidResource => CanonicalizeResource(canon, resource).Error?
                case InvalidDestination => !NullOrIdentifier(destination)
                case _ => && ValidActor(actor) && CanonicalizeResource(canon, resource).Ok?
                          && IsReason(refusal, rows, grantId, UseOf(
                               actor, action, CanonicalizeResource(canon, resource).value, Text(destination), taskId,
                               now))
    {
      hide Reflects, Matches;
      if !ValidActor(actor) {
        return false, InvalidActor;
      }
      var expected := CanonicalizeResource(canon, resource);
      if expected.Error? {
        return false, InvalidResource;
      }
      if !NullOrIdentifier(destination) {
        return false, InvalidDestination;
      }
      if grantId !in rows {
        return false, GrantNotFound;
      }
      var row := rows[grantId];
      if row.revoked {
        return false, GrantRevoked;
      }
      if row.expiresAt <= now {
        return false, GrantExpired;
      }
      if row.remainingUses < 1 {
        return false, GrantConsumed;
      }
      if row.remainingUses > 1 {
        return false, GrantInvalidUses;
      }
      if row.actorId != actor.actorId.s || row.actor != actor.actor.actor || row.sessionId != actor.sessionId.s {
        return false, GrantActorMismatch;
      }
      if row.action != action {
        return false, GrantActionMismatch;
      }
      if row.resource != expected.value {
        return false, GrantResourceMismatch;
      }
      if row.destination != Text(destination) {
        return false, GrantDestinationMismatch;
      }
      if row.taskId != taskId {
        return false, GrantTaskMismatch;
      }
      ghost var use := UseOf(actor, action, expected.value, Text(destination), taskId, now);
      ReflectsSpend(rows, log, grantId, use);
      rows := rows[grantId := row.(remainingUses := row.remainingUses - 1)];
      log := log + [Spent(grantId, use)];
      return true, GrantConsumed;
    }

    /** Conservation: every issued use is still there or was spent, and no grant was spent twice. */
    lemma IssuedUsesAreConserved()
      requires Valid()
      ensures Issues(log) == |Unspent(rows)| + |SpentEvents(log)|
      ensures forall i, j | 0 <= i < j < |SpentEvents(log)| :: SpentEvents(log)[i].id != SpentEvents(log)[j].id
      ensures forall id | id in rows :: rows[id].remainingUses == if SpentIn(log, id) then 0 else 1
    {
      SpentIdsAreDistinct(log);
      forall id | id in rows ensures rows[id].remainingUses == if SpentIn(log, id) then 0 else 1 {
        var i := FindIssue(rows, log, id);
      }
    }
  }
}
