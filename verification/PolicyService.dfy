/** Stateful authorization: policy, then grant, then one audit row, whatever the request looks like. */
module PolicyService {
  import opened Options
  import opened ActionPolicy
  import opened Grants
  import Audit = ActionAudit

  datatype ActionDefinition = ActionDefinition(
    dataScope: DataScope, risk: ActionRisk, resourceRequired: bool, destinationRequired: bool)

  function Definition(action: string): Option<ActionDefinition> {
    if action == "help.read" then Some(ActionDefinition(Public, ReadOnly, false, false))
    else if action == "document.read" then Some(ActionDefinition(OwnerPrivate, ReadOnly, true, false))
    else if action == SEND_DOCUMENT then Some(ActionDefinition(OwnerPrivate, Network, true, true))
    else if action == "app.open" then Some(ActionDefinition(Public, OsControl, false, false))
    else if action == "schedule.create" then Some(ActionDefinition(Session, ReversibleWrite, false, false))
    else None
  }

  datatype ActionRequest = ActionRequest(
    action: Field, actor: ActorArg, userInitiated: Flag, resource: Option<Field>, destination: Option<Field>,
    taskId: Option<Field>, grantId: Option<string>)

  datatype Reason =
    | InvalidActorReason | UnknownAction | InvalidTaskId | InvalidDestinationReason | DestinationRequired
    | UnexpectedDestination | UnexpectedResource | InvalidRequest | ActorNotAuthorized | ActorScopeDenied
    | ActorSideEffectDenied | UserIntentRequired | GrantRequired | Allowed | InvalidResourceReason
    | ResourceRequired | PolicyDenied | Refused(refusal: Refusal)

  datatype AuthorizationDecision = AuthorizationDecision(outcome: PolicyOutcome, reason: Reason, auditId: string)

  function RefusalName(refusal: Refusal): string {
    match refusal
    case InvalidActor => "invalid_actor"
    case InvalidResource => "invalid_resource"
    case InvalidDestination => "invalid_destination"
    case GrantNotFound => "grant_not_found"
    case GrantRevoked => "grant_revoked"
    case GrantExpired => "grant_expired"
    case GrantConsumed => "grant_consumed"
    case GrantInvalidUses => "grant_invalid_uses"
    case GrantActorMismatch => "grant_actor_mismatch"
    case GrantActionMismatch => "grant_action_mismatch"
    case GrantResourceMismatch => "grant_resource_mismatch"
    case GrantDestinationMismatch => "grant_destination_mismatch"
    case GrantTaskMismatch => "grant_task_mismatch"
  }

  function ReasonName(reason: Reason): string {
    match reason
    case InvalidActorReason => "invalid_actor"
    case UnknownAction => "unknown_action"
    case InvalidTaskId => "invalid_task_id"
    case InvalidDestinationReason => "invalid_destination"
    case DestinationRequired => "destination_required"
    case UnexpectedDestination => "unexpected_destination"
    case UnexpectedResource => "unexpected_resource"
    case InvalidRequest => "invalid_request"
    case ActorNotAuthorized => "actor_not_authorized"
    case ActorScopeDenied => "actor_scope_denied"
    case ActorSideEffectDenied => "actor_side_effect_denied"
    case UserIntentRequired => "user_intent_required"
    case GrantRequired => "grant_required"
    case Allowed => "allowed"
    case InvalidResourceReason => "invalid_resource"
    case ResourceRequired => "resource_required"
    case PolicyDenied => "policy_denied"
    case Refused(refusal) => RefusalName(refusal)
  }

  lemma GrantRefusalsAreIdentifiers(refusal: Refusal)
    requires refusal.GrantNotFound? || refusal.GrantRevoked? || refusal.GrantExpired? || refusal.GrantConsumed?
             || refusal.GrantInvalidUses?
    ensures IsIdentifier(RefusalName(refusal))
  {
  }

  lemma MismatchesAreIdentifiers(refusal: Refusal)
    requires refusal.GrantActorMismatch? || refusal.GrantActionMismatch? || refusal.GrantResourceMismatch?
             || refusal.GrantDestinationMismatch? || refusal.GrantTaskMismatch?
    ensures IsIdentifier(RefusalName(refusal))
  {
  }

  lemma RefusalsAreIdentifiers(refusal: Refusal)
    ensures IsIdentifier(RefusalName(refusal))
  {
    if refusal.InvalidActor? || refusal.InvalidResource? || refusal.InvalidDestination? {
    } else if refusal.GrantNotFound? || refusal.GrantRevoked? || refusal.GrantExpired? || refusal.GrantConsumed?
              || refusal.GrantInvalidUses? {
      GrantRefusalsAreIdentifiers(refusal);
    } else {
      MismatchesAreIdentifiers(refusal);
    }
  }

  lemma MalformedPartReasonsAreIdentifiers(reason: Reason)
    requires reason.InvalidActorReason? || reason.UnknownAction? || reason.InvalidTaskId?
             || reason.InvalidDestinationReason?
    ensures IsIdentifier(ReasonName(reason))
  {
  }

  lemma MisplacedPartReasonsAreIdentifiers()
    ensures IsIdentifier(ReasonName(DestinationRequired))
  {
  }

  lemma UnexpectedPartReasonsAreIdentifiers()
    ensures IsIdentifier(ReasonName(UnexpectedDestination))
  {
  }

  lemma RefusedPartReasonsAreIdentifiers(reason: Reason)
    requires reason.UnexpectedResource? || reason.InvalidRequest?
    ensures IsIdentifier(ReasonName(reason))
  {
  }

  lemma ActorReasonsAreIdentifiers()
    ensures IsIdentifier(ReasonName(ActorNotAuthorized)) && IsIdentifier(ReasonName(ActorScopeDenied))
  {
  }

  lemma DenialReasonsAreIdentifiers()
    ensures IsIdentifier(ReasonName(ActorSideEffectDenied)) && IsIdentifier(ReasonName(UserIntentRequired))
  {
  }

  lemma ResourceReasonsAreIdentifiers()
    ensures IsIdentifier(ReasonName(InvalidResourceReason)) && IsIdentifier(ReasonName(ResourceRequired))
  {
  }

  lemma OtherReasonsAreIdentifiers(reason: Reason)
    requires reason.Allowed? || reason.GrantRequired? || reason.PolicyDenied?
    ensures IsIdentifier(ReasonName(reason))
  {
  }

  /** Every reason the service gives is one the audit store accepts. */
  lemma ReasonsAreIdentifiers(reason: Reason)
    ensures IsIdentifier(ReasonName(reason))
  {
    hide IsIdentifier;
    if reason.Refused? {
      RefusalsAreIdentifiers(reason.refusal);
    } else if reason.InvalidActorReason? || reason.UnknownAction? || reason.InvalidTaskId?
      || reason.InvalidDestinationReason? {
      MalformedPartReasonsAreIdentifiers(reason);
    } else if reason.DestinationRequired? || reason.UnexpectedDestination? {
      MisplacedPartReasonsAreIdentifiers();
      UnexpectedPartReasonsAreIdentifiers();
    } else if reason.UnexpectedResource? || reason.InvalidRequest? {
      RefusedPartReasonsAreIdentifiers(reason);
    } else if reason.ActorNotAuthorized? || reason.ActorScopeDenied? || reason.ActorSideEffectDenied?
              || reason.UserIntentRequired? {
      ActorReasonsAreIdentifiers();
      DenialReasonsAreIdentifiers();
    } else if reason.InvalidResourceReason? || reason.ResourceRequired? {
      ResourceReasonsAreIdentifiers();
    } else {
      OtherReasonsAreIdentifiers(reason);
    }
  }

  /** Of an audit row its outcome and its reason tell what was decided. */
  lemma NamesTell(outcome: PolicyOutcome, reason: Reason)
    ensures Audit.OutcomeName(outcome) ==
            match outcome case Allow => "allow" case RequireConfirmation => "require_confirmation" case Deny => "deny"
    ensures ReasonName(reason) == "allowed" <==> reason.Allowed?
    ensures ReasonName(reason) == "grant_required" <==> reason.GrantRequired?
  {
    var allowed, required := "allowed", "grant_required";
    assert |allowed| == 7 && |required| == 14 && allowed[0] == 'a' && required[0] == 'g' && required[6] == 'r';
  }

  // ---------- What is permitted ----------

  /** The request names a known action and carries exactly the parts that action takes. */
  predicate HasShape(request: ActionRequest) {
    && ValidActor(request.actor)
    && request.action.Str? && Definition(request.action.s).Some?
    && NullOrIdentifier(request.taskId) && NullOrIdentifier(request.destination)
    && var definition := Definition(request.action.s).value;
       && (definition.destinationRequired <==> request.destination.Some?)
       && (!definition.resourceRequired ==> request.resource.None?)
  }

  function Decide(request: ActionRequest, confirmed: bool): PolicyOutcome
    requires HasShape(request)
  {
    var definition := Definition(request.action.s).value;
    EvaluateAction(ActionContext(
      request.actor.actor.actor, definition.dataScope, definition.risk, request.userInitiated, confirmed))
  }

  /** Everything but the grant is in order. */
  predicate IsPermitted(canon: string -> Option<string>, request: ActionRequest) {
    && HasShape(request) && !Decide(request, false).Deny?
    && CanonicalizeResource(canon, request.resource).Ok?
    && (Definition(request.action.s).value.resourceRequired ==> request.resource.Some?)
  }

  predicate NeedsGrant(request: ActionRequest)
    requires HasShape(request)
  {
    Definition(request.action.s).value.resourceRequired || Decide(request, false).RequireConfirmation?
  }

  predicate NamesGrant(request: ActionRequest) {
    request.grantId.Some? && request.grantId.value != ""
  }

  /** What a grant behind this request would be spent on. */
  function RequestedUse(canon: string -> Option<string>, request: ActionRequest, now: real): Use
    requires IsPermitted(canon, request)
  {
    Use(request.actor.actorId.s, request.actor.actor.actor, request.actor.sessionId.s, request.action.s,
        CanonicalizeResource(canon, request.resource).value, Grants.Text(request.destination),
        Grants.Text(request.taskId), now)
  }

  function PolicyReason(outcome: PolicyOutcome, request: ActionRequest, definition: ActionDefinition): Reason
    requires ValidActor(request.actor)
  {
    var actor := request.actor.actor.actor;
    if request.userInitiated.NotFlag? then InvalidRequest
    else if actor.Unknown? || actor.System? then ActorNotAuthorized
    else if actor.Guest? && (definition.dataScope.OwnerPrivate? || definition.dataScope.SystemData?)
      then ActorScopeDenied
    else if actor.Guest? && !definition.risk.ReadOnly? then ActorSideEffectDenied
    else if outcome.Deny? then UserIntentRequired
    else if outcome.RequireConfirmation? then GrantRequired
    else Allowed
  }

  /** Resolving is idempotent and never yields an empty path; references have the form the audit wants. */
  ghost predicate IsEnvironment(canon: string -> Option<string>, opaqueReference: string -> string) {
    && (forall s :: canon(s).Some? ==> canon(s).value != "" && canon(canon(s).value) == canon(s))
    && (forall s :: Audit.IsResourceReference(opaqueReference(s)))
  }

  lemma CanonicalTwice(canon: string -> Option<string>, opaqueReference: string -> string, resource: Option<Field>)
    requires IsEnvironment(canon, opaqueReference) && CanonicalizeResource(canon, resource).Ok?
    ensures var once := CanonicalizeResource(canon, resource).value;
      CanonicalizeResource(canon, if once.Some? then Some(Str(once.value)) else None) == Ok(once)
    ensures resource.Some? <==> CanonicalizeResource(canon, resource).value.Some?
  {
    hide Audit.IsResourceReference;
  }

  /** What the service is to decide: the parts, the policy and then the grant settle it. */
  ghost function Outcome(
    canon: string -> Option<string>, rows: map<string, Grant>, request: ActionRequest, now: real): PolicyOutcome
  {
    if !IsPermitted(canon, request) then Deny
    else if !NeedsGrant(request) then Allow
    else if !NamesGrant(request) then RequireConfirmation
    else if Consumable(rows, request.grantId.value, RequestedUse(canon, request, now)) then Allow
    else Deny
  }

  lemma AllowanceNamesGrant(
    canon: string -> Option<string>, rows: map<string, Grant>, request: ActionRequest, now: real)
    requires Outcome(canon, rows, request, now).Allow?
    ensures IsPermitted(canon, request) && (NeedsGrant(request) ==> NamesGrant(request))
  {
  }

  /**
   Who may ask for what, action by action, and with which parts: the owner and guests read the help; only the
   owner has a document read, whoever began it, and has anything else done, only on being asked for it.
   */
  predicate MayAsk(canon: string -> Option<string>, request: ActionRequest) {
    && ValidActor(request.actor) && request.userInitiated.Flag? && NullOrIdentifier(request.taskId)
    && var actor, asked := request.actor.actor.actor, request.userInitiated.b;
       if request.action == Str("help.read") then
         (actor.Owner? || actor.Guest?) && request.resource.None? && request.destination.None?
       else if request.action == Str("document.read") then
         actor.Owner? && IsResolved(canon, request.resource) && request.destination.None?
       else if request.action == Str("provider.send_document") then
         && actor.Owner? && asked && IsResolved(canon, request.resource)
         && request.destination.Some? && NullOrIdentifier(request.destination)
       else
         && request.action in {Str("app.open"), Str("schedule.create")}
         && actor.Owner? && asked && request.resource.None? && request.destination.None?
  }

  predicate IsResolved(canon: string -> Option<string>, resource: Option<Field>) {
    resource.Some? && resource.value.Str? && canon(resource.value.s).Some?
  }

  /** Of what may be asked, reading the help is allowed at once, and everything else on a grant for this very use. */
  lemma {:induction false} AllowedExactlyWhen(
    canon: string -> Option<string>, rows: map<string, Grant>, request: ActionRequest, now: real)
    ensures Outcome(canon, rows, request, now).Allow? <==>
            && MayAsk(canon, request)
            && (request.action == Str("help.read")
                || (&& request.grantId.Some? && request.grantId.value != ""
                    && Consumable(rows, request.grantId.value, RequestedUse(canon, request, now))))
    ensures Outcome(canon, rows, request, now).RequireConfirmation? <==>
            && MayAsk(canon, request) && request.action != Str("help.read")
            && (request.grantId.None? || request.grantId.value == "")
  {
    hide Matches, Consumable;
    PermittedExactlyWhen(canon, request);
  }

  lemma PermittedExactlyWhen(canon: string -> Option<string>, request: ActionRequest)
    ensures IsPermitted(canon, request) <==> MayAsk(canon, request)
    ensures IsPermitted(canon, request) ==> (NeedsGrant(request) <==> request.action != Str("help.read"))
  {
    hide Matches;
  }

  // ---------- What a reason says of the request ----------

  /** The actor is well formed and the action known. */
  predicate NamesAction(request: ActionRequest) {
    ValidActor(request.actor) && request.action.Str? && Definition(request.action.s).Some?
  }

  /** The task and the destination are well formed as well. */
  predicate NamesParts(request: ActionRequest) {
    NamesAction(request) && NullOrIdentifier(request.taskId) && NullOrIdentifier(request.destination)
  }

  /** What is wrong with the parts of the request: the first of the checks that fails. */
  predicate IsPartReason(reason: Reason, request: ActionRequest) {
    match reason
    case InvalidActorReason => !ValidActor(request.actor)
    case UnknownAction => ValidActor(request.actor) && !NamesAction(request)
    case InvalidTaskId => NamesAction(request) && !NullOrIdentifier(request.taskId)
    case InvalidDestinationReason =>
      NamesAction(request) && NullOrIdentifier(request.taskId) && !NullOrIdentifier(request.destination)
    case DestinationRequired =>
      NamesParts(request) && request.destination.None? && Definition(request.action.s).value.destinationRequired
    case UnexpectedDestination =>
      NamesParts(request) && request.destination.Some? && !Definition(request.action.s).value.destinationRequired
    case UnexpectedResource =>
      && NamesParts(request) && request.resource.Some? && !Definition(request.action.s).value.resourceRequired
      && (Definition(request.action.s).value.destinationRequired <==> request.destination.Some?)
    case _ => false
  }

  /** What the policy has against the actor or the intent, the parts being in order. */
  predicate IsPolicyReason(reason: Reason, request: ActionRequest)
    requires HasShape(request)
  {
    var definition, actor := Definition(request.action.s).value, request.actor.actor.actor;
    match reason
    case InvalidRequest => request.userInitiated.NotFlag?
    case ActorNotAuthorized => request.userInitiated.Flag? && (actor.Unknown? || actor.System?)
    case ActorScopeDenied =>
      request.userInitiated.Flag? && actor.Guest?
        && (definition.dataScope.OwnerPrivate? || definition.dataScope.SystemData?)
    case ActorSideEffectDenied =>
      && request.userInitiated.Flag? && actor.Guest? && !definition.risk.ReadOnly?
      && (definition.dataScope.Public? || definition.dataScope.Session?)
    case UserIntentRequired =>
      && actor.Owner? && !definition.risk.ReadOnly?
      && (request.userInitiated == Flag(false) || definition.risk.Destructive? || definition.risk.Privileged?)
    case _ => false
  }

  /** The resource is malformed or missing, where the policy has nothing against the request. */
  predicate IsResourceReason(reason: Reason, canon: string -> Option<string>, request: ActionRequest)
    requires HasShape(request)
  {
    match reason
    case InvalidResourceReason => CanonicalizeResource(canon, request.resource).Error?
    case ResourceRequired => request.resource.None? && Definition(request.action.s).value.resourceRequired
    case _ => false
  }

  /** What there is to say of the grant of a permitted request. */
  ghost predicate IsGrantReason(
    reason: Reason, canon: string -> Option<string>, rows: map<string, Grant>, request: ActionRequest, now: real)
    requires IsPermitted(canon, request)
  {
    match reason
    case Allowed =>
      NeedsGrant(request) ==>
        NamesGrant(request) && Consumable(rows, request.grantId.value, RequestedUse(canon, request, now))
    case GrantRequired => NeedsGrant(request) && !NamesGrant(request)
    case Refused(refusal) =>
      && NeedsGrant(request) && NamesGrant(request)
      && IsReason(refusal, rows, request.grantId.value, RequestedUse(canon, request, now))
    case _ => false
  }

  /** The reason is true of the request, and of the grants there were when it was made. */
  ghost predicate IsTrueReason(
    reason: Reason, canon: string -> Option<string>, rows: map<string, Grant>, request: ActionRequest, now: real)
  {
    if !HasShape(request) then IsPartReason(reason, request)
    else if Decide(request, false).Deny? then IsPolicyReason(reason, request)
    else if !IsPermitted(canon, request) then IsResourceReason(reason, canon, request)
    else IsGrantReason(reason, canon, rows, request, now)
  }

  /** A true reason settles the outcome: allowed, to be confirmed, or else denied. */
  lemma {:induction false} ReasonSettlesOutcome(
    reason: Reason, canon: string -> Option<string>, rows: map<string, Grant>, request: ActionRequest, now: real)
    requires IsTrueReason(reason, canon, rows, request, now)
    ensures Outcome(canon, rows, request, now) ==
            if reason.Allowed? then Allow else if reason.GrantRequired? then RequireConfirmation else Deny
  {
    hide Matches, Definition;
    if IsPermitted(canon, request) && reason.Refused? {
      RefusedIsNotConsumable(reason.refusal, rows, request.grantId.value, RequestedUse(canon, request, now));
    }
  }

  lemma RefusedIsNotConsumable(refusal: Refusal, rows: map<string, Grant>, id: string, use: Use)
    requires IsReason(refusal, rows, id, use)
    ensures !Consumable(rows, id, use)
  {
  }

  // ---------- What an audit row says of a malformed request ----------

  /** The asking actor, or a stand-in nobody can act as. */
  function RecordedActor(request: ActionRequest): (actor: ActorArg)
    ensures ValidActor(actor) && (actor == request.actor || actor.actor.actor.Unknown?)
  {
    if ValidActor(request.actor) then request.actor
    else Context(Str("invalid"), Known(Unknown), Str("invalid"), Str("unknown"))
  }

  function RecordedAction(request: ActionRequest): (action: string)
    ensures IsIdentifier(action) && (request.action == Str(action) || action == "invalid_action")
  {
    if request.action.Str? && IsIdentifier(request.action.s) then request.action.s else "invalid_action"
  }

  /** An optional part, dropped when it is malformed. */
  function RecordedPart(field: Option<Field>): (part: Option<string>)
    ensures part.Some? ==> IsIdentifier(part.value) && field == Some(Str(part.value))
  {
    if NullOrIdentifier(field) then Grants.Text(field) else None
  }

  // ---------- The service ----------

  /**
   One evaluated request: the instant, what was decided, the grant spent on it, and what came of its audit
   row: the identifier it was to have, whether that was taken, and whether the database wrote at all.
   */
  datatype Decided = Decided(
    request: ActionRequest, now: real, outcome: PolicyOutcome, spent: Option<string>, auditId: string,
    taken: bool, writes: bool)

  /** The row was written, so the call returned its decision; otherwise it raised after the evaluation. */
  predicate IsReturned(decided: Decided) {
    decided.writes && !decided.taken
  }

  /** The use that a decision stands for, when it spent a grant. */
  function Purchase(canon: string -> Option<string>, decided: Decided): seq<Event> {
    if decided.spent.Some? && IsPermitted(canon, decided.request)
    then [Spent(decided.spent.value, RequestedUse(canon, decided.request, decided.now))] else []
  }

  /** The uses the decisions stand for, in order. */
  function Purchases(canon: string -> Option<string>, decisions: seq<Decided>): seq<Event> {
    if decisions == [] then []
    else Purchases(canon, decisions[..|decisions| - 1]) + Purchase(canon, decisions[|decisions| - 1])
  }

  /** Only allowances of permitted requests spend a grant. */
  ghost predicate SpendsRightly(canon: string -> Option<string>, decided: Decided) {
    decided.spent.Some? ==>
      && decided.outcome.Allow? && IsPermitted(canon, decided.request) && NeedsGrant(decided.request)
      && decided.request.grantId == decided.spent
  }

  /** A decision that was returned has its audit row, with its outcome. */
  ghost predicate IsWritten(rows: seq<Audit.Row>, decided: Decided) {
    IsReturned(decided) ==>
      exists k :: 0 <= k < |rows| && rows[k].auditId == Audit.Text(decided.auditId)
                  && rows[k].outcome == Audit.Text(Audit.OutcomeName(decided.outcome))
  }

  ghost predicate AreWritten(rows: seq<Audit.Row>, decisions: seq<Decided>) {
    && (forall i | 0 <= i < |decisions| :: IsWritten(rows, decisions[i]))
    && (forall i, j | 0 <= i < j < |decisions| && decisions[i].auditId == decisions[j].auditId ::
          IsReturned(decisions[i]) ==> decisions[j].taken)
  }

  class PolicyService {
    const grants: GrantStore
    const audit: Audit.ActionAuditStore
    const opaqueReference: string -> string
    ghost var decisions: seq<Decided>

    /** The uses of grants are, in order, those of the decisions; decisions that were returned are audited. */
    ghost predicate Valid()
      reads this, grants, audit
    {
      && grants.Valid() && audit.Valid() && IsEnvironment(grants.canon, opaqueReference)
      && Purchases(grants.canon, decisions) == SpentEvents(grants.log)
      && (forall i | 0 <= i < |decisions| :: SpendsRightly(grants.canon, decisions[i]))
      && AreWritten(audit.rows, decisions)
    }

    constructor (grants: GrantStore, audit: Audit.ActionAuditStore, opaqueReference: string -> string)
      requires grants.Valid() && audit.Valid() && IsEnvironment(grants.canon, opaqueReference)
      requires SpentEvents(grants.log) == []
      ensures Valid() && this.grants == grants && this.audit == audit && decisions == []
    {
      this.grants, this.audit, this.opaqueReference := grants, audit, opaqueReference;
      decisions := [];
    }

    /** The row of a decision: its parts as asked, and for each malformed one what stands in for it. */
    ghost predicate Describes(
      row: Audit.Row, request: ActionRequest, resource: Option<string>, outcome: PolicyOutcome, reason: Reason,
      auditId: string)
    {
      && row.auditId == Audit.Text(auditId)
      && row.outcome == Audit.Text(Audit.OutcomeName(outcome)) && row.reason == Audit.Text(ReasonName(reason))
      && row.resultStatus == Audit.Null && row.resultCode == Audit.Null
      && row.actorId == Audit.Text(RecordedActor(request).actorId.s)
      && row.actor == Audit.Text(Audit.ActorName(RecordedActor(request).actor.actor))
      && row.sessionId == Audit.Text(RecordedActor(request).sessionId.s)
      && row.action == Audit.Text(RecordedAction(request))
      && row.taskId == Audit.Maybe(RecordedPart(request.taskId))
      && row.destination == Audit.Maybe(RecordedPart(request.destination))
      && row.resourceRef == if resource.Some? then Audit.Text(opaqueReference(resource.value)) else Audit.Null
    }

    /**
     Writes the one audit row of a decision, with everything malformed replaced. The database refuses the
     row when the identifier is taken, and may refuse it for reasons of its own.
     */
    method Record(
      request: ActionRequest, resource: Option<string>, outcome: PolicyOutcome, reason: Reason, auditId: string,
      writes: bool)
      returns (decision: Option<AuthorizationDecision>)
      requires audit.Valid() && IsEnvironment(grants.canon, opaqueReference) && IsIdentifier(auditId)
      modifies audit
      ensures audit.Valid()
      ensures decision ==
              if writes && !old(audit.Has(auditId)) then Some(AuthorizationDecision(outcome, reason, auditId)) else None
      ensures decision.None? ==> audit.rows == old(audit.rows)
      ensures decision.Some? ==>
                && |audit.rows| == |old(audit.rows)| + 1 && audit.rows[..|old(audit.rows)|] == old(audit.rows)
                && Describes(audit.rows[|old(audit.rows)|], request, resource, outcome, reason, auditId)
    {
      ReasonsAreIdentifiers(reason);
      hide Matches, Audit.IsResourceReference, ReasonName, Audit.IsAudited, Audit.ActionAuditStore.Valid;
      hide RecordedActor, RecordedAction, RecordedPart, IsIdentifier, ValidActor;
      if !writes {
        return None;
      }
      var reference := if resource.Some? then Some(opaqueReference(resource.value)) else None;
      var recorded := audit.RecordDecision(
        RecordedActor(request), RecordedPart(request.taskId), RecordedAction(request), reference,
        RecordedPart(request.destination), outcome, ReasonName(reason), auditId);
      decision := if recorded.Ok? then Some(AuthorizationDecision(outcome, reason, auditId)) else None;
    }

    /** The resource an audit row may refer to. */
    ghost function RecordedResource(request: ActionRequest): Option<string> {
      if IsPermitted(grants.canon, request) then CanonicalizeResource(grants.canon, request.resource).value else None
    }

    /** The one decision added: what was decided, and what it spent. */
    ghost function NextDecision(
      rows: map<string, Grant>, request: ActionRequest, now: real, auditId: string, taken: bool, writes: bool): Decided
    {
      var outcome := Outcome(grants.canon, rows, request, now);
      Decided(request, now, outcome, if outcome.Allow? && NeedsGrant(request) then request.grantId else None,
              auditId, taken, writes)
    }

    /**
     Decides on one request. The grant is spent before the audit row is written, so when the row cannot be
     written the call raises, here None, and the grant is lost.
     */
    method Authorize(request: ActionRequest, auditId: string, now: real, writes: bool)
      returns (decision: Option<AuthorizationDecision>)
      requires Valid() && IsIdentifier(auditId)
      modifies this, grants, audit
      ensures Valid()
      ensures decision.Some? <==> writes && !old(audit.Has(auditId))
      ensures decision.Some? ==>
                && decision.value.outcome == Outcome(grants.canon, old(grants.rows), request, now)
                && IsTrueReason(decision.value.reason, grants.canon, old(grants.rows), request, now)
                && (decision.value.reason.Allowed? <==> decision.value.outcome.Allow?)
                && (decision.value.reason.GrantRequired? <==> decision.value.outcome.RequireConfirmation?)
                && decision.value.auditId == auditId
      ensures decisions == old(decisions) +
                [NextDecision(old(grants.rows), request, now, auditId, old(audit.Has(auditId)), writes)]
      // A grant is spent exactly when the request is allowed and needed one, also when the call raises.
      ensures var next := NextDecision(old(grants.rows), request, now, "", false, false);
        && grants.log == old(grants.log) + Purchase(grants.canon, next)
        && (next.spent.None? ==> grants.rows == old(grants.rows))
      ensures grants.rows.Keys == old(grants.rows.Keys)
      // Exactly one audit row for a returned decision, and none for a raised call.
      ensures decision.None? ==> audit.rows == old(audit.rows)
      ensures decision.Some? ==>
                && |audit.rows| == |old(audit.rows)| + 1 && audit.rows[..|old(audit.rows)|] == old(audit.rows)
                && Describes(audit.rows[|old(audit.rows)|], request, RecordedResource(request),
                             decision.value.outcome, decision.value.reason, auditId)
    {
      hide Reflects, Matches, Consumable, ReasonName, Audit.IsSound, IsEnvironment, Purchases, SpentEvents;
      hide AreWritten, IsPermitted, RequestedUse, NeedsGrant, Audit.IsAudited, Audit.IsResourceReference;
      hide IsTrueReason;
      var outcome, reason, resource := Evaluate(request, now);
      decision := Record(request, resource, outcome, reason, auditId, writes);
      ghost var next :=
        NextDecision(old(grants.rows), request, now, auditId, old(audit.Has(auditId)), writes);
      PurchasesGrow(grants.canon, decisions, next);
      SpentEventsGrow(old(grants.log), Purchase(grants.canon, next));
      WrittenLater(old(audit.rows), audit.rows, decisions, next);
      decisions := decisions + [next];
    }

    /**
     Over any sequence of calls: no two decisions were backed by one grant; every backed decision is an
     allowance, and its grant was spent on the terms and at the instant of that very request, having been
     issued earlier on these terms, not expired and not revoked before.
     */
    lemma {:induction false} EachGrantBacksOneAllowance()
      requires Valid()
      ensures forall i, j | 0 <= i < j < |decisions| && decisions[i].spent.Some? && decisions[j].spent.Some? ::
                decisions[i].spent != decisions[j].spent
      ensures forall i | 0 <= i < |decisions| && decisions[i].spent.Some? ::
                && decisions[i].outcome.Allow? && IsPermitted(grants.canon, decisions[i].request)
                && exists k ::
                     && 0 <= k < |grants.log| && grants.log[k].Spent? && grants.log[k].id == decisions[i].spent.value
                     && grants.log[k].use == RequestedUse(grants.canon, decisions[i].request, decisions[i].now)
                     && IsCovered(grants.log, k)
                     && forall r | 0 <= r < k && grants.log[r].Revoked? :: grants.log[r].id != grants.log[k].id
    {
      hide KnowsIds, AllRowsFit, IsEnvironment, Audit.IsSound, AreWritten, IsPermitted, RequestedUse, NeedsGrant;
      SpentIdsAreDistinct(grants.log);
      forall i, j | 0 <= i < j < |decisions| && decisions[i].spent.Some? && decisions[j].spent.Some?
        ensures decisions[i].spent != decisions[j].spent
      {
        assert SpendsRightly(grants.canon, decisions[i]) && SpendsRightly(grants.canon, decisions[j]);
        DistinctPurchases(grants.canon, decisions, i, j);
      }
      forall i | 0 <= i < |decisions| && decisions[i].spent.Some?
        ensures decisions[i].outcome.Allow? && IsPermitted(grants.canon, decisions[i].request)
        ensures exists k ::
                  && 0 <= k < |grants.log| && grants.log[k].Spent? && grants.log[k].id == decisions[i].spent.value
                  && grants.log[k].use == RequestedUse(grants.canon, decisions[i].request, decisions[i].now)
                  && IsCovered(grants.log, k)
                  && forall r | 0 <= r < k && grants.log[r].Revoked? :: grants.log[r].id != grants.log[k].id
      {
        assert SpendsRightly(grants.canon, decisions[i]);
        PurchasesHaveEach(grants.canon, decisions, i);
        var k := SpentEventHappened(grants.log, Purchase(grants.canon, decisions[i])[0]);
        assert IsCovered(grants.log, k);
      }
    }

    /**
     Conservation across the stores: every issued use is unspent, or backs one returned allowance, or was
     lost in a call that raised. What is lost are the uses whose audit row the database did not write or
     whose identifier was taken.
     */
    lemma {:induction false} IssuedUsesAreAccounted()
      requires Valid()
      ensures Issues(grants.log) ==
              |Unspent(grants.rows)| + |Backed(decisions, true)| + |Backed(decisions, false)|
      ensures Backed(decisions, false) == [] <==>
              forall i | 0 <= i < |decisions| && decisions[i].spent.Some? ::
                decisions[i].writes && !decisions[i].taken
    {
      hide KnowsIds, AllRowsFit, IsSafe, IsEnvironment, Audit.IsSound, AreWritten, IsPermitted, NeedsGrant;
      PurchasesAreReturnedOrLost(grants.canon, decisions);
      LostExactlyWhenRaised(decisions);
    }

    /** The decision itself, with its effect on the grant but before its audit row. */
    method Evaluate(request: ActionRequest, now: real)
      returns (outcome: PolicyOutcome, reason: Reason, resource: Option<string>)
      requires grants.Valid() && IsEnvironment(grants.canon, opaqueReference)
      modifies grants
      ensures grants.Valid()
      ensures outcome == Outcome(grants.canon, old(grants.rows), request, now)
      ensures IsTrueReason(reason, grants.canon, old(grants.rows), request, now)
      ensures reason.Allowed? <==> outcome.Allow?
      ensures reason.GrantRequired? <==> outcome.RequireConfirmation?
      ensures resource == RecordedResource(request)
      ensures var next := NextDecision(old(grants.rows), request, now, "", false, false);
        && grants.log == old(grants.log) + Purchase(grants.canon, next)
        && (next.spent.None? ==> grants.rows == old(grants.rows))
      ensures grants.rows.Keys == old(grants.rows.Keys)
    {
      hide Reflects, Matches, IsEnvironment, Consumable, IsReason;
      resource := None;
      if !ValidActor(request.actor) {
        return Deny, InvalidActorReason, None;
      }
      if !request.action.Str? || Definition(request.action.s).None? {
        return Deny, UnknownAction, None;
      }
      var definition := Definition(request.action.s).value;
      if !NullOrIdentifier(request.taskId) {
        return Deny, InvalidTaskId, None;
      }
      if !NullOrIdentifier(request.destination) {
        return Deny, InvalidDestinationReason, None;
      }
      if definition.destinationRequired && request.destination.None? {
        return Deny, DestinationRequired, None;
      }
      if !definition.destinationRequired && request.destination.Some? {
        return Deny, UnexpectedDestination, None;
      }
      if !definition.resourceRequired && request.resource.Some? {
        return Deny, UnexpectedResource, None;
      }
      var base := Decide(request, false);
      if base.Deny? {
        return base, PolicyReason(base, request, definition), None;
      }
      var canonical := CanonicalizeResource(grants.canon, request.resource);
      if canonical.Error? {
        return Deny, InvalidResourceReason, None;
      }
      if definition.resourceRequired && canonical.value.None? {
        return Deny, ResourceRequired, None;
      }
      resource := canonical.value;
      outcome, reason := EvaluateGrant(request, resource, now);
    }

    /** A permitted request: only the grant, where one is needed, is still to be looked at. */
    method EvaluateGrant(request: ActionRequest, resource: Option<string>, now: real)
      returns (outcome: PolicyOutcome, reason: Reason)
      requires grants.Valid() && IsEnvironment(grants.canon, opaqueReference)
      requires IsPermitted(grants.canon, request)
      requires CanonicalizeResource(grants.canon, request.resource) == Ok(resource)
      modifies grants
      ensures grants.Valid()
      ensures outcome == Outcome(grants.canon, old(grants.rows), request, now)
      ensures IsGrantReason(reason, grants.canon, old(grants.rows), request, now)
      ensures reason.Allowed? <==> outcome.Allow?
      ensures reason.GrantRequired? <==> outcome.RequireConfirmation?
      ensures var next := NextDecision(old(grants.rows), request, now, "", false, false);
        && grants.log == old(grants.log) + Purchase(grants.canon, next)
        && (next.spent.None? ==> grants.rows == old(grants.rows))
      ensures grants.rows.Keys == old(grants.rows.Keys)
    {
      hide Reflects, Matches, IsEnvironment, Consumable, IsReason, Definition;
      CanonicalTwice(grants.canon, opaqueReference, request.resource);
      var base := Decide(request, false);
      if NeedsGrant(request) {
        if !NamesGrant(request) {
          return RequireConfirmation, GrantRequired;
        }
        var ok, refusal := grants.Consume(
          request.grantId.value, request.actor, request.action.s,
          if resource.Some? then Some(Str(resource.value)) else None, request.destination,
          Grants.Text(request.taskId), now);
        if !ok {
          return Deny, Refused(refusal);
        }
      }
      var final := base;
      if base.RequireConfirmation? {
        final := Decide(request, true);
      }
      return final, if final.Allow? then Allowed else PolicyDenied;
    }
  }

  /** The decisions that spent a grant and were returned, or were lost. */
  function Backed(decisions: seq<Decided>, returned: bool): seq<Decided> {
    if decisions == [] then []
    else
      var last := decisions[|decisions| - 1];
      Backed(decisions[..|decisions| - 1], returned)
      + if last.spent.Some? && IsReturned(last) == returned then [last] else []
  }

  lemma {:induction false} PurchasesAreReturnedOrLost(canon: string -> Option<string>, decisions: seq<Decided>)
    requires forall i | 0 <= i < |decisions| :: SpendsRightly(canon, decisions[i])
    ensures |Purchases(canon, decisions)| == |Backed(decisions, true)| + |Backed(decisions, false)|
  {
    hide IsPermitted, NeedsGrant, RequestedUse;
    if decisions != [] {
      PurchasesAreReturnedOrLost(canon, decisions[..|decisions| - 1]);
      assert SpendsRightly(canon, decisions[|decisions| - 1]);
    }
  }

  lemma {:induction false} LostExactlyWhenRaised(decisions: seq<Decided>)
    ensures Backed(decisions, false) == [] <==>
            forall i | 0 <= i < |decisions| && decisions[i].spent.Some? :: IsReturned(decisions[i])
  {
    if decisions != [] {
      var front := decisions[..|decisions| - 1];
      LostExactlyWhenRaised(front);
      assert forall i | 0 <= i < |front| :: front[i] == decisions[i];
    }
  }

  lemma {:induction false} PurchasesHaveEach(canon: string -> Option<string>, decisions: seq<Decided>, i: nat)
    requires i < |decisions| && decisions[i].spent.Some? && IsPermitted(canon, decisions[i].request)
    ensures Purchase(canon, decisions[i])[0] in Purchases(canon, decisions)
  {
    hide IsPermitted, RequestedUse;
    if i < |decisions| - 1 {
      PurchasesHaveEach(canon, decisions[..|decisions| - 1], i);
    }
  }

  lemma {:induction false} DistinctPurchases(
    canon: string -> Option<string>, decisions: seq<Decided>, i: nat, j: nat)
    requires forall k, l | 0 <= k < l < |Purchases(canon, decisions)| ::
               Purchases(canon, decisions)[k].id != Purchases(canon, decisions)[l].id
    requires i < j < |decisions| && decisions[i].spent.Some? && decisions[j].spent.Some?
    requires IsPermitted(canon, decisions[i].request) && IsPermitted(canon, decisions[j].request)
    ensures decisions[i].spent != decisions[j].spent
  {
    hide IsPermitted, RequestedUse;
    var front, last := decisions[..|decisions| - 1], decisions[|decisions| - 1];
    assert forall k | 0 <= k < |Purchases(canon, front)| ::
        Purchases(canon, decisions)[k] == Purchases(canon, front)[k];
    if j < |decisions| - 1 {
      DistinctPurchases(canon, front, i, j);
    } else {
      PurchasesHaveEach(canon, front, i);
      var k :| 0 <= k < |Purchases(canon, front)| && Purchases(canon, front)[k] == Purchase(canon, decisions[i])[0];
      assert Purchases(canon, decisions)[|Purchases(canon, front)|] == Purchase(canon, last)[0];
    }
  }

  lemma PurchasesGrow(canon: string -> Option<string>, decisions: seq<Decided>, next: Decided)
    ensures Purchases(canon, decisions + [next]) == Purchases(canon, decisions) + Purchase(canon, next)
  {
    assert (decisions + [next])[..|decisions|] == decisions;
  }

  lemma SpentEventsGrow(log: seq<Event>, added: seq<Event>)
    requires |added| <= 1
    ensures SpentEvents(log + added) == SpentEvents(log) + if added != [] && added[0].Spent? then added else []
  {
    if added == [] {
      assert log + added == log;
    } else {
      assert (log + added)[..|log|] == log;
    }
  }

  /** One more row keeps every decision written, and writes the next one when it carries that row. */
  lemma WrittenLater(before: seq<Audit.Row>, after: seq<Audit.Row>, decisions: seq<Decided>, next: Decided)
    requires AreWritten(before, decisions)
    requires next.taken == Audit.IsAudited(before, next.auditId)
    requires if !IsReturned(next) then after == before
             else && |after| == |before| + 1 && after[..|before|] == before
                  && after[|before|].auditId == Audit.Text(next.auditId)
                  && after[|before|].outcome == Audit.Text(Audit.OutcomeName(next.outcome))
    ensures AreWritten(after, decisions + [next])
  {
    assert forall i | 0 <= i < |before| :: after[i] == before[i];
    forall i | 0 <= i < |decisions| ensures IsWritten(after, decisions[i]) {
      assert IsWritten(before, decisions[i]);
    }
    assert IsWritten(after, next);
    forall i | 0 <= i < |decisions| && decisions[i].auditId == next.auditId && IsReturned(decisions[i])
      ensures next.taken
    {
      assert IsWritten(before, decisions[i]);
    }
  }

  /** Settling rows leaves every decision written. */
  lemma WrittenStay(before: seq<Audit.Row>, after: seq<Audit.Row>, decisions: seq<Decided>)
    requires AreWritten(before, decisions) && |after| == |before|
    requires forall i | 0 <= i < |before| ::
               after[i].auditId == before[i].auditId && after[i].outcome == before[i].outcome
    ensures AreWritten(after, decisions)
  {
    forall i | 0 <= i < |decisions| ensures IsWritten(after, decisions[i]) {
      assert IsWritten(before, decisions[i]);
    }
  }
}
