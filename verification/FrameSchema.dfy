/**
 The specifications of the command-centre's server frames, their registration beside the older
 messages, and what the validator makes of a frame laid out in the order of its specification.
 */
module FrameSchema {
  import opened Options
  import opened ActionPolicy
  import opened Protocol

  datatype Kind =
    | IntegrationStatus | AgentRun | TimeSense | RepoIntel | SkillEvolution
    | HomeAssistant | EncryptedSync | RemoteWorker | ModelEval | ErrorReport

  const KINDS: seq<Kind> := [
    IntegrationStatus, AgentRun, TimeSense, RepoIntel, SkillEvolution,
    HomeAssistant, EncryptedSync, RemoteWorker, ModelEval, ErrorReport]

  const MAX_ITEMS: nat := 64
  const MAX_SUMMARY: nat := 512

  const STATUSES: seq<string> := [
    "unavailable", "disabled", "configuring", "ready", "degraded",
    "approval_required", "active", "cancelling", "cancelled", "completed", "failed", "revoked"]

  const RUN_STATES: seq<string> := [
    "preview", "waiting_for_approval", "running", "observing", "correcting",
    "succeeded", "denied", "failed", "cancelled", "exhausted"]

  const SKILL_STATES: seq<string> := [
    "proposal", "validation", "review", "rejection", "revocation", "install_plan_ready"]

  const RISKS: seq<string> := ["low", "medium", "high", "critical"]

  const PRIVACY_CLASSES: seq<string> := ["local_only", "gateway_ok", "remote_ok"]

  const ERROR_CODES: seq<string> := [
    "invalid_request", "unauthorized", "unavailable", "denied", "expired", "revoked", "locked", "closed",
    "approval_required", "not_found", "stale_request", "duplicate_request", "internal_error"]

  function TypeName(kind: Kind): string {
    match kind
    case IntegrationStatus => "phase6_integration_status"
    case AgentRun => "phase6_agent_run_update"
    case TimeSense => "phase6_time_sense_update"
    case RepoIntel => "phase6_repo_intel_update"
    case SkillEvolution => "phase6_skill_evolution_update"
    case HomeAssistant => "phase6_home_assistant_proposal"
    case EncryptedSync => "phase6_encrypted_sync_update"
    case RemoteWorker => "phase6_remote_worker_update"
    case ModelEval => "phase6_model_eval_update"
    case ErrorReport => "phase6_error"
  }

  // ---------- Field specifications ----------

  const ID: FieldSpec := StringSpec(None, Some(80), None, Some(IsIdentifier), false, false, false, false)

  const VERSION: FieldSpec := IntSpec(Some([1]), None, None)

  const COUNT: FieldSpec := IntSpec(None, Some(0), None)

  const FINITE: FieldSpec := NumberSpec(true)

  const FLAG: FieldSpec := BoolSpec(None)

  const NEVER: FieldSpec := BoolSpec(Some(false))

  function SafeText(limit: nat): FieldSpec {
    StringSpec(Some(1), Some(limit), None, None, true, false, true, false)
  }

  function OneOf(names: seq<string>): FieldSpec {
    StringSpec(None, None, Some(names), None, false, false, false, false)
  }

  function ListOf(items: FieldSpec): FieldSpec {
    ListSpec(None, Some(MAX_ITEMS), None, false, Some(items))
  }

  const HIT_REQUIRED: seq<FieldDef> := [
    FieldDef("path", SafeText(256)), FieldDef("line", COUNT), FieldDef("score", FINITE),
    FieldDef("provenance", SafeText(128))]

  const HIT_OPTIONAL: seq<FieldDef> := [FieldDef("symbol", SafeText(128))]

  const HIT: FieldSpec := ObjectSpec(HIT_REQUIRED, HIT_OPTIONAL, true, [], None)

  function Own(kind: Kind): seq<FieldDef> {
    match kind
    case IntegrationStatus => [
      FieldDef("integration_id", ID), FieldDef("name", SafeText(128)), FieldDef("status", OneOf(STATUSES))]
    case AgentRun => [
      FieldDef("run_id", ID), FieldDef("state", OneOf(RUN_STATES)), FieldDef("step_count", COUNT),
      FieldDef("action_count", COUNT), FieldDef("budget_limit", COUNT), FieldDef("safe_summary", SafeText(MAX_SUMMARY))]
    case TimeSense => [
      FieldDef("task_age_seconds", FINITE), FieldDef("heartbeat_status", SafeText(64)),
      FieldDef("next_allowed_checkin", FINITE), FieldDef("suppression_state", SafeText(64)),
      FieldDef("background_status", SafeText(64))]
    case RepoIntel => [
      FieldDef("scan_state", SafeText(64)), FieldDef("query_summary", SafeText(128)), FieldDef("hit_count", COUNT),
      FieldDef("results", ListOf(HIT))]
    case SkillEvolution => [
      FieldDef("package_id", ID), FieldDef("version", SafeText(64)), FieldDef("state", OneOf(SKILL_STATES)),
      FieldDef("permissions_summary", ListOf(SafeText(128))), FieldDef("rollback_ready", FLAG),
      FieldDef("allows_auto_install", NEVER)]
    case HomeAssistant => [
      FieldDef("proposal_id", ID), FieldDef("entity_id", SafeText(128)), FieldDef("domain", SafeText(128)),
      FieldDef("service", SafeText(128)), FieldDef("risk", OneOf(RISKS)),
      FieldDef("effect_summary", SafeText(MAX_SUMMARY)),
      FieldDef("expires_at", FINITE), FieldDef("nonce", SafeText(80))]
    case EncryptedSync => [
      FieldDef("enabled", FLAG), FieldDef("configured", FLAG), FieldDef("status", SafeText(64)),
      FieldDef("conflict_count", COUNT), FieldDef("exposes_plaintext", NEVER)]
    case RemoteWorker => [
      FieldDef("job_id", ID), FieldDef("worker_id", ID), FieldDef("state", SafeText(64)),
      FieldDef("has_evidence", FLAG),
      FieldDef("quarantined", FLAG), FieldDef("verified_local_authority", NEVER)]
    case ModelEval => [
      FieldDef("candidate_id", ID), FieldDef("privacy_class", OneOf(PRIVACY_CLASSES)),
      FieldDef("capabilities", ListOf(SafeText(64))), FieldDef("quality_score", FINITE),
      FieldDef("safety_score", FINITE),
      FieldDef("latency_ms", FINITE), FieldDef("recommendation", SafeText(128))]
    case ErrorReport => [FieldDef("code", OneOf(ERROR_CODES)), FieldDef("message", SafeText(MAX_SUMMARY))]
  }

  function Required(kind: Kind): seq<FieldDef> {
    [FieldDef("request_id", ID), FieldDef("protocol_version", VERSION)] + Own(kind)
  }

  function Optional(kind: Kind): seq<FieldDef> {
    match kind
    case IntegrationStatus => [FieldDef("details_summary", SafeText(MAX_SUMMARY))]
    case TimeSense => [FieldDef("stuck_reason", SafeText(MAX_SUMMARY))]
    case ModelEval => [FieldDef("rejection_reason", SafeText(128))]
    case _ => []
  }

  function SpecOf(kind: Kind): MessageSpec {
    MessageSpec(Required(kind), Optional(kind), [], None)
  }

  // ---------- Registration ----------

  function Register(registry: map<string, ServerSpec>, kinds: seq<Kind>): map<string, ServerSpec> {
    if kinds == [] then registry
    else
      var last := kinds[|kinds| - 1];
      Register(registry, kinds[..|kinds| - 1])[TypeName(last) := Typed(SpecOf(last))]
  }

  lemma TypeNamesDiffer(a: Kind, b: Kind)
    requires TypeName(a) == TypeName(b)
    ensures a == b
  {
    if |TypeName(a)| == 24 {
      assert TypeName(a)[7] == TypeName(b)[7];
    }
  }

  /** Registration puts every frame's own specification in the registry and leaves the other messages alone. */
  lemma {:induction false} RegistrationFindsEachSpec(registry: map<string, ServerSpec>, kinds: seq<Kind>)
    ensures forall kind | kind in kinds ::
              TypeName(kind) in Register(registry, kinds)
                && Register(registry, kinds)[TypeName(kind)] == Typed(SpecOf(kind))
    ensures forall name | name in registry && (forall kind | kind in kinds :: TypeName(kind) != name) ::
              name in Register(registry, kinds) && Register(registry, kinds)[name] == registry[name]
  {
    hide TypeName, SpecOf;
    if kinds != [] {
      var front, last := kinds[..|kinds| - 1], kinds[|kinds| - 1];
      RegistrationFindsEachSpec(registry, front);
      forall kind | kind in kinds
        ensures TypeName(kind) in Register(registry, kinds)
                && Register(registry, kinds)[TypeName(kind)] == Typed(SpecOf(kind))
      {
        if TypeName(kind) == TypeName(last) {
          TypeNamesDiffer(kind, last);
        } else {
          assert kinds == front + [last];
          assert kind in front;
        }
      }
    }
  }

  lemma EveryKindIsListed(kind: Kind)
    ensures kind in KINDS
  {
    match kind
    case IntegrationStatus => assert KINDS[0] == kind;
    case AgentRun => assert KINDS[1] == kind;
    case TimeSense => assert KINDS[2] == kind;
    case RepoIntel => assert KINDS[3] == kind;
    case SkillEvolution => assert KINDS[4] == kind;
    case HomeAssistant => assert KINDS[5] == kind;
    case EncryptedSync => assert KINDS[6] == kind;
    case RemoteWorker => assert KINDS[7] == kind;
    case ModelEval => assert KINDS[8] == kind;
    case ErrorReport => assert KINDS[9] == kind;
  }

  // ---------- Frames laid out like their specification ----------

  datatype Slot = Slot(name: string, value: Value)

  /** A dictionary display: a later entry replaces an earlier one of the same name. */
  function Dict(slots: seq<Slot>): map<string, Value> {
    if slots == [] then map[]
    else Dict(slots[..|slots| - 1])[slots[|slots| - 1].name := slots[|slots| - 1].value]
  }

  predicate Distinct(defs: seq<FieldDef>) {
    forall i, j | 0 <= i < j < |defs| :: defs[i].name != defs[j].name
  }

  /** The slots name the fields in order. */
  predicate Follows(slots: seq<Slot>, defs: seq<FieldDef>) {
    |slots| == |defs| && forall k | 0 <= k < |slots| :: slots[k].name == defs[k].name
  }

  lemma NamesOfBoth(a: seq<FieldDef>, b: seq<FieldDef>)
    ensures Names(a + b) == Names(a) + Names(b)
  {
    var both := a + b;
    assert forall k | 0 <= k < |a| :: both[k] == a[k];
    assert forall k | 0 <= k < |b| :: both[|a| + k] == b[k];
  }

  /** A dictionary display holds each entry that no later one replaces. */
  lemma {:induction false} DictFinds(slots: seq<Slot>, k: nat)
    requires k < |slots| && forall m | k < m < |slots| :: slots[m].name != slots[k].name
    ensures slots[k].name in Dict(slots) && Dict(slots)[slots[k].name] == slots[k].value
  {
    var n := |slots| - 1;
    if k < n {
      assert slots[..n][k] == slots[k];
      DictFinds(slots[..n], k);
    }
  }

  lemma {:induction false} DictKeys(slots: seq<Slot>, defs: seq<FieldDef>)
    requires Follows(slots, defs)
    ensures Dict(slots).Keys == Names(defs)
  {
    if slots != [] {
      var n := |slots| - 1;
      DictKeys(slots[..n], defs[..n]);
      SplitLast(defs);
    }
  }

  lemma SplitLast(defs: seq<FieldDef>)
    requires defs != []
    ensures Names(defs) == Names(defs[..|defs| - 1]) + {defs[|defs| - 1].name}
  {
    var n := |defs| - 1;
    assert forall k | 0 <= k < n :: defs[..n][k] == defs[k];
  }

  /** Every slot's value conforms to the specification beside it. */
  ghost predicate SlotsConform(classes: Classes, slots: seq<Slot>, defs: seq<FieldDef>)
    requires |slots| == |defs|
  {
    forall k | 0 <= k < |slots| :: Conforms(classes, slots[k].value, defs[k].spec)
  }

  lemma {:induction false} ConformsSlotBySlot(
    classes: Classes, fields: map<string, Value>, slots: seq<Slot>, defs: seq<FieldDef>, overridden: set<string>)
    requires Follows(slots, defs) && forall k | 0 <= k < |defs| :: defs[k].name !in overridden
    requires forall k | 0 <= k < |slots| :: slots[k].name in fields && fields[slots[k].name] == slots[k].value
    ensures EachConforms(classes, fields, defs, overridden) <==> SlotsConform(classes, slots, defs)
  {
    hide Conforms;
  }

  /** The optional fields are either all absent or all given, in order. */
  predicate IsLaidOut(slots: seq<Slot>, rest: seq<Slot>, required: seq<FieldDef>, optional: seq<FieldDef>) {
    Follows(slots, required) && (rest == [] || Follows(rest, optional))
  }

  const TAG: FieldDef := FieldDef("type", ID)

  /** No field is specified twice, and none is the type tag. */
  predicate IsUnambiguous(required: seq<FieldDef>, optional: seq<FieldDef>) {
    Distinct([TAG] + required + optional)
  }

  lemma UnambiguousNames(required: seq<FieldDef>, optional: seq<FieldDef>)
    requires IsUnambiguous(required, optional)
    ensures Names(required) !! Names(optional)
    ensures "type" !in Names(required) + Names(optional)
  {
    var all := [TAG] + required + optional;
    assert all[0] == TAG;
    forall j | 0 <= j < |required| ensures all[1 + j] == required[j] && required[j].name != "type" {
    }
    forall k | 0 <= k < |optional|
      ensures optional[k].name != "type" && optional[k].name !in Names(required)
    {
      assert all[1 + |required| + k] == optional[k];
    }
  }

  /** What a laid-out frame holds: its tag, its entries, and no other field. */
  lemma FrameHolds(tag: Slot, slots: seq<Slot>, rest: seq<Slot>, required: seq<FieldDef>, optional: seq<FieldDef>)
    requires tag.name == "type" && IsLaidOut(slots, rest, required, optional) && IsUnambiguous(required, optional)
    ensures var message := Dict([tag] + slots + rest);
      && message.Keys == {"type"} + Names(required) + (if rest == [] then {} else Names(optional))
      && message["type"] == tag.value
      && (forall k | 0 <= k < |slots| :: slots[k].name in message && message[slots[k].name] == slots[k].value)
      && (forall k | 0 <= k < |rest| :: rest[k].name in message && message[rest[k].name] == rest[k].value)
  {
    hide Names, Dict, SlotsDistinct, IsLaidOut, IsUnambiguous;
    var all := [tag] + slots + rest;
    FrameIsDistinct(tag, slots, rest, required, optional);
    assert [tag] + (slots + rest) == all && all + [] == all;
    TagHolds(tag, slots + rest);
    EntriesHold([tag], slots, rest);
    EntriesHold([tag] + slots, rest, []);
  }

  lemma FrameIsDistinct(tag: Slot, slots: seq<Slot>, rest: seq<Slot>, required: seq<FieldDef>, optional: seq<FieldDef>)
    requires tag.name == "type" && IsLaidOut(slots, rest, required, optional) && IsUnambiguous(required, optional)
    ensures SlotsDistinct([tag] + slots + rest)
    ensures Dict([tag] + slots + rest).Keys ==
            {"type"} + Names(required) + (if rest == [] then {} else Names(optional))
  {
    var present := if rest == [] then [] else optional;
    assert [TAG] + required + present <= [TAG] + required + optional;
    hide Names, Dict, Distinct, SlotsDistinct;
    FollowsJoined(tag, slots, rest, required, present);
    NamesOfFrame(required, present);
    DictKeys([tag] + slots + rest, [TAG] + required + present);
    SlotsDiffer([tag] + slots + rest, [TAG] + required + present, [TAG] + required + optional);
  }

  lemma EntriesHold(before: seq<Slot>, slots: seq<Slot>, after: seq<Slot>)
    requires SlotsDistinct(before + slots + after)
    ensures var fields := Dict(before + slots + after);
      forall k | 0 <= k < |slots| :: slots[k].name in fields && fields[slots[k].name] == slots[k].value
  {
    hide Dict, SlotsDistinct;
    forall k | 0 <= k < |slots|
      ensures var fields := Dict(before + slots + after);
        slots[k].name in fields && fields[slots[k].name] == slots[k].value
    {
      EntryHolds(before, slots, after, k);
    }
  }

  predicate SlotsDistinct(slots: seq<Slot>) {
    forall i, j | 0 <= i < j < |slots| :: slots[i].name != slots[j].name
  }

  lemma EntryHolds(before: seq<Slot>, slots: seq<Slot>, after: seq<Slot>, k: nat)
    requires k < |slots| && SlotsDistinct(before + slots + after)
    ensures slots[k].name in Dict(before + slots + after)
            && Dict(before + slots + after)[slots[k].name] == slots[k].value
  {
    hide Dict;
    assert (before + slots + after)[|before| + k] == slots[k];
    DictFinds(before + slots + after, |before| + k);
  }

  lemma TagHolds(tag: Slot, after: seq<Slot>)
    requires SlotsDistinct([tag] + after)
    ensures tag.name in Dict([tag] + after) && Dict([tag] + after)[tag.name] == tag.value
  {
    hide Dict;
    DictFinds([tag] + after, 0);
  }

  lemma SlotsDiffer(all: seq<Slot>, defs: seq<FieldDef>, most: seq<FieldDef>)
    requires Follows(all, defs) && defs <= most && Distinct(most)
    ensures SlotsDistinct(all)
  {
    assert forall k | 0 <= k < |defs| :: defs[k] == most[k];
  }

  lemma NamesOfFrame(required: seq<FieldDef>, present: seq<FieldDef>)
    ensures Names([TAG] + required + present) == {"type"} + Names(required) + Names(present)
    ensures present == [] ==> Names(present) == {}
  {
    NamesOfBoth([TAG] + required, present);
    NamesOfBoth([TAG], required);
    assert [TAG][0].name in Names([TAG]);
  }

  lemma FollowsJoined(tag: Slot, slots: seq<Slot>, rest: seq<Slot>, required: seq<FieldDef>, present: seq<FieldDef>)
    requires tag.name == "type" && Follows(slots, required) && Follows(rest, present)
    ensures Follows([tag] + slots + rest, [TAG] + required + present)
  {
  }

  lemma AbsentConforms(classes: Classes, message: Message, specs: seq<FieldDef>)
    requires message.Keys !! Names(specs)
    ensures EachConforms(classes, message, specs, {})
  {
    assert forall k | 0 <= k < |specs| :: specs[k].name !in message.Keys;
  }

  /** A frame: its type, the identifier of the request it answers, the protocol version, and its own entries. */
  function FrameOf(kind: Kind, requestId: Value, own: seq<Slot>, rest: seq<Slot>): Message {
    Dict([Slot("type", Text(TypeName(kind))), Slot("request_id", requestId), Slot("protocol_version", Int(1))]
         + own + rest)
  }

  /** The message's field of this name is this value. */
  predicate Has(message: Message, name: string, v: Value) {
    name in message && message[name] == v
  }

  /** A message of this type that answers this request, in version one of the protocol. */
  predicate Answers(message: Message, typeName: string, requestId: Value) {
    Has(message, "type", Text(typeName)) && Has(message, "request_id", requestId)
      && Has(message, "protocol_version", Int(1))
  }

  ghost predicate IsAccepted(classes: Classes, registry: map<string, ServerSpec>, message: Message) {
    ValidateServerMessage(classes, Register(registry, KINDS), message).None?
  }

  lemma HeaderFollows(classes: Classes, kind: Kind, requestId: Value, own: seq<Slot>)
    requires requestId.Text? && IsIdentifier(requestId.s)
    requires Follows(own, Own(kind))
    ensures var slots := [Slot("request_id", requestId), Slot("protocol_version", Int(1))] + own;
      && Follows(slots, Required(kind))
      && (SlotsConform(classes, slots, Required(kind)) <==> SlotsConform(classes, own, Own(kind)))
  {
    hide Own;
    var slots := [Slot("request_id", requestId), Slot("protocol_version", Int(1))] + own;
    assert slots[0].value == requestId && slots[1].value == Int(1);
    assert Required(kind)[0].spec == ID && Required(kind)[1].spec == VERSION;
    if SlotsConform(classes, slots, Required(kind)) {
      forall k | 0 <= k < |own| ensures Conforms(classes, own[k].value, Own(kind)[k].spec) {
        assert slots[k + 2] == own[k];
      }
    }
  }

  // ---------- No kind names a field twice ----------

  /** A test of names that settles at once: they differ in length or in their third letter. */
  predicate AreApart(defs: seq<FieldDef>) {
    forall i, j | 0 <= i < j < |defs| ::
      |defs[i].name| != |defs[j].name| || (|defs[i].name| > 2 && defs[i].name[2] != defs[j].name[2])
  }

  lemma ApartIsDistinct(defs: seq<FieldDef>)
    requires AreApart(defs)
    ensures Distinct(defs)
  {
  }

  lemma IntegrationStatusFieldsAreApart()
    ensures AreApart([TAG] + Required(IntegrationStatus) + Optional(IntegrationStatus))
  {
  }

  lemma AgentRunFieldsAreApart()
    ensures AreApart([TAG] + Required(AgentRun) + Optional(AgentRun))
  {
  }

  lemma TimeSenseFieldsAreApart()
    ensures AreApart([TAG] + Required(TimeSense) + Optional(TimeSense))
  {
  }

  lemma RepoIntelFieldsAreApart()
    ensures AreApart([TAG] + Required(RepoIntel) + Optional(RepoIntel))
  {
  }

  lemma SkillEvolutionFieldsAreApart()
    ensures AreApart([TAG] + Required(SkillEvolution) + Optional(SkillEvolution))
  {
  }

  lemma HomeAssistantFieldsAreApart()
    ensures AreApart([TAG] + Required(HomeAssistant) + Optional(HomeAssistant))
  {
  }

  lemma EncryptedSyncFieldsAreApart()
    ensures AreApart([TAG] + Required(EncryptedSync) + Optional(EncryptedSync))
  {
  }

  lemma RemoteWorkerFieldsAreApart()
    ensures AreApart([TAG] + Required(RemoteWorker) + Optional(RemoteWorker))
  {
  }

  lemma ModelEvalFieldsAreApart()
    ensures AreApart([TAG] + Required(ModelEval) + Optional(ModelEval))
  {
    hide Required, Optional;
    ModelEvalFieldsApartUpTo(0, 7);
    ModelEvalFieldsApartUpTo(7, 11);
  }

  lemma ModelEvalFieldsApartUpTo(low: nat, high: nat)
    requires (low == 0 && high == 7) || (low == 7 && high == 11)
    ensures var defs := [TAG] + Required(ModelEval) + Optional(ModelEval);
      && |defs| == 11
      && forall i, j | 0 <= i < j && low <= j < high ::
           |defs[i].name| != |defs[j].name| || (|defs[i].name| > 2 && defs[i].name[2] != defs[j].name[2])
  {
  }

  lemma ErrorReportFieldsAreApart()
    ensures AreApart([TAG] + Required(ErrorReport) + Optional(ErrorReport))
  {
  }

  lemma FieldsAreUnambiguous(kind: Kind)
    ensures IsUnambiguous(Required(kind), Optional(kind))
  {
    hide Required, Optional, AreApart, Distinct;
    match kind {
      case IntegrationStatus => IntegrationStatusFieldsAreApart();
      case AgentRun => AgentRunFieldsAreApart();
      case TimeSense => TimeSenseFieldsAreApart();
      case RepoIntel => RepoIntelFieldsAreApart();
      case SkillEvolution => SkillEvolutionFieldsAreApart();
      case HomeAssistant => HomeAssistantFieldsAreApart();
      case EncryptedSync => EncryptedSyncFieldsAreApart();
      case RemoteWorker => RemoteWorkerFieldsAreApart();
      case ModelEval => ModelEvalFieldsAreApart();
      case ErrorReport => ErrorReportFieldsAreApart();
    }
    ApartIsDistinct([TAG] + Required(kind) + Optional(kind));
  }

  /**
   A frame whose entries follow its specification has its type and answers its request, carries those
   entries and no other, and the validator accepts it exactly when each of them conforms.
   */
  lemma {:induction false} FrameDecides(
    classes: Classes, registry: map<string, ServerSpec>, kind: Kind, requestId: Value, own: seq<Slot>, rest: seq<Slot>)
    requires requestId.Text? && IsIdentifier(requestId.s)
    requires Follows(own, Own(kind)) && (rest == [] || Follows(rest, Optional(kind)))
    ensures var frame := FrameOf(kind, requestId, own, rest);
      && (IsAccepted(classes, registry, frame)
          <==> SlotsConform(classes, own, Own(kind)) && (rest != [] ==> SlotsConform(classes, rest, Optional(kind))))
      && Answers(frame, TypeName(kind), requestId)
      && (forall k | 0 <= k < |own| :: own[k].name in frame && frame[own[k].name] == own[k].value)
      && (forall k | 0 <= k < |rest| :: rest[k].name in frame && frame[rest[k].name] == rest[k].value)
      && frame.Keys == {"type"} + Names(Required(kind)) + (if rest == [] then {} else Names(Optional(kind)))
      && (rest == [] ==> frame.Keys !! Names(Optional(kind)))
  {
    hide TypeName, Required, Own, Optional, Dict, Register, Conforms, EachConforms, SlotsConform, IsUnambiguous, Names;
    hide ValidateMessage, IsIdentifier;
    var tag := Slot("type", Text(TypeName(kind)));
    var slots := [Slot("request_id", requestId), Slot("protocol_version", Int(1))] + own;
    var frame := Dict([tag] + slots + rest);
    assert FrameOf(kind, requestId, own, rest) == frame by {
      assert [tag, Slot("request_id", requestId), Slot("protocol_version", Int(1))] + own + rest ==
             [tag] + slots + rest;
    }
    HeaderFollows(classes, kind, requestId, own);
    FieldsAreUnambiguous(kind);
    FrameHolds(tag, slots, rest, Required(kind), Optional(kind));
    LaidOutDecides(classes, registry, kind, frame, slots, rest);
    UnambiguousNames(Required(kind), Optional(kind));
    assert slots[0] == Slot("request_id", requestId) && slots[1] == Slot("protocol_version", Int(1));
    assert forall k | 0 <= k < |own| :: slots[k + 2] == own[k];
  }

  lemma {:induction false} LaidOutDecides(
    classes: Classes, registry: map<string, ServerSpec>, kind: Kind, frame: Message, slots: seq<Slot>, rest: seq<Slot>)
    requires IsLaidOut(slots, rest, Required(kind), Optional(kind)) && IsUnambiguous(Required(kind), Optional(kind))
    requires frame.Keys == {"type"} + Names(Required(kind)) + (if rest == [] then {} else Names(Optional(kind)))
    requires frame["type"] == Text(TypeName(kind))
    requires forall k | 0 <= k < |slots| :: slots[k].name in frame && frame[slots[k].name] == slots[k].value
    requires forall k | 0 <= k < |rest| :: rest[k].name in frame && frame[rest[k].name] == rest[k].value
    ensures IsAccepted(classes, registry, frame)
            <==> SlotsConform(classes, slots, Required(kind))
                 && (rest != [] ==> SlotsConform(classes, rest, Optional(kind)))
  {
    hide TypeName, Required, Optional, Dict, Register, Conforms, EachConforms, SlotsConform, IsUnambiguous;
    hide ValidateMessage;
    var required, optional := Required(kind), Optional(kind);
    EveryKindIsListed(kind);
    RegistrationFindsEachSpec(registry, KINDS);
    UnambiguousNames(required, optional);
    MessageDecides(classes, frame, SpecOf(kind));
    ConformsSlotBySlot(classes, frame, slots, required, Names(optional));
    if rest != [] {
      ConformsSlotBySlot(classes, frame, rest, optional, {});
    } else {
      AbsentConforms(classes, frame, optional);
    }
  }
}
