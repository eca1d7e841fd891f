/**
 The builders of the command-centre's server frames. A builder takes values whose types nobody has
 checked, and either refuses them or returns a frame; the validator then accepts that frame exactly
 when its texts hold no control character and no format character. The builders themselves let tabs,
 line breaks and many format characters through, so the condition is not void.
 */
module Frames {
  import opened Options
  import opened ActionPolicy
  import opened Protocol
  import opened FrameSchema

  datatype Built = Frame(message: Message) | Refused

  predicate IsId(v: Value) {
    v.Text? && IsIdentifier(v.s)
  }

  /** The builders' own list: the directional marks, the invisible operators and the byte order mark. */
  predicate IsMark(c: char) {
    var code := c as int;
    code == 0x200e || code == 0x200f || 0x202a <= code <= 0x202e || 0x2060 <= code <= 0x2069 || code == 0xfeff
  }

  predicate IsRefusedControl(c: char) {
    var code := c as int;
    (code < 32 && code != 9 && code != 10 && code != 13) || code == 127
  }

  predicate IsSafeText(v: Value, limit: nat) {
    v.Text? && 1 <= |v.s| <= limit && forall c | c in v.s :: !IsMark(c) && !IsRefusedControl(c)
  }

  predicate IsFiniteNumber(v: Value) {
    v.Int? || (v.Float? && v.f.Finite?)
  }

  function Real(v: Value): real
    requires IsFiniteNumber(v)
  {
    if v.Int? then v.i as real else v.f.r
  }

  function AsFloat(v: Value): Value
    requires IsFiniteNumber(v)
  {
    Float(Finite(Real(v)))
  }

  predicate IsCount(v: Value) {
    v.Int? && v.i >= 0
  }

  predicate IsNonNegative(v: Value) {
    IsFiniteNumber(v) && Real(v) >= 0.0
  }

  predicate IsScore(v: Value) {
    IsFiniteNumber(v) && 0.0 <= Real(v) <= 1.0
  }

  /** A measure is a number of either kind and at least zero, and a score at most one. */
  lemma MeasuresAndScores(v: Value)
    ensures IsNonNegative(v) <==> (v.Int? && v.i >= 0) || (v.Float? && v.f.Finite? && v.f.r >= 0.0)
    ensures IsScore(v) <==> v in {Int(0), Int(1)} || (v.Float? && v.f.Finite? && 0.0 <= v.f.r <= 1.0)
  {
  }

  predicate IsOneOf(v: Value, names: seq<string>) {
    v.Text? && v.s in names
  }

  predicate IsAbsentOrSafe(v: Value, limit: nat) {
    v == Null || IsSafeText(v, limit)
  }

  /** Nothing may be given for an optional text, and any text that is safe. */
  lemma AbsentAndSafe(v: Value, limit: nat)
    ensures IsAbsentOrSafe(Null, limit) && (IsAbsentOrSafe(v, limit) && v != Null ==> v.Text? && v.s != "")
    ensures IsSafeText(v, limit) ==> IsAbsentOrSafe(v, limit)
  {
  }

  /** Whatever of plain characters has the right length is safe. */
  lemma PlainIsSafe(s: string, limit: nat)
    requires 1 <= |s| <= limit && forall c | c in s :: ' ' <= c <= '~'
    ensures IsSafeText(Text(s), limit)
  {
  }

  /** No control character and no format character. */
  predicate IsClean(classes: Classes, v: Value) {
    v.Text? ==> forall c | c in v.s :: !IsControl(c) && !classes.isFormat(c)
  }

  function Given(name: string, v: Value): seq<Slot> {
    if v == Null then [] else [Slot(name, v)]
  }

  // ---------- What the validator makes of each kind of value ----------

  lemma SafeTextIsAcceptedWhenClean(classes: Classes, v: Value, limit: nat)
    requires IsSafeText(v, limit)
    ensures Conforms(classes, v, SafeText(limit)) <==> IsClean(classes, v)
  {
  }

  lemma SafeTextsAreAcceptedWhenClean(classes: Classes, items: seq<Value>, limit: nat)
    requires |items| <= MAX_ITEMS && forall item | item in items :: IsSafeText(item, limit)
    ensures Conforms(classes, List(items), ListOf(SafeText(limit))) <==>
            forall item | item in items :: IsClean(classes, item)
  {
    hide SafeText, IsSafeText, IsClean;
    forall item | item in items
      ensures Conforms(classes, item, SafeText(limit)) <==> IsClean(classes, item)
    {
      SafeTextIsAcceptedWhenClean(classes, item, limit);
    }
  }

  /** An entry the validator always accepts. */
  ghost predicate IsPlain(v: Value, spec: FieldSpec) {
    || (spec == ID && IsId(v))
    || (spec == COUNT && IsCount(v))
    || (spec == FINITE && IsFiniteNumber(v))
    || (spec == FLAG && v.Bool?)
    || (spec == NEVER && v == Bool(false))
    || (spec.StringSpec? && spec.names.Some? && spec == OneOf(spec.names.value) && IsOneOf(v, spec.names.value))
  }

  lemma PlainConforms(classes: Classes, v: Value, spec: FieldSpec)
    requires IsPlain(v, spec)
    ensures Conforms(classes, v, spec)
  {
  }

  lemma NothingIsClean(classes: Classes)
    ensures IsClean(classes, Null)
  {
  }

  lemma OptionalNames()
    ensures "details_summary" in Names(Optional(IntegrationStatus))
    ensures "stuck_reason" in Names(Optional(TimeSense)) && "rejection_reason" in Names(Optional(ModelEval))
  {
    assert Optional(IntegrationStatus)[0].name == "details_summary";
    assert Optional(TimeSense)[0].name == "stuck_reason";
    assert Optional(ModelEval)[0].name == "rejection_reason";
  }

  // ---------- Builders ----------

  function BuildIntegrationStatus(
    requestId: Value, integrationId: Value, name: Value, status: Value, details: Value): (r: Built)
    ensures r.Frame? <==>
              && IsId(requestId) && IsId(integrationId) && IsSafeText(name, 128) && IsOneOf(status, STATUSES)
              && IsAbsentOrSafe(details, MAX_SUMMARY)
  {
    if !IsId(requestId) || !IsId(integrationId) then Refused
    else if !IsOneOf(status, STATUSES) then Refused
    else if !IsSafeText(name, 128) then Refused
    else if !IsAbsentOrSafe(details, MAX_SUMMARY) then Refused
    else Frame(FrameOf(IntegrationStatus, requestId, [
      Slot("integration_id", integrationId),
      Slot("name", name),
      Slot("status", status)],
      Given("details_summary", details)))
  }

  lemma {:induction false} IntegrationStatusIsAcceptedWhenClean(
    classes: Classes, registry: map<string, ServerSpec>,
    requestId: Value, integrationId: Value, name: Value, status: Value, details: Value)
    requires BuildIntegrationStatus(requestId, integrationId, name, status, details).Frame?
    ensures var frame := BuildIntegrationStatus(requestId, integrationId, name, status, details).message;
      && Answers(frame, "phase6_integration_status", requestId)
      && (IsAccepted(classes, registry, frame) <==> IsClean(classes, name) && IsClean(classes, details))
      && Has(frame, "integration_id", integrationId) && Has(frame, "name", name)
      && Has(frame, "status", status)
        && (if details != Null then Has(frame, "details_summary", details) else "details_summary" !in frame)
  {
    hide Answers, Names, Conforms, FrameOf, IsAccepted, IsSafeText, SafeText;
    var own := [Slot("integration_id", integrationId), Slot("name", name), Slot("status", status)];
    var rest := Given("details_summary", details);
    OptionalNames();
    FrameDecides(classes, registry, IntegrationStatus, requestId, own, rest);
    PlainConforms(classes, own[0].value, ID);
    SafeTextIsAcceptedWhenClean(classes, own[1].value, 128);
    PlainConforms(classes, own[2].value, OneOf(STATUSES));
    if details != Null {
      SafeTextIsAcceptedWhenClean(classes, rest[0].value, MAX_SUMMARY);
    }
  }

  function BuildAgentRun(
    requestId: Value, runId: Value, state: Value, steps: Value, actions: Value, budget: Value,
    summary: Value): (r: Built)
    ensures r.Frame? <==>
              && IsId(requestId) && IsId(runId) && IsOneOf(state, RUN_STATES)
              && IsCount(steps) && IsCount(actions) && IsCount(budget) && IsSafeText(summary, MAX_SUMMARY)
  {
    if !IsId(requestId) || !IsId(runId) then Refused
    else if !IsOneOf(state, RUN_STATES) then Refused
    else if !IsCount(steps) || !IsCount(actions) || !IsCount(budget) then Refused
    else if !IsSafeText(summary, MAX_SUMMARY) then Refused
    else Frame(FrameOf(AgentRun, requestId, AgentRunSlots(runId, state, steps, actions, budget, summary), []))
  }

  function AgentRunSlots(
    runId: Value, state: Value, steps: Value, actions: Value, budget: Value, summary: Value): seq<Slot>
  {
    [
      Slot("run_id", runId),
      Slot("state", state),
      Slot("step_count", steps),
      Slot("action_count", actions),
      Slot("budget_limit", budget),
      Slot("safe_summary", summary)]
  }

  lemma AgentRunSlotsConform(
    classes: Classes, runId: Value, state: Value, steps: Value, actions: Value, budget: Value, summary: Value)
    requires IsId(runId) && IsOneOf(state, RUN_STATES) && IsCount(steps) && IsCount(actions) && IsCount(budget)
    requires IsSafeText(summary, MAX_SUMMARY)
    ensures var own := AgentRunSlots(runId, state, steps, actions, budget, summary);
      Follows(own, Own(AgentRun)) && (SlotsConform(classes, own, Own(AgentRun)) <==> IsClean(classes, summary))
  {
    hide Conforms, IsSafeText, SafeText, IsClean;
    var own := AgentRunSlots(runId, state, steps, actions, budget, summary);
    PlainConforms(classes, own[0].value, ID);
    PlainConforms(classes, own[1].value, OneOf(RUN_STATES));
    PlainConforms(classes, own[2].value, COUNT);
    PlainConforms(classes, own[3].value, COUNT);
    PlainConforms(classes, own[4].value, COUNT);
    SafeTextIsAcceptedWhenClean(classes, own[5].value, MAX_SUMMARY);
  }

  lemma {:induction false} AgentRunIsAcceptedWhenClean(
    classes: Classes, registry: map<string, ServerSpec>,
    requestId: Value, runId: Value, state: Value, steps: Value, actions: Value, budget: Value, summary: Value)
    requires BuildAgentRun(requestId, runId, state, steps, actions, budget, summary).Frame?
    ensures var frame := BuildAgentRun(requestId, runId, state, steps, actions, budget, summary).message;
      && Answers(frame, "phase6_agent_run_update", requestId)
      && (IsAccepted(classes, registry, frame) <==> IsClean(classes, summary))
      && Has(frame, "run_id", runId) && Has(frame, "state", state)
      && Has(frame, "step_count", steps) && Has(frame, "action_count", actions)
      && Has(frame, "budget_limit", budget) && Has(frame, "safe_summary", summary)
  {
    hide FrameOf, IsAccepted, IsSafeText, Required, Own, SlotsConform, IsClean, Answers, Names;
    var own := AgentRunSlots(runId, state, steps, actions, budget, summary);
    AgentRunSlotsConform(classes, runId, state, steps, actions, budget, summary);
    FrameDecides(classes, registry, AgentRun, requestId, own, []);
    assert own[0].value == runId && own[1].value == state && own[2].value == steps;
    assert own[3].value == actions && own[4].value == budget && own[5].value == summary;
  }

  function BuildTimeSense(
    requestId: Value, age: Value, heartbeat: Value, stuck: Value, nextCheckin: Value, suppression: Value,
    background: Value): (r: Built)
    ensures r.Frame? <==>
              && IsId(requestId) && IsNonNegative(age) && IsNonNegative(nextCheckin) && IsSafeText(heartbeat, 64)
              && IsSafeText(suppression, 64) && IsSafeText(background, 64) && IsAbsentOrSafe(stuck, MAX_SUMMARY)
  {
    if !IsId(requestId) then Refused
    else if !IsNonNegative(age) then Refused
    else if !IsNonNegative(nextCheckin) then Refused
    else if !IsSafeText(heartbeat, 64) || !IsSafeText(suppression, 64) || !IsSafeText(background, 64) then Refused
    else if !IsAbsentOrSafe(stuck, MAX_SUMMARY) then Refused
    else Frame(FrameOf(TimeSense, requestId, TimeSenseSlots(age, heartbeat, nextCheckin, suppression, background),
      Given("stuck_reason", stuck)))
  }

  function TimeSenseSlots(
    age: Value, heartbeat: Value, nextCheckin: Value, suppression: Value, background: Value): seq<Slot>
  {
    [
      Slot("task_age_seconds", age),
      Slot("heartbeat_status", heartbeat),
      Slot("next_allowed_checkin", nextCheckin),
      Slot("suppression_state", suppression),
      Slot("background_status", background)]
  }

  lemma TimeSenseSlotsConform(
    classes: Classes, age: Value, heartbeat: Value, nextCheckin: Value, suppression: Value, background: Value)
    requires IsFiniteNumber(age) && IsFiniteNumber(nextCheckin)
    requires IsSafeText(heartbeat, 64) && IsSafeText(suppression, 64) && IsSafeText(background, 64)
    ensures var own := TimeSenseSlots(age, heartbeat, nextCheckin, suppression, background);
      && Follows(own, Own(TimeSense))
      && (SlotsConform(classes, own, Own(TimeSense))
          <==> IsClean(classes, heartbeat) && IsClean(classes, suppression) && IsClean(classes, background))
  {
    hide Conforms, IsSafeText, SafeText, IsClean;
    var own := TimeSenseSlots(age, heartbeat, nextCheckin, suppression, background);
    PlainConforms(classes, own[0].value, FINITE);
    SafeTextIsAcceptedWhenClean(classes, own[1].value, 64);
    PlainConforms(classes, own[2].value, FINITE);
    SafeTextIsAcceptedWhenClean(classes, own[3].value, 64);
    SafeTextIsAcceptedWhenClean(classes, own[4].value, 64);
  }

  lemma {:induction false} TimeSenseIsAcceptedWhenClean(
    classes: Classes, registry: map<string, ServerSpec>,
    requestId: Value, age: Value, heartbeat: Value, stuck: Value, nextCheckin: Value, suppression: Value,
    background: Value)
    requires BuildTimeSense(requestId, age, heartbeat, stuck, nextCheckin, suppression, background).Frame?
    ensures var frame := BuildTimeSense(requestId, age, heartbeat, stuck, nextCheckin, suppression, background).message;
      && Answers(frame, "phase6_time_sense_update", requestId)
      && (IsAccepted(classes, registry, frame)
          <==> IsClean(classes, heartbeat) && IsClean(classes, suppression) && IsClean(classes, background)
               && IsClean(classes, stuck))
      && Has(frame, "task_age_seconds", age) && Has(frame, "heartbeat_status", heartbeat)
      && Has(frame, "next_allowed_checkin", nextCheckin) && Has(frame, "suppression_state", suppression)
      && Has(frame, "background_status", background)
        && (if stuck != Null then Has(frame, "stuck_reason", stuck) else "stuck_reason" !in frame)
    ensures IsNonNegative(age) && IsNonNegative(nextCheckin)
  {
    hide FrameOf, IsAccepted, IsSafeText, Required, Own, SlotsConform, IsClean, Answers, Names;
    var own := TimeSenseSlots(age, heartbeat, nextCheckin, suppression, background);
    var rest := Given("stuck_reason", stuck);
    TimeSenseSlotsConform(classes, age, heartbeat, nextCheckin, suppression, background);
    OptionalNames();
    assert rest == [] || Follows(rest, Optional(TimeSense));
    FrameDecides(classes, registry, TimeSense, requestId, own, rest);
    assert own[0].value == age && own[1].value == heartbeat && own[2].value == nextCheckin;
    assert own[3].value == suppression && own[4].value == background;
    if stuck != Null {
      OneTextConforms(classes, rest, stuck, MAX_SUMMARY, Optional(TimeSense));
    } else {
      assert IsClean(classes, stuck) by {
        NothingIsClean(classes);
      }
    }
  }

  function BuildHomeAssistant(
    requestId: Value, proposalId: Value, entity: Value, domain: Value, service: Value, risk: Value, effect: Value,
    expires: Value, nonce: Value): (r: Built)
    ensures r.Frame? <==>
              && IsId(requestId) && IsId(proposalId) && IsOneOf(risk, RISKS) && IsFiniteNumber(expires)
              && IsSafeText(entity, 128) && IsSafeText(domain, 128) && IsSafeText(service, 128)
              && IsSafeText(effect, MAX_SUMMARY) && IsSafeText(nonce, 80)
              && '*' !in entity.s + domain.s + service.s
  {
    if !IsId(requestId) || !IsId(proposalId) then Refused
    else if !IsSafeText(entity, 128) || !IsSafeText(domain, 128) || !IsSafeText(service, 128) then Refused
    else if '*' in entity.s || '*' in domain.s || '*' in service.s then Refused
    else if !IsOneOf(risk, RISKS) then Refused
    else if !IsSafeText(effect, MAX_SUMMARY) then Refused
    else if !IsFiniteNumber(expires) || !IsSafeText(nonce, 80) then Refused
    else Frame(FrameOf(
      HomeAssistant, requestId, HomeAssistantSlots(proposalId, entity, domain, service, risk, effect, expires, nonce),
        []))
  }

  function HomeAssistantSlots(
    proposalId: Value, entity: Value, domain: Value, service: Value, risk: Value, effect: Value, expires: Value,
    nonce: Value)
    : seq<Slot>
  {
    [
      Slot("proposal_id", proposalId),
      Slot("entity_id", entity),
      Slot("domain", domain),
      Slot("service", service),
      Slot("risk", risk),
      Slot("effect_summary", effect),
      Slot("expires_at", expires),
      Slot("nonce", nonce)]
  }

  lemma HomeAssistantSlotsConform(
    classes: Classes,
    proposalId: Value, entity: Value, domain: Value, service: Value, risk: Value, effect: Value, expires: Value,
    nonce: Value)
    requires IsId(proposalId) && IsSafeText(entity, 128) && IsSafeText(domain, 128) && IsSafeText(service, 128)
    requires IsOneOf(risk, RISKS) && IsSafeText(effect, MAX_SUMMARY) && IsFiniteNumber(expires) && IsSafeText(nonce, 80)
    ensures var own := HomeAssistantSlots(proposalId, entity, domain, service, risk, effect, expires, nonce);
      && Follows(own, Own(HomeAssistant))
      && (SlotsConform(classes, own, Own(HomeAssistant))
          <==> IsClean(classes, entity) && IsClean(classes, domain) && IsClean(classes, service)
               && IsClean(classes, effect)
               && IsClean(classes, nonce))
  {
    hide Conforms, IsSafeText, SafeText, IsClean;
    var own := HomeAssistantSlots(proposalId, entity, domain, service, risk, effect, expires, nonce);
    PlainConforms(classes, own[0].value, ID);
    SafeTextIsAcceptedWhenClean(classes, own[1].value, 128);
    SafeTextIsAcceptedWhenClean(classes, own[2].value, 128);
    SafeTextIsAcceptedWhenClean(classes, own[3].value, 128);
    PlainConforms(classes, own[4].value, OneOf(RISKS));
    SafeTextIsAcceptedWhenClean(classes, own[5].value, MAX_SUMMARY);
    PlainConforms(classes, own[6].value, FINITE);
    SafeTextIsAcceptedWhenClean(classes, own[7].value, 80);
  }

  lemma {:induction false} HomeAssistantIsAcceptedWhenClean(
    classes: Classes, registry: map<string, ServerSpec>,
    requestId: Value, proposalId: Value, entity: Value, domain: Value, service: Value, risk: Value, effect: Value,
    expires: Value, nonce: Value)
    requires BuildHomeAssistant(requestId, proposalId, entity, domain, service, risk, effect, expires, nonce).Frame?
    ensures var frame := BuildHomeAssistant(
                           requestId, proposalId, entity, domain, service, risk, effect, expires, nonce).message;
      && Answers(frame, "phase6_home_assistant_proposal", requestId)
      && (IsAccepted(classes, registry, frame)
          <==> IsClean(classes, entity) && IsClean(classes, domain) && IsClean(classes, service)
               && IsClean(classes, effect) && IsClean(classes, nonce))
      && Has(frame, "proposal_id", proposalId) && Has(frame, "entity_id", entity)
      && Has(frame, "domain", domain) && Has(frame, "service", service)
      && Has(frame, "risk", risk) && Has(frame, "effect_summary", effect)
      && Has(frame, "expires_at", expires) && Has(frame, "nonce", nonce)
    ensures '*' !in entity.s + domain.s + service.s
  {
    hide Answers, Names, Conforms, FrameOf, IsAccepted, IsSafeText, SafeText, Required, Own, SlotsConform, IsClean;
    var own := HomeAssistantSlots(proposalId, entity, domain, service, risk, effect, expires, nonce);
    HomeAssistantSlotsConform(classes, proposalId, entity, domain, service, risk, effect, expires, nonce);
    FrameDecides(classes, registry, HomeAssistant, requestId, own, []);
    assert own[0].value == proposalId && own[1].value == entity && own[2].value == domain && own[3].value == service;
    assert own[4].value == risk && own[5].value == effect && own[6].value == expires && own[7].value == nonce;
  }

  function BuildEncryptedSync(
    requestId: Value, enabled: Value, configured: Value, status: Value, conflicts: Value): (r: Built)
    ensures r.Frame? <==>
              && IsId(requestId) && enabled.Bool? && configured.Bool? && IsSafeText(status, 64) && IsCount(conflicts)
  {
    if !IsId(requestId) then Refused
    else if !enabled.Bool? || !configured.Bool? then Refused
    else if !IsSafeText(status, 64) || !IsCount(conflicts) then Refused
    else Frame(FrameOf(EncryptedSync, requestId, [
      Slot("enabled", enabled),
      Slot("configured", configured),
      Slot("status", status),
      Slot("conflict_count", conflicts),
      Slot("exposes_plaintext", Bool(false))],
      []))
  }

  lemma {:induction false} EncryptedSyncIsAcceptedWhenClean(
    classes: Classes, registry: map<string, ServerSpec>,
    requestId: Value, enabled: Value, configured: Value, status: Value, conflicts: Value)
    requires BuildEncryptedSync(requestId, enabled, configured, status, conflicts).Frame?
    ensures var frame := BuildEncryptedSync(requestId, enabled, configured, status, conflicts).message;
      && Answers(frame, "phase6_encrypted_sync_update", requestId)
      && (IsAccepted(classes, registry, frame) <==> IsClean(classes, status))
      && Has(frame, "enabled", enabled) && Has(frame, "configured", configured)
      && Has(frame, "status", status) && Has(frame, "conflict_count", conflicts)
      && Has(frame, "exposes_plaintext", Bool(false))
  {
    hide Answers, Names, Conforms, FrameOf, IsAccepted, IsSafeText, SafeText;
    var own := [
      Slot("enabled", enabled), Slot("configured", configured), Slot("status", status),
      Slot("conflict_count", conflicts), Slot("exposes_plaintext", Bool(false))];
    FrameDecides(classes, registry, EncryptedSync, requestId, own, []);
    PlainConforms(classes, own[0].value, FLAG);
    PlainConforms(classes, own[1].value, FLAG);
    SafeTextIsAcceptedWhenClean(classes, own[2].value, 64);
    PlainConforms(classes, own[3].value, COUNT);
    PlainConforms(classes, own[4].value, NEVER);
  }

  function BuildRemoteWorker(
    requestId: Value, jobId: Value, workerId: Value, state: Value, hasEvidence: Value, quarantined: Value): (r: Built)
    ensures r.Frame? <==>
              && IsId(requestId) && IsId(jobId) && IsId(workerId) && IsSafeText(state, 64)
              && hasEvidence.Bool? && quarantined.Bool?
  {
    if !IsId(requestId) || !IsId(jobId) || !IsId(workerId) then Refused
    else if !hasEvidence.Bool? || !quarantined.Bool? then Refused
    else if !IsSafeText(state, 64) then Refused
    else Frame(FrameOf(RemoteWorker, requestId, WorkerSlots(jobId, workerId, state, hasEvidence, quarantined), []))
  }

  function WorkerSlots(
    jobId: Value, workerId: Value, state: Value, hasEvidence: Value, quarantined: Value): seq<Slot>
  {
    [
      Slot("job_id", jobId),
      Slot("worker_id", workerId),
      Slot("state", state),
      Slot("has_evidence", hasEvidence),
      Slot("quarantined", quarantined),
      Slot("verified_local_authority", Bool(false))]
  }

  lemma WorkerSlotsConform(
    classes: Classes, jobId: Value, workerId: Value, state: Value, hasEvidence: Value, quarantined: Value)
    requires IsId(jobId) && IsId(workerId) && IsSafeText(state, 64) && hasEvidence.Bool? && quarantined.Bool?
    ensures var own := WorkerSlots(jobId, workerId, state, hasEvidence, quarantined);
      Follows(own, Own(RemoteWorker)) && (SlotsConform(classes, own, Own(RemoteWorker)) <==> IsClean(classes, state))
  {
    hide Conforms, IsSafeText, SafeText, IsClean;
    var own := WorkerSlots(jobId, workerId, state, hasEvidence, quarantined);
    PlainConforms(classes, own[0].value, ID);
    PlainConforms(classes, own[1].value, ID);
    SafeTextIsAcceptedWhenClean(classes, own[2].value, 64);
    PlainConforms(classes, own[3].value, FLAG);
    PlainConforms(classes, own[4].value, FLAG);
    PlainConforms(classes, own[5].value, NEVER);
  }

  lemma {:induction false} RemoteWorkerIsAcceptedWhenClean(
    classes: Classes, registry: map<string, ServerSpec>,
    requestId: Value, jobId: Value, workerId: Value, state: Value, hasEvidence: Value, quarantined: Value)
    requires BuildRemoteWorker(requestId, jobId, workerId, state, hasEvidence, quarantined).Frame?
    ensures var frame := BuildRemoteWorker(requestId, jobId, workerId, state, hasEvidence, quarantined).message;
      && Answers(frame, "phase6_remote_worker_update", requestId)
      && (IsAccepted(classes, registry, frame) <==> IsClean(classes, state))
      && Has(frame, "job_id", jobId) && Has(frame, "worker_id", workerId)
      && Has(frame, "state", state) && Has(frame, "has_evidence", hasEvidence)
      && Has(frame, "quarantined", quarantined) && Has(frame, "verified_local_authority", Bool(false))
  {
    hide FrameOf, IsAccepted, IsSafeText, Required, Own, SlotsConform, IsClean, Answers, Names;
    var own := WorkerSlots(jobId, workerId, state, hasEvidence, quarantined);
    WorkerSlotsConform(classes, jobId, workerId, state, hasEvidence, quarantined);
    FrameDecides(classes, registry, RemoteWorker, requestId, own, []);
    assert own[0].value == jobId && own[1].value == workerId && own[2].value == state;
    assert own[3].value == hasEvidence && own[4].value == quarantined && own[5].value == Bool(false);
  }

  // ---------- Builders that check a list entry by entry ----------

  /** The listed values are all safe and within the number the protocol allows. */
  predicate AreSafeTexts(items: seq<Value>, limit: nat) {
    |items| <= MAX_ITEMS && forall item | item in items :: IsSafeText(item, limit)
  }

  method CheckTexts(items: seq<Value>, limit: nat) returns (clean: Option<seq<Value>>)
    ensures clean == if AreSafeTexts(items, limit) then Some(items) else None
  {
    if |items| > MAX_ITEMS {
      return None;
    }
    var kept: seq<Value> := [];
    for i := 0 to |items|
      invariant kept == items[..i]
      invariant forall item | item in kept :: IsSafeText(item, limit)
    {
      if !IsSafeText(items[i], limit) {
        return None;
      }
      kept := kept + [items[i]];
    }
    assert items[..|items|] == items;
    return Some(kept);
  }

  function SkillEvolutionFrame(
    requestId: Value, packageId: Value, version: Value, state: Value, permissions: seq<Value>,
    rollbackReady: Value): (r: Built)
    ensures r.Frame? <==>
              && IsId(requestId) && IsId(packageId) && IsSafeText(version, 64) && IsOneOf(state, SKILL_STATES)
              && rollbackReady.Bool? && |permissions| <= 64
              && forall item | item in permissions :: IsSafeText(item, 128)
  {
    if IsId(requestId) && IsId(packageId) && IsOneOf(state, SKILL_STATES) && IsSafeText(version, 64)
      && rollbackReady.Bool?
       && AreSafeTexts(permissions, 128)
    then Frame(FrameOf(SkillEvolution, requestId, SkillSlots(packageId, version, state, permissions, rollbackReady),
      []))
    else Refused
  }

  function SkillSlots(
    packageId: Value, version: Value, state: Value, permissions: seq<Value>, rollbackReady: Value): seq<Slot> {
    [
      Slot("package_id", packageId),
      Slot("version", version),
      Slot("state", state),
      Slot("permissions_summary", List(permissions)),
      Slot("rollback_ready", rollbackReady),
      Slot("allows_auto_install", Bool(false))]
  }

  method BuildSkillEvolution(
    requestId: Value, packageId: Value, version: Value, state: Value, permissions: seq<Value>, rollbackReady: Value)
    returns (built: Built)
    ensures built == SkillEvolutionFrame(requestId, packageId, version, state, permissions, rollbackReady)
  {
    hide FrameOf, IsSafeText, AreSafeTexts, IsOneOf;
    if !IsId(requestId) || !IsId(packageId) {
      return Refused;
    }
    if !IsOneOf(state, SKILL_STATES) {
      return Refused;
    }
    if !IsSafeText(version, 64) || !rollbackReady.Bool? {
      return Refused;
    }
    var clean := CheckTexts(permissions, 128);
    if clean.None? {
      return Refused;
    }
    return Frame(FrameOf(SkillEvolution, requestId, SkillSlots(packageId, version, state, clean.value, rollbackReady),
      []));
  }

  lemma SkillSlotsConform(
    classes: Classes, packageId: Value, version: Value, state: Value, permissions: seq<Value>, rollbackReady: Value)
    requires IsId(packageId) && IsSafeText(version, 64) && IsOneOf(state, SKILL_STATES)
             && AreSafeTexts(permissions, 128)
    requires rollbackReady.Bool?
    ensures var own := SkillSlots(packageId, version, state, permissions, rollbackReady);
      && Follows(own, Own(SkillEvolution))
      && (SlotsConform(classes, own, Own(SkillEvolution))
          <==> IsClean(classes, version) && forall item | item in permissions :: IsClean(classes, item))
  {
    hide Conforms, IsSafeText, SafeText, ListOf, IsClean;
    var own := SkillSlots(packageId, version, state, permissions, rollbackReady);
    PlainConforms(classes, own[0].value, ID);
    SafeTextIsAcceptedWhenClean(classes, own[1].value, 64);
    PlainConforms(classes, own[2].value, OneOf(SKILL_STATES));
    SafeTextsAreAcceptedWhenClean(classes, permissions, 128);
    assert own[3].value == List(permissions);
    PlainConforms(classes, own[4].value, FLAG);
    PlainConforms(classes, own[5].value, NEVER);
  }

  lemma {:induction false} SkillEvolutionIsAcceptedWhenClean(
    classes: Classes, registry: map<string, ServerSpec>,
    requestId: Value, packageId: Value, version: Value, state: Value, permissions: seq<Value>, rollbackReady: Value)
    requires SkillEvolutionFrame(requestId, packageId, version, state, permissions, rollbackReady).Frame?
    ensures var frame := SkillEvolutionFrame(requestId, packageId, version, state, permissions, rollbackReady).message;
      && Answers(frame, "phase6_skill_evolution_update", requestId)
      && (IsAccepted(classes, registry, frame)
          <==> IsClean(classes, version) && forall item | item in permissions :: IsClean(classes, item))
      && Has(frame, "package_id", packageId) && Has(frame, "version", version) && Has(frame, "state", state)
      && Has(frame, "permissions_summary", List(permissions)) && Has(frame, "rollback_ready", rollbackReady)
      && Has(frame, "allows_auto_install", Bool(false))
  {
    hide Answers, Names, Conforms, FrameOf, IsAccepted, IsSafeText, AreSafeTexts, SafeText, Required, Own;
    hide SlotsConform, IsClean;
    var own := SkillSlots(packageId, version, state, permissions, rollbackReady);
    SkillSlotsConform(classes, packageId, version, state, permissions, rollbackReady);
    FrameDecides(classes, registry, SkillEvolution, requestId, own, []);
    assert own[0].value == packageId && own[1].value == version && own[2].value == state;
    assert own[3].value == List(permissions) && own[4].value == rollbackReady && own[5].value == Bool(false);
  }

  predicate IsEvaluation(
    requestId: Value, candidateId: Value, privacy: Value, quality: Value, safety: Value, latency: Value,
    recommendation: Value)
    : (r: bool)
    ensures r ==> IsFiniteNumber(quality) && IsFiniteNumber(safety) && IsFiniteNumber(latency)
  {
    && IsId(requestId) && IsId(candidateId)
    && IsOneOf(privacy, PRIVACY_CLASSES)
    && IsScore(quality) && IsScore(safety) && IsNonNegative(latency)
    && IsSafeText(recommendation, 128)
  }

  function ModelEvalFrame(
    requestId: Value, candidateId: Value, privacy: Value, capabilities: seq<Value>, quality: Value, safety: Value,
    latency: Value, recommendation: Value, rejection: Value): (r: Built)
    ensures r.Frame? <==>
              && IsId(requestId) && IsId(candidateId) && IsOneOf(privacy, PRIVACY_CLASSES)
              && IsScore(quality) && IsScore(safety) && IsNonNegative(latency) && IsSafeText(recommendation, 128)
              && IsAbsentOrSafe(rejection, 128) && |capabilities| <= 64
              && forall item | item in capabilities :: IsSafeText(item, 64)
  {
    if IsEvaluation(requestId, candidateId, privacy, quality, safety, latency, recommendation)
       && AreSafeTexts(capabilities, 64) && IsAbsentOrSafe(rejection, 128)
    then Frame(FrameOf(
      ModelEval, requestId,
      ModelEvalSlots(candidateId, privacy, capabilities, AsFloat(quality), AsFloat(safety), AsFloat(latency),
        recommendation),
      Given("rejection_reason", rejection)))
    else Refused
  }

  function ModelEvalSlots(
    candidateId: Value, privacy: Value, capabilities: seq<Value>, quality: Value, safety: Value, latency: Value,
    recommendation: Value): seq<Slot>
  {
    [
      Slot("candidate_id", candidateId),
      Slot("privacy_class", privacy),
      Slot("capabilities", List(capabilities)),
      Slot("quality_score", quality),
      Slot("safety_score", safety),
      Slot("latency_ms", latency),
      Slot("recommendation", recommendation)]
  }

  method BuildModelEval(
    requestId: Value, candidateId: Value, privacy: Value, capabilities: seq<Value>, quality: Value, safety: Value,
    latency: Value, recommendation: Value, rejection: Value)
    returns (built: Built)
    ensures built == ModelEvalFrame(
                       requestId, candidateId, privacy, capabilities, quality, safety, latency, recommendation,
                       rejection)
  {
    hide FrameOf, ModelEvalSlots, Given;
    if !IsEvaluation(requestId, candidateId, privacy, quality, safety, latency, recommendation) {
      return Refused;
    }
    var clean := CheckTexts(capabilities, 64);
    if clean.None? {
      return Refused;
    }
    if !IsAbsentOrSafe(rejection, 128) {
      return Refused;
    }
    return Frame(FrameOf(
      ModelEval, requestId,
      ModelEvalSlots(candidateId, privacy, clean.value, AsFloat(quality), AsFloat(safety), AsFloat(latency),
        recommendation),
      Given("rejection_reason", rejection)));
  }

  lemma ModelEvalSlotsConform(
    classes: Classes, candidateId: Value, privacy: Value, capabilities: seq<Value>, quality: Value, safety: Value,
    latency: Value, recommendation: Value)
    requires IsId(candidateId) && IsOneOf(privacy, PRIVACY_CLASSES) && AreSafeTexts(capabilities, 64)
    requires IsFiniteNumber(quality) && IsFiniteNumber(safety) && IsFiniteNumber(latency)
             && IsSafeText(recommendation, 128)
    ensures var own := ModelEvalSlots(candidateId, privacy, capabilities, quality, safety, latency, recommendation);
      && Follows(own, Own(ModelEval))
      && (SlotsConform(classes, own, Own(ModelEval))
          <==> IsClean(classes, recommendation) && forall item | item in capabilities :: IsClean(classes, item))
  {
    hide Conforms, IsSafeText, SafeText, ListOf;
    var own := ModelEvalSlots(candidateId, privacy, capabilities, quality, safety, latency, recommendation);
    PlainConforms(classes, own[0].value, ID);
    PlainConforms(classes, own[1].value, OneOf(PRIVACY_CLASSES));
    SafeTextsAreAcceptedWhenClean(classes, capabilities, 64);
    assert own[2].value == List(capabilities);
    PlainConforms(classes, own[3].value, FINITE);
    PlainConforms(classes, own[4].value, FINITE);
    PlainConforms(classes, own[5].value, FINITE);
    SafeTextIsAcceptedWhenClean(classes, own[6].value, 128);
  }

  lemma OneTextConforms(classes: Classes, slots: seq<Slot>, v: Value, limit: nat, defs: seq<FieldDef>)
    requires |slots| == |defs| == 1 && slots[0].value == v && IsSafeText(v, limit) && defs[0].spec == SafeText(limit)
    ensures SlotsConform(classes, slots, defs) <==> IsClean(classes, v)
  {
    SafeTextIsAcceptedWhenClean(classes, v, limit);
  }

  lemma {:induction false} ModelEvalIsAcceptedWhenClean(
    classes: Classes, registry: map<string, ServerSpec>,
    requestId: Value, candidateId: Value, privacy: Value, capabilities: seq<Value>, quality: Value, safety: Value,
    latency: Value, recommendation: Value, rejection: Value)
    requires ModelEvalFrame(
               requestId, candidateId, privacy, capabilities, quality, safety, latency, recommendation,
               rejection).Frame?
    ensures var frame := ModelEvalFrame(
                           requestId, candidateId, privacy, capabilities, quality, safety, latency, recommendation,
                           rejection).message;
      && Answers(frame, "phase6_model_eval_update", requestId)
      && (IsAccepted(classes, registry, frame)
          <==> IsClean(classes, recommendation) && IsClean(classes, rejection)
               && forall item | item in capabilities :: IsClean(classes, item))
      && Has(frame, "candidate_id", candidateId) && Has(frame, "privacy_class", privacy)
      && Has(frame, "capabilities", List(capabilities)) && Has(frame, "quality_score", AsFloat(quality))
      && Has(frame, "safety_score", AsFloat(safety)) && Has(frame, "latency_ms", AsFloat(latency))
      && Has(frame, "recommendation", recommendation)
      && (if rejection != Null then Has(frame, "rejection_reason", rejection) else "rejection_reason" !in frame)
    ensures IsScore(quality) && IsScore(safety) && IsNonNegative(latency)
  {
    hide Answers, Names, Conforms, FrameOf, IsAccepted, IsSafeText, SafeText, ListOf, Required, Own, SlotsConform;
    hide AreSafeTexts;
    hide IsOneOf;
    var own := ModelEvalSlots(
      candidateId, privacy, capabilities, AsFloat(quality), AsFloat(safety), AsFloat(latency), recommendation);
    var rest := Given("rejection_reason", rejection);
    ModelEvalSlotsConform(
      classes, candidateId, privacy, capabilities, AsFloat(quality), AsFloat(safety), AsFloat(latency), recommendation);
    assert rest == [] || Follows(rest, Optional(ModelEval));
    OptionalNames();
    FrameDecides(classes, registry, ModelEval, requestId, own, rest);
    assert own[0].value == candidateId && own[1].value == privacy && own[2].value == List(capabilities);
    assert own[3].value == AsFloat(quality) && own[4].value == AsFloat(safety) && own[5].value == AsFloat(latency);
    assert own[6].value == recommendation;
    if rejection != Null {
      OneTextConforms(classes, rest, rejection, 128, Optional(ModelEval));
    }
  }

  // ---------- Search results ----------

  function Get(entry: map<string, Value>, name: string): Value {
    if name in entry then entry[name] else Null
  }

  predicate IsHit(hit: map<string, Value>) {
    && IsSafeText(Get(hit, "path"), 256) && IsCount(Get(hit, "line"))
    && IsAbsentOrSafe(Get(hit, "symbol"), 128)
    && IsScore(Get(hit, "score")) && IsSafeText(Get(hit, "provenance"), 128)
  }

  /** The fields of a search result that a frame shows; any other the caller supplied is dropped. */
  function ShownHit(hit: map<string, Value>): Value
    requires IsHit(hit)
  {
    var shown := map[
      "path" := Get(hit, "path"), "line" := Get(hit, "line"),
      "score" := AsFloat(Get(hit, "score")), "provenance" := Get(hit, "provenance")];
    Object(if Get(hit, "symbol") == Null then shown else shown["symbol" := Get(hit, "symbol")])
  }

  predicate IsCleanHit(classes: Classes, hit: map<string, Value>) {
    IsClean(classes, Get(hit, "path")) && IsClean(classes, Get(hit, "symbol"))
      && IsClean(classes, Get(hit, "provenance"))
  }

  function ShownHits(results: seq<map<string, Value>>): (shown: seq<Value>)
    requires forall hit | hit in results :: IsHit(hit)
    ensures |shown| == |results| && forall k | 0 <= k < |results| :: shown[k] == ShownHit(results[k])
  {
    seq(|results|, k requires 0 <= k < |results| => ShownHit(results[k]))
  }

  function RepoIntelFrame(
    requestId: Value, scanState: Value, query: Value, hitCount: Value, results: seq<map<string, Value>>): (r: Built)
    ensures r.Frame? <==>
              && IsId(requestId) && IsSafeText(scanState, 64) && IsSafeText(query, 128)
              && hitCount == Int(|results|) && |results| <= 64 && forall hit | hit in results :: IsHit(hit)
  {
    if IsId(requestId) && IsSafeText(scanState, 64) && IsSafeText(query, 128) && hitCount == Int(|results|)
       && |results| <= MAX_ITEMS && forall hit | hit in results :: IsHit(hit)
    then Frame(FrameOf(RepoIntel, requestId, [
      Slot("scan_state", scanState),
      Slot("query_summary", query),
      Slot("hit_count", hitCount),
      Slot("results", List(ShownHits(results)))],
      []))
    else Refused
  }

  method BuildRepoIntel(
    requestId: Value, scanState: Value, query: Value, hitCount: Value, results: seq<map<string, Value>>)
    returns (built: Built)
    ensures built == RepoIntelFrame(requestId, scanState, query, hitCount, results)
  {
    hide FrameOf, IsSafeText, IsHit, ShownHit;
    if !IsId(requestId) {
      return Refused;
    }
    if !IsSafeText(scanState, 64) || !IsSafeText(query, 128) {
      return Refused;
    }
    if !IsCount(hitCount) {
      return Refused;
    }
    if |results| > MAX_ITEMS || hitCount.i != |results| {
      return Refused;
    }
    var clean: seq<Value> := [];
    for i := 0 to |results|
      invariant |clean| == i
      invariant forall k | 0 <= k < i :: IsHit(results[k]) && clean[k] == ShownHit(results[k])
    {
      if !IsHit(results[i]) {
        return Refused;
      }
      clean := clean + [ShownHit(results[i])];
    }
    assert clean == ShownHits(results);
    return Frame(FrameOf(RepoIntel, requestId, [
      Slot("scan_state", scanState),
      Slot("query_summary", query),
      Slot("hit_count", hitCount),
      Slot("results", List(clean))],
      []));
  }

  lemma HitIsAcceptedWhenClean(classes: Classes, hit: map<string, Value>)
    requires IsHit(hit)
    ensures Conforms(classes, ShownHit(hit), HIT) <==> IsCleanHit(classes, hit)
  {
    hide IsHit, ShownHit, IsCleanHit, EachConforms, FrameSchema.Follows;
    HitNames();
    HitFields(hit);
    RequiredHitConforms(classes, hit);
    OptionalHitConforms(classes, hit);
    assert IsCleanHit(classes, hit)
      <==> IsClean(classes, Get(hit, "path")) && IsClean(classes, Get(hit, "provenance"))
           && IsClean(classes, Get(hit, "symbol")) by {
      CleanHitParts(classes, hit);
    }
  }

  lemma CleanHitParts(classes: Classes, hit: map<string, Value>)
    ensures IsCleanHit(classes, hit)
            <==> IsClean(classes, Get(hit, "path")) && IsClean(classes, Get(hit, "provenance"))
                 && IsClean(classes, Get(hit, "symbol"))
  {
  }

  lemma HitFields(hit: map<string, Value>)
    requires IsHit(hit)
    ensures ShowsHit(ShownHit(hit), hit)
  {
    hide IsSafeText;
    assert "path"[0] != "line"[0];
  }

  /** Path, line, provenance and the symbol if there is one are as given, and the score is the same number. */
  ghost predicate ShowsHit(shown: Value, hit: map<string, Value>)
    requires IsHit(hit)
  {
    && shown.Object?
    && var fields := shown.fields;
      && fields.Keys == {"path", "line", "score", "provenance"}
        + (if Get(hit, "symbol") == Null then {} else {"symbol"})
      && fields["path"] == Get(hit, "path") && fields["line"] == Get(hit, "line")
      && fields["score"] == Float(Finite(Real(Get(hit, "score")))) && fields["provenance"] == Get(hit, "provenance")
      && (Get(hit, "symbol") != Null ==> fields["symbol"] == Get(hit, "symbol"))
  }

  lemma RequiredHitConforms(classes: Classes, hit: map<string, Value>)
    requires IsHit(hit)
    ensures EachConforms(classes, ShownHit(hit).fields, HIT_REQUIRED, {"symbol"})
            <==> IsClean(classes, Get(hit, "path")) && IsClean(classes, Get(hit, "provenance"))
  {
    hide IsSafeText, SafeText, Conforms, EachConforms, ShownHit;
    HitFields(hit);
    var slots := [
      Slot("path", Get(hit, "path")), Slot("line", Get(hit, "line")), Slot("score", AsFloat(Get(hit, "score"))),
      Slot("provenance", Get(hit, "provenance"))];
    ConformsSlotBySlot(classes, ShownHit(hit).fields, slots, HIT_REQUIRED, {"symbol"});
    SafeTextIsAcceptedWhenClean(classes, slots[0].value, 256);
    PlainConforms(classes, slots[1].value, COUNT);
    PlainConforms(classes, slots[2].value, FINITE);
    SafeTextIsAcceptedWhenClean(classes, slots[3].value, 128);
  }

  lemma OptionalHitConforms(classes: Classes, hit: map<string, Value>)
    requires IsHit(hit)
    ensures EachConforms(classes, ShownHit(hit).fields, HIT_OPTIONAL, {}) <==> IsClean(classes, Get(hit, "symbol"))
  {
    hide IsSafeText, SafeText, Conforms, EachConforms, ShownHit;
    HitNames();
    HitFields(hit);
    var symbol := Get(hit, "symbol");
    if symbol == Null {
      AbsentConforms(classes, ShownHit(hit).fields, HIT_OPTIONAL);
    } else {
      ConformsSlotBySlot(classes, ShownHit(hit).fields, [Slot("symbol", symbol)], HIT_OPTIONAL, {});
      OneTextConforms(classes, [Slot("symbol", symbol)], symbol, 128, HIT_OPTIONAL);
    }
  }

  lemma HitNames()
    ensures Names(HIT_REQUIRED) == {"path", "line", "score", "provenance"} && Names(HIT_OPTIONAL) == {"symbol"}
  {
    assert HIT_REQUIRED[0].name == "path" && HIT_REQUIRED[1].name == "line";
    assert HIT_REQUIRED[2].name == "score" && HIT_REQUIRED[3].name == "provenance";
    assert HIT_OPTIONAL[0].name == "symbol";
  }

  lemma HitsAreAcceptedWhenClean(classes: Classes, results: seq<map<string, Value>>)
    requires |results| <= MAX_ITEMS && forall hit | hit in results :: IsHit(hit)
    ensures Conforms(classes, List(ShownHits(results)), ListOf(HIT)) <==>
            forall hit | hit in results :: IsCleanHit(classes, hit)
  {
    hide IsHit, ShownHit, IsCleanHit, FrameSchema.Follows;
    var shown := ShownHits(results);
    forall k | 0 <= k < |results|
      ensures Conforms(classes, shown[k], HIT) <==> IsCleanHit(classes, results[k])
    {
      HitIsAcceptedWhenClean(classes, results[k]);
    }
    if forall item | item in shown :: Conforms(classes, item, HIT) {
      forall hit | hit in results ensures IsCleanHit(classes, hit) {
        var k :| 0 <= k < |results| && results[k] == hit;
        assert shown[k] in shown;
      }
    }
  }

  lemma {:induction false} RepoIntelIsAcceptedWhenClean(
    classes: Classes, registry: map<string, ServerSpec>,
    requestId: Value, scanState: Value, query: Value, hitCount: Value, results: seq<map<string, Value>>)
    requires RepoIntelFrame(requestId, scanState, query, hitCount, results).Frame?
    ensures var frame := RepoIntelFrame(requestId, scanState, query, hitCount, results).message;
      && Answers(frame, "phase6_repo_intel_update", requestId)
      && (IsAccepted(classes, registry, frame)
          <==> IsClean(classes, scanState) && IsClean(classes, query)
               && forall hit | hit in results :: IsCleanHit(classes, hit))
      && Has(frame, "scan_state", scanState) && Has(frame, "query_summary", query)
      && Has(frame, "hit_count", Int(|results|)) && Has(frame, "results", List(ShownHits(results)))
    ensures forall hit | hit in results :: IsHit(hit)
    ensures forall k | 0 <= k < |results| :: ShowsHit(ShownHits(results)[k], results[k])
  {
    hide Answers, Names, Conforms, FrameOf, IsAccepted, IsSafeText, SafeText, ListOf, IsHit, ShownHit, IsCleanHit;
    hide IsClean, Required;
    forall k | 0 <= k < |results| ensures ShowsHit(ShownHits(results)[k], results[k]) {
      HitFields(results[k]);
    }
    var own := [
      Slot("scan_state", scanState), Slot("query_summary", query), Slot("hit_count", hitCount),
      Slot("results", List(ShownHits(results)))];
    FrameDecides(classes, registry, RepoIntel, requestId, own, []);
    SafeTextIsAcceptedWhenClean(classes, own[0].value, 64);
    SafeTextIsAcceptedWhenClean(classes, own[1].value, 128);
    PlainConforms(classes, own[2].value, COUNT);
    HitsAreAcceptedWhenClean(classes, results);
    assert own[3].value == List(ShownHits(results));
  }

  // ---------- Errors ----------

  datatype ErrorCode =
    | InvalidRequest | Unauthorized | Unavailable | Denied | Expired | Revoked | Locked | Closed
    | ApprovalRequired | NotFound | StaleRequest | DuplicateRequest | InternalError

  function CodeName(code: ErrorCode): string {
    match code
    case InvalidRequest => "invalid_request"
    case Unauthorized => "unauthorized"
    case Unavailable => "unavailable"
    case Denied => "denied"
    case Expired => "expired"
    case Revoked => "revoked"
    case Locked => "locked"
    case Closed => "closed"
    case ApprovalRequired => "approval_required"
    case NotFound => "not_found"
    case StaleRequest => "stale_request"
    case DuplicateRequest => "duplicate_request"
    case InternalError => "internal_error"
  }

  /** The fixed messages, joined from short literals because their characters are looked at one by one below. */
  function SafeMessage(code: ErrorCode): string {
    match code
    case InvalidRequest => "The Phase 6 " + "command-center request " + "was invalid."
    case Unauthorized => "Phase 6 requires a " + "paired owner connection."
    case Unavailable => "Phase 6 command-center " + "features are " + "unavailable."
    case Denied => "The Phase 6 request was " + "denied."
    case Expired => "The Phase 6 request or " + "proposal has expired."
    case Revoked => "The requested Phase 6 " + "resource was revoked."
    case Locked => "The Phase 6 session is " + "locked."
    case Closed => "The Phase 6 transport " + "connection is closed."
    case ApprovalRequired => "Owner approval is " + "required for this " + "action."
    case NotFound => "The requested Phase 6 " + "resource was not found."
    case StaleRequest => "That proposal or " + "request is no longer " + "active."
    case DuplicateRequest => "That request was " + "already submitted."
    case InternalError => "A Phase 6 transport " + "error occurred."
  }

  function BuildError(requestId: Value, code: Option<ErrorCode>): (r: Built)
    ensures r.Frame? <==>
              IsId(requestId) && code.Some?
  {
    if !IsId(requestId) then Refused
    else if code.None? then Refused
    else Frame(FrameOf(
      ErrorReport, requestId,
        [Slot("code", Text(CodeName(code.value))), Slot("message", Text(SafeMessage(code.value)))], []))
  }

  predicate IsPrintable(s: string) {
    forall k | 0 <= k < |s| :: ' ' <= s[k] <= '~'
  }

  lemma JoinIsPrintable(a: string, b: string)
    requires IsPrintable(a) && IsPrintable(b)
    ensures IsPrintable(a + b)
  {
  }

  lemma AdmissionMessagesArePrintable()
    ensures IsPrintable(SafeMessage(InvalidRequest))
    ensures IsPrintable(SafeMessage(Unauthorized))
  {
    JoinIsPrintable("The Phase 6 ", "command-center request ");
    JoinIsPrintable("The Phase 6 " + "command-center request ", "was invalid.");
    JoinIsPrintable("Phase 6 requires a ", "paired owner connection.");
  }

  lemma RefusalMessagesArePrintable()
    ensures IsPrintable(SafeMessage(Unavailable))
    ensures IsPrintable(SafeMessage(Denied))
  {
    JoinIsPrintable("Phase 6 command-center ", "features are ");
    JoinIsPrintable("Phase 6 command-center " + "features are ", "unavailable.");
    JoinIsPrintable("The Phase 6 request was ", "denied.");
  }

  lemma ClosingMessagesArePrintable()
    ensures IsPrintable(SafeMessage(Expired))
    ensures IsPrintable(SafeMessage(Revoked))
    ensures IsPrintable(SafeMessage(Locked))
    ensures IsPrintable(SafeMessage(Closed))
  {
    JoinIsPrintable("The Phase 6 request or ", "proposal has expired.");
    JoinIsPrintable("The requested Phase 6 ", "resource was revoked.");
    JoinIsPrintable("The Phase 6 session is ", "locked.");
    JoinIsPrintable("The Phase 6 transport ", "connection is closed.");
  }

  lemma LookupMessagesArePrintable()
    ensures IsPrintable(SafeMessage(ApprovalRequired))
    ensures IsPrintable(SafeMessage(NotFound))
  {
    JoinIsPrintable("Owner approval is ", "required for this ");
    JoinIsPrintable("Owner approval is " + "required for this ", "action.");
    JoinIsPrintable("The requested Phase 6 ", "resource was not found.");
  }

  lemma RepeatMessagesArePrintable()
    ensures IsPrintable(SafeMessage(StaleRequest))
    ensures IsPrintable(SafeMessage(DuplicateRequest))
    ensures IsPrintable(SafeMessage(InternalError))
  {
    JoinIsPrintable("That proposal or ", "request is no longer ");
    JoinIsPrintable("That proposal or " + "request is no longer ", "active.");
    JoinIsPrintable("That request was ", "already submitted.");
    JoinIsPrintable("A Phase 6 transport ", "error occurred.");
  }

  lemma MessagesArePrintable(code: ErrorCode)
    ensures IsPrintable(SafeMessage(code)) && 1 <= |SafeMessage(code)| <= MAX_SUMMARY
  {
    hide IsPrintable;
    AdmissionMessagesArePrintable();
    RefusalMessagesArePrintable();
    ClosingMessagesArePrintable();
    LookupMessagesArePrintable();
    RepeatMessagesArePrintable();
  }

  lemma CodesAreListed(code: ErrorCode)
    ensures CodeName(code) in ERROR_CODES
  {
    match code
    case InvalidRequest => assert ERROR_CODES[0] == CodeName(code);
    case Unauthorized => assert ERROR_CODES[1] == CodeName(code);
    case Unavailable => assert ERROR_CODES[2] == CodeName(code);
    case Denied => assert ERROR_CODES[3] == CodeName(code);
    case Expired => assert ERROR_CODES[4] == CodeName(code);
    case Revoked => assert ERROR_CODES[5] == CodeName(code);
    case Locked => assert ERROR_CODES[6] == CodeName(code);
    case Closed => assert ERROR_CODES[7] == CodeName(code);
    case ApprovalRequired => assert ERROR_CODES[8] == CodeName(code);
    case NotFound => assert ERROR_CODES[9] == CodeName(code);
    case StaleRequest => assert ERROR_CODES[10] == CodeName(code);
    case DuplicateRequest => assert ERROR_CODES[11] == CodeName(code);
    case InternalError => assert ERROR_CODES[12] == CodeName(code);
  }

  /** An error can always be reported: no printable ASCII character is a format character. */
  lemma {:induction false} ErrorIsAlwaysAccepted(
    classes: Classes, registry: map<string, ServerSpec>, requestId: Value, code: ErrorCode)
    requires forall c | ' ' <= c <= '~' :: !classes.isFormat(c)
    requires IsId(requestId)
    ensures BuildError(requestId, Some(code)).Frame?
    ensures var frame := BuildError(requestId, Some(code)).message;
      && Answers(frame, "phase6_error", requestId)
      && IsAccepted(classes, registry, frame)
      && Has(frame, "code", Text(CodeName(code))) && Has(frame, "message", Text(SafeMessage(code)))
  {
    hide Answers, Names, Conforms, FrameOf, IsAccepted, SafeText, SafeMessage, CodeName, ERROR_CODES;
    var message := Text(SafeMessage(code));
    var own := [Slot("code", Text(CodeName(code))), Slot("message", message)];
    FrameDecides(classes, registry, ErrorReport, requestId, own, []);
    CodesAreListed(code);
    PlainConforms(classes, own[0].value, OneOf(ERROR_CODES));
    MessagesArePrintable(code);
    assert IsSafeText(message, MAX_SUMMARY) && IsClean(classes, message);
    SafeTextIsAcceptedWhenClean(classes, own[1].value, MAX_SUMMARY);
  }

  // ---------- What the builders let through and the validator does not ----------

  /** A tab in a status text: the frame is built, and the validator rejects it. */
  lemma {:induction false} TabIsBuiltAndRejected(classes: Classes, registry: map<string, ServerSpec>)
    ensures var frame := BuildEncryptedSync(Text("r"), Bool(true), Bool(true), Text("a\tb"), Int(0));
      frame.Frame? && !IsAccepted(classes, registry, frame.message)
  {
    hide IsAccepted, FrameOf, Conforms;
    var status := Text("a\tb");
    assert IsSafeText(status, 64);
    assert status.s[1] == '\t' && IsControl(status.s[1]);
    EncryptedSyncIsAcceptedWhenClean(classes, registry, Text("r"), Bool(true), Bool(true), status, Int(0));
  }

  /** The controls that reach the validator are exactly the tab, the line feed and the carriage return. */
  lemma SafeTextControls(v: Value, limit: nat, c: char)
    requires IsSafeText(v, limit) && c in v.s
    ensures IsControl(c) <==> c == '\t' || c == '\n' || c == '\r'
  {
  }
}
