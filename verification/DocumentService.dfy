/**
 The policy-gated flow that explains one document: read it under a one-use grant, offer it to the
 caller's providers one by one under fresh grants of their own, and settle every decision's audit row.

 Everything outside the flow is arbitrary: what the reader and the providers return, which audit and
 grant writes fail, what the clock says, and who cancels the task between any two task accesses.
 The world object records, as a ghost trace, every effect the flow has.
 */
module DocumentService {
  import opened Options
  import opened ActionPolicy
  import opened TaskStore
  import opened PolicyService
  import Flow = FlowTrace
  import opened FlowAudit
  import opened FlowBooks
  import opened Router
  import Grants
  import Audit = ActionAudit

  const MAX_PROVIDERS := 8
  const GRANT_LIFETIME := 60.0

  datatype ReadResult = Document(text: string) | ReadError(code: string) | ReadCrash

  datatype Reply = Text(text: string) | Nothing | Crash

  /** What a call gives: a value, or an error that is caught where the call is made, or one that is not. */
  datatype Try<T> = Got(value: T) | Caught | Uncaught

  datatype FlowStatus = Of(status: TaskStatus) | FailedFlow

  datatype FlowResult = FlowResult(
    status: FlowStatus, explanation: Option<string>, error: Option<string>, provider: Option<string>,
    attempted: seq<string>)

  /** A flow returns a result, or an error it does not catch ends it. */
  datatype FlowOutcome = Returned(result: FlowResult) | Escaped

  datatype Look = StillRunning | Stopped(result: FlowResult)

  datatype TaskContext = TaskContext(actor: string, speaker: string, sessionId: string, source: string, isGuest: bool)

  const READER_ERROR_CODES: set<string> := {
    "invalid_path", "missing", "symlink", "not_regular", "unsupported_type", "too_large", "changed", "permission",
    "read_failed", "invalid_utf8" }

  function Failure(error: string): FlowResult {
    FlowResult(FailedFlow, None, Some(error), None, [])
  }

  /** The caller is the owner, and the task context is the owner's own. */
  predicate OwnerContext(actor: ActorArg, context: TaskContext) {
    && ValidActor(actor) && actor.actor.actor.Owner?
    && context.actor == "owner" && context.speaker == actor.actorId.s && context.sessionId == actor.sessionId.s
    && context.source == actor.source.s && !context.isGuest
  }

  /** Up to eight distinct well-formed provider names, or nothing. */
  function Destinations(values: seq<Field>): (r: Option<seq<string>>)
    ensures r.Some? <==>
              && 0 < |values| <= 8 && (forall i | 0 <= i < |values| :: values[i].Str? && IsIdentifier(values[i].s))
              && forall i, j | 0 <= i < j < |values| :: values[i] != values[j]
    ensures r.Some? ==> NoRepeats(r.value) && |r.value| == |values|
    ensures r.Some? ==> forall i | 0 <= i < |values| :: values[i] == Str(r.value[i]) && IsIdentifier(r.value[i])
  {
    if values == [] || |values| > MAX_PROVIDERS then None
    else if exists i :: 0 <= i < |values| && (values[i].NotStr? || !IsIdentifier(values[i].s)) then None
    else
      var names := seq(|values|, i requires 0 <= i < |values| && values[i].Str? => values[i].s);
      assert forall i | 0 <= i < |values| :: values[i] == Str(names[i]);
      if NoRepeats(names) then Some(names) else None
  }

  /** Where a flow began in the grant log, and for whom it acts. */
  datatype Account = Account(start: nat, actor: ActorArg)

  /** What a flow is about, and the instant up to which its world is looked at. */
  datatype Scene = Scene(taskId: string, path: string, providers: seq<string>, actor: ActorArg, until: nat)

  /** What a call to a provider adds to the trace. */
  ghost function CallTrace(provider: string, reply: Reply): Flow.Trace {
    [Flow.Contacted(provider)] +
    match reply
    case Text(text) => [Flow.Replied(provider, text)]
    case Nothing => []
    case Crash => [Flow.Crashed(provider)]
  }

  class World {
    const reading: (nat, string) -> ReadResult
    const replying: (nat, string) -> Reply
    const failing: nat -> Flow.Failing
    const time: nat -> real
    const grantId: nat -> string
    const auditId: nat -> string
    var tick: nat
    ghost var trace: Flow.Trace

    constructor (
      reading: (nat, string) -> ReadResult, replying: (nat, string) -> Reply, failing: nat -> Flow.Failing,
      time: nat -> real, grantId: nat -> string, auditId: nat -> string)
      ensures this.reading == reading && this.replying == replying && this.failing == failing
      ensures this.time == time && this.grantId == grantId && this.auditId == auditId
      ensures tick == 0 && trace == []
    {
      this.reading, this.replying, this.failing, this.time := reading, replying, failing, time;
      this.grantId, this.auditId := grantId, auditId;
      tick, trace := 0, [];
    }

    /** Generated identifiers are well formed. They may repeat: the stores refuse a key they already hold. */
    ghost predicate Generates() {
      forall n: nat :: IsIdentifier(auditId(n)) && grantId(n) != ""
    }

    method Read(path: string) returns (result: ReadResult)
      modifies this
      ensures result == reading(old(tick), path)
      ensures trace == old(trace) + [Flow.FileRead(path)] && tick == old(tick) + 1
    {
      result := reading(tick, path);
      tick := tick + 1;
      trace := trace + [Flow.FileRead(path)];
    }

    method Contact(provider: string) returns (reply: Reply)
      modifies this
      ensures reply == replying(old(tick), provider) && tick == old(tick) + 1
      ensures trace == old(trace) + CallTrace(provider, reply)
    {
      reply := replying(tick, provider);
      tick := tick + 1;
      trace := trace + CallTrace(provider, reply);
    }
  }

  /** The variables one provider round shares with the callback it hands out. */
  class ProviderRun {
    const taskId: string
    const path: string
    const providers: seq<string>
    const actor: ActorArg
    var auditIds: seq<(string, string)>
    var settled: set<string>
    var attempted: set<string>
    var auditFailed: bool
    var approvalFailed: bool

    constructor (taskId: string, path: string, providers: seq<string>, actor: ActorArg)
      ensures this.taskId == taskId && this.path == path && this.providers == providers && this.actor == actor
      ensures Entries() == Books([], {}, {}, false, false)
    {
      this.taskId, this.path, this.providers, this.actor := taskId, path, providers, actor;
      auditIds, settled, attempted, auditFailed, approvalFailed := [], {}, {}, false, false;
    }

    ghost function Entries(): Books
      reads this
    {
      Books(auditIds, settled, attempted, auditFailed, approvalFailed)
    }

    /** The books agree with what happened. */
    ghost predicate Keeps(trace: Flow.Trace)
      reads this
    {
      FlowBooks.Keeps(Entries(), trace, taskId, path, providers)
    }

    /** Some entry of this provider is still to be settled, and its decision allowed sending. */
    ghost predicate HasOpen(trace: Flow.Trace, provider: string)
      reads this
    {
      exists k: nat :: IsOpen(k, provider) && HasAllowance(trace, taskId, path, provider, auditIds[k].1)
    }

    /** The reply of this provider came after the allowance of its entry, which is still open. */
    ghost predicate HasAnswer(trace: Flow.Trace, provider: string, text: string)
      reads this
    {
      exists k: nat :: IsOpen(k, provider) && Flow.Answered(trace, taskId, path, auditIds[k].1, provider, text)
    }

    /** Entry k is for this provider and still to be settled. */
    predicate IsOpen(k: nat, provider: string)
      reads this
    {
      k < |auditIds| && auditIds[k].0 == provider && auditIds[k].1 !in settled
    }
  }

  class DocumentService {
    const tasks: TaskStore
    const policy: PolicyService
    const router: AIRouter
    const world: World

    /** Both stores are consistent, every decision of the trace is audited, and so is every result written. */
    ghost predicate Valid()
      reads world, policy, policy.grants, policy.audit
    {
      && policy.Valid() && world.Generates()
      && (forall id | id in Flow.Decided(world.trace) :: policy.audit.Has(id))
      && AreReported(world.trace, policy.audit.rows, world.failing)
    }

    constructor (tasks: TaskStore, policy: PolicyService, router: AIRouter, world: World)
      requires policy.Valid() && world.Generates() && world.trace == []
      ensures Valid() && this.tasks == tasks && this.policy == policy && this.router == router && this.world == world
    {
      this.tasks, this.policy, this.router, this.world := tasks, policy, router, world;
    }

    /** A look at the task; the trace notes when it is found running. */
    method LooksRunning(taskId: string) returns (task: Option<Task>, running: bool)
      requires Valid()
      modifies world, tasks
      ensures Valid() && world.tick == old(world.tick)
      ensures task == if taskId in tasks.tasks then Some(tasks.tasks[taskId]) else None
      ensures running <==> task.Some? && task.value.status.Running?
      ensures world.trace == old(world.trace) + if running then [Flow.SeenRunning(taskId)] else []
      ensures tasks.tasks == old(tasks.Found()) && tasks.tick == old(tasks.tick) + 1
      ensures AreOnlyCancelled(old(tasks.tasks), tasks.tasks)
    {
      hide PolicyService.Valid, Audit.IsAudited, AreOnlyCancelled, AreReported, AfterCancelling;
      task := tasks.Get(taskId);
      running := task.Some? && task.value.status.Running?;
      if running {
        NotedSafely(Flow.SeenRunning(taskId));
        world.trace := world.trace + [Flow.SeenRunning(taskId)];
      }
    }

    /** An event that is neither a decision nor a settlement leaves the stores and the trace in agreement. */
    lemma NotedSafely(event: Flow.Event)
      requires Valid() && !event.Decision? && !event.Settled?
      ensures Flow.Decided(world.trace + [event]) == Flow.Decided(world.trace)
      ensures AreReported(world.trace + [event], policy.audit.rows, world.failing)
    {
      hide PolicyService.Valid, Audit.IsAudited, AreReported;
      Flow.Appended(world.trace, event);
      ReportedAppended(world.trace, event, policy.audit.rows, world.failing);
    }

    method CallProvider(provider: string) returns (reply: Reply)
      requires Valid()
      modifies world
      ensures Valid() && world.tick == old(world.tick) + 1
      ensures reply == world.replying(old(world.tick), provider)
      ensures world.trace == old(world.trace) + CallTrace(provider, reply)
    {
      hide PolicyService.Valid, Audit.IsAudited, AreReported;
      NotedSafely(Flow.Contacted(provider));
      ghost var contacted := world.trace + [Flow.Contacted(provider)];
      reply := world.Contact(provider);
      if reply.Nothing? {
        assert world.trace == contacted;
      } else {
        ghost var event := if reply.Text? then Flow.Replied(provider, reply.text) else Flow.Crashed(provider);
        assert world.trace == contacted + [event];
        Flow.Appended(contacted, event);
        ReportedAppended(contacted, event, policy.audit.rows, world.failing);
      }
    }

    method ReadFile(path: string) returns (result: ReadResult)
      requires Valid()
      modifies world
      ensures Valid() && world.trace == old(world.trace) + [Flow.FileRead(path)] && world.tick == old(world.tick) + 1
      ensures result == world.reading(old(world.tick), path)
    {
      hide PolicyService.Valid, Audit.IsAudited, AreReported;
      NotedSafely(Flow.FileRead(path));
      result := world.Read(path);
    }

    /** An audit row with this result. */
    function WithResult(row: Audit.Row, status: Flow.SettledAs, code: Option<string>): Audit.Row {
      row.(resultStatus := Audit.Text(Audit.StatusName(StatusOf(status))), resultCode := Audit.Maybe(code))
    }

    /** Writes a result into the audit row of its decision, and into no other. */
    method WriteResult(auditId: string, status: Flow.SettledAs, code: Option<string>) returns (written: bool)
      requires policy.Valid()
      modifies policy.audit
      ensures policy.Valid() && forall id :: policy.audit.Has(id) <==> old(policy.audit.Has(id))
      ensures written <==> old(policy.audit.Has(auditId)) && (code.Some? ==> IsIdentifier(code.value))
      ensures written ==> HasResult(policy.audit.rows, auditId, status)
      ensures |policy.audit.rows| == |old(policy.audit.rows)|
      ensures forall k | 0 <= k < |policy.audit.rows| ::
                policy.audit.rows[k] ==
                if written && old(policy.audit.rows)[k].auditId == Audit.Text(auditId)
                then WithResult(old(policy.audit.rows)[k], status, code) else old(policy.audit.rows)[k]
    {
      hide Grants.Reflects, Audit.IsSound, IsEnvironment, Matches, Purchases, AreWritten, Audit.ActionAuditStore.Valid;
      hide Grants.SpentEvents, SpendsRightly;
      var recorded := policy.audit.RecordResult(auditId, StatusOf(status), code);
      WrittenStay(old(policy.audit.rows), policy.audit.rows, policy.decisions);
      written := recorded.Ok?;
    }

    /**
     One attempt to settle an open decision, at the present instant: written to its audit row, refused, or
     ended by an error, just as the database access of that instant goes.
     */
    method AuditResult(auditId: string, status: Flow.SettledAs, code: Option<string>)
      returns (attempt: Flow.Attempt)
      requires Valid() && Flow.SettlesOnce(world.trace) && auditId in Flow.Outstanding(world.trace)
      requires code.Some? ==> IsIdentifier(code.value)
      modifies world, policy.audit
      ensures Valid() && policy.grants.log == old(policy.grants.log) && world.tick == old(world.tick) + 1
      ensures attempt == Flow.AttemptWhen(world.failing(old(world.tick)))
      ensures world.trace == old(world.trace) + [Flow.Settled(auditId, status, attempt, old(world.tick))]
      ensures attempt.Written? ==> HasResult(policy.audit.rows, auditId, status)
      ensures !attempt.Written? ==> policy.audit.rows == old(policy.audit.rows)
      ensures attempt.Written? ==>
                && |policy.audit.rows| == |old(policy.audit.rows)|
                && forall k | 0 <= k < |policy.audit.rows| ::
                     policy.audit.rows[k] ==
                     if old(policy.audit.rows)[k].auditId == Audit.Text(auditId)
                     then WithResult(old(policy.audit.rows)[k], status, code) else old(policy.audit.rows)[k]
      ensures forall id :: policy.audit.Has(id) <==> old(policy.audit.Has(id))
    {
      hide PolicyService.Valid, Matches, Audit.IsAudited, AreReported, HasResult, Flow.SettlesOnce, Flow.Outstanding;
      Flow.OutstandingIsUnsettled(world.trace, auditId);
      ghost var before, rows, at := world.trace, policy.audit.rows, world.tick;
      attempt := Flow.AttemptWhen(world.failing(world.tick));
      world.tick := world.tick + 1;
      if attempt.Written? {
        var written := WriteResult(auditId, status, code);
      }
      Flow.Appended(before, Flow.Settled(auditId, status, attempt, at));
      if attempt.Written? {
        ReportedAfterResult(before, rows, policy.audit.rows, world.failing, auditId, status, at);
      } else {
        ReportedAppended(before, Flow.Settled(auditId, status, attempt, at), rows, world.failing);
      }
      world.trace := world.trace + [Flow.Settled(auditId, status, attempt, at)];
    }

    /** The terms of the grant asked for at an instant. */
    function TermsAt(
      action: string, path: string, destination: Option<string>, taskId: string, actor: ActorArg, n: nat): Grants.Terms
    {
      Grants.Terms(
        actor, Str(action), Some(Str(path)), if destination.Some? then Some(Str(destination.value)) else None,
        Some(Str(taskId)), Grants.At(world.time(n) + GRANT_LIFETIME), 1)
    }

    /** The access at this instant works, the terms are in order and the identifier is not taken. */
    ghost predicate CanIssue(
      action: string, path: string, destination: Option<string>, taskId: string, actor: ActorArg, n: nat)
      reads policy.grants
    {
      && world.failing(n).Works? && world.grantId(n) !in policy.grants.rows
      && Grants.IsIssuable(
           policy.grants.canon, TermsAt(action, path, destination, taskId, actor, n), world.time(n + 1))
    }

    /** Asking for the grant raises an error that is caught: one of the database's, or the terms are not in order. */
    ghost predicate IsCaughtIssue(
      action: string, path: string, destination: Option<string>, taskId: string, actor: ActorArg, n: nat)
      reads policy.grants
    {
      if world.failing(n).Raises? then world.failing(n).caught
      else
        !Grants.IsIssuable(
           policy.grants.canon, TermsAt(action, path, destination, taskId, actor, n), world.time(n + 1))
    }

    /**
     A fresh one-use grant for exactly this use. Refused terms raise an error that is caught; an identifier
     that is taken raises one that is not.
     */
    method IssueGrant(action: string, path: string, destination: Option<string>, taskId: string, actor: ActorArg)
      returns (grantId: Try<string>)
      requires Valid()
      modifies world, policy.grants
      ensures Valid() && world.trace == old(world.trace) && world.tick == old(world.tick) + 2
      ensures grantId.Got? <==> old(CanIssue(action, path, destination, taskId, actor, world.tick))
      ensures grantId.Caught? <==> old(IsCaughtIssue(action, path, destination, taskId, actor, world.tick))
      ensures grantId.Got? ==>
                && grantId.value == world.grantId(old(world.tick)) != ""
                && !Grants.IssuedIn(old(policy.grants.log), grantId.value)
      ensures grantId.Got? ==>
                var n := old(world.tick);
                var grant := Grants.GrantFor(
                  policy.grants.canon, TermsAt(action, path, destination, taskId, actor, n), world.time(n + 1));
                && policy.grants.rows == old(policy.grants.rows)[grantId.value := grant]
                && policy.grants.log == old(policy.grants.log) + [Grants.Issued(grantId.value, grant)]
      ensures !grantId.Got? ==>
                policy.grants.log == old(policy.grants.log) && policy.grants.rows == old(policy.grants.rows)
    {
      hide Grants.Reflects, Audit.IsSound, IsEnvironment, Matches, Grants.IsIssuable, Grants.GrantFor;
      hide Purchases, AreWritten, Grants.SpentEvents, Audit.IsAudited, AreReported, Grants.IssuedIn;
      var n := world.tick;
      world.tick := n + 2;
      var failing := world.failing(n);
      if failing.Raises? {
        return if failing.caught then Caught else Uncaught;
      }
      var id := world.grantId(n);
      if id !in policy.grants.rows {
        Grants.NeverSeen(policy.grants.rows, policy.grants.log, id);
      }
      var issued := policy.grants.Issue(
        TermsAt(action, path, destination, taskId, actor, n), id, world.time(n + 1));
      if issued.Ok? {
        SpentEventsGrow(old(policy.grants.log), policy.grants.log[|old(policy.grants.log)|..]);
        return Got(id);
      }
      grantId := if issued.reason == "duplicate_grant" then Uncaught else Caught;
    }

    function Request(
      action: string, path: string, destination: Option<string>, taskId: string, actor: ActorArg, grantId: string)
      : ActionRequest
    {
      ActionRequest(Str(action), actor, Flag(true), Some(Str(path)),
                    if destination.Some? then Some(Str(destination.value)) else None, Some(Str(taskId)), Some(grantId))
    }

    /**
     One question to the policy service, with the next identifier: what it decides and what that spends.
     When it raises instead, the grant may be spent all the same.
     */
    method Consult(request: ActionRequest, n: nat, writes: bool) returns (result: Option<AuthorizationDecision>)
      requires Valid()
      modifies policy, policy.grants, policy.audit
      ensures Valid() && old(policy.grants.log) <= policy.grants.log
      ensures policy.grants.rows.Keys == old(policy.grants.rows.Keys)
      ensures result.Some? <==> writes && !old(policy.audit.Has(world.auditId(n)))
      ensures result.Some? ==>
                result.value.auditId == world.auditId(n) && result.value.auditId !in Flow.Decided(world.trace)
      ensures forall id ::
                policy.audit.Has(id) <==> old(policy.audit.Has(id)) || (result.Some? && id == world.auditId(n))
      ensures result.Some? ==>
                result.value.outcome == Outcome(policy.grants.canon, old(policy.grants.rows), request, world.time(n))
      // What the decision spends is spent whether or not it is returned.
      ensures var allowed :=
          Outcome(policy.grants.canon, old(policy.grants.rows), request, world.time(n)).Allow?;
        && (allowed ==> IsPermitted(policy.grants.canon, request))
        && if allowed && NeedsGrant(request)
           then NamesGrant(request) && policy.grants.log == old(policy.grants.log) +
                  [Grants.Spent(request.grantId.value, RequestedUse(policy.grants.canon, request, world.time(n)))]
           else policy.grants.log == old(policy.grants.log)
    {
      hide PolicyService.Valid, Matches, Grants.Consumable, IsPermitted, ReasonName, Audit.IsAudited;
      hide RequestedUse, NeedsGrant, NamesGrant, HasShape;
      hide AreReported;
      result := policy.Authorize(request, world.auditId(n), world.time(n), writes);
      ReportedWithMoreRows(world.trace, old(policy.audit.rows), policy.audit.rows, world.failing);
      if result.Some? {
        Audit.AuditedStays(old(policy.audit.rows), policy.audit.rows, result.value.auditId);
      }
      if Outcome(policy.grants.canon, old(policy.grants.rows), request, world.time(n)).Allow? {
        AllowanceNamesGrant(policy.grants.canon, old(policy.grants.rows), request, world.time(n));
      }
    }

    /** One step of the outside world: its number. */
    method Advance() returns (n: nat)
      requires Valid()
      modifies world
      ensures Valid() && world.tick == n + 1 && n == old(world.tick) && world.trace == old(world.trace)
    {
      hide PolicyService.Valid, Audit.IsAudited, AreReported;
      n := world.tick;
      world.tick := n + 1;
    }

    method Note(ghost event: Flow.Event)
      requires Valid() && event.Decision? && policy.audit.Has(event.auditId)
      modifies world
      ensures Valid() && world.trace == old(world.trace) + [event] && world.tick == old(world.tick)
    {
      hide PolicyService.Valid, Audit.IsAudited, AreReported;
      Flow.Appended(world.trace, event);
      ReportedAppended(world.trace, event, policy.audit.rows, world.failing);
      world.trace := world.trace + [event];
    }

    /** The decision on one use, noted in the trace; no decision when the service raised instead. */
    method Decide(
      action: string, path: string, destination: Option<string>, taskId: string, actor: ActorArg, grantId: string)
      returns (decision: Try<AuthorizationDecision>)
      requires Valid() && grantId != "" && (action == Flow.READ_DOCUMENT || action == Flow.SEND_DOCUMENT)
      modifies world, policy, policy.grants, policy.audit
      ensures Valid() && old(policy.grants.log) <= policy.grants.log && world.tick == old(world.tick) + 1
      ensures policy.grants.rows.Keys == old(policy.grants.rows.Keys)
      ensures decision.Got? <==>
                world.failing(old(world.tick)).Works? && !old(policy.audit.Has(world.auditId(world.tick)))
      ensures decision.Caught? <==> world.failing(old(world.tick)).Raises? && world.failing(old(world.tick)).caught
      ensures forall id :: policy.audit.Has(id) <==>
                old(policy.audit.Has(id)) || (decision.Got? && id == world.auditId(old(world.tick)))
      ensures !decision.Got? ==> world.trace == old(world.trace)
      ensures decision.Got? ==>
                && decision.value.auditId == world.auditId(old(world.tick))
                && decision.value.auditId !in Flow.Decided(old(world.trace))
                && decision.value.outcome ==
                     Outcome(policy.grants.canon, old(policy.grants.rows),
                             Request(action, path, destination, taskId, actor, grantId), world.time(old(world.tick)))
                && world.trace == old(world.trace) + [Flow.Decision(
                     decision.value.auditId, decision.value.outcome.Allow?, action, path, destination, taskId, grantId)]
      // An allowance spends the grant, also when its row is not written and the call raises.
      ensures var n := old(world.tick);
        var request := Request(action, path, destination, taskId, actor, grantId);
        var event := Flow.Decision(world.auditId(n), true, action, path, destination, taskId, grantId);
        if Flow.ReachesDecision(world.failing(n))
           && Outcome(policy.grants.canon, old(policy.grants.rows), request, world.time(n)).Allow?
        then IsBought(old(policy.grants.log), policy.grants.log, event, actor)
        else policy.grants.log == old(policy.grants.log)
    {
      hide DocumentService.Valid, Audit.IsAudited, IsPermitted, NeedsGrant, RequestedUse, Matches, Outcome;
      hide DocumentService.IsSpending;
      var n := Advance();
      var failing := world.failing(n);
      if failing.Raises? && !failing.late {
        return if failing.caught then Caught else Uncaught;
      }
      var request := Request(action, path, destination, taskId, actor, grantId);
      ghost var allowed :=
        Outcome(policy.grants.canon, policy.grants.rows, request, world.time(n)).Allow?;
      var result := Consult(request, n, failing.Works?);
      ghost var event := Flow.Decision(world.auditId(n), allowed, action, path, destination, taskId, grantId);
      if allowed {
        AllowedUse(request, event, actor, world.time(n));
      }
      if result.None? {
        return if failing.Raises? && failing.caught then Caught else Uncaught;
      }
      Note(event);
      return Got(result.value);
    }

    /** The grant of this decision is spent on its document, destination and task, by this actor. */
    ghost predicate IsSpending(spent: Grants.Event, event: Flow.Event, actor: ActorArg)
      requires event.Decision?
    {
      && spent.Spent? && spent.id == event.grant && ValidActor(actor)
      && spent.use.actorId == actor.actorId.s && spent.use.actor == actor.actor.actor
      && spent.use.sessionId == actor.sessionId.s && spent.use.action == event.action
      && Grants.CanonicalizeResource(policy.grants.canon, Some(Str(event.path))) == Grants.Ok(spent.use.resource)
      && spent.use.destination == event.destination && spent.use.taskId == Some(event.taskId)
    }

    /** The one event added is that spending. */
    ghost predicate IsBought(
      before: seq<Grants.Event>, after: seq<Grants.Event>, event: Flow.Event, actor: ActorArg)
    {
      && event.Decision? && |after| == |before| + 1 && after[..|before|] == before
      && IsSpending(after[|before|], event, actor)
    }

    lemma AllowedUse(request: ActionRequest, event: Flow.Event, actor: ActorArg, now: real)
      requires IsPermitted(policy.grants.canon, request) && event.Decision?
      requires request == Request(event.action, event.path, event.destination, event.taskId, actor, event.grant)
      requires event.action == Flow.READ_DOCUMENT || event.action == Flow.SEND_DOCUMENT
      ensures NeedsGrant(request)
      ensures IsSpending(
                Grants.Spent(event.grant, RequestedUse(policy.grants.canon, request, now)), event, actor)
    {
      hide Matches;
    }

    // ---------- Every allowance is paid with a grant of its own ----------

    /** The decision's grant was issued since the flow began, and spent on it if and when it allowed the use. */
    ghost predicate IsPaid(event: Flow.Event, log: seq<Grants.Event>, account: Account)
      requires event.Decision?
    {
      exists j ::
        && account.start <= j < |log| && log[j].Issued? && log[j].id == event.grant
        && (event.allowed ==> exists k :: j < k < |log| && IsSpending(log[k], event, account.actor))
    }

    /** Every decision was taken on a grant of its own, and every allowance was paid with it. */
    ghost predicate PaidFor(trace: Flow.Trace, log: seq<Grants.Event>, account: Account) {
      && account.start <= |log|
      && (forall i | 0 <= i < |trace| && trace[i].Decision? :: IsPaid(trace[i], log, account))
      && (forall i, j | 0 <= i < j < |trace| && trace[i].Decision? && trace[j].Decision? ::
            trace[i].grant != trace[j].grant)
    }

    lemma PaidLater(trace: Flow.Trace, log: seq<Grants.Event>, longer: seq<Grants.Event>, account: Account)
      requires PaidFor(trace, log, account) && log <= longer
      ensures PaidFor(trace, longer, account)
    {
      hide DocumentService.IsSpending;
      forall i | 0 <= i < |trace| && trace[i].Decision? ensures IsPaid(trace[i], longer, account) {
        assert IsPaid(trace[i], log, account);
        assert forall k | 0 <= k < |log| :: longer[k] == log[k];
      }
    }

    lemma PaidAppended(trace: Flow.Trace, event: Flow.Event, log: seq<Grants.Event>, account: Account)
      requires PaidFor(trace, log, account) && !event.Decision?
      ensures PaidFor(trace + [event], log, account)
    {
      hide IsPaid;
    }

    /** A decision on a grant just issued, which it spends exactly when it allows the use. */
    lemma PaidDecision(
      trace: Flow.Trace, event: Flow.Event, before: seq<Grants.Event>, issued: seq<Grants.Event>,
      after: seq<Grants.Event>, grant: Grants.Grant, account: Account)
      requires event.Decision? && issued == before + [Grants.Issued(event.grant, grant)]
      requires PaidFor(trace, before, account) && !Grants.IssuedIn(before, event.grant)
      requires if event.allowed then IsBought(issued, after, event, account.actor) else after == issued
      ensures PaidFor(trace + [event], after, account)
    {
      hide DocumentService.IsSpending;
      assert issued <= after;
      PaidLater(trace, before, after, account);
      assert IsPaid(event, after, account) by {
        assert after[|before|] == issued[|before|];
      }
      forall i | 0 <= i < |trace| && trace[i].Decision? ensures trace[i].grant != event.grant {
        assert IsPaid(trace[i], before, account);
      }
      hide DocumentService.IsPaid;
    }

    /** The grant can be issued at this instant, and the access of the decision works and finds its key free. */
    ghost predicate CanDecide(
      action: string, path: string, destination: Option<string>, taskId: string, actor: ActorArg, n: nat)
      reads policy.grants, policy.audit
    {
      && CanIssue(action, path, destination, taskId, actor, n)
      && world.failing(n + 2).Works? && !policy.audit.Has(world.auditId(n + 2))
    }

    /** Asking for the grant, or with it for the decision, raises an error that is caught. */
    ghost predicate IsCaughtDecision(
      action: string, path: string, destination: Option<string>, taskId: string, actor: ActorArg, n: nat)
      reads policy.grants
    {
      || IsCaughtIssue(action, path, destination, taskId, actor, n)
      || (&& CanIssue(action, path, destination, taskId, actor, n)
          && world.failing(n + 2).Raises? && world.failing(n + 2).caught)
    }

    lemma CaughtInTurn(
      action: string, path: string, destination: Option<string>, taskId: string, actor: ActorArg, n: nat)
      ensures IsCaughtIssue(action, path, destination, taskId, actor, n) <==>
                && IsCaughtDecision(action, path, destination, taskId, actor, n)
                && !CanIssue(action, path, destination, taskId, actor, n)
      ensures CanDecide(action, path, destination, taskId, actor, n) ==>
                CanIssue(action, path, destination, taskId, actor, n)
    {
      hide Grants.IsIssuable;
    }

    /** The owner asks, and the grant issued at this instant has not expired when it is decided on. */
    predicate IsTimely(actor: ActorArg, n: nat) {
      actor.Context? && actor.actor == Known(Owner) && world.time(n + 2) < world.time(n) + GRANT_LIFETIME
    }

    /** A grant issued on the very terms of a request backs it until it expires, for the owner alone. */
    lemma FreshGrantDecides(
      rows: map<string, Grants.Grant>, action: string, path: string, destination: Option<string>, taskId: string,
      actor: ActorArg, n: nat, id: string)
      requires action == Flow.READ_DOCUMENT || action == Flow.SEND_DOCUMENT
      requires id != "" && id in rows
      requires var terms := TermsAt(action, path, destination, taskId, actor, n);
        && Grants.IsIssuable(policy.grants.canon, terms, world.time(n + 1))
        && rows[id] == Grants.GrantFor(policy.grants.canon, terms, world.time(n + 1))
      ensures var request := Request(action, path, destination, taskId, actor, id);
        Outcome(policy.grants.canon, rows, request, world.time(n + 2)).Allow? <==> IsTimely(actor, n)
    {
      hide Matches;
    }

    /**
     A fresh grant, then the decision it was issued for. The decision comes exactly when both accesses work,
     the terms are in order and both identifiers are free; it allows the use exactly when the owner asked
     and the grant has not expired meanwhile.
     */
    method Obtain(
      action: string, path: string, destination: Option<string>, taskId: string, actor: ActorArg,
      ghost account: Account)
      returns (decision: Try<AuthorizationDecision>, issued: bool)
      requires Valid() && (action == Flow.READ_DOCUMENT || action == Flow.SEND_DOCUMENT)
      requires PaidFor(world.trace, policy.grants.log, account) && actor == account.actor
      modifies world, policy, policy.grants, policy.audit
      ensures Valid() && PaidFor(world.trace, policy.grants.log, account)
      ensures decision.Got? <==> old(CanDecide(action, path, destination, taskId, actor, world.tick))
      ensures decision.Caught? <==> old(IsCaughtDecision(action, path, destination, taskId, actor, world.tick))
      ensures issued <==> old(CanIssue(action, path, destination, taskId, actor, world.tick))
      ensures decision.Got? ==> issued && (decision.value.outcome.Allow? <==> IsTimely(actor, old(world.tick)))
      ensures !decision.Got? ==> world.trace == old(world.trace)
      ensures decision.Got? ==>
                var n := old(world.tick);
                && world.tick == n + 3
                && decision.value.auditId == world.auditId(n + 2)
                && decision.value.auditId !in Flow.Decided(old(world.trace))
                && policy.grants.rows.Keys == old(policy.grants.rows.Keys) + {world.grantId(n)}
                && world.trace == old(world.trace) + [Flow.Decision(
                     decision.value.auditId, decision.value.outcome.Allow?, action, path, destination, taskId,
                     world.grantId(n))]
      ensures forall id :: policy.audit.Has(id) <==>
                old(policy.audit.Has(id)) || (decision.Got? && id == world.auditId(old(world.tick) + 2))
    {
      hide Grants.Reflects, Audit.IsSound, IsEnvironment, Matches, PaidFor, IsPaid, IsBought, PolicyService.Valid;
      hide Grants.IsIssuable, Grants.GrantFor, Outcome, AreReported, Grants.IssuedIn;
      ghost var before, n := policy.grants.log, world.tick;
      var grantId := IssueGrant(action, path, destination, taskId, actor);
      ghost var log := policy.grants.log;
      if !grantId.Got? {
        return if grantId.Caught? then Caught else Uncaught, false;
      }
      ghost var trace, rows := world.trace, policy.grants.rows;
      decision := Decide(action, path, destination, taskId, actor, grantId.value);
      issued := true;
      if decision.Got? {
        PaidDecision(trace, world.trace[|trace|], before, log, policy.grants.log, rows[grantId.value], account);
        FreshGrantDecides(rows, action, path, destination, taskId, actor, n, grantId.value);
      } else {
        PaidLater(trace, before, policy.grants.log, account);
      }
    }

    // ---------- A calm world ----------

    /**
     Every access works, no grant expires between its issue and its decision, identifiers do not repeat, each
     provider says the same whenever it is asked, and owner, task, path and providers are well formed.
     */
    ghost predicate IsSteady(scene: Scene) {
      && (forall n: nat :: world.failing(n).Works?)
      && (forall m: nat, n: nat :: world.time(m) < world.time(n) + GRANT_LIFETIME)
      && (forall m: nat, n: nat | m < n < scene.until ::
            world.grantId(m) != world.grantId(n) && world.auditId(m) != world.auditId(n))
      && (forall n: nat, provider :: world.replying(n, provider) == world.replying(0, provider))
      && ValidActor(scene.actor) && scene.actor.actor == Known(Owner) && IsIdentifier(scene.taskId)
      && policy.grants.canon(scene.path).Some? && forall provider | provider in scene.providers ::
        IsIdentifier(provider)
    }

    /** The same, the identifiers still to come are unused, and nobody cancels the task any more. */
    ghost predicate IsCalmAt(scene: Scene, tick: nat, grantIds: set<string>, rows: seq<Audit.Row>, access: nat) {
      && IsSteady(scene)
      && (forall n: nat | tick <= n < scene.until ::
            world.grantId(n) !in grantIds && !Audit.IsAudited(rows, world.auditId(n)))
      && (forall i: nat | access <= i :: scene.taskId !in tasks.cancelledAt(i))
    }

    ghost predicate IsCalm(scene: Scene)
      reads world, tasks, policy.grants, policy.audit
    {
      IsCalmAt(scene, world.tick, policy.grants.rows.Keys, policy.audit.rows, tasks.tick)
    }

    /** In a calm world every decision is to be had, and in time. */
    lemma CalmDecides(scene: Scene, action: string, destination: Option<string>)
      requires IsCalm(scene) && world.tick + 2 < scene.until
      requires || (action == Flow.READ_DOCUMENT && destination.None?)
               || (action == Flow.SEND_DOCUMENT && destination.Some? && destination.value in scene.providers)
      ensures CanDecide(action, scene.path, destination, scene.taskId, scene.actor, world.tick)
      ensures IsTimely(scene.actor, world.tick)
    {
      hide Matches, Audit.IsAudited;
      ActionsAreIdentifiers();
    }

    lemma ActionsAreIdentifiers()
      ensures IsIdentifier(Flow.READ_DOCUMENT) && IsIdentifier(Flow.SEND_DOCUMENT)
    {
      var send := Flow.SEND_DOCUMENT;
      assert |send| == 22;
    }

    /** It stays calm when the identifiers of one instant gone by are used. */
    lemma StaysCalm(
      scene: Scene, tick: nat, grantIds: set<string>, rows: seq<Audit.Row>, access: nat, later: nat,
      moreIds: set<string>, moreRows: seq<Audit.Row>, laterAccess: nat)
      requires IsCalmAt(scene, tick, grantIds, rows, access) && access <= laterAccess
      requires tick + 2 < later && moreIds <= grantIds + {world.grantId(tick)}
      requires forall id | Audit.IsAudited(moreRows, id) :: Audit.IsAudited(rows, id) || id == world.auditId(tick + 2)
      ensures IsCalmAt(scene, later, moreIds, moreRows, laterAccess)
    {
      hide IsSteady, Audit.IsAudited;
      Unrepeated(scene);
    }

    lemma Unrepeated(scene: Scene)
      requires IsSteady(scene)
      ensures forall m: nat, n: nat | m < n < scene.until ::
                world.grantId(m) != world.grantId(n) && world.auditId(m) != world.auditId(n)
    {
    }

    // ---------- One provider round ----------

    /** Settles entry k of the books: one attempt, whatever becomes of it. */
    method SettleEntry(run: ProviderRun, k: nat, status: Flow.SettledAs, code: Option<string>, ghost account: Account)
      returns (attempt: Flow.Attempt)
      requires Valid() && run.Keeps(world.trace) && k < |run.auditIds| && run.auditIds[k].1 !in run.settled
      requires forall attempt, at :: Flow.MayFollow(
                 world.trace, Flow.Settled(run.auditIds[k].1, status, attempt, at), run.taskId, run.path, run.providers)
      requires PaidFor(world.trace, policy.grants.log, account) && (code.Some? ==> IsIdentifier(code.value))
      modifies run, world, policy.audit
      ensures Valid() && run.Keeps(world.trace) && policy.grants.log == old(policy.grants.log)
      ensures PaidFor(world.trace, policy.grants.log, account)
      ensures attempt == Flow.AttemptWhen(world.failing(old(world.tick))) && world.tick == old(world.tick) + 1
      ensures world.trace ==
              old(world.trace) + [Flow.Settled(old(run.auditIds[k].1), status, attempt, old(world.tick))]
      ensures run.auditFailed == (old(run.auditFailed) || attempt.NotWritten?)
      ensures run.auditIds == old(run.auditIds) && run.attempted == old(run.attempted)
      ensures run.settled == old(run.settled) + {run.auditIds[k].1}
      ensures run.approvalFailed == old(run.approvalFailed)
      ensures forall id :: policy.audit.Has(id) <==> old(policy.audit.Has(id))
    {
      hide DocumentService.Valid, PaidFor, FlowBooks.Keeps, Flow.MayFollow, Flow.NoSendSuccess, IsIdentifier;
      ghost var before, books, at := world.trace, run.Entries(), world.tick;
      OpenIsOutstanding(books, before, run.taskId, run.path, run.providers, k);
      run.settled := run.settled + {run.auditIds[k].1};
      attempt := AuditResult(run.auditIds[k].1, status, code);
      if attempt.NotWritten? {
        run.auditFailed := true;
      }
      KeepsAfterSettlement(books, before, run.taskId, run.path, run.providers, k, status, attempt, at);
      PaidAppended(before, Flow.Settled(run.auditIds[k].1, status, attempt, at), policy.grants.log, account);
      assert run.Entries() == books.(settled := books.settled + {run.auditIds[k].1},
                                     auditFailed := books.auditFailed || attempt.NotWritten?);
    }

    /** What holds of a round between any two of its steps. */
    ghost predicate Runs(run: ProviderRun, account: Account)
      reads this, run, world, policy, policy.grants, policy.audit
    {
      && Valid() && run.Keeps(world.trace) && Flow.NoSendSuccess(world.trace)
      && PaidFor(world.trace, policy.grants.log, account) && run.actor == account.actor
    }

    /** A look at the task inside a round. */
    method LooksRunningInRound(run: ProviderRun, ghost account: Account) returns (running: bool)
      requires Runs(run, account)
      modifies world, tasks
      ensures Runs(run, account) && world.tick == old(world.tick)
      ensures world.trace == old(world.trace) + if running then [Flow.SeenRunning(run.taskId)] else []
      ensures running <==> run.taskId in tasks.tasks && tasks.tasks[run.taskId].status.Running?
      ensures tasks.tasks == old(tasks.Found()) && tasks.tick == old(tasks.tick) + 1
      ensures AreOnlyCancelled(old(tasks.tasks), tasks.tasks)
      ensures Flow.Calls(world.trace) == Flow.Calls(old(world.trace))
    {
      hide DocumentService.Valid, PaidFor, FlowBooks.Keeps, Flow.NoSendSuccess, Flow.Calls, AreOnlyCancelled;
      hide TaskStore.Found;
      ghost var before := world.trace;
      var task;
      task, running := LooksRunning(run.taskId);
      if running {
        Flow.CallsAppended(before, Flow.SeenRunning(run.taskId));
        KeepsAfterNeutral(run.Entries(), before, Flow.SeenRunning(run.taskId), run.taskId, run.path, run.providers);
        PaidAppended(before, Flow.SeenRunning(run.taskId), policy.grants.log, account);
        Flow.NoSendSuccessStays(before, Flow.SeenRunning(run.taskId));
      } else {
        assert world.trace == before;
      }
    }

    /** The task is running, and nobody cancels it before the next two accesses. */
    ghost predicate IsLeftRunning(taskId: string)
      reads tasks
    {
      taskId in tasks.tasks && tasks.tasks[taskId].status.Running? && tasks.IsLeftAlone(taskId, 2)
    }

    /** The task is found running, and the grant for this provider is refused. */
    ghost predicate FailsApproval(run: ProviderRun, provider: string)
      reads run, tasks, world, policy.grants
    {
      && KeepsRunning(run.taskId)
      && IsCaughtIssue(Flow.SEND_DOCUMENT, run.path, Some(provider), run.taskId, run.actor, world.tick)
    }

    /**
     What a decision of instant n on this provider adds to the trace: an allowance and a look that finds the
     task running, or a refusal settled as failed, or an allowance settled as cancelled.
     */
    ghost function DecisionTrace(run: ProviderRun, provider: string, n: nat, allowed: bool, running: bool): Flow.Trace
    {
      var settled := if allowed then Flow.SettledCancelled else Flow.SettledFailed;
      [Flow.Decision(world.auditId(n + 2), allowed, Flow.SEND_DOCUMENT, run.path, Some(provider), run.taskId,
                     world.grantId(n))]
      + [if allowed && running then Flow.SeenRunning(run.taskId)
         else Flow.Settled(world.auditId(n + 2), settled, Flow.AttemptWhen(world.failing(n + 3)), n + 3)]
    }

    /**
     What comes of asking for a provider when the task was found running and a decision is to be had: the
     decision is entered, and it stays open exactly when it allows the use and the task is left running. A
     refusal is settled at once, and so is an allowance that comes too late; either is noticed or not.
     */
    ghost predicate HasAsked(
      run: ProviderRun, provider: string, n: nat, before: Flow.Trace, books: Books, grantIds: set<string>,
      running: bool)
      reads run, world, policy.grants
    {
      var id, allowed := world.auditId(n + 2), IsTimely(run.actor, n);
      var open := allowed && running;
      && world.trace == before + DecisionTrace(run, provider, n, allowed, running)
      && world.tick == n + (if open then 3 else 4)
      && run.auditIds == books.auditIds + [(provider, id)]
      && run.settled == books.settled + (if open then {} else {id})
      && run.auditFailed == (books.auditFailed || (!open && Flow.AttemptWhen(world.failing(n + 3)).NotWritten?))
      && policy.grants.rows.Keys == grantIds + {world.grantId(n)}
    }

    /**
     The callback: whether this provider may be contacted now. A repeated question is answered no, and so
     is one during which an error was raised, because the router takes any error for a refusal.
     */
    method AuthorizeProvider(run: ProviderRun, provider: string, ghost account: Account) returns (approved: bool)
      requires Runs(run, account)
      modifies run, world, tasks, policy, policy.grants, policy.audit
      ensures old(world.trace) <= world.trace
      ensures Runs(run, account)
      ensures approved ==>
                && provider in run.providers && provider !in old(run.attempted)
                && Flow.SendCleared(world.trace, run.taskId, run.path, provider)
                && !Flow.WasContacted(world.trace, provider)
                && run.HasOpen(world.trace, provider)
      // Approved exactly when it was not asked for before, and the outside world lets everything through in time.
      ensures var n := old(world.tick);
        approved <==> && !old(run.auditFailed) && provider !in old(run.attempted) && provider in run.providers
                      && old(IsLeftRunning(run.taskId)) && IsTimely(run.actor, n)
                      && old(CanDecide(Flow.SEND_DOCUMENT, run.path, Some(provider), run.taskId, run.actor, world.tick))
      ensures if old(run.auditFailed) || provider in old(run.attempted) || provider !in run.providers
              then && world.trace == old(world.trace) && policy.grants.log == old(policy.grants.log)
                   && run.attempted == old(run.attempted)
              else && run.attempted == old(run.attempted) + {provider}
                   && (old(KeepsRunning(run.taskId) && CanDecide(
                         Flow.SEND_DOCUMENT, run.path, Some(provider), run.taskId, run.actor, world.tick)) ==>
                         HasAsked(run, provider, old(world.tick), old(world.trace) + [Flow.SeenRunning(run.taskId)],
                                  old(run.Entries()), old(policy.grants.rows.Keys), old(IsLeftRunning(run.taskId))))
      ensures old(run.auditFailed) ==> run.auditFailed
      ensures run.approvalFailed <==>
                || old(run.approvalFailed)
                || (&& !old(run.auditFailed) && provider !in old(run.attempted) && provider in run.providers
                    && old(FailsApproval(run, provider)))
      ensures OpenProviders(run.auditIds, run.settled) ==
              OpenProviders(old(run.auditIds), old(run.settled)) + if approved then {provider} else {}
      ensures Flow.Calls(world.trace) == Flow.Calls(old(world.trace))
      ensures tasks.OnlyLooked(old(tasks.tasks), old(tasks.tick))
      ensures old(IsLeftRunning(run.taskId)) ==>
                run.taskId in tasks.tasks && tasks.tasks[run.taskId] == old(tasks.tasks)[run.taskId]
      ensures forall id :: policy.audit.Has(id) ==>
                old(policy.audit.Has(id)) || id == world.auditId(old(world.tick) + 2)
    {
      hide DocumentService.Valid, PaidFor, FlowBooks.Keeps, Flow.NoSendSuccess, HasAllowance;
      hide Flow.SendCleared, PolicyService.Valid, Flow.Calls, AreOnlyCancelled, TaskStore.IsLeftAlone;
      hide DocumentService.CanDecide, ProviderRun.HasOpen, DocumentService.DecisionTrace;
      if run.auditFailed || provider in run.attempted || provider !in run.providers {
        return false;
      }
      NotYetEntered(run.Entries(), world.trace, run.taskId, run.path, run.providers, provider);
      KeepsAfterAttempt(run.Entries(), world.trace, run.taskId, run.path, run.providers, provider);
      run.attempted := run.attempted + {provider};
      approved := AskPolicy(run, provider, account);
    }

    /** Asks once for a provider just entered among the attempts. */
    method AskPolicy(run: ProviderRun, provider: string, ghost account: Account) returns (approved: bool)
      requires Runs(run, account) && provider in run.attempted && provider in run.providers
      requires forall k | 0 <= k < |run.auditIds| :: run.auditIds[k].0 != provider
      modifies run, world, tasks, policy, policy.grants, policy.audit
      ensures old(world.trace) <= world.trace
      ensures Runs(run, account) && run.attempted == old(run.attempted)
      ensures approved ==>
                && Flow.SendCleared(world.trace, run.taskId, run.path, provider)
                && run.HasOpen(world.trace, provider)
      ensures approved <==>
                && old(IsLeftRunning(run.taskId)) && IsTimely(run.actor, old(world.tick))
                && old(CanDecide(Flow.SEND_DOCUMENT, run.path, Some(provider), run.taskId, run.actor, world.tick))
      ensures old(KeepsRunning(run.taskId) && CanDecide(
                    Flow.SEND_DOCUMENT, run.path, Some(provider), run.taskId, run.actor, world.tick)) ==>
                HasAsked(run, provider, old(world.tick), old(world.trace) + [Flow.SeenRunning(run.taskId)],
                         old(run.Entries()), old(policy.grants.rows.Keys), old(IsLeftRunning(run.taskId)))
      ensures old(run.auditFailed) ==> run.auditFailed
      ensures run.approvalFailed <==> old(run.approvalFailed) || old(FailsApproval(run, provider))
      ensures OpenProviders(run.auditIds, run.settled) ==
              OpenProviders(old(run.auditIds), old(run.settled)) + if approved then {provider} else {}
      ensures Flow.Calls(world.trace) == Flow.Calls(old(world.trace))
      ensures tasks.OnlyLooked(old(tasks.tasks), old(tasks.tick))
      ensures old(IsLeftRunning(run.taskId)) ==>
                run.taskId in tasks.tasks && tasks.tasks[run.taskId] == old(tasks.tasks)[run.taskId]
      ensures forall id :: policy.audit.Has(id) ==>
                old(policy.audit.Has(id)) || id == world.auditId(old(world.tick) + 2)
    {
      hide DocumentService.Valid, PaidFor, FlowBooks.Keeps, Flow.NoSendSuccess, Flow.WasContacted, HasAllowance;
      hide Flow.SendCleared, PolicyService.Valid, Flow.Decided, Flow.Calls, AreOnlyCancelled, AfterCancelling;
      hide ProviderRun.HasOpen, DocumentService.CanDecide, DocumentService.IsTimely, TaskStore.IsLeftAlone;
      hide OpenProviders, DocumentService.DecisionTrace, DocumentService.IsLeftRunning, DocumentService.HasAsked;
      hide DocumentService.IsCaughtIssue, DocumentService.KeepsRunning;
      LeftRunningIsSeenTwice(run.taskId);
      ghost var found, first := tasks.tasks, tasks.tick;
      var running := LooksRunningInRound(run, account);
      OneOrTwoLooks(found, first);
      if !running {
        return false;
      }
      approved := AskRunning(run, provider, account);
    }

    /** What one look, or two, leave of the tasks. */
    lemma OneOrTwoLooks(before: map<string, Task>, first: nat)
      ensures var once := AfterCancelling(before, tasks.cancelledAt(first), first);
        && tasks.AfterLooks(before, first, first + 1) == once
        && tasks.AfterLooks(before, first, first + 2) ==
             AfterCancelling(once, tasks.cancelledAt(first + 1), first + 1)
    {
      hide AfterCancelling;
      tasks.LookedOnce(before, first, first + 1);
      tasks.LookedOnce(before, first, first + 2);
    }

    /** Asks for a provider once the task was found running; an allowance is followed by another look. */
    method AskRunning(run: ProviderRun, provider: string, ghost account: Account) returns (approved: bool)
      requires Runs(run, account) && provider in run.attempted && provider in run.providers
      requires forall k | 0 <= k < |run.auditIds| :: run.auditIds[k].0 != provider
      modifies run, world, tasks, policy, policy.grants, policy.audit
      ensures old(world.trace) <= world.trace
      ensures Runs(run, account) && run.attempted == old(run.attempted)
      ensures approved ==>
                && Flow.SendCleared(world.trace, run.taskId, run.path, provider)
                && run.HasOpen(world.trace, provider)
      ensures var decided :=
          old(CanDecide(Flow.SEND_DOCUMENT, run.path, Some(provider), run.taskId, run.actor, world.tick));
        var timely := IsTimely(run.actor, old(world.tick));
        && tasks.tasks == (if decided && timely then old(tasks.Found()) else old(tasks.tasks))
        && tasks.tick == old(tasks.tick) + (if decided && timely then 1 else 0)
        && (approved <==>
              decided && timely && run.taskId in tasks.tasks && tasks.tasks[run.taskId].status.Running?)
        && (decided ==>
              forall running | timely ==> running == approved ::
                HasAsked(run, provider, old(world.tick), old(world.trace), old(run.Entries()),
                         old(policy.grants.rows.Keys), running))
      ensures old(run.auditFailed) ==> run.auditFailed
      ensures run.approvalFailed <==>
                || old(run.approvalFailed)
                || old(IsCaughtIssue(Flow.SEND_DOCUMENT, run.path, Some(provider), run.taskId, run.actor, world.tick))
      ensures OpenProviders(run.auditIds, run.settled) ==
              OpenProviders(old(run.auditIds), old(run.settled)) + if approved then {provider} else {}
      ensures Flow.Calls(world.trace) == Flow.Calls(old(world.trace))
      ensures forall id :: policy.audit.Has(id) ==>
                old(policy.audit.Has(id)) || id == world.auditId(old(world.tick) + 2)
    {
      hide DocumentService.Valid, PaidFor, FlowBooks.Keeps, Flow.NoSendSuccess, Flow.WasContacted, HasAllowance;
      hide Flow.SendCleared, PolicyService.Valid, Flow.Decided, Flow.Calls, AreOnlyCancelled, TaskStore.Found;
      hide ProviderRun.HasOpen, DocumentService.CanDecide, DocumentService.IsTimely, OpenProviders;
      hide DocumentService.IsCaughtIssue, DocumentService.IsCaughtDecision, DocumentService.CanIssue;
      ghost var before, n := world.trace, world.tick;
      CaughtInTurn(Flow.SEND_DOCUMENT, run.path, Some(provider), run.taskId, run.actor, n);
      var decision, issued := Obtain(Flow.SEND_DOCUMENT, run.path, Some(provider), run.taskId, run.actor, account);
      if !decision.Got? {
        if !issued && decision.Caught? {
          KeepsAfterAttempt(run.Entries(), world.trace, run.taskId, run.path, run.providers, provider);
          assert run.attempted + {provider} == run.attempted;
          run.approvalFailed := true;
        }
        return false;
      }
      Flow.CallsAppended(before, world.trace[|before|]);
      Flow.NoSendSuccessStays(before, world.trace[|before|]);
      NotYetSettled(run.Entries(), before, run.taskId, run.path, run.providers, decision.value.auditId);
      OpenProvidersStay(run.auditIds, run.settled, provider, decision.value.auditId);
      if !decision.value.outcome.Allow? {
        EnterRefusal(run, provider, decision.value, before, world.grantId(n), account);
        return false;
      }
      approved := EnterAndLookAgain(run, provider, decision.value.auditId, before, world.grantId(n), account);
    }

    /** A task is left running exactly when the next two looks both find it so, and they find it unchanged. */
    lemma LeftRunningIsSeenTwice(taskId: string)
      ensures IsLeftRunning(taskId) <==>
                && taskId in tasks.Found() && tasks.Found()[taskId].status.Running?
                && taskId in tasks.FoundAgain() && tasks.FoundAgain()[taskId].status.Running?
      ensures KeepsRunning(taskId) <==> taskId in tasks.Found() && tasks.Found()[taskId].status.Running?
      ensures IsLeftRunning(taskId) ==>
                tasks.Found()[taskId] == tasks.FoundAgain()[taskId] == tasks.tasks[taskId]
    {
      tasks.StaysUnlessCancelled(taskId, {Running});
    }

    /** Enters an allowance and looks at the task again; when it stopped running the decision is settled. */
    method EnterAndLookAgain(
      run: ProviderRun, provider: string, auditId: string, ghost before: Flow.Trace, ghost grant: string,
      ghost account: Account)
      returns (approved: bool)
      requires Valid() && run.Keeps(before) && provider in run.attempted && auditId !in Flow.Decided(before)
      requires forall k | 0 <= k < |run.auditIds| :: run.auditIds[k].0 != provider
      requires world.trace ==
               before + [Flow.Decision(auditId, true, Flow.SEND_DOCUMENT, run.path, Some(provider), run.taskId, grant)]
      requires Flow.NoSendSuccess(world.trace)
      requires PaidFor(world.trace, policy.grants.log, account) && run.actor == account.actor
      modifies run, world, tasks, policy.audit
      ensures old(world.trace) <= world.trace
      ensures Runs(run, account) && run.attempted == old(run.attempted)
      ensures tasks.tasks == old(tasks.Found()) && tasks.tick == old(tasks.tick) + 1
      ensures OpenProviders(run.auditIds, run.settled) ==
              OpenProviders(old(run.auditIds), old(run.settled)) + if approved then {provider} else {}
      ensures approved <==> run.taskId in tasks.tasks && tasks.tasks[run.taskId].status.Running?
      ensures approved ==>
                && world.trace == old(world.trace) + [Flow.SeenRunning(run.taskId)] && world.tick == old(world.tick)
                && run.auditIds == old(run.auditIds) + [(provider, auditId)] && run.settled == old(run.settled)
                && run.auditFailed == old(run.auditFailed)
                && Flow.SendCleared(world.trace, run.taskId, run.path, provider)
                && run.HasOpen(world.trace, provider)
      ensures !approved ==>
                var attempt := Flow.AttemptWhen(world.failing(old(world.tick)));
                && world.trace == old(world.trace) +
                     [Flow.Settled(auditId, Flow.SettledCancelled, attempt, old(world.tick))]
                && world.tick == old(world.tick) + 1
                && run.auditIds == old(run.auditIds) + [(provider, auditId)]
                && run.settled == old(run.settled) + {auditId}
                && run.auditFailed == (old(run.auditFailed) || attempt.NotWritten?)
      ensures run.approvalFailed == old(run.approvalFailed)
      ensures Flow.Calls(world.trace) == Flow.Calls(old(world.trace))
      ensures forall id :: policy.audit.Has(id) <==> old(policy.audit.Has(id))
    {
      hide DocumentService.Valid, PaidFor, FlowBooks.Keeps, Flow.NoSendSuccess, Flow.WasContacted, HasAllowance;
      hide Flow.SendCleared, PolicyService.Valid, Flow.Decided, Flow.Calls, AreOnlyCancelled, TaskStore.Found;
      hide OpenProviders;
      NotYetSettled(run.Entries(), before, run.taskId, run.path, run.providers, auditId);
      OpenProvidersGrow(run.auditIds, run.settled, provider, auditId);
      OpenProvidersStay(run.auditIds, run.settled, provider, auditId);
      EnterAllowance(run, provider, auditId, before, grant);
      ghost var allowed, k := world.trace, |run.auditIds| - 1;
      approved := LooksRunningInRound(run, account);
      if approved {
        ClearedBySeeing(before, allowed, world.trace, run.taskId, run.path, provider, auditId, grant);
        assert run.IsOpen(k, provider);
      } else {
        SettleCancelled(run, |run.auditIds| - 1, account);
      }
    }

    lemma ClearedBySeeing(
      before: Flow.Trace, allowed: Flow.Trace, trace: Flow.Trace, taskId: string, path: string, provider: string,
      auditId: string, grant: string)
      requires allowed ==
               before + [Flow.Decision(auditId, true, Flow.SEND_DOCUMENT, path, Some(provider), taskId, grant)]
      requires trace == allowed + [Flow.SeenRunning(taskId)]
      ensures Flow.SendCleared(trace, taskId, path, provider)
      ensures HasAllowance(trace, taskId, path, provider, auditId)
    {
      assert trace[|before|] == Flow.Decision(auditId, true, Flow.SEND_DOCUMENT, path, Some(provider), taskId, grant);
      assert trace[|allowed|] == Flow.SeenRunning(taskId);
    }

    method EnterAllowance(
      run: ProviderRun, provider: string, auditId: string, ghost before: Flow.Trace, ghost grant: string)
      requires run.Keeps(before) && provider in run.attempted && auditId !in Flow.Decided(before)
      requires forall k | 0 <= k < |run.auditIds| :: run.auditIds[k].0 != provider
      requires world.trace ==
               before + [Flow.Decision(auditId, true, Flow.SEND_DOCUMENT, run.path, Some(provider), run.taskId, grant)]
      modifies run
      ensures run.Keeps(world.trace) && run.attempted == old(run.attempted)
      ensures run.auditIds == old(run.auditIds) + [(provider, auditId)] && run.settled == old(run.settled)
      ensures auditId !in run.settled && run.auditFailed == old(run.auditFailed)
      ensures run.approvalFailed == old(run.approvalFailed)
    {
      NotYetSettled(run.Entries(), before, run.taskId, run.path, run.providers, auditId);
      hide FlowBooks.Keeps, Flow.Decided;
      KeepsAfterAllowance(run.Entries(), before, run.taskId, run.path, run.providers, provider, auditId, grant);
      run.auditIds := run.auditIds + [(provider, auditId)];
    }

    /** Enters a refusal and settles it: one attempt, at the present instant. */
    method EnterRefusal(
      run: ProviderRun, provider: string, decision: AuthorizationDecision, ghost before: Flow.Trace,
      ghost grant: string, ghost account: Account)
      requires Valid() && run.Keeps(before) && provider in run.attempted && decision.auditId !in Flow.Decided(before)
      requires forall k | 0 <= k < |run.auditIds| :: run.auditIds[k].0 != provider
      requires world.trace == before + [Flow.Decision(
                 decision.auditId, false, Flow.SEND_DOCUMENT, run.path, Some(provider), run.taskId, grant)]
      requires Flow.NoSendSuccess(world.trace)
      requires PaidFor(world.trace, policy.grants.log, account) && run.actor == account.actor
      modifies run, world, policy.audit
      ensures Runs(run, account) && run.attempted == old(run.attempted) && world.tick == old(world.tick) + 1
      ensures var attempt := Flow.AttemptWhen(world.failing(old(world.tick)));
        && world.trace ==
             old(world.trace) + [Flow.Settled(decision.auditId, Flow.SettledFailed, attempt, old(world.tick))]
        && run.auditFailed == (old(run.auditFailed) || attempt.NotWritten?)
      ensures run.auditIds == old(run.auditIds) + [(provider, decision.auditId)]
      ensures run.settled == old(run.settled) + {decision.auditId}
      ensures Flow.Calls(world.trace) == Flow.Calls(old(world.trace))
      ensures forall id :: policy.audit.Has(id) <==> old(policy.audit.Has(id))
      ensures run.approvalFailed == old(run.approvalFailed)
    {
      hide DocumentService.Valid, PaidFor, FlowBooks.Keeps, Flow.NoSendSuccess, Flow.WasContacted, Flow.Decided;
      hide Flow.Calls, IsIdentifier, ReasonName;
      ghost var books, decided, at := run.Entries(), world.trace, world.tick;
      KeepsSettlesOnce(books, before, run.taskId, run.path, run.providers);
      Flow.Appended(before, decided[|before|]);
      run.auditIds := run.auditIds + [(provider, decision.auditId)];
      run.settled := run.settled + {decision.auditId};
      ReasonsAreIdentifiers(decision.reason);
      var attempt := AuditResult(decision.auditId, Flow.SettledFailed, Some(ReasonName(decision.reason)));
      if attempt.NotWritten? {
        run.auditFailed := true;
      }
      ghost var settlement := Flow.Settled(decision.auditId, Flow.SettledFailed, attempt, at);
      KeepsAfterRefusal(
        books, before, run.taskId, run.path, run.providers, provider, decision.auditId, grant, attempt, at);
      PaidAppended(decided, settlement, policy.grants.log, account);
      Flow.NoSendSuccessStays(decided, settlement);
      Flow.CallsAppended(decided, settlement);
    }

    method SettleCancelled(run: ProviderRun, k: nat, ghost account: Account)
      requires Runs(run, account) && k < |run.auditIds| && run.auditIds[k].1 !in run.settled
      modifies run, world, policy.audit
      ensures var attempt := Flow.AttemptWhen(world.failing(old(world.tick)));
        && world.trace == old(world.trace) +
             [Flow.Settled(old(run.auditIds[k].1), Flow.SettledCancelled, attempt, old(world.tick))]
        && run.auditFailed == (old(run.auditFailed) || attempt.NotWritten?)
      ensures run.approvalFailed == old(run.approvalFailed) && world.tick == old(world.tick) + 1
      ensures Runs(run, account) && run.attempted == old(run.attempted)
      ensures run.auditIds == old(run.auditIds) && run.settled == old(run.settled) + {run.auditIds[k].1}
      ensures Flow.Calls(world.trace) == Flow.Calls(old(world.trace))
      ensures forall id :: policy.audit.Has(id) <==> old(policy.audit.Has(id))
    {
      hide DocumentService.Valid, PaidFor, FlowBooks.Keeps, Flow.NoSendSuccess, Flow.WasContacted, Flow.Calls;
      hide IsIdentifier;
      CodesAreIdentifiers();
      ghost var before := world.trace;
      var attempt := SettleEntry(run, k, Flow.SettledCancelled, Some("task_cancelled"), account);
      Flow.CallsAppended(before, world.trace[|before|]);
      Flow.NoSendSuccessStays(before, world.trace[|before|]);
    }

    lemma CodesAreIdentifiers()
      ensures IsIdentifier("task_cancelled") && IsIdentifier("provider_failed")
    {
    }

    // ---------- Contacting providers ----------

    /** The one outbound call for a provider cleared a moment ago. */
    method ContactProvider(run: ProviderRun, provider: string, ghost account: Account) returns (reply: Reply)
      requires Runs(run, account) && provider in run.attempted && provider in run.providers
      requires !Flow.WasContacted(world.trace, provider)
      requires Flow.SendCleared(world.trace, run.taskId, run.path, provider) && run.HasOpen(world.trace, provider)
      modifies world
      ensures Runs(run, account) && world.tick == old(world.tick) + 1
      ensures reply == world.replying(old(world.tick), provider)
      ensures world.trace == old(world.trace) + CallTrace(provider, reply)
      ensures Flow.Contacts(Flow.Calls(world.trace)) == Flow.Contacts(Flow.Calls(old(world.trace))) + [provider]
      ensures Flow.HasCrashed(world.trace) <==> Flow.HasCrashed(old(world.trace)) || reply.Crash?
      ensures Flow.HasAnswered(world.trace) <==> Flow.HasAnswered(old(world.trace)) || (reply.Text? && reply.text != "")
      ensures reply.Text? ==> run.HasAnswer(world.trace, provider, reply.text)
    {
      hide DocumentService.Valid, PaidFor, FlowBooks.Keeps, Flow.NoSendSuccess, Flow.WasContacted, Flow.SendCleared;
      hide ProviderRun.HasOpen, ProviderRun.HasAnswer, Flow.Calls, Flow.Contacts, Flow.HasCrashed, Flow.HasAnswered;
      ghost var before := world.trace;
      reply := CallProvider(provider);
      ghost var contacted := before + [Flow.Contacted(provider)];
      KeepsAfterContact(run.Entries(), before, run.taskId, run.path, run.providers, provider);
      StepTaken(before, Flow.Contacted(provider), account);
      if reply.Nothing? {
        assert world.trace == contacted;
      } else {
        ghost var event := if reply.Text? then Flow.Replied(provider, reply.text) else Flow.Crashed(provider);
        assert world.trace == contacted + [event];
        KeepsAfterNeutral(run.Entries(), contacted, event, run.taskId, run.path, run.providers);
        StepTaken(contacted, event, account);
        if reply.Text? {
          AnsweredByReply(run, before, provider, reply.text);
        }
      }
    }

    /** What an event that decides and settles nothing leaves as it was. */
    lemma StepTaken(trace: Flow.Trace, event: Flow.Event, account: Account)
      requires PaidFor(trace, policy.grants.log, account) && Flow.NoSendSuccess(trace)
      requires !event.Decision? && !event.Settled?
      ensures PaidFor(trace + [event], policy.grants.log, account) && Flow.NoSendSuccess(trace + [event])
      ensures Flow.Contacts(Flow.Calls(trace + [event])) ==
              Flow.Contacts(Flow.Calls(trace)) + if event.Contacted? then [event.provider] else []
      ensures Flow.HasCrashed(trace + [event]) <==> Flow.HasCrashed(trace) || event.Crashed?
      ensures Flow.HasAnswered(trace + [event]) <==> Flow.HasAnswered(trace) || Flow.IsAnswer(event)
    {
      hide PaidFor, Flow.NoSendSuccess, Flow.Calls, Flow.HasCrashed, Flow.HasAnswered;
      Flow.AnswerAppended(trace, event);
      PaidAppended(trace, event, policy.grants.log, account);
      Flow.NoSendSuccessStays(trace, event);
      ContactAppended(trace, event);
      Flow.CrashAppended(trace, event);
    }

    lemma AnsweredByReply(run: ProviderRun, before: Flow.Trace, provider: string, text: string)
      requires run.HasOpen(before, provider)
      ensures run.HasAnswer(before + [Flow.Contacted(provider)] + [Flow.Replied(provider, text)], provider, text)
    {
      var k: nat :| run.IsOpen(k, provider)
                    && HasAllowance(before, run.taskId, run.path, provider, run.auditIds[k].1);
      var i :| 0 <= i < |before| && Flow.IsSendAllowance(before[i], run.taskId, run.path, provider)
               && before[i].auditId == run.auditIds[k].1;
      var trace := before + [Flow.Contacted(provider)] + [Flow.Replied(provider, text)];
      assert trace[i] == before[i] && trace[|before| + 1] == Flow.Replied(provider, text);
      assert Flow.Answered(trace, run.taskId, run.path, run.auditIds[k].1, provider, text);
    }

    /** This provider is usable when the router looks at it, and has a model. */
    ghost predicate IsTried(providers: seq<string>, i: nat)
      requires i < |providers|
      reads router
    {
      router.IsUsable(providers[i], world.time(i)) && router.hasModel(providers[i])
    }

    /**
     Tries the candidates in order until one replies with a text or raises. Exactly the providers approved are
     contacted, each at most once and in the caller's order, and exactly these are reported; their decisions are
     the ones left to be settled.
     */
    method GenerateDocument(run: ProviderRun, ghost account: Account, ghost until: nat)
      returns (raised: bool, text: Option<string>, provider: string, contacted: seq<string>)
      requires Runs(run, account) && Flow.Calls(world.trace) == [] && OpenProviders(run.auditIds, run.settled) == {}
      modifies run, world, tasks, router, policy, policy.grants, policy.audit
      ensures old(world.trace) <= world.trace
      ensures Runs(run, account)
      ensures text.Some? <==> Flow.HasAnswered(world.trace)
      ensures OpenProviders(run.auditIds, run.settled) == set p | p in contacted
      ensures NoRepeats(contacted) && (NoRepeats(run.providers) ==> IsSubsequence(contacted, run.providers))
      ensures text.Some? ==> !raised && text.value != "" && run.HasAnswer(world.trace, provider, text.value)
      ensures contacted == Flow.Contacts(Flow.Calls(world.trace))
      ensures raised <==> Flow.HasCrashed(world.trace)
      ensures tasks.OnlyLooked(old(tasks.tasks), old(tasks.tick))
      // When all goes well a text comes back exactly when some usable provider has one.
      ensures old(BeginsWell(run, until)) ==>
                && GoesWell(run, until) && !raised
                && (text.Some? <==> old(SomeoneSpeaks(run.providers)))
      // Giving up means that every provider that could be asked was asked, or the audit had failed.
      ensures !raised && text.None? && !run.auditFailed ==>
                forall i | 0 <= i < |run.providers| && old(IsTried(run.providers, i)) ::
                  run.providers[i] in run.attempted
    {
      hide DocumentService.Valid, PaidFor, FlowBooks.Keeps, Flow.NoSendSuccess, Flow.Calls, ProviderRun.HasAnswer;
      hide PolicyService.Valid, OpenProviders, Flow.Contacts, TaskStore.AfterLooks, IsSubsequence, NoRepeats;
      hide DocumentService.BeginsWell, DocumentService.GoesWell, DocumentService.SomeoneSpeaks, DocumentService.Speaks;
      hide DocumentService.GoesOn, DocumentService.IsOffering, DocumentService.IsTried;
      ghost var well, n := BeginsWell(run, until), 0;
      var candidates := router.Candidates(run.providers, world.time);
      EveryUsableIsCandidate(run, candidates);
      CandidatesSpeak(run.providers, candidates);
      BeginsInSilence(well, run, candidates, until);
      raised, text, provider, contacted, n := OfferCandidates(run, candidates, account, well, until);
      AllInOrder(contacted, candidates, n, run.providers);
    }

    /** The loop over the candidates. */
    method OfferCandidates(
      run: ProviderRun, candidates: seq<string>, ghost account: Account, ghost well: bool, ghost until: nat)
      returns (raised: bool, text: Option<string>, provider: string, contacted: seq<string>, ghost n: nat)
      requires Runs(run, account) && Flow.Calls(world.trace) == [] && OpenProviders(run.auditIds, run.settled) == {}
      requires NoRepeats(candidates) && forall p | p in candidates :: p in run.providers
      requires GoesOn(well, run, candidates, 0, until)
      modifies run, world, tasks, router, policy, policy.grants, policy.audit
      ensures old(world.trace) <= world.trace && Runs(run, account)
      ensures text.Some? <==> Flow.HasAnswered(world.trace)
      ensures OpenProviders(run.auditIds, run.settled) == set p | p in contacted
      ensures IsOffering(contacted, candidates, n)
      ensures text.Some? ==> !raised && text.value != "" && run.HasAnswer(world.trace, provider, text.value)
      ensures contacted == Flow.Contacts(Flow.Calls(world.trace))
      ensures raised <==> Flow.HasCrashed(world.trace)
      ensures tasks.OnlyLooked(old(tasks.tasks), old(tasks.tick))
      ensures well ==>
                && GoesWell(run, until) && !raised
                && (text.Some? <==>
                      exists j :: 0 <= j < |candidates| && router.hasModel(candidates[j]) && Speaks(candidates[j]))
      ensures !raised && text.None? && !run.auditFailed ==>
                forall j | 0 <= j < |candidates| && router.hasModel(candidates[j]) :: candidates[j] in run.attempted
    {
      hide DocumentService.Valid, PaidFor, FlowBooks.Keeps, Flow.NoSendSuccess, Flow.Calls, ProviderRun.HasAnswer;
      hide PolicyService.Valid, OpenProviders, Flow.Contacts, TaskStore.AfterLooks, NoRepeats, Flow.HasAnswered;
      hide DocumentService.GoesWell, DocumentService.Speaks, DocumentService.GoesOn, DocumentService.IsOffering;
      hide Flow.HasCrashed, DocumentService.IsSilentAt;
      raised, text, provider, contacted := false, None, "", [];
      NothingCalled(world.trace);
      StartsOffering(candidates);
      tasks.NoLooks(tasks.tasks, tasks.tick);
      n := 0;
      assert OpenProviders(run.auditIds, run.settled) == set p | p in contacted;
      for i := 0 to |candidates|
        invariant Runs(run, account) && n == i
        invariant run.auditFailed
                  || forall j | 0 <= j < i && router.hasModel(candidates[j]) :: candidates[j] in run.attempted
        invariant old(world.trace) <= world.trace
        invariant contacted == Flow.Contacts(Flow.Calls(world.trace))
        invariant !Flow.HasCrashed(world.trace) && !Flow.HasAnswered(world.trace)
        invariant OpenProviders(run.auditIds, run.settled) == set p | p in contacted
        invariant IsOffering(contacted, candidates, i) && GoesOn(well, run, candidates, i, until)
        invariant tasks.OnlyLooked(old(tasks.tasks), old(tasks.tick))
      {
        n := i + 1;
        NextCandidate(candidates, i, contacted);
        NextIsNew(well, run, candidates, i, until);
        if !router.hasModel(candidates[i]) {
          continue;
        }
        ghost var at, attempted, tick := tasks.tick, run.attempted, world.tick;
        var approved, reply := TryCandidate(run, candidates[i], account, until);
        HeardOne(well, run, candidates, i, until, attempted, tick, reply);
        tasks.LooksGoOn(old(tasks.tasks), old(tasks.tick), at, tasks.tick);
        if !approved {
          continue;
        }
        contacted := contacted + [candidates[i]];
        if reply.Crash? {
          raised := true;
          return;
        }
        if reply.Nothing? || reply.text == "" {
          continue;
        }
        router.CountReply(candidates[i], world.time(world.tick));
        text, provider := Some(reply.text), candidates[i];
        return;
      }
      SilentToTheEnd(well, run, candidates, until);
    }

    /** Whenever asked, this provider replies with a text. */
    ghost predicate Speaks(provider: string) {
      world.replying(0, provider).Text? && world.replying(0, provider).text != ""
    }

    /** Some usable provider has a text to reply with. */
    ghost predicate SomeoneSpeaks(providers: seq<string>)
      reads router
    {
      exists i :: 0 <= i < |providers| && IsTried(providers, i) && Speaks(providers[i])
    }

    /** No provider is listed twice and no call will raise, and from this instant on there are instants enough. */
    ghost predicate IsPromising(scene: Scene, tick: nat) {
      && NoRepeats(scene.providers) && tick + 4 * |scene.providers| <= scene.until
      && forall provider | provider in scene.providers :: !world.replying(0, provider).Crash?
    }

    /** All goes well, and nobody was asked yet. */
    ghost predicate BeginsWell(run: ProviderRun, until: nat)
      reads world, tasks, policy.grants, policy.audit, run
    {
      GoesWell(run, until) && run.attempted == {} && IsPromising(SceneOf(run, until), world.tick)
    }

    /** None of the first i candidates has anything to say, and for the others there are instants enough. */
    ghost predicate IsSilentAt(
      providers: seq<string>, candidates: seq<string>, i: nat, until: nat, attempted: set<string>, tick: nat)
    {
      && i <= |candidates| && tick + 4 * (|candidates| - i) <= until
      && (forall j | i <= j < |candidates| :: candidates[j] !in attempted)
      && (forall j | 0 <= j < i && router.hasModel(candidates[j]) :: !Speaks(candidates[j]))
      && (forall j | 0 <= j < |candidates| :: !world.replying(0, candidates[j]).Crash?)
      && NoRepeats(candidates)
    }

    lemma CandidatesSpeak(providers: seq<string>, candidates: seq<string>)
      requires forall p :: p in candidates <==>
                 exists i :: 0 <= i < |providers| && providers[i] == p && router.IsUsable(p, world.time(i))
      ensures SomeoneSpeaks(providers) <==>
                exists j :: 0 <= j < |candidates| && router.hasModel(candidates[j]) && Speaks(candidates[j])
    {
      hide DocumentService.Speaks;
      if i :| 0 <= i < |providers| && IsTried(providers, i) && Speaks(providers[i]) {
        assert router.IsUsable(providers[i], world.time(i));
        assert providers[i] in candidates;
        var j :| 0 <= j < |candidates| && candidates[j] == providers[i];
      }
      if j :| 0 <= j < |candidates| && router.hasModel(candidates[j]) && Speaks(candidates[j]) {
        assert candidates[j] in candidates;
        var i :| 0 <= i < |providers| && providers[i] == candidates[j] && router.IsUsable(candidates[j], world.time(i));
        assert IsTried(providers, i);
      }
    }

    /** If it began well, it has gone well so far, and nobody has said anything. */
    ghost predicate GoesOn(well: bool, run: ProviderRun, candidates: seq<string>, i: nat, until: nat)
      reads world, tasks, policy.grants, policy.audit, run
    {
      well ==> GoesWell(run, until) && IsSilentAt(run.providers, candidates, i, until, run.attempted, world.tick)
    }

    lemma BeginsInSilence(well: bool, run: ProviderRun, candidates: seq<string>, until: nat)
      requires (well ==> BeginsWell(run, until)) && NoRepeats(candidates)
      requires NoRepeats(run.providers) ==> IsSubsequence(candidates, run.providers)
      ensures GoesOn(well, run, candidates, 0, until)
    {
      hide DocumentService.GoesWell, NoRepeats, IsSubsequence;
      if well {
        SubsequenceIsShorter(candidates, run.providers);
        assert forall j | 0 <= j < |candidates| :: candidates[j] in candidates;
      }
    }

    lemma NextIsNew(well: bool, run: ProviderRun, candidates: seq<string>, i: nat, until: nat)
      requires GoesOn(well, run, candidates, i, until) && i < |candidates|
      ensures well ==>
                && GoesWell(run, until) && world.tick + 4 <= until && candidates[i] !in run.attempted
                && IsSilentAt(run.providers, candidates, i, until, run.attempted, world.tick)
      ensures !router.hasModel(candidates[i]) ==> GoesOn(well, run, candidates, i + 1, until)
    {
      hide DocumentService.Speaks, DocumentService.GoesWell;
    }

    /** After the reply of the next candidate: it has spoken, or the silence goes on. */
    lemma HeardOne(
      well: bool, run: ProviderRun, candidates: seq<string>, i: nat, until: nat, attempted: set<string>, tick: nat,
      reply: Reply)
      requires i < |candidates|
      requires well ==>
                 && IsSilentAt(run.providers, candidates, i, until, attempted, tick) && GoesWell(run, until)
                 && world.tick == tick + 4 && run.attempted == attempted + {candidates[i]}
                 && reply == world.replying(0, candidates[i])
      ensures well ==> !reply.Crash? && (Speaks(candidates[i]) <==> reply.Text? && reply.text != "")
      ensures reply.Nothing? || (reply.Text? && reply.text == "") ==> GoesOn(well, run, candidates, i + 1, until)
    {
      hide DocumentService.GoesWell;
    }

    lemma SilentToTheEnd(well: bool, run: ProviderRun, candidates: seq<string>, until: nat)
      requires GoesOn(well, run, candidates, |candidates|, until)
      ensures well ==>
                && GoesWell(run, until)
                && forall j | 0 <= j < |candidates| && router.hasModel(candidates[j]) :: !Speaks(candidates[j])
    {
      hide DocumentService.GoesWell, DocumentService.Speaks;
    }

    ghost function SceneOf(run: ProviderRun, until: nat): Scene {
      Scene(run.taskId, run.path, run.providers, run.actor, until)
    }

    /** The world is calm, the task is running, and no settlement was noticed to fail. */
    ghost predicate GoesWell(run: ProviderRun, until: nat)
      reads world, tasks, policy.grants, policy.audit, run
    {
      && IsCalm(SceneOf(run, until)) && !run.auditFailed
      && run.taskId in tasks.tasks && tasks.tasks[run.taskId].status.Running?
    }

    /** When all goes well a provider not asked before is approved, and its call takes four instants in all. */
    lemma ApprovedWhenWell(run: ProviderRun, provider: string, until: nat)
      requires GoesWell(run, until) && provider in run.providers && world.tick + 4 <= until
      ensures IsLeftRunning(run.taskId) && IsTimely(run.actor, world.tick)
      ensures CanDecide(Flow.SEND_DOCUMENT, run.path, Some(provider), run.taskId, run.actor, world.tick)
    {
      hide DocumentService.IsSteady, DocumentService.CanDecide, DocumentService.IsTimely;
      CalmDecides(SceneOf(run, until), Flow.SEND_DOCUMENT, Some(provider));
    }

    /** One candidate: asked for, and contacted exactly when approved. */
    method TryCandidate(run: ProviderRun, provider: string, ghost account: Account, ghost until: nat)
      returns (approved: bool, reply: Reply)
      requires Runs(run, account) && provider in run.providers
      requires !Flow.HasCrashed(world.trace) && !Flow.HasAnswered(world.trace)
      modifies run, world, tasks, policy, policy.grants, policy.audit
      ensures old(world.trace) <= world.trace && Runs(run, account)
      ensures (run.auditFailed || provider in run.attempted) && old(run.attempted) <= run.attempted
      ensures old(run.auditFailed) ==> run.auditFailed
      ensures OpenProviders(run.auditIds, run.settled) ==
              OpenProviders(old(run.auditIds), old(run.settled)) + if approved then {provider} else {}
      ensures Flow.Contacts(Flow.Calls(world.trace)) ==
              Flow.Contacts(Flow.Calls(old(world.trace))) + if approved then [provider] else []
      ensures !approved ==> reply.Nothing?
      ensures Flow.HasCrashed(world.trace) <==> approved && reply.Crash?
      ensures Flow.HasAnswered(world.trace) <==> approved && reply.Text? && reply.text != ""
      ensures approved && reply.Text? ==> run.HasAnswer(world.trace, provider, reply.text)
      ensures tasks.OnlyLooked(old(tasks.tasks), old(tasks.tick))
      // When all goes well the provider is contacted and says what it always says.
      ensures old(GoesWell(run, until)) && old(world.tick) + 4 <= until && provider !in old(run.attempted) ==>
                && approved && reply == world.replying(0, provider) && GoesWell(run, until)
                && world.tick == old(world.tick) + 4 && run.attempted == old(run.attempted) + {provider}
    {
      hide DocumentService.Valid, PaidFor, FlowBooks.Keeps, Flow.NoSendSuccess, Flow.SendCleared, Flow.Calls;
      hide ProviderRun.HasOpen, ProviderRun.HasAnswer, PolicyService.Valid, OpenProviders, Flow.Contacts;
      hide TaskStore.AfterLooks, DocumentService.GoesWell, DocumentService.IsCalmAt;
      ghost var well := GoesWell(run, until) && world.tick + 4 <= until && provider !in run.attempted;
      reply := Nothing;
      approved := AskCandidate(run, provider, account, until);
      if approved {
        ghost var tick := world.tick;
        if well {
          WellParts(run, until);
        }
        reply := ContactProvider(run, provider, account);
        if well {
          WellLater(run, until, tick, tasks.tick);
        }
      }
    }

    /** The question of TryCandidate. */
    method AskCandidate(run: ProviderRun, provider: string, ghost account: Account, ghost until: nat)
      returns (approved: bool)
      requires Runs(run, account) && provider in run.providers
      modifies run, world, tasks, policy, policy.grants, policy.audit
      ensures old(world.trace) <= world.trace && Runs(run, account)
      ensures (run.auditFailed || provider in run.attempted) && old(run.attempted) <= run.attempted
      ensures old(run.auditFailed) ==> run.auditFailed
      ensures approved ==>
                && provider in run.attempted && Flow.SendCleared(world.trace, run.taskId, run.path, provider)
                && !Flow.WasContacted(world.trace, provider) && run.HasOpen(world.trace, provider)
      ensures OpenProviders(run.auditIds, run.settled) ==
              OpenProviders(old(run.auditIds), old(run.settled)) + if approved then {provider} else {}
      ensures Flow.Calls(world.trace) == Flow.Calls(old(world.trace))
      ensures tasks.OnlyLooked(old(tasks.tasks), old(tasks.tick))
      ensures old(GoesWell(run, until)) && old(world.tick) + 4 <= until && provider !in old(run.attempted) ==>
                && approved && world.tick == old(world.tick) + 3
                && run.attempted == old(run.attempted) + {provider}
                && GoesWell(run, until)
    {
      hide DocumentService.Valid, PaidFor, FlowBooks.Keeps, Flow.NoSendSuccess, Flow.SendCleared, Flow.Calls;
      hide ProviderRun.HasOpen, PolicyService.Valid, DocumentService.HasAsked, OpenProviders, Flow.WasContacted;
      hide DocumentService.CanDecide, DocumentService.IsLeftRunning, TaskStore.AfterLooks;
      hide DocumentService.GoesWell, DocumentService.IsTimely, DocumentService.IsCalmAt;
      ghost var well := GoesWell(run, until) && world.tick + 4 <= until && provider !in run.attempted;
      ghost var n, ids, rows, access := world.tick, policy.grants.rows.Keys, policy.audit.rows, tasks.tick;
      ghost var before, books := world.trace, run.Entries();
      if well {
        ApprovedWhenWell(run, provider, until);
        WellParts(run, until);
      }
      approved := AuthorizeProvider(run, provider, account);
      if well {
        AskedWell(run, provider, n, before + [Flow.SeenRunning(run.taskId)], books, ids);
        GoesOnWell(run, until, n, ids, rows, access);
      }
    }

    lemma WellParts(run: ProviderRun, until: nat)
      requires GoesWell(run, until)
      ensures IsCalmAt(SceneOf(run, until), world.tick, policy.grants.rows.Keys, policy.audit.rows, tasks.tick)
      ensures !run.auditFailed && run.taskId in tasks.tasks && tasks.tasks[run.taskId].status.Running?
      ensures forall n: nat, provider :: world.replying(n, provider) == world.replying(0, provider)
    {
    }

    lemma AskedWell(
      run: ProviderRun, provider: string, n: nat, before: Flow.Trace, books: Books, grantIds: set<string>)
      requires HasAsked(run, provider, n, before, books, grantIds, true)
      requires IsTimely(run.actor, n) && !books.auditFailed
      ensures world.tick == n + 3 && !run.auditFailed
      ensures policy.grants.rows.Keys == grantIds + {world.grantId(n)}
    {
    }

    /** The instant of a call changes nothing of that. */
    lemma WellLater(run: ProviderRun, until: nat, tick: nat, access: nat)
      requires IsCalmAt(SceneOf(run, until), tick, policy.grants.rows.Keys, policy.audit.rows, access)
      requires tick <= world.tick && access <= tasks.tick
      requires !run.auditFailed && run.taskId in tasks.tasks && tasks.tasks[run.taskId].status.Running?
      ensures GoesWell(run, until)
    {
      hide DocumentService.IsSteady, Audit.IsAudited;
    }

    lemma GoesOnWell(run: ProviderRun, until: nat, n: nat, grantIds: set<string>, rows: seq<Audit.Row>, access: nat)
      requires IsCalmAt(SceneOf(run, until), n, grantIds, rows, access)
      requires world.tick > n + 2 && access <= tasks.tick && policy.grants.rows.Keys == grantIds + {world.grantId(n)}
      requires forall id :: policy.audit.Has(id) ==> Audit.IsAudited(rows, id) || id == world.auditId(n + 2)
      requires !run.auditFailed && run.taskId in tasks.tasks && tasks.tasks[run.taskId].status.Running?
      ensures GoesWell(run, until)
    {
      hide DocumentService.IsCalmAt, Audit.IsAudited;
      assert forall id :: policy.audit.Has(id) <==> Audit.IsAudited(policy.audit.rows, id);
      StaysCalm(SceneOf(run, until), n, grantIds, rows, access, world.tick, policy.grants.rows.Keys,
                policy.audit.rows, tasks.tick);
    }

    lemma EveryUsableIsCandidate(run: ProviderRun, candidates: seq<string>)
      requires forall p :: p in candidates <==>
                 exists i :: 0 <= i < |run.providers| && run.providers[i] == p && router.IsUsable(p, world.time(i))
      ensures forall i | 0 <= i < |run.providers| && IsTried(run.providers, i) ::
                run.providers[i] in candidates && router.hasModel(run.providers[i])
    {
      forall i | 0 <= i < |run.providers| && IsTried(run.providers, i)
        ensures run.providers[i] in candidates && router.hasModel(run.providers[i])
      {
        assert router.IsUsable(run.providers[i], world.time(i));
      }
    }

    /** The providers contacted are some of the first i candidates, in their order and each once. */
    ghost predicate IsOffering(contacted: seq<string>, candidates: seq<string>, i: nat) {
      && i <= |candidates| && IsSubsequence(contacted, candidates[..i]) && NoRepeats(contacted)
      && NoRepeats(candidates) && forall p | p in contacted :: p in candidates[..i]
    }

    lemma StartsOffering(candidates: seq<string>)
      requires NoRepeats(candidates)
      ensures IsOffering([], candidates, 0)
    {
    }

    /** The next candidate may be appended to those contacted, or left out. */
    lemma NextCandidate(candidates: seq<string>, i: nat, contacted: seq<string>)
      requires i < |candidates| && IsOffering(contacted, candidates, i)
      ensures candidates[i] in candidates && candidates[i] !in contacted
      ensures IsOffering(contacted, candidates, i + 1) && IsOffering(contacted + [candidates[i]], candidates, i + 1)
    {
      hide IsSubsequence;
      assert candidates[..i + 1] == candidates[..i] + [candidates[i]];
      SubsequenceOfMore(contacted, candidates[..i], candidates[i]);
    }

    lemma AllInOrder(contacted: seq<string>, candidates: seq<string>, n: nat, providers: seq<string>)
      requires IsOffering(contacted, candidates, n)
      requires NoRepeats(providers) ==> IsSubsequence(candidates, providers)
      ensures NoRepeats(contacted)
      ensures NoRepeats(providers) ==> IsSubsequence(contacted, providers)
    {
      hide NoRepeats;
      if NoRepeats(providers) {
        PrefixOfSubsequence(candidates, n, providers);
        SubsequenceTwice(contacted, candidates[..n], providers);
      }
    }

    lemma NothingCalled(trace: Flow.Trace)
      requires Flow.Calls(trace) == []
      ensures Flow.Contacts(Flow.Calls(trace)) == [] && !Flow.HasCrashed(trace) && !Flow.HasAnswered(trace)
    {
    }

    /** A round once it is being settled. */
    ghost predicate Settles(run: ProviderRun, account: Account)
      reads this, run, world, policy, policy.grants, policy.audit
    {
      Valid() && run.Keeps(world.trace) && PaidFor(world.trace, policy.grants.log, account)
    }

    function Summary(text: string): string {
      if |text| <= Flow.MAX_SUMMARY then text else text[..Flow.MAX_SUMMARY]
    }

    /** Some database access between these instants raises an error that is not caught. */
    ghost predicate RaisesWithin(first: int, end: int) {
      exists i: nat :: first <= i < end && Flow.IsUncaught(world.failing(i))
    }

    /** Some database access between these instants raises an error that is caught. */
    ghost predicate NoticesWithin(first: int, end: int) {
      exists i: nat :: first <= i < end && world.failing(i).Raises? && world.failing(i).caught
    }

    /**
     Settles every open entry, one attempt at each instant, as a success only the provider whose text came
     back. An error that is not caught ends the loop, and the entries after it stay open.
     */
    method SettleAll(run: ProviderRun, winner: Option<string>, ghost text: string, ghost account: Account)
      returns (escaped: bool)
      requires Runs(run, account)
      requires winner.Some? ==> text != "" && run.HasAnswer(world.trace, winner.value, text)
      modifies run, world, policy.audit
      ensures old(world.trace) <= world.trace && Settles(run, account)
      // Cut short exactly when an attempt raises, and then something stays open exactly when it was not the last.
      ensures var first, n := old(world.tick), |Flow.Outstanding(old(world.trace))|;
        && (escaped <==> RaisesWithin(first, first + n))
        && (Flow.Outstanding(world.trace) == {} <==> !RaisesWithin(first, first + n - 1))
        && (!escaped ==> world.tick == first + n
                         && (run.auditFailed <==> old(run.auditFailed) || NoticesWithin(first, first + n)))
      ensures Flow.OnlySettles(old(world.trace), world.trace, old(world.tick))
      ensures escaped ==> Flow.EndsRaised(world.trace)
      ensures !escaped ==> Flow.AtRest(world.trace, run.taskId, run.path, run.providers)
      ensures winner.Some? && !run.auditFailed && !escaped ==>
                && Flow.NoneFailed(world.trace)
                && Flow.Explains(world.trace, run.taskId, run.path, winner.value, Summary(text))
      ensures run.approvalFailed == old(run.approvalFailed)
      ensures Flow.Calls(world.trace) == Flow.Calls(old(world.trace))
    {
      hide DocumentService.Valid, PaidFor, FlowBooks.Keeps, Flow.NoSendSuccess, Flow.Answered, Flow.Explains;
      hide Flow.AtRest, Flow.NoneFailed, PolicyService.Valid, Flow.Calls, Flow.Outstanding, FlowBooks.OpenFrom;
      hide Flow.EndsRaised, DocumentService.RaisesWithin, DocumentService.NoticesWithin, ProviderRun.HasAnswer;
      hide DocumentService.IsProgressing, DocumentService.IsFrontSettled;
      ghost var at := WinnerIsEntered(run, winner, text);
      ghost var books, first, n := run.Entries(), world.tick, |Flow.Outstanding(world.trace)|;
      DistinctEntries(books, world.trace, run.taskId, run.path, run.providers);
      OutstandingAreCounted(books, world.trace, run.taskId, run.path, run.providers);
      NothingWithin(first);
      for k := 0 to |run.auditIds|
        invariant Settles(run, account) && old(world.trace) <= world.trace
        invariant run.approvalFailed == old(run.approvalFailed)
        invariant Flow.Calls(world.trace) == Flow.Calls(old(world.trace))
        invariant run.auditIds == books.auditIds && IsFrontSettled(books, run.Entries(), k)
        invariant IsProgressing(books, run, winner, text, k, at)
        invariant first <= world.tick && world.tick + OpenFrom(books, k) == first + n
        invariant !RaisesWithin(first, world.tick) && Flow.OnlySettles(old(world.trace), world.trace, first)
        invariant world.tick == first + |world.trace| - |old(world.trace)|
        invariant run.auditFailed <==> books.auditFailed || NoticesWithin(first, world.tick)
      {
        OpenFromNext(books, k);
        ghost var before := run.Entries();
        IsEntryOpen(books, before, k);
        if run.auditIds[k].1 !in run.settled {
          OneMoreInstant(first, world.tick);
          escaped := SettleOne(run, k, winner, text, books, at, account);
          FrontGrows(books, before, run.Entries(), k);
          if escaped {
            CutAfter(run, books, k, first, n);
            return;
          }
        } else {
          FrontGrows(books, before, before, k);
          SkipsSettled(books, run, winner, text, k, at);
        }
      }
      escaped := false;
      AllSettled(run, books, first, n);
      WinnerExplains(books, run, winner, text, at);
    }

    lemma WinnerIsEntered(run: ProviderRun, winner: Option<string>, text: string) returns (at: nat)
      requires Flow.NoSendSuccess(world.trace)
      requires winner.Some? ==> text != "" && run.HasAnswer(world.trace, winner.value, text)
      ensures IsProgressing(run.Entries(), run, winner, text, 0, at)
      ensures IsFrontSettled(run.Entries(), run.Entries(), 0)
    {
      hide Flow.NoSendSuccess, Flow.Answered;
      at := |run.auditIds|;
      if winner.Some? {
        at :| run.IsOpen(at, winner.value)
              && Flow.Answered(world.trace, run.taskId, run.path, run.auditIds[at].1, winner.value, text);
      }
    }

    lemma IsEntryOpen(books: Books, after: Books, k: nat)
      requires IsFrontSettled(books, after, k) && k < |after.auditIds|
      ensures after.auditIds == books.auditIds
      ensures after.auditIds[k].1 in after.settled <==> books.auditIds[k].1 in books.settled
    {
    }

    /** The front grows over entry k once it is settled, and no other entry has its identifier. */
    lemma FrontGrows(books: Books, before: Books, after: Books, k: nat)
      requires IsFrontSettled(books, before, k) && k < |before.auditIds| && after.auditIds == before.auditIds
      requires after.settled == before.settled + {before.auditIds[k].1}
               || (after == before && before.auditIds[k].1 in before.settled)
      requires forall i, j | 0 <= i < |before.auditIds| && 0 <= j < |before.auditIds| && i != j ::
                 before.auditIds[i].1 != before.auditIds[j].1
      ensures IsFrontSettled(books, after, k + 1)
    {
    }

    lemma SkipsSettled(
      books: Books, run: ProviderRun, winner: Option<string>, text: string, k: nat, at: nat)
      requires IsProgressing(books, run, winner, text, k, at) && k < |books.auditIds|
      requires run.auditIds == books.auditIds && books.auditIds[k].1 in books.settled
      ensures IsProgressing(books, run, winner, text, k + 1, at)
    {
      hide Flow.NoSendSuccess, Flow.Answered, Flow.Explains;
    }

    lemma WinnerExplains(books: Books, run: ProviderRun, winner: Option<string>, text: string, at: nat)
      requires IsProgressing(books, run, winner, text, |run.auditIds|, at)
      ensures winner.Some? && !run.auditFailed ==>
                Flow.Explains(world.trace, run.taskId, run.path, winner.value, Summary(text))
    {
      hide Flow.NoSendSuccess, Flow.Answered, Flow.Explains;
    }

    /** The first k entries are settled, and of the others those that were before. */
    ghost predicate IsFrontSettled(before: Books, after: Books, k: nat) {
      && after.auditIds == before.auditIds && k <= |after.auditIds|
      && (forall j | 0 <= j < k :: after.auditIds[j].1 in after.settled)
      && (forall j | k <= j < |after.auditIds| ::
            after.auditIds[j].1 in after.settled <==> before.auditIds[j].1 in before.settled)
    }

    /** Entry at is the winner's: its reply answers it until it is settled, and then explains unless that failed. */
    ghost predicate IsProgressing(
      books: Books, run: ProviderRun, winner: Option<string>, text: string, k: nat, at: nat)
      reads run, world
    {
      && (if winner.Some?
          then && at < |run.auditIds| == |books.auditIds| && run.auditIds[at].0 == winner.value && text != ""
               && books.auditIds[at].1 !in books.settled
               && (k <= at ==>
                     Flow.Answered(world.trace, run.taskId, run.path, run.auditIds[at].1, winner.value, text))
               && (k > at && !run.auditFailed ==>
                     Flow.Explains(world.trace, run.taskId, run.path, winner.value, Summary(text)))
          else at == |run.auditIds|)
      && (k <= at ==> Flow.NoSendSuccess(world.trace))
    }

    lemma NothingWithin(first: nat)
      ensures !RaisesWithin(first, first) && !NoticesWithin(first, first)
    {
    }

    lemma OneMoreInstant(first: nat, at: nat)
      requires first <= at
      ensures RaisesWithin(first, at + 1) <==> RaisesWithin(first, at) || Flow.IsUncaught(world.failing(at))
      ensures NoticesWithin(first, at + 1) <==>
                NoticesWithin(first, at) || Flow.AttemptWhen(world.failing(at)).NotWritten?
    {
    }

    /** After a settlement that raised, the entries that were open behind it are. */
    lemma CutAfter(run: ProviderRun, books: Books, k: nat, first: nat, n: nat)
      requires run.Keeps(world.trace) && k < |books.auditIds| && IsFrontSettled(books, run.Entries(), k + 1)
      requires first < world.tick && world.tick + OpenFrom(books, k + 1) == first + n
      requires RaisesWithin(first, world.tick) && !RaisesWithin(first, world.tick - 1)
      ensures RaisesWithin(first, first + n)
      ensures Flow.Outstanding(world.trace) == {} <==> !RaisesWithin(first, first + n - 1)
    {
      hide FlowBooks.Keeps, FlowBooks.OpenFrom;
      OutstandingAreCounted(run.Entries(), world.trace, run.taskId, run.path, run.providers);
      OpenWhenFrontIsSettled(books, run.Entries(), k + 1);
      assert Flow.Outstanding(world.trace) == {} <==> |Flow.Outstanding(world.trace)| == 0;
    }

    /** With every entry settled the round is over. */
    lemma AllSettled(run: ProviderRun, books: Books, first: nat, n: nat)
      requires run.Keeps(world.trace) && IsFrontSettled(books, run.Entries(), |run.auditIds|)
      requires world.tick + OpenFrom(books, |run.auditIds|) == first + n && !RaisesWithin(first, world.tick)
      ensures world.tick == first + n && !RaisesWithin(first, first + n - 1)
      ensures Flow.AtRest(world.trace, run.taskId, run.path, run.providers)
      ensures Flow.Outstanding(world.trace) == {}
      ensures !run.auditFailed ==> Flow.NoneFailed(world.trace)
    {
      NothingOpen(run.Entries(), world.trace, run.taskId, run.path, run.providers);
      OkUnlessFailed(run.Entries(), world.trace, run.taskId, run.path, run.providers);
      hide FlowBooks.Keeps;
    }

    /** Settles entry k: as a success exactly when it is the winner's entry, at the given position. */
    method SettleOne(
      run: ProviderRun, k: nat, winner: Option<string>, ghost text: string, ghost books: Books, ghost at: nat,
      ghost account: Account)
      returns (escaped: bool)
      requires Settles(run, account) && k < |run.auditIds| && run.auditIds[k].1 !in run.settled
      requires IsProgressing(books, run, winner, text, k, at)
      requires forall j | 0 <= j < |run.auditIds| && j != k :: run.auditIds[j].0 != run.auditIds[k].0
      modifies run, world, policy.audit
      ensures old(world.trace) <= world.trace && world.tick == old(world.tick) + 1
      ensures Settles(run, account) && run.auditIds == old(run.auditIds)
      ensures run.approvalFailed == old(run.approvalFailed)
      ensures run.settled == old(run.settled) + {run.auditIds[k].1}
      ensures escaped <==> Flow.IsUncaught(world.failing(old(world.tick)))
      ensures run.auditFailed <==>
                old(run.auditFailed) || Flow.AttemptWhen(world.failing(old(world.tick))).NotWritten?
      ensures |world.trace| == |old(world.trace)| + 1 && world.trace[|old(world.trace)|].Settled?
      ensures world.trace[|old(world.trace)|].at == old(world.tick)
      ensures if escaped then Flow.EndsRaised(world.trace) else IsProgressing(books, run, winner, text, k + 1, at)
      ensures Flow.Calls(world.trace) == Flow.Calls(old(world.trace))
    {
      hide DocumentService.Valid, PaidFor, FlowBooks.Keeps, Flow.NoSendSuccess, Flow.Answered, Flow.Explains;
      hide PolicyService.Valid, Flow.Calls, IsIdentifier;
      CodesAreIdentifiers();
      ghost var before, tick := world.trace, world.tick;
      var attempt;
      if winner == Some(run.auditIds[k].0) {
        attempt := SettleEntry(run, k, Flow.SettledSuccess, None, account);
        if attempt.Written? {
          Flow.ExplainedBySettling(before, run.taskId, run.path, run.auditIds[k].1, winner.value, text, tick);
        }
      } else {
        attempt := SettleEntry(run, k, Flow.SettledFailed, Some("provider_failed"), account);
        if k < at {
          Flow.NoSendSuccessStays(before, world.trace[|before|]);
        }
      }
      escaped := attempt.Raised?;
      Flow.EstablishedStays(before, world.trace[|before|], run.taskId, run.path);
      Flow.CallsAppended(before, world.trace[|before|]);
    }

    // ---------- Ending a flow ----------

    function NotRunningResult(task: Option<Task>): FlowResult {
      if task.Some? && task.value.status.Cancelled?
      then FlowResult(Of(Cancelled), None, Some("task_cancelled"), None, [])
      else Failure("task_conflict")
    }

    /** The task was not found running, so its result does not tell whom the flow contacted. */
    predicate WasStopped(r: FlowResult) {
      r.error == Some("task_cancelled") || r.error == Some("task_conflict")
    }

    /**
     A result without an explanation says why there is none: a settlement was noticed to fail, or a provider
     call raised, or the task did not run on, or nobody asked had an answer, or nobody could be asked.
     */
    predicate GivesReason(
      r: FlowResult, auditFailed: bool, raised: bool, running: bool, answered: bool, contacted: bool,
      approvalFailed: bool)
    {
      if r.explanation.Some? then r.error.None?
      else if auditFailed then r.error == Some("audit_failed")
      else if raised then r.error == Some("provider_failed")
      else if !running || answered then WasStopped(r)
      else if contacted then r.error == Some("provider_failed")
      else r.error == Some(if approvalFailed then "approval_failed" else "provider_not_authorized")
    }

    /** The task is running and stays so up to the next look. */
    ghost predicate KeepsRunning(taskId: string)
      reads tasks
    {
      taskId in tasks.tasks && tasks.tasks[taskId].status.Running? && tasks.IsLeftAlone(taskId, 1)
    }

    method Interrupt(taskId: string, error: string, attempted: seq<string>) returns (r: FlowResult)
      modifies tasks
      ensures r.error == Some(error) && r.explanation.None? && r.provider.None? && r.attempted == attempted
      ensures r.status == FailedFlow || r.status == Of(Interrupted) || r.status == Of(Cancelled)
      ensures taskId in old(tasks.tasks) ==> tasks.IsOver(taskId)
      ensures CompletesNone(old(tasks.tasks), tasks.tasks, taskId)
    {
      hide CompletesNone, AfterCancelling, TaskStore.Written, TaskStore.FoundAgain;
      tasks.LookingCompletesNone(taskId);
      StaysActive(taskId, ACTIVE);
      if tasks.StaysIn(taskId, ACTIVE) {
        tasks.WritingCompletesNone(taskId, tasks.Found()[taskId].(status := Interrupted));
      }
      var task := tasks.InterruptTask(taskId);
      r := FlowResult(if task.Some? then Of(task.value.status) else FailedFlow, None, Some(error), None, attempted);
    }

    method Fail(taskId: string, error: string) returns (r: FlowResult)
      modifies tasks
      ensures r.error == Some(error) && r.explanation.None? && r.provider.None? && r.attempted == []
      ensures r.status == FailedFlow || r.status == Of(Failed) || r.status == Of(Cancelled)
      ensures taskId in old(tasks.tasks) ==> tasks.IsOver(taskId)
      ensures CompletesNone(old(tasks.tasks), tasks.tasks, taskId)
    {
      hide CompletesNone, AfterCancelling, TaskStore.Written, TaskStore.FoundAgain;
      tasks.LookingCompletesNone(taskId);
      StaysActive(taskId, UNFINISHED);
      if tasks.StaysIn(taskId, UNFINISHED) {
        tasks.WritingCompletesNone(taskId, tasks.Found()[taskId].(status := Failed));
      }
      var task := tasks.FailTask(taskId);
      r := FlowResult(if task.Some? then Of(task.value.status) else FailedFlow, None, Some(error), None, []);
    }

    lemma StaysActive(taskId: string, statuses: set<TaskStatus>)
      requires forall status | status in statuses :: CanCancel(status)
      ensures tasks.StaysIn(taskId, statuses) ==>
                taskId in tasks.tasks && taskId in tasks.Found() && !tasks.tasks[taskId].status.Completed?
    {
      tasks.StaysUnlessCancelled(taskId, statuses);
    }

    /**
     A result that tells the truth about the trace: an explanation is what the named provider returned, and
     the providers attempted are those contacted, in order, unless a call raised or the task was not found
     running in the end; then none is named.
     */
    ghost predicate IsTrue(taskId: string, path: string, r: FlowResult)
      reads world
    {
      && (if r.explanation.Some?
          then && world.trace != [] && world.trace[|world.trace| - 1] == Flow.Completed(taskId, r.explanation.value)
               && Flow.NoneFailed(world.trace) && r.error.None? && r.provider.Some?
               && Flow.Explains(world.trace, taskId, path, r.provider.value, r.explanation.value)
          else r.provider.None?)
      && r.attempted ==
           if Flow.HasCrashed(world.trace) || WasStopped(r) then [] else Flow.Contacts(Flow.Calls(world.trace))
    }

    /**
     The flow of one task on one document, seen from outside: every effect justified, every allowance
     paid for, every decision settled unless a settlement raised, and the result true.
     */
    ghost predicate IsAccountable(
      taskId: string, path: string, providers: seq<string>, r: FlowOutcome, account: Account)
      reads this, world, policy, policy.grants
    {
      && Flow.IsAccounted(world.trace, taskId, path, providers, r.Returned?)
      && PaidFor(world.trace, policy.grants.log, account)
      && (r.Returned? ==> IsTrue(taskId, path, r.result))
    }

    /** The task is completed and keeps the explanation that was returned. */
    ghost predicate IsKept(taskId: string, explanation: Option<string>)
      reads tasks
    {
      && taskId in tasks.tasks && tasks.tasks[taskId].status.Completed?
      && tasks.tasks[taskId].resultSummary == explanation
    }

    /**
     The task is completed with the explanation that was returned; without one nothing was completed, and a
     task completed before is as it was. No other task was more than cancelled.
     */
    ghost predicate LeavesTasks(before: map<string, Task>, taskId: string, explanation: Option<string>)
      reads tasks
    {
      if explanation.Some?
      then OthersOnlyCancelled(before, tasks.tasks, taskId) && IsKept(taskId, explanation)
      else CompletesNone(before, tasks.tasks, taskId)
    }

    lemma LeavesTasksLater(
      before: map<string, Task>, middle: map<string, Task>, taskId: string, explanation: Option<string>)
      requires CompletesNone(before, middle, taskId) && LeavesTasks(middle, taskId, explanation)
      ensures LeavesTasks(before, taskId, explanation)
    {
      if explanation.Some? {
        OthersOnlyCancelledTwice(before, middle, tasks.tasks, taskId);
      } else {
        CompletesNoneTwice(before, middle, tasks.tasks, taskId);
      }
    }

    /**
     Progress, verification, completion, each guarded by the task's own status. They go through exactly
     when the task is running and nobody cancels it before any of the six accesses they take.
     */
    method FinishTask(taskId: string, summary: string) returns (completed: Option<Task>, result: FlowResult)
      modifies tasks
      ensures completed.Some? <==>
                && taskId in old(tasks.tasks) && old(tasks.tasks)[taskId].status.Running?
                && old(tasks.tasks)[taskId].progress <= 80 && old(tasks.IsLeftAlone(taskId, 6))
      ensures completed.Some? ==>
                && completed.value.status.Completed? && completed.value.resultSummary == Some(summary)
                && taskId in tasks.tasks && tasks.tasks[taskId] == completed.value
                && OthersOnlyCancelled(old(tasks.tasks), tasks.tasks, taskId)
      ensures completed.None? ==>
                && result.explanation.None? && result.provider.None? && result.attempted == []
                && WasStopped(result)
                && (result.error == Some("task_cancelled") ==>
                      taskId in tasks.tasks && tasks.tasks[taskId].status.Cancelled?)
                && CompletesNone(old(tasks.tasks), tasks.tasks, taskId)
      ensures IsUnderWay(old(tasks.tasks), taskId, 80) ==> tasks.IsOver(taskId)
    {
      result := Failure("task_conflict");
      hide TaskStore.Found, TaskStore.FoundAgain, TaskStore.Written, TaskStore.StaysIn, AreOnlyCancelled;
      hide CompletesNone, OthersOnlyCancelled;
      ghost var before := tasks.tasks;
      var progressed := ReportProgress(taskId, 80);
      ghost var reported := tasks.tasks;
      if progressed.None? {
        var state := tasks.Get(taskId);
        if taskId in reported && reported[taskId].status !in ACTIVE {
          OverWhenOnlyCancelled(reported, tasks.tasks, taskId);
        }
        CancellingCompletesNone(reported, tasks.tasks, taskId);
        CompletesNoneTwice(before, reported, tasks.tasks, taskId);
        return None, NotRunningResult(state);
      }
      var verifying := Verify(taskId);
      CompletesNoneTwice(before, reported, tasks.tasks, taskId);
      if verifying.None? {
        return None, result;
      }
      ghost var verified := tasks.tasks;
      tasks.LookingCompletesNone(taskId);
      completed := tasks.CompleteTask(taskId, summary);
      if completed.Some? {
        OthersBefore(before, verified, taskId);
        OthersOnlyCancelledTwice(before, verified, tasks.tasks, taskId);
      } else {
        CompletesNoneTwice(before, verified, tasks.tasks, taskId);
      }
    }

    lemma OthersBefore(before: map<string, Task>, after: map<string, Task>, taskId: string)
      requires CompletesNone(before, after, taskId)
      ensures OthersOnlyCancelled(before, after, taskId)
    {
    }

    /** Verification begins exactly for a running task that nobody cancels before the access. */
    method Verify(taskId: string) returns (task: Option<Task>)
      modifies tasks
      ensures task.Some? <==>
                taskId in old(tasks.tasks) && old(tasks.tasks)[taskId].status.Running?
                  && old(tasks.IsLeftAlone(taskId, 1))
      ensures task.Some? ==>
                && taskId in tasks.tasks && tasks.tasks[taskId] == task.value && tasks.tick == old(tasks.tick) + 2
                && task.value.status ==
                     if taskId in tasks.cancelledAt(old(tasks.tick) + 1) then Cancelled else Verifying
      ensures task.None? && taskId in old(tasks.tasks) && old(tasks.tasks)[taskId].status in {Running, Cancelled} ==>
                tasks.IsOver(taskId)
      ensures CompletesNone(old(tasks.tasks), tasks.tasks, taskId)
    {
      hide AfterCancelling, TaskStore.Written, CompletesNone;
      tasks.LookingCompletesNone(taskId);
      if taskId in tasks.tasks && tasks.tasks[taskId].status.Running? {
        tasks.WritingCompletesNone(taskId, tasks.tasks[taskId].(status := Verifying));
      }
      task := tasks.BeginVerification(taskId);
    }

    /** Progress is taken exactly from an active task that nobody cancels before the look or the write. */
    method ReportProgress(taskId: string, progress: nat) returns (task: Option<Task>)
      modifies tasks
      ensures task.Some? <==>
                && taskId in old(tasks.tasks) && old(tasks.tasks)[taskId].status in ACTIVE
                && old(tasks.tasks)[taskId].progress <= progress && old(tasks.IsLeftAlone(taskId, 2))
      ensures task.Some? ==>
                && tasks.tick == old(tasks.tick) + 3 && taskId in tasks.tasks && tasks.tasks[taskId] == task.value
                && task.value.status == (if taskId in tasks.cancelledAt(old(tasks.tick) + 2) then Cancelled
                                         else old(tasks.tasks)[taskId].status)
                && task.value.progress == progress
      ensures task.None? && IsUnderWay(old(tasks.tasks), taskId, progress) ==> tasks.IsOver(taskId)
      ensures CompletesNone(old(tasks.tasks), tasks.tasks, taskId)
    {
      hide TaskStore.Found, TaskStore.FoundAgain, TaskStore.Written, TaskStore.StaysIn, TaskStore.IsLeftAlone;
      hide CompletesNone;
      tasks.LookingCompletesNone(taskId);
      tasks.StaysUnlessCancelled(taskId, ACTIVE);
      if taskId in tasks.tasks && tasks.tasks[taskId].status in ACTIVE {
        tasks.WrittenUnlessCancelled(
          tasks.FoundAgain(), taskId, tasks.tasks[taskId].(progress := progress), tasks.tick + 1);
        tasks.WritingCompletesNone(taskId, tasks.tasks[taskId].(progress := progress));
      }
      task := tasks.UpdateProgress(taskId, progress);
    }

    /** Completes the task with the explanation, if it is still there to be completed. */
    method Complete(
      taskId: string, path: string, providers: seq<string>, text: string, provider: string, contacted: seq<string>,
      ghost account: Account)
      returns (r: FlowResult)
      requires Valid() && Flow.AtRest(world.trace, taskId, path, providers) && Flow.NoneFailed(world.trace)
      requires Flow.Explains(world.trace, taskId, path, provider, Summary(text))
      requires PaidFor(world.trace, policy.grants.log, account)
      requires contacted == Flow.Contacts(Flow.Calls(world.trace)) && !Flow.HasCrashed(world.trace)
      modifies world, tasks
      ensures Valid() && IsAccountable(taskId, path, providers, Returned(r), account)
      ensures Flow.AtRest(world.trace, taskId, path, providers) && LeavesTasks(old(tasks.tasks), taskId, r.explanation)
      ensures world.trace ==
              old(world.trace) + if r.explanation.Some? then [Flow.Completed(taskId, r.explanation.value)] else []
      ensures r.explanation.Some? <==>
                && taskId in old(tasks.tasks) && old(tasks.tasks)[taskId].status.Running?
                && old(tasks.tasks)[taskId].progress <= 80 && old(tasks.IsLeftAlone(taskId, 6))
      ensures r.explanation.Some? ==> r.explanation == Some(Summary(text)) && r.provider == Some(provider)
      ensures IsUnderWay(old(tasks.tasks), taskId, 80) ==> tasks.IsOver(taskId)
      ensures if r.explanation.Some? then r.error.None? else WasStopped(r)
    {
      hide Flow.IsSafe, Flow.SettlesOnce, Flow.Outstanding, Flow.NoneFailed, Flow.Explains, PaidFor;
      hide PolicyService.Valid, Flow.Calls, Flow.Contacts, Flow.HasCrashed, CompletesNone, OthersOnlyCancelled;
      hide Audit.IsAudited, AreReported, Flow.Decided;
      var completed, result := FinishTask(taskId, Summary(text));
      if completed.None? {
        return result;
      }
      ghost var event := Flow.Completed(taskId, Summary(text));
      Flow.EstablishedStays(world.trace, event, taskId, path);
      Flow.RestsAfter(world.trace, event, taskId, path, providers);
      Flow.Appended(world.trace, event);
      ReportedAppended(world.trace, event, policy.audit.rows, world.failing);
      PaidAppended(world.trace, event, policy.grants.log, account);
      ContactAppended(world.trace, event);
      Flow.CrashAppended(world.trace, event);
      world.trace := world.trace + [event];
      return FlowResult(Of(completed.value.status), completed.value.resultSummary, None, Some(provider), contacted);
    }

    /** A look at the task while nothing is outstanding: the result to return when it is not running. */
    method LooksAtRest(taskId: string, path: string, providers: seq<string>, ghost account: Account)
      returns (r: Look)
      requires Valid() && Flow.AtRest(world.trace, taskId, path, providers) && Flow.NoneFailed(world.trace)
      requires Flow.NoSendSuccess(world.trace) && Flow.Calls(world.trace) == []
      requires PaidFor(world.trace, policy.grants.log, account)
      modifies world, tasks
      ensures Valid() && Flow.AtRest(world.trace, taskId, path, providers) && Flow.NoneFailed(world.trace)
      ensures Flow.NoSendSuccess(world.trace) && Flow.Calls(world.trace) == []
      ensures PaidFor(world.trace, policy.grants.log, account)
      ensures r.StillRunning? ==> world.trace == old(world.trace) + [Flow.SeenRunning(taskId)]
      ensures r.Stopped? ==>
                && world.trace == old(world.trace) && IsNothing(r.result) && WasStopped(r.result)
                && (r.result.error == Some("task_cancelled") <==>
                      taskId in tasks.tasks && tasks.tasks[taskId].status.Cancelled?)
      ensures r.StillRunning? <==> taskId in tasks.tasks && tasks.tasks[taskId].status.Running?
      ensures tasks.tick == old(tasks.tick) + 1
      ensures tasks.OnlyLooked(old(tasks.tasks), old(tasks.tick)) && world.tick == old(world.tick)
      ensures CompletesNone(old(tasks.tasks), tasks.tasks, taskId)
    {
      hide DocumentService.Valid, Flow.AtRest, Flow.NoneFailed, PaidFor, Flow.Calls, Flow.NoSendSuccess;
      hide CompletesNone, AreOnlyCancelled, AfterCancelling;
      OneOrTwoLooks(tasks.tasks, tasks.tick);
      ghost var before, event := world.trace, Flow.SeenRunning(taskId);
      Flow.RestsAfter(before, event, taskId, path, providers);
      Flow.Appended(before, event);
      PaidAppended(before, event, policy.grants.log, account);
      Flow.CallsAppended(before, event);
      Flow.NoSendSuccessStays(before, event);
      ghost var looked := tasks.tasks;
      var task, running := LooksRunning(taskId);
      CancellingCompletesNone(looked, tasks.tasks, taskId);
      if running {
        return StillRunning;
      }
      assert world.trace == before;
      return Stopped(NotRunningResult(task));
    }

    /** A result without an explanation that names no provider. */
    predicate IsNothing(r: FlowResult) {
      r.explanation.None? && r.provider.None? && r.attempted == []
    }

    /** Such a result is true of a flow at rest in which nobody was contacted. */
    lemma NothingIsTrue(taskId: string, path: string, providers: seq<string>, r: FlowResult, account: Account)
      requires Flow.AtRest(world.trace, taskId, path, providers) && Flow.Calls(world.trace) == []
      requires PaidFor(world.trace, policy.grants.log, account) && IsNothing(r)
      ensures IsAccountable(taskId, path, providers, Returned(r), account)
    {
      hide PaidFor, Flow.IsSafe, Flow.SettlesOnce, Flow.Outstanding, Flow.Calls;
    }

    /** What is left once every decision is settled: the task's own state decides, and then the text. */
    method Conclude(
      taskId: string, path: string, providers: seq<string>, approvalFailed: bool, text: Option<string>,
      provider: string, contacted: seq<string>, ghost account: Account)
      returns (r: FlowResult)
      requires Valid() && Flow.AtRest(world.trace, taskId, path, providers)
      requires text.Some? ==>
                 && Flow.NoneFailed(world.trace)
                 && Flow.Explains(world.trace, taskId, path, provider, Summary(text.value))
      requires PaidFor(world.trace, policy.grants.log, account)
      requires contacted == Flow.Contacts(Flow.Calls(world.trace)) && !Flow.HasCrashed(world.trace)
      modifies world, tasks
      ensures Valid() && IsAccountable(taskId, path, providers, Returned(r), account)
      ensures Flow.AtRest(world.trace, taskId, path, providers) && LeavesTasks(old(tasks.tasks), taskId, r.explanation)
      ensures world.trace ==
              old(world.trace) + if r.explanation.Some? then [Flow.Completed(taskId, r.explanation.value)] else []
      // A text becomes an explanation exactly when nobody cancels the task before it is completed.
      ensures r.explanation.Some? <==>
                && text.Some? && taskId in old(tasks.tasks) && old(tasks.tasks)[taskId].status.Running?
                && old(tasks.tasks)[taskId].progress <= 80 && old(tasks.IsLeftAlone(taskId, 7))
      ensures r.explanation.Some? ==> r.explanation == Some(Summary(text.value)) && r.provider == Some(provider)
      ensures IsUnderWay(old(tasks.tasks), taskId, 80) ==> tasks.IsOver(taskId)
      ensures GivesReason(r, false, false, old(KeepsRunning(taskId)), text.Some?, contacted != [], approvalFailed)
    {
      hide DocumentService.Valid, Flow.AtRest, Flow.NoneFailed, Flow.Explains, PaidFor, Flow.Calls, Flow.Contacts;
      hide Flow.HasCrashed, CompletesNone, OthersOnlyCancelled, AreOnlyCancelled, Flow.IsAccounted;
      AtRestIsAccounted(taskId, path, providers);
      ghost var before := tasks.tasks;
      var state := tasks.Get(taskId);
      ghost var looked := tasks.tasks;
      CancellingCompletesNone(before, looked, taskId);
      if state.None? || !state.value.status.Running? {
        return NotRunningResult(state);
      }
      if text.None? {
        var error := if contacted != [] then "provider_failed"
                     else if approvalFailed then "approval_failed" else "provider_not_authorized";
        r := Interrupt(taskId, error, contacted);
        CompletesNoneTwice(before, looked, tasks.tasks, taskId);
        return;
      }
      r := Complete(taskId, path, providers, text.value, provider, contacted, account);
      LeavesTasksLater(before, looked, taskId, r.explanation);
    }

    lemma AtRestIsAccounted(taskId: string, path: string, providers: seq<string>)
      requires Flow.AtRest(world.trace, taskId, path, providers)
      ensures Flow.IsAccounted(world.trace, taskId, path, providers, true)
      ensures Flow.IsAccounted(world.trace, taskId, path, providers, false)
      ensures Flow.SettlesOnce(world.trace) && Flow.Outstanding(world.trace) == {}
    {
    }

    /** The explanation that a flow returned, if any. */
    function ExplanationOf(r: FlowOutcome): Option<string> {
      if r.Returned? then r.result.explanation else None
    }

    /**
     Each decision of the flow has exactly one settlement if and only if, of the attempts made in the closing
     loop on the decisions still open at its start, at most the last raised.
     */
    ghost predicate IsSettledExactly(offered: Flow.Trace, closing: nat)
      reads world
    {
      && Flow.Closes(offered, world.trace, closing)
      && (Flow.SettledExactlyOnce(world.trace) <==>
            !RaisesWithin(closing, closing + |Flow.Outstanding(offered)| - 1))
    }

    lemma SettledAtRest(taskId: string, path: string, providers: seq<string>, closing: nat)
      requires Flow.AtRest(world.trace, taskId, path, providers)
      ensures IsSettledExactly(world.trace, closing) && Flow.SettledExactlyOnce(world.trace)
      ensures !RaisesWithin(closing, closing + |Flow.Outstanding(world.trace)|)
    {
      hide Flow.IsSafe, Flow.SettledExactlyOnce, Flow.SettlesOnce, Flow.Outstanding;
      Flow.SettledExactlyWhenNoneOpen(world.trace);
    }

    /**
     What it takes for a task that a flow took over at some instant to be completed, once the closing loop is
     over: it is running and nobody cancels it up to the seventh access after that.
     */
    ghost predicate CanFinish(taskId: string, before: map<string, Task>, first: nat, concluding: nat) {
      && taskId in before && before[taskId].status.Running? && before[taskId].progress <= 80
      && tasks.IsLeftWithin(taskId, first, concluding + 7)
    }

    /** A provider replied with a text, no settlement was noticed to fail, and no error ended the flow. */
    ghost predicate HasExplanation(r: FlowOutcome)
      reads world
    {
      Flow.HasAnswered(world.trace) && Flow.NoneFailed(world.trace) && r.Returned?
    }

    /**
     Offers the prompt to the providers, settles every decision, and completes exactly when a text was returned
     and nothing came in the way. What was done when the providers had been asked is offered, the closing loop
     begins at that instant of the outside world, and the conclusion at the given access to the tasks.
     */
    method Generate(
      taskId: string, path: string, providers: seq<string>, actor: ActorArg, ghost account: Account, ghost until: nat)
      returns (r: FlowOutcome, ghost offered: Flow.Trace, ghost closing: nat, ghost concluding: nat)
      requires Valid() && Flow.AtRest(world.trace, taskId, path, providers) && Flow.NoneFailed(world.trace)
      requires Flow.NoSendSuccess(world.trace) && Flow.Calls(world.trace) == []
      requires PaidFor(world.trace, policy.grants.log, account) && actor == account.actor
      modifies world, tasks, router, policy, policy.grants, policy.audit
      ensures old(world.trace) <= world.trace
      ensures |world.trace| > |old(world.trace)| ==> world.trace[|old(world.trace)|] == Flow.SeenRunning(taskId)
      ensures Valid() && IsAccountable(taskId, path, providers, r, account)
      ensures IsSettledExactly(offered, closing)
      ensures r.Escaped? <==> RaisesWithin(closing, closing + |Flow.Outstanding(offered)|)
      ensures LeavesTasks(old(tasks.tasks), taskId, ExplanationOf(r))
      ensures ExplanationOf(r).Some? <==>
                CanFinish(taskId, old(tasks.tasks), old(tasks.tick), concluding) && HasExplanation(r)
      ensures old(tasks.tick) <= concluding
      ensures IsReasoned(r, taskId, old(tasks.tasks), old(tasks.tick), concluding)
      ensures r.Returned? && IsUnderWay(old(tasks.tasks), taskId, 80) ==> tasks.IsOver(taskId)
      // In a calm world a running task is explained exactly when some usable provider has a text.
      ensures old(IsSetFair(Scene(taskId, path, providers, actor, until))) ==>
                (ExplanationOf(r).Some? <==>
                   old(tasks.tasks[taskId].progress <= 80 && SomeoneSpeaks(providers)))
    {
      hide DocumentService.Valid, Flow.AtRest, Flow.NoneFailed, Flow.Explains, PaidFor, Flow.Calls, Flow.Outstanding;
      hide PolicyService.Valid, FlowBooks.Keeps, Flow.NoSendSuccess, ProviderRun.HasAnswer, Flow.IsAccounted;
      hide CompletesNone, DocumentService.IsSettledExactly, DocumentService.RaisesWithin, AreOnlyCancelled;
      hide DocumentService.IsTrue, DocumentService.LeavesTasks, TaskStore.AfterLooks, TaskStore.IsLeftWithin;
      hide DocumentService.IsSetFair, DocumentService.BeginsWell, DocumentService.SomeoneSpeaks;
      hide DocumentService.IsTried, DocumentService.GivesReason, IsUnderWay, Flow.HasCrashed;
      hide DocumentService.IsReasoned, DocumentService.HasExplanation, AfterCancelling;
      ghost var fair := IsSetFair(Scene(taskId, path, providers, actor, until));
      if fair {
        FairParts(Scene(taskId, path, providers, actor, until));
      }
      ghost var before, first := tasks.tasks, tasks.tick;
      var looks := LooksTwice(taskId, path, providers, account);
      offered, closing, concluding := world.trace, world.tick, tasks.tick;
      ghost var looked := tasks.tasks;
      tasks.RunningAfterLooks(taskId, before, first, concluding);
      LeftLonger(taskId, first, concluding);
      UnderWayLater(before, looked, first, concluding, taskId);
      if looks.Stopped? {
        StoppedIsReasoned(looks.result, taskId, before, first, concluding);
        NothingIsTrue(taskId, path, providers, looks.result, account);
        SettledAtRest(taskId, path, providers, closing);
        LeavesUncompleted(before, taskId);
        return Returned(looks.result), offered, closing, concluding;
      }
      var run := new ProviderRun(taskId, path, providers, actor);
      EmptyBooksKeep(world.trace, taskId, path, providers);
      ghost var at := concluding;
      if fair {
        FairBegins(run, Scene(taskId, path, providers, actor, until), first);
      }
      r, offered, closing, concluding := Offer(run, account, until);
      LeftWithinBoth(taskId, first, at, concluding);
      LeavesTasksLater(before, looked, taskId, ExplanationOf(r));
      ReasonedLater(r, taskId, before, looked, first, at, concluding);
    }

    /** What is under way stays so while it is looked at, and when it does not run then it is over. */
    lemma UnderWayLater(before: map<string, Task>, after: map<string, Task>, first: nat, at: nat, taskId: string)
      requires first <= at && after == tasks.AfterLooks(before, first, at)
      ensures IsUnderWay(before, taskId, 80) ==> IsUnderWay(after, taskId, 80)
      ensures IsUnderWay(before, taskId, 80) && !(taskId in after && after[taskId].status.Running?) ==>
                taskId in after && after[taskId].status !in ACTIVE
    {
      hide TaskStore.AfterLooks;
      tasks.LooksOnlyCancel(before, first, at);
      UnderWayStays(before, after, taskId, 80);
    }

    lemma StoppedIsReasoned(r: FlowResult, taskId: string, before: map<string, Task>, first: nat, concluding: nat)
      requires r.explanation.None? && WasStopped(r) && Flow.NoneFailed(world.trace) && Flow.Calls(world.trace) == []
      requires !(&& taskId in before && before[taskId].status.Running?
                 && tasks.IsLeftWithin(taskId, first, concluding))
      ensures IsReasoned(Returned(r), taskId, before, first, concluding)
    {
      hide Flow.NoneFailed, Flow.Calls;
    }

    lemma ReasonedSince(
      r: FlowOutcome, taskId: string, first: nat, progress: nat, now: map<string, Task>, at: nat, concluding: nat)
      requires tasks.RunsSince(taskId, first, progress, now, at) && at <= concluding
      requires IsReasoned(r, taskId, now, at, concluding)
      ensures IsReasonedAs(r, tasks.IsLeftWithin(taskId, first, concluding + 1))
    {
      hide DocumentService.IsReasonedWith;
      assert tasks.IsLeftWithin(taskId, first, concluding + 1) <==>
          tasks.IsLeftWithin(taskId, first, at) && tasks.IsLeftWithin(taskId, at, concluding + 1);
    }

    lemma ReasonedLater(
      r: FlowOutcome, taskId: string, before: map<string, Task>, looked: map<string, Task>, first: nat, at: nat,
      concluding: nat)
      requires first <= at <= concluding && looked == tasks.AfterLooks(before, first, at)
      requires IsReasoned(r, taskId, looked, at, concluding)
      ensures IsReasoned(r, taskId, before, first, concluding)
    {
      hide Flow.NoneFailed, Flow.Calls, TaskStore.AfterLooks, DocumentService.IsReasonedWith;
      tasks.RunningAfterLooks(taskId, before, first, at);
      assert tasks.IsLeftWithin(taskId, first, concluding + 1) <==>
          tasks.IsLeftWithin(taskId, first, at) && tasks.IsLeftWithin(taskId, at, concluding + 1);
    }

    /** A calm world, a running task, and providers that are listed once and will not raise. */
    ghost predicate IsSetFair(scene: Scene)
      reads world, tasks, policy.grants, policy.audit
    {
      && IsCalm(scene) && IsPromising(scene, world.tick)
      && scene.taskId in tasks.tasks && tasks.tasks[scene.taskId].status.Running?
    }

    lemma FairParts(scene: Scene)
      requires IsSetFair(scene)
      ensures scene.taskId in tasks.tasks && tasks.tasks[scene.taskId].status.Running?
      ensures forall end: nat :: tasks.IsLeftWithin(scene.taskId, tasks.tick, end)
      ensures IsCalmAt(scene, world.tick, policy.grants.rows.Keys, policy.audit.rows, tasks.tick)
      ensures IsPromising(scene, world.tick)
    {
    }

    lemma FairBegins(run: ProviderRun, scene: Scene, access: nat)
      requires scene == SceneOf(run, scene.until) && run.attempted == {} && !run.auditFailed
      requires IsCalmAt(scene, world.tick, policy.grants.rows.Keys, policy.audit.rows, access) && access <= tasks.tick
      requires IsPromising(scene, world.tick)
      requires run.taskId in tasks.tasks && tasks.tasks[run.taskId].status.Running?
      ensures BeginsWell(run, scene.until)
    {
      hide DocumentService.IsSteady, Audit.IsAudited;
    }

    lemma LeftLonger(taskId: string, first: nat, concluding: nat)
      ensures tasks.IsLeftWithin(taskId, first, concluding + 7) ==> tasks.IsLeftWithin(taskId, first, concluding)
    {
    }

    lemma LeftWithinBoth(taskId: string, first: nat, at: nat, concluding: nat)
      requires first <= at <= concluding
      ensures tasks.IsLeftWithin(taskId, first, concluding + 7) <==>
              tasks.IsLeftWithin(taskId, first, at) && tasks.IsLeftWithin(taskId, at, concluding + 7)
    {
    }

    lemma LeavesUncompleted(before: map<string, Task>, taskId: string)
      requires CompletesNone(before, tasks.tasks, taskId)
      ensures LeavesTasks(before, taskId, None)
    {
    }

    /** The two looks at the task before anyone is asked. */
    method LooksTwice(taskId: string, path: string, providers: seq<string>, ghost account: Account)
      returns (r: Look)
      requires Valid() && Flow.AtRest(world.trace, taskId, path, providers) && Flow.NoneFailed(world.trace)
      requires Flow.NoSendSuccess(world.trace) && Flow.Calls(world.trace) == []
      requires PaidFor(world.trace, policy.grants.log, account)
      modifies world, tasks
      ensures Valid() && Flow.AtRest(world.trace, taskId, path, providers) && Flow.NoneFailed(world.trace)
      ensures Flow.NoSendSuccess(world.trace) && Flow.Calls(world.trace) == []
      ensures PaidFor(world.trace, policy.grants.log, account)
      ensures old(world.trace) <= world.trace
      ensures |world.trace| > |old(world.trace)| ==> world.trace[|old(world.trace)|] == Flow.SeenRunning(taskId)
      ensures r.StillRunning? ==> |world.trace| > |old(world.trace)|
      ensures r.Stopped? ==> IsNothing(r.result) && WasStopped(r.result) && tasks.tick <= old(tasks.tick) + 2
      ensures r.StillRunning? ==> tasks.tick == old(tasks.tick) + 2
      ensures r.StillRunning? <==> taskId in tasks.tasks && tasks.tasks[taskId].status.Running?
      ensures tasks.OnlyLooked(old(tasks.tasks), old(tasks.tick)) && world.tick == old(world.tick)
      ensures CompletesNone(old(tasks.tasks), tasks.tasks, taskId)
    {
      hide DocumentService.Valid, Flow.AtRest, Flow.NoneFailed, PaidFor, Flow.Calls, Flow.NoSendSuccess, CompletesNone;
      hide TaskStore.AfterLooks;
      ghost var before, first := tasks.tasks, tasks.tick;
      r := LooksAtRest(taskId, path, providers, account);
      if r.Stopped? {
        return;
      }
      ghost var looked, at := tasks.tasks, tasks.tick;
      r := LooksAtRest(taskId, path, providers, account);
      CompletesNoneTwice(before, looked, tasks.tasks, taskId);
      tasks.LooksGoOn(before, first, at, tasks.tick);
    }

    /**
     Of a flow that returned: why there is no explanation, if there is none. Whether an approval failed is not
     to be seen in the trace.
     */
    ghost predicate IsReasoned(
      r: FlowOutcome, taskId: string, before: map<string, Task>, first: nat, concluding: nat)
      reads world, tasks
    {
      IsReasonedAs(r, && taskId in before && before[taskId].status.Running?
                      && tasks.IsLeftWithin(taskId, first, concluding + 1))
    }

    /** The same, by whether the task runs when all is settled. */
    ghost predicate IsReasonedAs(r: FlowOutcome, running: bool)
      reads world
    {
      r.Returned? ==> IsReasonedWith(r.result, running, true) || IsReasonedWith(r.result, running, false)
    }

    ghost predicate IsReasonedWith(r: FlowResult, running: bool, approvalFailed: bool)
      reads world
    {
      GivesReason(
        r, !Flow.NoneFailed(world.trace), Flow.HasCrashed(world.trace), running, Flow.HasAnswered(world.trace),
        Flow.Contacts(Flow.Calls(world.trace)) != [], approvalFailed)
    }

    /** The provider round, its closing loop, and what follows from them for the task. */
    method Offer(run: ProviderRun, ghost account: Account, ghost until: nat)
      returns (r: FlowOutcome, ghost offered: Flow.Trace, ghost closing: nat, ghost concluding: nat)
      requires Runs(run, account) && Flow.Calls(world.trace) == [] && run.auditIds == []
      modifies run, world, tasks, router, policy, policy.grants, policy.audit
      ensures old(world.trace) <= world.trace
      ensures Valid() && IsAccountable(run.taskId, run.path, run.providers, r, account)
      ensures IsSettledExactly(offered, closing)
      ensures r.Escaped? <==> RaisesWithin(closing, closing + |Flow.Outstanding(offered)|)
      ensures LeavesTasks(old(tasks.tasks), run.taskId, ExplanationOf(r))
      ensures ExplanationOf(r).Some? <==>
                CanFinish(run.taskId, old(tasks.tasks), old(tasks.tick), concluding) && HasExplanation(r)
      ensures old(tasks.tick) <= concluding
      ensures IsReasoned(r, run.taskId, old(tasks.tasks), old(tasks.tick), concluding)
      ensures old(BeginsWell(run, until)) ==>
                (ExplanationOf(r).Some? <==>
                   old(tasks.tasks[run.taskId].progress <= 80 && SomeoneSpeaks(run.providers)))
      ensures r.Returned? && IsUnderWay(old(tasks.tasks), run.taskId, 80) ==> tasks.IsOver(run.taskId)
    {
      hide DocumentService.Valid, Flow.AtRest, Flow.NoneFailed, Flow.Explains, PaidFor, Flow.Calls, Flow.Outstanding;
      hide PolicyService.Valid, FlowBooks.Keeps, Flow.NoSendSuccess, ProviderRun.HasAnswer, Flow.IsAccounted;
      hide CompletesNone, DocumentService.RaisesWithin, AreOnlyCancelled, DocumentService.IsTrue, IsSubsequence;
      hide DocumentService.LeavesTasks, Flow.SettledExactlyOnce, Flow.Closes, Flow.Contacts, TaskStore.AfterLooks;
      hide TaskStore.IsLeftWithin, DocumentService.BeginsWell, DocumentService.GoesWell, DocumentService.SomeoneSpeaks;
      hide DocumentService.NoticesWithin, Flow.OnlySettles, Flow.EndsRaised, NoRepeats, OpenProviders;
      hide DocumentService.IsTried, IsUnderWay, TaskStore.IsOver, DocumentService.GivesReason;
      hide DocumentService.IsSettledExactly, DocumentService.IsAccountable, DocumentService.KeepsRunning;
      ghost var before, first, well := tasks.tasks, tasks.tick, BeginsWell(run, until);
      if well {
        BeginningParts(run, until);
      }
      NothingOpenYet(run);
      var raised, text, provider, contacted := GenerateDocument(run, account, until);
      offered, closing, concluding := world.trace, world.tick, tasks.tick;
      tasks.LooksOnlyCancel(before, first, concluding);
      tasks.RunningAfterLooks(run.taskId, before, first, concluding);
      LeftWithinBoth(run.taskId, first, concluding, concluding);
      LeftAloneNow(run.taskId);
      ghost var asked := tasks.tasks;
      CancellingCompletesNone(before, asked, run.taskId);
      UnderWayStays(before, asked, run.taskId, 80);
      KeepsRunningAfterLooks(run.taskId, before, first);
      if well {
        NothingComesInTheWay(run, until, first, closing, |Flow.Outstanding(offered)|);
      }
      r := SettleAndFinish(run, raised, text, provider, contacted, account);
      LeavesTasksLater(before, asked, run.taskId, ExplanationOf(r));
    }

    /** The closing loop and what follows from it: an error that escapes, an interruption, or the conclusion. */
    method SettleAndFinish(
      run: ProviderRun, raised: bool, text: Option<string>, provider: string, contacted: seq<string>,
      ghost account: Account)
      returns (r: FlowOutcome)
      requires Runs(run, account)
      requires text.Some? <==> Flow.HasAnswered(world.trace)
      requires text.Some? ==> !raised && text.value != "" && run.HasAnswer(world.trace, provider, text.value)
      requires contacted == Flow.Contacts(Flow.Calls(world.trace)) && (raised <==> Flow.HasCrashed(world.trace))
      modifies run, world, tasks, policy.audit
      ensures old(world.trace) <= world.trace && Flow.Calls(world.trace) == Flow.Calls(old(world.trace))
      ensures Valid() && IsAccountable(run.taskId, run.path, run.providers, r, account)
      ensures IsSettledExactly(old(world.trace), old(world.tick))
      ensures var first, n := old(world.tick), |Flow.Outstanding(old(world.trace))|;
        && (r.Escaped? <==> RaisesWithin(first, first + n))
        && (r.Returned? ==>
              (Flow.NoneFailed(world.trace) <==> !old(run.auditFailed) && !NoticesWithin(first, first + n)))
      ensures LeavesTasks(old(tasks.tasks), run.taskId, ExplanationOf(r))
      ensures ExplanationOf(r).Some? <==>
                && !raised && text.Some? && r.Returned? && Flow.NoneFailed(world.trace)
                && run.taskId in old(tasks.tasks) && old(tasks.tasks)[run.taskId].status.Running?
                && old(tasks.tasks)[run.taskId].progress <= 80 && old(tasks.IsLeftAlone(run.taskId, 7))
      ensures r.Returned? ==>
                GivesReason(r.result, !Flow.NoneFailed(world.trace), raised, old(KeepsRunning(run.taskId)), text.Some?,
                            contacted != [], run.approvalFailed)
      ensures r.Returned? && IsUnderWay(old(tasks.tasks), run.taskId, 80) ==> tasks.IsOver(run.taskId)
    {
      hide DocumentService.Valid, Flow.AtRest, Flow.NoneFailed, Flow.Explains, PaidFor, Flow.Calls, Flow.Outstanding;
      hide PolicyService.Valid, FlowBooks.Keeps, Flow.NoSendSuccess, ProviderRun.HasAnswer, Flow.IsAccounted;
      hide CompletesNone, DocumentService.RaisesWithin, AreOnlyCancelled, DocumentService.IsTrue;
      hide DocumentService.LeavesTasks, Flow.SettledExactlyOnce, Flow.Closes, Flow.Contacts, IsUnderWay;
      hide DocumentService.NoticesWithin, Flow.OnlySettles, Flow.EndsRaised, TaskStore.IsOver;
      hide DocumentService.GivesReason, DocumentService.KeepsRunning, TaskStore.IsLeftAlone;
      ghost var before, offered, closing := tasks.tasks, world.trace, world.tick;
      var escaped := SettleAll(
        run, if !raised && text.Some? then Some(provider) else None, if text.Some? then text.value else "", account);
      SettledByBooks(run);
      Flow.ClosesCompleted(offered, world.trace, closing, world.trace);
      if escaped {
        CutShort(run.Entries(), world.trace, run.taskId, run.path, run.providers);
        OnlyCancelledNow(before);
        CancellingCompletesNone(before, before, run.taskId);
        LeavesUncompleted(before, run.taskId);
        return Escaped;
      }
      AtRestIsAccounted(run.taskId, run.path, run.providers);
      ghost var settled := world.trace;
      var result := Finish(run, raised, text, provider, contacted, account);
      Flow.ClosesCompleted(offered, settled, closing, world.trace);
      AtRestIsAccounted(run.taskId, run.path, run.providers);
      Flow.SettledExactlyWhenNoneOpen(world.trace);
      return Returned(result);
    }

    /** A task that was only looked at since then runs on exactly when it ran and nobody cancels it until then. */
    lemma KeepsRunningAfterLooks(taskId: string, before: map<string, Task>, first: nat)
      requires tasks.OnlyLooked(before, first)
      ensures KeepsRunning(taskId) <==>
                && taskId in before && before[taskId].status.Running?
                && tasks.IsLeftWithin(taskId, first, tasks.tick + 1)
    {
      hide TaskStore.AfterLooks;
      tasks.RunningAfterLooks(taskId, before, first, tasks.tick);
    }

    lemma BeginningParts(run: ProviderRun, until: nat)
      requires BeginsWell(run, until)
      ensures run.taskId in tasks.tasks && tasks.tasks[run.taskId].status.Running?
      ensures forall i: nat | i >= tasks.tick :: run.taskId !in tasks.cancelledAt(i)
    {
    }

    /** In a calm world no settlement fails, and nobody cancels the task. */
    lemma NothingComesInTheWay(run: ProviderRun, until: nat, first: nat, closing: nat, n: nat)
      requires GoesWell(run, until)
      requires forall i: nat | i >= first :: run.taskId !in tasks.cancelledAt(i)
      ensures !run.auditFailed && !RaisesWithin(closing, closing + n) && !NoticesWithin(closing, closing + n)
      ensures forall end: nat :: tasks.IsLeftWithin(run.taskId, first, end)
    {
    }

    lemma NothingOpenYet(run: ProviderRun)
      requires run.auditIds == []
      ensures OpenProviders(run.auditIds, run.settled) == {}
    {
    }

    lemma LeftAloneNow(taskId: string)
      ensures tasks.IsLeftAlone(taskId, 7) <==> tasks.IsLeftWithin(taskId, tasks.tick, tasks.tick + 7)
    {
    }

    lemma SettledByBooks(run: ProviderRun)
      requires run.Keeps(world.trace)
      ensures Flow.SettledExactlyOnce(world.trace) <==> Flow.Outstanding(world.trace) == {}
      ensures run.auditFailed <==> !Flow.NoneFailed(world.trace)
    {
      hide Flow.IsSafe, Flow.SettledExactlyOnce, Flow.Outstanding;
      Flow.SettledExactlyWhenNoneOpen(world.trace);
    }

    /** After the closing loop: an interruption when something went wrong, or else the conclusion. */
    method Finish(
      run: ProviderRun, raised: bool, text: Option<string>, provider: string, contacted: seq<string>,
      ghost account: Account)
      returns (r: FlowResult)
      requires Valid() && Flow.AtRest(world.trace, run.taskId, run.path, run.providers)
      requires raised <==> Flow.HasCrashed(world.trace)
      requires text.Some? && !run.auditFailed ==>
                 && Flow.NoneFailed(world.trace)
                 && Flow.Explains(world.trace, run.taskId, run.path, provider, Summary(text.value))
      requires contacted == Flow.Contacts(Flow.Calls(world.trace))
      requires PaidFor(world.trace, policy.grants.log, account)
      modifies world, tasks
      ensures Valid() && IsAccountable(run.taskId, run.path, run.providers, Returned(r), account)
      ensures Flow.AtRest(world.trace, run.taskId, run.path, run.providers)
      ensures LeavesTasks(old(tasks.tasks), run.taskId, r.explanation)
      ensures world.trace ==
              old(world.trace) + if r.explanation.Some? then [Flow.Completed(run.taskId, r.explanation.value)] else []
      ensures Flow.Calls(world.trace) == Flow.Calls(old(world.trace))
      ensures Flow.NoneFailed(world.trace) <==> Flow.NoneFailed(old(world.trace))
      ensures r.explanation.Some? <==>
                && !raised && !run.auditFailed && text.Some?
                && run.taskId in old(tasks.tasks) && old(tasks.tasks)[run.taskId].status.Running?
                && old(tasks.tasks)[run.taskId].progress <= 80 && old(tasks.IsLeftAlone(run.taskId, 7))
      ensures GivesReason(r, run.auditFailed, raised, old(KeepsRunning(run.taskId)), text.Some?, contacted != [],
                          run.approvalFailed)
      ensures IsUnderWay(old(tasks.tasks), run.taskId, 80) ==> tasks.IsOver(run.taskId)
    {
      hide DocumentService.Valid, Flow.AtRest, Flow.NoneFailed, Flow.Explains, PaidFor, Flow.Calls, Flow.IsAccounted;
      hide CompletesNone, OthersOnlyCancelled, Flow.Contacts, Flow.HasCrashed;
      if raised || run.auditFailed {
        AtRestIsAccounted(run.taskId, run.path, run.providers);
        r := Interrupt(
          run.taskId, if run.auditFailed then "audit_failed" else "provider_failed", if raised then [] else contacted);
        return;
      }
      ghost var before := world.trace;
      r := Conclude(run.taskId, run.path, run.providers, run.approvalFailed, text, provider, contacted, account);
      if r.explanation.Some? {
        ghost var event := Flow.Completed(run.taskId, r.explanation.value);
        Flow.CallsAppended(before, event);
        Flow.NoneFailedAppended(before, event);
      } else {
        assert world.trace == before;
      }
    }

    // ---------- The two flows ----------

    /** The read can be decided at this instant, and in time. */
    ghost predicate CanRead(path: string, taskId: string, actor: ActorArg, n: nat)
      reads policy.grants, policy.audit
    {
      CanDecide(Flow.READ_DOCUMENT, path, None, taskId, actor, n) && IsTimely(actor, n)
    }

    /** A reading decided at this instant gives a document, and its settlement is written. */
    ghost predicate ReadsWell(path: string, n: nat) {
      world.reading(n + 3, path).Document? && world.failing(n + 4).Works?
    }

    /** An active task that nobody cancels before the next two accesses may report this progress. */
    ghost predicate CanReport(taskId: string, progress: nat)
      reads tasks
    {
      && taskId in tasks.tasks && tasks.tasks[taskId].status in ACTIVE && tasks.tasks[taskId].progress <= progress
      && tasks.IsLeftAlone(taskId, 2)
    }

    /** A settlement attempted at this instant raises an error that is not caught. */
    ghost predicate RaisesAt(n: nat) {
      Flow.AttemptWhen(world.failing(n)).Raised?
    }

    /** An error of the database escapes while the read is decided, or while the decision is settled. */
    ghost predicate ReadEscapes(path: string, taskId: string, actor: ActorArg, n: nat)
      reads policy.grants, policy.audit
    {
      if CanDecide(Flow.READ_DOCUMENT, path, None, taskId, actor, n)
      then RaisesAt(if IsTimely(actor, n) then n + 4 else n + 3)
      else !IsCaughtDecision(Flow.READ_DOCUMENT, path, None, taskId, actor, n)
    }

    /** What the reading at this instant has against explaining: it failed, or the task could not go on. */
    predicate IsReadingReason(r: FlowResult, document: ReadResult) {
      match document
      case Document(_) => WasStopped(r)
      case ReadError(code) => r.error == Some(if code in READER_ERROR_CODES then code else "read_failed")
      case _ => r.error == Some("read_failed")
    }

    /** Why nothing is explained when the read under a grant comes to nothing. */
    ghost predicate IsReadReason(r: FlowResult, path: string, taskId: string, actor: ActorArg, n: nat)
      reads policy.grants, policy.audit
    {
      if !CanDecide(Flow.READ_DOCUMENT, path, None, taskId, actor, n) then r.error == Some("approval_failed")
      else if !IsTimely(actor, n) then
        r.error == Some(if world.failing(n + 3).Works? then "read_not_authorized" else "audit_failed")
      else if !world.failing(n + 4).Works? then r.error == Some("audit_failed")
      else IsReadingReason(r, world.reading(n + 3, path))
    }

    /** The second event is the reading of this file. */
    ghost predicate WasRead(path: string)
      reads world
    {
      |world.trace| > 1 && world.trace[1] == Flow.FileRead(path)
    }

    /**
     Reads under a fresh one-use grant, exactly when that can be decided in time. The flow goes on exactly when
     the reading gave a document, the read decision is settled and the task takes the progress; then nothing
     else happened.
     */
    method ReadUnderGrant(
      taskId: string, path: string, providers: seq<string>, actor: ActorArg, ghost account: Account,
      ghost until: nat)
      returns (ending: Option<FlowOutcome>)
      requires Valid() && world.trace == [] && account == Account(|policy.grants.log|, actor)
      modifies world, tasks, policy, policy.grants, policy.audit
      ensures Valid() && Flow.AtRest(world.trace, taskId, path, providers)
      ensures PaidFor(world.trace, policy.grants.log, account)
      ensures Flow.Calls(world.trace) == [] && Flow.NoSendSuccess(world.trace)
      ensures ending.None? ==> Flow.NoneFailed(world.trace)
      ensures ending.Some? && ending.value.Returned? ==> IsNothing(ending.value.result)
      ensures WasRead(path) <==> old(CanRead(path, taskId, actor, world.tick))
      ensures ending.None? <==>
                && old(CanRead(path, taskId, actor, world.tick)) && ReadsWell(path, old(world.tick))
                && old(CanReport(taskId, 30))
      ensures ending.None? ==> HasReported(taskId, 30, old(tasks.tasks), old(tasks.tick))
      ensures ending == Some(Escaped) <==> old(ReadEscapes(path, taskId, actor, world.tick))
      ensures ending.Some? && ending.value.Returned? ==>
                && old(IsReadReason(ending.value.result, path, taskId, actor, world.tick))
                && (IsUnderWay(old(tasks.tasks), taskId, 30) ==> tasks.IsOver(taskId))
      ensures ending.None? && old(IsCalm(Scene(taskId, path, providers, actor, until))) ==>
                IsCalm(Scene(taskId, path, providers, actor, until)) && world.tick == old(world.tick) + 5
      ensures CompletesNone(old(tasks.tasks), tasks.tasks, taskId)
    {
      hide DocumentService.Valid, PaidFor, PolicyService.Valid, Flow.AtRest, Flow.NoneFailed, Flow.NoSendSuccess;
      hide Flow.Calls, Flow.Decided, CompletesNone, DocumentService.CanDecide, IsIdentifier, ReasonName;
      hide DocumentService.IsTimely, DocumentService.CanReport, DocumentService.IsCalmAt, Audit.IsAudited;
      hide DocumentService.IsCaughtDecision, DocumentService.IsReadingReason, IsUnderWay;
      ghost var n, ids, rows, access := world.tick, policy.grants.rows.Keys, policy.audit.rows, tasks.tick;
      ghost var scene, calm := Scene(taskId, path, providers, actor, until),
                               IsCalm(Scene(taskId, path, providers, actor, until));
      assert forall id :: policy.audit.Has(id) <==> Audit.IsAudited(rows, id);
      StartsAtRest(taskId, path, providers, account);
      OnlyCancelledNow(tasks.tasks);
      CancellingCompletesNone(tasks.tasks, tasks.tasks, taskId);
      ghost var grant := world.grantId(world.tick);
      var decision, issued := Obtain(Flow.READ_DOCUMENT, path, None, taskId, actor, account);
      if decision.Uncaught? {
        return Some(Escaped);
      }
      if decision.Caught? {
        UnderWayIsThere(tasks.tasks, taskId, 30);
        var r := Fail(taskId, "approval_failed");
        return Some(Returned(r));
      }
      var id := decision.value.auditId;
      if !decision.value.outcome.Allow? {
        var refused := RefuseRead(id, decision.value.reason, taskId, path, grant, providers, account);
        return Some(refused);
      }
      ending := ReadAllowed(id, taskId, path, grant, providers, account);
      if ending.None? && calm {
        assert forall id :: policy.audit.Has(id) <==> Audit.IsAudited(policy.audit.rows, id);
        StaysCalm(scene, n, ids, rows, access, world.tick, policy.grants.rows.Keys, policy.audit.rows, tasks.tick);
      }
    }

    /** Settles a read decision that refused, and interrupts the task. */
    method RefuseRead(
      id: string, reason: Reason, taskId: string, path: string, ghost grant: string, providers: seq<string>,
      ghost account: Account)
      returns (ending: FlowOutcome)
      requires Valid() && world.trace == [Flow.Decision(id, false, Flow.READ_DOCUMENT, path, None, taskId, grant)]
      requires PaidFor(world.trace, policy.grants.log, account)
      modifies world, tasks, policy.audit
      ensures Valid() && Flow.AtRest(world.trace, taskId, path, providers)
      ensures policy.grants.log == old(policy.grants.log) && PaidFor(world.trace, policy.grants.log, account)
      ensures Flow.Calls(world.trace) == [] && Flow.NoSendSuccess(world.trace)
      ensures !WasRead(path)
      ensures ending.Escaped? <==> RaisesAt(old(world.tick))
      ensures ending.Returned? ==>
                && IsNothing(ending.result)
                && ending.result.error ==
                     Some(if world.failing(old(world.tick)).Works? then "read_not_authorized" else "audit_failed")
                && (IsUnderWay(old(tasks.tasks), taskId, 30) ==> tasks.IsOver(taskId))
      ensures CompletesNone(old(tasks.tasks), tasks.tasks, taskId)
    {
      hide DocumentService.Valid, PaidFor, PolicyService.Valid, Flow.AtRest, Flow.NoneFailed, Flow.NoSendSuccess;
      hide Flow.Calls, CompletesNone, IsIdentifier, ReasonName, AreOnlyCancelled;
      ReasonsAreIdentifiers(reason);
      OnlyCancelledNow(tasks.tasks);
      CancellingCompletesNone(tasks.tasks, tasks.tasks, taskId);
      var attempt := SettleRead(
        id, false, Flow.SettledFailed, Some(ReasonName(reason)), taskId, path, grant, providers, account);
      if attempt.Raised? {
        return Escaped;
      }
      var r := Interrupt(taskId, if attempt.Written? then "read_not_authorized" else "audit_failed", []);
      return Returned(r);
    }

    /** The task was written with this progress, and then looked at. */
    ghost predicate HasReported(taskId: string, progress: nat, before: map<string, Task>, first: nat)
      reads tasks
    {
      && tasks.tick == first + 3 && taskId in tasks.tasks && taskId in before
      && tasks.tasks[taskId].progress == progress
      && tasks.tasks[taskId].status ==
           if taskId in tasks.cancelledAt(first + 2) then Cancelled else before[taskId].status
    }

    /** Reads the document a decision allowed, settles the decision and reports progress. */
    method ReadAllowed(
      id: string, taskId: string, path: string, ghost grant: string, providers: seq<string>, ghost account: Account)
      returns (ending: Option<FlowOutcome>)
      requires Valid() && world.trace == [Flow.Decision(id, true, Flow.READ_DOCUMENT, path, None, taskId, grant)]
      requires PaidFor(world.trace, policy.grants.log, account)
      modifies world, tasks, policy.audit
      ensures Valid() && Flow.AtRest(world.trace, taskId, path, providers)
      ensures policy.grants.log == old(policy.grants.log) && PaidFor(world.trace, policy.grants.log, account)
      ensures Flow.Calls(world.trace) == [] && Flow.NoSendSuccess(world.trace)
      ensures ending.None? ==> Flow.NoneFailed(world.trace)
      ensures ending.Some? && ending.value.Returned? ==> IsNothing(ending.value.result)
      ensures WasRead(path)
      ensures ending.None? <==>
                && world.reading(old(world.tick), path).Document? && world.failing(old(world.tick) + 1).Works?
                && old(CanReport(taskId, 30))
      ensures ending.None? ==> HasReported(taskId, 30, old(tasks.tasks), old(tasks.tick))
      ensures ending == Some(Escaped) <==> RaisesAt(old(world.tick) + 1)
      ensures ending.Some? && ending.value.Returned? ==>
                && (if world.failing(old(world.tick) + 1).Works?
                    then IsReadingReason(ending.value.result, world.reading(old(world.tick), path))
                    else ending.value.result.error == Some("audit_failed"))
                && (IsUnderWay(old(tasks.tasks), taskId, 30) ==> tasks.IsOver(taskId))
      ensures world.tick == old(world.tick) + 2
      ensures forall id :: policy.audit.Has(id) <==> old(policy.audit.Has(id))
      ensures CompletesNone(old(tasks.tasks), tasks.tasks, taskId)
    {
      hide DocumentService.Valid, PaidFor, PolicyService.Valid, Flow.AtRest, Flow.NoneFailed, Flow.NoSendSuccess;
      hide Flow.Calls, Flow.Decided, CompletesNone, IsIdentifier, AreOnlyCancelled, IsUnderWay, AfterCancelling;
      hide TaskStore.IsLeftAlone, DocumentService.IsReadingReason;
      ghost var before, found := world.trace, tasks.tasks;
      OnlyCancelledNow(found);
      CancellingCompletesNone(found, found, taskId);
      var document := ReadFile(path);
      PaidAppended(before, Flow.FileRead(path), policy.grants.log, account);
      var code :=
        if document.ReadError? && document.code in READER_ERROR_CODES then document.code else "read_failed";
      ReaderCodesAreIdentifiers();
      UnderWayIsThere(found, taskId, 30);
      var attempt := SettleRead(
        id, true, if document.Document? then Flow.SettledSuccess else Flow.SettledFailed,
        if document.Document? then None else Some(code), taskId, path, grant, providers, account);
      if attempt.Raised? {
        return Some(Escaped);
      }
      if attempt.NotWritten? || !document.Document? {
        var r := Fail(taskId, if attempt.Written? then code else "audit_failed");
        UnreadIsReason(r, document, code);
        return Some(Returned(r));
      }
      var progressed := ReportProgress(taskId, 30);
      if progressed.None? {
        ghost var reported := tasks.tasks;
        var state := tasks.Get(taskId);
        if taskId in reported && reported[taskId].status !in ACTIVE {
          OverWhenOnlyCancelled(reported, tasks.tasks, taskId);
        }
        CancellingCompletesNone(reported, tasks.tasks, taskId);
        CompletesNoneTwice(found, reported, tasks.tasks, taskId);
        StoppedIsReason(NotRunningResult(state), document);
        return Some(Returned(NotRunningResult(state)));
      }
      return None;
    }

    lemma UnderWayIsThere(found: map<string, Task>, taskId: string, progress: nat)
      ensures IsUnderWay(found, taskId, progress) ==> taskId in found
    {
    }

    lemma UnreadIsReason(r: FlowResult, document: ReadResult, code: string)
      requires code == if document.ReadError? && document.code in READER_ERROR_CODES then document.code
               else "read_failed"
      ensures !document.Document? && r.error == Some(code) ==> IsReadingReason(r, document)
    {
    }

    lemma StoppedIsReason(r: FlowResult, document: ReadResult)
      ensures document.Document? && WasStopped(r) ==> IsReadingReason(r, document)
    {
    }

    lemma ReaderCodesAreIdentifiers()
      ensures forall code | code in READER_ERROR_CODES :: IsIdentifier(code)
    {
      PathCodesAreIdentifiers();
      FileCodesAreIdentifiers();
    }

    lemma PathCodesAreIdentifiers()
      ensures IsIdentifier("invalid_path") && IsIdentifier("missing") && IsIdentifier("symlink")
      ensures IsIdentifier("not_regular") && IsIdentifier("unsupported_type")
    {
    }

    lemma FileCodesAreIdentifiers()
      ensures IsIdentifier("too_large") && IsIdentifier("changed") && IsIdentifier("permission")
      ensures IsIdentifier("read_failed") && IsIdentifier("invalid_utf8")
    {
    }

    lemma StartsAtRest(taskId: string, path: string, providers: seq<string>, account: Account)
      requires world.trace == [] && account.start <= |policy.grants.log|
      ensures Flow.AtRest(world.trace, taskId, path, providers) && PaidFor(world.trace, policy.grants.log, account)
      ensures Flow.NoSendSuccess(world.trace) && Flow.Calls(world.trace) == [] && Flow.NoneFailed(world.trace)
    {
    }

    /** Settles the read decision; after that the trace holds the decision, perhaps the read, and this. */
    method SettleRead(
      id: string, allowed: bool, status: Flow.SettledAs, code: Option<string>, taskId: string, path: string,
      ghost grant: string, providers: seq<string>, ghost account: Account)
      returns (attempt: Flow.Attempt)
      requires Valid() && world.trace == Flow.ReadTrace(id, allowed, path, taskId, grant)
      requires PaidFor(world.trace, policy.grants.log, account) && (code.Some? ==> IsIdentifier(code.value))
      modifies world, policy.audit
      ensures Valid() && policy.grants.log == old(policy.grants.log)
      ensures Flow.AtRest(world.trace, taskId, path, providers) && PaidFor(world.trace, policy.grants.log, account)
      ensures Flow.Calls(world.trace) == [] && Flow.NoSendSuccess(world.trace)
      ensures attempt.Written? ==> Flow.NoneFailed(world.trace)
      ensures attempt == Flow.AttemptWhen(world.failing(old(world.tick))) && world.tick == old(world.tick) + 1
      ensures forall id :: policy.audit.Has(id) <==> old(policy.audit.Has(id))
      ensures old(world.trace) <= world.trace && |world.trace| == |old(world.trace)| + 1
      ensures world.trace[|old(world.trace)|].Settled?
    {
      hide DocumentService.Valid, PaidFor, PolicyService.Valid, IsIdentifier;
      ghost var before, at := world.trace, world.tick;
      Flow.ReadTraceIsSafe(id, allowed, path, taskId, grant, providers);
      attempt := AuditResult(id, status, code);
      PaidAppended(before, Flow.Settled(id, status, attempt, at), policy.grants.log, account);
      Flow.SettledReadRests(id, allowed, status, attempt, at, taskId, path, grant, providers);
    }

    /** A new flow is observed from nothing. */
    ghost method Observe()
      requires Valid()
      modifies world`trace
      ensures Valid() && world.trace == []
    {
      hide PolicyService.Valid;
      world.trace := [];
    }

    /** A flow that was not started did nothing, and says why. */
    lemma NothingHappened(
      taskId: string, path: string, providers: seq<string>, error: string, account: Account,
      before: map<string, Task>)
      requires world.trace == [] && account.start <= |policy.grants.log|
      requires CompletesNone(before, tasks.tasks, taskId)
      ensures IsAccountable(taskId, path, providers, Returned(Failure(error)), account)
      ensures IsSettledExactly([], world.tick) && !RaisesWithin(world.tick, world.tick + |Flow.Outstanding([])|)
      ensures Flow.SettledExactlyOnce(world.trace) && LeavesTasks(before, taskId, None)
      ensures !Flow.HasRead(world.trace)
    {
      hide CompletesNone;
      StartsAtRest(taskId, path, providers, account);
      NothingIsTrue(taskId, path, providers, Failure(error), account);
      SettledAtRest(taskId, path, providers, world.tick);
    }

    /**
     Confirms a root task: reads its document once and explains it, or says why not. The file is read exactly
     when the task can be started and the read decided in time; it is explained exactly when also the reading
     went well, nobody cancelled the task, a provider returned a text and no settlement was noticed to fail.
     */
    method ConfirmAndExplain(
      rootTaskId: string, destinations: seq<Field>, actor: ActorArg, context: TaskContext, ghost until: nat)
      returns (r: FlowOutcome, ghost path: string, ghost providers: seq<string>, ghost offered: Flow.Trace,
               ghost closing: nat, ghost concluding: nat)
      requires Valid()
      modifies world, tasks, router, policy, policy.grants, policy.audit
      ensures Valid()
      ensures IsAccountable(rootTaskId, path, providers, r, Account(|old(policy.grants.log)|, actor))
      ensures IsSettledExactly(offered, closing) && (r.Returned? ==> Flow.SettledExactlyOnce(world.trace))
      ensures r.Escaped? <==>
                || old(IsStartable(rootTaskId, destinations, actor, context)
                         && ReadEscapes(tasks.tasks[rootTaskId].selectedPath.value, rootTaskId, actor, world.tick))
                || RaisesWithin(closing, closing + |Flow.Outstanding(offered)|)
      ensures LeavesTasks(old(tasks.tasks), rootTaskId, ExplanationOf(r))
      // What is returned says why nothing was explained.
      ensures !old(IsStartable(rootTaskId, destinations, actor, context)) ==>
                r.Returned? && r.result.explanation.None?
                && IsRefusal(r.result.error, old(IsRoot(rootTaskId)), destinations, actor, context)
      ensures old(IsStartable(rootTaskId, destinations, actor, context)) && r.Returned? ==>
                || old(IsReadReason(r.result, tasks.tasks[rootTaskId].selectedPath.value, rootTaskId, actor,
                  world.tick))
                || IsReasonedAs(r, tasks.IsLeftWithin(rootTaskId, old(tasks.tick), concluding + 1))
      // A flow that was started and returns has left nothing to be done on its task.
      ensures old(IsStartable(rootTaskId, destinations, actor, context)
                    && StartingProgress(tasks.tasks[rootTaskId]) <= 30) ==>
                r.Returned? ==> tasks.IsOver(rootTaskId)
      ensures AreReported(world.trace, policy.audit.rows, world.failing)
      ensures old(IsStartable(rootTaskId, destinations, actor, context)) ==>
                old(tasks.tasks)[rootTaskId].selectedPath == Some(path) && Destinations(destinations) == Some(providers)
      ensures !old(IsStartable(rootTaskId, destinations, actor, context)) ==> world.trace == [] && r.Returned?
      ensures Flow.HasRead(world.trace) <==>
                old(IsStartable(rootTaskId, destinations, actor, context)
                    && CanRead(tasks.tasks[rootTaskId].selectedPath.value, rootTaskId, actor, world.tick))
      ensures ExplanationOf(r).Some? <==>
                && Flow.HasRead(world.trace) && ReadsWell(path, old(world.tick))
                && StartingProgress(old(tasks.tasks)[rootTaskId]) <= 30
                && tasks.IsLeftWithin(rootTaskId, old(tasks.tick), concluding + 7) && HasExplanation(r)
      // In a calm world the document is explained exactly when it can be read and some usable provider has a text.
      ensures old(IsFairWeather(rootTaskId, destinations, actor, context, until)) ==>
                (ExplanationOf(r).Some? <==>
                   && world.reading(old(world.tick) + 3, path).Document?
                   && StartingProgress(old(tasks.tasks)[rootTaskId]) <= 30
                     && old(SomeoneSpeaks(Destinations(destinations).value)))
    {
      hide DocumentService.Valid, PaidFor, PolicyService.Valid, Flow.AtRest, Flow.SettledExactlyOnce, Flow.HasRead;
      hide Flow.NoSendSuccess, Flow.NoneFailed, Flow.Calls, OwnerContext, Destinations, CompletesNone;
      hide DocumentService.IsSettledExactly, DocumentService.RaisesWithin, DocumentService.LeavesTasks;
      hide DocumentService.IsAccountable, DocumentService.CanRead, DocumentService.ReadsWell, TaskStore.RunsSince;
      hide TaskStore.IsLeftWithin, DocumentService.HasExplanation, DocumentService.StartingProgress;
      hide DocumentService.IsStartable, DocumentService.SomeoneSpeaks, DocumentService.IsTried;
      hide DocumentService.IsFairWeather, DocumentService.IsFairFrom, DocumentService.IsCalm, DocumentService.IsCalmAt;
      hide DocumentService.ReadEscapes, DocumentService.IsReadReason, DocumentService.IsReasonedAs, TaskStore.IsOver;
      ghost var fair := IsFairWeather(rootTaskId, destinations, actor, context, until);
      if fair {
        FairWeatherParts(rootTaskId, destinations, actor, context, until);
      }
      Observe();
      path, providers, offered, closing, concluding := "", [], [], world.tick, tasks.tick;
      ghost var account, before, first := Account(|policy.grants.log|, actor), tasks.tasks, tasks.tick;
      StartableParts(rootTaskId, destinations, actor, context);
      var selectedPath, error := StartRoot(rootTaskId, destinations, actor, context);
      if error.Some? {
        NothingHappened(rootTaskId, path, providers, error.value, account, before);
        ResultsAreReported();
        return Returned(Failure(error.value)), path, providers, offered, closing, concluding;
      }
      ghost var started, progress := tasks.tasks, StartingProgress(before[rootTaskId]);
      var names := Destinations(destinations).value;
      path, providers := selectedPath, names;
      if fair {
        FairOnceStarted(Scene(rootTaskId, selectedPath, names, actor, until), first, progress);
      }
      r, offered, closing, concluding := ReadAndGenerate(
        rootTaskId, selectedPath, names, actor, first, progress, account, until);
      LeavesTasksLater(before, started, rootTaskId, ExplanationOf(r));
      ReturnedIsSettled(rootTaskId, path, providers, r, account);
      ResultsAreReported();
    }

    /** The root task can be started, and its flow in a calm world has instants enough. */
    ghost predicate IsFairWeather(
      rootTaskId: string, destinations: seq<Field>, actor: ActorArg, context: TaskContext, until: nat)
      reads world, tasks, policy.grants, policy.audit
    {
      && IsStartable(rootTaskId, destinations, actor, context)
      && var scene := Scene(
           rootTaskId, tasks.tasks[rootTaskId].selectedPath.value, Destinations(destinations).value, actor, until);
         IsCalm(scene) && IsPromising(scene, world.tick + 5)
    }

    lemma FairWeatherParts(
      rootTaskId: string, destinations: seq<Field>, actor: ActorArg, context: TaskContext, until: nat)
      requires IsFairWeather(rootTaskId, destinations, actor, context, until)
      ensures IsStartable(rootTaskId, destinations, actor, context) && Destinations(destinations).Some?
      ensures rootTaskId in tasks.tasks && tasks.tasks[rootTaskId].selectedPath.Some?
      ensures var scene := Scene(
                rootTaskId, tasks.tasks[rootTaskId].selectedPath.value, Destinations(destinations).value, actor, until);
              && IsCalmAt(scene, world.tick, policy.grants.rows.Keys, policy.audit.rows, tasks.tick)
              && IsPromising(scene, world.tick + 5)
    {
      hide OwnerContext, Destinations;
    }

    lemma FairOnceStarted(scene: Scene, first: nat, progress: nat)
      requires IsCalmAt(scene, world.tick, policy.grants.rows.Keys, policy.audit.rows, first)
      requires IsPromising(scene, world.tick + 5)
      requires tasks.RunsSince(scene.taskId, first, progress, tasks.tasks, tasks.tick)
      ensures IsFairFrom(scene, first)
    {
      hide DocumentService.IsSteady, Audit.IsAudited;
    }

    /** The flow of a root task that was started. */
    method ReadAndGenerate(
      taskId: string, path: string, providers: seq<string>, actor: ActorArg, ghost first: nat, ghost progress: nat,
      ghost account: Account, ghost until: nat)
      returns (r: FlowOutcome, ghost offered: Flow.Trace, ghost closing: nat, ghost concluding: nat)
      requires Valid() && world.trace == [] && account == Account(|policy.grants.log|, actor)
      requires tasks.RunsSince(taskId, first, progress, tasks.tasks, tasks.tick)
      modifies world, tasks, router, policy, policy.grants, policy.audit
      ensures Valid() && IsAccountable(taskId, path, providers, r, account)
      ensures IsSettledExactly(offered, closing)
      ensures r.Escaped? <==>
                old(ReadEscapes(path, taskId, actor, world.tick))
                || RaisesWithin(closing, closing + |Flow.Outstanding(offered)|)
      ensures r.Returned? && progress <= 30 ==> tasks.IsOver(taskId)
      ensures r.Returned? ==>
                || old(IsReadReason(r.result, path, taskId, actor, world.tick))
                || IsReasonedAs(r, tasks.IsLeftWithin(taskId, first, concluding + 1))
      ensures LeavesTasks(old(tasks.tasks), taskId, ExplanationOf(r))
      ensures Flow.HasRead(world.trace) <==> old(CanRead(path, taskId, actor, world.tick))
      ensures old(IsFairFrom(Scene(taskId, path, providers, actor, until), first)) ==>
                (ExplanationOf(r).Some? <==>
                   && world.reading(old(world.tick) + 3, path).Document? && progress <= 30
                   && old(SomeoneSpeaks(providers)))
      ensures ExplanationOf(r).Some? <==>
                && old(CanRead(path, taskId, actor, world.tick)) && ReadsWell(path, old(world.tick))
                && progress <= 30 && tasks.IsLeftWithin(taskId, first, concluding + 7) && HasExplanation(r)
    {
      hide DocumentService.Valid, PaidFor, PolicyService.Valid, Flow.AtRest, Flow.SettledExactlyOnce, Flow.HasRead;
      hide Flow.NoSendSuccess, Flow.NoneFailed, Flow.Calls, CompletesNone, DocumentService.IsSettledExactly;
      hide DocumentService.RaisesWithin, DocumentService.LeavesTasks, DocumentService.IsTrue, Flow.IsAccounted;
      hide DocumentService.CanRead, DocumentService.ReadsWell, DocumentService.HasExplanation, TaskStore.IsLeftWithin;
      hide DocumentService.CanReport, DocumentService.HasReported, TaskStore.RunsSince, DocumentService.CanFinish;
      hide DocumentService.IsFairFrom, DocumentService.IsSetFair, DocumentService.IsCalm, DocumentService.SomeoneSpeaks;
      hide DocumentService.IsTried, DocumentService.ReadEscapes, DocumentService.IsReasoned, IsUnderWay;
      hide DocumentService.IsReadReason, DocumentService.IsReasonedAs, TaskStore.IsOver;
      ghost var scene, n := Scene(taskId, path, providers, actor, until), world.tick;
      ghost var fair := IsFairFrom(scene, first);
      if fair {
        FairReading(scene, first);
      }
      ghost var before, at := tasks.tasks, tasks.tick;
      ReportsWhenRunning(taskId, first, progress);
      RunsUnderWay(taskId, first, progress, before, at);
      var ending := ReadUnderGrant(taskId, path, providers, actor, account, until);
      ghost var read := tasks.tasks;
      if ending.Some? {
        r, offered, closing, concluding := ending.value, world.trace, world.tick, at;
        AtRestIsAccounted(taskId, path, providers);
        SettledAtRest(taskId, path, providers, closing);
        LeavesUncompleted(before, taskId);
        if r.Returned? {
          NothingIsTrue(taskId, path, providers, r.result, account);
        }
        ReadIsRecorded(taskId, path, providers, r, world.trace);
        return;
      }
      RunsAfterReport(taskId, first, progress, before, at);
      RunsUnderWay(taskId, first, 30, read, tasks.tick);
      ghost var beginning, from := world.trace, tasks.tick;
      if fair {
        FairAfterReading(scene, first, n);
      }
      r, offered, closing, concluding := Generate(taskId, path, providers, actor, account, until);
      FinishesWhenRunning(taskId, first, read, from, concluding);
      ReasonedSince(r, taskId, first, 30, read, from, concluding);
      LeavesTasksLater(before, read, taskId, ExplanationOf(r));
      ReadIsRecorded(taskId, path, providers, r, beginning);
    }

    lemma RunsUnderWay(taskId: string, first: nat, progress: nat, now: map<string, Task>, at: nat)
      requires tasks.RunsSince(taskId, first, progress, now, at)
      ensures progress <= 30 ==> IsUnderWay(now, taskId, 30)
      ensures progress <= 80 ==> IsUnderWay(now, taskId, 80)
    {
      hide TaskStore.IsLeftWithin;
    }

    /** The world is calm, and the task was never cancelled since that access. */
    ghost predicate IsFairFrom(scene: Scene, first: nat)
      reads world, tasks, policy.grants, policy.audit
    {
      IsCalm(scene) && IsPromising(scene, world.tick + 5) && tasks.IsLeftWithin(scene.taskId, first, tasks.tick)
    }

    lemma FairReading(scene: Scene, first: nat)
      requires IsFairFrom(scene, first)
      ensures IsCalm(scene) && IsPromising(scene, world.tick + 5)
      ensures CanRead(scene.path, scene.taskId, scene.actor, world.tick)
      ensures ReadsWell(scene.path, world.tick) <==> world.reading(world.tick + 3, scene.path).Document?
      ensures forall end: nat :: tasks.IsLeftWithin(scene.taskId, first, end)
    {
      hide DocumentService.CanDecide, DocumentService.IsTimely;
      CalmDecides(scene, Flow.READ_DOCUMENT, None);
    }

    lemma FairAfterReading(scene: Scene, first: nat, n: nat)
      requires IsCalm(scene) && world.tick == n + 5 && IsPromising(scene, n + 5)
      requires tasks.RunsSince(scene.taskId, first, 30, tasks.tasks, tasks.tick)
      requires tasks.IsLeftWithin(scene.taskId, first, tasks.tick)
      ensures IsSetFair(scene) && tasks.tasks[scene.taskId].progress == 30
    {
      hide DocumentService.IsCalmAt;
    }

    /** A running task that is left alone reports its progress, and only such a one does. */
    lemma ReportsWhenRunning(taskId: string, first: nat, progress: nat)
      requires tasks.RunsSince(taskId, first, progress, tasks.tasks, tasks.tick)
      ensures CanReport(taskId, 30) <==> progress <= 30 && tasks.IsLeftWithin(taskId, first, tasks.tick + 2)
      ensures tasks.IsLeftWithin(taskId, first, tasks.tick + 7) ==> tasks.IsLeftWithin(taskId, first, tasks.tick + 2)
    {
      assert tasks.IsLeftWithin(taskId, first, tasks.tick + 2) <==>
          tasks.IsLeftWithin(taskId, first, tasks.tick) && tasks.IsLeftAlone(taskId, 2);
    }

    /** After its report the task runs on, unless the last look found it cancelled. */
    lemma RunsAfterReport(taskId: string, first: nat, progress: nat, before: map<string, Task>, at: nat)
      requires tasks.RunsSince(taskId, first, progress, before, at) && tasks.IsLeftWithin(taskId, first, at + 2)
      requires HasReported(taskId, 30, before, at)
      ensures tasks.RunsSince(taskId, first, 30, tasks.tasks, tasks.tick)
    {
      assert tasks.IsLeftWithin(taskId, first, at);
      assert tasks.IsLeftWithin(taskId, first, at + 3) <==>
          tasks.IsLeftWithin(taskId, first, at + 2) && taskId !in tasks.cancelledAt(at + 2);
    }

    lemma FinishesWhenRunning(taskId: string, first: nat, now: map<string, Task>, from: nat, concluding: nat)
      requires tasks.RunsSince(taskId, first, 30, now, from) && from <= concluding
      ensures CanFinish(taskId, now, from, concluding) <==> tasks.IsLeftWithin(taskId, first, concluding + 7)
    {
      LeftWithinBoth(taskId, first, from, concluding);
    }

    /** Whether the file was read shows in the second event, and that is among the first the flow has. */
    lemma ReadIsRecorded(
      taskId: string, path: string, providers: seq<string>, r: FlowOutcome, beginning: Flow.Trace)
      requires Flow.IsAccounted(world.trace, taskId, path, providers, r.Returned?)
      requires beginning <= world.trace && (beginning == world.trace || |beginning| > 1)
      ensures Flow.HasRead(world.trace) <==> |beginning| > 1 && beginning[1] == Flow.FileRead(path)
    {
      hide Flow.IsSafe;
      if i :| 0 <= i < |world.trace| && world.trace[i].FileRead? {
        Flow.ReadsOnce(world.trace, taskId, path, providers, i);
      }
    }

    lemma ResultsAreReported()
      requires Valid()
      ensures AreReported(world.trace, policy.audit.rows, world.failing)
    {
    }

    lemma ReturnedIsSettled(taskId: string, path: string, providers: seq<string>, r: FlowOutcome, account: Account)
      requires IsAccountable(taskId, path, providers, r, account)
      ensures r.Returned? ==> Flow.SettledExactlyOnce(world.trace)
    {
      hide Flow.SettledExactlyOnce, Flow.IsSafe, PaidFor, DocumentService.IsTrue;
      Flow.SettledExactlyWhenNoneOpen(world.trace);
    }

    /**
     The owner asks, for acceptable destinations, and the root task has a document to read: it is queued, or it
     failed before, and nobody cancels it up to the access that starts it.
     */
    ghost predicate IsStartable(rootTaskId: string, destinations: seq<Field>, actor: ActorArg, context: TaskContext)
      reads tasks
    {
      && OwnerContext(actor, context) && Destinations(destinations).Some?
      && IsRoot(rootTaskId)
      && var task := tasks.tasks[rootTaskId];
        && task.selectedPath.Some? && task.selectedPath.value != ""
        && (|| (task.status.Queued? && tasks.IsLeftAlone(rootTaskId, 2))
            || (task.status in RETRYABLE && tasks.IsLeftAlone(rootTaskId, 5)))
    }

    /** A task of its own that reads a document. */
    ghost predicate IsRoot(taskId: string)
      reads tasks
    {
      taskId in tasks.tasks && tasks.tasks[taskId].kind.DocumentRead? && tasks.tasks[taskId].parent.None?
    }

    /** Why a task is not started: the first of the checks that fails. */
    predicate IsRefusal(
      error: Option<string>, found: bool, destinations: seq<Field>, actor: ActorArg, context: TaskContext)
    {
      if !OwnerContext(actor, context) then error == Some("actor_not_authorized")
      else if Destinations(destinations).None? then error == Some("invalid_destinations")
      else if !found then error == Some("task_not_found")
      else error == Some("invalid_task_state") || error == Some("task_conflict")
    }

    /** The progress a task has once it is started: a retried one begins anew. */
    function StartingProgress(task: Task): nat {
      if task.status.Queued? then task.progress else 0
    }

    /** Takes the root task from the queue, after a retry if it failed before, exactly when it can; or says why not. */
    method StartRoot(rootTaskId: string, destinations: seq<Field>, actor: ActorArg, context: TaskContext)
      returns (path: string, error: Option<string>)
      modifies tasks
      ensures error.None? <==> old(IsStartable(rootTaskId, destinations, actor, context))
      ensures error.None? ==> old(tasks.tasks)[rootTaskId].selectedPath == Some(path)
      ensures error.None? ==>
                tasks.RunsSince(rootTaskId, old(tasks.tick), StartingProgress(old(tasks.tasks)[rootTaskId]),
                                tasks.tasks, tasks.tick)
      ensures error.Some? ==> IsRefusal(error, old(IsRoot(rootTaskId)), destinations, actor, context)
      ensures CompletesNone(old(tasks.tasks), tasks.tasks, rootTaskId)
    {
      hide OwnerContext, Destinations, CompletesNone, AreOnlyCancelled, AfterCancelling, DocumentService.IsStartable;
      hide DocumentService.IsRoot, TaskStore.RunsSince;
      path := "";
      ghost var before := tasks.tasks;
      OnlyCancelledNow(before);
      CancellingCompletesNone(before, before, rootTaskId);
      StartableParts(rootTaskId, destinations, actor, context);
      if !OwnerContext(actor, context) {
        return path, Some("actor_not_authorized");
      }
      if Destinations(destinations).None? {
        return path, Some("invalid_destinations");
      }
      tasks.FoundTask(rootTaskId);
      var task := tasks.Get(rootTaskId);
      CancellingCompletesNone(before, tasks.tasks, rootTaskId);
      if task.None? || task.value.parent.Some? || !task.value.kind.DocumentRead? {
        return path, Some("task_not_found");
      }
      path, error := StartFound(rootTaskId, task.value, before);
      if error.None? {
        RunsFromBefore(rootTaskId, old(tasks.tick), StartingProgress(task.value));
      }
    }

    lemma RunsFromBefore(taskId: string, first: nat, progress: nat)
      requires tasks.RunsSince(taskId, first + 1, progress, tasks.tasks, tasks.tick)
               && taskId !in tasks.cancelledAt(first)
      ensures tasks.RunsSince(taskId, first, progress, tasks.tasks, tasks.tick)
    {
      assert tasks.IsLeftWithin(taskId, first, tasks.tick) <==> tasks.IsLeftWithin(taskId, first + 1, tasks.tick);
    }

    /** The condition, part by part, as the next access finds the task. */
    lemma StartableParts(rootTaskId: string, destinations: seq<Field>, actor: ActorArg, context: TaskContext)
      ensures IsRoot(rootTaskId) <==>
                rootTaskId in tasks.tasks && tasks.tasks[rootTaskId].kind.DocumentRead?
                && tasks.tasks[rootTaskId].parent.None?
      ensures IsStartable(rootTaskId, destinations, actor, context) <==>
                && OwnerContext(actor, context) && Destinations(destinations).Some? && IsRoot(rootTaskId)
                && tasks.tasks[rootTaskId].selectedPath.Some? && tasks.tasks[rootTaskId].selectedPath.value != ""
                && (|| (tasks.tasks[rootTaskId].status.Queued? && tasks.IsLeftAlone(rootTaskId, 2))
                    || (tasks.tasks[rootTaskId].status in RETRYABLE && tasks.IsLeftAlone(rootTaskId, 5)))
    {
      hide OwnerContext, Destinations;
    }

    /** The root task was found; from here on its own state decides. */
    method StartFound(taskId: string, found: Task, ghost before: map<string, Task>)
      returns (path: string, error: Option<string>)
      requires taskId in tasks.tasks && tasks.tasks[taskId] == found
      requires CompletesNone(before, tasks.tasks, taskId)
      modifies tasks
      ensures error.None? <==>
                && found.selectedPath.Some? && found.selectedPath.value != ""
                && (|| (found.status.Queued? && old(tasks.IsLeftAlone(taskId, 1)))
                    || (found.status in RETRYABLE && old(tasks.IsLeftAlone(taskId, 4))))
      ensures error.None? ==> found.selectedPath == Some(path)
      ensures error.None? ==>
                tasks.RunsSince(taskId, old(tasks.tick), StartingProgress(found), tasks.tasks, tasks.tick)
      ensures error.None? || error == Some("invalid_task_state") || error == Some("task_conflict")
      ensures error == Some("task_conflict") <==>
                && found.selectedPath.Some? && found.selectedPath.value != ""
                && (|| (found.status.Queued? && !old(tasks.IsLeftAlone(taskId, 1)))
                    || (&& found.status in RETRYABLE
                        && old(tasks.IsLeftAlone(taskId, 3) && !tasks.IsLeftAlone(taskId, 4))))
      ensures CompletesNone(before, tasks.tasks, taskId)
    {
      hide CompletesNone, TaskStore.RunsSince, TaskStore.IsLeftWithin;
      path, error := "", None;
      ghost var first := tasks.tick;
      var task := Some(found);
      if found.status.Failed? || found.status.Interrupted? {
        task := Retry(taskId);
        CompletesNoneTwice(before, old(tasks.tasks), tasks.tasks, taskId);
      }
      if task.None? || !task.value.status.Queued? || task.value.selectedPath.None?
         || task.value.selectedPath.value == "" {
        return path, Some("invalid_task_state");
      }
      path := task.value.selectedPath.value;
      ghost var queued, at := tasks.tasks, tasks.tick;
      LeftAloneInTurn(taskId, first, at);
      task := Start(taskId);
      CompletesNoneTwice(before, queued, tasks.tasks, taskId);
      if task.None? {
        error := Some("task_conflict");
      } else {
        RunsFromStart(taskId, first, at, StartingProgress(found));
      }
    }

    lemma LeftAloneInTurn(taskId: string, first: nat, at: nat)
      requires first <= at == tasks.tick
      ensures tasks.IsLeftWithin(taskId, first, at + 1) <==>
                tasks.IsLeftWithin(taskId, first, at) && tasks.IsLeftAlone(taskId, 1)
    {
    }

    lemma RunsFromStart(taskId: string, first: nat, at: nat, progress: nat)
      requires first <= at && tasks.tick == at + 2 && taskId in tasks.tasks && tasks.IsLeftWithin(taskId, first, at + 1)
      requires if taskId in tasks.cancelledAt(at + 1) then tasks.tasks[taskId].status.Cancelled?
               else tasks.tasks[taskId].status.Running? && tasks.tasks[taskId].progress == progress
      ensures tasks.RunsSince(taskId, first, progress, tasks.tasks, tasks.tick)
    {
    }

    /** A failed task is queued again exactly when nobody cancels it before any of the three accesses. */
    method Retry(taskId: string) returns (task: Option<Task>)
      requires taskId in tasks.tasks && tasks.tasks[taskId].status in RETRYABLE
      modifies tasks
      ensures CompletesNone(old(tasks.tasks), tasks.tasks, taskId)
      ensures task.Some? && task.value.status.Queued? <==> old(tasks.IsLeftAlone(taskId, 3))
      ensures task.Some? ==>
                && taskId in tasks.tasks && task.value == tasks.tasks[taskId] && tasks.tick == old(tasks.tick) + 3
                && task.value.selectedPath == old(tasks.tasks)[taskId].selectedPath && task.value.progress == 0
    {
      hide CompletesNone, AfterCancelling, TaskStore.Written, TaskStore.FoundAgain, TaskStore.StaysIn;
      tasks.LookingCompletesNone(taskId);
      tasks.FoundTask(taskId);
      tasks.StaysUnlessCancelled(taskId, RETRYABLE);
      ghost var again := tasks.Found()[taskId].(status := Queued, progress := 0, resultSummary := None);
      tasks.WritingCompletesNone(taskId, again);
      tasks.WrittenUnlessCancelled(tasks.FoundAgain(), taskId, again, tasks.tick + 1);
      assert tasks.IsLeftAlone(taskId, 3) <==>
          tasks.IsLeftAlone(taskId, 2) && taskId !in tasks.cancelledAt(tasks.tick + 2);
      task := tasks.RetryTask(taskId);
    }

    /** A queued task is started exactly when nobody cancels it just before. */
    method Start(taskId: string) returns (task: Option<Task>)
      modifies tasks
      ensures CompletesNone(old(tasks.tasks), tasks.tasks, taskId)
      ensures task.Some? <==>
                taskId in old(tasks.tasks) && old(tasks.tasks)[taskId].status.Queued?
                  && old(tasks.IsLeftAlone(taskId, 1))
      ensures task.Some? ==>
                && tasks.tick == old(tasks.tick) + 2 && taskId in tasks.tasks
                && if taskId in tasks.cancelledAt(old(tasks.tick) + 1) then tasks.tasks[taskId].status.Cancelled?
                   else tasks.tasks[taskId].status.Running?
                        && tasks.tasks[taskId].progress == old(tasks.tasks)[taskId].progress
    {
      hide CompletesNone, TaskStore.Written, AfterCancelling;
      tasks.LookingCompletesNone(taskId);
      tasks.FoundTask(taskId);
      if taskId in tasks.tasks && !tasks.tasks[taskId].status.Completed? {
        ghost var started := tasks.Found()[taskId].(status := Running);
        tasks.WritingCompletesNone(taskId, started);
        tasks.WrittenUnlessCancelled(tasks.Found(), taskId, started, tasks.tick);
      }
      task := tasks.StartTask(taskId);
    }

    /** A queued follow-up of a root task that is explained; nobody cancels it up to the access that starts it. */
    ghost predicate IsFollowable(childTaskId: string, destinations: seq<Field>, actor: ActorArg, context: TaskContext)
      reads tasks
    {
      && OwnerContext(actor, context) && Destinations(destinations).Some? && childTaskId in tasks.tasks
      && var child := tasks.tasks[childTaskId];
        && child.kind.DocumentFollowUp? && child.status.Queued? && child.parent.Some? && IsExplained(child.parent.value)
        && tasks.IsLeftAlone(childTaskId, 3)
    }

    /** A completed root task that has its explanation and its path. */
    ghost predicate IsExplained(taskId: string)
      reads tasks
    {
      && IsRoot(taskId) && tasks.tasks[taskId].status.Completed?
      && tasks.tasks[taskId].resultSummary.Some? && tasks.tasks[taskId].resultSummary.value != ""
      && tasks.tasks[taskId].selectedPath.Some? && tasks.tasks[taskId].selectedPath.value != ""
    }

    /**
     Runs a queued follow-up on the prior explanation; the file is never opened again. It is explained exactly
     when it can be started, nobody cancels it, a provider returned a text and no settlement was noticed to fail.
     */
    method ExecuteFollowUp(
      childTaskId: string, destinations: seq<Field>, actor: ActorArg, context: TaskContext, ghost until: nat)
      returns (r: FlowOutcome, ghost path: string, ghost providers: seq<string>, ghost offered: Flow.Trace,
               ghost closing: nat, ghost concluding: nat)
      requires Valid()
      modifies world, tasks, router, policy, policy.grants, policy.audit
      ensures Valid()
      ensures IsAccountable(childTaskId, path, providers, r, Account(|old(policy.grants.log)|, actor))
      ensures IsSettledExactly(offered, closing) && (r.Returned? ==> Flow.SettledExactlyOnce(world.trace))
      ensures r.Escaped? <==> RaisesWithin(closing, closing + |Flow.Outstanding(offered)|)
      ensures LeavesTasks(old(tasks.tasks), childTaskId, ExplanationOf(r))
      ensures AreReported(world.trace, policy.audit.rows, world.failing)
      ensures forall i | 0 <= i < |world.trace| :: !world.trace[i].FileRead?
      ensures !old(IsFollowable(childTaskId, destinations, actor, context)) ==> world.trace == [] && r.Returned?
      ensures old(IsFollowable(childTaskId, destinations, actor, context)) ==>
                && Destinations(destinations) == Some(providers)
                && old(tasks.tasks[tasks.tasks[childTaskId].parent.value].selectedPath) == Some(path)
      ensures ExplanationOf(r).Some? <==>
                && old(IsFollowable(childTaskId, destinations, actor, context)
                  && tasks.tasks[childTaskId].progress <= 80)
                && tasks.IsLeftWithin(childTaskId, old(tasks.tick), concluding + 7) && HasExplanation(r)
      ensures old(IsFollowable(childTaskId, destinations, actor, context)) ==>
                IsReasonedAs(r, tasks.IsLeftWithin(childTaskId, old(tasks.tick), concluding + 1))
      ensures !old(IsFollowable(childTaskId, destinations, actor, context)) ==>
                r.Returned? && r.result.explanation.None?
                && (IsRefusal(r.result.error, true, destinations, actor, context)
                    || IsRefusal(r.result.error, false, destinations, actor, context))
      ensures old(IsFollowable(childTaskId, destinations, actor, context)
                    && tasks.tasks[childTaskId].progress <= 80) ==>
                r.Returned? ==> tasks.IsOver(childTaskId)
      // In a calm world it is explained exactly when some usable provider has a text.
      ensures old(IsFollowedFairly(childTaskId, destinations, actor, context, until)) ==>
                (ExplanationOf(r).Some? <==>
                   old(tasks.tasks[childTaskId].progress <= 80 && SomeoneSpeaks(Destinations(destinations).value)))
    {
      hide DocumentService.Valid, PaidFor, PolicyService.Valid, Flow.AtRest, Flow.SettledExactlyOnce;
      hide Flow.NoSendSuccess, Flow.NoneFailed, Flow.Calls, OwnerContext, Destinations, CompletesNone;
      hide DocumentService.IsSettledExactly, DocumentService.RaisesWithin, DocumentService.LeavesTasks;
      hide DocumentService.IsTrue, Flow.IsAccounted, Flow.Outstanding, DocumentService.IsFollowable;
      hide TaskStore.RunsSince, TaskStore.IsLeftWithin, DocumentService.HasExplanation, DocumentService.CanFinish;
      hide DocumentService.SomeoneSpeaks, DocumentService.IsTried, DocumentService.IsFollowedFairly;
      hide DocumentService.IsSetFair, DocumentService.IsCalmAt, DocumentService.IsPromising, IsUnderWay;
      hide DocumentService.IsReasoned, DocumentService.IsReasonedAs, TaskStore.IsOver;
      ghost var fair := IsFollowedFairly(childTaskId, destinations, actor, context, until);
      if fair {
        FairlyFollowedParts(childTaskId, destinations, actor, context, until);
      }
      Observe();
      path, providers, offered, closing, concluding := "", [], [], world.tick, tasks.tick;
      ghost var account, before, first := Account(|policy.grants.log|, actor), tasks.tasks, tasks.tick;
      FollowableParts(childTaskId, destinations, actor, context);
      var rootPath, error := StartChild(childTaskId, destinations, actor, context);
      if error.Some? {
        NothingHappened(childTaskId, path, providers, error.value, account, before);
        ResultsAreReported();
        return Returned(Failure(error.value)), path, providers, offered, closing, concluding;
      }
      ghost var started, from := tasks.tasks, tasks.tick;
      var names := Destinations(destinations).value;
      path, providers := rootPath, names;
      StartsAtRest(childTaskId, path, providers, account);
      if fair {
        FairOnceFollowed(Scene(childTaskId, rootPath, names, actor, until), first, before[childTaskId].progress);
      }
      r, offered, closing, concluding := Generate(childTaskId, rootPath, names, actor, account, until);
      RunsUnderWay(childTaskId, first, before[childTaskId].progress, started, from);
      ReasonedSince(r, childTaskId, first, before[childTaskId].progress, started, from, concluding);
      FinishesWith(childTaskId, first, before[childTaskId].progress, started, from, concluding);
      LeavesTasksLater(before, started, childTaskId, ExplanationOf(r));
      ReturnedIsSettled(childTaskId, path, providers, r, account);
      ResultsAreReported();
      NeverReads(childTaskId, path, providers, r.Returned?);
    }

    /** The follow-up can be started, and its flow in a calm world has instants enough. */
    ghost predicate IsFollowedFairly(
      childTaskId: string, destinations: seq<Field>, actor: ActorArg, context: TaskContext, until: nat)
      reads world, tasks, policy.grants, policy.audit
    {
      && IsFollowable(childTaskId, destinations, actor, context)
      && var scene := Scene(
           childTaskId, tasks.tasks[tasks.tasks[childTaskId].parent.value].selectedPath.value,
           Destinations(destinations).value, actor, until);
         IsCalm(scene) && IsPromising(scene, world.tick)
    }

    lemma FairlyFollowedParts(
      childTaskId: string, destinations: seq<Field>, actor: ActorArg, context: TaskContext, until: nat)
      requires IsFollowedFairly(childTaskId, destinations, actor, context, until)
      ensures IsFollowable(childTaskId, destinations, actor, context) && Destinations(destinations).Some?
      ensures childTaskId in tasks.tasks && tasks.tasks[childTaskId].parent.Some?
      ensures tasks.tasks[childTaskId].parent.value in tasks.tasks
      ensures tasks.tasks[tasks.tasks[childTaskId].parent.value].selectedPath.Some?
      ensures var scene := Scene(
                childTaskId, tasks.tasks[tasks.tasks[childTaskId].parent.value].selectedPath.value,
                Destinations(destinations).value, actor, until);
              && IsCalmAt(scene, world.tick, policy.grants.rows.Keys, policy.audit.rows, tasks.tick)
              && IsPromising(scene, world.tick)
    {
      hide OwnerContext, Destinations;
    }

    lemma FairOnceFollowed(scene: Scene, first: nat, progress: nat)
      requires IsCalmAt(scene, world.tick, policy.grants.rows.Keys, policy.audit.rows, first)
      requires IsPromising(scene, world.tick)
      requires tasks.RunsSince(scene.taskId, first, progress, tasks.tasks, tasks.tick)
      ensures IsSetFair(scene) && tasks.tasks[scene.taskId].progress == progress
    {
      hide DocumentService.IsSteady, Audit.IsAudited;
    }

    lemma FinishesWith(
      taskId: string, first: nat, progress: nat, now: map<string, Task>, from: nat, concluding: nat)
      requires tasks.RunsSince(taskId, first, progress, now, from) && from <= concluding
      ensures CanFinish(taskId, now, from, concluding) <==>
              progress <= 80 && tasks.IsLeftWithin(taskId, first, concluding + 7)
    {
      LeftWithinBoth(taskId, first, from, concluding);
    }

    lemma FollowableParts(childTaskId: string, destinations: seq<Field>, actor: ActorArg, context: TaskContext)
      ensures IsFollowable(childTaskId, destinations, actor, context) ==>
                && OwnerContext(actor, context) && Destinations(destinations).Some? && childTaskId in tasks.tasks
                && tasks.tasks[childTaskId].parent.Some? && tasks.tasks[childTaskId].parent.value in tasks.tasks
                && tasks.tasks[tasks.tasks[childTaskId].parent.value].selectedPath.Some?
    {
      hide OwnerContext, Destinations;
    }

    /** The condition, part by part and access by access. */
    lemma FollowableExactly(childTaskId: string, destinations: seq<Field>, actor: ActorArg, context: TaskContext)
      ensures IsFollowable(childTaskId, destinations, actor, context) <==>
                && OwnerContext(actor, context) && Destinations(destinations).Some? && childTaskId in tasks.tasks
                && tasks.tasks[childTaskId].kind.DocumentFollowUp? && tasks.tasks[childTaskId].status.Queued?
                && tasks.tasks[childTaskId].parent.Some? && IsExplained(tasks.tasks[childTaskId].parent.value)
                && tasks.IsLeftWithin(childTaskId, tasks.tick, tasks.tick + 3)
      ensures tasks.IsLeftWithin(childTaskId, tasks.tick, tasks.tick + 2) <==>
                childTaskId !in tasks.cancelledAt(tasks.tick) && childTaskId !in tasks.cancelledAt(tasks.tick + 1)
      ensures tasks.IsLeftWithin(childTaskId, tasks.tick, tasks.tick + 3) ==>
                tasks.IsLeftWithin(childTaskId, tasks.tick, tasks.tick + 2)
    {
      hide OwnerContext, Destinations;
    }

    /** Takes a follow-up from the queue exactly when it can be started, or says why not. */
    method StartChild(childTaskId: string, destinations: seq<Field>, actor: ActorArg, context: TaskContext)
      returns (path: string, error: Option<string>)
      modifies tasks
      ensures error.None? <==> old(IsFollowable(childTaskId, destinations, actor, context))
      ensures error.None? ==> old(tasks.tasks[tasks.tasks[childTaskId].parent.value].selectedPath) == Some(path)
      ensures error.None? ==>
                tasks.RunsSince(childTaskId, old(tasks.tick), old(tasks.tasks)[childTaskId].progress,
                                tasks.tasks, tasks.tick)
      ensures error.Some? ==>
                || IsRefusal(error, true, destinations, actor, context)
                || IsRefusal(error, false, destinations, actor, context)
      ensures CompletesNone(old(tasks.tasks), tasks.tasks, childTaskId)
    {
      hide OwnerContext, Destinations, CompletesNone, AreOnlyCancelled, AfterCancelling, TaskStore.RunsSince;
      hide TaskStore.IsLeftWithin, TaskStore.IsLeftAlone, DocumentService.IsFollowable;
      path := "";
      ghost var before, first := tasks.tasks, tasks.tick;
      FollowableExactly(childTaskId, destinations, actor, context);
      OnlyCancelledNow(before);
      CancellingCompletesNone(before, before, childTaskId);
      if !OwnerContext(actor, context) {
        return path, Some("actor_not_authorized");
      }
      if Destinations(destinations).None? {
        return path, Some("invalid_destinations");
      }
      tasks.FoundTask(childTaskId);
      if childTaskId in tasks.tasks && tasks.tasks[childTaskId].parent.Some? {
        tasks.FoundTask(tasks.tasks[childTaskId].parent.value);
      }
      var child := tasks.Get(childTaskId);
      ghost var found := tasks.tasks;
      CancellingCompletesNone(before, found, childTaskId);
      if child.None? || !child.value.kind.DocumentFollowUp? || child.value.parent.None?
         || !child.value.status.Queued? {
        return path, Some("invalid_task_state");
      }
      var parent := child.value.parent.value;
      tasks.FoundTask(parent);
      tasks.FoundTask(childTaskId);
      var root := tasks.Get(parent);
      ghost var looked := tasks.tasks;
      CancellingCompletesNone(found, looked, childTaskId);
      CompletesNoneTwice(before, found, looked, childTaskId);
      if root.None? || !root.value.kind.DocumentRead? || root.value.parent.Some? || !root.value.status.Completed?
         || root.value.resultSummary.None? || root.value.resultSummary.value == ""
         || root.value.selectedPath.None? || root.value.selectedPath.value == "" {
        return path, Some("task_not_found");
      }
      path := root.value.selectedPath.value;
      LeftAloneInTurn(childTaskId, first, first + 2);
      child := Start(childTaskId);
      CompletesNoneTwice(before, looked, tasks.tasks, childTaskId);
      error := if child.None? then Some("task_conflict") else None;
      if child.Some? {
        RunsFromStart(childTaskId, first, first + 2, before[childTaskId].progress);
      }
    }

    lemma NeverReads(taskId: string, path: string, providers: seq<string>, returned: bool)
      requires Flow.IsAccounted(world.trace, taskId, path, providers, returned)
      requires world.trace != [] ==> !world.trace[0].Decision?
      ensures forall i | 0 <= i < |world.trace| :: !world.trace[i].FileRead?
    {
      hide Flow.MayFollow;
      forall i | 0 <= i < |world.trace| ensures !world.trace[i].FileRead? {
        Flow.NoReadWithoutFirstDecision(world.trace, taskId, path, providers, i);
      }
    }

    /** After the owner's call the task can no longer be cancelled: it is cancelled, or finished. */
    method Cancel(taskId: string, actor: ActorArg, context: TaskContext) returns (r: FlowResult)
      modifies tasks
      ensures r.error == Some("actor_not_authorized") <==> !OwnerContext(actor, context)
      ensures OwnerContext(actor, context) ==>
                && (r.error == Some("task_not_found") <==> taskId !in tasks.tasks)
                && (taskId in tasks.tasks ==> !CanCancel(tasks.tasks[taskId].status))
      ensures r.error.None? ==>
                OwnerContext(actor, context) && taskId in tasks.tasks && tasks.tasks[taskId].status.Cancelled?
      ensures OwnerContext(actor, context) && taskId in tasks.tasks && r.error.Some? ==>
                r.error == Some("invalid_task_state")
      ensures AreOnlyCancelled(old(tasks.tasks), tasks.tasks)
    {
      hide OwnerContext;
      if !OwnerContext(actor, context) {
        return Failure("actor_not_authorized");
      }
      var found := tasks.Get(taskId);
      if found.None? {
        return Failure("task_not_found");
      }
      ghost var looked := tasks.tasks;
      var task := tasks.CancelTask(taskId);
      OnlyCancelledTwice(old(tasks.tasks), looked, tasks.tasks);
      if task.None? {
        return Failure("invalid_task_state");
      }
      return FlowResult(Of(task.value.status), None, None, None, []);
    }
  }

  /** Stand-ins for what lies outside: any text is its own canonical form, and one reference serves for all. */
  function PlainPath(path: string): Option<string> {
    if path == "" then None else Some(path)
  }

  function PlainReference(path: string): string {
    Audit.DIGEST_PREFIX + seq(64, _ => '0')
  }

  lemma PlainEnvironment()
    ensures IsEnvironment(PlainPath, PlainReference)
  {
    forall s ensures Audit.IsResourceReference(PlainReference(s)) {
      assert forall i | 7 <= i < 71 :: PlainReference(s)[i] == '0';
    }
  }

  /**
   The first flow of a new installation, in any outside world: whatever is read and replied, whichever
   accesses fail and whoever cancels the one task there is. Nothing more than this is assumed of a flow.
   */
  method ConfirmFromScratch(
    reading: (nat, string) -> ReadResult, replying: (nat, string) -> Reply, failing: nat -> Flow.Failing,
    time: nat -> real, cancelledAt: nat -> set<string>, task: Task, providers: map<string, ProviderStatus>,
    destinations: seq<Field>, actor: ActorArg, context: TaskContext, ghost until: nat)
    returns (service: DocumentService, r: FlowOutcome, ghost path: string, ghost names: seq<string>,
             ghost offered: Flow.Trace, ghost closing: nat, ghost concluding: nat)
    ensures fresh(service) && service.Valid()
    ensures service.IsAccountable("root", path, names, r, Account(0, actor))
    ensures service.IsSettledExactly(offered, closing)
    ensures service.LeavesTasks(map["root" := task], "root", service.ExplanationOf(r))
  {
    hide DocumentService.IsAccountable, DocumentService.IsSettledExactly, DocumentService.LeavesTasks;
    PlainEnvironment();
    var grants := new Grants.GrantStore(PlainPath);
    var audit := new Audit.ActionAuditStore();
    var policy := new PolicyService(grants, audit, PlainReference);
    var world := new World(
      reading, replying, failing, time, Audit.LegacyId, (n: nat) => Audit.LegacyId(n % 74));
    var tasks := new TaskStore(map["root" := task], cancelledAt);
    var router := new AIRouter(providers, _ => true);
    service := new DocumentService(tasks, policy, router, world);
    r, path, names, offered, closing, concluding :=
      service.ConfirmAndExplain("root", destinations, actor, context, until);
  }
}
