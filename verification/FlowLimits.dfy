/**
 Two runs on which the promises about settlements fail, step by step as the provider round takes them, in
 outside worlds that are written out: in both a settlement raises an error that the flow does not catch. And
 one run of the whole flow on which all goes well.
 */
module FlowLimits {
  import opened Options
  import opened ActionPolicy
  import opened TaskStore
  import opened PolicyService
  import opened Router
  import opened DocumentService
  import opened FlowBooks
  import FlowAudit
  import Flow = FlowTrace
  import Grants
  import Audit = ActionAudit

  const TASK := "task"
  const PATH := "notes.txt"
  const FIRST := "first"
  const SECOND := "second"
  const REPLY := "text"

  const OWNER := Context(Str("owner"), Known(Owner), Str("local"), Str("cli"))

  const RUNNING_TASK :=
    Task(Running, DocumentRead, None, Some(PATH), "", 30, 0, None)

  /** Only the second provider has anything to say. */
  function Replies(n: nat, provider: string): Reply {
    if provider == SECOND then Text(REPLY) else Nothing
  }

  /** One identifier for the first provider asked, another for the second. */
  function Ids(n: nat): string {
    if n < 4 then "a" else "b"
  }

  function RaisesAt(at: nat): nat -> Flow.Failing {
    n => if n == at then Flow.Raises(false, false) else Flow.Works
  }

  /** A clock that stands still, or that jumps past the lifetime of a grant while the first is issued. */
  function Clock(jumps: bool): nat -> real {
    n => if jumps && n >= 2 then 100.0 else 0.0
  }

  function NoCancellations(n: nat): set<string> {
    {}
  }

  function NothingRead(n: nat, path: string): ReadResult {
    ReadCrash
  }

  /** A round on a running task that nobody cancels, before anyone was asked. */
  ghost predicate IsReady(service: DocumentService, run: ProviderRun, at: nat, jumps: bool)
    reads service, service.world, service.tasks, service.policy, service.policy.grants, service.policy.audit, run
  {
    && service.Runs(run, Account(0, OWNER)) && run.Entries() == Books([], {}, {}, false, false)
    && IsSetting(service, run, at, jumps)
    && service.world.trace == [] && service.world.tick == 0
    && service.policy.grants.rows == map[] && service.policy.audit.rows == []
    && TASK in service.tasks.tasks && service.tasks.tasks[TASK] == RUNNING_TASK
  }

  /** The outside world of these runs, and what they are about. */
  ghost predicate IsSetting(service: DocumentService, run: ProviderRun, at: nat, jumps: bool) {
    && run.taskId == TASK && run.path == PATH && run.providers == [FIRST, SECOND] && run.actor == OWNER
    && service.policy.grants.canon == PlainPath
    && service.world.failing == RaisesAt(at) && service.world.time == Clock(jumps)
    && service.world.replying == Replies && service.world.grantId == Ids && service.world.auditId == Ids
    && service.tasks.cancelledAt == NoCancellations
  }

  method Install(at: nat, jumps: bool) returns (service: DocumentService)
    ensures fresh(service) && fresh(service.world) && fresh(service.tasks) && fresh(service.policy)
    ensures fresh(service.policy.grants) && fresh(service.policy.audit)
    ensures service.Valid() && service.policy.grants.canon == PlainPath && service.policy.grants.rows == map[]
    ensures service.policy.audit.rows == [] && service.policy.grants.log == []
    ensures service.world.trace == [] && service.world.tick == 0
    ensures service.world.failing == RaisesAt(at) && service.world.time == Clock(jumps)
    ensures service.world.replying == Replies && service.world.grantId == Ids && service.world.auditId == Ids
    ensures service.tasks.tasks == map[TASK := RUNNING_TASK] && service.tasks.cancelledAt == NoCancellations
  {
    hide Grants.GrantStore.Valid, Audit.ActionAuditStore.Valid, PolicyService.Valid, FlowAudit.AreReported;
    hide IsEnvironment, IsIdentifier;
    PlainEnvironment();
    IdsAreWellFormed();
    var grants := new Grants.GrantStore(PlainPath);
    var audit := new Audit.ActionAuditStore();
    var policy := new PolicyService(grants, audit, PlainReference);
    var world := new World(NothingRead, Replies, RaisesAt(at), Clock(jumps), Ids, Ids);
    var tasks := new TaskStore(map[TASK := RUNNING_TASK], NoCancellations);
    var router := new AIRouter(map[], _ => true);
    service := new DocumentService(tasks, policy, router, world);
  }

  method Prepare(at: nat, jumps: bool) returns (service: DocumentService, run: ProviderRun)
    ensures fresh(service) && fresh(service.world) && fresh(service.tasks) && fresh(service.policy)
    ensures fresh(service.policy.grants) && fresh(service.policy.audit) && fresh(run)
    ensures IsReady(service, run, at, jumps)
  {
    hide DocumentService.Valid, FlowBooks.Keeps, Flow.AtRest, DocumentService.PaidFor, Flow.NoSendSuccess;
    hide Flow.NoneFailed, Flow.Calls;
    service := Install(at, jumps);
    run := new ProviderRun(TASK, PATH, [FIRST, SECOND], OWNER);
    service.StartsAtRest(TASK, PATH, [FIRST, SECOND], Account(0, OWNER));
    EmptyBooksKeep(service.world.trace, TASK, PATH, [FIRST, SECOND]);
  }

  lemma IdsAreWellFormed()
    ensures forall n: nat :: IsIdentifier(Ids(n)) && Ids(n) != ""
  {
    assert IsIdentifier("a") && IsIdentifier("b");
  }

  lemma TermsAreInOrder(service: DocumentService, provider: string, n: nat)
    requires provider == FIRST || provider == SECOND
    requires service.policy.grants.canon == PlainPath && service.world.time(n + 1) == service.world.time(n)
    ensures Grants.IsIssuable(
              PlainPath, service.TermsAt(Flow.SEND_DOCUMENT, PATH, Some(provider), TASK, OWNER, n),
              service.world.time(n + 1))
  {
    OwnerIsValid();
    NamesAreIdentifiers();
    hide ValidActor, IsIdentifier;
  }

  lemma OwnerIsValid()
    ensures ValidActor(OWNER)
  {
  }

  lemma NamesAreIdentifiers()
    ensures IsIdentifier(FIRST) && IsIdentifier(SECOND) && IsIdentifier(TASK) && IsIdentifier(Flow.SEND_DOCUMENT)
  {
    var action := Flow.SEND_DOCUMENT;
    assert |action| == 22;
  }

  /** The round is at this instant, about to ask for this provider with nothing in its way. */
  ghost predicate IsAsking(
    service: DocumentService, run: ProviderRun, provider: string, at: nat, jumps: bool, n: nat)
    reads service, service.world, service.tasks, service.policy, service.policy.grants, service.policy.audit, run
  {
    && service.Runs(run, Account(0, OWNER)) && IsSetting(service, run, at, jumps)
    && service.world.tick == n && (n == 0 || n == 4) && at != n && at != n + 2
    && TASK in service.tasks.tasks && service.tasks.tasks[TASK] == RUNNING_TASK
    && (provider == FIRST || provider == SECOND) && provider !in run.attempted && !run.auditFailed
    && Ids(n) !in service.policy.grants.rows && !service.policy.audit.Has(Ids(n + 2))
    && !Flow.HasCrashed(service.world.trace)
  }

  /** One question of the round, at the instant it starts: everything works, so a decision comes of it. */
  method Ask(service: DocumentService, run: ProviderRun, provider: string, at: nat, jumps: bool, ghost n: nat)
    returns (approved: bool)
    requires IsAsking(service, run, provider, at, jumps, n)
    modifies run, service.world, service.tasks, service.policy, service.policy.grants, service.policy.audit
    ensures service.Runs(run, Account(0, OWNER)) && old(service.world.trace) <= service.world.trace
    ensures TASK in service.tasks.tasks && service.tasks.tasks[TASK] == RUNNING_TASK
    ensures approved <==> !jumps || n == 4
    ensures service.HasAsked(run, provider, n, old(service.world.trace) + [Flow.SeenRunning(TASK)],
                             old(run.Entries()), old(service.policy.grants.rows.Keys), true)
    ensures run.attempted == old(run.attempted) + {provider}
    ensures approved ==>
              && Flow.SendCleared(service.world.trace, TASK, PATH, provider)
              && !Flow.WasContacted(service.world.trace, provider) && run.HasOpen(service.world.trace, provider)
    ensures Flow.Calls(service.world.trace) == Flow.Calls(old(service.world.trace))
    ensures forall id :: service.policy.audit.Has(id) ==> old(service.policy.audit.Has(id)) || id == Ids(n + 2)
  {
    hide DocumentService.Runs, DocumentService.HasAsked, Flow.SendCleared, Flow.WasContacted, ProviderRun.HasOpen;
    hide Flow.Calls, Audit.IsAudited, Grants.IsIssuable, Flow.EndsRaised;
    TermsAreInOrder(service, provider, n);
    assert service.IsLeftRunning(TASK);
    assert service.CanDecide(Flow.SEND_DOCUMENT, PATH, Some(provider), TASK, OWNER, n);
    assert service.IsTimely(OWNER, n) <==> !jumps || n == 4;
    approved := service.AuthorizeProvider(run, provider, Account(0, OWNER));
  }

  lemma NothingYet()
    ensures Flow.Calls([]) == [] && Flow.Contacts([]) == [] && !Flow.HasCrashed([])
  {
  }

  lemma NothingAudited(audit: Audit.ActionAuditStore)
    requires audit.rows == []
    ensures forall id :: !audit.Has(id)
  {
  }

  /** Nothing raises or fails at any instant but one. */
  lemma NothingRaised(service: DocumentService, run: ProviderRun, at: nat, jumps: bool, first: nat, n: nat)
    requires IsSetting(service, run, at, jumps) && at < first
    ensures !service.RaisesWithin(first, first + n) && !service.NoticesWithin(first, first + n)
  {
  }

  lemma SettledRound(service: DocumentService, run: ProviderRun)
    requires service.Settles(run, Account(0, OWNER))
    ensures service.Valid() && service.PaidFor(service.world.trace, service.policy.grants.log, Account(0, OWNER))
  {
  }

  lemma StaysUnwritten(before: Flow.Trace, after: Flow.Trace)
    requires before <= after && !Flow.AllWritten(before)
    ensures !Flow.AllWritten(after)
  {
    var i :| 0 <= i < |before| && before[i].Settled? && !before[i].attempt.Written?;
    assert after[i] == before[i];
  }

  lemma RefusalRaised(service: DocumentService, run: ProviderRun, books: Books)
    requires IsSetting(service, run, 3, true)
    requires service.HasAsked(run, FIRST, 0, [Flow.SeenRunning(TASK)], books, {}, true)
    ensures !Flow.AllWritten(service.world.trace)
  {
    assert service.world.trace[2] == Flow.Settled("a", Flow.SettledFailed, Flow.Raised, 3);
  }

  /** The round when the second provider has replied, at the instant at which the closing loop begins. */
  ghost predicate HasReplied(service: DocumentService, run: ProviderRun, at: nat, jumps: bool)
    reads service, service.world, service.tasks, service.policy, service.policy.grants, service.policy.audit, run
  {
    && service.Runs(run, Account(0, OWNER)) && IsSetting(service, run, at, jumps) && service.world.tick == 8
    && TASK in service.tasks.tasks && service.tasks.tasks[TASK] == RUNNING_TASK
    && !run.auditFailed && run.HasAnswer(service.world.trace, SECOND, REPLY)
    && !Flow.HasCrashed(service.world.trace)
  }

  /** A question that is allowed, and the call that follows. */
  method AskAndContact(
    service: DocumentService, run: ProviderRun, provider: string, at: nat, jumps: bool, ghost n: nat)
    requires IsAsking(service, run, provider, at, jumps, n) && (!jumps || n == 4)
    modifies run, service.world, service.tasks, service.policy, service.policy.grants, service.policy.audit
    ensures service.Runs(run, Account(0, OWNER)) && old(service.world.trace) <= service.world.trace
    ensures TASK in service.tasks.tasks && service.tasks.tasks[TASK] == RUNNING_TASK
    ensures service.world.tick == n + 4 && !run.auditFailed && !Flow.HasCrashed(service.world.trace)
    ensures run.auditIds == old(run.auditIds) + [(provider, Ids(n + 2))] && run.settled == old(run.settled)
    ensures run.attempted == old(run.attempted) + {provider}
    ensures service.policy.grants.rows.Keys == old(service.policy.grants.rows.Keys) + {Ids(n)}
    ensures provider == SECOND ==> run.HasAnswer(service.world.trace, SECOND, REPLY)
    ensures Flow.Contacts(Flow.Calls(service.world.trace)) ==
            Flow.Contacts(Flow.Calls(old(service.world.trace))) + [provider]
    ensures forall id :: service.policy.audit.Has(id) ==> old(service.policy.audit.Has(id)) || id == Ids(n + 2)
  {
    hide DocumentService.Runs, Flow.SendCleared, Flow.WasContacted, ProviderRun.HasOpen, ProviderRun.HasAnswer;
    hide Flow.Calls, Audit.IsAudited, Flow.Contacts, DocumentService.Valid, DocumentService.DecisionTrace;
    var approved := Ask(service, run, provider, at, jumps, n);
    var reply := service.ContactProvider(run, provider, Account(0, OWNER));
  }

  /** The first question is refused, and its settlement raises. */
  method AskInVain() returns (service: DocumentService, run: ProviderRun)
    ensures fresh(service) && fresh(service.world) && fresh(service.tasks) && fresh(service.policy)
    ensures fresh(service.policy.grants) && fresh(service.policy.audit) && fresh(run)
    ensures IsAsking(service, run, SECOND, 3, true, 4) && !Flow.AllWritten(service.world.trace)
    ensures Flow.Calls(service.world.trace) == []
  {
    hide DocumentService.Runs, Flow.SendCleared, Flow.WasContacted, ProviderRun.HasOpen, Flow.Calls;
    hide Audit.IsAudited, Flow.AllWritten, DocumentService.Valid;
    service, run := Prepare(3, true);
    NothingYet();
    NothingAudited(service.policy.audit);
    ghost var books := run.Entries();
    var approved := Ask(service, run, FIRST, 3, true, 0);
    RefusalRaised(service, run, books);
  }

  /** The second question is allowed and answered. */
  method AskAfterRefusal() returns (service: DocumentService, run: ProviderRun)
    ensures fresh(service) && fresh(service.world) && fresh(service.tasks) && fresh(service.policy)
    ensures fresh(service.policy.grants) && fresh(service.policy.audit) && fresh(run)
    ensures HasReplied(service, run, 3, true) && !Flow.AllWritten(service.world.trace)
    ensures Flow.Contacts(Flow.Calls(service.world.trace)) == [SECOND]
  {
    hide DocumentService.Runs, ProviderRun.HasAnswer, Flow.HasCrashed;
    hide Flow.Calls, Audit.IsAudited, Flow.AllWritten, Flow.Contacts, DocumentService.Valid;
    NothingYet();
    service, run := AskInVain();
    ghost var refused := service.world.trace;
    AskAndContact(service, run, SECOND, 3, true, 4);
    StaysUnwritten(refused, service.world.trace);
  }

  /**
   The grant for the first provider expires before it is decided on, and the settlement of the refusal
   raises. Nothing notices: the second provider is asked, its text comes back, and the flow returns a
   completed explanation although one of its settlements was never written.
   */
  method RaisedRefusalIsOverlooked() returns (service: DocumentService, r: FlowResult)
    ensures service.IsAccountable(TASK, PATH, [FIRST, SECOND], Returned(r), Account(0, OWNER))
    ensures r.explanation == Some(REPLY) && r.provider == Some(SECOND) && service.IsKept(TASK, Some(REPLY))
    ensures Flow.SettledExactlyOnce(service.world.trace) && !Flow.AllWritten(service.world.trace)
  {
    hide DocumentService.Runs, ProviderRun.HasAnswer, Flow.Explains, Flow.NoneFailed, Flow.AtRest, Flow.AllWritten;
    hide Flow.Calls, Flow.Outstanding, DocumentService.IsAccountable, Flow.SettledExactlyOnce, Flow.EndsRaised;
    hide Flow.OnlySettles, Flow.Contacts, DocumentService.Settles, DocumentService.PaidFor;
    hide DocumentService.RaisesWithin, DocumentService.NoticesWithin, DocumentService.Valid;
    hide OthersOnlyCancelled, CompletesNone;
    var run;
    service, run := AskAfterRefusal();
    ghost var asked := service.world.trace;
    NothingRaised(service, run, 3, true, 8, |Flow.Outstanding(service.world.trace)|);
    var escaped := service.SettleAll(run, Some(SECOND), REPLY, Account(0, OWNER));
    SettledRound(service, run);
    r := service.Conclude(
      TASK, PATH, [FIRST, SECOND], run.approvalFailed, Some(REPLY), SECOND, [SECOND], Account(0, OWNER));
    StaysUnwritten(asked, service.world.trace);
    service.ReturnedIsSettled(TASK, PATH, [FIRST, SECOND], Returned(r), Account(0, OWNER));
  }

  /** The first question is allowed, and the first provider says nothing. */
  method AskInTime() returns (service: DocumentService, run: ProviderRun)
    ensures fresh(service) && fresh(service.world) && fresh(service.tasks) && fresh(service.policy)
    ensures fresh(service.policy.grants) && fresh(service.policy.audit) && fresh(run)
    ensures IsAsking(service, run, SECOND, 8, false, 4)
    ensures run.settled == {} && run.auditIds == [(FIRST, "a")]
  {
    hide DocumentService.Runs, ProviderRun.HasAnswer, Flow.HasCrashed, Flow.Calls, Flow.Contacts;
    hide Audit.IsAudited, DocumentService.Valid;
    service, run := Prepare(8, false);
    NothingYet();
    NothingAudited(service.policy.audit);
    AskAndContact(service, run, FIRST, 8, false, 0);
  }

  /** Both questions are allowed, and only the second provider replies. */
  method AskTwice() returns (service: DocumentService, run: ProviderRun)
    ensures fresh(service) && fresh(service.world) && fresh(service.tasks) && fresh(service.policy)
    ensures fresh(service.policy.grants) && fresh(service.policy.audit) && fresh(run)
    ensures HasReplied(service, run, 8, false)
    ensures run.settled == {} && run.auditIds == [(FIRST, "a"), (SECOND, "b")]
  {
    hide DocumentService.Runs, ProviderRun.HasAnswer, Flow.HasCrashed, Flow.Calls, Flow.Contacts;
    hide Audit.IsAudited, DocumentService.Valid;
    service, run := AskInTime();
    AskAndContact(service, run, SECOND, 8, false, 4);
  }

  /**
   Two providers were asked, and the second replied. The settlement of the first raises and ends the flow,
   and the decision on the second is never settled.
   */
  method RaisedSettlementLeavesOpen() returns (service: DocumentService, escaped: bool)
    ensures service.Valid() && escaped
    ensures !Flow.SettledExactlyOnce(service.world.trace) && Flow.Outstanding(service.world.trace) != {}
  {
    hide DocumentService.Runs, ProviderRun.HasAnswer, Flow.Explains, Flow.NoneFailed, Flow.AtRest;
    hide Flow.Calls, Flow.Outstanding, Flow.SettledExactlyOnce, Flow.EndsRaised, Flow.OnlySettles;
    hide DocumentService.Settles, DocumentService.PaidFor, DocumentService.RaisesWithin, DocumentService.Valid;
    hide DocumentService.NoticesWithin;
    var run;
    service, run := AskTwice();
    BothAreOpen(service, run);
    FirstRaises(service, run, false);
    escaped := service.SettleAll(run, Some(SECOND), REPLY, Account(0, OWNER));
    SettledRound(service, run);
    OpenIsUnsettled(service, run);
  }

  lemma BothAreOpen(service: DocumentService, run: ProviderRun)
    requires service.Runs(run, Account(0, OWNER)) && run.settled == {}
    requires run.auditIds == [(FIRST, "a"), (SECOND, "b")]
    ensures |Flow.Outstanding(service.world.trace)| == 2
  {
    hide DocumentService.Valid, DocumentService.PaidFor, FlowBooks.Keeps, Flow.NoSendSuccess;
    OutstandingAreCounted(run.Entries(), service.world.trace, run.taskId, run.path, run.providers);
    assert OpenFrom(run.Entries(), 2) == 0 && OpenFrom(run.Entries(), 1) == 1;
  }

  lemma FirstRaises(service: DocumentService, run: ProviderRun, jumps: bool)
    requires IsSetting(service, run, 8, jumps)
    ensures service.RaisesWithin(8, 10) && service.RaisesWithin(8, 9)
  {
    assert Flow.IsUncaught(service.world.failing(8));
  }

  lemma OpenIsUnsettled(service: DocumentService, run: ProviderRun)
    requires service.Settles(run, Account(0, OWNER)) && Flow.Outstanding(service.world.trace) != {}
    ensures !Flow.SettledExactlyOnce(service.world.trace)
  {
    hide DocumentService.Valid, DocumentService.PaidFor, Flow.SettledExactlyOnce, Flow.Outstanding;
    service.SettledByBooks(run);
  }

  // ---------- A run on which all goes well ----------

  function AllWorks(n: nat): Flow.Failing {
    Flow.Works
  }

  function Noon(n: nat): real {
    12.0
  }

  function Words(n: nat, path: string): ReadResult {
    Document("words")
  }

  function FreshId(n: nat): string {
    Audit.LegacyId(n % 74)
  }

  function HasModel(provider: string): bool {
    true
  }

  const OWN_CONTEXT := TaskContext("owner", "owner", "local", "cli", false)

  const QUEUED_TASK := Task(Queued, DocumentRead, None, Some(PATH), "", 0, 0, None)

  const READY := ProviderStatus(true, 0, 0.0, 0, 0.0)

  ghost function CalmScene(): Scene {
    Scene(TASK, PATH, [FIRST, SECOND], OWNER, 40)
  }

  lemma FreshIdsDiffer(m: nat, n: nat)
    requires m < n < 40
    ensures FreshId(m) != FreshId(n)
  {
    assert |FreshId(m)| != |FreshId(n)|;
  }

  lemma FreshIdsAreWellFormed()
    ensures forall n: nat :: IsIdentifier(FreshId(n)) && FreshId(n) != ""
  {
    hide IsIdentifier;
  }

  lemma ProvidersAreListed()
    ensures Destinations([Str(FIRST), Str(SECOND)]) == Some([FIRST, SECOND]) && NoRepeats([FIRST, SECOND])
  {
    hide IsIdentifier;
    NamesAreIdentifiers();
    var first, second := FIRST, SECOND;
    assert first[0] == 'f' && second[0] == 's';
    assert Destinations([Str(FIRST), Str(SECOND)]).value == [FIRST, SECOND];
  }

  lemma OwnersOwnContext()
    ensures OwnerContext(OWNER, OWN_CONTEXT)
  {
  }

  method Open() returns (service: DocumentService)
    ensures fresh(service) && service.Valid()
    ensures fresh(service.world) && fresh(service.tasks) && fresh(service.policy) && fresh(service.router)
    ensures fresh(service.policy.grants) && fresh(service.policy.audit)
    ensures service.policy.grants.canon == PlainPath && service.policy.grants.rows == map[]
    ensures service.policy.audit.rows == []
    ensures service.world.tick == 0 && service.world.failing == AllWorks && service.world.time == Noon
    ensures service.world.reading == Words && service.world.replying == Replies
    ensures service.world.grantId == FreshId && service.world.auditId == FreshId
    ensures service.tasks.tasks == map[TASK := QUEUED_TASK] && service.tasks.cancelledAt == NoCancellations
    ensures service.router.providers == map[FIRST := READY, SECOND := READY] && service.router.hasModel == HasModel
  {
    hide Grants.GrantStore.Valid, Audit.ActionAuditStore.Valid, PolicyService.Valid, FlowAudit.AreReported;
    hide IsEnvironment, IsIdentifier;
    PlainEnvironment();
    FreshIdsAreWellFormed();
    var grants := new Grants.GrantStore(PlainPath);
    var audit := new Audit.ActionAuditStore();
    var policy := new PolicyService(grants, audit, PlainReference);
    var world := new World(Words, Replies, AllWorks, Noon, FreshId, FreshId);
    var tasks := new TaskStore(map[TASK := QUEUED_TASK], NoCancellations);
    var router := new AIRouter(map[FIRST := READY, SECOND := READY], HasModel);
    service := new DocumentService(tasks, policy, router, world);
  }

  lemma OpenIsCalm(service: DocumentService)
    requires service.policy.grants.canon == PlainPath && service.policy.grants.rows == map[]
    requires service.policy.audit.rows == []
    requires service.world.tick == 0 && service.world.failing == AllWorks && service.world.time == Noon
    requires service.world.replying == Replies
    requires service.world.grantId == FreshId && service.world.auditId == FreshId
    requires service.tasks.cancelledAt == NoCancellations
    ensures service.IsCalm(CalmScene()) && service.IsPromising(CalmScene(), 5)
  {
    hide ValidActor, IsIdentifier;
    OwnerIsValid();
    NamesAreIdentifiers();
    ProvidersAreListed();
    forall m: nat, n: nat | m < n < 40 ensures FreshId(m) != FreshId(n) {
      FreshIdsDiffer(m, n);
    }
  }

  /** The whole flow in a calm world, of which the second provider has something to say: it ends explained. */
  method CalmFlowExplains() returns (service: DocumentService, r: FlowOutcome)
    ensures service.Valid() && r.Returned? && r.result.explanation.Some?
    ensures service.IsKept(TASK, r.result.explanation)
  {
    hide DocumentService.Valid, DocumentService.IsCalm, DocumentService.IsPromising, OwnerContext, Destinations;
    hide DocumentService.IsAccountable, DocumentService.IsSettledExactly, Flow.SettledExactlyOnce, Flow.HasRead;
    hide DocumentService.HasExplanation, DocumentService.RaisesWithin, OthersOnlyCancelled, CompletesNone;
    service := Open();
    OpenIsCalm(service);
    OwnersOwnContext();
    ProvidersAreListed();
    assert service.IsRoot(TASK);
    assert service.IsFairWeather(TASK, [Str(FIRST), Str(SECOND)], OWNER, OWN_CONTEXT, 40);
    assert service.IsTried([FIRST, SECOND], 1) && service.Speaks([FIRST, SECOND][1]);
    assert service.SomeoneSpeaks([FIRST, SECOND]);
    ghost var path, names, offered, closing, concluding;
    r, path, names, offered, closing, concluding :=
      service.ConfirmAndExplain(TASK, [Str(FIRST), Str(SECOND)], OWNER, OWN_CONTEXT, 40);
  }
}
