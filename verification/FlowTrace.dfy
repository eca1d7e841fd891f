/** What is observable of a document flow, and which traces are acceptable. */
module FlowTrace {
  import opened Options

  const READ_DOCUMENT := "document.read"
  const SEND_DOCUMENT := "provider.send_document"
  const MAX_SUMMARY := 4_000

  datatype SettledAs = SettledSuccess | SettledFailed | SettledCancelled

  /** What became of the attempt to write a settlement: done, refused in a way the flow notices, or raised. */
  datatype Attempt = Written | NotWritten | Raised

  /**
   Whether a database access works. One that raises either raises an error the flow catches or one that
   it does not; a late one raises after the decision was made, when its audit row is written.
   */
  datatype Failing = Works | Raises(caught: bool, late: bool)

  predicate IsUncaught(failing: Failing) {
    failing.Raises? && !failing.caught
  }

  /** The decision is made, whether or not its audit row is written after it. */
  predicate ReachesDecision(failing: Failing) {
    failing.Works? || failing.late
  }

  function AttemptWhen(failing: Failing): Attempt {
    match failing
    case Works => Written
    case Raises(caught, _) => if caught then NotWritten else Raised
  }

  /**
   A decision is taken on the grant issued for it; a settlement is attempted at an instant of the outside
   world. The provider was contacted once the call began; if it raised, that is an event of its own.
   */
  datatype Event =
    | Decision(
        auditId: string, allowed: bool, action: string, path: string, destination: Option<string>, taskId: string,
        grant: string)
    | FileRead(path: string)
    | SeenRunning(taskId: string)
    | Contacted(provider: string)
    | Crashed(provider: string)
    | Replied(provider: string, text: string)
    | Settled(auditId: string, status: SettledAs, attempt: Attempt, at: nat)
    | Completed(taskId: string, summary: string)

  type Trace = seq<Event>

  // ---------- Decisions and their settlements ----------

  ghost function Decided(trace: Trace): set<string> {
    if trace == [] then {}
    else
      var last := trace[|trace| - 1];
      Decided(trace[..|trace| - 1]) + if last.Decision? then {last.auditId} else {}
  }

  /** Decisions obtained and not settled yet. */
  ghost function Outstanding(trace: Trace): set<string> {
    if trace == [] then {}
    else
      var last := trace[|trace| - 1];
      var before := Outstanding(trace[..|trace| - 1]);
      if last.Decision? then before + {last.auditId}
      else if last.Settled? then before - {last.auditId}
      else before
  }

  /** Identifiers are decided once, and only an outstanding decision is settled. */
  ghost predicate SettlesOnce(trace: Trace) {
    trace == [] ||
    var front, last := trace[..|trace| - 1], trace[|trace| - 1];
    && SettlesOnce(front)
    && (last.Decision? ==> last.auditId !in Decided(front))
    && (last.Settled? ==> last.auditId in Outstanding(front))
  }

  ghost predicate IsSettledAt(trace: Trace, j: int, auditId: string) {
    0 <= j < |trace| && trace[j].Settled? && trace[j].auditId == auditId
  }

  /** No settlement was noticed to have failed. */
  ghost predicate NoneFailed(trace: Trace) {
    forall i | 0 <= i < |trace| && trace[i].Settled? :: !trace[i].attempt.NotWritten?
  }

  ghost predicate NoneRaised(trace: Trace) {
    forall i | 0 <= i < |trace| && trace[i].Settled? :: !trace[i].attempt.Raised?
  }

  ghost predicate AllWritten(trace: Trace) {
    forall i | 0 <= i < |trace| && trace[i].Settled? :: trace[i].attempt.Written?
  }

  ghost predicate EndsRaised(trace: Trace) {
    trace != [] && trace[|trace| - 1].Settled? && trace[|trace| - 1].attempt.Raised?
  }

  // ---------- What each effect needs to have happened before ----------

  ghost predicate ReadAllowed(trace: Trace, taskId: string, path: string) {
    exists i :: 0 <= i < |trace| && trace[i].Decision? && trace[i].allowed && trace[i].action == READ_DOCUMENT
                && trace[i].path == path && trace[i].taskId == taskId
  }

  ghost predicate IsSendAllowance(event: Event, taskId: string, path: string, provider: string) {
    && event.Decision? && event.allowed && event.action == SEND_DOCUMENT && event.path == path
    && event.destination == Some(provider) && event.taskId == taskId
  }

  /** An allowance for this provider, and after it a look at the task that found it running. */
  ghost predicate SendCleared(trace: Trace, taskId: string, path: string, provider: string) {
    exists i, k :: 0 <= i < k < |trace| && IsSendAllowance(trace[i], taskId, path, provider)
                   && trace[k] == SeenRunning(taskId)
  }

  /** It belongs to an outbound call: its beginning, its reply, or that it raised. */
  predicate IsOfCall(event: Event) {
    event.Contacted? || event.Replied? || event.Crashed?
  }

  /** All that happened of outbound calls. */
  ghost function Calls(trace: Trace): Trace {
    if trace == [] then []
    else
      var last := trace[|trace| - 1];
      Calls(trace[..|trace| - 1]) + if IsOfCall(last) then [last] else []
  }

  ghost function Contacts(calls: Trace): seq<string> {
    if calls == [] then []
    else
      var last := calls[|calls| - 1];
      Contacts(calls[..|calls| - 1]) + if last.Contacted? then [last.provider] else []
  }

  ghost predicate WasContacted(trace: Trace, provider: string) {
    provider in Contacts(Calls(trace))
  }

  ghost predicate HasCrashed(trace: Trace) {
    exists i :: 0 <= i < |Calls(trace)| && Calls(trace)[i].Crashed?
  }

  /** A provider replied with a text. */
  ghost predicate HasAnswered(trace: Trace) {
    exists i :: 0 <= i < |Calls(trace)| && IsAnswer(Calls(trace)[i])
  }

  predicate IsAnswer(event: Event) {
    event.Replied? && event.text != ""
  }

  lemma AnswerAppended(trace: Trace, event: Event)
    ensures HasAnswered(trace + [event]) <==> HasAnswered(trace) || IsAnswer(event)
  {
    CallsAppended(trace, event);
    if IsAnswer(event) {
      assert Calls(trace + [event])[|Calls(trace)|] == event;
    }
    if i :| 0 <= i < |Calls(trace)| && IsAnswer(Calls(trace)[i]) {
      assert Calls(trace + [event])[i] == Calls(trace)[i];
    }
  }

  lemma CallsAppended(trace: Trace, event: Event)
    ensures Calls(trace + [event]) == Calls(trace) + if IsOfCall(event) then [event] else []
  {
    assert (trace + [event])[..|trace|] == trace;
  }

  lemma ContactsAppended(calls: Trace, event: Event)
    ensures Contacts(calls + [event]) == Contacts(calls) + if event.Contacted? then [event.provider] else []
  {
    assert (calls + [event])[..|calls|] == calls;
  }

  lemma CrashAppended(trace: Trace, event: Event)
    ensures HasCrashed(trace + [event]) <==> HasCrashed(trace) || event.Crashed?
  {
    CallsAppended(trace, event);
    if event.Crashed? {
      assert Calls(trace + [event])[|Calls(trace)|] == event;
    }
    if i :| 0 <= i < |Calls(trace)| && Calls(trace)[i].Crashed? {
      assert Calls(trace + [event])[i] == Calls(trace)[i];
    }
  }

  lemma {:induction false} ContactIsRecorded(trace: Trace, i: nat)
    requires i < |trace| && trace[i].Contacted?
    ensures WasContacted(trace, trace[i].provider)
  {
    var front, last := trace[..|trace| - 1], trace[|trace| - 1];
    if i < |front| {
      ContactIsRecorded(front, i);
    }
    if IsOfCall(last) {
      ContactsAppended(Calls(front), last);
    } else {
      assert Calls(trace) == Calls(front);
    }
  }

  /** The decision was about reading, not sending. */
  ghost predicate IsReadDecision(trace: Trace, auditId: string) {
    exists i :: 0 <= i < |trace| && trace[i].Decision? && trace[i].auditId == auditId
      && trace[i].action == READ_DOCUMENT
  }

  /** The decision allowed sending to a provider that then replied with this text. */
  ghost predicate Answered(
    trace: Trace, taskId: string, path: string, auditId: string, provider: string, text: string) {
    exists i, j :: 0 <= i < j < |trace| && IsSendAllowance(trace[i], taskId, path, provider)
                   && trace[i].auditId == auditId && trace[j] == Replied(provider, text)
  }

  ghost predicate NoSendSuccess(trace: Trace) {
    forall i | 0 <= i < |trace| && trace[i].Settled? && trace[i].status.SettledSuccess? ::
      IsReadDecision(trace, trace[i].auditId)
  }

  ghost predicate IsWrittenSuccess(event: Event, auditId: string) {
    event.Settled? && event.auditId == auditId && event.status.SettledSuccess? && event.attempt.Written?
  }

  /** This provider's text was returned, its decision is settled as a success, and this is its summary. */
  ghost predicate Explains(trace: Trace, taskId: string, path: string, provider: string, summary: string) {
    exists i, j, k ::
      && 0 <= i < j < k < |trace| && trace[j].Replied? && trace[j].text != "" && trace[j].provider == provider
      && IsSendAllowance(trace[i], taskId, path, provider)
      && IsWrittenSuccess(trace[k], trace[i].auditId)
      && summary == if |trace[j].text| <= MAX_SUMMARY then trace[j].text else trace[j].text[..MAX_SUMMARY]
  }

  /** The event may follow this trace. */
  ghost predicate MayFollow(front: Trace, event: Event, taskId: string, path: string, providers: seq<string>) {
    match event
    case Decision(_, _, action, _, _, _, _) => action == READ_DOCUMENT ==> front == []
    case FileRead(p) => p == path && |front| == 1 && ReadAllowed(front, taskId, path)
    case Contacted(provider) =>
      provider in providers && !WasContacted(front, provider) && SendCleared(front, taskId, path, provider)
    case Completed(t, summary) =>
      t == taskId && NoneFailed(front) && exists provider :: Explains(front, taskId, path, provider, summary)
    case Settled(auditId, SettledSuccess, _, _) =>
      || IsReadDecision(front, auditId)
      || (NoSendSuccess(front)
          && exists provider, text :: text != "" && Answered(front, taskId, path, auditId, provider, text))
    case _ => true
  }

  ghost predicate IsSafe(trace: Trace, taskId: string, path: string, providers: seq<string>) {
    trace == [] ||
    var front, last := trace[..|trace| - 1], trace[|trace| - 1];
    IsSafe(front, taskId, path, providers) && MayFollow(front, last, taskId, path, providers)
  }

  // ---------- Appending ----------

  lemma Appended(trace: Trace, event: Event)
    ensures (trace + [event])[..|trace|] == trace
    ensures Decided(trace + [event]) == Decided(trace) + if event.Decision? then {event.auditId} else {}
    ensures Outstanding(trace + [event]) ==
            if event.Decision? then Outstanding(trace) + {event.auditId}
            else if event.Settled? then Outstanding(trace) - {event.auditId}
            else Outstanding(trace)
    ensures SettlesOnce(trace + [event]) <==>
            && SettlesOnce(trace)
            && (event.Decision? ==> event.auditId !in Decided(trace))
            && (event.Settled? ==> event.auditId in Outstanding(trace))
    ensures NoneFailed(trace + [event]) <==> NoneFailed(trace) && (event.Settled? ==> !event.attempt.NotWritten?)
  {
    hide NoneFailed;
    assert (trace + [event])[..|trace|] == trace && (trace + [event])[|trace|] == event;
    NoneFailedAppended(trace, event);
  }

  lemma NoneFailedAppended(trace: Trace, event: Event)
    ensures NoneFailed(trace + [event]) <==> NoneFailed(trace) && (event.Settled? ==> !event.attempt.NotWritten?)
  {
    var longer := trace + [event];
    assert longer[|trace|] == event;
    assert forall i | 0 <= i < |trace| :: longer[i] == trace[i];
  }

  lemma SafeAppended(trace: Trace, event: Event, taskId: string, path: string, providers: seq<string>)
    ensures IsSafe(trace + [event], taskId, path, providers) <==>
            IsSafe(trace, taskId, path, providers) && MayFollow(trace, event, taskId, path, providers)
  {
    assert (trace + [event])[..|trace|] == trace;
  }

  // ---------- What the recursive definitions say of positions ----------

  lemma {:induction false} OutstandingIsUnsettled(trace: Trace, auditId: string)
    requires SettlesOnce(trace)
    ensures auditId in Outstanding(trace) ==> auditId in Decided(trace)
    ensures auditId in Decided(trace) && auditId !in Outstanding(trace) <==> exists j :: IsSettledAt(trace, j, auditId)
    ensures forall j, k :: IsSettledAt(trace, j, auditId) && IsSettledAt(trace, k, auditId) ==> j == k
  {
    if trace != [] {
      var front, last := trace[..|trace| - 1], trace[|trace| - 1];
      OutstandingIsUnsettled(front, auditId);
      forall j | IsSettledAt(front, j, auditId) ensures IsSettledAt(trace, j, auditId) {
      }
      forall j | IsSettledAt(trace, j, auditId) && j < |front| ensures IsSettledAt(front, j, auditId) {
      }
      if last.Settled? && last.auditId == auditId {
        assert IsSettledAt(trace, |front|, auditId);
      }
    }
  }

  /** Exactly one settlement was attempted for every decision obtained, and for nothing else. */
  ghost predicate SettledExactlyOnce(trace: Trace) {
    && (forall auditId | auditId in Decided(trace) :: exists j :: IsSettledAt(trace, j, auditId))
    && (forall auditId, j, k | IsSettledAt(trace, j, auditId) && IsSettledAt(trace, k, auditId) ::
          j == k && auditId in Decided(trace))
  }

  lemma {:induction false} NothingOutstanding(trace: Trace)
    requires SettlesOnce(trace) && Outstanding(trace) == {}
    ensures SettledExactlyOnce(trace)
  {
    forall auditId | auditId in Decided(trace) ensures exists j :: IsSettledAt(trace, j, auditId) {
      OutstandingIsUnsettled(trace, auditId);
    }
    forall auditId, j, k | IsSettledAt(trace, j, auditId) && IsSettledAt(trace, k, auditId)
      ensures j == k && auditId in Decided(trace)
    {
      OutstandingIsUnsettled(trace, auditId);
    }
  }

  /** Each effect in a safe trace is justified by the events strictly before it. */
  lemma {:induction false} EveryEffectIsJustified(
    trace: Trace, taskId: string, path: string, providers: seq<string>, i: nat)
    requires IsSafe(trace, taskId, path, providers) && i < |trace|
    ensures MayFollow(trace[..i], trace[i], taskId, path, providers)
  {
    hide MayFollow;
    if i < |trace| - 1 {
      EveryEffectIsJustified(trace[..|trace| - 1], taskId, path, providers, i);
      assert trace[..|trace| - 1][..i] == trace[..i];
    }
  }

  lemma ReadDecisionComesFirst(trace: Trace, taskId: string, path: string, providers: seq<string>, j: nat)
    requires IsSafe(trace, taskId, path, providers) && j < |trace|
    ensures trace[j].Decision? && trace[j].action == READ_DOCUMENT ==> j == 0
  {
    EveryEffectIsJustified(trace, taskId, path, providers, j);
  }

  ghost predicate HasRead(trace: Trace) {
    exists i :: 0 <= i < |trace| && trace[i].FileRead?
  }

  /** The file is read at most once, right after the first decision. */
  lemma {:induction false} ReadsOnce(
    trace: Trace, taskId: string, path: string, providers: seq<string>, i: nat)
    requires IsSafe(trace, taskId, path, providers) && i < |trace| && trace[i].FileRead?
    ensures i == 1 && trace[i] == FileRead(path)
  {
    EveryEffectIsJustified(trace, taskId, path, providers, i);
  }

  /** Reading needs a read decision, which only ever comes first: a flow that starts otherwise never reads. */
  lemma NoReadWithoutFirstDecision(trace: Trace, taskId: string, path: string, providers: seq<string>, i: nat)
    requires IsSafe(trace, taskId, path, providers) && i < |trace| && !trace[0].Decision?
    ensures !trace[i].FileRead?
  {
    EveryEffectIsJustified(trace, taskId, path, providers, i);
    forall j | 0 <= j < i ensures trace[j].Decision? && trace[j].action == READ_DOCUMENT ==> j == 0 {
      ReadDecisionComesFirst(trace, taskId, path, providers, j);
    }
  }

  lemma {:induction false} NoProviderTwice(
    trace: Trace, taskId: string, path: string, providers: seq<string>, i: nat, j: nat)
    requires IsSafe(trace, taskId, path, providers) && i < j < |trace|
    requires trace[i].Contacted? && trace[j].Contacted?
    ensures trace[i].provider != trace[j].provider
  {
    EveryEffectIsJustified(trace, taskId, path, providers, j);
    ContactIsRecorded(trace[..j], i);
  }

  // ---------- What earlier events established stays established ----------

  lemma EstablishedStays(trace: Trace, event: Event, taskId: string, path: string)
    ensures forall p :: SendCleared(trace, taskId, path, p) ==> SendCleared(trace + [event], taskId, path, p)
    ensures forall id :: IsReadDecision(trace, id) ==> IsReadDecision(trace + [event], id)
    ensures forall id, p, t :: Answered(trace, taskId, path, id, p, t) ==>
            Answered(trace + [event], taskId, path, id, p, t)
    ensures forall p, s :: Explains(trace, taskId, path, p, s) ==> Explains(trace + [event], taskId, path, p, s)
  {
    hide IsSendAllowance, IsWrittenSuccess;
    assert forall i | 0 <= i < |trace| :: (trace + [event])[i] == trace[i];
  }

  lemma NoSendSuccessStays(trace: Trace, event: Event)
    requires NoSendSuccess(trace)
    requires event.Settled? && event.status.SettledSuccess? ==> IsReadDecision(trace, event.auditId)
    ensures NoSendSuccess(trace + [event])
  {
    EstablishedStays(trace, event, "", "");
    hide IsReadDecision;
    assert (trace + [event])[|trace|] == event;
    assert forall i | 0 <= i < |trace| :: (trace + [event])[i] == trace[i];
  }

  lemma ExplainedBySettling(
    trace: Trace, taskId: string, path: string, auditId: string, provider: string, text: string, at: nat)
    requires Answered(trace, taskId, path, auditId, provider, text) && text != ""
    ensures Explains(trace + [Settled(auditId, SettledSuccess, Written, at)], taskId, path, provider,
                     if |text| <= MAX_SUMMARY then text else text[..MAX_SUMMARY])
  {
    var i, j :| 0 <= i < j < |trace| && IsSendAllowance(trace[i], taskId, path, provider)
                && trace[i].auditId == auditId && trace[j] == Replied(provider, text);
    var longer := trace + [Settled(auditId, SettledSuccess, Written, at)];
    assert longer[i] == trace[i] && longer[j] == trace[j] && IsWrittenSuccess(longer[|trace|], auditId);
  }

  // ---------- A flow at rest ----------

  /** Everything so far was justified and every decision is settled. */
  ghost predicate AtRest(trace: Trace, taskId: string, path: string, providers: seq<string>) {
    IsSafe(trace, taskId, path, providers) && SettlesOnce(trace) && Outstanding(trace) == {}
  }

  lemma RestsAfter(trace: Trace, event: Event, taskId: string, path: string, providers: seq<string>)
    requires AtRest(trace, taskId, path, providers) && MayFollow(trace, event, taskId, path, providers)
    requires !event.Decision? && !event.Settled?
    ensures AtRest(trace + [event], taskId, path, providers)
  {
    hide MayFollow;
    Appended(trace, event);
    SafeAppended(trace, event, taskId, path, providers);
  }

  /**
   How a flow may end: at rest, or cut short by a settlement that raised. Only in the second case can a
   decision be left without its settlement.
   */
  ghost predicate IsAccounted(
    trace: Trace, taskId: string, path: string, providers: seq<string>, returned: bool)
  {
    && IsSafe(trace, taskId, path, providers) && SettlesOnce(trace)
    && (Outstanding(trace) != {} ==> !returned && EndsRaised(trace))
  }

  /** Each decision has exactly one settlement if and only if none is outstanding. */
  lemma {:induction false} SettledExactlyWhenNoneOpen(trace: Trace)
    requires SettlesOnce(trace)
    ensures SettledExactlyOnce(trace) <==> Outstanding(trace) == {}
  {
    if Outstanding(trace) == {} {
      NothingOutstanding(trace);
    } else {
      var auditId :| auditId in Outstanding(trace);
      OutstandingIsUnsettled(trace, auditId);
    }
  }

  /** After the first part come only settlements, one at each instant from the closing one on. */
  ghost predicate OnlySettles(offered: Trace, trace: Trace, closing: nat) {
    && offered <= trace
    && forall i | |offered| <= i < |trace| :: trace[i].Settled? && trace[i].at == closing + i - |offered|
  }

  /** The same, but for a completion at the end. */
  ghost predicate Closes(offered: Trace, trace: Trace, closing: nat) {
    || OnlySettles(offered, trace, closing)
    || (trace != [] && trace[|trace| - 1].Completed? && OnlySettles(offered, trace[..|trace| - 1], closing))
  }

  lemma ClosesCompleted(offered: Trace, settled: Trace, closing: nat, trace: Trace)
    requires OnlySettles(offered, settled, closing)
    requires trace == settled
             || (|trace| == |settled| + 1 && trace[..|settled|] == settled && trace[|settled|].Completed?)
    ensures Closes(offered, trace, closing)
  {
  }

  // ---------- How a reading flow begins ----------

  ghost function ReadTrace(id: string, allowed: bool, path: string, taskId: string, grant: string): Trace {
    [Decision(id, allowed, READ_DOCUMENT, path, None, taskId, grant)] + if allowed then [FileRead(path)] else []
  }

  lemma ReadTraceIsSafe(
    id: string, allowed: bool, path: string, taskId: string, grant: string, providers: seq<string>)
    ensures var trace := ReadTrace(id, allowed, path, taskId, grant);
      && IsSafe(trace, taskId, path, providers) && SettlesOnce(trace) && Outstanding(trace) == {id}
      && IsReadDecision(trace, id) && Calls(trace) == []
  {
    var decision := Decision(id, allowed, READ_DOCUMENT, path, None, taskId, grant);
    var decided: Trace := [] + [decision];
    assert decided[0] == decision;
    Appended([], decision);
    CallsAppended([], decision);
    SafeAppended([], decision, taskId, path, providers);
    assert ReadTrace(id, allowed, path, taskId, grant)[0] == decision;
    if allowed {
      assert ReadTrace(id, allowed, path, taskId, grant) == decided + [FileRead(path)];
      Appended(decided, FileRead(path));
      CallsAppended(decided, FileRead(path));
      SafeAppended(decided, FileRead(path), taskId, path, providers);
    } else {
      assert ReadTrace(id, allowed, path, taskId, grant) == decided;
    }
  }

  lemma SettledReadRests(
    id: string, allowed: bool, status: SettledAs, attempt: Attempt, at: nat, taskId: string, path: string,
    grant: string, providers: seq<string>)
    ensures var trace := ReadTrace(id, allowed, path, taskId, grant) + [Settled(id, status, attempt, at)];
      && AtRest(trace, taskId, path, providers) && NoSendSuccess(trace) && Calls(trace) == []
      && (!attempt.NotWritten? ==> NoneFailed(trace))
  {
    var trace := ReadTrace(id, allowed, path, taskId, grant);
    ReadTraceIsSafe(id, allowed, path, taskId, grant, providers);
    NoSendSuccessStays(trace, Settled(id, status, attempt, at));
    hide IsSafe, SettlesOnce, Outstanding, NoSendSuccess, IsReadDecision;
    Appended(trace, Settled(id, status, attempt, at));
    CallsAppended(trace, Settled(id, status, attempt, at));
    SafeAppended(trace, Settled(id, status, attempt, at), taskId, path, providers);
  }
}
