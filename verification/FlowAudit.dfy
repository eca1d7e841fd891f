/** What the audit table says of a flow: every settlement that was written is the result of its row. */
module FlowAudit {
  import opened Options
  import opened FlowTrace
  import Audit = ActionAudit

  function StatusOf(status: SettledAs): Audit.ResultStatus {
    match status
    case SettledSuccess => Audit.Success
    case SettledFailed => Audit.Failed
    case SettledCancelled => Audit.Cancelled
  }

  /** The decision's row carries this result. */
  ghost predicate HasResult(rows: seq<Audit.Row>, auditId: string, status: SettledAs) {
    exists k :: 0 <= k < |rows| && rows[k].auditId == Audit.Text(auditId)
                && rows[k].resultStatus == Audit.Text(Audit.StatusName(StatusOf(status)))
  }

  /**
   Every settlement came out as the database access at its instant did, and one that was written is the
   result of its row.
   */
  ghost predicate AreReported(trace: Trace, rows: seq<Audit.Row>, failing: nat -> Failing) {
    forall j | 0 <= j < |trace| && trace[j].Settled? :: IsReported(trace[j], rows, failing)
  }

  ghost predicate IsReported(event: Event, rows: seq<Audit.Row>, failing: nat -> Failing)
    requires event.Settled?
  {
    && event.attempt == AttemptWhen(failing(event.at))
    && (event.attempt.Written? ==> HasResult(rows, event.auditId, event.status))
  }

  /** An event that settles nothing asks nothing more of the table. */
  lemma ReportedAppended(trace: Trace, event: Event, rows: seq<Audit.Row>, failing: nat -> Failing)
    requires AreReported(trace, rows, failing)
    requires event.Settled? ==> IsReported(event, rows, failing)
    ensures AreReported(trace + [event], rows, failing)
  {
    hide IsReported;
  }

  lemma ReportedWithMoreRows(
    trace: Trace, before: seq<Audit.Row>, after: seq<Audit.Row>, failing: nat -> Failing)
    requires AreReported(trace, before, failing) && before <= after
    ensures AreReported(trace, after, failing)
  {
    forall j | 0 <= j < |trace| && trace[j].Settled? ensures IsReported(trace[j], after, failing) {
      assert IsReported(trace[j], before, failing);
      assert forall k | 0 <= k < |before| :: after[k] == before[k];
    }
  }

  /** Writing the result of a decision that was not settled before overwrites no result. */
  lemma ReportedAfterResult(
    trace: Trace, before: seq<Audit.Row>, after: seq<Audit.Row>, failing: nat -> Failing, auditId: string,
    status: SettledAs, at: nat)
    requires AreReported(trace, before, failing) && SettlesOnce(trace) && auditId in Outstanding(trace)
    requires |after| == |before| && HasResult(after, auditId, status) && failing(at).Works?
    requires forall k | 0 <= k < |before| && before[k].auditId != Audit.Text(auditId) :: after[k] == before[k]
    ensures AreReported(trace + [Settled(auditId, status, Written, at)], after, failing)
  {
    OutstandingIsUnsettled(trace, auditId);
    hide SettlesOnce, Outstanding, Decided;
    forall j | 0 <= j < |trace| && trace[j].Settled? ensures IsReported(trace[j], after, failing) {
      assert IsSettledAt(trace, j, trace[j].auditId);
      assert IsReported(trace[j], before, failing);
    }
    ReportedAppended(trace, Settled(auditId, status, Written, at), after, failing);
  }

  /** When everything was settled and written, the table holds a result for every decision of the flow. */
  lemma EveryDecisionHasItsResult(trace: Trace, rows: seq<Audit.Row>, failing: nat -> Failing, auditId: string)
    requires SettledExactlyOnce(trace) && AllWritten(trace) && AreReported(trace, rows, failing)
    requires auditId in Decided(trace)
    ensures exists status :: HasResult(rows, auditId, status)
  {
    hide Decided, HasResult;
    var j :| IsSettledAt(trace, j, auditId);
    assert IsReported(trace[j], rows, failing);
    assert HasResult(rows, auditId, trace[j].status);
  }

  /**
   A completed flow noticed no failure. So all its settlements before were written exactly when none
   raised, and that is exactly when the database worked at the instant of each.
   */
  lemma {:induction false} CompletedIsWrittenUnlessRaised(
    trace: Trace, taskId: string, path: string, providers: seq<string>, rows: seq<Audit.Row>,
    failing: nat -> Failing, i: nat)
    requires IsSafe(trace, taskId, path, providers) && i < |trace| && trace[i].Completed?
    requires AreReported(trace, rows, failing)
    ensures AllWritten(trace[..i]) <==> NoneRaised(trace[..i])
    ensures AllWritten(trace[..i]) <==> forall j | 0 <= j < i && trace[j].Settled? :: failing(trace[j].at).Works?
    ensures forall j | 0 <= j < i && trace[j].Settled? ::
              failing(trace[j].at).Works? || IsUncaught(failing(trace[j].at))
  {
    hide HasResult, IsSafe;
    EveryEffectIsJustified(trace, taskId, path, providers, i);
    forall j | 0 <= j < i && trace[j].Settled?
      ensures trace[..i][j].attempt == AttemptWhen(failing(trace[j].at))
    {
      assert IsReported(trace[j], rows, failing);
    }
  }
}
