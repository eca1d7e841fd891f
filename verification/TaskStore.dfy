/**
 The durable tasks a document flow works on. Somebody else may cancel tasks between any two accesses:
 every access first applies the cancellations of its own instant, and those are arbitrary.
 */
module TaskStore {
  import opened Options

  datatype TaskStatus =
    | Recorded | NotScheduled | Scheduled | ScheduleFailed | Queued | Running | Interrupted | Verifying
    | Completed | Failed | Cancelled

  datatype TaskKind = DocumentRead | DocumentFollowUp | OtherKind

  datatype Task = Task(
    status: TaskStatus, kind: TaskKind, parent: Option<string>, selectedPath: Option<string>,
    rawText: string, progress: nat, updatedAt: nat, resultSummary: Option<string>)

  predicate CanCancel(status: TaskStatus) {
    !status.Completed? && !status.Scheduled? && !status.Cancelled?
  }

  /** The tasks after the given ones were cancelled; finished ones stay finished. */
  function AfterCancelling(tasks: map<string, Task>, cancelled: set<string>, now: nat): (r: map<string, Task>)
    ensures r.Keys == tasks.Keys
  {
    map id | id in tasks ::
      if id in cancelled && CanCancel(tasks[id].status)
      then tasks[id].(status := Cancelled, updatedAt := now)
      else tasks[id]
  }

  /** Unchanged, or an unfinished task that was cancelled and otherwise left as it was. */
  predicate OnlyCancelled(before: Task, after: Task) {
    after == before
    || (CanCancel(before.status) && after == before.(status := Cancelled, updatedAt := after.updatedAt))
  }

  /** The same tasks, each unchanged or cancelled. */
  ghost predicate AreOnlyCancelled(before: map<string, Task>, after: map<string, Task>) {
    after.Keys == before.Keys && forall id | id in after :: OnlyCancelled(before[id], after[id])
  }

  /**
   Nothing was completed: this task may have changed, but not into a completed one, and not if it was
   completed before; every other task is unchanged or cancelled.
   */
  ghost predicate CompletesNone(before: map<string, Task>, after: map<string, Task>, taskId: string) {
    && OthersOnlyCancelled(before, after, taskId)
    && (taskId in after && (before[taskId].status.Completed? || after[taskId].status.Completed?) ==>
          after[taskId] == before[taskId])
  }

  /** The same tasks, and every one but this is unchanged or cancelled. */
  ghost predicate OthersOnlyCancelled(before: map<string, Task>, after: map<string, Task>, taskId: string) {
    after.Keys == before.Keys && forall id | id in after && id != taskId :: OnlyCancelled(before[id], after[id])
  }

  lemma CancellingCompletesNone(before: map<string, Task>, after: map<string, Task>, taskId: string)
    requires AreOnlyCancelled(before, after)
    ensures CompletesNone(before, after, taskId)
  {
  }

  lemma CancellingLeavesOthers(before: map<string, Task>, after: map<string, Task>, taskId: string)
    requires AreOnlyCancelled(before, after)
    ensures OthersOnlyCancelled(before, after, taskId)
  {
  }

  lemma CompletesNoneTwice(
    before: map<string, Task>, middle: map<string, Task>, after: map<string, Task>, taskId: string)
    requires CompletesNone(before, middle, taskId) && CompletesNone(middle, after, taskId)
    ensures CompletesNone(before, after, taskId)
  {
  }

  lemma OthersOnlyCancelledTwice(
    before: map<string, Task>, middle: map<string, Task>, after: map<string, Task>, taskId: string)
    requires OthersOnlyCancelled(before, middle, taskId) && OthersOnlyCancelled(middle, after, taskId)
    ensures OthersOnlyCancelled(before, after, taskId)
  {
  }

  lemma CancellingOnlyCancels(tasks: map<string, Task>, cancelled: set<string>, now: nat)
    ensures AreOnlyCancelled(tasks, AfterCancelling(tasks, cancelled, now))
  {
  }

  /** What is not worked on any more is not taken up by being cancelled. */
  lemma OverWhenOnlyCancelled(before: map<string, Task>, after: map<string, Task>, taskId: string)
    requires AreOnlyCancelled(before, after) && taskId in before && before[taskId].status !in ACTIVE
    ensures taskId in after && after[taskId].status !in ACTIVE
  {
  }

  lemma OnlyCancelledNow(tasks: map<string, Task>)
    ensures AreOnlyCancelled(tasks, tasks)
  {
  }

  lemma OnlyCancelledTwice(before: map<string, Task>, middle: map<string, Task>, after: map<string, Task>)
    requires AreOnlyCancelled(before, middle) && AreOnlyCancelled(middle, after)
    ensures AreOnlyCancelled(before, after)
  {
  }

  const ACTIVE: set<TaskStatus> := {Running, Verifying}
  const UNFINISHED: set<TaskStatus> := {Queued, Running, Verifying}
  const RETRYABLE: set<TaskStatus> := {Failed, Interrupted}

  /** The task of a flow under way: it was cancelled, or it runs and has reported no more than this. */
  ghost predicate IsUnderWay(tasks: map<string, Task>, taskId: string, progress: nat) {
    && taskId in tasks
    && (tasks[taskId].status.Cancelled? || (tasks[taskId].status.Running? && tasks[taskId].progress <= progress))
  }

  /** A task under way stays so while it is only looked at. */
  lemma UnderWayStays(before: map<string, Task>, after: map<string, Task>, taskId: string, progress: nat)
    requires AreOnlyCancelled(before, after)
    ensures IsUnderWay(before, taskId, progress) ==> IsUnderWay(after, taskId, progress)
  {
  }

  class TaskStore {
    var tasks: map<string, Task>
    var tick: nat

    /** Which tasks somebody cancels just before the access at each instant. */
    const cancelledAt: nat -> set<string>

    constructor (tasks: map<string, Task>, cancelledAt: nat -> set<string>)
      ensures this.tasks == tasks && this.cancelledAt == cancelledAt
    {
      this.cancelledAt := cancelledAt;
      this.tasks, tick := tasks, 0;
    }

    /** The tasks as the next access finds them. */
    ghost function Found(): map<string, Task>
      reads this
    {
      AfterCancelling(tasks, cancelledAt(tick), tick)
    }

    /** The tasks as the access after that finds them, if the next one is a look. */
    ghost function FoundAgain(): map<string, Task>
      reads this
    {
      AfterCancelling(Found(), cancelledAt(tick + 1), tick + 1)
    }

    /** The tasks when one of them was updated at the instant given and then looked at. */
    ghost function Written(found: map<string, Task>, taskId: string, task: Task, at: nat): map<string, Task> {
      AfterCancelling(found[taskId := task.(updatedAt := at)], cancelledAt(at + 1), at + 1)
    }

    /** Every other task is as it was before, or cancelled. */
    lemma WritingLeavesOthers(
      before: map<string, Task>, found: map<string, Task>, taskId: string, task: Task, at: nat)
      requires AreOnlyCancelled(before, found) && taskId in found
      ensures OthersOnlyCancelled(before, Written(found, taskId, task, at), taskId)
    {
      var updated := found[taskId := task.(updatedAt := at)];
      var written := Written(found, taskId, task, at);
      CancellingOnlyCancels(updated, cancelledAt(at + 1), at + 1);
      hide AfterCancelling;
      forall id | id in before && id != taskId ensures OnlyCancelled(before[id], written[id]) {
        assert OnlyCancelled(before[id], found[id]) && updated[id] == found[id];
        assert OnlyCancelled(updated[id], written[id]);
      }
    }

    /** Looking at the tasks completes none. */
    lemma LookingCompletesNone(taskId: string)
      ensures CompletesNone(tasks, Found(), taskId) && CompletesNone(tasks, FoundAgain(), taskId)
    {
      CancellingOnlyCancels(tasks, cancelledAt(tick), tick);
      CancellingOnlyCancels(Found(), cancelledAt(tick + 1), tick + 1);
      OnlyCancelledTwice(tasks, Found(), FoundAgain());
    }

    /** Nor does writing a task that is not completed over one that was not. */
    lemma WritingCompletesNone(taskId: string, task: Task)
      requires taskId in tasks && !tasks[taskId].status.Completed? && !task.status.Completed?
      ensures CompletesNone(tasks, Written(Found(), taskId, task, tick), taskId)
      ensures CompletesNone(tasks, Written(FoundAgain(), taskId, task, tick + 1), taskId)
    {
      hide OnlyCancelled, OthersOnlyCancelled, AfterCancelling, CompletesNone, TaskStore.Written;
      CancellingOnlyCancels(tasks, cancelledAt(tick), tick);
      CancellingOnlyCancels(Found(), cancelledAt(tick + 1), tick + 1);
      OnlyCancelledTwice(tasks, Found(), FoundAgain());
      WritingOverFound(tasks, Found(), taskId, task, tick);
      WritingOverFound(tasks, FoundAgain(), taskId, task, tick + 1);
    }

    lemma WritingOverFound(
      before: map<string, Task>, found: map<string, Task>, taskId: string, task: Task, at: nat)
      requires AreOnlyCancelled(before, found) && taskId in found
      requires !before[taskId].status.Completed? && !task.status.Completed?
      ensures CompletesNone(before, Written(found, taskId, task, at), taskId)
    {
      hide OnlyCancelled, OthersOnlyCancelled;
      WritingLeavesOthers(before, found, taskId, task, at);
    }

    /** A status that cannot be cancelled is what the look after the update finds. */
    lemma FinalStays(found: map<string, Task>, taskId: string, task: Task, at: nat)
      requires !CanCancel(task.status)
      ensures Written(found, taskId, task, at)[taskId] == task.(updatedAt := at)
    {
    }

    /** Nobody cancels the task at any of these instants. */
    ghost predicate IsLeftWithin(taskId: string, first: int, end: int) {
      forall i: nat | first <= i < end :: taskId !in cancelledAt(i)
    }

    /** The tasks once nothing but looks was done to them between these instants. */
    ghost function AfterLooks(before: map<string, Task>, first: nat, end: nat): map<string, Task>
      decreases end
    {
      if end <= first then before
      else AfterCancelling(AfterLooks(before, first, end - 1), cancelledAt(end - 1), end - 1)
    }

    /** Since that instant the tasks were only looked at. */
    ghost predicate OnlyLooked(before: map<string, Task>, first: nat)
      reads this
    {
      first <= tick && tasks == AfterLooks(before, first, tick)
    }

    lemma {:induction false} LooksOnlyCancel(before: map<string, Task>, first: nat, end: nat)
      ensures AreOnlyCancelled(before, AfterLooks(before, first, end))
      decreases end
    {
      hide AfterCancelling, OnlyCancelled;
      if end > first {
        LooksOnlyCancel(before, first, end - 1);
        CancellingOnlyCancels(AfterLooks(before, first, end - 1), cancelledAt(end - 1), end - 1);
        OnlyCancelledTwice(before, AfterLooks(before, first, end - 1), AfterLooks(before, first, end));
      } else {
        OnlyCancelledNow(before);
      }
    }

    lemma NoLooks(before: map<string, Task>, at: nat)
      ensures AfterLooks(before, at, at) == before
    {
    }

    lemma {:induction false} LooksGoOn(before: map<string, Task>, first: nat, middle: nat, end: nat)
      requires first <= middle <= end
      ensures AfterLooks(AfterLooks(before, first, middle), middle, end) == AfterLooks(before, first, end)
      decreases end
    {
      if middle < end {
        LooksGoOn(before, first, middle, end - 1);
      }
    }

    /**
     Ever since that instant the task runs with this progress, unless somebody has cancelled it: then it is
     cancelled.
     */
    ghost predicate RunsSince(taskId: string, first: nat, progress: nat, now: map<string, Task>, at: nat) {
      && first <= at && taskId in now
      && if IsLeftWithin(taskId, first, at) then now[taskId].status.Running? && now[taskId].progress == progress
         else now[taskId].status.Cancelled?
    }

    lemma {:induction false} RunsOn(
      taskId: string, first: nat, progress: nat, now: map<string, Task>, at: nat, end: nat)
      requires RunsSince(taskId, first, progress, now, at) && at <= end
      ensures RunsSince(taskId, first, progress, AfterLooks(now, at, end), end)
      decreases end
    {
      if at < end {
        RunsOn(taskId, first, progress, now, at, end - 1);
        hide AfterLooks, AfterCancelling;
        RunsOnce(taskId, first, progress, AfterLooks(now, at, end - 1), end - 1);
        LookedOnce(now, at, end);
      }
    }

    lemma LookedOnce(before: map<string, Task>, first: nat, end: nat)
      requires first < end
      ensures AfterLooks(before, first, end) ==
              AfterCancelling(AfterLooks(before, first, end - 1), cancelledAt(end - 1), end - 1)
    {
    }

    lemma RunsOnce(taskId: string, first: nat, progress: nat, now: map<string, Task>, at: nat)
      requires RunsSince(taskId, first, progress, now, at)
      ensures RunsSince(taskId, first, progress, AfterCancelling(now, cancelledAt(at), at), at + 1)
    {
      assert IsLeftWithin(taskId, first, at + 1) <==> IsLeftWithin(taskId, first, at) && taskId !in cancelledAt(at);
    }

    /** A task is found running after some looks exactly when it was running and nobody cancelled it meanwhile. */
    lemma RunningAfterLooks(taskId: string, before: map<string, Task>, first: nat, at: nat)
      requires first <= at
      ensures var now := AfterLooks(before, first, at);
        && now.Keys == before.Keys
        && (taskId in now && now[taskId].status.Running? <==>
              taskId in before && before[taskId].status.Running? && IsLeftWithin(taskId, first, at))
        && (taskId in now && now[taskId].status.Running? ==> now[taskId].progress == before[taskId].progress)
    {
      LooksOnlyCancel(before, first, at);
      if taskId in before && before[taskId].status.Running? {
        RunsOn(taskId, first, before[taskId].progress, before, first, at);
      }
    }

    /** What the next access finds of a task. */
    lemma FoundTask(taskId: string)
      ensures taskId in Found() <==> taskId in tasks
      ensures taskId in tasks ==>
                var found := Found()[taskId];
                && found.kind == tasks[taskId].kind && found.parent == tasks[taskId].parent
                && found.selectedPath == tasks[taskId].selectedPath && found.progress == tasks[taskId].progress
                && found.resultSummary == tasks[taskId].resultSummary
                && found.status ==
                     if taskId in cancelledAt(tick) && CanCancel(tasks[taskId].status) then Cancelled
                     else tasks[taskId].status
    {
    }

    /** The next access finds the task in one of these states, and the one after finds it there still. */
    ghost predicate StaysIn(taskId: string, statuses: set<TaskStatus>)
      reads this
    {
      && taskId in Found() && Found()[taskId].status in statuses
      && FoundAgain()[taskId].status == Found()[taskId].status
    }

    /** The task is there, and nothing is being done on it any more. */
    predicate IsOver(taskId: string)
      reads this
    {
      taskId in tasks && tasks[taskId].status !in ACTIVE
    }

    /** The next look finds the task in one of these states. */
    ghost predicate FindsIn(taskId: string, statuses: set<TaskStatus>)
      reads this
    {
      taskId in Found() && Found()[taskId].status in statuses
    }

    /** Nobody cancels the task just before any of the next accesses. */
    ghost predicate IsLeftAlone(taskId: string, accesses: nat)
      reads this
    {
      forall i | tick <= i < tick + accesses :: taskId !in cancelledAt(i)
    }

    /** How the next two accesses find a task that can still be cancelled. */
    lemma FoundUnlessCancelled(taskId: string)
      requires taskId in tasks && CanCancel(tasks[taskId].status)
      ensures taskId in Found()
      ensures if taskId in cancelledAt(tick)
              then Found()[taskId].status.Cancelled? && FoundAgain()[taskId].status.Cancelled?
              else && Found()[taskId] == tasks[taskId]
                   && if taskId in cancelledAt(tick + 1) then FoundAgain()[taskId].status.Cancelled?
                      else FoundAgain()[taskId] == tasks[taskId]
    {
    }

    /** A task stays in states that can be cancelled exactly when nobody cancels it. */
    lemma StaysUnlessCancelled(taskId: string, statuses: set<TaskStatus>)
      requires forall status | status in statuses :: CanCancel(status)
      ensures StaysIn(taskId, statuses) <==>
                taskId in tasks && tasks[taskId].status in statuses && IsLeftAlone(taskId, 2)
      ensures StaysIn(taskId, statuses) ==> Found()[taskId] == FoundAgain()[taskId] == tasks[taskId]
    {
      assert IsLeftAlone(taskId, 2) <==> taskId !in cancelledAt(tick) && taskId !in cancelledAt(tick + 1);
      if taskId in tasks && CanCancel(tasks[taskId].status) {
        FoundUnlessCancelled(taskId);
      }
    }

    /** How the look after an update finds the updated task. */
    lemma WrittenUnlessCancelled(found: map<string, Task>, taskId: string, task: Task, at: nat)
      requires CanCancel(task.status)
      ensures var written := Written(found, taskId, task, at)[taskId];
        && (if taskId in cancelledAt(at + 1) then written.status.Cancelled? else written == task.(updatedAt := at))
        && written.progress == task.progress
    {
    }

    method Get(taskId: string) returns (task: Option<Task>)
      modifies this
      ensures tasks == old(Found()) && tick == old(tick) + 1
      ensures task == if taskId in tasks then Some(tasks[taskId]) else None
      ensures AreOnlyCancelled(old(tasks), tasks)
    {
      CancellingOnlyCancels(tasks, cancelledAt(tick), tick);
      hide AfterCancelling;
      tasks := AfterCancelling(tasks, cancelledAt(tick), tick);
      tick := tick + 1;
      task := if taskId in tasks then Some(tasks[taskId]) else None;
    }

    /**
     Updates the task if it is found in the expected status, and unchanged since when that is asked, and
     then looks at it: a cancellation in between shows in what is returned.
     */
    method Transition(taskId: string, expected: TaskStatus, expectedAt: Option<nat>, update: Task -> Task)
      returns (task: Option<Task>)
      requires !expected.Cancelled?
      modifies this
      ensures task.Some? <==>
                && taskId in old(Found()) && old(Found())[taskId].status == expected
                && (expectedAt.Some? ==> old(Found())[taskId].updatedAt == expectedAt.value)
      ensures task.Some? ==>
                && tasks == Written(old(Found()), taskId, update(old(Found())[taskId]), old(tick))
                && task == Some(tasks[taskId]) && tick == old(tick) + 2
      ensures task.None? ==> tasks == old(Found()) && tick == old(tick) + 1
      ensures OthersOnlyCancelled(old(tasks), tasks, taskId)
    {
      hide AfterCancelling, OnlyCancelled, AreOnlyCancelled, OthersOnlyCancelled;
      CancellingOnlyCancels(tasks, cancelledAt(tick), tick);
      tasks := AfterCancelling(tasks, cancelledAt(tick), tick);
      ghost var found, at := tasks, tick;
      CancellingLeavesOthers(old(tasks), found, taskId);
      if taskId !in tasks || tasks[taskId].status != expected
         || (expectedAt.Some? && tasks[taskId].updatedAt != expectedAt.value) {
        tick := tick + 1;
        return None;
      }
      WritingLeavesOthers(old(tasks), found, taskId, update(found[taskId]), at);
      tasks := tasks[taskId := update(tasks[taskId]).(updatedAt := tick)];
      tick := tick + 1;
      task := Get(taskId);
      assert tasks == Written(found, taskId, update(found[taskId]), at);
    }

    method StartTask(taskId: string) returns (task: Option<Task>)
      modifies this
      ensures task.Some? <==> taskId in old(Found()) && old(Found())[taskId].status.Queued?
      ensures task.Some? ==>
                && tasks == Written(old(Found()), taskId, old(Found())[taskId].(status := Running), old(tick))
                && task == Some(tasks[taskId]) && tick == old(tick) + 2
      ensures task.None? ==> tasks == old(Found())
      ensures tasks.Keys == old(tasks.Keys)
    {
      task := Transition(taskId, Queued, None, (t: Task) => t.(status := Running));
    }

    /** A look and then a guarded write: a cancellation in between makes it fail. */
    method UpdateProgress(taskId: string, progress: nat) returns (task: Option<Task>)
      modifies this
      ensures task.Some? <==> old(StaysIn(taskId, ACTIVE)) && old(Found())[taskId].progress <= progress
      ensures task.Some? ==>
                && tasks == Written(
                     old(FoundAgain()), taskId, old(Found())[taskId].(progress := progress), old(tick) + 1)
                && task == Some(tasks[taskId]) && tick == old(tick) + 3
      ensures task.None? ==>
                tasks == if old(FindsIn(taskId, ACTIVE)) && old(Found())[taskId].progress <= progress
                         then old(FoundAgain()) else old(Found())
      ensures (&& task.None? && taskId in old(tasks)
               && (old(tasks)[taskId].progress <= progress || old(tasks)[taskId].status !in ACTIVE)) ==> IsOver(taskId)
      ensures tasks.Keys == old(tasks.Keys)
    {
      var record := Get(taskId);
      if record.None? || record.value.status !in ACTIVE {
        return None;
      }
      if progress < record.value.progress {
        return None;
      }
      task := Transition(
        taskId, record.value.status, Some(record.value.updatedAt), (t: Task) => t.(progress := progress));
    }

    /** Interrupted, exactly when the task stays active; a cancellation right after shows in the result. */
    method InterruptTask(taskId: string) returns (task: Option<Task>)
      modifies this
      ensures task.Some? <==> old(StaysIn(taskId, ACTIVE))
      ensures task.Some? ==>
                && tasks == Written(
                     old(FoundAgain()), taskId, old(Found())[taskId].(status := Interrupted), old(tick) + 1)
                && task == Some(tasks[taskId]) && (task.value.status.Interrupted? || task.value.status.Cancelled?)
      ensures task.None? ==> tasks == if old(FindsIn(taskId, ACTIVE)) then old(FoundAgain()) else old(Found())
      ensures taskId in old(tasks) ==> IsOver(taskId)
      ensures tasks.Keys == old(tasks.Keys)
    {
      var record := Get(taskId);
      if record.None? || record.value.status !in ACTIVE {
        return None;
      }
      task := Transition(taskId, record.value.status, None, (t: Task) => t.(status := Interrupted));
    }

    method BeginVerification(taskId: string) returns (task: Option<Task>)
      modifies this
      ensures task.Some? <==>
                taskId in old(tasks) && old(tasks)[taskId].status.Running? && old(IsLeftAlone(taskId, 1))
      ensures task.Some? ==>
                && tasks == Written(old(Found()), taskId, old(tasks)[taskId].(status := Verifying), old(tick))
                && task == Some(tasks[taskId]) && tick == old(tick) + 2
                && task.value.status == if taskId in cancelledAt(old(tick) + 1) then Cancelled else Verifying
      ensures task.None? ==> tasks == old(Found())
      ensures task.None? && taskId in old(tasks) && old(tasks)[taskId].status in {Running, Cancelled} ==> IsOver(taskId)
      ensures tasks.Keys == old(tasks.Keys)
    {
      if taskId in tasks && tasks[taskId].status.Running? {
        FoundUnlessCancelled(taskId);
        WrittenUnlessCancelled(Found(), taskId, tasks[taskId].(status := Verifying), tick);
      }
      task := Transition(taskId, Running, None, (t: Task) => t.(status := Verifying));
    }

    /** Completes exactly a task found in verification; once completed it cannot be cancelled any more. */
    method CompleteTask(taskId: string, summary: string) returns (task: Option<Task>)
      modifies this
      ensures task.Some? <==>
                taskId in old(tasks) && old(tasks)[taskId].status.Verifying? && old(IsLeftAlone(taskId, 1))
      ensures task.Some? ==>
                && task.value == old(tasks)[taskId].(
                     status := Completed, progress := 100, resultSummary := Some(summary), updatedAt := old(tick))
                && taskId in tasks && tasks[taskId] == task.value
      ensures task.None? ==> tasks == old(Found())
      ensures task.None? && taskId in old(tasks) && old(tasks)[taskId].status in {Verifying, Cancelled} ==>
                IsOver(taskId)
      ensures OthersOnlyCancelled(old(tasks), tasks, taskId)
    {
      if taskId in tasks && tasks[taskId].status.Verifying? {
        FoundUnlessCancelled(taskId);
      }
      task := Transition(taskId, Verifying, None,
                         (t: Task) => t.(status := Completed, progress := 100, resultSummary := Some(summary)));
    }

    method FailTask(taskId: string) returns (task: Option<Task>)
      modifies this
      ensures task.Some? <==> old(StaysIn(taskId, UNFINISHED))
      ensures task.Some? ==>
                && tasks == Written(
                     old(FoundAgain()), taskId, old(Found())[taskId].(status := Failed), old(tick) + 1)
                && task == Some(tasks[taskId]) && (task.value.status.Failed? || task.value.status.Cancelled?)
      ensures task.None? ==> tasks == if old(FindsIn(taskId, UNFINISHED)) then old(FoundAgain()) else old(Found())
      ensures taskId in old(tasks) ==> IsOver(taskId)
      ensures tasks.Keys == old(tasks.Keys)
    {
      var record := Get(taskId);
      if record.None? || record.value.status !in UNFINISHED {
        return None;
      }
      task := Transition(taskId, record.value.status, None, (t: Task) => t.(status := Failed));
    }

    method RetryTask(taskId: string) returns (task: Option<Task>)
      modifies this
      ensures task.Some? <==> old(StaysIn(taskId, RETRYABLE))
      ensures task.Some? ==>
                && tasks == Written(
                     old(FoundAgain()), taskId,
                     old(Found())[taskId].(status := Queued, progress := 0, resultSummary := None), old(tick) + 1)
                && task == Some(tasks[taskId]) && tick == old(tick) + 3
                && task.value.selectedPath == old(tasks)[taskId].selectedPath
      ensures task.None? ==> tasks == if old(FindsIn(taskId, RETRYABLE)) then old(FoundAgain()) else old(Found())
      ensures tasks.Keys == old(tasks.Keys)
    {
      var record := Get(taskId);
      if record.None? || record.value.status !in RETRYABLE {
        return None;
      }
      task := Transition(taskId, record.value.status, None,
                         (t: Task) => t.(status := Queued, progress := 0, resultSummary := None));
    }

    /**
     A task found cancelled already, or one that is cancelled now; afterwards nothing is left to cancel.
     When somebody else cancels it between the look and the write the answer is None all the same.
     */
    method CancelTask(taskId: string) returns (task: Option<Task>)
      modifies this
      ensures task.Some? <==>
                && taskId in old(Found())
                && (old(Found())[taskId].status.Cancelled?
                    || (CanCancel(old(Found())[taskId].status)
                        && old(FoundAgain())[taskId].status == old(Found())[taskId].status))
      ensures task.Some? ==> taskId in tasks && tasks[taskId] == task.value && task.value.status.Cancelled?
      ensures taskId in tasks ==> !CanCancel(tasks[taskId].status)
      ensures AreOnlyCancelled(old(tasks), tasks)
    {
      var record := Get(taskId);
      if record.None? || record.value.status.Cancelled? {
        return record;
      }
      if !CanCancel(record.value.status) {
        return None;
      }
      hide AfterCancelling;
      CancellingOnlyCancels(tasks, cancelledAt(tick), tick);
      task := CancelFrom(taskId, record.value.status, old(tasks));
    }

    /** The guarded write of a cancellation. */
    method CancelFrom(taskId: string, expected: TaskStatus, ghost before: map<string, Task>)
      returns (task: Option<Task>)
      requires CanCancel(expected) && AreOnlyCancelled(before, tasks)
      requires taskId in tasks ==> tasks[taskId].status == expected
      modifies this
      ensures task.Some? <==> taskId in old(Found()) && old(Found())[taskId].status == expected
      ensures task.Some? ==> taskId in tasks && tasks[taskId] == task.value && task.value.status.Cancelled?
      ensures task.None? ==> tasks == old(Found())
      ensures AreOnlyCancelled(before, tasks)
    {
      ghost var found, at := Found(), tick;
      CancellingOnlyCancels(tasks, cancelledAt(tick), tick);
      OnlyCancelledTwice(before, tasks, found);
      hide AfterCancelling;
      var cancel := (t: Task) => t.(status := Cancelled);
      task := Transition(taskId, expected, None, cancel);
      if task.Some? {
        FinalStays(found, taskId, cancel(found[taskId]), at);
        WritingLeavesOthers(before, found, taskId, cancel(found[taskId]), at);
      }
    }
  }
}
