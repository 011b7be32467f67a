/** How the runs of a board's tasks end: what the board reports follows from what happened to the task. */
module TaskOutcomes {
  import opened Types
  import opened AssistantTasks
  import opened TaskBoards

  // ---- What happened ----

  /** The task was cancelled after it had been handed to the board. */
  ghost predicate CancelledSince(steps: seq<Step>, task: TaskId)
  {
    exists e, i :: 0 <= e < i < |steps| && steps[e] == Enqueue(task) && steps[i] == Cancel(task)
  }

  lemma CancelledNext(steps: seq<Step>, step: Step, task: TaskId)
    ensures CancelledSince(steps + [step], task) <==>
              CancelledSince(steps, task) || (step == Cancel(task) && Enqueue(task) in steps)
  {
    var all := steps + [step];
    if CancelledSince(steps, task) {
      var e, i :| 0 <= e < i < |steps| && steps[e] == Enqueue(task) && steps[i] == Cancel(task);
      assert all[e] == Enqueue(task) && all[i] == Cancel(task);
    }
    if step == Cancel(task) && Enqueue(task) in steps {
      var e :| 0 <= e < |steps| && steps[e] == Enqueue(task);
      assert all[e] == Enqueue(task) && all[|steps|] == Cancel(task);
    }
    if CancelledSince(all, task) {
      var e, i :| 0 <= e < i < |all| && all[e] == Enqueue(task) && all[i] == Cancel(task);
      assert steps[e] == Enqueue(task);
      if i < |steps| {
        assert steps[i] == Cancel(task);
      }
    }
  }

  /** The terminal event a step calls for, if it ends the task's run: a report counts unless the task was
      cancelled before, and then it counts as cancelled. */
  function Ending(step: Step, task: TaskId, cancelled: bool, polled: bool): Option<TaskRunEvent>
  {
    match step
    case Poll(other) => if other == task && cancelled then Some(RunCancelled(task)) else None
    case Unwind(other) => if other == task && polled then Some(RunFailed(task)) else None
    case Finish(other, result) =>
      if other != task then None
      else
        Some(match result
             case Report(status) => if cancelled then RunCancelled(task) else RunCompleted(task, status)
             case WasCancelled => RunCancelled(task)
             case Broke => RunFailed(task))
    case _ => None
  }

  ghost function EndedBy(steps: seq<Step>, task: TaskId): Option<TaskRunEvent>
    requires steps != []
  {
    var rest, last := steps[..|steps| - 1], steps[|steps| - 1];
    Ending(last, task, CancelledSince(rest, task), Poll(task) in rest)
  }

  /** The run of the task has ended with this event, which is on its way or already in the log. */
  predicate EndedWith(b: Board, task: TaskId, event: TaskRunEvent)
  {
    && task in b.workers
    && match b.workers[task]
       case Chosen(chosen) => chosen == event
       case Done(at) => at < |b.log| && b.log[at] == event
       case _ => false
  }

  // ---- The token tells whether the task was cancelled ----

  ghost predicate TokenTells(b: Board, steps: seq<Step>, task: TaskId)
  {
    && (task in b.enqueued <==> Enqueue(task) in steps)
    && (task in b.queued ==> !CancelledSince(steps, task))
    && (task in b.running ==> (b.running[task] <==> CancelledSince(steps, task)))
  }

  /** Filling the slots starts waiting tasks with a clear token and leaves everything else alone. */
  lemma {:induction false} FilledTokens(b: Board, task: TaskId)
    requires Steady(b)
    ensures var t := Filled(b);
      && t.enqueued == b.enqueued && t.log == b.log && t.slots == b.slots
      && (task in t.queued ==> task in b.queued)
      && (task in b.running ==> task in t.running && t.running[task] == b.running[task])
      && (task in t.running && task !in b.running ==> task in b.queued && !t.running[task])
      && (forall event :: EndedWith(t, task, event) <==> EndedWith(b, task, event))
    decreases |b.queued|
  {
    hide Steady;
    if |b.running| < b.slots && b.queued != [] {
      StartSteady(b);
      NextIsNew(b);
      FilledTokens(StartedNext(b), task);
    }
  }

  lemma NextIsNew(b: Board)
    requires Steady(b) && b.queued != []
    ensures b.queued[0] !in b.workers && b.queued[0] !in b.running
  {
    hide StoreAgrees, InOrder;
    Waiting(b.enqueued, b.dropped, b.started, b.queued);
    assert b.queued[0] in b.queued;
  }

  lemma CancelTokens(b: Board, other: TaskId, task: TaskId)
    requires Sound(b)
    ensures var t := CancelledTask(b, other);
      && t.enqueued == b.enqueued && t.log == b.log && t.workers == b.workers
      && (task in t.queued ==> task in b.queued && task != other)
      && (task in t.running <==> task in b.running)
      && (task in b.running ==> (t.running[task] <==> b.running[task] || task == other))
  {
    CancelOutcome(b, other);
    CancelChanges(b, other);
    if task in b.running {
      RunsNotWaits(b, task);
    }
    hide Sound;
    QueueShrinks(b, other);
  }

  lemma RunsNotWaits(b: Board, task: TaskId)
    requires Sound(b) && task in b.running
    ensures task !in b.queued && task in b.enqueued
  {
    hide StoreAgrees, InOrder;
    Waiting(b.enqueued, b.dropped, b.started, b.queued);
  }

  lemma QueueShrinks(b: Board, other: TaskId)
    ensures CancelledTask(b, other).enqueued == b.enqueued
    ensures forall task :: task in CancelledTask(b, other).queued ==> task in b.queued
  {
    hide Position, Shortened;
    var index := Position(b.queued, other);
    if index >= 0 {
      ShortenedFewer(b.queued, index);
    }
  }

  lemma ShortenedFewer(queued: seq<TaskId>, index: nat)
    requires index < |queued|
    ensures forall task :: task in Shortened(queued, index) ==> task in queued
  {
  }

  lemma WaitsEnqueued(b: Board)
    requires Sound(b)
    ensures forall task :: task in b.queued ==> task in b.enqueued
  {
    hide StoreAgrees, InOrder, WorkersOk;
    Waiting(b.enqueued, b.dropped, b.started, b.queued);
  }

  lemma TokenStep(b: Board, steps: seq<Step>, step: Step, task: TaskId)
    requires Sound(b) && Enabled(b, step) && TokenTells(b, steps, task)
    ensures TokenTells(Take(b, step), steps + [step], task)
  {
    hide InOrder, WorkersOk, StoreAgrees, Filled, CancelledTask, CancelledSince;
    CancelledNext(steps, step, task);
    match step
    case Enqueue(other) =>
      PushSteady(b, other);
      FilledTokens(Pushed(b, other), task);
      NotYetCancelled(steps, task);
    case Cancel(other) =>
      CancelTokens(b, other, task);
      WaitsEnqueued(b);
      if task in b.running {
        RunsNotWaits(b, task);
      }
    case EndDrain => FilledTokens(b, task);
    case _ =>
  }

  lemma NotYetCancelled(steps: seq<Step>, task: TaskId)
    ensures Enqueue(task) !in steps ==> !CancelledSince(steps, task)
  {
  }

  lemma {:induction false} TokenInRun(maxParallelTasks: nat, store: map<TaskId, TaskStatus>, steps: seq<Step>,
                                      to: Board, task: TaskId)
    requires Runs(NewBoard(maxParallelTasks, store), steps, to)
    ensures TokenTells(to, steps, task)
    decreases |steps|
  {
    hide Take, Enabled, Sound, CancelledSince;
    var from := NewBoard(maxParallelTasks, store);
    NewBoardSound(maxParallelTasks, store);
    NotYetCancelled([], task);
    if steps != [] {
      var rest, last := steps[..|steps| - 1], steps[|steps| - 1];
      var before := RunsLast(from, steps, to);
      ReachableSound(from, rest, before);
      TokenInRun(maxParallelTasks, store, rest, before, task);
      hide TokenTells;
      TokenStep(before, rest, last, task);
      assert steps == rest + [last];
    }
  }

  // ---- How a run ends ----

  lemma EndedStep(b: Board, step: Step, task: TaskId, event: TaskRunEvent, cancelled: bool, polled: bool)
    requires Sound(b) && Enabled(b, step)
    requires task in b.running ==> b.running[task] == cancelled
    requires Polled(b, task) <==> polled
    ensures EndedWith(Take(b, step), task, event) <==>
              EndedWith(b, task, event) || Ending(step, task, cancelled, polled) == Some(event)
  {
    hide Sound, Enabled, Take, Polled, EndedWith, Ending;
    if task in b.workers {
      WorkerFits(b, task);
    }
    if step.OfWorker() {
      WorkerEnds(b, step, task, event, cancelled, polled);
    } else {
      BoardEndsNone(b, step, task, event, cancelled, polled);
    }
  }

  lemma BoardEndsNone(b: Board, step: Step, task: TaskId, event: TaskRunEvent, cancelled: bool, polled: bool)
    requires Sound(b) && Enabled(b, step) && !step.OfWorker()
    ensures EndedWith(Take(b, step), task, event) <==> EndedWith(b, task, event)
    ensures Ending(step, task, cancelled, polled) == None
  {
    hide InOrder, WorkersOk, StoreAgrees, Filled, CancelledTask;
    match step
    case Create(_) =>
    case Enqueue(other) =>
      PushSteady(b, other);
      FilledTokens(Pushed(b, other), task);
    case Cancel(other) => CancelChanges(b, other);
    case BeginDrain =>
    case ApplyNext =>
    case EndDrain => FilledTokens(b, task);
  }

  lemma WorkerEnds(b: Board, step: Step, task: TaskId, event: TaskRunEvent, cancelled: bool, polled: bool)
    requires step.OfWorker() && Enabled(b, step)
    requires task in b.workers && b.workers[task].Done? ==> b.workers[task].at < |b.log|
    requires task in b.workers && !b.workers[task].Done? ==> (Flagged(b, task) <==> cancelled)
    requires Polled(b, task) <==> polled
    ensures EndedWith(Take(b, step), task, event) <==>
              EndedWith(b, task, event) || Ending(step, task, cancelled, polled) == Some(event)
  {
    hide Flagged, Filled, CancelledTask;
    if step.task != task {
      OthersWork(b, step, task, event);
    } else {
      match step
      case Poll(_) =>
      case Emit(_) =>
      case Finish(_, _) =>
      case Send(_) =>
      case Unwind(_) =>
    }
  }

  lemma OthersWork(b: Board, step: Step, task: TaskId, event: TaskRunEvent)
    requires step.OfWorker() && Enabled(b, step) && step.task != task
    requires task in b.workers && b.workers[task].Done? ==> b.workers[task].at < |b.log|
    ensures EndedWith(Take(b, step), task, event) <==> EndedWith(b, task, event)
  {
    hide Flagged, Filled, CancelledTask, ChosenEvent;
  }

  lemma WorkerFits(b: Board, task: TaskId)
    requires Sound(b) && task in b.workers
    ensures b.workers[task].Done? ==> b.workers[task].at < |b.log|
    ensures !b.workers[task].Done? ==> task in b.running
  {
    hide InOrder, StoreAgrees;
    assert WorkerOk(b, task);
  }

  /** A run that has ended did so at one step, and the event is the one that step calls for. */
  lemma {:induction false} EndedInRun(maxParallelTasks: nat, store: map<TaskId, TaskStatus>, steps: seq<Step>,
                                      to: Board, task: TaskId, event: TaskRunEvent)
    requires Runs(NewBoard(maxParallelTasks, store), steps, to)
    ensures EndedWith(to, task, event) <==>
              exists j :: 0 < j <= |steps| && EndedBy(steps[..j], task) == Some(event)
    decreases |steps|
  {
    hide Take, Enabled, Sound, Ending, CancelledSince;
    var from := NewBoard(maxParallelTasks, store);
    NewBoardSound(maxParallelTasks, store);
    if steps != [] {
      hide EndedWith;
      var rest, last := steps[..|steps| - 1], steps[|steps| - 1];
      var before := RunsLast(from, steps, to);
      ReachableSound(from, rest, before);
      EndedInRun(maxParallelTasks, store, rest, before, task, event);
      TokenInRun(maxParallelTasks, store, rest, before, task);
      PolledInRun(maxParallelTasks, store, rest, before, task);
      EndedStep(before, last, task, event, CancelledSince(rest, task), Poll(task) in rest);
      assert steps[..|steps|] == steps;
      forall j | 0 < j <= |rest| ensures steps[..j] == rest[..j] {
      }
    }
  }

  /** What the store says once the board has seen the event. */
  lemma StoreAfter(b: Board, task: TaskId, event: TaskRunEvent)
    requires Sound(b) && EndedWith(b, task, event) && Over(b, task) && task in b.store
    ensures event.Terminal() && b.store[task] == event.Status()
  {
    hide InOrder;
    assert WorkerOk(b, task);
    assert StatusFits(b, task, b.store[task]);
  }

  /** The prefix of a run that ends with the step at `j`. */
  lemma UpTo(steps: seq<Step>, j: nat)
    requires j < |steps|
    ensures steps[..j + 1] != [] && steps[..j + 1][..j] == steps[..j] && steps[..j + 1][j] == steps[j]
    ensures forall step :: step in steps[..j] ==> step in steps
  {
  }

  /** A report that arrives with the token clear is what the task ends with: its terminal event is the
      completion with the reported status, and once the board has seen it the store says Completed,
      WaitingForInput or Failed, as the status was committed, waiting or rejected. */
  lemma ReportCompletes(maxParallelTasks: nat, store: map<TaskId, TaskStatus>, steps: seq<Step>, to: Board,
                        task: TaskId, j: nat, status: NodeStatus)
    requires Runs(NewBoard(maxParallelTasks, store), steps, to)
    requires j < |steps| && steps[j] == Finish(task, Report(status)) && !CancelledSince(steps[..j], task)
    ensures EndedWith(to, task, RunCompleted(task, status))
    ensures task in to.store && Over(to, task) ==> to.store[task] == StatusFromNode(status)
    ensures task in to.store && Over(to, task) ==>
      && (status == NodeStatus.Committed ==> to.store[task] == Completed)
      && (status == WaitingForInfo ==> to.store[task] == WaitingForInput)
      && (status == Rejected || status == Pruned ==> to.store[task] == TaskStatus.Failed)
  {
    hide Runs, Sound, EndedWith, CancelledSince;
    UpTo(steps, j);
    assert EndedBy(steps[..j + 1], task) == Some(RunCompleted(task, status));
    EndedInRun(maxParallelTasks, store, steps, to, task, RunCompleted(task, status));
    SoundInRun(maxParallelTasks, store, steps, to);
    if task in to.store && Over(to, task) {
      StoreAfter(to, task, RunCompleted(task, status));
    }
  }

  /** A run that breaks fails its task; one that notices the cancellation, or reports after it, leaves its
      task cancelled. */
  lemma OtherEnds(maxParallelTasks: nat, store: map<TaskId, TaskStatus>, steps: seq<Step>, to: Board,
                  task: TaskId, j: nat, result: RunResult)
    requires Runs(NewBoard(maxParallelTasks, store), steps, to)
    requires j < |steps| && steps[j] == Finish(task, result)
    requires result.Report? ==> CancelledSince(steps[..j], task)
    ensures EndedWith(to, task, if result.Broke? then RunFailed(task) else RunCancelled(task))
    ensures task in to.store && Over(to, task) ==>
      to.store[task] == if result.Broke? then TaskStatus.Failed else TaskStatus.Cancelled
  {
    hide Runs, Sound, EndedWith, CancelledSince;
    var event := if result.Broke? then RunFailed(task) else RunCancelled(task);
    UpTo(steps, j);
    assert EndedBy(steps[..j + 1], task) == Some(event);
    EndedInRun(maxParallelTasks, store, steps, to, task, event);
    SoundInRun(maxParallelTasks, store, steps, to);
    if task in to.store && Over(to, task) {
      StoreAfter(to, task, event);
    }
  }

  /** And conversely: a task is reported completed only with a status its run reported before it was
      cancelled, cancelled only if it was cancelled or its run said so, and failed only if its run broke
      or its worker was torn down at work. */
  lemma LoggedForAReason(maxParallelTasks: nat, store: map<TaskId, TaskStatus>, steps: seq<Step>, to: Board, k: nat)
    requires Runs(NewBoard(maxParallelTasks, store), steps, to)
    requires k < |to.log| && to.log[k].Terminal()
    ensures var task := to.log[k].task;
      match to.log[k]
      case RunCompleted(_, status) =>
        exists j :: 0 <= j < |steps| && steps[j] == Finish(task, Report(status)) && !CancelledSince(steps[..j], task)
      case RunCancelled(_) => CancelledSince(steps, task) || Finish(task, WasCancelled) in steps
      case RunFailed(_) => Finish(task, Broke) in steps || (Unwind(task) in steps && Poll(task) in steps)
      case _ => false
  {
    hide Runs, Sound;
    var event := to.log[k];
    var task := event.task;
    SoundInRun(maxParallelTasks, store, steps, to);
    TerminalIsOwn(to, k);
    hide EndedWith, EndedBy;
    EndedInRun(maxParallelTasks, store, steps, to, task, event);
    var j :| 0 < j <= |steps| && EndedBy(steps[..j], task) == Some(event);
    EndedForAReason(steps, task, j - 1, event);
  }

  lemma EndedForAReason(steps: seq<Step>, task: TaskId, j: nat, event: TaskRunEvent)
    requires j < |steps| && EndedBy(steps[..j + 1], task) == Some(event) && event.task == task
    ensures
      match event
      case RunCompleted(_, status) => steps[j] == Finish(task, Report(status)) && !CancelledSince(steps[..j], task)
      case RunCancelled(_) => CancelledSince(steps, task) || Finish(task, WasCancelled) in steps
      case RunFailed(_) => Finish(task, Broke) in steps || (Unwind(task) in steps && Poll(task) in steps)
      case _ => false
  {
    UpTo(steps, j);
    CancelledStays(steps, j, task);
    hide CancelledSince;
    assert steps[j] in steps;
  }

  lemma CancelledStays(steps: seq<Step>, j: nat, task: TaskId)
    requires j <= |steps|
    ensures CancelledSince(steps[..j], task) ==> CancelledSince(steps, task)
  {
    if CancelledSince(steps[..j], task) {
      var e, i :| 0 <= e < i < j && steps[..j][e] == Enqueue(task) && steps[..j][i] == Cancel(task);
      assert steps[e] == Enqueue(task) && steps[i] == Cancel(task);
    }
  }

  lemma TerminalIsOwn(b: Board, k: nat)
    requires Sound(b) && k < |b.log| && b.log[k].Terminal()
    ensures EndedWith(b, b.log[k].task, b.log[k])
  {
    hide InOrder, StoreAgrees;
    assert EntryOk(b, k);
  }

  lemma SoundInRun(maxParallelTasks: nat, store: map<TaskId, TaskStatus>, steps: seq<Step>, to: Board)
    requires Runs(NewBoard(maxParallelTasks, store), steps, to)
    ensures Sound(to)
  {
    hide Runs, Sound;
    NewBoardSound(maxParallelTasks, store);
    ReachableSound(NewBoard(maxParallelTasks, store), steps, to);
  }

  /** A task nobody cancelled is never reported cancelled unless its run said it was. */
  lemma NotCancelledUnasked(maxParallelTasks: nat, store: map<TaskId, TaskStatus>, steps: seq<Step>, to: Board,
                            task: TaskId)
    requires Runs(NewBoard(maxParallelTasks, store), steps, to)
    requires Cancel(task) !in steps && Finish(task, WasCancelled) !in steps
    ensures RunCancelled(task) !in to.log
  {
    if RunCancelled(task) in to.log {
      var k :| 0 <= k < |to.log| && to.log[k] == RunCancelled(task);
      LoggedForAReason(maxParallelTasks, store, steps, to, k);
    }
  }

  // ---- How many run at once ----

  lemma SlotsStep(b: Board, step: Step)
    requires Sound(b) && Enabled(b, step)
    ensures Take(b, step).slots == b.slots
  {
    hide InOrder, WorkersOk, StoreAgrees, Filled, CancelledTask;
    match step
    case Enqueue(task) =>
      PushSteady(b, task);
      FilledSteady(Pushed(b, task));
    case Cancel(task) => CancelKeepsSlots(b, task);
    case EndDrain => FilledSteady(b);
    case _ =>
  }

  /** A board never runs more tasks at once than it was set up for, and at least one; and while a task
      waits, it runs that many. */
  lemma {:induction false} ParallelBound(maxParallelTasks: nat, store: map<TaskId, TaskStatus>, steps: seq<Step>,
                                         to: Board)
    requires Runs(NewBoard(maxParallelTasks, store), steps, to)
    ensures var bound := if maxParallelTasks == 0 then 1 else maxParallelTasks;
      && to.slots == bound && |to.running| <= bound
      && (!to.draining && to.queued != [] ==> |to.running| == bound)
    decreases |steps|
  {
    hide Take, Enabled, Sound;
    var from := NewBoard(maxParallelTasks, store);
    NewBoardSound(maxParallelTasks, store);
    if steps != [] {
      var rest, last := steps[..|steps| - 1], steps[|steps| - 1];
      var before := RunsLast(from, steps, to);
      ReachableSound(from, rest, before);
      ParallelBound(maxParallelTasks, store, rest, before);
      SlotsStep(before, last);
      SoundStep(before, last);
    }
    SoundSlots(to);
  }
}
