/** The task board: a bounded number of tasks runs in parallel, the others wait in order. Workers run on
    their own and report through a channel that the board drains. */
module TaskBoards {
  import opened Types
  import opened AssistantTasks
  import TaskRuns

  type TaskId = string

  datatype TaskRunEvent =
    | RunProgress(task: TaskId)
    | RunCompleted(task: TaskId, status: NodeStatus)
    | RunFailed(task: TaskId)
    | RunCancelled(task: TaskId)
  {
    predicate Terminal() { !RunProgress? }

    /** The status a terminal event leaves the task with. */
    function Status(): TaskStatus
      requires Terminal()
    {
      match this
      case RunCompleted(_, status) => StatusFromNode(status)
      case RunFailed(_) => TaskStatus.Failed
      case RunCancelled(_) => TaskStatus.Cancelled
    }
  }

  datatype RunResult = Report(status: NodeStatus) | WasCancelled | Broke

  /** A worker is spawned but not yet polled; at work, its guard armed; about to send the event it chose;
      done, with its terminal event at a position of the log; or it vanished before its first poll. */
  datatype Worker = Spawned | Working | Chosen(event: TaskRunEvent) | Done(at: nat) | Vanished

  /** The channel is the part of the log that has not been applied. `running` holds the token flag of
      each running task. `enqueued`, `started` and `dropped` record what happened so far. */
  datatype Board = Board(
    slots: nat,
    queued: seq<TaskId>,
    running: map<TaskId, bool>,
    workers: map<TaskId, Worker>,
    log: seq<TaskRunEvent>,
    applied: nat,
    store: map<TaskId, TaskStatus>,
    draining: bool,
    enqueued: seq<TaskId>,
    started: seq<TaskId>,
    dropped: set<TaskId>)

  function NewBoard(maxParallelTasks: nat, store: map<TaskId, TaskStatus>): Board
  {
    Board(if maxParallelTasks < 1 then 1 else maxParallelTasks, [], map[], map[], [], 0, store, false, [], [], {})
  }

  // ---- What the board does ----

  function WithStatus(store: map<TaskId, TaskStatus>, task: TaskId, status: TaskStatus): map<TaskId, TaskStatus>
  {
    if task in store then store[task := status] else store
  }

  function StartedNext(b: Board): Board
    requires b.queued != []
  {
    var task := b.queued[0];
    b.(queued := b.queued[1..],
       running := b.running[task := false],
       workers := b.workers[task := Spawned],
       store := WithStatus(b.store, task, TaskStatus.Running),
       started := b.started + [task])
  }

  function Filled(b: Board): Board
    decreases |b.queued|
  {
    if |b.running| < b.slots && b.queued != [] then Filled(StartedNext(b)) else b
  }

  function Pushed(b: Board, task: TaskId): Board
  {
    b.(queued := b.queued + [task], store := WithStatus(b.store, task, Queued), enqueued := b.enqueued + [task])
  }

  function Applied(b: Board, event: TaskRunEvent): Board
  {
    if event.Terminal()
    then b.(running := b.running - {event.task}, store := WithStatus(b.store, event.task, event.Status()))
    else b
  }

  function Position(queued: seq<TaskId>, task: TaskId): (index: int)
    ensures -1 <= index < |queued|
    ensures index >= 0 ==> queued[index] == task && task !in queued[..index]
    ensures index < 0 ==> task !in queued
  {
    if queued == [] then -1
    else if queued[0] == task then 0
    else
      var rest := Position(queued[1..], task);
      assert queued == [queued[0]] + queued[1..];
      if rest < 0 then -1
      else
        assert queued[..rest + 1] == [queued[0]] + queued[1..][..rest];
        rest + 1
  }

  function Shortened(queued: seq<TaskId>, index: nat): seq<TaskId>
    requires index < |queued|
  {
    queued[..index] + queued[index + 1..]
  }

  function CancelledTask(b: Board, task: TaskId): Board
  {
    var index := Position(b.queued, task);
    if index >= 0 then
      b.(queued := Shortened(b.queued, index),
         store := WithStatus(b.store, task, TaskStatus.Cancelled),
         dropped := b.dropped + {task})
    else if task in b.running then
      b.(running := b.running[task := true], store := WithStatus(b.store, task, TaskStatus.Cancelled))
    else b
  }

  // ---- What a worker does ----

  predicate Flagged(b: Board, task: TaskId) { task in b.running && b.running[task] }

  /** Sending a terminal event disarms the guard in the same breath. */
  function Sent(b: Board, task: TaskId, event: TaskRunEvent): Board
  {
    b.(log := b.log + [event], workers := b.workers[task := Done(|b.log|)])
  }

  /** A report that arrives after the token was set counts as cancelled. */
  function ChosenEvent(b: Board, task: TaskId, result: RunResult): TaskRunEvent
  {
    match result
    case Report(status) => if Flagged(b, task) then RunCancelled(task) else RunCompleted(task, status)
    case WasCancelled => RunCancelled(task)
    case Broke => RunFailed(task)
  }

  // ---- The step system ----

  datatype Step =
    | Create(task: TaskId)
    | Enqueue(task: TaskId)
    | Cancel(task: TaskId)
    | BeginDrain
    | ApplyNext
    | EndDrain
    | Poll(task: TaskId)
    | Emit(task: TaskId)
    | Finish(task: TaskId, result: RunResult)
    | Send(task: TaskId)
    | Unwind(task: TaskId)
  {
    predicate OfWorker() { Poll? || Emit? || Finish? || Send? || Unwind? }
  }

  predicate WorkerIs(b: Board, task: TaskId, worker: Worker) { task in b.workers && b.workers[task] == worker }

  /** Task ids are new when they are enqueued; a drain ends when it finds the channel empty; a run that
      ends with a report ends with a final status. */
  predicate Enabled(b: Board, step: Step)
  {
    match step
    case Create(task) => task !in b.store && task !in b.enqueued && !b.draining
    case Enqueue(task) => task !in b.enqueued && !b.draining
    case Cancel(task) => !b.draining
    case BeginDrain => !b.draining
    case ApplyNext => b.draining && b.applied < |b.log|
    case EndDrain => b.draining && b.applied == |b.log|
    case Poll(task) => WorkerIs(b, task, Spawned)
    case Emit(task) => WorkerIs(b, task, Working)
    case Finish(task, result) => WorkerIs(b, task, Working) && (result.Report? ==> TaskRuns.Final(result.status))
    case Send(task) => task in b.workers && b.workers[task].Chosen?
    case Unwind(task) => WorkerIs(b, task, Spawned) || WorkerIs(b, task, Working)
  }

  function Take(b: Board, step: Step): Board
    requires Enabled(b, step)
  {
    match step
    case Create(task) => b.(store := b.store[task := Created])
    case Enqueue(task) => Filled(Pushed(b, task))
    case Cancel(task) => CancelledTask(b, task)
    case BeginDrain => b.(draining := true)
    case ApplyNext => Applied(b, b.log[b.applied]).(applied := b.applied + 1)
    case EndDrain => Filled(b).(draining := false)
    case Poll(task) =>
      if Flagged(b, task) then Sent(b, task, RunCancelled(task)) else b.(workers := b.workers[task := Working])
    case Emit(task) => b.(log := b.log + [RunProgress(task)])
    case Finish(task, result) => b.(workers := b.workers[task := Chosen(ChosenEvent(b, task, result))])
    case Send(task) => Sent(b, task, b.workers[task].event)
    case Unwind(task) =>
      if b.workers[task] == Working then Sent(b, task, RunFailed(task)) else b.(workers := b.workers[task := Vanished])
  }

  ghost predicate Runs(from: Board, steps: seq<Step>, to: Board)
    decreases |steps|
  {
    if steps == [] then to == from
    else
      var rest, last := steps[..|steps| - 1], steps[|steps| - 1];
      exists before :: Runs(from, rest, before) && Enabled(before, last) && to == Take(before, last)
  }

  // ---- Order ----

  /** A list without the tasks that were dropped. */
  function Kept(tasks: seq<TaskId>, dropped: set<TaskId>): seq<TaskId>
  {
    if tasks == [] then []
    else
      var last := |tasks| - 1;
      Kept(tasks[..last], dropped) + (if tasks[last] in dropped then [] else [tasks[last]])
  }

  predicate Distinct(tasks: seq<TaskId>)
  {
    forall j, k :: 0 <= j < k < |tasks| ==> tasks[j] != tasks[k]
  }

  lemma {:induction false} KeptMembers(tasks: seq<TaskId>, dropped: set<TaskId>)
    ensures forall task :: task in Kept(tasks, dropped) <==> task in tasks && task !in dropped
    decreases |tasks|
  {
    if tasks != [] {
      var last := |tasks| - 1;
      KeptMembers(tasks[..last], dropped);
      assert tasks == tasks[..last] + [tasks[last]];
    }
  }

  lemma {:induction false} KeptDistinct(tasks: seq<TaskId>, dropped: set<TaskId>)
    requires Distinct(tasks)
    ensures Distinct(Kept(tasks, dropped))
    decreases |tasks|
  {
    if tasks != [] {
      var last := |tasks| - 1;
      KeptDistinct(tasks[..last], dropped);
      KeptMembers(tasks[..last], dropped);
      assert tasks[last] !in tasks[..last];
    }
  }

  lemma {:induction false} KeptTwice(tasks: seq<TaskId>, dropped: set<TaskId>, task: TaskId)
    ensures Kept(tasks, dropped + {task}) == Kept(Kept(tasks, dropped), {task})
    decreases |tasks|
  {
    if tasks != [] {
      var last := |tasks| - 1;
      KeptTwice(tasks[..last], dropped, task);
      var kept := Kept(tasks, dropped);
      if tasks[last] !in dropped {
        assert kept[..|kept| - 1] == Kept(tasks[..last], dropped);
      } else {
        assert kept == Kept(tasks[..last], dropped);
      }
    }
  }

  lemma KeptLast(tasks: seq<TaskId>, task: TaskId, dropped: set<TaskId>)
    ensures Kept(tasks + [task], dropped) == Kept(tasks, dropped) + (if task in dropped then [] else [task])
  {
    assert (tasks + [task])[..|tasks|] == tasks;
  }

  lemma {:induction false} KeptApart(first: seq<TaskId>, second: seq<TaskId>, dropped: set<TaskId>)
    ensures Kept(first + second, dropped) == Kept(first, dropped) + Kept(second, dropped)
    decreases |second|
  {
    if second == [] {
      assert first + second == first;
    } else {
      hide Kept;
      var rest, task := second[..|second| - 1], second[|second| - 1];
      assert second == rest + [task];
      assert first + second == (first + rest) + [task];
      KeptApart(first, rest, dropped);
      KeptLast(rest, task, dropped);
      KeptLast(first + rest, task, dropped);
    }
  }

  lemma {:induction false} KeptAll(tasks: seq<TaskId>, dropped: set<TaskId>)
    requires forall task :: task in tasks ==> task !in dropped
    ensures Kept(tasks, dropped) == tasks
    decreases |tasks|
  {
    if tasks != [] {
      var last := |tasks| - 1;
      assert tasks[last] in tasks;
      KeptAll(tasks[..last], dropped);
      assert tasks == tasks[..last] + [tasks[last]];
    }
  }

  // ---- The invariant ----

  /** Every task handed to the board that was not cancelled while waiting has started or still waits, in
      the order it came. */
  ghost predicate InOrder(enqueued: seq<TaskId>, dropped: set<TaskId>, started: seq<TaskId>, queued: seq<TaskId>)
  {
    && Distinct(enqueued) && (forall task :: task in dropped ==> task in enqueued)
    && Kept(enqueued, dropped) == started + queued
  }

  /** The board has seen the worker's terminal event. */
  predicate Over(b: Board, task: TaskId)
  {
    task in b.workers && b.workers[task].Done? && b.workers[task].at < b.applied
  }

  predicate Reported(event: TaskRunEvent)
  {
    event.RunCompleted? ==> TaskRuns.Final(event.status)
  }

  predicate Conclusive(event: TaskRunEvent, task: TaskId)
  {
    event.Terminal() && event.task == task && Reported(event)
  }

  /** A worker that is done has its terminal event in the log; it runs until the board has seen it. */
  predicate WorkerOk(b: Board, task: TaskId)
    requires task in b.workers
  {
    && (b.workers[task].Done? ==> b.workers[task].at < |b.log| && Conclusive(b.log[b.workers[task].at], task))
    && (b.workers[task].Chosen? ==> Conclusive(b.workers[task].event, task))
    && (task in b.running <==> !Over(b, task))
  }

  /** Every terminal event is the one its worker ended with. */
  predicate EntryOk(b: Board, k: nat)
    requires k < |b.log|
  {
    b.log[k].Terminal() ==> WorkerIs(b, b.log[k].task, Done(k))
  }

  ghost predicate WorkersOk(b: Board)
  {
    && b.applied <= |b.log|
    && b.running.Keys <= b.workers.Keys
    && (forall task :: task in b.workers <==> task in b.started)
    && (forall task :: task in b.workers ==> WorkerOk(b, task))
    && (forall k :: 0 <= k < |b.log| ==> EntryOk(b, k))
  }

  /** The status the board's view of a task calls for. */
  predicate StatusFits(b: Board, task: TaskId, status: TaskStatus)
  {
    && (task in b.queued ==> status == Queued)
    && (task in b.running ==> status == if b.running[task] then TaskStatus.Cancelled else TaskStatus.Running)
    && (task in b.dropped ==> status == TaskStatus.Cancelled)
    && (Over(b, task) && b.workers[task].at < |b.log| && b.log[b.workers[task].at].Terminal() ==>
          status == b.log[b.workers[task].at].Status())
  }

  ghost predicate StoreAgrees(b: Board)
  {
    forall task :: task in b.store ==> StatusFits(b, task, b.store[task])
  }

  /** The invariant inside an operation, before the free slots are filled. */
  ghost predicate Steady(b: Board)
  {
    && InOrder(b.enqueued, b.dropped, b.started, b.queued)
    && 1 <= b.slots && |b.running| <= b.slots
    && WorkersOk(b) && StoreAgrees(b)
  }

  /** At rest, a waiting task means that no slot is free. */
  ghost predicate Sound(b: Board)
  {
    Steady(b) && (!b.draining && b.queued != [] ==> |b.running| == b.slots)
  }

  // ---- Every step keeps it ----

  /** A waiting task has neither started nor been dropped, and waits only once. */
  lemma Waiting(enqueued: seq<TaskId>, dropped: set<TaskId>, started: seq<TaskId>, queued: seq<TaskId>)
    requires InOrder(enqueued, dropped, started, queued)
    ensures forall task :: task in queued ==> task in enqueued && task !in started && task !in dropped
    ensures forall task :: task in started ==> task in enqueued && task !in dropped
    ensures Distinct(queued) && Distinct(started)
  {
    KeptDistinct(enqueued, dropped);
    KeptMembers(enqueued, dropped);
    hide Kept;
    var all := Kept(enqueued, dropped);
    assert forall k :: 0 <= k < |queued| ==> queued[k] == all[|started| + k];
    assert forall k :: 0 <= k < |started| ==> started[k] == all[k];
    forall task | task in queued ensures task in all && task !in started {
      var k :| 0 <= k < |queued| && queued[k] == task;
    }
  }

  lemma StartInOrder(b: Board)
    requires InOrder(b.enqueued, b.dropped, b.started, b.queued) && b.queued != []
    ensures var t := StartedNext(b); InOrder(t.enqueued, t.dropped, t.started, t.queued)
  {
    hide Kept;
    assert b.queued == [b.queued[0]] + b.queued[1..];
    assert b.started + b.queued == (b.started + [b.queued[0]]) + b.queued[1..];
  }

  lemma StartWorkers(b: Board)
    requires WorkersOk(b) && b.queued != [] && b.queued[0] !in b.started
    ensures WorkersOk(StartedNext(b))
  {
    var t, task := StartedNext(b), b.queued[0];
    forall other | other in t.workers ensures WorkerOk(t, other) {
      if other != task { assert WorkerOk(b, other); }
    }
    forall k | 0 <= k < |t.log| ensures EntryOk(t, k) {
      assert EntryOk(b, k);
    }
  }

  lemma StartStore(b: Board)
    requires StoreAgrees(b) && b.queued != [] && b.queued[0] !in b.dropped && b.queued[0] !in b.queued[1..]
    ensures StoreAgrees(StartedNext(b))
  {
    var t, task := StartedNext(b), b.queued[0];
    assert b.queued == [task] + b.queued[1..];
    forall other | other in t.store ensures StatusFits(t, other, t.store[other]) {
      assert StatusFits(b, other, b.store[other]);
    }
  }

  lemma StartSteady(b: Board)
    requires Steady(b) && b.queued != [] && |b.running| < b.slots
    ensures Steady(StartedNext(b))
  {
    hide InOrder, WorkersOk, StoreAgrees, Kept, StatusFits, WorkerOk;
    Waiting(b.enqueued, b.dropped, b.started, b.queued);
    assert b.queued[0] in b.queued;
    assert b.queued[0] !in b.queued[1..];
    StartInOrder(b);
    StartWorkers(b);
    StartStore(b);
    OneMoreKey(b.running, b.queued[0]);
  }

  lemma OneMoreKey(running: map<TaskId, bool>, task: TaskId)
    ensures |running[task := false]| <= |running| + 1
  {
    assert running[task := false].Keys == running.Keys + {task};
    assert |running[task := false]| == |running[task := false].Keys|;
  }

  lemma {:induction false} SubsetSize(smaller: set<TaskId>, larger: set<TaskId>)
    requires smaller <= larger
    ensures |smaller| <= |larger|
    decreases smaller
  {
    if smaller != {} {
      var task :| task in smaller;
      SubsetSize(smaller - {task}, larger - {task});
    }
  }

  lemma {:induction false} FilledSteady(b: Board)
    requires Steady(b)
    ensures Steady(Filled(b)) && (Filled(b).queued != [] ==> |Filled(b).running| == b.slots)
    ensures var t := Filled(b);
      && t.slots == b.slots && t.draining == b.draining && t.log == b.log && t.applied == b.applied
      && t.enqueued == b.enqueued && t.dropped == b.dropped && b.started <= t.started
    decreases |b.queued|
  {
    hide InOrder, WorkersOk, StoreAgrees;
    if |b.running| < b.slots && b.queued != [] {
      StartSteady(b);
      FilledSteady(StartedNext(b));
    }
  }

  lemma PushSteady(b: Board, task: TaskId)
    requires Steady(b) && task !in b.enqueued
    ensures Steady(Pushed(b, task))
  {
    hide WorkersOk, StoreAgrees;
    PushInOrder(b, task);
    PushWorkers(b, task);
    Waiting(b.enqueued, b.dropped, b.started, b.queued);
    PushStore(b, task);
  }

  lemma PushInOrder(b: Board, task: TaskId)
    requires InOrder(b.enqueued, b.dropped, b.started, b.queued) && task !in b.enqueued
    ensures InOrder(b.enqueued + [task], b.dropped, b.started, b.queued + [task])
  {
    KeptLast(b.enqueued, task, b.dropped);
    hide Kept;
    assert b.started + (b.queued + [task]) == (b.started + b.queued) + [task];
  }

  lemma PushWorkers(b: Board, task: TaskId)
    requires WorkersOk(b)
    ensures WorkersOk(Pushed(b, task))
  {
    SameWorkers(b, Pushed(b, task));
  }

  /** Workers are judged by what they did, not by the queue or the store. */
  lemma SameWorkers(b: Board, t: Board)
    requires WorkersOk(b)
    requires t.workers == b.workers && t.log == b.log && t.applied == b.applied && t.started == b.started
    requires t.running.Keys == b.running.Keys
    ensures WorkersOk(t)
  {
    forall task | task in t.workers ensures WorkerOk(t, task) {
      assert WorkerOk(b, task);
    }
    forall k | 0 <= k < |t.log| ensures EntryOk(t, k) {
      assert EntryOk(b, k);
    }
  }

  lemma PushStore(b: Board, task: TaskId)
    requires StoreAgrees(b) && WorkersOk(b) && task !in b.started && task !in b.dropped
    ensures StoreAgrees(Pushed(b, task))
  {
    var t := Pushed(b, task);
    assert task !in b.workers;
    forall other | other in t.store ensures StatusFits(t, other, t.store[other]) {
      assert StatusFits(b, other, b.store[other]);
    }
  }

  lemma KeptWithout(before: seq<TaskId>, task: TaskId, after: seq<TaskId>)
    requires task !in before && task !in after
    ensures Kept(before + ([task] + after), {task}) == before + after
  {
    hide Kept;
    KeptAll(before, {task});
    KeptAll(after, {task});
    KeptApart(before, [task] + after, {task});
    KeptApart([task], after, {task});
    NoneKept(task);
    assert [] + after == after;
  }

  lemma NoneKept(task: TaskId)
    ensures Kept([task], {task}) == []
  {
    assert [task][..0] == [];
  }

  lemma CancelInOrder(b: Board, index: nat)
    requires InOrder(b.enqueued, b.dropped, b.started, b.queued) && index < |b.queued|
    ensures InOrder(b.enqueued, b.dropped + {b.queued[index]}, b.started, Shortened(b.queued, index))
  {
    Waiting(b.enqueued, b.dropped, b.started, b.queued);
    hide Kept;
    var task := b.queued[index];
    var first, after := b.queued[..index], b.queued[index + 1..];
    assert task in b.queued;
    assert task !in first && task !in after;
    KeptTwice(b.enqueued, b.dropped, task);
    KeptWithout(b.started + first, task, after);
    QueueSplit(b.started, b.queued, index);
  }

  lemma QueueSplit(started: seq<TaskId>, queued: seq<TaskId>, index: nat)
    requires index < |queued|
    ensures started + queued == (started + queued[..index]) + ([queued[index]] + queued[index + 1..])
    ensures started + (queued[..index] + queued[index + 1..]) == (started + queued[..index]) + queued[index + 1..]
  {
  }

  lemma CancelQueuedStore(b: Board, index: nat)
    requires StoreAgrees(b) && WorkersOk(b) && index < |b.queued|
    requires InOrder(b.enqueued, b.dropped, b.started, b.queued)
    requires Position(b.queued, b.queued[index]) == index
    ensures StoreAgrees(CancelledTask(b, b.queued[index]))
  {
    Waiting(b.enqueued, b.dropped, b.started, b.queued);
    hide Kept;
    var task := b.queued[index];
    var t := CancelledTask(b, task);
    assert task in b.queued && task !in b.workers;
    forall other | other in t.store ensures StatusFits(t, other, t.store[other]) {
      assert StatusFits(b, other, b.store[other]);
      assert other in t.queued ==> other in b.queued && other != task;
    }
  }

  lemma CancelRunningStore(b: Board, task: TaskId)
    requires StoreAgrees(b) && WorkersOk(b) && task in b.running && task !in b.queued
    ensures StoreAgrees(CancelledTask(b, task))
  {
    var t := CancelledTask(b, task);
    assert WorkerOk(b, task);
    forall other | other in t.store ensures StatusFits(t, other, t.store[other]) {
      assert StatusFits(b, other, b.store[other]);
    }
  }

  lemma CancelSteady(b: Board, task: TaskId)
    requires Steady(b)
    ensures Steady(CancelledTask(b, task))
  {
    hide InOrder, WorkersOk, StoreAgrees;
    var index := Position(b.queued, task);
    if index >= 0 {
      CancelInOrder(b, index);
      CancelQueuedStore(b, index);
      SameWorkers(b, CancelledTask(b, task));
    } else if task in b.running {
      CancelRunningStore(b, task);
      assert b.running[task := true].Keys == b.running.Keys;
      SmallerKeys(b.running[task := true], b.running);
      SameWorkers(b, CancelledTask(b, task));
    }
  }

  lemma SmallerKeys(smaller: map<TaskId, bool>, larger: map<TaskId, bool>)
    requires smaller.Keys <= larger.Keys
    ensures |smaller| <= |larger|
  {
    SubsetSize(smaller.Keys, larger.Keys);
  }

  function AppliedNext(b: Board): Board
    requires b.applied < |b.log|
  {
    Applied(b, b.log[b.applied]).(applied := b.applied + 1)
  }

  lemma ApplyWorkers(b: Board)
    requires WorkersOk(b) && b.applied < |b.log|
    ensures WorkersOk(AppliedNext(b))
  {
    var t, event := AppliedNext(b), b.log[b.applied];
    assert EntryOk(b, b.applied);
    forall task | task in t.workers ensures WorkerOk(t, task) {
      assert WorkerOk(b, task);
    }
    forall k | 0 <= k < |t.log| ensures EntryOk(t, k) {
      assert EntryOk(b, k);
    }
  }

  lemma ApplyStore(b: Board)
    requires WorkersOk(b) && StoreAgrees(b) && b.applied < |b.log|
    requires forall task :: task in b.started ==> task !in b.queued && task !in b.dropped
    ensures StoreAgrees(AppliedNext(b))
  {
    var t, event := AppliedNext(b), b.log[b.applied];
    assert EntryOk(b, b.applied);
    forall task | task in t.store ensures StatusFits(t, task, t.store[task]) {
      assert StatusFits(b, task, b.store[task]);
      if task in b.workers {
        assert WorkerOk(b, task);
      }
    }
  }

  lemma ApplySteady(b: Board)
    requires Steady(b) && b.applied < |b.log|
    ensures Steady(AppliedNext(b))
  {
    hide InOrder, WorkersOk, StoreAgrees;
    Waiting(b.enqueued, b.dropped, b.started, b.queued);
    ApplyWorkers(b);
    ApplyStore(b);
    SmallerKeys(AppliedNext(b).running, b.running);
  }

  lemma SendWorkers(b: Board, task: TaskId, event: TaskRunEvent)
    requires WorkersOk(b) && task in b.workers && !b.workers[task].Done? && Conclusive(event, task)
    ensures WorkersOk(Sent(b, task, event))
  {
    var t := Sent(b, task, event);
    assert WorkerOk(b, task);
    forall other | other in t.workers ensures WorkerOk(t, other) {
      assert WorkerOk(b, other);
    }
    forall k | 0 <= k < |t.log| ensures EntryOk(t, k) {
      if k < |b.log| { assert EntryOk(b, k); }
    }
  }

  /** The store looks only at events already applied. */
  lemma SameStore(b: Board, t: Board)
    requires StoreAgrees(b) && b.applied <= |b.log|
    requires t.store == b.store && t.queued == b.queued && t.running == b.running && t.dropped == b.dropped
    requires t.applied == b.applied && b.log <= t.log
    requires forall task :: Over(t, task) ==> Over(b, task) && t.workers[task] == b.workers[task]
    ensures StoreAgrees(t)
  {
    forall task | task in t.store ensures StatusFits(t, task, t.store[task]) {
      assert StatusFits(b, task, b.store[task]);
    }
  }

  lemma SendSteady(b: Board, task: TaskId, event: TaskRunEvent)
    requires Steady(b) && task in b.workers && !b.workers[task].Done? && Conclusive(event, task)
    ensures Steady(Sent(b, task, event))
  {
    assert b.applied <= |b.log|;
    hide InOrder, WorkersOk, StoreAgrees;
    SendWorkers(b, task, event);
    SameStore(b, Sent(b, task, event));
  }

  lemma MoveWorkers(b: Board, task: TaskId, worker: Worker)
    requires WorkersOk(b) && task in b.workers && !b.workers[task].Done? && !worker.Done?
    requires worker.Chosen? ==> Conclusive(worker.event, task)
    ensures WorkersOk(b.(workers := b.workers[task := worker]))
  {
    var t := b.(workers := b.workers[task := worker]);
    forall other | other in t.workers ensures WorkerOk(t, other) {
      assert WorkerOk(b, other);
    }
    forall k | 0 <= k < |t.log| ensures EntryOk(t, k) {
      assert EntryOk(b, k);
    }
  }

  lemma MoveSteady(b: Board, task: TaskId, worker: Worker)
    requires Steady(b) && task in b.workers && !b.workers[task].Done? && !worker.Done?
    requires worker.Chosen? ==> Conclusive(worker.event, task)
    ensures Steady(b.(workers := b.workers[task := worker]))
  {
    assert b.applied <= |b.log|;
    hide InOrder, WorkersOk, StoreAgrees;
    MoveWorkers(b, task, worker);
    SameStore(b, b.(workers := b.workers[task := worker]));
  }

  lemma EmitSteady(b: Board, event: TaskRunEvent)
    requires Steady(b) && event.RunProgress?
    ensures Steady(b.(log := b.log + [event]))
  {
    assert b.applied <= |b.log|;
    EmitWorkers(b, event);
    hide InOrder, WorkersOk, StoreAgrees;
    SameStore(b, b.(log := b.log + [event]));
  }

  lemma EmitWorkers(b: Board, event: TaskRunEvent)
    requires WorkersOk(b) && event.RunProgress?
    ensures WorkersOk(b.(log := b.log + [event]))
  {
    var t := b.(log := b.log + [event]);
    forall task | task in t.workers ensures WorkerOk(t, task) {
      assert WorkerOk(b, task);
    }
    forall k | 0 <= k < |t.log| ensures EntryOk(t, k) {
      if k < |b.log| { assert EntryOk(b, k); }
    }
  }

  lemma CreateSteady(b: Board, task: TaskId)
    requires Steady(b) && task !in b.enqueued
    ensures Steady(b.(store := b.store[task := Created]))
  {
    hide InOrder;
    Waiting(b.enqueued, b.dropped, b.started, b.queued);
    DroppedEnqueued(b);
    var t := b.(store := b.store[task := Created]);
    SameWorkers(b, t);
    hide WorkersOk;
    forall other | other in t.store ensures StatusFits(t, other, t.store[other]) {
      if other != task { assert StatusFits(b, other, b.store[other]); }
    }
  }

  lemma DroppedEnqueued(b: Board)
    requires InOrder(b.enqueued, b.dropped, b.started, b.queued)
    ensures forall task :: task in b.dropped ==> task in b.enqueued
  {
  }

  lemma SoundStep(b: Board, step: Step)
    requires Sound(b) && Enabled(b, step)
    ensures Sound(Take(b, step))
  {
    hide InOrder, WorkersOk, StoreAgrees, Filled, CancelledTask;
    match step
    case Create(task) => CreateSteady(b, task);
    case Enqueue(task) =>
      PushSteady(b, task);
      FilledSteady(Pushed(b, task));
    case Cancel(task) =>
      CancelSteady(b, task);
      CancelKeepsSlots(b, task);
    case BeginDrain => DrainFlag(b, true);
    case ApplyNext => ApplySteady(b);
    case EndDrain =>
      FilledSteady(b);
      DrainFlag(Filled(b), false);
    case Poll(task) =>
      if Flagged(b, task) {
        SendSteady(b, task, RunCancelled(task));
      } else {
        MoveSteady(b, task, Working);
      }
    case Emit(task) => EmitSteady(b, RunProgress(task));
    case Finish(task, result) => MoveSteady(b, task, Chosen(ChosenEvent(b, task, result)));
    case Send(task) =>
      ChosenConclusive(b, task);
      SendSteady(b, task, b.workers[task].event);
    case Unwind(task) =>
      if b.workers[task] == Working {
        SendSteady(b, task, RunFailed(task));
      } else {
        MoveSteady(b, task, Vanished);
      }
  }

  lemma ChosenConclusive(b: Board, task: TaskId)
    requires WorkersOk(b) && task in b.workers && b.workers[task].Chosen?
    ensures Conclusive(b.workers[task].event, task)
  {
    assert WorkerOk(b, task);
  }

  lemma DrainFlag(b: Board, draining: bool)
    requires Steady(b)
    ensures Steady(b.(draining := draining))
  {
    var t := b.(draining := draining);
    SameWorkers(b, t);
    hide InOrder, WorkersOk;
    forall task | task in t.store ensures StatusFits(t, task, t.store[task]) {
      assert StatusFits(b, task, b.store[task]);
    }
  }

  lemma CancelKeepsSlots(b: Board, task: TaskId)
    ensures var t := CancelledTask(b, task);
      && |t.running| == |b.running| && t.slots == b.slots && t.draining == b.draining
      && (t.queued != [] ==> b.queued != [])
  {
    if task in b.running {
      assert b.running[task := true].Keys == b.running.Keys;
      assert |b.running[task := true]| == |b.running[task := true].Keys|;
    }
  }

  lemma NewBoardSound(maxParallelTasks: nat, store: map<TaskId, TaskStatus>)
    ensures Sound(NewBoard(maxParallelTasks, store))
  {
  }

  /** The invariant holds in every interleaving of board operations and worker steps. */
  lemma {:induction false} ReachableSound(from: Board, steps: seq<Step>, to: Board)
    requires Sound(from) && Runs(from, steps, to)
    ensures Sound(to)
    decreases |steps|
  {
    hide Sound, Take, Enabled;
    if steps != [] {
      var rest, last := steps[..|steps| - 1], steps[|steps| - 1];
      var before :| Runs(from, rest, before) && Enabled(before, last) && to == Take(before, last);
      ReachableSound(from, rest, before);
      SoundStep(before, last);
    }
  }

  // ---- What the invariant says ----

  /** Every task handed to the board is in exactly one place: waiting, running, over, or cancelled while it
      waited. What waits or is over or was dropped shows in the store. */
  lemma EachTaskInOnePlace(b: Board, task: TaskId)
    requires Sound(b) && task in b.enqueued
    ensures var waiting, runs, over, cancelled := task in b.queued, task in b.running, Over(b, task), task in b.dropped;
      && (waiting || runs || over || cancelled)
      && !(waiting && runs) && !(waiting && over) && !(waiting && cancelled)
      && !(runs && over) && !(runs && cancelled) && !(over && cancelled)
    ensures task in b.store && Over(b, task) ==>
      b.store[task] in {TaskStatus.Completed, WaitingForInput, TaskStatus.Failed, TaskStatus.Cancelled}
    ensures task in b.store && task in b.dropped ==> b.store[task] == TaskStatus.Cancelled
    ensures task in b.store && task in b.queued ==> b.store[task] == Queued
    ensures task in b.store && task in b.running ==> b.store[task] in {TaskStatus.Running, TaskStatus.Cancelled}
  {
    hide InOrder, Kept;
    Waiting(b.enqueued, b.dropped, b.started, b.queued);
    Placed(b, task);
    if task in b.workers {
      assert WorkerOk(b, task);
    }
    if task in b.store {
      assert StatusFits(b, task, b.store[task]);
    }
  }

  lemma Placed(b: Board, task: TaskId)
    requires InOrder(b.enqueued, b.dropped, b.started, b.queued) && task in b.enqueued
    ensures task in b.dropped || task in b.started || task in b.queued
  {
    KeptMembers(b.enqueued, b.dropped);
    hide Kept;
    if task !in b.dropped {
      assert task in b.started + b.queued;
    }
  }

  /** Tasks start in the order they were handed over, skipping exactly those cancelled while waiting; those
      never start. */
  lemma StartOrder(b: Board)
    requires Sound(b)
    ensures b.started <= Kept(b.enqueued, b.dropped) && Distinct(b.started)
    ensures forall task :: task in b.dropped ==> task !in b.started
  {
    hide Kept;
    Waiting(b.enqueued, b.dropped, b.started, b.queued);
  }

  /** A worker sends one terminal event if it is done and none otherwise. */
  lemma OneTerminalEvent(b: Board, task: TaskId)
    requires Sound(b) && task in b.workers
    ensures b.workers[task].Done? ==>
      b.workers[task].at < |b.log| && b.log[b.workers[task].at].Terminal() && b.log[b.workers[task].at].task == task
    ensures forall k :: 0 <= k < |b.log| && b.log[k].Terminal() && b.log[k].task == task ==> b.workers[task] == Done(k)
  {
    hide InOrder;
    assert WorkerOk(b, task);
    forall k | 0 <= k < |b.log| && b.log[k].Terminal() && b.log[k].task == task
      ensures b.workers[task] == Done(k)
    {
      assert EntryOk(b, k);
    }
  }

  /** When every worker is done and the drain has caught up, nothing waits and nothing runs. */
  lemma NothingForgotten(b: Board)
    requires Sound(b) && !b.draining && b.applied == |b.log|
    requires forall task :: task in b.workers ==> b.workers[task].Done?
    ensures b.queued == [] && b.running == map[]
    ensures forall task :: task in b.enqueued ==> Over(b, task) || task in b.dropped
  {
    forall task | task in b.workers ensures task !in b.running {
      assert WorkerOk(b, task);
    }
    assert b.running.Keys == {};
    assert |b.running| == |b.running.Keys|;
    forall task | task in b.enqueued ensures Over(b, task) || task in b.dropped {
      EachTaskInOnePlace(b, task);
    }
  }

  // ---- Cancelling in time ----

  /** The token was set before the worker looked at it, or the run already ended some other way. */
  predicate Doomed(b: Board, task: TaskId)
  {
    task in b.workers &&
    match b.workers[task]
    case Spawned => Flagged(b, task)
    case Working => Flagged(b, task)
    case Chosen(event) => !event.RunCompleted?
    case Done(at) => at < |b.log| && !b.log[at].RunCompleted?
    case Vanished => true
  }

  lemma FilledKeepsDoom(b: Board, task: TaskId)
    requires Steady(b) && Doomed(b, task)
    ensures Doomed(Filled(b), task)
    decreases |b.queued|
  {
    hide Steady, Kept;
    if |b.running| < b.slots && b.queued != [] {
      StartSteady(b);
      DoomedStarted(b, task);
      FilledKeepsDoom(StartedNext(b), task);
    }
  }

  lemma DoomedStarted(b: Board, task: TaskId)
    requires Steady(b) && task in b.workers
    ensures b.queued != [] ==> b.queued[0] != task
  {
    hide InOrder, StoreAgrees;
    Waiting(b.enqueued, b.dropped, b.started, b.queued);
  }

  lemma ApplyKeepsDoom(b: Board, task: TaskId)
    requires Steady(b) && Doomed(b, task) && b.applied < |b.log|
    ensures Doomed(AppliedNext(b), task)
  {
    hide InOrder, StoreAgrees;
    assert EntryOk(b, b.applied);
  }

  lemma CancelChanges(b: Board, other: TaskId)
    ensures var t := CancelledTask(b, other);
      && t.workers == b.workers && t.log == b.log
      && (t.running == b.running || (other in b.running && t.running == b.running[other := true]))
  {
    hide Position, Shortened;
  }

  lemma CancelKeepsDoom(b: Board, task: TaskId, other: TaskId)
    requires Doomed(b, task)
    ensures Doomed(CancelledTask(b, other), task)
  {
    hide CancelledTask;
    CancelChanges(b, other);
  }

  /** A token set before the worker's last look at it rules out completion, whatever happens next. */
  lemma DoomedStep(b: Board, step: Step, task: TaskId)
    requires Sound(b) && Enabled(b, step) && Doomed(b, task)
    ensures Doomed(Take(b, step), task)
  {
    hide InOrder, WorkersOk, StoreAgrees, Filled, CancelledTask;
    match step
    case Create(_) =>
    case Enqueue(other) =>
      PushSteady(b, other);
      FilledKeepsDoom(Pushed(b, other), task);
    case Cancel(other) => CancelKeepsDoom(b, task, other);
    case BeginDrain =>
    case ApplyNext => ApplyKeepsDoom(b, task);
    case EndDrain => FilledKeepsDoom(b, task);
    case _ => WorkerKeepsDoom(b, step, task);
  }

  lemma WorkerKeepsDoom(b: Board, step: Step, task: TaskId)
    requires Enabled(b, step) && Doomed(b, task) && step.OfWorker()
    ensures Doomed(Take(b, step), task)
  {
  }

  lemma {:induction false} CancelledInTime(from: Board, steps: seq<Step>, to: Board, task: TaskId)
    requires Sound(from) && Doomed(from, task) && Runs(from, steps, to)
    ensures Doomed(to, task)
    ensures task in to.store && Over(to, task) ==> to.store[task] in {TaskStatus.Failed, TaskStatus.Cancelled}
    decreases |steps|
  {
    hide Take, Enabled, InOrder;
    ReachableSound(from, steps, to);
    if steps != [] {
      var rest, last := steps[..|steps| - 1], steps[|steps| - 1];
      var before :| Runs(from, rest, before) && Enabled(before, last) && to == Take(before, last);
      ReachableSound(from, rest, before);
      CancelledInTime(from, rest, before, task);
      DoomedStep(before, last, task);
    }
    if task in to.store && Over(to, task) {
      assert StatusFits(to, task, to.store[task]);
      assert WorkerOk(to, task);
    }
  }

  // ---- A worker that is dropped before its first poll ----

  lemma FilledStarves(b: Board)
    requires |b.running| >= b.slots
    ensures Filled(b) == b
  {
  }

  lemma FilledKeepsWorker(b: Board, task: TaskId)
    requires Steady(b) && task in b.workers
    ensures WorkerIs(Filled(b), task, b.workers[task]) && Filled(b).slots == b.slots
    decreases |b.queued|
  {
    hide Steady, Kept;
    if |b.running| < b.slots && b.queued != [] {
      StartSteady(b);
      DoomedStarted(b, task);
      FilledKeepsWorker(StartedNext(b), task);
    }
  }

  lemma VanishedStep(b: Board, step: Step, task: TaskId)
    requires Sound(b) && Enabled(b, step) && WorkerIs(b, task, Vanished)
    ensures WorkerIs(Take(b, step), task, Vanished) && Take(b, step).slots == b.slots
  {
    hide InOrder, WorkersOk, StoreAgrees, Filled;
    match step
    case Enqueue(other) =>
      PushSteady(b, other);
      FilledKeepsWorker(Pushed(b, other), task);
    case EndDrain => FilledKeepsWorker(b, task);
    case _ =>
  }

  /** The guard only exists once the worker has been polled: a worker dropped before that never sends a
      terminal event, keeps its slot for good, and its task stays Running in the store, or Cancelled once
      its token was set. */
  lemma {:induction false} VanishedKeepsItsSlot(from: Board, steps: seq<Step>, to: Board, task: TaskId)
    requires Sound(from) && WorkerIs(from, task, Vanished) && Runs(from, steps, to)
    ensures WorkerIs(to, task, Vanished) && task in to.running && to.slots == from.slots
    ensures forall k :: 0 <= k < |to.log| ==> !(to.log[k].Terminal() && to.log[k].task == task)
    ensures task in to.store ==> to.store[task] in {TaskStatus.Running, TaskStatus.Cancelled}
    decreases |steps|
  {
    hide Take, Enabled, InOrder;
    ReachableSound(from, steps, to);
    if steps != [] {
      var rest, last := steps[..|steps| - 1], steps[|steps| - 1];
      var before :| Runs(from, rest, before) && Enabled(before, last) && to == Take(before, last);
      ReachableSound(from, rest, before);
      VanishedKeepsItsSlot(from, rest, before, task);
      VanishedStep(before, last, task);
    }
    assert WorkerOk(to, task);
    assert task in to.store ==> StatusFits(to, task, to.store[task]);
    OneTerminalEvent(to, task);
  }

  function VanishedTasks(b: Board): set<TaskId>
  {
    set task | task in b.workers && b.workers[task] == Vanished
  }

  lemma VanishedFill(b: Board)
    requires Sound(b) && |VanishedTasks(b)| >= b.slots
    ensures |b.running| >= b.slots
  {
    hide InOrder, StoreAgrees;
    forall other | other in VanishedTasks(b) ensures other in b.running {
      assert WorkerOk(b, other);
    }
    SubsetSize(VanishedTasks(b), b.running.Keys);
    assert |b.running| == |b.running.Keys|;
  }

  lemma SomeVanished(b: Board)
    requires Sound(b) && |VanishedTasks(b)| >= b.slots
    ensures VanishedTasks(b) != {}
  {
    hide InOrder, StoreAgrees, WorkersOk;
  }

  lemma StarvedStep(b: Board, step: Step)
    requires Enabled(b, step) && |b.running| >= b.slots
    ensures Take(b, step).started == b.started
  {
    hide Filled, CancelledTask;
    match step
    case Enqueue(other) => FilledStarves(Pushed(b, other));
    case EndDrain => FilledStarves(b);
    case Cancel(other) => CancelStarts(b, other);
    case _ =>
  }

  lemma CancelStarts(b: Board, other: TaskId)
    ensures CancelledTask(b, other).started == b.started
  {
    hide Position, Shortened;
  }

  /** With as many vanished workers as slots nothing is ever started again. */
  lemma {:induction false} AllSlotsVanished(from: Board, steps: seq<Step>, to: Board)
    requires Sound(from) && |VanishedTasks(from)| >= from.slots && Runs(from, steps, to)
    ensures to.started == from.started
    decreases |steps|
  {
    hide Take, Enabled, Sound;
    if steps != [] {
      var rest, last := steps[..|steps| - 1], steps[|steps| - 1];
      var before :| Runs(from, rest, before) && Enabled(before, last) && to == Take(before, last);
      ReachableSound(from, rest, before);
      AllSlotsVanished(from, rest, before);
      forall task | task in VanishedTasks(from) ensures task in VanishedTasks(before) {
        VanishedKeepsItsSlot(from, rest, before, task);
      }
      SubsetSize(VanishedTasks(from), VanishedTasks(before));
      SomeVanished(from);
      var task :| task in VanishedTasks(from);
      VanishedKeepsItsSlot(from, rest, before, task);
      VanishedFill(before);
      StarvedStep(before, last);
    }
  }

  // ---- Which dropped workers report ----

  predicate Polled(b: Board, task: TaskId)
  {
    task in b.workers && b.workers[task] != Spawned && b.workers[task] != Vanished
  }

  /** The worker has come to its end: it is done, or it vanished. */
  predicate Gone(b: Board, task: TaskId)
  {
    task in b.workers && (b.workers[task].Done? || b.workers[task] == Vanished)
  }

  lemma FilledKeepsPolled(b: Board, task: TaskId)
    requires Steady(b)
    ensures Polled(Filled(b), task) <==> Polled(b, task)
    ensures Gone(Filled(b), task) <==> Gone(b, task)
    decreases |b.queued|
  {
    hide Steady, Kept;
    if |b.running| < b.slots && b.queued != [] {
      StartSteady(b);
      if task in b.workers {
        DoomedStarted(b, task);
      }
      FilledKeepsPolled(StartedNext(b), task);
    }
  }

  lemma PolledStep(b: Board, step: Step, task: TaskId)
    requires Sound(b) && Enabled(b, step)
    ensures Polled(Take(b, step), task) <==> Polled(b, task) || step == Poll(task)
    ensures Gone(b, task) || step == Unwind(task) ==> Gone(Take(b, step), task)
  {
    hide InOrder, WorkersOk, StoreAgrees, Filled, CancelledTask;
    match step
    case Enqueue(other) =>
      PushSteady(b, other);
      FilledKeepsPolled(Pushed(b, other), task);
    case Cancel(other) => CancelChanges(b, other);
    case EndDrain => FilledKeepsPolled(b, task);
    case _ =>
  }

  lemma {:induction false} PolledInRun(maxParallelTasks: nat, store: map<TaskId, TaskStatus>, steps: seq<Step>,
                                       to: Board,
                                       task: TaskId)
    requires Runs(NewBoard(maxParallelTasks, store), steps, to)
    ensures Sound(to)
    ensures Polled(to, task) <==> Poll(task) in steps
    ensures Unwind(task) in steps ==> Gone(to, task)
    decreases |steps|
  {
    hide Take, Enabled, Sound;
    var from := NewBoard(maxParallelTasks, store);
    NewBoardSound(maxParallelTasks, store);
    ReachableSound(from, steps, to);
    if steps != [] {
      var rest, last := steps[..|steps| - 1], steps[|steps| - 1];
      var before :| Runs(from, rest, before) && Enabled(before, last) && to == Take(before, last);
      assert steps == rest + [last];
      ReachableSound(from, rest, before);
      PolledInRun(maxParallelTasks, store, rest, before, task);
      PolledStep(before, last, task);
    }
  }

  /** In a run of a board, a worker that was dropped has a terminal event in the channel exactly when it
      had been polled. */
  lemma DroppedReportsIfPolled(maxParallelTasks: nat, store: map<TaskId, TaskStatus>, steps: seq<Step>, to: Board,
                               task: TaskId)
    requires Runs(NewBoard(maxParallelTasks, store), steps, to) && Unwind(task) in steps
    ensures (exists k :: 0 <= k < |to.log| && to.log[k].Terminal() && to.log[k].task == task) <==> Poll(task) in steps
  {
    hide Runs, Sound;
    PolledInRun(maxParallelTasks, store, steps, to, task);
    OneTerminalEvent(to, task);
  }

  /** The step system allows it: enqueue a task and drop its worker at once. Nothing in the program aborts
      a worker, so only the shutdown of the runtime drops one that was not polled, and the board stops with
      it; what stays behind is the store, which says Running. */
  lemma CanVanish(task: TaskId)
    ensures var steps := [Enqueue(task), Unwind(task)];
      exists b ::
        && Runs(NewBoard(1, map[task := Created]), steps, b) && Sound(b) && b.slots == 1
        && WorkerIs(b, task, Vanished) && b.log == [] && b.store == map[task := TaskStatus.Running]
  {
    hide Take, Enabled, Sound, Filled;
    var start := NewBoard(1, map[task := Created]);
    var steps := [Enqueue(task), Unwind(task)];
    NewBoardSound(1, map[task := Created]);
    var queued := StartedAlone(task);
    var gone := DroppedAtOnce(queued, task);
    assert steps[..1] == [Enqueue(task)] && [Enqueue(task)][..0] == [];
    assert Runs(start, [], start);
    assert Runs(start, [Enqueue(task)], queued);
    assert Runs(start, steps, gone);
    ReachableSound(start, steps, gone);
  }

  lemma StartedAlone(task: TaskId) returns (b: Board)
    ensures var start := NewBoard(1, map[task := Created]);
      Enabled(start, Enqueue(task)) && b == Take(start, Enqueue(task))
    ensures WorkerIs(b, task, Spawned) && b.log == [] && b.slots == 1 && b.store == map[task := TaskStatus.Running]
  {
    var pushed := Pushed(NewBoard(1, map[task := Created]), task);
    b := StartedNext(pushed);
    assert pushed.queued == [task] && |pushed.running| < pushed.slots;
    assert b.running.Keys == {task} && |b.running| == |b.running.Keys|;
    FilledStarves(b);
    assert b.store == map[task := TaskStatus.Running];
  }

  lemma DroppedAtOnce(b: Board, task: TaskId) returns (gone: Board)
    requires WorkerIs(b, task, Spawned)
    ensures Enabled(b, Unwind(task)) && gone == Take(b, Unwind(task)) && WorkerIs(gone, task, Vanished)
    ensures gone.log == b.log && gone.slots == b.slots && gone.store == b.store
  {
    gone := Take(b, Unwind(task));
  }

  // ---- The board itself ----

  lemma RunsMore(from: Board, steps: seq<Step>, to: Board, step: Step)
    requires Runs(from, steps, to) && Enabled(to, step)
    ensures Runs(from, steps + [step], Take(to, step))
  {
    var all := steps + [step];
    assert all[..|all| - 1] == steps && all[|all| - 1] == step;
  }

  lemma {:induction false} RunsOn(from: Board, first: seq<Step>, middle: Board, second: seq<Step>, to: Board)
    requires Runs(from, first, middle) && Runs(middle, second, to)
    ensures Runs(from, first + second, to)
    decreases |second|
  {
    hide Take, Enabled, Runs;
    if second == [] {
      assert first + second == first;
      RunsNothing(middle, to);
    } else {
      var rest, last := second[..|second| - 1], second[|second| - 1];
      var before := RunsLast(middle, second, to);
      RunsOn(from, first, middle, rest, before);
      RunsMore(from, first + rest, before, last);
      assert first + second == (first + rest) + [last];
    }
  }

  lemma RunsNothing(from: Board, to: Board)
    requires Runs(from, [], to)
    ensures from == to
  {
  }

  lemma RunsLast(from: Board, steps: seq<Step>, to: Board) returns (before: Board)
    requires steps != [] && Runs(from, steps, to)
    ensures Runs(from, steps[..|steps| - 1], before) && Enabled(before, steps[|steps| - 1])
    ensures to == Take(before, steps[|steps| - 1])
  {
    hide Take, Enabled;
    var rest, last := steps[..|steps| - 1], steps[|steps| - 1];
    before :| Runs(from, rest, before) && Enabled(before, last) && to == Take(before, last);
  }

  predicate FirstActive(b: Board, task: TaskId)
  {
    task in b.running || (b.running == map[] && [task] <= b.queued)
  }

  /** `workers`, `log` and `store` are shared with the workers and the store; `enqueued`, `started` and
      `dropped` only record what happened. */
  class TaskBoard {
    const slots: nat
    var queued: seq<TaskId>
    var running: map<TaskId, bool>
    var workers: map<TaskId, Worker>
    var log: seq<TaskRunEvent>
    var applied: nat
    var store: map<TaskId, TaskStatus>
    var draining: bool
    var enqueued: seq<TaskId>
    var started: seq<TaskId>
    var dropped: set<TaskId>

    function Snapshot(): Board
      reads this
    {
      Board(slots, queued, running, workers, log, applied, store, draining, enqueued, started, dropped)
    }

    constructor (maxParallelTasks: nat, store: map<TaskId, TaskStatus>)
      ensures Snapshot() == NewBoard(maxParallelTasks, store) && Sound(Snapshot())
    {
      slots := if maxParallelTasks < 1 then 1 else maxParallelTasks;
      queued, running, workers, log, applied := [], map[], map[], [], 0;
      this.store, draining, enqueued, started, dropped := store, false, [], [], {};
      new;
      NewBoardSound(maxParallelTasks, store);
    }

    /** Queues a task and fills the free slots. */
    method EnqueueWithRoot(task: TaskId) returns (runningTasks: nat, queuedTasks: nat)
      requires Sound(Snapshot()) && !draining && task !in enqueued
      modifies this
      ensures Snapshot() == Take(old(Snapshot()), Enqueue(task)) && Sound(Snapshot())
      ensures runningTasks == |running| <= slots && queuedTasks == |queued|
      ensures queuedTasks > 0 ==> runningTasks == slots
    {
      hide Sound, Steady, Filled, InOrder, WorkersOk, StoreAgrees;
      SoundStep(Snapshot(), Enqueue(task));
      store := WithStatus(store, task, Queued);
      enqueued := enqueued + [task];
      queued := queued + [task];
      StartReady();
      SoundSlots(Snapshot());
      return |running|, |queued|;
    }

    method StartReady()
      modifies this`queued, this`running, this`workers, this`store, this`started
      ensures Snapshot() == Filled(old(Snapshot()))
    {
      while |running| < slots && queued != []
        invariant Filled(Snapshot()) == Filled(old(Snapshot()))
        decreases |queued|
      {
        var task := queued[0];
        queued := queued[1..];
        store := WithStatus(store, task, TaskStatus.Running);
        Spawn(task);
      }
    }

    method Spawn(task: TaskId)
      modifies this`running, this`workers, this`started
      ensures running == old(running)[task := false] && workers == old(workers)[task := Spawned]
      ensures started == old(started) + [task]
    {
      running := running[task := false];
      workers := workers[task := Spawned];
      started := started + [task];
    }

    method ApplyEvent(event: TaskRunEvent)
      modifies this`running, this`store
      ensures Snapshot() == Applied(old(Snapshot()), event)
    {
      match event
      case RunProgress(_) =>
      case RunCompleted(task, status) =>
        running := running - {task};
        store := WithStatus(store, task, StatusFromNode(status));
      case RunFailed(task) =>
        running := running - {task};
        store := WithStatus(store, task, TaskStatus.Failed);
      case RunCancelled(task) =>
        running := running - {task};
        store := WithStatus(store, task, TaskStatus.Cancelled);
    }

    /** Some workers make some steps, at most `limit` in all. */
    method WorkersRun(limit: nat) returns (used: nat, ghost steps: seq<Step>)
      modifies this`workers, this`log
      ensures Runs(old(Snapshot()), steps, Snapshot()) && used <= limit
      ensures |old(log)| <= |log| <= |old(log)| + used
    {
      hide Runs;
      used, steps := 0, [];
      RunsNowhere(Snapshot());
      var count: nat :| count <= limit;
      while used < count
        invariant used <= count
        invariant Runs(old(Snapshot()), steps, Snapshot())
        invariant |old(log)| <= |log| <= |old(log)| + used
      {
        var step: Step :| true;
        used := used + 1;
        if step.OfWorker() && Enabled(Snapshot(), step) {
          ghost var before := Snapshot();
          var after := Take(Snapshot(), step);
          workers, log := after.workers, after.log;
          assert Snapshot() == after;
          RunsMore(old(Snapshot()), steps, before, step);
          steps := steps + [step];
        }
      }
    }

    /** Applies what the workers have sent, in order, while they keep working, until the channel is found
        empty; then fills the free slots. Every drain that ends is covered by some `patience`. */
    method Drain(patience: nat) returns (runningTasks: nat, queuedTasks: nat, ghost steps: seq<Step>)
      requires Sound(Snapshot()) && !draining
      modifies this
      ensures Runs(old(Snapshot()), steps, Snapshot()) && Sound(Snapshot()) && !draining
      ensures applied == |log|
      ensures runningTasks == |running| <= slots && queuedTasks == |queued|
      ensures queuedTasks > 0 ==> runningTasks == slots
    {
      hide Sound, Runs, Take, Steady, Filled, InOrder, WorkersOk, StoreAgrees;
      ghost var start := Snapshot();
      RunsNowhere(start);
      RunsMore(start, [], start, BeginDrain);
      steps := [] + [BeginDrain];
      draining := true;
      Begun(start);
      AppliedWithin(start, Snapshot(), steps);
      var left: nat := patience;
      while true
        invariant Runs(start, steps, Snapshot()) && draining && applied <= |log|
        decreases 2 * left + |log| - applied
      {
        ghost var s := Snapshot();
        var used;
        ghost var more;
        used, more := WorkersRun(left);
        left := left - used;
        RunsOn(start, steps, s, more, Snapshot());
        steps := steps + more;
        AppliedWithin(start, Snapshot(), steps);
        if applied == |log| {
          break;
        }
        ghost var b := Snapshot();
        RunsMore(start, steps, b, ApplyNext);
        steps := steps + [ApplyNext];
        var event := log[applied];
        ApplyEvent(event);
        applied := applied + 1;
        AppliedTaken(b);
      }
      ghost var b := Snapshot();
      ReachableSound(start, steps, b);
      RunsMore(start, steps, b, EndDrain);
      steps := steps + [EndDrain];
      StartReady();
      FilledSame(b);
      draining := false;
      Ended(b);
      ReachableSound(start, steps, Snapshot());
      SoundSlots(Snapshot());
      return |running|, |queued|, steps;
    }

    /** A waiting task is dropped; a running one gets its token set; anything else is unknown. */
    method CancelTask(task: TaskId) returns (found: bool)
      requires Sound(Snapshot()) && !draining
      modifies this
      ensures Snapshot() == Take(old(Snapshot()), Cancel(task)) && Sound(Snapshot())
      ensures found <==> task in old(queued) || task in old(running)
      ensures found ==> (task in dropped && task !in queued) || Flagged(Snapshot(), task)
      ensures !found ==> Snapshot() == old(Snapshot())
    {
      hide Sound, Take, Position, Flagged, Shortened;
      SoundStep(Snapshot(), Cancel(task));
      CancelTaken(Snapshot(), task);
      CancelOutcome(Snapshot(), task);
      var index := Position(queued, task);
      if index >= 0 {
        queued := Shortened(queued, index);
        store := WithStatus(store, task, TaskStatus.Cancelled);
        dropped := dropped + {task};
        assert Snapshot() == CancelledTask(old(Snapshot()), task);
        return true;
      }
      if task in running {
        running := running[task := true];
        store := WithStatus(store, task, TaskStatus.Cancelled);
        return true;
      }
      return false;
    }

    /** Cancels some running task or, if there is none, the first that waits. */
    method CancelFirstActive() returns (task: Option<TaskId>)
      requires Sound(Snapshot()) && !draining
      modifies this
      ensures Sound(Snapshot())
      ensures task.None? <==> old(running) == map[] && old(queued) == []
      ensures task.Some? ==> Snapshot() == Take(old(Snapshot()), Cancel(task.value))
      ensures task.Some? ==> FirstActive(old(Snapshot()), task.value)
      ensures task.None? ==> Snapshot() == old(Snapshot())
    {
      hide Sound, Take;
      if running != map[] {
        var first: TaskId :| first in running;
        task := Some(first);
      } else if queued != [] {
        task := Some(queued[0]);
      } else {
        return None;
      }
      var found := CancelTask(task.value);
    }
  }

  lemma CancelTaken(b: Board, task: TaskId)
    requires Enabled(b, Cancel(task))
    ensures Take(b, Cancel(task)) == CancelledTask(b, task)
  {
  }

  lemma RunsNowhere(b: Board)
    ensures Runs(b, [], b)
  {
  }

  lemma Begun(b: Board)
    requires Enabled(b, BeginDrain)
    ensures Take(b, BeginDrain) == b.(draining := true)
  {
  }

  lemma AppliedTaken(b: Board)
    requires Enabled(b, ApplyNext)
    ensures Take(b, ApplyNext) == AppliedNext(b)
  {
  }

  lemma Ended(b: Board)
    requires Enabled(b, EndDrain)
    ensures Take(b, EndDrain) == Filled(b).(draining := false)
  {
  }

  lemma AppliedWithin(from: Board, to: Board, steps: seq<Step>)
    requires Sound(from) && Runs(from, steps, to)
    ensures to.applied <= |to.log|
  {
    hide InOrder, StoreAgrees;
    ReachableSound(from, steps, to);
  }

  lemma FilledSame(b: Board)
    requires Sound(b)
    ensures Filled(b).log == b.log && Filled(b).applied == b.applied
  {
    hide Steady;
    FilledSteady(b);
  }

  lemma SoundSlots(b: Board)
    requires Sound(b)
    ensures |b.running| <= b.slots && (!b.draining && b.queued != [] ==> |b.running| == b.slots)
  {
    hide InOrder, WorkersOk, StoreAgrees;
  }

  lemma CancelOutcome(b: Board, task: TaskId)
    requires Sound(b)
    ensures var t := CancelledTask(b, task);
      && (task in b.queued <==> Position(b.queued, task) >= 0)
      && (task in b.queued ==> task in t.dropped && task !in t.queued)
      && (task !in b.queued && task in b.running ==> Flagged(t, task))
      && (task !in b.queued && task !in b.running ==> t == b)
  {
    WaitsOnce(b);
    hide Sound;
    var index := Position(b.queued, task);
    if index >= 0 {
      assert b.queued[index] in b.queued;
      assert task !in b.queued[index + 1..];
    }
  }

  lemma WaitsOnce(b: Board)
    requires Sound(b)
    ensures Distinct(b.queued)
  {
    hide WorkersOk, StoreAgrees, Kept;
    Waiting(b.enqueued, b.dropped, b.started, b.queued);
  }
}
