/** One assistant task as its store keeps it: a status, the last report, and an append-only log. */
module AssistantTasks {
  import opened Types
  import TaskRuns

  datatype TaskStatus = Created | Queued | Running | WaitingForInput | Completed | Failed | Cancelled

  datatype EventRecord = EventRecord(
    kind: string,
    source: string,
    message: string,
    node: Option<NodeId>,
    operation: Option<NodeOperation>)

  datatype TaskEvent = TaskEvent(number: nat, record: EventRecord)

  /** One agent run of a report and the events it streamed. */
  datatype RunLog = RunLog(node: NodeId, operation: NodeOperation, events: seq<string>)

  datatype TaskReport = TaskReport(status: NodeStatus, runs: seq<RunLog>)

  function StatusFromNode(status: NodeStatus): TaskStatus
  {
    match status
    case Committed => Completed
    case WaitingForInfo => WaitingForInput
    case Rejected | Pruned => Failed
    case _ => TaskStatus.Running
  }

  /** A report that ends a run never puts its task back to running, and only such a report does not: a
      committed root completes the task, one that waits for information waits for the user, and a
      rejected or pruned one fails it. */
  lemma FinishedIsNotRunning(status: NodeStatus)
    ensures StatusFromNode(status) == TaskStatus.Running <==> !TaskRuns.Final(status)
    ensures StatusFromNode(status) == Completed <==> status == NodeStatus.Committed
    ensures StatusFromNode(status) == WaitingForInput <==> status == WaitingForInfo
    ensures StatusFromNode(status) == Failed <==> status == Rejected || status == Pruned
  {
  }

  function Appended(events: seq<TaskEvent>, record: EventRecord): seq<TaskEvent>
  {
    events + [TaskEvent(|events| + 1, record)]
  }

  /** Every event carries its position in the log, counted from one. */
  predicate Numbered(events: seq<TaskEvent>)
  {
    forall k :: 0 <= k < |events| ==> events[k].number == k + 1
  }

  class AssistantTask {
    var status: TaskStatus
    var rootNode: Option<NodeId>
    var lastReport: Option<TaskReport>
    var events: seq<TaskEvent>

    constructor ()
      ensures status == Created && rootNode == None && lastReport == None && events == []
    {
      status, rootNode, lastReport, events := Created, None, None, [];
    }

    method RecordEvent(record: EventRecord)
      modifies this`events
      ensures events == Appended(old(events), record)
      ensures old(events) < events
      ensures Numbered(old(events)) ==> Numbered(events)
    {
      events := events + [TaskEvent(|events| + 1, record)];
    }

    method ApplyReport(root: NodeId, report: TaskReport)
      modifies this`status, this`rootNode, this`lastReport
      ensures rootNode == Some(root) && lastReport == Some(report)
      ensures status == StatusFromNode(report.status)
      ensures TaskRuns.Final(report.status) ==> status in {Completed, WaitingForInput, Failed}
    {
      rootNode := Some(root);
      status := StatusFromNode(report.status);
      lastReport := Some(report);
    }
  }
}
