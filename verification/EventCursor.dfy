/** Paging through the log of a task and the events of its report with a cursor. */
module EventCursor {
  import opened Types
  import opened AssistantTasks

  datatype Cursor = Cursor(taskNumber: nat, agentOrdinal: nat)

  datatype AgentEntry = AgentEntry(runIndex: nat, eventIndex: nat, node: NodeId, operation: NodeOperation, text: string)

  datatype TimelineRecord =
    | TaskRecord(event: TaskEvent)
    | AgentRecord(ordinal: nat, entry: AgentEntry)

  datatype View = View(records: seq<TimelineRecord>, timeline: seq<TimelineRecord>, cursor: Cursor)

  // ---- The agent events of a report, flattened ----

  function RunEntries(index: nat, run: RunLog): (entries: seq<AgentEntry>)
    ensures |entries| == |run.events|
  {
    seq(|run.events|, k requires 0 <= k < |run.events| =>
          AgentEntry(index, k + 1, run.node, run.operation, run.events[k]))
  }

  function Flattened(runs: seq<RunLog>): (entries: seq<AgentEntry>)
  {
    if runs == [] then []
    else
      var last := |runs| - 1;
      Flattened(runs[..last]) + RunEntries(|runs|, runs[last])
  }

  function AgentEvents(report: Option<TaskReport>): seq<AgentEntry>
  {
    if report.None? then [] else Flattened(report.value.runs)
  }

  predicate Before(a: AgentEntry, b: AgentEntry)
  {
    a.runIndex < b.runIndex || (a.runIndex == b.runIndex && a.eventIndex < b.eventIndex)
  }

  predicate Describes(runs: seq<RunLog>, entry: AgentEntry)
  {
    1 <= entry.runIndex <= |runs|
    && var run := runs[entry.runIndex - 1];
      (&& 1 <= entry.eventIndex <= |run.events|
       && entry ==
            AgentEntry(entry.runIndex, entry.eventIndex, run.node, run.operation, run.events[entry.eventIndex - 1]))
  }

  /** The flattened list is exactly the events of all runs, each once, ordered by run and position. */
  lemma {:induction false} FlattenedExactly(runs: seq<RunLog>)
    ensures forall k :: 0 <= k < |Flattened(runs)| ==> Describes(runs, Flattened(runs)[k])
    ensures forall j, k :: 0 <= j < k < |Flattened(runs)| ==> Before(Flattened(runs)[j], Flattened(runs)[k])
    ensures forall entry :: Describes(runs, entry) ==> entry in Flattened(runs)
    decreases |runs|
  {
    if runs != [] {
      var last := |runs| - 1;
      var before, more := Flattened(runs[..last]), RunEntries(|runs|, runs[last]);
      FlattenedExactly(runs[..last]);
      assert Flattened(runs) == before + more;
      forall entry | Describes(runs, entry)
        ensures entry in before + more
      {
        if entry.runIndex == |runs| {
          assert more[entry.eventIndex - 1] == entry;
        } else {
          assert Describes(runs[..last], entry);
        }
      }
      forall k | 0 <= k < |before|
        ensures Describes(runs, before[k]) && before[k].runIndex < |runs|
      {
        assert Describes(runs[..last], before[k]);
      }
    }
  }

  /** So are the agent events of a report; without a report there are none. */
  lemma AgentEventsExactly(report: Option<TaskReport>)
    ensures report.None? ==> AgentEvents(report) == []
    ensures report.Some? ==>
      var runs, entries := report.value.runs, AgentEvents(report);
      && (forall entry :: entry in entries <==> Describes(runs, entry))
      && (forall j, k :: 0 <= j < k < |entries| ==> Before(entries[j], entries[k]))
  {
    if report.Some? {
      FlattenedExactly(report.value.runs);
    }
  }

  // ---- One page ----

  function EventsAfter(events: seq<TaskEvent>, number: nat): seq<TaskEvent>
  {
    if events == [] then []
    else
      var last := |events| - 1;
      EventsAfter(events[..last], number) + (if events[last].number > number then [events[last]] else [])
  }

  function HighestNumber(events: seq<TaskEvent>): nat
  {
    if events == [] then 0
    else
      var last := |events| - 1;
      var rest := HighestNumber(events[..last]);
      if events[last].number > rest then events[last].number else rest
  }

  function EntriesAfter(entries: seq<AgentEntry>, ordinal: nat): seq<AgentEntry>
  {
    if ordinal <= |entries| then entries[ordinal..] else []
  }

  function TaskRecords(events: seq<TaskEvent>): (records: seq<TimelineRecord>)
    ensures |records| == |events|
  {
    seq(|events|, k requires 0 <= k < |events| => TaskRecord(events[k]))
  }

  function AgentRecords(entries: seq<AgentEntry>, ordinal: nat): (records: seq<TimelineRecord>)
    ensures |records| == |EntriesAfter(entries, ordinal)|
  {
    var page := EntriesAfter(entries, ordinal);
    seq(|page|, k requires 0 <= k < |page| => AgentRecord(ordinal + k + 1, page[k]))
  }

  /** The page of agent events after a cursor: the events with the ordinals beyond it, one by one. */
  lemma AgentPage(entries: seq<AgentEntry>, ordinal: nat)
    ensures |AgentRecords(entries, ordinal)| == if ordinal <= |entries| then |entries| - ordinal else 0
    ensures forall k :: 0 <= k < |AgentRecords(entries, ordinal)| ==>
              AgentRecords(entries, ordinal)[k] == AgentRecord(ordinal + k + 1, entries[ordinal + k])
  {
  }

  lemma OneMoreEvent(events: seq<TaskEvent>, i: nat, number: nat)
    requires i < |events|
    ensures TaskRecords(EventsAfter(events[..i + 1], number))
         == TaskRecords(EventsAfter(events[..i], number))
            + (if events[i].number > number then [TaskRecord(events[i])] else [])
    ensures var highest := HighestNumber(events[..i]);
      HighestNumber(events[..i + 1]) == if events[i].number > highest then events[i].number else highest
  {
    assert events[..i + 1][..i] == events[..i];
  }

  lemma NoEvents(events: seq<TaskEvent>, number: nat)
    ensures events == [] ==> TaskRecords(EventsAfter(events, number)) == [] && HighestNumber(events) == 0
  {
  }

  lemma OneMoreEntry(entries: seq<AgentEntry>, index: nat, ordinal: nat)
    requires index < |entries|
    ensures AgentRecords(entries[..index + 1], ordinal) == AgentRecords(entries[..index], ordinal)
         + (if index + 1 > ordinal then [AgentRecord(index + 1, entries[index])] else [])
  {
    var before, after := entries[..index], entries[..index + 1];
    if index + 1 > ordinal {
      assert EntriesAfter(after, ordinal) == EntriesAfter(before, ordinal) + [entries[index]];
    }
  }

  lemma NoEntries(entries: seq<AgentEntry>, ordinal: nat)
    ensures entries == [] ==> AgentRecords(entries, ordinal) == []
  {
  }

  lemma OnlyTaskRecords(events: seq<TaskEvent>)
    ensures forall k :: 0 <= k < |TaskRecords(events)| ==> TaskRecords(events)[k].TaskRecord?
  {
  }

  lemma OnlyAgentRecords(entries: seq<AgentEntry>, ordinal: nat)
    ensures forall k :: 0 <= k < |AgentRecords(entries, ordinal)| ==> AgentRecords(entries, ordinal)[k].AgentRecord?
  {
  }

  predicate HasDurableAgentEvents(events: seq<TaskEvent>)
  {
    exists k :: 0 <= k < |events| && events[k].record.kind in {"agent.run.event", "agent.branch.run.event"}
  }

  /** The kinds under which the log keeps copies of agent events. */
  predicate DurableKind(kind: string)
  {
    kind == "agent.run.event" || kind == "agent.branch.run.event"
  }

  lemma DurableIf(events: seq<TaskEvent>)
    ensures HasDurableAgentEvents(events) <==> exists event :: event in events && DurableKind(event.record.kind)
  {
    forall event | event in events && DurableKind(event.record.kind) ensures HasDurableAgentEvents(events) {
      var k :| 0 <= k < |events| && events[k] == event;
    }
    if HasDurableAgentEvents(events) {
      var k :| 0 <= k < |events| && events[k].record.kind in {"agent.run.event", "agent.branch.run.event"};
      assert events[k] in events && DurableKind(events[k].record.kind);
    }
  }

  function WithoutAgentRecords(records: seq<TimelineRecord>): seq<TimelineRecord>
  {
    if records == [] then []
    else
      var last := |records| - 1;
      WithoutAgentRecords(records[..last]) + (if records[last].AgentRecord? then [] else [records[last]])
  }

  lemma {:induction false} TaskRecordsSurvive(records: seq<TimelineRecord>, tasks: nat)
    requires tasks <= |records|
    requires forall k :: 0 <= k < |records| ==> (records[k].TaskRecord? <==> k < tasks)
    ensures WithoutAgentRecords(records) == records[..tasks]
    decreases |records|
  {
    if records != [] {
      var last := |records| - 1;
      if tasks == |records| {
        TaskRecordsSurvive(records[..last], last);
        assert records == records[..last] + [records[last]];
        assert records[..last][..last] == records[..last] && records[..tasks] == records;
      } else {
        TaskRecordsSurvive(records[..last], tasks);
        assert records[..last][..tasks] == records[..tasks];
      }
    }
  }

  /** What is new since `after`: first the task events, then the agent events with their ordinals. The
      timeline leaves out the agent events if the log already holds durable copies of them. */
  method InspectTaskView(task: AssistantTask, after: Cursor) returns (view: View)
    ensures view.records
         == TaskRecords(EventsAfter(task.events, after.taskNumber))
            + AgentRecords(AgentEvents(task.lastReport), after.agentOrdinal)
    ensures view.timeline
         == if exists event :: event in task.events && DurableKind(event.record.kind)
            then TaskRecords(EventsAfter(task.events, after.taskNumber)) else view.records
    ensures view.cursor == Cursor(HighestNumber(task.events), |AgentEvents(task.lastReport)|)
  {
    hide AgentEvents, AgentRecords, EventsAfter, HighestNumber, TaskRecords, WithoutAgentRecords;
    var events, entries := task.events, AgentEvents(task.lastReport);
    NoEntries(entries[..0], after.agentOrdinal);
    NoEvents(events[..0], after.taskNumber);
    var records: seq<TimelineRecord> := [];
    var highest := 0;
    for i := 0 to |events|
      invariant records == TaskRecords(EventsAfter(events[..i], after.taskNumber))
      invariant highest == HighestNumber(events[..i])
    {
      OneMoreEvent(events, i, after.taskNumber);
      if events[i].number > after.taskNumber {
        records := records + [TaskRecord(events[i])];
      }
      if events[i].number > highest {
        highest := events[i].number;
      }
    }
    assert events[..|events|] == events;
    ghost var tasks := records;
    for index := 0 to |entries|
      invariant records == tasks + AgentRecords(entries[..index], after.agentOrdinal)
    {
      var ordinal := index + 1;
      OneMoreEntry(entries, index, after.agentOrdinal);
      if ordinal > after.agentOrdinal {
        records := records + [AgentRecord(ordinal, entries[index])];
      }
    }
    assert entries[..|entries|] == entries;
    OnlyTaskRecords(EventsAfter(events, after.taskNumber));
    OnlyAgentRecords(entries, after.agentOrdinal);
    TaskRecordsSurvive(records, |tasks|);
    DurableIf(events);
    var durable := HasDurableAgentEvents(events);
    view := View(records, if durable then WithoutAgentRecords(records) else records, Cursor(highest, |entries|));
  }

  // ---- Exactly-once delivery ----

  lemma {:induction false} NumberedPage(events: seq<TaskEvent>, number: nat)
    requires Numbered(events) && number <= |events|
    ensures EventsAfter(events, number) == events[number..] && HighestNumber(events) == |events|
    decreases |events|
  {
    if events != [] {
      var last := |events| - 1;
      assert Numbered(events[..last]);
      if number == |events| {
        NumberedPage(events[..last], last);
        NothingAfter(events, number);
      } else {
        NumberedPage(events[..last], number);
        assert events[number..] == events[..last][number..] + [events[last]];
      }
    }
  }

  lemma {:induction false} NothingAfter(events: seq<TaskEvent>, number: nat)
    requires forall k :: 0 <= k < |events| ==> events[k].number <= number
    ensures EventsAfter(events, number) == []
    decreases |events|
  {
    if events != [] {
      NothingAfter(events[..|events| - 1], number);
    }
  }

  /** What happens to one task and its watcher: the log grows, a report arrives, the watcher polls with
      the cursor of its last page. */
  datatype Step = Append(record: EventRecord) | Report(report: TaskReport) | Poll

  datatype Watch = Watch(
    events: seq<TaskEvent>,
    report: Option<TaskReport>,
    cursor: Cursor,
    seen: seq<TaskEvent>,
    seenAgents: seq<AgentEntry>)

  function Stepped(w: Watch, step: Step): Watch
  {
    match step
    case Append(record) => w.(events := Appended(w.events, record))
    case Report(report) => w.(report := Some(report))
    case Poll =>
      w.(seen := w.seen + EventsAfter(w.events, w.cursor.taskNumber),
         seenAgents := w.seenAgents + EntriesAfter(AgentEvents(w.report), w.cursor.agentOrdinal),
         cursor := Cursor(HighestNumber(w.events), |AgentEvents(w.report)|))
  }

  function Watched(steps: seq<Step>): Watch
  {
    if steps == [] then Watch([], None, Cursor(0, 0), [], [])
    else Stepped(Watched(steps[..|steps| - 1]), steps[|steps| - 1])
  }

  function Reports(steps: seq<Step>): nat
  {
    if steps == [] then 0
    else Reports(steps[..|steps| - 1]) + if steps[|steps| - 1].Report? then 1 else 0
  }

  /** The watcher has seen exactly the log up to its cursor. */
  predicate InStep(w: Watch)
  {
    Numbered(w.events) && w.cursor.taskNumber <= |w.events| && w.seen == w.events[..w.cursor.taskNumber]
  }

  lemma InStepKept(w: Watch, step: Step)
    requires InStep(w)
    ensures InStep(Stepped(w, step)) && (step.Poll? ==> Stepped(w, step).seen == w.events)
  {
    hide EventsAfter, HighestNumber, AgentEvents, EntriesAfter;
    NumberedPage(w.events, w.cursor.taskNumber);
  }

  /** For every interleaving of appends, reports and polls the watcher has seen exactly the log up to
      its cursor: no gap, no repeat; a poll catches up with the whole log. */
  lemma {:induction false} TaskEventsExactlyOnce(steps: seq<Step>)
    ensures var w := Watched(steps);
      && InStep(w)
      && (steps != [] && steps[|steps| - 1].Poll? ==> w.seen == w.events)
    decreases |steps|
  {
    if steps != [] {
      hide InStep;
      TaskEventsExactlyOnce(steps[..|steps| - 1]);
      InStepKept(Watched(steps[..|steps| - 1]), steps[|steps| - 1]);
    }
  }

  lemma {:induction false} NoReportNoAgents(steps: seq<Step>)
    requires Reports(steps) == 0
    ensures Watched(steps).report == None && Watched(steps).seenAgents == [] && Watched(steps).cursor.agentOrdinal == 0
    decreases |steps|
  {
    if steps != [] {
      NoReportNoAgents(steps[..|steps| - 1]);
    }
  }

  /** Agent events are delivered exactly once too, as long as a single report is applied. */
  lemma {:induction false} AgentEventsExactlyOnce(steps: seq<Step>)
    requires Reports(steps) <= 1
    ensures var w := Watched(steps);
      && w.cursor.agentOrdinal <= |AgentEvents(w.report)|
      && w.seenAgents == AgentEvents(w.report)[..w.cursor.agentOrdinal]
      && (steps != [] && steps[|steps| - 1].Poll? ==> w.seenAgents == AgentEvents(w.report))
    decreases |steps|
  {
    if steps != [] {
      var rest := steps[..|steps| - 1];
      if steps[|steps| - 1].Report? {
        NoReportNoAgents(rest);
      } else {
        AgentEventsExactlyOnce(rest);
      }
    }
  }

  /** What was delivered is a beginning of the report in force, up to the cursor. */
  predicate AgentsInStep(w: Watch)
  {
    w.cursor.agentOrdinal <= |AgentEvents(w.report)| && w.seenAgents == AgentEvents(w.report)[..w.cursor.agentOrdinal]
  }

  /** At every moment: no agent event was missed, repeated, or delivered differently. */
  ghost predicate AlwaysInStep(steps: seq<Step>)
  {
    forall k :: 0 <= k <= |steps| ==> AgentsInStep(Watched(steps[..k]))
  }

  /** Every report that was applied extends what had been delivered before it. */
  ghost predicate ReportsExtend(steps: seq<Step>)
  {
    forall k :: 0 <= k < |steps| && steps[k].Report? ==>
      Watched(steps[..k]).seenAgents <= AgentEvents(Some(steps[k].report))
  }

  lemma AgentsInStepKept(w: Watch, step: Step)
    requires AgentsInStep(w)
    ensures AgentsInStep(Stepped(w, step)) <==>
            (step.Report? ==> w.seenAgents <= AgentEvents(Some(step.report)))
  {
    hide EventsAfter, HighestNumber, AgentEvents, Flattened;
  }

  lemma WatchedNext(steps: seq<Step>, k: nat)
    requires k < |steps|
    ensures Watched(steps[..k + 1]) == Stepped(Watched(steps[..k]), steps[k])
  {
    hide Stepped;
    assert steps[..k + 1][..k] == steps[..k];
  }

  lemma {:induction false} ExtendingInStep(steps: seq<Step>, k: nat)
    requires ReportsExtend(steps) && k <= |steps|
    ensures AgentsInStep(Watched(steps[..k]))
    decreases k
  {
    if k > 0 {
      ExtendingInStep(steps, k - 1);
      hide Watched, Stepped, AgentsInStep, AgentEvents;
      WatchedNext(steps, k - 1);
      AgentsInStepKept(Watched(steps[..k - 1]), steps[k - 1]);
    }
  }

  /** Agent events are delivered exactly once, whatever the log, the reports and the polls do, if and only
      if every report applied extends what was delivered before it. */
  lemma DeliveredIfReportsExtend(steps: seq<Step>)
    ensures AlwaysInStep(steps) <==> ReportsExtend(steps)
  {
    hide Watched, Stepped, AgentsInStep, AgentEvents;
    if ReportsExtend(steps) {
      forall k | 0 <= k <= |steps| ensures AgentsInStep(Watched(steps[..k])) {
        ExtendingInStep(steps, k);
      }
    }
    if AlwaysInStep(steps) {
      forall k | 0 <= k < |steps| && steps[k].Report?
        ensures Watched(steps[..k]).seenAgents <= AgentEvents(Some(steps[k].report))
      {
        WatchedNext(steps, k);
        AgentsInStepKept(Watched(steps[..k]), steps[k]);
      }
    }
  }

  /** After every poll the watcher has seen exactly the events of the report in force. */
  ghost predicate PollsExact(steps: seq<Step>)
  {
    forall k :: 0 <= k < |steps| && steps[k].Poll? ==>
      Watched(steps[..k + 1]).seenAgents == AgentEvents(Watched(steps[..k + 1]).report)
  }

  /** At every poll so far the report in force extended what earlier polls delivered. */
  ghost predicate PollsExtend(steps: seq<Step>, upTo: nat)
    requires upTo <= |steps|
  {
    forall k :: 0 <= k < upTo && steps[k].Poll? ==>
      Watched(steps[..k]).seenAgents <= AgentEvents(Watched(steps[..k]).report)
  }

  ghost predicate PolledReportsExtend(steps: seq<Step>)
  {
    PollsExtend(steps, |steps|)
  }

  lemma PollsExtendBefore(steps: seq<Step>, k: nat, upTo: nat)
    requires k <= upTo <= |steps| && PollsExtend(steps, upTo)
    ensures PollsExtend(steps, k)
    ensures k < upTo && steps[k].Poll? ==>
              Watched(steps[..k]).seenAgents <= AgentEvents(Watched(steps[..k]).report)
  {
    hide Watched, AgentEvents;
  }

  lemma PollExact(w: Watch)
    requires |w.seenAgents| == w.cursor.agentOrdinal
    ensures var t := Stepped(w, Poll);
      && (t.seenAgents == AgentEvents(t.report) <==> w.seenAgents <= AgentEvents(w.report))
      && (w.seenAgents <= AgentEvents(w.report) ==> |t.seenAgents| == t.cursor.agentOrdinal)
  {
    hide EventsAfter, HighestNumber, AgentEvents, Flattened;
    var entries := AgentEvents(w.report);
    if w.seenAgents <= entries {
      assert entries == w.seenAgents + entries[|w.seenAgents|..];
    }
  }

  lemma {:induction false} CountedSoFar(steps: seq<Step>, k: nat)
    requires k <= |steps| && PollsExtend(steps, k)
    ensures |Watched(steps[..k]).seenAgents| == Watched(steps[..k]).cursor.agentOrdinal
    decreases k
  {
    if k > 0 {
      hide PollsExtend, AgentEvents, EventsAfter, EntriesAfter, HighestNumber;
      PollsExtendBefore(steps, k - 1, k);
      CountedSoFar(steps, k - 1);
      hide Watched;
      WatchedNext(steps, k - 1);
      if steps[k - 1].Poll? {
        PollExact(Watched(steps[..k - 1]));
      }
    }
  }

  /** The same as the watcher sees it: what it has is right after every poll if and only if at every poll
      the report in force extends what was delivered. A report replaced before anyone polled does no harm. */
  lemma ExactAtPolls(steps: seq<Step>)
    ensures PollsExact(steps) <==> PolledReportsExtend(steps)
  {
    hide Watched, Stepped, AgentEvents;
    if PolledReportsExtend(steps) {
      forall k | 0 <= k < |steps| && steps[k].Poll?
        ensures Watched(steps[..k + 1]).seenAgents == AgentEvents(Watched(steps[..k + 1]).report)
      {
        PollsExtendBefore(steps, k, |steps|);
        CountedSoFar(steps, k);
        WatchedNext(steps, k);
        PollExact(Watched(steps[..k]));
      }
    }
    if PollsExact(steps) {
      ExactExtends(steps, |steps|);
    }
  }

  lemma {:induction false} ExactExtends(steps: seq<Step>, k: nat)
    requires PollsExact(steps) && k <= |steps|
    ensures PollsExtend(steps, k)
    decreases k
  {
    hide Watched, Stepped, AgentEvents;
    if k > 0 {
      ExactExtends(steps, k - 1);
      if steps[k - 1].Poll? {
        CountedSoFar(steps, k - 1);
        WatchedNext(steps, k - 1);
        PollExact(Watched(steps[..k - 1]));
      }
    }
  }

  /** The concrete failure: a second report that changes an event already delivered. */
  lemma ReplacedReportRepeats(node: NodeId, first: string, second: string)
    requires first != second
    ensures var a := TaskReport(WaitingForInfo, [RunLog(node, Execute, [first])]);
      var b := TaskReport(NodeStatus.Committed, [RunLog(node, Execute, [second])]);
      var w := Watched([Report(a), Poll, Report(b), Poll]);
      w.seenAgents != AgentEvents(w.report)
  {
    var a := TaskReport(WaitingForInfo, [RunLog(node, Execute, [first])]);
    var b := TaskReport(NodeStatus.Committed, [RunLog(node, Execute, [second])]);
    var steps := [Report(a), Poll];
    assert steps[..1] == [Report(a)] && [Report(a)][..0] == [];
    assert Reports([Report(a)]) == 1 && Reports(steps) == 1;
    AgentEventsExactlyOnce(steps);
    var all := [Report(a), Poll, Report(b), Poll];
    assert all[..3][..2] == steps;
    assert all[..3] == [Report(a), Poll, Report(b)];
    assert a.runs[..0] == [] && b.runs[..0] == [];
    assert Flattened(a.runs) == [AgentEntry(1, 1, node, Execute, first)];
    assert Flattened(b.runs) == [AgentEntry(1, 1, node, Execute, second)];
    PollExact(Watched(all[..3]));
  }
}
