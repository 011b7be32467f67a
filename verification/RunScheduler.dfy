/** Reading the response to one agent run from a host whose message stream may interleave other runs,
    and merging the events streamed on the way into the response. */
module RunScheduler {
  datatype Response = Response(report: string, events: seq<string>)

  datatype HostMessage =
    | Event(id: string, event: string)
    | Result(id: string, response: Response)
    | Error(id: string, message: string)

  /** What one turn of the read loop can meet. The end of the list is the end of the stream. */
  datatype Incoming = Message(message: HostMessage) | Undecodable | ReadFailure | CancelRequested

  datatype SchedulerError = Cancelled | Read | Closed | Decode | Host(message: string)

  datatype Reading = Done(response: Response) | Failed(error: SchedulerError)

  // ---- Merging ----

  /** The events of `more` that are not in `known`, each at its first occurrence. */
  function NewEvents(known: seq<string>, more: seq<string>): seq<string>
  {
    if more == [] then []
    else
      var last := |more| - 1;
      var rest := more[..last];
      NewEvents(known, rest) + (if more[last] !in known && more[last] !in rest then [more[last]] else [])
  }

  lemma {:induction false} NewEventsAre(known: seq<string>, more: seq<string>)
    ensures forall event :: event in NewEvents(known, more) <==> event in more && event !in known
    ensures forall j, k :: 0 <= j < k < |NewEvents(known, more)| ==>
      NewEvents(known, more)[j] != NewEvents(known, more)[k]
    decreases |more|
  {
    if more != [] {
      var last := |more| - 1;
      NewEventsAre(known, more[..last]);
      assert more == more[..last] + [more[last]];
    }
  }

  predicate Ascending(at: seq<nat>)
  {
    forall j, k :: 0 <= j < k < |at| ==> at[j] < at[k]
  }

  /** An event that is not known and was not met before. */
  predicate NewAt(known: seq<string>, more: seq<string>, k: nat)
  {
    k < |more| && more[k] !in known && more[k] !in more[..k]
  }

  /** The new events come in the order of `more`: position by position they are the first occurrences of
      what is not known, all of them. */
  lemma {:induction false} NewEventsInOrder(known: seq<string>, more: seq<string>) returns (at: seq<nat>)
    ensures Ascending(at) && |at| == |NewEvents(known, more)|
    ensures forall j :: 0 <= j < |at| ==> NewAt(known, more, at[j]) && NewEvents(known, more)[j] == more[at[j]]
    ensures forall k :: NewAt(known, more, k) ==> k in at
    decreases |more|
  {
    if more == [] {
      at := [];
    } else {
      var last := |more| - 1;
      var shorter := more[..last];
      at := NewEventsInOrder(known, shorter);
      forall k: nat | k < last ensures NewAt(known, shorter, k) <==> NewAt(known, more, k) {
        assert shorter[..k] == more[..k];
      }
      if NewAt(known, more, last) {
        at := at + [last];
      }
    }
  }

  /** Keeps what was streamed and appends every event not seen yet, once. */
  method MergeStreamedEvents(streamed: seq<string>, resultEvents: seq<string>) returns (merged: seq<string>)
    ensures merged == streamed + NewEvents(streamed, resultEvents)
  {
    merged := streamed;
    for i := 0 to |resultEvents|
      invariant merged == streamed + NewEvents(streamed, resultEvents[..i])
    {
      NewEventsAre(streamed, resultEvents[..i]);
      assert resultEvents[..i + 1][..i] == resultEvents[..i];
      if resultEvents[i] !in merged {
        merged := merged + [resultEvents[i]];
      }
    }
    assert resultEvents[..|resultEvents|] == resultEvents;
  }

  lemma {:induction false} NothingNew(known: seq<string>, more: seq<string>)
    requires forall event :: event in more ==> event in known
    ensures NewEvents(known, more) == []
    decreases |more|
  {
    if more != [] {
      assert more[|more| - 1] in more;
      NothingNew(known, more[..|more| - 1]);
    }
  }

  /** Merging a list into itself, or the same result a second time, changes nothing. */
  lemma MergeIdempotent(streamed: seq<string>, more: seq<string>)
    ensures streamed + NewEvents(streamed, streamed) == streamed
    ensures var merged := streamed + NewEvents(streamed, more); merged + NewEvents(merged, more) == merged
  {
    NothingNew(streamed, streamed);
    NewEventsAre(streamed, more);
    NothingNew(streamed + NewEvents(streamed, more), more);
  }

  // ---- Reading ----

  /** Turns that end the reading for this id. */
  predicate Decisive(incoming: Incoming, id: string)
  {
    match incoming
    case Message(Event(_, _)) => false
    case Message(Result(other, _)) => other == id
    case Message(Error(other, _)) => other == id
    case _ => true
  }

  function StreamedFor(inputs: seq<Incoming>, id: string): seq<string>
  {
    if inputs == [] then []
    else
      var last := |inputs| - 1;
      var own := inputs[last].Message? && inputs[last].message.Event? && inputs[last].message.id == id;
      StreamedFor(inputs[..last], id) + (if own then [inputs[last].message.event] else [])
  }

  function Verdict(incoming: Incoming, streamed: seq<string>): Reading
    requires !(incoming.Message? && incoming.message.Event?)
  {
    match incoming
    case Message(Result(_, response)) => Done(response.(events := streamed + NewEvents(streamed, response.events)))
    case Message(Error(_, message)) => Failed(Host(message))
    case Undecodable => Failed(Decode)
    case ReadFailure => Failed(Read)
    case CancelRequested => Failed(Cancelled)
  }

  /** The outcome of reading: the first decisive turn decides, with the events streamed before it. */
  ghost predicate Reads(inputs: seq<Incoming>, id: string, consumed: nat, outcome: Reading)
  {
    && consumed <= |inputs|
    && (forall k :: 0 <= k < consumed - 1 ==> !Decisive(inputs[k], id))
    && if consumed > 0 && Decisive(inputs[consumed - 1], id)
       then outcome == Verdict(inputs[consumed - 1], StreamedFor(inputs[..consumed - 1], id))
       else consumed == |inputs| && outcome == Failed(Closed)
  }

  class HostConnection {
    var incoming: seq<Incoming>
    var sink: seq<string>

    constructor (incoming: seq<Incoming>)
      ensures this.incoming == incoming && sink == []
    {
      this.incoming, sink := incoming, [];
    }

    /** Reads until the response with the expected id, an error with that id, a failure or the end.
        Messages for other ids are skipped; own events reach the sink as they come in. */
    method ReadResponseOrCancel(expected: string, hasSink: bool) returns (outcome: Reading, ghost consumed: nat)
      modifies this
      ensures Reads(old(incoming), expected, consumed, outcome)
      ensures consumed <= |old(incoming)| && incoming == old(incoming)[consumed..]
      ensures sink == old(sink) + if hasSink then StreamedFor(old(incoming)[..consumed], expected) else []
    {
      ghost var inputs := incoming;
      var streamed: seq<string> := [];
      consumed := 0;
      while incoming != []
        invariant consumed <= |inputs| && incoming == inputs[consumed..]
        invariant forall k :: 0 <= k < consumed ==> !Decisive(inputs[k], expected)
        invariant streamed == StreamedFor(inputs[..consumed], expected)
        invariant sink == old(sink) + if hasSink then streamed else []
        decreases |incoming|
      {
        var next := incoming[0];
        incoming := incoming[1..];
        assert inputs[..consumed + 1][..consumed] == inputs[..consumed];
        consumed := consumed + 1;
        match next
        case CancelRequested => return Failed(Cancelled), consumed;
        case ReadFailure => return Failed(Read), consumed;
        case Undecodable => return Failed(Decode), consumed;
        case Message(message) =>
          match message {
            case Event(id, event) =>
              if id == expected {
                if hasSink {
                  sink := sink + [event];
                }
                streamed := streamed + [event];
              }
            case Result(id, response) =>
              if id == expected {
                var events := MergeStreamedEvents(streamed, response.events);
                return Done(response.(events := events)), consumed;
              }
            case Error(id, text) =>
              if id == expected {
                return Failed(Host(text)), consumed;
              }
          }
      }
      assert inputs[..consumed] == inputs;
      return Failed(Closed), consumed;
    }
  }

  // ---- What reading means ----

  /** The outcome and the amount read are determined by the stream. */
  lemma ReadsUniquely(inputs: seq<Incoming>, id: string, m: nat, first: Reading, n: nat, second: Reading)
    requires Reads(inputs, id, m, first) && Reads(inputs, id, n, second)
    ensures m == n && first == second
  {
  }

  predicate Concerns(incoming: Incoming, id: string)
  {
    incoming.Message? ==> incoming.message.id == id
  }

  /** The stream as the run `id` would see it alone. */
  function Own(inputs: seq<Incoming>, id: string): (own: seq<Incoming>)
    ensures |own| <= |inputs|
  {
    if inputs == [] then []
    else
      var last := |inputs| - 1;
      Own(inputs[..last], id) + (if Concerns(inputs[last], id) then [inputs[last]] else [])
  }

  lemma {:induction false} OwnPrefix(inputs: seq<Incoming>, id: string, k: nat)
    requires k <= |inputs|
    ensures Own(inputs[..k], id) <= Own(inputs, id)
    decreases |inputs|
  {
    if k < |inputs| {
      var last := |inputs| - 1;
      OwnPrefix(inputs[..last], id, k);
      assert inputs[..last][..k] == inputs[..k];
    } else {
      assert inputs[..k] == inputs;
    }
  }

  lemma {:induction false} OwnStreams(inputs: seq<Incoming>, id: string)
    ensures StreamedFor(Own(inputs, id), id) == StreamedFor(inputs, id)
    ensures (forall k :: 0 <= k < |inputs| ==> !Decisive(inputs[k], id)) ==>
              forall k :: 0 <= k < |Own(inputs, id)| ==> !Decisive(Own(inputs, id)[k], id)
    decreases |inputs|
  {
    if inputs != [] {
      var last := |inputs| - 1;
      OwnStreams(inputs[..last], id);
      var own := Own(inputs, id);
      if Concerns(inputs[last], id) {
        assert own[..|own| - 1] == Own(inputs[..last], id);
      } else {
        assert own == Own(inputs[..last], id);
        assert StreamedFor(inputs, id) == StreamedFor(inputs[..last], id);
      }
    }
  }

  /** Interleaved messages of other runs never influence the outcome, wherever they come. */
  lemma OthersDoNotMatter(inputs: seq<Incoming>, id: string, consumed: nat, outcome: Reading)
    requires Reads(inputs, id, consumed, outcome)
    ensures exists m :: Reads(Own(inputs, id), id, m, outcome)
  {
    hide Verdict;
    OwnPrefix(inputs, id, consumed);
    var read := inputs[..consumed];
    var own := Own(inputs, id);
    var m := |Own(read, id)|;
    assert own[..m] == Own(read, id);
    if consumed > 0 && Decisive(inputs[consumed - 1], id) {
      var before := inputs[..consumed - 1];
      assert read[..consumed - 1] == before;
      OwnStreams(before, id);
      assert Own(read, id) == Own(before, id) + [inputs[consumed - 1]];
      assert own[m - 1] == inputs[consumed - 1] && own[..m - 1] == Own(before, id);
      forall k | 0 <= k < m - 1 ensures !Decisive(own[k], id) {
        assert own[k] == Own(before, id)[k];
      }
      assert Reads(own, id, m, outcome);
    } else {
      assert read == inputs;
      OwnStreams(inputs, id);
      assert Reads(own, id, m, outcome);
    }
  }

  predicate OwnEvent(incoming: Incoming, id: string)
  {
    incoming.Message? && incoming.message.Event? && incoming.message.id == id
  }

  /** The streamed events are those of the run, all of them, in the order they came in. */
  lemma {:induction false} StreamedInOrder(inputs: seq<Incoming>, id: string) returns (at: seq<nat>)
    ensures Ascending(at) && |at| == |StreamedFor(inputs, id)|
    ensures forall j :: 0 <= j < |at| ==>
              at[j] < |inputs| && inputs[at[j]] == Message(Event(id, StreamedFor(inputs, id)[j]))
    ensures forall k :: 0 <= k < |inputs| && OwnEvent(inputs[k], id) ==> k in at
    decreases |inputs|
  {
    if inputs == [] {
      at := [];
    } else {
      var last := |inputs| - 1;
      at := StreamedInOrder(inputs[..last], id);
      if OwnEvent(inputs[last], id) {
        at := at + [last];
      }
    }
  }

  /** Turns the reading goes on after: messages for others, and its own events. */
  predicate Passed(incoming: Incoming, id: string)
  {
    incoming.Message? && (incoming.message.id == id ==> incoming.message.Event?)
  }

  /** How reading ends follows from the first turn it does not go on after. It delivers a response
      exactly if that is a result for the run; an error for the run is passed on with its message; a
      cancellation, a failed read and undecodable text each have their own error; and a stream without
      such a turn was closed. */
  lemma EndsAs(inputs: seq<Incoming>, id: string, consumed: nat, outcome: Reading) returns (k: nat)
    requires Reads(inputs, id, consumed, outcome)
    ensures k <= |inputs| && forall j :: 0 <= j < k ==> Passed(inputs[j], id)
    ensures k == |inputs| ==> consumed == k && outcome == Failed(Closed)
    ensures k < |inputs| ==> consumed == k + 1 && !Passed(inputs[k], id)
    ensures outcome.Done? <==> k < |inputs| && inputs[k].Message? && inputs[k].message.Result?
    ensures k < |inputs| ==>
              match inputs[k]
              case Message(Result(_, response)) => outcome.response.report == response.report
              case Message(Error(_, message)) => outcome == Failed(Host(message))
              case Message(Event(_, _)) => false
              case Undecodable => outcome == Failed(Decode)
              case ReadFailure => outcome == Failed(Read)
              case CancelRequested => outcome == Failed(Cancelled)
  {
    k := 0;
    while k < |inputs| && Passed(inputs[k], id)
      invariant k <= |inputs| && forall j :: 0 <= j < k ==> Passed(inputs[j], id)
    {
      k := k + 1;
    }
    forall j | 0 <= j < |inputs| ensures Decisive(inputs[j], id) <==> !Passed(inputs[j], id) {
    }
    if k < |inputs| {
      ReadsUniquely(inputs, id, consumed, outcome, k + 1, Verdict(inputs[k], StreamedFor(inputs[..k], id)));
    } else {
      ReadsUniquely(inputs, id, consumed, outcome, k, Failed(Closed));
    }
  }

  /** A stream that holds the events of a run and then its result delivers exactly those events, then
      the events only the result knows, whatever the other runs send in between. */
  lemma DeliversRun(inputs: seq<Incoming>, id: string, k: nat, response: Response, consumed: nat, outcome: Reading)
    requires k < |inputs| && inputs[k] == Message(Result(id, response))
    requires forall j :: 0 <= j < k ==> inputs[j].Message? && (inputs[j].message.id == id ==> inputs[j].message.Event?)
    requires Reads(inputs, id, consumed, outcome)
    ensures consumed == k + 1 && outcome.Done? && outcome.response.report == response.report
    ensures var streamed := StreamedFor(inputs[..k], id);
      && outcome.response.events[..|streamed|] == streamed
      && (forall event :: event in outcome.response.events <==> event in streamed || event in response.events)
  {
    assert Decisive(inputs[k], id);
    var streamed := StreamedFor(inputs[..k], id);
    assert Reads(inputs, id, k + 1, Verdict(inputs[k], streamed));
    ReadsUniquely(inputs, id, consumed, outcome, k + 1, Verdict(inputs[k], streamed));
    NewEventsAre(streamed, response.events);
  }
}
