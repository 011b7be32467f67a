/** The agent host's line framing: text arrives in arbitrary chunks, lines are handled one by one, and
    a shutdown line ends the session. Chunks are the pieces of text the streaming decoder yields. */
module RuntimeHost {

  // ---- Newline framing ----

  function IndexOf(text: string, c: char): (index: int)
    ensures -1 <= index < |text|
    ensures index >= 0 ==> text[index] == c && c !in text[..index]
    ensures index < 0 ==> c !in text
  {
    if text == "" then -1
    else if text[0] == c then 0
    else
      var rest := IndexOf(text[1..], c);
      assert text == [text[0]] + text[1..];
      if rest < 0 then -1
      else
        assert text[..rest + 1] == [text[0]] + text[1..][..rest];
        rest + 1
  }

  /** The newline-terminated lines of a text, and what follows the last newline. */
  function Lines(text: string): seq<string>
    decreases |text|
  {
    var index := IndexOf(text, '\n');
    if index < 0 then [] else [text[..index]] + Lines(text[index + 1..])
  }

  function Tail(text: string): (tail: string)
    ensures '\n' !in tail
    decreases |text|
  {
    var index := IndexOf(text, '\n');
    if index < 0 then text else Tail(text[index + 1..])
  }

  function Terminated(lines: seq<string>): string
  {
    if lines == [] then "" else lines[0] + "\n" + Terminated(lines[1..])
  }

  predicate Unbroken(lines: seq<string>)
  {
    forall k :: 0 <= k < |lines| ==> '\n' !in lines[k]
  }

  lemma {:induction false} IndexIs(text: string, c: char, k: nat)
    requires k < |text| && text[k] == c && c !in text[..k]
    ensures IndexOf(text, c) == k
    decreases k
  {
    if k > 0 {
      assert text[..k] == [text[0]] + text[1..][..k - 1];
      IndexIs(text[1..], c, k - 1);
    }
  }

  lemma FirstLine(line: string, rest: string)
    requires '\n' !in line
    ensures Lines(line + "\n" + rest) == [line] + Lines(rest) && Tail(line + "\n" + rest) == Tail(rest)
  {
    hide IndexOf;
    var text := line + "\n" + rest;
    assert text[..|line|] == line && text[|line| + 1..] == rest;
    IndexIs(text, '\n', |line|);
  }

  lemma NoLine(tail: string)
    requires '\n' !in tail
    ensures Lines(tail) == [] && Tail(tail) == tail
  {
    hide IndexOf;
  }

  /** Framing and unframing are inverse: a text is its lines and its tail, and nothing else splits so. */
  lemma {:induction false} LinesTerminated(lines: seq<string>, tail: string)
    requires Unbroken(lines) && '\n' !in tail
    ensures Lines(Terminated(lines) + tail) == lines && Tail(Terminated(lines) + tail) == tail
    decreases |lines|
  {
    hide IndexOf, Lines, Tail;
    if lines == [] {
      assert Terminated(lines) + tail == tail;
      NoLine(tail);
    } else {
      var rest := Terminated(lines[1..]) + tail;
      LinesTerminated(lines[1..], tail);
      FirstLine(lines[0], rest);
      assert Terminated(lines) + tail == lines[0] + "\n" + rest;
    }
  }

  lemma FirstTerminated(line: string, rest: seq<string>)
    ensures Terminated([line] + rest) == line + "\n" + Terminated(rest)
  {
    assert ([line] + rest)[1..] == rest;
  }

  lemma {:induction false} TextIsLines(text: string)
    ensures Unbroken(Lines(text)) && text == Terminated(Lines(text)) + Tail(text)
    decreases |text|
  {
    hide IndexOf, Lines, Tail, Terminated;
    var index := IndexOf(text, '\n');
    if index >= 0 {
      var line, rest := text[..index], text[index + 1..];
      assert text == line + "\n" + rest;
      TextIsLines(rest);
      FirstLine(line, rest);
      FirstTerminated(line, Lines(rest));
      assert text == line + "\n" + Terminated(Lines(rest)) + Tail(rest);
    } else {
      NoLine(text);
      NothingTerminated();
      assert "" + text == text;
    }
  }

  lemma NothingTerminated()
    ensures Terminated([]) == ""
  {
  }

  lemma {:induction false} TerminatedMore(first: seq<string>, second: seq<string>)
    ensures Terminated(first + second) == Terminated(first) + Terminated(second)
    decreases |first|
  {
    if first == [] {
      assert first + second == second;
    } else {
      TerminatedMore(first[1..], second);
      assert (first + second)[1..] == first[1..] + second;
    }
  }

  /** More text only extends the lines: the old tail is completed by it. */
  lemma LinesOfMore(text: string, more: string)
    ensures Lines(text + more) == Lines(text) + Lines(Tail(text) + more)
    ensures Tail(text + more) == Tail(Tail(text) + more)
  {
    hide IndexOf, Lines, Tail, Terminated;
    var rest := Tail(text) + more;
    TextIsLines(text);
    TextIsLines(rest);
    TerminatedMore(Lines(text), Lines(rest));
    LinesTerminated(Lines(text) + Lines(rest), Tail(rest));
    assert text + more == Terminated(Lines(text)) + rest;
    assert text + more == Terminated(Lines(text) + Lines(rest)) + Tail(rest);
  }

  /** The lines up to and including the first that stops the host. */
  function UpToStop(lines: seq<string>, stops: string -> bool): seq<string>
  {
    if lines == [] then [] else if stops(lines[0]) then [lines[0]] else [lines[0]] + UpToStop(lines[1..], stops)
  }

  predicate Stops(lines: seq<string>, stops: string -> bool)
  {
    exists k :: 0 <= k < |lines| && stops(lines[k])
  }

  /** What is handled is a beginning of the lines: all of them if none stops the host, and otherwise those
      up to the first that does, which is itself handled. */
  lemma {:induction false} UpToStopIs(lines: seq<string>, stops: string -> bool)
    ensures UpToStop(lines, stops) <= lines
    ensures !Stops(lines, stops) ==> UpToStop(lines, stops) == lines
    ensures Stops(lines, stops) ==>
      var last := |UpToStop(lines, stops)| - 1;
      0 <= last < |lines| && stops(lines[last]) && forall k :: 0 <= k < last ==> !stops(lines[k])
    decreases |lines|
  {
    if lines != [] {
      UpToStopIs(lines[1..], stops);
      StopsFirst(lines[0], lines[1..], stops);
      assert lines == [lines[0]] + lines[1..];
      if !stops(lines[0]) {
        forall k | 0 < k < |lines| ensures lines[k] == lines[1..][k - 1] {
        }
      }
    }
  }

  lemma StopsFirst(line: string, rest: seq<string>, stops: string -> bool)
    ensures Stops([line] + rest, stops) <==> stops(line) || Stops(rest, stops)
    ensures UpToStop([line] + rest, stops) == if stops(line) then [line] else [line] + UpToStop(rest, stops)
  {
    var all := [line] + rest;
    assert all[0] == line && all[1..] == rest;
    if k :| 0 <= k < |all| && stops(all[k]) {
      assert k == 0 || all[k] == rest[k - 1];
    }
    if k :| 0 <= k < |rest| && stops(rest[k]) {
      assert all[k + 1] == rest[k];
    }
  }

  lemma {:induction false} UpToStopMore(first: seq<string>, second: seq<string>, stops: string -> bool)
    ensures UpToStop(first + second, stops)
         == if Stops(first, stops) then UpToStop(first, stops) else first + UpToStop(second, stops)
    ensures Stops(first + second, stops) <==> Stops(first, stops) || Stops(second, stops)
    decreases |first|
  {
    hide UpToStop, Stops;
    if first == [] {
      NothingStops(stops);
      assert first + second == second;
      assert first + UpToStop(second, stops) == UpToStop(second, stops);
    } else {
      var line, rest := first[0], first[1..];
      UpToStopMore(rest, second, stops);
      StopsFirst(line, rest, stops);
      StopsFirst(line, rest + second, stops);
      assert first == [line] + rest && first + second == [line] + (rest + second);
      assert [line] + (rest + UpToStop(second, stops)) == ([line] + rest) + UpToStop(second, stops);
    }
  }

  lemma OneLineMore(done: seq<string>, line: string, rest: seq<string>, stops: string -> bool)
    requires !Stops(done, stops)
    ensures stops(line) ==>
      UpToStop(done + ([line] + rest), stops) == done + [line] && Stops(done + ([line] + rest), stops)
    ensures !stops(line) ==> !Stops(done + [line], stops) && done + [line] + rest == done + ([line] + rest)
  {
    hide UpToStop, Stops;
    FirstStops(line, rest, stops);
    UpToStopMore(done, [line] + rest, stops);
    UpToStopMore(done, [line], stops);
  }

  lemma FirstStops(line: string, rest: seq<string>, stops: string -> bool)
    ensures Stops([line], stops) <==> stops(line)
    ensures stops(line) ==> UpToStop([line] + rest, stops) == [line] && Stops([line] + rest, stops)
  {
    assert ([line] + rest)[0] == line;
  }

  lemma NothingStops(stops: string -> bool)
    ensures !Stops([], stops)
  {
  }

  lemma AllHandled(done: seq<string>, stops: string -> bool)
    requires !Stops(done, stops)
    ensures UpToStop(done, stops) == done
  {
    UpToStopMore(done, [], stops);
    assert done + [] == done;
  }

  // ---- A socket session ----

  datatype Session = Session(buffer: string, handled: seq<string>, shuttingDown: bool)

  function NewSession(): Session { Session("", [], false) }

  /** What handling one chunk does to a session; after shutdown chunks are ignored. */
  ghost predicate Feeds(before: Session, chunk: string, stops: string -> bool, after: Session)
  {
    if before.shuttingDown then after == before
    else
      var text := before.buffer + chunk;
      && after.handled == before.handled + UpToStop(Lines(text), stops)
      && after.shuttingDown == Stops(Lines(text), stops)
      && (!after.shuttingDown ==> after.buffer == Tail(text))
  }

  class SocketState {
    var buffer: string
    var pending: seq<string>
    var shuttingDown: bool
    /** The lines given to the message handler, in order. */
    var handled: seq<string>

    function Snapshot(): Session
      reads this
    {
      Session(buffer, handled, shuttingDown)
    }

    constructor ()
      ensures Snapshot() == NewSession() && pending == []
    {
      buffer, pending, shuttingDown, handled := "", [], false, [];
    }

    /** A chunk waits until every chunk before it has been handled. */
    method OnData(chunk: string)
      modifies this`pending
      ensures pending == old(pending) + [chunk]
    {
      pending := pending + [chunk];
    }

    method RunNext(stops: string -> bool)
      requires pending != []
      modifies this
      ensures pending == old(pending)[1..]
      ensures Feeds(old(Snapshot()), old(pending)[0], stops, Snapshot())
    {
      var chunk := pending[0];
      pending := pending[1..];
      if !shuttingDown {
        HandleSocketData(chunk, stops);
      }
    }

    method HandleSocketData(chunk: string, stops: string -> bool)
      requires !shuttingDown
      modifies this`buffer, this`shuttingDown, this`handled
      ensures Feeds(old(Snapshot()), chunk, stops, Snapshot())
    {
      hide IndexOf, UpToStop, Stops, Lines, Tail;
      ghost var text := buffer + chunk;
      ghost var done: seq<string> := [];
      NothingStops(stops);
      buffer := buffer + chunk;
      var newlineIndex := IndexOf(buffer, '\n');
      while newlineIndex >= 0
        invariant newlineIndex == IndexOf(buffer, '\n')
        invariant Lines(text) == done + Lines(buffer) && Tail(text) == Tail(buffer)
        invariant !Stops(done, stops) && handled == old(handled) + done && !shuttingDown
        decreases |buffer|
      {
        var line := buffer[..newlineIndex];
        assert buffer == line + "\n" + buffer[newlineIndex + 1..];
        buffer := buffer[newlineIndex + 1..];
        FirstLine(line, buffer);
        handled := handled + [line];
        var shouldStop := stops(line);
        OneLineMore(done, line, Lines(buffer), stops);
        if shouldStop {
          shuttingDown := true;
          return;
        }
        done := done + [line];
        newlineIndex := IndexOf(buffer, '\n');
      }
      NoLine(buffer);
      AllHandled(done, stops);
      assert done + [] == done;
    }
  }

  // ---- Whole sessions ----

  function Concat(chunks: seq<string>): string
  {
    if chunks == [] then "" else Concat(chunks[..|chunks| - 1]) + chunks[|chunks| - 1]
  }

  /** A session after the chunks were handled one after the other. */
  ghost predicate FedAll(chunks: seq<string>, stops: string -> bool, session: Session)
    decreases |chunks|
  {
    if chunks == [] then session == NewSession()
    else
      var rest, chunk := chunks[..|chunks| - 1], chunks[|chunks| - 1];
      exists before :: FedAll(rest, stops, before) && Feeds(before, chunk, stops, session)
  }

  lemma FedMore(chunks: seq<string>, chunk: string, stops: string -> bool, before: Session, after: Session)
    requires FedAll(chunks, stops, before) && Feeds(before, chunk, stops, after)
    ensures FedAll(chunks + [chunk], stops, after)
  {
    hide Feeds;
    var all := chunks + [chunk];
    assert all[..|all| - 1] == chunks && all[|all| - 1] == chunk;
  }

  /** Framing does not depend on the chunking: what was handled is the newline split of the whole input,
      cut after the first shutdown line; without one, the unterminated tail stays in the buffer. */
  lemma {:induction false} ChunkingIndependent(chunks: seq<string>, stops: string -> bool, session: Session)
    requires FedAll(chunks, stops, session)
    ensures var text := Concat(chunks);
      && session.handled == UpToStop(Lines(text), stops)
      && session.shuttingDown == Stops(Lines(text), stops)
      && (!session.shuttingDown ==> session.buffer == Tail(text))
    decreases |chunks|
  {
    if chunks != [] {
      var rest, chunk := chunks[..|chunks| - 1], chunks[|chunks| - 1];
      var before :| FedAll(rest, stops, before) && Feeds(before, chunk, stops, session);
      ChunkingIndependent(rest, stops, before);
      var text := Concat(rest);
      LinesOfMore(text, chunk);
      UpToStopMore(Lines(text), Lines(Tail(text) + chunk), stops);
      if !before.shuttingDown {
        UpToStopMore(Lines(text), [], stops);
        assert Lines(text) + [] == Lines(text);
      }
    }
  }

  /** A peer that frames its messages with newlines gets exactly those handled, however the transport
      cuts the stream. */
  lemma FramedMessagesHandled(messages: seq<string>, chunks: seq<string>, stops: string -> bool, session: Session)
    requires Unbroken(messages) && Concat(chunks) == Terminated(messages)
    requires FedAll(chunks, stops, session)
    ensures session.handled == UpToStop(messages, stops)
    ensures session.shuttingDown == Stops(messages, stops)
    ensures !session.shuttingDown ==> session.buffer == ""
  {
    ChunkingIndependent(chunks, stops, session);
    LinesTerminated(messages, "");
    assert Terminated(messages) + "" == Terminated(messages);
  }

  /** Arrivals and turns of the promise chain in any interleaving. */
  datatype Step = Arrives(chunk: string) | Turn

  ghost predicate Schedule(steps: seq<Step>, stops: string -> bool, arrived: seq<string>, pending: seq<string>,
                           session: Session)
    decreases |steps|
  {
    if steps == [] then arrived == [] && pending == [] && session == NewSession()
    else
      var rest := steps[..|steps| - 1];
      match steps[|steps| - 1]
      case Arrives(chunk) =>
        && pending != [] && pending[|pending| - 1] == chunk
        && arrived != [] && arrived[|arrived| - 1] == chunk
        && Schedule(rest, stops, arrived[..|arrived| - 1], pending[..|pending| - 1], session)
      case Turn =>
        exists chunk, before ::
          Schedule(rest, stops, arrived, [chunk] + pending, before) && Feeds(before, chunk, stops, session)
  }

  /** Whatever the interleaving, the session has handled the arrived chunks in order, up to those that
      still wait. */
  lemma {:induction false} ArrivalOrder(steps: seq<Step>, stops: string -> bool, arrived: seq<string>,
                                        pending: seq<string>, session: Session)
    requires Schedule(steps, stops, arrived, pending, session)
    ensures |pending| <= |arrived| && arrived[|arrived| - |pending|..] == pending
    ensures FedAll(arrived[..|arrived| - |pending|], stops, session)
    decreases |steps|
  {
    hide Feeds;
    if steps != [] {
      var rest := steps[..|steps| - 1];
      match steps[|steps| - 1]
      case Arrives(chunk) =>
        var earlier := arrived[..|arrived| - 1];
        ArrivalOrder(rest, stops, earlier, pending[..|pending| - 1], session);
        var k := |arrived| - |pending|;
        assert earlier[..k] == arrived[..k];
        assert arrived[k..] == earlier[k..] + [chunk];
      case Turn =>
        var chunk, before :|
          Schedule(rest, stops, arrived, [chunk] + pending, before) && Feeds(before, chunk, stops, session);
        ArrivalOrder(rest, stops, arrived, [chunk] + pending, before);
        var k := |arrived| - |pending|;
        FedMore(arrived[..k - 1], chunk, stops, before, session);
        assert arrived[k - 1] == chunk;
        assert arrived[..k] == arrived[..k - 1] + [chunk];
        assert arrived[k..] == pending by {
          assert arrived[k - 1..] == [chunk] + pending;
          assert arrived[k..] == arrived[k - 1..][1..];
        }
    }
  }

  // ---- Standard input ----

  function WithTail(text: string): seq<string>
  {
    Lines(text) + (if Tail(text) == "" then [] else [Tail(text)])
  }

  /** Over standard input an unterminated last line counts as a line. */
  method ReadLines(chunks: seq<string>) returns (lines: seq<string>)
    ensures lines == WithTail(Concat(chunks))
  {
    hide IndexOf, Lines, Tail;
    lines := [];
    var buffer := "";
    NoLine("");
    for i := 0 to |chunks|
      invariant lines == Lines(Concat(chunks[..i])) && buffer == Tail(Concat(chunks[..i]))
    {
      assert chunks[..i + 1][..i] == chunks[..i];
      LinesOfMore(Concat(chunks[..i]), chunks[i]);
      buffer := buffer + chunks[i];
      ghost var text, yielded := buffer, lines;
      ghost var more: seq<string> := [];
      var newlineIndex := IndexOf(buffer, '\n');
      while newlineIndex >= 0
        invariant newlineIndex == IndexOf(buffer, '\n')
        invariant Lines(text) == more + Lines(buffer) && Tail(text) == Tail(buffer)
        invariant lines == yielded + more
        decreases |buffer|
      {
        var line := buffer[..newlineIndex];
        assert buffer == line + "\n" + buffer[newlineIndex + 1..];
        lines := lines + [line];
        more := more + [line];
        buffer := buffer[newlineIndex + 1..];
        FirstLine(line, buffer);
        newlineIndex := IndexOf(buffer, '\n');
      }
      NoLine(buffer);
    }
    assert chunks[..|chunks|] == chunks;
    if |buffer| > 0 {
      lines := lines + [buffer];
    }
  }

  lemma OneLine(line: string, stops: string -> bool)
    ensures UpToStop([line], stops) == [line]
  {
  }

  /** The two transports agree on terminated input and differ exactly by an unterminated last line. */
  lemma TransportsAgree(chunks: seq<string>, stops: string -> bool, session: Session)
    requires FedAll(chunks, stops, session)
    ensures UpToStop(WithTail(Concat(chunks)), stops)
         == session.handled + if session.shuttingDown || session.buffer == "" then [] else [session.buffer]
  {
    hide IndexOf, Lines, Tail, UpToStop, Stops, FedAll;
    ChunkingIndependent(chunks, stops, session);
    var text := Concat(chunks);
    if Tail(text) == "" {
      assert Lines(text) + [] == Lines(text);
    } else {
      UpToStopMore(Lines(text), [Tail(text)], stops);
      OneLine(Tail(text), stops);
    }
    if !Stops(Lines(text), stops) {
      AllHandled(Lines(text), stops);
    }
  }
}
