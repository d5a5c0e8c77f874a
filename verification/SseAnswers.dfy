/** How lines and unfinished messages of an event stream are read, whoever wrote them. */
module SseAnswers {
  import opened Text
  import opened SseFraming

  // ---------- lines ----------

  predicate NoColon(s: string) {
    forall i :: 0 <= i < |s| ==> s[i] != ':'
  }

  /** A field with this name and value: events and data count, everything else is ignored. */
  function FieldLine(name: string, value: string): Line {
    if name == "event" then EventLine(value) else if name == "data" then DataLine(value) else Ignored
  }

  lemma NoColonToFind(s: string)
    requires NoColon(s)
    ensures IndexOf(s, ":") == None
  {
    forall p: nat
      ensures !OccursAt(s, ":", p)
    {
      Differs(s, ":", p, 0);
    }
  }

  /**
   * What stands before the first colon names the field, what stands behind it is its value, without one space in
   * front. A line without a colon is a field with an empty value; a line that starts with one says nothing.
   */
  lemma {:induction false} LineAnswers(name: string, text: string)
    requires NoColon(name)
    ensures ReadLine(name) == FieldLine(name, "")
    ensures text == "" || text[0] != ' ' ==> ReadLine(name + ":" + text) == FieldLine(name, text)
    ensures ReadLine(name + ":" + (" " + text)) == FieldLine(name, text)
  {
    var plain, spaced := name + ":" + text, name + ":" + (" " + text);
    NoColonToFind(name);
    FindColon(name, text);
    FindColon(name, " " + text);
    assert plain[..|name|] == name && plain[|name| + 1..] == text;
    assert spaced[..|name|] == name && spaced[|name| + 1..] == " " + text;
    assert (" " + text)[1..] == text;
  }

  // ---------- line breaks ----------

  /** Without one carriage return at the end. */
  function WithoutCr(s: string): string {
    if s != "" && s[|s| - 1] == '\r' then s[..|s| - 1] else s
  }

  lemma {:induction false} NoBreakStays(line: string)
    requires NoNewline(line)
    ensures NormalizeNewlines(line) == line
    decreases |line|
  {
    if line != "" {
      NoBreakStays(line[1..]);
    }
  }

  lemma StepOver(c: char, s: string)
    requires !(c == '\r' && s != "" && s[0] == '\n')
    ensures NormalizeNewlines([c] + s) == [c] + NormalizeNewlines(s)
  {
    assert ([c] + s)[1..] == s;
  }

  lemma StepOverBreak(rest: string)
    ensures NormalizeNewlines("\r\n" + rest) == "\n" + NormalizeNewlines(rest)
  {
    assert ("\r\n" + rest)[2..] == rest;
  }

  /** A carriage return right before a line feed goes with it; every other one stays. */
  lemma {:induction false} BreakAnswers(line: string, rest: string)
    requires NoNewline(line)
    ensures NormalizeNewlines(line) == line
    ensures NormalizeNewlines(line + "\n" + rest) == WithoutCr(line) + "\n" + NormalizeNewlines(rest)
    decreases |line|
  {
    hide NormalizeNewlines;
    NoBreakStays(line);
    if line == "" {
      StepOver('\n', rest);
      assert line + "\n" + rest == "\n" + rest;
    } else if line == "\r" {
      StepOverBreak(rest);
      assert line + "\n" == "\r\n";
    } else {
      var c, tail := line[0], line[1..];
      BreakAnswers(tail, rest);
      assert line + "\n" + rest == [c] + (tail + "\n" + rest);
      assert tail == "" ==> c != '\r';
      StepOver(c, tail + "\n" + rest);
      assert WithoutCr(line) == [c] + WithoutCr(tail);
      assert [c] + (WithoutCr(tail) + "\n" + NormalizeNewlines(rest)) ==
          [c] + WithoutCr(tail) + "\n" + NormalizeNewlines(rest);
    }
  }

  // ---------- the end of a stream ----------

  lemma {:induction false} SolidHasNoBoundary(body: string)
    requires Solid(body)
    ensures FindSseFrameBoundary(body) == None
  {
    BoundaryIsEarliest(body);
    forall p: nat
      ensures !EndsFrameAt(body, p)
    {
      if OccursAt(body, "\n\n", p) {
        OccursChar(body, "\n\n", p, 0);
        OccursChar(body, "\n\n", p, 1);
        assert false;
      }
      if OccursAt(body, "\r\n\r\n", p) {
        OccursChar(body, "\r\n\r\n", p, 1);
        OccursChar(body, "\r\n\r\n", p, 2);
        assert false;
      }
    }
  }

  lemma {:induction false} BodyIsNotBlank(message: seq<Field>, newline: string)
    requires Writable(message)
    ensures !IsBlank(Body(message, newline))
  {
    var lines := PrintFields(message);
    var body := Body(message, newline);
    BlankMeansAllSpaces(body);
    FirstLineFirst(lines, newline);
    assert lines[0] == PrintField(message[0]);
    assert body[0] == lines[0][0];
    assert !IsSpace(body[0]);
  }

  lemma FirstLineFirst(lines: seq<string>, newline: string)
    requires lines != [] && lines[0] != ""
    ensures Join(lines, newline) != "" && Join(lines, newline)[0] == lines[0][0]
  {
  }

  lemma {:induction false} TailIsFlushed(messages: seq<seq<Field>>, newline: string, tail: string)
    requires forall i :: 0 <= i < |messages| ==> Writable(messages[i])
    requires newline in [LF, CRLF] && FindSseFrameBoundary(tail) == None
    ensures StreamFrames(PrintStream(messages, newline) + tail)
         == Bodies(messages, newline) + if IsBlank(tail) then [] else [tail]
  {
    hide Writable, PrintStream, Bodies, FindSseFrameBoundary, IsBlank;
    WrittenStreamIsFramed(messages, newline);
    FramesOfConcat(PrintStream(messages, newline), tail);
    assert "" + tail == tail;
    FramesDone(tail);
    assert Bodies(messages, newline) + [] == Bodies(messages, newline);
  }

  /**
   * The stream ends in the middle of a blank line: a last message that was not finished with one is delivered like
   * the others, and white space behind the last message delivers nothing.
   */
  lemma {:induction false} UnfinishedMessageIsDelivered<Event>(
      messages: seq<seq<Field>>, last: seq<Field>, newline: string, blank: string, chunks: seq<string>,
      parse: string -> Option<Event>)
    requires (forall i :: 0 <= i < |messages| ==> Writable(messages[i])) && Writable(last)
    requires newline in [LF, CRLF] && IsBlank(blank) && FindSseFrameBoundary(blank) == None
    ensures Concat(chunks) == PrintStream(messages, newline) + Body(last, newline) ==>
      Deliver(StreamFrames(Concat(chunks)), parse) == MeantEvents(messages + [last], parse)
    ensures Concat(chunks) == PrintStream(messages, newline) + blank ==>
      Deliver(StreamFrames(Concat(chunks)), parse) == MeantEvents(messages, parse)
  {
    hide Writable, StreamFrames, Deliver, MeantEvents, PrintStream, Body, FindSseFrameBoundary, IsBlank, Concat;
    LastIsSolid(last, newline);
    SolidHasNoBoundary(Body(last, newline));
    BodyIsNotBlank(last, newline);
    TailIsFlushed(messages, newline, Body(last, newline));
    TailIsFlushed(messages, newline, blank);
    var all := messages + [last];
    assert forall i :: 0 <= i < |all| ==> Writable(all[i]);
    BodiesDeliver(all, newline, parse);
    BodiesDeliver(messages, newline, parse);
    assert Bodies(all, newline) == Bodies(messages, newline) + [Body(last, newline)];
    assert Bodies(messages, newline) + [] == Bodies(messages, newline);
  }

  lemma LastIsSolid(message: seq<Field>, newline: string)
    requires Writable(message) && newline in [LF, CRLF]
    ensures Solid(Body(message, newline))
  {
    hide Solid, PrintFields;
    PrintedLinesAreSolid(message);
    JoinedLinesAreSolid(PrintFields(message), newline);
  }
}
