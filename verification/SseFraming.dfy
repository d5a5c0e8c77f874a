/**
 * The command line's reader of the daemon's event stream: incremental framing of server-sent events
 * and the parsing of one frame (sections 9.2.5 and 9.2.6 of the WHATWG HTML Standard).
 */
module SseFraming {
  import opened Text

  // ---------- where a frame ends ----------

  const LF := "\n"
  const CRLF := "\r\n"

  datatype Boundary = Boundary(index: nat, length: nat)

  predicate EndsFrameAt(s: string, p: nat) {
    OccursAt(s, "\n\n", p) || OccursAt(s, "\r\n\r\n", p)
  }

  function FindSseFrameBoundary(input: string): (r: Option<Boundary>)
    ensures r.Some? ==> r.value.length > 0 && r.value.index + r.value.length <= |input|
  {
    var lf := IndexOf(input, "\n\n");
    var crlf := IndexOf(input, "\r\n\r\n");
    if lf.None? && crlf.None? then None
    else if lf.None? then Some(Boundary(crlf.value, 4))
    else if crlf.None? || lf.value < crlf.value then Some(Boundary(lf.value, 2))
    else Some(Boundary(crlf.value, 4))
  }

  /** The boundary is the earliest blank line of either kind, and its length is that line's. */
  lemma {:induction false} BoundaryIsEarliest(input: string)
    ensures var r := FindSseFrameBoundary(input);
      && (r.None? ==> forall p: nat :: !EndsFrameAt(input, p))
      && (r.Some? ==>
            && EndsFrameAt(input, r.value.index)
            && (forall p: nat :: p < r.value.index ==> !EndsFrameAt(input, p))
            && r.value.length == if OccursAt(input, "\n\n", r.value.index) then 2 else 4)
  {
    IndexOfIsFirst(input, "\n\n");
    IndexOfIsFirst(input, "\r\n\r\n");
    forall p: nat | OccursAt(input, "\n\n", p)
      ensures !OccursAt(input, "\r\n\r\n", p)
    {
      OccursChar(input, "\n\n", p, 0);
      Differs(input, "\r\n\r\n", p, 0);
    }
  }

  /** The earliest blank line is the only boundary there can be. */
  lemma {:induction false} BoundaryIs(input: string, i: nat)
    requires EndsFrameAt(input, i)
    requires forall p: nat :: p < i ==> !EndsFrameAt(input, p)
    ensures FindSseFrameBoundary(input) == Some(Boundary(i, if OccursAt(input, "\n\n", i) then 2 else 4))
  {
    BoundaryIsEarliest(input);
    var r := FindSseFrameBoundary(input).value;
    assert !(r.index < i) && !(i < r.index);
  }

  lemma OccursInPrefix(a: string, b: string, m: string, p: nat)
    requires p + |m| <= |a|
    ensures OccursAt(a + b, m, p) <==> OccursAt(a, m, p)
  {
    assert (a + b)[p..p + |m|] == a[p..p + |m|];
  }

  /** Text that arrives later cannot move a boundary that has been found. */
  lemma {:induction false} BoundaryIsStable(a: string, b: string)
    requires FindSseFrameBoundary(a).Some?
    ensures FindSseFrameBoundary(a + b) == FindSseFrameBoundary(a)
  {
    BoundaryIsEarliest(a);
    var i := FindSseFrameBoundary(a).value.index;
    forall p: nat | p < i
      ensures !EndsFrameAt(a + b, p)
    {
      assert !EndsFrameAt(a, p);
      OccursInPrefix(a, b, "\n\n", p);
      if p + 4 <= |a| {
        OccursInPrefix(a, b, "\r\n\r\n", p);
      } else {
        // only LF LF at p + 1 leaves so little room, and then the third character is LF, not CR
        OccursChar(a, "\n\n", i, 1);
        Differs(a + b, "\r\n\r\n", p, 2);
      }
    }
    OccursInPrefix(a, b, "\n\n", i);
    if i + 4 <= |a| {
      OccursInPrefix(a, b, "\r\n\r\n", i);
    }
    BoundaryIs(a + b, i);
  }

  // ---------- cutting a text into frames ----------

  datatype Framed = Framed(frames: seq<string>, remaining: string)

  /** The first complete frame of a text and the text behind its blank line. */
  function CutFrame(input: string): (r: Option<(string, string)>)
    ensures r.Some? ==> |r.value.1| < |input|
  {
    match FindSseFrameBoundary(input)
    case None => None
    case Some(b) => Some((input[..b.index], input[b.index + b.length..]))
  }

  /** Cutting one frame after the other with any cutting function that shortens the text. */
  function FramesBy(cut: string -> Option<(string, string)>, input: string): Framed
    decreases |input|
  {
    var c := cut(input);
    if c.None? || |c.value.1| >= |input| then Framed([], input)
    else
      var rest := FramesBy(cut, c.value.1);
      Framed([c.value.0] + rest.frames, rest.remaining)
  }

  /** All complete frames of a text, and what follows the last of them. */
  function Frames(input: string): Framed {
    FramesBy(CutFrame, input)
  }

  lemma FramesStep(s: string, b: Boundary)
    requires FindSseFrameBoundary(s) == Some(b)
    ensures Frames(s).frames == [s[..b.index]] + Frames(s[b.index + b.length..]).frames
    ensures Frames(s).remaining == Frames(s[b.index + b.length..]).remaining
  {
    assert CutFrame(s) == Some((s[..b.index], s[b.index + b.length..]));
  }

  lemma FramesDone(s: string)
    requires FindSseFrameBoundary(s) == None
    ensures Frames(s) == Framed([], s)
  {
    assert CutFrame(s) == None;
  }

  ghost predicate Stable(cut: string -> Option<(string, string)>) {
    forall a, b :: cut(a).Some? ==> cut(a + b) == Some((cut(a).value.0, cut(a).value.1 + b))
  }

  lemma {:induction false} FramesByConcat(cut: string -> Option<(string, string)>, a: string, b: string)
    requires Stable(cut)
    ensures FramesBy(cut, a + b).frames == FramesBy(cut, a).frames +
        FramesBy(cut, FramesBy(cut, a).remaining + b).frames
    ensures FramesBy(cut, a + b).remaining == FramesBy(cut, FramesBy(cut, a).remaining + b).remaining
    decreases |a|
  {
    var c := cut(a);
    if c.Some? && |c.value.1| < |a| {
      FramesByConcat(cut, c.value.1, b);
      ConcatAssoc([c.value.0], FramesBy(cut, c.value.1).frames,
          FramesBy(cut, FramesBy(cut, c.value.1).remaining + b).frames);
    }
  }

  /** More text only continues from the part that was left over. */
  lemma {:induction false} FramesOfConcat(a: string, b: string)
    ensures Frames(a + b).frames == Frames(a).frames + Frames(Frames(a).remaining + b).frames
    ensures Frames(a + b).remaining == Frames(Frames(a).remaining + b).remaining
  {
    CutFrameIsStable();
    FramesByConcat(CutFrame, a, b);
  }

  lemma {:induction false} CutFrameIsStable()
    ensures Stable(CutFrame)
  {
    forall a, b | CutFrame(a).Some?
      ensures CutFrame(a + b) == Some((CutFrame(a).value.0, CutFrame(a).value.1 + b))
    {
      BoundaryIsStable(a, b);
      var f := FindSseFrameBoundary(a).value;
      assert (a + b)[f.index + f.length..] == a[f.index + f.length..] + b;
      assert (a + b)[..f.index] == a[..f.index];
    }
  }

  /** What a whole stream amounts to: its complete frames, and the tail if it is not blank. */
  function StreamFrames(stream: string): seq<string> {
    var f := Frames(stream);
    f.frames + if IsBlank(f.remaining) then [] else [f.remaining]
  }

  // ---------- one frame ----------

  datatype Frame = Frame(event: Option<string>, data: string)

  datatype Line = Ignored | EventLine(value: string) | DataLine(value: string)

  function ReadLine(line: string): Line {
    if line == "" || line[0] == ':' then Ignored
    else
      var sep := IndexOf(line, ":");
      var field := if sep.None? then line else line[..sep.value];
      var raw := if sep.None? then "" else line[sep.value + 1..];
      var value := if raw != "" && raw[0] == ' ' then raw[1..] else raw;
      if field == "event" then EventLine(value)
      else if field == "data" then DataLine(value)
      else Ignored
  }

  /** The name given by the last event line. */
  function LastEvent(lines: seq<string>): Option<string> {
    if lines == [] then None
    else match ReadLine(lines[|lines| - 1])
      case EventLine(v) => Some(v)
      case _ => LastEvent(lines[..|lines| - 1])
  }

  function DataValues(lines: seq<string>): seq<string> {
    if lines == [] then []
    else
      var last := match ReadLine(lines[|lines| - 1]) case DataLine(v) => [v] case _ => [];
      DataValues(lines[..|lines| - 1]) + last
  }

  function NormalizeNewlines(s: string): string {
    if s == "" then ""
    else if |s| >= 2 && s[0] == '\r' && s[1] == '\n' then "\n" + NormalizeNewlines(s[2..])
    else [s[0]] + NormalizeNewlines(s[1..])
  }

  function FrameOfLines(lines: seq<string>): Option<Frame> {
    if LastEvent(lines).None? && DataValues(lines) == [] then None
    else Some(Frame(LastEvent(lines), Join(DataValues(lines), "\n")))
  }

  function ParsedFrame(rawFrame: string): Option<Frame> {
    FrameOfLines(Lines(NormalizeNewlines(rawFrame)))
  }

  lemma {:induction false} OneMoreLine(lines: seq<string>, i: nat)
    requires i < |lines|
    ensures LastEvent(lines[..i + 1]) ==
            match ReadLine(lines[i]) case EventLine(v) => Some(v) case _ => LastEvent(lines[..i])
    ensures DataValues(lines[..i + 1]) ==
            match ReadLine(lines[i]) case DataLine(v) => DataValues(lines[..i]) + [v] case _ => DataValues(lines[..i])
  {
    assert lines[..i + 1][..i] == lines[..i];
    assert DataValues(lines[..i]) + [] == DataValues(lines[..i]);
  }

  method ParseSseFrame(rawFrame: string) returns (r: Option<Frame>)
    ensures r == ParsedFrame(rawFrame)
  {
    var eventName: Option<string> := None;
    var dataLines: seq<string> := [];
    var lines := Lines(NormalizeNewlines(rawFrame));
    for i := 0 to |lines|
      invariant eventName == LastEvent(lines[..i])
      invariant dataLines == DataValues(lines[..i])
    {
      var rawLine := lines[i];
      OneMoreLine(lines, i);
      if rawLine == "" || rawLine[0] == ':' {
        continue;
      }
      var separatorIndex := IndexOf(rawLine, ":");
      var field := if separatorIndex.None? then rawLine else rawLine[..separatorIndex.value];
      var value := if separatorIndex.None? then "" else rawLine[separatorIndex.value + 1..];
      if value != "" && value[0] == ' ' {
        value := value[1..];
      }
      if field == "event" {
        eventName := Some(value);
        continue;
      }
      if field == "data" {
        dataLines := dataLines + [value];
      }
    }
    assert lines[..|lines|] == lines;
    if eventName.None? && dataLines == [] {
      return None;
    }
    return Some(Frame(eventName, Join(dataLines, "\n")));
  }

  // ---------- delivery ----------

  /** What reached the callback, in order, and whether reading stopped at an unreadable payload. */
  datatype Delivery<Event> = Delivery(events: seq<Event>, failed: bool)

  function Payload(rawFrame: string): Option<string> {
    match ParsedFrame(rawFrame)
    case None => None
    case Some(f) => if f.event != Some("event") || f.data == "" then None else Some(f.data)
  }

  /** The events of a frame list, up to the first payload `parse` cannot read. */
  function Deliver<Event>(frames: seq<string>, parse: string -> Option<Event>): Delivery<Event> {
    if frames == [] then Delivery([], false)
    else
      var rest := Deliver(frames[1..], parse);
      match Payload(frames[0])
      case None => rest
      case Some(data) =>
        match parse(data)
        case None => Delivery([], true)
        case Some(e) => Delivery([e] + rest.events, rest.failed)
  }

  lemma {:induction false} DeliverConcat<Event>(a: seq<string>, b: seq<string>, parse: string -> Option<Event>)
    ensures var first, second := Deliver(a, parse), Deliver(b, parse);
      Deliver(a + b, parse) ==
      if first.failed then first else Delivery(first.events + second.events, second.failed)
    decreases |a|
  {
    if a == [] {
      assert a + b == b;
    } else {
      assert (a + b)[1..] == a[1..] + b && (a + b)[0] == a[0];
      DeliverConcat(a[1..], b, parse);
      var first, second := Deliver(a[1..], parse), Deliver(b, parse);
      match Payload(a[0])
      case None =>
      case Some(data) =>
        match parse(data)
        case None =>
        case Some(e) => ConcatAssoc([e], first.events, second.events);
    }
  }

  /** A frame either delivers nothing, delivers one event, or fails. */
  method ConsumeSseFrame<Event>(rawFrame: string, parse: string -> Option<Event>)
    returns (event: Option<Event>, failed: bool)
    ensures failed <==> Payload(rawFrame).Some? && parse(Payload(rawFrame).value).None?
    ensures !failed ==> event == if Payload(rawFrame).None? then None else parse(Payload(rawFrame).value)
  {
    var frame := ParseSseFrame(rawFrame);
    if frame.None? || frame.value.event != Some("event") || frame.value.data == "" {
      return None, false;
    }
    event := parse(frame.value.data);
    failed := event.None?;
  }

  /** The frames a call of the framing loop has to deal with. */
  function Due(input: string, flush: bool): seq<string> {
    if flush then StreamFrames(input) else Frames(input).frames
  }

  lemma DueStep(input: string, b: Boundary, flush: bool)
    requires FindSseFrameBoundary(input) == Some(b)
    ensures Due(input, flush) == [input[..b.index]] + Due(input[b.index + b.length..], flush)
    ensures Frames(input).remaining == Frames(input[b.index + b.length..]).remaining
  {
    FramesStep(input, b);
    var rest := Frames(input[b.index + b.length..]);
    ConcatAssoc([input[..b.index]], rest.frames, if IsBlank(rest.remaining) then [] else [rest.remaining]);
  }

  /** Events already delivered, followed by what is still to come. */
  function Followed<Event>(events: seq<Event>, d: Delivery<Event>): Delivery<Event> {
    Delivery(events + d.events, d.failed)
  }

  lemma DeliverStep<Event>(events: seq<Event>, raw: string, rest: seq<string>, parse: string -> Option<Event>)
    ensures Followed(events, Deliver([raw] + rest, parse)) ==
      match Payload(raw)
      case None => Followed(events, Deliver(rest, parse))
      case Some(data) =>
        match parse(data)
        case None => Delivery(events, true)
        case Some(e) => Followed(events + [e], Deliver(rest, parse))
  {
    assert ([raw] + rest)[1..] == rest;
    assert events + [] == events;
    match Payload(raw)
    case None =>
    case Some(data) =>
      match parse(data)
      case None =>
      case Some(e) => ConcatAssoc(events, [e], Deliver(rest, parse).events);
  }

  /** The framing loop; the buffer strictly shrinks with every frame taken. */
  method ConsumeSseFrames<Event>(input: string, parse: string -> Option<Event>, flush: bool)
    returns (remaining: string, events: seq<Event>, failed: bool)
    ensures Delivery(events, failed) == Deliver(Due(input, flush), parse)
    ensures !failed ==>
              remaining == if flush && !IsBlank(Frames(input).remaining) then "" else Frames(input).remaining
  {
    remaining := input;
    events := [];
    failed := false;
    assert Followed([], Deliver(Due(input, flush), parse)) == Deliver(Due(input, flush), parse);
    while true
      invariant Frames(input).remaining == Frames(remaining).remaining
      invariant Deliver(Due(input, flush), parse) == Followed(events, Deliver(Due(remaining, flush), parse))
      decreases |remaining|
    {
      var boundary := FindSseFrameBoundary(remaining);
      if boundary.None? {
        break;
      }
      var b := boundary.value;
      var rawFrame := remaining[..b.index];
      DueStep(remaining, b, flush);
      remaining := remaining[b.index + b.length..];
      var event;
      event, failed := ConsumeSseFrame(rawFrame, parse);
      DeliverStep(events, rawFrame, Due(remaining, flush), parse);
      if failed {
        return;
      }
      if event.Some? {
        events := events + [event.value];
      }
    }
    FramesDone(remaining);
    if flush && |Trim(remaining)| > 0 {
      assert Due(remaining, flush) == [remaining] + [];
      var event;
      event, failed := ConsumeSseFrame(remaining, parse);
      DeliverStep(events, remaining, [], parse);
      if failed {
        return;
      }
      if event.Some? {
        events := events + [event.value];
      }
      remaining := "";
    } else {
      assert Due(remaining, flush) == [];
    }
  }

  function Concat(chunks: seq<string>): string {
    if chunks == [] then "" else Concat(chunks[..|chunks| - 1]) + chunks[|chunks| - 1]
  }

  /**
   * However the stream is cut into chunks, the events delivered, and whether reading fails, are those of
   * the whole text framed at once.
   */
  method StreamRunEvents<Event>(chunks: seq<string>, parse: string -> Option<Event>)
    returns (events: seq<Event>, failed: bool, eventCount: nat)
    ensures Delivery(events, failed) == Deliver(StreamFrames(Concat(chunks)), parse)
    ensures !failed ==> eventCount == |events|
  {
    var buffer := "";
    events, eventCount := [], 0;
    FramesDone("");
    for i := 0 to |chunks|
      invariant buffer == Frames(Concat(chunks[..i])).remaining
      invariant Deliver(Frames(Concat(chunks[..i])).frames, parse) == Delivery(events, false)
      invariant eventCount == |events|
    {
      buffer := buffer + chunks[i];
      var remaining, more, bad := ConsumeSseFrames(buffer, parse, false);
      NextChunk(chunks, i, parse);
      events := events + more;
      if bad {
        FailureIsFinal(chunks, i + 1, parse);
        return events, true, eventCount;
      }
      buffer := remaining;
      eventCount := eventCount + |more|;
    }
    assert chunks[..|chunks|] == chunks;
    var remaining, more, bad := ConsumeSseFrames(buffer, parse, true);
    LastFlush(Concat(chunks), parse);
    events := events + more;
    failed := bad;
    eventCount := eventCount + |more|;
  }

  lemma {:induction false} NothingLeftInRemainder(s: string)
    ensures Frames(Frames(s).remaining) == Framed([], Frames(s).remaining)
    decreases |s|
  {
    match FindSseFrameBoundary(s)
    case None => FramesDone(s);
    case Some(b) =>
      FramesStep(s, b);
      NothingLeftInRemainder(s[b.index + b.length..]);
  }

  lemma {:induction false} NextChunk<Event>(chunks: seq<string>, i: nat, parse: string -> Option<Event>)
    requires i < |chunks|
    ensures var sofar, now := Frames(Concat(chunks[..i])), Frames(Concat(chunks[..i + 1]));
      var fed := Frames(sofar.remaining + chunks[i]);
      var before, more := Deliver(sofar.frames, parse), Deliver(fed.frames, parse);
      && now.remaining == fed.remaining
      && (!before.failed ==> Deliver(now.frames, parse) == Delivery(before.events + more.events, more.failed))
  {
    var before := Concat(chunks[..i]);
    assert chunks[..i + 1][..i] == chunks[..i];
    assert Concat(chunks[..i + 1]) == before + chunks[i];
    FramesOfConcat(before, chunks[i]);
    DeliverConcat(Frames(before).frames, Frames(Frames(before).remaining + chunks[i]).frames, parse);
  }

  lemma {:induction false} LastFlush<Event>(whole: string, parse: string -> Option<Event>)
    ensures var before := Deliver(Frames(whole).frames, parse);
      var last := Deliver(StreamFrames(Frames(whole).remaining), parse);
      !before.failed ==> Deliver(StreamFrames(whole), parse) == Delivery(before.events + last.events, last.failed)
  {
    var tail := if IsBlank(Frames(whole).remaining) then [] else [Frames(whole).remaining];
    NothingLeftInRemainder(whole);
    assert [] + tail == tail;
    DeliverConcat(Frames(whole).frames, tail, parse);
  }

  /** Once reading has failed, the rest of the stream changes nothing. */
  lemma {:induction false} FailureIsFinal<Event>(chunks: seq<string>, i: nat, parse: string -> Option<Event>)
    requires i <= |chunks|
    ensures Deliver(Frames(Concat(chunks[..i])).frames, parse).failed ==>
              Deliver(StreamFrames(Concat(chunks)), parse) == Deliver(Frames(Concat(chunks[..i])).frames, parse)
    decreases |chunks| - i
  {
    var sofar := Concat(chunks[..i]);
    if i == |chunks| {
      assert chunks[..i] == chunks;
      DeliverConcat(Frames(sofar).frames, StreamFrames(sofar)[|Frames(sofar).frames|..], parse);
    } else {
      assert chunks[..i + 1][..i] == chunks[..i];
      assert Concat(chunks[..i + 1]) == sofar + chunks[i];
      FramesOfConcat(sofar, chunks[i]);
      DeliverConcat(Frames(sofar).frames, Frames(Frames(sofar).remaining + chunks[i]).frames, parse);
      FailureIsFinal(chunks, i + 1, parse);
    }
  }

  // ---------- written events are read back ----------

  /** A line of an event as the daemon writes it. */
  datatype Field = EventField(text: string) | DataField(text: string) | IdField(text: string) | Comment(text: string)

  predicate OneLine(s: string) {
    forall i :: 0 <= i < |s| ==> s[i] != '\r' && s[i] != '\n'
  }

  predicate Writable(message: seq<Field>) {
    message != [] && forall i :: 0 <= i < |message| ==> OneLine(message[i].text)
  }

  function PrintField(f: Field): string {
    match f
    case EventField(t) => "event: " + t
    case DataField(t) => "data: " + t
    case IdField(t) => "id: " + t
    case Comment(t) => ":" + t
  }

  function PrintFields(message: seq<Field>): seq<string> {
    seq(|message|, i requires 0 <= i < |message| => PrintField(message[i]))
  }

  function Body(message: seq<Field>, newline: string): string {
    Join(PrintFields(message), newline)
  }

  function Bodies(messages: seq<seq<Field>>, newline: string): seq<string> {
    seq(|messages|, i requires 0 <= i < |messages| => Body(messages[i], newline))
  }

  function PrintStream(messages: seq<seq<Field>>, newline: string): string {
    if messages == [] then ""
    else Body(messages[0], newline) + newline + newline + PrintStream(messages[1..], newline)
  }

  function EventName(message: seq<Field>): Option<string> {
    if message == [] then None
    else
      var last := message[|message| - 1];
      if last.EventField? then Some(last.text) else EventName(message[..|message| - 1])
  }

  function DataOf(message: seq<Field>): seq<string> {
    if message == [] then []
    else
      var last := message[|message| - 1];
      DataOf(message[..|message| - 1]) + if last.DataField? then [last.text] else []
  }

  /** What the reader should make of a message. */
  function Meant(message: seq<Field>): Option<Frame> {
    if EventName(message).None? && DataOf(message) == [] then None
    else Some(Frame(EventName(message), Join(DataOf(message), "\n")))
  }

  /** No blank line inside, and no line break at the end. */
  predicate Solid(s: string) {
    && s != ""
    && s[|s| - 1] != '\r'
    && s[|s| - 1] != '\n'
    && forall j :: 0 <= j < |s| - 1 && s[j] == '\n' ==> s[j + 1] != '\r' && s[j + 1] != '\n'
  }

  lemma BoundaryAfterBody(body: string, newline: string, rest: string)
    requires Solid(body) && newline in [LF, CRLF]
    ensures FindSseFrameBoundary(body + newline + newline + rest) == Some(Boundary(|body|, 2 * |newline|))
  {
    var s := body + newline + newline + rest;
    var n := |body|;
    assert forall j :: 0 <= j < n ==> s[j] == body[j];
    forall p: nat | p < n
      ensures !EndsFrameAt(s, p)
    {
      if body[p] == '\n' {
        Differs(s, "\n\n", p, 1);
        Differs(s, "\r\n\r\n", p, 0);
      } else {
        Differs(s, "\n\n", p, 0);
        if p + 1 < n && body[p + 1] == '\n' {
          Differs(s, "\r\n\r\n", p, 2);
        } else {
          Differs(s, "\r\n\r\n", p, if p + 1 < n then 1 else 0);
        }
      }
    }
    if newline == LF {
      assert s[n] == '\n' && s[n + 1] == '\n';
      assert OccursAt(s, "\n\n", n);
    } else {
      assert s[n] == '\r' && s[n + 1] == '\n' && s[n + 2] == '\r' && s[n + 3] == '\n';
      assert OccursAt(s, "\r\n\r\n", n);
      Differs(s, "\n\n", n, 0);
    }
    BoundaryIs(s, n);
  }

  predicate SolidLines(lines: seq<string>) {
    lines != [] && forall i :: 0 <= i < |lines| ==> lines[i] != "" && OneLine(lines[i])
  }

  lemma {:induction false} JoinedLinesAreSolid(lines: seq<string>, newline: string)
    requires SolidLines(lines) && newline in [LF, CRLF]
    ensures Solid(Join(lines, newline)) && Join(lines, newline)[0] == lines[0][0]
    decreases |lines|
  {
    if |lines| > 1 {
      JoinedLinesAreSolid(lines[1..], newline);
      var rest := Join(lines[1..], newline);
      var s := lines[0] + newline + rest;
      var k := |lines[0]| + |newline|;
      assert forall j :: 0 <= j < |lines[0]| ==> s[j] == lines[0][j];
      assert forall j :: k <= j < |s| ==> s[j] == rest[j - k];
      assert s[k] == rest[0] == lines[1][0];
    }
  }

  lemma {:induction false} NormalizeSkips(head: string, rest: string)
    requires OneLine(head)
    ensures NormalizeNewlines(head + rest) == head + NormalizeNewlines(rest)
    decreases |head|
  {
    if head == "" {
      assert head + rest == rest;
    } else {
      assert (head + rest)[1..] == head[1..] + rest;
      NormalizeSkips(head[1..], rest);
    }
  }

  lemma {:induction false} NormalizeJoined(lines: seq<string>, newline: string)
    requires SolidLines(lines) && newline in [LF, CRLF]
    ensures NormalizeNewlines(Join(lines, newline)) == Join(lines, "\n")
    decreases |lines|
  {
    if |lines| == 1 {
      NormalizeSkips(lines[0], "");
      assert lines[0] + "" == lines[0];
    } else {
      var rest := Join(lines[1..], newline);
      assert lines[0] + newline + rest == lines[0] + (newline + rest);
      NormalizeSkips(lines[0], newline + rest);
      assert (newline + rest)[|newline|..] == rest;
      assert NormalizeNewlines(newline + rest) == "\n" + NormalizeNewlines(rest);
      NormalizeJoined(lines[1..], newline);
    }
  }

  lemma FindColon(name: string, rest: string)
    requires forall i :: 0 <= i < |name| ==> name[i] != ':'
    ensures IndexOf(name + ":" + rest, ":") == Some(|name|)
  {
    var s := name + ":" + rest;
    forall p: nat | p < |name|
      ensures !OccursAt(s, ":", p)
    {
      assert s[p] == name[p];
      Differs(s, ":", p, 0);
    }
    IndexIs(s, ":", |name|);
  }

  lemma ReadNamed(name: string, text: string)
    requires name in ["event", "data", "id"]
    ensures ReadLine(name + ": " + text) ==
            if name == "event" then EventLine(text) else if name == "data" then DataLine(text) else Ignored
  {
    var line := name + ": " + text;
    assert line == name + ":" + (" " + text);
    FindColon(name, " " + text);
    assert line[..|name|] == name;
    assert line[|name| + 1..] == " " + text;
    assert (" " + text)[1..] == text;
  }

  lemma ReadPrinted(f: Field)
    ensures ReadLine(PrintField(f)) ==
            match f case EventField(t) => EventLine(t) case DataField(t) => DataLine(t) case _ => Ignored
  {
    assert "event: " == "event" + ": " && "data: " == "data" + ": " && "id: " == "id" + ": ";
    match f
    case EventField(t) => ReadNamed("event", t);
    case DataField(t) => ReadNamed("data", t);
    case IdField(t) => ReadNamed("id", t);
    case Comment(t) =>
  }

  lemma {:induction false} ReadPrintedFields(message: seq<Field>)
    ensures LastEvent(PrintFields(message)) == EventName(message)
    ensures DataValues(PrintFields(message)) == DataOf(message)
    decreases |message|
  {
    if message != [] {
      var front := message[..|message| - 1];
      ReadPrintedFields(front);
      ReadPrinted(message[|message| - 1]);
      assert PrintFields(message)[..|message| - 1] == PrintFields(front);
    }
  }

  lemma PrintedLinesAreSolid(message: seq<Field>)
    requires Writable(message)
    ensures SolidLines(PrintFields(message))
  {
    forall i | 0 <= i < |message|
      ensures PrintField(message[i]) != "" && OneLine(PrintField(message[i]))
    {
      var t := message[i].text;
      assert OneLine(t);
    }
  }

  /** One message, written with either kind of line break, is read back with its event name and data. */
  lemma {:induction false} MessageIsReadBack(message: seq<Field>, newline: string)
    requires Writable(message) && newline in [LF, CRLF]
    ensures ParsedFrame(Body(message, newline)) == Meant(message)
  {
    var lines := PrintFields(message);
    PrintedLinesAreSolid(message);
    NormalizeJoined(lines, newline);
    assert forall i :: 0 <= i < |lines| ==> OneLine(lines[i]) && NoNewline(lines[i]);
    LinesOfJoin(lines);
    ReadPrintedFields(message);
  }

  lemma BodyIsCut(body: string, newline: string, rest: string)
    requires Solid(body) && newline in [LF, CRLF]
    ensures Frames(body + newline + newline + rest) == Framed([body] + Frames(rest).frames, Frames(rest).remaining)
  {
    var s := body + newline + newline + rest;
    BoundaryAfterBody(body, newline, rest);
    FramesStep(s, Boundary(|body|, 2 * |newline|));
    assert s[..|body|] == body && s[|body| + 2 * |newline|..] == rest;
  }

  lemma {:induction false} WrittenStreamIsFramed(messages: seq<seq<Field>>, newline: string)
    requires forall i :: 0 <= i < |messages| ==> Writable(messages[i])
    requires newline in [LF, CRLF]
    ensures Frames(PrintStream(messages, newline)) == Framed(Bodies(messages, newline), "")
    decreases |messages|
  {
    hide Solid, PrintFields, Frames, Writable;
    if messages == [] {
      FramesDone("");
    } else {
      PrintedLinesAreSolid(messages[0]);
      JoinedLinesAreSolid(PrintFields(messages[0]), newline);
      BodyIsCut(Body(messages[0], newline), newline, PrintStream(messages[1..], newline));
      WrittenStreamIsFramed(messages[1..], newline);
      assert Bodies(messages, newline) == [Body(messages[0], newline)] + Bodies(messages[1..], newline);
    }
  }

  /**
   * A written stream falls into exactly its messages' bodies, with nothing left over, and each is read back
   * as it was meant. By the contract of StreamRunEvents this holds however the text is cut into chunks.
   */
  lemma {:induction false} WrittenStreamIsReadBack(messages: seq<seq<Field>>, newline: string)
    requires forall i :: 0 <= i < |messages| ==> Writable(messages[i])
    requires newline in [LF, CRLF]
    ensures StreamFrames(PrintStream(messages, newline)) == Bodies(messages, newline)
    ensures forall i :: 0 <= i < |messages| ==> ParsedFrame(Bodies(messages, newline)[i]) == Meant(messages[i])
  {
    WrittenStreamIsFramed(messages, newline);
    assert Bodies(messages, newline) + [] == Bodies(messages, newline);
    forall i | 0 <= i < |messages|
      ensures ParsedFrame(Bodies(messages, newline)[i]) == Meant(messages[i])
    {
      MessageIsReadBack(messages[i], newline);
    }
  }

  /** The data a message has for the callback: only messages named "event" have any. */
  function MeantData(message: seq<Field>): Option<string> {
    if EventName(message) != Some("event") || Join(DataOf(message), "\n") == "" then None
    else Some(Join(DataOf(message), "\n"))
  }

  /** The readable data of a list of messages, up to the first that cannot be read. */
  function MeantEvents<Event>(messages: seq<seq<Field>>, parse: string -> Option<Event>): Delivery<Event> {
    if messages == [] then Delivery([], false)
    else
      var rest := MeantEvents(messages[1..], parse);
      match MeantData(messages[0])
      case None => rest
      case Some(data) =>
        match parse(data)
        case None => Delivery([], true)
        case Some(e) => Delivery([e] + rest.events, rest.failed)
  }

  lemma PayloadIsMeant(message: seq<Field>, newline: string)
    requires Writable(message) && newline in [LF, CRLF]
    ensures Payload(Body(message, newline)) == MeantData(message)
  {
    hide ParsedFrame, Body;
    MessageIsReadBack(message, newline);
  }

  lemma {:induction false} BodiesDeliver<Event>(
      messages: seq<seq<Field>>, newline: string, parse: string -> Option<Event>)
    requires forall i :: 0 <= i < |messages| ==> Writable(messages[i])
    requires newline in [LF, CRLF]
    ensures Deliver(Bodies(messages, newline), parse) == MeantEvents(messages, parse)
    decreases |messages|
  {
    hide Writable, Body, Payload, MeantData;
    if messages == [] {
      assert Bodies(messages, newline) == [];
    } else {
      PayloadIsMeant(messages[0], newline);
      BodiesDeliver(messages[1..], newline, parse);
      assert Bodies(messages, newline)[1..] == Bodies(messages[1..], newline);
    }
  }

  /**
   * The whole way: whatever chunks a written stream arrives in, what reading it delivers, as StreamRunEvents
   * promises it, is the readable data of the messages named "event", in order, up to the first unreadable one.
   */
  lemma {:induction false} WrittenEventsAreDelivered<Event>(
      messages: seq<seq<Field>>, newline: string, chunks: seq<string>, parse: string -> Option<Event>)
    requires forall i :: 0 <= i < |messages| ==> Writable(messages[i])
    requires newline in [LF, CRLF] && Concat(chunks) == PrintStream(messages, newline)
    ensures Deliver(StreamFrames(Concat(chunks)), parse) == MeantEvents(messages, parse)
  {
    hide Writable, StreamFrames, Bodies, Deliver, MeantEvents, PrintStream, ParsedFrame, Meant;
    WrittenStreamIsReadBack(messages, newline);
    BodiesDeliver(messages, newline, parse);
  }
}
