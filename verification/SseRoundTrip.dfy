/** Printing server-sent events and reading them back, whatever the network does to the
    bytes in between. */
module SseRoundTrip {
  import opened Text
  import opened Utf8
  import opened Sse

  /** One data line, written with a blank after the colon or without, or one that is not read. */
  datatype Line = Data(text: string, isSpaced: bool) | Note(text: string)

  datatype Message = Message(event: Option<string>, lines: seq<Line>, isCrLf: bool)

  predicate IsOneLine(s: string) {
    '\n' !in s && '\r' !in s
  }

  /** Without the blank a text must not begin with one; a note is no field that is read. */
  predicate IsPrintableLine(l: Line) {
    && IsOneLine(l.text)
    && match l
       case Data(text, isSpaced) => !isSpaced ==> !(" " <= text)
       case Note(text) => text != "" && !("event:" <= text) && !("data:" <= text)
  }

  /** What the format can carry: a trimmed one-line name or none, and one-line fields. */
  predicate IsPrintable(m: Message) {
    && (m.event.Some? ==> Trim(m.event.value) == m.event.value && IsOneLine(m.event.value))
    && (m.event.Some? || m.lines != [])
    && forall l :: l in m.lines ==> IsPrintableLine(l)
  }

  function PrintLine(l: Line): string {
    match l
    case Data(text, isSpaced) => (if isSpaced then "data: " else "data:") + text
    case Note(text) => text
  }

  function PrintLines(lines: seq<Line>): seq<string> {
    if lines == [] then [] else [PrintLine(lines[0])] + PrintLines(lines[1..])
  }

  function FieldLines(m: Message): seq<string> {
    (if m.event.Some? then ["event: " + m.event.value] else []) + PrintLines(m.lines)
  }

  function JoinBy(lines: seq<string>, br: string): string {
    if lines == [] then []
    else if |lines| == 1 then lines[0]
    else lines[0] + br + JoinBy(lines[1..], br)
  }

  function Break(isCrLf: bool): string {
    if isCrLf then "\r\n" else "\n"
  }

  function BreakBytes(isCrLf: bool): seq<Byte> {
    if isCrLf then [13, 10] else [10]
  }

  function Body(m: Message): seq<Byte> {
    Encode(JoinBy(FieldLines(m), Break(m.isCrLf)))
  }

  function Print(m: Message): seq<Byte> {
    Body(m) + BreakBytes(m.isCrLf) + BreakBytes(m.isCrLf)
  }

  function PrintAll(ms: seq<Message>): seq<Byte> {
    if ms == [] then [] else Print(ms[0]) + PrintAll(ms[1..])
  }

  /** The texts of the data lines. */
  function DataOf(lines: seq<Line>): seq<string> {
    if lines == [] then [] else (if lines[0].Data? then [lines[0].text] else []) + DataOf(lines[1..])
  }

  /** A message without a name is called `message`, one without data is none; the texts of the
      data lines stand one below the other. */
  function FrameOf(m: Message): seq<Frame> {
    if DataOf(m.lines) == [] then []
    else [Frame(if m.event.Some? then m.event.value else "message", JoinBy(DataOf(m.lines), "\n"))]
  }

  function FramesOf(ms: seq<Message>): seq<Frame> {
    if ms == [] then [] else FrameOf(ms[0]) + FramesOf(ms[1..])
  }

  // ----- printed lines

  predicate AreFieldLines(lines: seq<string>) {
    lines != [] && forall l :: l in lines ==> l != [] && IsOneLine(l)
  }

  lemma {:induction false} PrintedLinesAreLines(lines: seq<Line>)
    requires forall l :: l in lines ==> IsPrintableLine(l)
    ensures forall l :: l in PrintLines(lines) ==> l != [] && IsOneLine(l)
  {
    if lines != [] {
      PrintedLinesAreLines(lines[1..]);
      assert IsPrintableLine(lines[0]);
      assert IsOneLine("data: ") && IsOneLine("data:");
    }
  }

  lemma {:induction false} FieldLinesAreLines(m: Message)
    requires IsPrintable(m)
    ensures AreFieldLines(FieldLines(m))
  {
    PrintedLinesAreLines(m.lines);
    assert IsOneLine("event: ");
    if m.event.None? {
      assert FieldLines(m) == PrintLines(m.lines);
    }
  }

  lemma {:induction false} BreakAfterOneLine(s: string, isCrLf: bool, rest: string)
    requires IsOneLine(s)
    ensures FirstLineBreak(s + Break(isCrLf) + rest) == |s| + |Break(isCrLf)| - 1
  {
    var all := s + Break(isCrLf) + rest;
    if s != [] {
      assert all[1..] == s[1..] + Break(isCrLf) + rest;
      BreakAfterOneLine(s[1..], isCrLf, rest);
    } else if isCrLf {
      assert all[0] == '\r' && all[1..][0] == '\n';
    }
  }

  lemma {:induction false} NoBreakInOneLine(s: string)
    requires IsOneLine(s)
    ensures FirstLineBreak(s) == |s|
  {
    if s != [] {
      NoBreakInOneLine(s[1..]);
    }
  }

  lemma {:induction false} FirstLineOff(l: string, isCrLf: bool, rest: string)
    requires l != [] && IsOneLine(l)
    ensures Lines(l + Break(isCrLf) + rest) == [l] + Lines(rest)
  {
    var text, i := l + Break(isCrLf) + rest, |l| + |Break(isCrLf)| - 1;
    BreakAfterOneLine(l, isCrLf, rest);
    assert text[i + 1..] == rest;
    assert text[..i] == if isCrLf then l + "\r" else l;
    assert l[|l| - 1] in l;
    assert (l + "\r")[..|l|] == l;
  }

  lemma {:induction false} OneLineAlone(l: string)
    requires l != [] && IsOneLine(l)
    ensures Lines(l) == [l]
  {
    NoBreakInOneLine(l);
  }

  /** Splitting undoes joining. */
  lemma {:induction false} LinesUndoJoin(lines: seq<string>, isCrLf: bool)
    requires AreFieldLines(lines)
    ensures Lines(JoinBy(lines, Break(isCrLf))) == lines
    decreases |lines|
  {
    hide Lines;
    var l, rest := lines[0], lines[1..];
    assert l in lines;
    if rest == [] {
      OneLineAlone(l);
    } else {
      assert forall r :: r in rest ==> r in lines;
      FirstLineOff(l, isCrLf, JoinBy(rest, Break(isCrLf)));
      LinesUndoJoin(rest, isCrLf);
    }
    assert lines == [l] + rest;
  }

  lemma {:induction false} DataIsJoined(lines: seq<string>)
    ensures JoinLines(lines) == JoinBy(lines, "\n")
  {
    if |lines| > 1 {
      DataIsJoined(lines[1..]);
    }
  }

  // ----- reading the fields

  lemma {:induction false} EventLineReads(f: Fields, event: string)
    requires Trim(event) == event
    ensures ReadLine(f, "event: " + event) == f.(event := event)
  {
    var line := "event: " + event;
    assert "event:" <= line;
    assert line[|"event:"|..] == " " + event;
    TrimSkipsBlank(event);
  }

  lemma {:induction false} TrimSkipsBlank(s: string)
    ensures Trim(" " + s) == Trim(s)
  {
    assert (" " + s)[1..] == s;
    assert TrimStart(" " + s) == TrimStart(s);
  }

  lemma {:induction false} LineReads(f: Fields, l: Line)
    requires IsPrintableLine(l)
    ensures ReadLine(f, PrintLine(l)) == f.(data := f.data + if l.Data? then [l.text] else [])
  {
    var line := PrintLine(l);
    match l
    case Data(text, isSpaced) =>
      assert line[0] == 'd';
      assert line[|"data:"|..] == if isSpaced then " " + text else text;
      assert (" " + text)[1..] == text;
    case Note(_) =>
      assert f.data + [] == f.data;
  }

  lemma {:induction false} LinesRead(f: Fields, lines: seq<Line>)
    requires forall l :: l in lines ==> IsPrintableLine(l)
    ensures ReadLines(f, PrintLines(lines)) == f.(data := f.data + DataOf(lines))
    decreases |lines|
  {
    if lines == [] {
      assert f.data + DataOf(lines) == f.data;
    } else {
      var all := PrintLines(lines);
      assert all[0] == PrintLine(lines[0]) && all[1..] == PrintLines(lines[1..]);
      var own := if lines[0].Data? then [lines[0].text] else [];
      LineReads(f, lines[0]);
      LinesRead(f.(data := f.data + own), lines[1..]);
      assert f.data + own + DataOf(lines[1..]) == f.data + DataOf(lines);
    }
  }

  lemma {:induction false} FieldsRead(m: Message)
    requires IsPrintable(m)
    ensures ReadLines(Fields("message", []), FieldLines(m))
         == Fields(if m.event.Some? then m.event.value else "message", DataOf(m.lines))
  {
    var lines, start := FieldLines(m), Fields("message", []);
    if m.event.Some? {
      assert lines[0] == "event: " + m.event.value && lines[1..] == PrintLines(m.lines);
      EventLineReads(start, m.event.value);
      LinesRead(Fields(m.event.value, []), m.lines);
    } else {
      assert lines == PrintLines(m.lines);
      LinesRead(start, m.lines);
    }
    assert [] + DataOf(m.lines) == DataOf(m.lines);
  }

  lemma {:induction false} PrintedFrameParses(m: Message)
    requires IsPrintable(m)
    ensures ParseFrame(Body(m)) == FrameOf(m)
  {
    LossyUndoesEncode(JoinBy(FieldLines(m), Break(m.isCrLf)));
    FieldLinesAreLines(m);
    LinesUndoJoin(FieldLines(m), m.isCrLf);
    FieldsRead(m);
    DataIsJoined(DataOf(m.lines));
  }

  // ----- where a printed frame ends

  /** No line of it is blank, and it does not end in a line break. */
  predicate HasNoBlankLine(b: seq<Byte>) {
    forall i :: 0 <= i < |b| && b[i] == 10 ==> i + 1 < |b| && b[i + 1] != 10 && b[i + 1] != 13
  }

  lemma {:induction false} OneLineHasNoBreak(s: string)
    requires IsOneLine(s)
    ensures 10 !in Encode(s) && 13 !in Encode(s)
  {
    AsciiIsItself(s, '\n');
    AsciiIsItself(s, '\r');
  }

  lemma {:induction false} LineThenLines(l: seq<Byte>, isCrLf: bool, rest: seq<Byte>)
    requires l != [] && 10 !in l && 13 !in l
    requires rest != [] && rest[0] != 10 && rest[0] != 13 && HasNoBlankLine(rest)
    ensures HasNoBlankLine(l + BreakBytes(isCrLf) + rest)
  {
    var b, n := l + BreakBytes(isCrLf) + rest, |l| + |BreakBytes(isCrLf)|;
    forall k | 0 <= k < |l| ensures b[k] != 10 {
      assert b[k] == l[k] && l[k] in l;
    }
    forall i | 0 <= i < |b| && b[i] == 10 ensures i + 1 < |b| && b[i + 1] != 10 && b[i + 1] != 13 {
      if i < n {
        assert b[n] == rest[0];
      } else {
        assert b[i] == rest[i - n];
        assert i - n + 1 < |rest| && b[i + 1] == rest[i - n + 1];
      }
    }
  }

  lemma {:induction false} BreakEncodes(isCrLf: bool)
    ensures Encode(Break(isCrLf)) == BreakBytes(isCrLf)
  {
    if isCrLf {
      EncodeConcat("\r", "\n");
      assert "\r" + "\n" == "\r\n";
    }
    assert Encode("\n") == [10] && Encode("\r") == [13];
  }

  lemma {:induction false} PrintedLinesHaveNoBlank(lines: seq<string>, isCrLf: bool)
    requires AreFieldLines(lines)
    ensures var b := Encode(JoinBy(lines, Break(isCrLf))); b != [] && b[0] != 10 && b[0] != 13 && HasNoBlankLine(b)
    decreases |lines|
  {
    var l := lines[0];
    assert l in lines;
    OneLineHasNoBreak(l);
    assert Encode(l) != [] && Encode(l)[0] in Encode(l);
    if |lines| > 1 {
      var rest := JoinBy(lines[1..], Break(isCrLf));
      forall r | r in lines[1..] ensures r != [] && IsOneLine(r) {
        assert r in lines;
      }
      PrintedLinesHaveNoBlank(lines[1..], isCrLf);
      BreakEncodes(isCrLf);
      EncodeConcat(l + Break(isCrLf), rest);
      EncodeConcat(l, Break(isCrLf));
      LineThenLines(Encode(l), isCrLf, Encode(rest));
    }
  }

  lemma {:induction false} PrintedFrameEnds(b: seq<Byte>, isCrLf: bool, rest: seq<Byte>)
    requires HasNoBlankLine(b)
    ensures var br := BreakBytes(isCrLf);
      FrameEnd(b + br + br + rest) == Some(Cut(|b|, 2 * |br|))
  {
    var all := b + BreakBytes(isCrLf) + BreakBytes(isCrLf) + rest;
    forall i | 0 <= i < |b| ensures !LfAt(all, i) && !CrLfAt(all, i) {
      assert all[i] == b[i];
      assert i + 1 < |b| ==> all[i + 1] == b[i + 1];
      assert i + 2 < |b| ==> all[i + 2] == b[i + 2];
    }
    FrameEndIsEarliest(all, |b|, 2 * |BreakBytes(isCrLf)|);
  }

  lemma {:induction false} FirstPrintedDrains(m: Message, rest: seq<Byte>)
    requires IsPrintable(m)
    ensures Drain(ParseFrame, Print(m) + rest) == Joined(Drained(FrameOf(m), []), Drain(ParseFrame, rest))
  {
    var body, br := Body(m), BreakBytes(m.isCrLf);
    var all := body + br + br + rest;
    FieldLinesAreLines(m);
    PrintedLinesHaveNoBlank(FieldLines(m), m.isCrLf);
    PrintedFrameEnds(body, m.isCrLf, rest);
    DrainCuts(ParseFrame, all, |body|, 2 * |br|);
    assert all[..|body|] == body && all[|body| + 2 * |br|..] == rest;
    PrintedFrameParses(m);
  }

  lemma {:induction false} PrintedFramesDrain(ms: seq<Message>)
    requires forall m :: m in ms ==> IsPrintable(m)
    ensures Drain(ParseFrame, PrintAll(ms)) == Drained(FramesOf(ms), [])
    decreases |ms|
  {
    if ms != [] {
      assert ms[0] in ms;
      FirstPrintedDrains(ms[0], PrintAll(ms[1..]));
      PrintedFramesDrain(ms[1..]);
    }
  }

  /** Printing then parsing. Frames of either line ending, with or without a name, with data lines
      written either way and with lines that mean nothing, come back in order however the printed
      bytes are cut into chunks; one without data is none, and nothing is left. */
  lemma {:induction false} PrintedFramesComeBack(ms: seq<Message>, chunks: seq<seq<Byte>>)
    requires forall m :: m in ms ==> IsPrintable(m)
    requires Concat(chunks) == PrintAll(ms)
    ensures PushEach(ParseFrame, [], chunks) == Drained(FramesOf(ms), [])
  {
    AnyChunkingIsOnePush(ParseFrame, [], chunks);
    assert [] + Concat(chunks) == PrintAll(ms);
    PrintedFramesDrain(ms);
  }
}
