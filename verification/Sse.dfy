/** The incremental parser of a turn's server-sent events. It implements the part of
    section 9.2.6 of the WHATWG HTML Standard the gateway uses: frames end at a blank line
    written LF LF or CR LF CR LF, and only `event` and `data` fields are read. */
module Sse {
  import opened Text
  import opened Utf8

  datatype Frame = Frame(event: string, data: string)

  // ----- where a frame ends

  datatype Cut = Cut(end: nat, width: nat)

  predicate LfAt(b: seq<Byte>, i: nat) {
    i + 2 <= |b| && b[i] == 10 && b[i + 1] == 10
  }

  predicate CrLfAt(b: seq<Byte>, i: nat) {
    i + 4 <= |b| && b[i] == 13 && b[i + 1] == 10 && b[i + 2] == 13 && b[i + 3] == 10
  }

  predicate SeparatorAt(b: seq<Byte>, i: nat, width: nat) {
    (width == 2 && LfAt(b, i)) || (width == 4 && CrLfAt(b, i))
  }

  /** The earliest separator, of either kind. */
  predicate IsFrameEnd(b: seq<Byte>, end: nat, width: nat) {
    SeparatorAt(b, end, width)
    && forall i :: 0 <= i < end ==> !LfAt(b, i) && !CrLfAt(b, i)
  }

  /** `find_frame_end`, by the position the two searches agree on. */
  function FrameEnd(b: seq<Byte>, from: nat := 0): (found: Option<Cut>)
    requires from <= |b|
    ensures found.Some? ==> 0 < found.value.width && found.value.end + found.value.width <= |b|
    decreases |b| - from
  {
    if from == |b| then None
    else if LfAt(b, from) then Some(Cut(from, 2))
    else if CrLfAt(b, from) then Some(Cut(from, 4))
    else FrameEnd(b, from + 1)
  }

  /** The source's two searches, `windows(2).position(..)` and `windows(4).position(..)`. */
  method FindFrameEnd(b: seq<Byte>) returns (found: Option<Cut>)
    ensures found == FrameEnd(b)
  {
    var lf, crlf := 0, 0;
    while lf < |b| && !LfAt(b, lf)
      invariant 0 <= lf <= |b| && forall i :: 0 <= i < lf ==> !LfAt(b, i)
    {
      lf := lf + 1;
    }
    while crlf < |b| && !CrLfAt(b, crlf)
      invariant 0 <= crlf <= |b| && forall i :: 0 <= i < crlf ==> !CrLfAt(b, i)
    {
      crlf := crlf + 1;
    }
    if lf < |b| && (crlf == |b| || lf <= crlf) {
      found := Some(Cut(lf, 2));
      FrameEndIsEarliest(b, lf, 2);
    } else if crlf < |b| {
      found := Some(Cut(crlf, 4));
      FrameEndIsEarliest(b, crlf, 4);
    } else {
      found := None;
      FrameEndSpec(b, 0);
    }
  }

  lemma {:induction false} FrameEndSpec(b: seq<Byte>, from: nat)
    requires from <= |b|
    ensures var found := FrameEnd(b, from);
      (found.Some? ==> from <= found.value.end && SeparatorAt(b, found.value.end, found.value.width))
      && var end := if found.Some? then found.value.end else |b|;
      forall i :: from <= i < end ==> !LfAt(b, i) && !CrLfAt(b, i)
    decreases |b| - from
  {
    if from < |b| && !LfAt(b, from) && !CrLfAt(b, from) {
      FrameEndSpec(b, from + 1);
    }
  }

  lemma {:induction false} FrameEndIsEarliest(b: seq<Byte>, end: nat, width: nat)
    requires IsFrameEnd(b, end, width)
    ensures FrameEnd(b) == Some(Cut(end, width))
  {
    FrameEndSpec(b, 0);
    assert LfAt(b, end) || CrLfAt(b, end);
  }

  /** The earliest separator is also the first to be complete: no bytes that arrive later
      can put an earlier one in front of it. */
  lemma {:induction false} FirstSeparatorFinishesFirst(b: seq<Byte>, more: seq<Byte>)
    requires FrameEnd(b).Some?
    ensures FrameEnd(b + more) == FrameEnd(b)
  {
    var Cut(end, width) := FrameEnd(b).value;
    var all := b + more;
    FrameEndSpec(b, 0);
    assert SeparatorAt(all, end, width);
    forall i | 0 <= i < end ensures !LfAt(all, i) && !CrLfAt(all, i) {
      assert !LfAt(b, i) && !CrLfAt(b, i);
      assert forall k :: 0 <= k < |b| ==> all[k] == b[k];
    }
    FrameEndIsEarliest(all, end, width);
  }

  // ----- one frame

  function FirstLineBreak(s: string): (i: nat)
    ensures i <= |s|
    ensures i < |s| ==> s[i] == '\n'
  {
    if s == [] || s[0] == '\n' then 0 else 1 + FirstLineBreak(s[1..])
  }

  function WithoutCr(s: string): string {
    if s != [] && s[|s| - 1] == '\r' then s[..|s| - 1] else s
  }

  /** `str::lines`: a final line without a line break keeps a trailing CR. */
  function Lines(s: string): seq<string>
    decreases |s|
  {
    var i := FirstLineBreak(s);
    if s == [] then []
    else if i == |s| then [s]
    else [WithoutCr(s[..i])] + Lines(s[i + 1..])
  }

  function AfterPrefix(s: string, prefix: string): Option<string> {
    if prefix <= s then Some(s[|prefix|..]) else None
  }

  datatype Fields = Fields(event: string, data: seq<string>)

  function ReadLine(f: Fields, line: string): Fields {
    var event := AfterPrefix(line, "event:");
    var data := AfterPrefix(line, "data:");
    if event.Some? then f.(event := Trim(event.value))
    else if data.Some? then
      f.(data := f.data + [if " " <= data.value then data.value[1..] else data.value])
    else f
  }

  function ReadLines(f: Fields, lines: seq<string>): Fields
    decreases |lines|
  {
    if lines == [] then f else ReadLines(ReadLine(f, lines[0]), lines[1..])
  }

  function JoinLines(lines: seq<string>): string {
    if lines == [] then []
    else if |lines| == 1 then lines[0]
    else lines[0] + "\n" + JoinLines(lines[1..])
  }

  /** A frame without a data line is no frame at all. */
  function ToFrames(f: Fields): seq<Frame> {
    if f.data == [] then [] else [Frame(f.event, JoinLines(f.data))]
  }

  function ParseFrame(raw: seq<Byte>): seq<Frame> {
    ToFrames(ReadLines(Fields("message", []), Lines(Lossy(raw))))
  }

  method ReadFrame(raw: seq<Byte>) returns (frames: seq<Frame>)
    ensures frames == ParseFrame(raw)
  {
    var lines := Lines(Lossy(raw));
    var fields := Fields("message", []);
    for i := 0 to |lines|
      invariant ReadLines(fields, lines[i..]) == ReadLines(Fields("message", []), lines)
    {
      assert lines[i..][1..] == lines[i + 1..];
      fields := ReadLine(fields, lines[i]);
    }
    frames := ToFrames(fields);
  }

  // ----- the parser

  datatype Drained = Drained(frames: seq<Frame>, rest: seq<Byte>)

  /** What one push of `b` into an empty parser gives, and what it keeps. */
  function Drain(parse: seq<Byte> -> seq<Frame>, b: seq<Byte>): Drained
    decreases |b|
  {
    var cut := FrameEnd(b);
    if cut.None? then Drained([], b)
    else
      var end, width := cut.value.end, cut.value.width;
      Joined(Drained(parse(b[..end]), []), Drain(parse, b[end + width..]))
  }

  /** What two pushes in a row gave, together. */
  function Joined(first: Drained, second: Drained): Drained {
    Drained(first.frames + second.frames, second.rest)
  }

  lemma {:induction false} LeftoverHasNoFrame(parse: seq<Byte> -> seq<Frame>, b: seq<Byte>)
    ensures FrameEnd(Drain(parse, b).rest) == None
    decreases |b|
  {
    var cut := FrameEnd(b);
    if cut.Some? {
      LeftoverHasNoFrame(parse, b[cut.value.end + cut.value.width..]);
    }
  }

  class SseParser {
    var buffer: seq<Byte>

    constructor ()
      ensures buffer == []
    {
      buffer := [];
    }

    method Push(chunk: seq<Byte>) returns (frames: seq<Frame>)
      modifies this
      ensures Drained(frames, buffer) == Drain(ParseFrame, old(buffer) + chunk)
    {
      buffer := buffer + chunk;
      ghost var whole := Drain(ParseFrame, buffer);
      frames := [];
      var found := FindFrameEnd(buffer);
      while found.Some?
        invariant found == FrameEnd(buffer)
        invariant whole == Joined(Drained(frames, []), Drain(ParseFrame, buffer))
        decreases |buffer|
      {
        var end, width := found.value.end, found.value.width;
        DrainCuts(ParseFrame, buffer, end, width);
        var parsed := ReadFrame(buffer[..end]);
        JoinedIsAssociative(frames, Drained(parsed, []), Drain(ParseFrame, buffer[end + width..]));
        frames := frames + parsed;
        buffer := buffer[end + width..];
        found := FindFrameEnd(buffer);
      }
    }

    /** The reading loop: one push per chunk of the response body, up to the frame that ends
        the turn, wherever it was cut. */
    method ReadBody(chunks: seq<seq<Byte>>, ends: Frame -> bool) returns (frames: seq<Frame>, ended: bool)
      requires FrameEnd(buffer) == None
      modifies this
      ensures var whole := Drain(ParseFrame, old(buffer) + Concat(chunks));
        && frames == UpTo(whole.frames, ends) && ended == HasEnd(whole.frames, ends)
        && (!ended ==> frames == whole.frames && buffer == whole.rest)
    {
      ghost var whole := Drain(ParseFrame, buffer + Concat(chunks));
      AnyChunkingIsOnePush(ParseFrame, buffer, chunks);
      assert chunks[0..] == chunks;
      frames := [];
      for i := 0 to |chunks|
        invariant !HasEnd(frames, ends)
        invariant whole == Joined(Drained(frames, []), PushEach(ParseFrame, buffer, chunks[i..]))
      {
        PushEachGoesOn(ParseFrame, buffer, chunks, i);
        var more := Push(chunks[i]);
        var taken, last := TakeUpTo(more, ends);
        ReadingGoesOn(frames, Drained(more, buffer), PushEach(ParseFrame, buffer, chunks[i + 1..]), ends);
        frames := frames + taken;
        if last {
          return frames, true;
        }
      }
      ended := false;
      NoEndTakesAll(frames, ends);
      assert frames + [] == frames;
    }
  }

  /** The frames up to the first that ends the turn. */
  function UpTo(frames: seq<Frame>, ends: Frame -> bool): seq<Frame> {
    if frames == [] then []
    else if ends(frames[0]) then [frames[0]]
    else [frames[0]] + UpTo(frames[1..], ends)
  }

  predicate HasEnd(frames: seq<Frame>, ends: Frame -> bool) {
    frames != [] && (ends(frames[0]) || HasEnd(frames[1..], ends))
  }

  method TakeUpTo(frames: seq<Frame>, ends: Frame -> bool) returns (taken: seq<Frame>, ended: bool)
    ensures taken == UpTo(frames, ends) && ended == HasEnd(frames, ends)
  {
    taken := [];
    for i := 0 to |frames|
      invariant taken == frames[..i] && !HasEnd(taken, ends)
    {
      assert frames == taken + frames[i..];
      UpToJoins(taken, frames[i..], ends);
      UpToJoins(taken, [frames[i]], ends);
      taken := taken + [frames[i]];
      if ends(frames[i]) {
        return taken, true;
      }
    }
    ended := false;
    assert taken == frames;
    NoEndTakesAll(frames, ends);
  }

  lemma {:induction false} NoEndTakesAll(frames: seq<Frame>, ends: Frame -> bool)
    requires !HasEnd(frames, ends)
    ensures UpTo(frames, ends) == frames
  {
    if frames != [] {
      NoEndTakesAll(frames[1..], ends);
    }
  }

  lemma {:induction false} UpToJoins(a: seq<Frame>, b: seq<Frame>, ends: Frame -> bool)
    ensures UpTo(a + b, ends) == if HasEnd(a, ends) then UpTo(a, ends) else a + UpTo(b, ends)
    ensures HasEnd(a + b, ends) <==> HasEnd(a, ends) || HasEnd(b, ends)
  {
    if a == [] {
      assert a + b == b;
    } else {
      assert (a + b)[1..] == a[1..] + b;
      UpToJoins(a[1..], b, ends);
      assert a == [a[0]] + a[1..];
    }
  }

  lemma {:induction false} PushEachGoesOn(parse: seq<Byte> -> seq<Frame>, buffer: seq<Byte>, chunks: seq<seq<Byte>>,
                                          i: nat)
    requires i < |chunks|
    ensures var now := Drain(parse, buffer + chunks[i]);
      PushEach(parse, buffer, chunks[i..]) == Joined(now, PushEach(parse, now.rest, chunks[i + 1..]))
  {
    assert chunks[i..][1..] == chunks[i + 1..];
  }

  lemma {:induction false} EndIsReached(done: seq<Frame>, now: seq<Frame>, later: seq<Frame>, ends: Frame -> bool)
    requires !HasEnd(done, ends) && HasEnd(now, ends)
    ensures UpTo(done + (now + later), ends) == done + UpTo(now, ends) && HasEnd(done + (now + later), ends)
  {
    UpToJoins(now, later, ends);
    UpToJoins(done, now + later, ends);
  }

  /** One more push: either it brings the end of the turn, or all of it is taken. */
  lemma {:induction false} ReadingGoesOn(done: seq<Frame>, now: Drained, later: Drained, ends: Frame -> bool)
    requires !HasEnd(done, ends)
    ensures var whole := Joined(Drained(done, []), Joined(now, later));
      if HasEnd(now.frames, ends) then
        UpTo(whole.frames, ends) == done + UpTo(now.frames, ends) && HasEnd(whole.frames, ends)
      else
        && UpTo(now.frames, ends) == now.frames && !HasEnd(done + now.frames, ends)
        && whole == Joined(Drained(done + now.frames, []), later)
  {
    if HasEnd(now.frames, ends) {
      EndIsReached(done, now.frames, later.frames, ends);
    } else {
      NoEndTakesAll(now.frames, ends);
      UpToJoins(done, now.frames, ends);
      JoinedIsAssociative(done, now, later);
    }
  }

  // ----- chunking does not matter

  function Concat(chunks: seq<seq<Byte>>): seq<Byte> {
    if chunks == [] then [] else Concat(chunks[..|chunks| - 1]) + chunks[|chunks| - 1]
  }

  /** Cutting the bytes anywhere, inside a separator or a character, changes nothing: what
      was kept from the first part stands in for it. */
  lemma {:induction false} DrainCuts(parse: seq<Byte> -> seq<Frame>, b: seq<Byte>, end: nat, width: nat)
    requires FrameEnd(b) == Some(Cut(end, width))
    ensures end + width <= |b| && 0 < width
    ensures Drain(parse, b) == Joined(Drained(parse(b[..end]), []), Drain(parse, b[end + width..]))
  {
  }

  lemma JoinedIsAssociative(first: seq<Frame>, second: Drained, third: Drained)
    ensures Joined(Drained(first, []), Joined(second, third))
         == Joined(Joined(Drained(first, []), second), third)
  {
    assert first + (second.frames + third.frames) == (first + second.frames) + third.frames;
  }

  lemma {:induction false} FirstCutStays(parse: seq<Byte> -> seq<Frame>, a: seq<Byte>, b: seq<Byte>,
                                         end: nat, width: nat)
    requires FrameEnd(a) == Some(Cut(end, width)) && end + width <= |a|
    ensures Drain(parse, a + b) == Joined(Drained(parse(a[..end]), []), Drain(parse, a[end + width..] + b))
  {
    FirstSeparatorFinishesFirst(a, b);
    DrainCuts(parse, a + b, end, width);
    assert (a + b)[..end] == a[..end];
    assert (a + b)[end + width..] == a[end + width..] + b;
  }

  lemma {:induction false} DrainInTwo(parse: seq<Byte> -> seq<Frame>, a: seq<Byte>, b: seq<Byte>)
    ensures Drain(parse, a + b) == Joined(Drain(parse, a), Drain(parse, Drain(parse, a).rest + b))
    decreases |a|
  {
    var cut := FrameEnd(a);
    if cut.Some? {
      var end, width := cut.value.end, cut.value.width;
      DrainCuts(parse, a, end, width);
      FirstCutStays(parse, a, b, end, width);
      var rest := a[end + width..];
      DrainInTwo(parse, rest, b);
      JoinedIsAssociative(parse(a[..end]), Drain(parse, rest), Drain(parse, Drain(parse, rest).rest + b));
    } else {
      assert Drain(parse, a) == Drained([], a);
    }
  }

  /** The frames and the leftover of pushing `chunks` one by one. */
  function PushEach(parse: seq<Byte> -> seq<Frame>, buffer: seq<Byte>, chunks: seq<seq<Byte>>): Drained
    decreases |chunks|
  {
    if chunks == [] then Drained([], buffer)
    else
      var now := Drain(parse, buffer + chunks[0]);
      var later := PushEach(parse, now.rest, chunks[1..]);
      Joined(now, later)
  }

  lemma {:induction false} ConcatFromFront(chunks: seq<seq<Byte>>)
    requires chunks != []
    ensures Concat(chunks) == chunks[0] + Concat(chunks[1..])
  {
    if |chunks| > 1 {
      var front := chunks[..|chunks| - 1];
      ConcatFromFront(front);
      assert front[1..] == chunks[1..][..|chunks| - 2];
    } else {
      assert chunks[..0] == [] && chunks[1..] == [];
    }
  }

  lemma {:induction false} AnyChunkingIsOnePush(parse: seq<Byte> -> seq<Frame>,
                                                buffer: seq<Byte>, chunks: seq<seq<Byte>>)
    requires FrameEnd(buffer) == None
    ensures PushEach(parse, buffer, chunks) == Drain(parse, buffer + Concat(chunks))
    decreases |chunks|
  {
    if chunks == [] {
      assert buffer + Concat(chunks) == buffer;
    } else {
      var head, tail := buffer + chunks[0], Concat(chunks[1..]);
      ConcatFromFront(chunks);
      assert buffer + Concat(chunks) == head + tail;
      LeftoverHasNoFrame(parse, head);
      AnyChunkingIsOnePush(parse, Drain(parse, head).rest, chunks[1..]);
      DrainInTwo(parse, head, tail);
    }
  }

  /** Two ways of cutting the same bytes give the same frames and the same leftover. */
  lemma {:induction false} ChunkingDoesNotMatter(one: seq<seq<Byte>>, other: seq<seq<Byte>>)
    requires Concat(one) == Concat(other)
    ensures PushEach(ParseFrame, [], one) == PushEach(ParseFrame, [], other)
  {
    AnyChunkingIsOnePush(ParseFrame, [], one);
    AnyChunkingIsOnePush(ParseFrame, [], other);
  }
}
