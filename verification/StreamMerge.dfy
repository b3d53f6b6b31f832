/** Putting a reply together from the chunks of several streams. */
module StreamMerge {
  import opened Text

  const MIN_OVERLAP := 4
  const MAX_OVERLAP := 512

  datatype Source = Transcript | AgentStream | EventStream

  /** The order in which the ordered map lists its streams. */
  const SOURCES := [Transcript, AgentStream, EventStream]

  function Rank(source: Source): (i: nat)
    ensures i < |SOURCES| && SOURCES[i] == source
  {
    match source
    case Transcript => 0
    case AgentStream => 1
    case EventStream => 2
  }

  // ----- one chunk

  /** The first `k` characters of the chunk repeat the end of the buffer. */
  predicate Overlaps(buffer: string, chunk: string, k: nat) {
    0 < k <= |chunk| && ByteLen(chunk[..k]) <= MAX_OVERLAP && EndsWith(buffer, chunk[..k])
  }

  /** The longest repeat of at most `end` characters, however short. */
  function LongestOverlap(buffer: string, chunk: string, end: nat): (k: nat)
    requires end <= |chunk|
    ensures k <= end
  {
    if end == 0 then 0
    else if Overlaps(buffer, chunk, end) then end
    else LongestOverlap(buffer, chunk, end - 1)
  }

  /** A repeat of less than four bytes is taken for a coincidence. */
  function Overlap(buffer: string, chunk: string): (k: nat)
    ensures k <= |chunk|
  {
    var k := LongestOverlap(buffer, chunk, |chunk|);
    if ByteLen(chunk[..k]) >= MIN_OVERLAP then k else 0
  }

  function MergeChunk(buffer: string, chunk: string): string {
    if chunk == "" then buffer
    else if buffer == "" || buffer <= chunk then chunk
    else if EndsWith(buffer, chunk) then buffer
    else buffer + chunk[Overlap(buffer, chunk)..]
  }

  method OverlapWithSuffix(buffer: string, chunk: string) returns (k: nat)
    ensures k == Overlap(buffer, chunk)
    ensures k == 0 || Overlaps(buffer, chunk, k)
    ensures forall j :: k < j <= |chunk| && ByteLen(chunk[..j]) >= MIN_OVERLAP ==> !Overlaps(buffer, chunk, j)
  {
    var shorter := if ByteLen(buffer) < ByteLen(chunk) then ByteLen(buffer) else ByteLen(chunk);
    var limit := if shorter < MAX_OVERLAP then shorter else MAX_OVERLAP;
    var end := |chunk|;
    while end > 0
      invariant 0 <= end <= |chunk|
      invariant forall j :: end < j <= |chunk| ==> !Overlaps(buffer, chunk, j)
      invariant LongestOverlap(buffer, chunk, |chunk|) == LongestOverlap(buffer, chunk, end)
    {
      if EndsWith(buffer, chunk[..end]) {
        SuffixIsNoLonger(buffer, chunk[..end]);
        PrefixIsNoLonger(chunk, end);
      }
      if ByteLen(chunk[..end]) <= limit && EndsWith(buffer, chunk[..end]) {
        if ByteLen(chunk[..end]) >= MIN_OVERLAP {
          return end;
        }
        forall j | 0 < j <= |chunk| && ByteLen(chunk[..j]) >= MIN_OVERLAP ensures !Overlaps(buffer, chunk, j) {
          if j <= end {
            assert chunk[..end][..j] == chunk[..j];
            PrefixIsNoLonger(chunk[..end], j);
          }
        }
        return 0;
      }
      end := end - 1;
    }
    k := 0;
  }

  method MergeStreamChunk(buffer: string, chunk: string) returns (merged: string)
    ensures merged == MergeChunk(buffer, chunk)
    ensures buffer <= merged && EndsWith(merged, chunk)
  {
    MergeKeepsBoth(buffer, chunk);
    if chunk == "" {
      return buffer;
    }
    if buffer == "" || buffer <= chunk {
      return chunk;
    }
    if EndsWith(buffer, chunk) {
      return buffer;
    }
    var k := OverlapWithSuffix(buffer, chunk);
    merged := buffer + chunk[k..];
  }

  lemma {:induction false} ByteLenSplits(s: string, t: string)
    ensures ByteLen(s + t) == ByteLen(s) + ByteLen(t)
  {
    if s == [] {
      assert s + t == t;
    } else {
      assert (s + t)[1..] == s[1..] + t;
      ByteLenSplits(s[1..], t);
    }
  }

  lemma {:induction false} PrefixIsNoLonger(s: string, k: nat)
    requires k <= |s|
    ensures ByteLen(s[..k]) <= ByteLen(s)
  {
    assert s == s[..k] + s[k..];
    ByteLenSplits(s[..k], s[k..]);
  }

  lemma {:induction false} SuffixIsNoLonger(s: string, suffix: string)
    requires EndsWith(s, suffix)
    ensures ByteLen(suffix) <= ByteLen(s)
  {
    var cut := |s| - |suffix|;
    assert s == s[..cut] + suffix;
    ByteLenSplits(s[..cut], suffix);
  }

  lemma {:induction false} LongestOverlapSpec(buffer: string, chunk: string, end: nat)
    requires end <= |chunk|
    ensures var k := LongestOverlap(buffer, chunk, end);
      (k == 0 || Overlaps(buffer, chunk, k)) && forall j :: k < j <= end ==> !Overlaps(buffer, chunk, j)
  {
    if end != 0 && !Overlaps(buffer, chunk, end) {
      LongestOverlapSpec(buffer, chunk, end - 1);
    }
  }

  // ----- the laws of one merge

  /** The repeat shared by both, and then the rest of the chunk. */
  lemma {:induction false} SharingKeepsBoth(buffer: string, chunk: string, k: nat)
    requires k <= |chunk| && EndsWith(buffer, chunk[..k])
    ensures EndsWith(buffer + chunk[k..], chunk)
  {
    var from := |buffer| - k;
    assert buffer == buffer[..from] + chunk[..k];
    assert chunk == chunk[..k] + chunk[k..];
    assert buffer + chunk[k..] == buffer[..from] + chunk;
  }

  lemma {:induction false} OverlapIsShared(buffer: string, chunk: string)
    ensures EndsWith(buffer, chunk[..Overlap(buffer, chunk)])
  {
    LongestOverlapSpec(buffer, chunk, |chunk|);
  }

  /** Nothing that was there is lost, and the chunk is what the buffer now ends with. */
  lemma {:induction false} MergeKeepsBoth(buffer: string, chunk: string)
    ensures buffer <= MergeChunk(buffer, chunk)
    ensures EndsWith(MergeChunk(buffer, chunk), chunk)
  {
    if chunk != "" && buffer != "" && !(buffer <= chunk) && !EndsWith(buffer, chunk) {
      OverlapIsShared(buffer, chunk);
      SharingKeepsBoth(buffer, chunk, Overlap(buffer, chunk));
    }
  }

  lemma {:induction false} EndIsSwallowed(buffer: string, chunk: string)
    requires EndsWith(buffer, chunk)
    ensures MergeChunk(buffer, chunk) == buffer
  {
    if buffer <= chunk {
      assert buffer == chunk[..|buffer|] == chunk;
    }
  }

  /** A chunk delivered twice in a row counts once. */
  lemma {:induction false} RepeatIsSwallowed(buffer: string, chunk: string)
    ensures MergeChunk(MergeChunk(buffer, chunk), chunk) == MergeChunk(buffer, chunk)
  {
    MergeKeepsBoth(buffer, chunk);
    EndIsSwallowed(MergeChunk(buffer, chunk), chunk);
  }

  predicate IsReplay(buffer: string, chunk: string, k: nat) {
    0 < k <= |chunk| && 4 <= ByteLen(chunk[..k]) <= 512 && EndsWith(buffer, chunk[..k])
  }

  /** The chunk starts with four bytes or more, and at most 512, of what the buffer ends with. */
  ghost predicate Replays(buffer: string, chunk: string) {
    exists k: nat :: IsReplay(buffer, chunk, k)
  }

  lemma {:induction false} ReplayIsLongest(buffer: string, chunk: string)
    ensures Replays(buffer, chunk) <==> Overlap(buffer, chunk) > 0
  {
    var longest := LongestOverlap(buffer, chunk, |chunk|);
    LongestOverlapSpec(buffer, chunk, |chunk|);
    assert Overlap(buffer, chunk) > 0 ==> IsReplay(buffer, chunk, longest);
    forall k: nat | IsReplay(buffer, chunk, k) ensures Overlap(buffer, chunk) > 0 {
      assert Overlaps(buffer, chunk, k);
      PrefixIsNoLonger(chunk[..longest], k);
      assert chunk[..longest][..k] == chunk[..k];
    }
  }

  /** So chunks do not simply add up. They do exactly when there is nothing to merge with,
      or when the chunk neither continues the buffer nor repeats any of its end. */
  lemma {:induction false} ChunksAddUpWhen(buffer: string, chunk: string)
    ensures MergeChunk(buffer, chunk) == buffer + chunk
        <==> || buffer == "" || chunk == ""
             || (!(buffer <= chunk) && !EndsWith(buffer, chunk) && !Replays(buffer, chunk))
  {
    ReplayIsLongest(buffer, chunk);
    if buffer == "" || chunk == "" {
      assert buffer + chunk == if buffer == "" then chunk else buffer;
    } else if buffer <= chunk || EndsWith(buffer, chunk) || Overlap(buffer, chunk) > 0 {
      assert |MergeChunk(buffer, chunk)| < |buffer + chunk|;
    } else {
      assert chunk[0..] == chunk;
    }
  }

  /** The shortest case of text that is lost: the reply "haha" sent as two deltas. */
  lemma TwoEqualDeltasShowOnce()
    ensures MergeChunk(MergeChunk("", "ha"), "ha") == "ha" != "ha" + "ha"
  {
    assert |"ha" + "ha"| == 4;
  }

  // ----- one stream

  function MergeAll(buffer: string, chunks: seq<string>): string {
    if chunks == [] then buffer
    else MergeChunk(MergeAll(buffer, chunks[..|chunks| - 1]), chunks[|chunks| - 1])
  }

  /** Every chunk is a snapshot of everything the stream has said so far. */
  predicate AreSnapshots(chunks: seq<string>) {
    forall i :: 0 < i < |chunks| ==> chunks[i - 1] <= chunks[i]
  }

  /** A stream of growing snapshots holds exactly the last one. */
  lemma {:induction false} SnapshotsHoldTheLast(chunks: seq<string>)
    requires chunks != [] && AreSnapshots(chunks)
    ensures MergeAll("", chunks) == chunks[|chunks| - 1]
  {
    var n := |chunks| - 1;
    var before, last := chunks[..n], chunks[n];
    if n == 0 {
      assert MergeAll("", before) == "";
    } else {
      SnapshotsHoldTheLast(before);
      assert before[n - 1] == chunks[n - 1] <= last;
    }
  }

  /** Whatever arrives, what a stream has said is never taken back. */
  lemma {:induction false} StreamsOnlyGrow(buffer: string, chunks: seq<string>)
    ensures buffer <= MergeAll(buffer, chunks)
  {
    if chunks != [] {
      var n := |chunks| - 1;
      StreamsOnlyGrow(buffer, chunks[..n]);
      MergeKeepsBoth(MergeAll(buffer, chunks[..n]), chunks[n]);
    }
  }

  // ----- several streams

  type Streams = map<Source, string>

  function At(streams: Streams, source: Source): string {
    if source in streams then streams[source] else ""
  }

  /** `max_by_key` keeps the last of several longest texts. */
  function Longer(best: string, text: string): string {
    if |text| >= |best| then text else best
  }

  function BestOfFirst(streams: Streams, n: nat): string
    requires n <= |SOURCES|
  {
    if n == 0 then ""
    else Longer(BestOfFirst(streams, n - 1), At(streams, SOURCES[n - 1]))
  }

  function Best(streams: Streams): string {
    BestOfFirst(streams, |SOURCES|)
  }

  method BestStreamText(streams: Streams) returns (best: string)
    ensures best == Best(streams)
    ensures forall s :: s in streams ==> |streams[s]| <= |best|
    ensures best != "" ==> exists s :: s in streams && streams[s] == best
  {
    best := "";
    for i := 0 to |SOURCES|
      invariant best == BestOfFirst(streams, i)
      invariant forall j :: 0 <= j < i && SOURCES[j] in streams ==> |streams[SOURCES[j]]| <= |best|
      invariant best != "" ==> exists s :: s in streams && streams[s] == best
    {
      if SOURCES[i] in streams && |streams[SOURCES[i]]| >= |best| {
        best := streams[SOURCES[i]];
      }
    }
    forall s | s in streams ensures |streams[s]| <= |best| {
      assert SOURCES[Rank(s)] == s;
    }
  }

  datatype Delta = Delta(source: Source, text: string)

  function Receive(streams: Streams, d: Delta): Streams {
    if d.text == "" then streams else streams[d.source := MergeChunk(At(streams, d.source), d.text)]
  }

  function ReceiveAll(streams: Streams, ds: seq<Delta>): Streams {
    if ds == [] then streams else Receive(ReceiveAll(streams, ds[..|ds| - 1]), ds[|ds| - 1])
  }

  /** What one source sent, in its own order. */
  function SentBy(ds: seq<Delta>, source: Source): seq<string> {
    if ds == [] then []
    else
      var rest, last := SentBy(ds[..|ds| - 1], source), ds[|ds| - 1];
      if last.source == source then rest + [last.text] else rest
  }

  /** Streams do not see each other. */
  lemma {:induction false} StreamIsItsOwn(streams: Streams, ds: seq<Delta>, source: Source)
    ensures At(ReceiveAll(streams, ds), source) == MergeAll(At(streams, source), SentBy(ds, source))
  {
    if ds != [] {
      var n := |ds| - 1;
      StreamIsItsOwn(streams, ds[..n], source);
      if ds[n].source == source {
        var sent := SentBy(ds[..n], source);
        assert (sent + [ds[n].text])[..|sent|] == sent;
      }
    }
  }

  lemma {:induction false} BestDependsOnStreams(a: Streams, b: Streams, n: nat)
    requires n <= |SOURCES| && forall s :: At(a, s) == At(b, s)
    ensures BestOfFirst(a, n) == BestOfFirst(b, n)
  {
    if n > 0 {
      BestDependsOnStreams(a, b, n - 1);
    }
  }

  /** However the sources interleave, the same text is shown. */
  lemma {:induction false} InterleavingDoesNotMatter(streams: Streams, ds: seq<Delta>, es: seq<Delta>)
    requires forall s :: SentBy(ds, s) == SentBy(es, s)
    ensures Best(ReceiveAll(streams, ds)) == Best(ReceiveAll(streams, es))
  {
    forall s ensures At(ReceiveAll(streams, ds), s) == At(ReceiveAll(streams, es), s) {
      StreamIsItsOwn(streams, ds, s);
      StreamIsItsOwn(streams, es, s);
    }
    BestDependsOnStreams(ReceiveAll(streams, ds), ReceiveAll(streams, es), |SOURCES|);
  }

  lemma {:induction false} BestIsMonotone(a: Streams, b: Streams, n: nat)
    requires n <= |SOURCES| && forall s :: At(a, s) <= At(b, s)
    ensures |BestOfFirst(a, n)| <= |BestOfFirst(b, n)|
  {
    if n > 0 {
      BestIsMonotone(a, b, n - 1);
      assert At(a, SOURCES[n - 1]) <= At(b, SOURCES[n - 1]);
    }
  }

  /** The text on screen may jump to another stream, but it never gets shorter. */
  lemma {:induction false} ShownTextNeverShrinks(streams: Streams, ds: seq<Delta>)
    ensures |Best(streams)| <= |Best(ReceiveAll(streams, ds))|
  {
    forall s ensures At(streams, s) <= At(ReceiveAll(streams, ds), s) {
      StreamIsItsOwn(streams, ds, s);
      StreamsOnlyGrow(At(streams, s), SentBy(ds, s));
    }
    BestIsMonotone(streams, ReceiveAll(streams, ds), |SOURCES|);
  }
}
