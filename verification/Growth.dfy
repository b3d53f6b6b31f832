/** While a turn is in flight what is shown only grows. */
module Growth {
  import opened Text
  import opened StreamMerge
  import opened Conversations
  import opened Turns

  // ----- one turn

  /** The same bubble, with more records and files at the end of its own; what has settled is
      as it was. */
  predicate Grows(before: Message, after: Message) {
    && after.id == before.id && after.role == before.role && after.isStreaming == before.isStreaming
    && before.toolCalls <= after.toolCalls && before.attachments <= after.attachments
    && (!IsStreamingReply(before) ==> after == before)
  }

  predicate GrowsTo(before: seq<Message>, after: seq<Message>) {
    |before| <= |after| && forall i :: 0 <= i < |before| ==> Grows(before[i], after[i])
  }

  lemma {:induction false} EventGrows(c: Chat, event: Event, newId: MessageId)
    requires !EndsTurn(event)
    ensures GrowsTo(c.messages, Applied(c, event, newId).chat.messages)
  {
    hide Best;
    hide HasTool;
    hide HasFile;
    hide LastWhere;
    LastWhereSpec(c.messages, IsStreamingReply);
    LastWhereSpec(c.messages, IsBlankBubble);
    LastWhereSpec(c.messages, IsTextBubble);
  }

  /** Over any events of a turn: no bubble goes, bubbles keep their order and ids, and the tool
      records and files of each keep the order they were reported in. */
  lemma {:induction false} TurnOnlyGrows(c: Chat, es: seq<Received>)
    requires forall e :: e in es ==> !EndsTurn(e.event)
    ensures GrowsTo(c.messages, Folded(c, es).messages)
  {
    if es != [] {
      var rest, last := es[..|es| - 1], es[|es| - 1];
      assert last in es && forall e :: e in rest ==> e in es;
      TurnOnlyGrows(c, rest);
      EventGrows(Folded(c, rest), last.event, last.newId);
    }
  }

  /** From the prompt on, and until an event ends it, the turn is in flight. */
  lemma {:induction false} BegunTurnIsInFlight(c: Chat, id: MessageId, reply: MessageId, prompt: string,
                                               es: seq<Received>)
    ensures Folded(TurnBegunWith(c, id, prompt), es).sending <==> forall e :: e in es ==> !EndsTurn(e.event)
    ensures Folded(TurnBegunWithPlaceholder(c, id, reply, prompt), es).sending
       <==> forall e :: e in es ==> !EndsTurn(e.event)
  {
    InFlightUntilEnd(TurnBegunWith(c, id, prompt), es);
    InFlightUntilEnd(TurnBegunWithPlaceholder(c, id, reply, prompt), es);
  }

  // ----- what a delta reports

  lemma {:induction false} ReceivedIsShown(streams: Streams, delta: Delta)
    requires delta.text != ""
    ensures Best(Receive(streams, delta)) != ""
  {
    MergeKeepsBoth(StreamMerge.At(streams, delta.source), delta.text);
    BestIsLongest(Receive(streams, delta), delta.source, |SOURCES|);
  }

  lemma {:induction false} BestIsLongest(streams: Streams, source: Source, n: nat)
    requires Rank(source) < n <= |SOURCES|
    ensures |StreamMerge.At(streams, source)| <= |BestOfFirst(streams, n)|
  {
    if n - 1 > Rank(source) {
      BestIsLongest(streams, source, n - 1);
    }
  }

  /** Every delta with a text is reported as the one text that moved, never as a new list. */
  lemma {:induction false} DeltasReportTheirText(c: Chat, delta: Delta, newId: MessageId)
    requires delta.text != ""
    ensures var o := Applied(c, MessageDelta(delta), newId);
      o.change.Streaming? && o.change.text == Best(o.chat.streams) != ""
      && exists m :: m in o.chat.messages && m.id == o.change.id && IsTextBubble(m) && m.content == o.change.text
  {
    ReceivedIsShown(c.streams, delta);
    LastWhereSpec(c.messages, IsTextBubble);
    var o := Applied(c, MessageDelta(delta), newId);
    var i := LastWhere(c.messages, IsTextBubble);
    var at := if i >= 0 then i else |c.messages|;
    assert o.chat.messages[at] in o.chat.messages;
  }

  // ----- merging in the middle of a turn

  /** A merge ends no turn, and the text streamed after it starts over. */
  lemma {:induction false} MergedChatsStreamAnew(c: Chat, reported: seq<Message>, delta: Delta, newId: MessageId)
    requires delta.text != ""
    ensures TranscriptMerged(c, reported).sending == c.sending
    ensures Best(Applied(TranscriptMerged(c, reported), MessageDelta(delta), newId).chat.streams) == delta.text
  {
    var merged := TranscriptMerged(c, reported);
    assert forall s: Source :: StreamMerge.At(merged.streams, s) == "";
    BestOfOne(Receive(merged.streams, delta), delta.source, |SOURCES|);
  }

  lemma {:induction false} BestOfOne(streams: Streams, source: Source, n: nat)
    requires n <= |SOURCES| && forall s :: s != source ==> StreamMerge.At(streams, s) == ""
    ensures BestOfFirst(streams, n) == if Rank(source) < n then StreamMerge.At(streams, source) else ""
  {
    if n > 0 {
      BestOfOne(streams, source, n - 1);
    }
  }

  // ----- taking back

  lemma {:induction false} OnlyTheRunGoes(run: seq<Message>, rest: seq<Message>)
    requires (forall m :: m in run ==> IsShellOrPlaceholder(m)) && (rest == [] || !IsShellOrPlaceholder(rest[0]))
    ensures PlaceholderRun(run + rest) == |run|
  {
    if run == [] {
      assert run + rest == rest;
    } else {
      assert (run + rest)[1..] == run[1..] + rest;
      OnlyTheRunGoes(run[1..], rest);
    }
  }

  /** Taking back an earlier prompt takes it and the text-less bubbles right after it, and leaves
      the turn in flight alone; taking back the last one also ends its turn. */
  lemma {:induction false} TakeBackLeavesTheRest(c: Chat, before: seq<Message>, prompt: Message, run: seq<Message>,
                                                 rest: seq<Message>)
    requires c.messages == before + [prompt] + (run + rest) && forall m :: m in before ==> m.id != prompt.id
    requires (forall m :: m in run ==> IsShellOrPlaceholder(m)) && (rest == [] || !IsShellOrPlaceholder(rest[0]))
    ensures TakenBack(c, prompt.id, false) == c.(messages := before + rest)
    ensures TakenBack(c, prompt.id, true) == TurnFinished(c.(messages := before + rest))
  {
    DroppedWithRun(before, prompt, run + rest);
    OnlyTheRunGoes(run, rest);
    assert (run + rest)[|run|..] == rest;
  }
}
