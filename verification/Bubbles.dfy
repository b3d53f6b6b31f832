/** How many bubbles a turn draws: the fold exists so that there is not one per event. */
module Bubbles {
  import opened Text
  import opened StreamMerge
  import opened Conversations
  import opened Turns

  predicate IsToolBubble(m: Message) {
    IsStreamingReply(m) && m.toolCalls != []
  }

  /** At most one streaming bubble holds tools; it shows no text, and a bubble beside it does. */
  ghost predicate OneOfEach(ms: seq<Message>) {
    && (forall i, j :: 0 <= i < j < |ms| && IsToolBubble(ms[i]) ==> !IsToolBubble(ms[j]))
    && (forall i :: 0 <= i < |ms| && IsToolBubble(ms[i]) ==> IsBlank(ms[i].content))
    && (forall i, j :: 0 <= i < |ms| && 0 <= j < |ms| && IsToolBubble(ms[i]) && IsTextBubble(ms[j])
          ==> !IsBlank(ms[j].content))
  }

  ghost predicate StreamsShowText(streams: Streams) {
    forall s :: s in streams ==> !IsBlank(streams[s])
  }

  /** Every delta that says anything says more than white space. */
  predicate SaysText(event: Event) {
    event.MessageDelta? ==> event.delta.text == "" || !IsBlank(event.delta.text)
  }

  lemma {:induction false} EndsWithText(s: string, suffix: string)
    requires EndsWith(s, suffix) && !IsBlank(suffix)
    ensures !IsBlank(s)
  {
    BlankIsAllWhiteSpace(s);
    BlankIsAllWhiteSpace(suffix);
    var k :| 0 <= k < |suffix| && !IsBlankChar(suffix[k]);
    assert s[|s| - |suffix| + k] == suffix[k];
  }

  lemma {:induction false} BestIsSome(streams: Streams, n: nat)
    requires n <= |SOURCES|
    ensures BestOfFirst(streams, n) != "" ==> exists s :: s in streams && streams[s] == BestOfFirst(streams, n)
  {
    if n > 0 {
      BestIsSome(streams, n - 1);
    }
  }

  lemma {:induction false} TextIsReceived(streams: Streams, delta: Delta)
    requires StreamsShowText(streams) && delta.text != "" && !IsBlank(delta.text)
    ensures StreamsShowText(Receive(streams, delta)) && !IsBlank(Best(Receive(streams, delta)))
  {
    var buffer := StreamMerge.At(streams, delta.source);
    var after := Receive(streams, delta);
    MergeKeepsBoth(buffer, delta.text);
    EndsWithText(MergeChunk(buffer, delta.text), delta.text);
    BestIsMonotone(map[delta.source := after[delta.source]], after, |SOURCES|);
    OneStreamIsBest(delta.source, after[delta.source], |SOURCES|);
    assert after[delta.source] != "";
    BestIsSome(after, |SOURCES|);
  }

  lemma {:induction false} OneStreamIsBest(source: Source, text: string, n: nat)
    requires n <= |SOURCES|
    ensures BestOfFirst(map[source := text], n) == if Rank(source) < n then text else ""
  {
    if n > 0 {
      OneStreamIsBest(source, text, n - 1);
      assert SOURCES[n - 1] == source ==> Rank(source) == n - 1;
    }
  }

  // ----- one event

  lemma {:induction false} StartKeepsOne(c: Chat, newId: MessageId, start: nat)
    requires InTurn(c.messages, start) && OneOfEach(c.messages)
    ensures OneOfEach(MessageStarted(c, newId).chat.messages)
  {
    TurnStartsThere(c.messages, start);
    if MessageStarted(c, newId).change != NoChange && c.messages != [] {
      assert !IsStreamingReply(c.messages[|c.messages| - 1]);
    }
  }

  lemma {:induction false} PutTextKeepsOne(ms: seq<Message>, i: nat, m: Message)
    requires OneOfEach(ms) && i <= |ms| && (i < |ms| ==> !IsToolBubble(ms[i]))
    requires IsTextBubble(m) && !IsBlank(m.content)
    ensures OneOfEach(Put(ms, i, m))
  {
  }

  lemma {:induction false} DeltaKeepsOne(c: Chat, delta: Delta, newId: MessageId, start: nat)
    requires InTurn(c.messages, start) && OneOfEach(c.messages) && StreamsShowText(c.streams)
    requires SaysText(MessageDelta(delta))
    ensures OneOfEach(DeltaApplied(c, delta, newId).chat.messages)
  {
    var outcome := DeltaApplied(c, delta, newId);
    if outcome.change != NoChange {
      TextIsReceived(c.streams, delta);
      LastWhereSpec(c.messages, IsTextBubble);
      var i := LastWhere(c.messages, IsTextBubble);
      var at := if i >= 0 then i else |c.messages|;
      PutTextKeepsOne(c.messages, at, outcome.chat.messages[at]);
    }
  }

  lemma {:induction false} FileKeepsOne(c: Chat, attachment: Attachment, newId: MessageId)
    requires OneOfEach(c.messages)
    ensures OneOfEach(AttachmentAppended(c, attachment, newId).chat.messages)
  {
    LastWhereSpec(c.messages, IsStreamingReply);
  }

  /** A tool call joins the tool bubble, or the placeholder becomes it. */
  lemma {:induction false} ToolKeepsOne(c: Chat, call: ToolCall, newId: MessageId, start: nat)
    requires InTurn(c.messages, start) && OneOfEach(c.messages)
    ensures OneOfEach(ToolCallAppended(c, call, newId).chat.messages)
  {
    var ms, after := c.messages, ToolCallAppended(c, call, newId).chat.messages;
    TurnStartsThere(ms, start);
    LastWhereSpec(ms, IsBlankBubble);
    var i := LastWhere(ms, IsBlankBubble);
    if after != ms {
      var at := if i >= 0 then i else |ms|;
      forall k | 0 <= k < |after| && k != at ensures !IsToolBubble(after[k]) {
        assert after[k] == ms[k];
        assert IsToolBubble(ms[k]) ==> IsBlankBubble(ms[k]);
      }
    }
  }

  lemma {:induction false} SettledIsOne(ms: seq<Message>)
    requires AllSettled(ms)
    ensures OneOfEach(ms)
  {
    forall i | 0 <= i < |ms| ensures !IsStreamingReply(ms[i]) {
      assert ms[i] in ms;
    }
  }

  ghost predicate IsTidy(c: Chat, start: nat) {
    InTurn(c.messages, start) && OneOfEach(c.messages) && StreamsShowText(c.streams)
  }

  lemma {:induction false} StreamsStayText(c: Chat, event: Event, newId: MessageId)
    requires StreamsShowText(c.streams) && SaysText(event)
    ensures StreamsShowText(Applied(c, event, newId).chat.streams)
  {
    if event.MessageDelta? && event.delta.text != "" {
      TextIsReceived(c.streams, event.delta);
    }
  }

  lemma {:induction false} EventStaysTidy(c: Chat, event: Event, newId: MessageId, start: nat)
    requires IsTidy(c, start) && SaysText(event)
    ensures OneOfEach(Applied(c, event, newId).chat.messages)
  {
    match event
    case MessageStart => StartKeepsOne(c, newId, start);
    case MessageDelta(delta) => DeltaKeepsOne(c, delta, newId, start);
    case ToolReported(call) => ToolKeepsOne(c, call, newId, start);
    case FileReported(attachment) => FileKeepsOne(c, attachment, newId);
    case MessageComplete(text) =>
      FinishSettles(Completed(c, text, newId));
      SettledIsOne(Applied(c, event, newId).chat.messages);
    case TurnFailed =>
      FinishSettles(c.messages);
      SettledIsOne(Applied(c, event, newId).chat.messages);
    case Other =>
  }

  // ----- a turn

  lemma {:induction false} TurnStaysTidy(c: Chat, es: seq<Received>, start: nat)
    requires IsTidy(c, start) && forall e :: e in es ==> SaysText(e.event)
    ensures IsTidy(Folded(c, es), start)
  {
    if es != [] {
      var rest, last := es[..|es| - 1], es[|es| - 1];
      assert es == rest + [last] && last in es;
      TurnStaysTidy(c, rest, start);
      EventStaysTidy(Folded(c, rest), last.event, last.newId, start);
      StreamsStayText(Folded(c, rest), last.event, last.newId);
      EveryItemExactlyOnce(c, es, start, FileItem(""));
    }
  }

  // ----- exactly when there is a second tool bubble

  ghost predicate HasTwoToolBubbles(ms: seq<Message>) {
    exists i, j :: 0 <= i < j < |ms| && IsToolBubble(ms[i]) && IsToolBubble(ms[j])
  }

  /** A bubble of nothing but white space streams after the one with the tools. */
  ghost predicate BlankTextFollowsTools(ms: seq<Message>) {
    exists i, j :: 0 <= i < j < |ms| && IsToolBubble(ms[i]) && IsTextBubble(ms[j]) && IsBlank(ms[j].content)
  }

  /** The guard: a tool call the turn does not have yet finds that blank bubble first. */
  ghost predicate Splits(c: Chat, event: Event) {
    LastWhereSpec(c.messages, IsUser);
    && event.ToolReported?
    && !HasTool(c.messages[TurnStart(c.messages)..], event.call)
    && BlankTextFollowsTools(c.messages)
  }

  ghost predicate ToolsShowNoText(ms: seq<Message>) {
    forall i :: 0 <= i < |ms| && IsToolBubble(ms[i]) ==> IsBlank(ms[i].content)
  }

  lemma {:induction false} JoiningSplits(ms: seq<Message>, call: ToolCall, at: nat)
    requires !HasTwoToolBubbles(ms) && ToolsShowNoText(ms)
    requires at < |ms| && IsBlankBubble(ms[at]) && forall k :: at < k < |ms| ==> !IsBlankBubble(ms[k])
    ensures HasTwoToolBubbles(ms[at := WithTool(ms[at], call)]) <==> BlankTextFollowsTools(ms)
  {
    var after := ms[at := WithTool(ms[at], call)];
    if HasTwoToolBubbles(after) {
      var i, j :| 0 <= i < j < |after| && IsToolBubble(after[i]) && IsToolBubble(after[j]);
      var other := if i == at then j else i;
      assert after[other] == ms[other] && IsBlankBubble(ms[other]);
      assert other < at && IsTextBubble(ms[at]);
    }
    if BlankTextFollowsTools(ms) {
      var i, j :| 0 <= i < j < |ms| && IsToolBubble(ms[i]) && IsTextBubble(ms[j]) && IsBlank(ms[j].content);
      assert IsBlankBubble(ms[j]);
      assert IsToolBubble(after[i]) && IsToolBubble(after[at]);
    }
  }

  lemma {:induction false} PushingSplitsNothing(ms: seq<Message>, m: Message)
    requires !HasTwoToolBubbles(ms) && ToolsShowNoText(ms)
    requires forall k :: 0 <= k < |ms| ==> !IsBlankBubble(ms[k])
    ensures !HasTwoToolBubbles(ms + [m]) && !BlankTextFollowsTools(ms)
  {
    forall k | 0 <= k < |ms| ensures !IsToolBubble(ms[k]) {
      assert IsToolBubble(ms[k]) ==> IsBlankBubble(ms[k]);
    }
  }

  /** One call makes a second tool bubble exactly when the guard holds. */
  lemma {:induction false} ToolCallSplitsWhen(c: Chat, call: ToolCall, newId: MessageId)
    requires !HasTwoToolBubbles(c.messages) && ToolsShowNoText(c.messages)
    ensures HasTwoToolBubbles(ToolCallAppended(c, call, newId).chat.messages) <==> Splits(c, ToolReported(call))
  {
    var ms := c.messages;
    LastWhereSpec(ms, IsUser);
    LastWhereSpec(ms, IsBlankBubble);
    var i := LastWhere(ms, IsBlankBubble);
    if !HasTool(ms[TurnStart(ms)..], call) {
      if i >= 0 {
        JoiningSplits(ms, call, i);
      } else {
        PushingSplitsNothing(ms, WithTool(StreamingReply(newId), call));
      }
    }
  }

  /** The tool bubbles stay where they are and show what they showed. */
  ghost predicate KeepsToolBubbles(ms: seq<Message>, after: seq<Message>) {
    && |ms| <= |after|
    && (forall k :: 0 <= k < |ms| && IsToolBubble(ms[k]) ==> IsToolBubble(after[k]))
    && ToolsShowNoText(after)
  }

  lemma {:induction false} ToolCallKeepsToolBubbles(c: Chat, call: ToolCall, newId: MessageId)
    requires ToolsShowNoText(c.messages)
    ensures KeepsToolBubbles(c.messages, ToolCallAppended(c, call, newId).chat.messages)
  {
    LastWhereSpec(c.messages, IsBlankBubble);
  }

  ghost predicate NoNewToolBubbles(ms: seq<Message>, after: seq<Message>) {
    && KeepsToolBubbles(ms, after)
    && forall k :: 0 <= k < |after| && IsToolBubble(after[k]) ==> k < |ms| && IsToolBubble(ms[k])
  }

  lemma {:induction false} OthersMakeNoToolBubbles(c: Chat, event: Event, newId: MessageId)
    requires ToolsShowNoText(c.messages) && !EndsTurn(event) && !event.ToolReported?
    ensures NoNewToolBubbles(c.messages, Applied(c, event, newId).chat.messages)
  {
    match event
    case MessageStart =>
    case MessageDelta(_) => LastWhereSpec(c.messages, IsTextBubble);
    case FileReported(_) => LastWhereSpec(c.messages, IsStreamingReply);
    case Other =>
  }

  lemma {:induction false} TwoStayTwo(ms: seq<Message>, after: seq<Message>)
    requires HasTwoToolBubbles(ms) && KeepsToolBubbles(ms, after)
    ensures HasTwoToolBubbles(after)
  {
    var i, j :| 0 <= i < j < |ms| && IsToolBubble(ms[i]) && IsToolBubble(ms[j]);
    assert IsToolBubble(after[i]) && IsToolBubble(after[j]);
  }

  lemma {:induction false} EndLeavesNone(ms: seq<Message>)
    requires AllSettled(ms)
    ensures ToolsShowNoText(ms) && !HasTwoToolBubbles(ms)
  {
    SettledIsOne(ms);
  }

  /** One event of any kind, from any state with blank tool bubbles. */
  lemma {:induction false} EventSplitsWhen(c: Chat, event: Event, newId: MessageId)
    requires ToolsShowNoText(c.messages)
    ensures ToolsShowNoText(Applied(c, event, newId).chat.messages)
    ensures HasTwoToolBubbles(Applied(c, event, newId).chat.messages)
       <==> !EndsTurn(event) && (HasTwoToolBubbles(c.messages) || Splits(c, event))
  {
    var after := Applied(c, event, newId).chat.messages;
    if EndsTurn(event) {
      FinishSettles(if event.TurnFailed? then c.messages else Completed(c, event.text, newId));
      EndLeavesNone(after);
    } else {
      if event.ToolReported? {
        ToolCallKeepsToolBubbles(c, event.call, newId);
        if !HasTwoToolBubbles(c.messages) {
          ToolCallSplitsWhen(c, event.call, newId);
        }
      } else {
        OthersMakeNoToolBubbles(c, event, newId);
      }
      if HasTwoToolBubbles(c.messages) {
        TwoStayTwo(c.messages, after);
      }
    }
  }

  /** In a run: the guard held for some event since the turn last ended. */
  ghost predicate SplitSinceEnd(c: Chat, es: seq<Received>) {
    es != []
    && var rest, last := es[..|es| - 1], es[|es| - 1];
       !EndsTurn(last.event) && (SplitSinceEnd(c, rest) || Splits(Folded(c, rest), last.event))
  }

  /** Over any run of events, there are two tool bubbles exactly when a fresh tool call found a
      blank text bubble after the tool bubble, and the turn has not ended since. */
  lemma {:induction false} TwoToolBubblesWhen(c: Chat, es: seq<Received>)
    requires ToolsShowNoText(c.messages) && !HasTwoToolBubbles(c.messages)
    ensures ToolsShowNoText(Folded(c, es).messages)
    ensures HasTwoToolBubbles(Folded(c, es).messages) <==> SplitSinceEnd(c, es)
  {
    if es != [] {
      var rest, last := es[..|es| - 1], es[|es| - 1];
      TwoToolBubblesWhen(c, rest);
      EventSplitsWhen(Folded(c, rest), last.event, last.newId);
    }
  }

  /** A placeholder after a settled transcript and a prompt. */
  lemma {:induction false} BegunIsTidy(c: Chat, id: MessageId, reply: MessageId, prompt: string)
    requires AllSettled(c.messages)
    ensures IsTidy(TurnBegunWithPlaceholder(c, id, reply, prompt), |c.messages| + 1)
  {
    var begun, n := TurnBegunWithPlaceholder(c, id, reply, prompt), |c.messages| + 1;
    assert begun.messages[..n] == c.messages + [NewMessage(id, User, prompt)];
    assert begun.messages == begun.messages[..n] + [StreamingReply(reply)];
    forall m | 0 <= m < n ensures !IsStreamingReply(begun.messages[m]) {
      assert begun.messages[m] in begun.messages[..n];
    }
  }

  lemma {:induction false} NotThree(ms: seq<Message>, start: nat, i: nat, j: nat, k: nat)
    requires InTurn(ms, start) && !HasTwoToolBubbles(ms) && i < j < k < |ms|
    ensures !(IsStreamingReply(ms[i]) && IsStreamingReply(ms[j]) && IsStreamingReply(ms[k]))
  {
    TurnStartsThere(ms, start);
    if i >= start {
      assert IsStreamingReply(ms[i]) ==> IsToolBubble(ms[i]) || IsTextBubble(ms[i]);
      assert IsStreamingReply(ms[j]) ==> IsToolBubble(ms[j]) || IsTextBubble(ms[j]);
      assert IsStreamingReply(ms[k]) ==> IsToolBubble(ms[k]) || IsTextBubble(ms[k]);
    }
  }

  /** However many events a turn has, and in whatever order: never more than two bubbles stream
      at once, one with the tools and one with the text, unless a tool call met the guard. */
  lemma {:induction false} AtMostTwoBubblesStream(c: Chat, id: MessageId, reply: MessageId, prompt: string,
                                                  es: seq<Received>, i: nat, j: nat, k: nat)
    requires AllSettled(c.messages)
    requires !SplitSinceEnd(TurnBegunWithPlaceholder(c, id, reply, prompt), es)
    requires var ms := Folded(TurnBegunWithPlaceholder(c, id, reply, prompt), es).messages; i < j < k < |ms|
    ensures var ms := Folded(TurnBegunWithPlaceholder(c, id, reply, prompt), es).messages;
      !(IsStreamingReply(ms[i]) && IsStreamingReply(ms[j]) && IsStreamingReply(ms[k]))
  {
    var begun, n := TurnBegunWithPlaceholder(c, id, reply, prompt), |c.messages| + 1;
    BegunIsTidy(c, id, reply, prompt);
    TwoToolBubblesWhen(begun, es);
    EveryItemExactlyOnce(begun, es, n, FileItem(""));
    NotThree(Folded(begun, es).messages, n, i, j, k);
  }

  /** No tool call meets the guard while no delta is only white space. */
  lemma {:induction false} TextDeltasNeverSplit(c: Chat, es: seq<Received>, start: nat)
    requires IsTidy(c, start) && forall e :: e in es ==> SaysText(e.event)
    ensures !SplitSinceEnd(c, es)
  {
    EndOfTidy(c.messages);
    TwoToolBubblesWhen(c, es);
    TurnStaysTidy(c, es, start);
    EndOfTidy(Folded(c, es).messages);
  }

  lemma {:induction false} EndOfTidy(ms: seq<Message>)
    requires OneOfEach(ms)
    ensures ToolsShowNoText(ms) && !HasTwoToolBubbles(ms)
  {
  }

  // ----- white space

  lemma BlankFirstDelta()
    ensures Receive(map[], Delta(EventStream, " ")) == map[EventStream := " "]
    ensures Best(map[EventStream := " "]) == " " && IsBlank(" ")
  {
    var streams: Streams := map[EventStream := " "];
    assert BestOfFirst(streams, 1) == "" && BestOfFirst(streams, 2) == "";
    assert TrimStart(" ") == "";
  }

  lemma BlankDeltaOpensBubble(prompt: Message, tools: Message)
    requires prompt.role == User && IsToolBubble(tools)
    ensures DeltaApplied(Chat([prompt, tools], map[], true), Delta(EventStream, " "), "text").chat
         == Chat([prompt, tools, StreamingReply("text").(content := " ")], map[EventStream := " "], true)
  {
    BlankFirstDelta();
    LastWhereSpec([prompt, tools], IsTextBubble);
    assert [prompt, tools] + [StreamingReply("text").(content := " ")]
        == [prompt, tools, StreamingReply("text").(content := " ")];
  }

  lemma ToolJoinsBlankText(prompt: Message, tools: Message, text: Message, streams: Streams, call: ToolCall)
    requires prompt.role == User && IsToolBubble(tools) && text.role == Assistant
    requires IsTextBubble(text) && IsBlank(text.content)
    requires forall c :: c in tools.toolCalls ==> !SameTool(c, call)
    ensures ToolCallAppended(Chat([prompt, tools, text], streams, true), call, "more").chat.messages
         == [prompt, tools, WithTool(text, call)]
  {
    var ms := [prompt, tools, text];
    LastWhereSpec(ms, IsUser);
    assert IsUser(ms[0]) && !IsUser(ms[1]) && !IsUser(ms[2]);
    assert TurnStart(ms) == 1 && ms[1..] == [tools, text];
    LastWhereSpec(ms, IsBlankBubble);
    assert LastWhere(ms, IsBlankBubble) == 2;
  }

  /** A delta of white space between two tool calls makes a second tool bubble. */
  lemma WhiteSpaceMakesAnotherToolBubble(prompt: Message, first: ToolCall, second: ToolCall)
    requires prompt.role == User && !SameTool(first, second)
    ensures var c := Chat([prompt, WithTool(StreamingReply("tools"), first)], map[], true);
      var after := Folded(c, [Received(MessageDelta(Delta(EventStream, " ")), "text"),
                              Received(ToolReported(second), "more")]).messages;
      |after| == 3 && IsToolBubble(after[1]) && IsToolBubble(after[2])
  {
    var tools := WithTool(StreamingReply("tools"), first);
    var c := Chat([prompt, tools], map[], true);
    var delta, call := Received(MessageDelta(Delta(EventStream, " ")), "text"), Received(ToolReported(second), "more");
    BlankFirstDelta();
    BlankDeltaOpensBubble(prompt, tools);
    assert [delta, call][..1] == [delta] && [delta][..0] == [];
    assert Folded(c, [delta]) == DeltaApplied(c, delta.event.delta, delta.newId).chat;
    ToolJoinsBlankText(prompt, tools, StreamingReply("text").(content := " "), map[EventStream := " "], second);
  }
}
