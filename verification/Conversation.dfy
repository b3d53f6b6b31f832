/** One chat's messages, folded from the events of its turns. */
module Conversations {
  import opened Text
  import opened StreamMerge

  type MessageId = string

  datatype Role = User | Assistant | System | Tool

  datatype ToolCall = ToolCall(id: string, name: string, status: string, detail: string)

  datatype Attachment = Attachment(id: string, path: string, displayName: Option<string>)

  datatype Message = Message(
    id: MessageId, role: Role, content: string, isStreaming: bool,
    toolCalls: seq<ToolCall>, attachments: seq<Attachment>,
    attachmentMatchText: Option<string>)

  datatype Event =
    | MessageStart
    | MessageDelta(delta: Delta)
    | MessageComplete(text: Option<string>)
    | ToolReported(call: ToolCall)
    | FileReported(attachment: Attachment)
    | TurnFailed
    | Other

  /** What folding an event did to the list. */
  datatype Change = NoChange | Streaming(id: MessageId, text: string) | Structure

  datatype Chat = Chat(messages: seq<Message>, streams: Streams, sending: bool)

  datatype Outcome = Outcome(chat: Chat, change: Change)

  function NewMessage(id: MessageId, role: Role, content: string): Message {
    Message(id, role, content, false, [], [], None)
  }

  function StreamingReply(id: MessageId): Message {
    NewMessage(id, Assistant, "").(isStreaming := true)
  }

  predicate IsUser(m: Message) {
    m.role == User
  }

  predicate IsStreamingReply(m: Message) {
    m.role == Assistant && m.isStreaming
  }

  /** The bubble streamed text belongs to: one with tool calls must not swallow it. */
  predicate IsTextBubble(m: Message) {
    IsStreamingReply(m) && m.toolCalls == []
  }

  predicate IsBlankBubble(m: Message) {
    IsStreamingReply(m) && IsBlank(m.content)
  }

  predicate IsEmptyShell(m: Message) {
    m.role == Assistant && !m.isStreaming && IsBlank(m.content) && m.toolCalls == [] && m.attachments == []
  }

  /** The last message that satisfies `p`, or -1. */
  function LastWhere(ms: seq<Message>, p: Message -> bool): (i: int) {
    if ms == [] then -1
    else if p(ms[|ms| - 1]) then |ms| - 1
    else LastWhere(ms[..|ms| - 1], p)
  }

  function TurnStart(ms: seq<Message>): int {
    LastWhere(ms, IsUser) + 1
  }

  lemma {:induction false} LastWhereSpec(ms: seq<Message>, p: Message -> bool)
    ensures var i := LastWhere(ms, p);
      -1 <= i < |ms| && (i >= 0 ==> p(ms[i])) && forall j :: i < j < |ms| ==> !p(ms[j])
  {
    if ms != [] && !p(ms[|ms| - 1]) {
      LastWhereSpec(ms[..|ms| - 1], p);
    }
  }

  function SettleOne(m: Message): Message {
    if IsStreamingReply(m) then m.(isStreaming := false) else m
  }

  function Settle(ms: seq<Message>): seq<Message> {
    seq(|ms|, i requires 0 <= i < |ms| => SettleOne(ms[i]))
  }

  function Prune(ms: seq<Message>): seq<Message> {
    if ms == [] then []
    else
      var rest, last := Prune(ms[..|ms| - 1]), ms[|ms| - 1];
      if IsEmptyShell(last) then rest else rest + [last]
  }

  /** Both handlers look for repeats from the last prompt on. */
  predicate HasTool(ms: seq<Message>, call: ToolCall) {
    exists m :: m in ms && exists c :: c in m.toolCalls && SameTool(c, call)
  }

  predicate SameTool(a: ToolCall, b: ToolCall) {
    a.name == b.name && a.status == b.status && a.detail == b.detail
  }

  predicate HasFile(ms: seq<Message>, path: string) {
    exists m :: m in ms && HasPath(m.attachments, path)
  }

  predicate HasPath(attachments: seq<Attachment>, path: string) {
    exists a :: a in attachments && a.path == path
  }

  // ----- what each call makes of the chat

  function TurnBegun(c: Chat): Chat {
    c.(streams := map[], sending := true)
  }

  function TurnBegunWith(c: Chat, id: MessageId, prompt: string): Chat {
    TurnBegun(c.(messages := c.messages + [NewMessage(id, User, prompt)]))
  }

  function TurnBegunWithPlaceholder(c: Chat, id: MessageId, reply: MessageId, prompt: string): Chat {
    var begun := TurnBegunWith(c, id, prompt);
    begun.(messages := begun.messages + [StreamingReply(reply)])
  }

  function TranscriptSet(c: Chat, messages: seq<Message>): Chat {
    c.(messages := messages, streams := map[])
  }

  function TurnFinished(c: Chat): Chat {
    Chat(Prune(Settle(c.messages)), map[], false)
  }

  function MessageStarted(c: Chat, newId: MessageId): Outcome {
    if c.sending && (c.messages == [] || !IsStreamingReply(c.messages[|c.messages| - 1]))
    then Outcome(c.(messages := c.messages + [StreamingReply(newId)]), Structure)
    else Outcome(c, NoChange)
  }

  function AttachmentAppended(c: Chat, attachment: Attachment, newId: MessageId): Outcome {
    LastWhereSpec(c.messages, IsUser);
    LastWhereSpec(c.messages, IsStreamingReply);
    if HasFile(c.messages[TurnStart(c.messages)..], attachment.path) then Outcome(c, NoChange)
    else
      var i := LastWhere(c.messages, IsStreamingReply);
      Outcome(
        c.(messages :=
          if i >= 0 then c.messages[i := WithFile(c.messages[i], attachment)]
          else c.messages + [WithFile(StreamingReply(newId), attachment)]),
        Structure)
  }

  function WithFile(m: Message, attachment: Attachment): Message {
    m.(attachments := m.attachments + [attachment])
  }

  function DeltaApplied(c: Chat, delta: Delta, newId: MessageId): Outcome {
    LastWhereSpec(c.messages, IsTextBubble);
    if delta.text == "" then Outcome(c, NoChange)
    else
      var received := c.(streams := Receive(c.streams, delta));
      var streamed := Best(received.streams);
      var i := LastWhere(c.messages, IsTextBubble);
      if streamed == "" then Outcome(received, NoChange)
      else if i >= 0 then
        Outcome(received.(messages := c.messages[i := c.messages[i].(content := streamed)]),
                Streaming(c.messages[i].id, streamed))
      else
        Outcome(received.(messages := c.messages + [StreamingReply(newId).(content := streamed)]),
                Streaming(newId, streamed))
  }

  function FinalText(c: Chat, text: Option<string>): string {
    Trim(if text.Some? then text.value else Best(c.streams))
  }

  function Completed(c: Chat, text: Option<string>, newId: MessageId): seq<Message> {
    LastWhereSpec(c.messages, IsStreamingReply);
    var final := FinalText(c, text);
    var i := LastWhere(c.messages, IsStreamingReply);
    var settled := Settle(c.messages);
    if final == "" then settled
    else if i >= 0 && c.messages[i].toolCalls == [] then settled[i := settled[i].(content := final)]
    else settled + [NewMessage(newId, Assistant, final)]
  }

  function MessageCompleted(c: Chat, text: Option<string>, newId: MessageId): Outcome {
    Outcome(TurnFinished(c.(messages := Completed(c, text, newId))), Structure)
  }

  function ToolCallAppended(c: Chat, call: ToolCall, newId: MessageId): Outcome {
    LastWhereSpec(c.messages, IsUser);
    LastWhereSpec(c.messages, IsBlankBubble);
    if HasTool(c.messages[TurnStart(c.messages)..], call) then Outcome(c, NoChange)
    else
      var i := LastWhere(c.messages, IsBlankBubble);
      Outcome(
        c.(messages :=
          if i >= 0 then c.messages[i := WithTool(c.messages[i], call)]
          else c.messages + [WithTool(StreamingReply(newId), call)]),
        Structure)
  }

  function WithTool(m: Message, call: ToolCall): Message {
    m.(toolCalls := m.toolCalls + [call])
  }

  function Applied(c: Chat, event: Event, newId: MessageId): Outcome {
    match event
    case MessageStart => MessageStarted(c, newId)
    case MessageDelta(delta) => DeltaApplied(c, delta, newId)
    case MessageComplete(text) => MessageCompleted(c, text, newId)
    case ToolReported(call) => ToolCallAppended(c, call, newId)
    case FileReported(attachment) => AttachmentAppended(c, attachment, newId)
    case TurnFailed => Outcome(TurnFinished(c), Structure)
    case Other => Outcome(c, NoChange)
  }

  /** The prompt could not be delivered: it and the placeholders after it go. */
  predicate IsShellOrPlaceholder(m: Message) {
    m.role == Assistant && IsBlank(m.content) && m.toolCalls == []
  }

  function FirstWithId(ms: seq<Message>, id: MessageId): (i: nat)
    ensures i <= |ms|
  {
    if ms == [] || ms[0].id == id then 0 else 1 + FirstWithId(ms[1..], id)
  }

  function PlaceholderRun(ms: seq<Message>): (n: nat)
    ensures n <= |ms|
  {
    if ms != [] && IsShellOrPlaceholder(ms[0]) then 1 + PlaceholderRun(ms[1..]) else 0
  }

  lemma {:induction false} RunGoesOn(ms: seq<Message>, i: nat)
    requires i < |ms|
    ensures PlaceholderRun(ms[i..])
         == if IsShellOrPlaceholder(ms[i]) then 1 + PlaceholderRun(ms[i + 1..]) else 0
  {
    assert ms[i..][1..] == ms[i + 1..];
  }

  function WithoutPrompt(ms: seq<Message>, prompt: MessageId): seq<Message> {
    var i := FirstWithId(ms, prompt);
    if i == |ms| then ms else ms[..i] + ms[i + 1 + PlaceholderRun(ms[i + 1..])..]
  }

  /** `isLastTurn`: no other turn has started since. */
  function TakenBack(c: Chat, prompt: MessageId, isLastTurn: bool): Chat {
    var taken := c.(messages := WithoutPrompt(c.messages, prompt));
    if isLastTurn then TurnFinished(taken) else taken
  }

  // ----- merging what the backend reports

  predicate Matches(candidate: Message, m: Message) {
    && candidate.role == m.role
    && (|| Trim(candidate.content) == Trim(m.content)
        || (&& candidate.attachments != []
            && m.attachmentMatchText.Some?
            && Trim(candidate.content) == Trim(m.attachmentMatchText.value)))
  }

  /** The first match from the cursor on; `|local|` when there is none. */
  function FindMatch(local: seq<Message>, cursor: nat, m: Message): (i: nat)
    requires cursor <= |local|
    ensures cursor <= i <= |local|
    decreases |local| - cursor
  {
    if cursor == |local| || Matches(local[cursor], m) then cursor else FindMatch(local, cursor + 1, m)
  }

  predicate IsFileOnlyReply(m: Message) {
    m.role == Assistant && IsBlank(m.content) && m.attachments != []
  }

  function FileOnlyReplies(ms: seq<Message>): seq<Message> {
    if ms == [] then []
    else (if IsFileOnlyReply(ms[0]) then [ms[0]] else []) + FileOnlyReplies(ms[1..])
  }

  predicate HasKey<T>(items: seq<T>, key: T -> string, k: string) {
    items != [] && (key(items[|items| - 1]) == k || HasKey(items[..|items| - 1], key, k))
  }

  /** `more` is pushed one by one, what is there already is not. */
  function AddNew<T>(kept: seq<T>, more: seq<T>, key: T -> string): seq<T> {
    if more == [] then kept
    else
      var added, last := AddNew(kept, more[..|more| - 1], key), more[|more| - 1];
      if HasKey(added, key, key(last)) then added else added + [last]
  }

  function PathOf(a: Attachment): string {
    a.path
  }

  function IdOf(c: ToolCall): string {
    c.id
  }

  function WithFilesOf(m: Message, from: Message): Message {
    m.(attachments := AddNew(m.attachments, from.attachments, PathOf))
  }

  function WithHoldings(m: Message, from: seq<Message>): Message {
    if from == [] then m
    else
      var rest, last := WithHoldings(m, from[..|from| - 1]), from[|from| - 1];
      WithFilesOf(rest, last).(toolCalls := AddNew(rest.toolCalls, last.toolCalls, IdOf))
  }

  /** A prompt sent with files is reported with a suffix; the client's own wording is kept. */
  function Worded(m: Message, own: Message): Message {
    if own.attachments != [] && m.attachmentMatchText.Some? then m.(content := own.content) else m
  }

  /** A reported message with what the client knows about it: it matched `local[i]`. */
  function Enriched(m: Message, local: seq<Message>, cursor: nat, i: nat): Message
    requires cursor <= i < |local|
  {
    var filed := WithFilesOf(Worded(m, local[i]), local[i]);
    if m.role == Assistant then WithHoldings(filed, local[cursor..i + 1]) else filed
  }

  /** The file-only replies before a prompt stay; before a reply they are part of it. */
  function PassedOver(m: Message, local: seq<Message>, cursor: nat): seq<Message>
    requires cursor <= |local|
  {
    var i := FindMatch(local, cursor, m);
    if i < |local| && m.role != Assistant then FileOnlyReplies(local[cursor..i]) else []
  }

  function Kept(m: Message, local: seq<Message>, cursor: nat): Message
    requires cursor <= |local|
  {
    var i := FindMatch(local, cursor, m);
    if i < |local| then Enriched(m, local, cursor, i) else m
  }

  function MergedStep(m: Message, local: seq<Message>, cursor: nat): seq<Message>
    requires cursor <= |local|
  {
    PassedOver(m, local, cursor) + [Kept(m, local, cursor)]
  }

  function NextCursor(m: Message, local: seq<Message>, cursor: nat): (next: nat)
    requires cursor <= |local|
    ensures cursor <= next <= |local|
  {
    var i := FindMatch(local, cursor, m);
    if i < |local| then i + 1 else cursor
  }

  function Merged(local: seq<Message>, cursor: nat, reported: seq<Message>): seq<Message>
    requires cursor <= |local|
    decreases |reported|
  {
    if reported == [] then FileOnlyReplies(local[cursor..])
    else
      MergedStep(reported[0], local, cursor) + Merged(local, NextCursor(reported[0], local, cursor), reported[1..])
  }

  function TranscriptMerged(c: Chat, reported: seq<Message>): Chat {
    TranscriptSet(c, Merged(c.messages, 0, reported))
  }

  method AddMissing<T>(kept: seq<T>, more: seq<T>, key: T -> string) returns (all: seq<T>)
    ensures all == AddNew(kept, more, key)
  {
    all := kept;
    for i := 0 to |more|
      invariant all == AddNew(kept, more[..i], key)
    {
      assert more[..i + 1][..i] == more[..i];
      if !HasKey(all, key, key(more[i])) {
        all := all + [more[i]];
      }
    }
    assert more[..|more|] == more;
  }

  method Enrich(m: Message, local: seq<Message>, cursor: nat, i: nat) returns (r: Message)
    requires cursor <= i < |local|
    ensures r == Enriched(m, local, cursor, i)
  {
    r := m;
    if local[i].attachments != [] && r.attachmentMatchText.Some? {
      r := r.(content := local[i].content);
    }
    var files := AddMissing(r.attachments, local[i].attachments, PathOf);
    r := r.(attachments := files);
    if r.role == Assistant {
      r := AddHoldings(r, local[cursor..i + 1]);
    }
  }

  method AddHoldings(m: Message, from: seq<Message>) returns (r: Message)
    ensures r == WithHoldings(m, from)
  {
    r := m;
    for k := 0 to |from|
      invariant r == WithHoldings(m, from[..k])
    {
      assert from[..k + 1][..k] == from[..k];
      var files := AddMissing(r.attachments, from[k].attachments, PathOf);
      var calls := AddMissing(r.toolCalls, from[k].toolCalls, IdOf);
      r := r.(attachments := files, toolCalls := calls);
    }
    assert from[..|from|] == from;
  }

  method MergeOne(m: Message, local: seq<Message>, cursor: nat) returns (out: seq<Message>, next: nat)
    requires cursor <= |local|
    ensures out == MergedStep(m, local, cursor)
    ensures next == NextCursor(m, local, cursor)
  {
    var index := FindMatch(local, cursor, m);
    if index == |local| {
      return [m], cursor;
    }
    out := [];
    if m.role != Assistant {
      out := FileOnlyReplies(local[cursor..index]);
    }
    var enriched := Enrich(m, local, cursor, index);
    out := out + [enriched];
    next := index + 1;
  }

  lemma {:induction false} MergedInSteps(local: seq<Message>, cursor: nat, reported: seq<Message>, k: nat)
    requires cursor <= |local| && k < |reported|
    ensures Merged(local, cursor, reported[k..])
         == MergedStep(reported[k], local, cursor)
            + Merged(local, NextCursor(reported[k], local, cursor), reported[k + 1..])
  {
    assert reported[k..][1..] == reported[k + 1..];
  }

  lemma MergedJoins(a: seq<Message>, b: seq<Message>, c: seq<Message>)
    ensures a + (b + c) == a + b + c
  {
  }

  method MergeInto(local: seq<Message>, reported: seq<Message>) returns (merged: seq<Message>, cursor: nat)
    ensures cursor <= |local|
    ensures merged + FileOnlyReplies(local[cursor..]) == Merged(local, 0, reported)
  {
    merged, cursor := [], 0;
    for k := 0 to |reported|
      invariant cursor <= |local|
      invariant merged + Merged(local, cursor, reported[k..]) == Merged(local, 0, reported)
    {
      var out, next := MergeOne(reported[k], local, cursor);
      MergedInSteps(local, cursor, reported, k);
      MergedJoins(merged, out, Merged(local, next, reported[k + 1..]));
      merged, cursor := merged + out, next;
    }
  }

  method EndOfRun(ms: seq<Message>, start: nat) returns (end: nat)
    requires start <= |ms|
    ensures end == start + PlaceholderRun(ms[start..])
  {
    end := start;
    while end < |ms| && IsShellOrPlaceholder(ms[end])
      invariant start <= end <= |ms|
      invariant end + PlaceholderRun(ms[end..]) == start + PlaceholderRun(ms[start..])
    {
      RunGoesOn(ms, end);
      end := end + 1;
    }
    if end < |ms| {
      RunGoesOn(ms, end);
    }
  }

  class Conversation {
    var messages: seq<Message>
    var streams: Streams
    var sending: bool

    ghost function Snapshot(): Chat
      reads this
    {
      Chat(messages, streams, sending)
    }

    constructor ()
      ensures Snapshot() == Chat([], map[], false)
    {
      messages, streams, sending := [], map[], false;
    }

    method BeginTurn()
      modifies this
      ensures Snapshot() == TurnBegun(old(Snapshot()))
    {
      sending := true;
      streams := map[];
    }

    method BeginTurnWith(id: MessageId, prompt: string)
      modifies this
      ensures Snapshot() == TurnBegunWith(old(Snapshot()), id, prompt)
    {
      messages := messages + [NewMessage(id, User, prompt)];
      sending := true;
      streams := map[];
    }

    method BeginTurnWithPlaceholder(id: MessageId, reply: MessageId, prompt: string)
      modifies this
      ensures Snapshot() == TurnBegunWithPlaceholder(old(Snapshot()), id, reply, prompt)
    {
      BeginTurnWith(id, prompt);
      messages := messages + [StreamingReply(reply)];
    }

    method SetTranscript(reported: seq<Message>)
      modifies this
      ensures Snapshot() == TranscriptSet(old(Snapshot()), reported)
    {
      messages := reported;
      streams := map[];
    }

    method MergeTranscript(reported: seq<Message>)
      modifies this
      ensures Snapshot() == TranscriptMerged(old(Snapshot()), reported)
    {
      var merged, cursor := MergeInto(messages, reported);
      SetTranscript(merged + FileOnlyReplies(messages[cursor..]));
    }

    method SettleReplies()
      modifies this`messages
      ensures messages == Settle(old(messages))
    {
      ghost var before := messages;
      for i := 0 to |messages|
        invariant |messages| == |before|
        invariant forall j :: 0 <= j < i ==> messages[j] == SettleOne(before[j])
        invariant forall j :: i <= j < |before| ==> messages[j] == before[j]
      {
        if messages[i].role == Assistant && messages[i].isStreaming {
          messages := messages[i := messages[i].(isStreaming := false)];
        }
      }
    }

    method FinishTurn()
      modifies this
      ensures Snapshot() == TurnFinished(old(Snapshot()))
    {
      SettleReplies();
      messages := Prune(messages);
      streams := map[];
      sending := false;
    }

    method StartMessage(newId: MessageId) returns (change: Change)
      modifies this
      ensures Outcome(Snapshot(), change) == MessageStarted(old(Snapshot()), newId)
    {
      if !sending || (messages != [] && IsStreamingReply(messages[|messages| - 1])) {
        return NoChange;
      }
      messages := messages + [StreamingReply(newId)];
      change := Structure;
    }

    method AppendAttachment(attachment: Attachment, newId: MessageId) returns (change: Change)
      modifies this
      ensures Outcome(Snapshot(), change) == AttachmentAppended(old(Snapshot()), attachment, newId)
    {
      LastWhereSpec(messages, IsUser);
      if HasFile(messages[TurnStart(messages)..], attachment.path) {
        return NoChange;
      }
      LastWhereSpec(messages, IsStreamingReply);
      var i := LastWhere(messages, IsStreamingReply);
      if i < 0 {
        messages := messages + [WithFile(StreamingReply(newId), attachment)];
      } else {
        messages := messages[i := WithFile(messages[i], attachment)];
      }
      change := Structure;
    }

    method ApplyDelta(delta: Delta, newId: MessageId) returns (change: Change)
      modifies this
      ensures Outcome(Snapshot(), change) == DeltaApplied(old(Snapshot()), delta, newId)
    {
      if delta.text == "" {
        return NoChange;
      }
      var merged := MergeStreamChunk(At(streams, delta.source), delta.text);
      streams := streams[delta.source := merged];
      var streamed := BestStreamText(streams);
      if streamed == "" {
        return NoChange;
      }
      LastWhereSpec(messages, IsTextBubble);
      var i := LastWhere(messages, IsTextBubble);
      if i < 0 {
        messages := messages + [StreamingReply(newId).(content := streamed)];
        i := |messages| - 1;
      } else {
        messages := messages[i := messages[i].(content := streamed)];
      }
      change := Streaming(messages[i].id, streamed);
    }

    method CompleteMessage(text: Option<string>, newId: MessageId) returns (change: Change)
      modifies this
      ensures Outcome(Snapshot(), change) == MessageCompleted(old(Snapshot()), text, newId)
    {
      var best := BestStreamText(streams);
      var final := Trim(if text.Some? then text.value else best);
      LastWhereSpec(messages, IsStreamingReply);
      var active := LastWhere(messages, IsStreamingReply);
      SettleReplies();
      if active >= 0 {
        if final != "" {
          if messages[active].toolCalls == [] {
            messages := messages[active := messages[active].(content := final)];
          } else {
            messages := messages + [NewMessage(newId, Assistant, final)];
          }
        }
      } else if final != "" {
        messages := messages + [NewMessage(newId, Assistant, final)];
      }
      FinishTurn();
      change := Structure;
    }

    method AppendToolCall(call: ToolCall, newId: MessageId) returns (change: Change)
      modifies this
      ensures Outcome(Snapshot(), change) == ToolCallAppended(old(Snapshot()), call, newId)
    {
      LastWhereSpec(messages, IsUser);
      if HasTool(messages[TurnStart(messages)..], call) {
        return NoChange;
      }
      LastWhereSpec(messages, IsBlankBubble);
      var i := LastWhere(messages, IsBlankBubble);
      if i < 0 {
        messages := messages + [WithTool(StreamingReply(newId), call)];
      } else {
        messages := messages[i := WithTool(messages[i], call)];
      }
      change := Structure;
    }

    method Apply(event: Event, newId: MessageId) returns (change: Change)
      modifies this
      ensures Outcome(Snapshot(), change) == Applied(old(Snapshot()), event, newId)
    {
      match event
      case MessageStart => change := StartMessage(newId);
      case MessageDelta(delta) => change := ApplyDelta(delta, newId);
      case MessageComplete(text) => change := CompleteMessage(text, newId);
      case ToolReported(call) => change := AppendToolCall(call, newId);
      case FileReported(attachment) => change := AppendAttachment(attachment, newId);
      case TurnFailed =>
        FinishTurn();
        change := Structure;
      case Other =>
        change := NoChange;
    }

    method DropPrompt(prompt: MessageId)
      modifies this`messages
      ensures messages == WithoutPrompt(old(messages), prompt)
    {
      var index := FirstWithId(messages, prompt);
      if index < |messages| {
        var end := EndOfRun(messages, index + 1);
        messages := messages[..index] + messages[end..];
      }
    }

    method TakeBack(prompt: MessageId, isLastTurn: bool)
      modifies this
      ensures Snapshot() == TakenBack(old(Snapshot()), prompt, isLastTurn)
    {
      DropPrompt(prompt);
      if isLastTurn {
        FinishTurn();
      }
    }
  }
}
