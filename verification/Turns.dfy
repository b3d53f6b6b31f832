/** What a whole turn leaves in the transcript, whatever order its events come in. */
module Turns {
  import opened Text
  import opened StreamMerge
  import opened Conversations

  // ----- what a message holds

  /** Two reports of one tool call with the same status are the same item, and so are two
      reports of one file. */
  datatype Item = ToolItem(name: string, status: string, detail: string) | FileItem(path: string)

  function ToolItemOf(call: ToolCall): Item {
    ToolItem(call.name, call.status, call.detail)
  }

  function CallsOf(calls: seq<ToolCall>, item: Item): nat {
    if calls == [] then 0
    else CallsOf(calls[..|calls| - 1], item) + if ToolItemOf(calls[|calls| - 1]) == item then 1 else 0
  }

  function FilesOf(files: seq<Attachment>, item: Item): nat {
    if files == [] then 0
    else FilesOf(files[..|files| - 1], item) + if FileItem(files[|files| - 1].path) == item then 1 else 0
  }

  function Holds(m: Message, item: Item): nat {
    CallsOf(m.toolCalls, item) + FilesOf(m.attachments, item)
  }

  /** How often an item occurs in these messages. */
  function Tally(ms: seq<Message>, item: Item): nat {
    if ms == [] then 0 else Tally(ms[..|ms| - 1], item) + Holds(ms[|ms| - 1], item)
  }

  function ItemOf(event: Event): Option<Item> {
    match event
    case ToolReported(call) => Some(ToolItemOf(call))
    case FileReported(attachment) => Some(FileItem(attachment.path))
    case _ => None
  }

  lemma {:induction false} TallySplits(a: seq<Message>, b: seq<Message>, item: Item)
    ensures Tally(a + b, item) == Tally(a, item) + Tally(b, item)
  {
    if b == [] {
      assert a + b == a;
    } else {
      assert (a + b)[..|a + b| - 1] == a + b[..|b| - 1];
      TallySplits(a, b[..|b| - 1], item);
    }
  }

  lemma {:induction false} CallsAreCounted(calls: seq<ToolCall>, item: Item)
    ensures CallsOf(calls, item) > 0 <==> exists c :: c in calls && ToolItemOf(c) == item
  {
    if calls != [] {
      var rest, last := calls[..|calls| - 1], calls[|calls| - 1];
      CallsAreCounted(rest, item);
      assert calls == rest + [last];
    }
  }

  lemma {:induction false} FilesAreCounted(files: seq<Attachment>, item: Item)
    ensures FilesOf(files, item) > 0 <==> exists f :: f in files && FileItem(f.path) == item
  {
    if files != [] {
      var rest, last := files[..|files| - 1], files[|files| - 1];
      FilesAreCounted(rest, item);
      assert files == rest + [last];
    }
  }

  lemma {:induction false} TallyCounts(ms: seq<Message>, item: Item)
    ensures Tally(ms, item) > 0 <==> exists m :: m in ms && Holds(m, item) > 0
  {
    if ms != [] {
      var rest, last := ms[..|ms| - 1], ms[|ms| - 1];
      TallyCounts(rest, item);
      assert ms == rest + [last];
    }
  }

  lemma {:induction false} HasToolIsTallied(ms: seq<Message>, call: ToolCall)
    ensures HasTool(ms, call) <==> Tally(ms, ToolItemOf(call)) > 0
  {
    var item := ToolItemOf(call);
    TallyCounts(ms, item);
    forall m | m in ms ensures Holds(m, item) > 0 <==> exists c :: c in m.toolCalls && SameTool(c, call) {
      CallsAreCounted(m.toolCalls, item);
      FilesAreCounted(m.attachments, item);
      assert forall c :: ToolItemOf(c) == item <==> SameTool(c, call);
    }
  }

  lemma {:induction false} HasFileIsTallied(ms: seq<Message>, path: string)
    ensures HasFile(ms, path) <==> Tally(ms, FileItem(path)) > 0
  {
    var item := FileItem(path);
    TallyCounts(ms, item);
    forall m | m in ms ensures Holds(m, item) > 0 <==> HasPath(m.attachments, path) {
      CallsAreCounted(m.toolCalls, item);
      FilesAreCounted(m.attachments, item);
    }
  }

  // ----- writing one message

  /** Write over message `i`, or append it. */
  function Put(ms: seq<Message>, i: nat, m: Message): seq<Message>
    requires i <= |ms|
  {
    if i < |ms| then ms[i := m] else ms + [m]
  }

  function HeldAt(ms: seq<Message>, i: nat, item: Item): nat
    requires i <= |ms|
  {
    if i < |ms| then Holds(ms[i], item) else 0
  }

  lemma {:induction false} PutTally(ms: seq<Message>, i: nat, m: Message, item: Item)
    requires i <= |ms|
    ensures Tally(Put(ms, i, m), item) == Tally(ms, item) - HeldAt(ms, i, item) + Holds(m, item)
  {
    TallySplits(ms[..i], [m], item);
    assert Tally([m], item) == Holds(m, item);
    if i < |ms| {
      assert Put(ms, i, m) == ms[..i] + [m] + ms[i + 1..];
      assert ms == ms[..i] + [ms[i]] + ms[i + 1..];
      TallySplits(ms[..i] + [m], ms[i + 1..], item);
      TallySplits(ms[..i] + [ms[i]], ms[i + 1..], item);
      TallySplits(ms[..i], [ms[i]], item);
      assert Tally([ms[i]], item) == Holds(ms[i], item);
    } else {
      assert ms[..i] == ms;
    }
  }

  // ----- a turn in progress

  predicate IsSettled(m: Message) {
    !IsStreamingReply(m) && !IsEmptyShell(m)
  }

  predicate AllSettled(ms: seq<Message>) {
    forall m :: m in ms ==> IsSettled(m)
  }

  /** The turn's messages start at `start`, right after the last prompt. What comes before is
      settled, what is still streaming comes last, and at most one streaming bubble has no
      tool calls. */
  ghost predicate InTurn(ms: seq<Message>, start: nat) {
    && start <= |ms|
    && AllSettled(ms[..start])
    && (start > 0 ==> IsUser(ms[start - 1]))
    && (forall i :: start <= i < |ms| ==> !IsUser(ms[i]))
    && (forall i, j :: start <= i < j < |ms| && IsStreamingReply(ms[i]) ==> IsStreamingReply(ms[j]))
    && (forall i, j :: start <= i < j < |ms| && IsTextBubble(ms[i]) ==> !IsTextBubble(ms[j]))
  }

  lemma {:induction false} TurnStartsThere(ms: seq<Message>, start: nat)
    requires InTurn(ms, start)
    ensures TurnStart(ms) == start
    ensures forall i :: 0 <= i < start ==> !IsStreamingReply(ms[i])
  {
    LastWhereSpec(ms, IsUser);
    forall i | 0 <= i < start ensures !IsStreamingReply(ms[i]) {
      assert ms[i] in ms[..start];
    }
  }

  /** A handler writes only to streaming bubbles of the turn, and never makes a second one
      without tool calls. */
  ghost predicate MayPut(ms: seq<Message>, start: nat, i: nat, m: Message) {
    && start <= i <= |ms|
    && IsStreamingReply(m)
    && (i < |ms| ==> IsStreamingReply(ms[i]))
    && (IsTextBubble(m) ==>
          if i < |ms| then IsTextBubble(ms[i]) else forall j :: start <= j < |ms| ==> !IsTextBubble(ms[j]))
  }

  lemma {:induction false} PutKeepsTurn(ms: seq<Message>, start: nat, i: nat, m: Message)
    requires InTurn(ms, start) && MayPut(ms, start, i, m)
    ensures InTurn(Put(ms, i, m), start)
    ensures Put(ms, i, m)[..start] == ms[..start]
  {
    var after := Put(ms, i, m);
    assert after[..start] == ms[..start];
    if start > 0 {
      assert after[start - 1] == after[..start][start - 1] == ms[start - 1];
    }
  }

  /** What an event that does not end the turn does to the list: nothing, or one write. */
  datatype Write = Same | At(i: nat, m: Message)

  function Written(ms: seq<Message>, w: Write): seq<Message>
    requires w.At? ==> w.i <= |ms|
  {
    if w.Same? then ms else Put(ms, w.i, w.m)
  }

  predicate EndsTurn(event: Event) {
    event.MessageComplete? || event.TurnFailed?
  }

  /** The write adds exactly the event's item, and is left out only if it is there already. */
  ghost predicate AddsItem(ms: seq<Message>, start: nat, w: Write, event: Event, item: Item)
    requires start <= |ms|
    requires w.At? ==> w.i <= |ms|
  {
    var isItem := ItemOf(event) == Some(item);
    match w
    case Same => isItem ==> Tally(ms[start..], item) > 0
    case At(i, m) =>
      && Holds(m, item) == HeldAt(ms, i, item) + (if isItem then 1 else 0)
      && (isItem ==> Tally(ms[start..], item) == 0)
  }

  ghost predicate IsStep(c: Chat, after: Chat, start: nat, w: Write, event: Event) {
    && start <= |c.messages|
    && (w.At? ==> MayPut(c.messages, start, w.i, w.m))
    && after.messages == Written(c.messages, w)
    && forall item :: AddsItem(c.messages, start, w, event, item)
  }

  lemma {:induction false} StartStep(c: Chat, newId: MessageId, start: nat) returns (w: Write)
    requires InTurn(c.messages, start)
    ensures IsStep(c, MessageStarted(c, newId).chat, start, w, MessageStart)
  {
    var ms := c.messages;
    w := if MessageStarted(c, newId).change == NoChange then Same else At(|ms|, StreamingReply(newId));
    if w.At? && |ms| > start {
      assert !IsStreamingReply(ms[|ms| - 1]);
    }
  }

  lemma {:induction false} DeltaStep(c: Chat, delta: Delta, newId: MessageId, start: nat) returns (w: Write)
    requires InTurn(c.messages, start)
    ensures IsStep(c, DeltaApplied(c, delta, newId).chat, start, w, MessageDelta(delta))
  {
    var ms := c.messages;
    TurnStartsThere(ms, start);
    LastWhereSpec(ms, IsTextBubble);
    var i := LastWhere(ms, IsTextBubble);
    var after := DeltaApplied(c, delta, newId);
    if after.change == NoChange {
      w := Same;
    } else {
      w := if i >= 0 then At(i, after.chat.messages[i]) else At(|ms|, after.chat.messages[|ms|]);
    }
  }

  lemma {:induction false} OneMoreFile(m: Message, attachment: Attachment, item: Item)
    ensures Holds(WithFile(m, attachment), item)
         == Holds(m, item) + if item == FileItem(attachment.path) then 1 else 0
  {
    assert WithFile(m, attachment).attachments[..|m.attachments|] == m.attachments;
  }

  lemma {:induction false} FileStep(c: Chat, attachment: Attachment, newId: MessageId, start: nat) returns (w: Write)
    requires InTurn(c.messages, start)
    ensures IsStep(c, AttachmentAppended(c, attachment, newId).chat, start, w, FileReported(attachment))
  {
    var ms := c.messages;
    TurnStartsThere(ms, start);
    HasFileIsTallied(ms[start..], attachment.path);
    LastWhereSpec(ms, IsStreamingReply);
    var i := LastWhere(ms, IsStreamingReply);
    if HasFile(ms[start..], attachment.path) {
      w := Same;
    } else {
      var before := if i >= 0 then ms[i] else StreamingReply(newId);
      w := At(if i >= 0 then i else |ms|, WithFile(before, attachment));
      assert AttachmentAppended(c, attachment, newId).chat.messages == Written(ms, w);
      FileAddsItem(ms, start, w, before, attachment);
    }
  }

  lemma {:induction false} FileAddsItem(ms: seq<Message>, start: nat, w: Write, before: Message, file: Attachment)
    requires start <= |ms| && w.At? && w.i <= |ms| && w.m == WithFile(before, file)
    requires before.toolCalls == (if w.i < |ms| then ms[w.i].toolCalls else [])
    requires before.attachments == (if w.i < |ms| then ms[w.i].attachments else [])
    requires Tally(ms[start..], FileItem(file.path)) == 0
    ensures forall item :: AddsItem(ms, start, w, FileReported(file), item)
  {
    forall item ensures AddsItem(ms, start, w, FileReported(file), item) {
      OneMoreFile(before, file, item);
    }
  }

  lemma {:induction false} OneMoreTool(m: Message, call: ToolCall, item: Item)
    ensures Holds(WithTool(m, call), item) == Holds(m, item) + if item == ToolItemOf(call) then 1 else 0
  {
    assert WithTool(m, call).toolCalls[..|m.toolCalls|] == m.toolCalls;
  }

  lemma {:induction false} ToolStep(c: Chat, call: ToolCall, newId: MessageId, start: nat) returns (w: Write)
    requires InTurn(c.messages, start)
    ensures IsStep(c, ToolCallAppended(c, call, newId).chat, start, w, ToolReported(call))
  {
    var ms := c.messages;
    TurnStartsThere(ms, start);
    HasToolIsTallied(ms[start..], call);
    LastWhereSpec(ms, IsBlankBubble);
    var i := LastWhere(ms, IsBlankBubble);
    if HasTool(ms[start..], call) {
      w := Same;
    } else {
      var before := if i >= 0 then ms[i] else StreamingReply(newId);
      w := At(if i >= 0 then i else |ms|, WithTool(before, call));
      assert ToolCallAppended(c, call, newId).chat.messages == Written(ms, w);
      ToolAddsItem(ms, start, w, before, call);
    }
  }

  lemma {:induction false} ToolAddsItem(ms: seq<Message>, start: nat, w: Write, before: Message, call: ToolCall)
    requires start <= |ms| && w.At? && w.i <= |ms| && w.m == WithTool(before, call)
    requires before.toolCalls == (if w.i < |ms| then ms[w.i].toolCalls else [])
    requires before.attachments == (if w.i < |ms| then ms[w.i].attachments else [])
    requires Tally(ms[start..], ToolItemOf(call)) == 0
    ensures forall item :: AddsItem(ms, start, w, ToolReported(call), item)
  {
    forall item ensures AddsItem(ms, start, w, ToolReported(call), item) {
      OneMoreTool(before, call, item);
    }
  }

  lemma {:induction false} HandlersWriteOnce(c: Chat, event: Event, newId: MessageId, start: nat)
    returns (w: Write)
    requires InTurn(c.messages, start) && !EndsTurn(event)
    ensures IsStep(c, Applied(c, event, newId).chat, start, w, event)
  {
    match event
    case MessageStart => w := StartStep(c, newId, start);
    case MessageDelta(delta) => w := DeltaStep(c, delta, newId, start);
    case ToolReported(call) => w := ToolStep(c, call, newId, start);
    case FileReported(attachment) => w := FileStep(c, attachment, newId, start);
    case Other => w := Same;
  }

  /** How the count of one item moves when one event is folded. */
  function NextTally(tally: nat, event: Event, item: Item): nat {
    if tally == 0 && ItemOf(event) == Some(item) then 1 else tally
  }

  ghost predicate KeepsTurn(c: Chat, after: Chat, start: nat) {
    && InTurn(c.messages, start)
    && InTurn(after.messages, start)
    && after.messages[..start] == c.messages[..start]
  }

  ghost predicate StepsTurn(c: Chat, after: Chat, start: nat, event: Event, item: Item) {
    && KeepsTurn(c, after, start)
    && Tally(after.messages[start..], item) == NextTally(Tally(c.messages[start..], item), event, item)
  }

  lemma {:induction false} StepKeepsTurn(c: Chat, after: Chat, start: nat, w: Write, event: Event)
    requires InTurn(c.messages, start) && IsStep(c, after, start, w, event)
    ensures KeepsTurn(c, after, start)
  {
    if w.At? {
      PutKeepsTurn(c.messages, start, w.i, w.m);
    }
  }

  lemma {:induction false} TailTally(ms: seq<Message>, start: nat, i: nat, m: Message, item: Item)
    requires start <= i <= |ms|
    ensures Tally(Put(ms, i, m)[start..], item) == Tally(ms[start..], item) - HeldAt(ms, i, item) + Holds(m, item)
  {
    PutTally(ms[start..], i - start, m, item);
    assert Put(ms, i, m)[start..] == Put(ms[start..], i - start, m);
  }

  lemma {:induction false} StepTallies(c: Chat, after: Chat, start: nat, w: Write, event: Event, item: Item)
    requires IsStep(c, after, start, w, event) && start <= |after.messages|
    ensures Tally(after.messages[start..], item) == NextTally(Tally(c.messages[start..], item), event, item)
  {
    assert AddsItem(c.messages, start, w, event, item);
    if w.At? {
      TailTally(c.messages, start, w.i, w.m, item);
    }
  }

  lemma {:induction false} OpenStep(c: Chat, event: Event, newId: MessageId, start: nat, item: Item)
    requires InTurn(c.messages, start) && !EndsTurn(event)
    ensures StepsTurn(c, Applied(c, event, newId).chat, start, event, item)
  {
    var after := Applied(c, event, newId).chat;
    var w := HandlersWriteOnce(c, event, newId, start);
    StepKeepsTurn(c, after, start, w, event);
    StepTallies(c, after, start, w, event, item);
  }

  // ----- the end of the turn

  lemma {:induction false} PruneSplits(a: seq<Message>, b: seq<Message>)
    ensures Prune(a + b) == Prune(a) + Prune(b)
  {
    if b == [] {
      assert a + b == a;
    } else {
      assert (a + b)[..|a + b| - 1] == a + b[..|b| - 1];
      PruneSplits(a, b[..|b| - 1]);
    }
  }

  lemma {:induction false} PruneDropsNothing(ms: seq<Message>)
    requires forall m :: m in ms ==> !IsEmptyShell(m)
    ensures Prune(ms) == ms
  {
    if ms != [] {
      assert ms == ms[..|ms| - 1] + [ms[|ms| - 1]];
      PruneDropsNothing(ms[..|ms| - 1]);
    }
  }

  lemma {:induction false} SettledStays(ms: seq<Message>)
    requires AllSettled(ms)
    ensures Prune(Settle(ms)) == ms
  {
    forall i | 0 <= i < |ms| ensures SettleOne(ms[i]) == ms[i] {
      assert ms[i] in ms;
    }
    assert Settle(ms) == ms;
    PruneDropsNothing(ms);
  }

  lemma {:induction false} PruneKeeps(ms: seq<Message>, m: Message)
    ensures m in Prune(ms) <==> m in ms && !IsEmptyShell(m)
  {
    if ms != [] {
      assert ms == ms[..|ms| - 1] + [ms[|ms| - 1]];
      PruneKeeps(ms[..|ms| - 1], m);
    }
  }

  /** Finishing settles everything and touches nothing that was settled. */
  lemma {:induction false} FinishSettles(ms: seq<Message>)
    ensures AllSettled(Prune(Settle(ms)))
    ensures (forall m :: m in ms ==> !IsUser(m)) ==> forall m :: m in Prune(Settle(ms)) ==> !IsUser(m)
  {
    forall m | m in Prune(Settle(ms))
      ensures IsSettled(m) && (IsUser(m) ==> m in ms)
    {
      PruneKeeps(Settle(ms), m);
      var i :| 0 <= i < |ms| && m == SettleOne(ms[i]);
    }
  }

  lemma {:induction false} FinishSplits(ms: seq<Message>, start: nat)
    requires start <= |ms| && AllSettled(ms[..start])
    ensures Prune(Settle(ms)) == ms[..start] + Prune(Settle(ms[start..]))
  {
    assert Settle(ms) == Settle(ms[..start]) + Settle(ms[start..]);
    PruneSplits(Settle(ms[..start]), Settle(ms[start..]));
    SettledStays(ms[..start]);
  }

  lemma {:induction false} PruneKeepsTally(ms: seq<Message>, item: Item)
    ensures Tally(Prune(ms), item) == Tally(ms, item)
  {
    if ms != [] {
      var rest, last := ms[..|ms| - 1], ms[|ms| - 1];
      PruneKeepsTally(rest, item);
      if !IsEmptyShell(last) {
        assert (Prune(rest) + [last])[..|Prune(rest)|] == Prune(rest);
      }
    }
  }

  lemma {:induction false} SettleKeepsTally(ms: seq<Message>, item: Item)
    ensures Tally(Settle(ms), item) == Tally(ms, item)
  {
    if ms != [] {
      assert Settle(ms)[..|ms| - 1] == Settle(ms[..|ms| - 1]);
      SettleKeepsTally(ms[..|ms| - 1], item);
    }
  }

  /** All of the list but what is streaming is as it should be. */
  ghost predicate CanFinish(ms: seq<Message>, start: nat) {
    && start <= |ms|
    && AllSettled(ms[..start])
    && (start > 0 ==> IsUser(ms[start - 1]))
    && (forall m :: m in ms[start..] ==> !IsUser(m))
  }

  lemma {:induction false} SettledTailInTurn(ms: seq<Message>, start: nat)
    requires CanFinish(ms, start) && AllSettled(ms[start..])
    ensures InTurn(ms, start)
  {
    forall i | start <= i < |ms| ensures !IsStreamingReply(ms[i]) && !IsTextBubble(ms[i]) && !IsUser(ms[i]) {
      assert ms[i] == ms[start..][i - start];
      assert ms[i] in ms[start..];
    }
  }

  lemma {:induction false} FinishStep(c: Chat, ms: seq<Message>, start: nat, item: Item)
    requires InTurn(c.messages, start) && CanFinish(ms, start)
    requires ms[..start] == c.messages[..start]
    ensures var after := Prune(Settle(ms));
      && InTurn(after, start)
      && after[..start] == ms[..start]
      && Tally(after[start..], item) == Tally(ms[start..], item)
  {
    FinishSplits(ms, start);
    FinishSettles(ms[start..]);
    var tail := Prune(Settle(ms[start..]));
    var after := Prune(Settle(ms));
    assert after[start..] == tail && after[..start] == ms[..start];
    assert start > 0 ==> after[start - 1] == ms[start - 1];
    SettledTailInTurn(after, start);
    PruneKeepsTally(Settle(ms[start..]), item);
    SettleKeepsTally(ms[start..], item);
  }

  lemma {:induction false} InTurnCanFinish(ms: seq<Message>, start: nat)
    requires InTurn(ms, start)
    ensures CanFinish(ms, start)
  {
    forall m | m in ms[start..] ensures !IsUser(m) {
      var i :| 0 <= i < |ms| - start && ms[start..][i] == m;
      assert m == ms[start + i];
    }
  }

  lemma {:induction false} CompletedLength(c: Chat, text: Option<string>, newId: MessageId)
    ensures |c.messages| <= |Completed(c, text, newId)| <= |c.messages| + 1
  {
    LastWhereSpec(c.messages, IsStreamingReply);
  }

  /** Completing writes text and nothing else, and none of it before the turn. */
  lemma {:induction false} CompletedAt(c: Chat, text: Option<string>, newId: MessageId, start: nat, k: nat)
    requires InTurn(c.messages, start)
    requires k < |Completed(c, text, newId)|
    ensures var m := Completed(c, text, newId)[k];
      var was := if k < |c.messages| then c.messages[k] else NewMessage(newId, Assistant, m.content);
      && m.role == was.role && m.toolCalls == was.toolCalls && m.attachments == was.attachments
      && (k < start ==> m == was)
  {
    TurnStartsThere(c.messages, start);
    LastWhereSpec(c.messages, IsStreamingReply);
  }

  lemma {:induction false} CompletedCanFinish(c: Chat, text: Option<string>, newId: MessageId, start: nat)
    requires InTurn(c.messages, start)
    ensures CanFinish(Completed(c, text, newId), start)
    ensures Completed(c, text, newId)[..start] == c.messages[..start]
  {
    var after := Completed(c, text, newId);
    CompletedLength(c, text, newId);
    forall k | 0 <= k < |after|
      ensures after[k].role == (if k < |c.messages| then c.messages[k].role else Assistant)
      ensures k < start ==> after[k] == c.messages[k]
    {
      CompletedAt(c, text, newId, start, k);
    }
    assert after[..start] == c.messages[..start];
    forall m | m in after[start..] ensures !IsUser(m) {
      var k :| 0 <= k < |after| - start && after[start..][k] == m;
      assert m == after[start + k];
    }
  }

  lemma {:induction false} SameItemsSameTally(a: seq<Message>, b: seq<Message>, item: Item)
    requires |a| == |b|
    requires forall k :: 0 <= k < |a| ==> a[k].toolCalls == b[k].toolCalls && a[k].attachments == b[k].attachments
    ensures Tally(a, item) == Tally(b, item)
  {
    if a != [] {
      SameItemsSameTally(a[..|a| - 1], b[..|b| - 1], item);
    }
  }

  /** `b` holds what `a` holds, and perhaps a bare message more. */
  predicate SameItems(a: seq<Message>, b: seq<Message>) {
    && |a| <= |b| <= |a| + 1
    && (forall k :: 0 <= k < |a| ==> a[k].toolCalls == b[k].toolCalls && a[k].attachments == b[k].attachments)
    && (|b| > |a| ==> b[|a|].toolCalls == [] && b[|a|].attachments == [])
  }

  lemma {:induction false} SameItemsSameTail(a: seq<Message>, b: seq<Message>, start: nat, item: Item)
    requires start <= |a| && SameItems(a, b)
    ensures Tally(b[start..], item) == Tally(a[start..], item)
  {
    var kept := b[start..|a|];
    SameItemsSameTally(kept, a[start..], item);
    if |b| > |a| {
      TallySplits(kept, [b[|a|]], item);
      assert b[start..] == kept + [b[|a|]];
      assert Tally([b[|a|]], item) == Holds(b[|a|], item);
    } else {
      assert b[start..] == kept;
    }
  }

  lemma {:induction false} CompletedTally(c: Chat, text: Option<string>, newId: MessageId, start: nat, item: Item)
    requires InTurn(c.messages, start)
    requires start <= |Completed(c, text, newId)|
    ensures Tally(Completed(c, text, newId)[start..], item) == Tally(c.messages[start..], item)
  {
    var ms, after := c.messages, Completed(c, text, newId);
    CompletedLength(c, text, newId);
    forall k | 0 <= k < |after|
      ensures k < |ms| ==> after[k].toolCalls == ms[k].toolCalls && after[k].attachments == ms[k].attachments
      ensures k >= |ms| ==> after[k].toolCalls == [] && after[k].attachments == []
    {
      CompletedAt(c, text, newId, start, k);
    }
    assert SameItems(ms, after);
    SameItemsSameTail(ms, after, start, item);
  }

  lemma {:induction false} LastStep(c: Chat, event: Event, newId: MessageId, start: nat, item: Item)
    requires InTurn(c.messages, start) && EndsTurn(event)
    ensures StepsTurn(c, Applied(c, event, newId).chat, start, event, item)
  {
    match event
    case MessageComplete(text) =>
      CompletedCanFinish(c, text, newId, start);
      CompletedTally(c, text, newId, start, item);
      FinishStep(c, Completed(c, text, newId), start, item);
    case TurnFailed =>
      InTurnCanFinish(c.messages, start);
      FinishStep(c, c.messages, start, item);
  }

  // ----- a whole turn

  datatype Received = Received(event: Event, newId: MessageId)

  function Folded(c: Chat, es: seq<Received>): Chat {
    if es == [] then c
    else Applied(Folded(c, es[..|es| - 1]), es[|es| - 1].event, es[|es| - 1].newId).chat
  }

  predicate Reported(es: seq<Received>, item: Item) {
    exists e :: e in es && ItemOf(e.event) == Some(item)
  }

  /** Whatever events arrive, in whatever order and however often: what was there before the
      turn is untouched, the list keeps its shape, and an item the turn reports is in the
      turn's messages exactly once. */
  lemma {:induction false} EveryItemExactlyOnce(c: Chat, es: seq<Received>, start: nat, item: Item)
    requires InTurn(c.messages, start)
    ensures var after := Folded(c, es);
      && KeepsTurn(c, after, start)
      && Tally(after.messages[start..], item)
         == if Tally(c.messages[start..], item) == 0 && Reported(es, item) then 1
            else Tally(c.messages[start..], item)
  {
    if es != [] {
      var rest, last := es[..|es| - 1], es[|es| - 1];
      EveryItemExactlyOnce(c, rest, start, item);
      assert es == rest + [last];
      var before := Folded(c, rest);
      if EndsTurn(last.event) {
        LastStep(before, last.event, last.newId, start, item);
      } else {
        OpenStep(before, last.event, last.newId, start, item);
      }
    }
  }

  /** The same from the moment a prompt is submitted. */
  lemma {:induction false} TurnReportsExactlyOnce(c: Chat, id: MessageId, reply: MessageId, prompt: string,
                                                  es: seq<Received>, item: Item)
    requires AllSettled(c.messages)
    ensures var n := |c.messages| + 1;
      var after := Folded(TurnBegunWithPlaceholder(c, id, reply, prompt), es).messages;
      && InTurn(after, n)
      && after[..n] == c.messages + [NewMessage(id, User, prompt)]
      && Tally(after[n..], item) == if Reported(es, item) then 1 else 0
  {
    var begun := TurnBegunWithPlaceholder(c, id, reply, prompt);
    var n := |c.messages| + 1;
    assert begun.messages[..n] == c.messages + [NewMessage(id, User, prompt)];
    assert begun.messages[n..] == [StreamingReply(reply)];
    assert Tally(begun.messages[n..], item) == 0;
    EveryItemExactlyOnce(begun, es, n, item);
  }

  /** A turn that has begun is in flight until an event ends it, and no event begins one. */
  lemma {:induction false} InFlightUntilEnd(c: Chat, es: seq<Received>)
    ensures Folded(c, es).sending <==> c.sending && forall e :: e in es ==> !EndsTurn(e.event)
  {
    if es != [] {
      var rest, last := es[..|es| - 1], es[|es| - 1];
      InFlightUntilEnd(c, rest);
      assert es == rest + [last];
    }
  }

  /** A reply that starts in a turn has one placeholder at the end, the one there is or a new
      one; outside of a turn it draws nothing. */
  lemma {:induction false} StartShowsOneReply(c: Chat, newId: MessageId)
    ensures var ms, after := c.messages, MessageStarted(c, newId).chat.messages;
      if !c.sending then after == ms
      else
        && after != [] && IsStreamingReply(after[|after| - 1])
        && (after == ms || (after == ms + [StreamingReply(newId)] && (ms == [] || !IsStreamingReply(ms[|ms| - 1]))))
  {
  }

  // ----- the text of the reply

  /** The text streamed so far stands in a bubble of its own. */
  ghost predicate ShowsStreamedText(c: Chat, start: nat) {
    IsBlank(Best(c.streams))
    || exists i :: start <= i < |c.messages| && IsTextBubble(c.messages[i]) && c.messages[i].content == Best(c.streams)
  }

  lemma {:induction false} ToolsLeaveTextAlone(c: Chat, call: ToolCall, newId: MessageId, start: nat)
    requires InTurn(c.messages, start) && ShowsStreamedText(c, start)
    ensures ShowsStreamedText(ToolCallAppended(c, call, newId).chat, start)
  {
    if !IsBlank(Best(c.streams)) {
      LastWhereSpec(c.messages, IsBlankBubble);
      var i :| start <= i < |c.messages| && IsTextBubble(c.messages[i]) && c.messages[i].content == Best(c.streams);
      assert ToolCallAppended(c, call, newId).chat.messages[i] == c.messages[i];
    }
  }

  lemma {:induction false} FilesLeaveTextAlone(c: Chat, attachment: Attachment, newId: MessageId, start: nat)
    requires InTurn(c.messages, start) && ShowsStreamedText(c, start)
    ensures ShowsStreamedText(AttachmentAppended(c, attachment, newId).chat, start)
  {
    if !IsBlank(Best(c.streams)) {
      LastWhereSpec(c.messages, IsStreamingReply);
      var i :| start <= i < |c.messages| && IsTextBubble(c.messages[i]) && c.messages[i].content == Best(c.streams);
      var after := AttachmentAppended(c, attachment, newId).chat.messages;
      assert after[i].content == c.messages[i].content && IsTextBubble(after[i]);
    }
  }

  lemma {:induction false} DeltasShowText(c: Chat, delta: Delta, newId: MessageId, start: nat)
    requires InTurn(c.messages, start) && ShowsStreamedText(c, start)
    ensures ShowsStreamedText(DeltaApplied(c, delta, newId).chat, start)
  {
    TurnStartsThere(c.messages, start);
    LastWhereSpec(c.messages, IsTextBubble);
    var i, after := LastWhere(c.messages, IsTextBubble), DeltaApplied(c, delta, newId);
    if after.change != NoChange {
      var at := if i >= 0 then i else |c.messages|;
      assert IsTextBubble(after.chat.messages[at]);
    }
  }

  lemma {:induction false} StartLeavesTextAlone(c: Chat, newId: MessageId, start: nat)
    requires InTurn(c.messages, start) && ShowsStreamedText(c, start)
    ensures ShowsStreamedText(MessageStarted(c, newId).chat, start)
  {
    if !IsBlank(Best(c.streams)) {
      var i :| start <= i < |c.messages| && IsTextBubble(c.messages[i]) && c.messages[i].content == Best(c.streams);
      assert MessageStarted(c, newId).chat.messages[i] == c.messages[i];
    }
  }

  lemma {:induction false} StepShowsText(c: Chat, event: Event, newId: MessageId, start: nat)
    requires InTurn(c.messages, start) && ShowsStreamedText(c, start)
    ensures ShowsStreamedText(Applied(c, event, newId).chat, start)
  {
    match event
    case MessageStart => StartLeavesTextAlone(c, newId, start);
    case MessageDelta(delta) => DeltasShowText(c, delta, newId, start);
    case ToolReported(call) => ToolsLeaveTextAlone(c, call, newId, start);
    case FileReported(attachment) => FilesLeaveTextAlone(c, attachment, newId, start);
    case MessageComplete(text) => NoStreamsNoText();
    case TurnFailed => NoStreamsNoText();
    case Other =>
  }

  lemma {:induction false} NoStreamsNoText()
    ensures Best(map[]) == ""
  {
    assert BestOfFirst(map[], 1) == "";
    assert BestOfFirst(map[], 2) == "";
  }

  /** Streamed text is on screen all through the turn, in the bubble that has no tools. */
  lemma {:induction false} StreamedTextIsShown(c: Chat, es: seq<Received>, start: nat)
    requires InTurn(c.messages, start) && ShowsStreamedText(c, start)
    ensures ShowsStreamedText(Folded(c, es), start)
  {
    if es != [] {
      var rest, last := es[..|es| - 1], es[|es| - 1];
      StreamedTextIsShown(c, rest, start);
      EveryItemExactlyOnce(c, rest, start, FileItem(""));
      StepShowsText(Folded(c, rest), last.event, last.newId, start);
    }
  }

  // ----- completion

  /** From any state at all: nothing streams any more, no empty shell is left, the stream
      buffers are empty and no turn is in flight. */
  lemma {:induction false} CompletionSettles(c: Chat, text: Option<string>, newId: MessageId)
    ensures var after := MessageCompleted(c, text, newId).chat;
      AllSettled(after.messages) && after.streams == map[] && !after.sending
  {
    FinishSettles(Completed(c, text, newId));
  }

  /** A second completion that brings no text of its own changes nothing. */
  lemma {:induction false} CompletionIsIdempotent(c: Chat, text: Option<string>, again: Option<string>,
                                                  newId: MessageId, other: MessageId)
    requires again.Some? ==> IsBlank(again.value)
    ensures var once := MessageCompleted(c, text, newId).chat;
      MessageCompleted(once, again, other).chat == once
  {
    var once := MessageCompleted(c, text, newId).chat;
    CompletionSettles(c, text, newId);
    NoStreamsNoText();
    assert FinalText(once, again) == "";
    assert Completed(once, again, other) == Settle(once.messages);
    assert Settle(Settle(once.messages)) == Settle(once.messages);
    SettledStays(once.messages);
  }

  lemma {:induction false} LastStreamsIn(ms: seq<Message>, start: nat)
    requires InTurn(ms, start)
    ensures LastWhere(ms, IsStreamingReply)
         == if ms != [] && IsStreamingReply(ms[|ms| - 1]) then |ms| - 1 else -1
  {
    TurnStartsThere(ms, start);
    LastWhereSpec(ms, IsStreamingReply);
  }

  /** What the last message becomes, or the new one after it, when the turn ends with `text`. */
  function Replied(ms: seq<Message>, text: string, newId: MessageId): seq<Message> {
    if ms != [] && IsTextBubble(ms[|ms| - 1]) then
      Prune(Settle(ms[..|ms| - 1])) + [ms[|ms| - 1].(isStreaming := false, content := text)]
    else Prune(Settle(ms)) + [NewMessage(newId, Assistant, text)]
  }

  lemma {:induction false} WrittenIntoBubble(ms: seq<Message>, n: nat, text: string)
    requires n == |ms| - 1 && IsTextBubble(ms[n]) && !IsBlank(text)
    ensures var settled := Settle(ms);
      Prune(Settle(settled[n := settled[n].(content := text)]))
      == Prune(Settle(ms[..n])) + [ms[n].(isStreaming := false, content := text)]
  {
    var settled := Settle(ms);
    var written := settled[n := settled[n].(content := text)];
    assert Settle(written) == written;
    assert written[..n] == Settle(ms[..n]);
  }

  lemma {:induction false} WrittenAfter(ms: seq<Message>, text: string, newId: MessageId)
    requires !IsBlank(text)
    ensures var m := NewMessage(newId, Assistant, text);
      Prune(Settle(Settle(ms) + [m])) == Prune(Settle(ms)) + [m]
  {
    var written := Settle(ms) + [NewMessage(newId, Assistant, text)];
    assert Settle(written) == written;
    assert written[..|ms|] == Settle(ms);
  }

  lemma {:induction false} TextIsWritten(c: Chat, text: Option<string>, newId: MessageId, start: nat)
    requires InTurn(c.messages, start) && !IsBlank(FinalText(c, text))
    ensures MessageCompleted(c, text, newId).chat.messages == Replied(c.messages, FinalText(c, text), newId)
  {
    var ms, final := c.messages, FinalText(c, text);
    LastStreamsIn(ms, start);
    assert final != "";
    if ms != [] && IsTextBubble(ms[|ms| - 1]) {
      WrittenIntoBubble(ms, |ms| - 1, final);
    } else {
      WrittenAfter(ms, final, newId);
    }
  }

  lemma {:induction false} RepliedEnds(ms: seq<Message>, text: string, newId: MessageId)
    ensures var after := Replied(ms, text, newId);
      after != [] && after[|after| - 1].role == Assistant && after[|after| - 1].content == text
  {
  }

  /** A text that comes with the completion is the reply, whatever was streamed: it replaces what
      the last bubble shows, which keeps its id and files, or stands in a new message if that
      bubble holds tools or nothing streams. Without one the best streamed text is the reply. A
      blank one writes nothing. */
  lemma {:induction false} ReplyEndsTranscript(c: Chat, text: string, newId: MessageId, start: nat)
    requires InTurn(c.messages, start)
    ensures MessageCompleted(c, Some(text), newId).chat.messages
         == if IsBlank(text) then Prune(Settle(c.messages)) else Replied(c.messages, Trim(text), newId)
    ensures MessageCompleted(c, None, newId).chat.messages
         == if IsBlank(Best(c.streams)) then Prune(Settle(c.messages))
            else Replied(c.messages, Trim(Best(c.streams)), newId)
  {
    assert Settle(Settle(c.messages)) == Settle(c.messages);
    TrimIsIdempotent(text);
    TrimIsIdempotent(Best(c.streams));
    if !IsBlank(text) {
      TextIsWritten(c, Some(text), newId, start);
    }
    if !IsBlank(Best(c.streams)) {
      TextIsWritten(c, None, newId, start);
    }
  }

  lemma {:induction false} CompletedWithText(before: Chat, text: string, newId: MessageId, start: nat)
    requires InTurn(before.messages, start) && !IsBlank(text)
    ensures var after := Applied(before, MessageComplete(Some(text)), newId).chat;
      && after.messages != []
      && after.messages[|after.messages| - 1].role == Assistant
      && after.messages[|after.messages| - 1].content == Trim(text)
  {
    hide MessageCompleted;
    hide Replied;
    ReplyEndsTranscript(before, text, newId, start);
    RepliedEnds(before.messages, Trim(text), newId);
  }

  lemma {:induction false} StartIsInTurn(c: Chat, id: MessageId, reply: MessageId, prompt: string, es: seq<Received>,
                                         start: nat)
    requires AllSettled(c.messages) && start == |c.messages| + 1
    ensures InTurn(Folded(TurnBegunWithPlaceholder(c, id, reply, prompt), es).messages, start)
  {
    TurnReportsExactlyOnce(c, id, reply, prompt, es, FileItem(""));
  }

  /** A whole turn: after the prompt and any events, a completion with a text ends the transcript
      with that text, and keeps what was there and the prompt. */
  lemma {:induction false} TurnEndsWithReply(c: Chat, id: MessageId, reply: MessageId, prompt: string,
                                             es: seq<Received>, text: string, newId: MessageId)
    requires AllSettled(c.messages) && !IsBlank(text)
    ensures var before := Folded(TurnBegunWithPlaceholder(c, id, reply, prompt), es);
      var after := Applied(before, MessageComplete(Some(text)), newId).chat;
      && after.messages != []
      && after.messages[|after.messages| - 1].role == Assistant
      && after.messages[|after.messages| - 1].content == Trim(text)
      && c.messages + [NewMessage(id, User, prompt)] <= after.messages
  {
    hide Folded;
    hide Applied;
    hide InTurn;
    var start, last := |c.messages| + 1, Received(MessageComplete(Some(text)), newId);
    StartIsInTurn(c, id, reply, prompt, es, start);
    CompletedWithText(Folded(TurnBegunWithPlaceholder(c, id, reply, prompt), es), text, newId, start);
    StartIsKept(c, id, reply, prompt, es, last);
  }

  lemma {:induction false} StartIsKept(c: Chat, id: MessageId, reply: MessageId, prompt: string,
                                       es: seq<Received>, last: Received)
    requires AllSettled(c.messages)
    ensures var before := Folded(TurnBegunWithPlaceholder(c, id, reply, prompt), es);
      c.messages + [NewMessage(id, User, prompt)] <= Applied(before, last.event, last.newId).chat.messages
  {
    TurnReportsExactlyOnce(c, id, reply, prompt, es + [last], FileItem(""));
    assert (es + [last])[..|es|] == es;
  }

  lemma {:induction false} TextBeforeToolIsRepeated(c: Chat, newId: MessageId, start: nat, i: nat)
    requires InTurn(c.messages, start)
    requires start <= i < |c.messages| - 1
    requires IsTextBubble(c.messages[i]) && c.messages[i].content == Best(c.streams) && !IsBlank(Best(c.streams))
    ensures var after := MessageCompleted(c, None, newId).chat.messages;
      && after == Prune(Settle(c.messages)) + [NewMessage(newId, Assistant, Trim(Best(c.streams)))]
      && c.messages[i].(isStreaming := false) in Prune(Settle(c.messages))
  {
    var ms := c.messages;
    LastWhereSpec(ms, IsStreamingReply);
    assert IsStreamingReply(ms[|ms| - 1]) && !IsTextBubble(ms[|ms| - 1]);
    var final := Trim(Best(c.streams));
    TrimIsIdempotent(Best(c.streams));
    var completed := Settle(ms) + [NewMessage(newId, Assistant, final)];
    assert Completed(c, None, newId) == completed;
    assert Settle(completed) == completed;
    PruneKeeps(Settle(ms), Settle(ms)[i]);
    assert completed[..|ms|] == Settle(ms);
  }

  lemma {:induction false} TextAtTheEndIsSettled(c: Chat, newId: MessageId, i: nat)
    requires i == |c.messages| - 1
    requires IsTextBubble(c.messages[i]) && c.messages[i].content == Best(c.streams) && !IsBlank(Best(c.streams))
    ensures MessageCompleted(c, None, newId).chat.messages
         == Prune(Settle(c.messages[..i])) + [c.messages[i].(isStreaming := false, content := Trim(Best(c.streams)))]
  {
    var ms, final := c.messages, Trim(Best(c.streams));
    LastWhereSpec(ms, IsStreamingReply);
    TrimIsIdempotent(Best(c.streams));
    var last := ms[i].(isStreaming := false, content := final);
    var completed := Settle(ms[..i]) + [last];
    assert Completed(c, None, newId) == completed;
    assert Settle(completed) == completed;
    assert completed[..i] == Settle(ms[..i]);
  }

  /** Streamed text stays in its bubble, and a completion that brings none says it again in a
      new message exactly when something came after that bubble: then it is shown twice. */
  lemma {:induction false} TextIsRepeatedWhen(c: Chat, newId: MessageId, start: nat, i: nat)
    requires InTurn(c.messages, start) && forall m :: m in c.messages ==> m.id != newId
    requires start <= i < |c.messages|
    requires IsTextBubble(c.messages[i]) && c.messages[i].content == Best(c.streams) && !IsBlank(Best(c.streams))
    ensures var ms, after := c.messages, MessageCompleted(c, None, newId).chat.messages;
      && after != []
      && var others, last := after[..|after| - 1], after[|after| - 1];
      && last.content == Trim(Best(c.streams))
      && (last.id == newId <==> i < |ms| - 1)
      && (ms[i].(isStreaming := false) in others <== i < |ms| - 1)
      && (others == Prune(Settle(ms[..i])) && last.id == ms[i].id <== i == |ms| - 1)
  {
    var after := MessageCompleted(c, None, newId).chat.messages;
    if i < |c.messages| - 1 {
      TextBeforeToolIsRepeated(c, newId, start, i);
      assert after[..|after| - 1] == Prune(Settle(c.messages));
    } else {
      TextAtTheEndIsSettled(c, newId, i);
      assert after[..|after| - 1] == Prune(Settle(c.messages[..i]));
      assert c.messages[i].id != newId;
    }
  }

  // ----- taking a prompt back

  lemma {:induction false} FoundById(before: seq<Message>, m: Message, rest: seq<Message>)
    requires forall b :: b in before ==> b.id != m.id
    ensures FirstWithId(before + [m] + rest, m.id) == |before|
  {
    var all := before + [m] + rest;
    if before != [] {
      assert before[0] in before;
      assert all[1..] == before[1..] + [m] + rest;
      FoundById(before[1..], m, rest);
    }
  }

  lemma {:induction false} DroppedWithRun(before: seq<Message>, m: Message, rest: seq<Message>)
    requires forall b :: b in before ==> b.id != m.id
    ensures WithoutPrompt(before + [m] + rest, m.id) == before + rest[PlaceholderRun(rest)..]
  {
    var all, n := before + [m] + rest, PlaceholderRun(rest);
    FoundById(before, m, rest);
    assert all[|before| + 1..] == rest && all[..|before|] == before;
    assert all[|before| + 1 + n..] == rest[n..];
  }

  /** Taking back a prompt nothing has answered undoes its submission. */
  lemma {:induction false} TakeBackUndoesBegin(c: Chat, id: MessageId, reply: MessageId, prompt: string)
    requires AllSettled(c.messages) && forall m :: m in c.messages ==> m.id != id
    ensures TakenBack(TurnBegunWithPlaceholder(c, id, reply, prompt), id, true)
         == Chat(c.messages, map[], false)
  {
    var m, rest := NewMessage(id, User, prompt), [StreamingReply(reply)];
    assert TurnBegunWithPlaceholder(c, id, reply, prompt).messages == c.messages + [m] + rest;
    DroppedWithRun(c.messages, m, rest);
    assert rest[1..] == [] && PlaceholderRun(rest) == 1;
    assert c.messages + [] == c.messages;
    SettledStays(c.messages);
  }

  lemma {:induction false} RunHoldsNoTools(ms: seq<Message>, i: nat)
    requires i < PlaceholderRun(ms)
    ensures ms[i].toolCalls == []
  {
    if i > 0 {
      RunHoldsNoTools(ms[1..], i - 1);
    }
  }

  lemma {:induction false} TallyOfNone(ms: seq<Message>, item: Item)
    requires forall m :: m in ms ==> Holds(m, item) == 0
    ensures Tally(ms, item) == 0
  {
    TallyCounts(ms, item);
  }

  /** Of what the backend did manage to stream in, every tool call is kept, and a file is lost
      as often as it occurs in the text-less bubbles right after the prompt. */
  lemma {:induction false} TakeBackKeeps(before: seq<Message>, m: Message, rest: seq<Message>, item: Item)
    requires forall b :: b in before ==> b.id != m.id
    ensures Tally(WithoutPrompt(before + [m] + rest, m.id), item)
         == Tally(before, item) + Tally(rest, item) - Tally(rest[..PlaceholderRun(rest)], item)
    ensures item.ToolItem? ==> Tally(rest[..PlaceholderRun(rest)], item) == 0
  {
    var n := PlaceholderRun(rest);
    DroppedWithRun(before, m, rest);
    TallySplits(before, rest[n..], item);
    TallySplits(rest[..n], rest[n..], item);
    assert rest == rest[..n] + rest[n..];
    if item.ToolItem? {
      forall r | r in rest[..n] ensures Holds(r, item) == 0 {
        var i :| 0 <= i < n && r == rest[i];
        RunHoldsNoTools(rest, i);
        FilesAreCounted(r.attachments, item);
      }
      TallyOfNone(rest[..n], item);
    }
  }

  /** So every file is kept exactly when none of those bubbles holds one. */
  lemma {:induction false} TakeBackKeepsFilesWhen(before: seq<Message>, m: Message, rest: seq<Message>)
    requires forall b :: b in before ==> b.id != m.id
    ensures (forall path :: Tally(WithoutPrompt(before + [m] + rest, m.id), FileItem(path))
                         == Tally(before, FileItem(path)) + Tally(rest, FileItem(path)))
        <==> forall r :: r in rest[..PlaceholderRun(rest)] ==> r.attachments == []
  {
    var run := rest[..PlaceholderRun(rest)];
    forall path ensures Tally(WithoutPrompt(before + [m] + rest, m.id), FileItem(path))
                     == Tally(before, FileItem(path)) + Tally(rest, FileItem(path)) - Tally(run, FileItem(path))
    {
      TakeBackKeeps(before, m, rest, FileItem(path));
    }
    if r :| r in run && r.attachments != [] {
      var item := FileItem(r.attachments[0].path);
      FilesAreCounted(r.attachments, item);
      TallyCounts(run, item);
      assert Tally(run, FileItem(r.attachments[0].path)) > 0;
    } else {
      forall path ensures Tally(run, FileItem(path)) == 0 {
        forall r | r in run ensures Holds(r, FileItem(path)) == 0 {
          CallsAreCounted(r.toolCalls, FileItem(path));
        }
        TallyOfNone(run, FileItem(path));
      }
    }
  }

  /** And the source's own promise, that anything streamed in is kept, fails for a reply that
      is only a file. */
  lemma FileOnlyReplyIsLost(prompt: Message, file: Attachment)
    ensures WithoutPrompt([prompt, WithFile(StreamingReply("reply"), file)], prompt.id) == []
  {
    var rest := [WithFile(StreamingReply("reply"), file)];
    assert IsBlank("");
    assert PlaceholderRun(rest) == 1 by {
      assert rest[1..] == [];
    }
    DroppedWithRun([], prompt, rest);
    assert [] + [prompt] + rest == [prompt, WithFile(StreamingReply("reply"), file)];
  }
}
