/** The window's copy of the messages against the core's, over whole runs. */
module WindowSync {
  import opened Text
  import opened StreamMerge
  import opened Conversations
  import opened Delivery
  import Growth
  import Screens
  import Turns

  // ----- ids

  ghost predicate UniqueIds(ms: seq<Message>) {
    forall i, j :: 0 <= i < j < |ms| ==> ms[i].id != ms[j].id
  }

  predicate IsNew(ms: seq<Message>, id: MessageId) {
    forall m :: m in ms ==> m.id != id
  }

  lemma {:induction false} PruneKeepsUnique(ms: seq<Message>)
    requires UniqueIds(ms)
    ensures UniqueIds(Prune(ms))
  {
    if ms != [] {
      var rest, last := ms[..|ms| - 1], ms[|ms| - 1];
      PruneKeepsUnique(rest);
      forall i | 0 <= i < |Prune(rest)| ensures Prune(rest)[i].id != last.id {
        Turns.PruneKeeps(rest, Prune(rest)[i]);
      }
    }
  }

  lemma {:induction false} CompletedKeepsUnique(c: Chat, text: Option<string>, newId: MessageId)
    requires UniqueIds(c.messages) && IsNew(c.messages, newId)
    ensures UniqueIds(Completed(c, text, newId))
  {
    var after := Completed(c, text, newId);
    LastWhereSpec(c.messages, IsStreamingReply);
    forall i | 0 <= i < |after|
      ensures after[i].id == if i < |c.messages| then c.messages[i].id else newId
    {
    }
    forall i | 0 <= i < |c.messages| ensures c.messages[i].id != newId {
      assert c.messages[i] in c.messages;
    }
  }

  /** The list is the old one, or has one message more, called `newId`. */
  ghost predicate SameIds(ms: seq<Message>, after: seq<Message>, newId: MessageId) {
    && |ms| <= |after| <= |ms| + 1
    && (forall i :: 0 <= i < |ms| ==> after[i].id == ms[i].id)
    && (|after| > |ms| ==> after[|ms|].id == newId)
  }

  lemma {:induction false} SameIdsKeepUnique(ms: seq<Message>, after: seq<Message>, newId: MessageId)
    requires UniqueIds(ms) && IsNew(ms, newId) && SameIds(ms, after, newId)
    ensures UniqueIds(after)
  {
    forall i | 0 <= i < |ms| ensures ms[i].id != newId {
      assert ms[i] in ms;
    }
  }

  lemma {:induction false} HandlersKeepIds(c: Chat, event: Event, newId: MessageId)
    requires !Turns.EndsTurn(event)
    ensures SameIds(c.messages, Applied(c, event, newId).chat.messages, newId)
  {
    match event
    case MessageStart =>
    case MessageDelta(_) => LastWhereSpec(c.messages, IsTextBubble);
    case ToolReported(_) => LastWhereSpec(c.messages, IsBlankBubble);
    case FileReported(_) => LastWhereSpec(c.messages, IsStreamingReply);
    case Other =>
  }

  lemma {:induction false} AppliedKeepsUnique(c: Chat, event: Event, newId: MessageId)
    requires UniqueIds(c.messages) && IsNew(c.messages, newId)
    ensures UniqueIds(Applied(c, event, newId).chat.messages)
  {
    match event
    case MessageComplete(text) =>
      CompletedKeepsUnique(c, text, newId);
      PruneKeepsUnique(Settle(Completed(c, text, newId)));
    case TurnFailed =>
      PruneKeepsUnique(Settle(c.messages));
    case _ =>
      HandlersKeepIds(c, event, newId);
      SameIdsKeepUnique(c.messages, Applied(c, event, newId).chat.messages, newId);
  }

  // ----- what a change report promises

  /** Only texts under `id` moved. */
  ghost predicate OnlyTextMoved(a: seq<Message>, b: seq<Message>, id: MessageId) {
    && |a| == |b|
    && forall k :: 0 <= k < |a| ==> b[k] == a[k].(content := b[k].content) && (a[k].id != id ==> b[k] == a[k])
  }

  /** A streaming report names the one message whose text moved; it may be a new one. */
  lemma {:induction false} StreamingReportSpec(c: Chat, event: Event, newId: MessageId)
    requires Applied(c, event, newId).change.Streaming?
    ensures var after := Applied(c, event, newId).chat.messages;
      var id := Applied(c, event, newId).change.id;
      || (|after| == |c.messages| && OnlyTextMoved(Visible(c.messages), Visible(after), id))
      || (|after| == |c.messages| + 1 && Visible(after) == Visible(c.messages) + [after[|c.messages|]])
  {
    LastWhereSpec(c.messages, IsTextBubble);
    var i, after := LastWhere(c.messages, IsTextBubble), Applied(c, event, newId).chat.messages;
    if i >= 0 {
      PruneAfterText(c.messages, i, after[i].content);
    } else {
      assert after[..|c.messages|] == c.messages;
    }
  }

  lemma {:induction false} PruneAfterText(ms: seq<Message>, i: nat, content: string)
    requires i < |ms| && IsStreamingReply(ms[i])
    ensures OnlyTextMoved(Prune(ms), Prune(ms[i := ms[i].(content := content)]), ms[i].id)
  {
    var after, n := ms[i := ms[i].(content := content)], |ms| - 1;
    if i < n {
      PruneAfterText(ms[..n], i, content);
      assert after[..n] == ms[..n][i := ms[i].(content := content)];
    } else {
      assert after[..n] == ms[..n];
    }
  }

  lemma {:induction false} NoReportNoChange(c: Chat, event: Event, newId: MessageId)
    requires Applied(c, event, newId).change == NoChange
    ensures Applied(c, event, newId).chat.messages == c.messages
  {
  }

  // ----- in step with the core

  /** The window holds the first messages of the list, and only texts it will be told about
      may be behind. */
  ghost predicate IsBehindBy(shown: seq<Message>, ms: seq<Message>, ids: seq<MessageId>) {
    && |shown| <= |ms|
    && forall k :: 0 <= k < |shown|
         ==> ms[k] == shown[k].(content := ms[k].content) && (shown[k].id in ids || ms[k] == shown[k])
  }

  ghost predicate InStep(f: Feed, v: View) {
    UniqueIds(f.chat.messages) && (!f.dirty ==> IsBehindBy(v.messages, Visible(f.chat.messages), f.streamed))
  }

  lemma {:induction false} HandlingStaysInStep(f: Feed, v: View, event: Event, newId: MessageId)
    requires InStep(f, v) && IsNew(f.chat.messages, newId)
    ensures InStep(Handled(f, event, newId), v)
  {
    AppliedKeepsUnique(f.chat, event, newId);
    var outcome := Applied(f.chat, event, newId);
    if outcome.change == NoChange {
      NoReportNoChange(f.chat, event, newId);
    } else if outcome.change.Streaming? {
      StreamingReportSpec(f.chat, event, newId);
    }
  }

  lemma {:induction false} WithTextsAt(ms: seq<Message>, deltas: seq<TextDelta>, k: nat, content: string)
    requires UniqueIds(ms) && k < |ms|
    requires forall d :: d in deltas && d.id == ms[k].id ==> d.content == content
    ensures |WithTexts(ms, Index(ms), deltas)| == |ms|
    ensures WithTexts(ms, Index(ms), deltas)[k]
         == if exists d :: d in deltas && d.id == ms[k].id then ms[k].(content := content) else ms[k]
  {
    TextsKeepIds(ms, Index(ms), deltas);
    if deltas != [] {
      var rest, last := deltas[..|deltas| - 1], deltas[|deltas| - 1];
      assert deltas == rest + [last];
      WithTextsAt(ms, rest, k, content);
      TextsKeepIds(ms, Index(ms), rest);
      IndexSpec(ms);
    }
  }

  lemma {:induction false} IdFound(ms: seq<Message>, k: nat)
    requires UniqueIds(ms) && k < |ms|
    ensures Conversations.FirstWithId(ms, ms[k].id) == k
  {
    if k > 0 {
      IdFound(ms[1..], k - 1);
    }
  }

  lemma {:induction false} TextsOfSpec(ms: seq<Message>, ids: seq<MessageId>, k: nat)
    requires UniqueIds(ms) && k < |ms|
    ensures forall d :: d in TextsOf(ms, ids) && d.id == ms[k].id ==> d.content == ms[k].content
    ensures (exists d :: d in TextsOf(ms, ids) && d.id == ms[k].id) <==> ms[k].id in ids
  {
    IdFound(ms, k);
    if ids != [] {
      var rest, last := ids[..|ids| - 1], ids[|ids| - 1];
      TextsOfSpec(ms, rest, k);
      assert ids == rest + [last];
      var d := TextDelta(last, ms[k].content);
      if last == ms[k].id {
        assert d in TextsOf(ms, ids);
      }
    }
  }

  lemma {:induction false} VisibleIsFound(ms: seq<Message>, k: nat) returns (i: nat)
    requires k < |Visible(ms)|
    ensures i < |ms| && ms[i] == Visible(ms)[k]
  {
    Turns.PruneKeeps(ms, Visible(ms)[k]);
    i :| 0 <= i < |ms| && ms[i] == Visible(ms)[k];
  }

  /** One poll brings the window level with the core: what it holds is the start of the list
      as it is now, and all of it if the poll carried the list. */
  lemma {:induction false} PollBringsLevel(f: Feed, v: View)
    requires InStep(f, v)
    ensures var shown := Shown(v, Polled(f)).messages;
      && shown <= Visible(f.chat.messages)
      && (f.dirty ==> shown == Visible(f.chat.messages))
      && InStep(AfterPoll(f), Shown(v, Polled(f)))
  {
    var ms, visible, u := f.chat.messages, Visible(f.chat.messages), Polled(f);
    var shown := Shown(v, u).messages;
    DraftingKeepsMessages(v.(messages := WithTexts(if f.dirty then visible else v.messages,
                                                   Index(if f.dirty then visible else v.messages), u.deltas)),
                          u.composer);
    if !f.dirty {
      PruneKeepsUnique(ms);
      TextsKeepIds(v.messages, Index(v.messages), u.deltas);
      forall k | 0 <= k < |v.messages| ensures shown[k] == visible[k] {
        LevelAt(f, v, k);
      }
      assert shown == visible[..|v.messages|];
    }
  }

  lemma {:induction false} LevelAt(f: Feed, v: View, k: nat)
    requires InStep(f, v) && !f.dirty && k < |v.messages| && UniqueIds(Visible(f.chat.messages))
    ensures |WithTexts(v.messages, Index(v.messages), Polled(f).deltas)| == |v.messages| <= |Visible(f.chat.messages)|
    ensures WithTexts(v.messages, Index(v.messages), Polled(f).deltas)[k] == Visible(f.chat.messages)[k]
  {
    var ms, visible := f.chat.messages, Visible(f.chat.messages);
    var i := VisibleIsFound(ms, k);
    TextsOfSpec(ms, f.streamed, i);
    forall a, b | 0 <= a < b < |v.messages| ensures v.messages[a].id != v.messages[b].id {
      assert visible[a].id == v.messages[a].id && visible[b].id == v.messages[b].id;
    }
    WithTextsAt(v.messages, Polled(f).deltas, k, visible[k].content);
  }

  lemma {:induction false} DraftingKeepsMessages(v: View, actions: seq<Screens.ComposerAction>)
    ensures DraftedAll(v, actions).messages == v.messages
  {
    if actions != [] {
      DraftingKeepsMessages(v, actions[..|actions| - 1]);
    }
  }

  // ----- runs

  /** Any caller that adds, removes or replaces messages reports the list as changed. */
  datatype Op =
    | Fold(event: Event, newId: MessageId)
    | Restructure(chat: Chat)
    | Compose(action: Screens.ComposerAction)
    | Poll

  datatype Both = Both(feed: Feed, view: View)

  function Next(b: Both, op: Op): Both {
    match op
    case Fold(event, newId) => b.(feed := Handled(b.feed, event, newId))
    case Restructure(chat) => b.(feed := b.feed.(chat := chat, dirty := true))
    case Compose(action) => b.(feed := b.feed.(composer := b.feed.composer + [action]))
    case Poll => Both(AfterPoll(b.feed), Shown(b.view, Polled(b.feed)))
  }

  ghost predicate GivesFreshIds(b: Both, op: Op) {
    match op
    case Fold(_, newId) => IsNew(b.feed.chat.messages, newId)
    case Restructure(chat) => UniqueIds(chat.messages)
    case _ => true
  }

  function Run(b: Both, ops: seq<Op>): Both {
    if ops == [] then b else Next(Run(b, ops[..|ops| - 1]), ops[|ops| - 1])
  }

  ghost predicate IsRun(b: Both, ops: seq<Op>) {
    ops == [] || (IsRun(b, ops[..|ops| - 1]) && GivesFreshIds(Run(b, ops[..|ops| - 1]), ops[|ops| - 1]))
  }

  lemma {:induction false} RunsStayInStep(b: Both, ops: seq<Op>)
    requires InStep(b.feed, b.view) && IsRun(b, ops)
    ensures var after := Run(b, ops); InStep(after.feed, after.view)
  {
    if ops != [] {
      var before := Run(b, ops[..|ops| - 1]);
      RunsStayInStep(b, ops[..|ops| - 1]);
      match ops[|ops| - 1] {
        case Fold(event, newId) => HandlingStaysInStep(before.feed, before.view, event, newId);
        case Poll => PollBringsLevel(before.feed, before.view);
        case _ =>
      }
    }
  }

  function Started(): Both {
    Both(Feed(Chat([], map[], false), false, [], []), View([], "", []))
  }

  /** After every poll, however events, other changes and earlier polls were mixed: each
      message the window holds is the core's message at that place, text and all; and the
      window holds the whole list after a poll that carried it. */
  lemma {:induction false} WindowIsLevelAfterPoll(ops: seq<Op>)
    requires IsRun(Started(), ops)
    ensures var before := Run(Started(), ops);
      var after := Next(before, Poll);
      && after.view.messages <= Visible(after.feed.chat.messages)
      && (before.feed.dirty ==> after.view.messages == Visible(after.feed.chat.messages))
  {
    RunsStayInStep(Started(), ops);
    PollBringsLevel(Run(Started(), ops).feed, Run(Started(), ops).view);
  }

  /** A text that is reported as moved although its bubble is new. */
  predicate OpensBubble(c: Chat, op: Op) {
    && op.Fold? && Applied(c, op.event, op.newId).change.Streaming?
    && LastWhere(c.messages, IsTextBubble) < 0
  }

  /** Some text went into a new bubble since the window last got the whole list. */
  predicate HasMissed(b: Both, ops: seq<Op>) {
    ops != []
    && var rest, last := ops[..|ops| - 1], ops[|ops| - 1];
       if last.Poll? && Run(b, rest).feed.dirty then false
       else HasMissed(b, rest) || OpensBubble(Run(b, rest).feed.chat, last)
  }

  /** What is not reported as changed is all in the window, unless it missed a bubble. */
  ghost predicate IsWhole(b: Both, missed: bool) {
    !b.feed.dirty ==> |b.view.messages| <= |Visible(b.feed.chat.messages)|
                      && (|b.view.messages| == |Visible(b.feed.chat.messages)| <==> !missed)
  }

  lemma {:induction false} FoldKeepsWhole(b: Both, op: Op, missed: bool)
    requires op.Fold? && IsWhole(b, missed)
    ensures IsWhole(Next(b, op), missed || OpensBubble(b.feed.chat, op))
  {
    var c, outcome := b.feed.chat, Applied(b.feed.chat, op.event, op.newId);
    if outcome.change == NoChange {
      NoReportNoChange(c, op.event, op.newId);
    } else if outcome.change.Streaming? {
      StreamingReportSpec(c, op.event, op.newId);
      LastWhereSpec(c.messages, IsTextBubble);
    }
  }

  lemma {:induction false} PollKeepsWhole(b: Both, missed: bool)
    requires InStep(b.feed, b.view) && IsWhole(b, missed)
    ensures IsWhole(Next(b, Poll), missed && !b.feed.dirty)
  {
    var v, u := b.view, Polled(b.feed);
    PollBringsLevel(b.feed, v);
    if !b.feed.dirty {
      DraftingKeepsMessages(v.(messages := WithTexts(v.messages, Index(v.messages), u.deltas)), u.composer);
      TextsKeepIds(v.messages, Index(v.messages), u.deltas);
    }
  }

  lemma {:induction false} RunsStayWhole(b: Both, ops: seq<Op>)
    requires InStep(b.feed, b.view) && IsWhole(b, false) && IsRun(b, ops)
    ensures IsWhole(Run(b, ops), HasMissed(b, ops))
  {
    if ops != [] {
      var rest, last := ops[..|ops| - 1], ops[|ops| - 1];
      RunsStayWhole(b, rest);
      RunsStayInStep(b, rest);
      match last
      case Fold(_, _) => FoldKeepsWhole(Run(b, rest), last, HasMissed(b, rest));
      case Poll => PollKeepsWhole(Run(b, rest), HasMissed(b, rest));
      case _ =>
    }
  }

  /** Over any run that ends in a poll: the window has the whole list exactly when no text since
      the last whole list went into a new bubble. */
  lemma {:induction false} WindowIsWholeWhen(ops: seq<Op>)
    requires ops != [] && ops[|ops| - 1] == Poll && IsRun(Started(), ops)
    ensures var after := Run(Started(), ops);
      after.view.messages == Visible(after.feed.chat.messages) <==> !HasMissed(Started(), ops)
  {
    RunsStayWhole(Started(), ops);
    WindowIsLevelAfterPoll(ops[..|ops| - 1]);
    var shown, all := Run(Started(), ops).view.messages, Visible(Run(Started(), ops).feed.chat.messages);
    assert shown == all[..|shown|];
  }

  /** One text: a window that had the whole list still has it exactly when the text went into
      a bubble that was there. A new bubble is reported as a text that moved, and the window has
      no such message yet. */
  lemma {:induction false} DeltaIsShownWhen(f: Feed, v: View, delta: Delta, newId: MessageId)
    requires InStep(f, v) && !f.dirty && IsNew(f.chat.messages, newId)
    requires |v.messages| == |Visible(f.chat.messages)|
    requires DeltaApplied(f.chat, delta, newId).change.Streaming?
    ensures var after := Handled(f, MessageDelta(delta), newId);
      Shown(v, Polled(after)).messages == Visible(after.chat.messages)
      <==> LastWhere(f.chat.messages, IsTextBubble) >= 0
  {
    var b, op := Both(f, v), Fold(MessageDelta(delta), newId);
    HandlingStaysInStep(f, v, op.event, newId);
    FoldKeepsWhole(b, op, false);
    PollKeepsWhole(Next(b, op), OpensBubble(f.chat, op));
    PollBringsLevel(Next(b, op).feed, v);
    var shown, all := Next(Next(b, op), Poll).view.messages, Visible(Next(b, op).feed.chat.messages);
    assert shown == all[..|shown|];
  }

  // ----- the composer's actions

  /** The actions added in a run, in order. */
  function Composed(ops: seq<Op>): seq<Screens.ComposerAction> {
    if ops == [] then []
    else Composed(ops[..|ops| - 1]) + if ops[|ops| - 1].Compose? then [ops[|ops| - 1].action] else []
  }

  /** The actions its polls carried, in order. */
  function Carried(b: Both, ops: seq<Op>): seq<Screens.ComposerAction> {
    if ops == [] then []
    else
      var rest, last := ops[..|ops| - 1], ops[|ops| - 1];
      Carried(b, rest) + if last.Poll? then Polled(Run(b, rest).feed).composer else []
  }

  /** Nothing the core composes is lost, repeated or reordered on its way: what the polls carried
      and then what still waits is what was added. */
  lemma {:induction false} ActionsAreCarried(b: Both, ops: seq<Op>)
    requires b.feed.composer == []
    ensures Carried(b, ops) + Run(b, ops).feed.composer == Composed(ops)
  {
    if ops != [] {
      ActionsAreCarried(b, ops[..|ops| - 1]);
    }
  }

  /** What is typed and attached in the window. */
  predicate SameDraft(a: View, b: View) {
    a.draft == b.draft && a.files == b.files
  }

  lemma {:induction false} DraftedAlike(a: View, b: View, actions: seq<Screens.ComposerAction>)
    requires SameDraft(a, b)
    ensures SameDraft(DraftedAll(a, actions), DraftedAll(b, actions))
  {
    if actions != [] {
      DraftedAlike(a, b, actions[..|actions| - 1]);
    }
  }

  lemma {:induction false} DraftedInTwo(v: View, first: seq<Screens.ComposerAction>,
                                        second: seq<Screens.ComposerAction>)
    ensures DraftedAll(v, first + second) == DraftedAll(DraftedAll(v, first), second)
  {
    if second == [] {
      assert first + second == first;
    } else {
      assert (first + second)[..|first + second| - 1] == first + second[..|second| - 1];
      DraftedInTwo(v, first, second[..|second| - 1]);
    }
  }

  lemma {:induction false} DraftFollows(b: Both, ops: seq<Op>)
    ensures SameDraft(Run(b, ops).view, DraftedAll(b.view, Carried(b, ops)))
  {
    if ops != [] {
      var rest, last := ops[..|ops| - 1], ops[|ops| - 1];
      var before := Run(b, rest);
      DraftFollows(b, rest);
      if last.Poll? {
        var u := Polled(before.feed);
        var listed := if u.messages.Some? then u.messages.value else before.view.messages;
        var texted := before.view.(messages := WithTexts(listed, Index(listed), u.deltas));
        DraftedAlike(texted, DraftedAll(b.view, Carried(b, rest)), u.composer);
        DraftedInTwo(b.view, Carried(b, rest), u.composer);
      } else {
        assert Carried(b, ops) == Carried(b, rest);
      }
    }
  }

  /** So after every run that ends in a poll the window's draft is what all the actions of the
      run, one after the other, make of it. */
  lemma {:induction false} DraftIsUpToDate(ops: seq<Op>)
    requires ops != [] && ops[|ops| - 1] == Poll
    ensures SameDraft(Run(Started(), ops).view, DraftedAll(Started().view, Composed(ops)))
  {
    ActionsAreCarried(Started(), ops);
    DraftFollows(Started(), ops);
    assert Run(Started(), ops).feed.composer == [];
    assert Carried(Started(), ops) + [] == Carried(Started(), ops);
  }

  lemma FirstDelta(newId: MessageId)
    ensures DeltaApplied(Chat([], map[], false), Delta(EventStream, "a"), newId)
         == Outcome(Chat([StreamingReply(newId).(content := "a")], map[EventStream := "a"], false),
                    Streaming(newId, "a"))
  {
    var streams: Streams := map[EventStream := "a"];
    assert Receive(map[], Delta(EventStream, "a")) == streams;
    assert BestOfFirst(streams, 1) == "" && BestOfFirst(streams, 2) == "";
    assert Best(streams) == "a";
  }

  /** The first words of the first reply, for one. */
  lemma NewBubbleIsNotShown()
    ensures var f := Handled(Started().feed, MessageDelta(Delta(EventStream, "a")), "bubble");
      |Visible(f.chat.messages)| == 1 && Shown(Started().view, Polled(f)).messages == []
  {
    var f := Handled(Started().feed, MessageDelta(Delta(EventStream, "a")), "bubble");
    FirstDelta("bubble");
    assert f.chat.messages[..0] == [];
    TextsKeepIds([], Index([]), Polled(f).deltas);
  }

  // ----- what a poll sends

  /** A message is drawn unless it is a reply that has settled with nothing in it. */
  lemma {:induction false} OnlyEmptyRepliesAreNotDrawn(ms: seq<Message>, m: Message)
    ensures m in Visible(ms) <==>
      m in ms && !(m.role == Assistant && !m.isStreaming && IsBlank(m.content)
                   && m.toolCalls == [] && m.attachments == [])
  {
    Turns.PruneKeeps(ms, m);
  }

  /** What was sent is not sent again: a second poll right after the first has nothing. */
  lemma SecondPollIsEmpty(f: Feed)
    ensures Polled(AfterPoll(f)) == Update(None, [], []) && AfterPoll(f).chat == f.chat
  {
  }

  /** A text that moved costs one text, not the list. */
  lemma {:induction false} TextsTravelAlone(f: Feed, delta: Delta, newId: MessageId)
    requires delta.text != "" && !f.dirty
    ensures var u := Polled(Handled(f, MessageDelta(delta), newId));
      u.messages == None && u.deltas != []
  {
    Growth.DeltasReportTheirText(f.chat, delta, newId);
    var o, after := Applied(f.chat, MessageDelta(delta), newId), Handled(f, MessageDelta(delta), newId);
    var m :| m in o.chat.messages && m.id == o.change.id;
    var k :| 0 <= k < |o.chat.messages| && o.chat.messages[k] == m;
    FoundSomewhere(o.chat.messages, k);
    TextsAreSent(o.chat.messages, after.streamed, m.id);
  }

  lemma {:induction false} FoundSomewhere(ms: seq<Message>, k: nat)
    requires k < |ms|
    ensures Conversations.FirstWithId(ms, ms[k].id) < |ms|
  {
    if k > 0 {
      FoundSomewhere(ms[1..], k - 1);
    }
  }

  lemma {:induction false} TextsAreSent(ms: seq<Message>, ids: seq<MessageId>, id: MessageId)
    requires id in ids && Conversations.FirstWithId(ms, id) < |ms|
    ensures TextsOf(ms, ids) != []
  {
    if ids[|ids| - 1] != id {
      TextsAreSent(ms, ids[..|ids| - 1], id);
    }
  }
}
