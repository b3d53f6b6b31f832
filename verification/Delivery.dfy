/** How the desktop core's changes reach the window that draws them. */
module Delivery {
  import opened Text
  import opened Screens
  import opened Conversations

  datatype TextDelta = TextDelta(id: MessageId, content: string)

  datatype Update = Update(messages: Option<seq<Message>>, deltas: seq<TextDelta>, composer: seq<ComposerAction>)

  /** What the core has to tell: `dirty` for the whole list, else the texts that moved. */
  datatype Feed = Feed(chat: Chat, dirty: bool, streamed: seq<MessageId>, composer: seq<ComposerAction>)

  datatype View = View(messages: seq<Message>, draft: string, files: seq<string>)

  // ----- the core's side

  /** Empty shells are not drawn. */
  function Visible(ms: seq<Message>): seq<Message> {
    Prune(ms)
  }

  function Noted(f: Feed, change: Change): Feed {
    match change
    case NoChange => f
    case Streaming(id, _) => if id in f.streamed then f else f.(streamed := f.streamed + [id])
    case Structure => f.(dirty := true)
  }

  function Handled(f: Feed, event: Event, newId: MessageId): Feed {
    var outcome := Applied(f.chat, event, newId);
    Noted(f.(chat := outcome.chat), outcome.change)
  }

  function TextsOf(ms: seq<Message>, ids: seq<MessageId>): seq<TextDelta> {
    if ids == [] then []
    else
      var i := Conversations.FirstWithId(ms, ids[|ids| - 1]);
      TextsOf(ms, ids[..|ids| - 1])
      + if i < |ms| then [TextDelta(ids[|ids| - 1], ms[i].content)] else []
  }

  function Polled(f: Feed): Update {
    if f.dirty then Update(Some(Visible(f.chat.messages)), [], f.composer)
    else Update(None, TextsOf(f.chat.messages, f.streamed), f.composer)
  }

  function AfterPoll(f: Feed): Feed {
    f.(dirty := false, streamed := [], composer := [])
  }

  class Core {
    var chat: Chat
    var dirty: bool
    var streamed: seq<MessageId>
    var composer: seq<ComposerAction>

    ghost function Snapshot(): Feed
      reads this
    {
      Feed(chat, dirty, streamed, composer)
    }

    constructor ()
      ensures Snapshot() == Feed(Chat([], map[], false), false, [], [])
    {
      chat, dirty, streamed, composer := Chat([], map[], false), false, [], [];
    }

    method Handle(event: Event, newId: MessageId)
      modifies this
      ensures Snapshot() == Handled(old(Snapshot()), event, newId)
    {
      var outcome := Applied(chat, event, newId);
      chat := outcome.chat;
      match outcome.change
      case NoChange =>
      case Streaming(id, _) =>
        if id !in streamed {
          streamed := streamed + [id];
        }
      case Structure =>
        dirty := true;
    }

    method Poll() returns (update: Update)
      modifies this
      ensures update == Polled(old(Snapshot())) && Snapshot() == AfterPoll(old(Snapshot()))
    {
      update := Update(None, [], composer);
      if dirty {
        update := update.(messages := Some(Visible(chat.messages)));
        streamed := [];
      } else if streamed != [] {
        var ids, deltas := streamed, [];
        streamed := [];
        for i := 0 to |ids|
          invariant deltas == TextsOf(chat.messages, ids[..i])
          invariant !dirty && streamed == [] && Snapshot() == old(Snapshot()).(streamed := [])
        {
          assert ids[..i + 1][..i] == ids[..i];
          var at := Conversations.FirstWithId(chat.messages, ids[i]);
          if at < |chat.messages| {
            deltas := deltas + [TextDelta(ids[i], chat.messages[at].content)];
          }
        }
        assert ids[..|ids|] == ids;
        update := update.(deltas := deltas);
      }
      composer := [];
      dirty := false;
    }
  }

  // ----- the window's side

  /** The index keeps the last position of an id. */
  function Index(ms: seq<Message>): map<MessageId, nat> {
    if ms == [] then map[] else Index(ms[..|ms| - 1])[ms[|ms| - 1].id := |ms| - 1]
  }

  function WithText(ms: seq<Message>, index: map<MessageId, nat>, d: TextDelta): seq<Message> {
    if d.id in index && index[d.id] < |ms| then ms[index[d.id] := ms[index[d.id]].(content := d.content)] else ms
  }

  function WithTexts(ms: seq<Message>, index: map<MessageId, nat>, deltas: seq<TextDelta>): seq<Message> {
    if deltas == [] then ms
    else WithText(WithTexts(ms, index, deltas[..|deltas| - 1]), index, deltas[|deltas| - 1])
  }

  function MergedPaths(have: seq<string>, add: seq<string>): seq<string> {
    if add == [] then have
    else
      var merged, last := MergedPaths(have, add[..|add| - 1]), add[|add| - 1];
      if last in merged then merged else merged + [last]
  }

  function Drafted(v: View, action: ComposerAction): View {
    match action
    case ClearDraft => v.(draft := "", files := [])
    case Restore(text, files) =>
      var draft := if IsBlank(text) then v.draft
                   else if IsBlank(v.draft) then text
                   else text + "\n\n" + v.draft;
      v.(draft := draft, files := MergedPaths(v.files, files))
  }

  function DraftedAll(v: View, actions: seq<ComposerAction>): View {
    if actions == [] then v else Drafted(DraftedAll(v, actions[..|actions| - 1]), actions[|actions| - 1])
  }

  function Shown(v: View, u: Update): View {
    var listed := if u.messages.Some? then u.messages.value else v.messages;
    DraftedAll(v.(messages := WithTexts(listed, Index(listed), u.deltas)), u.composer)
  }

  lemma {:induction false} IndexSpec(ms: seq<Message>)
    ensures var index := Index(ms);
      && (forall id :: id in index ==> index[id] < |ms| && ms[index[id]].id == id)
      && (forall i :: 0 <= i < |ms| ==> ms[i].id in index && i <= index[ms[i].id])
  {
    if ms != [] {
      IndexSpec(ms[..|ms| - 1]);
    }
  }

  lemma {:induction false} TextsKeepLength(ms: seq<Message>, index: map<MessageId, nat>, deltas: seq<TextDelta>)
    ensures |WithTexts(ms, index, deltas)| == |ms|
  {
    if deltas != [] {
      TextsKeepLength(ms, index, deltas[..|deltas| - 1]);
    }
  }

  class Window {
    var messages: seq<Message>
    var byId: map<MessageId, nat>
    var draft: string
    var files: seq<string>

    ghost function Snapshot(): View
      reads this
    {
      View(messages, draft, files)
    }

    ghost predicate Valid()
      reads this
    {
      byId == Index(messages)
    }

    constructor ()
      ensures Valid() && Snapshot() == View([], "", [])
    {
      messages, byId, draft, files := [], map[], "", [];
    }

    method List(ms: seq<Message>)
      modifies this`messages, this`byId
      ensures messages == ms && byId == Index(ms)
    {
      messages := ms;
      var index: map<MessageId, nat> := map[];
      for i := 0 to |ms|
        invariant index == Index(ms[..i])
        invariant messages == ms
      {
        assert ms[..i + 1][..i] == ms[..i];
        index := index[ms[i].id := i];
      }
      assert ms[..|ms|] == ms;
      byId := index;
    }

    method SetTexts(deltas: seq<TextDelta>)
      requires Valid()
      modifies this`messages
      ensures Valid() && messages == WithTexts(old(messages), byId, deltas)
    {
      ghost var before := messages;
      IndexSpec(before);
      var ms := messages;
      for i := 0 to |deltas|
        invariant ms == WithTexts(before, byId, deltas[..i]) && |ms| == |before|
      {
        assert deltas[..i + 1][..i] == deltas[..i];
        if deltas[i].id in byId {
          var at := byId[deltas[i].id];
          ms := ms[at := ms[at].(content := deltas[i].content)];
        }
      }
      assert deltas[..|deltas|] == deltas;
      TextsKeepIds(before, byId, deltas);
      SameIdsSameIndex(before, ms);
      messages := ms;
    }

    method Compose(action: ComposerAction)
      modifies this`draft, this`files
      ensures Snapshot() == Drafted(old(Snapshot()), action)
    {
      match action
      case ClearDraft =>
        draft := "";
        files := [];
      case Restore(text, paths) =>
        if !IsBlank(draft) && !IsBlank(text) {
          draft := text + "\n\n" + draft;
        } else if !IsBlank(text) {
          draft := text;
        }
        files := MergePaths(files, paths);
    }

    method Apply(u: Update)
      requires Valid()
      modifies this
      ensures Valid() && Snapshot() == Shown(old(Snapshot()), u)
    {
      ghost var before := Snapshot();
      if u.messages.Some? {
        List(u.messages.value);
      }
      SetTexts(u.deltas);
      ghost var listed := Snapshot();
      for i := 0 to |u.composer|
        invariant Valid() && Snapshot() == DraftedAll(listed, u.composer[..i])
      {
        assert u.composer[..i + 1][..i] == u.composer[..i];
        Compose(u.composer[i]);
      }
      assert u.composer[..|u.composer|] == u.composer;
    }
  }

  method MergePaths(have: seq<string>, add: seq<string>) returns (merged: seq<string>)
    ensures merged == MergedPaths(have, add)
  {
    merged := have;
    var seen := set p | p in have;
    for i := 0 to |add|
      invariant merged == MergedPaths(have, add[..i])
      invariant forall p :: p in seen <==> p in merged
    {
      assert add[..i + 1][..i] == add[..i];
      if add[i] !in seen {
        merged := merged + [add[i]];
        seen := seen + {add[i]};
      }
    }
    assert add[..|add|] == add;
  }

  lemma {:induction false} TextsKeepIds(ms: seq<Message>, index: map<MessageId, nat>, deltas: seq<TextDelta>)
    ensures |WithTexts(ms, index, deltas)| == |ms|
    ensures forall i :: 0 <= i < |ms| ==> WithTexts(ms, index, deltas)[i].id == ms[i].id
  {
    if deltas != [] {
      TextsKeepIds(ms, index, deltas[..|deltas| - 1]);
    }
  }

  lemma {:induction false} SameIdsSameIndex(a: seq<Message>, b: seq<Message>)
    requires |a| == |b| && forall i :: 0 <= i < |a| ==> a[i].id == b[i].id
    ensures Index(a) == Index(b)
  {
    if a != [] {
      SameIdsSameIndex(a[..|a| - 1], b[..|b| - 1]);
    }
  }
}
