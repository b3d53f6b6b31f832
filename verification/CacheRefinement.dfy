/** The phone's cache, with its eviction and its archive, is a plain map from backend and
    session to messages. */
module CacheRefinement {
  import opened Text
  import opened Conversations
  import opened SessionCache

  // ----- the plain map

  datatype Slot = Slot(backend: string, id: string)

  /** What the user sees, in which view, and what every chat that was left last had. */
  datatype Plain = Plain(kept: map<Slot, seq<Message>>, backend: string, view: nat, key: Option<string>,
                         messages: seq<Message>)

  function KeptAt(p: Plain, slot: Slot): seq<Message> {
    if slot in p.kept then p.kept[slot] else []
  }

  function DraftName(view: nat): string {
    DRAFT + Decimal(view)
  }

  /** Where the chat on screen is kept when it is left: a chat without a session under the
      view that follows it, unless there is nothing in it. */
  function ShownSlot(p: Plain): Option<Slot> {
    if p.key.Some? then Some(Slot(p.backend, p.key.value))
    else if p.messages != [] then Some(Slot(p.backend, DraftName(p.view + 1)))
    else None
  }

  function Left(p: Plain): Plain {
    if ShownSlot(p).Some? then p.(kept := p.kept[ShownSlot(p).value := p.messages]) else p
  }

  function Visit(p: Plain, id: Option<string>): Plain {
    var left := Left(p);
    left.(view := p.view + 1, key := id, messages := if id.Some? then KeptAt(left, Slot(p.backend, id.value)) else [])
  }

  // ----- runs of both

  datatype Op =
    | OpenOne(id: string)
    | NewChat
    | Configure(backend: string)
    | Fold(conversation: Chat)
    | Attach(live: string, stored: Option<string>)
    | TakeBack(prompt: MessageId, at: Option<string>)

  ghost function Next(o: Open, op: Op): Open {
    match op
    case OpenOne(id) => Opened(o, id)
    case NewChat => Blanked(o)
    case Configure(backend) => Configured(o, backend)
    case Fold(conversation) => o.(conversation := conversation)
    case Attach(live, stored) => Attached(o, live, stored)
    case TakeBack(prompt, at) => Restored(o, prompt, at)
  }

  /** Backend names hold no colon, sessions are not called like drafts, and attaching a named
      session does not rename it. */
  predicate IsFair(o: Open, op: Op) {
    match op
    case OpenOne(id) => !IsDraft(id)
    case Configure(backend) => ':' !in backend
    case Attach(live, stored) =>
      var name := if stored.Some? then stored.value else live;
      !IsDraft(name) && (KeyOf(o) == None || KeyOf(o) == Some(name))
    case _ => true
  }

  /** A transcript with the prompt taken out: nothing streams, and empty shells go with it. */
  function TakenOut(ms: seq<Message>, prompt: MessageId): seq<Message> {
    if HasId(ms, prompt) then Prune(ClearStreaming(WithoutId(ms, prompt))) else ms
  }

  /** All the plain map is told of the cache: whether the session is parked, for an edit that
      only a parked session gets. */
  function PlainNext(p: Plain, op: Op, isParked: bool): Plain {
    match op
    case OpenOne(id) => Visit(p, Some(id))
    case NewChat => Visit(p, None)
    case Configure(backend) => if p.backend == backend then p else Visit(p, None).(backend := backend)
    case Fold(conversation) => p.(messages := conversation.messages)
    case Attach(live, stored) => p.(key := if stored.Some? then stored else Some(live))
    case TakeBack(prompt, None) => p.(messages := TakenOut(p.messages, prompt))
    case TakeBack(prompt, Some(id)) =>
      var slot := Slot(p.backend, id);
      if isParked && slot in p.kept then p.(kept := p.kept[slot := TakenOut(p.kept[slot], prompt)]) else p
  }

  predicate IsParked(o: Open, op: Op) {
    op.TakeBack? && op.at.Some? && op.at.value in o.parked
  }

  ghost function Run(o: Open, ops: seq<Op>): Open {
    if ops == [] then o else Next(Run(o, ops[..|ops| - 1]), ops[|ops| - 1])
  }

  ghost function PlainRun(o: Open, p: Plain, ops: seq<Op>): Plain {
    if ops == [] then p
    else
      var before, op := ops[..|ops| - 1], ops[|ops| - 1];
      PlainNext(PlainRun(o, p, before), op, IsParked(Run(o, before), op))
  }

  ghost predicate IsFairRun(o: Open, ops: seq<Op>) {
    ops == [] || (IsFairRun(o, ops[..|ops| - 1]) && IsFair(Run(o, ops[..|ops| - 1]), ops[|ops| - 1]))
  }

  // ----- agreement

  /** The same messages, up to the flag that the archive drops. */
  predicate Same(a: seq<Message>, b: seq<Message>) {
    ClearStreaming(a) == ClearStreaming(b)
  }

  function Archived(archive: Archive, slot: Slot): seq<Message> {
    var key := ArchiveKey(slot.backend, slot.id);
    if key in archive then archive[key] else []
  }

  /** Where the phone would find a session that is not on screen. */
  function StoredAt(o: Open, slot: Slot): seq<Message> {
    if slot.backend == o.backend && slot.id in o.parked then o.parked[slot.id].messages else Archived(o.archive, slot)
  }

  predicate IsSession(slot: Slot) {
    ':' !in slot.backend && !IsDraft(slot.id)
  }

  predicate IsOnScreen(o: Open, slot: Slot) {
    slot.backend == o.backend && KeyOf(o) == Some(slot.id)
  }

  /** What is parked, drafts included, is what the plain map keeps of it. */
  ghost predicate ParkedIsKept(o: Open, p: Plain) {
    forall id :: id in o.parked ==> Same(o.parked[id].messages, KeptAt(p, Slot(o.backend, id)))
  }

  /** What is parked is archived too, so that eviction loses nothing. */
  ghost predicate ParkedIsArchived(o: Open) {
    forall id :: id in o.parked && !IsDraft(id) && KeyOf(o) != Some(id)
      ==> Archived(o.archive, Slot(o.backend, id)) == o.parked[id].messages
  }

  ghost predicate KeepsTheSame(o: Open, p: Plain) {
    forall slot :: IsSession(slot) && !IsOnScreen(o, slot) ==> Same(StoredAt(o, slot), KeptAt(p, slot))
  }

  ghost predicate AgreesOnScreen(o: Open, p: Plain) {
    && o.writer && ':' !in o.backend
    && (KeyOf(o).Some? ==> !IsDraft(KeyOf(o).value))
    && p.backend == o.backend && p.view == o.generation && p.key == KeyOf(o)
    && Same(o.conversation.messages, p.messages)
  }

  ghost predicate Agrees(o: Open, p: Plain) {
    AgreesOnScreen(o, p) && KeepsTheSame(o, p) && ParkedIsArchived(o) && ParkedIsKept(o, p)
  }

  // ----- the archive's keys

  /** Sessions of different backends never share a key. */
  lemma {:induction false} KeysDoNotMix(a: Slot, b: Slot)
    requires ':' !in a.backend && ':' !in b.backend
    ensures ArchiveKey(a.backend, a.id) == ArchiveKey(b.backend, b.id) <==> a == b
  {
    var ka, kb := ArchiveKey(a.backend, a.id), ArchiveKey(b.backend, b.id);
    if ka == kb {
      assert ka[|a.backend|] == ':' && kb[|b.backend|] == ':';
      assert a.backend == ka[..|a.backend|] == kb[..|b.backend|];
      ArchiveKeyDecodes(a.backend, a.id);
      ArchiveKeyDecodes(b.backend, b.id);
    }
  }

  /** What recording the history leaves in the archive for each session. */
  lemma {:induction false} RecordedAt(o: Open, slot: Slot)
    requires o.writer && ':' !in o.backend && IsSession(slot)
    ensures Archived(HistoryRecorded(o).archive, slot)
         == if IsOnScreen(o, slot) then o.conversation.messages else StoredAt(o, slot)
  {
    var key := ArchiveKey(slot.backend, slot.id);
    FiledAt(o.archive, o.backend, o.parked, o.parked.Keys, key);
    ArchiveKeyDecodes(slot.backend, slot.id);
    if KeyOf(o).Some? {
      KeysDoNotMix(slot, Slot(o.backend, KeyOf(o).value));
    }
    if o.backend + "::" <= key {
      var id := key[|o.backend| + 2..];
      assert ArchiveKey(o.backend, id) == key;
      KeysDoNotMix(slot, Slot(o.backend, id));
    }
  }

  lemma {:induction false} TrimmedKeeps(parked: map<string, Chat>)
    ensures Trimmed(parked).Keys <= parked.Keys && |Trimmed(parked)| <= PARKED_LIMIT
    ensures forall id :: id in Trimmed(parked) ==> Trimmed(parked)[id] == parked[id]
    decreases |parked|
  {
    if |parked| > PARKED_LIMIT {
      var first := First(parked.Keys);
      RemovingShrinks(parked, first);
      TrimmedKeeps(parked - {first});
    }
  }

  // ----- leaving a view

  ghost predicate KeptIsArchived(archive: Archive, p: Plain) {
    forall slot :: IsSession(slot) ==> Same(Archived(archive, slot), KeptAt(p, slot))
  }

  ghost predicate ParkedIsIn(archive: Archive, backend: string, parked: map<string, Chat>) {
    forall id :: id in parked && !IsDraft(id) ==> Archived(archive, Slot(backend, id)) == parked[id].messages
  }

  lemma {:induction false} LeavingArchivesKept(o: Open, p: Plain)
    requires Agrees(o, p)
    ensures KeptIsArchived(HistoryRecorded(o).archive, Left(p))
  {
    forall slot | IsSession(slot) ensures Same(Archived(HistoryRecorded(o).archive, slot), KeptAt(Left(p), slot)) {
      RecordedAt(o, slot);
    }
  }

  lemma {:induction false} DepartingArchivesParked(o: Open)
    requires o.writer && ':' !in o.backend && (KeyOf(o).Some? ==> !IsDraft(KeyOf(o).value))
    ensures var d := Departed(o);
      d.archive == HistoryRecorded(o).archive && ParkedIsIn(d.archive, o.backend, d.parked)
  {
    var d := Departed(o);
    var key := ParkingKey(NextView(HistoryRecorded(o)));
    if key.Some? {
      TrimmedKeeps(o.parked[key.value := o.conversation]);
    }
    forall id | id in d.parked && !IsDraft(id)
      ensures Archived(d.archive, Slot(o.backend, id)) == d.parked[id].messages
    {
      RecordedAt(o, Slot(o.backend, id));
    }
  }

  /** Filing touches the archive alone. */
  lemma DepartedParks(o: Open)
    ensures Departed(o).parked == PutAway(NextView(o)).parked
    ensures Departed(o).generation == o.generation + 1 && Departed(o).backend == o.backend
  {
  }

  lemma {:induction false} ShownIsKept(o: Open, p: Plain)
    requires AgreesOnScreen(o, p)
    ensures var key := ParkingKey(NextView(o));
      if key.Some? then
        ShownSlot(p) == Some(Slot(o.backend, key.value))
        && Same(o.conversation.messages, KeptAt(Left(p), Slot(o.backend, key.value)))
      else Left(p) == p
  {
    SameLengths(o.conversation.messages, p.messages);
  }

  lemma {:induction false} DepartingKeepsParked(o: Open, p: Plain)
    requires AgreesOnScreen(o, p) && ParkedIsKept(o, p)
    ensures ParkedIsKept(Departed(o), Left(p))
  {
    var parked, key := PutAway(NextView(o)).parked, ParkingKey(NextView(o));
    DepartedParks(o);
    ShownIsKept(o, p);
    if key.Some? {
      TrimmedKeeps(o.parked[key.value := o.conversation]);
    }
    forall id | id in parked ensures Same(parked[id].messages, KeptAt(Left(p), Slot(o.backend, id))) {
      if key != Some(id) {
        assert Same(o.parked[id].messages, KeptAt(p, Slot(o.backend, id)));
      }
    }
  }

  lemma SameLengths(a: seq<Message>, b: seq<Message>)
    requires Same(a, b)
    ensures |a| == |b|
  {
    assert |a| == |ClearStreaming(a)| && |b| == |ClearStreaming(b)|;
  }

  // ----- arriving

  lemma ClearingTwice(ms: seq<Message>)
    ensures ClearStreaming(ClearStreaming(ms)) == ClearStreaming(ms)
  {
  }

  /** Parked or evicted, a session comes back with what the archive has of it. */
  lemma {:induction false} ArrivalShowsArchived(d: Open, id: string)
    requires ParkedIsIn(d.archive, d.backend, d.parked) && !IsDraft(id)
    ensures Same(BroughtBack(d, Some(id)).conversation.messages, Archived(d.archive, Slot(d.backend, id)))
  {
    ClearingTwice(Archived(d.archive, Slot(d.backend, id)));
    if id in d.parked {
      assert Archived(d.archive, Slot(d.backend, id)) == d.parked[id].messages;
    }
  }

  lemma {:induction false} ArrivedAgrees(o: Open, p: Plain)
    requires AgreesOnScreen(o, p)
    requires KeptIsArchived(o.archive, p) && ParkedIsIn(o.archive, o.backend, o.parked) && ParkedIsKept(o, p)
    ensures Agrees(o, p)
  {
    forall slot | IsSession(slot) && !IsOnScreen(o, slot) ensures Same(StoredAt(o, slot), KeptAt(p, slot)) {
      assert Same(Archived(o.archive, slot), KeptAt(p, slot));
    }
  }

  lemma {:induction false} OpenShowsKept(o: Open, p: Plain, id: string)
    requires Agrees(o, p) && !IsDraft(id)
    ensures Same(Opened(o, id).conversation.messages, KeptAt(Left(p), Slot(o.backend, id)))
  {
    LeavingArchivesKept(o, p);
    DepartingArchivesParked(o);
    ArrivalShowsArchived(Departed(o), id);
    assert Same(Archived(Departed(o).archive, Slot(o.backend, id)), KeptAt(Left(p), Slot(o.backend, id)));
  }

  lemma {:induction false} OpenAgrees(o: Open, p: Plain, id: string)
    requires Agrees(o, p) && !IsDraft(id)
    ensures Agrees(Opened(o, id), Visit(p, Some(id)))
  {
    OpenShowsKept(o, p, id);
    LeavingArchivesKept(o, p);
    DepartingArchivesParked(o);
    KeptAfterVisit(Departed(o).archive, p, Some(id));
    SwitchKeepsParked(o, p, Some(id));
    ArrivedAgrees(Opened(o, id), Visit(p, Some(id)));
  }

  lemma {:induction false} ArrivingKeepsParked(d: Open, left: Plain, id: Option<string>)
    requires ParkedIsKept(d, left)
    ensures ParkedIsKept(BroughtBack(d, id), left)
  {
    var o := BroughtBack(d, id);
    forall k | k in o.parked ensures Same(o.parked[k].messages, KeptAt(left, Slot(o.backend, k))) {
      assert Same(d.parked[k].messages, KeptAt(left, Slot(d.backend, k)));
    }
  }

  lemma {:induction false} SwitchKeepsParked(o: Open, p: Plain, id: Option<string>)
    requires Agrees(o, p)
    ensures ParkedIsKept(SwitchedTo(o, id), Visit(p, id))
  {
    DepartingKeepsParked(o, p);
    ArrivingKeepsParked(Departed(o), Left(p), id);
    KeptAlone(SwitchedTo(o, id), Left(p), Visit(p, id));
  }

  lemma {:induction false} KeptAlone(o: Open, p: Plain, p': Plain)
    requires ParkedIsKept(o, p) && p'.kept == p.kept
    ensures ParkedIsKept(o, p')
  {
    forall id | id in o.parked ensures Same(o.parked[id].messages, KeptAt(p', Slot(o.backend, id))) {
      assert Same(o.parked[id].messages, KeptAt(p, Slot(o.backend, id)));
    }
  }

  lemma {:induction false} KeptAfterVisit(archive: Archive, p: Plain, id: Option<string>)
    requires KeptIsArchived(archive, Left(p))
    ensures KeptIsArchived(archive, Visit(p, id))
  {
    forall slot | IsSession(slot) ensures Same(Archived(archive, slot), KeptAt(Visit(p, id), slot)) {
      assert KeptAt(Visit(p, id), slot) == KeptAt(Left(p), slot);
    }
  }

  lemma {:induction false} BlankAgrees(o: Open, p: Plain)
    requires Agrees(o, p)
    ensures Agrees(Blanked(o), Visit(p, None))
  {
    LeavingArchivesKept(o, p);
    DepartingArchivesParked(o);
    KeptAfterVisit(Departed(o).archive, p, None);
    SwitchKeepsParked(o, p, None);
    ArrivedAgrees(Blanked(o), Visit(p, None));
  }

  lemma {:induction false} ConfigureAgrees(o: Open, p: Plain, backend: string)
    requires Agrees(o, p) && ':' !in backend
    ensures Agrees(Configured(o, backend), PlainNext(p, Configure(backend), false))
  {
    if o.backend != backend {
      LeavingArchivesKept(o, p);
      DepartingArchivesParked(o);
      var archive, after := Departed(o).archive, PlainNext(p, Configure(backend), false);
      forall slot | IsSession(slot) ensures Same(Archived(archive, slot), KeptAt(after, slot)) {
        assert KeptAt(after, slot) == KeptAt(Left(p), slot);
      }
      ArrivedAgrees(Configured(o, backend), after);
    }
  }

  // ----- staying on the view

  /** Recording the history keeps what is stored and archives what is parked. */
  lemma {:induction false} RecordingAgrees(o: Open, p: Plain)
    requires AgreesOnScreen(o, p) && KeepsTheSame(o, p) && ParkedIsKept(o, p)
    ensures Agrees(HistoryRecorded(o), p)
  {
    var after := HistoryRecorded(o);
    forall slot | IsSession(slot) && !IsOnScreen(after, slot) ensures Same(StoredAt(after, slot), KeptAt(p, slot)) {
      RecordedAt(o, slot);
      assert Same(StoredAt(o, slot), KeptAt(p, slot));
    }
    forall id | id in after.parked && !IsDraft(id) && KeyOf(after) != Some(id)
      ensures Archived(after.archive, Slot(o.backend, id)) == after.parked[id].messages
    {
      RecordedAt(o, Slot(o.backend, id));
    }
  }

  lemma {:induction false} AttachAgrees(o: Open, p: Plain, live: string, stored: Option<string>)
    requires Agrees(o, p) && IsFair(o, Attach(live, stored))
    ensures Agrees(Attached(o, live, stored), PlainNext(p, Attach(live, stored), false))
  {
    var named := o.(liveId := Some(live), storedId := if stored.Some? then stored else Some(live));
    var after := PlainNext(p, Attach(live, stored), false);
    forall slot | IsSession(slot) && !IsOnScreen(named, slot) ensures Same(StoredAt(named, slot), KeptAt(after, slot)) {
      assert StoredAt(named, slot) == StoredAt(o, slot) && KeptAt(after, slot) == KeptAt(p, slot);
    }
    RecordingAgrees(named, after);
  }

  lemma {:induction false} SettledIsCleared(ms: seq<Message>)
    ensures ClearStreaming(Prune(Settle(ms))) == Prune(ClearStreaming(ms))
  {
    if ms != [] {
      var rest := ms[..|ms| - 1];
      SettledIsCleared(rest);
      assert Settle(ms)[..|ms| - 1] == Settle(rest) && ClearStreaming(ms)[..|ms| - 1] == ClearStreaming(rest);
    }
  }

  lemma {:induction false} PrunedStaysCleared(ms: seq<Message>)
    ensures |Prune(ms)| <= |ms|
    ensures ms == ClearStreaming(ms) ==> Prune(ms) == ClearStreaming(Prune(ms))
  {
    if ms != [] {
      var rest := ms[..|ms| - 1];
      PrunedStaysCleared(rest);
      if ms == ClearStreaming(ms) {
        assert rest == ClearStreaming(rest);
      }
    }
  }

  lemma {:induction false} SameIds(a: seq<Message>, b: seq<Message>, id: MessageId)
    requires Same(a, b)
    ensures |a| == |b| && FirstWithId(a, id) == FirstWithId(b, id)
  {
    assert |a| == |ClearStreaming(a)| && |b| == |ClearStreaming(b)|;
    if a != [] {
      assert ClearStreaming(a)[0] == ClearStreaming(b)[0];
      assert ClearStreaming(a[1..]) == ClearStreaming(a)[1..] == ClearStreaming(b[1..]);
      SameIds(a[1..], b[1..], id);
    }
  }

  lemma {:induction false} TakingOutOfTheSame(c: Chat, kept: seq<Message>, prompt: MessageId)
    requires Same(c.messages, kept) && HasMessage(c, prompt)
    ensures HasId(kept, prompt) && Same(WithoutMessage(c, prompt).messages, TakenOut(kept, prompt))
  {
    SameIds(c.messages, kept, prompt);
    var x, y := WithoutId(c.messages, prompt), WithoutId(kept, prompt);
    assert ClearStreaming(x) == ClearStreaming(y) by {
      forall i | 0 <= i < |x| ensures ClearStreaming(x)[i] == ClearStreaming(y)[i] {
        var k := if i < FirstWithId(kept, prompt) then i else i + 1;
        assert ClearStreaming(c.messages)[k] == ClearStreaming(kept)[k];
      }
    }
    SettledIsCleared(x);
    ClearingTwice(y);
    PrunedStaysCleared(ClearStreaming(y));
  }

  lemma {:induction false} TakeBackShownAgrees(o: Open, p: Plain, prompt: MessageId)
    requires Agrees(o, p)
    ensures Agrees(Restored(o, prompt, None), PlainNext(p, TakeBack(prompt, None), false))
  {
    SameIds(o.conversation.messages, p.messages, prompt);
    if HasMessage(o.conversation, prompt) {
      TakingOutOfTheSame(o.conversation, p.messages, prompt);
      var edited := WithoutMessage(o.conversation, prompt);
      FoldAgrees(o, p, edited);
      var o', p' := o.(conversation := edited), p.(messages := TakenOut(p.messages, prompt));
      forall slot | IsSession(slot) && !IsOnScreen(o', slot) ensures Same(StoredAt(o', slot), KeptAt(p', slot)) {
        assert StoredAt(o', slot) == StoredAt(o, slot) && KeptAt(p', slot) == KeptAt(p, slot);
      }
      RecordingAgrees(o', p');
    }
  }

  /** The cache with the prompt taken out of one parked chat, but nothing filed yet. */
  function ParkedEdit(o: Open, id: string, prompt: MessageId): Open
    requires id in o.parked
  {
    if HasMessage(o.parked[id], prompt) then o.(parked := o.parked[id := WithoutMessage(o.parked[id], prompt)]) else o
  }

  lemma {:induction false} ParkedEditIsKept(o: Open, p: Plain, id: string, prompt: MessageId)
    requires ParkedIsKept(o, p) && p.backend == o.backend && id in o.parked
    ensures ParkedIsKept(ParkedEdit(o, id, prompt), PlainNext(p, TakeBack(prompt, Some(id)), true))
  {
    var edited, after := ParkedEdit(o, id, prompt), PlainNext(p, TakeBack(prompt, Some(id)), true);
    var kept := KeptAt(p, Slot(o.backend, id));
    SameIds(o.parked[id].messages, kept, prompt);
    if HasMessage(o.parked[id], prompt) {
      TakingOutOfTheSame(o.parked[id], kept, prompt);
    }
    forall k | k in edited.parked ensures Same(edited.parked[k].messages, KeptAt(after, Slot(o.backend, k))) {
      assert Same(o.parked[k].messages, KeptAt(p, Slot(o.backend, k)));
    }
  }

  lemma {:induction false} ParkedEditAgrees(o: Open, p: Plain, id: string, prompt: MessageId, slot: Slot)
    requires Agrees(o, p) && id in o.parked && IsSession(slot) && !IsOnScreen(o, slot)
    ensures Same(StoredAt(ParkedEdit(o, id, prompt), slot),
                 KeptAt(PlainNext(p, TakeBack(prompt, Some(id)), true), slot))
  {
    assert Same(StoredAt(o, slot), KeptAt(p, slot));
    if slot == Slot(o.backend, id) {
      ParkedEditIsKept(o, p, id, prompt);
      assert id in ParkedEdit(o, id, prompt).parked;
    }
  }

  lemma {:induction false} TakeBackParkedAgrees(o: Open, p: Plain, id: string, prompt: MessageId)
    requires Agrees(o, p)
    ensures Agrees(Restored(o, prompt, Some(id)), PlainNext(p, TakeBack(prompt, Some(id)), id in o.parked))
  {
    if id in o.parked {
      var edited, after := ParkedEdit(o, id, prompt), PlainNext(p, TakeBack(prompt, Some(id)), true);
      forall slot | IsSession(slot) && !IsOnScreen(edited, slot)
        ensures Same(StoredAt(edited, slot), KeptAt(after, slot))
      {
        ParkedEditAgrees(o, p, id, prompt, slot);
      }
      ParkedEditIsKept(o, p, id, prompt);
      if HasMessage(o.parked[id], prompt) {
        RecordingAgrees(edited, after);
      }
    }
  }

  lemma {:induction false} FoldAgrees(o: Open, p: Plain, conversation: Chat)
    requires Agrees(o, p)
    ensures Agrees(o.(conversation := conversation), p.(messages := conversation.messages))
  {
    var o', p' := o.(conversation := conversation), p.(messages := conversation.messages);
    forall slot | IsSession(slot) && !IsOnScreen(o', slot) ensures Same(StoredAt(o', slot), KeptAt(p', slot)) {
      assert StoredAt(o', slot) == StoredAt(o, slot) && KeptAt(p', slot) == KeptAt(p, slot);
    }
  }

  // ----- the refinement

  lemma {:induction false} StepAgrees(o: Open, p: Plain, op: Op)
    requires Agrees(o, p) && IsFair(o, op)
    ensures Agrees(Next(o, op), PlainNext(p, op, IsParked(o, op)))
  {
    match op
    case OpenOne(id) => OpenAgrees(o, p, id);
    case NewChat => BlankAgrees(o, p);
    case Configure(backend) => ConfigureAgrees(o, p, backend);
    case Fold(conversation) => FoldAgrees(o, p, conversation);
    case Attach(live, stored) => AttachAgrees(o, p, live, stored);
    case TakeBack(prompt, at) =>
      if at.Some? {
        TakeBackParkedAgrees(o, p, at.value, prompt);
      } else {
        TakeBackShownAgrees(o, p, prompt);
      }
  }

  lemma {:induction false} RunsAgree(o: Open, p: Plain, ops: seq<Op>)
    requires Agrees(o, p) && IsFairRun(o, ops)
    ensures Agrees(Run(o, ops), PlainRun(o, p, ops))
  {
    if ops != [] {
      var before, op := ops[..|ops| - 1], ops[|ops| - 1];
      RunsAgree(o, p, before);
      StepAgrees(Run(o, before), PlainRun(o, p, before), op);
    }
  }

  /** The client as it starts, with the archive of the last launch. */
  function Launched(backend: string, archive: Archive): Open {
    Open(None, None, 0, EMPTY, map[], backend, archive, true)
  }

  ghost predicate IsLaunchView(p: Plain, backend: string, archive: Archive) {
    p.backend == backend && p.view == 0 && p.key == None && p.messages == [] && KeptIsArchived(archive, p)
  }

  /** Whatever the user does, and whatever is evicted on the way: coming back to a session
      shows the messages it last had, on its own backend. */
  lemma {:induction false} ReturningShowsTheLast(backend: string, archive: Archive, p: Plain, ops: seq<Op>, id: string)
    requires ':' !in backend && IsLaunchView(p, backend, archive)
    requires IsFairRun(Launched(backend, archive), ops) && !IsDraft(id)
    ensures var o, now := Run(Launched(backend, archive), ops), PlainRun(Launched(backend, archive), p, ops);
      Same(Opened(o, id).conversation.messages, KeptAt(Left(now), Slot(now.backend, id)))
  {
    var start := Launched(backend, archive);
    ArrivedAgrees(start, p);
    RunsAgree(start, p, ops);
    OpenShowsKept(Run(start, ops), PlainRun(start, p, ops), id);
  }

  // ----- giving a prompt back

  /** Taking a prompt out of a session that is not on screen happens exactly when the session
      is parked: one that was evicted keeps the prompt. */
  lemma {:induction false} TakingOutReachesWhen(o: Open, p: Plain, id: string, prompt: MessageId)
    requires Agrees(o, p) && !IsDraft(id) && KeyOf(o) != Some(id)
    requires HasId(KeptAt(p, Slot(o.backend, id)), prompt)
    ensures var slot := Slot(o.backend, id);
      Same(StoredAt(Restored(o, prompt, Some(id)), slot), TakenOut(KeptAt(p, slot), prompt)) <==> id in o.parked
  {
    var slot := Slot(o.backend, id);
    var kept := KeptAt(p, slot);
    TakeBackParkedAgrees(o, p, id, prompt);
    assert Same(StoredAt(o, slot), kept);
    PrunedStaysCleared(ClearStreaming(WithoutId(kept, prompt)));
    if id !in o.parked && Same(kept, TakenOut(kept, prompt)) {
      SameIds(kept, TakenOut(kept, prompt), prompt);
      assert false;
    }
  }

  /** The prompt stands in one chat: a session's or a draft's, on screen or left. */
  ghost predicate HeldOnlyBy(p: Plain, prompt: MessageId, slot: Slot) {
    && HasId(KeptAt(Left(p), slot), prompt)
    && (forall s :: HasId(KeptAt(p, s), prompt) ==> s == slot)
    && (HasId(p.messages, prompt) ==> ShownSlot(p) == Some(slot))
  }

  /** Parked, or on screen, where it would be parked next. */
  predicate IsInReach(o: Open, slot: Slot) {
    slot.backend == o.backend && (slot.id in o.parked || ParkingKey(NextView(o)) == Some(slot.id))
  }

  lemma {:induction false} FoundParked(o: Open, p: Plain, prompt: MessageId, id: string)
    requires Agrees(o, p) && id in o.parked
    ensures HasMessage(o.parked[id], prompt) <==> HasId(KeptAt(p, Slot(o.backend, id)), prompt)
  {
    assert Same(o.parked[id].messages, KeptAt(p, Slot(o.backend, id)));
    SameIds(o.parked[id].messages, KeptAt(p, Slot(o.backend, id)), prompt);
  }

  lemma {:induction false} FoundWhen(o: Open, p: Plain, prompt: MessageId, slot: Slot)
    requires Agrees(o, p) && HeldOnlyBy(p, prompt, slot)
    ensures CanRestore(o, prompt) <==> IsInReach(o, slot)
  {
    SameIds(o.conversation.messages, p.messages, prompt);
    forall id | id in o.parked
      ensures HasMessage(o.parked[id], prompt) <==> HasId(KeptAt(p, Slot(o.backend, id)), prompt)
    {
      FoundParked(o, p, prompt, id);
    }
    SameLengths(o.conversation.messages, p.messages);
    if ShownSlot(p) == Some(slot) {
      assert KeptAt(Left(p), slot) == p.messages;
    } else {
      assert KeptAt(Left(p), slot) == KeptAt(p, slot);
      assert slot.backend == o.backend && slot.id in o.parked ==> slot == Slot(o.backend, slot.id);
    }
  }

  /** A prompt that could not be delivered is meant to be given back. Over any run it is exactly
      when its chat, a session's or one that has none yet, is on screen or parked, and not when
      it was evicted or its backend left. */
  lemma {:induction false} PromptsAreGivenBackWhen(backend: string, archive: Archive, p: Plain, ops: seq<Op>,
                                                   prompt: MessageId, slot: Slot)
    requires ':' !in backend && IsLaunchView(p, backend, archive) && IsFairRun(Launched(backend, archive), ops)
    requires HeldOnlyBy(PlainRun(Launched(backend, archive), p, ops), prompt, slot)
    ensures CanRestore(Run(Launched(backend, archive), ops), prompt)
       <==> IsInReach(Run(Launched(backend, archive), ops), slot)
  {
    var start := Launched(backend, archive);
    ArrivedAgrees(start, p);
    RunsAgree(start, p, ops);
    FoundWhen(Run(start, ops), PlainRun(start, p, ops), prompt, slot);
  }

  // ----- drafts

  lemma {:induction false} DecimalIsInjective(a: nat, b: nat)
    requires Decimal(a) == Decimal(b)
    ensures a == b
  {
    var da, db := Decimal(a), Decimal(b);
    assert da[|da| - 1] == "0123456789"[a % 10] && db[|db| - 1] == "0123456789"[b % 10];
    if a >= 10 && b >= 10 {
      assert da[..|da| - 1] == Decimal(a / 10) && db[..|db| - 1] == Decimal(b / 10);
      DecimalIsInjective(a / 10, b / 10);
    }
  }

  lemma {:induction false} DraftNamesDiffer(a: nat, b: nat)
    requires a != b
    ensures DraftName(a) != DraftName(b)
  {
    if DraftName(a) == DraftName(b) {
      assert Decimal(a) == DraftName(a)[|DRAFT|..] == Decimal(b);
      DecimalIsInjective(a, b);
    }
  }

  /** The draft of an earlier view, no longer parked. */
  predicate IsGone(o: Open, view: nat) {
    view <= o.generation && DraftName(view) !in o.parked && (KeyOf(o).Some? ==> !IsDraft(KeyOf(o).value))
  }

  lemma {:induction false} DepartingKeepsGone(o: Open, view: nat)
    requires IsGone(o, view)
    ensures DraftName(view) !in Departed(o).parked && Departed(o).generation == o.generation + 1
  {
    var key := ParkingKey(NextView(HistoryRecorded(o)));
    DraftNamesDiffer(view, o.generation + 1);
    if key.Some? {
      TrimmedKeeps(o.parked[key.value := o.conversation]);
    }
  }

  lemma {:induction false} StepKeepsGone(o: Open, op: Op, view: nat)
    requires IsGone(o, view) && IsFair(o, op)
    ensures IsGone(Next(o, op), view)
  {
    DepartingKeepsGone(o, view);
  }

  /** Drafts are not archived: once evicted, or left behind with its backend, a draft is out of
      reach for good. */
  lemma {:induction false} GoneDraftsStayGone(o: Open, ops: seq<Op>, view: nat, backend: string)
    requires IsGone(o, view) && IsFairRun(o, ops)
    ensures IsGone(Run(o, ops), view) && !IsInReach(Run(o, ops), Slot(backend, DraftName(view)))
  {
    if ops != [] {
      GoneDraftsStayGone(o, ops[..|ops| - 1], view, backend);
      StepKeepsGone(Run(o, ops[..|ops| - 1]), ops[|ops| - 1], view);
    }
    DraftNamesDiffer(view, Run(o, ops).generation + 1);
  }

  /** Changing the backend loses it from any session: the archive has the prompt, the composer
      does not get it back. */
  lemma {:induction false} ChangingBackendKeepsThePrompt(o: Open, backend: string, id: string, prompt: MessageId)
    requires o.writer && ':' !in o.backend && !IsDraft(id) && KeyOf(o) == Some(id)
    requires backend != o.backend && HasMessage(o.conversation, prompt)
    ensures !CanRestore(Configured(o, backend), prompt)
    ensures HasId(Archived(Configured(o, backend).archive, Slot(o.backend, id)), prompt)
  {
    RecordedAt(o, Slot(o.backend, id));
  }

  // ----- eight at most

  lemma {:induction false} PutAwayIsBounded(o: Open)
    requires |o.parked| <= PARKED_LIMIT
    ensures |PutAway(o).parked| <= PARKED_LIMIT
  {
    var key := ParkingKey(o);
    if key.Some? {
      TrimmedKeeps(o.parked[key.value := o.conversation]);
    }
  }

  lemma {:induction false} DepartedIsBounded(o: Open)
    requires |o.parked| <= PARKED_LIMIT
    ensures |Departed(o).parked| <= PARKED_LIMIT
  {
    PutAwayIsBounded(NextView(HistoryRecorded(o)));
  }

  lemma {:induction false} BroughtBackIsBounded(d: Open, id: Option<string>)
    requires |d.parked| <= PARKED_LIMIT
    ensures |BroughtBack(d, id).parked| <= PARKED_LIMIT
  {
    if id.Some? && id.value in d.parked {
      RemovingShrinks(d.parked, id.value);
    }
  }

  lemma {:induction false} SwitchIsBounded(o: Open, id: Option<string>)
    requires |o.parked| <= PARKED_LIMIT
    ensures |SwitchedTo(o, id).parked| <= PARKED_LIMIT
  {
    DepartedIsBounded(o);
    BroughtBackIsBounded(Departed(o), id);
  }

  lemma {:induction false} StepsStayBounded(o: Open, op: Op)
    requires |o.parked| <= PARKED_LIMIT
    ensures |Next(o, op).parked| <= PARKED_LIMIT
  {
    match op
    case OpenOne(id) => SwitchIsBounded(o, Some(id));
    case NewChat => SwitchIsBounded(o, None);
    case Configure(backend) =>
    case Fold(conversation) =>
    case Attach(live, stored) =>
    case TakeBack(prompt, at) =>
      if at.Some? && HoldsAt(o, prompt, at) {
        assert o.parked[at.value := WithoutMessage(o.parked[at.value], prompt)].Keys == o.parked.Keys;
      }
  }

  /** Eight conversations are kept in memory at most, however long the run. */
  lemma {:induction false} ParkedStaysBounded(backend: string, archive: Archive, ops: seq<Op>)
    ensures |Run(Launched(backend, archive), ops).parked| <= PARKED_LIMIT
  {
    if ops != [] {
      ParkedStaysBounded(backend, archive, ops[..|ops| - 1]);
      StepsStayBounded(Run(Launched(backend, archive), ops[..|ops| - 1]), ops[|ops| - 1]);
    }
  }
}
