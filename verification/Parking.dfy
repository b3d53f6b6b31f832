/** Which conversations the phone keeps whole, and what it makes of the others. */
module Parking {
  import opened Text
  import opened Conversations
  import opened SessionCache
  import opened CacheRefinement

  // ----- who is evicted

  /** The keys that come after this one. */
  ghost function Later(keys: set<string>, id: string): set<string> {
    set k | k in keys && k != id && AtMost(id, k)
  }

  lemma {:induction false} FirstComesBeforeAll(keys: set<string>, first: string, id: string)
    requires IsFirst(keys, first) && id in keys
    ensures if id == first then Later(keys, id) == keys - {id} else Later(keys - {first}, id) == Later(keys, id)
  {
    AtMostIsTotal(id, first);
  }

  /** Trimming keeps exactly the conversations that fewer than eight others come after. */
  lemma {:induction false} LastKeysAreKept(parked: map<string, Chat>, id: string)
    ensures id in Trimmed(parked) <==> id in parked && |Later(parked.Keys, id)| < PARKED_LIMIT
    ensures id in Trimmed(parked) ==> Trimmed(parked)[id] == parked[id]
    decreases |parked|
  {
    var keys := parked.Keys;
    if |parked| <= PARKED_LIMIT {
      if id in parked {
        Fewer(Later(keys, id), keys, id);
      }
    } else {
      var first := First(keys);
      RemovingShrinks(parked, first);
      LastKeysAreKept(parked - {first}, id);
      assert (parked - {first}).Keys == keys - {first};
      if id in parked {
        FirstComesBeforeAll(keys, first, id);
      }
    }
  }

  lemma {:induction false} Fewer(some: set<string>, all: set<string>, k: string)
    requires some <= all && k in all && k !in some
    ensures |some| < |all|
  {
    SubsetIsNoLarger(some, all - {k});
  }

  lemma {:induction false} SubsetIsNoLarger(some: set<string>, all: set<string>)
    requires some <= all
    ensures |some| <= |all|
  {
    if some != {} {
      var k :| k in some;
      SubsetIsNoLarger(some - {k}, all - {k});
    }
  }

  // ----- leaving a session and coming back

  /** Of the session on screen and the parked ones, leaving it parks it, whole, exactly when
      fewer than eight of the parked ones come after it. */
  lemma {:induction false} LeftSessionIsParkedWhen(o: Open, id: string)
    requires KeyOf(o) == Some(id)
    ensures id in Departed(o).parked <==> |Later(o.parked.Keys, id)| < PARKED_LIMIT
    ensures id in Departed(o).parked ==> Departed(o).parked[id] == o.conversation
  {
    var parked := o.parked[id := o.conversation];
    DepartedParks(o);
    LastKeysAreKept(parked, id);
    assert Later(parked.Keys, id) == Later(o.parked.Keys, id);
  }

  /** The step neither goes to the session nor takes anything out of it. */
  predicate IsElsewhere(op: Op, id: string) {
    match op
    case OpenOne(other) => other != id
    case Attach(live, stored) => (if stored.Some? then stored.value else live) != id
    case TakeBack(_, at) => at != Some(id)
    case _ => true
  }

  predicate AreElsewhere(ops: seq<Op>, id: string) {
    forall op :: op in ops ==> IsElsewhere(op, id)
  }

  /** The session is not on screen, and as long as it is parked it is as it was. */
  predicate IsUntouched(o: Open, id: string, chat: Chat) {
    KeyOf(o) != Some(id) && (id in o.parked ==> o.parked[id] == chat)
  }

  lemma {:induction false} DepartingLeavesParked(o: Open, id: string, chat: Chat)
    requires !IsDraft(id) && (KeyOf(o) == Some(id) ==> o.conversation == chat)
    requires KeyOf(o) == Some(id) || (id in o.parked ==> o.parked[id] == chat)
    ensures id in Departed(o).parked ==> Departed(o).parked[id] == chat
  {
    DepartedParks(o);
    var key := ParkingKey(NextView(o));
    if key.Some? {
      TrimmedKeeps(o.parked[key.value := o.conversation]);
    }
  }

  lemma {:induction false} StepLeavesUntouched(o: Open, op: Op, id: string, chat: Chat)
    requires !IsDraft(id) && IsElsewhere(op, id)
    requires if KeyOf(o) == Some(id) then o.conversation == chat && (op.OpenOne? || op.NewChat?)
             else IsUntouched(o, id, chat)
    ensures IsUntouched(Next(o, op), id, chat)
  {
    if op.OpenOne? || op.NewChat? || op.Configure? {
      DepartingLeavesParked(o, id, chat);
    }
  }

  /** Leaving a session and doing anything elsewhere: as long as it is still parked, coming
      back shows the whole conversation, with what streams and the turn in flight. */
  lemma {:induction false} ParkedSessionsComeBackWhole(o: Open, ops: seq<Op>, id: string)
    requires KeyOf(o) == Some(id) && !IsDraft(id) && o.conversation.messages != []
    requires ops != [] && (ops[0].OpenOne? || ops[0].NewChat?) && AreElsewhere(ops, id)
    ensures var now := Run(o, ops);
      id in Departed(now).parked ==> Opened(now, id).conversation == o.conversation
    ensures id !in Opened(Run(o, ops), id).parked
  {
    RunsLeaveUntouched(o, ops, id);
    DepartingLeavesParked(Run(o, ops), id, o.conversation);
  }

  lemma {:induction false} RunsLeaveUntouched(o: Open, ops: seq<Op>, id: string)
    requires KeyOf(o) == Some(id) && !IsDraft(id)
    requires ops != [] && (ops[0].OpenOne? || ops[0].NewChat?) && AreElsewhere(ops, id)
    ensures IsUntouched(Run(o, ops), id, o.conversation)
  {
    var before, op := ops[..|ops| - 1], ops[|ops| - 1];
    assert op in ops;
    if before == [] {
      assert Run(o, before) == o;
    } else {
      assert AreElsewhere(before, id);
      RunsLeaveUntouched(o, before, id);
    }
    StepLeavesUntouched(Run(o, before), op, id, o.conversation);
  }

  // ----- coming back from the archive

  predicate NothingStreams(c: Chat) {
    c.streams == map[] && !c.sending && forall m :: m in c.messages ==> !m.isStreaming
  }

  /** A session that is not parked any more has no turn in flight: it comes back settled. */
  lemma {:induction false} ArchivedSessionsComeBackSettled(o: Open, id: string)
    requires id !in Departed(o).parked
    ensures NothingStreams(Opened(o, id).conversation)
  {
    var d := Departed(o);
    assert TranscriptSet(EMPTY, ClearStreaming([])) == EMPTY;
    if ArchiveKey(d.backend, id) in d.archive {
      var filed := d.archive[ArchiveKey(d.backend, id)];
      assert forall m :: m in ClearStreaming(filed) ==> !m.isStreaming;
    }
  }

  // ----- what a call leaves behind

  /** After an answer of the backend and after a prompt is taken back, the archive has what the
      session on screen shows. */
  lemma {:induction false} ScreenIsArchived(o: Open, op: Op)
    requires o.writer && (op.Attach? || (op.TakeBack? && HoldsAt(o, op.prompt, op.at)))
    ensures var now := Next(o, op);
      KeyOf(now).Some? ==> Archived(now.archive, Slot(o.backend, KeyOf(now).value)) == now.conversation.messages
    ensures op.Attach? ==> Next(o, op).liveId == Some(op.live)
  {
  }

  /** A prompt that is taken back has no turn any more. */
  lemma {:induction false} TakenBackChatsAreSettled(o: Open, prompt: MessageId, at: Option<string>)
    requires HoldsAt(o, prompt, at)
    ensures var now := Restored(o, prompt, at);
      var chat := if at.Some? then now.parked[at.value] else now.conversation;
      chat.streams == map[] && !chat.sending && forall m :: m in chat.messages && m.role == Assistant ==> !m.isStreaming
  {
    var chat := if at.Some? then o.parked[at.value] else o.conversation;
    PrunedAreSettled(WithoutId(chat.messages, prompt));
  }

  lemma {:induction false} PrunedAreSettled(ms: seq<Message>)
    ensures forall m :: m in Prune(Settle(ms)) && m.role == Assistant ==> !m.isStreaming
  {
    if ms != [] {
      PrunedAreSettled(ms[..|ms| - 1]);
      assert Settle(ms)[..|ms| - 1] == Settle(ms[..|ms| - 1]);
    }
  }

  lemma {:induction false} StepNeverWrites(o: Open, op: Op)
    requires !o.writer
    ensures Next(o, op).archive == o.archive && !Next(o, op).writer
  {
    hide Trimmed;
    hide Filed;
  }

  /** A client that does not own the archive never writes it. */
  lemma {:induction false} ReadersNeverWrite(o: Open, ops: seq<Op>)
    requires !o.writer
    ensures Run(o, ops).archive == o.archive && !Run(o, ops).writer
  {
    if ops != [] {
      hide Next;
      ReadersNeverWrite(o, ops[..|ops| - 1]);
      StepNeverWrites(Run(o, ops[..|ops| - 1]), ops[|ops| - 1]);
    }
  }

  /** Going anywhere, nothing is live until the backend has answered, and only an opened
      session has a name. */
  lemma {:induction false} NothingIsLiveAfterLeaving(o: Open, id: string, backend: string)
    ensures Opened(o, id).liveId == None && KeyOf(Opened(o, id)) == Some(id)
    ensures KeyOf(Blanked(o)) == None && Blanked(o).conversation == EMPTY
    ensures backend != o.backend ==>
      KeyOf(Configured(o, backend)) == None && Configured(o, backend).conversation == EMPTY
      && Configured(o, backend).parked == map[]
  {
  }
}
