/** The phone's open session, the conversations it has put away, and its archive. */
module SessionCache {
  import opened Text
  import opened Conversations

  const PARKED_LIMIT := 8
  const DRAFT := "__draft:"
  const EMPTY := Chat([], map[], false)

  predicate IsDraft(id: string) {
    DRAFT <= id
  }

  function Decimal(n: nat): string {
    if n < 10 then ["0123456789"[n]] else Decimal(n / 10) + ["0123456789"[n % 10]]
  }

  /** The archive files every backend's sessions in one map. */
  function ArchiveKey(backend: string, id: string): string {
    backend + "::" + id
  }

  type Archive = map<string, seq<Message>>

  datatype Open = Open(
    liveId: Option<string>, storedId: Option<string>, generation: nat,
    conversation: Chat, parked: map<string, Chat>,
    backend: string, archive: Archive, writer: bool)

  function KeyOf(o: Open): Option<string> {
    if o.storedId.Some? then o.storedId else o.liveId
  }

  // ----- the order of the keys

  predicate AtMost(a: string, b: string) {
    a == [] || (b != [] && (a[0] < b[0] || (a[0] == b[0] && AtMost(a[1..], b[1..]))))
  }

  lemma {:induction false} AtMostIsTotal(a: string, b: string)
    ensures AtMost(a, b) || AtMost(b, a)
    ensures AtMost(a, b) && AtMost(b, a) ==> a == b
  {
    if a != [] && b != [] && a[0] == b[0] {
      AtMostIsTotal(a[1..], b[1..]);
      assert a == [a[0]] + a[1..] && b == [b[0]] + b[1..];
    }
  }

  lemma {:induction false} AtMostIsTransitive(a: string, b: string, c: string)
    requires AtMost(a, b) && AtMost(b, c)
    ensures AtMost(a, c)
  {
    if a != [] && b != [] && c != [] && a[0] == b[0] == c[0] {
      AtMostIsTransitive(a[1..], b[1..], c[1..]);
    }
  }

  predicate IsFirst(keys: set<string>, k: string) {
    k in keys && forall j :: j in keys ==> AtMost(k, j)
  }

  lemma {:induction false} HasFirst(keys: set<string>) returns (k: string)
    requires keys != {}
    ensures IsFirst(keys, k)
  {
    var some :| some in keys;
    AtMostIsTotal(some, some);
    if keys == {some} {
      k := some;
    } else {
      var least := HasFirst(keys - {some});
      AtMostIsTotal(some, least);
      k := if AtMost(some, least) then some else least;
      forall j | j in keys ensures AtMost(k, j) {
        if j != some {
          AtMostIsTransitive(k, least, j);
        }
      }
    }
  }

  lemma {:induction false} OneFirst(keys: set<string>, j: string, k: string)
    requires IsFirst(keys, j) && IsFirst(keys, k)
    ensures j == k
  {
    AtMostIsTotal(j, k);
  }

  ghost function First(keys: set<string>): (k: string)
    requires keys != {}
    ensures IsFirst(keys, k)
  {
    assert exists k :: IsFirst(keys, k) by {
      var k := HasFirst(keys);
    }
    var k :| IsFirst(keys, k);
    k
  }

  // ----- what each call makes of the state

  lemma ArchiveKeyDecodes(backend: string, id: string)
    ensures backend + "::" <= ArchiveKey(backend, id)
    ensures ArchiveKey(backend, id)[|backend| + 2..] == id
  {
  }

  /** The key is that of one of these sessions of this backend, and not of a draft. */
  predicate Files(backend: string, ids: set<string>, key: string) {
    backend + "::" <= key && key[|backend| + 2..] in ids && !IsDraft(key[|backend| + 2..])
  }

  /** `parked` in the archive, as far as `ids` goes. */
  function Filed(archive: Archive, backend: string, parked: map<string, Chat>, ids: set<string>): Archive
    requires ids <= parked.Keys
  {
    map key | key in archive.Keys + (set id | id in ids && !IsDraft(id) :: ArchiveKey(backend, id)) ::
      if Files(backend, ids, key) then parked[key[|backend| + 2..]].messages
      else if key in archive then archive[key]
      else []
  }

  function HistoryRecorded(o: Open): Open {
    if !o.writer then o
    else
      var filed := Filed(o.archive, o.backend, o.parked, o.parked.Keys);
      o.(archive := if KeyOf(o).Some? then filed[ArchiveKey(o.backend, KeyOf(o).value) := o.conversation.messages]
                    else filed)
  }

  /** Over the limit, the first in key order go. */
  ghost function Trimmed(parked: map<string, Chat>): map<string, Chat>
    decreases |parked|
  {
    if |parked| <= PARKED_LIMIT then parked
    else
      var first := First(parked.Keys);
      RemovingShrinks(parked, first);
      Trimmed(parked - {first})
  }

  lemma RemovingShrinks(parked: map<string, Chat>, k: string)
    requires k in parked
    ensures |parked - {k}| == |parked| - 1
  {
    assert (parked - {k}).Keys == parked.Keys - {k};
  }

  /** A chat without an id is put away under the view it belonged to, if there is anything in it. */
  function ParkingKey(o: Open): Option<string> {
    if KeyOf(o).Some? then KeyOf(o)
    else if o.conversation.messages != [] then Some(DRAFT + Decimal(o.generation))
    else None
  }

  function ClearStreaming(ms: seq<Message>): seq<Message> {
    seq(|ms|, i requires 0 <= i < |ms| => ms[i].(isStreaming := false))
  }

  ghost function PutAway(o: Open): Open {
    var key := ParkingKey(o);
    if key.Some? then o.(conversation := EMPTY, parked := Trimmed(o.parked[key.value := o.conversation])) else o
  }

  function BroughtBack(o: Open, id: Option<string>): Open {
    var back := if id.Some? && id.value in o.parked
                then o.(conversation := o.parked[id.value], parked := o.parked - {id.value})
                else o.(conversation := EMPTY);
    if back.conversation.messages == [] && id.Some? && ArchiveKey(o.backend, id.value) in o.archive
    then back.(conversation := TranscriptSet(back.conversation,
                                             ClearStreaming(o.archive[ArchiveKey(o.backend, id.value)])))
    else back
  }

  function NextView(o: Open): Open {
    o.(generation := o.generation + 1)
  }

  ghost function Departed(o: Open): Open {
    PutAway(NextView(HistoryRecorded(o)))
  }

  ghost function SwitchedTo(o: Open, id: Option<string>): Open {
    BroughtBack(Departed(o), id)
  }

  /** Opening a session: the caller gives the view its id. */
  ghost function Opened(o: Open, id: string): Open {
    SwitchedTo(o, Some(id)).(liveId := None, storedId := Some(id))
  }

  ghost function Blanked(o: Open): Open {
    SwitchedTo(o, None).(liveId := None, storedId := None)
  }

  ghost function Configured(o: Open, backend: string): Open {
    if o.backend == backend then o
    else SwitchedTo(o, None).(parked := map[], liveId := None, storedId := None, backend := backend)
  }

  function Attached(o: Open, live: string, stored: Option<string>): Open {
    HistoryRecorded(o.(liveId := Some(live), storedId := if stored.Some? then stored else Some(live)))
  }

  predicate HasId(ms: seq<Message>, id: MessageId) {
    FirstWithId(ms, id) < |ms|
  }

  function WithoutId(ms: seq<Message>, id: MessageId): seq<Message>
    requires HasId(ms, id)
  {
    var i := FirstWithId(ms, id);
    ms[..i] + ms[i + 1..]
  }

  predicate HasMessage(c: Chat, id: MessageId) {
    HasId(c.messages, id)
  }

  function WithoutMessage(c: Chat, id: MessageId): Chat
    requires HasMessage(c, id)
  {
    TurnFinished(c.(messages := WithoutId(c.messages, id)))
  }

  /** A prompt that could not be delivered is looked for on screen and in what is parked. */
  predicate CanRestore(o: Open, prompt: MessageId) {
    HasMessage(o.conversation, prompt) || exists k :: k in o.parked && HasMessage(o.parked[k], prompt)
  }

  predicate HoldsAt(o: Open, prompt: MessageId, at: Option<string>) {
    if at.Some? then at.value in o.parked && HasMessage(o.parked[at.value], prompt)
    else HasMessage(o.conversation, prompt)
  }

  function Restored(o: Open, prompt: MessageId, at: Option<string>): Open {
    if !HoldsAt(o, prompt, at) then o
    else if at.None? then HistoryRecorded(o.(conversation := WithoutMessage(o.conversation, prompt)))
    else
      HistoryRecorded(o.(parked := o.parked[at.value := WithoutMessage(o.parked[at.value], prompt)]))
  }

  method FileParked(archive: Archive, backend: string, parked: map<string, Chat>) returns (all: Archive)
    ensures all == Filed(archive, backend, parked, parked.Keys)
  {
    all := archive;
    var done: set<string> := {};
    assert all == Filed(archive, backend, parked, done) by {
      forall key ensures (key in all <==> key in Filed(archive, backend, parked, done)) {
        FiledAt(archive, backend, parked, done, key);
      }
    }
    while done != parked.Keys
      invariant done <= parked.Keys
      invariant all == Filed(archive, backend, parked, done)
      decreases parked.Keys - done
    {
      var id :| id in parked && id !in done;
      FileOne(archive, backend, parked, done, id);
      if !IsDraft(id) {
        all := all[ArchiveKey(backend, id) := parked[id].messages];
      }
      done := done + {id};
    }
  }

  class OpenSession {
    var liveId: Option<string>
    var storedId: Option<string>
    var generation: nat
    var conversation: Chat
    var parked: map<string, Chat>
    var backend: string
    var archive: Archive
    var writer: bool

    ghost function Snapshot(): Open
      reads this
    {
      Open(liveId, storedId, generation, conversation, parked, backend, archive, writer)
    }

    constructor (backend: string, archive: Archive, writer: bool)
      ensures Snapshot() == Open(None, None, 0, EMPTY, map[], backend, archive, writer)
    {
      liveId, storedId, generation := None, None, 0;
      conversation, parked := EMPTY, map[];
      this.backend, this.archive, this.writer := backend, archive, writer;
    }

    method Key() returns (key: Option<string>)
      ensures key == KeyOf(Snapshot())
    {
      key := if storedId.Some? then storedId else liveId;
    }

    method RecordHistory()
      modifies this`archive
      ensures Snapshot() == HistoryRecorded(old(Snapshot()))
    {
      if !writer {
        return;
      }
      var all := FileParked(archive, backend, parked);
      var key := Key();
      if key.Some? {
        all := all[ArchiveKey(backend, key.value) := conversation.messages];
      }
      archive := all;
    }

    method TrimParked()
      modifies this`parked
      ensures parked == Trimmed(old(parked))
    {
      while |parked| > PARKED_LIMIT
        invariant Trimmed(parked) == Trimmed(old(parked))
        decreases |parked|
      {
        ghost var first := HasFirst(parked.Keys);
        var oldest :| oldest in parked.Keys && IsFirst(parked.Keys, oldest);
        TrimOne(parked, oldest);
        parked := parked - {oldest};
      }
    }

    method ParkConversation()
      modifies this`conversation, this`parked
      ensures Snapshot() == PutAway(old(Snapshot()))
    {
      var key := Key();
      if key.None? && conversation.messages != [] {
        key := Some(DRAFT + Decimal(generation));
      }
      if key.Some? {
        parked := parked[key.value := conversation];
        conversation := EMPTY;
        TrimParked();
      }
    }

    method BringBack(id: Option<string>)
      modifies this`conversation, this`parked
      ensures Snapshot() == BroughtBack(old(Snapshot()), id)
    {
      if id.Some? && id.value in parked {
        conversation := parked[id.value];
        parked := parked - {id.value};
      } else {
        conversation := EMPTY;
      }
      if conversation.messages == [] && id.Some? && ArchiveKey(backend, id.value) in archive {
        var messages := ClearStreaming(archive[ArchiveKey(backend, id.value)]);
        conversation := TranscriptSet(conversation, messages);
      }
    }

    method Depart()
      modifies this
      ensures Snapshot() == Departed(old(Snapshot()))
    {
      ghost var before := Snapshot();
      RecordHistory();
      assert Snapshot() == HistoryRecorded(before);
      generation := generation + 1;
      assert Snapshot() == NextView(HistoryRecorded(before));
      ParkConversation();
    }

    method SwitchTo(id: Option<string>) returns (view: nat)
      modifies this
      ensures Snapshot() == SwitchedTo(old(Snapshot()), id)
      ensures view == generation
    {
      Depart();
      BringBack(id);
      view := generation;
    }

    method OpenOn(id: string)
      modifies this
      ensures Snapshot() == Opened(old(Snapshot()), id)
    {
      var _ := SwitchTo(Some(id));
      liveId := None;
      storedId := Some(id);
    }

    method NewSession()
      modifies this
      ensures Snapshot() == Blanked(old(Snapshot()))
      ensures KeyOf(Snapshot()) == None && conversation == EMPTY
    {
      var _ := SwitchTo(None);
      liveId, storedId := None, None;
    }

    method Configure(kind: string)
      modifies this
      ensures Snapshot() == Configured(old(Snapshot()), kind)
    {
      if backend != kind {
        var _ := SwitchTo(None);
        parked := map[];
        liveId, storedId := None, None;
        backend := kind;
      }
    }

    method Attach(live: string, stored: Option<string>)
      modifies this
      ensures Snapshot() == Attached(old(Snapshot()), live, stored)
    {
      liveId := Some(live);
      storedId := if stored.Some? then stored else Some(live);
      RecordHistory();
    }

    /** The prompt may have been parked since it was sent. The composer gets its draft and
        files back exactly when it is found. */
    method RestorePrompt(prompt: MessageId) returns (found: bool, at: Option<string>)
      modifies this
      ensures found <==> CanRestore(old(Snapshot()), prompt)
      ensures found ==> HoldsAt(old(Snapshot()), prompt, at)
      ensures HasMessage(old(conversation), prompt) ==> at == None
      ensures Snapshot() == if found then Restored(old(Snapshot()), prompt, at) else old(Snapshot())
    {
      found, at := true, None;
      if HasMessage(conversation, prompt) {
        conversation := WithoutMessage(conversation, prompt);
      } else if k :| k in parked && HasMessage(parked[k], prompt) {
        parked := parked[k := WithoutMessage(parked[k], prompt)];
        at := Some(k);
      } else {
        return false, None;
      }
      RecordHistory();
    }
  }

  lemma {:induction false} FiledAt(archive: Archive, backend: string, parked: map<string, Chat>,
                                   ids: set<string>, key: string)
    requires ids <= parked.Keys
    ensures var filed := Filed(archive, backend, parked, ids);
      if Files(backend, ids, key) then key in filed && filed[key] == parked[key[|backend| + 2..]].messages
      else (key in filed <==> key in archive) && (key in archive ==> filed[key] == archive[key])
  {
    if Files(backend, ids, key) {
      var id := key[|backend| + 2..];
      assert ArchiveKey(backend, id) == key;
    } else {
      forall id | id in ids && !IsDraft(id) ensures ArchiveKey(backend, id) != key {
        ArchiveKeyDecodes(backend, id);
      }
    }
  }

  lemma {:induction false} FileOne(archive: Archive, backend: string, parked: map<string, Chat>,
                                   ids: set<string>, id: string)
    requires ids <= parked.Keys && id in parked && id !in ids
    ensures Filed(archive, backend, parked, ids + {id})
         == if IsDraft(id) then Filed(archive, backend, parked, ids)
            else Filed(archive, backend, parked, ids)[ArchiveKey(backend, id) := parked[id].messages]
  {
    ArchiveKeyDecodes(backend, id);
    var before, after := Filed(archive, backend, parked, ids), Filed(archive, backend, parked, ids + {id});
    var right := if IsDraft(id) then before else before[ArchiveKey(backend, id) := parked[id].messages];
    forall key ensures (key in after <==> key in right) && (key in after ==> after[key] == right[key]) {
      FiledAt(archive, backend, parked, ids, key);
      FiledAt(archive, backend, parked, ids + {id}, key);
      if key != ArchiveKey(backend, id) && backend + "::" <= key {
        assert key[|backend| + 2..] == id ==> key == ArchiveKey(backend, id);
      }
    }
    assert after == right;
  }

  lemma {:induction false} TrimOne(parked: map<string, Chat>, first: string)
    requires |parked| > PARKED_LIMIT && IsFirst(parked.Keys, first)
    ensures Trimmed(parked) == Trimmed(parked - {first})
  {
    OneFirst(parked.Keys, first, First(parked.Keys));
  }
}
