/** What the desktop shows and where a prompt would go: the part of its locked state
    that the session protocol reads and writes. `Screen` is the value; `Desktop` is the
    object the source keeps behind its lock, with one method per locked section. */
module Screens {
  import opened Text

  type SessionId = string

  /** A prompt the composer handed over. `home` is the conversation it was typed in. */
  datatype Prompt = Prompt(id: nat, text: string, files: seq<string>, home: nat)

  datatype ComposerAction =
    | ClearDraft
    | Restore(text: string, files: seq<string>)

  datatype Screen = Screen(
    generation: nat,
    backend: nat,
    selected: Option<SessionId>,
    live: Option<SessionId>,
    stored: Option<SessionId>,
    queue: seq<Prompt>,
    composer: seq<ComposerAction>,
    sending: bool,
    turnSeq: nat,
    asking: bool,
    enabled: bool)

  predicate ViewIsCurrent(s: Screen, generation: nat, expected: Option<SessionId>) {
    generation == s.generation && s.selected == expected
  }

  predicate AcceptsTurnEvents(s: Screen) {
    s.live.Some? || s.stored.None?
  }

  // ----- giving queued prompts back

  function TextOf(p: Prompt): seq<string> {
    if IsBlank(p.text) then [] else [p.text]
  }

  function NonBlankTexts(queue: seq<Prompt>): seq<string> {
    if queue == [] then [] else NonBlankTexts(queue[..|queue| - 1]) + TextOf(queue[|queue| - 1])
  }

  function AllFiles(queue: seq<Prompt>): seq<string> {
    if queue == [] then [] else AllFiles(queue[..|queue| - 1]) + queue[|queue| - 1].files
  }

  function JoinParagraphs(texts: seq<string>): string {
    if texts == [] then []
    else if |texts| == 1 then texts[0]
    else texts[0] + "\n\n" + JoinParagraphs(texts[1..])
  }

  /** The draft that gives `queue` back, unless there is nothing in it to give. */
  function RestoreActions(queue: seq<Prompt>): seq<ComposerAction> {
    var texts := NonBlankTexts(queue);
    var files := AllFiles(queue);
    if texts == [] && files == [] then [] else [Restore(JoinParagraphs(texts), files)]
  }

  function ReturnPending(s: Screen): Screen {
    s.(queue := [], composer := s.composer + RestoreActions(s.queue))
  }

  /** A prompt that `submit` lets through carries a trimmed text or a file. */
  predicate CarriesSomething(p: Prompt) {
    Trim(p.text) == p.text && (p.text != [] || p.files != [])
  }

  predicate Contains(whole: string, part: string) {
    exists i, j :: 0 <= i <= j <= |whole| && whole[i..j] == part
  }

  lemma {:induction false} JoinHoldsEachText(texts: seq<string>, k: nat)
    requires k < |texts|
    ensures Contains(JoinParagraphs(texts), texts[k])
  {
    var whole := JoinParagraphs(texts);
    if |texts| == 1 {
      assert whole[0..|whole|] == texts[k];
    } else if k == 0 {
      assert whole[0..|texts[0]|] == texts[k];
    } else {
      JoinHoldsEachText(texts[1..], k - 1);
      var rest := JoinParagraphs(texts[1..]);
      var i, j :| 0 <= i <= j <= |rest| && rest[i..j] == texts[k];
      var lead := |texts[0]| + 2;
      assert whole[lead..] == rest;
      assert whole[lead + i..lead + j] == rest[i..j];
    }
  }

  lemma {:induction false} QueuedContentSurvives(queue: seq<Prompt>, k: nat)
    requires k < |queue|
    ensures !IsBlank(queue[k].text) ==> queue[k].text in NonBlankTexts(queue)
    ensures forall f :: f in queue[k].files ==> f in AllFiles(queue)
  {
    if k < |queue| - 1 {
      QueuedContentSurvives(queue[..|queue| - 1], k);
    }
  }

  /** Leaving a conversation never throws away what was typed for it: every queued
      prompt's text and files are in the draft that is given back, and the early return
      for "nothing to give back" is taken only when the queue was empty. */
  lemma {:induction false} NothingQueuedIsLost(queue: seq<Prompt>)
    requires forall p :: p in queue ==> CarriesSomething(p)
    ensures RestoreActions(queue) == [] <==> queue == []
    ensures forall p :: p in queue ==>
      |RestoreActions(queue)| == 1 && var a := RestoreActions(queue)[0];
      a.Restore? && Contains(a.text, p.text) && (forall f :: f in p.files ==> f in a.files)
  {
    forall p | p in queue
      ensures |RestoreActions(queue)| == 1 && var a := RestoreActions(queue)[0];
        a.Restore? && Contains(a.text, p.text) && (forall f :: f in p.files ==> f in a.files)
    {
      var k :| 0 <= k < |queue| && queue[k] == p;
      QueuedContentSurvives(queue, k);
      var texts := NonBlankTexts(queue);
      if p.text != [] {
        var n :| 0 <= n < |texts| && texts[n] == p.text;
        JoinHoldsEachText(texts, n);
      } else {
        assert JoinParagraphs(texts)[0..0] == p.text;
        assert p.files[0] in AllFiles(queue);
      }
    }
    if queue != [] {
      assert queue[0] in queue;
    }
  }

  // ----- the locked sections, as functions of the state they find

  function Opened(s: Screen, id: SessionId): Screen {
    ReturnPending(s).(generation := s.generation + 1, selected := Some(id), live := None,
                      stored := Some(id), sending := false, asking := false)
  }

  function Vacated(s: Screen): Screen {
    s.(generation := s.generation + 1, selected := None, live := None, stored := None,
       sending := false, asking := false)
  }

  function Blanked(s: Screen): Screen {
    Vacated(ReturnPending(s))
  }

  function Switched(s: Screen, backend: nat): Screen {
    Blanked(s).(backend := backend, enabled := true)
  }

  /** A disconnect advances the view but keeps the screen, its queue included. */
  function Disconnected(s: Screen): Screen {
    s.(generation := s.generation + 1, live := None, sending := false, asking := false)
  }

  datatype Verdict = Ignored | Refused | Answering | Queued | ToSend

  function SubmitVerdict(s: Screen, text: string, files: seq<string>): Verdict {
    if s.asking then (if Trim(text) == [] then Ignored else Answering)
    else if Trim(text) == [] && files == [] then Ignored
    else if !s.enabled then Refused
    else if s.sending then Queued
    else ToSend
  }

  function Submitted(s: Screen, prompt: Prompt, verdict: Verdict): Screen {
    match verdict
    case Ignored | Refused => s
    case Answering | ToSend => s.(composer := s.composer + [ClearDraft])
    case Queued => s.(composer := s.composer + [ClearDraft], queue := s.queue + [prompt])
  }

  function OnScreen(s: Screen): Screen {
    s.(sending := true, turnSeq := s.turnSeq + 1)
  }

  predicate NextIsDue(s: Screen) {
    !s.sending && s.queue != []
  }

  function AfterTurn(s: Screen): Screen {
    s.(asking := false, queue := if NextIsDue(s) then s.queue[1..] else s.queue)
  }

  function TakenBack(s: Screen, prompt: Prompt, turn: nat): Screen {
    s.(sending := s.sending && s.turnSeq != turn,
       composer := s.composer + [Restore(prompt.text, prompt.files)])
  }

  function FirstWithId(queue: seq<Prompt>, id: nat): (i: nat)
    ensures i <= |queue|
    ensures i < |queue| ==> queue[i].id == id
    ensures forall j :: 0 <= j < i ==> queue[j].id != id
  {
    if queue == [] || queue[0].id == id then 0 else 1 + FirstWithId(queue[1..], id)
  }

  function WithoutIndex(queue: seq<Prompt>, i: nat): seq<Prompt>
    requires i < |queue|
  {
    queue[..i] + queue[i + 1..]
  }

  function Edited(s: Screen, id: nat): Screen {
    var i := FirstWithId(s.queue, id);
    if i == |s.queue| then s
    else s.(queue := WithoutIndex(s.queue, i),
            composer := s.composer + [Restore(s.queue[i].text, s.queue[i].files)])
  }

  function MovedToFront(s: Screen, id: nat): Screen {
    var i := FirstWithId(s.queue, id);
    if i == |s.queue| then s else s.(queue := [s.queue[i]] + WithoutIndex(s.queue, i))
  }

  function Keep(queue: seq<Prompt>, id: nat): seq<Prompt> {
    if queue == [] then []
    else
      var rest, last := Keep(queue[..|queue| - 1], id), queue[|queue| - 1];
      if last.id != id then rest + [last] else rest
  }

  function Drop(queue: seq<Prompt>, id: nat): seq<Prompt> {
    if queue == [] then []
    else
      var rest, last := Drop(queue[..|queue| - 1], id), queue[|queue| - 1];
      if last.id == id then rest + [last] else rest
  }

  lemma {:induction false} KeepAndDropPartition(queue: seq<Prompt>, id: nat)
    ensures multiset(queue) == multiset(Keep(queue, id)) + multiset(Drop(queue, id))
    ensures forall p :: p in Keep(queue, id) <==> p in queue && p.id != id
  {
    if queue != [] {
      KeepAndDropPartition(queue[..|queue| - 1], id);
      assert queue == queue[..|queue| - 1] + [queue[|queue| - 1]];
    }
  }

  lemma RemovalIsAPartition(queue: seq<Prompt>, i: nat)
    requires i < |queue|
    ensures multiset(queue) == multiset(WithoutIndex(queue, i)) + multiset{queue[i]}
    ensures forall p :: p in WithoutIndex(queue, i) ==> p in queue
  {
    assert queue == queue[..i] + [queue[i]] + queue[i + 1..];
  }

  function Cancelled(s: Screen, id: nat): Screen {
    s.(queue := Keep(s.queue, id))
  }

  function Attached(s: Screen, id: SessionId): Screen {
    s.(live := Some(id), stored := Some(id))
  }

  function Adopted(s: Screen, id: SessionId): Screen {
    Attached(s, id).(selected := Some(id))
  }

  // ----- the object behind the lock

  method Collect(pending: seq<Prompt>) returns (texts: seq<string>, files: seq<string>)
    ensures texts == NonBlankTexts(pending) && files == AllFiles(pending)
  {
    texts, files := [], [];
    for i := 0 to |pending|
      invariant texts == NonBlankTexts(pending[..i]) && files == AllFiles(pending[..i])
    {
      assert pending[..i + 1][..i] == pending[..i];
      texts := texts + TextOf(pending[i]);
      files := files + pending[i].files;
    }
    assert pending[..|pending|] == pending;
  }

  class Desktop {
    var generation: nat
    var backend: nat
    var selected: Option<SessionId>
    var live: Option<SessionId>
    var stored: Option<SessionId>
    var queue: seq<Prompt>
    var composer: seq<ComposerAction>
    var sending: bool
    var turnSeq: nat
    var asking: bool
    var enabled: bool

    function Snapshot(): Screen
      reads this
    {
      Screen(generation, backend, selected, live, stored, queue, composer, sending, turnSeq,
             asking, enabled)
    }

    constructor (selected: Option<SessionId>, enabled: bool)
      ensures Snapshot()
           == Screen(0, 0, selected, None, selected, [], [], false, 0, false, enabled)
    {
      generation, backend, turnSeq := 0, 0, 0;
      this.selected, live, stored := selected, None, selected;
      queue, composer := [], [];
      sending, asking := false, false;
      this.enabled := enabled;
    }

    method ReturnPendingToComposer()
      modifies this`queue, this`composer
      ensures Snapshot() == ReturnPending(old(Snapshot()))
    {
      var texts, files := Collect(queue);
      queue := [];
      if texts == [] && files == [] {
        return;
      }
      composer := composer + [Restore(JoinParagraphs(texts), files)];
    }

    method Open(id: SessionId) returns (token: nat)
      modifies this
      ensures Snapshot() == Opened(old(Snapshot()), id) && token == generation
    {
      ReturnPendingToComposer();
      generation := generation + 1;
      selected := Some(id);
      asking := false;
      live := None;
      stored := Some(id);
      sending := false;
      token := generation;
    }

    method NewChat() returns (token: nat)
      modifies this
      ensures Snapshot() == Blanked(old(Snapshot())) && token == generation
    {
      generation := generation + 1;
      ReturnPendingToComposer();
      selected := None;
      sending := false;
      asking := false;
      live := None;
      stored := None;
      token := generation;
    }

    method SwitchBackend(next: nat)
      modifies this
      ensures Snapshot() == Switched(old(Snapshot()), next)
    {
      ghost var before := Snapshot();
      generation := generation + 1;
      backend := next;
      enabled := true;
      selected := None;
      sending := false;
      live := None;
      stored := None;
      asking := false;
      assert Snapshot() == Vacated(before).(backend := next, enabled := true);
      ReturnPendingToComposer();
    }

    method Disconnect()
      modifies this
      ensures Snapshot() == Disconnected(old(Snapshot()))
    {
      generation := generation + 1;
      live := None;
      asking := false;
      if sending {
        sending := false;
      }
    }

    method Submit(prompt: Prompt, text: string) returns (verdict: Verdict)
      requires prompt.text == Trim(text)
      modifies this
      ensures verdict == SubmitVerdict(old(Snapshot()), text, prompt.files)
      ensures Snapshot() == Submitted(old(Snapshot()), prompt, verdict)
    {
      if asking {
        if prompt.text == [] {
          return Ignored;
        }
        composer := composer + [ClearDraft];
        return Answering;
      }
      if prompt.text == [] && prompt.files == [] {
        return Ignored;
      }
      if !enabled {
        return Refused;
      }
      composer := composer + [ClearDraft];
      if sending {
        queue := queue + [prompt];
        return Queued;
      }
      return ToSend;
    }

    method TurnOver() returns (next: Option<Prompt>)
      modifies this
      ensures Snapshot() == AfterTurn(old(Snapshot()))
      ensures next == if NextIsDue(old(Snapshot())) then Some(old(queue)[0]) else None
    {
      asking := false;
      if sending || queue == [] {
        next := None;
      } else {
        next := Some(queue[0]);
        queue := queue[1..];
      }
    }

    method TakeBack(prompt: Prompt, turn: nat)
      modifies this
      ensures Snapshot() == TakenBack(old(Snapshot()), prompt, turn)
    {
      if turnSeq == turn {
        sending := false;
      }
      composer := composer + [Restore(prompt.text, prompt.files)];
    }

    method EditQueued(id: nat)
      modifies this
      ensures Snapshot() == Edited(old(Snapshot()), id)
    {
      var i := FirstWithId(queue, id);
      if i == |queue| {
        return;
      }
      var item := queue[i];
      queue := queue[..i] + queue[i + 1..];
      composer := composer + [Restore(item.text, item.files)];
    }

    /** What comes next is outside the lock: the running turn is stopped, and its end sends the
        prompt, or with none running that end is gone through at once. */
    method SendQueuedNow(id: nat) returns (stops: bool, ends: bool)
      modifies this
      ensures Snapshot() == MovedToFront(old(Snapshot()), id)
      ensures stops || ends <==> exists p :: p in old(queue) && p.id == id
      ensures stops ==> sending
      ensures ends ==> !sending && NextIsDue(Snapshot()) && queue[0].id == id
    {
      var i := FirstWithId(queue, id);
      if i == |queue| {
        return false, false;
      }
      assert queue[i] in queue;
      var item := queue[i];
      queue := queue[..i] + queue[i + 1..];
      queue := [item] + queue;
      stops, ends := sending, !sending;
    }

    /** The prompts with the id go, the others stay in their order. */
    method CancelQueued(id: nat)
      modifies this`queue
      ensures Snapshot() == Cancelled(old(Snapshot()), id)
      ensures forall p :: p in queue <==> p in old(queue) && p.id != id
      ensures multiset(old(queue)) == multiset(queue) + multiset(Drop(old(queue), id))
    {
      var kept := [];
      for i := 0 to |queue|
        invariant kept == Keep(queue[..i], id)
      {
        assert queue[..i + 1][..i] == queue[..i];
        if queue[i].id != id {
          kept := kept + [queue[i]];
        }
      }
      assert queue[..|queue|] == queue;
      KeepAndDropPartition(queue, id);
      queue := kept;
    }

    /** The end of a resume: its result is applied only to the view that asked. */
    method AttachIfCurrent(token: nat, expected: Option<SessionId>, id: SessionId)
      returns (current: bool)
      modifies this
      ensures current == ViewIsCurrent(old(Snapshot()), token, expected)
      ensures Snapshot() == if current then Attached(old(Snapshot()), id) else old(Snapshot())
    {
      current := generation == token && selected == expected;
      if current {
        live := Some(id);
        stored := Some(id);
      }
    }

    /** The end of a create: the new session is adopted only by the view that asked. */
    method AdoptIfCurrent(token: nat, id: SessionId) returns (current: bool)
      modifies this
      ensures current == (token == old(generation))
      ensures Snapshot() == if current then Adopted(old(Snapshot()), id) else old(Snapshot())
    {
      current := generation == token;
      if current {
        live := Some(id);
        stored := Some(id);
        selected := Some(id);
      }
    }
  }
}
