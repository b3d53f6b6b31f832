/** Which conversation is on screen, over whole runs: opening a session comes back to the
    conversation it was, and a chat without one becomes the session it creates. */
module Chats {
  import opened Text
  import opened Screens
  import opened Protocol
  import opened ScopeAgreement

  predicate LeavesChat(step: Step) {
    step.OpenSession? || step.NewChat? || step.SwitchBackend?
  }

  /** The session the chat on screen makes its own in this step. */
  function AdoptedBy(w: World, step: Step): Option<SessionId>
    requires Enabled(w, step)
  {
    if step.Run? && IsAdopter(w, w.tasks[step.task]) then Some(w.tasks[step.task].pc.phase.session) else None
  }

  // ----- conversations and their sessions

  /** Conversation `chat` is session `s`, or has none. */
  predicate IsSessionOf(log: Log, chat: nat, s: Option<SessionId>) {
    && chat < log.chats
    && if s.Some? then s.value in log.chatOf && log.chatOf[s.value] == chat
       else forall id :: id in log.chatOf ==> log.chatOf[id] != chat
  }

  predicate ChatsOk(w: World) {
    && (forall id :: id in w.log.chatOf ==> w.log.chatOf[id] < w.log.chats)
    && (forall a, b :: a in w.log.chatOf && b in w.log.chatOf && w.log.chatOf[a] == w.log.chatOf[b] ==> a == b)
    && IsSessionOf(w.log, w.log.chat, w.screen.stored)
  }

  lemma {:induction false} InitChatsOk(w: World)
    requires Init(w)
    ensures ChatsOk(w)
  {
  }

  /** Nothing here moves but by leaving the chat or by adopting a session. */
  predicate SameChat(w: World, w': World) {
    && w'.screen.stored == w.screen.stored && w'.log.chat == w.log.chat
    && w'.log.chats == w.log.chats && w'.log.chatOf == w.log.chatOf
  }

  predicate Adopts(w: World, w': World, id: SessionId) {
    && w.screen.stored == None && w'.screen.stored == Some(id) && w'.log.chat == w.log.chat
    && w'.log.chats == w.log.chats && w'.log.chatOf == w.log.chatOf[id := w.log.chat]
  }

  predicate SectionMoves(w: World, w': World, adopted: Option<SessionId>) {
    if adopted.Some? then Adopts(w, w', adopted.value) else SameChat(w, w')
  }

  lemma {:induction false} OpenMoves(w: World, i: nat, c: Choice)
    requires Safe(w) && Enabled(w, Run(i, c)) && w.tasks[i].job.Open?
    ensures SameChat(w, RunOpen(w, i, c))
  {
    assert TaskOk(w, i);
  }

  lemma {:induction false} CreatedMoves(w: World, i: nat, c: Choice)
    requires Safe(w) && Enabled(w, Run(i, c)) && w.tasks[i].job.Deliver?
    requires w.tasks[i].pc.Holding? && w.tasks[i].pc.phase.Created?
    ensures SectionMoves(w, RunDeliver(w, i, c), AdoptedBy(w, Run(i, c)))
  {
    assert TaskOk(w, i);
  }

  lemma {:induction false} DeliverStays(w: World, i: nat, c: Choice)
    requires Safe(w) && Enabled(w, Run(i, c)) && w.tasks[i].job.Deliver?
    requires w.tasks[i].pc.Holding? ==> !w.tasks[i].pc.phase.Created?
    ensures SameChat(w, RunDeliver(w, i, c))
  {
    assert TaskOk(w, i);
  }

  lemma {:induction false} DeliverMoves(w: World, i: nat, c: Choice)
    requires Safe(w) && Enabled(w, Run(i, c)) && w.tasks[i].job.Deliver?
    ensures SectionMoves(w, RunDeliver(w, i, c), AdoptedBy(w, Run(i, c)))
  {
    if w.tasks[i].pc.Holding? && w.tasks[i].pc.phase.Created? {
      CreatedMoves(w, i, c);
    } else {
      DeliverStays(w, i, c);
    }
  }

  lemma {:induction false} StepMoves(w: World, step: Step)
    requires Safe(w) && Enabled(w, step) && !LeavesChat(step)
    ensures SectionMoves(w, Next(w, step), AdoptedBy(w, step))
  {
    if step.Run? {
      match w.tasks[step.task].job
      case Open(_, _) => OpenMoves(w, step.task, step.choice);
      case Deliver(_, _, _) => DeliverMoves(w, step.task, step.choice);
      case _ =>
    }
  }

  lemma {:induction false} LeavingKeepsChatsOk(w: World, step: Step)
    requires ChatsOk(w) && LeavesChat(step)
    ensures ChatsOk(Next(w, step))
  {
  }

  lemma {:induction false} StepKeepsChatsOk(w: World, step: Step)
    requires Safe(w) && ChatsOk(w) && Enabled(w, step)
    ensures ChatsOk(Next(w, step))
  {
    if LeavesChat(step) {
      LeavingKeepsChatsOk(w, step);
    } else {
      StepMoves(w, step);
    }
  }

  /** In every run the conversation on screen is the one its session is known to be, and no
      two sessions are the same conversation. */
  lemma {:induction false} RunsKeepChatsOk(w: World, steps: seq<Step>)
    requires Safe(w) && ChatsOk(w) && IsRun(w, steps)
    ensures Safe(After(w, steps)) && ChatsOk(After(w, steps))
    decreases |steps|
  {
    if steps != [] {
      StepsKeepSafe(w, steps[0]);
      StepKeepsChatsOk(w, steps[0]);
      RunsKeepChatsOk(Next(w, steps[0]), steps[1..]);
    }
  }

  // ----- leaving and coming home

  function LastLeaving(steps: seq<Step>): Option<Step> {
    if steps == [] then None
    else if LastLeaving(steps[1..]).Some? then LastLeaving(steps[1..])
    else if LeavesChat(steps[0]) then Some(steps[0])
    else None
  }

  /** The session the chat on screen has, or has come to have, when it is first left. */
  function SessionWhenLeft(w: World, steps: seq<Step>): Option<SessionId>
    requires IsRun(w, steps)
    decreases |steps|
  {
    if steps == [] || LeavesChat(steps[0]) then w.screen.stored
    else SessionWhenLeft(Next(w, steps[0]), steps[1..])
  }

  /** A session that a backend creates for another conversation is not called like `s`. */
  predicate IsOnlyAdoptedBy(w: World, steps: seq<Step>, chat: nat, s: Option<SessionId>)
    requires IsRun(w, steps)
    decreases |steps|
  {
    steps == [] || s == None
    || ((AdoptedBy(w, steps[0]) == s ==> w.log.chat == chat)
        && IsOnlyAdoptedBy(Next(w, steps[0]), steps[1..], chat, s))
  }

  predicate Opens(step: Step, s: Option<SessionId>) {
    step.OpenSession? && s == Some(step.session)
  }

  /** No step leaves the chat, or the last one that does opens the session the chat was. */
  predicate ComesHome(w: World, steps: seq<Step>)
    requires IsRun(w, steps)
  {
    LastLeaving(steps) == None || Opens(LastLeaving(steps).value, SessionWhenLeft(w, steps))
  }

  lemma {:induction false} LeavingEnters(w: World, step: Step, chat: nat, s: Option<SessionId>)
    requires ChatsOk(w) && LeavesChat(step) && IsSessionOf(w.log, chat, s)
    ensures var w' := Next(w, step);
      IsSessionOf(w'.log, chat, s) && (w'.log.chat == chat <==> Opens(step, s))
  {
  }

  lemma {:induction false} StayingKeepsSession(w: World, step: Step, chat: nat, s: Option<SessionId>)
    requires Safe(w) && ChatsOk(w) && Enabled(w, step) && !LeavesChat(step) && IsSessionOf(w.log, chat, s)
    requires if s == None then w.log.chat != chat else AdoptedBy(w, step) == s ==> w.log.chat == chat
    ensures var w' := Next(w, step);
      IsSessionOf(w'.log, chat, s) && w'.log.chat == w.log.chat
  {
    StepMoves(w, step);
  }

  /** Once a conversation was left, it is on screen exactly after its session is opened. */
  lemma {:induction false} BackWhen(w: World, steps: seq<Step>, chat: nat, s: Option<SessionId>)
    requires Safe(w) && ChatsOk(w) && IsRun(w, steps)
    requires IsSessionOf(w.log, chat, s) && (s == None ==> w.log.chat != chat)
    requires IsOnlyAdoptedBy(w, steps, chat, s)
    ensures IsSessionOf(After(w, steps).log, chat, s)
    ensures After(w, steps).log.chat == chat
       <==> if LastLeaving(steps).Some? then Opens(LastLeaving(steps).value, s) else w.log.chat == chat
    decreases |steps|
  {
    if steps != [] {
      if LeavesChat(steps[0]) {
        LeavingEnters(w, steps[0], chat, s);
      } else {
        StayingKeepsSession(w, steps[0], chat, s);
      }
      StepsKeepSafe(w, steps[0]);
      StepKeepsChatsOk(w, steps[0]);
      BackWhen(Next(w, steps[0]), steps[1..], chat, s);
    }
  }

  /** From any state: after a run the conversation that was on screen is on screen exactly when
      no step left it, or the last one that did opened the session it has, whether it had that
      session from the start or created it before it was left. */
  lemma {:induction false} AtHomeWhen(w: World, steps: seq<Step>)
    requires Safe(w) && ChatsOk(w) && IsRun(w, steps)
    requires IsOnlyAdoptedBy(w, steps, w.log.chat, SessionWhenLeft(w, steps))
    ensures IsSessionOf(After(w, steps).log, w.log.chat, SessionWhenLeft(w, steps))
    ensures After(w, steps).log.chat == w.log.chat <==> ComesHome(w, steps)
    decreases |steps|
  {
    if steps != [] {
      var w1, s := Next(w, steps[0]), SessionWhenLeft(w, steps);
      StepsKeepSafe(w, steps[0]);
      StepKeepsChatsOk(w, steps[0]);
      if LeavesChat(steps[0]) {
        LeavingEnters(w, steps[0], w.log.chat, s);
        BackWhen(w1, steps[1..], w.log.chat, s);
      } else {
        StepMoves(w, steps[0]);
        AtHomeWhen(w1, steps[1..]);
      }
    }
  }

  /** A session is on screen exactly when its conversation is. */
  lemma {:induction false} SessionIsShownWhen(w: World, chat: nat, id: SessionId)
    requires ChatsOk(w) && IsSessionOf(w.log, chat, Some(id))
    ensures w.screen.stored == Some(id) <==> w.log.chat == chat
  {
  }
}
