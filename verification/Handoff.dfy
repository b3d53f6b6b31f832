/** `after_turn` pops the next queued prompt under one lock and `send` takes the lock again.
    A queued prompt is meant never to start in a conversation it was not typed in; between
    those two sections that promise can break, and this module says exactly when. A session
    that was left and opened again is the same conversation. */
module Handoff {
  import opened Text
  import opened Screens
  import opened Protocol
  import opened ScopeAgreement
  import opened Routing
  import opened Chats
  import opened Completion

  predicate SendPending(w: World) {
    exists i :: 0 <= i < |w.tasks| && w.tasks[i].job.Send?
  }

  /** No step leaves the chat between a prompt's two sections. */
  predicate NeverInterrupted(w: World, steps: seq<Step>)
    requires IsRun(w, steps)
    decreases |steps|
  {
    steps == []
    || ((LeavesChat(steps[0]) ==> !SendPending(w)) && NeverInterrupted(Next(w, steps[0]), steps[1..]))
  }

  predicate IsHome(s: Showing) {
    s.chat == s.prompt.home
  }

  predicate HomeOk(w: World) {
    && (forall p :: p in w.screen.queue ==> p.home == w.log.chat)
    && (forall i :: 0 <= i < |w.tasks| && w.tasks[i].job.Send? ==>
          w.tasks[i].job.prompt.home == w.log.chat)
    && (forall s :: s in w.log.shown ==> IsHome(s))
  }

  /** A queue without new prompts keeps everything at home. */
  lemma {:induction false} ShorterQueueKeepsHome(w: World, w': World)
    requires HomeOk(w) && w'.tasks == w.tasks && w'.log.chat == w.log.chat && w'.log.shown == w.log.shown
    requires forall p :: p in w'.screen.queue ==> p in w.screen.queue
    ensures HomeOk(w')
  {
  }

  lemma {:induction false} QueueEditsAddNothing(w: World, step: Step)
    requires step.CancelQueued? || step.EditQueued? || step.SendQueuedNow?
    ensures forall p :: p in Next(w, step).screen.queue ==> p in w.screen.queue
  {
    var i := FirstWithId(w.screen.queue, step.id);
    if step.CancelQueued? {
      KeepAndDropPartition(w.screen.queue, step.id);
    } else if i < |w.screen.queue| {
      RemovalIsAPartition(w.screen.queue, i);
    }
  }

  /** Leaving a chat sends nothing and leaves nothing queued. */
  predicate LeavesNothingToSend(w: World, w': World) {
    && w'.screen.queue == [] && w'.log.shown == w.log.shown
    && |w.tasks| <= |w'.tasks| && w'.tasks[..|w.tasks|] == w.tasks
    && forall t :: t in w'.tasks[|w.tasks|..] ==> !t.job.Send?
  }

  lemma {:induction false} LeavingSendsNothing(w: World, step: Step)
    requires LeavesChat(step)
    ensures LeavesNothingToSend(w, Next(w, step))
  {
  }

  lemma {:induction false} LeavingKeepsHome(w: World, w': World)
    requires HomeOk(w) && !SendPending(w) && LeavesNothingToSend(w, w')
    ensures HomeOk(w')
  {
    forall i | 0 <= i < |w'.tasks| ensures !w'.tasks[i].job.Send? {
      assert i < |w.tasks| ==> w'.tasks[i] == w'.tasks[..|w.tasks|][i];
      assert i >= |w.tasks| ==> w'.tasks[i] in w'.tasks[|w.tasks|..];
    }
  }

  lemma {:induction false} CommandsKeepHome(w: World, step: Step)
    requires HomeOk(w) && Enabled(w, step) && !step.Run?
    requires LeavesChat(step) ==> !SendPending(w)
    ensures HomeOk(Next(w, step))
  {
    if LeavesChat(step) {
      LeavingSendsNothing(w, step);
      LeavingKeepsHome(w, Next(w, step));
    } else if step.CancelQueued? || step.EditQueued? || step.SendQueuedNow? {
      QueueEditsAddNothing(w, step);
      ShorterQueueKeepsHome(w, Next(w, step));
    }
  }

  lemma {:induction false} HomeIsKept(w: World, steps: seq<Step>)
    requires HomeOk(w) && IsRun(w, steps) && NeverInterrupted(w, steps)
    ensures HomeOk(After(w, steps))
    decreases |steps|
  {
    if steps != [] {
      var w1 := Next(w, steps[0]);
      if steps[0].Run? {
        SectionsShowOnlyBySending(w, steps[0].task, steps[0].choice);
      } else {
        CommandsKeepHome(w, steps[0]);
      }
      HomeIsKept(w1, steps[1..]);
    }
  }

  /** While no step leaves the chat between a prompt's two sections, every prompt, queued or
      not, goes on screen in the conversation it was typed in. */
  lemma {:induction false} UninterruptedPromptsStayHome(w: World, steps: seq<Step>, s: Showing)
    requires Init(w) && IsRun(w, steps) && NeverInterrupted(w, steps)
    requires s in After(w, steps).log.shown
    ensures IsHome(s)
  {
    HomeIsKept(w, steps);
  }

  // ----- exactly when a prompt reaches another chat

  /** Leaving a chat empties the queue, so what waits was typed in the chat on screen. */
  predicate QueueIsHome(w: World) {
    forall p :: p in w.screen.queue ==> p.home == w.log.chat
  }

  lemma {:induction false} StepKeepsQueueHome(w: World, step: Step)
    requires QueueIsHome(w) && Enabled(w, step)
    ensures QueueIsHome(Next(w, step))
  {
    if step.Run? {
      SectionsShowOnlyBySending(w, step.task, step.choice);
    } else if step.CancelQueued? || step.EditQueued? || step.SendQueuedNow? {
      QueueEditsAddNothing(w, step);
    }
  }

  /** In every run, interrupted or not. */
  lemma {:induction false} QueuedPromptsAreHome(w: World, steps: seq<Step>)
    requires QueueIsHome(w) && IsRun(w, steps)
    ensures QueueIsHome(After(w, steps))
    decreases |steps|
  {
    if steps != [] {
      StepKeepsQueueHome(w, steps[0]);
      QueuedPromptsAreHome(Next(w, steps[0]), steps[1..]);
    }
  }

  /** A prompt between its two sections. */
  predicate IsPending(w: World, i: nat) {
    i < |w.tasks| && w.tasks[i].job.Send? && w.tasks[i].pc == Ready
  }

  predicate NeverRuns(steps: seq<Step>, i: nat) {
    forall s :: s in steps && s.Run? ==> s.task != i
  }

  lemma {:induction false} StepLeavesTaskAlone(w: World, step: Step, i: nat)
    requires i < |w.tasks| && Enabled(w, step) && (step.Run? ==> step.task != i)
    ensures i < |Next(w, step).tasks| && Next(w, step).tasks[i] == w.tasks[i]
  {
    if step.Run? {
      SectionsShowOnlyBySending(w, step.task, step.choice);
    }
  }

  lemma {:induction false} RunLeavesTaskAlone(w: World, steps: seq<Step>, i: nat)
    requires i < |w.tasks| && IsRun(w, steps) && NeverRuns(steps, i)
    ensures i < |After(w, steps).tasks| && After(w, steps).tasks[i] == w.tasks[i]
    decreases |steps|
  {
    if steps != [] {
      StepLeavesTaskAlone(w, steps[0], i);
      RunLeavesTaskAlone(Next(w, steps[0]), steps[1..], i);
    }
  }

  /** The prompt, shown next, is in its conversation exactly if the run comes home; and if that
      conversation has a session, exactly if that session is on screen. */
  predicate ShownAtHomeWhen(w: World, steps: seq<Step>, prompt: Prompt, shown: seq<Showing>)
    requires IsRun(w, steps)
  {
    var before, s := After(w, steps), SessionWhenLeft(w, steps);
    && |shown| == |before.log.shown| + 1 && shown[..|before.log.shown|] == before.log.shown
    && var showing := shown[|before.log.shown|];
    && showing.prompt == prompt
    && (IsHome(showing) <==> ComesHome(w, steps))
    && (s.Some? ==> (before.screen.stored == s <==> ComesHome(w, steps)))
  }

  /** From any state with a prompt of the conversation on screen between its two sections, and
      whatever runs before the second: the prompt goes on screen in the conversation it was
      typed in exactly when none of those steps left it, or the last one that left a chat
      opened the session that conversation has. */
  lemma {:induction false} PendingPromptStaysWhen(w: World, i: nat, steps: seq<Step>, c: Choice)
    requires Safe(w) && ChatsOk(w)
    requires IsPending(w, i) && w.tasks[i].job.prompt.home == w.log.chat
    requires IsRun(w, steps) && NeverRuns(steps, i)
    requires IsOnlyAdoptedBy(w, steps, w.log.chat, SessionWhenLeft(w, steps))
    ensures var before := After(w, steps);
      && Enabled(before, Run(i, c))
      && ShownAtHomeWhen(w, steps, w.tasks[i].job.prompt, Next(before, Run(i, c)).log.shown)
  {
    var before, s := After(w, steps), SessionWhenLeft(w, steps);
    RunLeavesTaskAlone(w, steps, i);
    SectionsShowOnlyBySending(before, i, c);
    AtHomeWhen(w, steps);
    RunsKeepChatsOk(w, steps);
    if s.Some? {
      SessionIsShownWhen(before, w.log.chat, s.value);
    }
  }

  /** A step that hands a prompt on: `submit` with nothing under way, or the end of a turn. */
  predicate HandsOn(w: World, step: Step)
    requires Enabled(w, step)
  {
    && |Next(w, step).tasks| > |w.tasks|
    && Next(w, step).tasks[|w.tasks|].job.Send?
  }

  lemma {:induction false} HandedOnAtHome(w: World, step: Step)
    requires QueueIsHome(w) && Enabled(w, step) && HandsOn(w, step)
    ensures var next := Next(w, step);
      IsPending(next, |w.tasks|) && next.tasks[|w.tasks|].job.prompt.home == next.log.chat
  {
    if step.Run? {
      SectionsShowOnlyBySending(w, step.task, step.choice);
    }
  }

  /** So in any run of the program, a prompt that is handed on and then sent, with any steps
      before, between and of any tasks, goes on screen in the conversation it was typed in
      exactly when the steps in between did not leave it or came back to it last. */
  lemma {:induction false} PromptsStayHomeWhen(w: World, first: seq<Step>, step: Step, between: seq<Step>, c: Choice)
    requires Init(w) && IsRun(w, first)
    requires Enabled(After(w, first), step) && HandsOn(After(w, first), step)
    requires var handed := Next(After(w, first), step);
      && IsRun(handed, between) && NeverRuns(between, |After(w, first).tasks|)
      && IsOnlyAdoptedBy(handed, between, handed.log.chat, SessionWhenLeft(handed, between))
    ensures var i, handed := |After(w, first).tasks|, Next(After(w, first), step);
      var before := After(handed, between);
      && i < |handed.tasks| && handed.tasks[i].job.Send? && Enabled(before, Run(i, c))
      && ShownAtHomeWhen(handed, between, handed.tasks[i].job.prompt, Next(before, Run(i, c)).log.shown)
  {
    var mid := After(w, first);
    InitIsSafe(w);
    InitChatsOk(w);
    RunsKeepChatsOk(w, first);
    StepsKeepSafe(mid, step);
    StepKeepsChatsOk(mid, step);
    QueuedPromptsAreHome(w, first);
    HandedOnAtHome(mid, step);
    PendingPromptStaysWhen(Next(mid, step), |mid.tasks|, between, c);
  }

  // ----- a run in which a queued prompt is delivered to another session

  lemma {:induction false} OneTaskStaysInChat(w: World, steps: seq<Step>, i: nat)
    requires IsRun(w, steps) && RunsOnly(steps, i)
    ensures After(w, steps).log.chat == w.log.chat
    decreases |steps|
  {
    if steps != [] {
      SectionsShowOnlyBySending(w, i, steps[0].choice);
      OneTaskStaysInChat(Next(w, steps[0]), steps[1..], i);
    }
  }

  /** A prompt whose session is on screen, not attached, can be delivered to that session. */
  lemma {:induction false} DeliveryCompletes(w: World, i: nat, id: SessionId)
    returns (steps: seq<Step>, w': World)
    requires IsDelivering(w, i, Ready) && w.screen.live == None && w.screen.stored == Some(id)
    ensures Leads(w, steps, w') && w'.log.chat == w.log.chat
    ensures w'.log.delivered == w.log.delivered + [Submission(w.tasks[i].job.prompt, w.screen.generation, id)]
  {
    steps := AloneSucceeds(w, i);
    w' := After(w, steps);
    DeliveryEnds(w, steps, i);
    OneTaskStaysInChat(w, steps, i);
  }

  lemma {:induction false} FirstPromptShows(w: World) returns (w': World)
    requires Init(w) && w.screen.enabled
    ensures Leads(w, [Submit("one", []), Run(0, YES)], w')
    ensures w'.screen.queue == [] && w'.screen.sending && !w'.screen.asking && w'.screen.enabled
    ensures |w'.tasks| == 1 && w'.owners == [None] && |w'.scopes| == 1 && w'.screen.backend == 0
    ensures w'.log.delivered == [] && w'.log.chat == 0 && |w'.log.accepted| == 1
    ensures w'.log.chatOf == w.log.chatOf && w'.log.chats == 1
  {
    assert Trim("one") == "one";
    TwoSteps(w, Submit("one", []), Run(0, YES));
    w' := Next(Next(w, Submit("one", [])), Run(0, YES));
  }

  lemma {:induction false} SecondPromptQueues(w: World) returns (w': World)
    requires w.screen.queue == [] && w.screen.sending && !w.screen.asking && w.screen.enabled
    requires |w.log.accepted| == 1 && w.log.chat == 0
    ensures Leads(w, [Submit("two", []), FinishTurn], w')
    ensures w'.screen.queue == [Prompt(1, "two", [], 0)] && !w'.screen.sending
    ensures w'.tasks == w.tasks && w'.owners == w.owners && w'.scopes == w.scopes
    ensures w'.screen.backend == w.screen.backend && w'.screen.enabled
    ensures w'.log.delivered == w.log.delivered && w'.log.chat == 0
    ensures w'.log.chatOf == w.log.chatOf && w'.log.chats == w.log.chats
  {
    assert Trim("two") == "two";
    TwoSteps(w, Submit("two", []), FinishTurn);
    w' := Next(Next(w, Submit("two", [])), FinishTurn);
  }

  /** The pop and the send, with the user opening another session between them. */
  lemma {:induction false} AnotherSessionOpensBetween(w: World) returns (steps: seq<Step>, w': World)
    requires w.screen.queue == [Prompt(1, "two", [], 0)] && !w.screen.sending
    requires |w.tasks| == 1 && w.owners == [None] && |w.scopes| == 1
    requires w.screen.backend == 0 && w.screen.enabled && "B" !in w.log.chatOf
    ensures Leads(w, steps, w') && w'.log.delivered == w.log.delivered
    ensures IsDelivering(w', 1, Ready) && w'.screen.live == None && w'.screen.stored == Some("B")
    ensures w'.screen.backend == 0 && w'.tasks[1].job.prompt == Prompt(1, "two", [], 0)
    ensures w'.log.chat == w.log.chats
  {
    var w1 := Next(w, EndTurn);
    assert w1.tasks[1] == Task(Send(Prompt(1, "two", [], 0)), Ready);
    TwoSteps(w, EndTurn, OpenSession("B"));
    var w2 := Next(w1, OpenSession("B"));
    assert w2.tasks[1] == w1.tasks[1];
    OneStep(w2, Run(1, YES));
    w' := Next(w2, Run(1, YES));
    steps := [EndTurn, OpenSession("B")] + [Run(1, YES)];
    RunsCompose(w, [EndTurn, OpenSession("B")], w2, [Run(1, YES)], w');
  }

  /** So the promise is false of the code: a prompt queued for A can be delivered to B. */
  lemma {:induction false} QueuedPromptCanReachAnotherSession(w: World) returns (steps: seq<Step>, d: Submission)
    requires Init(w) && w.screen.selected == Some("A") && w.screen.enabled
    ensures IsRun(w, steps) && d in After(w, steps).log.delivered
    ensures d.prompt == Prompt(1, "two", [], 0) && d.session == "B"
    ensures After(w, steps).log.chat != d.prompt.home
  {
    var w0 := FirstPromptShows(w);
    var w1 := SecondPromptQueues(w0);
    var s2, w2 := AnotherSessionOpensBetween(w1);
    var s3, w3 := DeliveryCompletes(w2, 1, "B");
    RunsCompose(w1, s2, w2, s3, w3);
    RunsCompose(w0, [Submit("two", []), FinishTurn], w1, s2 + s3, w3);
    var later := [Submit("two", []), FinishTurn] + (s2 + s3);
    RunsCompose(w, [Submit("one", []), Run(0, YES)], w0, later, w3);
    steps := [Submit("one", []), Run(0, YES)] + later;
    d := Submission(w2.tasks[1].job.prompt, w2.screen.generation, "B");
    assert d in w3.log.delivered;
  }
}
