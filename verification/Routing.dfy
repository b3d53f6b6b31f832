/** The promises of the session protocol, over every run: which session the adapter is on,
    whose frames are drawn, and where a prompt goes. */
module Routing {
  import opened Text
  import opened Screens
  import opened Protocol
  import opened ScopeAgreement

  // ----- the adapter and the screen

  /** The strict filter on turn traffic: a labelled frame names the open session or is
      somebody else's; an unlabelled one is kept. */
  predicate BelongsToOpenSession(subscribed: Option<SessionId>, tag: Option<SessionId>) {
    tag.Some? ==> subscribed == tag
  }

  /** In every reachable state, when a live session is on screen the adapter is scoped to
      no other; in a blank chat it is scoped to nothing, or the task that will clear it is
      on its way, or the chat's own new session is just being adopted. */
  lemma {:induction false} ScopeAgreesWithView(w: World, steps: seq<Step>)
    requires Init(w) && IsRun(w, steps)
    ensures var w' := After(w, steps);
      w'.screen.backend < |w'.scopes|
      && var scope := w'.scopes[w'.screen.backend];
      && (w'.screen.live.Some? ==> scope == None || scope == w'.screen.live)
      && (w'.screen.selected.None? ==>
            scope == None || CleanerPending(w') || AdoptionPending(w'))
  {
    InitIsSafe(w);
    RunsAreSafe(w, steps);
  }

  /** The session a blank chat's first delivery has just created. */
  predicate IsBeingAdopted(w: World, id: SessionId) {
    exists i :: 0 <= i < |w.tasks| && IsAdopter(w, w.tasks[i])
                && w.tasks[i].pc.phase.session == id
  }

  /** A labelled turn frame that passes both the adapter's filter and the screen's gate
      belongs to the live session. The only window left is a blank chat whose clear is still
      queued, and there the chat's own session may already be talking. */
  lemma {:induction false} AdmittedFramesAreOurs(w: World, steps: seq<Step>, tag: SessionId)
    requires Init(w) && IsRun(w, steps)
    requires var w' := After(w, steps);
      w'.screen.backend < |w'.scopes|
      && BelongsToOpenSession(w'.scopes[w'.screen.backend], Some(tag))
      && AcceptsTurnEvents(w'.screen)
    ensures var w' := After(w, steps);
      w'.screen.live == Some(tag)
      || (w'.screen.selected == None && (CleanerPending(w') || IsBeingAdopted(w', tag)))
  {
    InitIsSafe(w);
    RunsAreSafe(w, steps);
    var w' := After(w, steps);
    if w'.screen.live == None && !CleanerPending(w') {
      var i :| 0 <= i < |w'.tasks| && IsAdopter(w', w'.tasks[i]);
      assert TaskOk(w', i);
    }
  }

  // ----- bindings

  predicate BindingsGrow(a: Log, b: Log) {
    forall g :: g in a.bound ==> IsBound(b, g, a.bound[g])
  }

  lemma {:induction false} StepsKeepBindings(w: World, step: Step)
    requires Safe(w) && Enabled(w, step)
    ensures BindingsGrow(w.log, Next(w, step).log)
  {
    if step.Run? {
      EverySectionIsSafe(w, step.task, step.choice);
    }
  }

  lemma {:induction false} BindingsAreForever(w: World, steps: seq<Step>)
    requires Safe(w) && IsRun(w, steps)
    ensures BindingsGrow(w.log, After(w, steps).log)
    decreases |steps|
  {
    if steps != [] {
      var w1 := Next(w, steps[0]);
      StepsKeepBindings(w, steps[0]);
      StepsKeepSafe(w, steps[0]);
      BindingsAreForever(w1, steps[1..]);
      forall g | g in w.log.bound ensures IsBound(After(w, steps).log, g, w.log.bound[g]) {
        assert g in w1.log.bound;
      }
    }
  }

  // ----- what went on screen

  /** What a section of task `i` does to what goes on screen: only `send` shows anything. */
  predicate ShowsOnlyBySending(w: World, w': World, i: nat)
    requires i < |w.tasks|
  {
    && |w'.tasks| == |w.tasks| && w'.log.chat == w.log.chat
    && w'.screen.queue == w.screen.queue
    && (forall j :: 0 <= j < |w.tasks| && j != i ==> w'.tasks[j] == w.tasks[j])
    && (if w.tasks[i].job.Send? then
          !w'.tasks[i].job.Send?
          && w'.log.shown
             == w.log.shown + [Showing(w.tasks[i].job.prompt, w.screen.generation, w.log.chat)]
        else w'.log.shown == w.log.shown && w'.tasks[i].job == w.tasks[i].job)
  }

  lemma {:induction false} OpenShowsNothing(w: World, i: nat, c: Choice)
    requires Enabled(w, Run(i, c)) && w.tasks[i].job.Open?
    ensures ShowsOnlyBySending(w, RunOpen(w, i, c), i)
  {
  }

  predicate IsLate(phase: Phase) {
    phase.Clearing? || phase.Creating? || phase.Created? || phase.Submitting?
  }

  lemma {:induction false} LateDeliveryShowsNothing(w: World, i: nat, c: Choice)
    requires Enabled(w, Run(i, c)) && w.tasks[i].job.Deliver?
    requires w.tasks[i].pc.Holding? && IsLate(w.tasks[i].pc.phase)
    ensures ShowsOnlyBySending(w, RunDeliver(w, i, c), i)
  {
  }

  lemma {:induction false} EarlyDeliveryShowsNothing(w: World, i: nat, c: Choice)
    requires Enabled(w, Run(i, c)) && w.tasks[i].job.Deliver?
    requires w.tasks[i].pc.Holding? ==> !IsLate(w.tasks[i].pc.phase)
    ensures ShowsOnlyBySending(w, RunDeliver(w, i, c), i)
  {
  }

  lemma {:induction false} DeliverShowsNothing(w: World, i: nat, c: Choice)
    requires Enabled(w, Run(i, c)) && w.tasks[i].job.Deliver?
    ensures ShowsOnlyBySending(w, RunDeliver(w, i, c), i)
  {
    if w.tasks[i].pc.Holding? && IsLate(w.tasks[i].pc.phase) {
      LateDeliveryShowsNothing(w, i, c);
    } else {
      EarlyDeliveryShowsNothing(w, i, c);
    }
  }

  lemma {:induction false} SectionsShowOnlyBySending(w: World, i: nat, c: Choice)
    requires Enabled(w, Run(i, c))
    ensures ShowsOnlyBySending(w, RunTask(w, i, c), i)
  {
    match w.tasks[i].job
    case Open(_, _) => OpenShowsNothing(w, i, c);
    case Deliver(_, _, _) => DeliverShowsNothing(w, i, c);
    case _ =>
  }

  predicate WasShown(log: Log, p: Prompt, generation: nat) {
    exists s :: s in log.shown && s.prompt == p && s.generation == generation
  }

  predicate ShownOk(w: World) {
    && (forall i :: 0 <= i < |w.tasks| && w.tasks[i].job.Deliver? ==>
          WasShown(w.log, w.tasks[i].job.prompt, w.tasks[i].job.generation))
    && (forall d :: d in w.log.delivered ==> WasShown(w.log, d.prompt, d.generation))
  }

  lemma {:induction false} ShownGrows(w: World, w': World)
    requires ShownOk(w) && w.log.shown <= w'.log.shown
    requires forall d :: d in w'.log.delivered ==>
               (d in w.log.delivered || WasShown(w.log, d.prompt, d.generation))
    requires forall i :: 0 <= i < |w'.tasks| && w'.tasks[i].job.Deliver? ==>
               ((i < |w.tasks| && w'.tasks[i].job == w.tasks[i].job)
                || WasShown(w'.log, w'.tasks[i].job.prompt, w'.tasks[i].job.generation))
    ensures ShownOk(w')
  {
    forall p, g | WasShown(w.log, p, g) ensures WasShown(w'.log, p, g) {
      var s :| s in w.log.shown && s.prompt == p && s.generation == g;
      assert s in w'.log.shown;
    }
  }

  lemma {:induction false} SendingShows(w: World, i: nat)
    requires ShownOk(w) && i < |w.tasks| && w.tasks[i].job.Send?
    ensures ShownOk(RunSend(w, i))
  {
    var w' := RunSend(w, i);
    var s := Showing(w.tasks[i].job.prompt, w.screen.generation, w.log.chat);
    assert s in w'.log.shown;
    ShownGrows(w, w');
  }

  predicate IsSubmitting(t: Task, generation: nat, id: SessionId) {
    t.job.Deliver? && t.job.generation == generation && t.pc.Holding? && t.pc.phase == Submitting(id)
  }

  lemma {:induction false} DeliveringDelivers(w: World, i: nat, c: Choice)
    requires Enabled(w, Run(i, c)) && w.tasks[i].job.Deliver?
    ensures var job := w.tasks[i].job;
      forall d :: d in RunDeliver(w, i, c).log.delivered ==>
        d in w.log.delivered || (d.prompt == job.prompt && IsSubmitting(w.tasks[i], d.generation, d.session))
  {
  }

  lemma {:induction false} DeliveringKeepsShown(w: World, i: nat, c: Choice)
    requires ShownOk(w) && Enabled(w, Run(i, c)) && w.tasks[i].job.Deliver?
    ensures ShownOk(RunDeliver(w, i, c))
  {
    var w' := RunDeliver(w, i, c);
    SectionsShowOnlyBySending(w, i, c);
    DeliveringDelivers(w, i, c);
    assert WasShown(w.log, w.tasks[i].job.prompt, w.tasks[i].job.generation);
    ShownGrows(w, w');
  }

  lemma {:induction false} OthersKeepShown(w: World, i: nat, c: Choice)
    requires ShownOk(w) && Enabled(w, Run(i, c)) && !w.tasks[i].job.Send? && !w.tasks[i].job.Deliver?
    ensures ShownOk(RunTask(w, i, c))
  {
    ShownGrows(w, RunTask(w, i, c));
  }

  lemma {:induction false} StepsKeepShown(w: World, step: Step)
    requires ShownOk(w) && Enabled(w, step)
    ensures ShownOk(Next(w, step))
  {
    if step.Run? && w.tasks[step.task].job.Send? {
      SendingShows(w, step.task);
    } else if step.Run? && w.tasks[step.task].job.Deliver? {
      DeliveringKeepsShown(w, step.task, step.choice);
    } else if step.Run? {
      OthersKeepShown(w, step.task, step.choice);
    } else {
      ShownGrows(w, Next(w, step));
    }
  }

  lemma {:induction false} RunsKeepShown(w: World, steps: seq<Step>)
    requires ShownOk(w) && IsRun(w, steps)
    ensures ShownOk(After(w, steps))
    decreases |steps|
  {
    if steps != [] {
      StepsKeepShown(w, steps[0]);
      RunsKeepShown(Next(w, steps[0]), steps[1..]);
    }
  }

  // ----- where a prompt goes

  /** Routing. Whatever happened between, a delivered prompt went on screen in the view
      generation it was delivered for, and it was submitted to the very session that was
      live whenever that view was attached, before or after. */
  lemma {:induction false} PromptsGoToTheirView(w: World, first: seq<Step>, second: seq<Step>, d: Submission)
    requires Init(w) && IsRun(w, first) && IsRun(After(w, first), second)
    requires var seen := After(w, first).screen;
      seen.generation == d.generation && seen.live.Some?
    requires d in After(After(w, first), second).log.delivered
    ensures After(w, first).screen.live == Some(d.session)
    ensures WasShown(After(After(w, first), second).log, d.prompt, d.generation)
  {
    InitIsSafe(w);
    RunsAreSafe(w, first);
    var mid := After(w, first);
    RunsAreSafe(mid, second);
    BindingsAreForever(mid, second);
    RunsKeepShown(w, first);
    RunsKeepShown(mid, second);
    assert IsBound(mid.log, d.generation, mid.screen.live.value);
  }

  /** At some point of the run the view of this generation was live on this session. */
  predicate WasLive(w: World, steps: seq<Step>, generation: nat, id: SessionId)
    requires IsRun(w, steps)
    decreases |steps|
  {
    || IsLive(w, generation, id)
    || (steps != [] && WasLive(Next(w, steps[0]), steps[1..], generation, id))
  }

  predicate IsLive(w: World, generation: nat, id: SessionId) {
    w.screen.generation == generation && w.screen.live == Some(id)
  }

  predicate Submits(w: World, generation: nat, id: SessionId) {
    || (exists d :: d in w.log.delivered && d.generation == generation && d.session == id)
    || (exists t :: t in w.tasks && IsSubmitting(t, generation, id))
  }

  lemma {:induction false} CheckingSubmits(w: World, i: nat, c: Choice, generation: nat, id: SessionId)
    requires Enabled(w, Run(i, c)) && w.tasks[i].job.Deliver?
    requires w.tasks[i].pc.Holding? && w.tasks[i].pc.phase.Checking?
    requires IsSubmitting(RunDeliver(w, i, c).tasks[i], generation, id)
    ensures IsLive(w, generation, id)
  {
  }

  predicate IsAttaching(t: Task) {
    t.pc.Holding? && (t.pc.phase.Resumed? || t.pc.phase.Created?)
  }

  lemma {:induction false} AttachingSubmits(w: World, i: nat, c: Choice, generation: nat, id: SessionId)
    requires Enabled(w, Run(i, c)) && w.tasks[i].job.Deliver? && IsAttaching(w.tasks[i])
    requires IsSubmitting(RunDeliver(w, i, c).tasks[i], generation, id)
    ensures IsLive(RunDeliver(w, i, c), generation, id)
  {
  }

  lemma {:induction false} NothingElseSubmits(w: World, i: nat, c: Choice, generation: nat, id: SessionId)
    requires Enabled(w, Run(i, c)) && w.tasks[i].job.Deliver? && !IsAttaching(w.tasks[i])
    requires w.tasks[i].pc.Holding? ==> !w.tasks[i].pc.phase.Checking?
    ensures !IsSubmitting(RunDeliver(w, i, c).tasks[i], generation, id)
  {
  }

  /** What one section can add to what is submitted: only its own task, and what it was
      submitting already. */
  predicate SubmitsOnly(w: World, w': World, i: nat) {
    && i < |w.tasks| == |w'.tasks|
    && (forall j :: 0 <= j < |w.tasks| && j != i ==> w'.tasks[j] == w.tasks[j])
    && (forall d :: d in w'.log.delivered ==>
          d in w.log.delivered || IsSubmitting(w.tasks[i], d.generation, d.session))
  }

  lemma {:induction false} DeliverySubmitsOnly(w: World, i: nat, c: Choice)
    requires Enabled(w, Run(i, c)) && w.tasks[i].job.Deliver?
    ensures SubmitsOnly(w, RunDeliver(w, i, c), i)
  {
    SectionsShowOnlyBySending(w, i, c);
    DeliveringDelivers(w, i, c);
  }

  lemma {:induction false} OthersSubmitNothing(w: World, i: nat, c: Choice, generation: nat, id: SessionId)
    requires Enabled(w, Run(i, c)) && !w.tasks[i].job.Deliver?
    ensures var w' := RunTask(w, i, c);
      SubmitsOnly(w, w', i) && !IsSubmitting(w'.tasks[i], generation, id)
  {
  }

  lemma {:induction false} SectionSubmits(w: World, w': World, i: nat, generation: nat, id: SessionId)
    requires SubmitsOnly(w, w', i) && Submits(w', generation, id)
    ensures Submits(w, generation, id) || IsSubmitting(w'.tasks[i], generation, id)
  {
    if j :| 0 <= j < |w'.tasks| && IsSubmitting(w'.tasks[j], generation, id) {
      assert j != i ==> w'.tasks[j] in w.tasks;
    } else {
      var d :| d in w'.log.delivered && d.generation == generation && d.session == id;
      assert d !in w.log.delivered ==> w.tasks[i] in w.tasks && IsSubmitting(w.tasks[i], generation, id);
    }
  }

  lemma {:induction false} RunningSubmits(w: World, i: nat, c: Choice, generation: nat, id: SessionId)
    requires Enabled(w, Run(i, c)) && Submits(RunTask(w, i, c), generation, id)
    ensures Submits(w, generation, id) || IsLive(w, generation, id) || IsLive(RunTask(w, i, c), generation, id)
  {
    var w' := RunTask(w, i, c);
    if !w.tasks[i].job.Deliver? {
      OthersSubmitNothing(w, i, c, generation, id);
      SectionSubmits(w, w', i, generation, id);
    } else {
      DeliverySubmitsOnly(w, i, c);
      SectionSubmits(w, w', i, generation, id);
      if IsSubmitting(w'.tasks[i], generation, id) {
        if w.tasks[i].pc.Holding? && w.tasks[i].pc.phase.Checking? {
          CheckingSubmits(w, i, c, generation, id);
        } else if IsAttaching(w.tasks[i]) {
          AttachingSubmits(w, i, c, generation, id);
        } else {
          NothingElseSubmits(w, i, c, generation, id);
        }
      }
    }
  }

  lemma {:induction false} StepSubmits(w: World, step: Step, generation: nat, id: SessionId)
    requires Enabled(w, step) && Submits(Next(w, step), generation, id)
    ensures Submits(w, generation, id) || IsLive(w, generation, id) || IsLive(Next(w, step), generation, id)
  {
    if step.Run? {
      RunningSubmits(w, step.task, step.choice, generation, id);
    }
  }

  lemma {:induction false} SubmittedWasLive(w: World, steps: seq<Step>, generation: nat, id: SessionId)
    requires IsRun(w, steps) && Submits(After(w, steps), generation, id)
    ensures Submits(w, generation, id) || WasLive(w, steps, generation, id)
    decreases |steps|
  {
    if steps != [] {
      var w1 := Next(w, steps[0]);
      SubmittedWasLive(w1, steps[1..], generation, id);
      if Submits(w1, generation, id) {
        StepSubmits(w, steps[0], generation, id);
      }
      assert IsLive(w1, generation, id) ==> WasLive(w1, steps[1..], generation, id);
    }
  }

  /** Nothing is ever delivered to a session that was not on screen, live, in the view it was
      delivered for. */
  lemma {:induction false} DeliveredWhereLive(w: World, steps: seq<Step>, d: Submission)
    requires Init(w) && IsRun(w, steps) && d in After(w, steps).log.delivered
    ensures WasLive(w, steps, d.generation, d.session)
  {
    SubmittedWasLive(w, steps, d.generation, d.session);
  }

  /** Two prompts delivered for the same view went to the same session, and a view adopts at
      most one created session, however the deliveries interleaved. */
  lemma {:induction false} OneSessionPerView(w: World, steps: seq<Step>, d: Submission, e: Submission)
    requires Init(w) && IsRun(w, steps)
    requires d in After(w, steps).log.delivered && e in After(w, steps).log.delivered
    requires d.generation == e.generation
    ensures d.session == e.session
    ensures AdoptionCount(After(w, steps).log.adopted, d.generation) <= 1
  {
    InitIsSafe(w);
    RunsAreSafe(w, steps);
    DistinctCountsOnce(After(w, steps).log.adopted, d.generation);
  }

  function AdoptionCount(s: seq<nat>, g: nat): nat {
    multiset(s)[g]
  }

  lemma {:induction false} DistinctCountsOnce(s: seq<nat>, g: nat)
    requires forall i, j :: 0 <= i < j < |s| ==> s[i] != s[j]
    ensures AdoptionCount(s, g) <= 1
  {
    if s != [] {
      DistinctCountsOnce(s[1..], g);
      assert s == [s[0]] + s[1..];
    }
  }
}
