/** What an undisturbed task comes to: every task that finds its lock free ends, and whatever
    the backend answers it ends with its work done or with its prompt given back. */
module Completion {
  import opened Text
  import opened Screens
  import opened Protocol

  predicate RunsOnly(steps: seq<Step>, i: nat) {
    forall k :: 0 <= k < |steps| ==> steps[k].Run? && steps[k].task == i
  }

  /** Nobody else has the lock the task needs. */
  predicate HasWay(w: World, i: nat) {
    && i < |w.tasks| && |w.owners| == |w.scopes|
    && match w.tasks[i].pc
       case Ready => w.screen.backend < |w.owners| && w.owners[w.screen.backend] == None
       case Waiting(b) => b < |w.owners| && w.owners[b] == None
       case Holding(b, _) => b < |w.owners|
       case _ => true
  }

  // ----- every task ends

  predicate IsStarted(t: Task) {
    && (t.pc.Ready? ==> t.job.Open? || t.job.Send? || t.job.Deliver?)
    && (t.job.Send? ==> t.pc.Ready?)
    && (t.pc.TakingBack? ==> t.job.Deliver?)
  }

  function PhaseRank(phase: Phase): nat {
    match phase
    case Checking => 8
    case Streaming => 9
    case Reading => 8
    case Resuming(_) => 7
    case Resumed(_, _) => 6
    case Clearing => 5
    case Creating => 4
    case Created(_) => 3
    case Submitting(_) => 2
  }

  /** How many sections are left at most. */
  function Rank(t: Task): nat {
    match t.pc
    case Ready => if t.job.Send? then 13 else 12
    case Waiting(_) => 11
    case Holding(_, phase) => if t.job.Open? && phase.Checking? then 10 else PhaseRank(phase)
    case TakingBack => 1
    case Done => 0
  }

  predicate GoesOn(w: World, w': World, i: nat) {
    && HasWay(w', i) && i < |w.tasks| && IsStarted(w'.tasks[i])
    && Rank(w'.tasks[i]) < Rank(w.tasks[i])
  }

  lemma {:induction false} OpenGoesOn(w: World, i: nat, c: Choice)
    requires HasWay(w, i) && IsStarted(w.tasks[i]) && IsRunning(w.tasks[i]) && w.tasks[i].job.Open?
    ensures Enabled(w, Run(i, c)) && GoesOn(w, RunOpen(w, i, c), i)
  {
  }

  predicate IsEarly(pc: Pc) {
    pc.Holding? ==> pc.phase.Streaming? || pc.phase.Checking? || pc.phase.Resuming? || pc.phase.Resumed?
  }

  lemma {:induction false} EarlyDeliverGoesOn(w: World, i: nat, c: Choice)
    requires HasWay(w, i) && IsStarted(w.tasks[i]) && IsRunning(w.tasks[i])
    requires w.tasks[i].job.Deliver? && IsEarly(w.tasks[i].pc)
    ensures Enabled(w, Run(i, c)) && GoesOn(w, RunDeliver(w, i, c), i)
  {
  }

  lemma {:induction false} LateDeliverGoesOn(w: World, i: nat, c: Choice)
    requires HasWay(w, i) && IsStarted(w.tasks[i]) && IsRunning(w.tasks[i])
    requires w.tasks[i].job.Deliver? && !IsEarly(w.tasks[i].pc)
    ensures Enabled(w, Run(i, c)) && GoesOn(w, RunDeliver(w, i, c), i)
  {
  }

  lemma {:induction false} TaskGoesOn(w: World, i: nat, c: Choice)
    requires HasWay(w, i) && IsStarted(w.tasks[i]) && IsRunning(w.tasks[i])
    ensures Enabled(w, Run(i, c)) && GoesOn(w, RunTask(w, i, c), i)
  {
    match w.tasks[i].job
    case Open(_, _) => OpenGoesOn(w, i, c);
    case Deliver(_, _, _) =>
      if IsEarly(w.tasks[i].pc) {
        EarlyDeliverGoesOn(w, i, c);
      } else {
        LateDeliverGoesOn(w, i, c);
      }
    case _ =>
  }

  /** Left alone with its lock free, a task ends, however each of its calls turns out. */
  lemma {:induction false} AloneEnds(w: World, i: nat, cs: seq<Choice>) returns (steps: seq<Step>)
    requires HasWay(w, i) && IsStarted(w.tasks[i]) && Rank(w.tasks[i]) <= |cs|
    ensures |steps| <= |cs| && forall k :: 0 <= k < |steps| ==> steps[k] == Run(i, cs[k])
    ensures IsRun(w, steps) && i < |After(w, steps).tasks| && After(w, steps).tasks[i].pc == Done
    decreases |cs|
  {
    steps := [];
    if w.tasks[i].pc != Done {
      TaskGoesOn(w, i, cs[0]);
      var rest := AloneEnds(Next(w, Run(i, cs[0])), i, cs[1..]);
      steps := [Run(i, cs[0])] + rest;
      assert steps[1..] == rest;
    }
  }

  // ----- runs put together

  predicate Leads(w: World, steps: seq<Step>, w': World) {
    IsRun(w, steps) && After(w, steps) == w'
  }

  lemma {:induction false} RunsCompose(w: World, first: seq<Step>, m: World, second: seq<Step>,
                                       w': World)
    requires Leads(w, first, m) && Leads(m, second, w')
    ensures Leads(w, first + second, w')
    decreases |first|
  {
    if first == [] {
      assert first + second == second;
    } else {
      assert (first + second)[1..] == first[1..] + second;
      RunsCompose(Next(w, first[0]), first[1..], m, second, w');
    }
  }

  lemma {:induction false} OneStep(w: World, step: Step)
    requires Enabled(w, step)
    ensures Leads(w, [step], Next(w, step))
  {
    assert [step][1..] == [];
  }

  lemma {:induction false} TwoSteps(w: World, s0: Step, s1: Step)
    requires Enabled(w, s0) && Enabled(Next(w, s0), s1)
    ensures Leads(w, [s0, s1], Next(Next(w, s0), s1))
  {
    OneStep(w, s0);
    OneStep(Next(w, s0), s1);
    RunsCompose(w, [s0], Next(w, s0), [s1], Next(Next(w, s0), s1));
    assert [s0] + [s1] == [s0, s1];
  }

  // ----- what a run of one task went through

  /** The section asks something of the backend, or of the files to send, that may fail. */
  predicate MakesCall(t: Task) {
    match t.job
    case Open(_, _) => t.pc.Holding? && (t.pc.phase.Streaming? || t.pc.phase.Resuming?)
    case Deliver(_, _, _) =>
      t.pc.Ready? || (t.pc.Holding? && (t.pc.phase.Streaming? || t.pc.phase.Resuming? || t.pc.phase.Creating?
                                        || t.pc.phase.Submitting?))
    case _ => false
  }

  predicate IsRunOf(w: World, steps: seq<Step>, i: nat) {
    && IsRun(w, steps) && RunsOnly(steps, i)
    && i < |After(w, steps).tasks| && After(w, steps).tasks[i].pc == Done
  }

  /** A call failed. */
  predicate Fails(w: World, steps: seq<Step>, i: nat)
    requires IsRun(w, steps)
    decreases |steps|
  {
    && steps != [] && steps[0].Run? && steps[0].task == i
    && ((MakesCall(w.tasks[i]) && !steps[0].choice.ok) || Fails(Next(w, steps[0]), steps[1..], i))
  }

  /** A session was resumed. */
  predicate Resumes(w: World, steps: seq<Step>, i: nat)
    requires IsRun(w, steps)
    decreases |steps|
  {
    && steps != [] && steps[0].Run? && steps[0].task == i
    && ((w.tasks[i].pc.Holding? && w.tasks[i].pc.phase.Resuming?) || Resumes(Next(w, steps[0]), steps[1..], i))
  }

  /** The session the backend created. */
  function CreatedSession(w: World, steps: seq<Step>, i: nat): Option<SessionId>
    requires IsRun(w, steps)
    decreases |steps|
  {
    if steps == [] || !steps[0].Run? || steps[0].task != i then None
    else if w.tasks[i].pc.Holding? && w.tasks[i].pc.phase.Creating? then Some(steps[0].choice.session)
    else CreatedSession(Next(w, steps[0]), steps[1..], i)
  }

  lemma {:induction false} FirstSection(w: World, steps: seq<Step>, i: nat)
    requires IsRunOf(w, steps, i) && i < |w.tasks| && w.tasks[i].pc != Done
    ensures steps != [] && steps[0].Run? && steps[0].task == i && Enabled(w, steps[0])
    ensures var w1, rest := Next(w, steps[0]), steps[1..];
      && IsRunOf(w1, rest, i) && After(w, steps) == After(w1, rest)
      && (Fails(w, steps, i) <==> (MakesCall(w.tasks[i]) && !steps[0].choice.ok) || Fails(w1, rest, i))
      && (Resumes(w, steps, i) <==>
            (w.tasks[i].pc.Holding? && w.tasks[i].pc.phase.Resuming?) || Resumes(w1, rest, i))
      && CreatedSession(w, steps, i) == if w.tasks[i].pc.Holding? && w.tasks[i].pc.phase.Creating?
                                 then Some(steps[0].choice.session) else CreatedSession(w1, rest, i)
  {
    assert RunsOnly(steps[1..], i);
  }

  lemma {:induction false} DoneStays(w: World, steps: seq<Step>, i: nat)
    requires IsRunOf(w, steps, i) && i < |w.tasks| && w.tasks[i].pc == Done
    ensures After(w, steps) == w
    ensures !Fails(w, steps, i) && !Resumes(w, steps, i) && CreatedSession(w, steps, i) == None
  {
  }

  const YES: Choice := Choice(true, true, "")

  /** With no call failing. */
  lemma {:induction false} AloneSucceeds(w: World, i: nat) returns (steps: seq<Step>)
    requires HasWay(w, i) && IsStarted(w.tasks[i])
    ensures IsRunOf(w, steps, i) && !Fails(w, steps, i)
  {
    steps := AloneEnds(w, i, seq(13, _ => YES));
    OkNeverFails(w, steps, i);
  }

  lemma {:induction false} OkNeverFails(w: World, steps: seq<Step>, i: nat)
    requires IsRun(w, steps) && forall k :: 0 <= k < |steps| ==> steps[k] == Run(i, YES)
    ensures !Fails(w, steps, i)
    decreases |steps|
  {
    if steps != [] {
      OkNeverFails(Next(w, steps[0]), steps[1..], i);
    }
  }

  // ----- delivering

  predicate IsDelivering(w: World, i: nat, pc: Pc) {
    && HasWay(w, i) && w.tasks[i].job.Deliver? && w.tasks[i].pc == pc
    && w.tasks[i].job.generation == w.screen.generation
  }

  /** The prompt was submitted to the session, and this is the screen then. */
  predicate IsDelivered(w: World, w': World, i: nat, id: SessionId, screen: Screen)
    requires i < |w.tasks| && w.tasks[i].job.Deliver?
  {
    var job := w.tasks[i].job;
    && w'.log.delivered == w.log.delivered + [Submission(job.prompt, job.generation, id)]
    && w'.log.returned == w.log.returned && w'.screen == screen
  }

  /** The prompt is back in the composer, and the turn is over if it was the last. */
  predicate IsGivenBack(w: World, w': World, i: nat)
    requires i < |w.tasks| && w.tasks[i].job.Deliver?
  {
    var job := w.tasks[i].job;
    && w'.log.delivered == w.log.delivered && w'.log.returned == w.log.returned + [job.prompt]
    && w'.screen.composer == w.screen.composer + [Restore(job.prompt.text, job.prompt.files)]
    && (w'.screen.sending <==> w.screen.sending && job.turn != w.screen.turnSeq)
  }

  /** How the delivery ends, and that it went no other way: `id` is the session it submits to. */
  predicate Ends(w: World, steps: seq<Step>, i: nat, id: SessionId, screen: Screen)
    requires i < |w.tasks| && w.tasks[i].job.Deliver? && IsRun(w, steps)
  {
    if Fails(w, steps, i) then IsGivenBack(w, After(w, steps), i)
    else IsDelivered(w, After(w, steps), i, id, screen)
  }

  predicate ScopeIs(w: World, b: nat, scope: Option<SessionId>) {
    b < |w.scopes| && w.scopes[b] == scope
  }

  lemma {:induction false} TakingBackEnds(w: World, steps: seq<Step>, i: nat)
    requires IsDelivering(w, i, TakingBack) && IsRunOf(w, steps, i)
    ensures IsGivenBack(w, After(w, steps), i)
    ensures !Resumes(w, steps, i) && CreatedSession(w, steps, i) == None
  {
    FirstSection(w, steps, i);
    DoneStays(Next(w, steps[0]), steps[1..], i);
  }

  lemma {:induction false} SubmittingEnds(w: World, steps: seq<Step>, i: nat, b: nat, id: SessionId)
    requires IsDelivering(w, i, Holding(b, Submitting(id))) && IsRunOf(w, steps, i)
    ensures Ends(w, steps, i, id, w.screen) && !Resumes(w, steps, i) && CreatedSession(w, steps, i) == None
    ensures !Fails(w, steps, i) ==>
      && After(w, steps).log.adopted == w.log.adopted
      && (ScopeIs(After(w, steps), b, w.scopes[b]) || ScopeIs(After(w, steps), b, Some(id)))
  {
    FirstSection(w, steps, i);
    var w1 := Next(w, steps[0]);
    if steps[0].choice.ok {
      DoneStays(w1, steps[1..], i);
    } else {
      TakingBackEnds(w1, steps[1..], i);
    }
  }

  /** The screen with this session attached. */
  function OnSession(s: Screen, id: SessionId): Screen {
    s.(live := Some(id), stored := Some(id))
  }

  lemma {:induction false} ResumedEnds(w: World, steps: seq<Step>, i: nat, b: nat, id: SessionId)
    requires IsDelivering(w, i, Holding(b, Resumed(id, true))) && IsRunOf(w, steps, i)
    ensures Ends(w, steps, i, id, OnSession(w.screen, id))
    ensures !Resumes(w, steps, i) && CreatedSession(w, steps, i) == None
    ensures !Fails(w, steps, i) ==>
      && After(w, steps).log.adopted == w.log.adopted
      && (ScopeIs(After(w, steps), b, w.scopes[b]) || ScopeIs(After(w, steps), b, Some(id)))
  {
    FirstSection(w, steps, i);
    SubmittingEnds(Next(w, steps[0]), steps[1..], i, b, id);
  }

  lemma {:induction false} ResumingEnds(w: World, steps: seq<Step>, i: nat, b: nat, id: SessionId)
    requires IsDelivering(w, i, Holding(b, Resuming(id))) && IsRunOf(w, steps, i)
    ensures Ends(w, steps, i, id, OnSession(w.screen, id))
    ensures Resumes(w, steps, i) && CreatedSession(w, steps, i) == None
    ensures !Fails(w, steps, i) ==>
      After(w, steps).log.adopted == w.log.adopted && ScopeIs(After(w, steps), b, Some(id))
  {
    FirstSection(w, steps, i);
    if steps[0].choice.ok {
      ResumedEnds(Next(w, steps[0]), steps[1..], i, b, id);
    } else {
      TakingBackEnds(Next(w, steps[0]), steps[1..], i);
    }
  }

  lemma {:induction false} CreatedEnds(w: World, steps: seq<Step>, i: nat, b: nat, id: SessionId)
    requires IsDelivering(w, i, Holding(b, Created(id))) && IsRunOf(w, steps, i)
    ensures Ends(w, steps, i, id, OnSession(w.screen, id).(selected := Some(id)))
    ensures !Resumes(w, steps, i) && CreatedSession(w, steps, i) == None
    ensures !Fails(w, steps, i) ==>
      && After(w, steps).log.adopted == w.log.adopted + [w.tasks[i].job.generation]
      && (ScopeIs(After(w, steps), b, w.scopes[b]) || ScopeIs(After(w, steps), b, Some(id)))
  {
    FirstSection(w, steps, i);
    SubmittingEnds(Next(w, steps[0]), steps[1..], i, b, id);
  }

  /** A new session was created, made the one on screen, and got the prompt. */
  predicate EndsInNew(w: World, steps: seq<Step>, i: nat, b: nat)
    requires i < |w.tasks| && w.tasks[i].job.Deliver? && IsRun(w, steps)
  {
    var w', s := After(w, steps), CreatedSession(w, steps, i);
    && !Resumes(w, steps, i)
    && if Fails(w, steps, i) then IsGivenBack(w, w', i)
       else
         && s.Some?
         && IsDelivered(w, w', i, s.value, OnSession(w.screen, s.value).(selected := s))
         && w'.log.adopted == w.log.adopted + [w.tasks[i].job.generation]
         && ScopeIs(w', b, s)
  }

  lemma {:induction false} CreatingEnds(w: World, steps: seq<Step>, i: nat, b: nat)
    requires IsDelivering(w, i, Holding(b, Creating)) && IsRunOf(w, steps, i)
    ensures EndsInNew(w, steps, i, b)
  {
    FirstSection(w, steps, i);
    if steps[0].choice.ok {
      CreatedEnds(Next(w, steps[0]), steps[1..], i, b, steps[0].choice.session);
    } else {
      TakingBackEnds(Next(w, steps[0]), steps[1..], i);
    }
  }

  lemma {:induction false} ClearingEnds(w: World, steps: seq<Step>, i: nat, b: nat)
    requires IsDelivering(w, i, Holding(b, Clearing)) && IsRunOf(w, steps, i)
    ensures EndsInNew(w, steps, i, b)
  {
    FirstSection(w, steps, i);
    CreatingEnds(Next(w, steps[0]), steps[1..], i, b);
  }

  /** Where the prompt goes is decided by the view: to its live session as it is, to its stored
      one after resuming it, and from a chat that has none to a new one. */
  predicate EndsByView(w: World, steps: seq<Step>, i: nat, b: nat)
    requires i < |w.tasks| && w.tasks[i].job.Deliver? && IsRun(w, steps)
  {
    var w', s := After(w, steps), w.screen;
    if s.live.Some? then
      && Ends(w, steps, i, s.live.value, s) && !Resumes(w, steps, i) && CreatedSession(w, steps, i) == None
      && (!Fails(w, steps, i) ==> w'.log.adopted == w.log.adopted)
    else if s.stored.Some? then
      && Ends(w, steps, i, s.stored.value, OnSession(s, s.stored.value)) && CreatedSession(w, steps, i) == None
      && (!Fails(w, steps, i) ==>
            Resumes(w, steps, i) && w'.log.adopted == w.log.adopted && ScopeIs(w', b, s.stored))
    else EndsInNew(w, steps, i, b)
  }

  lemma {:induction false} CheckingEnds(w: World, steps: seq<Step>, i: nat, b: nat)
    requires IsDelivering(w, i, Holding(b, Checking)) && IsRunOf(w, steps, i)
    ensures EndsByView(w, steps, i, b)
  {
    FirstSection(w, steps, i);
    var w1 := Next(w, steps[0]);
    if w.screen.live.Some? {
      SubmittingEnds(w1, steps[1..], i, b, w.screen.live.value);
    } else if w.screen.stored.Some? {
      ResumingEnds(w1, steps[1..], i, b, w.screen.stored.value);
    } else {
      ClearingEnds(w1, steps[1..], i, b);
    }
  }

  lemma {:induction false} StreamingEnds(w: World, steps: seq<Step>, i: nat, b: nat)
    requires IsDelivering(w, i, Holding(b, Streaming)) && IsRunOf(w, steps, i)
    ensures EndsByView(w, steps, i, b)
  {
    FirstSection(w, steps, i);
    if steps[0].choice.ok {
      CheckingEnds(Next(w, steps[0]), steps[1..], i, b);
    } else {
      TakingBackEnds(Next(w, steps[0]), steps[1..], i);
    }
  }

  /** An undisturbed delivery, however its calls turn out: with no failure the prompt reaches its
      session, which is then live on screen; with one it is back in the composer. */
  lemma {:induction false} DeliveryEnds(w: World, steps: seq<Step>, i: nat)
    requires IsDelivering(w, i, Ready) && IsRunOf(w, steps, i)
    ensures EndsByView(w, steps, i, w.screen.backend)
  {
    var b := w.screen.backend;
    FirstSection(w, steps, i);
    var w1 := Next(w, steps[0]);
    if steps[0].choice.ok {
      FirstSection(w1, steps[1..], i);
      StreamingEnds(Next(w1, steps[1]), steps[1..][1..], i, b);
    } else {
      TakingBackEnds(w1, steps[1..], i);
    }
  }

  // ----- opening, clearing, disconnecting

  predicate IsOpening(w: World, i: nat, pc: Pc) {
    && HasWay(w, i) && w.tasks[i].job.Open? && w.tasks[i].pc == pc
    && w.screen.generation == w.tasks[i].job.generation && w.screen.selected == Some(w.tasks[i].job.session)
  }

  /** With no failure the session is live and the adapter scoped to it; else the screen stays. */
  predicate OpenEnds(w: World, steps: seq<Step>, i: nat, b: nat)
    requires i < |w.tasks| && w.tasks[i].job.Open? && IsRun(w, steps)
  {
    var w', id := After(w, steps), w.tasks[i].job.session;
    if Fails(w, steps, i) then w'.screen == w.screen
    else w'.screen == OnSession(w.screen, id) && ScopeIs(w', b, Some(id))
  }

  lemma {:induction false} OpenResumedEnds(w: World, steps: seq<Step>, i: nat, b: nat, id: SessionId, ok: bool)
    requires IsOpening(w, i, Holding(b, Resumed(id, ok))) && id == w.tasks[i].job.session && IsRunOf(w, steps, i)
    ensures !Fails(w, steps, i)
    ensures After(w, steps).screen == if ok then OnSession(w.screen, id) else w.screen
    ensures ScopeIs(After(w, steps), b, w.scopes[b])
  {
    FirstSection(w, steps, i);
    DoneStays(Next(w, steps[0]), steps[1..], i);
  }

  lemma {:induction false} OpenResumingEnds(w: World, steps: seq<Step>, i: nat, b: nat, id: SessionId)
    requires IsOpening(w, i, Holding(b, Resuming(id))) && id == w.tasks[i].job.session && IsRunOf(w, steps, i)
    ensures OpenEnds(w, steps, i, b)
  {
    FirstSection(w, steps, i);
    OpenResumedEnds(Next(w, steps[0]), steps[1..], i, b, id, steps[0].choice.ok);
  }

  lemma {:induction false} OpenReadingEnds(w: World, steps: seq<Step>, i: nat, b: nat)
    requires IsOpening(w, i, Holding(b, Reading)) && IsRunOf(w, steps, i)
    ensures OpenEnds(w, steps, i, b)
  {
    FirstSection(w, steps, i);
    OpenResumingEnds(Next(w, steps[0]), steps[1..], i, b, w.tasks[i].job.session);
  }

  lemma {:induction false} OpenStreamingEnds(w: World, steps: seq<Step>, i: nat, b: nat)
    requires IsOpening(w, i, Holding(b, Streaming)) && IsRunOf(w, steps, i)
    ensures OpenEnds(w, steps, i, b)
  {
    FirstSection(w, steps, i);
    var w1 := Next(w, steps[0]);
    if steps[0].choice.ok {
      OpenReadingEnds(w1, steps[1..], i, b);
    } else {
      DoneStays(w1, steps[1..], i);
    }
  }

  lemma {:induction false} OpenCheckingEnds(w: World, steps: seq<Step>, i: nat, b: nat)
    requires IsOpening(w, i, Holding(b, Checking)) && IsRunOf(w, steps, i)
    ensures OpenEnds(w, steps, i, b)
  {
    FirstSection(w, steps, i);
    OpenStreamingEnds(Next(w, steps[0]), steps[1..], i, b);
  }

  /** An undisturbed opening, however its calls turn out. */
  lemma {:induction false} OpeningEnds(w: World, steps: seq<Step>, i: nat)
    requires IsOpening(w, i, Ready) && IsRunOf(w, steps, i)
    ensures OpenEnds(w, steps, i, w.screen.backend)
  {
    FirstSection(w, steps, i);
    var w1 := Next(w, steps[0]);
    FirstSection(w1, steps[1..], i);
    OpenCheckingEnds(Next(w1, steps[1]), steps[1..][1..], i, w.screen.backend);
  }

  // ----- an opening whose view has moved on

  predicate IsStale(w: World, i: nat, b: nat, phase: Phase) {
    && HasWay(w, i) && w.tasks[i].job.Open? && w.tasks[i].pc == Holding(b, phase)
    && !(w.tasks[i].job.generation == w.screen.generation && w.screen.selected == Some(w.tasks[i].job.session))
  }

  /** Nothing on screen changes, and this is what the adapters filter for. */
  predicate EndsScoped(w: World, steps: seq<Step>, scopes: seq<Option<SessionId>>)
    requires IsRun(w, steps)
  {
    After(w, steps).screen == w.screen && After(w, steps).log == w.log && After(w, steps).scopes == scopes
  }

  lemma {:induction false} StaleClearingEnds(w: World, steps: seq<Step>, i: nat, b: nat)
    requires IsStale(w, i, b, Clearing) && IsRunOf(w, steps, i)
    ensures EndsScoped(w, steps, w.scopes[b := None])
  {
    FirstSection(w, steps, i);
    DoneStays(Next(w, steps[0]), steps[1..], i);
  }

  /** A resumed session that is not wanted any more: a blank chat gets its empty scope back, and
      any other view sets its own. */
  lemma {:induction false} StaleResumedEnds(w: World, steps: seq<Step>, i: nat, b: nat, id: SessionId, ok: bool)
    requires IsStale(w, i, b, Resumed(id, ok)) && IsRunOf(w, steps, i)
    ensures EndsScoped(w, steps, if w.screen.selected == None then w.scopes[b := None] else w.scopes)
  {
    FirstSection(w, steps, i);
    var w1 := Next(w, steps[0]);
    if w.screen.selected == None {
      StaleClearingEnds(w1, steps[1..], i, b);
    } else {
      DoneStays(w1, steps[1..], i);
    }
  }

  lemma {:induction false} StaleResumingEnds(w: World, steps: seq<Step>, i: nat, b: nat, id: SessionId)
    requires IsStale(w, i, b, Resuming(id)) && IsRunOf(w, steps, i)
    ensures steps != [] && steps[0].Run?
    ensures EndsScoped(w, steps, if w.screen.selected == None then w.scopes[b := None]
                                 else if steps[0].choice.ok then w.scopes[b := Some(id)] else w.scopes)
  {
    FirstSection(w, steps, i);
    var w1 := Next(w, steps[0]);
    StaleResumedEnds(w1, steps[1..], i, b, id, steps[0].choice.ok);
    assert w1.scopes[b := None] == w.scopes[b := None];
  }

  /** Before it resumes anything, an opening that is not wanted any more leaves the adapter alone. */
  lemma {:induction false} StaleOpeningResumesNothing(w: World, steps: seq<Step>, i: nat, b: nat, phase: Phase)
    requires IsStale(w, i, b, phase) && (phase == Checking || phase == Reading) && IsRunOf(w, steps, i)
    ensures EndsScoped(w, steps, w.scopes) && !Resumes(w, steps, i)
  {
    FirstSection(w, steps, i);
    DoneStays(Next(w, steps[0]), steps[1..], i);
  }

  /** A stream that was not up already empties the adapter's scope when it is opened. */
  lemma {:induction false} NewStreamsEmptyTheScope(w: World, i: nat, b: nat, c: Choice)
    requires Enabled(w, Run(i, c)) && (w.tasks[i].job.Open? || w.tasks[i].job.Deliver?)
    requires w.tasks[i].pc == Holding(b, Streaming)
    ensures Next(w, Run(i, c)).scopes == if c.ready then w.scopes else w.scopes[b := None]
  {
  }

  /** An undisturbed clearing empties the adapter's scope exactly if its chat is still blank and
      on screen, and else leaves it; a disconnect empties it in any case. */
  lemma {:induction false} ClearingScopeEnds(w: World, steps: seq<Step>, i: nat, b: nat)
    requires HasWay(w, i) && IsRunOf(w, steps, i) && w.tasks[i].pc == Waiting(b)
    requires w.tasks[i].job.Clear? || w.tasks[i].job.Disconnect?
    ensures var w', job := After(w, steps), w.tasks[i].job;
      && w'.screen == w.screen && w'.log == w.log
      && if job.Disconnect? || (job.generation == w.screen.generation && w.screen.selected == None)
         then ScopeIs(w', b, None) else w'.scopes == w.scopes
  {
    FirstSection(w, steps, i);
    var w1 := Next(w, steps[0]);
    FirstSection(w1, steps[1..], i);
    var w2, rest := Next(w1, steps[1]), steps[1..][1..];
    if w2.tasks[i].pc == Done {
      DoneStays(w2, rest, i);
    } else {
      FirstSection(w2, rest, i);
      DoneStays(Next(w2, rest[0]), rest[1..], i);
    }
  }

  // ----- the queue

  /** Nobody but the task may have the lock. */
  predicate OnlyOwner(w: World, i: nat, b: nat) {
    && i < |w.tasks| && b < |w.owners| && |w.owners| == |w.scopes|
    && (w.owners[b] == None || (w.tasks[i].pc.Holding? && w.tasks[i].pc.lock == b))
  }

  lemma {:induction false} OpenKeepsOwner(w: World, i: nat, c: Choice, b: nat)
    requires Enabled(w, Run(i, c)) && OnlyOwner(w, i, b) && w.tasks[i].job.Open?
    ensures OnlyOwner(RunOpen(w, i, c), i, b)
  {
  }

  lemma {:induction false} EarlyDeliverKeepsOwner(w: World, i: nat, c: Choice, b: nat)
    requires Enabled(w, Run(i, c)) && OnlyOwner(w, i, b) && w.tasks[i].job.Deliver? && IsEarly(w.tasks[i].pc)
    ensures OnlyOwner(RunDeliver(w, i, c), i, b)
  {
  }

  lemma {:induction false} LateDeliverKeepsOwner(w: World, i: nat, c: Choice, b: nat)
    requires Enabled(w, Run(i, c)) && OnlyOwner(w, i, b) && w.tasks[i].job.Deliver? && !IsEarly(w.tasks[i].pc)
    ensures OnlyOwner(RunDeliver(w, i, c), i, b)
  {
  }

  lemma {:induction false} SectionKeepsOwner(w: World, i: nat, c: Choice, b: nat)
    requires Enabled(w, Run(i, c)) && OnlyOwner(w, i, b) && IsStarted(w.tasks[i])
    ensures OnlyOwner(RunTask(w, i, c), i, b)
  {
    match w.tasks[i].job
    case Open(_, _) => OpenKeepsOwner(w, i, c, b);
    case Deliver(_, _, _) =>
      if IsEarly(w.tasks[i].pc) {
        EarlyDeliverKeepsOwner(w, i, c, b);
      } else {
        LateDeliverKeepsOwner(w, i, c, b);
      }
    case _ =>
  }

  /** A task that has ended holds no lock. */
  lemma {:induction false} LockIsFreed(w: World, steps: seq<Step>, i: nat, b: nat)
    requires IsRunOf(w, steps, i) && OnlyOwner(w, i, b) && HasWay(w, i) && IsStarted(w.tasks[i])
    ensures OnlyOwner(After(w, steps), i, b) && After(w, steps).owners[b] == None
    decreases |steps|
  {
    if w.tasks[i].pc == Done {
      DoneStays(w, steps, i);
    } else {
      FirstSection(w, steps, i);
      TaskGoesOn(w, i, steps[0].choice);
      SectionKeepsOwner(w, i, steps[0].choice, b);
      LockIsFreed(Next(w, steps[0]), steps[1..], i, b);
    }
  }

  function Submissions(queue: seq<Prompt>, generation: nat, id: SessionId): seq<Submission> {
    if queue == [] then []
    else [Submission(queue[0], generation, id)] + Submissions(queue[1..], generation, id)
  }

  /** A session is live, nothing is being sent, and the backend's lock is free. */
  predicate IsIdleOn(w: World, id: SessionId) {
    && w.screen.live == Some(id) && !w.screen.sending
    && w.screen.backend < |w.owners| == |w.scopes| && w.owners[w.screen.backend] == None
  }

  lemma {:induction false} NextIsDelivered(w: World, id: SessionId) returns (steps: seq<Step>)
    requires IsIdleOn(w, id) && w.screen.queue != []
    ensures IsRun(w, steps)
    ensures var w', s := After(w, steps), w.screen;
      && IsIdleOn(w', id) && w'.screen.queue == s.queue[1..] && w'.screen.generation == s.generation
      && w'.log.delivered == w.log.delivered + [Submission(s.queue[0], s.generation, id)]
      && w'.log.returned == w.log.returned
  {
    var w1, i, b := Next(w, EndTurn), |w.tasks|, w.screen.backend;
    assert w1.tasks[i] == Task(Send(w.screen.queue[0]), Ready);
    var run := AloneSucceeds(w1, i);
    var w2 := After(w1, run);
    FirstSection(w1, run, i);
    DeliveryEnds(Next(w1, run[0]), run[1..], i);
    LockIsFreed(w1, run, i, b);
    OneStep(w, EndTurn);
    OneStep(w2, FinishTurn);
    RunsCompose(w, [EndTurn], w1, run, w2);
    steps := [EndTurn] + run + [FinishTurn];
    RunsCompose(w, [EndTurn] + run, w2, [FinishTurn], Next(w2, FinishTurn));
  }

  /** Turn after turn, undisturbed and with no call failing, the whole queue is submitted to the
      session on screen, in its order. */
  lemma {:induction false} QueueIsDelivered(w: World, id: SessionId) returns (steps: seq<Step>)
    requires IsIdleOn(w, id)
    ensures IsRun(w, steps)
    ensures var w' := After(w, steps);
      && IsIdleOn(w', id) && w'.screen.queue == [] && w'.log.returned == w.log.returned
      && w'.log.delivered == w.log.delivered + Submissions(w.screen.queue, w.screen.generation, id)
    decreases |w.screen.queue|
  {
    steps := [];
    if w.screen.queue == [] {
      assert w.log.delivered + [] == w.log.delivered;
    } else {
      var first := NextIsDelivered(w, id);
      var mid := After(w, first);
      var rest := QueueIsDelivered(mid, id);
      steps := first + rest;
      RunsCompose(w, first, mid, rest, After(mid, rest));
      OneMoreSubmission(w.log.delivered, w.screen.queue, w.screen.generation, id);
    }
  }

  lemma OneMoreSubmission(done: seq<Submission>, queue: seq<Prompt>, generation: nat, id: SessionId)
    requires queue != []
    ensures done + [Submission(queue[0], generation, id)] + Submissions(queue[1..], generation, id)
         == done + Submissions(queue, generation, id)
  {
  }

  // ----- commands and what they come to

  predicate IsFree(w: World, b: nat) {
    b < |w.owners| == |w.scopes| && w.owners[b] == None
  }

  /** Nothing of the view that was left goes on in the next one. */
  predicate IsQuietView(s: Screen, session: Option<SessionId>) {
    && s.selected == session && s.stored == session && s.live == None
    && !s.sending && !s.asking && s.queue == []
  }

  /** Opening a session, undisturbed: it is live and filtered for if no call fails, and
      otherwise on screen all the same. */
  lemma {:induction false} OpenedSessionGoesLive(w: World, id: SessionId, steps: seq<Step>)
    requires w.screen.enabled && IsFree(w, w.screen.backend)
    requires IsRunOf(Next(w, OpenSession(id)), steps, |w.tasks|)
    ensures var begun, w' := Next(w, OpenSession(id)), After(Next(w, OpenSession(id)), steps);
      && IsQuietView(begun.screen, Some(id))
      && if Fails(begun, steps, |w.tasks|) then w'.screen == begun.screen
         else w'.screen == begun.screen.(live := Some(id)) && ScopeIs(w', w.screen.backend, Some(id))
  {
    var begun := Next(w, OpenSession(id));
    assert begun.tasks[|w.tasks|] == Task(Open(begun.screen.generation, id), Ready);
    OpeningEnds(begun, steps, |w.tasks|);
  }

  /** A new chat, undisturbed, ends with an adapter that filters for nothing. */
  lemma {:induction false} NewChatIsScopedToNothing(w: World, steps: seq<Step>)
    requires IsFree(w, w.screen.backend) && IsRunOf(Next(w, NewChat), steps, |w.tasks|)
    ensures IsQuietView(Next(w, NewChat).screen, None)
    ensures var w' := After(Next(w, NewChat), steps);
      w'.screen == Next(w, NewChat).screen && ScopeIs(w', w.screen.backend, None)
  {
    ClearingScopeEnds(Next(w, NewChat), steps, |w.tasks|, w.screen.backend);
  }

  /** Another backend starts with a blank chat, turned on and filtering for nothing; the old
      one, undisturbed, ends filtering for nothing too. */
  lemma {:induction false} SwitchedBackendIsBlank(w: World, steps: seq<Step>)
    requires IsFree(w, w.screen.backend) && IsRunOf(Next(w, SwitchBackend), steps, |w.tasks|)
    ensures var switched, w' := Next(w, SwitchBackend), After(Next(w, SwitchBackend), steps);
      && IsQuietView(switched.screen, None) && switched.screen.enabled
      && switched.screen.backend == |w.scopes| && IsFree(switched, |w.scopes|)
      && ScopeIs(switched, |w.scopes|, None)
      && w'.screen == switched.screen && ScopeIs(w', w.screen.backend, None)
  {
    ClearingScopeEnds(Next(w, SwitchBackend), steps, |w.tasks|, w.screen.backend);
  }

  /** Disconnecting keeps what is on screen and what is queued, and nothing else. */
  lemma {:induction false} DisconnectingKeepsTheScreen(w: World, steps: seq<Step>)
    requires IsFree(w, w.screen.backend) && IsRunOf(Next(w, DisconnectBackend), steps, |w.tasks|)
    ensures var s, w' := w.screen, After(Next(w, DisconnectBackend), steps);
      && w'.screen == s.(generation := s.generation + 1, live := None, sending := false, asking := false)
      && ScopeIs(w', s.backend, None)
  {
    ClearingScopeEnds(Next(w, DisconnectBackend), steps, |w.tasks|, w.screen.backend);
  }

  // ----- the first prompt of a new client

  /** From the start with no session selected: the first prompt, sent undisturbed, creates a
      session, which is then live, selected and filtered for, and is submitted to it; if a call
      fails it is back in the composer and nothing is being sent. */
  lemma {:induction false} FirstPromptIsDelivered(w: World, text: string, files: seq<string>, steps: seq<Step>)
    requires Init(w) && w.screen.selected == None && w.screen.enabled && (Trim(text) != [] || files != [])
    requires IsRunOf(Next(w, Submit(text, files)), steps, 0)
    ensures var start, w' := Next(w, Submit(text, files)), After(Next(w, Submit(text, files)), steps);
      var p, s := Prompt(0, Trim(text), files, 0), CreatedSession(start, steps, 0);
      if Fails(start, steps, 0) then
        && w'.log.delivered == [] && w'.log.returned == [p] && !w'.screen.sending
        && w'.screen.composer == [ClearDraft, Restore(p.text, p.files)]
      else
        && s.Some? && w'.log.delivered == [Submission(p, 0, s.value)] && w'.log.returned == []
        && w'.screen.live == w'.screen.stored == w'.screen.selected == s && ScopeIs(w', 0, s)
        && w'.log.adopted == [0] && w'.screen.sending
  {
    var start := Next(w, Submit(text, files));
    FirstSection(start, steps, 0);
    DeliveryEnds(Next(start, steps[0]), steps[1..], 0);
  }

  // ----- commands on the queue

  lemma {:induction false} FirstIsThere(before: seq<Prompt>, p: Prompt, after: seq<Prompt>)
    requires forall q :: q in before ==> q.id != p.id
    ensures FirstWithId(before + [p] + after, p.id) == |before|
    ensures WithoutIndex(before + [p] + after, |before|) == before + after
  {
    if before != [] {
      assert (before + [p] + after)[1..] == before[1..] + [p] + after;
      FirstIsThere(before[1..], p, after);
    }
  }

  /** A queued prompt that is sent now is the next one to go, once the running turn is stopped;
      the others stay in their order and wait. */
  lemma {:induction false} SentNowGoesNext(w: World, before: seq<Prompt>, p: Prompt, after: seq<Prompt>)
    requires w.screen.queue == before + [p] + after && forall q :: q in before ==> q.id != p.id
    ensures var moved := Next(w, SendQueuedNow(p.id));
      var w' := Next(Next(moved, FinishTurn), EndTurn);
      && moved.screen.queue == [p] + before + after && moved.tasks == w.tasks
      && w'.screen.queue == before + after && w'.tasks == w.tasks + [Task(Send(p), Ready)]
  {
    FirstIsThere(before, p, after);
    assert ([p] + (before + after))[1..] == before + after;
  }

  /** A queued prompt that is edited leaves the queue for the composer, with its text and files. */
  lemma {:induction false} EditedGoesToTheComposer(w: World, before: seq<Prompt>, p: Prompt, after: seq<Prompt>)
    requires w.screen.queue == before + [p] + after && forall q :: q in before ==> q.id != p.id
    ensures Next(w, EditQueued(p.id)).screen
         == w.screen.(queue := before + after, composer := w.screen.composer + [Restore(p.text, p.files)])
  {
    FirstIsThere(before, p, after);
  }

  /** The end of a turn closes an open question, and hands on the first queued prompt unless
      another one is being sent. */
  lemma EndedTurnAsksNothing(w: World)
    ensures var s, w' := w.screen, Next(w, EndTurn);
      && !w'.screen.asking && w'.screen.sending == s.sending
      && if !s.sending && s.queue != [] then
           w'.screen.queue == s.queue[1..] && w'.tasks == w.tasks + [Task(Send(s.queue[0]), Ready)]
         else w'.screen.queue == s.queue && w'.tasks == w.tasks
  {
  }

  // ----- what the commands start

  /** Going to another view starts exactly one task, for that view: an opening if the backend is
      on, a clearing for a blank chat, a disconnect of the backend that is left. */
  lemma {:induction false} ViewsStartTheirTask(w: World, id: SessionId)
    ensures var generation := w.screen.generation + 1;
      && Next(w, OpenSession(id)).tasks
         == w.tasks + (if w.screen.enabled then [Task(Open(generation, id), Ready)] else [])
      && Next(w, NewChat).tasks == w.tasks + [Task(Clear(generation), Waiting(w.screen.backend))]
      && Next(w, SwitchBackend).tasks == w.tasks + [Task(Disconnect, Waiting(w.screen.backend))]
      && Next(w, DisconnectBackend).tasks == w.tasks + [Task(Disconnect, Waiting(w.screen.backend))]
  {
  }

  /** A backend that is off takes no prompt, and one that is on takes every prompt that says
      something, unless a question is open. */
  lemma {:induction false} PoweredBackendsTakePrompts(w: World, text: string, files: seq<string>, on: bool)
    requires !w.screen.asking && (Trim(text) != [] || files != [])
    ensures var powered := Next(w, Power(on));
      Next(powered, Submit(text, files)).log.accepted
      == w.log.accepted + if on then [Prompt(|w.log.accepted|, Trim(text), files, w.log.chat)] else []
  {
  }

  /** A stream that is lost leaves the view on its session, not live, so that the next prompt
      resumes it; the turn ends with it only if it is given up. */
  lemma {:induction false} LostStreamsKeepTheView(w: World, finish: bool)
    ensures var s, s' := w.screen, Next(w, LoseStream(finish)).screen;
      && s' == s.(live := None, asking := s'.asking, sending := s'.sending)
      && (s'.sending <==> s.sending && !finish) && (s'.asking <==> s.asking && !finish)
  {
  }
}
