/** Where every prompt is. Each accepted prompt is in exactly one place: the queue, in
    flight, delivered, given back to the composer, or cancelled. */
module PromptLedger {
  import opened Text
  import opened Screens
  import opened Protocol

  /** Whether a task has taken responsibility for `p` and not yet settled it. */
  function Carry(t: Task, p: Prompt): nat {
    if t.pc == Done then 0
    else match t.job
      case Send(q) => if p == q then 1 else 0
      case Deliver(_, q, _) => if p == q then 1 else 0
      case _ => 0
  }

  function InFlight(tasks: seq<Task>, p: Prompt): nat {
    if tasks == [] then 0
    else InFlight(tasks[..|tasks| - 1], p) + Carry(tasks[|tasks| - 1], p)
  }

  function Prompts(log: seq<Submission>): seq<Prompt> {
    seq(|log|, i requires 0 <= i < |log| => log[i].prompt)
  }

  function Count(prompts: seq<Prompt>, p: Prompt): nat {
    multiset(prompts)[p]
  }

  /** In how many places `p` is. */
  function Places(w: World, p: Prompt): nat {
    Count(w.screen.queue, p) + InFlight(w.tasks, p) + Count(Prompts(w.log.delivered), p)
    + Count(w.log.returned, p) + Count(w.log.cancelled, p)
  }

  ghost predicate Conserved(w: World) {
    forall p :: Places(w, p) == Count(w.log.accepted, p)
  }

  predicate AcceptedOk(log: Log) {
    forall k :: 0 <= k < |log.accepted| ==>
      log.accepted[k].id == k && CarriesSomething(log.accepted[k])
  }

  predicate Holds(a: ComposerAction, p: Prompt) {
    a.Restore? && Contains(a.text, p.text) && forall f :: f in p.files ==> f in a.files
  }

  /** Every prompt counted as given back really is in a draft handed to the composer. */
  predicate RestoredOk(w: World) {
    forall p :: p in w.log.returned ==> exists a :: a in w.screen.composer && Holds(a, p)
  }

  ghost predicate Accounted(w: World) {
    Conserved(w) && AcceptedOk(w.log) && RestoredOk(w)
  }

  // ----- how the pool's share moves

  lemma {:induction false} InFlightUpdate(tasks: seq<Task>, i: nat, t: Task, p: Prompt)
    requires i < |tasks|
    ensures InFlight(tasks[i := t], p) + Carry(tasks[i], p) == InFlight(tasks, p) + Carry(t, p)
  {
    var n := |tasks| - 1;
    if i == n {
      assert tasks[i := t][..n] == tasks[..n];
    } else {
      InFlightUpdate(tasks[..n], i, t, p);
      assert tasks[i := t][..n] == tasks[..n][i := t];
    }
  }

  lemma {:induction false} InFlightAppend(tasks: seq<Task>, t: Task, p: Prompt)
    ensures InFlight(tasks + [t], p) == InFlight(tasks, p) + Carry(t, p)
  {
    assert (tasks + [t])[..|tasks|] == tasks;
  }

  lemma {:induction false} CountAppend(prompts: seq<Prompt>, q: Prompt, p: Prompt)
    ensures Count(prompts + [q], p) == Count(prompts, p) + if p == q then 1 else 0
  {
  }

  lemma {:induction false} PromptsAppend(log: seq<Submission>, d: Submission)
    ensures Prompts(log + [d]) == Prompts(log) + [d.prompt]
  {
  }

  lemma {:induction false} Member(w: World, p: Prompt)
    requires Conserved(w) && AcceptedOk(w.log) && p in w.screen.queue
    ensures CarriesSomething(p)
  {
    assert Places(w, p) == Count(w.log.accepted, p);
    assert Count(w.screen.queue, p) > 0;
    assert p in w.log.accepted;
  }

  // ----- commands

  lemma {:induction false} LeavingGivesBack(w: World, s: Screen)
    requires Accounted(w)
    requires s.queue == [] && s.composer == w.screen.composer + RestoreActions(w.screen.queue)
    ensures Accounted(LeaveChat(w, s))
  {
    var w' := LeaveChat(w, s);
    forall p | p in w.screen.queue ensures CarriesSomething(p) {
      Member(w, p);
    }
    NothingQueuedIsLost(w.screen.queue);
    forall p ensures Places(w', p) == Count(w'.log.accepted, p) {
      assert Places(w, p) == Count(w.log.accepted, p);
    }
    forall p | p in w'.log.returned ensures exists a :: a in w'.screen.composer && Holds(a, p) {
      if p in w.screen.queue {
        var a := RestoreActions(w.screen.queue)[0];
        assert a in w'.screen.composer && Holds(a, p);
      } else {
        var a :| a in w.screen.composer && Holds(a, p);
        assert a in w'.screen.composer;
      }
    }
  }

  lemma {:induction false} SpawningKeeps(w: World, job: Job, pc: Pc)
    requires Accounted(w) && !job.Send? && !job.Deliver?
    ensures Accounted(Spawn(w, job, pc))
  {
    var w' := Spawn(w, job, pc);
    forall p ensures Places(w', p) == Count(w'.log.accepted, p) {
      InFlightAppend(w.tasks, Task(job, pc), p);
      assert Places(w, p) == Count(w.log.accepted, p);
    }
  }

  lemma {:induction false} ComposerGrows(w: World, w': World)
    requires RestoredOk(w) && w'.log.returned == w.log.returned
    requires w.screen.composer <= w'.screen.composer
    ensures RestoredOk(w')
  {
    forall p | p in w'.log.returned ensures exists a :: a in w'.screen.composer && Holds(a, p) {
      var a :| a in w.screen.composer && Holds(a, p);
      assert a in w'.screen.composer;
    }
  }

  lemma {:induction false} QueueingKeeps(w: World, q: Prompt, screen: Screen)
    requires Accounted(w) && q.id == |w.log.accepted| && CarriesSomething(q)
    requires screen.queue == w.screen.queue + [q] && screen.composer == w.screen.composer + [ClearDraft]
    ensures Accounted(w.(screen := screen, log := w.log.(accepted := w.log.accepted + [q])))
  {
    var w' := w.(screen := screen, log := w.log.(accepted := w.log.accepted + [q]));
    ComposerGrows(w, w');
    forall p ensures Places(w', p) == Count(w'.log.accepted, p) {
      assert Places(w, p) == Count(w.log.accepted, p);
      CountAppend(w.screen.queue, q, p);
      CountAppend(w.log.accepted, q, p);
    }
  }

  lemma {:induction false} SendingKeeps(w: World, q: Prompt, screen: Screen)
    requires Accounted(w) && q.id == |w.log.accepted| && CarriesSomething(q)
    requires screen.queue == w.screen.queue && screen.composer == w.screen.composer + [ClearDraft]
    ensures Accounted(Spawn(w.(screen := screen, log := w.log.(accepted := w.log.accepted + [q])), Send(q), Ready))
  {
    var w' := Spawn(w.(screen := screen, log := w.log.(accepted := w.log.accepted + [q])), Send(q), Ready);
    ComposerGrows(w, w');
    forall p ensures Places(w', p) == Count(w'.log.accepted, p) {
      assert Places(w, p) == Count(w.log.accepted, p);
      InFlightAppend(w.tasks, Task(Send(q), Ready), p);
      CountAppend(w.log.accepted, q, p);
    }
  }

  lemma {:induction false} OtherVerdictsKeep(w: World, w': World)
    requires Accounted(w) && w'.tasks == w.tasks && w'.log == w.log
    requires w'.screen.queue == w.screen.queue && w.screen.composer <= w'.screen.composer
    ensures Accounted(w')
  {
    ComposerGrows(w, w');
    forall p ensures Places(w', p) == Count(w'.log.accepted, p) {
      assert Places(w, p) == Count(w.log.accepted, p);
    }
  }

  lemma {:induction false} SubmitKeeps(w: World, text: string, files: seq<string>)
    requires Accounted(w)
    ensures Accounted(DoSubmit(w, text, files))
  {
    var q, verdict := NewPrompt(w, text, files), SubmitVerdict(w.screen, text, files);
    TrimIsIdempotent(text);
    match verdict
    case Queued => QueueingKeeps(w, q, Submitted(w.screen, q, verdict));
    case ToSend => SendingKeeps(w, q, Submitted(w.screen, q, verdict));
    case _ => OtherVerdictsKeep(w, DoSubmit(w, text, files));
  }

  lemma {:induction false} EndTurnKeeps(w: World)
    requires Accounted(w)
    ensures Accounted(DoEndTurn(w))
  {
    var w' := DoEndTurn(w);
    if NextIsDue(w.screen) {
      var q := w.screen.queue;
      assert q == [q[0]] + q[1..];
      forall p ensures Places(w', p) == Count(w'.log.accepted, p) {
        assert Places(w, p) == Count(w.log.accepted, p);
        InFlightAppend(w.tasks, Task(Send(q[0]), Ready), p);
      }
    } else {
      forall p ensures Places(w', p) == Count(w'.log.accepted, p) {
        assert Places(w, p) == Count(w.log.accepted, p);
      }
    }
  }

  lemma {:induction false} ReorderKeeps(w: World, id: nat)
    requires Accounted(w)
    ensures Accounted(w.(screen := MovedToFront(w.screen, id)))
  {
    var w' := w.(screen := MovedToFront(w.screen, id));
    var i := FirstWithId(w.screen.queue, id);
    forall p ensures Places(w', p) == Count(w'.log.accepted, p) {
      assert Places(w, p) == Count(w.log.accepted, p);
      if i < |w.screen.queue| {
        RemovalIsAPartition(w.screen.queue, i);
      }
    }
  }

  lemma {:induction false} RestoredMore(w: World, w': World, p: Prompt)
    requires RestoredOk(w)
    requires w'.log.returned == w.log.returned + [p]
    requires w'.screen.composer == w.screen.composer + [Restore(p.text, p.files)]
    ensures RestoredOk(w')
  {
    forall q | q in w'.log.returned ensures exists a :: a in w'.screen.composer && Holds(a, q) {
      if q in w.log.returned {
        var a :| a in w.screen.composer && Holds(a, q);
        assert a in w'.screen.composer;
      } else {
        var a := Restore(p.text, p.files);
        assert p.text[0..|p.text|] == p.text;
        assert a in w'.screen.composer && Holds(a, q);
      }
    }
  }

  lemma {:induction false} EditKeeps(w: World, id: nat)
    requires Accounted(w)
    ensures Accounted(DoEdit(w, id))
  {
    var w' := DoEdit(w, id);
    var i := FirstWithId(w.screen.queue, id);
    if i < |w.screen.queue| {
      RestoredMore(w, w', w.screen.queue[i]);
      forall p ensures Places(w', p) == Count(w'.log.accepted, p) {
        assert Places(w, p) == Count(w.log.accepted, p);
        RemovalIsAPartition(w.screen.queue, i);
        CountAppend(w.log.returned, w.screen.queue[i], p);
      }
    }
  }

  lemma {:induction false} CancelKeeps(w: World, id: nat)
    requires Accounted(w)
    ensures Accounted(Next(w, CancelQueued(id)))
  {
    var w' := Next(w, CancelQueued(id));
    KeepAndDropPartition(w.screen.queue, id);
    forall p ensures Places(w', p) == Count(w'.log.accepted, p) {
      assert Places(w, p) == Count(w.log.accepted, p);
    }
  }

  // ----- task sections

  /** A section that settles nothing: the task still carries the same prompt. */
  lemma {:induction false} CarryingKeeps(w: World, w': World, i: nat, t: Task)
    requires Accounted(w) && i < |w.tasks| && w'.tasks == w.tasks[i := t]
    requires forall p :: Carry(t, p) == Carry(w.tasks[i], p)
    requires SameBooks(w, w')
    ensures Accounted(w')
  {
    forall p ensures Places(w', p) == Count(w'.log.accepted, p) {
      assert Places(w, p) == Count(w.log.accepted, p);
      InFlightUpdate(w.tasks, i, t, p);
    }
  }

  lemma {:induction false} DeliveringKeeps(w: World, w': World, i: nat, t: Task, d: Submission)
    requires Accounted(w) && i < |w.tasks| && w'.tasks == w.tasks[i := t] && t.pc == Done
    requires forall p :: Carry(w.tasks[i], p) == if p == d.prompt then 1 else 0
    requires w'.screen == w.screen
    requires w'.log == w.log.(delivered := w.log.delivered + [d])
    ensures Accounted(w')
  {
    PromptsAppend(w.log.delivered, d);
    forall p ensures Places(w', p) == Count(w'.log.accepted, p) {
      assert Places(w, p) == Count(w.log.accepted, p);
      InFlightUpdate(w.tasks, i, t, p);
      CountAppend(Prompts(w.log.delivered), d.prompt, p);
    }
  }

  lemma {:induction false} TakingBackKeeps(w: World, w': World, i: nat, t: Task, q: Prompt)
    requires Accounted(w) && i < |w.tasks| && w'.tasks == w.tasks[i := t] && t.pc == Done
    requires forall p :: Carry(w.tasks[i], p) == if p == q then 1 else 0
    requires w'.screen.queue == w.screen.queue
    requires w'.screen.composer == w.screen.composer + [Restore(q.text, q.files)]
    requires w'.log == w.log.(returned := w.log.returned + [q])
    ensures Accounted(w')
  {
    RestoredMore(w, w', q);
    forall p ensures Places(w', p) == Count(w'.log.accepted, p) {
      assert Places(w, p) == Count(w.log.accepted, p);
      InFlightUpdate(w.tasks, i, t, p);
      CountAppend(w.log.returned, q, p);
    }
  }

  predicate SameBooks(w: World, w': World) {
    && w'.screen.queue == w.screen.queue && w'.screen.composer == w.screen.composer
    && w'.log.accepted == w.log.accepted && w'.log.delivered == w.log.delivered
    && w'.log.returned == w.log.returned && w'.log.cancelled == w.log.cancelled
  }

  /** The task moved on with its prompt, and nothing was settled. */
  predicate OnlyMoved(w: World, w': World, i: nat)
    requires i < |w.tasks|
  {
    && SameBooks(w, w') && |w'.tasks| == |w.tasks|
    && w'.tasks == w.tasks[i := w'.tasks[i]] && w'.tasks[i].job == w.tasks[i].job
    && w'.tasks[i].pc != Done
  }

  predicate IsEarly(phase: Phase) {
    phase.Streaming? || phase.Checking? || phase.Resuming? || phase.Resumed?
  }

  lemma {:induction false} DeliveryBooksEarly(w: World, i: nat, c: Choice)
    requires Enabled(w, Run(i, c)) && w.tasks[i].job.Deliver? && w.tasks[i].pc.Holding?
    requires IsEarly(w.tasks[i].pc.phase)
    ensures OnlyMoved(w, RunDeliver(w, i, c), i)
  {
  }

  lemma {:induction false} DeliveryBooksLate(w: World, i: nat, c: Choice)
    requires Enabled(w, Run(i, c)) && w.tasks[i].job.Deliver? && w.tasks[i].pc.Holding?
    requires !IsEarly(w.tasks[i].pc.phase) && (w.tasks[i].pc.phase.Submitting? ==> !c.ok)
    ensures OnlyMoved(w, RunDeliver(w, i, c), i)
  {
  }

  lemma {:induction false} DeliveryBooks(w: World, i: nat, c: Choice)
    requires Enabled(w, Run(i, c)) && w.tasks[i].job.Deliver? && w.tasks[i].pc != TakingBack
    requires w.tasks[i].pc.Holding? && w.tasks[i].pc.phase.Submitting? ==> !c.ok
    ensures OnlyMoved(w, RunDeliver(w, i, c), i)
  {
    if w.tasks[i].pc.Holding? {
      if IsEarly(w.tasks[i].pc.phase) {
        DeliveryBooksEarly(w, i, c);
      } else {
        DeliveryBooksLate(w, i, c);
      }
    }
  }

  lemma {:induction false} DeliverCarriesOn(w: World, i: nat, c: Choice)
    requires Accounted(w) && Enabled(w, Run(i, c)) && w.tasks[i].job.Deliver?
    requires w.tasks[i].pc != TakingBack
    requires w.tasks[i].pc.Holding? && w.tasks[i].pc.phase.Submitting? ==> !c.ok
    ensures Accounted(RunDeliver(w, i, c))
  {
    DeliveryBooks(w, i, c);
    CarryingKeeps(w, RunDeliver(w, i, c), i, RunDeliver(w, i, c).tasks[i]);
  }

  lemma {:induction false} DeliverKeeps(w: World, i: nat, c: Choice)
    requires Accounted(w) && Enabled(w, Run(i, c)) && w.tasks[i].job.Deliver?
    ensures Accounted(RunDeliver(w, i, c))
  {
    var w' := RunDeliver(w, i, c);
    var Task(job, pc) := w.tasks[i];
    if pc == TakingBack {
      TakingBackKeeps(w, w', i, Task(job, Done), job.prompt);
    } else if pc.Holding? && pc.phase.Submitting? && c.ok {
      var d := Submission(job.prompt, job.generation, pc.phase.session);
      DeliveringKeeps(w.(scopes := w'.scopes, owners := w'.owners), w', i, Task(job, Done), d);
    } else {
      DeliverCarriesOn(w, i, c);
    }
  }

  lemma {:induction false} OpenKeeps(w: World, i: nat, c: Choice)
    requires Accounted(w) && Enabled(w, Run(i, c)) && w.tasks[i].job.Open?
    ensures Accounted(RunOpen(w, i, c))
  {
    var w' := RunOpen(w, i, c);
    assert w'.tasks == w.tasks[i := w'.tasks[i]] && w'.tasks[i].job == w.tasks[i].job;
    CarryingKeeps(w, w', i, w'.tasks[i]);
  }

  lemma {:induction false} RunKeeps(w: World, i: nat, c: Choice)
    requires Accounted(w) && Enabled(w, Run(i, c))
    ensures Accounted(RunTask(w, i, c))
  {
    match w.tasks[i].job
    case Open(_, _) => OpenKeeps(w, i, c);
    case Clear(_) => CarryingKeeps(w, RunClear(w, i, c), i, RunClear(w, i, c).tasks[i]);
    case Disconnect =>
      CarryingKeeps(w, RunDisconnect(w, i, c), i, RunDisconnect(w, i, c).tasks[i]);
    case Send(_) => CarryingKeeps(w, RunSend(w, i), i, RunSend(w, i).tasks[i]);
    case Deliver(_, _, _) => DeliverKeeps(w, i, c);
  }

  lemma {:induction false} StepsKeepAccounts(w: World, step: Step)
    requires Accounted(w) && Enabled(w, step)
    ensures Accounted(Next(w, step))
  {
    match step
    case OpenSession(id) =>
      LeavingGivesBack(w, Opened(w.screen, id));
      var w1 := LeaveChat(w, Opened(w.screen, id));
      SpawningKeeps(w1, Open(w1.screen.generation, id), Ready);
    case NewChat =>
      LeavingGivesBack(w, Blanked(w.screen));
      var w1 := LeaveChat(w, Blanked(w.screen));
      SpawningKeeps(w1, Clear(w1.screen.generation), Waiting(w1.screen.backend));
    case SwitchBackend =>
      LeavingGivesBack(w, Switched(w.screen, |w.scopes|));
      var w1 := LeaveChat(w, Switched(w.screen, |w.scopes|));
      SpawningKeeps(w1, Disconnect, Waiting(w.screen.backend));
    case DisconnectBackend =>
      SpawningKeeps(w, Disconnect, Waiting(w.screen.backend));
    case ClearIfBlank =>
      SpawningKeeps(w, Clear(w.screen.generation), Waiting(w.screen.backend));
    case Submit(text, files) => SubmitKeeps(w, text, files);
    case EndTurn => EndTurnKeeps(w);
    case SendQueuedNow(id) => ReorderKeeps(w, id);
    case EditQueued(id) => EditKeeps(w, id);
    case CancelQueued(id) => CancelKeeps(w, id);
    case Run(i, c) => RunKeeps(w, i, c);
    case _ =>
  }

  lemma {:induction false} InitIsAccounted(w: World)
    requires Init(w)
    ensures Accounted(w)
  {
    forall p ensures Places(w, p) == 0 {
      assert Prompts(w.log.delivered) == [];
    }
  }

  lemma {:induction false} RunsAreAccounted(w: World, steps: seq<Step>)
    requires Accounted(w) && IsRun(w, steps)
    ensures Accounted(After(w, steps))
    decreases |steps|
  {
    if steps != [] {
      StepsKeepAccounts(w, steps[0]);
      RunsAreAccounted(Next(w, steps[0]), steps[1..]);
    }
  }

  lemma {:induction false} AcceptedOnce(accepted: seq<Prompt>, k: nat)
    requires forall j :: 0 <= j < |accepted| ==> accepted[j].id == j
    requires k < |accepted|
    ensures Count(accepted, accepted[k]) == 1
  {
    assert accepted == accepted[..k] + [accepted[k]] + accepted[k + 1..];
    assert accepted[k] !in accepted[..k] && accepted[k] !in accepted[k + 1..];
  }

  /** Prompt conservation. In every run, every prompt that was accepted is in exactly one
      place, with its text and files as they were typed; and what counts as given back is
      in a draft the composer received. */
  lemma {:induction false} PromptsAreConserved(w: World, steps: seq<Step>, k: nat)
    requires Init(w) && IsRun(w, steps)
    requires k < |After(w, steps).log.accepted|
    ensures var w' := After(w, steps);
      var p := w'.log.accepted[k];
      && Count(w'.screen.queue, p) + InFlight(w'.tasks, p) + Count(Prompts(w'.log.delivered), p)
         + Count(w'.log.returned, p) + Count(w'.log.cancelled, p) == 1
      && (p in w'.log.returned ==> exists a :: a in w'.screen.composer && Holds(a, p))
  {
    InitIsAccounted(w);
    RunsAreAccounted(w, steps);
    var w' := After(w, steps);
    AcceptedOnce(w'.log.accepted, k);
    assert Places(w', w'.log.accepted[k]) == 1;
  }

  /** Nothing is in the books that was not typed: every prompt anywhere was accepted. */
  lemma {:induction false} NoPromptIsInvented(w: World, steps: seq<Step>, p: Prompt)
    requires Init(w) && IsRun(w, steps)
    requires Places(After(w, steps), p) > 0
    ensures p in After(w, steps).log.accepted
  {
    InitIsAccounted(w);
    RunsAreAccounted(w, steps);
    assert Count(After(w, steps).log.accepted, p) > 0;
  }

  // ----- which prompts are accepted

  predicate SaysSomething(text: string) {
    exists i :: 0 <= i < |text| && !IsBlankChar(text[i])
  }

  /** A prompt is accepted exactly when no question is open, the backend is on, and there is a
      text that is not blank or a file. While a turn runs it waits in the queue, else it is
      handed on; an open question takes any text that is not blank; everything else changes
      nothing. */
  lemma {:induction false} AcceptedWhen(w: World, text: string, files: seq<string>)
    ensures var w', s := Next(w, Submit(text, files)), w.screen;
      var p := Prompt(|w.log.accepted|, Trim(text), files, w.log.chat);
      if !s.asking && s.enabled && (SaysSomething(text) || files != []) then
        && w'.log.accepted == w.log.accepted + [p]
        && w'.screen == s.(composer := s.composer + [ClearDraft], queue := s.queue + if s.sending then [p] else [])
        && w'.tasks == w.tasks + if s.sending then [] else [Task(Send(p), Ready)]
      else if s.asking && SaysSomething(text) then
        && w'.log == w.log && w'.tasks == w.tasks
        && w'.screen == s.(composer := s.composer + [ClearDraft], asking := false, sending := true,
                           turnSeq := s.turnSeq + 1)
      else w' == w
  {
    BlankIsAllWhiteSpace(text);
    assert SaysSomething(text) <==> Trim(text) != [];
    assert w.screen.queue + [] == w.screen.queue && w.tasks + [] == w.tasks;
  }
}
