/** The invariant behind "the screen and the connection are on the same session", and the
    proof that every step of every task keeps it. */
module ScopeAgreement {
  import opened Text
  import opened Screens
  import opened Protocol

  predicate IsCurrent(w: World, job: Job) {
    match job
    case Open(g, _) => g == w.screen.generation
    case Clear(g) => g == w.screen.generation
    case Deliver(g, _, _) => g == w.screen.generation
    case _ => true
  }

  /** Past its view check and about to write the adapter's scope or the screen. */
  predicate IsCommitted(job: Job, phase: Phase) {
    match job
    case Open(_, _) => phase != Checking
    case Deliver(_, _, _) => phase != Streaming && phase != Checking
    case _ => false
  }

  predicate IsBound(log: Log, generation: nat, id: SessionId) {
    generation in log.bound && log.bound[generation] == id
  }

  predicate ViewOk(w: World) {
    && w.screen.selected == w.screen.stored
    && (w.screen.live.Some? ==> w.screen.live == w.screen.stored)
    && w.screen.backend + 1 == |w.scopes| == |w.owners|
  }

  /** Each view generation is bound to at most one session, for good. */
  predicate BindingOk(w: World) {
    && (forall g :: g in w.log.bound ==> g <= w.screen.generation)
    && (w.screen.stored.Some? ==> IsBound(w.log, w.screen.generation, w.screen.stored.value))
    && (w.screen.stored.None? ==> w.screen.generation !in w.log.bound)
    && (forall g :: g in w.log.adopted ==> g in w.log.bound)
    && (forall i, j :: 0 <= i < j < |w.log.adopted| ==> w.log.adopted[i] != w.log.adopted[j])
    && (forall d :: d in w.log.delivered ==> IsBound(w.log, d.generation, d.session))
  }

  predicate JobOk(w: World, job: Job) {
    match job
    case Open(g, id) =>
      g <= w.screen.generation && (g == w.screen.generation ==> w.screen.stored == Some(id))
    case Clear(g) => g <= w.screen.generation
    case Deliver(g, _, _) => g <= w.screen.generation
    case _ => true
  }

  predicate PhaseOk(w: World, job: Job, b: nat, phase: Phase)
    requires b < |w.scopes|
  {
    && (phase.Created? ==> w.scopes[b] == Some(phase.session))
    && (phase.Resumed? && phase.ok ==> w.scopes[b] == Some(phase.session))
    && (phase.Creating? ==> w.scopes[b] == None)
    && (job.Open? && (phase.Resuming? || phase.Resumed?) ==> phase.session == job.session)
    && (job.Deliver? ==>
          && (phase.Submitting? ==> IsBound(w.log, job.generation, phase.session))
          && (phase.Resumed? ==> phase.ok)
          && (job.generation == w.screen.generation ==>
                && (phase.Resuming? || phase.Resumed? ==> w.screen.stored == Some(phase.session))
                && (phase.Clearing? || phase.Creating? || phase.Created? ==>
                      w.screen.stored == None)))
    && (b == w.screen.backend && IsCommitted(job, phase) && !IsCurrent(w, job) ==>
          w.screen.live == None)
  }

  predicate TaskOk(w: World, i: nat)
    requires i < |w.tasks|
  {
    var Task(job, pc) := w.tasks[i];
    && JobOk(w, job)
    && (pc.Waiting? ==> pc.lock < |w.scopes|)
    && (pc.Holding? ==>
          && pc.lock < |w.scopes| && pc.lock < |w.owners|
          && w.owners[pc.lock] == Some(i) && PhaseOk(w, job, pc.lock, pc.phase))
    && ((pc.Waiting? || pc.Holding?) && !job.Disconnect? && IsCurrent(w, job) ==>
          pc.lock == w.screen.backend)
    && (job.Send? ==> pc == Ready)
  }

  predicate TasksOk(w: World) {
    forall i :: 0 <= i < |w.tasks| ==> TaskOk(w, i)
  }

  predicate IsCleaner(w: World, t: Task) {
    && (t.pc.Waiting? || t.pc.Holding?) && t.pc.lock == w.screen.backend
    && (t.job.Disconnect? || t.job == Clear(w.screen.generation))
  }

  /** A task that will empty the adapter's scope is still on its way. */
  predicate CleanerPending(w: World) {
    exists i :: 0 <= i < |w.tasks| && IsCleaner(w, w.tasks[i])
  }

  predicate IsAdopter(w: World, t: Task) {
    && t.job.Deliver? && t.job.generation == w.screen.generation
    && t.pc.Holding? && t.pc.lock == w.screen.backend && t.pc.phase.Created?
  }

  /** The first prompt of the chat on screen has created its session and is about to
      make it the one on screen. */
  predicate AdoptionPending(w: World) {
    exists i :: 0 <= i < |w.tasks| && IsAdopter(w, w.tasks[i])
  }

  predicate IsStaleWriter(w: World, t: Task) {
    && t.pc.Holding? && t.pc.lock == w.screen.backend
    && IsCommitted(t.job, t.pc.phase) && !IsCurrent(w, t.job)
  }

  predicate NoStaleWriter(w: World) {
    forall i :: 0 <= i < |w.tasks| ==> !IsStaleWriter(w, w.tasks[i])
  }

  predicate ScopeOk(w: World)
    requires w.screen.backend < |w.scopes|
  {
    var scope := w.scopes[w.screen.backend];
    && (w.screen.live.Some? ==> scope == None || scope == w.screen.live)
    && (w.screen.stored.None? ==>
          CleanerPending(w) || AdoptionPending(w) || (scope == None && NoStaleWriter(w)))
  }

  predicate Safe(w: World) {
    ViewOk(w) && BindingOk(w) && TasksOk(w) && ScopeOk(w)
  }

  lemma {:induction false} InitIsSafe(w: World)
    requires Init(w)
    ensures Safe(w)
  {
  }

  predicate LeavesView(step: Step) {
    step.OpenSession? || step.NewChat? || step.SwitchBackend? || step.DisconnectBackend?
  }

  lemma {:induction false} LeavingKeepsTask(w: World, step: Step, i: nat)
    requires Safe(w) && LeavesView(step) && i < |Next(w, step).tasks|
    ensures TaskOk(Next(w, step), i)
  {
    if i < |w.tasks| {
      assert TaskOk(w, i);
    }
  }

  lemma {:induction false} LeavingKeepsView(w: World, step: Step)
    requires Safe(w) && LeavesView(step)
    ensures ViewOk(Next(w, step))
  {
  }

  lemma {:induction false} LeavingKeepsBinding(w: World, step: Step)
    requires Safe(w) && LeavesView(step)
    ensures BindingOk(Next(w, step))
  {
  }

  lemma {:induction false} LeavingKeepsScope(w: World, step: Step)
    requires Safe(w) && LeavesView(step) && ViewOk(Next(w, step))
    ensures ScopeOk(Next(w, step))
  {
    var w' := Next(w, step);
    if step.NewChat? || step.DisconnectBackend? {
      assert IsCleaner(w', w'.tasks[|w.tasks|]);
    }
    if step.SwitchBackend? {
      forall i | 0 <= i < |w'.tasks| ensures !IsStaleWriter(w', w'.tasks[i]) {
        if i < |w.tasks| {
          assert TaskOk(w, i);
        }
      }
    }
  }

  lemma {:induction false} LeavingKeepsSafe(w: World, step: Step)
    requires Safe(w) && LeavesView(step)
    ensures Safe(Next(w, step))
  {
    LeavingKeepsView(w, step);
    LeavingKeepsBinding(w, step);
    forall i | 0 <= i < |Next(w, step).tasks| ensures TaskOk(Next(w, step), i) {
      LeavingKeepsTask(w, step, i);
    }
    LeavingKeepsScope(w, step);
  }

  predicate IsQuiet(step: Step) {
    !LeavesView(step) && !step.Run? && !step.Restream?
  }

  /** Nothing a suspended task relies on moved, and the new tasks hold no lock. */
  predicate OnlyIdleTasksAdded(w: World, w': World) {
    && w.tasks <= w'.tasks && w'.scopes == w.scopes && w'.owners == w.owners
    && (forall i :: |w.tasks| <= i < |w'.tasks| ==> TaskOk(w', i) && !w'.tasks[i].pc.Holding?)
    && w'.screen.generation == w.screen.generation && w'.screen.backend == w.screen.backend
    && w'.screen.stored == w.screen.stored && w'.log.bound == w.log.bound
    && (w'.screen.live == w.screen.live || w'.screen.live == None)
  }

  lemma {:induction false} IdleTasksKeepTasks(w: World, w': World)
    requires TasksOk(w) && OnlyIdleTasksAdded(w, w')
    ensures TasksOk(w')
  {
    forall i | 0 <= i < |w'.tasks| ensures TaskOk(w', i) {
      if i < |w.tasks| {
        assert TaskOk(w, i) && w'.tasks[i] == w.tasks[i];
      }
    }
  }

  /** A step that only adds idle tasks keeps whatever is pending for a blank view. */
  lemma {:induction false} PendingSurvives(w: World, w': World)
    requires ViewOk(w) && ViewOk(w') && ScopeOk(w) && OnlyIdleTasksAdded(w, w')
    ensures ScopeOk(w')
  {
    forall i | 0 <= i < |w.tasks|
      ensures IsCleaner(w, w.tasks[i]) == IsCleaner(w', w'.tasks[i])
      ensures IsAdopter(w, w.tasks[i]) == IsAdopter(w', w'.tasks[i])
      ensures IsStaleWriter(w, w.tasks[i]) == IsStaleWriter(w', w'.tasks[i])
    {
      assert w'.tasks[i] == w.tasks[i];
    }
    if CleanerPending(w) {
      var i :| 0 <= i < |w.tasks| && IsCleaner(w, w.tasks[i]);
      assert IsCleaner(w', w'.tasks[i]);
    } else if AdoptionPending(w) {
      var i :| 0 <= i < |w.tasks| && IsAdopter(w, w.tasks[i]);
      assert IsAdopter(w', w'.tasks[i]);
    }
  }

  lemma {:induction false} QuietAddsIdleTasks(w: World, step: Step)
    requires Safe(w) && IsQuiet(step)
    ensures ViewOk(Next(w, step)) && BindingOk(Next(w, step)) && OnlyIdleTasksAdded(w, Next(w, step))
  {
    if step.Submit? {
      SubmitAddsIdleTasks(w, step.text, step.files);
    } else if step.EndTurn? || step.ClearIfBlank? {
      SpawningAddsIdleTasks(w, step);
    }
  }

  lemma {:induction false} SubmitAddsIdleTasks(w: World, text: string, files: seq<string>)
    requires Safe(w)
    ensures var w' := DoSubmit(w, text, files); ViewOk(w') && BindingOk(w') && OnlyIdleTasksAdded(w, w')
  {
  }

  lemma {:induction false} SpawningAddsIdleTasks(w: World, step: Step)
    requires Safe(w) && (step.EndTurn? || step.ClearIfBlank?)
    ensures ViewOk(Next(w, step)) && BindingOk(Next(w, step)) && OnlyIdleTasksAdded(w, Next(w, step))
  {
  }

  lemma {:induction false} QuietKeepsSafe(w: World, step: Step)
    requires Safe(w) && IsQuiet(step)
    ensures Safe(Next(w, step))
  {
    QuietAddsIdleTasks(w, step);
    IdleTasksKeepTasks(w, Next(w, step));
    PendingSurvives(w, Next(w, step));
  }

  lemma {:induction false} RestreamKeepsSafe(w: World, b: nat)
    requires Safe(w) && Enabled(w, Restream(b))
    ensures Safe(Next(w, Restream(b)))
  {
    var w' := SetScope(w, b, None);
    forall i | 0 <= i < |w'.tasks| ensures TaskOk(w', i) {
      assert TaskOk(w, i);
      assert w.tasks[i].pc.Holding? ==> w.tasks[i].pc.lock != b;
    }
    forall i | 0 <= i < |w.tasks|
      ensures IsCleaner(w, w.tasks[i]) == IsCleaner(w', w'.tasks[i])
      ensures IsAdopter(w, w.tasks[i]) == IsAdopter(w', w'.tasks[i])
      ensures IsStaleWriter(w, w.tasks[i]) == IsStaleWriter(w', w'.tasks[i])
    {
    }
    if CleanerPending(w) {
      var i :| 0 <= i < |w.tasks| && IsCleaner(w, w.tasks[i]);
      assert IsCleaner(w', w'.tasks[i]);
    } else if AdoptionPending(w) {
      var i :| 0 <= i < |w.tasks| && IsAdopter(w, w.tasks[i]);
      assert IsAdopter(w', w'.tasks[i]);
    }
  }

  // ----- task sections

  /** What one section of task `i` may touch: its own place in the pool, the lock and the
      scope it owns, and, when it owns the current backend, the session on screen. */
  predicate SectionEffect(w: World, w': World, i: nat)
    requires i < |w.tasks|
  {
    && |w'.tasks| == |w.tasks| && |w'.scopes| == |w.scopes| && |w'.owners| == |w.owners|
    && (forall j :: 0 <= j < |w.tasks| && j != i ==> w'.tasks[j] == w.tasks[j])
    && (forall b :: 0 <= b < |w.scopes| && b < |w.owners| ==>
          (w.owners[b] == Some(i) || (w.scopes[b] == w'.scopes[b]
             && (w.owners[b] == w'.owners[b] || w.owners[b] == None))))
    && w'.screen.generation == w.screen.generation && w'.screen.backend == w.screen.backend
    && (forall g :: g in w.log.bound ==> g in w'.log.bound && w'.log.bound[g] == w.log.bound[g])
    && ((w'.screen.stored == w.screen.stored && w'.screen.live == w.screen.live)
        || (w.screen.backend < |w.owners| && w.owners[w.screen.backend] == Some(i)
            && (w.screen.stored.Some? ==> w'.screen.stored == w.screen.stored)))
  }

  lemma {:induction false} OtherTasksKeep(w: World, w': World, i: nat, j: nat)
    requires ViewOk(w) && TasksOk(w) && i < |w.tasks| && SectionEffect(w, w', i)
    requires j < |w.tasks| && j != i
    ensures TaskOk(w', j)
  {
    assert TaskOk(w, j) && w'.tasks[j] == w.tasks[j];
  }

  lemma {:induction false} SectionKeepsTasks(w: World, w': World, i: nat)
    requires ViewOk(w) && TasksOk(w) && i < |w.tasks| && SectionEffect(w, w', i)
    requires TaskOk(w', i)
    ensures TasksOk(w')
  {
    forall j | 0 <= j < |w'.tasks| ensures TaskOk(w', j) {
      if j != i {
        OtherTasksKeep(w, w', i, j);
      }
    }
  }

  predicate SectionSafe(w: World, w': World, i: nat)
    requires i < |w.tasks|
  {
    ViewOk(w') && BindingOk(w') && SectionEffect(w, w', i) && i < |w'.tasks| && TaskOk(w', i)
  }

  lemma {:induction false} OpenOutsideLock(w: World, i: nat, c: Choice)
    requires Safe(w) && Enabled(w, Run(i, c)) && w.tasks[i].job.Open?
    requires !w.tasks[i].pc.Holding?
    ensures SectionSafe(w, RunOpen(w, i, c), i)
  {
    assert TaskOk(w, i);
  }

  predicate IsBeforeResume(phase: Phase) {
    phase.Checking? || phase.Streaming? || phase.Reading?
  }

  lemma {:induction false} OpenChecks(w: World, i: nat, c: Choice)
    requires Safe(w) && Enabled(w, Run(i, c)) && w.tasks[i].job.Open?
    requires w.tasks[i].pc.Holding? && IsBeforeResume(w.tasks[i].pc.phase)
    ensures SectionSafe(w, RunOpen(w, i, c), i)
  {
    assert TaskOk(w, i);
  }

  lemma {:induction false} OpenResumesOrClears(w: World, i: nat, c: Choice)
    requires Safe(w) && Enabled(w, Run(i, c)) && w.tasks[i].job.Open?
    requires w.tasks[i].pc.Holding? && !IsBeforeResume(w.tasks[i].pc.phase)
    requires !w.tasks[i].pc.phase.Resumed?
    ensures SectionSafe(w, RunOpen(w, i, c), i)
  {
    assert TaskOk(w, i);
  }

  lemma {:induction false} OpenAttaches(w: World, i: nat, c: Choice)
    requires Safe(w) && Enabled(w, Run(i, c)) && w.tasks[i].job.Open?
    requires w.tasks[i].pc.Holding? && w.tasks[i].pc.phase.Resumed?
    ensures SectionSafe(w, RunOpen(w, i, c), i)
  {
    assert TaskOk(w, i);
  }

  lemma {:induction false} ClearOutsideLock(w: World, i: nat, c: Choice)
    requires Safe(w) && Enabled(w, Run(i, c)) && w.tasks[i].job.Clear? && !w.tasks[i].pc.Holding?
    ensures SectionSafe(w, RunClear(w, i, c), i)
  {
    assert TaskOk(w, i);
  }

  lemma {:induction false} ClearChecks(w: World, i: nat, c: Choice)
    requires Safe(w) && Enabled(w, Run(i, c)) && w.tasks[i].job.Clear?
    requires w.tasks[i].pc.Holding? && w.tasks[i].pc.phase.Checking?
    ensures SectionSafe(w, RunClear(w, i, c), i)
  {
    assert TaskOk(w, i);
  }

  lemma {:induction false} ClearEmptiesScope(w: World, i: nat, c: Choice)
    requires Safe(w) && Enabled(w, Run(i, c)) && w.tasks[i].job.Clear?
    requires w.tasks[i].pc.Holding? && !w.tasks[i].pc.phase.Checking?
    ensures SectionSafe(w, RunClear(w, i, c), i)
  {
    assert TaskOk(w, i);
  }

  lemma {:induction false} ClearSection(w: World, i: nat, c: Choice)
    requires Safe(w) && Enabled(w, Run(i, c)) && w.tasks[i].job.Clear?
    ensures SectionSafe(w, RunClear(w, i, c), i)
  {
    if !w.tasks[i].pc.Holding? {
      ClearOutsideLock(w, i, c);
    } else if w.tasks[i].pc.phase.Checking? {
      ClearChecks(w, i, c);
    } else {
      ClearEmptiesScope(w, i, c);
    }
  }

  lemma {:induction false} DisconnectSection(w: World, i: nat, c: Choice)
    requires Safe(w) && Enabled(w, Run(i, c)) && w.tasks[i].job.Disconnect?
    ensures SectionSafe(w, RunDisconnect(w, i, c), i)
  {
    assert TaskOk(w, i);
  }

  lemma {:induction false} SendSection(w: World, i: nat, c: Choice)
    requires Safe(w) && Enabled(w, Run(i, c)) && w.tasks[i].job.Send?
    ensures SectionSafe(w, RunSend(w, i), i)
  {
    assert TaskOk(w, i);
  }

  lemma {:induction false} DeliverTakesBack(w: World, i: nat, c: Choice)
    requires Safe(w) && Enabled(w, Run(i, c)) && w.tasks[i].job.Deliver?
    requires w.tasks[i].pc.TakingBack?
    ensures SectionSafe(w, RunDeliver(w, i, c), i)
  {
    assert TaskOk(w, i);
  }

  lemma {:induction false} DeliverOutsideLock(w: World, i: nat, c: Choice)
    requires Safe(w) && Enabled(w, Run(i, c)) && w.tasks[i].job.Deliver?
    requires !w.tasks[i].pc.Holding?
    ensures SectionSafe(w, RunDeliver(w, i, c), i)
  {
    if w.tasks[i].pc.TakingBack? {
      DeliverTakesBack(w, i, c);
    } else {
      assert TaskOk(w, i);
    }
  }

  lemma {:induction false} DeliverChecks(w: World, i: nat, c: Choice)
    requires Safe(w) && Enabled(w, Run(i, c)) && w.tasks[i].job.Deliver?
    requires w.tasks[i].pc.Holding?
    requires (w.tasks[i].pc.phase.Streaming? || w.tasks[i].pc.phase.Checking?)
    ensures SectionSafe(w, RunDeliver(w, i, c), i)
  {
    assert TaskOk(w, i);
  }

  lemma {:induction false} DeliverResumes(w: World, i: nat, c: Choice)
    requires Safe(w) && Enabled(w, Run(i, c)) && w.tasks[i].job.Deliver?
    requires w.tasks[i].pc.Holding?
    requires (w.tasks[i].pc.phase.Resuming? || w.tasks[i].pc.phase.Resumed?)
    ensures SectionSafe(w, RunDeliver(w, i, c), i)
  {
    assert TaskOk(w, i);
  }

  lemma {:induction false} DeliverCreates(w: World, i: nat, c: Choice)
    requires Safe(w) && Enabled(w, Run(i, c)) && w.tasks[i].job.Deliver?
    requires w.tasks[i].pc.Holding?
    requires (w.tasks[i].pc.phase.Clearing? || w.tasks[i].pc.phase.Creating?)
    ensures SectionSafe(w, RunDeliver(w, i, c), i)
  {
    assert TaskOk(w, i);
  }

  lemma {:induction false} DeliverAdopts(w: World, i: nat, c: Choice)
    requires Safe(w) && Enabled(w, Run(i, c)) && w.tasks[i].job.Deliver?
    requires w.tasks[i].pc.Holding? && w.tasks[i].pc.phase.Created?
    ensures SectionSafe(w, RunDeliver(w, i, c), i)
  {
    assert TaskOk(w, i);
  }

  lemma {:induction false} DeliverSubmits(w: World, i: nat, c: Choice)
    requires Safe(w) && Enabled(w, Run(i, c)) && w.tasks[i].job.Deliver?
    requires w.tasks[i].pc.Holding?
    requires (w.tasks[i].pc.phase.Submitting? || w.tasks[i].pc.phase.Reading?)
    ensures SectionSafe(w, RunDeliver(w, i, c), i)
  {
    assert TaskOk(w, i);
  }

  lemma {:induction false} EverySectionIsSafe(w: World, i: nat, c: Choice)
    requires Safe(w) && Enabled(w, Run(i, c))
    ensures SectionSafe(w, RunTask(w, i, c), i)
  {
    var Task(job, pc) := w.tasks[i];
    match job
    case Open(_, _) =>
      if !pc.Holding? {
        OpenOutsideLock(w, i, c);
      } else if IsBeforeResume(pc.phase) {
        OpenChecks(w, i, c);
      } else if pc.phase.Resumed? {
        OpenAttaches(w, i, c);
      } else {
        OpenResumesOrClears(w, i, c);
      }
    case Clear(_) => ClearSection(w, i, c);
    case Disconnect => DisconnectSection(w, i, c);
    case Send(_) => SendSection(w, i, c);
    case Deliver(_, _, _) =>
      if !pc.Holding? {
        DeliverOutsideLock(w, i, c);
      } else {
        match pc.phase
        case Streaming | Checking => DeliverChecks(w, i, c);
        case Resuming(_) | Resumed(_, _) => DeliverResumes(w, i, c);
        case Clearing | Creating => DeliverCreates(w, i, c);
        case Created(_) => DeliverAdopts(w, i, c);
        case Submitting(_) | Reading => DeliverSubmits(w, i, c);
      }
  }

  predicate ScopeMatchesLive(w: World)
    requires w.screen.backend < |w.scopes|
  {
    var scope := w.scopes[w.screen.backend];
    w.screen.live.Some? ==> scope == None || scope == w.screen.live
  }

  lemma {:induction false} OpenKeepsLiveScope(w: World, i: nat, c: Choice)
    requires Safe(w) && Enabled(w, Run(i, c)) && ViewOk(RunTask(w, i, c))
    requires w.tasks[i].job.Open?
    ensures ScopeMatchesLive(RunTask(w, i, c))
  {
    assert TaskOk(w, i);
  }

  lemma {:induction false} DeliverKeepsLiveScope(w: World, i: nat, c: Choice)
    requires Safe(w) && Enabled(w, Run(i, c)) && ViewOk(RunTask(w, i, c))
    requires w.tasks[i].job.Deliver?
    ensures ScopeMatchesLive(RunTask(w, i, c))
  {
    assert TaskOk(w, i);
  }

  lemma {:induction false} SectionsKeepLiveScope(w: World, i: nat, c: Choice)
    requires Safe(w) && Enabled(w, Run(i, c)) && ViewOk(RunTask(w, i, c))
    ensures ScopeMatchesLive(RunTask(w, i, c))
  {
    match w.tasks[i].job
    case Open(_, _) => OpenKeepsLiveScope(w, i, c);
    case Deliver(_, _, _) => DeliverKeepsLiveScope(w, i, c);
    case _ =>
  }

  /** With no cleaner on its way and a clean scope, the only section that scopes the adapter
      to anything in a blank view is the one that just created its session. */
  predicate StaysClean(w: World, w': World, i: nat)
    requires i < |w'.tasks| && w'.screen.backend < |w'.scopes|
  {
    IsAdopter(w', w'.tasks[i])
    || (w'.scopes[w'.screen.backend] == None && !IsStaleWriter(w', w'.tasks[i]))
  }

  predicate IsCleanAndBlank(w: World) {
    && w.screen.stored == None && NoStaleWriter(w)
    && w.screen.backend < |w.scopes| && w.scopes[w.screen.backend] == None
  }

  lemma {:induction false} OpenStaysClean(w: World, i: nat, c: Choice)
    requires Safe(w) && Enabled(w, Run(i, c)) && SectionSafe(w, RunTask(w, i, c), i)
    requires IsCleanAndBlank(w) && RunTask(w, i, c).screen.stored == None
    requires w.tasks[i].job.Open?
    ensures StaysClean(w, RunTask(w, i, c), i)
  {
    assert TaskOk(w, i) && !IsStaleWriter(w, w.tasks[i]);
  }

  predicate IsBeforeCreate(pc: Pc) {
    pc.Holding? ==> pc.phase.Streaming? || pc.phase.Checking? || pc.phase.Resuming? || pc.phase.Resumed?
  }

  lemma {:induction false} EarlyDeliverStaysClean(w: World, i: nat, c: Choice)
    requires Safe(w) && Enabled(w, Run(i, c)) && SectionSafe(w, RunTask(w, i, c), i)
    requires IsCleanAndBlank(w) && RunTask(w, i, c).screen.stored == None
    requires w.tasks[i].job.Deliver? && IsBeforeCreate(w.tasks[i].pc)
    ensures StaysClean(w, RunTask(w, i, c), i)
  {
    assert TaskOk(w, i) && !IsStaleWriter(w, w.tasks[i]);
  }

  lemma {:induction false} LateDeliverStaysClean(w: World, i: nat, c: Choice)
    requires Safe(w) && Enabled(w, Run(i, c)) && SectionSafe(w, RunTask(w, i, c), i)
    requires IsCleanAndBlank(w) && RunTask(w, i, c).screen.stored == None
    requires w.tasks[i].job.Deliver? && !IsBeforeCreate(w.tasks[i].pc)
    ensures StaysClean(w, RunTask(w, i, c), i)
  {
    assert TaskOk(w, i) && !IsStaleWriter(w, w.tasks[i]);
  }

  lemma {:induction false} CleanBlankViewStaysClean(w: World, i: nat, c: Choice)
    requires Safe(w) && Enabled(w, Run(i, c)) && SectionSafe(w, RunTask(w, i, c), i)
    requires IsCleanAndBlank(w) && RunTask(w, i, c).screen.stored == None
    ensures StaysClean(w, RunTask(w, i, c), i)
  {
    match w.tasks[i].job
    case Open(_, _) => OpenStaysClean(w, i, c);
    case Deliver(_, _, _) =>
      if IsBeforeCreate(w.tasks[i].pc) {
        EarlyDeliverStaysClean(w, i, c);
      } else {
        LateDeliverStaysClean(w, i, c);
      }
    case _ => assert TaskOk(w, i);
  }

  /** A pending cleaner stays pending until the section that empties the scope. */
  lemma {:induction false} CleanerMovesOn(w: World, i: nat, c: Choice)
    requires Safe(w) && Enabled(w, Run(i, c)) && IsCleaner(w, w.tasks[i])
    requires w.screen.stored == None
    ensures var w' := RunTask(w, i, c);
      |w'.tasks| == |w.tasks|
      && (IsCleaner(w', w'.tasks[i])
          || (w.owners[w.screen.backend] == Some(i) && w'.scopes[w.screen.backend] == None
              && !w'.tasks[i].pc.Holding?))
  {
    assert TaskOk(w, i);
  }

  lemma {:induction false} OnlyTheOwnerHolds(w: World, i: nat, j: nat)
    requires TasksOk(w) && i < |w.tasks| && j < |w.tasks| && i != j
    requires w.screen.backend < |w.owners| && w.owners[w.screen.backend] == Some(i)
    ensures !IsStaleWriter(w, w.tasks[j]) && !IsAdopter(w, w.tasks[j])
  {
    assert TaskOk(w, j);
  }

  lemma {:induction false} SectionsKeepBlankScope(w: World, i: nat, c: Choice)
    requires Safe(w) && Enabled(w, Run(i, c)) && SectionSafe(w, RunTask(w, i, c), i)
    requires RunTask(w, i, c).screen.stored == None
    ensures var w' := RunTask(w, i, c);
      CleanerPending(w') || AdoptionPending(w')
      || (w'.scopes[w'.screen.backend] == None && NoStaleWriter(w'))
  {
    var w' := RunTask(w, i, c);
    assert w.screen.stored == None;
    if CleanerPending(w) {
      var k :| 0 <= k < |w.tasks| && IsCleaner(w, w.tasks[k]);
      if k != i {
        assert IsCleaner(w', w'.tasks[k]);
      } else {
        CleanerMovesOn(w, i, c);
        if !IsCleaner(w', w'.tasks[i]) {
          forall j | 0 <= j < |w'.tasks| ensures !IsStaleWriter(w', w'.tasks[j]) {
            if j != i {
              OnlyTheOwnerHolds(w, i, j);
              assert w'.tasks[j] == w.tasks[j];
            }
          }
        }
      }
    } else if AdoptionPending(w) {
      var k :| 0 <= k < |w.tasks| && IsAdopter(w, w.tasks[k]);
      if k != i {
        assert IsAdopter(w', w'.tasks[k]);
      } else {
        AdoptersAdopt(w, i, c);
      }
    } else {
      CleanBlankViewStaysClean(w, i, c);
      if !IsAdopter(w', w'.tasks[i]) {
        forall j | 0 <= j < |w'.tasks| ensures !IsStaleWriter(w', w'.tasks[j]) {
          if j != i {
            assert w'.tasks[j] == w.tasks[j];
          }
        }
      }
    }
  }

  lemma {:induction false} AdoptersAdopt(w: World, i: nat, c: Choice)
    requires Safe(w) && Enabled(w, Run(i, c)) && IsAdopter(w, w.tasks[i])
    ensures RunTask(w, i, c).screen.stored != None
  {
    assert TaskOk(w, i);
  }

  lemma {:induction false} RunKeepsSafe(w: World, i: nat, c: Choice)
    requires Safe(w) && Enabled(w, Run(i, c))
    ensures Safe(RunTask(w, i, c))
  {
    var w' := RunTask(w, i, c);
    EverySectionIsSafe(w, i, c);
    SectionKeepsTasks(w, w', i);
    SectionsKeepLiveScope(w, i, c);
    if w'.screen.stored == None {
      SectionsKeepBlankScope(w, i, c);
    }
  }

  lemma {:induction false} StepsKeepSafe(w: World, step: Step)
    requires Safe(w) && Enabled(w, step)
    ensures Safe(Next(w, step))
  {
    match step
    case Run(i, c) => RunKeepsSafe(w, i, c);
    case Restream(b) => RestreamKeepsSafe(w, b);
    case _ =>
      if LeavesView(step) {
        LeavingKeepsSafe(w, step);
      } else {
        QuietKeepsSafe(w, step);
      }
  }

  lemma {:induction false} RunsAreSafe(w: World, steps: seq<Step>)
    requires Safe(w) && IsRun(w, steps)
    ensures Safe(After(w, steps))
    decreases |steps|
  {
    if steps != [] {
      StepsKeepSafe(w, steps[0]);
      RunsAreSafe(Next(w, steps[0]), steps[1..]);
    }
  }
}
