/** The desktop's session protocol as a step system. User commands change the screen
    under its lock; the tasks they spawn queue on one lock per backend, are suspended
    between awaits, and look again at the view generation they captured. Each section
    between two awaits or lock operations is one step, and any task may run next. */
module Protocol {
  import opened Text
  import opened Screens

  datatype Job =
    | Open(generation: nat, session: SessionId)
    | Clear(generation: nat)
    | Disconnect
    | Send(prompt: Prompt)
    | Deliver(generation: nat, prompt: Prompt, turn: nat)

  /** What a task holding a backend lock does next. */
  datatype Phase =
    | Checking
    | Streaming
    | Reading
    | Resuming(session: SessionId)
    | Resumed(session: SessionId, ok: bool)
    | Clearing
    | Creating
    | Created(session: SessionId)
    | Submitting(session: SessionId)

  datatype Pc =
    | Ready
    | Waiting(lock: nat)
    | Holding(lock: nat, phase: Phase)
    | TakingBack
    | Done

  datatype Task = Task(job: Job, pc: Pc)

  datatype Submission = Submission(prompt: Prompt, generation: nat, session: SessionId)

  /** A prompt went on screen, in this view generation and this conversation. */
  datatype Showing = Showing(prompt: Prompt, generation: nat, chat: nat)

  /** What has happened so far; no step reads it except to number prompts and chats. `chat` is
      the conversation on screen, `chatOf` says which conversation each session is, and the
      next new one is numbered `chats`. */
  datatype Log = Log(
    accepted: seq<Prompt>,
    shown: seq<Showing>,
    delivered: seq<Submission>,
    returned: seq<Prompt>,
    cancelled: seq<Prompt>,
    bound: map<nat, SessionId>,
    adopted: seq<nat>,
    chat: nat,
    chats: nat,
    chatOf: map<SessionId, nat>)

  /** `scopes[b]` is the session adapter `b` filters its frames by, `owners[b]` the task
      that holds its lock. */
  datatype World = World(
    screen: Screen,
    scopes: seq<Option<SessionId>>,
    owners: seq<Option<nat>>,
    tasks: seq<Task>,
    log: Log)

  /** How the outside world answers a backend call. */
  datatype Choice = Choice(ok: bool, ready: bool, session: SessionId)

  datatype Step =
    | OpenSession(session: SessionId)
    | NewChat
    | SwitchBackend
    | DisconnectBackend
    | Submit(text: string, files: seq<string>)
    | EndTurn
    | SendQueuedNow(id: nat)
    | EditQueued(id: nat)
    | CancelQueued(id: nat)
    | ClearIfBlank
    | LoseStream(finish: bool)
    | FinishTurn
    | Ask
    | Power(on: bool)
    | Restream(lock: nat)
    | Run(task: nat, choice: Choice)

  predicate IsRunning(t: Task) {
    t.pc != Done
  }

  predicate Enabled(w: World, step: Step) {
    match step
    case Run(i, _) =>
      i < |w.tasks| && IsRunning(w.tasks[i])
      && var pc := w.tasks[i].pc;
      (pc.Waiting? ==> pc.lock < |w.owners| && w.owners[pc.lock] == None)
      && (pc.Holding? ==> pc.lock < |w.scopes| && pc.lock < |w.owners|)
    case Restream(b) => b < |w.scopes| && b < |w.owners| && w.owners[b] == None
    case _ => true
  }

  function Spawn(w: World, job: Job, pc: Pc): World {
    w.(tasks := w.tasks + [Task(job, pc)])
  }

  function Move(w: World, i: nat, pc: Pc): World
    requires i < |w.tasks|
  {
    w.(tasks := w.tasks[i := w.tasks[i].(pc := pc)])
  }

  function Acquire(w: World, i: nat, b: nat, phase: Phase): World
    requires i < |w.tasks| && b < |w.owners|
  {
    Move(w, i, Holding(b, phase)).(owners := w.owners[b := Some(i)])
  }

  function Release(w: World, i: nat, b: nat, pc: Pc): World
    requires i < |w.tasks| && b < |w.owners|
  {
    Move(w, i, pc).(owners := w.owners[b := None])
  }

  function SetScope(w: World, b: nat, scope: Option<SessionId>): World
    requires b < |w.scopes|
  {
    w.(scopes := w.scopes[b := scope])
  }

  // ----- commands

  function BindView(log: Log, generation: nat, stored: Option<SessionId>): Log {
    if stored.Some? then log.(bound := log.bound[generation := stored.value]) else log
  }

  /** A session that was on screen before is the conversation it was then. */
  function EnterChat(log: Log, stored: Option<SessionId>): Log {
    if stored.Some? && stored.value in log.chatOf then log.(chat := log.chatOf[stored.value])
    else
      log.(chat := log.chats, chats := log.chats + 1,
           chatOf := if stored.Some? then log.chatOf[stored.value := log.chats] else log.chatOf)
  }

  function LeaveChat(w: World, screen: Screen): World {
    var log := BindView(w.log, screen.generation, screen.stored).(returned := w.log.returned + w.screen.queue);
    w.(screen := screen, log := EnterChat(log, screen.stored))
  }

  function DoOpen(w: World, id: SessionId): World {
    var w1 := LeaveChat(w, Opened(w.screen, id));
    if w.screen.enabled then Spawn(w1, Open(w1.screen.generation, id), Ready) else w1
  }

  function SpawnClear(w: World): World {
    Spawn(w, Clear(w.screen.generation), Waiting(w.screen.backend))
  }

  function DoSwitch(w: World): World {
    var w1 := LeaveChat(w, Switched(w.screen, |w.scopes|));
    Spawn(w1.(scopes := w.scopes + [None], owners := w.owners + [None]),
          Disconnect, Waiting(w.screen.backend))
  }

  function DoDisconnect(w: World): World {
    var s := Disconnected(w.screen);
    Spawn(w.(screen := s, log := BindView(w.log, s.generation, s.stored)),
          Disconnect, Waiting(s.backend))
  }

  function NewPrompt(w: World, text: string, files: seq<string>): Prompt {
    Prompt(|w.log.accepted|, Trim(text), files, w.log.chat)
  }

  function DoSubmit(w: World, text: string, files: seq<string>): World {
    var prompt := NewPrompt(w, text, files);
    var verdict := SubmitVerdict(w.screen, text, files);
    var w1 := w.(screen := Submitted(w.screen, prompt, verdict));
    match verdict
    case Ignored | Refused => w1
    case Answering => w1.(screen := OnScreen(w1.screen).(asking := false))
    case Queued => w1.(log := w.log.(accepted := w.log.accepted + [prompt]))
    case ToSend =>
      Spawn(w1.(log := w.log.(accepted := w.log.accepted + [prompt])), Send(prompt), Ready)
  }

  function DoEndTurn(w: World): World {
    var w1 := w.(screen := AfterTurn(w.screen));
    if NextIsDue(w.screen) then Spawn(w1, Send(w.screen.queue[0]), Ready) else w1
  }

  function DoEdit(w: World, id: nat): World {
    var i := FirstWithId(w.screen.queue, id);
    if i == |w.screen.queue| then w
    else w.(screen := Edited(w.screen, id),
            log := w.log.(returned := w.log.returned + [w.screen.queue[i]]))
  }

  // ----- task sections

  /** `ensure_stream`: nothing happens to the adapter when its stream is up already, or when
      the attempt fails before it reaches the adapter; connecting empties the scope. */
  function Streamed(w: World, b: nat, c: Choice): World
    requires b < |w.scopes|
  {
    if c.ready then w else SetScope(w, b, None)
  }

  function RunOpen(w: World, i: nat, c: Choice): World
    requires Enabled(w, Run(i, c)) && w.tasks[i].job.Open?
  {
    var Task(job, pc) := w.tasks[i];
    var current := ViewIsCurrent(w.screen, job.generation, Some(job.session));
    match pc
    case Ready => Move(w, i, Waiting(w.screen.backend))
    case Waiting(b) => Acquire(w, i, b, Checking)
    case Holding(b, phase) =>
      (match phase
       case Checking =>
         if current then Move(w, i, Holding(b, Streaming)) else Release(w, i, b, Done)
       case Streaming =>
         var w1 := Streamed(w, b, c);
         if c.ok then Move(w1, i, Holding(b, Reading)) else Release(w1, i, b, Done)
       case Reading =>
         if current then Move(w, i, Holding(b, Resuming(job.session))) else Release(w, i, b, Done)
       case Resuming(id) =>
         var w1 := if c.ok then SetScope(w, b, Some(id)) else w;
         Move(w1, i, Holding(b, Resumed(id, c.ok)))
       case Resumed(id, ok) =>
         if !current then
           if w.screen.selected == None then Move(w, i, Holding(b, Clearing))
           else Release(w, i, b, Done)
         else if ok then Release(w.(screen := Attached(w.screen, id)), i, b, Done)
         else Release(w, i, b, Done)
       case _ => Release(SetScope(w, b, None), i, b, Done))
    case _ => w
  }

  function RunClear(w: World, i: nat, c: Choice): World
    requires Enabled(w, Run(i, c)) && w.tasks[i].job.Clear?
  {
    var Task(job, pc) := w.tasks[i];
    match pc
    case Waiting(b) => Acquire(w, i, b, Checking)
    case Holding(b, phase) =>
      if phase != Checking then Release(SetScope(w, b, None), i, b, Done)
      else if ViewIsCurrent(w.screen, job.generation, None) then Move(w, i, Holding(b, Clearing))
      else Release(w, i, b, Done)
    case _ => w
  }

  function RunDisconnect(w: World, i: nat, c: Choice): World
    requires Enabled(w, Run(i, c)) && w.tasks[i].job.Disconnect?
  {
    match w.tasks[i].pc
    case Waiting(b) => Acquire(w, i, b, Clearing)
    case Holding(b, _) => Release(SetScope(w, b, None), i, b, Done)
    case _ => w
  }

  /** `send`: a second locked section, after the one that decided to send. */
  function RunSend(w: World, i: nat): World
    requires i < |w.tasks| && w.tasks[i].job.Send?
  {
    var prompt := w.tasks[i].job.prompt;
    var s := OnScreen(w.screen);
    w.(screen := s,
       tasks := w.tasks[i := Task(Deliver(s.generation, prompt, s.turnSeq), Ready)],
       log := w.log.(shown := w.log.shown + [Showing(prompt, s.generation, w.log.chat)]))
  }

  function RunDeliver(w: World, i: nat, c: Choice): World
    requires Enabled(w, Run(i, c)) && w.tasks[i].job.Deliver?
  {
    var Task(job, pc) := w.tasks[i];
    var current := job.generation == w.screen.generation;
    match pc
    case Ready => if c.ok then Move(w, i, Waiting(w.screen.backend)) else Move(w, i, TakingBack)
    case Waiting(b) => Acquire(w, i, b, Streaming)
    case Holding(b, phase) =>
      (match phase
       case Streaming =>
         var w1 := Streamed(w, b, c);
         if c.ok then Move(w1, i, Holding(b, Checking)) else Release(w1, i, b, TakingBack)
       case Checking =>
         if !current then Release(w, i, b, TakingBack)
         else if w.screen.live.Some? then Move(w, i, Holding(b, Submitting(w.screen.live.value)))
         else if w.screen.stored.Some? then
           Move(w, i, Holding(b, Resuming(w.screen.stored.value)))
         else Move(w, i, Holding(b, Clearing))
       case Resuming(id) =>
         if c.ok then Move(SetScope(w, b, Some(id)), i, Holding(b, Resumed(id, true)))
         else Release(w, i, b, TakingBack)
       case Resumed(id, _) =>
         if !current then Release(w, i, b, TakingBack)
         else Move(w.(screen := Attached(w.screen, id)), i, Holding(b, Submitting(id)))
       case Clearing => Move(SetScope(w, b, None), i, Holding(b, Creating))
       case Creating =>
         if c.ok then Move(SetScope(w, b, Some(c.session)), i, Holding(b, Created(c.session)))
         else Release(w, i, b, TakingBack)
       case Created(id) =>
         if !current then Release(w, i, b, TakingBack)
         else
           Move(w.(screen := Adopted(w.screen, id),
                   log := BindView(w.log, job.generation, Some(id))
                          .(adopted := w.log.adopted + [job.generation],
                            chatOf := w.log.chatOf[id := w.log.chat])),
                i, Holding(b, Submitting(id)))
       case Submitting(id) =>
         // One adapter scopes itself to the session again when it submits.
         var w1 := if c.ready then SetScope(w, b, Some(id)) else w;
         if c.ok then
           Release(w1.(log := w.log.(delivered := w.log.delivered
                                      + [Submission(job.prompt, job.generation, id)])),
                   i, b, Done)
         else Release(w1, i, b, TakingBack)
       case _ => Release(w, i, b, TakingBack))
    case Done => w
    case TakingBack =>
      Move(w.(screen := TakenBack(w.screen, job.prompt, job.turn),
              log := w.log.(returned := w.log.returned + [job.prompt])), i, Done)
  }

  function RunTask(w: World, i: nat, c: Choice): World
    requires Enabled(w, Run(i, c))
  {
    match w.tasks[i].job
    case Open(_, _) => RunOpen(w, i, c)
    case Clear(_) => RunClear(w, i, c)
    case Disconnect => RunDisconnect(w, i, c)
    case Send(_) => RunSend(w, i)
    case Deliver(_, _, _) => RunDeliver(w, i, c)
  }

  function Next(w: World, step: Step): World
    requires Enabled(w, step)
  {
    match step
    case OpenSession(id) => DoOpen(w, id)
    case NewChat => SpawnClear(LeaveChat(w, Blanked(w.screen)))
    case SwitchBackend => DoSwitch(w)
    case DisconnectBackend => DoDisconnect(w)
    case Submit(text, files) => DoSubmit(w, text, files)
    case EndTurn => DoEndTurn(w)
    case SendQueuedNow(id) => w.(screen := MovedToFront(w.screen, id))
    case EditQueued(id) => DoEdit(w, id)
    case CancelQueued(id) =>
      w.(screen := Cancelled(w.screen, id),
         log := w.log.(cancelled := w.log.cancelled + Drop(w.screen.queue, id)))
    case ClearIfBlank => SpawnClear(w)
    case LoseStream(finish) =>
      w.(screen := w.screen.(live := None, asking := w.screen.asking && !finish,
                            sending := w.screen.sending && !finish))
    case FinishTurn => w.(screen := w.screen.(sending := false))
    case Ask => w.(screen := w.screen.(asking := true))
    case Power(on) => w.(screen := w.screen.(enabled := on))
    case Restream(b) => SetScope(w, b, None)
    case Run(i, c) => RunTask(w, i, c)
  }

  // ----- runs

  predicate Init(w: World) {
    && w.screen == Screen(0, 0, w.screen.selected, None, w.screen.selected, [], [], false, 0, false,
                          w.screen.enabled)
    && w.scopes == [None] && w.owners == [None] && w.tasks == []
    && w.log == EnterChat(BindView(Log([], [], [], [], [], map[], [], 0, 0, map[]), 0, w.screen.stored),
                          w.screen.stored)
  }

  predicate IsRun(w: World, steps: seq<Step>)
    decreases |steps|
  {
    steps == [] || (Enabled(w, steps[0]) && IsRun(Next(w, steps[0]), steps[1..]))
  }

  function After(w: World, steps: seq<Step>): World
    requires IsRun(w, steps)
    decreases |steps|
  {
    if steps == [] then w else After(Next(w, steps[0]), steps[1..])
  }
}
