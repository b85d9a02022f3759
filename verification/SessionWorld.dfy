/**
 The session manager with its goroutines.

 A `World` is the guarded state together with the program counter of every goroutine in flight, the
 holder of `ptyMu` and the log of every PTY. An `Action` is one atomic step of one goroutine; everything
 the wrapper cannot control (write errors, process deaths, transcript contents, the clock, scheduling) is
 a parameter of the action. `Apply` says what the step does.
 */
module SessionWorld {
  import opened Wrappers
  import opened TurnStore
  import opened SessionCore
  import opened SessionPty

  /** What a goroutine that takes `ptyMu` is writing. */
  datatype Job =
    | TurnPrompt(id: TurnId, text: string)
    | Resubmit(id: TurnId, text: string)
    | Nudge(id: TurnId)
    | ProbeText(text: string)
    | EscapeKey(id: TurnId)

  predicate HasPaste(job: Job) { job.TurnPrompt? || job.Resubmit? || job.ProbeText? }

  function PastedText(job: Job): string
    requires HasPaste(job)
  {
    match job case TurnPrompt(_, text) => text case Resubmit(_, text) => text case ProbeText(text) => text
  }

  function PastedFor(job: Job): TurnId
    requires HasPaste(job)
  {
    match job case TurnPrompt(id, _) => id case Resubmit(id, _) => id case ProbeText(_) => IDLE
  }

  datatype Phase = Waiting | Locked | Pasted

  /** Where a goroutine stands. A goroutine that has returned is not in the pool. */
  datatype Pc =
    | Admitted(text: string, callbackURL: string)
    | Writing(job: Job, pty: ProcId, phase: Phase)
    | SubmitFailed(id: TurnId)
    | Arming(id: TurnId)
    | Watching(proc: ProcId)
    | Relaunching(inFlight: TurnId)
    | Spawning(inFlight: TurnId, resume: bool)
    | BootWait(inFlight: TurnId, resume: bool, proc: ProcId)
    | RelaunchFailed(inFlight: TurnId)
    | Failing(id: TurnId)
    | Resuming(id: TurnId, resumed: bool)
    | Finishing(id: TurnId)
    | TimerDue(id: TurnId)
    | Polling(id: TurnId)
    | Interrupted(id: TurnId)

  /**
   `firing` holds the turns whose goroutine has cleared the slot and is about to call OnTurnDone, `fired`
   those handed over, and `writeFailed` those ended by failSubmitWrite, which calls nobody.
   */
  datatype World = World(
    cfg: Config,
    core: Core,
    threads: map<Tid, Pc>,
    holder: Option<Tid>,
    logs: map<ProcId, seq<PtyEvent>>,
    firing: multiset<TurnId>,
    fired: multiset<TurnId>,
    writeFailed: multiset<TurnId>)

  function Init(cfg: Config): World {
    World(cfg, INITIAL, map[], None, map[], multiset{}, multiset{}, multiset{})
  }

  /** Submit, from its admission to the timer it installs. */
  datatype SubmitAction =
    | SubmitCall(t: Tid, handoff: bool, text: string, callbackURL: string, now: Time)
    | SubmitReserve(t: Tid, id: TurnId, now: Time)
    | SubmitFail(t: Tid, reason: string, now: Time)
    | SubmitArm(t: Tid)

  /** A goroutine that writes to a PTY under `ptyMu`. */
  datatype PtyAction =
    | Lock(t: Tid)
    | WritePaste(t: Tid, ok: bool)
    | WriteKey(t: Tid, ok: bool)

  /** Start, watch, relaunch and bootWait. */
  datatype CrashAction =
    | Start(p: ProcId, watcher: Tid, booter: Tid)
    | Death(t: Tid)
    | DecideResume(t: Tid, onDisk: bool)
    | SpawnFail(t: Tid)
    | SpawnOk(t: Tid, p: ProcId, watcher: Tid)
    | BootEnd(t: Tid, settled: bool)
    | DropRelaunch(t: Tid)

  /** The last message of the restored transcript, when the file can be read. */
  datatype Ending = NoEnding | Ending(role: string, stopReason: string)

  /** What becomes of the turn a crash interrupted. */
  datatype ResumeAction =
    | FailTurn(t: Tid, reason: string, now: Time)
    | ResumeTurn(t: Tid, last: Ending)
    | CompleteFromTranscript(t: Tid, finalText: string, usage: string, stopReason: string, now: Time)
    | InstallTimer(t: Tid)

  datatype InterruptAction =
    | InterruptCall(t: Tid)
    | PollTranscript(t: Tid, marker: bool, expired: bool)
    | CompleteInterrupt(t: Tid, finalText: string, usage: string, now: Time)

  /** Hooks, timers, transcript lines and files, probes, shutdown and the hand-over of a finished turn. */
  datatype SignalAction =
    | Hook(r: HookResult, now: Time)
    | Stall(id: TurnId, now: Time)
    | Activity(id: TurnId, now: Time)
    | Discovered(path: string)
    | ProbeCall(t: Tid, text: string)
    | Shutdown
    | Deliver(id: TurnId)

  datatype Action =
    | OnSubmit(submit: SubmitAction)
    | OnPty(pty: PtyAction)
    | OnCrash(crash: CrashAction)
    | OnResume(resume: ResumeAction)
    | OnInterrupt(interrupt: InterruptAction)
    | OnSignal(signal: SignalAction)

  /** The goroutine t goes on at pc, or returns. */
  function Goto(threads: map<Tid, Pc>, t: Tid, pc: Option<Pc>): map<Tid, Pc> {
    match pc case Some(next) => threads[t := next] case None => threads - {t}
  }

  function Append(logs: map<ProcId, seq<PtyEvent>>, w: ProcId, e: PtyEvent): map<ProcId, seq<PtyEvent>> {
    logs[w := (if w in logs then logs[w] else []) + [e]]
  }

  /** Where a writer goes once `ptyMu` is released. */
  function AfterWrite(job: Job, ok: bool): Option<Pc> {
    match job
    case TurnPrompt(id, _) => Some(if ok then Arming(id) else SubmitFailed(id))
    case Resubmit(id, _) => Some(if ok then TimerDue(id) else Failing(id))
    case Nudge(id) => Some(if ok then TimerDue(id) else Failing(id))
    case ProbeText(_) => None
    case EscapeKey(id) => if ok && id != IDLE then Some(Polling(id)) else None
  }

  /** The goroutine t, or none, returns after a critical section that may have ended turn id. */
  function Finish(s: World, t: Tid, r: (Core, bool), id: TurnId): World {
    s.(core := r.0, threads := s.threads - {t}, firing := s.firing + (if r.1 then multiset{id} else multiset{}))
  }

  function Orphan(inFlight: TurnId): Option<Pc> {
    if inFlight != IDLE then Some(Failing(inFlight)) else None
  }

  predicate At(s: World, t: Tid) { t in s.threads }

  // ---------------------------------------------------------------- Submit

  predicate CanSubmit(s: World, a: SubmitAction) {
    match a
    case SubmitCall(t, _, _, _, _) => !At(s, t)
    case SubmitReserve(t, id, _) => At(s, t) && s.threads[t].Admitted? && id != IDLE && id !in s.core.store.byID
    case SubmitFail(t, _, _) => At(s, t) && s.threads[t].SubmitFailed?
    case SubmitArm(t) => At(s, t) && s.threads[t].Arming?
  }

  function Submitted(s: World, a: SubmitAction): World
    requires CanSubmit(s, a)
  {
    match a
    case SubmitCall(t, handoff, text, callbackURL, now) =>
      var (c, admitted) := Admit(s.core, s.cfg, handoff, now);
      s.(core := c, threads := Goto(s.threads, t, if admitted then Some(Admitted(text, callbackURL)) else None))
    case SubmitReserve(t, id, now) =>
      var text := s.threads[t].text;
      var (c, verdict) := ReserveSlot(s.core, id, text, s.threads[t].callbackURL, now);
      s.(core := c,
         threads := Goto(s.threads, t,
                         if verdict == Reserved then Some(Writing(TurnPrompt(id, text), s.core.proc, Waiting)) else None))
    case SubmitFail(t, reason, now) =>
      var id := s.threads[t].id;
      var (c, ended) := FailWrite(s.core, id, reason, now);
      s.(core := c, threads := s.threads - {t},
         writeFailed := s.writeFailed + (if ended then multiset{id} else multiset{}))
    case SubmitArm(t) => s.(core := ArmTimer(s.core, s.threads[t].id), threads := s.threads - {t})
  }

  // ---------------------------------------------------------------- writes under ptyMu

  predicate CanWrite(s: World, a: PtyAction) {
    && At(s, a.t) && s.threads[a.t].Writing?
    && match a
       case Lock(t) => s.threads[t].phase == Waiting && s.holder.None?
       case WritePaste(t, _) => s.threads[t].phase == Locked && HasPaste(s.threads[t].job)
       case WriteKey(t, _) => s.threads[t].phase == (if HasPaste(s.threads[t].job) then Pasted else Locked)
  }

  function Wrote(s: World, a: PtyAction): World
    requires CanWrite(s, a)
  {
    var Writing(job, w, _) := s.threads[a.t];
    match a
    case Lock(t) => s.(holder := Some(t), threads := s.threads[t := Writing(job, w, Locked)])
    case WritePaste(t, ok) =>
      if ok then
        s.(threads := s.threads[t := Writing(job, w, Pasted)],
           logs := Append(s.logs, w, Paste(t, PastedFor(job), PastedText(job))))
      else
        s.(threads := Goto(s.threads, t, AfterWrite(job, false)), logs := Append(s.logs, w, Cut(t)), holder := None)
    case WriteKey(t, ok) =>
      var e := if !ok then Cut(t) else if job.EscapeKey? then Esc(t) else Key(t);
      s.(threads := Goto(s.threads, t, AfterWrite(job, ok)), logs := Append(s.logs, w, e), holder := None)
  }

  // ---------------------------------------------------------------- crashes and relaunches

  predicate CanCrash(s: World, a: CrashAction) {
    match a
    case Start(p, watcher, booter) =>
      && s.core.proc == NO_PROC && p != NO_PROC && p !in s.logs
      && !At(s, watcher) && !At(s, booter) && watcher != booter
    case Death(t) => At(s, t) && s.threads[t].Watching?
    case DecideResume(t, _) => At(s, t) && s.threads[t].Relaunching?
    case SpawnFail(t) => At(s, t) && s.threads[t].Spawning?
    case SpawnOk(t, p, watcher) =>
      At(s, t) && s.threads[t].Spawning? && p != NO_PROC && p !in s.logs && !At(s, watcher)
    case BootEnd(t, _) => At(s, t) && s.threads[t].BootWait?
    case DropRelaunch(t) => At(s, t) && s.threads[t].RelaunchFailed?
  }

  function Crashed(s: World, a: CrashAction): World
    requires CanCrash(s, a)
  {
    match a
    case Start(p, watcher, booter) =>
      s.(core := s.core.(proc := p), logs := s.logs[p := []],
         threads := s.threads[watcher := Watching(p)][booter := BootWait(IDLE, false, p)])
    case Death(t) =>
      var (c, verdict) := ProcessDied(s.core, s.cfg);
      var next := match verdict
        case Stopped => None
        case Exhausted(lost) => Orphan(lost)
        case MayRelaunch(inFlight) => Some(Relaunching(inFlight));
      s.(core := c, threads := Goto(s.threads, t, next))
    case DecideResume(t, onDisk) =>
      s.(threads := s.threads[t := Spawning(s.threads[t].inFlight, ShouldResume(s.core, onDisk))])
    case SpawnFail(t) => s.(threads := s.threads[t := RelaunchFailed(s.threads[t].inFlight)])
    case SpawnOk(t, p, watcher) =>
      var Spawning(inFlight, resume) := s.threads[t];
      var (c, installed) := InstallProc(s.core, p);
      if installed then
        s.(core := c, threads := s.threads[t := BootWait(inFlight, resume, p)][watcher := Watching(p)],
           logs := s.logs[p := []])
      else
        s.(threads := s.threads[t := RelaunchFailed(inFlight)])
    case BootEnd(t, settled) =>
      var BootWait(inFlight, resume, p) := s.threads[t];
      s.(core := if settled then BootDone(s.core, p) else s.core,
         threads := Goto(s.threads, t, if inFlight != IDLE then Some(Resuming(inFlight, resume)) else None))
    case DropRelaunch(t) =>
      s.(core := MarkDead(s.core), threads := Goto(s.threads, t, Orphan(s.threads[t].inFlight)))
  }

  // ---------------------------------------------------------------- the interrupted turn

  predicate CanResume(s: World, a: ResumeAction) {
    && At(s, a.t)
    && match a
       case FailTurn(t, _, _) => s.threads[t].Failing?
       case ResumeTurn(t, _) => s.threads[t].Resuming?
       case CompleteFromTranscript(t, _, _, _, _) => s.threads[t].Finishing?
       case InstallTimer(t) => s.threads[t].TimerDue?
  }

  /** A tool_use is a pause in the middle of a turn. */
  predicate Answered(last: Ending) {
    last.Ending? && last.role == "assistant" && last.stopReason != "" && last.stopReason != "tool_use"
  }

  /** resumeTurn: where the goroutine goes. The prompt it may paste again comes from the store. */
  function ResumePlan(c: Core, id: TurnId, resumed: bool, last: Ending): Option<Pc> {
    if c.current != id || c.state != Ready || c.proc == NO_PROC then None
    else if !resumed then
      Some(Writing(if id !in c.store.byID || c.store.byID[id].text == "" then Nudge(id)
                   else Resubmit(id, c.store.byID[id].text), c.proc, Waiting))
    else if Answered(last) && c.transcriptPath != "" then Some(Finishing(id))
    else Some(Writing(Nudge(id), c.proc, Waiting))
  }

  function Resumed(s: World, a: ResumeAction): World
    requires CanResume(s, a)
  {
    match a
    case FailTurn(t, reason, now) =>
      Finish(s, t, FailInFlight(s.core, s.threads[t].id, reason, now), s.threads[t].id)
    case ResumeTurn(t, last) =>
      s.(threads := Goto(s.threads, t, ResumePlan(s.core, s.threads[t].id, s.threads[t].resumed, last)))
    case CompleteFromTranscript(t, finalText, usage, stopReason, now) =>
      Finish(s, t, FinishFromTranscript(s.core, s.threads[t].id, finalText, usage, stopReason, now), s.threads[t].id)
    case InstallTimer(t) => s.(core := ResumeTimer(s.core, s.threads[t].id), threads := s.threads - {t})
  }

  // ---------------------------------------------------------------- interrupts

  predicate CanInterrupt(s: World, a: InterruptAction) {
    match a
    case InterruptCall(t) => !At(s, t)
    case PollTranscript(t, _, _) => At(s, t) && s.threads[t].Polling?
    case CompleteInterrupt(t, _, _, _) => At(s, t) && s.threads[t].Interrupted?
  }

  function PollPlan(c: Core, id: TurnId, marker: bool, expired: bool): Option<Pc> {
    if c.stopping || c.current != id then None
    else if c.transcriptPath != "" && marker then Some(Interrupted(id))
    else if expired then None
    else Some(Polling(id))
  }

  function InterruptedWorld(s: World, a: InterruptAction): World
    requires CanInterrupt(s, a)
  {
    match a
    case InterruptCall(t) =>
      if PtyAvailable(s.core)
      then s.(threads := s.threads[t := Writing(EscapeKey(s.core.current), s.core.proc, Waiting)]) else s
    case PollTranscript(t, marker, expired) =>
      s.(threads := Goto(s.threads, t, PollPlan(s.core, s.threads[t].id, marker, expired)))
    case CompleteInterrupt(t, finalText, usage, now) =>
      Finish(s, t, FinishInterrupted(s.core, s.threads[t].id, finalText, usage, now), s.threads[t].id)
  }

  // ---------------------------------------------------------------- everything else

  predicate CanSignal(s: World, a: SignalAction) {
    match a
    case Hook(_, _) => true
    case Stall(id, _) => id != IDLE
    case Activity(_, _) => true
    case Discovered(_) => true
    case ProbeCall(t, _) => !At(s, t)
    case Shutdown => true
    case Deliver(id) => id in s.firing
  }

  function Signalled(s: World, a: SignalAction): World
    requires CanSignal(s, a)
  {
    match a
    case Hook(r, now) =>
      var (c, verdict) := HookArrives(s.core, r, now);
      s.(core := c, firing := s.firing + (if verdict.Accepted? then multiset{verdict.turn} else multiset{}))
    case Stall(id, now) => s.(core := MarkStall(s.core, id, now))
    case Activity(id, now) => s.(core := TailerActivity(s.core, id, now))
    case Discovered(path) => s.(core := TranscriptFound(s.core, path))
    case ProbeCall(t, text) =>
      if PtyAvailable(s.core) then s.(threads := s.threads[t := Writing(ProbeText(text), s.core.proc, Waiting)]) else s
    case Shutdown => s.(core := ShutDown(s.core))
    case Deliver(id) => s.(firing := s.firing - multiset{id}, fired := s.fired + multiset{id})
  }

  // ---------------------------------------------------------------- runs

  /** When a step can be taken. Ids of turns, goroutines and processes are fresh when they are made. */
  predicate Enabled(s: World, a: Action) {
    match a
    case OnSubmit(x) => CanSubmit(s, x)
    case OnPty(x) => CanWrite(s, x)
    case OnCrash(x) => CanCrash(s, x)
    case OnResume(x) => CanResume(s, x)
    case OnInterrupt(x) => CanInterrupt(s, x)
    case OnSignal(x) => CanSignal(s, x)
  }

  function Apply(s: World, a: Action): World
    requires Enabled(s, a)
  {
    match a
    case OnSubmit(x) => Submitted(s, x)
    case OnPty(x) => Wrote(s, x)
    case OnCrash(x) => Crashed(s, x)
    case OnResume(x) => Resumed(s, x)
    case OnInterrupt(x) => InterruptedWorld(s, x)
    case OnSignal(x) => Signalled(s, x)
  }

  predicate CanRun(s: World, run: seq<Action>)
    decreases |run|
  {
    run == [] || (Enabled(s, run[0]) && CanRun(Apply(s, run[0]), run[1..]))
  }

  function Run(s: World, run: seq<Action>): World
    requires CanRun(s, run)
    decreases |run|
  {
    if run == [] then s else Run(Apply(s, run[0]), run[1..])
  }
}
