/**
 What holds after every run of the session manager, whatever the interleaving of submits, hooks, crashes,
 relaunches, resumes, interrupts, write errors, stall timers, probes and shutdown.
 */
module SessionRuns {
  import opened Wrappers
  import opened TurnStore
  import opened SessionCore
  import opened SessionSlot
  import opened SessionPty
  import opened SessionWorld

  // ---------------------------------------------------------------- the invariant

  /** A finished turn is about to be handed over, has been, or ended in a failed write: exactly one of these. */
  ghost predicate DeliveryInv(s: World) {
    forall id :: s.firing[id] + s.fired[id] + s.writeFailed[id] == (if Terminal(s.core, id) then 1 else 0)
  }

  predicate PcOk(pc: Pc) {
    match pc
    case Admitted(_, _) => true
    case Writing(job, w, phase) =>
      && w != NO_PROC
      && (phase == Pasted ==> HasPaste(job))
      && (job.TurnPrompt? || job.Resubmit? || job.Nudge? ==> job.id != IDLE)
    case Watching(p) => p != NO_PROC
    case BootWait(_, _, p) => p != NO_PROC
    case Relaunching(_) => true
    case Spawning(_, _) => true
    case RelaunchFailed(_) => true
    case SubmitFailed(id) => id != IDLE
    case Arming(id) => id != IDLE
    case Failing(id) => id != IDLE
    case Resuming(id, _) => id != IDLE
    case Finishing(id) => id != IDLE
    case TimerDue(id) => id != IDLE
    case Polling(id) => id != IDLE
    case Interrupted(id) => id != IDLE
  }

  ghost predicate ThreadInv(s: World) {
    forall t :: t in s.threads ==> PcOk(s.threads[t])
  }

  predicate InSection(pc: Pc) { pc.Writing? && pc.phase != Waiting }

  /** Only the holder of `ptyMu` is between its lock and its unlock. */
  ghost predicate LockInv(s: World) {
    && (s.holder.Some? ==> s.holder.value in s.threads)
    && (forall t :: t in s.threads ==> (InSection(s.threads[t]) <==> s.holder == Some(t)))
  }

  function CursorOf(s: World, w: ProcId): Cursor {
    if s.holder.Some? && s.holder.value in s.threads && s.threads[s.holder.value].Writing?
       && s.threads[s.holder.value].phase == Pasted && s.threads[s.holder.value].pty == w
    then Inside(s.holder.value)
    else Between
  }

  ghost predicate LogInv(s: World) {
    && (forall w :: w in s.logs ==> Scan(s.logs[w]) == CursorOf(s, w))
    && (forall t :: t in s.threads && s.threads[t].Writing? && s.threads[t].phase == Pasted ==>
                      s.threads[t].pty in s.logs)
  }

  predicate TrueText(c: Core, turn: TurnId, text: string) {
    turn == IDLE || (turn in c.store.byID && c.store.byID[turn].text == text)
  }

  predicate TrueEvent(c: Core, e: PtyEvent) {
    e.Paste? ==> TrueText(c, e.turn, e.text)
  }

  predicate TruePc(c: Core, pc: Pc) {
    pc.Writing? && HasPaste(pc.job) ==> TrueText(c, PastedFor(pc.job), PastedText(pc.job))
  }

  /** Whatever is pasted for a turn is the prompt that turn was created with. */
  ghost predicate PromptInv(s: World) {
    && (forall t :: t in s.threads ==> TruePc(s.core, s.threads[t]))
    && (forall w, i :: w in s.logs && 0 <= i < |s.logs[w]| ==> TrueEvent(s.core, s.logs[w][i]))
  }

  ghost predicate Inv(s: World) {
    && CoreInv(s.core, s.cfg.maxRestarts)
    && DeliveryInv(s) && ThreadInv(s) && LockInv(s) && LogInv(s) && PromptInv(s)
  }

  // ---------------------------------------------------------------- one step

  /** The turn each kind of step ends, or IDLE. */
  function EndedBy(s: World, a: Action): TurnId
    requires Enabled(s, a)
  {
    match a
    case OnSubmit(SubmitFail(t, reason, now)) =>
      if FailWrite(s.core, s.threads[t].id, reason, now).1 then s.threads[t].id else IDLE
    case OnResume(FailTurn(t, reason, now)) =>
      if FailInFlight(s.core, s.threads[t].id, reason, now).1 then s.threads[t].id else IDLE
    case OnResume(CompleteFromTranscript(t, finalText, usage, stopReason, now)) =>
      if FinishFromTranscript(s.core, s.threads[t].id, finalText, usage, stopReason, now).1 then s.threads[t].id else IDLE
    case OnInterrupt(CompleteInterrupt(t, finalText, usage, now)) =>
      if FinishInterrupted(s.core, s.threads[t].id, finalText, usage, now).1 then s.threads[t].id else IDLE
    case OnSignal(Hook(r, now)) =>
      var v := HookArrives(s.core, r, now).1; if v.Accepted? then v.turn else IDLE
    case _ => IDLE
  }

  lemma SubmitCore(s: World, x: SubmitAction)
    requires CanSubmit(s, x) && CoreInv(s.core, s.cfg.maxRestarts) && ThreadInv(s)
    ensures GoodStep(s.core, Submitted(s, x).core, EndedBy(s, OnSubmit(x)), s.cfg.maxRestarts)
  {
    var c, max := s.core, s.cfg.maxRestarts;
    match x
    case SubmitCall(_, handoff, _, _, now) => AdmitStep(c, s.cfg, handoff, now);
    case SubmitReserve(t, id, now) => ReserveStep(c, id, s.threads[t].text, s.threads[t].callbackURL, now, max);
    case SubmitFail(t, reason, now) => FailWriteStep(c, s.threads[t].id, reason, now, max);
    case SubmitArm(t) => ArmStep(c, s.threads[t].id, max);
  }

  lemma CrashCore(s: World, x: CrashAction)
    requires CanCrash(s, x) && CoreInv(s.core, s.cfg.maxRestarts) && ThreadInv(s)
    ensures GoodStep(s.core, Crashed(s, x).core, IDLE, s.cfg.maxRestarts)
  {
    var c, max := s.core, s.cfg.maxRestarts;
    SameSlotStep(c, c, max);
    match x
    case Start(p, _, _) => InstallStep(c, p, max);
    case Death(_) => DeathStep(c, s.cfg);
    case SpawnOk(_, p, _) => InstallStep(c, p, max);
    case BootEnd(t, _) => BootStep(c, s.threads[t].proc, max);
    case DropRelaunch(_) => DeadSteps(c, max);
    case _ =>
  }

  lemma ResumeCore(s: World, x: ResumeAction)
    requires CanResume(s, x) && CoreInv(s.core, s.cfg.maxRestarts) && ThreadInv(s)
    ensures GoodStep(s.core, Resumed(s, x).core, EndedBy(s, OnResume(x)), s.cfg.maxRestarts)
  {
    var c, max := s.core, s.cfg.maxRestarts;
    match x
    case FailTurn(t, reason, now) => FailStep(c, s.threads[t].id, reason, now, max);
    case ResumeTurn(_, _) => SameSlotStep(c, c, max);
    case CompleteFromTranscript(t, finalText, usage, stopReason, now) =>
      FinishStep(c, s.threads[t].id, finalText, usage, stopReason, now, max);
    case InstallTimer(t) => ResumeTimerStep(c, s.threads[t].id, max);
  }

  lemma InterruptCore(s: World, x: InterruptAction)
    requires CanInterrupt(s, x) && CoreInv(s.core, s.cfg.maxRestarts) && ThreadInv(s)
    ensures GoodStep(s.core, InterruptedWorld(s, x).core, EndedBy(s, OnInterrupt(x)), s.cfg.maxRestarts)
  {
    var c, max := s.core, s.cfg.maxRestarts;
    match x
    case CompleteInterrupt(t, finalText, usage, now) => InterruptStep(c, s.threads[t].id, finalText, usage, now, max);
    case _ => SameSlotStep(c, c, max);
  }

  lemma HookCore(s: World, x: SignalAction)
    requires CanSignal(s, x) && x.Hook? && CoreInv(s.core, s.cfg.maxRestarts)
    ensures GoodStep(s.core, Signalled(s, x).core, EndedBy(s, OnSignal(x)), s.cfg.maxRestarts)
  {
    HookStep(s.core, x.r, x.now, s.cfg.maxRestarts);
  }

  lemma QuietSignalCore(s: World, x: SignalAction)
    requires CanSignal(s, x) && !x.Hook? && CoreInv(s.core, s.cfg.maxRestarts)
    ensures GoodStep(s.core, Signalled(s, x).core, IDLE, s.cfg.maxRestarts)
  {
    var c, max := s.core, s.cfg.maxRestarts;
    match x
    case Stall(id, now) => StallStep(c, id, now, max);
    case Activity(id, now) => ActivityStep(c, id, now, max);
    case Discovered(path) => FoundStep(c, path, max);
    case Shutdown => DeadSteps(c, max);
    case _ => SameSlotStep(c, c, max);
  }

  lemma SignalCore(s: World, x: SignalAction)
    requires CanSignal(s, x) && CoreInv(s.core, s.cfg.maxRestarts) && ThreadInv(s)
    ensures GoodStep(s.core, Signalled(s, x).core, EndedBy(s, OnSignal(x)), s.cfg.maxRestarts)
  {
    if x.Hook? {
      HookCore(s, x);
    } else {
      QuietSignalCore(s, x);
    }
  }

  /** Every step keeps the slot invariant and every finished record, and ends at most the turn it says. */
  lemma CoreStep(s: World, a: Action)
    requires Enabled(s, a) && CoreInv(s.core, s.cfg.maxRestarts) && ThreadInv(s)
    ensures GoodStep(s.core, Apply(s, a).core, EndedBy(s, a), s.cfg.maxRestarts)
  {
    match a
    case OnSubmit(x) => SubmitCore(s, x);
    case OnPty(x) => SameSlotStep(s.core, s.core, s.cfg.maxRestarts);
    case OnCrash(x) => CrashCore(s, x);
    case OnResume(x) => ResumeCore(s, x);
    case OnInterrupt(x) => InterruptCore(s, x);
    case OnSignal(x) => SignalCore(s, x);
  }

  // ---------------------------------------------------------------- the hand-over ledger

  /** A step that ends a turn enters it in the ledger, once; nothing else is entered and nothing leaves. */
  ghost predicate Entered(s: World, s': World, ended: TurnId) {
    forall id :: s'.firing[id] + s'.fired[id] + s'.writeFailed[id] ==
                 s.firing[id] + s.fired[id] + s.writeFailed[id] + (if ended != IDLE && ended == id then 1 else 0)
  }

  lemma SubmitLedger(s: World, x: SubmitAction)
    requires CanSubmit(s, x) && ThreadInv(s)
    ensures Entered(s, Submitted(s, x), EndedBy(s, OnSubmit(x)))
  {
  }

  lemma ResumeLedger(s: World, x: ResumeAction)
    requires CanResume(s, x) && ThreadInv(s)
    ensures Entered(s, Resumed(s, x), EndedBy(s, OnResume(x)))
  {
  }

  lemma InterruptLedger(s: World, x: InterruptAction)
    requires CanInterrupt(s, x) && ThreadInv(s)
    ensures Entered(s, InterruptedWorld(s, x), EndedBy(s, OnInterrupt(x)))
  {
  }

  lemma SignalLedger(s: World, x: SignalAction)
    requires CanSignal(s, x) && SlotInv(s.core) && MiscInv(s.core)
    ensures Entered(s, Signalled(s, x), EndedBy(s, OnSignal(x)))
  {
    if x.Hook? {
      HookVerdicts(s.core, x.r, x.now);
    }
  }

  lemma LedgerStep(s: World, a: Action)
    requires Enabled(s, a) && CoreInv(s.core, s.cfg.maxRestarts) && ThreadInv(s)
    ensures Entered(s, Apply(s, a), EndedBy(s, a))
  {
    match a
    case OnSubmit(x) => SubmitLedger(s, x);
    case OnResume(x) => ResumeLedger(s, x);
    case OnInterrupt(x) => InterruptLedger(s, x);
    case OnSignal(x) => SignalLedger(s, x);
    case _ =>
  }

  lemma DeliveryStep(s: World, s': World, ended: TurnId)
    requires DeliveryInv(s) && Entered(s, s', ended) && Ends(s.core, s'.core, ended)
    ensures DeliveryInv(s')
  {
  }

  // ---------------------------------------------------------------- goroutines and PTYs

  /** A step that leaves every writer inside `ptyMu` and every log alone, except for new empty logs. */
  ghost predicate Quiet(s: World, s': World) {
    && s'.holder == s.holder
    && (forall t :: t in s.threads && InSection(s.threads[t]) ==> t in s'.threads && s'.threads[t] == s.threads[t])
    && (forall t :: t in s'.threads && InSection(s'.threads[t]) ==> t in s.threads && s.threads[t] == s'.threads[t])
    && (forall w :: w in s.logs ==> w in s'.logs && s'.logs[w] == s.logs[w])
    && (forall w :: w in s'.logs && w !in s.logs ==> s'.logs[w] == [])
  }

  /** Goroutines are where they were, or at a sound place with a true prompt. */
  ghost predicate ThreadsOk(s: World, s': World) {
    forall t :: t in s'.threads ==>
                  || (t in s.threads && s'.threads[t] == s.threads[t])
                  || (PcOk(s'.threads[t]) && TruePc(s'.core, s'.threads[t]))
  }

  lemma QuietKeeps(s: World, s': World)
    requires Quiet(s, s') && LockInv(s) && LogInv(s)
    ensures LockInv(s') && LogInv(s')
  {
  }

  lemma SubmitThreads(s: World, x: SubmitAction)
    requires CanSubmit(s, x) && MiscInv(s.core)
    ensures Quiet(s, Submitted(s, x)) && ThreadsOk(s, Submitted(s, x))
  {
  }

  /** One goroutine moves on, outside ptyMu, to a sound place. */
  lemma OneThread(s: World, s': World, t: Tid, next: Option<Pc>)
    requires s'.holder == s.holder && s'.logs == s.logs && s'.threads == Goto(s.threads, t, next)
    requires t in s.threads && !InSection(s.threads[t])
    requires next.Some? ==> !InSection(next.value) && PcOk(next.value) && TruePc(s'.core, next.value)
    ensures Quiet(s, s') && ThreadsOk(s, s')
  {
  }

  /** A process is started: its log is new, its watcher is new, and one goroutine waits for it to boot. */
  lemma TwoThreads(s: World, s': World, t: Tid, pc: Pc, watcher: Tid, p: ProcId)
    requires s'.holder == s.holder && p !in s.logs && s'.logs == s.logs[p := []]
    requires t != watcher && watcher !in s.threads && (t in s.threads ==> !InSection(s.threads[t]))
    requires s'.threads == s.threads[t := pc][watcher := Watching(p)]
    requires !InSection(pc) && PcOk(pc) && TruePc(s'.core, pc) && p != NO_PROC
    ensures Quiet(s, s') && ThreadsOk(s, s')
  {
  }

  lemma CrashThreads(s: World, x: CrashAction)
    requires CanCrash(s, x) && ThreadInv(s)
    ensures Quiet(s, Crashed(s, x)) && ThreadsOk(s, Crashed(s, x))
  {
    var s' := Crashed(s, x);
    match x
    case Start(p, watcher, booter) =>
      var pc := BootWait(IDLE, false, p);
      assert s.threads[watcher := Watching(p)][booter := pc] == s.threads[booter := pc][watcher := Watching(p)];
      TwoThreads(s, s', booter, pc, watcher, p);
    case SpawnOk(t, p, watcher) =>
      SpawnThreads(s, x);
    case _ =>
      OneThread(s, s', x.t, if x.t in s'.threads then Some(s'.threads[x.t]) else None);
  }

  lemma SpawnThreads(s: World, x: CrashAction)
    requires CanCrash(s, x) && ThreadInv(s) && x.SpawnOk?
    ensures Quiet(s, Crashed(s, x)) && ThreadsOk(s, Crashed(s, x))
  {
    var s' := Crashed(s, x);
    if InstallProc(s.core, x.p).1 {
      TwoThreads(s, s', x.t, s'.threads[x.t], x.watcher, x.p);
    } else {
      OneThread(s, s', x.t, Some(s'.threads[x.t]));
    }
  }

  lemma ResumeThreads(s: World, x: ResumeAction)
    requires CanResume(s, x) && ThreadInv(s) && SlotInv(s.core)
    ensures Quiet(s, Resumed(s, x)) && ThreadsOk(s, Resumed(s, x))
  {
  }

  lemma InterruptThreads(s: World, x: InterruptAction)
    requires CanInterrupt(s, x) && ThreadInv(s)
    ensures Quiet(s, InterruptedWorld(s, x)) && ThreadsOk(s, InterruptedWorld(s, x))
  {
  }

  lemma SignalThreads(s: World, x: SignalAction)
    requires CanSignal(s, x)
    ensures Quiet(s, Signalled(s, x)) && ThreadsOk(s, Signalled(s, x))
  {
  }

  lemma PromptsKept(s: World, s': World)
    requires PromptInv(s) && ThreadInv(s) && ThreadsOk(s, s') && Kept(s.core, s'.core)
    requires forall w, i :: w in s'.logs && 0 <= i < |s'.logs[w]| ==>
                              (w in s.logs && s.logs[w] == s'.logs[w]) || TrueEvent(s'.core, s'.logs[w][i])
    ensures PromptInv(s') && ThreadInv(s')
  {
  }

  lemma LockHeld(s: World, x: PtyAction)
    requires CanWrite(s, x) && LockInv(s)
    ensures LockInv(Wrote(s, x))
    ensures !x.Lock? ==> s.holder == Some(x.t)
  {
  }

  /** The only log a write touches is the writer's, and it gains one event. */
  lemma WriteLogs(s: World, x: PtyAction, w: ProcId)
    requires CanWrite(s, x) && LockInv(s) && LogInv(s) && w in Wrote(s, x).logs
    ensures Scan(Wrote(s, x).logs[w]) == CursorOf(Wrote(s, x), w)
  {
    LockHeld(s, x);
    if x.Lock? {
      assert Wrote(s, x).logs == s.logs && CursorOf(s, w) == Between == CursorOf(Wrote(s, x), w);
    } else if w == s.threads[x.t].pty {
      OwnLog(s, x, w);
    } else {
      assert Wrote(s, x).logs[w] == s.logs[w] && CursorOf(s, w) == Between == CursorOf(Wrote(s, x), w);
    }
  }

  function LogOf(s: World, w: ProcId): seq<PtyEvent> {
    if w in s.logs then s.logs[w] else []
  }

  lemma BeforeWrite(s: World, x: PtyAction)
    requires CanWrite(s, x) && LockInv(s) && LogInv(s) && !x.Lock? && s.holder == Some(x.t)
    ensures Scan(LogOf(s, s.threads[x.t].pty)) == if s.threads[x.t].phase == Pasted then Inside(x.t) else Between
  {
  }

  lemma PasteLog(s: World, x: PtyAction)
    requires CanWrite(s, x) && x.WritePaste? && s.holder == Some(x.t) && Scan(LogOf(s, s.threads[x.t].pty)) == Between
    ensures var w := s.threads[x.t].pty;
            w in Wrote(s, x).logs && Scan(Wrote(s, x).logs[w]) == CursorOf(Wrote(s, x), w)
  {
    var job := s.threads[x.t].job;
    ScanAppend(LogOf(s, s.threads[x.t].pty), if x.ok then Paste(x.t, PastedFor(job), PastedText(job)) else Cut(x.t));
  }

  lemma KeyLog(s: World, x: PtyAction)
    requires CanWrite(s, x) && x.WriteKey? && s.holder == Some(x.t)
    requires Scan(LogOf(s, s.threads[x.t].pty)) == if s.threads[x.t].phase == Pasted then Inside(x.t) else Between
    ensures var w := s.threads[x.t].pty;
            w in Wrote(s, x).logs && Scan(Wrote(s, x).logs[w]) == CursorOf(Wrote(s, x), w)
  {
    var e := if !x.ok then Cut(x.t) else if s.threads[x.t].job.EscapeKey? then Esc(x.t) else Key(x.t);
    ScanAppend(LogOf(s, s.threads[x.t].pty), e);
  }

  lemma OwnLog(s: World, x: PtyAction, w: ProcId)
    requires CanWrite(s, x) && LockInv(s) && LogInv(s) && !x.Lock? && w == s.threads[x.t].pty
    requires s.holder == Some(x.t)
    ensures w in Wrote(s, x).logs && Scan(Wrote(s, x).logs[w]) == CursorOf(Wrote(s, x), w)
  {
    BeforeWrite(s, x);
    if x.WritePaste? {
      PasteLog(s, x);
    } else {
      KeyLog(s, x);
    }
  }

  lemma WriteLogInv(s: World, x: PtyAction)
    requires CanWrite(s, x) && LockInv(s) && LogInv(s)
    ensures LogInv(Wrote(s, x))
  {
    LockHeld(s, x);
    forall w | w in Wrote(s, x).logs
      ensures Scan(Wrote(s, x).logs[w]) == CursorOf(Wrote(s, x), w)
    {
      WriteLogs(s, x, w);
    }
  }

  lemma WriteThreads(s: World, x: PtyAction)
    requires CanWrite(s, x) && ThreadInv(s) && PromptInv(s)
    ensures ThreadInv(Wrote(s, x)) && PromptInv(Wrote(s, x))
  {
    var s' := Wrote(s, x);
    forall t | t in s'.threads
      ensures PcOk(s'.threads[t]) && TruePc(s'.core, s'.threads[t])
    {
      assert t != x.t ==> s'.threads[t] == s.threads[t];
      assert TruePc(s.core, s.threads[x.t]) && PcOk(s.threads[x.t]);
    }
    forall w, i | w in s'.logs && 0 <= i < |s'.logs[w]|
      ensures TrueEvent(s'.core, s'.logs[w][i])
    {
      assert TruePc(s.core, s.threads[x.t]);
      assert w in s.logs && i < |s.logs[w]| ==> s'.logs[w][i] == s.logs[w][i];
    }
  }

  /** The goroutines, the PTY lock, the logs and the prompts, for any step that takes no write. */
  lemma QuietStep(s: World, s': World)
    requires ThreadInv(s) && LockInv(s) && LogInv(s) && PromptInv(s)
    requires Quiet(s, s') && ThreadsOk(s, s') && Kept(s.core, s'.core)
    ensures ThreadInv(s') && LockInv(s') && LogInv(s') && PromptInv(s')
  {
    QuietKeeps(s, s');
    PromptsKept(s, s');
  }

  lemma PoolStep(s: World, a: Action)
    requires Enabled(s, a) && Inv(s) && Kept(s.core, Apply(s, a).core)
    ensures ThreadInv(Apply(s, a)) && LockInv(Apply(s, a)) && LogInv(Apply(s, a)) && PromptInv(Apply(s, a))
  {
    match a
    case OnSubmit(x) => SubmitThreads(s, x); QuietStep(s, Submitted(s, x));
    case OnPty(x) => LockHeld(s, x); WriteLogInv(s, x); WriteThreads(s, x);
    case OnCrash(x) => CrashThreads(s, x); QuietStep(s, Crashed(s, x));
    case OnResume(x) => ResumeThreads(s, x); QuietStep(s, Resumed(s, x));
    case OnInterrupt(x) => InterruptThreads(s, x); QuietStep(s, InterruptedWorld(s, x));
    case OnSignal(x) => SignalThreads(s, x); QuietStep(s, Signalled(s, x));
  }

  /** The invariant is inductive, and no step touches a finished record. */
  lemma Step(s: World, a: Action)
    requires Enabled(s, a) && Inv(s)
    ensures Inv(Apply(s, a)) && Apply(s, a).cfg == s.cfg && Kept(s.core, Apply(s, a).core)
  {
    CoreStep(s, a);
    LedgerStep(s, a);
    DeliveryStep(s, Apply(s, a), EndedBy(s, a));
    PoolStep(s, a);
    CfgKept(s, a);
  }

  lemma CfgKept(s: World, a: Action)
    requires Enabled(s, a)
    ensures Apply(s, a).cfg == s.cfg
  {
  }

  // ---------------------------------------------------------------- runs

  lemma InitDelivery(cfg: Config)
    ensures DeliveryInv(Init(cfg))
  {
  }

  lemma InitPool(cfg: Config)
    ensures ThreadInv(Init(cfg)) && LockInv(Init(cfg)) && LogInv(Init(cfg)) && PromptInv(Init(cfg))
  {
  }

  lemma InitInv(cfg: Config)
    ensures Inv(Init(cfg))
  {
    var s := Init(cfg);
    assert s.core == INITIAL && s.cfg == cfg;
    InitialCore(cfg.maxRestarts);
    assert CoreInv(s.core, s.cfg.maxRestarts);
    InitDelivery(cfg);
    InitPool(cfg);
  }

  lemma {:induction false} RunKeeps(s: World, run: seq<Action>)
    requires CanRun(s, run) && Inv(s)
    ensures Inv(Run(s, run)) && Run(s, run).cfg == s.cfg && Kept(s.core, Run(s, run).core)
    decreases |run|
  {
    if run != [] {
      Step(s, run[0]);
      RunKeeps(Apply(s, run[0]), run[1..]);
    }
  }

  ghost predicate Reachable(s: World) {
    exists run :: CanRun(Init(s.cfg), run) && Run(Init(s.cfg), run) == s
  }

  lemma ReachableInv(s: World)
    requires Reachable(s)
    ensures Inv(s)
  {
    var run :| CanRun(Init(s.cfg), run) && Run(Init(s.cfg), run) == s;
    InitInv(s.cfg);
    RunKeeps(Init(s.cfg), run);
  }

  lemma {:induction false} RunAppend(s: World, run: seq<Action>, a: Action)
    requires CanRun(s, run) && Enabled(Run(s, run), a)
    ensures CanRun(s, run + [a]) && Run(s, run + [a]) == Apply(Run(s, run), a)
    decreases |run|
  {
    if run == [] {
      assert run + [a] == [a] && [a][1..] == [];
    } else {
      RunAppend(Apply(s, run[0]), run[1..], a);
      assert (run + [a])[1..] == run[1..] + [a];
    }
  }

  lemma ReachableStep(s: World, a: Action)
    requires Reachable(s) && Enabled(s, a)
    ensures Reachable(Apply(s, a))
  {
    var run :| CanRun(Init(s.cfg), run) && Run(Init(s.cfg), run) == s;
    RunAppend(Init(s.cfg), run, a);
    CfgKept(s, a);
    assert Run(Init(s.cfg), run + [a]) == Apply(s, a);
  }

  // ---------------------------------------------------------------- the main results

  /**
   One slot: a stored record is Running exactly when it is `current`, and the turn in the slot is always
   stored. So when a critical section finds `current == id`, the store write it makes cannot miss.
   */
  lemma OneTurnHoldsTheSlot(s: World)
    requires Reachable(s)
    ensures forall id :: id in s.core.store.byID ==> (s.core.store.byID[id].status == Running <==> s.core.current == id)
    ensures s.core.current != IDLE ==> s.core.current in s.core.store.byID
    ensures forall r, now :: HookArrives(s.core, r, now).1 != StoreError
  {
    ReachableInv(s);
    forall r, now ensures HookArrives(s.core, r, now).1 != StoreError {
      HookVerdicts(s.core, r, now);
    }
  }

  /** Whatever runs from a reachable state, a finished record stays exactly as it is and no prompt changes. */
  lemma FinishedForever(s: World, run: seq<Action>, id: TurnId)
    requires Reachable(s) && CanRun(s, run) && id in s.core.store.byID
    ensures id in Run(s, run).core.store.byID
    ensures Run(s, run).core.store.byID[id].text == s.core.store.byID[id].text
    ensures s.core.store.byID[id].status != Running ==> Run(s, run).core.store.byID[id] == s.core.store.byID[id]
  {
    ReachableInv(s);
    RunKeeps(s, run);
  }

  /**
   OnTurnDone gets a turn at most once and only when it is finished; once no hand-over is pending, the
   finished turns are exactly those handed over and those whose prompt could not be written, never both.
   */
  lemma HandedOverOnce(s: World, id: TurnId)
    requires Reachable(s)
    ensures s.fired[id] <= 1 && (id in s.fired ==> Terminal(s.core, id))
    ensures s.firing == multiset{} ==> (Terminal(s.core, id) <==> id in s.fired || id in s.writeFailed)
    ensures !(id in s.fired && id in s.writeFailed)
  {
    ReachableInv(s);
    assert s.firing[id] + s.fired[id] + s.writeFailed[id] == (if Terminal(s.core, id) then 1 else 0);
  }

  /** The counters the pod reports agree with the records it holds. */
  lemma CountersAgree(s: World)
    requires Reachable(s)
    ensures s.core.turnsCompleted == |Finished(s.core.store.byID)|
    ensures s.core.turnsCompleted == s.core.totals.complete + s.core.totals.failed + s.core.totals.interrupted
    ensures s.core.turnsSucceeded == |Succeeded(s.core.store.byID)|
    ensures |s.core.store.order| == s.core.turnsCompleted + s.core.turnInFlight
    ensures s.core.hooks.received == s.core.hooks.ok + s.core.hooks.noTurn + s.core.hooks.rejected
  {
    ReachableInv(s);
  }

  /** However many watchers overlap, each completed turn buys at most maxRestarts relaunches. */
  lemma RelaunchesBounded(s: World)
    requires Reachable(s)
    ensures s.core.relaunches <= s.cfg.maxRestarts * (s.core.turnsSucceeded + 1)
  {
    ReachableInv(s);
    RelaunchBound(s.core, s.cfg.maxRestarts);
  }

  lemma FramedLog(s: World, w: ProcId) returns (fs: seq<Frame>, open: seq<PtyEvent>)
    requires LogInv(s) && w in s.logs
    ensures s.logs[w] == Concat(fs) + open
    ensures open == [] || (|open| == 1 && open[0].Paste? && s.holder == Some(open[0].who))
  {
    var log := s.logs[w];
    assert Scan(log) == CursorOf(s, w);
    fs := ScannedIsFrames(log);
    open := if Scan(log) == Between then [] else [log[|log| - 1]];
  }

  /**
   No other writer lands inside a paste or the delay after it: every PTY's log is a concatenation of whole
   frames, followed by at most one paste whose writer still holds the lock.
   */
  lemma PtyFramed(s: World, w: ProcId) returns (fs: seq<Frame>, open: seq<PtyEvent>)
    requires Reachable(s) && w in s.logs
    ensures s.logs[w] == Concat(fs) + open
    ensures open == [] || (|open| == 1 && open[0].Paste? && s.holder == Some(open[0].who))
  {
    ReachableInv(s);
    fs, open := FramedLog(s, w);
  }

  /** What a turn's goroutines paste, at first or again after a relaunch, is the prompt it was created with. */
  lemma PastesArePrompts(s: World, w: ProcId, i: nat)
    requires Reachable(s) && w in s.logs && i < |s.logs[w]| && s.logs[w][i].Paste? && s.logs[w][i].turn != IDLE
    ensures s.logs[w][i].turn in s.core.store.byID
    ensures s.core.store.byID[s.logs[w][i].turn].text == s.logs[w][i].text
  {
    ReachableInv(s);
    assert TrueEvent(s.core, s.logs[w][i]);
  }

  /** The turn that activity and reports are credited to is the one created last, running or finished. */
  lemma CreditedToTheLatest(s: World)
    requires Reachable(s)
    ensures s.core.store.order == [] ==> CurrentTurnID(s.core) == IDLE
    ensures s.core.store.order != [] ==> CurrentTurnID(s.core) == s.core.store.order[|s.core.store.order| - 1]
  {
    ReachableInv(s);
  }

  /**
   A Stop hook completes the turn in the slot whatever session id it carries: the id recorded for a turn is
   cleared before anyone can compare it.
   */
  lemma AnyHookCompletes(s: World, r: HookResult, now: Time)
    requires Reachable(s)
    ensures HookArrives(s.core, r, now).1 == Accepted(s.core.current) <==>
            s.core.current != IDLE && s.core.state != Dead && s.core.state != Booting
  {
    ReachableInv(s);
    HookVerdicts(s.core, r, now);
  }

  /** A submit that meets no refusal: admitted, then in the slot. */
  lemma SubmitTakesSlot(s: World, t: Tid, id: TurnId, text: string, callbackURL: string, now: Time) returns (s': World)
    requires Reachable(s) && s.core.state == Ready && s.core.current == IDLE
    requires !At(s, t) && id != IDLE && id !in s.core.store.byID && Admit(s.core, s.cfg, false, now).1
    ensures Reachable(s') && s'.core.state == Busy && s'.core.current == id && s'.cfg == s.cfg
    ensures s'.threads.Keys == s.threads.Keys + {t} && s'.core.store.byID.Keys == s.core.store.byID.Keys + {id}
    ensures forall x :: x in s.core.store.byID ==> s'.core.store.byID[x] == s.core.store.byID[x]
  {
    var call, reserve := OnSubmit(SubmitCall(t, false, text, callbackURL, now)), OnSubmit(SubmitReserve(t, id, now));
    ReachableStep(s, call);
    var s1 := Apply(s, call);
    assert s1.threads == s.threads[t := Admitted(text, callbackURL)] && s1.core.store == s.core.store;
    ReachableStep(s1, reserve);
    s' := Apply(s1, reserve);
  }

  /** So a second delivery of one hook completes the next turn, from any state and however the two turns differ. */
  lemma RedeliveredHookEndsNextTurn(s: World, r: HookResult, now: Time, t: Tid, next: TurnId, text: string)
    returns (s': World)
    requires Reachable(s) && HookArrives(s.core, r, now).1.Accepted?
    requires !At(s, t) && next != IDLE && next !in s.core.store.byID
    requires Admit(HookArrives(s.core, r, now).0, s.cfg, false, now).1
    ensures Reachable(s') && Terminal(s'.core, s.core.current) && s'.core.current == next
    ensures HookArrives(s.core, r, now).1 == Accepted(s.core.current) && next != s.core.current
    ensures HookArrives(s'.core, r, now).1 == Accepted(next)
  {
    var hook := OnSignal(Hook(r, now));
    ReachableInv(s);
    HookVerdicts(s.core, r, now);
    ReachableStep(s, hook);
    var s1 := Apply(s, hook);
    s' := SubmitTakesSlot(s1, t, next, text, "", now);
    AnyHookCompletes(s', r, now);
  }

  /** The session right after its first boot. */
  lemma Booted(cfg: Config) returns (s: World)
    ensures Reachable(s) && s.cfg == cfg && s.core.state == Ready && s.core.current == IDLE
    ensures s.core.store.byID == map[] && s.threads.Keys == {1}
  {
    var s0 := Init(cfg);
    assert CanRun(s0, []) && Run(s0, []) == s0;
    assert Reachable(s0);
    var start, settle := OnCrash(Start(1, 1, 2)), OnCrash(BootEnd(2, true));
    ReachableStep(s0, start);
    var s1 := Apply(s0, start);
    ReachableStep(s1, settle);
    s := Apply(s1, settle);
  }

  /** And that happens: for any hook, in any pod that admits a submit, there is such a state. */
  lemma HookCanEndTwoTurns(cfg: Config, r: HookResult, first: TurnId, second: TurnId) returns (s: World, now: Time)
    requires first != IDLE && second != IDLE && first != second
    ensures Reachable(s) && s.cfg == cfg
    ensures Terminal(s.core, first) && s.core.store.byID[first].status == Complete
    ensures s.core.store.byID[first].finalText == r.finalText && s.core.current == second
    ensures HookArrives(s.core, r, now).1 == Accepted(second)
  {
    now := cfg.startedAt + cfg.podTTL - 1;
    var s0 := Booted(cfg);
    var s1 := SubmitTakesSlot(s0, 3, first, "", "", now);
    AnyHookCompletes(s1, r, now);
    ReachableStep(s1, OnSignal(Hook(r, now)));
    var s2 := Apply(s1, OnSignal(Hook(r, now)));
    assert s2.threads == s1.threads;
    s := SubmitTakesSlot(s2, 4, second, "", "", now);
    AnyHookCompletes(s, r, now);
  }

  /** A stall is only ever reported for a turn in flight. */
  lemma StallNeedsTurn(s: World)
    requires Reachable(s) && s.core.stallSince.Some?
    ensures s.core.current in s.core.store.byID && s.core.store.byID[s.core.current].status == Running
  {
    ReachableInv(s);
  }
}
