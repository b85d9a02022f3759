/**
 What a run of the session manager decides, read off the run itself: which submits are admitted past the pod's
 deadline, which deaths lead to a relaunch, and what a turn that ended leaves behind.
 */
module SessionHistory {
  import opened Wrappers
  import opened TurnStore
  import opened SessionCore
  import opened SessionSlot
  import opened SessionPty
  import opened SessionWorld
  import opened SessionRuns

  // ---------------------------------------------------------------- runs from their ends

  lemma {:induction false} RunSplit(s: World, run: seq<Action>)
    requires CanRun(s, run) && run != []
    ensures CanRun(s, run[..|run| - 1]) && Enabled(Run(s, run[..|run| - 1]), run[|run| - 1])
    ensures Run(s, run) == Apply(Run(s, run[..|run| - 1]), run[|run| - 1])
    decreases |run|
  {
    var n := |run| - 1;
    if n == 0 {
      assert run[1..] == [] && run[..0] == [];
    } else {
      RunSplit(Apply(s, run[0]), run[1..]);
      assert run[..n][0] == run[0] && run[..n][1..] == run[1..][..n - 1];
      assert run[1..][|run[1..]| - 1] == run[n];
    }
  }

  /** The state after a run from the start. */
  function After(cfg: Config, run: seq<Action>): World
    requires CanRun(Init(cfg), run)
  {
    Run(Init(cfg), run)
  }

  lemma AfterInv(cfg: Config, run: seq<Action>)
    requires CanRun(Init(cfg), run)
    ensures Inv(After(cfg, run)) && After(cfg, run).cfg == cfg
  {
    InitInv(cfg);
    RunKeeps(Init(cfg), run);
  }

  lemma AfterCfg(cfg: Config, run: seq<Action>)
    requires CanRun(Init(cfg), run)
    ensures After(cfg, run).cfg == cfg
  {
    AfterInv(cfg, run);
  }

  // ---------------------------------------------------------------- admission

  predicate PastDeadline(cfg: Config, now: Time) {
    cfg.podTTL > 0 && cfg.startedAt + cfg.podTTL <= now
  }

  /** A submit past the pod's deadline after whose first step its goroutine is still there. */
  predicate AdmittedLate(s: World, a: Action)
    requires Enabled(s, a)
  {
    && a.OnSubmit? && a.submit.SubmitCall? && PastDeadline(s.cfg, a.submit.now)
    && At(Apply(s, a), a.submit.t)
  }

  function LateAdmissions(cfg: Config, run: seq<Action>): nat
    requires CanRun(Init(cfg), run)
    decreases |run|
  {
    if run == [] then 0
    else
      RunSplit(Init(cfg), run);
      var front, last := run[..|run| - 1], run[|run| - 1];
      LateAdmissions(cfg, front) + if AdmittedLate(After(cfg, front), last) then 1 else 0
  }

  /** What the first step of a submit decides. */
  predicate Admissible(c: Core, cfg: Config, handoff: bool, now: Time) {
    || !PastDeadline(cfg, now)
    || (handoff && !c.handoffAdmitted && now < cfg.startedAt + cfg.podTTL + 2 * cfg.turnTimeout + 60_000_000_000)
  }

  lemma AdmitDecides(c: Core, cfg: Config, handoff: bool, now: Time)
    ensures var (c', admitted) := Admit(c, cfg, handoff, now);
            && (admitted <==> Admissible(c, cfg, handoff, now))
            && c' == c.(handoffAdmitted := c.handoffAdmitted || (admitted && PastDeadline(cfg, now)))
  {
  }

  lemma CallStep(s: World, call: SubmitAction)
    requires CanSubmit(s, call) && call.SubmitCall?
    ensures var s', admitted := Submitted(s, call), Admissible(s.core, s.cfg, call.handoff, call.now);
            && (At(s', call.t) <==> admitted)
            && s'.core == s.core.(handoffAdmitted := s.core.handoffAdmitted || (admitted && PastDeadline(s.cfg, call.now)))
            && s' == s.(core := s'.core, threads := s'.threads)
            && s'.threads == if admitted then s.threads[call.t := Admitted(call.text, call.callbackURL)] else s.threads
  {
    AdmitDecides(s.core, s.cfg, call.handoff, call.now);
  }

  lemma SubmitKeepsFlag(s: World, x: SubmitAction)
    requires CanSubmit(s, x) && !x.SubmitCall?
    ensures Submitted(s, x).core.handoffAdmitted == s.core.handoffAdmitted
  {
  }

  lemma ResumeKeepsFlag(s: World, x: ResumeAction)
    requires CanResume(s, x)
    ensures Resumed(s, x).core.handoffAdmitted == s.core.handoffAdmitted
  {
  }

  lemma CrashKeepsFlag(s: World, x: CrashAction)
    requires CanCrash(s, x)
    ensures Crashed(s, x).core.handoffAdmitted == s.core.handoffAdmitted
  {
  }

  lemma SignalKeepsFlag(s: World, x: SignalAction)
    requires CanSignal(s, x)
    ensures Signalled(s, x).core.handoffAdmitted == s.core.handoffAdmitted
  {
  }

  /** The hand-off allowance is used up by a late submit that is admitted, and by nothing else. */
  lemma FlagStep(s: World, a: Action)
    requires Enabled(s, a)
    ensures Apply(s, a).core.handoffAdmitted <==> s.core.handoffAdmitted || AdmittedLate(s, a)
    ensures AdmittedLate(s, a) ==> !s.core.handoffAdmitted
  {
    match a
    case OnSubmit(x) =>
      if x.SubmitCall? {
        CallStep(s, x);
      } else {
        SubmitKeepsFlag(s, x);
      }
    case OnPty(x) =>
    case OnCrash(x) => CrashKeepsFlag(s, x);
    case OnResume(x) => ResumeKeepsFlag(s, x);
    case OnInterrupt(x) =>
    case OnSignal(x) => SignalKeepsFlag(s, x);
  }

  lemma {:induction false} FlagCounts(cfg: Config, run: seq<Action>)
    requires CanRun(Init(cfg), run)
    ensures LateAdmissions(cfg, run) == if After(cfg, run).core.handoffAdmitted then 1 else 0
    decreases |run|
  {
    if run != [] {
      RunSplit(Init(cfg), run);
      var front, last := run[..|run| - 1], run[|run| - 1];
      FlagCounts(cfg, front);
      FlagStep(After(cfg, front), last);
    }
  }

  /** In any run at most one submit is admitted past the pod's deadline. */
  lemma OneLateHandoff(cfg: Config, run: seq<Action>)
    requires CanRun(Init(cfg), run)
    ensures LateAdmissions(cfg, run) <= 1
  {
    FlagCounts(cfg, run);
  }

  /**
   After any run a submit is admitted before the deadline, or when the pod has none, and past it exactly when it is
   the first hand-off and comes before the hard cap: two turn timeouts and a minute. A refused submit changes nothing.
   */
  lemma WhoIsAdmitted(cfg: Config, run: seq<Action>, call: SubmitAction)
    requires CanRun(Init(cfg), run) && Enabled(After(cfg, run), OnSubmit(call)) && call.SubmitCall?
    ensures var s, s' := After(cfg, run), Apply(After(cfg, run), OnSubmit(call));
            && (At(s', call.t) <==>
                  || !PastDeadline(cfg, call.now)
                  || (call.handoff && LateAdmissions(cfg, run) == 0
                      && call.now < cfg.startedAt + cfg.podTTL + 2 * cfg.turnTimeout + 60_000_000_000))
            && (!At(s', call.t) ==> s' == s)
            && (At(s', call.t) ==> s'.threads == s.threads[call.t := Admitted(call.text, call.callbackURL)])
  {
    FlagCounts(cfg, run);
    AfterCfg(cfg, run);
    CallStep(After(cfg, run), call);
  }

  // ---------------------------------------------------------------- the slot

  /** A submit that was admitted takes the slot exactly when the session is up and idle; refused, it leaves no trace. */
  lemma WhoTakesTheSlot(s: World, t: Tid, id: TurnId, now: Time)
    requires Enabled(s, OnSubmit(SubmitReserve(t, id, now)))
    ensures var s' := Apply(s, OnSubmit(SubmitReserve(t, id, now)));
            var taken := s.core.current == IDLE && (s.core.state == Ready || s.core.state == Busy);
            && (At(s', t) <==> taken)
            && (!taken ==> s'.core == s.core)
            && (taken ==>
                  && s'.threads[t] == Writing(TurnPrompt(id, s.threads[t].text), s.core.proc, Waiting)
                  && s'.core.current == id && s'.core.state == Busy && s'.core.currentStarted == now
                  && id in s'.core.store.byID
                  && s'.core.store.byID[id].text == s.threads[t].text
                  && s'.core.store.byID[id].callbackURL == s.threads[t].callbackURL
                  && s'.core.store.byID[id].startedAt == s'.core.store.byID[id].lastActivityAt == now)
  {
  }

  // ---------------------------------------------------------------- deaths and relaunches

  /** A turn is completed between c and c'. */
  ghost predicate Succeeds(c: Core, c': Core) {
    exists id :: id in Succeeded(c'.store.byID) && id !in Succeeded(c.store.byID)
  }

  predicate DiesUnasked(s: World, a: Action) {
    a.OnCrash? && a.crash.Death? && !s.core.stopping
  }

  /** How often the process has died since a turn was last completed. */
  ghost function Crashes(cfg: Config, run: seq<Action>): nat
    requires CanRun(Init(cfg), run)
    decreases |run|
  {
    if run == [] then 0
    else
      RunSplit(Init(cfg), run);
      var front, last := run[..|run| - 1], run[|run| - 1];
      if Succeeds(After(cfg, front).core, After(cfg, run).core) then 0
      else Crashes(cfg, front) + if DiesUnasked(After(cfg, front), last) then 1 else 0
  }

  /** Completing a turn is what `turnsSucceeded` counts, and only that. */
  lemma SucceedsCounts(c: Core, c': Core)
    requires CountInv(c) && CountInv(c') && Kept(c, c')
    ensures Succeeds(c, c') <==> c'.turnsSucceeded != c.turnsSucceeded
  {
    var before, after := Succeeded(c.store.byID), Succeeded(c'.store.byID);
    assert before <= after;
    if before == after {
      assert !Succeeds(c, c');
    } else {
      SubsetSmaller(before, after);
      var id :| id in after && id !in before;
      assert Succeeds(c, c');
    }
  }

  lemma SucceedsStep(s: World, a: Action)
    requires Enabled(s, a) && Inv(s)
    ensures Succeeds(s.core, Apply(s, a).core) <==> Apply(s, a).core.turnsSucceeded != s.core.turnsSucceeded
  {
    Step(s, a);
    SucceedsCounts(s.core, Apply(s, a).core);
  }

  lemma SubsetSmaller(a: set<TurnId>, b: set<TurnId>)
    requires a <= b && a != b
    ensures |a| < |b|
  {
    assert b == a + (b - a);
    assert |b| == |a| + |b - a|;
  }

  predicate RestartsMove(c: Core, c': Core, died: bool) {
    c'.restarts == if c'.turnsSucceeded != c.turnsSucceeded then 0 else c.restarts + if died then 1 else 0
  }

  lemma SubmitRestarts(s: World, x: SubmitAction)
    requires CanSubmit(s, x)
    ensures RestartsMove(s.core, Submitted(s, x).core, false)
  {
  }

  lemma CrashRestarts(s: World, x: CrashAction)
    requires CanCrash(s, x)
    ensures RestartsMove(s.core, Crashed(s, x).core, DiesUnasked(s, OnCrash(x)))
  {
  }

  lemma ResumeRestarts(s: World, x: ResumeAction)
    requires CanResume(s, x)
    ensures RestartsMove(s.core, Resumed(s, x).core, false)
  {
  }

  lemma SignalRestarts(s: World, x: SignalAction)
    requires CanSignal(s, x)
    ensures RestartsMove(s.core, Signalled(s, x).core, false)
  {
  }

  lemma RestartsStep(s: World, a: Action)
    requires Enabled(s, a)
    ensures RestartsMove(s.core, Apply(s, a).core, DiesUnasked(s, a))
  {
    match a
    case OnSubmit(x) => SubmitRestarts(s, x);
    case OnPty(x) =>
    case OnCrash(x) => CrashRestarts(s, x);
    case OnResume(x) => ResumeRestarts(s, x);
    case OnInterrupt(x) =>
    case OnSignal(x) => SignalRestarts(s, x);
  }

  lemma {:induction false} RestartsCount(cfg: Config, run: seq<Action>)
    requires CanRun(Init(cfg), run)
    ensures After(cfg, run).core.restarts == Crashes(cfg, run)
    decreases |run|
  {
    if run != [] {
      RunSplit(Init(cfg), run);
      var front, last := run[..|run| - 1], run[|run| - 1];
      RestartsCount(cfg, front);
      var s := After(cfg, front);
      assert After(cfg, run) == Apply(s, last);
      assert RestartsMove(s.core, Apply(s, last).core, DiesUnasked(s, last)) by { RestartsStep(s, last); }
      assert Succeeds(s.core, Apply(s, last).core) <==> Apply(s, last).core.turnsSucceeded != s.core.turnsSucceeded by {
        AfterInv(cfg, front);
        SucceedsStep(s, last);
      }
    }
  }

  /**
   A death leads to a relaunch exactly when the process has died at most MaxRestarts times since a turn was last
   completed, this time included. Beyond that the turn in flight is failed. Its watcher carries that very turn.
   */
  lemma WhoIsRelaunched(cfg: Config, run: seq<Action>, t: Tid)
    requires CanRun(Init(cfg), run) && Enabled(After(cfg, run), OnCrash(Death(t))) && !After(cfg, run).core.stopping
    ensures var s, s' := After(cfg, run), Apply(After(cfg, run), OnCrash(Death(t)));
            && s'.core.state == Dead && s'.core.current == s.core.current
            && (if Crashes(cfg, run) + 1 <= cfg.maxRestarts then
                  s'.threads == s.threads[t := Relaunching(s.core.current)] && s'.core.relaunches == s.core.relaunches + 1
                else
                  && s'.core.relaunches == s.core.relaunches
                  && s'.threads == if s.core.current == IDLE then s.threads - {t}
                                   else s.threads[t := Failing(s.core.current)])
  {
    RestartsCount(cfg, run);
    AfterCfg(cfg, run);
  }

  /** Once shutdown has begun it stays so, and the process is never replaced. */
  lemma {:induction false} StoppingStays(s: World, run: seq<Action>)
    requires CanRun(s, run) && s.core.stopping
    ensures Run(s, run).core.stopping && (s.core.proc != NO_PROC ==> Run(s, run).core.proc == s.core.proc)
    decreases |run|
  {
    if run != [] {
      StoppingStep(s, run[0]);
      StoppingStays(Apply(s, run[0]), run[1..]);
    }
  }

  lemma StoppingStep(s: World, a: Action)
    requires Enabled(s, a) && s.core.stopping
    ensures Apply(s, a).core.stopping && (s.core.proc != NO_PROC ==> Apply(s, a).core.proc == s.core.proc)
  {
    match a
    case OnSubmit(x) => SubmitProc(s, x);
    case OnPty(x) =>
    case OnCrash(x) =>
    case OnResume(x) => ResumeProc(s, x);
    case OnInterrupt(x) =>
    case OnSignal(x) => SignalProc(s, x);
  }

  lemma SubmitProc(s: World, x: SubmitAction)
    requires CanSubmit(s, x)
    ensures Submitted(s, x).core.stopping == s.core.stopping && Submitted(s, x).core.proc == s.core.proc
  {
  }

  lemma ResumeProc(s: World, x: ResumeAction)
    requires CanResume(s, x)
    ensures Resumed(s, x).core.stopping == s.core.stopping && Resumed(s, x).core.proc == s.core.proc
  {
  }

  lemma SignalProc(s: World, x: SignalAction)
    requires CanSignal(s, x)
    ensures (Signalled(s, x).core.stopping <==> s.core.stopping || x.Shutdown?) && Signalled(s, x).core.proc == s.core.proc
  {
  }

  // ---------------------------------------------------------------- how a turn ends

  /** What the step that ended a turn wrote into its record, over what was there. */
  predicate RecordSays(a: Action, was: Record, left: Record) {
    match a
    case OnSignal(Hook(r, now)) =>
      left == was.(status := Complete, finalText := r.finalText, resultJSON := r.resultJSON, usage := r.usage,
                 stopReason := r.stopReason, completedAt := Some(now))
    case OnResume(CompleteFromTranscript(_, finalText, usage, stopReason, now)) =>
      left == was.(status := Complete, finalText := finalText, resultJSON := "", usage := usage,
                 stopReason := stopReason, completedAt := Some(now))
    case OnResume(FailTurn(_, reason, now)) =>
      left == was.(status := Failed, error := reason, completedAt := Some(now))
    case OnSubmit(SubmitFail(_, reason, now)) =>
      left == was.(status := Failed, error := reason, completedAt := Some(now))
    case OnInterrupt(CompleteInterrupt(_, finalText, usage, now)) =>
      left == was.(status := Failed, finalText := finalText, usage := usage, stopReason := "interrupted",
                 error := "turn interrupted", completedAt := Some(now))
    case _ => false
  }

  /** What a finished turn leaves behind: a free slot, and a session that takes the next turn unless this one was lost. */
  predicate SlotFreed(a: Action, c: Core, c': Core, id: TurnId) {
    && c.current == id && c'.current == IDLE && CurrentTurnID(c') == id && c'.turnInFlight == 0
    && c'.state == (if a.OnResume? && a.resume.FailTurn? then Dead else Ready)
    && c'.stallSince == None
    && (if a.OnSubmit? then c'.timer == c.timer else c'.timer.Timer? ==> !c'.timer.armed)
  }

  lemma SubmitEnds(s: World, x: SubmitAction, id: TurnId)
    requires CanSubmit(s, x) && Inv(s) && !Terminal(s.core, id) && Terminal(Submitted(s, x).core, id)
    ensures id in s.core.store.byID && RecordSays(OnSubmit(x), s.core.store.byID[id], Submitted(s, x).core.store.byID[id])
    ensures SlotFreed(OnSubmit(x), s.core, Submitted(s, x).core, id)
  {
    SubmitCore(s, x);
  }

  lemma ResumeEnds(s: World, x: ResumeAction, id: TurnId)
    requires CanResume(s, x) && Inv(s) && !Terminal(s.core, id) && Terminal(Resumed(s, x).core, id)
    ensures id in s.core.store.byID && RecordSays(OnResume(x), s.core.store.byID[id], Resumed(s, x).core.store.byID[id])
    ensures SlotFreed(OnResume(x), s.core, Resumed(s, x).core, id)
  {
    if x.InstallTimer? {
      ResumeCore(s, x);
    }
  }

  lemma InterruptEnds(s: World, x: InterruptAction, id: TurnId)
    requires CanInterrupt(s, x) && Inv(s) && !Terminal(s.core, id) && Terminal(InterruptedWorld(s, x).core, id)
    ensures id in s.core.store.byID
    ensures RecordSays(OnInterrupt(x), s.core.store.byID[id], InterruptedWorld(s, x).core.store.byID[id])
    ensures SlotFreed(OnInterrupt(x), s.core, InterruptedWorld(s, x).core, id)
  {
    InterruptCore(s, x);
  }

  lemma SignalEnds(s: World, x: SignalAction, id: TurnId)
    requires CanSignal(s, x) && Inv(s) && !Terminal(s.core, id) && Terminal(Signalled(s, x).core, id)
    ensures id in s.core.store.byID && RecordSays(OnSignal(x), s.core.store.byID[id], Signalled(s, x).core.store.byID[id])
    ensures SlotFreed(OnSignal(x), s.core, Signalled(s, x).core, id)
  {
    SignalCore(s, x);
    if x.Hook? {
      HookVerdicts(s.core, x.r, x.now);
    }
  }

  /**
   A turn ends only by a Stop hook, from the transcript, by an interrupt, by a failed write or as lost to a crash. Its
   record then says what that step said and keeps the rest; the slot is free, and the session takes the next turn at
   once, unless this one was lost.
   */
  lemma HowTurnsEnd(s: World, a: Action, id: TurnId)
    requires Reachable(s) && Enabled(s, a) && !Terminal(s.core, id) && Terminal(Apply(s, a).core, id)
    ensures id in s.core.store.byID && RecordSays(a, s.core.store.byID[id], Apply(s, a).core.store.byID[id])
    ensures SlotFreed(a, s.core, Apply(s, a).core, id)
  {
    ReachableInv(s);
    match a
    case OnSubmit(x) => SubmitEnds(s, x, id);
    case OnPty(x) => CoreStep(s, a);
    case OnCrash(x) => CoreStep(s, a);
    case OnResume(x) => ResumeEnds(s, x, id);
    case OnInterrupt(x) => InterruptEnds(s, x, id);
    case OnSignal(x) => SignalEnds(s, x, id);
  }
}
