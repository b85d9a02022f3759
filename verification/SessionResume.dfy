/**
 What a goroutine makes of the turn a crash or an interrupt left behind: whether it is sent again, nudged, completed from
 the transcript or failed. Each decision is tied to what the goroutine's earlier steps in the run met, and to what is
 then found on the PTY.
 */
module SessionResume {
  import opened Wrappers
  import opened TurnStore
  import opened SessionCore
  import opened SessionSlot
  import opened SessionPty
  import opened SessionWorld
  import opened SessionRuns
  import opened SessionHistory

  // ---------------------------------------------------------------- what a goroutine has met

  function Actor(a: Action): Option<Tid> {
    match a
    case OnSubmit(x) => Some(x.t)
    case OnPty(x) => Some(x.t)
    case OnCrash(x) => if x.Start? then None else Some(x.t)
    case OnResume(x) => Some(x.t)
    case OnInterrupt(x) => Some(x.t)
    case OnSignal(x) => if x.ProbeCall? then Some(x.t) else None
  }

  /**
   One goroutine's past: its last step; the turn it took up, as a submit, on a death or on an interrupt; whether there
   was a conversation to continue when it decided how to relaunch claude; what it then read of the transcript, whether
   its path was known; and, from when it set out to write, which PTY it found and how much that held.
   */
  datatype Past = Past(step: Option<Action>, turn: TurnId, conversation: bool, last: Ending, known: bool,
                       proc: ProcId, from: nat)

  function LogOf(s: World, w: ProcId): seq<PtyEvent> {
    if w in s.logs then s.logs[w] else []
  }

  function Noted(p: Past, s: World, a: Action, t: Tid): Past {
    if Actor(a) != Some(t) then p
    else
      var p := p.(step := Some(a));
      match a
      case OnSubmit(SubmitReserve(_, id, _)) =>
        p.(turn := id, proc := s.core.proc, from := |LogOf(s, s.core.proc)|)
      case OnCrash(Death(_)) => p.(turn := s.core.current)
      case OnInterrupt(InterruptCall(_)) => p.(turn := s.core.current)
      case OnCrash(DecideResume(_, onDisk)) =>
        p.(conversation := Finished(s.core.store.byID) != {} || s.core.transcriptPath != "" || onDisk)
      case OnResume(ResumeTurn(_, last)) =>
        p.(last := last, known := s.core.transcriptPath != "", proc := s.core.proc, from := |LogOf(s, s.core.proc)|)
      case OnInterrupt(PollTranscript(_, _, _)) => p.(known := s.core.transcriptPath != "")
      case _ => p
  }

  function PastOf(cfg: Config, run: seq<Action>, t: Tid): Past
    requires CanRun(Init(cfg), run)
    decreases |run|
  {
    if run == [] then Past(None, IDLE, false, NoEnding, false, NO_PROC, 0)
    else
      RunSplit(Init(cfg), run);
      var front, last := run[..|run| - 1], run[|run| - 1];
      Noted(PastOf(cfg, front, t), After(cfg, front), last, t)
  }

  /** What goroutine t put on a PTY, in order. */
  function By(log: seq<PtyEvent>, t: Tid): seq<PtyEvent> {
    if log == [] then []
    else
      var rest, e := By(log[..|log| - 1], t), log[|log| - 1];
      if e.who == t then rest + [e] else rest
  }

  /** What t has written since it set out to write for its turn, on the PTY it then found. */
  function Since(s: World, p: Past, t: Tid): seq<PtyEvent> {
    var log := LogOf(s, p.proc);
    if p.from <= |log| then By(log[p.from..], t) else []
  }

  // ---------------------------------------------------------------- what its place says about its past

  /** A terminal answer of the assistant, in a transcript whose path was known. */
  predicate FinalWord(p: Past) {
    p.known && p.last.Ending? && p.last.role == "assistant" && p.last.stopReason !in {"", "tool_use"}
  }

  predicate WriteEnded(a: Option<Action>, ok: bool) {
    a.Some? && a.value.OnPty? && !a.value.pty.Lock? && a.value.pty.ok == ok
  }

  predicate Hopeless(a: Option<Action>) {
    a.Some? && a.value.OnCrash? && (a.value.crash.Death? || a.value.crash.DropRelaunch?)
  }

  predicate Polled(a: Option<Action>, marker: bool) {
    a.Some? && a.value.OnInterrupt? && a.value.interrupt.PollTranscript? && a.value.interrupt.marker == marker
  }

  /** The turn a goroutine is about to act on, or IDLE. */
  function TurnOf(pc: Pc): TurnId {
    match pc
    case Writing(job, _, _) => if job.ProbeText? then IDLE else job.id
    case Relaunching(inFlight) => inFlight
    case Spawning(inFlight, _) => inFlight
    case BootWait(inFlight, _, _) => inFlight
    case RelaunchFailed(inFlight) => inFlight
    case Admitted(_, _) => IDLE
    case Watching(_) => IDLE
    case _ => pc.id
  }

  function PromptOf(c: Core, id: TurnId): string {
    if id in c.store.byID then c.store.byID[id].text else ""
  }

  /** What is to be on the PTY for turn id once t has written: its prompt and the key, or the key alone. */
  function Rewritten(c: Core, p: Past, t: Tid, id: TurnId): seq<PtyEvent> {
    if !p.conversation && PromptOf(c, id) != "" then [Paste(t, id, PromptOf(c, id)), Key(t)] else [Key(t)]
  }

  predicate JobFits(c: Core, p: Past, t: Tid, job: Job, w: ProcId, phase: Phase, since: seq<PtyEvent>) {
    match job
    case TurnPrompt(id, text) =>
      && id in c.store.byID && w == p.proc && text == PromptOf(c, id)
      && since == if phase == Pasted then [Paste(t, id, text)] else []
    case Resubmit(id, text) =>
      && id in c.store.byID
      && w == p.proc && !p.conversation && text == PromptOf(c, id) != ""
      && since == if phase == Pasted then [Paste(t, id, text)] else []
    case Nudge(id) =>
      && id in c.store.byID && w == p.proc && since == [] && phase != Pasted
      && (if p.conversation then !FinalWord(p) else PromptOf(c, id) == "")
    case _ => true
  }

  /** The place of goroutine t fits its past. */
  predicate Fits(c: Core, pc: Pc, p: Past, t: Tid, since: seq<PtyEvent>) {
    && (TurnOf(pc) != IDLE ==> TurnOf(pc) == p.turn)
    && match pc
       case Spawning(_, resume) => resume == p.conversation
       case BootWait(inFlight, resume, _) => inFlight != IDLE ==> resume == p.conversation
       case Resuming(_, resumed) => resumed == p.conversation
       case Finishing(_) => p.conversation && FinalWord(p)
       case Writing(job, w, phase) => JobFits(c, p, t, job, w, phase, since)
       case TimerDue(id) =>
         id in c.store.byID && since == Rewritten(c, p, t, id) && !(p.conversation && FinalWord(p))
       case Failing(_) => WriteEnded(p.step, false) || Hopeless(p.step)
       case SubmitFailed(_) => WriteEnded(p.step, false)
       case Arming(id) =>
         id in c.store.byID && since == [Paste(t, id, PromptOf(c, id)), Key(t)] && WriteEnded(p.step, true)
       case Polling(_) => WriteEnded(p.step, true) || Polled(p.step, false) || (Polled(p.step, true) && !p.known)
       case Interrupted(_) => Polled(p.step, true) && p.known
       case _ => true
  }

  predicate Bounded(s: World, p: Past) {
    p.from <= |LogOf(s, p.proc)|
  }

  predicate FitsAt(s: World, p: Past, t: Tid) {
    Bounded(s, p) && (At(s, t) ==> Fits(s.core, s.threads[t], p, t, Since(s, p, t)))
  }

  // ---------------------------------------------------------------- steps of other goroutines

  /** One step adds at most one event to a log, by whoever took the step. */
  predicate Grew(log: seq<PtyEvent>, log': seq<PtyEvent>, who: Option<Tid>) {
    || log' == log
    || (|log'| == |log| + 1 && log'[..|log|] == log && who == Some(log'[|log|].who))
  }

  lemma LogGrows(s: World, a: Action, w: ProcId)
    requires Enabled(s, a)
    ensures Grew(LogOf(s, w), LogOf(Apply(s, a), w), Actor(a))
  {
    match a
    case OnPty(x) => assert LogOf(s, w) <= LogOf(Wrote(s, x), w);
    case OnCrash(x) =>
    case OnSubmit(x) =>
    case OnResume(x) =>
    case OnInterrupt(x) =>
    case OnSignal(x) =>
  }

  lemma ByAppend(log: seq<PtyEvent>, e: PtyEvent, t: Tid)
    ensures By(log + [e], t) == By(log, t) + if e.who == t then [e] else []
  {
    assert (log + [e])[..|log|] == log;
  }

  lemma SinceKept(log: seq<PtyEvent>, log': seq<PtyEvent>, from: nat, who: Option<Tid>, t: Tid)
    requires Grew(log, log', who) && who != Some(t) && from <= |log|
    ensures By(log'[from..], t) == By(log[from..], t)
  {
    if log' != log {
      assert log'[from..] == log[from..] + [log'[|log|]];
      ByAppend(log[from..], log'[|log|], t);
    }
  }

  /** Where another goroutine's step leaves t: where it was, or newly started. */
  lemma OthersStay(s: World, a: Action, t: Tid)
    requires Enabled(s, a) && Actor(a) != Some(t)
    ensures At(s, t) ==> At(Apply(s, a), t) && Apply(s, a).threads[t] == s.threads[t]
    ensures !At(s, t) && At(Apply(s, a), t) ==>
              var pc := Apply(s, a).threads[t]; pc.Watching? || (pc.BootWait? && pc.inFlight == IDLE)
  {
    match a
    case OnSubmit(x) =>
    case OnPty(x) =>
    case OnCrash(x) =>
    case OnResume(x) =>
    case OnInterrupt(x) =>
    case OnSignal(x) =>
  }

  lemma FitsKept(c: Core, c': Core, pc: Pc, p: Past, t: Tid, since: seq<PtyEvent>)
    requires Fits(c, pc, p, t, since) && Kept(c, c')
    ensures Fits(c', pc, p, t, since)
  {
  }

  /** A place that fits goes on fitting while t stays there and others write. */
  lemma StaysFit(s: World, s': World, who: Option<Tid>, p: Past, t: Tid)
    requires FitsAt(s, p, t) && Grew(LogOf(s, p.proc), LogOf(s', p.proc), who) && who != Some(t)
    requires At(s, t) && At(s', t) && s'.threads[t] == s.threads[t] && Kept(s.core, s'.core)
    ensures FitsAt(s', p, t)
  {
    SinceKept(LogOf(s, p.proc), LogOf(s', p.proc), p.from, who, t);
    FitsKept(s.core, s'.core, s.threads[t], p, t, Since(s, p, t));
  }

  lemma StepKept(s: World, a: Action)
    requires Enabled(s, a) && Inv(s)
    ensures Kept(s.core, Apply(s, a).core)
  {
    Step(s, a);
  }

  lemma OthersFit(s: World, a: Action, p: Past, t: Tid)
    requires Enabled(s, a) && Actor(a) != Some(t) && FitsAt(s, p, t) && Kept(s.core, Apply(s, a).core)
    ensures FitsAt(Apply(s, a), p, t)
  {
    OthersStay(s, a, t);
    LogGrows(s, a, p.proc);
    if At(s, t) {
      StaysFit(s, Apply(s, a), Actor(a), p, t);
    }
  }

  // ---------------------------------------------------------------- its own steps

  lemma SubmitFits(s: World, x: SubmitAction, p: Past)
    requires CanSubmit(s, x) && FitsAt(s, p, x.t)
    ensures FitsAt(Submitted(s, x), Noted(p, s, OnSubmit(x), x.t), x.t)
  {
  }

  lemma CrashFits(s: World, x: CrashAction, p: Past)
    requires CanCrash(s, x) && !x.Start? && CountInv(s.core) && FitsAt(s, p, x.t)
    ensures FitsAt(Crashed(s, x), Noted(p, s, OnCrash(x), x.t), x.t)
  {
    LogGrows(s, OnCrash(x), p.proc);
  }

  lemma ResumeFits(s: World, x: ResumeAction, p: Past)
    requires CanResume(s, x) && SlotInv(s.core) && ThreadInv(s) && FitsAt(s, p, x.t)
    ensures FitsAt(Resumed(s, x), Noted(p, s, OnResume(x), x.t), x.t)
  {
  }

  lemma PollFits(s: World, x: InterruptAction, p: Past)
    requires CanInterrupt(s, x) && x.PollTranscript? && FitsAt(s, p, x.t)
    ensures FitsAt(InterruptedWorld(s, x), Noted(p, s, OnInterrupt(x), x.t), x.t)
  {
    var q := Noted(p, s, OnInterrupt(x), x.t);
    assert q == p.(step := Some(OnInterrupt(x)), known := s.core.transcriptPath != "");
    assert Polled(q.step, x.marker);
  }

  lemma InterruptFits(s: World, x: InterruptAction, p: Past)
    requires CanInterrupt(s, x) && FitsAt(s, p, x.t)
    ensures FitsAt(InterruptedWorld(s, x), Noted(p, s, OnInterrupt(x), x.t), x.t)
  {
    if x.PollTranscript? {
      PollFits(s, x, p);
    }
  }

  lemma ProbeFits(s: World, x: SignalAction, p: Past)
    requires CanSignal(s, x) && x.ProbeCall? && FitsAt(s, p, x.t)
    ensures FitsAt(Signalled(s, x), Noted(p, s, OnSignal(x), x.t), x.t)
  {
  }

  /** What a write adds to what t has written since. */
  lemma WriteSince(s: World, x: PtyAction, p: Past) returns (e: PtyEvent)
    requires CanWrite(s, x) && Bounded(s, p) && !x.Lock? && s.threads[x.t].pty == p.proc
    ensures Bounded(Wrote(s, x), p) && Since(Wrote(s, x), p, x.t) == Since(s, p, x.t) + [e]
    ensures x.ok ==> e == if x.WritePaste? then Paste(x.t, PastedFor(s.threads[x.t].job), PastedText(s.threads[x.t].job))
                          else if s.threads[x.t].job.EscapeKey? then Esc(x.t) else Key(x.t)
  {
    var log, log' := LogOf(s, p.proc), LogOf(Wrote(s, x), p.proc);
    e := log'[|log|];
    assert log' == log + [e] && log'[p.from..] == log[p.from..] + [e];
    ByAppend(log[p.from..], e, x.t);
  }

  lemma WriteBounded(s: World, x: PtyAction, p: Past)
    requires CanWrite(s, x) && Bounded(s, p)
    ensures Bounded(Wrote(s, x), p) && (x.Lock? ==> Since(Wrote(s, x), p, x.t) == Since(s, p, x.t))
  {
  }

  /** A job that is done, or goes on, leads to a place that fits what has been written. */
  lemma JobGoesOn(c: Core, p: Past, q: Past, t: Tid, pc: Pc, since: seq<PtyEvent>, since': seq<PtyEvent>, a: PtyAction)
    requires pc.Writing? && Fits(c, pc, p, t, since) && q == p.(step := Some(OnPty(a)))
    requires pc.phase == Pasted ==> HasPaste(pc.job)
    requires a.WritePaste? ==> HasPaste(pc.job) && pc.phase == Locked
    requires a.WriteKey? ==> pc.phase == if HasPaste(pc.job) then Pasted else Locked
    requires a.Lock? ==> pc.phase == Waiting && since' == since
    requires pc.pty == p.proc && !a.Lock? && a.ok ==>
               since' == since + [if a.WritePaste? then Paste(t, PastedFor(pc.job), PastedText(pc.job))
                                  else if pc.job.EscapeKey? then Esc(t) else Key(t)]
    ensures a.Lock? ==> Fits(c, pc.(phase := Locked), q, t, since')
    ensures a.WritePaste? && a.ok ==> Fits(c, pc.(phase := Pasted), q, t, since')
    ensures a.WriteKey? || (a.WritePaste? && !a.ok) ==>
              AfterWrite(pc.job, a.ok).Some? ==> Fits(c, AfterWrite(pc.job, a.ok).value, q, t, since')
  {
  }

  lemma WriteFits(s: World, x: PtyAction, p: Past)
    requires CanWrite(s, x) && FitsAt(s, p, x.t)
    requires s.threads[x.t].phase == Pasted ==> HasPaste(s.threads[x.t].job)
    ensures FitsAt(Wrote(s, x), Noted(p, s, OnPty(x), x.t), x.t)
  {
    var s', q := Wrote(s, x), Noted(p, s, OnPty(x), x.t);
    WriteBounded(s, x, p);
    if !x.Lock? && s.threads[x.t].pty == p.proc {
      var e := WriteSince(s, x, p);
    }
    assert q == p.(step := Some(OnPty(x)));
    assert Since(s', q, x.t) == Since(s', p, x.t);
    JobGoesOn(s.core, p, q, x.t, s.threads[x.t], Since(s, p, x.t), Since(s', p, x.t), x);
  }

  lemma FitsStep(s: World, a: Action, p: Past, t: Tid)
    requires Enabled(s, a) && Inv(s) && FitsAt(s, p, t)
    ensures FitsAt(Apply(s, a), Noted(p, s, a, t), t)
  {
    if Actor(a) != Some(t) {
      StepKept(s, a);
      OthersFit(s, a, p, t);
    } else {
      match a
      case OnSubmit(x) => SubmitFits(s, x, p);
      case OnPty(x) => WriteFits(s, x, p);
      case OnCrash(x) => CrashFits(s, x, p);
      case OnResume(x) => ResumeFits(s, x, p);
      case OnInterrupt(x) => InterruptFits(s, x, p);
      case OnSignal(x) => ProbeFits(s, x, p);
    }
  }

  /** After any run, every goroutine's place fits its past. */
  lemma {:induction false} PlaceFitsPast(cfg: Config, run: seq<Action>, t: Tid)
    requires CanRun(Init(cfg), run)
    ensures FitsAt(After(cfg, run), PastOf(cfg, run, t), t)
    decreases |run|
  {
    if run != [] {
      RunSplit(Init(cfg), run);
      var front, last := run[..|run| - 1], run[|run| - 1];
      PlaceFitsPast(cfg, front, t);
      var s, p := After(cfg, front), PastOf(cfg, front, t);
      assert FitsAt(Apply(s, last), Noted(p, s, last, t), t) by {
        AfterInv(cfg, front);
        FitsStep(s, last, p, t);
      }
    }
  }

  lemma Settled(cfg: Config, run: seq<Action>, t: Tid)
    requires CanRun(Init(cfg), run) && At(After(cfg, run), t)
    ensures FitsAt(After(cfg, run), PastOf(cfg, run, t), t) && PcOk(After(cfg, run).threads[t])
    ensures SlotInv(After(cfg, run).core) && MiscInv(After(cfg, run).core)
  {
    PlaceFitsPast(cfg, run, t);
    AfterInv(cfg, run);
  }

  // ---------------------------------------------------------------- the main results

  /** How far a goroutine has come with the turn it carries over a death. */
  function Stage(pc: Pc): nat {
    match pc
    case Relaunching(_) => 1
    case Spawning(_, _) => 2
    case BootWait(_, _, _) => 3
    case RelaunchFailed(_) => 4
    case Resuming(_, _) => 5
    case Failing(_) => 5
    case _ => 0
  }

  /**
   A turn carried over a death is not dropped: each step of its goroutine takes it one stage on, until it is to be
   resumed, after a relaunch, or failed, without one.
   */
  lemma CarriesOn(s: World, x: CrashAction)
    requires CanCrash(s, x) && !x.Start? && !x.Death? && TurnOf(s.threads[x.t]) != IDLE
    ensures var pc, s' := s.threads[x.t], Crashed(s, x);
            && At(s', x.t) && TurnOf(s'.threads[x.t]) == TurnOf(pc)
            && Stage(pc) < Stage(s'.threads[x.t]) <= 5
            && (s'.threads[x.t].Resuming? <==> pc.BootWait?) && (s'.threads[x.t].Failing? <==> pc.RelaunchFailed?)
            && (s'.threads[x.t].RelaunchFailed? <==> pc.Spawning? && (x.SpawnFail? || s.core.stopping))
  {
  }

  /**
   A turn is completed from the transcript only by the goroutine that was carrying it over a death, when that death
   left a conversation to continue, and only if the last message it read, on resuming, was a terminal answer of the
   assistant: one with a stop reason other than tool_use.
   */
  lemma CompletedOnlyIfAnswered(cfg: Config, run: seq<Action>, x: ResumeAction)
    requires CanRun(Init(cfg), run) && Enabled(After(cfg, run), OnResume(x)) && x.CompleteFromTranscript?
    ensures var p := PastOf(cfg, run, x.t); p.conversation && FinalWord(p) && After(cfg, run).threads[x.t].id == p.turn
  {
    Settled(cfg, run, x.t);
  }

  /**
   And conversely: on resuming, a goroutine goes on exactly when its turn is still in the slot of a session that is up
   again. It completes the turn exactly when there was a conversation and its known transcript ends in such an answer;
   otherwise it writes to the PTY.
   */
  lemma ResumeDecides(cfg: Config, run: seq<Action>, t: Tid, last: Ending)
    requires CanRun(Init(cfg), run) && Enabled(After(cfg, run), OnResume(ResumeTurn(t, last)))
    ensures var s, s', p := After(cfg, run), Apply(After(cfg, run), OnResume(ResumeTurn(t, last))), PastOf(cfg, run, t);
            && (At(s', t) <==> s.core.current == p.turn && s.core.state == Ready)
            && (At(s', t) ==>
                  && (s'.threads[t] == Finishing(p.turn) <==>
                        && p.conversation && s.core.transcriptPath != ""
                        && last.Ending? && last.role == "assistant" && last.stopReason !in {"", "tool_use"})
                  && (s'.threads[t] != Finishing(p.turn) ==>
                        s'.threads[t].Writing? && s'.threads[t].pty == s.core.proc && s'.threads[t].phase == Waiting))
  {
    Settled(cfg, run, t);
  }

  /**
   What a resumed turn leaves on the PTY. By the time its timer is installed again, its goroutine has written there,
   since it resumed, the prompt as stored and the submit key if claude was started afresh; if the conversation was
   continued, only the key, and then the transcript did not end in an answer.
   */
  lemma SentAgain(cfg: Config, run: seq<Action>, t: Tid)
    requires CanRun(Init(cfg), run) && Enabled(After(cfg, run), OnResume(InstallTimer(t)))
    ensures var s, p := After(cfg, run), PastOf(cfg, run, t);
            var id := p.turn;
            && s.threads[t].id == id && id in s.core.store.byID && p.from <= |LogOf(s, p.proc)|
            && (p.conversation ==> !FinalWord(p))
            && By(LogOf(s, p.proc)[p.from..], t) ==
               if !p.conversation && s.core.store.byID[id].text != "" then [Paste(t, id, s.core.store.byID[id].text), Key(t)]
               else [Key(t)]
  {
    Settled(cfg, run, t);
  }

  /**
   What a submitted turn leaves on the PTY: by the time its timer is installed, its goroutine has written there, since it
   took the slot, the prompt as stored and the submit key.
   */
  lemma SentOnce(cfg: Config, run: seq<Action>, t: Tid)
    requires CanRun(Init(cfg), run) && Enabled(After(cfg, run), OnSubmit(SubmitArm(t)))
    ensures var s, p := After(cfg, run), PastOf(cfg, run, t);
            var id := p.turn;
            && s.threads[t].id == id && id in s.core.store.byID && p.from <= |LogOf(s, p.proc)|
            && By(LogOf(s, p.proc)[p.from..], t) == [Paste(t, id, s.core.store.byID[id].text), Key(t)]
  {
    Settled(cfg, run, t);
  }

  /** A turn is failed as lost only after a death or a relaunch without hope, or when it could not be written again. */
  lemma WhyFailed(cfg: Config, run: seq<Action>, x: ResumeAction)
    requires CanRun(Init(cfg), run) && Enabled(After(cfg, run), OnResume(x)) && x.FailTurn?
    ensures var p := PastOf(cfg, run, x.t);
            (Hopeless(p.step) || WriteEnded(p.step, false)) && After(cfg, run).threads[x.t].id == p.turn
  {
    Settled(cfg, run, x.t);
  }

  /**
   An interrupt reaches a session that is up and not shutting down, and nothing else happens then but that its goroutine
   is on its way to the PTY of the process now installed.
   */
  lemma WhoIsInterrupted(s: World, t: Tid)
    requires Reachable(s) && !At(s, t)
    ensures var s' := Apply(s, OnInterrupt(InterruptCall(t)));
            var up := !s.core.stopping && (s.core.state == Ready || s.core.state == Busy);
            s' == if up then s.(threads := s.threads[t := Writing(EscapeKey(s.core.current), s.core.proc, Waiting)]) else s
  {
    ReachableInv(s);
  }

  /** The same goes for a probe. */
  lemma WhoIsProbed(s: World, t: Tid, text: string)
    requires Reachable(s) && !At(s, t)
    ensures var s' := Apply(s, OnSignal(ProbeCall(t, text)));
            var up := !s.core.stopping && (s.core.state == Ready || s.core.state == Busy);
            s' == if up then s.(threads := s.threads[t := Writing(ProbeText(text), s.core.proc, Waiting)]) else s
  {
    ReachableInv(s);
  }

  /** The escape key, once written, leaves the goroutine waiting for the turn it interrupted, if there was one. */
  lemma EscapeLands(s: World, x: PtyAction)
    requires CanWrite(s, x) && x.WriteKey? && s.threads[x.t].job.EscapeKey?
    ensures var Writing(job, w, _), s' := s.threads[x.t], Apply(s, OnPty(x));
            && LogOf(s', w) == LogOf(s, w) + [if x.ok then Esc(x.t) else Cut(x.t)]
            && s'.threads == if x.ok && job.id != IDLE then s.threads[x.t := Polling(job.id)] else s.threads - {x.t}
  {
  }

  /** A turn is ended as interrupted only when the last look at its transcript found the marker. */
  lemma InterruptedOnlyByMarker(cfg: Config, run: seq<Action>, x: InterruptAction)
    requires CanRun(Init(cfg), run) && Enabled(After(cfg, run), OnInterrupt(x)) && x.CompleteInterrupt?
    ensures var p := PastOf(cfg, run, x.t);
            Polled(p.step, true) && p.known && After(cfg, run).threads[x.t].id == p.turn
  {
    Settled(cfg, run, x.t);
  }

  /**
   And conversely: the goroutine waits on for as long as the interrupted turn is in the slot, no marker shows and the
   time is not up; the marker in a known transcript ends the turn even when the time is.
   */
  lemma PollDecides(cfg: Config, run: seq<Action>, t: Tid, marker: bool, expired: bool)
    requires CanRun(Init(cfg), run) && Enabled(After(cfg, run), OnInterrupt(PollTranscript(t, marker, expired)))
    ensures var s, p := After(cfg, run), PastOf(cfg, run, t);
            var s' := Apply(s, OnInterrupt(PollTranscript(t, marker, expired)));
            var alive, shown := !s.core.stopping && s.core.current == p.turn, marker && s.core.transcriptPath != "";
            && (At(s', t) <==> alive && (shown || !expired))
            && (At(s', t) ==> s'.threads[t] == if shown then Interrupted(p.turn) else Polling(p.turn))
  {
    Settled(cfg, run, t);
  }

  /**
   A prompt that could not be written fails its turn, if it is still in the slot, and leaves the session ready; one
   written whole has its timer armed. The same goroutine does it, on its next step.
   */
  lemma FirstWriteEnds(s: World, x: PtyAction, reason: string, now: Time)
    requires Reachable(s) && CanWrite(s, x) && !x.Lock? && (x.WriteKey? || !x.ok)
    requires s.threads[x.t].job.TurnPrompt?
    ensures var id, s' := s.threads[x.t].job.id, Apply(s, OnPty(x));
            && s'.holder == None
            && (x.ok ==> CanSubmit(s', SubmitArm(x.t)) && Submitted(s', SubmitArm(x.t)).core.timer == Timer(id, true))
            && (!x.ok ==>
                  && CanSubmit(s', SubmitFail(x.t, reason, now))
                  && var end := Submitted(s', SubmitFail(x.t, reason, now));
                     if s.core.current == id then Terminal(end.core, id) && end.core.state == Ready && id in end.writeFailed
                     else end.core == s.core)
  {
    ReachableInv(s);
  }

  /** A turn that could not be written again is failed on the next step, and the session with it. */
  lemma RewriteEnds(s: World, x: PtyAction, reason: string, now: Time)
    requires Reachable(s) && CanWrite(s, x) && !x.Lock? && (x.WriteKey? || !x.ok)
    requires s.threads[x.t].job.Resubmit? || s.threads[x.t].job.Nudge?
    ensures var id, s' := s.threads[x.t].job.id, Apply(s, OnPty(x));
            && s'.holder == None
            && (x.ok ==> CanResume(s', InstallTimer(x.t)))
            && (!x.ok ==>
                  && CanResume(s', FailTurn(x.t, reason, now))
                  && var end := Resumed(s', FailTurn(x.t, reason, now));
                     if s.core.current == id then Terminal(end.core, id) && end.core.state == Dead && id in end.firing
                     else end.core == s.core)
  {
    ReachableInv(s);
  }
}
