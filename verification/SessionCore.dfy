/**
 The state the session manager guards with `mgr.mu`, together with the turn store
 and the counters it keeps, and each critical section over it as a function
 (internal/session/session.go, internal/session/interrupt.go).

 Every function here is one atomic step: it runs from `mgr.mu.Lock()` to the
 matching unlock. What a goroutine does between two of them is modelled in
 SessionWorld.
 */
module SessionCore {
  import opened Wrappers
  import opened TurnStore

  /** A claude process and its PTY. `NO_PROC` stands for nil. */
  type ProcId = nat
  const NO_PROC: ProcId := 0

  const SECOND: Time := 1_000_000_000

  datatype SessionState = Booting | Ready | Busy | Dead

  /** The inactivity timer: nil, or the last one installed, armed or stopped. */
  datatype Timer = NoTimer | Timer(turn: TurnId, armed: bool)

  datatype Config = Config(maxRestarts: nat, turnTimeout: Time, podTTL: Time, startedAt: Time)

  /** ccw_turns_total by label. */
  datatype Totals = Totals(complete: nat, failed: nat, interrupted: nat)

  /** ccw_hook_received_total and ccw_hook_outcome_total by label. */
  datatype Hooks = Hooks(received: nat, ok: nat, noTurn: nat, rejected: nat, storeError: nat)

  datatype Core = Core(
    store: Contents,
    state: SessionState,
    current: TurnId,
    lastCompleted: TurnId,
    currentStarted: Time,
    currentSessionID: string,
    stallSince: Option<Time>,
    timer: Timer,
    turnsCompleted: nat,
    turnsSucceeded: nat,
    transcriptPath: string,
    restarts: nat,
    stopping: bool,
    proc: ProcId,
    handoffAdmitted: bool,
    totals: Totals,
    turnInFlight: nat,
    hooks: Hooks,
    relaunches: nat)

  const INITIAL := Core(
    Contents(map[], []), Booting, IDLE, IDLE, 0, "", None, NoTimer, 0, 0, "", 0, false, NO_PROC,
    false, Totals(0, 0, 0), 0, Hooks(0, 0, 0, 0, 0), 0)

  datatype HookResult = HookResult(sessionID: string, finalText: string, resultJSON: string, usage: string,
                                   stopReason: string, transcriptPath: string)

  datatype SubmitVerdict = SessionDead | NotReady | SlotBusy | Reserved

  datatype HookVerdict = NoTurn | Recovering | StaleSession | StoreError | Accepted(turn: TurnId)

  datatype DeathVerdict = Stopped | Exhausted(lost: TurnId) | MayRelaunch(inFlight: TurnId)

  // ---------------------------------------------------------------- reads

  function CurrentTurnID(c: Core): TurnId {
    if c.current != IDLE then c.current else c.lastCompleted
  }

  function ShouldResume(c: Core, onDisk: bool): bool {
    c.turnsCompleted > 0 || c.transcriptPath != "" || onDisk
  }

  /** Whether Probe and Interrupt find a PTY to write to. */
  predicate PtyAvailable(c: Core) {
    c.proc != NO_PROC && !c.stopping && c.state != Dead && c.state != Booting
  }

  // ---------------------------------------------------------------- admission

  /** podDeadline: None when the pod has no lifetime bound. */
  function Deadline(cfg: Config): Option<Time> {
    if cfg.podTTL <= 0 then None else Some(cfg.startedAt + cfg.podTTL)
  }

  function Admit(c: Core, cfg: Config, handoff: bool, now: Time): (r: (Core, bool)) {
    match Deadline(cfg)
    case None => (c, true)
    case Some(deadline) =>
      if now < deadline then (c, true)
      else if handoff && now < deadline + 2 * cfg.turnTimeout + 60 * SECOND && !c.handoffAdmitted then
        (c.(handoffAdmitted := true), true)
      else (c, false)
  }

  // ---------------------------------------------------------------- the turn slot

  function ReserveSlot(c: Core, id: TurnId, text: string, callbackURL: string, now: Time): (Core, SubmitVerdict) {
    if c.state == Dead then (c, SessionDead)
    else if c.state == Booting then (c, NotReady)
    else if c.current != IDLE then (c, SlotBusy)
    else (c.(store := Created(c.store, id, text, callbackURL, now),
             current := id, currentStarted := now, state := Busy, turnInFlight := 1), Reserved)
  }

  function Cleared(c: Core, next: SessionState): Core {
    c.(lastCompleted := c.current, current := IDLE, turnsCompleted := c.turnsCompleted + 1,
       state := next, stallSince := None, turnInFlight := 0)
  }

  function StopTimer(t: Timer): Timer {
    if t.Timer? then t.(armed := false) else t
  }

  /** Complete: a Stop hook arrives. */
  function HookArrives(c0: Core, r: HookResult, now: Time): (Core, HookVerdict) {
    var c := c0.(hooks := c0.hooks.(received := c0.hooks.received + 1));
    if c.current == IDLE then
      (c.(hooks := c.hooks.(noTurn := c.hooks.noTurn + 1)), NoTurn)
    else if c.state == Dead || c.state == Booting then
      (c.(hooks := c.hooks.(rejected := c.hooks.rejected + 1)), Recovering)
    else if r.sessionID != "" && c.currentSessionID != "" && r.sessionID != c.currentSessionID then
      (c.(hooks := c.hooks.(rejected := c.hooks.rejected + 1)), StaleSession)
    else
      var id := c.current;
      var c := c.(currentSessionID := if r.sessionID != "" && c.currentSessionID == "" then r.sessionID
                                      else c.currentSessionID,
                  timer := StopTimer(c.timer),
                  transcriptPath := if r.transcriptPath != "" then r.transcriptPath else c.transcriptPath);
      if id !in c.store.byID then
        (c.(hooks := c.hooks.(storeError := c.hooks.storeError + 1)), StoreError)
      else
        var c := c.(store := Completed(c.store, id, r.finalText, r.resultJSON, r.usage, r.stopReason, now));
        (Cleared(c, Ready).(turnsSucceeded := c.turnsSucceeded + 1, restarts := 0, currentSessionID := "",
                            hooks := c.hooks.(ok := c.hooks.ok + 1),
                            totals := c.totals.(complete := c.totals.complete + 1)), Accepted(id))
  }

  /** completeFromTranscript, from its lock to its unlock. The flag says whether the turn ended here. */
  function FinishFromTranscript(c0: Core, id: TurnId, finalText: string, usage: string, stopReason: string, now: Time)
    : (Core, bool)
  {
    if c0.current != id then (c0, false)
    else
      var c := c0.(timer := StopTimer(c0.timer));
      if id !in c.store.byID then (c, false)
      else
        var c := c.(store := Completed(c.store, id, finalText, "", usage, stopReason, now));
        (Cleared(c, Ready).(turnsSucceeded := c.turnsSucceeded + 1, restarts := 0, currentSessionID := "",
                            totals := c.totals.(complete := c.totals.complete + 1)), true)
  }

  /** failTurn. */
  function FailInFlight(c0: Core, id: TurnId, reason: string, now: Time): (Core, bool) {
    if c0.current != id then (c0, false)
    else
      var c := c0.(timer := StopTimer(c0.timer));
      if id !in c.store.byID then (c, false)
      else
        var c := c.(store := Errored(c.store, id, reason, now));
        (Cleared(c, Dead).(currentSessionID := "", totals := c.totals.(failed := c.totals.failed + 1)), true)
  }

  /** failSubmitWrite: leaves the timer and the session id alone. */
  function FailWrite(c: Core, id: TurnId, reason: string, now: Time): (Core, bool) {
    if c.current != id then (c, false)
    else if id !in c.store.byID then (c, false)
    else
      var c := c.(store := Errored(c.store, id, reason, now));
      (Cleared(c, Ready).(totals := c.totals.(failed := c.totals.failed + 1)), true)
  }

  /** completeAfterInterrupt. */
  function FinishInterrupted(c0: Core, id: TurnId, finalText: string, usage: string, now: Time): (Core, bool) {
    if c0.current != id then (c0, false)
    else
      var c := c0.(timer := StopTimer(c0.timer));
      if id !in c.store.byID then (c, false)
      else
        var c := c.(store := Interrupted(c.store, id, finalText, usage, now));
        (Cleared(c, Ready).(currentSessionID := "",
                            totals := c.totals.(interrupted := c.totals.interrupted + 1)), true)
  }

  // ---------------------------------------------------------------- the timer

  /** The last critical section of Submit. It does not look at the turn slot. */
  function ArmTimer(c: Core, id: TurnId): Core {
    c.(timer := Timer(id, true), stallSince := None)
  }

  function ResumeTimer(c: Core, id: TurnId): Core {
    if c.current != id then c
    else c.(timer := Timer(id, true), stallSince := None, state := Busy)
  }

  /** markStallSuspected. */
  function MarkStall(c: Core, id: TurnId, now: Time): Core {
    if c.current != id || c.timer == NoTimer then c
    else c.(stallSince := if c.stallSince.None? then Some(now) else c.stallSince,
            timer := c.timer.(armed := true))
  }

  /** onTailerActivity, for a line that the wrapper's own probe did not cause. */
  function TailerActivity(c: Core, id: TurnId, now: Time): Core {
    if id == IDLE || id != c.current || c.timer == NoTimer then c
    else c.(store := Touched(c.store, id, now), stallSince := None, timer := c.timer.(armed := true))
  }

  /** The goroutine that Submit starts to look for the transcript has found one; a hook's path wins over it. */
  function TranscriptFound(c: Core, path: string): Core {
    if c.transcriptPath != "" && c.transcriptPath != path then c else c.(transcriptPath := path)
  }

  // ---------------------------------------------------------------- the process

  /** watch, when the process it waits for has exited. */
  function ProcessDied(c: Core, cfg: Config): (Core, DeathVerdict) {
    if c.stopping then (c.(state := Dead), Stopped)
    else
      var c' := c.(timer := StopTimer(c.timer), restarts := c.restarts + 1, state := Dead);
      if c'.restarts > cfg.maxRestarts then (c', Exhausted(c.current))
      else (c'.(relaunches := c.relaunches + 1), MayRelaunch(c.current))
  }

  /** relaunch, after the spawn: false when Shutdown ran meanwhile. */
  function InstallProc(c: Core, p: ProcId): (Core, bool) {
    if c.stopping then (c, false) else (c.(proc := p, state := Booting), true)
  }

  /** bootWait's last critical section. */
  function BootDone(c: Core, p: ProcId): Core {
    if c.state == Booting && c.proc == p then c.(state := Ready) else c
  }

  function MarkDead(c: Core): Core {
    c.(state := Dead)
  }

  function ShutDown(c: Core): Core {
    c.(stopping := true, state := Dead)
  }
}
