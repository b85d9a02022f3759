/**
 The session manager itself: its fields, and its critical sections as the methods of the source update
 them, one assignment at a time. Each is proved to do what its function in SessionCore says.
 */
module SessionManager {
  import opened Wrappers
  import opened TurnStore
  import opened SessionCore

  /** The fields about the turn in the slot. */
  datatype Slot = Slot(current: TurnId, lastCompleted: TurnId, started: Time, sessionID: string,
                       stallSince: Option<Time>, timer: Timer)

  /** The collectors of internal/metrics that the manager updates under its lock. */
  datatype Metrics = Metrics(turnsTotal: Totals, turnInFlight: nat, hooks: Hooks, claudeRestarts: nat)

  class Manager {
    const cfg: Config
    const store: Store

    var state: SessionState
    var slot: Slot
    var turnsCompleted: nat
    var turnsSucceeded: nat
    var restarts: nat
    var transcriptPath: string
    var stopping: bool
    var proc: ProcId
    var handoffAdmitted: bool
    var m: Metrics

    ghost function View(): Core
      reads this, store
    {
      Core(store.View(), state, slot.current, slot.lastCompleted, slot.started, slot.sessionID, slot.stallSince,
           slot.timer, turnsCompleted, turnsSucceeded, transcriptPath, restarts, stopping, proc, handoffAdmitted,
           m.turnsTotal, m.turnInFlight, m.hooks, m.claudeRestarts)
    }

    constructor (cfg: Config)
      ensures View() == INITIAL && this.cfg == cfg && fresh(store)
    {
      this.cfg := cfg;
      store := new Store();
      state := Booting;
      slot := Slot(IDLE, IDLE, 0, "", None, NoTimer);
      turnsCompleted, turnsSucceeded, restarts := 0, 0, 0;
      transcriptPath, stopping, proc, handoffAdmitted := "", false, NO_PROC, false;
      m := Metrics(Totals(0, 0, 0), 0, Hooks(0, 0, 0, 0, 0), 0);
    }

    method GetCurrentTurnID() returns (id: TurnId)
      ensures id == CurrentTurnID(View())
    {
      if slot.current != IDLE {
        return slot.current;
      }
      return slot.lastCompleted;
    }

    method Admit(handoff: bool, now: Time) returns (ok: bool)
      modifies this
      ensures (View(), ok) == SessionCore.Admit(old(View()), cfg, handoff, now)
    {
      if cfg.podTTL <= 0 {
        return true;
      }
      var deadline := cfg.startedAt + cfg.podTTL;
      if now < deadline {
        return true;
      }
      var hardCap := deadline + 2 * cfg.turnTimeout + 60 * SECOND;
      if handoff && now < hardCap && !handoffAdmitted {
        handoffAdmitted := true;
        return true;
      }
      return false;
    }

    method Reserve(id: TurnId, text: string, callbackURL: string, now: Time) returns (v: SubmitVerdict)
      modifies this, store
      ensures (View(), v) == ReserveSlot(old(View()), id, text, callbackURL, now)
    {
      if state == Dead {
        return SessionDead;
      }
      if state == Booting {
        return NotReady;
      }
      if slot.current != IDLE {
        return SlotBusy;
      }
      store.Create(id, text, callbackURL, now);
      slot, state := slot.(current := id, started := now), Busy;
      m := m.(turnInFlight := 1);
      return Reserved;
    }

    method InstallTimer(id: TurnId)
      modifies this
      ensures View() == ArmTimer(old(View()), id)
    {
      slot := slot.(timer := Timer(id, true), stallSince := None);
    }

    method StopTheTimer()
      modifies `slot
      ensures slot == old(slot).(timer := StopTimer(old(slot).timer))
    {
      if slot.timer != NoTimer {
        slot := slot.(timer := slot.timer.(armed := false));
      }
    }

    method ClearCurrentLocked(next: SessionState)
      modifies this
      ensures View() == Cleared(old(View()), next)
    {
      slot := slot.(lastCompleted := slot.current, current := IDLE, stallSince := None);
      turnsCompleted := turnsCompleted + 1;
      state := next;
      m := m.(turnInFlight := 0);
    }

    /** The slot after a turn that ended well: the session is healthy again. */
    method ClearAfterSuccess()
      modifies this
      ensures View() == Cleared(old(View()), Ready).(turnsSucceeded := old(turnsSucceeded) + 1, restarts := 0,
                                                      currentSessionID := "")
    {
      ClearCurrentLocked(Ready);
      turnsSucceeded := turnsSucceeded + 1;
      restarts := 0;
      slot := slot.(sessionID := "");
    }

    /** The session id, the timer and the transcript path of a hook that was not refused. */
    method TakeHook(r: HookResult)
      modifies `slot, `transcriptPath
      ensures slot == old(slot).(timer := StopTimer(old(slot).timer),
                                 sessionID := if r.sessionID != "" && old(slot).sessionID == "" then r.sessionID
                                              else old(slot).sessionID)
      ensures transcriptPath == if r.transcriptPath != "" then r.transcriptPath else old(transcriptPath)
    {
      if r.sessionID != "" && slot.sessionID == "" {
        slot := slot.(sessionID := r.sessionID);
      }
      StopTheTimer();
      if r.transcriptPath != "" {
        transcriptPath := r.transcriptPath;
      }
    }

    method Complete(r: HookResult, now: Time) returns (v: HookVerdict)
      modifies this, store
      ensures (View(), v) == HookArrives(old(View()), r, now)
    {
      m := m.(hooks := m.hooks.(received := m.hooks.received + 1));
      var id := slot.current;
      if id == IDLE {
        m := m.(hooks := m.hooks.(noTurn := m.hooks.noTurn + 1));
        return NoTurn;
      }
      if state == Dead || state == Booting {
        m := m.(hooks := m.hooks.(rejected := m.hooks.rejected + 1));
        return Recovering;
      }
      if r.sessionID != "" && slot.sessionID != "" && r.sessionID != slot.sessionID {
        m := m.(hooks := m.hooks.(rejected := m.hooks.rejected + 1));
        return StaleSession;
      }
      TakeHook(r);
      var ok := store.Complete(id, r.finalText, r.resultJSON, r.usage, r.stopReason, now);
      if !ok {
        m := m.(hooks := m.hooks.(storeError := m.hooks.storeError + 1));
        return StoreError;
      }
      ClearAfterSuccess();
      m := m.(hooks := m.hooks.(ok := m.hooks.ok + 1), turnsTotal := m.turnsTotal.(complete := m.turnsTotal.complete + 1));
      return Accepted(id);
    }

    method CompleteFromTranscript(id: TurnId, finalText: string, usage: string, stopReason: string, now: Time)
      returns (ended: bool)
      modifies this, store
      ensures (View(), ended) == FinishFromTranscript(old(View()), id, finalText, usage, stopReason, now)
    {
      if slot.current != id {
        return false;
      }
      StopTheTimer();
      var ok := store.Complete(id, finalText, "", usage, stopReason, now);
      if !ok {
        return false;
      }
      ClearAfterSuccess();
      m := m.(turnsTotal := m.turnsTotal.(complete := m.turnsTotal.complete + 1));
      return true;
    }

    method FailTurn(id: TurnId, reason: string, now: Time) returns (ended: bool)
      modifies this, store
      ensures (View(), ended) == FailInFlight(old(View()), id, reason, now)
    {
      if slot.current != id {
        return false;
      }
      StopTheTimer();
      var ok := store.Fail(id, reason, now);
      if !ok {
        return false;
      }
      ClearCurrentLocked(Dead);
      slot := slot.(sessionID := "");
      m := m.(turnsTotal := m.turnsTotal.(failed := m.turnsTotal.failed + 1));
      return true;
    }

    method FailSubmitWrite(id: TurnId, reason: string, now: Time) returns (ended: bool)
      modifies this, store
      ensures (View(), ended) == FailWrite(old(View()), id, reason, now)
    {
      if slot.current != id {
        return false;
      }
      var ok := store.Fail(id, reason, now);
      if !ok {
        return false;
      }
      ClearCurrentLocked(Ready);
      m := m.(turnsTotal := m.turnsTotal.(failed := m.turnsTotal.failed + 1));
      return true;
    }

    method CompleteAfterInterrupt(id: TurnId, finalText: string, usage: string, now: Time) returns (ended: bool)
      modifies this, store
      ensures (View(), ended) == FinishInterrupted(old(View()), id, finalText, usage, now)
    {
      if slot.current != id {
        return false;
      }
      StopTheTimer();
      var ok := store.Interrupt(id, finalText, usage, now);
      if !ok {
        return false;
      }
      ClearCurrentLocked(Ready);
      slot := slot.(sessionID := "");
      m := m.(turnsTotal := m.turnsTotal.(interrupted := m.turnsTotal.interrupted + 1));
      return true;
    }

    method InstallResumeTimer(id: TurnId)
      modifies this
      ensures View() == ResumeTimer(old(View()), id)
    {
      if slot.current != id {
        return;
      }
      slot := slot.(timer := Timer(id, true), stallSince := None);
      state := Busy;
    }

    method MarkStallSuspected(id: TurnId, now: Time)
      modifies this
      ensures View() == MarkStall(old(View()), id, now)
    {
      if slot.current != id || slot.timer == NoTimer {
        return;
      }
      if slot.stallSince.None? {
        slot := slot.(stallSince := Some(now));
      }
      slot := slot.(timer := slot.timer.(armed := true));
    }

    method OnTailerActivity(id: TurnId, probeOriginated: bool, now: Time)
      modifies this, store
      ensures View() == if probeOriginated then old(View()) else TailerActivity(old(View()), id, now)
    {
      if probeOriginated {
        return;
      }
      if id == IDLE || id != slot.current || slot.timer == NoTimer {
        return;
      }
      var _ := store.Touch(id, now);
      slot := slot.(stallSince := None, timer := slot.timer.(armed := true));
    }

    /** The discovery goroutine has found a transcript. */
    method AdoptTranscript(path: string)
      modifies this
      ensures View() == TranscriptFound(old(View()), path)
    {
      if transcriptPath != "" && transcriptPath != path {
        return;
      }
      transcriptPath := path;
    }

    /** watch, from the death of its process to the decision whether to relaunch. */
    method OnDeath() returns (v: DeathVerdict)
      modifies this
      ensures (View(), v) == ProcessDied(old(View()), cfg)
    {
      if stopping {
        state := Dead;
        return Stopped;
      }
      var inFlight := slot.current;
      StopTheTimer();
      restarts := restarts + 1;
      var attempt := restarts;
      state := Dead;
      if attempt > cfg.maxRestarts {
        return Exhausted(inFlight);
      }
      m := m.(claudeRestarts := m.claudeRestarts + 1);
      return MayRelaunch(inFlight);
    }

    method RelaunchWith(p: ProcId) returns (ok: bool)
      modifies this
      ensures (View(), ok) == InstallProc(old(View()), p)
    {
      if stopping {
        return false;
      }
      proc := p;
      state := Booting;
      return true;
    }

    method FinishBoot(p: ProcId)
      modifies this
      ensures View() == BootDone(old(View()), p)
    {
      if state == Booting && proc == p {
        state := Ready;
      }
    }

    method BeginShutdown()
      modifies this
      ensures View() == ShutDown(old(View()))
    {
      stopping := true;
      state := Dead;
    }
  }
}
