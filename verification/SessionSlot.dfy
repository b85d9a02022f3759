/**
 What every critical section of the session manager keeps: one turn holds the slot,
 a finished record is never written again, and the counters agree with the records.
 */
module SessionSlot {
  import opened Wrappers
  import opened TurnStore
  import opened SessionCore

  predicate Terminal(c: Core, id: TurnId) {
    id in c.store.byID && c.store.byID[id].status != Running
  }

  function Finished(m: map<TurnId, Record>): set<TurnId> {
    set id | id in m && m[id].status != Running
  }

  function Succeeded(m: map<TurnId, Record>): set<TurnId> {
    set id | id in m && m[id].status == Complete
  }

  /** A record is Running exactly when it is the turn in the slot. */
  ghost predicate SlotInv(c: Core) {
    && IDLE !in c.store.byID
    && (c.current != IDLE ==> c.current in c.store.byID)
    && (forall id :: id in c.store.byID ==> (c.store.byID[id].status == Running <==> id == c.current))
  }

  /** `order` lists every record once, and its last entry is the turn activity is credited to. */
  ghost predicate OrderInv(c: Core) {
    && (forall i, j :: 0 <= i < j < |c.store.order| ==> c.store.order[i] != c.store.order[j])
    && (forall id :: id in c.store.order <==> id in c.store.byID)
    && CurrentTurnID(c) == (if c.store.order == [] then IDLE else c.store.order[|c.store.order| - 1])
  }

  ghost predicate CountInv(c: Core) {
    && |Finished(c.store.byID)| == c.turnsCompleted
    && c.turnsCompleted == c.totals.complete + c.totals.failed + c.totals.interrupted
    && |Succeeded(c.store.byID)| == c.turnsSucceeded == c.totals.complete
    && |c.store.order| == c.turnsCompleted + c.turnInFlight
    && c.turnInFlight == (if c.current != IDLE then 1 else 0)
    && c.hooks.received == c.hooks.ok + c.hooks.noTurn + c.hooks.rejected
    && c.hooks.storeError == 0
  }

  ghost predicate MiscInv(c: Core) {
    && c.currentSessionID == ""
    && (c.stallSince.Some? ==> c.current != IDLE)
    && (c.proc == NO_PROC ==> c.current == IDLE && (c.state == Booting || c.state == Dead))
  }

  function Min(a: int, b: int): int { if a < b then a else b }

  /** `max * n`, by repeated addition so that the solver can follow one step of it. */
  function Times(max: nat, n: nat): nat {
    if n == 0 then 0 else max + Times(max, n - 1)
  }

  lemma {:induction false} TimesIsProduct(max: nat, n: nat)
    ensures Times(max, n) == max * n
  {
    if n > 0 {
      TimesIsProduct(max, n - 1);
    }
  }

  /** Each crash uses up one relaunch of the budget that the last completed turn restored. */
  ghost predicate BudgetInv(c: Core, max: nat) {
    c.relaunches <= Times(max, c.turnsSucceeded) + Min(c.restarts, max)
  }

  ghost predicate CoreInv(c: Core, max: nat) {
    SlotInv(c) && OrderInv(c) && CountInv(c) && MiscInv(c) && BudgetInv(c, max)
  }

  /** No record disappears, prompts never change, and a finished record stays exactly as it is. */
  ghost predicate Kept(c: Core, c': Core) {
    forall id :: id in c.store.byID ==>
                   && id in c'.store.byID
                   && c'.store.byID[id].text == c.store.byID[id].text
                   && (c.store.byID[id].status != Running ==> c'.store.byID[id] == c.store.byID[id])
  }

  /** The turns that finish between c and c': just `ended`, or none when it is IDLE. */
  ghost predicate Ends(c: Core, c': Core, ended: TurnId) {
    && (ended != IDLE ==> !Terminal(c, ended))
    && (forall id :: Terminal(c', id) <==> Terminal(c, id) || (ended != IDLE && id == ended))
  }

  /** What one critical section must do. */
  ghost predicate GoodStep(c: Core, c': Core, ended: TurnId, max: nat) {
    CoreInv(c', max) && Kept(c, c') && Ends(c, c', ended)
  }

  lemma InitialCore(max: nat)
    ensures CoreInv(INITIAL, max)
  {
    assert Finished(map[]) == {} && Succeeded(map[]) == {};
  }

  /** The relaunch bound in the form the operator sees it. */
  lemma RelaunchBound(c: Core, max: nat)
    requires BudgetInv(c, max)
    ensures c.relaunches <= max * (c.turnsSucceeded + 1)
  {
    TimesIsProduct(max, c.turnsSucceeded);
    assert max * (c.turnsSucceeded + 1) == max * c.turnsSucceeded + max;
  }

  lemma AdmitStep(c: Core, cfg: Config, handoff: bool, now: Time)
    requires CoreInv(c, cfg.maxRestarts)
    ensures GoodStep(c, Admit(c, cfg, handoff, now).0, IDLE, cfg.maxRestarts)
  {
  }

  lemma SetPlusOne<T>(s: set<T>, x: T)
    requires x !in s
    ensures |s + {x}| == |s| + 1
  {
  }

  lemma FinishedAfter(m: map<TurnId, Record>, id: TurnId, r: Record)
    requires id in m && m[id].status == Running && r.status != Running
    ensures Finished(m[id := r]) == Finished(m) + {id} && id !in Finished(m)
  {
  }

  lemma SucceededAfter(m: map<TurnId, Record>, id: TurnId, r: Record)
    requires id in m && m[id].status == Running && r.status != Running
    ensures Succeeded(m[id := r]) == Succeeded(m) + (if r.status == Complete then {id} else {})
    ensures id !in Succeeded(m)
  {
  }

  /** Writing a terminal record over a running one adds exactly that turn to the finished ones. */
  lemma CountsAfter(m: map<TurnId, Record>, id: TurnId, r: Record)
    requires id in m && m[id].status == Running && r.status != Running
    ensures |Finished(m[id := r])| == |Finished(m)| + 1
    ensures |Succeeded(m[id := r])| == |Succeeded(m)| + (if r.status == Complete then 1 else 0)
  {
    FinishedAfter(m, id, r);
    SucceededAfter(m, id, r);
    SetPlusOne(Finished(m), id);
    if r.status == Complete {
      SetPlusOne(Succeeded(m), id);
    }
  }

  /** Writing a record that is running leaves both sets alone. */
  lemma FinishedSame(m: map<TurnId, Record>, id: TurnId, r: Record)
    requires id in m ==> m[id].status == Running
    requires r.status == Running
    ensures Finished(m[id := r]) == Finished(m) && Succeeded(m[id := r]) == Succeeded(m)
  {
  }

  lemma ReserveSlotInv(c: Core, id: TurnId, text: string, callbackURL: string, now: Time)
    requires SlotInv(c) && id != IDLE && id !in c.store.byID
    ensures var c' := ReserveSlot(c, id, text, callbackURL, now).0; SlotInv(c') && Kept(c, c') && Ends(c, c', IDLE)
  {
  }

  lemma ReserveOrderInv(c: Core, id: TurnId, text: string, callbackURL: string, now: Time)
    requires OrderInv(c) && id != IDLE && id !in c.store.byID
    ensures OrderInv(ReserveSlot(c, id, text, callbackURL, now).0)
  {
    var c' := ReserveSlot(c, id, text, callbackURL, now).0;
    assert forall i :: 0 <= i < |c.store.order| ==> c.store.order[i] in c.store.byID;
    assert forall x :: x in c.store.order + [id] <==> x in c.store.order || x == id;
  }

  lemma ReserveStep(c: Core, id: TurnId, text: string, callbackURL: string, now: Time, max: nat)
    requires CoreInv(c, max) && id != IDLE && id !in c.store.byID
    ensures var (c', v) := ReserveSlot(c, id, text, callbackURL, now);
            && GoodStep(c, c', IDLE, max)
            && (v == Reserved ==> c'.current == id && id in c'.store.byID && c'.store.byID[id].text == text)
  {
    ReserveSlotInv(c, id, text, callbackURL, now);
    ReserveOrderInv(c, id, text, callbackURL, now);
    FinishedSame(c.store.byID, id, Fresh(text, callbackURL, now));
  }

  /** The five ways to end a turn all write the record in the slot and clear the slot. */
  ghost predicate EndsTurn(c: Core, c': Core, r: Record) {
    && c.current in c.store.byID
    && r.status != Running && r.text == c.store.byID[c.current].text
    && c'.store == Contents(c.store.byID[c.current := r], c.store.order)
    && c'.current == IDLE && c'.lastCompleted == c.current
    && c'.turnsCompleted == c.turnsCompleted + 1 && c'.turnInFlight == 0
  }

  ghost predicate CountsTurn(c: Core, c': Core, r: Record) {
    && c'.turnsSucceeded == c.turnsSucceeded + (if r.status == Complete then 1 else 0)
    && c'.totals.complete == c'.turnsSucceeded
    && c'.totals.complete + c'.totals.failed + c'.totals.interrupted ==
       c.totals.complete + c.totals.failed + c.totals.interrupted + 1
    && c'.hooks.received - c'.hooks.ok == c.hooks.received - c.hooks.ok
    && c'.hooks.noTurn == c.hooks.noTurn && c'.hooks.rejected == c.hooks.rejected
    && c'.hooks.storeError == c.hooks.storeError
  }

  lemma EndSlot(c: Core, c': Core, r: Record)
    requires SlotInv(c) && c.current != IDLE && EndsTurn(c, c', r)
    ensures SlotInv(c') && Kept(c, c') && Ends(c, c', c.current)
  {
  }

  lemma EndOrder(c: Core, c': Core, r: Record)
    requires OrderInv(c) && c.current != IDLE && EndsTurn(c, c', r)
    ensures OrderInv(c')
  {
  }

  lemma EndCounts(c: Core, c': Core, r: Record)
    requires SlotInv(c) && CountInv(c) && c.current != IDLE && EndsTurn(c, c', r) && CountsTurn(c, c', r)
    ensures CountInv(c')
  {
    CountsAfter(c.store.byID, c.current, r);
  }

  lemma EndStep(c: Core, c': Core, r: Record, max: nat)
    requires CoreInv(c, max) && c.current != IDLE && EndsTurn(c, c', r) && CountsTurn(c, c', r)
    requires MiscInv(c') && BudgetInv(c', max)
    ensures GoodStep(c, c', c.current, max)
  {
    EndSlot(c, c', r);
    EndOrder(c, c', r);
    EndCounts(c, c', r);
  }

  /**
   A hook is accepted exactly when a turn holds the slot and the session is neither dead nor booting.
   The check on the session id never refuses one: between critical sections no id is recorded.
   */
  lemma HookVerdicts(c: Core, r: HookResult, now: Time)
    requires SlotInv(c) && MiscInv(c)
    ensures var v := HookArrives(c, r, now).1;
            && (v.Accepted? ==> v.turn == c.current != IDLE)
            && (v.Accepted? <==> c.current != IDLE && c.state != Dead && c.state != Booting)
            && (v.NoTurn? <==> c.current == IDLE)
            && v != StaleSession && v != StoreError
  {
  }

  lemma HookRefused(c: Core, r: HookResult, now: Time, max: nat)
    requires CoreInv(c, max) && !HookArrives(c, r, now).1.Accepted?
    ensures GoodStep(c, HookArrives(c, r, now).0, IDLE, max)
  {
    HookVerdicts(c, r, now);
    var c' := HookArrives(c, r, now).0;
    assert c' == c.(hooks := c'.hooks);
  }

  lemma HookAccepted(c: Core, r: HookResult, now: Time, max: nat)
    requires CoreInv(c, max) && HookArrives(c, r, now).1.Accepted?
    ensures GoodStep(c, HookArrives(c, r, now).0, c.current, max)
  {
    var c' := HookArrives(c, r, now).0;
    var rec := c'.store.byID[c.current];
    assert EndsTurn(c, c', rec);
    assert CountsTurn(c, c', rec);
    EndStep(c, c', rec, max);
  }

  lemma HookStep(c: Core, r: HookResult, now: Time, max: nat)
    requires CoreInv(c, max)
    ensures var (c', v) := HookArrives(c, r, now);
            GoodStep(c, c', if v.Accepted? then v.turn else IDLE, max)
  {
    HookVerdicts(c, r, now);
    if HookArrives(c, r, now).1.Accepted? {
      HookAccepted(c, r, now, max);
    } else {
      HookRefused(c, r, now, max);
    }
  }

  lemma FinishStep(c: Core, id: TurnId, finalText: string, usage: string, stopReason: string, now: Time, max: nat)
    requires CoreInv(c, max) && id != IDLE
    ensures var (c', ended) := FinishFromTranscript(c, id, finalText, usage, stopReason, now);
            GoodStep(c, c', if ended then id else IDLE, max) && (ended <==> c.current == id)
  {
    var (c', ended) := FinishFromTranscript(c, id, finalText, usage, stopReason, now);
    if ended {
      EndStep(c, c', c'.store.byID[id], max);
    }
  }

  lemma FailStep(c: Core, id: TurnId, reason: string, now: Time, max: nat)
    requires CoreInv(c, max) && id != IDLE
    ensures var (c', ended) := FailInFlight(c, id, reason, now);
            GoodStep(c, c', if ended then id else IDLE, max) && (ended <==> c.current == id)
  {
    var (c', ended) := FailInFlight(c, id, reason, now);
    if ended {
      EndStep(c, c', c'.store.byID[id], max);
    }
  }

  lemma FailWriteStep(c: Core, id: TurnId, reason: string, now: Time, max: nat)
    requires CoreInv(c, max) && id != IDLE
    ensures var (c', ended) := FailWrite(c, id, reason, now);
            GoodStep(c, c', if ended then id else IDLE, max) && (ended <==> c.current == id)
  {
    var (c', ended) := FailWrite(c, id, reason, now);
    if ended {
      EndStep(c, c', c'.store.byID[id], max);
    }
  }

  lemma InterruptStep(c: Core, id: TurnId, finalText: string, usage: string, now: Time, max: nat)
    requires CoreInv(c, max) && id != IDLE
    ensures var (c', ended) := FinishInterrupted(c, id, finalText, usage, now);
            GoodStep(c, c', if ended then id else IDLE, max) && (ended <==> c.current == id)
  {
    var (c', ended) := FinishInterrupted(c, id, finalText, usage, now);
    if ended {
      EndStep(c, c', c'.store.byID[id], max);
    }
  }

  /** Critical sections that leave the records, the slot and the counters alone. */
  ghost predicate SameSlot(c: Core, c': Core) {
    && c'.store == c.store && c'.current == c.current && c'.lastCompleted == c.lastCompleted
    && c'.turnsCompleted == c.turnsCompleted && c'.turnsSucceeded == c.turnsSucceeded
    && c'.totals == c.totals && c'.turnInFlight == c.turnInFlight && c'.hooks == c.hooks
    && c'.currentSessionID == c.currentSessionID
    && c'.handoffAdmitted == c.handoffAdmitted
  }

  lemma SameSlotStep(c: Core, c': Core, max: nat)
    requires CoreInv(c, max) && SameSlot(c, c') && MiscInv(c') && BudgetInv(c', max)
    ensures GoodStep(c, c', IDLE, max)
  {
  }

  lemma ArmStep(c: Core, id: TurnId, max: nat)
    requires CoreInv(c, max)
    ensures GoodStep(c, ArmTimer(c, id), IDLE, max)
  {
    SameSlotStep(c, ArmTimer(c, id), max);
  }

  lemma ResumeTimerStep(c: Core, id: TurnId, max: nat)
    requires CoreInv(c, max) && id != IDLE
    ensures GoodStep(c, ResumeTimer(c, id), IDLE, max)
  {
    SameSlotStep(c, ResumeTimer(c, id), max);
  }

  lemma StallStep(c: Core, id: TurnId, now: Time, max: nat)
    requires CoreInv(c, max) && id != IDLE
    ensures GoodStep(c, MarkStall(c, id, now), IDLE, max)
  {
    SameSlotStep(c, MarkStall(c, id, now), max);
  }

  lemma TouchedRecords(c: Core, c': Core, id: TurnId, now: Time)
    requires SlotInv(c) && OrderInv(c) && CountInv(c) && id == c.current && id in c.store.byID
    requires c' == c.(store := Touched(c.store, id, now), stallSince := c'.stallSince, timer := c'.timer)
    ensures SlotInv(c') && OrderInv(c') && CountInv(c') && Kept(c, c') && Ends(c, c', IDLE)
  {
    FinishedSame(c.store.byID, id, c.store.byID[id].(lastActivityAt := now));
  }

  lemma ActivityStep(c: Core, id: TurnId, now: Time, max: nat)
    requires CoreInv(c, max)
    ensures GoodStep(c, TailerActivity(c, id, now), IDLE, max)
  {
    var c' := TailerActivity(c, id, now);
    if c' == c {
      SameSlotStep(c, c', max);
    } else {
      TouchedRecords(c, c', id, now);
    }
  }

  lemma DeathStep(c: Core, cfg: Config)
    requires CoreInv(c, cfg.maxRestarts)
    ensures GoodStep(c, ProcessDied(c, cfg).0, IDLE, cfg.maxRestarts)
  {
    SameSlotStep(c, ProcessDied(c, cfg).0, cfg.maxRestarts);
  }

  lemma InstallStep(c: Core, p: ProcId, max: nat)
    requires CoreInv(c, max) && p != NO_PROC
    ensures GoodStep(c, InstallProc(c, p).0, IDLE, max)
    ensures GoodStep(c, c.(proc := p), IDLE, max)
  {
    SameSlotStep(c, InstallProc(c, p).0, max);
    SameSlotStep(c, c.(proc := p), max);
  }

  lemma BootStep(c: Core, p: ProcId, max: nat)
    requires CoreInv(c, max) && p != NO_PROC
    ensures GoodStep(c, BootDone(c, p), IDLE, max)
  {
    SameSlotStep(c, BootDone(c, p), max);
  }

  lemma FoundStep(c: Core, path: string, max: nat)
    requires CoreInv(c, max)
    ensures GoodStep(c, TranscriptFound(c, path), IDLE, max)
  {
    SameSlotStep(c, TranscriptFound(c, path), max);
  }

  lemma DeadSteps(c: Core, max: nat)
    requires CoreInv(c, max)
    ensures GoodStep(c, MarkDead(c), IDLE, max)
    ensures GoodStep(c, ShutDown(c), IDLE, max)
  {
    SameSlotStep(c, MarkDead(c), max);
    SameSlotStep(c, ShutDown(c), max);
  }
}
