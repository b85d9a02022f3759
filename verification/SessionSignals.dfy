/**
 The session's state, its inactivity timer, the suspected stall, the transcript path and the stamps of activity, read off
 the run. Each step is put down as the one effect it has on them; the theorems say what a list of effects amounts to.
 */
module SessionSignals {
  import opened Wrappers
  import opened TurnStore
  import opened SessionCore
  import opened SessionSlot
  import opened SessionPty
  import opened SessionWorld
  import opened SessionRuns
  import opened SessionHistory

  // ---------------------------------------------------------------- effects

  datatype Effect =
    | Quiet
    | Took(turn: TurnId)
    | Done(hooked: bool, path: string)
    | Broken
    | Refused(idle: bool)
    | Unwritten
    | Lost
    | Armed(turn: TurnId, again: bool)
    | Alarm(now: Time)
    | Sign(turn: TurnId, now: Time)
    | Found(path: string)
    | Died
    | Installed
    | Booted
    | Gone

  predicate Idle(c: Core) { c.current == IDLE }

  predicate Up(c: Core) { c.state == Ready || c.state == Busy }

  /** What a step means for the session, from the state it is taken in. */
  function EffectOf(s: World, a: Action): Effect
    requires Enabled(s, a)
  {
    var c := s.core;
    match a
    case OnSubmit(SubmitReserve(_, id, _)) => if Idle(c) && Up(c) then Took(id) else Quiet
    case OnSubmit(SubmitFail(t, _, _)) => if c.current == s.threads[t].id then Unwritten else Quiet
    case OnSubmit(SubmitArm(t)) => Armed(s.threads[t].id, false)
    case OnCrash(Death(_)) => if c.stopping then Gone else Died
    case OnCrash(SpawnOk(_, _, _)) => if c.stopping then Quiet else Installed
    case OnCrash(BootEnd(t, settled)) =>
      if settled && c.state == Booting && c.proc == s.threads[t].proc then Booted else Quiet
    case OnCrash(DropRelaunch(_)) => Gone
    case OnResume(FailTurn(t, _, _)) => if c.current == s.threads[t].id then Lost else Quiet
    case OnResume(CompleteFromTranscript(t, _, _, _, _)) => if c.current == s.threads[t].id then Done(false, "") else Quiet
    case OnResume(InstallTimer(t)) => if c.current == s.threads[t].id then Armed(c.current, true) else Quiet
    case OnInterrupt(CompleteInterrupt(t, _, _, _)) => if c.current == s.threads[t].id then Broken else Quiet
    case OnSignal(Hook(r, _)) => if !Idle(c) && Up(c) then Done(true, r.transcriptPath) else Refused(Idle(c))
    case OnSignal(Stall(id, now)) => if c.current == id && c.timer != NoTimer then Alarm(now) else Quiet
    case OnSignal(Activity(id, now)) =>
      if c.current == id && !Idle(c) && c.timer != NoTimer then Sign(id, now) else Quiet
    case OnSignal(Discovered(path)) => Found(path)
    case OnSignal(Shutdown) => Gone
    case _ => Quiet
  }

  predicate Ending(e: Effect) { e.Done? || e.Broken? || e.Unwritten? || e.Lost? }

  predicate Stops(e: Effect) { e.Done? || e.Broken? || e.Lost? || e.Died? }

  predicate Rearms(e: Effect) { e.Alarm? || e.Sign? }

  predicate Clears(e: Effect) { Ending(e) || e.Armed? || e.Sign? }

  function StateFrom(state: SessionState, e: Effect): SessionState {
    if e.Booted? || (Ending(e) && !e.Lost?) then Ready
    else if e.Took? || (e.Armed? && e.again) then Busy
    else if e.Died? || e.Gone? || e.Lost? then Dead
    else if e.Installed? then Booting
    else state
  }

  function TimerFrom(timer: Timer, e: Effect): Timer {
    if e.Armed? then Timer(e.turn, true)
    else if timer.Timer? && (Stops(e) || Rearms(e)) then timer.(armed := Rearms(e))
    else timer
  }

  function StallFrom(since: Option<Time>, e: Effect): Option<Time> {
    if Clears(e) then None else if e.Alarm? && since.None? then Some(e.now) else since
  }

  function PathFrom(path: string, e: Effect): string {
    if e.Done? && e.path != "" then e.path else if e.Found? && path == "" then e.path else path
  }

  function CurrentFrom(current: TurnId, e: Effect): TurnId {
    if e.Took? then e.turn else if Ending(e) then IDLE else current
  }

  function One(b: bool): nat { if b then 1 else 0 }

  function TotalsFrom(n: Totals, e: Effect): Totals {
    Totals(n.complete + One(e.Done?), n.failed + One(e.Lost? || e.Unwritten?), n.interrupted + One(e.Broken?))
  }

  predicate HooksFollow(n: Hooks, n': Hooks, e: Effect) {
    && n'.ok == n.ok + One(e.Done? && e.hooked) && n'.noTurn == n.noTurn + One(e.Refused? && e.idle)
    && n'.rejected == n.rejected + One(e.Refused? && !e.idle)
  }

  predicate FieldsFollow(c: Core, c': Core, e: Effect) {
    && (e.Took? ==> e.turn != IDLE)
    && (e.Armed? && e.again ==> e.turn == c.current != IDLE)
    && c'.state == StateFrom(c.state, e) && c'.timer == TimerFrom(c.timer, e)
    && c'.stallSince == StallFrom(c.stallSince, e) && c'.transcriptPath == PathFrom(c.transcriptPath, e)
    && c'.current == CurrentFrom(c.current, e)
    && c'.totals == TotalsFrom(c.totals, e) && HooksFollow(c.hooks, c'.hooks, e)
  }

  predicate RecordsFollow(c: Core, c': Core, e: Effect) {
    && (e.Sign? ==> e.turn in c.store.byID)
    && (forall id :: id in c.store.byID ==>
          && id in c'.store.byID && c'.store.byID[id].startedAt == c.store.byID[id].startedAt
          && c'.store.byID[id].lastActivityAt ==
             if e.Sign? && e.turn == id then e.now else c.store.byID[id].lastActivityAt)
    && (forall id :: id in c'.store.byID && id !in c.store.byID ==>
          e == Took(id) && c'.store.byID[id].lastActivityAt == c'.store.byID[id].startedAt)
  }

  predicate Follows(c: Core, c': Core, e: Effect) {
    FieldsFollow(c, c', e) && RecordsFollow(c, c', e)
  }

  lemma ReserveFollows(c: Core, id: TurnId, text: string, callbackURL: string, now: Time)
    requires id != IDLE && id !in c.store.byID
    ensures Follows(c, ReserveSlot(c, id, text, callbackURL, now).0, if Idle(c) && Up(c) then Took(id) else Quiet)
  {
  }

  lemma WriteFailFollows(c: Core, id: TurnId, reason: string, now: Time)
    requires SlotInv(c) && id != IDLE
    ensures Follows(c, FailWrite(c, id, reason, now).0, if c.current == id then Unwritten else Quiet)
  {
  }

  lemma FailFollows(c: Core, id: TurnId, reason: string, now: Time)
    requires SlotInv(c) && id != IDLE
    ensures Follows(c, FailInFlight(c, id, reason, now).0, if c.current == id then Lost else Quiet)
  {
  }

  lemma FinishFollows(c: Core, id: TurnId, finalText: string, usage: string, stopReason: string, now: Time)
    requires SlotInv(c) && id != IDLE
    ensures Follows(c, FinishFromTranscript(c, id, finalText, usage, stopReason, now).0,
                    if c.current == id then Done(false, "") else Quiet)
  {
  }

  lemma InterruptFollows(c: Core, id: TurnId, finalText: string, usage: string, now: Time)
    requires SlotInv(c) && id != IDLE
    ensures Follows(c, FinishInterrupted(c, id, finalText, usage, now).0, if c.current == id then Broken else Quiet)
  {
  }

  lemma HookFollows(c: Core, r: HookResult, now: Time)
    requires SlotInv(c) && MiscInv(c)
    ensures Follows(c, HookArrives(c, r, now).0,
                    if !Idle(c) && Up(c) then Done(true, r.transcriptPath) else Refused(Idle(c)))
  {
    HookVerdicts(c, r, now);
    if Idle(c) || !Up(c) {
      assert HookArrives(c, r, now).0 == c.(hooks := HookArrives(c, r, now).0.hooks);
    }
  }

  lemma ActivityFollows(c: Core, id: TurnId, now: Time)
    requires SlotInv(c)
    ensures Follows(c, TailerActivity(c, id, now),
                    if c.current == id && !Idle(c) && c.timer != NoTimer then Sign(id, now) else Quiet)
  {
  }

  lemma SubmitFollows(s: World, x: SubmitAction)
    requires CanSubmit(s, x) && SlotInv(s.core) && ThreadInv(s)
    ensures Follows(s.core, Submitted(s, x).core, EffectOf(s, OnSubmit(x)))
  {
    match x
    case SubmitCall(_, _, _, _, _) =>
    case SubmitReserve(t, id, now) => ReserveFollows(s.core, id, s.threads[t].text, s.threads[t].callbackURL, now);
    case SubmitFail(t, reason, now) => WriteFailFollows(s.core, s.threads[t].id, reason, now);
    case SubmitArm(_) =>
  }

  lemma CrashFollows(s: World, x: CrashAction)
    requires CanCrash(s, x)
    ensures Follows(s.core, Crashed(s, x).core, EffectOf(s, OnCrash(x)))
  {
  }

  lemma ResumeFollows(s: World, x: ResumeAction)
    requires CanResume(s, x) && SlotInv(s.core) && ThreadInv(s)
    ensures Follows(s.core, Resumed(s, x).core, EffectOf(s, OnResume(x)))
  {
    match x
    case FailTurn(t, reason, now) => FailFollows(s.core, s.threads[t].id, reason, now);
    case ResumeTurn(_, _) =>
    case CompleteFromTranscript(t, finalText, usage, stopReason, now) =>
      FinishFollows(s.core, s.threads[t].id, finalText, usage, stopReason, now);
    case InstallTimer(_) =>
  }

  lemma SignalFollows(s: World, x: SignalAction)
    requires CanSignal(s, x) && SlotInv(s.core) && MiscInv(s.core)
    ensures Follows(s.core, Signalled(s, x).core, EffectOf(s, OnSignal(x)))
  {
    match x
    case Hook(r, now) => HookFollows(s.core, r, now);
    case Activity(id, now) => ActivityFollows(s.core, id, now);
    case Stall(_, _) =>
    case Discovered(_) =>
    case Shutdown =>
    case _ => assert Signalled(s, x).core == s.core;
  }

  /** Every step of every goroutine has just the effect it is put down as. */
  lemma EffectStep(s: World, a: Action)
    requires Enabled(s, a) && SlotInv(s.core) && MiscInv(s.core) && ThreadInv(s)
    ensures Follows(s.core, Apply(s, a).core, EffectOf(s, a))
  {
    match a
    case OnSubmit(x) => SubmitFollows(s, x);
    case OnPty(x) => assert Apply(s, a).core == s.core && EffectOf(s, a) == Quiet;
    case OnCrash(x) => CrashFollows(s, x);
    case OnResume(x) => ResumeFollows(s, x);
    case OnInterrupt(CompleteInterrupt(t, finalText, usage, now)) =>
      InterruptFollows(s.core, s.threads[t].id, finalText, usage, now);
    case OnInterrupt(_) => assert Apply(s, a).core == s.core && EffectOf(s, a) == Quiet;
    case OnSignal(x) => SignalFollows(s, x);
  }

  /** The effects of a run, step by step. */
  function Effects(cfg: Config, run: seq<Action>): seq<Effect>
    requires CanRun(Init(cfg), run)
    decreases |run|
  {
    if run == [] then []
    else
      RunSplit(Init(cfg), run);
      var front, last := run[..|run| - 1], run[|run| - 1];
      Effects(cfg, front) + [EffectOf(After(cfg, front), last)]
  }

  /** The last step of a run, as its effects. */
  lemma LastEffect(cfg: Config, run: seq<Action>) returns (front: seq<Action>, e: Effect)
    requires CanRun(Init(cfg), run) && run != []
    ensures front == run[..|run| - 1] && CanRun(Init(cfg), front)
    ensures Effects(cfg, run) == Effects(cfg, front) + [e]
    ensures Follows(After(cfg, front).core, After(cfg, run).core, e)
  {
    RunSplit(Init(cfg), run);
    front := run[..|run| - 1];
    e := EffectOf(After(cfg, front), run[|run| - 1]);
    assert Follows(After(cfg, front).core, Apply(After(cfg, front), run[|run| - 1]).core, e) by {
      AfterInv(cfg, front);
      EffectStep(After(cfg, front), run[|run| - 1]);
    }
  }

  // ---------------------------------------------------------------- what effects amount to

  /** Alarm i still stands: nothing has cleared it, and it is the first one since the last time something did. */
  ghost predicate Stands(es: seq<Effect>, i: nat) {
    && i < |es| && es[i].Alarm?
    && (forall j :: i < j < |es| ==> !Clears(es[j]))
    && (forall k :: 0 <= k < i && es[k].Alarm? ==> exists j :: k < j < i && Clears(es[j]))
  }

  lemma StandsKept(es: seq<Effect>, e: Effect, i: nat)
    requires Stands(es, i) && !Clears(e)
    ensures Stands(es + [e], i)
  {
    forall k | 0 <= k < i && (es + [e])[k].Alarm?
      ensures exists j :: k < j < i && Clears((es + [e])[j])
    {
      assert es[k].Alarm?;
      var j :| k < j < i && Clears(es[j]);
      assert Clears((es + [e])[j]);
    }
  }

  /** No alarm stands: each has been cleared. */
  ghost predicate AllCleared(es: seq<Effect>) {
    forall k :: 0 <= k < |es| && es[k].Alarm? ==> exists j :: k < j < |es| && Clears(es[j])
  }

  lemma ClearedKept(es: seq<Effect>, e: Effect)
    requires AllCleared(es) || Clears(e)
    requires !e.Alarm?
    ensures AllCleared(es + [e])
  {
    var es' := es + [e];
    forall k | 0 <= k < |es'| && es'[k].Alarm?
      ensures exists j :: k < j < |es'| && Clears(es'[j])
    {
      if Clears(e) {
        assert Clears(es'[|es|]);
      } else {
        assert es[k].Alarm?;
        var j :| k < j < |es| && Clears(es[j]);
        assert Clears(es'[j]);
      }
    }
  }

  lemma FirstStands(es: seq<Effect>, e: Effect)
    requires AllCleared(es) && e.Alarm?
    ensures Stands(es + [e], |es|)
  {
    var es' := es + [e];
    forall k | 0 <= k < |es| && es'[k].Alarm?
      ensures exists j :: k < j < |es| && Clears(es'[j])
    {
      assert es[k].Alarm?;
      var j :| k < j < |es| && Clears(es[j]);
      assert Clears(es'[j]);
    }
  }

  /**
   A stall is suspected exactly when an alarm stands: the timer of the turn in the slot went off, and since then no line
   of the agent came, no timer was installed and the turn did not end. It is dated by the first such alarm.
   */
  lemma {:induction false} SuspectedSince(cfg: Config, run: seq<Action>)
    requires CanRun(Init(cfg), run)
    ensures var es, since := Effects(cfg, run), After(cfg, run).core.stallSince;
            if since.Some? then exists i: nat :: Stands(es, i) && es[i] == Alarm(since.value) else AllCleared(es)
    decreases |run|
  {
    if run != [] {
      var front, e := LastEffect(cfg, run);
      SuspectedSince(cfg, front);
      var es, since := Effects(cfg, front), After(cfg, front).core.stallSince;
      if Clears(e) || (since.None? && !e.Alarm?) {
        ClearedKept(es, e);
      } else if since.None? {
        FirstStands(es, e);
      } else {
        var i: nat :| Stands(es, i) && es[i] == Alarm(since.value);
        StandsKept(es, e, i);
        assert (es + [e])[i] == Alarm(since.value);
      }
    }
  }

  /** i is the last place where P holds. */
  ghost predicate Last(es: seq<Effect>, i: nat, p: Effect -> bool) {
    i < |es| && p(es[i]) && forall j :: i < j < |es| ==> !p(es[j])
  }

  /** P holds nowhere. */
  ghost predicate Never(es: seq<Effect>, p: Effect -> bool) {
    forall j :: 0 <= j < |es| ==> !p(es[j])
  }

  lemma LastAppend(es: seq<Effect>, e: Effect, p: Effect -> bool)
    ensures p(e) ==> Last(es + [e], |es|, p)
    ensures !p(e) ==> forall i: nat :: Last(es, i, p) ==> Last(es + [e], i, p)
    ensures !p(e) && Never(es, p) ==> Never(es + [e], p)
  {
  }

  predicate Installs(e: Effect) { e.Armed? }

  predicate Times(e: Effect) { e.Armed? || Rearms(e) || Stops(e) }

  /**
   The timer is the one installed last, for whatever turn that was, and it runs exactly when the last thing that touched
   it was that installation, an alarm or a line of the agent, and not the end of a turn or a death.
   */
  lemma {:induction false} TimerIs(cfg: Config, run: seq<Action>)
    requires CanRun(Init(cfg), run)
    ensures var es, timer := Effects(cfg, run), After(cfg, run).core.timer;
            if timer == NoTimer then Never(es, Installs)
            else
              && (exists i: nat :: Last(es, i, Installs) && es[i].turn == timer.turn)
              && (exists i: nat :: Last(es, i, Times) && (timer.armed <==> !Stops(es[i])))
    decreases |run|
  {
    if run != [] {
      var front, e := LastEffect(cfg, run);
      TimerIs(cfg, front);
      var es, timer := Effects(cfg, front), After(cfg, front).core.timer;
      LastAppend(es, e, Installs);
      LastAppend(es, e, Times);
      if timer.Timer? {
        var i: nat :| Last(es, i, Installs) && es[i].turn == timer.turn;
        assert (es + [e])[i] == es[i];
        var j: nat :| Last(es, j, Times) && (timer.armed <==> !Stops(es[j]));
        assert (es + [e])[j] == es[j];
      }
      assert (es + [e])[|es|] == e;
    }
  }

  predicate Tells(e: Effect) { e.Done? && e.path != "" }

  predicate Finds(e: Effect) { e.Found? && e.path != "" }

  ghost predicate PathReads(es: seq<Effect>, path: string) {
    if !Never(es, Tells) then exists i: nat :: i < |es| && Last(es, i, Tells) && path == es[i].path
    else if Never(es, Finds) then path == ""
    else exists i: nat :: i < |es| && Finds(es[i]) && Never(es[..i], Finds) && path == es[i].path
  }

  lemma PathGoesOn(es: seq<Effect>, path: string, e: Effect)
    requires PathReads(es, path)
    ensures PathReads(es + [e], PathFrom(path, e))
  {
    LastAppend(es, e, Tells);
    LastAppend(es, e, Finds);
    var es' := es + [e];
    assert es'[|es|] == e && es'[..|es|] == es;
    if !Never(es, Tells) {
      var i: nat :| i < |es| && Last(es, i, Tells) && path == es[i].path;
      assert es'[i] == es[i];
      assert !Never(es', Tells);
    } else if !Never(es, Finds) {
      var i: nat :| i < |es| && Finds(es[i]) && Never(es[..i], Finds) && path == es[i].path;
      assert es'[i] == es[i] && es'[..i] == es[..i];
      assert !Never(es', Finds);
    }
  }

  /**
   The transcript path is the one the last completing hook gave; before any did, the first one found on disk.
   */
  lemma {:induction false} PathIs(cfg: Config, run: seq<Action>)
    requires CanRun(Init(cfg), run)
    ensures PathReads(Effects(cfg, run), After(cfg, run).core.transcriptPath)
    decreases |run|
  {
    if run != [] {
      var front, e := LastEffect(cfg, run);
      PathIs(cfg, front);
      PathGoesOn(Effects(cfg, front), After(cfg, front).core.transcriptPath, e);
    }
  }

  function Signs(id: TurnId): Effect -> bool { (e: Effect) => e.Sign? && e.turn == id }

  /** A record's activity stamp is that of the last line credited to its turn, or the time it started. */
  lemma {:induction false} StampIs(cfg: Config, run: seq<Action>, id: TurnId)
    requires CanRun(Init(cfg), run) && id in After(cfg, run).core.store.byID
    ensures var es, r := Effects(cfg, run), After(cfg, run).core.store.byID[id];
            || (exists i: nat :: Last(es, i, Signs(id)) && r.lastActivityAt == es[i].now)
            || (Never(es, Signs(id)) && r.lastActivityAt == r.startedAt)
    decreases |run|
  {
    if run != [] {
      var front, e := LastEffect(cfg, run);
      var es := Effects(cfg, front);
      LastAppend(es, e, Signs(id));
      assert (es + [e])[|es|] == e;
      if id in After(cfg, front).core.store.byID {
        StampIs(cfg, front, id);
        var r := After(cfg, front).core.store.byID[id];
        if i: nat :| Last(es, i, Signs(id)) && r.lastActivityAt == es[i].now {
          assert (es + [e])[i] == es[i];
        }
      } else {
        NoSignBefore(cfg, front, id);
      }
    }
  }

  /** No line is credited to a turn that is not there yet. */
  lemma {:induction false} NoSignBefore(cfg: Config, run: seq<Action>, id: TurnId)
    requires CanRun(Init(cfg), run) && id !in After(cfg, run).core.store.byID
    ensures Never(Effects(cfg, run), Signs(id))
    decreases |run|
  {
    if run != [] {
      var front, e := LastEffect(cfg, run);
      NoSignBefore(cfg, front, id);
      LastAppend(Effects(cfg, front), e, Signs(id));
    }
  }

  predicate Sets(e: Effect) {
    e.Booted? || Ending(e) || e.Took? || (e.Armed? && e.again) || e.Died? || e.Gone? || e.Installed?
  }

  ghost predicate StateReads(es: seq<Effect>, state: SessionState) {
    || (Never(es, Sets) && state == Booting)
    || exists i: nat ::
         && i < |es| && Last(es, i, Sets)
         && (state == Ready <==> es[i].Booted? || (Ending(es[i]) && !es[i].Lost?))
         && (state == Busy <==> es[i].Took? || es[i].Armed?)
         && (state == Booting <==> es[i].Installed?)
  }

  lemma StateGoesOn(es: seq<Effect>, state: SessionState, e: Effect)
    requires StateReads(es, state)
    ensures StateReads(es + [e], StateFrom(state, e))
  {
    LastAppend(es, e, Sets);
    var es' := es + [e];
    if Sets(e) {
      assert es'[|es|] == e && Last(es', |es|, Sets);
    } else if !Never(es, Sets) {
      var i: nat :| i < |es| && Last(es, i, Sets)
                    && (state == Ready <==> es[i].Booted? || (Ending(es[i]) && !es[i].Lost?))
                    && (state == Busy <==> es[i].Took? || es[i].Armed?)
                    && (state == Booting <==> es[i].Installed?);
      assert es'[i] == es[i] && Last(es', i, Sets);
    }
  }

  /**
   The session is booting until a process has settled; ready after that or after a turn that was not lost; busy once a
   turn is taken or resumed; and dead after a death, a lost turn, a relaunch given up or shutdown. The last of these counts.
   */
  lemma {:induction false} StateIs(cfg: Config, run: seq<Action>)
    requires CanRun(Init(cfg), run)
    ensures StateReads(Effects(cfg, run), After(cfg, run).core.state)
    decreases |run|
  {
    if run != [] {
      var front, e := LastEffect(cfg, run);
      StateIs(cfg, front);
      StateGoesOn(Effects(cfg, front), After(cfg, front).core.state, e);
    }
  }

  /** How many effects satisfy p. */
  function Count(es: seq<Effect>, p: Effect -> bool): nat {
    if es == [] then 0 else Count(es[..|es| - 1], p) + One(p(es[|es| - 1]))
  }

  lemma CountAppend(es: seq<Effect>, e: Effect, p: Effect -> bool)
    ensures Count(es + [e], p) == Count(es, p) + One(p(e))
  {
    assert (es + [e])[..|es|] == es;
  }

  predicate Completes(e: Effect) { e.Done? }

  predicate Fails(e: Effect) { e.Lost? || e.Unwritten? }

  predicate Breaks(e: Effect) { e.Broken? }

  predicate Hooked(e: Effect) { e.Done? && e.hooked }

  predicate CameIdle(e: Effect) { e.Refused? && e.idle }

  predicate CameEarly(e: Effect) { e.Refused? && !e.idle }

  /** Each counter of the pod, by its label, counts the turns that ended that way, or the hooks that met that answer. */
  lemma {:induction false} LabelsCount(cfg: Config, run: seq<Action>)
    requires CanRun(Init(cfg), run)
    ensures var es, n := Effects(cfg, run), After(cfg, run).core.totals;
            n.complete == Count(es, Completes) && n.failed == Count(es, Fails) && n.interrupted == Count(es, Breaks)
    ensures var es, n := Effects(cfg, run), After(cfg, run).core.hooks;
            n.ok == Count(es, Hooked) && n.noTurn == Count(es, CameIdle) && n.rejected == Count(es, CameEarly)
    decreases |run|
  {
    if run != [] {
      var front, e := LastEffect(cfg, run);
      LabelsCount(cfg, front);
      var es := Effects(cfg, front);
      CountAppend(es, e, Completes);
      CountAppend(es, e, Fails);
      CountAppend(es, e, Breaks);
      CountAppend(es, e, Hooked);
      CountAppend(es, e, CameIdle);
      CountAppend(es, e, CameEarly);
    }
  }

  /** A session at work has a turn. */
  lemma {:induction false} BusyHasTurn(cfg: Config, run: seq<Action>)
    requires CanRun(Init(cfg), run)
    ensures After(cfg, run).core.state == Busy ==> After(cfg, run).core.current != IDLE
    decreases |run|
  {
    if run != [] {
      var front, e := LastEffect(cfg, run);
      BusyHasTurn(cfg, front);
    }
  }
}
