/** The goroutines between taking the slot and arming the timer: one for each turn, and what becomes of its prompt. */
module SessionSubmits {
  import opened Wrappers
  import opened TurnStore
  import opened SessionCore
  import opened SessionSlot
  import opened SessionPty
  import opened SessionWorld
  import opened SessionRuns

  /** The turn a goroutine is bringing in, or IDLE. */
  function Submits(pc: Pc): TurnId {
    match pc
    case Writing(TurnPrompt(id, _), _, _) => id
    case SubmitFailed(id) => id
    case Arming(id) => id
    case _ => IDLE
  }

  /** A turn being brought in is stored and has not been given up, and nobody else brings it in. */
  ghost predicate SubmitInv(s: World) {
    && (forall t :: t in s.threads && Submits(s.threads[t]) != IDLE ==>
          Submits(s.threads[t]) in s.core.store.byID && s.writeFailed[Submits(s.threads[t])] == 0)
    && (forall t, u :: t in s.threads && u in s.threads && t != u && Submits(s.threads[t]) != IDLE ==>
          Submits(s.threads[t]) != Submits(s.threads[u]))
  }

  /** Nobody starts to bring in a turn, and none is given up. */
  ghost predicate NoNewSubmit(s: World, s': World) {
    && s'.writeFailed == s.writeFailed
    && (forall t :: t in s'.threads && Submits(s'.threads[t]) != IDLE ==>
          t in s.threads && Submits(s.threads[t]) == Submits(s'.threads[t]))
  }

  lemma PtyNoNew(s: World, x: PtyAction)
    requires CanWrite(s, x)
    ensures NoNewSubmit(s, Wrote(s, x))
  {
  }

  lemma CrashNoNew(s: World, x: CrashAction)
    requires CanCrash(s, x)
    ensures NoNewSubmit(s, Crashed(s, x))
  {
  }

  lemma ResumeNoNew(s: World, x: ResumeAction)
    requires CanResume(s, x)
    ensures NoNewSubmit(s, Resumed(s, x))
  {
  }

  lemma InterruptNoNew(s: World, x: InterruptAction)
    requires CanInterrupt(s, x)
    ensures NoNewSubmit(s, InterruptedWorld(s, x))
  {
  }

  lemma SignalNoNew(s: World, x: SignalAction)
    requires CanSignal(s, x)
    ensures NoNewSubmit(s, Signalled(s, x))
  {
  }

  lemma OtherNoNew(s: World, a: Action)
    requires Enabled(s, a) && !a.OnSubmit?
    ensures NoNewSubmit(s, Apply(s, a))
  {
    match a
    case OnPty(x) => PtyNoNew(s, x);
    case OnCrash(x) => CrashNoNew(s, x);
    case OnResume(x) => ResumeNoNew(s, x);
    case OnInterrupt(x) => InterruptNoNew(s, x);
    case OnSignal(x) => SignalNoNew(s, x);
  }

  /** What a step of Submit does to the goroutines that bring in turns. */
  ghost predicate SubmitMoves(s: World, x: SubmitAction, s': World) {
    && s'.threads.Keys <= s.threads.Keys + {x.t}
    && (forall t :: t in s'.threads && t != x.t ==> t in s.threads && s'.threads[t] == s.threads[t])
    && (x.t in s'.threads && Submits(s'.threads[x.t]) != IDLE ==>
          x.SubmitReserve? && Submits(s'.threads[x.t]) == x.id && x.id in s'.core.store.byID)
    && (s'.writeFailed == s.writeFailed
        || (x.SubmitFail? && x.t in s.threads && x.t !in s'.threads
            && s'.writeFailed == s.writeFailed + multiset{Submits(s.threads[x.t])}))
  }

  lemma SubmitIs(s: World, x: SubmitAction)
    requires CanSubmit(s, x)
    ensures SubmitMoves(s, x, Submitted(s, x))
  {
  }

  lemma SubmitKeepsInv(s: World, x: SubmitAction)
    requires CanSubmit(s, x) && SubmitInv(s) && DeliveryInv(s) && ThreadInv(s) && Kept(s.core, Submitted(s, x).core)
    ensures SubmitInv(Submitted(s, x))
  {
    SubmitIs(s, x);
    if x.SubmitReserve? {
      assert s.firing[x.id] + s.fired[x.id] + s.writeFailed[x.id] == 0;
    }
  }

  lemma OtherKeepsInv(s: World, s': World)
    requires SubmitInv(s) && NoNewSubmit(s, s') && Kept(s.core, s'.core)
    ensures SubmitInv(s')
  {
  }

  lemma SubmitInvStep(s: World, a: Action)
    requires Enabled(s, a) && Inv(s) && SubmitInv(s)
    ensures SubmitInv(Apply(s, a))
  {
    Step(s, a);
    if a.OnSubmit? {
      SubmitKeepsInv(s, a.submit);
    } else {
      OtherNoNew(s, a);
      OtherKeepsInv(s, Apply(s, a));
    }
  }

  /** The prompt of a stored turn is written: it has not been given up, and nobody is still bringing it in. */
  ghost predicate Written(s: World, id: TurnId) {
    && id in s.core.store.byID && s.writeFailed[id] == 0
    && forall t :: t in s.threads ==> Submits(s.threads[t]) != id
  }

  /** A turn whose prompt is written stays so. */
  lemma WrittenStays(s: World, a: Action, id: TurnId)
    requires Enabled(s, a) && Kept(s.core, Apply(s, a).core) && Written(s, id) && id != IDLE
    ensures Written(Apply(s, a), id)
  {
    if a.OnSubmit? {
      SubmitIs(s, a.submit);
    } else {
      OtherNoNew(s, a);
    }
  }

  /** Arming the timer is the end of bringing a turn in. */
  lemma ArmedIsWritten(s: World, t: Tid)
    requires CanSubmit(s, SubmitArm(t)) && ThreadInv(s) && SubmitInv(s)
    ensures Written(Submitted(s, SubmitArm(t)), s.threads[t].id)
  {
    assert Submits(s.threads[t]) == s.threads[t].id;
    assert PcOk(s.threads[t]);
  }

  /** Where a goroutine stands that has taken the slot, and has not left Submit. */
  predicate BringsIn(pc: Pc) {
    (pc.Writing? && pc.job.TurnPrompt?) || pc.SubmitFailed? || pc.Arming?
  }

  /** It goes on bringing in the same turn. */
  lemma SameTurn(s: World, a: Action, t: Tid)
    requires Enabled(s, a) && t in s.threads && BringsIn(s.threads[t]) && t in Apply(s, a).threads
    ensures Submits(Apply(s, a).threads[t]) == Submits(s.threads[t])
  {
    match a
    case OnSubmit(x) =>
    case OnPty(x) =>
    case OnCrash(x) =>
    case OnResume(x) =>
    case OnInterrupt(x) =>
    case OnSignal(x) =>
  }
}
