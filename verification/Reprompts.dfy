/**
 A suppressed callback leaves its turn to a corrective one (cmd/wrapper/app.go): here, that the corrective turn's prompt
 was then written whole, over every run of the session and the finalisers together.
 */
module Reprompts {
  import opened Wrappers
  import opened TurnStore
  import opened SessionCore
  import opened SessionSlot
  import opened SessionPty
  import opened HandOff
  import opened SessionSubmits
  import S = SessionWorld
  import R = SessionRuns
  import F = Finalizer

  /** A goroutine that runs Submit for a finaliser has not answered it yet, and brings in the turn noted for it. */
  predicate CallFits(w: Joint, t: Tid)
    requires t in w.calls
  {
    && w.calls[t] !in w.answers && t in w.s.threads
    && (w.s.threads[t].Admitted?
        || (BringsIn(w.s.threads[t]) && w.calls[t] in w.made && w.made[w.calls[t]] == Submits(w.s.threads[t])))
  }

  ghost predicate CallsInv(w: Joint) {
    && (forall t :: t in w.calls ==> CallFits(w, t))
    && (forall t, u :: t in w.calls && u in w.calls && t != u ==> w.calls[t] != w.calls[u])
  }

  /** An answer without an error is given for a turn whose prompt is written. */
  ghost predicate AnswersInv(w: Joint) {
    forall i :: i in w.answers && w.answers[i] ==>
                  i in w.made && w.made[i] != IDLE && Written(w.s, w.made[i])
  }

  ghost predicate AcceptedInv(w: Joint) {
    forall i :: 0 <= i < |w.f.fins| && HandOff.Accepted(w.f.fins[i]) ==> i in w.answers && w.answers[i]
  }

  ghost predicate PromptInv(w: Joint) {
    SubmitInv(w.s) && CallsInv(w) && AnswersInv(w) && AcceptedInv(w)
  }

  // ---------------------------------------------------------------- steps of the session

  lemma WrittenKept(w: Joint, w': Joint, x: S.Action)
    requires S.Enabled(w.s, x) && w'.s == S.Apply(w.s, x) && Kept(w.s.core, w'.s.core) && AnswersInv(w)
    ensures forall i :: i in w.answers && w.answers[i] ==>
              i in w.made && w.made[i] != IDLE && Written(w'.s, w.made[i])
  {
    forall i | i in w.answers && w.answers[i]
      ensures i in w.made && w.made[i] != IDLE && Written(w'.s, w.made[i])
    {
      WrittenStays(w.s, x, w.made[i]);
    }
  }

  /** A goroutine in Submit, after any step but the one that lets it go. */
  lemma CallStillFits(w: Joint, x: S.Action, t: Tid)
    requires S.Enabled(w.s, x) && CallsInv(w) && CallInv(w) && t in w.calls && t in AfterStep(w, x).calls
    ensures CallFits(AfterStep(w, x), t)
  {
    var w' := AfterStep(w, x);
    AfterStepIs(w, x);
    assert CallFits(w, t);
    assert InSubmit(w.s.threads[t]) by {
      assert CallOk(w.s, |w.f.fins|, w.calls, w.made, t);
    }
    Stays(w.s, x, t);
    if BringsIn(w.s.threads[t]) && t in w'.s.threads {
      SameTurn(w.s, x, t);
    }
    if x.OnSubmit? {
      SubmitIs(w.s, x.submit);
    }
  }

  lemma CallsByWrapper(w: Joint, x: S.Action)
    requires S.Enabled(w.s, x) && CallsInv(w) && CallInv(w)
    ensures CallsInv(AfterStep(w, x))
  {
    AfterStepIs(w, x);
    forall t | t in AfterStep(w, x).calls ensures CallFits(AfterStep(w, x), t) {
      CallStillFits(w, x, t);
    }
  }

  lemma AnswersByWrapper(w: Joint, x: S.Action)
    requires S.Enabled(w.s, x) && R.ThreadInv(w.s) && SubmitInv(w.s) && CallsInv(w) && AnswersInv(w)
    requires Kept(w.s.core, S.Apply(w.s, x).core)
    ensures AnswersInv(AfterStep(w, x))
  {
    var w' := AfterStep(w, x);
    AfterStepIs(w, x);
    WrittenKept(w, w', x);
    if x.OnSubmit? && x.submit.t in w.calls {
      assert CallFits(w, x.submit.t);
      if x.submit.SubmitArm? {
        ArmedIsWritten(w.s, x.submit.t);
        assert R.PcOk(w.s.threads[x.submit.t]);
      }
    }
  }

  // ---------------------------------------------------------------- every step

  lemma SessionKept(s: S.World, x: S.Action)
    requires S.Enabled(s, x) && R.Inv(s) && SubmitInv(s)
    ensures Kept(s.core, S.Apply(s, x).core) && SubmitInv(S.Apply(s, x)) && R.ThreadInv(s)
  {
    R.Step(s, x);
    SubmitInvStep(s, x);
  }

  lemma AcceptedKept(w: Joint, w': Joint)
    requires AcceptedInv(w) && w'.f == w.f && forall i :: i in w.answers ==> i in w'.answers && w'.answers[i] == w.answers[i]
    ensures AcceptedInv(w')
  {
  }

  lemma ByWrapper(w: Joint, x: S.Action)
    requires S.Enabled(w.s, x) && R.ThreadInv(w.s) && CallInv(w) && PromptInv(w)
    requires Kept(w.s.core, S.Apply(w.s, x).core) && SubmitInv(S.Apply(w.s, x))
    ensures PromptInv(AfterStep(w, x))
  {
    CallsByWrapper(w, x);
    AnswersByWrapper(w, x);
    AfterStepIs(w, x);
    if x.OnSubmit? && x.submit.t in w.calls {
      assert CallFits(w, x.submit.t);
    }
    AcceptedKept(w, AfterStep(w, x));
  }

  lemma CallsSame(w: Joint, w': Joint)
    requires CallsInv(w) && w'.s.threads == w.s.threads
    requires w'.calls == w.calls && w'.made == w.made && w'.answers == w.answers
    ensures CallsInv(w')
  {
    forall t | t in w'.calls ensures CallFits(w', t) {
      assert CallFits(w, t);
    }
  }

  lemma ByHandOver(w: Joint, a: Action)
    requires Enabled(w, a) && a.HandOver? && PromptInv(w)
    requires var s' := S.Apply(w.s, S.OnSignal(S.Deliver(a.id))); Kept(w.s.core, s'.core) && SubmitInv(s')
    ensures PromptInv(Apply(w, a))
  {
    var x, w' := S.OnSignal(S.Deliver(a.id)), Apply(w, a);
    WrittenKept(w, w', x);
    CallsSame(w, w');
  }

  lemma CallsAnswered(w: Joint, w': Joint, i: nat)
    requires CallsInv(w) && w'.s.threads == w.s.threads && i !in w.calls.Values
    requires w'.calls == w.calls && w'.made == w.made && w'.answers == w.answers[i := false]
    ensures CallsInv(w')
  {
    forall t | t in w'.calls ensures CallFits(w', t) {
      assert CallFits(w, t) && w.calls[t] in w.calls.Values;
    }
  }

  lemma CallsMore(w: Joint, w': Joint, t: Tid, pc: S.Pc, i: nat)
    requires CallsInv(w) && t !in w.s.threads && pc.Admitted? && w'.s.threads == w.s.threads[t := pc]
    requires i !in w.calls.Values && i !in w.answers
    requires w'.calls == w.calls[t := i] && w'.made == w.made && w'.answers == w.answers
    ensures CallsInv(w')
  {
    forall u | u in w'.calls ensures CallFits(w', u) {
      if u != t {
        assert CallFits(w, u);
      }
    }
    forall u, v | u in w'.calls && v in w'.calls && u != v ensures w'.calls[u] != w'.calls[v] {
      assert u != t ==> w.calls[u] in w.calls.Values;
      assert v != t ==> w.calls[v] in w.calls.Values;
    }
  }

  lemma CallsByResubmit(w: Joint, a: Action)
    requires Enabled(w, a) && a.Resubmit? && CallsInv(w)
    ensures CallsInv(Apply(w, a))
  {
    var s' := S.Apply(w.s, Call(a));
    if a.t in s'.threads {
      CallsMore(w, Apply(w, a), a.t, S.Admitted(a.text, a.callbackURL), a.i);
    } else {
      assert s'.threads == w.s.threads;
      CallsAnswered(w, Apply(w, a), a.i);
    }
  }

  lemma ByResubmit(w: Joint, a: Action)
    requires Enabled(w, a) && a.Resubmit? && PromptInv(w)
    requires Kept(w.s.core, S.Apply(w.s, Call(a)).core) && SubmitInv(S.Apply(w.s, Call(a)))
    ensures PromptInv(Apply(w, a))
  {
    var w' := Apply(w, a);
    WrittenKept(w, w', Call(a));
    CallsByResubmit(w, a);
    AcceptedKept(w, w');
  }

  lemma ByFinaliser(w: Joint, a: Action)
    requires Enabled(w, a) && (a.Finalise? || a.DrainIssues? || a.Resubmitted?) && PromptInv(w)
    ensures PromptInv(Apply(w, a))
  {
    var w', y := Apply(w, a), FinaliserPart(w, a).value;
    Parts(w, a);
    F.StepMoves(w.f, y);
    forall i | 0 <= i < |w'.f.fins| && HandOff.Accepted(w'.f.fins[i]) ensures i in w'.answers && w'.answers[i] {
      AcceptedMoves(w.f, y, i);
    }
    forall t | t in w'.calls ensures CallFits(w', t) {
      assert CallFits(w, t);
    }
  }

  lemma PromptStep(w: Joint, a: Action)
    requires Enabled(w, a) && R.Inv(w.s) && CallInv(w) && PromptInv(w)
    ensures PromptInv(Apply(w, a))
  {
    if SessionPart(w, a).Some? {
      SessionKept(w.s, SessionPart(w, a).value);
    }
    match a
    case Wrapper(x) => ByWrapper(w, x);
    case HandOver(_, _) => ByHandOver(w, a);
    case Read(_) =>
      forall t | t in w.calls ensures CallFits(Apply(w, a), t) {
        assert CallFits(w, t);
      }
    case Resubmit(_, _, _, _, _) => ByResubmit(w, a);
    case _ => ByFinaliser(w, a);
  }

  lemma {:induction false} RunKeepsPrompts(w: Joint, run: seq<Action>)
    requires CanRun(w, run) && Inv(w) && PromptInv(w)
    ensures PromptInv(Run(w, run))
    decreases |run|
  {
    if run != [] {
      Step(w, run[0]);
      PromptStep(w, run[0]);
      RunKeepsPrompts(Apply(w, run[0]), run[1..]);
    }
  }

  lemma InitPrompts(w: Joint)
    requires w.s.threads == map[] && w.f == F.START && w.calls == map[] && w.answers == map[]
    ensures PromptInv(w)
  {
  }

  lemma FromTheStart(cfg: Config, start: Joint, run: seq<Action>)
    requires start == Init(cfg) && CanRun(start, run)
    ensures PromptInv(Run(start, run))
  {
    InitInv(start, cfg);
    InitPrompts(start);
    RunKeepsPrompts(start, run);
  }

  lemma ReachablePrompts(w: Joint)
    requires Reachable(w)
    ensures PromptInv(w)
  {
    var run :| CanRun(Init(w.s.cfg), run) && Run(Init(w.s.cfg), run) == w;
    FromTheStart(w.s.cfg, Init(w.s.cfg), run);
  }

  // ---------------------------------------------------------------- the result

  /**
   A callback is suppressed only for a corrective turn that took the slot, is not the turn itself, and whose prompt was
   written: it is not one of those that a failed write ends without a callback, then or later.
   */
  lemma SuppressedForAWrittenTurn(w: Joint, i: nat)
    requires Reachable(w) && i < |w.f.fins| && w.f.fins[i].pc.Suppressed?
    ensures i in w.made && w.made[i] in w.s.core.store.byID && w.made[i] != w.f.fins[i].turn
    ensures w.s.writeFailed[w.made[i]] == 0
    ensures Quiet(w) && Terminal(w.s.core, w.made[i]) ==>
              F.CallbacksOf(w.f.delivered, w.made[i]) + F.SuppressedOf(w.f.fins, w.made[i]) == 1
  {
    ReachablePrompts(w);
    SuppressedMadeATurn(w, i);
    assert HandOff.Accepted(w.f.fins[i]);
    OneCallbackEach(w, w.made[i]);
  }

  /** A re-prompt does not use up the one late hand-off. */
  lemma RepromptIsNoHandoff(w: Joint, a: Action)
    requires Enabled(w, a) && a.Resubmit?
    ensures Apply(w, a).s.core == w.s.core
  {
  }
}
