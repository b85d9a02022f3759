/**
 The session, the transcript follower's report accumulator and the turn finalisers together
 (internal/session/session.go, internal/transcript/tailer.go, cmd/wrapper/app.go).

 OnTurnDone begins one finaliser for the turn it is called with; a finaliser drains the reports of its own turn,
 and its re-prompt is a Submit of the session like any other, run in the finaliser's goroutine.
 */
module HandOff {
  import opened Wrappers
  import opened TurnStore
  import opened SessionCore
  import opened SessionSlot
  import opened SessionPty
  import opened RepoLists
  import S = SessionWorld
  import R = SessionRuns
  import F = Finalizer
  import T = TailerState

  /**
   `calls` says for which finaliser a goroutine runs Submit, `made` which turn that took the slot with, `answers`
   whether Submit returned without an error. `events` is the history of the report accumulator.
   */
  datatype Joint = Joint(
    s: S.World,
    f: F.World,
    calls: map<Tid, nat>,
    made: map<nat, TurnId>,
    answers: map<nat, bool>,
    events: seq<T.IssueEvent>)

  function Init(cfg: Config): Joint {
    Joint(S.Init(cfg), F.START, map[], map[], map[], [])
  }

  datatype Action =
    | Wrapper(step: S.Action)
    | HandOver(id: TurnId, own: Lists)
    | Read(report: T.InternalIssueReport)
    | Finalise(fin: F.Action)
    | DrainIssues(i: nat)
    | Resubmit(i: nat, t: Tid, text: string, callbackURL: string, now: Time)
    | Resubmitted(i: nat)

  predicate IsDeliver(a: S.Action) {
    a.OnSignal? && a.signal.Deliver?
  }

  /** What a drain for finaliser i's turn returns now. */
  function DrainedFor(w: Joint, i: nat): seq<T.InternalIssueReport>
    requires i < |w.f.fins|
  {
    T.Drain(T.After(w.events), w.f.fins[i].turn).1
  }

  function Call(a: Action): S.Action
    requires a.Resubmit?
  {
    S.OnSubmit(S.SubmitCall(a.t, false, a.text, a.callbackURL, a.now))
  }

  predicate Enabled(w: Joint, a: Action) {
    match a
    case Wrapper(x) => S.Enabled(w.s, x) && !IsDeliver(x)
    case HandOver(id, _) => S.Enabled(w.s, S.OnSignal(S.Deliver(id)))
    case Read(_) => true
    case Finalise(x) => F.Enabled(w.f, x) && !x.Begin? && !x.Drain? && !x.Submit?
    case DrainIssues(i) => i < |w.f.fins| && w.f.fins[i].pc.TookIssues?
    case Resubmit(i, t, _, _, _) =>
      i < |w.f.fins| && w.f.fins[i].pc.Reserved? && i !in w.answers && i !in w.calls.Values
      && S.Enabled(w.s, Call(a))
    case Resubmitted(i) => i in w.answers && i < |w.f.fins| && w.f.fins[i].pc.Reserved?
  }

  /** A goroutine that runs Submit for a finaliser takes the slot, or returns. */
  function AfterStep(w: Joint, a: S.Action): Joint
    requires S.Enabled(w.s, a)
  {
    var s' := S.Apply(w.s, a);
    if !a.OnSubmit? || a.submit.t !in w.calls then w.(s := s')
    else
      var i := w.calls[a.submit.t];
      if a.submit.t !in s'.threads then
        w.(s := s', calls := w.calls - {a.submit.t}, answers := w.answers[i := a.submit.SubmitArm?])
      else if a.submit.SubmitReserve? then w.(s := s', made := w.made[i := a.submit.id])
      else w.(s := s')
  }

  function Apply(w: Joint, a: Action): Joint
    requires Enabled(w, a)
  {
    match a
    case Wrapper(x) => AfterStep(w, x)
    case HandOver(id, own) =>
      w.(s := S.Apply(w.s, S.OnSignal(S.Deliver(id))), f := F.Apply(w.f, F.Begin(id, own)))
    case Read(report) => w.(events := w.events + [T.Reported(CurrentTurnID(w.s.core), report)])
    case Finalise(x) => w.(f := F.Apply(w.f, x))
    case DrainIssues(i) =>
      w.(f := F.Apply(w.f, F.Drain(i, DrainedFor(w, i))), events := w.events + [T.Drained(w.f.fins[i].turn)])
    case Resubmit(i, t, _, _, _) =>
      var s' := S.Apply(w.s, Call(a));
      if t in s'.threads then w.(s := s', calls := w.calls[t := i]) else w.(s := s', answers := w.answers[i := false])
    case Resubmitted(i) => w.(f := F.Apply(w.f, F.Submit(i, w.answers[i])))
  }

  predicate CanRun(w: Joint, run: seq<Action>)
    decreases |run|
  {
    run == [] || (Enabled(w, run[0]) && CanRun(Apply(w, run[0]), run[1..]))
  }

  function Run(w: Joint, run: seq<Action>): Joint
    requires CanRun(w, run)
    decreases |run|
  {
    if run == [] then w else Run(Apply(w, run[0]), run[1..])
  }

  // ---------------------------------------------------------------- the two halves

  /** The session's part of a step, if it has one. */
  function SessionPart(w: Joint, a: Action): Option<S.Action>
    requires Enabled(w, a)
  {
    match a
    case Wrapper(x) => Some(x)
    case HandOver(id, _) => Some(S.OnSignal(S.Deliver(id)))
    case Resubmit(_, _, _, _, _) => Some(Call(a))
    case _ => None
  }

  /** The finalisers' part. */
  function FinaliserPart(w: Joint, a: Action): Option<F.Action>
    requires Enabled(w, a)
  {
    match a
    case HandOver(id, own) => Some(F.Begin(id, own))
    case Finalise(x) => Some(x)
    case DrainIssues(i) => Some(F.Drain(i, DrainedFor(w, i)))
    case Resubmitted(i) => Some(F.Submit(i, w.answers[i]))
    case _ => None
  }

  lemma Parts(w: Joint, a: Action)
    requires Enabled(w, a)
    ensures SessionPart(w, a).Some? ==>
              S.Enabled(w.s, SessionPart(w, a).value) && Apply(w, a).s == S.Apply(w.s, SessionPart(w, a).value)
    ensures SessionPart(w, a).None? ==> Apply(w, a).s == w.s
    ensures FinaliserPart(w, a).Some? ==>
              F.Enabled(w.f, FinaliserPart(w, a).value) && Apply(w, a).f == F.Apply(w.f, FinaliserPart(w, a).value)
    ensures FinaliserPart(w, a).None? ==> Apply(w, a).f == w.f
  {
  }

  // ---------------------------------------------------------------- one finaliser for each hand-over

  ghost predicate FiredInv(w: Joint) {
    forall id :: F.Of(w.f.fins, id) == w.s.fired[id]
  }

  ghost predicate CallbackInv(w: Joint) {
    forall id :: F.TurnInv(w.f, id)
  }

  lemma FiredKept(s: S.World, a: S.Action)
    requires S.Enabled(s, a)
    ensures S.Apply(s, a).fired == s.fired + if IsDeliver(a) then multiset{a.signal.id} else multiset{}
  {
  }

  lemma FiredStep(w: Joint, a: Action)
    requires Enabled(w, a) && FiredInv(w) && CallbackInv(w)
    ensures FiredInv(Apply(w, a)) && CallbackInv(Apply(w, a))
  {
    Parts(w, a);
    var x, y := SessionPart(w, a), FinaliserPart(w, a);
    if x.Some? {
      FiredKept(w.s, x.value);
    }
    forall id ensures F.Of(Apply(w, a).f.fins, id) == Apply(w, a).s.fired[id] && F.TurnInv(Apply(w, a).f, id) {
      assert F.Of(w.f.fins, id) == w.s.fired[id] && F.TurnInv(w.f, id);
      if y.Some? {
        F.TurnStep(w.f, y.value, id);
      }
    }
  }

  // ---------------------------------------------------------------- a re-prompt is a submit

  /** Where a goroutine that runs Submit can stand. */
  predicate InSubmit(pc: S.Pc) {
    pc.Admitted? || (pc.Writing? && pc.job.TurnPrompt?) || pc.SubmitFailed? || pc.Arming?
  }

  /**
   A goroutine in Submit moves on in Submit; it leaves `Admitted` by taking the slot, and the pool by an error or
   armed.
   */
  ghost predicate KeepsInSubmit(s: S.World, a: S.Action, t: Tid)
    requires S.Enabled(s, a) && t in s.threads
  {
    var s' := S.Apply(s, a);
    && (t !in s'.threads ==> a.OnSubmit? && a.submit.t == t
                             && (a.submit.SubmitArm? ==> !s.threads[t].Admitted?))
    && (t in s'.threads ==> InSubmit(s'.threads[t]) && (s'.threads[t].Admitted? ==> s.threads[t].Admitted?))
    && (t in s'.threads && s.threads[t].Admitted? && !s'.threads[t].Admitted? ==>
          a.OnSubmit? && a.submit.SubmitReserve? && a.submit.t == t)
  }

  lemma SubmitStays(s: S.World, x: S.SubmitAction, t: Tid)
    requires S.CanSubmit(s, x) && t in s.threads && InSubmit(s.threads[t])
    ensures KeepsInSubmit(s, S.OnSubmit(x), t)
  {
  }

  lemma PtyStays(s: S.World, x: S.PtyAction, t: Tid)
    requires S.CanWrite(s, x) && t in s.threads && InSubmit(s.threads[t])
    ensures KeepsInSubmit(s, S.OnPty(x), t)
  {
  }

  lemma CrashStays(s: S.World, x: S.CrashAction, t: Tid)
    requires S.CanCrash(s, x) && t in s.threads && InSubmit(s.threads[t])
    ensures KeepsInSubmit(s, S.OnCrash(x), t)
  {
  }

  lemma ResumeStays(s: S.World, x: S.ResumeAction, t: Tid)
    requires S.CanResume(s, x) && t in s.threads && InSubmit(s.threads[t])
    ensures KeepsInSubmit(s, S.OnResume(x), t)
  {
  }

  lemma InterruptStays(s: S.World, x: S.InterruptAction, t: Tid)
    requires S.CanInterrupt(s, x) && t in s.threads && InSubmit(s.threads[t])
    ensures KeepsInSubmit(s, S.OnInterrupt(x), t)
  {
  }

  lemma SignalStays(s: S.World, x: S.SignalAction, t: Tid)
    requires S.CanSignal(s, x) && t in s.threads && InSubmit(s.threads[t])
    ensures KeepsInSubmit(s, S.OnSignal(x), t)
  {
  }

  lemma Stays(s: S.World, a: S.Action, t: Tid)
    requires S.Enabled(s, a) && t in s.threads && InSubmit(s.threads[t])
    ensures KeepsInSubmit(s, a, t)
  {
    match a
    case OnSubmit(x) => SubmitStays(s, x, t);
    case OnPty(x) => PtyStays(s, x, t);
    case OnCrash(x) => CrashStays(s, x, t);
    case OnResume(x) => ResumeStays(s, x, t);
    case OnInterrupt(x) => InterruptStays(s, x, t);
    case OnSignal(x) => SignalStays(s, x, t);
  }

  ghost predicate CallOk(s: S.World, fins: nat, calls: map<Tid, nat>, made: map<nat, TurnId>, t: Tid)
    requires t in calls
  {
    && t in s.threads && InSubmit(s.threads[t]) && calls[t] < fins
    && (s.threads[t].Admitted? || calls[t] in made)
  }

  ghost predicate CallInv(w: Joint) {
    forall t :: t in w.calls ==> CallOk(w.s, |w.f.fins|, w.calls, w.made, t)
  }

  /** A re-prompt that Submit accepted made a turn, and not the one it is about. */
  ghost predicate MadeInv(w: Joint) {
    && (forall i :: 0 <= i < |w.f.fins| ==> w.f.fins[i].turn in w.s.core.store.byID)
    && (forall i :: i in w.made ==>
          i < |w.f.fins| && w.made[i] in w.s.core.store.byID && w.made[i] != w.f.fins[i].turn)
    && (forall i :: i in w.answers && w.answers[i] ==> i in w.made)
    && (forall i :: 0 <= i < |w.f.fins| && Accepted(w.f.fins[i]) ==> i in w.made)
  }

  predicate Accepted(f: F.Finaliser) {
    f.pc.Submitted? || f.pc.HeldIssues? || f.pc.Suppressed?
  }

  /** What a session step does to the finalisers' submits. */
  lemma AfterStepIs(w: Joint, x: S.Action)
    requires S.Enabled(w.s, x)
    ensures var w' := AfterStep(w, x);
            && w'.s == S.Apply(w.s, x) && w'.f == w.f && w'.events == w.events
            && if !x.OnSubmit? || x.submit.t !in w.calls then
                 w'.calls == w.calls && w'.made == w.made && w'.answers == w.answers
               else if x.submit.t !in w'.s.threads then
                 w'.calls == w.calls - {x.submit.t} && w'.made == w.made
                 && w'.answers == w.answers[w.calls[x.submit.t] := x.submit.SubmitArm?]
               else
                 w'.calls == w.calls && w'.answers == w.answers
                 && w'.made == if x.submit.SubmitReserve? then w.made[w.calls[x.submit.t] := x.submit.id] else w.made
  {
  }

  lemma CallKept(w: Joint, x: S.Action, t: Tid)
    requires S.Enabled(w.s, x) && t in w.calls && CallOk(w.s, |w.f.fins|, w.calls, w.made, t)
    requires t in AfterStep(w, x).calls
    ensures var w' := AfterStep(w, x); CallOk(w'.s, |w'.f.fins|, w'.calls, w'.made, t)
  {
    AfterStepIs(w, x);
    Stays(w.s, x, t);
  }

  lemma CallStep(w: Joint, a: Action)
    requires Enabled(w, a) && CallInv(w)
    ensures CallInv(Apply(w, a))
  {
    match a
    case Wrapper(x) => CallByWrapper(w, x);
    case HandOver(id, own) => CallByHandOver(w, a);
    case Resubmit(_, _, _, _, _) => CallByResubmit(w, a);
    case Read(_) =>
    case _ => CallByFinaliser(w, a);
  }

  lemma CallByWrapper(w: Joint, x: S.Action)
    requires S.Enabled(w.s, x) && CallInv(w)
    ensures CallInv(AfterStep(w, x))
  {
    AfterStepIs(w, x);
    forall t | t in AfterStep(w, x).calls
      ensures var w' := AfterStep(w, x); CallOk(w'.s, |w'.f.fins|, w'.calls, w'.made, t)
    {
      CallKept(w, x, t);
    }
  }

  lemma CallByHandOver(w: Joint, a: Action)
    requires Enabled(w, a) && a.HandOver? && CallInv(w)
    ensures CallInv(Apply(w, a))
  {
    assert Apply(w, a).s.threads == w.s.threads;
  }

  lemma CallByFinaliser(w: Joint, a: Action)
    requires Enabled(w, a) && (a.Finalise? || a.DrainIssues? || a.Resubmitted?) && CallInv(w)
    ensures CallInv(Apply(w, a))
  {
    Parts(w, a);
    F.StepMoves(w.f, FinaliserPart(w, a).value);
  }

  lemma CallByResubmit(w: Joint, a: Action)
    requires Enabled(w, a) && a.Resubmit? && CallInv(w)
    ensures CallInv(Apply(w, a))
  {
    var s' := S.Apply(w.s, Call(a));
    assert forall t :: t in w.s.threads ==> t in s'.threads && s'.threads[t] == w.s.threads[t];
    assert a.t in s'.threads ==> s'.threads[a.t].Admitted?;
  }

  /** Every stored turn stays stored; the turn a submit creates is new. */
  lemma StoreKept(s: S.World, a: S.Action)
    requires S.Enabled(s, a) && R.Inv(s)
    ensures forall id :: id in s.core.store.byID ==> id in S.Apply(s, a).core.store.byID
  {
    R.Step(s, a);
  }

  lemma ReserveMakes(s: S.World, x: S.SubmitAction)
    requires S.CanSubmit(s, x) && x.SubmitReserve? && x.t in S.Submitted(s, x).threads
    ensures x.id in S.Submitted(s, x).core.store.byID && x.id !in s.core.store.byID
  {
  }

  lemma AcceptedMoves(f: F.World, a: F.Action, i: nat)
    requires F.Enabled(f, a) && i < |f.fins|
    ensures i < |F.Apply(f, a).fins| && F.Apply(f, a).fins[i].turn == f.fins[i].turn
    ensures Accepted(F.Apply(f, a).fins[i]) ==> Accepted(f.fins[i]) || (a.Submit? && a.i == i && a.accepted)
  {
  }

  lemma MadeByWrapper(w: Joint, x: S.Action)
    requires S.Enabled(w.s, x) && R.Inv(w.s) && CallInv(w) && MadeInv(w)
    ensures MadeInv(AfterStep(w, x))
  {
    StoreKept(w.s, x);
    AfterStepIs(w, x);
    var w' := AfterStep(w, x);
    if x.OnSubmit? && x.submit.t in w.calls {
      var i := w.calls[x.submit.t];
      assert CallOk(w.s, |w.f.fins|, w.calls, w.made, x.submit.t);
      if x.submit.t !in w'.s.threads {
        Stays(w.s, x, x.submit.t);
        MadeAnswered(w, w', i, x.submit.SubmitArm?);
      } else if x.submit.SubmitReserve? {
        ReserveMakes(w.s, x.submit);
        MadeTurn(w, w', i, x.submit.id);
      } else {
        MadeSame(w, w');
      }
    } else {
      MadeSame(w, w');
    }
  }

  predicate Grows(s: S.World, s': S.World) {
    forall id :: id in s.core.store.byID ==> id in s'.core.store.byID
  }

  lemma MadeSame(w: Joint, w': Joint)
    requires MadeInv(w) && Grows(w.s, w'.s) && w'.f == w.f && w'.made == w.made && w'.answers == w.answers
    ensures MadeInv(w')
  {
  }

  lemma MadeAnswered(w: Joint, w': Joint, i: nat, ok: bool)
    requires MadeInv(w) && Grows(w.s, w'.s) && w'.f == w.f && w'.made == w.made && w'.answers == w.answers[i := ok]
    requires ok ==> i in w.made
    ensures MadeInv(w')
  {
  }

  lemma MadeTurn(w: Joint, w': Joint, i: nat, id: TurnId)
    requires MadeInv(w) && Grows(w.s, w'.s) && w'.f == w.f && w'.made == w.made[i := id] && w'.answers == w.answers
    requires i < |w.f.fins| && id !in w.s.core.store.byID && id in w'.s.core.store.byID
    ensures MadeInv(w')
  {
  }

  lemma MadeByFinaliser(w: Joint, w': Joint, y: F.Action)
    requires F.Enabled(w.f, y) && MadeInv(w) && w'.f == F.Apply(w.f, y)
    requires w'.made == w.made && w'.answers == w.answers
    requires forall id :: id in w.s.core.store.byID ==> id in w'.s.core.store.byID
    requires y.Begin? ==> y.turn in w.s.core.store.byID
    requires y.Submit? ==> y.i in w.answers && y.accepted == w.answers[y.i]
    ensures MadeInv(w')
  {
    forall i | 0 <= i < |w'.f.fins|
      ensures w'.f.fins[i].turn in w'.s.core.store.byID && (Accepted(w'.f.fins[i]) ==> i in w'.made)
    {
      if i < |w.f.fins| {
        AcceptedMoves(w.f, y, i);
      }
    }
    forall i | i in w'.made ensures i < |w'.f.fins| && w'.made[i] != w'.f.fins[i].turn {
      AcceptedMoves(w.f, y, i);
    }
  }

  lemma MadeStep(w: Joint, a: Action)
    requires Enabled(w, a) && R.Inv(w.s) && CallInv(w) && MadeInv(w)
    ensures MadeInv(Apply(w, a))
  {
    match a
    case Wrapper(x) => MadeByWrapper(w, x);
    case HandOver(id, own) => MadeByHandOver(w, a);
    case Resubmit(_, _, _, _, _) => MadeByResubmit(w, a);
    case Read(_) =>
    case _ =>
      Parts(w, a);
      MadeByFinaliser(w, Apply(w, a), FinaliserPart(w, a).value);
  }

  lemma MadeByHandOver(w: Joint, a: Action)
    requires Enabled(w, a) && a.HandOver? && R.Inv(w.s) && MadeInv(w)
    ensures MadeInv(Apply(w, a))
  {
    Parts(w, a);
    StoreKept(w.s, SessionPart(w, a).value);
    assert w.s.firing[a.id] > 0;
    MadeByFinaliser(w, Apply(w, a), F.Begin(a.id, a.own));
  }

  lemma MadeByResubmit(w: Joint, a: Action)
    requires Enabled(w, a) && a.Resubmit? && R.Inv(w.s) && MadeInv(w)
    ensures MadeInv(Apply(w, a))
  {
    var s' := S.Apply(w.s, Call(a));
    StoreKept(w.s, Call(a));
    if a.t in s'.threads {
      MadeSame(w, Apply(w, a));
    } else {
      MadeAnswered(w, Apply(w, a), a.i, false);
    }
  }

  // ---------------------------------------------------------------- reports

  /** Every report is credited to a stored turn, or was read before there was one. */
  ghost predicate EventsInv(w: Joint) {
    forall k :: 0 <= k < |w.events| && w.events[k].Reported? ==>
                  w.events[k].turn == IDLE || w.events[k].turn in w.s.core.store.byID
  }

  lemma LatestIs(s: S.World)
    requires R.Inv(s)
    ensures LastInOrder(s.core)
    ensures CurrentTurnID(s.core) == IDLE || CurrentTurnID(s.core) in s.core.store.byID
  {
  }

  lemma EventsMore(w: Joint, w': Joint, e: T.IssueEvent)
    requires EventsInv(w) && w'.s == w.s && w'.events == w.events + [e]
    requires e.Reported? ==> e.turn == IDLE || e.turn in w.s.core.store.byID
    ensures EventsInv(w')
  {
  }

  lemma EventsStep(w: Joint, a: Action)
    requires Enabled(w, a) && R.Inv(w.s) && EventsInv(w)
    ensures EventsInv(Apply(w, a))
  {
    Parts(w, a);
    var w' := Apply(w, a);
    match a
    case Wrapper(x) =>
      AfterStepIs(w, x);
      StoreKept(w.s, x);
    case HandOver(_, _) => StoreKept(w.s, SessionPart(w, a).value);
    case Resubmit(_, _, _, _, _) => StoreKept(w.s, SessionPart(w, a).value);
    case Read(report) =>
      LatestIs(w.s);
      EventsMore(w, w', T.Reported(CurrentTurnID(w.s.core), report));
    case DrainIssues(i) => EventsMore(w, w', T.Drained(w.f.fins[i].turn));
    case _ =>
  }

  /** How often a report was drained is how often the finalisers have it somewhere. */
  ghost predicate ReturnedInv(w: Joint) {
    forall r :: F.Somewhere(w.f, r) == T.Returned(w.events)[r]
  }

  lemma {:induction false} TimesIsCount(reports: seq<T.InternalIssueReport>, r: T.InternalIssueReport)
    ensures F.Times(reports, r) == multiset(reports)[r]
  {
    if reports != [] {
      TimesIsCount(reports[..|reports| - 1], r);
      assert reports == reports[..|reports| - 1] + [reports[|reports| - 1]];
    }
  }

  lemma ReturnedStep(w: Joint, a: Action)
    requires Enabled(w, a) && F.StartsEmpty(w.f) && ReturnedInv(w)
    ensures ReturnedInv(Apply(w, a)) && F.StartsEmpty(Apply(w, a).f)
  {
    Parts(w, a);
    var w', y := Apply(w, a), FinaliserPart(w, a);
    if y.Some? {
      F.StartsEmptyStep(w.f, y.value);
    }
    if a.Read? || a.DrainIssues? {
      assert w'.events[..|w.events|] == w.events;
    }
    forall r ensures F.Somewhere(w'.f, r) == T.Returned(w'.events)[r] {
      assert F.Somewhere(w.f, r) == T.Returned(w.events)[r];
      if y.Some? {
        F.ReportsStep(w.f, y.value, r);
      }
      if a.DrainIssues? {
        TimesIsCount(DrainedFor(w, a.i), r);
      }
    }
  }

  /** Nobody has drained the turn. */
  predicate NotDrained(events: seq<T.IssueEvent>, id: TurnId) {
    forall k :: 0 <= k < |events| ==> events[k] != T.Drained(id)
  }

  /** All reports ever credited to the latest turn are still there for its first drain. */
  ghost predicate LatestInv(w: Joint) {
    var id := CurrentTurnID(w.s.core);
    id != IDLE && NotDrained(w.events, id) ==> T.Outstanding(w.events, id) == T.ReportsOf(w.events, id)
  }

  lemma {:induction false} NeverReported(events: seq<T.IssueEvent>, id: TurnId)
    requires forall k :: 0 <= k < |events| && events[k].Reported? ==> events[k].turn != id
    ensures T.ReportsOf(events, id) == []
  {
    if events != [] {
      NeverReported(events[..|events| - 1], id);
    }
  }

  /** A step keeps the latest turn, or creates one. */
  ghost predicate LatestKept(s: S.World, a: S.Action)
    requires S.Enabled(s, a)
  {
    var order, order' := s.core.store.order, S.Apply(s, a).core.store.order;
    order' == order || (|order'| == |order| + 1 && order'[..|order|] == order && order'[|order|] !in s.core.store.byID)
  }

  lemma SubmitOrder(s: S.World, x: S.SubmitAction)
    requires S.CanSubmit(s, x)
    ensures LatestKept(s, S.OnSubmit(x))
  {
  }

  lemma CrashOrder(s: S.World, x: S.CrashAction)
    requires S.CanCrash(s, x)
    ensures S.Crashed(s, x).core.store == s.core.store
  {
  }

  lemma ResumeOrder(s: S.World, x: S.ResumeAction)
    requires S.CanResume(s, x)
    ensures S.Resumed(s, x).core.store.order == s.core.store.order
  {
  }

  lemma InterruptOrder(s: S.World, x: S.InterruptAction)
    requires S.CanInterrupt(s, x)
    ensures S.InterruptedWorld(s, x).core.store.order == s.core.store.order
  {
  }

  lemma SignalOrder(s: S.World, x: S.SignalAction)
    requires S.CanSignal(s, x)
    ensures S.Signalled(s, x).core.store.order == s.core.store.order
  {
  }

  lemma OtherOrder(s: S.World, a: S.Action)
    requires S.Enabled(s, a) && !a.OnSubmit?
    ensures LatestKept(s, a)
  {
    match a
    case OnPty(x) => assert S.Wrote(s, x).core == s.core;
    case OnCrash(x) => CrashOrder(s, x);
    case OnResume(x) => ResumeOrder(s, x);
    case OnInterrupt(x) => InterruptOrder(s, x);
    case OnSignal(x) => SignalOrder(s, x);
  }

  /** The latest turn is the last of the order. */
  predicate LastInOrder(c: Core) {
    CurrentTurnID(c) == if c.store.order == [] then IDLE else c.store.order[|c.store.order| - 1]
  }

  lemma LatestMoves(c: Core, c': Core)
    requires LastInOrder(c) && LastInOrder(c')
    requires var order, order' := c.store.order, c'.store.order;
             order' == order
             || (|order'| == |order| + 1 && order'[..|order|] == order && order'[|order|] !in c.store.byID)
    ensures CurrentTurnID(c') == CurrentTurnID(c) || CurrentTurnID(c') !in c.store.byID
  {
  }

  lemma OrderStep(s: S.World, a: S.Action)
    requires S.Enabled(s, a) && R.Inv(s)
    ensures CurrentTurnID(S.Apply(s, a).core) == CurrentTurnID(s.core)
            || CurrentTurnID(S.Apply(s, a).core) !in s.core.store.byID
  {
    R.Step(s, a);
    LatestIs(s);
    LatestIs(S.Apply(s, a));
    if a.OnSubmit? {
      SubmitOrder(s, a.submit);
    } else {
      OtherOrder(s, a);
    }
    LatestMoves(s.core, S.Apply(s, a).core);
  }

  lemma NewTurnHasNoReports(w: Joint, id: TurnId)
    requires EventsInv(w) && id != IDLE && id !in w.s.core.store.byID
    ensures T.Outstanding(w.events, id) == T.ReportsOf(w.events, id) == []
  {
    NeverReported(w.events, id);
    T.NothingOutstanding(w.events, id);
  }

  lemma LatestBySession(w: Joint, w': Joint, x: S.Action)
    requires S.Enabled(w.s, x) && R.Inv(w.s) && EventsInv(w) && LatestInv(w)
    requires w'.s == S.Apply(w.s, x) && w'.events == w.events
    ensures LatestInv(w')
  {
    OrderStep(w.s, x);
    var id := CurrentTurnID(w'.s.core);
    if id != CurrentTurnID(w.s.core) && id != IDLE {
      NewTurnHasNoReports(w, id);
    }
  }

  lemma LatestByEvent(w: Joint, w': Joint, e: T.IssueEvent)
    requires LatestInv(w) && w'.s == w.s && w'.events == w.events + [e]
    requires e.Reported? ==> e.turn == CurrentTurnID(w.s.core)
    ensures LatestInv(w')
  {
    assert w'.events[..|w.events|] == w.events;
    var id := CurrentTurnID(w.s.core);
    if NotDrained(w'.events, id) {
      assert forall k :: 0 <= k < |w.events| ==> w'.events[k] == w.events[k];
      assert w'.events[|w.events|] != T.Drained(id);
    }
  }

  lemma LatestStep(w: Joint, a: Action)
    requires Enabled(w, a) && R.Inv(w.s) && EventsInv(w) && LatestInv(w)
    ensures LatestInv(Apply(w, a))
  {
    Parts(w, a);
    var w' := Apply(w, a);
    match a
    case Wrapper(x) =>
      AfterStepIs(w, x);
      LatestBySession(w, w', x);
    case HandOver(_, _) => LatestBySession(w, w', SessionPart(w, a).value);
    case Resubmit(_, _, _, _, _) => LatestBySession(w, w', SessionPart(w, a).value);
    case Read(report) => LatestByEvent(w, w', T.Reported(CurrentTurnID(w.s.core), report));
    case DrainIssues(i) => LatestByEvent(w, w', T.Drained(w.f.fins[i].turn));
    case _ =>
  }

  // ---------------------------------------------------------------- every run of the whole

  ghost predicate Inv(w: Joint) {
    && R.Inv(w.s) && F.BudgetInv(w.f) && F.StartsEmpty(w.f)
    && FiredInv(w) && CallbackInv(w) && CallInv(w) && MadeInv(w)
    && EventsInv(w) && ReturnedInv(w) && LatestInv(w)
  }

  lemma HalvesStep(w: Joint, a: Action)
    requires Enabled(w, a) && R.Inv(w.s) && F.BudgetInv(w.f)
    ensures R.Inv(Apply(w, a).s) && F.BudgetInv(Apply(w, a).f) && Apply(w, a).s.cfg == w.s.cfg
  {
    Parts(w, a);
    var x, y := SessionPart(w, a), FinaliserPart(w, a);
    if x.Some? {
      R.Step(w.s, x.value);
    }
    if y.Some? {
      F.BudgetStep(w.f, y.value);
    }
  }

  lemma Step(w: Joint, a: Action)
    requires Enabled(w, a) && Inv(w)
    ensures Inv(Apply(w, a)) && Apply(w, a).s.cfg == w.s.cfg
  {
    HalvesStep(w, a);
    FiredStep(w, a);
    CallStep(w, a);
    MadeStep(w, a);
    EventsStep(w, a);
    ReturnedStep(w, a);
    LatestStep(w, a);
  }

  lemma InitInv(w: Joint, cfg: Config)
    requires w == Init(cfg)
    ensures Inv(w)
  {
    R.InitInv(cfg);
    InitAll(w.s, w);
  }

  lemma InitAll(s: S.World, w: Joint)
    requires R.Inv(s) && w == Joint(s, F.START, map[], map[], map[], []) && s.core == INITIAL && s.fired == multiset{}
    ensures Inv(w)
  {
    InitRest(w);
  }

  lemma InitRest(w: Joint)
    requires w.f == F.START && w.calls == map[] && w.made == map[] && w.answers == map[] && w.events == []
    requires w.s.core == INITIAL && w.s.fired == multiset{}
    ensures F.BudgetInv(w.f) && F.StartsEmpty(w.f) && FiredInv(w) && CallbackInv(w) && CallInv(w) && MadeInv(w)
    ensures EventsInv(w) && ReturnedInv(w) && LatestInv(w)
  {
  }

  lemma {:induction false} RunKeeps(w: Joint, run: seq<Action>)
    requires CanRun(w, run) && Inv(w)
    ensures Inv(Run(w, run)) && Run(w, run).s.cfg == w.s.cfg
    decreases |run|
  {
    if run != [] {
      Step(w, run[0]);
      RunKeeps(Apply(w, run[0]), run[1..]);
    }
  }

  ghost predicate Reachable(w: Joint) {
    exists run :: CanRun(Init(w.s.cfg), run) && Run(Init(w.s.cfg), run) == w
  }

  lemma ReachableInv(w: Joint)
    requires Reachable(w)
    ensures Inv(w)
  {
    var run :| CanRun(Init(w.s.cfg), run) && Run(Init(w.s.cfg), run) == w;
    InitInv(Init(w.s.cfg), w.s.cfg);
    RunKeeps(Init(w.s.cfg), run);
  }

  /** Everything has come to rest: no hand-over is pending and no finaliser is running. */
  predicate Quiet(w: Joint) {
    w.s.firing == multiset{} && F.Finished(w.f)
  }

  /**
   A turn that was handed over gets at most one callback; once all is quiet every finished turn got exactly one,
   unless its callback was suppressed or its prompt could not be written, which the submit call reported.
   */
  lemma OneCallbackEach(w: Joint, id: TurnId)
    requires Reachable(w)
    ensures F.CallbacksOf(w.f.delivered, id) <= w.s.fired[id] <= 1
    ensures F.CallbacksOf(w.f.delivered, id) > 0 ==> Terminal(w.s.core, id) && F.SuppressedOf(w.f.fins, id) == 0
    ensures Quiet(w) && Terminal(w.s.core, id) ==>
              F.CallbacksOf(w.f.delivered, id) + F.SuppressedOf(w.f.fins, id) + w.s.writeFailed[id] == 1
  {
    ReachableInv(w);
    assert F.Of(w.f.fins, id) == w.s.fired[id] && F.TurnInv(w.f, id);
    assert w.s.firing[id] + w.s.fired[id] + w.s.writeFailed[id] == if Terminal(w.s.core, id) then 1 else 0;
    F.OutcomesOf(w.f.fins, id);
    if Quiet(w) {
      assert w.s.firing[id] == 0;
    }
  }

  /** A suppressed callback is always followed by another turn: the re-prompt took the slot with one. */
  lemma SuppressedMadeATurn(w: Joint, i: nat)
    requires Reachable(w) && i < |w.f.fins| && w.f.fins[i].pc.Suppressed?
    ensures i in w.made && w.made[i] in w.s.core.store.byID && w.made[i] != w.f.fins[i].turn
    ensures w.f.fins[i].turn in w.s.core.store.byID
  {
    ReachableInv(w);
    assert Accepted(w.f.fins[i]);
  }

  /** The first drain for the latest turn, at its end or after, returns every report ever credited to it. */
  lemma FirstDrainReturnsAll(w: Joint, id: TurnId)
    requires Reachable(w) && id != IDLE && id == CurrentTurnID(w.s.core) && NotDrained(w.events, id)
    ensures T.Drain(T.After(w.events), id).1 == T.ReportsOf(w.events, id)
  {
    ReachableInv(w);
    T.DrainReturnsTheTurnsReports(w.events, id);
  }

  /**
   Every report the follower ever read is in one place, as often as it was read: in delivered callbacks, held, with
   a finaliser still running, waiting to be drained, or dropped when another turn's report came before a drain.
   */
  lemma EveryReportAccountedFor(w: Joint, r: T.InternalIssueReport)
    requires Reachable(w)
    ensures T.Accumulated(w.events)[r] ==
            F.Somewhere(w.f, r) + multiset(T.After(w.events).pending)[r] + T.Dropped(w.events)[r]
  {
    ReachableInv(w);
    T.EachReportReturnedOnce(w.events);
    assert F.Somewhere(w.f, r) == T.Returned(w.events)[r];
  }

  // ---------------------------------------------------------------- counting

  /** Once no hand-over is pending, hand-overs and failed writes together are as many as the finished turns. */
  lemma HandedOverCount(s: S.World)
    requires R.Inv(s) && s.firing == multiset{}
    ensures |s.fired| + |s.writeFailed| == |Finished(s.core.store.byID)| == s.core.turnsCompleted
  {
    var finished := Finished(s.core.store.byID);
    forall id ensures (s.fired + s.writeFailed)[id] == multiset(finished)[id] {
      assert s.firing[id] + s.fired[id] + s.writeFailed[id] == if Terminal(s.core, id) then 1 else 0;
      assert id in finished <==> Terminal(s.core, id);
    }
    SameSize(s.fired, s.writeFailed, finished);
  }

  lemma SameSize(a: multiset<TurnId>, b: multiset<TurnId>, all: set<TurnId>)
    requires forall id :: (a + b)[id] == multiset(all)[id]
    ensures |a| + |b| == |all|
  {
    assert a + b == multiset(all);
    SetSize(all);
  }

  lemma {:induction false} SetSize(all: set<TurnId>)
    ensures |multiset(all)| == |all|
  {
    if all != {} {
      var x :| x in all;
      SetSize(all - {x});
      assert multiset(all) == multiset(all - {x}) + multiset{x};
    }
  }

  function Turns(fins: seq<F.Finaliser>): multiset<TurnId> {
    if fins == [] then multiset{} else Turns(fins[..|fins| - 1]) + multiset{fins[|fins| - 1].turn}
  }

  lemma {:induction false} TurnsCount(fins: seq<F.Finaliser>)
    ensures |Turns(fins)| == |fins|
    ensures forall id :: Turns(fins)[id] == F.Of(fins, id)
  {
    if fins != [] {
      TurnsCount(fins[..|fins| - 1]);
    }
  }

  /**
   The operator hears of every turn but at most two: once all is quiet there are as many callbacks as finished
   turns, less those whose prompt could not be written and less at most two suppressed ones.
   */
  lemma EveryTurnButTwoAnswered(w: Joint)
    requires Reachable(w) && Quiet(w)
    ensures w.s.core.turnsCompleted - |w.s.writeFailed| - F.MAX_OUTCOME_REPROMPTS <= |w.f.delivered|
    ensures |w.f.delivered| <= w.s.core.turnsCompleted - |w.s.writeFailed|
  {
    ReachableInv(w);
    HandedOverCount(w.s);
    TurnsCount(w.f.fins);
    assert forall id :: F.Of(w.f.fins, id) == w.s.fired[id];
    assert Turns(w.f.fins) == w.s.fired;
    F.FinishedCounts(w.f.fins);
  }
}
