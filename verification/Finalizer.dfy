/**
 Turn finalisers handing reports and repository lists from suppressed callbacks to later ones
 (cmd/wrapper/app.go): the app's critical sections as a class, and every interleaving of finalisers over them.
 */
module Finalizer {
  import opened Wrappers
  import opened TurnStore
  import opened RepoLists
  import opened TailerState

  type Report = InternalIssueReport

  const MAX_OUTCOME_REPROMPTS: nat := 2

  /** What the finalisers share. */
  datatype Shared = Shared(issues: seq<Report>, repos: Lists, reprompts: int)

  const EMPTY_SHARED := Shared([], NONE, 0)

  /**
   What one finaliser with no other running makes of the shared state, and its callback. It carries everything held and
   its own; it holds all of it again, with no callback, exactly when the turn's outcome failed, the budget allows a
   corrective turn and the session accepts it.
   */
  function Finalised(before: Shared, turn: TurnId, drained: seq<Report>, own: Lists, failedOutcome: bool, accepted: bool)
    : (Shared, Option<Callback>)
  {
    var carried := Callback(turn, before.issues + drained, Merge(before.repos, own));
    if failedOutcome && accepted && before.reprompts < MAX_OUTCOME_REPROMPTS then
      (Shared(carried.issues, Merge(NONE, carried.repos), before.reprompts + 1), None)
    else (Shared([], NONE, before.reprompts), Some(carried))
  }

  class App {
    var heldInternalIssues: seq<Report>
    var heldPushedRepos: seq<string>
    var heldFailedRepos: seq<string>
    var outcomeReprompts: int

    ghost function View(): Shared
      reads this
    {
      Shared(heldInternalIssues, Lists(heldPushedRepos, heldFailedRepos), outcomeReprompts)
    }

    constructor ()
      ensures View() == EMPTY_SHARED
    {
      heldInternalIssues, heldPushedRepos, heldFailedRepos, outcomeReprompts := [], [], [], 0;
    }

    method HoldInternalIssues(reports: seq<Report>)
      modifies this
      ensures View() == old(View()).(issues := old(View()).issues + reports)
    {
      if |reports| == 0 {
        assert heldInternalIssues == heldInternalIssues + reports;
        return;
      }
      heldInternalIssues := heldInternalIssues + reports;
    }

    method TakePendingInternalIssues() returns (held: seq<Report>)
      modifies this
      ensures held == old(View()).issues && View() == old(View()).(issues := [])
    {
      held := heldInternalIssues;
      heldInternalIssues := [];
    }

    method HoldRepoLists(l: Lists)
      modifies this
      ensures View() == old(View()).(repos := Merge(old(View()).repos, l))
    {
      var merged := MergeRepoLists(Lists(heldPushedRepos, heldFailedRepos), l);
      heldPushedRepos, heldFailedRepos := merged.pushed, merged.failed;
    }

    method TakePendingRepoLists() returns (held: Lists)
      modifies this
      ensures held == old(View()).repos && View() == old(View()).(repos := NONE)
    {
      held := Lists(heldPushedRepos, heldFailedRepos);
      heldPushedRepos, heldFailedRepos := [], [];
    }

    method TakeReprompt() returns (ok: bool)
      modifies this
      ensures ok <==> old(View()).reprompts < MAX_OUTCOME_REPROMPTS
      ensures View() == old(View()).(reprompts := old(View()).reprompts + if ok then 1 else 0)
    {
      if outcomeReprompts >= MAX_OUTCOME_REPROMPTS {
        return false;
      }
      outcomeReprompts := outcomeReprompts + 1;
      return true;
    }

    method ReturnReprompt()
      modifies this
      ensures View() == old(View()).(reprompts := old(View()).reprompts - 1)
    {
      outcomeReprompts := outcomeReprompts - 1;
    }

    /** Whether a corrective turn was submitted; `accepted` is what the session answers. */
    method Reprompt(accepted: bool) returns (issued: bool)
      modifies this
      ensures issued <==> old(View()).reprompts < MAX_OUTCOME_REPROMPTS && accepted
      ensures View() == old(View()).(reprompts := old(View()).reprompts + if issued then 1 else 0)
    {
      var ok := TakeReprompt();
      if !ok {
        return false;
      }
      if !accepted {
        ReturnReprompt();
        return false;
      }
      return true;
    }

    /** One finaliser with no other running: the callback it delivers, or None when it suppresses it. */
    method FinalizeTurn(turn: TurnId, drained: seq<Report>, own: Lists, failedOutcome: bool, accepted: bool)
      returns (callback: Option<Callback>)
      modifies this
      ensures (View(), callback) == Finalised(old(View()), turn, drained, own, failedOutcome, accepted)
    {
      var issues := TakePendingInternalIssues();
      issues := issues + drained;
      var held := TakePendingRepoLists();
      var repos := MergeRepoLists(held, own);
      if failedOutcome {
        var issued := Reprompt(accepted);
        if issued {
          HoldInternalIssues(issues);
          HoldRepoLists(repos);
          assert [] + issues == issues;
          return None;
        }
      }
      return Some(Callback(turn, issues, repos));
    }
  }

  datatype Callback = Callback(turn: TurnId, issues: seq<Report>, repos: Lists)

  // ---------------------------------------------------------------- interleaved finalisers

  /** How far a finaliser is; every step but the last two reads or writes the shared state once. */
  datatype Pc =
    | Begun | TookIssues | DrainedIssues | Merged | Refused | Reserved | RollingBack | Submitted | HeldIssues
    | Suppressed | Delivered

  /** A finaliser with its turn, and the issues and lists its record holds. */
  datatype Finaliser = Finaliser(turn: TurnId, pc: Pc, issues: seq<Report>, repos: Lists)

  datatype World = World(shared: Shared, fins: seq<Finaliser>, delivered: seq<Callback>)

  const START := World(EMPTY_SHARED, [], [])

  datatype Action =
    | Begin(turn: TurnId, own: Lists)
    | TakeIssues(i: nat)
    | Drain(i: nat, reports: seq<Report>)
    | TakeRepos(i: nat)
    | Scan(i: nat, failedOutcome: bool)
    | Reserve(i: nat)
    | Submit(i: nat, accepted: bool)
    | RollBack(i: nat)
    | HoldIssues(i: nat)
    | HoldRepos(i: nat)

  predicate Enabled(w: World, a: Action) {
    a.Begin? ||
    (a.i < |w.fins| &&
     match a
     case TakeIssues(i) => w.fins[i].pc == Begun
     case Drain(i, _) => w.fins[i].pc == TookIssues
     case TakeRepos(i) => w.fins[i].pc == DrainedIssues
     case Scan(i, _) => w.fins[i].pc == Merged
     case Reserve(i) => w.fins[i].pc == Refused
     case Submit(i, _) => w.fins[i].pc == Reserved
     case RollBack(i) => w.fins[i].pc == RollingBack
     case HoldIssues(i) => w.fins[i].pc == Submitted
     case HoldRepos(i) => w.fins[i].pc == HeldIssues)
  }

  function Put(w: World, i: nat, f: Finaliser, shared: Shared): World
    requires i < |w.fins|
  {
    World(shared, w.fins[i := f], w.delivered)
  }

  function Deliver(w: World, i: nat, shared: Shared): World
    requires i < |w.fins|
  {
    var f := w.fins[i];
    World(shared, w.fins[i := f.(pc := Delivered)], w.delivered + [Callback(f.turn, f.issues, f.repos)])
  }

  function Apply(w: World, a: Action): World
    requires Enabled(w, a)
  {
    var s := w.shared;
    match a
    case Begin(turn, own) => w.(fins := w.fins + [Finaliser(turn, Begun, [], own)])
    case TakeIssues(i) =>
      Put(w, i, w.fins[i].(pc := TookIssues, issues := s.issues), s.(issues := []))
    case Drain(i, reports) =>
      Put(w, i, w.fins[i].(pc := DrainedIssues, issues := w.fins[i].issues + reports), s)
    case TakeRepos(i) =>
      Put(w, i, w.fins[i].(pc := Merged, repos := Merge(s.repos, w.fins[i].repos)), s.(repos := NONE))
    case Scan(i, failedOutcome) =>
      if failedOutcome then Put(w, i, w.fins[i].(pc := Refused), s) else Deliver(w, i, s)
    case Reserve(i) =>
      if s.reprompts >= MAX_OUTCOME_REPROMPTS then Deliver(w, i, s)
      else Put(w, i, w.fins[i].(pc := Reserved), s.(reprompts := s.reprompts + 1))
    case Submit(i, accepted) => Put(w, i, w.fins[i].(pc := if accepted then Submitted else RollingBack), s)
    case RollBack(i) => Deliver(w, i, s.(reprompts := s.reprompts - 1))
    case HoldIssues(i) => Put(w, i, w.fins[i].(pc := HeldIssues), s.(issues := s.issues + w.fins[i].issues))
    case HoldRepos(i) => Put(w, i, w.fins[i].(pc := Suppressed), s.(repos := Merge(s.repos, w.fins[i].repos)))
  }

  predicate CanRun(w: World, run: seq<Action>)
    decreases |run|
  {
    run == [] || (Enabled(w, run[0]) && CanRun(Apply(w, run[0]), run[1..]))
  }

  function Run(w: World, run: seq<Action>): World
    requires CanRun(w, run)
    decreases |run|
  {
    if run == [] then w else Run(Apply(w, run[0]), run[1..])
  }

  // ---------------------------------------------------------------- one finaliser alone

  /** The steps of finaliser i from its beginning, when no other takes one and `used` of the budget is spent. */
  function Alone(i: nat, drained: seq<Report>, failedOutcome: bool, accepted: bool, used: int): seq<Action> {
    [TakeIssues(i), Drain(i, drained), TakeRepos(i), Scan(i, failedOutcome)] +
    if failedOutcome then Correcting(i, accepted, used) else []
  }

  function Correcting(i: nat, accepted: bool, used: int): seq<Action> {
    [Reserve(i)] +
    if used >= MAX_OUTCOME_REPROMPTS then []
    else [Submit(i, accepted)] + if accepted then [HoldIssues(i), HoldRepos(i)] else [RollBack(i)]
  }

  lemma RunCons(w: World, a: Action, rest: seq<Action>)
    requires Enabled(w, a) && CanRun(Apply(w, a), rest)
    ensures CanRun(w, [a] + rest) && Run(w, [a] + rest) == Run(Apply(w, a), rest)
  {
    assert ([a] + rest)[1..] == rest;
  }

  lemma RunTwo(w: World, a: Action, b: Action)
    requires Enabled(w, a) && Enabled(Apply(w, a), b)
    ensures CanRun(w, [a, b]) && Run(w, [a, b]) == Apply(Apply(w, a), b)
  {
    RunOne(Apply(w, a), b);
    assert [a, b][1..] == [b];
  }

  lemma RunOne(w: World, a: Action)
    requires Enabled(w, a)
    ensures CanRun(w, [a]) && Run(w, [a]) == Apply(w, a)
  {
    assert [a][1..] == [];
  }

  lemma AloneHolds(w: World, i: nat)
    requires i < |w.fins| && w.fins[i].pc == Submitted
    ensures Enabled(Apply(w, HoldIssues(i)), HoldRepos(i))
    ensures var w' := Apply(Apply(w, HoldIssues(i)), HoldRepos(i));
            && w'.delivered == w.delivered && w'.fins == w.fins[i := w.fins[i].(pc := Suppressed)]
            && w'.shared == Shared(w.shared.issues + w.fins[i].issues, Merge(w.shared.repos, w.fins[i].repos),
                                   w.shared.reprompts)
  {
    var w1 := Apply(w, HoldIssues(i));
    assert w1.fins[i] == w.fins[i].(pc := HeldIssues);
  }

  lemma AloneAccepted(w: World, i: nat)
    requires i < |w.fins| && w.fins[i].pc == Reserved
    ensures var rest := [Submit(i, true)] + [HoldIssues(i), HoldRepos(i)];
            CanRun(w, rest) && Ended(w, Run(w, rest), i, true,
                                     w.shared.(issues := w.shared.issues + w.fins[i].issues,
                                               repos := Merge(w.shared.repos, w.fins[i].repos)))
  {
    var w1 := Apply(w, Submit(i, true));
    AloneHolds(w1, i);
    RunTwo(w1, HoldIssues(i), HoldRepos(i));
    RunCons(w, Submit(i, true), [HoldIssues(i), HoldRepos(i)]);
  }

  lemma AloneRejected(w: World, i: nat)
    requires i < |w.fins| && w.fins[i].pc == Reserved
    ensures var rest := [Submit(i, false)] + [RollBack(i)];
            CanRun(w, rest) && Ended(w, Run(w, rest), i, false, w.shared.(reprompts := w.shared.reprompts - 1))
  {
    var w1 := Apply(w, Submit(i, false));
    RunOne(w1, RollBack(i));
    RunCons(w, Submit(i, false), [RollBack(i)]);
  }

  /** Finaliser i has finished: with its callback delivered last, or suppressed. */
  predicate Ended(w: World, w': World, i: nat, suppressed: bool, shared: Shared)
    requires i < |w.fins|
  {
    var f := w.fins[i];
    && |w'.fins| == |w.fins| && w'.shared == shared
    && w'.fins == w.fins[i := f.(pc := if suppressed then Suppressed else Delivered)]
    && w'.delivered == w.delivered + if suppressed then [] else [Callback(f.turn, f.issues, f.repos)]
  }

  lemma AloneCorrects(w: World, i: nat, accepted: bool)
    requires i < |w.fins| && w.fins[i].pc == Refused
    ensures var rest, f := Correcting(i, accepted, w.shared.reprompts), w.fins[i];
            var suppressed := accepted && w.shared.reprompts < MAX_OUTCOME_REPROMPTS;
            && CanRun(w, rest)
            && Ended(w, Run(w, rest), i, suppressed,
                     if suppressed then Shared(w.shared.issues + f.issues, Merge(w.shared.repos, f.repos),
                                               w.shared.reprompts + 1)
                     else w.shared)
  {
    var w1 := Apply(w, Reserve(i));
    if w.shared.reprompts >= MAX_OUTCOME_REPROMPTS {
      RunCons(w, Reserve(i), []);
    } else {
      if accepted {
        AloneAccepted(w1, i);
      } else {
        AloneRejected(w1, i);
      }
      RunCons(w, Reserve(i),
              [Submit(i, accepted)] + if accepted then [HoldIssues(i), HoldRepos(i)] else [RollBack(i)]);
    }
  }

  /** The steps up to the transcript scan: the finaliser has taken what was held and added its own. */
  lemma AloneTakes(w: World, i: nat, drained: seq<Report>, rest: seq<Action>) returns (w': World)
    requires i < |w.fins| && w.fins[i].pc == Begun
    ensures w'.delivered == w.delivered && w'.shared == Shared([], NONE, w.shared.reprompts)
    ensures w'.fins == w.fins[i := Finaliser(w.fins[i].turn, Merged, w.shared.issues + drained,
                                             Merge(w.shared.repos, w.fins[i].repos))]
    ensures CanRun(w', rest) ==>
              var run := [TakeIssues(i)] + ([Drain(i, drained)] + ([TakeRepos(i)] + rest));
              CanRun(w, run) && Run(w, run) == Run(w', rest)
  {
    var w1 := Apply(w, TakeIssues(i));
    var w2 := Apply(w1, Drain(i, drained));
    w' := Apply(w2, TakeRepos(i));
    if CanRun(w', rest) {
      RunCons(w2, TakeRepos(i), rest);
      RunCons(w1, Drain(i, drained), [TakeRepos(i)] + rest);
      RunCons(w, TakeIssues(i), [Drain(i, drained)] + ([TakeRepos(i)] + rest));
    }
  }

  lemma AloneScans(w: World, i: nat, failedOutcome: bool, accepted: bool)
    requires i < |w.fins| && w.fins[i].pc == Merged && w.shared.issues == [] && w.shared.repos == NONE
    ensures var rest := [Scan(i, failedOutcome)] +
                        if failedOutcome then Correcting(i, accepted, w.shared.reprompts) else [];
            var f, suppressed := w.fins[i], failedOutcome && accepted && w.shared.reprompts < MAX_OUTCOME_REPROMPTS;
            && CanRun(w, rest)
            && Ended(w, Run(w, rest), i, suppressed,
                     if suppressed then Shared(f.issues, Merge(NONE, f.repos), w.shared.reprompts + 1) else w.shared)
  {
    var w1 := Apply(w, Scan(i, failedOutcome));
    if failedOutcome {
      AloneCorrects(w1, i, accepted);
      assert [] + w.fins[i].issues == w.fins[i].issues;
      RunCons(w, Scan(i, true), Correcting(i, accepted, w.shared.reprompts));
    } else {
      RunCons(w, Scan(i, false), []);
    }
  }

  lemma AloneFrom(w: World, i: nat, drained: seq<Report>, failedOutcome: bool, accepted: bool) returns (w': World)
    requires i < |w.fins| && w.fins[i].pc == Begun
    ensures var run := Alone(i, drained, failedOutcome, accepted, w.shared.reprompts); CanRun(w, run) && w' == Run(w, run)
    ensures var f := w.fins[i];
            var (shared, callback) := Finalised(w.shared, f.turn, drained, f.repos, failedOutcome, accepted);
            && w'.shared == shared && |w'.fins| == |w.fins| && w'.fins == w.fins[i := w'.fins[i]]
            && w'.fins[i].pc == (if callback.Some? then Delivered else Suppressed)
            && w'.delivered == w.delivered + if callback.Some? then [callback.value] else []
  {
    var scans := [Scan(i, failedOutcome)] + if failedOutcome then Correcting(i, accepted, w.shared.reprompts) else [];
    var w1 := AloneTakes(w, i, drained, scans);
    AloneScans(w1, i, failedOutcome, accepted);
    assert [TakeIssues(i)] + ([Drain(i, drained)] + ([TakeRepos(i)] + scans)) ==
           Alone(i, drained, failedOutcome, accepted, w.shared.reprompts);
    w' := Run(w1, scans);
  }

  /**
   The interleaved steps refine the sequential finaliser: one that begins and takes all its steps with no other in
   between leaves the shared state and the callback that FinalizeTurn does.
   */
  lemma AloneIsSequential(w: World, turn: TurnId, own: Lists, drained: seq<Report>, failedOutcome: bool, accepted: bool)
    ensures var run := [Begin(turn, own)] + Alone(|w.fins|, drained, failedOutcome, accepted, w.shared.reprompts);
            var (shared, callback) := Finalised(w.shared, turn, drained, own, failedOutcome, accepted);
            && CanRun(w, run) && Run(w, run).shared == shared
            && w.fins < Run(w, run).fins && |Run(w, run).fins| == |w.fins| + 1
            && Run(w, run).fins[|w.fins|].pc == (if callback.Some? then Delivered else Suppressed)
            && Run(w, run).delivered == w.delivered + if callback.Some? then [callback.value] else []
  {
    var w0 := Apply(w, Begin(turn, own));
    var w' := AloneFrom(w0, |w.fins|, drained, failedOutcome, accepted);
    RunCons(w, Begin(turn, own), Alone(|w.fins|, drained, failedOutcome, accepted, w.shared.reprompts));
  }

  // ---------------------------------------------------------------- where a report is

  /** How often a report occurs in a list. */
  function Times(reports: seq<Report>, r: Report): nat {
    if reports == [] then 0
    else Times(reports[..|reports| - 1], r) + if reports[|reports| - 1] == r then 1 else 0
  }

  lemma {:induction false} TimesConcat(a: seq<Report>, b: seq<Report>, r: Report)
    ensures Times(a + b, r) == Times(a, r) + Times(b, r)
    decreases |b|
  {
    if b == [] {
      assert a + b == a;
    } else {
      TimesConcat(a, b[..|b| - 1], r);
      assert (a + b)[..|a + b| - 1] == a + b[..|b| - 1];
    }
  }

  /** How often a finaliser still answers for a report. */
  function Carries(f: Finaliser, r: Report): nat {
    if f.pc.HeldIssues? || f.pc.Suppressed? || f.pc.Delivered? then 0 else Times(f.issues, r)
  }

  function Carried(fins: seq<Finaliser>, r: Report): nat {
    if fins == [] then 0 else Carried(fins[..|fins| - 1], r) + Carries(fins[|fins| - 1], r)
  }

  function InCallbacks(callbacks: seq<Callback>, r: Report): nat {
    if callbacks == [] then 0
    else InCallbacks(callbacks[..|callbacks| - 1], r) + Times(callbacks[|callbacks| - 1].issues, r)
  }

  /** How often a report is in a delivered callback, held, or with a finaliser still running. */
  function Somewhere(w: World, r: Report): nat {
    InCallbacks(w.delivered, r) + Times(w.shared.issues, r) + Carried(w.fins, r)
  }

  function NewReports(a: Action, r: Report): nat {
    if a.Drain? then Times(a.reports, r) else 0
  }

  /** How often a report was drained in a run. */
  function AllDrained(run: seq<Action>, r: Report): nat {
    if run == [] then 0 else NewReports(run[0], r) + AllDrained(run[1..], r)
  }

  lemma {:induction false} CarriedUpdate(fins: seq<Finaliser>, i: nat, f: Finaliser, r: Report)
    requires i < |fins|
    ensures Carried(fins[i := f], r) + Carries(fins[i], r) == Carried(fins, r) + Carries(f, r)
  {
    var n := |fins| - 1;
    if i < n {
      CarriedUpdate(fins[..n], i, f, r);
      assert fins[i := f][..n] == fins[..n][i := f];
    } else {
      assert fins[i := f][..n] == fins[..n];
    }
  }

  lemma PutMoves(w: World, i: nat, f: Finaliser, shared: Shared, added: nat, r: Report)
    requires i < |w.fins|
    requires Times(shared.issues, r) + Carries(f, r) == Times(w.shared.issues, r) + Carries(w.fins[i], r) + added
    ensures Somewhere(Put(w, i, f, shared), r) == Somewhere(w, r) + added
  {
    CarriedUpdate(w.fins, i, f, r);
  }

  lemma DeliverMoves(w: World, i: nat, shared: Shared, r: Report)
    requires i < |w.fins| && !w.fins[i].pc.HeldIssues? && !w.fins[i].pc.Suppressed? && !w.fins[i].pc.Delivered?
    requires shared.issues == w.shared.issues
    ensures Somewhere(Deliver(w, i, shared), r) == Somewhere(w, r)
  {
    var c := Callback(w.fins[i].turn, w.fins[i].issues, w.fins[i].repos);
    CarriedUpdate(w.fins, i, w.fins[i].(pc := Delivered), r);
    assert (w.delivered + [c])[..|w.delivered|] == w.delivered;
  }

  /** No finaliser holds a report before it has taken what was pending. */
  predicate StartsEmpty(w: World) {
    forall i :: 0 <= i < |w.fins| && w.fins[i].pc == Begun ==> w.fins[i].issues == []
  }

  lemma StartsEmptyStep(w: World, a: Action)
    requires Enabled(w, a) && StartsEmpty(w)
    ensures StartsEmpty(Apply(w, a))
  {
  }

  lemma ReportsStep(w: World, a: Action, r: Report)
    requires Enabled(w, a) && StartsEmpty(w)
    ensures Somewhere(Apply(w, a), r) == Somewhere(w, r) + NewReports(a, r)
  {
    var s := w.shared;
    match a
    case Begin(turn, own) =>
      assert (w.fins + [Finaliser(turn, Begun, [], own)])[..|w.fins|] == w.fins;
    case TakeIssues(i) =>
      PutMoves(w, i, w.fins[i].(pc := TookIssues, issues := s.issues), s.(issues := []), 0, r);
    case Drain(i, reports) =>
      TimesConcat(w.fins[i].issues, reports, r);
      PutMoves(w, i, w.fins[i].(pc := DrainedIssues, issues := w.fins[i].issues + reports), s, Times(reports, r), r);
    case HoldIssues(i) =>
      TimesConcat(s.issues, w.fins[i].issues, r);
      PutMoves(w, i, w.fins[i].(pc := HeldIssues), s.(issues := s.issues + w.fins[i].issues), 0, r);
    case _ =>
      QuietStep(w, a, r);
  }

  lemma QuietStep(w: World, a: Action, r: Report)
    requires Enabled(w, a) && !a.Begin? && !a.TakeIssues? && !a.Drain? && !a.HoldIssues?
    ensures Somewhere(Apply(w, a), r) == Somewhere(w, r)
  {
    var next := Apply(w, a);
    if next.delivered != w.delivered {
      DeliverMoves(w, a.i, next.shared, r);
    } else {
      PutMoves(w, a.i, next.fins[a.i], next.shared, 0, r);
    }
  }

  // ---------------------------------------------------------------- the shape of a step

  /** Finaliser i moved on, and delivered its callback if that is where it went. */
  predicate Moved(w: World, next: World, i: nat) {
    && i < |w.fins| && |next.fins| == |w.fins| && next.fins == w.fins[i := next.fins[i]]
    && next.fins[i].turn == w.fins[i].turn && !w.fins[i].pc.Delivered? && !w.fins[i].pc.Suppressed?
    && next.delivered ==
       w.delivered + if next.fins[i].pc.Delivered?
                     then [Callback(w.fins[i].turn, w.fins[i].issues, w.fins[i].repos)] else []
  }

  lemma StepMoves(w: World, a: Action)
    requires Enabled(w, a) && !a.Begin?
    ensures Moved(w, Apply(w, a), a.i)
  {
    var next := Apply(w, a);
    assert next.fins == w.fins[a.i := next.fins[a.i]];
  }

  // ---------------------------------------------------------------- the budget

  predicate HoldsBudget(f: Finaliser) {
    f.pc in {Reserved, RollingBack, Submitted, HeldIssues, Suppressed}
  }

  function Holders(fins: seq<Finaliser>): nat {
    if fins == [] then 0 else Holders(fins[..|fins| - 1]) + if HoldsBudget(fins[|fins| - 1]) then 1 else 0
  }

  function SuppressedCount(fins: seq<Finaliser>): (n: nat)
    ensures n <= Holders(fins)
  {
    if fins == [] then 0
    else SuppressedCount(fins[..|fins| - 1]) + if fins[|fins| - 1].pc.Suppressed? then 1 else 0
  }

  function DeliveredCount(fins: seq<Finaliser>): nat {
    if fins == [] then 0
    else DeliveredCount(fins[..|fins| - 1]) + if fins[|fins| - 1].pc.Delivered? then 1 else 0
  }

  lemma {:induction false} CountsUpdate(fins: seq<Finaliser>, i: nat, f: Finaliser)
    requires i < |fins|
    ensures Holders(fins[i := f]) + (if HoldsBudget(fins[i]) then 1 else 0) ==
            Holders(fins) + if HoldsBudget(f) then 1 else 0
    ensures DeliveredCount(fins[i := f]) + (if fins[i].pc.Delivered? then 1 else 0) ==
            DeliveredCount(fins) + if f.pc.Delivered? then 1 else 0
  {
    var n := |fins| - 1;
    if i < n {
      CountsUpdate(fins[..n], i, f);
      assert fins[i := f][..n] == fins[..n][i := f];
    } else {
      assert fins[i := f][..n] == fins[..n];
    }
  }

  predicate BudgetInv(w: World) {
    && w.shared.reprompts == Holders(w.fins) <= MAX_OUTCOME_REPROMPTS
    && |w.delivered| == DeliveredCount(w.fins)
  }

  function Cost(f: Finaliser): nat {
    if HoldsBudget(f) then 1 else 0
  }

  lemma StepCosts(w: World, a: Action)
    requires Enabled(w, a) && !a.Begin?
    ensures Apply(w, a).shared.reprompts - w.shared.reprompts == Cost(Apply(w, a).fins[a.i]) - Cost(w.fins[a.i])
    ensures Apply(w, a).shared.reprompts <= w.shared.reprompts || Apply(w, a).shared.reprompts <= MAX_OUTCOME_REPROMPTS
  {
  }

  lemma BeganCosts(fins: seq<Finaliser>, f: Finaliser)
    requires f.pc == Begun
    ensures Holders(fins + [f]) == Holders(fins) && DeliveredCount(fins + [f]) == DeliveredCount(fins)
  {
    assert (fins + [f])[..|fins|] == fins;
  }

  lemma BudgetStep(w: World, a: Action)
    requires Enabled(w, a) && BudgetInv(w)
    ensures BudgetInv(Apply(w, a))
  {
    if a.Begin? {
      BeganCosts(w.fins, Finaliser(a.turn, Begun, [], a.own));
    } else {
      StepMoves(w, a);
      StepCosts(w, a);
      MovedBudget(w, Apply(w, a), a.i);
    }
  }

  lemma MovedBudget(w: World, next: World, i: nat)
    requires BudgetInv(w) && Moved(w, next, i)
    requires next.shared.reprompts - w.shared.reprompts == Cost(next.fins[i]) - Cost(w.fins[i])
    requires next.shared.reprompts <= w.shared.reprompts || next.shared.reprompts <= MAX_OUTCOME_REPROMPTS
    ensures BudgetInv(next)
  {
    CountsUpdate(w.fins, i, next.fins[i]);
  }

  // ---------------------------------------------------------------- callbacks by turn

  function Of(fins: seq<Finaliser>, turn: TurnId): nat {
    if fins == [] then 0 else Of(fins[..|fins| - 1], turn) + if fins[|fins| - 1].turn == turn then 1 else 0
  }

  function DeliveredOf(fins: seq<Finaliser>, turn: TurnId): nat {
    if fins == [] then 0
    else
      var f := fins[|fins| - 1];
      DeliveredOf(fins[..|fins| - 1], turn) + if f.turn == turn && f.pc.Delivered? then 1 else 0
  }

  function SuppressedOf(fins: seq<Finaliser>, turn: TurnId): nat {
    if fins == [] then 0
    else
      var f := fins[|fins| - 1];
      SuppressedOf(fins[..|fins| - 1], turn) + if f.turn == turn && f.pc.Suppressed? then 1 else 0
  }

  function CallbacksOf(callbacks: seq<Callback>, turn: TurnId): nat {
    if callbacks == [] then 0
    else CallbacksOf(callbacks[..|callbacks| - 1], turn) + if callbacks[|callbacks| - 1].turn == turn then 1 else 0
  }

  lemma {:induction false} TurnUpdate(fins: seq<Finaliser>, i: nat, f: Finaliser, turn: TurnId)
    requires i < |fins| && f.turn == fins[i].turn
    ensures Of(fins[i := f], turn) == Of(fins, turn)
    ensures DeliveredOf(fins[i := f], turn) + (if f.turn == turn && fins[i].pc.Delivered? then 1 else 0) ==
            DeliveredOf(fins, turn) + if f.turn == turn && f.pc.Delivered? then 1 else 0
  {
    var n := |fins| - 1;
    if i < n {
      TurnUpdate(fins[..n], i, f, turn);
      assert fins[i := f][..n] == fins[..n][i := f];
    } else {
      assert fins[i := f][..n] == fins[..n];
    }
  }

  lemma {:induction false} OutcomesOf(fins: seq<Finaliser>, turn: TurnId)
    ensures DeliveredOf(fins, turn) + SuppressedOf(fins, turn) <= Of(fins, turn)
    ensures (forall i :: 0 <= i < |fins| ==> fins[i].pc.Suppressed? || fins[i].pc.Delivered?) ==>
              DeliveredOf(fins, turn) + SuppressedOf(fins, turn) == Of(fins, turn)
  {
    if fins != [] {
      OutcomesOf(fins[..|fins| - 1], turn);
    }
  }

  /** The callbacks delivered for a turn are those of its finalisers that delivered. */
  predicate TurnInv(w: World, turn: TurnId) {
    CallbacksOf(w.delivered, turn) == DeliveredOf(w.fins, turn)
  }

  lemma TurnStep(w: World, a: Action, turn: TurnId)
    requires Enabled(w, a) && TurnInv(w, turn)
    ensures TurnInv(Apply(w, a), turn)
    ensures Of(Apply(w, a).fins, turn) == Of(w.fins, turn) + if a.Begin? && a.turn == turn then 1 else 0
  {
    if a.Begin? {
      assert (w.fins + [Finaliser(a.turn, Begun, [], a.own)])[..|w.fins|] == w.fins;
    } else {
      StepMoves(w, a);
      MovedTurn(w, Apply(w, a), a.i, turn);
    }
  }

  lemma MovedTurn(w: World, next: World, i: nat, turn: TurnId)
    requires TurnInv(w, turn) && Moved(w, next, i)
    ensures TurnInv(next, turn) && Of(next.fins, turn) == Of(w.fins, turn)
  {
    TurnUpdate(w.fins, i, next.fins[i], turn);
    if next.fins[i].pc.Delivered? {
      assert next.delivered[..|w.delivered|] == w.delivered;
    } else {
      assert next.delivered == w.delivered;
    }
  }

  // ---------------------------------------------------------------- repository names

  predicate KeepsNames(f: Finaliser) {
    f.pc != Suppressed && f.pc != Delivered
  }

  /** A name is held, in a delivered callback, or with a finaliser still running. */
  ghost predicate Named(w: World, x: string) {
    || x in NamesIn(w.shared.repos)
    || (exists c :: 0 <= c < |w.delivered| && x in NamesIn(w.delivered[c].repos))
    || (exists i :: 0 <= i < |w.fins| && KeepsNames(w.fins[i]) && x in NamesIn(w.fins[i].repos))
  }

  ghost predicate NowNamed(w: World, a: Action, x: string)
    requires Enabled(w, a)
  {
    Named(w, x) || (a.Begin? && x in NamesIn(a.own))
  }

  lemma NamesStep(w: World, a: Action, x: string)
    requires Enabled(w, a) && NowNamed(w, a, x)
    ensures Named(Apply(w, a), x)
  {
    var next := Apply(w, a);
    if a.Begin? && x in NamesIn(a.own) {
      assert next.fins[|w.fins|].repos == a.own;
    } else if exists c :: 0 <= c < |w.delivered| && x in NamesIn(w.delivered[c].repos) {
      var c :| 0 <= c < |w.delivered| && x in NamesIn(w.delivered[c].repos);
      assert next.delivered[c] == w.delivered[c];
    } else if exists i :: 0 <= i < |w.fins| && KeepsNames(w.fins[i]) && x in NamesIn(w.fins[i].repos) {
      var i :| 0 <= i < |w.fins| && KeepsNames(w.fins[i]) && x in NamesIn(w.fins[i].repos);
      CarriedNameStep(w, a, i, x);
    } else {
      HeldNameStep(w, a, x);
    }
  }

  lemma CarriedNameStep(w: World, a: Action, i: nat, x: string)
    requires Enabled(w, a) && i < |w.fins| && KeepsNames(w.fins[i]) && x in NamesIn(w.fins[i].repos)
    ensures Named(Apply(w, a), x)
  {
    var next := Apply(w, a);
    if !a.Begin? && a.i == i && !KeepsNames(next.fins[i]) {
      if next.fins[i].pc.Delivered? {
        assert next.delivered[|w.delivered|].repos == w.fins[i].repos;
      } else {
        assert next.shared.repos == Merge(w.shared.repos, w.fins[i].repos);
      }
    } else {
      assert x in NamesIn(next.fins[i].repos) && KeepsNames(next.fins[i]);
    }
  }

  lemma HeldNameStep(w: World, a: Action, x: string)
    requires Enabled(w, a) && x in NamesIn(w.shared.repos)
    ensures Named(Apply(w, a), x)
  {
    var next := Apply(w, a);
    if a.TakeRepos? {
      assert next.fins[a.i].repos == Merge(w.shared.repos, w.fins[a.i].repos) && KeepsNames(next.fins[a.i]);
    } else if a.HoldRepos? {
      assert next.shared.repos == Merge(w.shared.repos, w.fins[a.i].repos);
    }
  }

  /** Merged lists are clean, and so is every delivered callback. */
  predicate CleanInv(w: World) {
    && (forall i :: 0 <= i < |w.fins| ==>
          w.fins[i].pc == Begun || w.fins[i].pc == TookIssues || w.fins[i].pc == DrainedIssues || Clean(w.fins[i].repos))
    && (forall c :: 0 <= c < |w.delivered| ==> Clean(w.delivered[c].repos))
  }

  lemma CleanStep(w: World, a: Action)
    requires Enabled(w, a) && CleanInv(w)
    ensures CleanInv(Apply(w, a))
  {
  }

  // ---------------------------------------------------------------- every run

  lemma {:induction false} RunReports(w: World, run: seq<Action>, r: Report)
    requires CanRun(w, run) && StartsEmpty(w)
    ensures Somewhere(Run(w, run), r) == Somewhere(w, r) + AllDrained(run, r)
    decreases |run|
  {
    if run != [] {
      ReportsStep(w, run[0], r);
      StartsEmptyStep(w, run[0]);
      RunReports(Apply(w, run[0]), run[1..], r);
    }
  }

  /** Under any interleaving, every report drained so far is in exactly one place, as often as it was drained. */
  lemma EveryReportInOnePlace(run: seq<Action>, r: Report)
    requires CanRun(START, run)
    ensures Somewhere(Run(START, run), r) == AllDrained(run, r)
  {
    RunReports(START, run, r);
  }

  lemma {:induction false} RunBudget(w: World, run: seq<Action>)
    requires CanRun(w, run) && BudgetInv(w)
    ensures BudgetInv(Run(w, run))
    decreases |run|
  {
    if run != [] {
      BudgetStep(w, run[0]);
      RunBudget(Apply(w, run[0]), run[1..]);
    }
  }

  /** At most two callbacks are ever suppressed, and each finaliser that delivers delivers once. */
  lemma SuppressionsBounded(run: seq<Action>)
    requires CanRun(START, run)
    ensures SuppressedCount(Run(START, run).fins) <= MAX_OUTCOME_REPROMPTS
    ensures |Run(START, run).delivered| == DeliveredCount(Run(START, run).fins)
  {
    RunBudget(START, run);
  }

  lemma {:induction false} RunClean(w: World, run: seq<Action>)
    requires CanRun(w, run) && CleanInv(w)
    ensures CleanInv(Run(w, run))
    decreases |run|
  {
    if run != [] {
      CleanStep(w, run[0]);
      RunClean(Apply(w, run[0]), run[1..]);
    }
  }

  /** No delivered callback calls a repository both pushed and failed, or names it twice in a list. */
  lemma DeliveredListsAreClean(run: seq<Action>, c: nat)
    requires CanRun(START, run) && c < |Run(START, run).delivered|
    ensures Clean(Run(START, run).delivered[c].repos)
  {
    RunClean(START, run);
  }

  predicate Finished(w: World) {
    forall i :: 0 <= i < |w.fins| ==> w.fins[i].pc.Suppressed? || w.fins[i].pc.Delivered?
  }

  lemma {:induction false} FinishedCarriesNothing(fins: seq<Finaliser>, r: Report)
    requires forall i :: 0 <= i < |fins| ==> fins[i].pc.Suppressed? || fins[i].pc.Delivered?
    ensures Carried(fins, r) == 0
  {
    if fins != [] {
      FinishedCarriesNothing(fins[..|fins| - 1], r);
    }
  }

  /** Once every finaliser has finished, all but at most two of them have delivered a callback, and no more. */
  lemma DeliveredBounds(run: seq<Action>)
    requires CanRun(START, run) && Finished(Run(START, run))
    ensures |Run(START, run).fins| - MAX_OUTCOME_REPROMPTS <= |Run(START, run).delivered| <= |Run(START, run).fins|
  {
    SuppressionsBounded(run);
    FinishedCounts(Run(START, run).fins);
  }

  lemma {:induction false} FinishedCounts(fins: seq<Finaliser>)
    requires forall i :: 0 <= i < |fins| ==> fins[i].pc.Suppressed? || fins[i].pc.Delivered?
    ensures SuppressedCount(fins) + DeliveredCount(fins) == |fins|
  {
    if fins != [] {
      FinishedCounts(fins[..|fins| - 1]);
    }
  }

  /** And every report drained was delivered as often as it was drained, or is held. */
  lemma ReportsDeliveredOrHeld(run: seq<Action>, r: Report)
    requires CanRun(START, run) && Finished(Run(START, run))
    ensures InCallbacks(Run(START, run).delivered, r) + Times(Run(START, run).shared.issues, r) == AllDrained(run, r)
  {
    EveryReportInOnePlace(run, r);
    FinishedCarriesNothing(Run(START, run).fins, r);
  }

  lemma {:induction false} RunNames(w: World, run: seq<Action>, k: nat, x: string)
    requires CanRun(w, run) && k <= |run|
    requires Named(w, x) || (k < |run| && run[k].Begin? && x in NamesIn(run[k].own))
    ensures Named(Run(w, run), x)
    decreases |run|
  {
    if run != [] {
      var next := Apply(w, run[0]);
      if Named(w, x) || k == 0 {
        NamesStep(w, run[0], x);
        RunNames(next, run[1..], 0, x);
      } else {
        RunNames(next, run[1..], k - 1, x);
      }
    }
  }

  /** No interleaving loses a repository that some turn pushed or failed. */
  lemma NoRepoLost(run: seq<Action>, k: nat, x: string)
    requires CanRun(START, run) && k < |run| && run[k].Begin? && x in NamesIn(run[k].own)
    ensures Named(Run(START, run), x)
  {
    RunNames(START, run, k, x);
  }
}
