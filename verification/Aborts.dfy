/**
 Phase C of PrepareWorkspace: undoing what a killed session left half done (internal/bootstrap/resume.go).

 `tried` is always the list of the abort commands run, each with how it ended.
 */
module Aborts {
  import opened Wrappers
  import opened Git

  datatype Note = Aborted(op: Op) | RescueCommitted(commit: Commit, keptOn: Option<Branch>)

  const IN_PROGRESS_OPS: seq<Op> := [Merge, RebaseMerge, RebaseApply, CherryPick, Revert, Bisect]

  predicate HasFallback(op: Op) { op == Merge || op == RebaseApply }

  /** There is no other spelling left to undo the operation with. */
  predicate GivesUp(x: (Cmd, bool)) {
    !x.1 && (x.0.AbortFallback? || (x.0.Abort? && !HasFallback(x.0.op)))
  }

  function Dirt(r: Repo): set<Path> { r.tree.work + r.tree.staged }

  // ---------------------------------------------------------------- one abort

  /** The same commits, and nothing fetched or committed; local branches, HEAD, the tree and operations may differ. */
  predicate SameStore(r: Repo, r': Repo) {
    && r'.anc == r.anc && r'.tracking == r.tracking && r'.fetchHead == r.fetchHead && r'.originHead == r.originHead
    && r'.saved == r.saved && r'.marked == r.marked
    && r'.history.fetched == r.history.fetched && r'.history.made == r.history.made
  }

  /** The same commits and refs; HEAD, the tree and the operation markers may differ. */
  predicate SameRefs(r: Repo, r': Repo) {
    SameStore(r, r') && r'.local == r.local
  }

  predicate SameOps(r: Repo, r': Repo) {
    r'.ops == r.ops && r'.runs == r.runs && r'.local == r.local && r'.head == r.head
  }

  /** What an abort that works does to the operations in progress, the branches and HEAD. */
  predicate WentBack(r: Repo, r': Repo, cmd: Cmd)
    requires IsAbort(cmd)
  {
    && r'.ops == r.ops - {cmd.op} - ENDED_BY_COMMIT && r'.runs == r.runs - {cmd.op}
    && r'.local == LocalBack(r, cmd)
    && (cmd.op !in r.runs && cmd.op != Bisect ==> r'.head == r.head)
  }

  /** One abort: no new stray markers, and when it fails nothing but the tree changes. */
  predicate AbortedOrNot(r: Repo, r': Repo, cmd: Cmd, ok: bool)
    requires IsAbort(cmd)
  {
    && SameStore(r, r') && r'.tree.stray <= r.tree.stray
    && r'.history.aborts == r.history.aborts + [(cmd, ok)] && r'.history.left == r'.tree
    && (if ok then WentBack(r, r', cmd) else SameOps(r, r'))
  }

  lemma AbortEffect(r: Repo, cmd: Cmd, y: Reply)
    requires Wf(r) && IsAbort(cmd)
    ensures AbortedOrNot(r, Exec(r, cmd, y).0, cmd, Exec(r, cmd, y).1)
  {
    if Succeeds(r, cmd, y) {
      assert Possible(r, cmd, y);
      assert Done(r, cmd, y) == AbortedBy(r, cmd, y);
    } else {
      assert Undone(r, cmd, y) == AbortStopped(r, cmd, y);
    }
  }

  method TryAbort(co: Checkout, cmd: Cmd) returns (ok: bool)
    requires Wf(co.repo) && IsAbort(cmd)
    modifies co
    ensures co.place == old(co.place) && Wf(co.repo) && AbortedOrNot(old(co.repo), co.repo, cmd, ok)
    ensures co.log == old(co.log) + [(cmd, ok)]
  {
    AbortEffect(co.repo, cmd, NextReply(co.replies));
    ok := co.Git(cmd);
  }

  /** The spelling that can undo the operation as it stands. */
  function Spelling(r: Repo, op: Op): Cmd {
    if op == RebaseApply && !IsRebase(r, op) then AbortFallback(op) else Abort(op)
  }

  /**
   An abort that works may leave markers that were there before the operation, as `bisect reset` carries local
   changes along: for any operation and any such markers git may answer so.
   */
  lemma AbortMayKeepStray(r: Repo, op: Op) returns (y: Reply)
    requires Wf(r) && op in r.ops
    ensures var (r', ok) := Exec(r, Spelling(r, op), y);
            && ok && op !in r'.ops && r'.tree.stray == r.tree.stray
            && Dirt(r') == Dirt(r) && r'.tree.untracked == r.tree.untracked
  {
    var cmd := Spelling(r, op);
    var left := if r.ops - {op} - ENDED_BY_COMMIT == {} then {} else r.tree.conflicts;
    y := NO_REPLY.(ok := true, tree := r.tree.(conflicts := left), head := r.head);
    assert op == RebaseMerge ==> RunOk(r.anc, r.local.Keys, op, r.runs[op]);
    assert Accepts(r, cmd, y);
  }

  /**
   An abort takes commits off a branch for some answer of git exactly when it is one of a run of picks that HEAD is
   still at the end of, or of a rebase whose branch has been committed to since it began.
   */
  lemma AbortMayLose(r: Repo, cmd: Cmd)
    requires Wf(r) && IsAbort(cmd)
    ensures (exists y :: !Advances(r, Exec(r, cmd, y).0)) <==> Loses(r, cmd)
  {
    if Loses(r, cmd) {
      var y := LosingReply(r, cmd);
      assert !Advances(r, Exec(r, cmd, y).0);
    } else {
      forall y ensures Advances(r, Exec(r, cmd, y).0) {
        ExecOk(r, cmd, y);
      }
    }
  }

  lemma LosingReply(r: Repo, cmd: Cmd) returns (y: Reply)
    requires Wf(r) && IsAbort(cmd) && Loses(r, cmd)
    ensures !Advances(r, Exec(r, cmd, y).0)
  {
    var left := if r.ops - {cmd.op} - ENDED_BY_COMMIT == {} then {} else r.tree.conflicts;
    y := NO_REPLY.(ok := true, tree := r.tree.(conflicts := left), head := r.head);
    assert RunOk(r.anc, r.local.Keys, cmd.op, r.runs[cmd.op]);
    assert Possible(r, cmd, y) && Exec(r, cmd, y).0 == AbortedBy(r, cmd, y);
    AbortOk(r, cmd, y);
  }

  // ---------------------------------------------------------------- a list of aborts

  predicate GivenUp(tried: seq<(Cmd, bool)>) {
    exists x :: x in tried && GivesUp(x)
  }

  /** One note for each abort that worked, in their order. */
  function AbortNotes(tried: seq<(Cmd, bool)>): seq<Note> {
    if tried == [] then []
    else
      var (cmd, ok) := tried[|tried| - 1];
      AbortNotes(tried[..|tried| - 1]) + if ok && IsAbort(cmd) then [Aborted(cmd.op)] else []
  }

  /** Some of them worked, and took commits off a branch of r. */
  ghost predicate Lost(r: Repo, tried: seq<(Cmd, bool)>) {
    exists x :: x in tried && x.1 && Loses(r, x.0)
  }

  lemma NotesGrow(tried: seq<(Cmd, bool)>, more: seq<(Cmd, bool)>, op: Op, ok: bool)
    requires OneAbort(more, op, ok)
    ensures AbortNotes(tried + more) == AbortNotes(tried) + if ok then [Aborted(op)] else []
    ensures GivenUp(tried + more) <==> GivenUp(tried) || !ok
  {
    var all := tried + more;
    assert all[..|all| - 1] == tried + more[..|more| - 1];
    if |more| == 2 {
      var front := tried + [more[0]];
      assert all[..|all| - 1] == front && front[..|front| - 1] == tried;
    } else {
      assert all[..|all| - 1] == tried;
    }
    assert more[|more| - 1] in all && (!ok ==> GivesUp(more[|more| - 1]));
    assert forall x :: x in all <==> x in tried || x in more;
  }

  /** The attempts on one operation: the first spelling, and the second when there is one and the first failed. */
  predicate OneAbort(tried: seq<(Cmd, bool)>, op: Op, ok: bool) {
    || (tried == [(Abort(op), ok)] && (ok || !HasFallback(op)))
    || (tried == [(Abort(op), false), (AbortFallback(op), ok)] && HasFallback(op))
  }

  /** What the attempts on one operation do. */
  predicate Undid(r: Repo, r': Repo, op: Op, tried: seq<(Cmd, bool)>, ok: bool) {
    && OneAbort(tried, op, ok) && SameStore(r, r') && r'.tree.stray <= r.tree.stray
    && r'.history.aborts == r.history.aborts + tried && r'.history.left == r'.tree
    && (if ok then WentBack(r, r', tried[|tried| - 1].0) else SameOps(r, r'))
  }

  lemma UndidBySecond(r: Repo, r1: Repo, r2: Repo, op: Op, ok: bool)
    requires HasFallback(op) && AbortedOrNot(r, r1, Abort(op), false) && AbortedOrNot(r1, r2, AbortFallback(op), ok)
    ensures Undid(r, r2, op, [(Abort(op), false), (AbortFallback(op), ok)], ok)
  {
    assert Back(r1, AbortFallback(op)) == Back(r, AbortFallback(op));
    assert [(Abort(op), false)] + [(AbortFallback(op), ok)] == [(Abort(op), false), (AbortFallback(op), ok)];
  }

  /** Undoes one half-done operation, by its second spelling when it has one and the first fails. */
  method AbortOne(co: Checkout, op: Op) returns (ok: bool, ghost tried: seq<(Cmd, bool)>)
    requires Wf(co.repo)
    modifies co
    ensures co.place == old(co.place) && Wf(co.repo)
    ensures Undid(old(co.repo), co.repo, op, tried, ok) && co.log == old(co.log) + tried
    ensures !ok ==>
              tried == [(Abort(op), false)] + if op == Merge || op == RebaseApply then [(AbortFallback(op), false)] else []
  {
    ghost var r := co.repo;
    ok := TryAbort(co, Abort(op));
    tried := [(Abort(op), ok)];
    if !ok && HasFallback(op) {
      ghost var r1 := co.repo;
      ok := TryAbort(co, AbortFallback(op));
      UndidBySecond(r, r1, co.repo, op, ok);
      tried := [(Abort(op), false), (AbortFallback(op), ok)];
    }
  }

  // ---------------------------------------------------------------- the aborts so far, one aspect at a time

  /** Where a branch may be set back to: where a run of an operation in progress in r began. */
  ghost predicate BeganAt(r: Repo, b: Branch, c: Commit) {
    exists op :: op in r.ops && op in r.runs &&
                 match r.runs[op]
                 case Picking(start, _) => c == start
                 case Rebasing(from, tip) => from == On(b) && c == tip
  }

  /** Every branch is where it was, or where an operation that was in progress began. */
  ghost predicate SetBack(r: Repo, r': Repo) {
    && Grown(r, r') && r.local.Keys <= r'.local.Keys
    && forall b :: b in r.local ==> r'.local[b] == r.local[b] || BeganAt(r, b, r'.local[b])
  }

  predicate FewerOps(r0: Repo, r: Repo) {
    && r.ops <= r0.ops && (forall op :: op in r.runs ==> op in r0.runs && r.runs[op] == r0.runs[op])
    && r.local.Keys == r0.local.Keys && r.tree.stray <= r0.tree.stray
  }

  /** The aborts tried are recorded, and are of operations that were in progress. */
  ghost predicate TriedOnly(r0: Repo, r: Repo, tried: seq<(Cmd, bool)>) {
    && r.history.aborts == r0.history.aborts + tried
    && (if tried == [] then r == r0 else r.history.left == r.tree)
    && (forall x :: x in tried ==> IsAbort(x.0) && x.0.op in r0.ops && (x.0.AbortFallback? ==> HasFallback(x.0.op)))
    && (r.ops != r0.ops ==> exists x :: x in tried && x.1)
  }

  /** There is no rebase in both of git's two ways at once. */
  predicate OneRebase(r: Repo) {
    !(RebaseMerge in r.ops && RebaseApply in r.ops)
  }

  /** An abort that worked, of an operation that had made commits or left a branch. */
  predicate Took(r: Repo, x: (Cmd, bool)) {
    x.1 && IsAbort(x.0) && x.0.op in r.runs
  }

  /** The place of an operation in IN_PROGRESS_OPS. */
  function Turn(op: Op): nat {
    match op
    case Merge => 0
    case RebaseMerge => 1
    case RebaseApply => 2
    case CherryPick => 3
    case Revert => 4
    case Bisect => 5
  }

  lemma TurnIs(i: nat)
    requires i < |IN_PROGRESS_OPS|
    ensures forall op :: Turn(op) == i <==> op == IN_PROGRESS_OPS[i]
  {
  }

  /** At most one abort, `took`, has set branches, and no other will. */
  ghost predicate SetOnce(r0: Repo, r: Repo, tried: seq<(Cmd, bool)>, i: nat, took: Option<Cmd>) {
    && (forall x :: x in tried && Took(r0, x) ==> took == Some(x.0))
    && match took
       case None =>
         && r.local == r0.local && (i <= Turn(Bisect) ==> r.head == r0.head)
         && (forall op :: op in r.ops && op in r0.runs ==> op in r.runs)
       case Some(cmd) =>
         && (cmd, true) in tried && Took(r0, (cmd, true)) && r.local == LocalBack(r0, cmd)
         && (forall op :: op in r.ops && i <= Turn(op) ==> op !in r0.runs)
  }

  /** Phase C as a whole. */
  ghost predicate Aborting(r0: Repo, r: Repo, tried: seq<(Cmd, bool)>) {
    SameStore(r0, r) && FewerOps(r0, r) && TriedOnly(r0, r, tried) && KeepsGuarded(r0, r) && SetBack(r0, r)
  }



  lemma KeepsOne(r0: Repo, r: Repo, r': Repo, op: Op, more: seq<(Cmd, bool)>, ok: bool, b: Branch, c: Commit)
    requires Wf(r) && r.anc == r0.anc && FewerOps(r0, r) && op in r.ops && Undid(r, r', op, more, ok)
    requires b in r.local && c in r.anc[r.local[b]] && Guarded(r0, r0.ops, b, c)
    ensures b in r'.local && r'.local[b] in r'.anc && c in r'.anc[r'.local[b]]
  {
    if ok {
      assert Guarded(r, {op}, b, c);
      AbortSpares(r, more[|more| - 1].0, b, c);
    }
  }

  lemma KeepsStep(r0: Repo, r: Repo, r': Repo, op: Op, more: seq<(Cmd, bool)>, ok: bool)
    requires Wf(r0) && Wf(r) && Wf(r') && SameStore(r0, r) && FewerOps(r0, r) && FewerOps(r0, r') && KeepsGuarded(r0, r)
    requires op in r.ops && Undid(r, r', op, more, ok)
    ensures KeepsGuarded(r0, r')
  {
    forall b, c | b in r0.local && c in r0.anc[r0.local[b]] && Guarded(r0, r0.ops, b, c)
      ensures c in r'.anc[r'.local[b]]
    {
      KeepsOne(r0, r, r', op, more, ok, b, c);
    }
  }

  lemma SetBackStep(r0: Repo, r: Repo, r': Repo, op: Op, more: seq<(Cmd, bool)>, ok: bool)
    requires Wf(r0) && Wf(r) && SameStore(r0, r) && FewerOps(r0, r) && SetBack(r0, r)
    requires op in r.ops && Undid(r, r', op, more, ok)
    ensures SetBack(r0, r')
  {
    var cmd := more[|more| - 1].0;
    assert Back(r, cmd).Some? ==> BeganAt(r0, Back(r, cmd).value.0, Back(r, cmd).value.1);
  }

  lemma TriedStep(r0: Repo, r: Repo, r': Repo, op: Op, tried: seq<(Cmd, bool)>, more: seq<(Cmd, bool)>, ok: bool)
    requires Wf(r) && FewerOps(r0, r) && TriedOnly(r0, r, tried) && op in r.ops && Undid(r, r', op, more, ok)
    ensures TriedOnly(r0, r', tried + more)
  {
    assert r0.history.aborts + (tried + more) == (r0.history.aborts + tried) + more;
    assert forall x :: x in tried + more <==> x in tried || x in more;
    assert more[|more| - 1] in tried + more;
  }

  lemma FewerStep(r0: Repo, r: Repo, r': Repo, op: Op, more: seq<(Cmd, bool)>, ok: bool)
    requires Wf(r) && FewerOps(r0, r) && Undid(r, r', op, more, ok)
    ensures FewerOps(r0, r')
  {
    var cmd := more[|more| - 1].0;
    assert Back(r, cmd).Some? && cmd.op in r.runs ==> RunOk(r.anc, r.local.Keys, cmd.op, r.runs[cmd.op]);
    assert LocalBack(r, cmd).Keys == r.local.Keys;
  }

  lemma AbortingStep(r0: Repo, r: Repo, r': Repo, op: Op, tried: seq<(Cmd, bool)>, more: seq<(Cmd, bool)>, ok: bool)
    requires Wf(r0) && Wf(r) && Wf(r') && Aborting(r0, r, tried) && op in r.ops && Undid(r, r', op, more, ok)
    ensures Aborting(r0, r', tried + more)
  {
    FewerStep(r0, r, r', op, more, ok);
    KeepsStep(r0, r, r', op, more, ok);
    SetBackStep(r0, r, r', op, more, ok);
    TriedStep(r0, r, r', op, tried, more, ok);
  }

  lemma RunsAreOf(r: Repo)
    requires Wf(r)
    ensures forall op :: op in r.runs ==> op in {RebaseMerge, RebaseApply, CherryPick, Revert}
  {
    forall op | op in r.runs ensures op in {RebaseMerge, RebaseApply, CherryPick, Revert} {
      assert RunOk(r.anc, r.local.Keys, op, r.runs[op]);
    }
  }

  lemma LastRunGone(r0: Repo, r: Repo, r': Repo, cmd: Cmd, i: nat)
    requires Wf(r0) && OneRebase(r0) && FewerOps(r0, r) && i < |IN_PROGRESS_OPS| && IsAbort(cmd)
    requires cmd.op == IN_PROGRESS_OPS[i] && cmd.op in r.ops && cmd.op in r0.runs && WentBack(r, r', cmd)
    ensures forall op :: op in r'.ops && i < Turn(op) ==> op !in r0.runs
  {
    RunsAreOf(r0);
    TurnIs(i);
  }

  lemma SameBack(r0: Repo, r: Repo, cmd: Cmd)
    requires IsAbort(cmd) && cmd.op in r0.runs && cmd.op in r.runs && r.runs[cmd.op] == r0.runs[cmd.op]
    requires r.local == r0.local && r.head == r0.head
    ensures LocalBack(r, cmd) == LocalBack(r0, cmd)
  {
  }

  /** The one that takes: HEAD and the runs are still as they were. */
  lemma SetOnceNow(r0: Repo, r: Repo, r': Repo, i: nat, tried: seq<(Cmd, bool)>, more: seq<(Cmd, bool)>)
    requires Wf(r0) && OneRebase(r0) && FewerOps(r0, r) && i < |IN_PROGRESS_OPS| && r.anc == r0.anc
    requires IN_PROGRESS_OPS[i] in r.ops && IN_PROGRESS_OPS[i] in r0.runs
    requires SetOnce(r0, r, tried, i, None) && Undid(r, r', IN_PROGRESS_OPS[i], more, true)
    ensures SetOnce(r0, r', tried + more, i + 1, Some(more[|more| - 1].0))
  {
    var op, last := IN_PROGRESS_OPS[i], more[|more| - 1];
    TurnIs(i);
    RunsAreOf(r0);
    SameBack(r0, r, last.0);
    LastRunGone(r0, r, r', last.0, i);
    assert last in tried + more;
    assert forall x :: x in tried + more <==> x in tried || x in more;
  }

  lemma SetOnceStep(r0: Repo, r: Repo, r': Repo, i: nat, tried: seq<(Cmd, bool)>, more: seq<(Cmd, bool)>, ok: bool,
                    took: Option<Cmd>)
    requires Wf(r0) && OneRebase(r0) && FewerOps(r0, r) && i < |IN_PROGRESS_OPS|
    requires IN_PROGRESS_OPS[i] in r.ops && SetOnce(r0, r, tried, i, took) && Undid(r, r', IN_PROGRESS_OPS[i], more, ok)
    requires !ok || IN_PROGRESS_OPS[i] !in r0.runs
    ensures SetOnce(r0, r', tried + more, i + 1, took)
  {
    TurnIs(i);
    assert forall x :: x in tried + more <==> x in tried || x in more;
  }

  /** Short of two rebases at once, branches lose commits exactly when an abort that worked takes some. */
  lemma LossIsExact(r0: Repo, r: Repo, tried: seq<(Cmd, bool)>, i: nat, took: Option<Cmd>)
    requires Wf(r0) && Wf(r) && SameStore(r0, r) && SetOnce(r0, r, tried, i, took)
    ensures Advances(r0, r) <==> !Lost(r0, tried)
  {
    match took
    case None =>
      assert forall x :: x in tried && x.1 && Loses(r0, x.0) ==> Took(r0, x);
    case Some(cmd) =>
      assert forall x :: x in tried && x.1 && Loses(r0, x.0) ==> Took(r0, x);
      assert Lost(r0, tried) <==> Loses(r0, cmd);
      var back := Back(r0, cmd);
      assert back.Some? ==> RunOk(r0.anc, r0.local.Keys, cmd.op, r0.runs[cmd.op]);
  }

  /** Every spelling that undoes the operation was tried, and refused. */
  predicate Refused(tried: seq<(Cmd, bool)>, op: Op) {
    && (Abort(op), false) in tried
    && (op == Merge || op == RebaseApply ==> (AbortFallback(op), false) in tried)
  }

  lemma RefusedGivesUp(tried: seq<(Cmd, bool)>, op: Op)
    requires Refused(tried, op)
    ensures GivenUp(tried)
  {
    var x := if HasFallback(op) then (AbortFallback(op), false) else (Abort(op), false);
    assert x in tried && GivesUp(x);
  }

  /** Of the operations looked at, the first i, those still in progress were refused. */
  ghost predicate RestRefused(ops: set<Op>, tried: seq<(Cmd, bool)>, i: nat) {
    forall op :: op in ops && Turn(op) < i ==> Refused(tried, op)
  }

  lemma RestStep(ops: set<Op>, ops': set<Op>, tried: seq<(Cmd, bool)>, more: seq<(Cmd, bool)>, i: nat, ok: bool)
    requires RestRefused(ops, tried, i) && ops' <= ops && i < |IN_PROGRESS_OPS|
    requires if ok then IN_PROGRESS_OPS[i] !in ops' else Refused(more, IN_PROGRESS_OPS[i])
    ensures RestRefused(ops', tried + more, i + 1)
  {
    TurnIs(i);
    assert forall x :: x in tried + more <==> x in tried || x in more;
  }

  /** Phase C when i operations have been looked at. */
  ghost predicate PhaseC(r0: Repo, r: Repo, tried: seq<(Cmd, bool)>, notes: seq<Note>, failed: bool, i: nat,
                         took: Option<Cmd>) {
    && Aborting(r0, r, tried) && notes == AbortNotes(tried) && (failed <==> GivenUp(tried))
    && RestRefused(r.ops, tried, i)
    && (OneRebase(r0) ==> SetOnce(r0, r, tried, i, took))
  }

  lemma PhaseCStep(r0: Repo, r: Repo, r': Repo, tried: seq<(Cmd, bool)>, more: seq<(Cmd, bool)>, notes: seq<Note>,
                   failed: bool, ok: bool, i: nat, took: Option<Cmd>) returns (took': Option<Cmd>)
    requires Wf(r0) && Wf(r) && Wf(r') && i < |IN_PROGRESS_OPS| && PhaseC(r0, r, tried, notes, failed, i, took)
    requires IN_PROGRESS_OPS[i] in r.ops && Undid(r, r', IN_PROGRESS_OPS[i], more, ok)
    requires !ok ==> Refused(more, IN_PROGRESS_OPS[i])
    ensures PhaseC(r0, r', tried + more, if ok then notes + [Aborted(IN_PROGRESS_OPS[i])] else notes, failed || !ok,
                   i + 1, took')
  {
    var op := IN_PROGRESS_OPS[i];
    TurnIs(i);
    AbortingStep(r0, r, r', op, tried, more, ok);
    NotesGrow(tried, more, op, ok);
    RestStep(r.ops, r'.ops, tried, more, i, ok);
    took' := took;
    if OneRebase(r0) {
      if ok && op in r0.runs {
        assert took.None?;
        took' := Some(more[|more| - 1].0);
        SetOnceNow(r0, r, r', i, tried, more);
      } else {
        SetOnceStep(r0, r, r', i, tried, more, ok, took);
      }
    }
  }

  lemma PhaseCSkip(r0: Repo, r: Repo, tried: seq<(Cmd, bool)>, notes: seq<Note>, failed: bool, i: nat, took: Option<Cmd>)
    requires i < |IN_PROGRESS_OPS| && PhaseC(r0, r, tried, notes, failed, i, took) && IN_PROGRESS_OPS[i] !in r.ops
    ensures PhaseC(r0, r, tried, notes, failed, i + 1, took)
  {
    TurnIs(i);
  }

  lemma PhaseCStart(r: Repo)
    requires Wf(r)
    ensures PhaseC(r, r, [], [], false, 0, None)
  {
    assert r.history.aborts == r.history.aborts + [];
  }

  lemma Joined(start: seq<(Cmd, bool)>, tried: seq<(Cmd, bool)>, more: seq<(Cmd, bool)>)
    ensures (start + tried) + more == start + (tried + more)
  {
  }

  /** One operation that was found half done. */
  method AbortFound(co: Checkout, i: nat, ghost r0: Repo, ghost tried: seq<(Cmd, bool)>, notes: seq<Note>, failed: bool,
                    ghost took: Option<Cmd>)
    returns (ok: bool, ghost more: seq<(Cmd, bool)>, ghost took': Option<Cmd>)
    requires Wf(r0) && Wf(co.repo) && i < |IN_PROGRESS_OPS| && PhaseC(r0, co.repo, tried, notes, failed, i, took)
    requires IN_PROGRESS_OPS[i] in co.repo.ops
    modifies co
    ensures co.place == old(co.place) && Wf(co.repo)
    ensures co.log == old(co.log) + more
    ensures PhaseC(r0, co.repo, tried + more, if ok then notes + [Aborted(IN_PROGRESS_OPS[i])] else notes, failed || !ok,
                   i + 1, took')
  {
    ghost var r := co.repo;
    ok, more := AbortOne(co, IN_PROGRESS_OPS[i]);
    took' := PhaseCStep(r0, r, co.repo, tried, more, notes, failed, ok, i, took);
  }

  /** Every abort tried is of an operation that was in progress, and when there was one, one worked or was given up. */
  ghost predicate Attempted(r: Repo, tried: seq<(Cmd, bool)>) {
    && (forall x :: x in tried ==> IsAbort(x.0) && x.0.op in r.ops && (x.0.AbortFallback? ==> HasFallback(x.0.op)))
    && (r.ops != {} ==> GivenUp(tried) || exists x :: x in tried && x.1)
  }

  /**
   What phase C comes to: `failed` means that an operation was given up, and whatever is left was refused. Short of two
   rebases at once, branches lose commits exactly as `Lost` says.
   */
  ghost predicate Cleared(r0: Repo, r: Repo, tried: seq<(Cmd, bool)>, failed: bool) {
    && Aborting(r0, r, tried) && (failed <==> GivenUp(tried)) && (!failed ==> r.ops == {})
    && (tried == [] <==> r0.ops == {}) && Attempted(r0, tried) && (forall op :: op in r.ops ==> Refused(tried, op))
    && (OneRebase(r0) ==> (Advances(r0, r) <==> !Lost(r0, tried)))
  }

  /**
   Phase C: only aborts are run, each for an operation found in progress, and there is a note for each one undone.
   */
  method AbortInProgress(co: Checkout) returns (notes: seq<Note>, failed: bool, ghost tried: seq<(Cmd, bool)>)
    requires Wf(co.repo)
    modifies co
    ensures co.place == old(co.place) && Wf(co.repo) && co.log == old(co.log) + tried
    ensures Cleared(old(co.repo), co.repo, tried, failed) && notes == AbortNotes(tried)
  {
    notes, failed, tried := [], false, [];
    var i := 0;
    ghost var r0, log0, took := co.repo, co.log, None;
    PhaseCStart(r0);
    while i < |IN_PROGRESS_OPS|
      invariant 0 <= i <= |IN_PROGRESS_OPS|
      invariant co.place == old(co.place) && Wf(co.repo) && co.log == log0 + tried
      invariant PhaseC(r0, co.repo, tried, notes, failed, i, took)
    {
      var op := IN_PROGRESS_OPS[i];
      if op in co.repo.ops {
        var ok;
        ghost var more;
        ok, more, took := AbortFound(co, i, r0, tried, notes, failed, took);
        Joined(log0, tried, more);
        tried := tried + more;
        notes := if ok then notes + [Aborted(op)] else notes;
        failed := failed || !ok;
      } else {
        PhaseCSkip(r0, co.repo, tried, notes, failed, i, took);
      }
      i := i + 1;
    }
    PhaseCEnd(r0, co.repo, tried, notes, failed, took);
  }

  lemma AllAttempted(r0: Repo, r: Repo, tried: seq<(Cmd, bool)>)
    requires TriedOnly(r0, r, tried) && (GivenUp(tried) || r.ops == {})
    ensures Attempted(r0, tried) && (tried == [] <==> r0.ops == {})
  {
    if tried != [] {
      assert tried[0] in tried;
    }
  }

  lemma PhaseCEnd(r0: Repo, r: Repo, tried: seq<(Cmd, bool)>, notes: seq<Note>, failed: bool, took: Option<Cmd>)
    requires Wf(r0) && Wf(r) && PhaseC(r0, r, tried, notes, failed, |IN_PROGRESS_OPS|, took)
    ensures Cleared(r0, r, tried, failed) && notes == AbortNotes(tried)
  {
    forall op | op in r.ops ensures Refused(tried, op) {
      assert Turn(op) < |IN_PROGRESS_OPS|;
    }
    if op :| op in r.ops {
      RefusedGivesUp(tried, op);
    }
    AllAttempted(r0, r, tried);
    if OneRebase(r0) {
      LossIsExact(r0, r, tried, |IN_PROGRESS_OPS|, took);
    }
  }
}
