/**
 Boots on one checkout, with sessions between them (internal/bootstrap/resume.go): what earlier rescues put on
 their branches stays there, and what a boot makes of a run of picks that a session died in.
 */
module Boots {
  import opened Wrappers
  import opened Git
  import opened Aborts
  import opened Resume

  // ---------------------------------------------------------------- sessions

  /** What a session's commands make of a checkout, for the answers they get. */
  ghost function Play(r: Repo, cmds: seq<Cmd>, answers: seq<Reply>): (r': Repo)
    requires Wf(r) && |answers| == |cmds|
    ensures Wf(r')
  {
    if cmds == [] then r
    else
      var before := Play(r, cmds[..|cmds| - 1], answers[..|cmds| - 1]);
      ExecOk(before, cmds[|cmds| - 1], answers[|cmds| - 1]);
      Exec(before, cmds[|cmds| - 1], answers[|cmds| - 1]).0
  }

  ghost predicate Played(r: Repo, cmds: seq<Cmd>, r': Repo) {
    Wf(r) && exists answers: seq<Reply> :: |answers| == |cmds| && Play(r, cmds, answers) == r'
  }

  method Session(co: Checkout, cmds: seq<Cmd>)
    requires Wf(co.repo)
    modifies co
    ensures Wf(co.repo) && Played(old(co.repo), cmds, co.repo) && co.place == old(co.place)
  {
    var i := 0;
    ghost var r, answers: seq<Reply> := co.repo, [];
    while i < |cmds|
      invariant 0 <= i <= |cmds| && Wf(co.repo) && co.place == old(co.place)
      invariant |answers| == i && co.repo == Play(r, cmds[..i], answers)
    {
      ghost var y := NextReply(co.replies);
      var _ := co.Git(cmds[i]);
      assert cmds[..i + 1][..i] == cmds[..i] && (answers + [y])[..i] == answers;
      answers := answers + [y];
      i := i + 1;
    }
    assert cmds[..i] == cmds;
  }

  // ---------------------------------------------------------------- what is kept

  /** Each rescue is still on the branch it was put on, nothing in progress can take it off, and no two share one. */
  ghost predicate StillKept(r: Repo, kept: seq<Requirement>) {
    && (forall i :: 0 <= i < |kept| ==> IsRescueName(kept[i].branch) && Held(r, kept[i].branch, kept[i].commit))
    && (forall i, j :: 0 <= i < j < |kept| ==> kept[i].branch != kept[j].branch)
  }

  /** No command is a forced checkout of a rescue branch. */
  ghost predicate SparesRescues(cmds: seq<Cmd>) {
    forall i :: 0 <= i < |cmds| ==> cmds[i].CheckoutFetched? ==> !IsRescueName(cmds[i].branch)
  }

  lemma {:induction false} KeptByPlay(r: Repo, cmds: seq<Cmd>, answers: seq<Reply>, kept: seq<Requirement>)
    requires Wf(r) && |answers| == |cmds| && SparesRescues(cmds) && StillKept(r, kept)
    ensures StillKept(Play(r, cmds, answers), kept)
  {
    if cmds != [] {
      var n := |cmds| - 1;
      KeptByPlay(r, cmds[..n], answers[..n], kept);
      var before := Play(r, cmds[..n], answers[..n]);
      forall i | 0 <= i < |kept|
        ensures Held(Exec(before, cmds[n], answers[n]).0, kept[i].branch, kept[i].commit)
      {
        StaysHeld(before, cmds[n], answers[n], kept[i].branch, kept[i].commit);
      }
    }
  }

  lemma KeptBySession(r: Repo, cmds: seq<Cmd>, r': Repo, kept: seq<Requirement>)
    requires Played(r, cmds, r') && SparesRescues(cmds) && StillKept(r, kept)
    ensures StillKept(r', kept)
  {
    var answers: seq<Reply> :| |answers| == |cmds| && Play(r, cmds, answers) == r';
    KeptByPlay(r, cmds, answers, kept);
  }

  lemma FewerRunsSpare(r: Repo, r': Repo, b: Branch, c: Commit)
    requires Wf(r) && BranchesKept(r, r') && Guarded(r, r.runs.Keys, b, c)
    ensures Guarded(r', r'.runs.Keys, b, c)
  {
    forall op | op in r'.runs ensures Spares(r'.anc, r'.runs[op], b, c) {
      assert RunOk(r.anc, r.local.Keys, op, r.runs[op]) && Spares(r.anc, r.runs[op], b, c);
    }
  }

  /** A rescue that an earlier boot made. */
  lemma HeldByBoot(r: Repo, r': Repo, b: Branch, c: Commit)
    requires Wf(r) && BranchesKept(r, r') && Held(r, b, c)
    ensures Held(r', b, c)
  {
    assert Guarded(r, r.ops, b, c);
    FewerRunsSpare(r, r', b, c);
  }

  /** A rescue that this boot made: no run that was going can know its commit. */
  lemma HeldFromBoot(r: Repo, r': Repo, q: Requirement)
    requires Wf(r) && Wf(r') && BranchesKept(r, r') && PutOnNewBranch(r, r', [q])
    ensures Held(r', q.branch, q.commit)
  {
    forall op | op in r'.runs ensures Spares(r'.anc, r'.runs[op], q.branch, q.commit) {
      assert RunOk(r.anc, r.local.Keys, op, r.runs[op]);
    }
  }

  lemma OldKeptByBoot(r: Repo, r': Repo, kept: seq<Requirement>)
    requires Wf(r) && StillKept(r, kept) && BranchesKept(r, r')
    ensures StillKept(r', kept) && forall i :: 0 <= i < |kept| ==> kept[i].branch in r.local
  {
    forall i | 0 <= i < |kept| ensures Held(r', kept[i].branch, kept[i].commit) {
      HeldByBoot(r, r', kept[i].branch, kept[i].commit);
    }
  }

  lemma KeptByBoot(r: Repo, r': Repo, kept: seq<Requirement>, required: seq<Requirement>)
    requires Wf(r) && Wf(r') && StillKept(r, kept) && BranchesKept(r, r') && PutOnNewBranch(r, r', required)
    ensures StillKept(r', kept + required)
  {
    OldKeptByBoot(r, r', kept);
    if required == [] {
      assert kept + required == kept;
    } else {
      assert required == [required[0]];
      HeldFromBoot(r, r', required[0]);
    }
  }

  // ---------------------------------------------------------------- boot after boot

  /** The state after the last boot and the session that followed. */
  ghost predicate Reached(turns: seq<(Repo, Repo)>, sessions: seq<seq<Cmd>>, start: Repo, r: Repo)
    requires |turns| <= |sessions|
  {
    if turns == [] then r == start else Played(turns[|turns| - 1].1, sessions[|turns| - 1], r)
  }

  /** The repository before and after each boot, with the sessions in between. */
  ghost predicate Chain(turns: seq<(Repo, Repo)>, sessions: seq<seq<Cmd>>, start: Repo) {
    turns == [] ||
    (var (front, (before, after)) := (turns[..|turns| - 1], turns[|turns| - 1]);
     && |turns| <= |sessions| && Chain(front, sessions, start)
     && Reached(front, sessions, start, before) && Wf(before) && BranchesKept(before, after))
  }

  /** Every commit that some boot made over an operation it could not abort, and the branch it made it on. */
  function RescuesIn(turns: seq<(Repo, Repo)>): seq<Requirement> {
    if turns == [] then []
    else
      var (before, after) := turns[|turns| - 1];
      RescuesIn(turns[..|turns| - 1]) + MustLook(before, after)
  }

  method Boot(co: Checkout, big: seq<Path>) returns (required: seq<Requirement>)
    requires Wf(co.repo)
    modifies co
    ensures Wf(co.repo) && BranchesKept(old(co.repo), co.repo)
    ensures required == MustLook(old(co.repo), co.repo) && PutOnNewBranch(old(co.repo), co.repo, required)
  {
    var prep, _ := PrepareWorkspace(co, big);
    required := prep.required;
  }

  lemma ChainGrows(turns: seq<(Repo, Repo)>, sessions: seq<seq<Cmd>>, start: Repo, r: Repo, r': Repo)
    requires Chain(turns, sessions, start) && |turns| < |sessions| && Reached(turns, sessions, start, r)
    requires Wf(r) && BranchesKept(r, r')
    ensures Chain(turns + [(r, r')], sessions, start)
    ensures RescuesIn(turns + [(r, r')]) == RescuesIn(turns) + MustLook(r, r')
  {
    assert (turns + [(r, r')])[..|turns|] == turns;
  }

  /** One more boot, and the session that follows unless the checkout was wiped. */
  method OneMore(co: Checkout, big: seq<Path>, sessions: seq<seq<Cmd>>, k: nat, ghost start: Repo,
                 kept: seq<Requirement>, ghost turns: seq<(Repo, Repo)>)
    returns (kept': seq<Requirement>, ghost turns': seq<(Repo, Repo)>)
    requires Wf(co.repo) && |turns| == k < |sessions| && SparesRescues(sessions[k])
    requires Chain(turns, sessions, start) && Reached(turns, sessions, start, co.repo) && StillKept(co.repo, kept)
    modifies co
    ensures Wf(co.repo) && |turns'| == |turns| + 1 && Chain(turns', sessions, start)
    ensures kept == RescuesIn(turns) ==> kept' == RescuesIn(turns')
    ensures co.place.There? ==> Reached(turns', sessions, start, co.repo) && StillKept(co.repo, kept')
  {
    ghost var r1 := co.repo;
    var required := Boot(co, big);
    ghost var r2 := co.repo;
    KeptByBoot(r1, r2, kept, required);
    ChainGrows(turns, sessions, start, r1, r2);
    turns', kept' := turns + [(r1, r2)], kept + required;
    if co.place.There? {
      Session(co, sessions[k]);
      KeptBySession(r2, sessions[k], co.repo, kept');
    }
  }

  /**
   Any number of boots with any sessions between them: what the boots report is every rescue they made, each is still
   on its branch at the end, and none took the branch of an earlier one. It ends early when the checkout is wiped.
   */
  method BootAfterBoot(co: Checkout, bigs: seq<seq<Path>>, sessions: seq<seq<Cmd>>)
    returns (kept: seq<Requirement>, ghost turns: seq<(Repo, Repo)>)
    requires Wf(co.repo) && |sessions| == |bigs| && forall k :: 0 <= k < |sessions| ==> SparesRescues(sessions[k])
    modifies co
    ensures Wf(co.repo) && Chain(turns, sessions, old(co.repo)) && kept == RescuesIn(turns)
    ensures co.place.There? ==> |turns| == |bigs| && Reached(turns, sessions, old(co.repo), co.repo)
    ensures co.place.There? ==> StillKept(co.repo, kept)
  {
    kept, turns := [], [];
    ghost var r0 := co.repo;
    var k := 0;
    while k < |bigs| && co.place.There?
      invariant 0 <= k <= |bigs| && |turns| == k && Wf(co.repo)
      invariant Chain(turns, sessions, r0) && kept == RescuesIn(turns)
      invariant co.place.There? ==> Reached(turns, sessions, r0, co.repo) && StillKept(co.repo, kept)
    {
      kept, turns := OneMore(co, bigs[k], sessions, k, r0, kept, turns);
      k := k + 1;
    }
  }

  // ---------------------------------------------------------------- a session that dies in a run of picks

  /** A run of picks from a branch, and HEAD at the end of it. */
  lemma PicksAreTaken(r: Repo, op: Op, y: Reply)
    requires Wf(r) && r.head.On? && r.ops == {} && op in {CherryPick, Revert}
    requires MayBegin(r, op, y) && y.commit in y.objects
    ensures var r' := Begun(r, op, y); r'.ops == {op} && Loses(r', Abort(op))
  {
    var r1, r', b := Recorded(r, op, y), Begun(r, op, y), r.head.branch;
    TipIsOld(r);
    assert r1.ops == {op} && r1.runs[op] == Picking(Tip(r), y.commit) && r1.anc[Tip(r)] == r.anc[Tip(r)];
    assert r' == r1.(local := r.local[b := y.commit]);
    assert Back(r', Abort(op)) == Some((b, Tip(r)));
  }

  lemma TipIsOld(r: Repo)
    requires Wf(r)
    ensures Tip(r) in r.anc && r.anc[Tip(r)] <= r.anc.Keys
  {
  }

  method StopPartWay(co: Checkout, op: Op)
    requires Wf(co.repo) && MayBegin(co.repo, op, NextReply(co.replies))
    modifies co
    ensures Wf(co.repo) && co.repo == Begun(old(co.repo), op, NextReply(old(co.replies))) && co.place == old(co.place)
  {
    BeginEffect(co.repo, op, NextReply(co.replies));
    var _ := co.Git(Begin(op));
  }

  lemma BeginEffect(r: Repo, op: Op, y: Reply)
    requires Wf(r) && MayBegin(r, op, y)
    ensures Exec(r, Begin(op), y).0 == Begun(r, op, y)
  {
    var cmd := Begin(op);
    assert !Succeeds(r, cmd, y);
    assert Undone(r, cmd, y) == Begun(r, op, y);
  }

  lemma OneTried(r: Repo, op: Op, tried: seq<(Cmd, bool)>)
    requires r.ops == {op} && !HasFallback(op) && Attempted(r, tried) && !GivenUp(tried)
    ensures (Abort(op), true) in tried
  {
    var x :| x in tried && x.1;
    assert x == (Abort(op), true);
  }

  lemma PicksAreLost(r: Repo, r': Repo, op: Op)
    requires r.ops == {op} && !HasFallback(op) && Loses(r, Abort(op)) && BranchesKept(r, r')
    requires Attempted(r, AbortsSince(r, r')) && !GivenUp(AbortsSince(r, r'))
    ensures !Advances(r, r')
  {
    OneTried(r, op, AbortsSince(r, r'));
    assert Lost(r, AbortsSince(r, r'));
  }

  /**
   `git cherry-pick` or `git revert` of several commits stops after some of them, the session dies, and the pod boots
   again. Unless the abort is given up, the branch loses the commits already picked: `picked` is the repository as the
   session left it.
   */
  method BootOverPicks(co: Checkout, op: Op, big: seq<Path>) returns (prep: Prep, failed: bool, ghost picked: Repo)
    requires Wf(co.repo) && co.place.There? && co.repo.head.On? && co.repo.ops == {}
    requires op in {CherryPick, Revert} && MayBegin(co.repo, op, NextReply(co.replies))
    requires NextReply(co.replies).commit in NextReply(co.replies).objects
    modifies co
    ensures Wf(co.repo) && picked == Begun(old(co.repo), op, NextReply(old(co.replies)))
    ensures !ProbeFailed(co.log) && !GivenUp(AbortsSince(picked, co.repo)) ==> !Advances(picked, co.repo)
  {
    PicksAreTaken(co.repo, op, NextReply(co.replies));
    StopPartWay(co, op);
    picked := co.repo;
    prep, failed := PrepareWorkspace(co, big);
    if !ProbeFailed(co.log) && !GivenUp(AbortsSince(picked, co.repo)) {
      PicksAreLost(picked, co.repo, op);
    }
  }
}
