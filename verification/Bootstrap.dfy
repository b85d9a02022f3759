/**
 Checking out the task branch and reconciling it, first with its own remote counterpart and then with the
 base branch (internal/bootstrap/bootstrap.go), and the boot of one repository as a whole.
 */
module Bootstrap {
  import opened Wrappers
  import opened Git
  import opened Aborts
  import opened Resume

  /** How the branch stands against its own remote counterpart; `Unknown` is the empty string. */
  datatype LocalResult = Unknown | LocalOnly | LocalAhead | RemoteAhead | LocalRemoteMerged | LocalRemoteConflict

  datatype BaseResult = NoResult | UpToDate | MergedBase | Conflict | FetchFail | BaseUnresolved

  // ---------------------------------------------------------------- which commands ran

  type Log = seq<(Cmd, bool)>

  /** These commands ran, in this order, whatever came of them. */
  predicate Ran(before: Log, after: Log, cmds: seq<Cmd>) {
    && |after| == |before| + |cmds| && before <= after
    && forall i :: 0 <= i < |cmds| ==> after[|before| + i].0 == cmds[i]
  }

  lemma RanTrans(a: Log, b: Log, c: Log, xs: seq<Cmd>, ys: seq<Cmd>)
    requires Ran(a, b, xs) && Ran(b, c, ys)
    ensures Ran(a, c, xs + ys)
  {
    forall i | 0 <= i < |xs + ys| ensures c[|a| + i].0 == (xs + ys)[i] {
      if i < |xs| {
        assert c[|a| + i] == b[|a| + i];
      } else {
        assert c[|b| + (i - |xs|)].0 == ys[i - |xs|];
      }
    }
  }

  /** The run ended with a command of `cmds` that failed. */
  predicate FailedAt(before: Log, after: Log, cmds: set<Cmd>) {
    |before| < |after| && before <= after && after[|after| - 1].0 in cmds && !after[|after| - 1].1
  }

  function Unshallow(fullClone: bool): seq<Cmd> {
    if fullClone then [] else [FetchUnshallow]
  }

  /** What the reconcile with the remote branch asked and did for each result. */
  predicate RemoteRun(before: Log, after: Log, res: LocalResult) {
    match res
    case LocalAhead => after == before + [(FetchedInHead, true)]
    case RemoteAhead => after == before + [(FetchedInHead, false), (HeadInFetched, true), (MergeFastForward, true)]
    case LocalRemoteMerged => after == before + [(FetchedInHead, false), (HeadInFetched, false), (MergeFetched, true)]
    case LocalRemoteConflict =>
      || after == before + [(FetchedInHead, false), (HeadInFetched, true), (MergeFastForward, false)]
      || (after != [] && after == before + [(FetchedInHead, false), (HeadInFetched, false), (MergeFetched, false),
                                            (Abort(Merge), after[|after| - 1].1)])
    case _ => false
  }

  /** The commands that find the base tip when they all work. */
  function Fetching(base: Branch): Log {
    [(FetchOrigin, true)] + if base == "" then [(SetHeadAuto, true)] else []
  }

  /** What the reconcile with the base asked and did for each result. */
  predicate BaseRun(before: Log, after: Log, base: Branch, res: BaseResult) {
    var fetched := before + Fetching(base);
    match res
    case FetchFail => after == before + [(FetchOrigin, false)]
    case BaseUnresolved => base == "" && after == before + [(FetchOrigin, true)] + [(SetHeadAuto, false)]
    case UpToDate => after == fetched + [(BaseInHead(base), true)]
    case MergedBase => after == fetched + [(BaseInHead(base), false), (MergeBase(base), true)]
    case Conflict =>
      after != [] && after == fetched + [(BaseInHead(base), false), (MergeBase(base), false),
                                         (Abort(Merge), after[|after| - 1].1)]
    case NoResult => false
  }

  // ---------------------------------------------------------------- what goes into the report

  /** Nothing was committed from the index, and no operation but a merge aborted. */
  ghost predicate Untold(r: Repo, r': Repo) {
    && r'.history.made == r.history.made && r.history.aborts <= r'.history.aborts
    && forall k :: |r.history.aborts| <= k < |r'.history.aborts| ==> r'.history.aborts[k].0 == Abort(Merge)
  }

  /** And no branch was fetched by name. */
  ghost predicate Unfetched(r: Repo, r': Repo) {
    Untold(r, r') && r'.history.fetched == r.history.fetched
  }

  // ---------------------------------------------------------------- single commands

  /** A fetch keeps HEAD, the tree and every local branch, and only adds commits. */
  ghost predicate Fetched(r: Repo, r': Repo) {
    && Grown(r, r') && r'.local == r.local && r'.head == r.head && r'.tree == r.tree
    && Tip(r') == Tip(r) && r'.originHead == r.originHead && Untold(r, r')
  }

  lemma FetchedOk(r: Repo, cmd: Cmd, y: Reply)
    requires Wf(r) && Fetches(cmd) && FetchPossible(r, y)
    ensures Fetched(r, Done(r, cmd, y))
    ensures Done(r, cmd, y).fetchHead == Some(y.commit)
    ensures Done(r, cmd, y).history.fetched ==
            if cmd.FetchBranch? then r.history.fetched + [(cmd.branch, y.commit)] else r.history.fetched
  {
    assert Done(r, cmd, y).anc == r.anc + y.objects;
  }

  lemma FetchEffect(r: Repo, cmd: Cmd, y: Reply)
    requires Wf(r) && Fetches(cmd)
    ensures Fetched(r, Exec(r, cmd, y).0)
    ensures Exec(r, cmd, y).1 && cmd.FetchBranch? ==> Exec(r, cmd, y).0.fetchHead == Some(y.commit)
    ensures Exec(r, cmd, y).0.history.fetched ==
            if Exec(r, cmd, y).1 && cmd.FetchBranch? then r.history.fetched + [(cmd.branch, y.commit)] else r.history.fetched
  {
    if Succeeds(r, cmd, y) {
      FetchedOk(r, cmd, y);
    }
  }

  method Fetch(co: Checkout, cmd: Cmd) returns (ok: bool)
    requires Wf(co.repo) && Fetches(cmd)
    modifies co
    ensures Wf(co.repo) && co.place == old(co.place)
    ensures Fetched(old(co.repo), co.repo)
    ensures ok && cmd.FetchBranch? ==> co.repo.fetchHead.Some?
    ensures co.repo.history.fetched ==
            if ok && cmd.FetchBranch? then old(co.repo).history.fetched + [(cmd.branch, co.repo.fetchHead.value)]
            else old(co.repo).history.fetched
    ensures !ok ==> co.repo == old(co.repo)
    ensures co.log == old(co.log) + [(cmd, ok)]
  {
    FetchEffect(co.repo, cmd, NextReply(co.replies));
    ok := co.Git(cmd);
  }

  predicate Asks(cmd: Cmd) {
    cmd.VerifyLocal? || cmd.LsRemote? || cmd.FetchedInHead? || cmd.HeadInFetched? || cmd.BaseInHead?
  }

  lemma AskEffect(r: Repo, cmd: Cmd, y: Reply)
    requires Wf(r) && Asks(cmd)
    ensures Exec(r, cmd, y).0 == r
    ensures cmd.VerifyLocal? ==> (Exec(r, cmd, y).1 <==> cmd.branch in r.local)
    ensures Exec(r, cmd, y).1 && !cmd.VerifyLocal? ==> Possible(r, cmd, y)
  {
  }

  /** A question: ls-remote may answer anything, the rest is never wrong when it says yes. */
  method Ask(co: Checkout, cmd: Cmd) returns (ok: bool)
    requires Wf(co.repo) && Asks(cmd)
    modifies co
    ensures co.repo == old(co.repo) && co.place == old(co.place)
    ensures cmd.VerifyLocal? ==> (ok <==> cmd.branch in co.repo.local)
    ensures ok && cmd.FetchedInHead? ==> co.repo.fetchHead.Some? && co.repo.fetchHead.value in InHead(co.repo)
    ensures ok && cmd.BaseInHead? ==> BaseTip(co.repo, cmd.base).Some? && BaseTip(co.repo, cmd.base).value in InHead(co.repo)
    ensures co.log == old(co.log) + [(cmd, ok)]
  {
    AskEffect(co.repo, cmd, NextReply(co.replies));
    ok := co.Git(cmd);
  }

  /** The branch HEAD is on may advance, over what it contained and the target; the rest stays. */
  ghost predicate MergedInto(r: Repo, r': Repo, target: Commit) {
    && Advances(r, r') && r'.head == MoveOf(r, r')
    && target in InHead(r') && Tip(r) in InHead(r')
    && r'.tracking == r.tracking && r'.originHead == r.originHead && r'.fetchHead == r.fetchHead
    && r'.history == r.history
  }

  function MoveOf(r: Repo, r': Repo): Head {
    if r.head.On? then r.head else Detached(Tip(r'))
  }

  /** A merge that did not happen: HEAD and the branches are where they were, the tree may be stopped over conflicts. */
  predicate StoppedAt(r: Repo, r': Repo) {
    r' == r.(tree := r'.tree, ops := r'.ops)
  }

  function Target(r: Repo, cmd: Cmd): Option<Commit> {
    if cmd.MergeBase? then BaseTip(r, cmd.base) else r.fetchHead
  }

  lemma FastForwardOk(r: Repo, target: Commit)
    requires Wf(r) && target in r.anc && Tip(r) in r.anc[target]
    ensures MergedInto(r, MoveHead(r, target), target)
  {
    MoveHeadOk(r, MoveHead(r, target), target);
  }

  lemma MergeCommitInto(r: Repo, target: Commit, c: Commit)
    requires Wf(r) && target in r.anc && c !in r.anc
    ensures MergedInto(r, MoveHead(WithMerge(r, target, c), c), target)
  {
    WithMergeOk(r, target, c);
    var r1 := WithMerge(r, target, c);
    MoveHeadOk(r1, MoveHead(r1, c), c);
    AdvancesTrans(r, r1, MoveHead(r1, c));
  }

  lemma MergedIntoOk(r: Repo, target: Commit, c: Commit)
    requires Wf(r) && target in r.anc && c !in r.anc
    ensures MergedInto(r, Merged(r, target, c), target)
  {
    if target in r.anc[Tip(r)] {
      AdvancesRefl(r);
    } else if Tip(r) in r.anc[target] {
      FastForwardOk(r, target);
    } else {
      MergeCommitInto(r, target, c);
    }
  }

  lemma MergeEffect(r: Repo, cmd: Cmd, y: Reply)
    requires Wf(r) && Merges(cmd) && Possible(r, cmd, y)
    ensures Target(r, cmd).Some? && MergedInto(r, Done(r, cmd, y), Target(r, cmd).value)
  {
    match cmd
    case MergeFastForward => FastForwardOk(r, r.fetchHead.value);
    case MergeFetched => MergedIntoOk(r, r.fetchHead.value, y.commit);
    case MergeBase(base) => MergedIntoOk(r, BaseTip(r, base).value, y.commit);
  }

  lemma MergeExec(r: Repo, cmd: Cmd, y: Reply)
    requires Wf(r) && Merges(cmd)
    ensures var (r', ok) := Exec(r, cmd, y);
            if ok then Target(r, cmd).Some? && MergedInto(r, r', Target(r, cmd).value) else StoppedAt(r, r')
  {
    if Possible(r, cmd, y) {
      MergeEffect(r, cmd, y);
    }
  }

  method MergeCmd(co: Checkout, cmd: Cmd) returns (ok: bool)
    requires Wf(co.repo) && Merges(cmd)
    modifies co
    ensures Wf(co.repo) && co.place == old(co.place)
    ensures ok ==> Target(old(co.repo), cmd).Some? && MergedInto(old(co.repo), co.repo, Target(old(co.repo), cmd).value)
    ensures !ok ==> StoppedAt(old(co.repo), co.repo)
    ensures co.log == old(co.log) + [(cmd, ok)]
  {
    MergeExec(co.repo, cmd, NextReply(co.replies));
    ok := co.Git(cmd);
  }

  /** merge --abort: HEAD and the refs are where they were, whether it works or not. */
  method AbortMerge(co: Checkout)
    requires Wf(co.repo)
    modifies co
    ensures Wf(co.repo) && co.place == old(co.place)
    ensures SameRefs(old(co.repo), co.repo) && co.repo.head == old(co.repo).head && Unfetched(old(co.repo), co.repo)
    ensures co.log != [] && co.log == old(co.log) + [(Abort(Merge), co.log[|co.log| - 1].1)]
  {
    RunsAreOf(co.repo);
    var _ := TryAbort(co, Abort(Merge));
  }

  /** The step keeps every branch at a descendant and HEAD on the branch it was on, and fetches no branch by name. */
  ghost predicate Follows(r: Repo, r': Repo) {
    Advances(r, r') && r'.head == r.head && r.head.On? && Unfetched(r, r')
  }

  lemma FollowsTrans(r0: Repo, r1: Repo, r2: Repo)
    requires Wf(r1) && Wf(r2) && Follows(r0, r1) && Follows(r1, r2)
    ensures Follows(r0, r2)
  {
    AdvancesTrans(r0, r1, r2);
  }

  /** What HEAD contained, it still contains. */
  lemma FollowsKeepsContent(r: Repo, r': Repo)
    requires Wf(r) && Wf(r') && Follows(r, r')
    ensures InHead(r) <= InHead(r')
  {
    var b := r.head.branch;
    assert r'.anc[r.local[b]] <= r'.anc[r'.local[b]];
  }

  lemma FetchFollows(r: Repo, r': Repo)
    requires Wf(r) && Wf(r') && Fetched(r, r') && r.head.On? && r'.history.fetched == r.history.fetched
    ensures Follows(r, r')
  {
  }

  lemma StoppedFollows(r: Repo, r1: Repo, r2: Repo)
    requires Wf(r) && Wf(r1) && r.head.On?
    requires StoppedAt(r, r1) && SameRefs(r1, r2) && r2.head == r1.head && Unfetched(r1, r2)
    ensures Follows(r, r2)
  {
  }

  // ---------------------------------------------------------------- the two reconciles

  /** unshallowBestEffort: a failure says nothing. */
  method UnshallowBestEffort(co: Checkout, fullClone: bool)
    requires Wf(co.repo) && co.repo.head.On?
    modifies co
    ensures Wf(co.repo) && co.place == old(co.place) && Follows(old(co.repo), co.repo)
    ensures co.repo.local == old(co.repo).local && Ran(old(co.log), co.log, Unshallow(fullClone))
  {
    if fullClone {
      AdvancesRefl(co.repo);
      return;
    }
    ghost var r0 := co.repo;
    var _ := Fetch(co, FetchUnshallow);
    FetchFollows(r0, co.repo);
  }

  predicate MergedOrAborted(before: Log, after: Log, cmd: Cmd, ok: bool) {
    if ok then after == before + [(cmd, true)]
    else after != [] && after == before + [(cmd, false), (Abort(Merge), after[|after| - 1].1)]
  }

  /** A merge, undone when it stops. */
  method MergeOrAbort(co: Checkout, cmd: Cmd) returns (ok: bool)
    requires Wf(co.repo) && co.repo.head.On? && (cmd.MergeFetched? || cmd.MergeBase?)
    modifies co
    ensures Wf(co.repo) && co.place == old(co.place) && Follows(old(co.repo), co.repo)
    ensures ok ==> Target(old(co.repo), cmd).Some? && MergedInto(old(co.repo), co.repo, Target(old(co.repo), cmd).value)
    ensures !ok ==> co.repo.local == old(co.repo).local
    ensures MergedOrAborted(old(co.log), co.log, cmd, ok)
  {
    ghost var r0 := co.repo;
    ok := MergeCmd(co, cmd);
    if !ok {
      ghost var r1 := co.repo;
      AbortMerge(co);
      StoppedFollows(r0, r1, co.repo);
    }
  }

  method FastForward(co: Checkout) returns (ok: bool)
    requires Wf(co.repo) && co.repo.head.On?
    modifies co
    ensures Wf(co.repo) && co.place == old(co.place) && Follows(old(co.repo), co.repo)
    ensures ok ==> old(co.repo).fetchHead.Some? && old(co.repo).fetchHead.value in InHead(co.repo)
    ensures !ok ==> co.repo.local == old(co.repo).local
    ensures co.log == old(co.log) + [(MergeFastForward, ok)]
  {
    AdvancesRefl(co.repo);
    ok := MergeCmd(co, MergeFastForward);
  }

  /** The remote tip is not in HEAD: HEAD goes to it when it can, and is merged with it when it cannot. */
  method MergeAhead(co: Checkout) returns (res: LocalResult)
    requires Wf(co.repo) && co.repo.head.On? && co.repo.fetchHead.Some?
    modifies co
    ensures Wf(co.repo) && co.place == old(co.place) && Follows(old(co.repo), co.repo)
    ensures res in {RemoteAhead, LocalRemoteMerged, LocalRemoteConflict}
    ensures res == LocalRemoteConflict ==> co.repo.local == old(co.repo).local
    ensures res != LocalRemoteConflict ==> old(co.repo).fetchHead.value in InHead(co.repo)
    ensures AheadRun(old(co.log), co.log, res)
  {
    var behind := Ask(co, HeadInFetched);
    if behind {
      var ok := FastForward(co);
      return if ok then RemoteAhead else LocalRemoteConflict;
    }
    var ok := MergeOrAbort(co, MergeFetched);
    return if ok then LocalRemoteMerged else LocalRemoteConflict;
  }

  predicate AheadRun(before: Log, after: Log, res: LocalResult) {
    match res
    case RemoteAhead => after == before + [(HeadInFetched, true), (MergeFastForward, true)]
    case LocalRemoteMerged => after == before + [(HeadInFetched, false), (MergeFetched, true)]
    case LocalRemoteConflict =>
      || after == before + [(HeadInFetched, true), (MergeFastForward, false)]
      || (after != [] && after == before + [(HeadInFetched, false), (MergeFetched, false),
                                            (Abort(Merge), after[|after| - 1].1)])
    case _ => false
  }

  lemma AheadRunIsRemoteRun(before: Log, after: Log, res: LocalResult)
    requires AheadRun(before + [(FetchedInHead, false)], after, res)
    ensures RemoteRun(before, after, res)
  {
  }

  /**
   The branch is reconciled with the remote tip in FETCH_HEAD. Unless the answer is a conflict the branch
   now contains that tip; on a conflict no branch has moved.
   */
  method MergeRemoteTaskBranch(co: Checkout) returns (res: LocalResult)
    requires Wf(co.repo) && co.repo.head.On? && co.repo.fetchHead.Some?
    modifies co
    ensures Wf(co.repo) && co.place == old(co.place) && Follows(old(co.repo), co.repo)
    ensures res in {LocalAhead, RemoteAhead, LocalRemoteMerged, LocalRemoteConflict}
    ensures res == LocalRemoteConflict ==> co.repo.local == old(co.repo).local
    ensures res != LocalRemoteConflict ==> old(co.repo).fetchHead.value in InHead(co.repo)
    ensures res == LocalAhead ==> co.repo == old(co.repo)
    ensures RemoteRun(old(co.log), co.log, res)
  {
    ghost var log0 := co.log;
    AdvancesRefl(co.repo);
    var ahead := Ask(co, FetchedInHead);
    if ahead {
      return LocalAhead;
    }
    res := MergeAhead(co);
    AheadRunIsRemoteRun(log0, co.log, res);
  }

  /** Everything is fetched, and origin/HEAD asked for when no base is named. NoResult: go on. */
  method FetchBase(co: Checkout, base: Branch) returns (res: BaseResult)
    requires Wf(co.repo) && co.repo.head.On?
    modifies co
    ensures Wf(co.repo) && co.place == old(co.place) && Follows(old(co.repo), co.repo)
    ensures co.repo.local == old(co.repo).local
    ensures res in {NoResult, FetchFail, BaseUnresolved}
    ensures if res == NoResult then co.log == old(co.log) + Fetching(base) else BaseRun(old(co.log), co.log, base, res)
  {
    ghost var r0 := co.repo;
    var fetched := Fetch(co, FetchOrigin);
    FetchFollows(r0, co.repo);
    if !fetched {
      return FetchFail;
    }
    if base == "" {
      ghost var r1 := co.repo;
      var resolved := SetOriginHead(co);
      AdvancesNewBranch(r1, co.repo);
      FollowsTrans(r0, r1, co.repo);
      return if resolved then NoResult else BaseUnresolved;
    }
    return NoResult;
  }

  predicate TipRun(before: Log, after: Log, base: Branch, res: BaseResult) {
    match res
    case UpToDate => after == before + [(BaseInHead(base), true)]
    case MergedBase => after == before + [(BaseInHead(base), false), (MergeBase(base), true)]
    case Conflict =>
      after != [] && after == before + [(BaseInHead(base), false), (MergeBase(base), false),
                                        (Abort(Merge), after[|after| - 1].1)]
    case _ => false
  }

  lemma TipRunIsBaseRun(before: Log, after: Log, base: Branch, res: BaseResult)
    requires TipRun(before + Fetching(base), after, base, res)
    ensures BaseRun(before, after, base, res)
  {
  }

  /** The base tip, once it is known: merged unless HEAD contains it. */
  method MergeFetchedBase(co: Checkout, base: Branch) returns (res: BaseResult)
    requires Wf(co.repo) && co.repo.head.On?
    modifies co
    ensures Wf(co.repo) && co.place == old(co.place) && Follows(old(co.repo), co.repo)
    ensures res in {UpToDate, MergedBase} ==>
              BaseTip(co.repo, base).Some? && BaseTip(co.repo, base).value in InHead(co.repo)
    ensures res != MergedBase ==> co.repo.local == old(co.repo).local
    ensures TipRun(old(co.log), co.log, base, res)
  {
    AdvancesRefl(co.repo);
    var upToDate := Ask(co, BaseInHead(base));
    if upToDate {
      return UpToDate;
    }
    var ok := MergeOrAbort(co, MergeBase(base));
    return if ok then MergedBase else Conflict;
  }

  /**
   The branch is brought up to date with its base. `failed` is a fetch that did not work. A result of
   up-to-date or merged means HEAD contains the base tip that was fetched.
   */
  method ReconcileWithBase(co: Checkout, base: Branch) returns (res: BaseResult, failed: bool)
    requires Wf(co.repo) && co.repo.head.On?
    modifies co
    ensures Wf(co.repo) && co.place == old(co.place) && Follows(old(co.repo), co.repo)
    ensures failed <==> res == FetchFail
    ensures res in {UpToDate, MergedBase} ==>
              BaseTip(co.repo, base).Some? && BaseTip(co.repo, base).value in InHead(co.repo)
    ensures res in {Conflict, FetchFail, BaseUnresolved, UpToDate} ==> co.repo.local == old(co.repo).local
    ensures BaseRun(old(co.log), co.log, base, res)
  {
    ghost var r0, log0 := co.repo, co.log;
    res := FetchBase(co, base);
    if res != NoResult {
      return res, res == FetchFail;
    }
    ghost var r1 := co.repo;
    res := MergeFetchedBase(co, base);
    failed := false;
    FollowsTrans(r0, r1, co.repo);
    TipRunIsBaseRun(log0, co.log, base, res);
  }

  lemma SetHeadEffect(r: Repo, y: Reply)
    requires Wf(r)
    ensures Exec(r, SetHeadAuto, y).0 == r.(originHead := Exec(r, SetHeadAuto, y).0.originHead)
  {
  }

  method SetOriginHead(co: Checkout) returns (ok: bool)
    requires Wf(co.repo)
    modifies co
    ensures Wf(co.repo) && co.place == old(co.place)
    ensures co.repo == old(co.repo).(originHead := co.repo.originHead)
    ensures co.log == old(co.log) + [(SetHeadAuto, ok)]
  {
    SetHeadEffect(co.repo, NextReply(co.replies));
    ok := co.Git(SetHeadAuto);
  }

  // ---------------------------------------------------------------- the four arms

  method CheckoutLocal(co: Checkout, task: Branch) returns (ok: bool)
    requires Wf(co.repo)
    modifies co
    ensures Wf(co.repo) && co.place == old(co.place) && Advances(old(co.repo), co.repo)
    ensures co.repo.local == old(co.repo).local && (ok ==> co.repo.head == On(task))
    ensures co.repo.history == old(co.repo).history
    ensures co.log == old(co.log) + [(Checkout(task), ok)]
  {
    ok := co.Git(Checkout(task));
  }

  lemma PushEffect(r: Repo, task: Branch, y: Reply)
    requires Wf(r)
    ensures Exec(r, Push(task), y).0 == r.(tracking := Exec(r, Push(task), y).0.tracking)
  {
  }

  method Publish(co: Checkout, task: Branch)
    requires Wf(co.repo) && co.repo.head.On?
    modifies co
    ensures Wf(co.repo) && co.place == old(co.place) && Follows(old(co.repo), co.repo)
    ensures co.repo.local == old(co.repo).local && Ran(old(co.log), co.log, [Push(task)])
  {
    PushEffect(co.repo, task, NextReply(co.replies));
    var _ := co.Git(Push(task));
  }

  /** The branch was fetched by name once, and `seen` is the tip that came, or it was not. */
  ghost predicate FetchedAs(r: Repo, r': Repo, task: Branch, seen: Option<Commit>) {
    && Untold(r, r')
    && r'.history.fetched == r.history.fetched + if seen.Some? then [(task, seen.value)] else []
  }

  function LocalArm(task: Branch, fullClone: bool, reconcile: bool): seq<Cmd> {
    [Checkout(task)] + Unshallow(fullClone) + (if reconcile then [Push(task)] else [])
  }

  function RemoteArm(task: Branch, fullClone: bool): seq<Cmd> {
    Unshallow(fullClone) + [FetchBranch(task)] + [CheckoutFetched(task)]
  }

  function BothArm(task: Branch, fullClone: bool): seq<Cmd> {
    [Checkout(task)] + Unshallow(fullClone) + [FetchBranch(task)]
  }

  /** The branch is checked out, and its history completed when the clone was shallow. */
  method CheckOutComplete(co: Checkout, task: Branch, fullClone: bool) returns (ok: bool)
    requires Wf(co.repo)
    modifies co
    ensures Wf(co.repo) && co.place == old(co.place) && Advances(old(co.repo), co.repo)
    ensures co.repo.local == old(co.repo).local && Unfetched(old(co.repo), co.repo)
    ensures ok ==> co.repo.head == On(task) && Ran(old(co.log), co.log, [Checkout(task)] + Unshallow(fullClone))
    ensures !ok ==> FailedAt(old(co.log), co.log, {Checkout(task)})
  {
    ghost var r0, log0 := co.repo, co.log;
    ok := CheckoutLocal(co, task);
    if ok {
      ghost var r1, log1 := co.repo, co.log;
      UnshallowBestEffort(co, fullClone);
      AdvancesTrans(r0, r1, co.repo);
      RanTrans(log0, log1, co.log, [Checkout(task)], Unshallow(fullClone));
    }
  }

  /** Local yes, remote no: check it out and publish it. */
  method AdoptLocal(co: Checkout, task: Branch, fullClone: bool, reconcile: bool) returns (ok: bool)
    requires Wf(co.repo)
    modifies co
    ensures Wf(co.repo) && co.place == old(co.place) && Advances(old(co.repo), co.repo)
    ensures co.repo.local == old(co.repo).local && Unfetched(old(co.repo), co.repo)
    ensures ok ==> co.repo.head == On(task)
    ensures ok ==> Ran(old(co.log), co.log, LocalArm(task, fullClone, reconcile))
    ensures !ok ==> FailedAt(old(co.log), co.log, {Checkout(task)})
  {
    ghost var r0, log0 := co.repo, co.log;
    ok := CheckOutComplete(co, task, fullClone);
    if !ok {
      return;
    }
    ghost var r2, log2 := co.repo, co.log;
    if reconcile {
      Publish(co, task);
      RanTrans(log0, log2, co.log, [Checkout(task)] + Unshallow(fullClone), [Push(task)]);
      AdvancesTrans(r0, r2, co.repo);
    }
  }

  method ForceCheckout(co: Checkout, task: Branch) returns (ok: bool)
    requires Wf(co.repo) && co.repo.fetchHead.Some?
    modifies co
    ensures Wf(co.repo) && co.place == old(co.place)
    ensures task !in old(co.repo).local ==> Advances(old(co.repo), co.repo)
    ensures ok ==> co.repo.head == On(task) && Tip(co.repo) == old(co.repo).fetchHead.value
    ensures co.repo.history == old(co.repo).history
    ensures co.log == old(co.log) + [(CheckoutFetched(task), ok)]
  {
    ok := co.Git(CheckoutFetched(task));
  }

  /** Local no, remote yes: the branch becomes the remote tip. `seen` is that tip. */
  method AdoptRemote(co: Checkout, task: Branch, fullClone: bool) returns (ok: bool, ghost seen: Option<Commit>)
    requires Wf(co.repo)
    modifies co
    ensures Wf(co.repo) && co.place == old(co.place)
    ensures task !in old(co.repo).local ==> Advances(old(co.repo), co.repo)
    ensures FetchedAs(old(co.repo), co.repo, task, seen)
    ensures ok ==> co.repo.head == On(task) && seen.Some? && seen.value in InHead(co.repo)
    ensures ok ==> Ran(old(co.log), co.log, RemoteArm(task, fullClone))
    ensures !ok ==> FailedAt(old(co.log), co.log, {FetchUnshallow, FetchBranch(task), CheckoutFetched(task)})
  {
    seen := None;
    ghost var r0, log0 := co.repo, co.log;
    ok := FetchTask(co, task, fullClone);
    AdvancesNewBranches(r0, co.repo);
    if !ok {
      return;
    }
    ghost var r1, log1 := co.repo, co.log;
    seen := co.repo.fetchHead;
    ok := ForceCheckout(co, task);
    if task !in r0.local {
      AdvancesTrans(r0, r1, co.repo);
    }
    RanTrans(log0, log1, co.log, Unshallow(fullClone) + [FetchBranch(task)], [CheckoutFetched(task)]);
  }

  method FetchTask(co: Checkout, task: Branch, fullClone: bool) returns (ok: bool)
    requires Wf(co.repo)
    modifies co
    ensures Wf(co.repo) && co.place == old(co.place) && BranchesStay(old(co.repo), co.repo)
    ensures co.repo.local == old(co.repo).local && (ok ==> co.repo.fetchHead.Some?)
    ensures FetchedAs(old(co.repo), co.repo, task, if ok then co.repo.fetchHead else None)
    ensures ok ==> Ran(old(co.log), co.log, Unshallow(fullClone) + [FetchBranch(task)])
    ensures !ok ==> FailedAt(old(co.log), co.log, {FetchUnshallow, FetchBranch(task)})
  {
    if !fullClone {
      ok := Fetch(co, FetchUnshallow);
      if !ok {
        return;
      }
    }
    ok := Fetch(co, FetchBranch(task));
  }

  /** Local yes, remote yes: never a reset. `seen` is the remote tip that was fetched. */
  method AdoptBoth(co: Checkout, task: Branch, fullClone: bool)
    returns (ok: bool, res: LocalResult, ghost seen: Option<Commit>)
    requires Wf(co.repo)
    modifies co
    ensures Wf(co.repo) && co.place == old(co.place) && Advances(old(co.repo), co.repo)
    ensures FetchedAs(old(co.repo), co.repo, task, seen)
    ensures ok ==> co.repo.head == On(task) && seen.Some?
    ensures ok && res != LocalRemoteConflict ==> seen.value in InHead(co.repo)
    ensures ok ==> exists log :: Ran(old(co.log), log, BothArm(task, fullClone)) && RemoteRun(log, co.log, res)
    ensures ok ==> old(co.log) <= co.log
    ensures !ok ==> FailedAt(old(co.log), co.log, {Checkout(task), FetchBranch(task)})
  {
    res, seen := Unknown, None;
    ghost var r0, log0 := co.repo, co.log;
    ok := CheckOutComplete(co, task, fullClone);
    if !ok {
      return;
    }
    ghost var r2, log2 := co.repo, co.log;
    ok, res, seen := FetchAndMerge(co, task);
    AdvancesTrans(r0, r2, co.repo);
    if ok {
      RanTrans(log0, log2, log2 + [(FetchBranch(task), true)], [Checkout(task)] + Unshallow(fullClone), [FetchBranch(task)]);
    }
  }

  /** The remote branch is fetched and the checked-out one reconciled with it. */
  method FetchAndMerge(co: Checkout, task: Branch) returns (ok: bool, res: LocalResult, ghost seen: Option<Commit>)
    requires Wf(co.repo) && co.repo.head.On?
    modifies co
    ensures Wf(co.repo) && co.place == old(co.place) && Advances(old(co.repo), co.repo)
    ensures co.repo.head == old(co.repo).head && FetchedAs(old(co.repo), co.repo, task, seen)
    ensures ok ==> seen.Some? && (res != LocalRemoteConflict ==> seen.value in InHead(co.repo))
    ensures ok ==> RemoteRun(old(co.log) + [(FetchBranch(task), true)], co.log, res) && old(co.log) <= co.log
    ensures !ok ==> FailedAt(old(co.log), co.log, {FetchBranch(task)})
  {
    res, seen := Unknown, None;
    ghost var r0 := co.repo;
    ok := Fetch(co, FetchBranch(task));
    AdvancesNewBranches(r0, co.repo);
    ghost var r1 := co.repo;
    if !ok {
      return;
    }
    seen := co.repo.fetchHead;
    res := MergeRemoteTaskBranch(co);
    AdvancesTrans(r0, r1, co.repo);
  }

  // ---------------------------------------------------------------- checkoutTaskBranch

  datatype Outcome = Outcome(resumed: bool, local: LocalResult, base: BaseResult, failed: bool)

  /** The probes come first: is there a local branch (asked of a persistent checkout only), and a remote one? */
  function Probed(before: Log, task: Branch, persistent: bool, here: bool, there: bool): Log {
    before + (if persistent then [(VerifyLocal(task), here)] else []) + [(LsRemote(task), there)]
  }

  method ProbeBranches(co: Checkout, task: Branch, persistent: bool) returns (here: bool, there: bool)
    requires Wf(co.repo)
    modifies co
    ensures co.repo == old(co.repo) && co.place == old(co.place)
    ensures here <==> persistent && task in co.repo.local
    ensures co.log == Probed(old(co.log), task, persistent, here, there)
  {
    here := false;
    if persistent {
      here := Ask(co, VerifyLocal(task));
    }
    there := Ask(co, LsRemote(task));
  }

  /** The reconcile of an owned branch, as far as its caller goes by it. */
  method ReconcileOwned(co: Checkout, base: Branch) returns (res: BaseResult, failed: bool)
    requires Wf(co.repo) && co.repo.head.On?
    modifies co
    ensures Wf(co.repo) && co.place == old(co.place) && Advances(old(co.repo), co.repo)
    ensures co.repo.head == old(co.repo).head && InHead(old(co.repo)) <= InHead(co.repo)
    ensures Unfetched(old(co.repo), co.repo)
    ensures res != NoResult && (failed <==> res == FetchFail) && BaseRun(old(co.log), co.log, base, res)
    ensures res in {UpToDate, MergedBase} ==>
              BaseTip(co.repo, base).Some? && BaseTip(co.repo, base).value in InHead(co.repo)
    ensures old(co.log) <= co.log && (failed ==> FailedAt(old(co.log), co.log, {FetchOrigin}))
  {
    ghost var r0 := co.repo;
    res, failed := ReconcileWithBase(co, base);
    FollowsKeepsContent(r0, co.repo);
  }

  /** The arm taken is the one the probes call for. */
  predicate ArmOf(here: bool, there: bool, resumed: bool, res: LocalResult) {
    if !here && !there then !resumed && res == Unknown
    else if !there then resumed && res == LocalOnly
    else if !here then resumed && res == Unknown
    else resumed && res in {LocalAhead, RemoteAhead, LocalRemoteMerged, LocalRemoteConflict}
  }

  /** The commands of the arm that was taken, for each result. */
  ghost predicate ArmRun(before: Log, after: Log, task: Branch, fullClone: bool, reconcile: bool, here: bool,
                         there: bool, res: LocalResult) {
    if !here && !there then after == before + [(CheckoutNew(task), true)]
    else if !there then Ran(before, after, LocalArm(task, fullClone, reconcile))
    else if !here then Ran(before, after, RemoteArm(task, fullClone))
    else exists mid :: Ran(before, mid, BothArm(task, fullClone)) && RemoteRun(mid, after, res)
  }

  /** The commands of the arm, and then those of the reconcile with the base, which an owned resumed branch gets. */
  ghost predicate BranchRun(before: Log, after: Log, task: Branch, base: Branch, fullClone: bool, reconcile: bool,
                            here: bool, there: bool, o: Outcome) {
    exists mid :: ArmRun(before, mid, task, fullClone, reconcile, here, there, o.local)
                  && if reconcile && (here || there) then BaseRun(mid, after, base, o.base) else after == mid
  }

  /** Some time after the first `from` commands one of these was run, and failed. */
  ghost predicate FailedSince(from: nat, log: Log, cmds: set<Cmd>) {
    exists k :: from <= k < |log| && log[k].0 in cmds && !log[k].1
  }

  /** A merge of the remote tip that stopped. */
  const REMOTE_MERGES: set<Cmd> := {MergeFetched, MergeFastForward}

  /** A merge of the base that stopped, or origin/HEAD that was not to be had. */
  function BaseMerges(base: Branch): set<Cmd> {
    {MergeBase(base), SetHeadAuto}
  }

  lemma FailedOver(from: nat, mid: Log, after: Log, cmds: set<Cmd>)
    requires from <= |mid| && mid <= after
    ensures FailedSince(from, after, cmds) <==> FailedSince(from, mid, cmds) || FailedSince(|mid|, after, cmds)
  {
    if k :| from <= k < |after| && after[k].0 in cmds && !after[k].1 {
      assert k < |mid| ==> mid[k] == after[k];
    }
    if k :| from <= k < |mid| && mid[k].0 in cmds && !mid[k].1 {
      assert after[k] == mid[k];
    }
  }

  lemma RanNone(before: Log, after: Log, ran: seq<Cmd>, cmds: set<Cmd>)
    requires Ran(before, after, ran) && forall i :: 0 <= i < |ran| ==> ran[i] !in cmds
    ensures !FailedSince(|before|, after, cmds)
  {
    forall k | |before| <= k < |after| ensures after[k].0 !in cmds {
      assert after[|before| + (k - |before|)].0 == ran[k - |before|];
    }
  }

  lemma RemoteStops(mid: Log, after: Log, base: Branch, res: LocalResult)
    requires RemoteRun(mid, after, res)
    ensures mid <= after && !FailedSince(|mid|, after, BaseMerges(base))
    ensures FailedSince(|mid|, after, REMOTE_MERGES) <==> res == LocalRemoteConflict
  {
    if res == LocalRemoteConflict {
      var k := |mid| + 2;
      assert after[k].0 in REMOTE_MERGES && !after[k].1;
    }
  }

  lemma BaseStops(mid: Log, after: Log, base: Branch, res: BaseResult)
    requires BaseRun(mid, after, base, res)
    ensures mid <= after && !FailedSince(|mid|, after, REMOTE_MERGES)
    ensures FailedSince(|mid|, after, BaseMerges(base)) <==> res == Conflict || res == BaseUnresolved
  {
    if res == Conflict {
      var k := |after| - 2;
      assert after[k] == (MergeBase(base), false);
    } else if res == BaseUnresolved {
      assert after[|after| - 1] == (SetHeadAuto, false);
    }
  }

  predicate IsMerge(cmd: Cmd) {
    cmd.MergeFetched? || cmd.MergeFastForward? || cmd.MergeBase? || cmd.SetHeadAuto?
  }

  lemma QuietArm(before: Log, after: Log, base: Branch, ran: seq<Cmd>)
    requires Ran(before, after, ran) && forall i :: 0 <= i < |ran| ==> !IsMerge(ran[i])
    ensures before <= after
    ensures !FailedSince(|before|, after, REMOTE_MERGES) && !FailedSince(|before|, after, BaseMerges(base))
  {
    RanNone(before, after, ran, REMOTE_MERGES);
    RanNone(before, after, ran, BaseMerges(base));
  }

  lemma BothStops(before: Log, mid: Log, after: Log, task: Branch, base: Branch, fullClone: bool, res: LocalResult)
    requires Ran(before, mid, BothArm(task, fullClone)) && RemoteRun(mid, after, res)
    ensures before <= after && !FailedSince(|before|, after, BaseMerges(base))
    ensures FailedSince(|before|, after, REMOTE_MERGES) <==> res == LocalRemoteConflict
  {
    QuietArm(before, mid, base, BothArm(task, fullClone));
    RemoteStops(mid, after, base, res);
    FailedOver(|before|, mid, after, REMOTE_MERGES);
    FailedOver(|before|, mid, after, BaseMerges(base));
  }

  lemma ArmStops(before: Log, after: Log, task: Branch, base: Branch, fullClone: bool, reconcile: bool, here: bool,
                 there: bool, res: LocalResult)
    requires ArmRun(before, after, task, fullClone, reconcile, here, there, res) && ArmOf(here, there, here || there, res)
    ensures before <= after && !FailedSince(|before|, after, BaseMerges(base))
    ensures FailedSince(|before|, after, REMOTE_MERGES) <==> res == LocalRemoteConflict
  {
    if here && there {
      var mid :| Ran(before, mid, BothArm(task, fullClone)) && RemoteRun(mid, after, res);
      BothStops(before, mid, after, task, base, fullClone, res);
    } else if here {
      QuietArm(before, after, base, LocalArm(task, fullClone, reconcile));
    } else if there {
      QuietArm(before, after, base, RemoteArm(task, fullClone));
    } else {
      QuietArm(before, after, base, [CheckoutNew(task)]);
    }
  }

  /** A conflict is reported exactly when the merge it is about was run and stopped. */
  lemma ConflictsAreStops(before: Log, after: Log, task: Branch, base: Branch, fullClone: bool, reconcile: bool,
                          here: bool, there: bool, o: Outcome)
    requires BranchRun(before, after, task, base, fullClone, reconcile, here, there, o)
    requires ArmOf(here, there, here || there, o.local) && (!(reconcile && (here || there)) ==> o.base == NoResult)
    ensures FailedSince(|before|, after, REMOTE_MERGES) <==> o.local == LocalRemoteConflict
    ensures FailedSince(|before|, after, BaseMerges(base)) <==> o.base == Conflict || o.base == BaseUnresolved
  {
    var mid :| ArmRun(before, mid, task, fullClone, reconcile, here, there, o.local)
               && if reconcile && (here || there) then BaseRun(mid, after, base, o.base) else after == mid;
    ArmStops(before, mid, task, base, fullClone, reconcile, here, there, o.local);
    if reconcile && (here || there) {
      BaseStops(mid, after, base, o.base);
      FailedOver(|before|, mid, after, REMOTE_MERGES);
      FailedOver(|before|, mid, after, BaseMerges(base));
    }
  }

  /** The commands a boot cannot do without. */
  function Fatal(task: Branch): set<Cmd> {
    {CheckoutNew(task), Checkout(task), FetchUnshallow, FetchBranch(task), CheckoutFetched(task), FetchOrigin}
  }

  /** The arm for the answers of the two probes. */
  method TakeArm(co: Checkout, task: Branch, fullClone: bool, reconcile: bool, here: bool, there: bool)
    returns (ok: bool, res: LocalResult, ghost seen: Option<Commit>)
    requires Wf(co.repo)
    modifies co
    ensures Wf(co.repo) && co.place == old(co.place)
    ensures here || task !in old(co.repo).local ==> Advances(old(co.repo), co.repo)
    ensures ok ==> co.repo.head == On(task) && ArmOf(here, there, here || there, res)
    ensures ok && !here && !there ==> task !in old(co.repo).local
    ensures ok && res != LocalRemoteConflict && seen.Some? ==> seen.value in InHead(co.repo)
    ensures FetchedAs(old(co.repo), co.repo, task, seen) && (ok ==> (there <==> seen.Some?))
    ensures old(co.log) <= co.log && (!ok ==> FailedAt(old(co.log), co.log, Fatal(task)))
    ensures ok ==> ArmRun(old(co.log), co.log, task, fullClone, reconcile, here, there, res)
  {
    res, seen := Unknown, None;
    if !here && !there {
      ok := NewTaskBranch(co, task);
    } else if here && !there {
      ok := AdoptLocal(co, task, fullClone, reconcile);
      res := LocalOnly;
    } else if !here && there {
      ok, seen := AdoptRemote(co, task, fullClone);
    } else {
      ok, res, seen := AdoptBoth(co, task, fullClone);
    }
  }

  /** The arm, and for an owned branch that was resumed the reconcile with its base. */
  method Proceed(co: Checkout, task: Branch, base: Branch, fullClone: bool, reconcile: bool, here: bool, there: bool)
    returns (o: Outcome, ghost seen: Option<Commit>)
    requires Wf(co.repo)
    modifies co
    ensures Wf(co.repo) && co.place == old(co.place)
    ensures here || task !in old(co.repo).local ==> Advances(old(co.repo), co.repo)
    ensures !o.failed ==> co.repo.head == On(task) && ArmOf(here, there, o.resumed, o.local)
    ensures FetchedAs(old(co.repo), co.repo, task, seen) && (!o.failed ==> (there <==> seen.Some?))
    ensures old(co.log) <= co.log && (o.failed ==> FailedAt(old(co.log), co.log, Fatal(task)))
    ensures !o.failed ==> BranchRun(old(co.log), co.log, task, base, fullClone, reconcile, here, there, o)
    ensures !reconcile ==> o.base == NoResult
    ensures !o.resumed && !o.failed ==> task !in old(co.repo).local && o.base == NoResult
    ensures o.resumed && !o.failed && reconcile ==> o.base != NoResult && o.base != FetchFail
    ensures o.resumed && !o.failed && o.local != LocalRemoteConflict && seen.Some? ==> seen.value in InHead(co.repo)
    ensures o.resumed && !o.failed && o.base in {UpToDate, MergedBase} ==>
              BaseTip(co.repo, base).Some? && BaseTip(co.repo, base).value in InHead(co.repo)
  {
    ghost var r0 := co.repo;
    var ok, localResult;
    ok, localResult, seen := TakeArm(co, task, fullClone, reconcile, here, there);
    if !ok || (!here && !there) {
      return Outcome(false, Unknown, NoResult, !ok), seen;
    }
    if !reconcile {
      return Outcome(true, localResult, NoResult, false), seen;
    }
    ghost var r1 := co.repo;
    var baseResult, failed := ReconcileOwned(co, base);
    if here || task !in r0.local {
      AdvancesTrans(r0, r1, co.repo);
    }
    return Outcome(true, localResult, baseResult, failed), seen;
  }

  /**
   checkoutTaskBranch. Whatever git and the network answer:
   - no local branch is lost or moved backwards (the one exception is a fresh clone, not a persistent
     checkout, that already has a branch of that name);
   - the arm taken is the one the two probes call for, and it fails only by a command it cannot do without;
   - when it succeeds HEAD is on the task branch;
   - when a branch was resumed, HEAD contains the remote tip that was fetched, if one was seen, unless that is
     reported as a conflict; and when it is owned the base tip, unless the base is reported.
   */
  method CheckoutTaskBranch(co: Checkout, task: Branch, base: Branch, fullClone: bool, reconcile: bool, persistent: bool)
    returns (o: Outcome, ghost seen: Option<Commit>, ghost there: bool)
    requires Wf(co.repo)
    modifies co
    ensures Wf(co.repo) && co.place == old(co.place)
    ensures persistent || task !in old(co.repo).local ==> Advances(old(co.repo), co.repo)
    ensures var here := persistent && task in old(co.repo).local;
            && Probed(old(co.log), task, persistent, here, there) <= co.log
            && (!o.failed ==>
                  && ArmOf(here, there, o.resumed, o.local)
                  && BranchRun(Probed(old(co.log), task, persistent, here, there), co.log, task, base, fullClone, reconcile,
                               here, there, o))
    ensures FetchedAs(old(co.repo), co.repo, task, seen) && (!o.failed ==> (there <==> seen.Some?))
    ensures o.failed ==> FailedAt(old(co.log), co.log, Fatal(task))
    ensures !o.failed ==> co.repo.head == On(task)
    ensures !reconcile ==> o.base == NoResult
    ensures !o.resumed && !o.failed ==> task !in old(co.repo).local && o.base == NoResult
    ensures o.resumed && !o.failed && reconcile ==> o.base != NoResult && o.base != FetchFail
    ensures o.resumed && !o.failed && o.local != LocalRemoteConflict && seen.Some? ==> seen.value in InHead(co.repo)
    ensures o.resumed && !o.failed && reconcile && o.base != Conflict && o.base != BaseUnresolved ==>
              BaseTip(co.repo, base).Some? && BaseTip(co.repo, base).value in InHead(co.repo)
  {
    var here, remote := ProbeBranches(co, task, persistent);
    there := remote;
    o, seen := Proceed(co, task, base, fullClone, reconcile, here, remote);
  }

  method NewTaskBranch(co: Checkout, task: Branch) returns (ok: bool)
    requires Wf(co.repo)
    modifies co
    ensures Wf(co.repo) && co.place == old(co.place) && Advances(old(co.repo), co.repo)
    ensures ok ==> task !in old(co.repo).local && co.repo.head == On(task)
    ensures co.repo.history == old(co.repo).history
    ensures co.log == old(co.log) + [(CheckoutNew(task), ok)]
  {
    ok := co.Git(CheckoutNew(task));
  }
}
