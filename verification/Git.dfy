/**
 An abstract git checkout, as far as the boot recovery depends on it.

 Commits are never deleted and never change: `anc` gives each stored commit everything it contains,
 itself included. `Exec` says what one command does to the checkout. Whether a command succeeds, what a
 fetch brings and what a failed merge leaves behind come from a `Reply`, so a statement about every
 sequence of replies is a statement about everything git and the network may do. A reply that git cannot
 give in the state at hand counts as a failure.
 */
module Git {
  import opened Wrappers

  type Commit = nat
  type Branch = string
  type Path = string

  datatype Head = On(branch: Branch) | Detached(commit: Commit)

  /** The multi-step operations a killed process can leave half done. */
  datatype Op = Merge | RebaseMerge | RebaseApply | CherryPick | Revert | Bisect

  /**
   `work` holds the paths with uncommitted, unstaged content and `staged` those in the index; a path in
   `untracked` is not tracked by HEAD. `conflicts` are the paths with conflict markers that the operations in
   progress left there, `stray` those with markers that have nothing to do with one.
   */
  datatype Tree = Tree(work: set<Path>, staged: set<Path>, untracked: set<Path>, conflicts: set<Path>, stray: set<Path>)

  /**
   How far an operation of several steps had got. A run of picks, reverts or patches began at `start` and took HEAD
   to `last`; a rebase began on `from`, whose commit was `tip`.
   */
  datatype Run = Picking(start: Commit, last: Commit) | Rebasing(from: Head, tip: Commit)

  /**
   What has happened in a checkout: what each `fetch origin <branch>` brought; the commits made from the index, and
   where HEAD was; the aborts, how each ended, and the tree that the latest one left.
   */
  datatype History = History(
    fetched: seq<(Branch, Commit)>,
    made: seq<(Head, Commit)>,
    aborts: seq<(Cmd, bool)>,
    left: Tree)

  /** `saved` is what each commit made here took from the index, and `marked` the ones that took conflict markers. */
  datatype Repo = Repo(
    anc: map<Commit, set<Commit>>,
    local: map<Branch, Commit>,
    tracking: map<Branch, Commit>,
    originHead: Option<Branch>,
    head: Head,
    previous: Head,
    fetchHead: Option<Commit>,
    tree: Tree,
    ops: set<Op>,
    runs: map<Op, Run>,
    saved: map<Commit, set<Path>>,
    marked: set<Commit>,
    history: History)

  datatype Reply = Reply(ok: bool, commit: Commit, objects: map<Commit, set<Commit>>, tips: map<Branch, Commit>,
                         branch: Branch, tree: Tree, head: Head)

  datatype Cmd =
    | RevParseInside
    | RevParseGitDir
    | Abort(op: Op)
    | AbortFallback(op: Op)
    | DiffQuiet
    | DiffCachedQuiet
    | SymbolicRef
    | AddAll
    | Unstage(path: Path)
    | CommitStaged
    | ResetHard
    | CheckoutNew(branch: Branch)
    | BranchNew(branch: Branch)
    | Checkout(branch: Branch)
    | CheckoutPrevious
    | CheckoutFetched(branch: Branch)
    | VerifyLocal(branch: Branch)
    | LsRemote(branch: Branch)
    | Push(branch: Branch)
    | FetchUnshallow
    | FetchBranch(branch: Branch)
    | FetchOrigin
    | SetHeadAuto
    | FetchedInHead
    | HeadInFetched
    | BaseInHead(base: Branch)
    | MergeFastForward
    | MergeFetched
    | MergeBase(base: Branch)
    | Begin(op: Op)

  // ---------------------------------------------------------------- reading a checkout

  /** Containment is reflexive and transitive, and everything contained is stored. */
  predicate Closed(anc: map<Commit, set<Commit>>) {
    && (forall c :: c in anc ==> c in anc[c])
    && (forall c, d :: c in anc && d in anc[c] ==> d in anc && anc[d] <= anc[c])
  }

  predicate HeadOk(r: Repo, h: Head) {
    match h case On(b) => b in r.local case Detached(c) => c in r.anc
  }

  /** The paths that hold conflict markers. */
  function Marks(t: Tree): set<Path> {
    t.conflicts + t.stray
  }

  predicate TreeOk(t: Tree) {
    Marks(t) <= t.work + t.staged
  }

  /** What an abort may leave: no markers of its own making but those of operations still in progress. */
  predicate MayLeave(r: Repo, t: Tree, ops: set<Op>) {
    TreeOk(t) && t.stray <= r.tree.stray && (ops == {} ==> t.conflicts == {})
  }

  /** Once no operation is in progress, markers it left in the tree are like any others. */
  function Settled(t: Tree, ops: set<Op>): Tree {
    if ops == {} then t.(conflicts := {}, stray := t.stray + t.conflicts) else t
  }

  /** The operations that git considers over once HEAD is committed to, reset or switched, as any abort does. */
  const ENDED_BY_COMMIT: set<Op> := {Merge, CherryPick, Revert}

  predicate RunOk(anc: map<Commit, set<Commit>>, names: set<Branch>, op: Op, run: Run) {
    match run
    case Picking(start, last) =>
      && (op == RebaseApply || op == CherryPick || op == Revert)
      && last in anc && start in anc && start in anc[last] && (start != last ==> last !in anc[start])
    case Rebasing(from, tip) =>
      && (op == RebaseMerge || op == RebaseApply) && tip in anc
      && (if from.On? then from.branch in names else from.commit in anc)
  }

  ghost predicate RunsOk(anc: map<Commit, set<Commit>>, names: set<Branch>, runs: map<Op, Run>) {
    forall op :: op in runs ==> RunOk(anc, names, op, runs[op])
  }

  ghost predicate Wf(r: Repo) {
    && Closed(r.anc)
    && (forall b :: b in r.local ==> r.local[b] in r.anc)
    && (forall b :: b in r.tracking ==> r.tracking[b] in r.anc)
    && (r.fetchHead.Some? ==> r.fetchHead.value in r.anc)
    && HeadOk(r, r.head) && HeadOk(r, r.previous)
    && TreeOk(r.tree) && (r.ops == {} ==> r.tree.conflicts == {})
    && r.marked <= r.anc.Keys
    && RunsOk(r.anc, r.local.Keys, r.runs)
    && (RebaseMerge in r.ops ==> RebaseMerge in r.runs)
  }

  function Tip(r: Repo): Commit {
    match r.head
    case On(b) => if b in r.local then r.local[b] else 0
    case Detached(c) => c
  }

  /** What the commit at HEAD contains. */
  function InHead(r: Repo): set<Commit> {
    if Tip(r) in r.anc then r.anc[Tip(r)] else {}
  }

  /** The commit a base branch stands for: origin/<base>, or origin/HEAD when none is named. */
  function BaseTip(r: Repo, base: Branch): Option<Commit> {
    if base != "" then (if base in r.tracking then Some(r.tracking[base]) else None)
    else if r.originHead.Some? && r.originHead.value in r.tracking then Some(r.tracking[r.originHead.value])
    else None
  }

  // ---------------------------------------------------------------- changing one

  function MoveHead(r: Repo, c: Commit): (r': Repo)
    ensures r'.runs == r.runs
  {
    match r.head
    case On(b) => r.(local := r.local[b := c])
    case Detached(_) => r.(head := Detached(c))
  }

  predicate FetchPossible(r: Repo, y: Reply) {
    && y.objects.Keys !! r.anc.Keys
    && Closed(r.anc + y.objects)
    && y.commit in r.anc.Keys + y.objects.Keys
    && (forall b :: b in y.tips ==> y.tips[b] in r.anc.Keys + y.objects.Keys)
  }

  predicate MergePossible(r: Repo, target: Option<Commit>, y: Reply) {
    target.Some? && r.tree.conflicts == {} && y.commit !in r.anc
  }

  /** A merge that works: nothing to do, a fast-forward, or a commit that contains both sides. */
  function Merged(r: Repo, target: Commit, c: Commit): (r': Repo)
    requires target in r.anc && Tip(r) in r.anc
    ensures r'.runs == r.runs
  {
    if target in r.anc[Tip(r)] then r
    else if Tip(r) in r.anc[target] then MoveHead(r, target)
    else MoveHead(WithMerge(r, target, c), c)
  }

  /** The merge commit is stored. */
  function WithMerge(r: Repo, target: Commit, c: Commit): Repo
    requires target in r.anc && Tip(r) in r.anc
  {
    r.(anc := r.anc[c := {c} + (r.anc[Tip(r)] + r.anc[target])])
  }

  predicate IsAbort(cmd: Cmd) { cmd.Abort? || cmd.AbortFallback? }

  predicate IsRebase(r: Repo, op: Op) {
    op in r.runs && r.runs[op].Rebasing?
  }

  /** Which spelling undoes what: `rebase --abort` a rebase, `am --abort` a run of patches. */
  predicate Accepts(r: Repo, cmd: Cmd, y: Reply)
    requires IsAbort(cmd)
  {
    && MayLeave(r, y.tree, r.ops - {cmd.op} - ENDED_BY_COMMIT) && HeadOk(r, y.head)
    && (cmd.Abort? && (cmd.op == RebaseMerge || cmd.op == RebaseApply) ==> IsRebase(r, cmd.op))
  }

  /**
   The branch that an abort sets when it works, and to what. A run of picks goes back to where it began, unless HEAD
   has been moved since; a rebase goes back to the branch it began on, and to what that branch was then.
   */
  function Back(r: Repo, cmd: Cmd): Option<(Branch, Commit)> {
    if !IsAbort(cmd) || cmd.op !in r.runs then None
    else match r.runs[cmd.op]
      case Picking(start, last) =>
        if r.head.On? && Tip(r) == last && start != last && cmd != Abort(RebaseApply)
        then Some((r.head.branch, start)) else None
      case Rebasing(from, tip) => if cmd.Abort? && from.On? then Some((from.branch, tip)) else None
  }

  /** An abort that works takes commits off a branch. */
  predicate Loses(r: Repo, cmd: Cmd) {
    var back := Back(r, cmd);
    && back.Some? && back.value.0 in r.local
    && back.value.1 in r.anc && r.local[back.value.0] !in r.anc[back.value.1]
  }

  function HeadBack(r: Repo, cmd: Cmd, y: Reply): Head
    requires IsAbort(cmd)
  {
    if cmd.op !in r.runs then (if cmd.op == Bisect then y.head else r.head)
    else match r.runs[cmd.op]
      case Picking(start, last) => if r.head == Detached(last) then Detached(start) else r.head
      case Rebasing(from, tip) => if cmd.AbortFallback? then y.head else if from.On? then from else Detached(tip)
  }

  function LocalBack(r: Repo, cmd: Cmd): map<Branch, Commit> {
    var back := Back(r, cmd);
    if back.Some? then r.local[back.value.0 := back.value.1] else r.local
  }

  function Noted(h: History, cmd: Cmd, ok: bool, left: Tree): History {
    h.(aborts := h.aborts + [(cmd, ok)], left := left)
  }

  /** Whether an operation can have stopped like this: new commits, and for a run of picks HEAD on the last of them. */
  predicate MayBegin(r: Repo, op: Op, y: Reply) {
    && op != Merge && op !in r.ops && TreeOk(y.tree) && y.tree.stray <= r.tree.stray
    && y.objects.Keys !! r.anc.Keys && Closed(r.anc + y.objects)
    && (op == Bisect || op == RebaseMerge ==> y.commit in r.anc.Keys + y.objects.Keys)
    && (op != Bisect && op != RebaseMerge ==>
          && (y.commit == Tip(r) || y.commit in y.objects)
          && (y.commit in y.objects ==>
                Tip(r) in y.objects[y.commit] && y.objects[y.commit] <= InHead(r) + y.objects.Keys))
  }

  /** The run that an operation that stopped part way leaves behind. */
  function NewRun(r: Repo, op: Op, y: Reply): map<Op, Run> {
    match op
    case Bisect => r.runs
    case RebaseMerge => r.runs[op := Rebasing(r.head, Tip(r))]
    case _ => r.runs[op := Picking(Tip(r), y.commit)]
  }

  /** The new commits are stored and the operation is in progress; HEAD has not moved yet. */
  function Recorded(r: Repo, op: Op, y: Reply): Repo {
    r.(anc := r.anc + y.objects, ops := r.ops + {op}, tree := y.tree, runs := NewRun(r, op, y))
  }

  /** An operation that stopped part way, as a killed session leaves it. */
  function Begun(r: Repo, op: Op, y: Reply): Repo {
    if op == Bisect || op == RebaseMerge then Recorded(r, op, y).(head := Detached(y.commit))
    else MoveHead(Recorded(r, op, y), y.commit)
  }

  /** Whether git can answer the command with success. */
  predicate Possible(r: Repo, cmd: Cmd, y: Reply) {
    match cmd
    case DiffQuiet => r.tree.work <= r.tree.untracked
    case DiffCachedQuiet => r.tree.staged == {}
    case SymbolicRef => r.head.On?
    case CommitStaged => r.tree.staged != {} && y.commit !in r.anc
    case CheckoutNew(b) => b !in r.local
    case BranchNew(b) => b !in r.local
    case Checkout(b) => b in r.local
    case CheckoutFetched(_) => r.fetchHead.Some?
    case Push(b) => b in r.local
    case FetchUnshallow => FetchPossible(r, y)
    case FetchBranch(_) => FetchPossible(r, y)
    case FetchOrigin => FetchPossible(r, y)
    case SetHeadAuto => y.branch in r.tracking
    case FetchedInHead => r.fetchHead.Some? && r.fetchHead.value in InHead(r)
    case HeadInFetched => r.fetchHead.Some? && r.fetchHead.value in r.anc && Tip(r) in r.anc[r.fetchHead.value]
    case BaseInHead(base) => BaseTip(r, base).Some? && BaseTip(r, base).value in InHead(r)
    case MergeFastForward => r.fetchHead.Some? && r.fetchHead.value in r.anc && Tip(r) in r.anc[r.fetchHead.value]
    case MergeFetched => MergePossible(r, r.fetchHead, y)
    case MergeBase(base) => MergePossible(r, BaseTip(r, base), y)
    case Abort(_) => Accepts(r, cmd, y)
    case AbortFallback(_) => Accepts(r, cmd, y)
    case Begin(_) => false
    case _ => true
  }

  /** The exit code: the probe for a local branch is accurate, every other answer is the reply's. */
  predicate Succeeds(r: Repo, cmd: Cmd, y: Reply) {
    if cmd.VerifyLocal? then cmd.branch in r.local else y.ok && Possible(r, cmd, y)
  }

  function AbortedBy(r: Repo, cmd: Cmd, y: Reply): Repo
    requires IsAbort(cmd)
  {
    r.(ops := r.ops - {cmd.op} - ENDED_BY_COMMIT, runs := r.runs - {cmd.op}, tree := y.tree,
       head := HeadBack(r, cmd, y), local := LocalBack(r, cmd), history := Noted(r.history, cmd, true, y.tree))
  }

  /** A failed abort may change the tree, and nothing else. */
  function AbortStopped(r: Repo, cmd: Cmd, y: Reply): Repo {
    var left := if MayLeave(r, y.tree, r.ops) then y.tree else r.tree;
    r.(tree := left, history := Noted(r.history, cmd, false, left))
  }

  /** The index becomes a commit; paths that were not staged keep their markers. */
  function TreeAfterCommit(t: Tree, ops: set<Op>): Tree {
    Settled(Tree(t.work, {}, t.untracked - t.staged, t.conflicts - t.staged, t.stray - t.staged), ops)
  }

  function TreeAfterReset(t: Tree, ops: set<Op>): Tree {
    Settled(Tree(t.work * t.untracked, {}, t.untracked, {}, t.stray * t.work * t.untracked), ops)
  }

  function Done(r: Repo, cmd: Cmd, y: Reply): Repo
    requires Wf(r) && Possible(r, cmd, y)
  {
    match cmd
    case Abort(_) => AbortedBy(r, cmd, y)
    case AbortFallback(_) => AbortedBy(r, cmd, y)
    case AddAll => r.(tree := r.tree.(work := {}, staged := r.tree.staged + r.tree.work))
    case Unstage(p) =>
      if p in r.tree.staged then r.(tree := r.tree.(work := r.tree.work + {p}, staged := r.tree.staged - {p})) else r
    case CommitStaged =>
      var c, t := y.commit, r.tree;
      MoveHead(r.(anc := r.anc[c := {c} + InHead(r)],
                  tree := TreeAfterCommit(t, r.ops - ENDED_BY_COMMIT), ops := r.ops - ENDED_BY_COMMIT,
                  saved := r.saved[c := t.staged],
                  marked := if Marks(t) * t.staged == {} then r.marked else r.marked + {c},
                  history := r.history.(made := r.history.made + [(r.head, c)])), c)
    case ResetHard =>
      r.(tree := TreeAfterReset(r.tree, r.ops - ENDED_BY_COMMIT), ops := r.ops - ENDED_BY_COMMIT)
    case CheckoutNew(b) => r.(local := r.local[b := Tip(r)], previous := r.head, head := On(b))
    case BranchNew(b) => r.(local := r.local[b := Tip(r)])
    case Checkout(b) => r.(previous := r.head, head := On(b))
    case CheckoutPrevious => r.(previous := r.head, head := r.previous)
    case CheckoutFetched(b) => r.(local := r.local[b := r.fetchHead.value], previous := r.head, head := On(b))
    case Push(b) => r.(tracking := r.tracking[b := r.local[b]])
    case FetchUnshallow => r.(anc := r.anc + y.objects, tracking := r.tracking + y.tips, fetchHead := Some(y.commit))
    case FetchBranch(b) =>
      r.(anc := r.anc + y.objects, tracking := r.tracking[b := y.commit], fetchHead := Some(y.commit),
         history := r.history.(fetched := r.history.fetched + [(b, y.commit)]))
    case FetchOrigin => r.(anc := r.anc + y.objects, tracking := r.tracking + y.tips, fetchHead := Some(y.commit))
    case SetHeadAuto => r.(originHead := Some(y.branch))
    case MergeFastForward => MoveHead(r, r.fetchHead.value)
    case MergeFetched => Merged(r, r.fetchHead.value, y.commit)
    case MergeBase(base) => Merged(r, BaseTip(r, base).value, y.commit)
    case _ => r
  }

  /** A failed merge stops over its conflicts, and `Begin` always stops. Only these and a failed abort show. */
  function Undone(r: Repo, cmd: Cmd, y: Reply): Repo {
    match cmd
    case Abort(_) => AbortStopped(r, cmd, y)
    case AbortFallback(_) => AbortStopped(r, cmd, y)
    case Begin(op) => if MayBegin(r, op, y) then Begun(r, op, y) else r
    case MergeFetched => Stopped(r, y)
    case MergeBase(_) => Stopped(r, y)
    case _ => r
  }

  function Stopped(r: Repo, y: Reply): Repo {
    r.(ops := r.ops + {Merge},
       tree := r.tree.(work := r.tree.work + y.tree.conflicts, conflicts := r.tree.conflicts + y.tree.conflicts))
  }

  function Exec(r: Repo, cmd: Cmd, y: Reply): (Repo, bool)
    requires Wf(r)
  {
    if Succeeds(r, cmd, y)
    then ((if cmd.VerifyLocal? then r else Done(r, cmd, y)), true)
    else (Undone(r, cmd, y), false)
  }

  // ---------------------------------------------------------------- what no command but a forced checkout undoes

  ghost predicate Grown(r: Repo, r': Repo) {
    forall c :: c in r.anc ==> c in r'.anc && r'.anc[c] == r.anc[c]
  }

  /** Nothing that a local branch reached is lost: every branch is still there, at a descendant of where it was. */
  ghost predicate Advances(r: Repo, r': Repo) {
    && Grown(r, r')
    && (forall b :: b in r.local ==>
                      b in r'.local && r'.local[b] in r'.anc && r.local[b] in r'.anc[r'.local[b]])
  }

  lemma AdvancesRefl(r: Repo)
    requires Wf(r)
    ensures Advances(r, r)
  {
  }

  lemma AdvancesTrans(r0: Repo, r1: Repo, r2: Repo)
    requires Wf(r2) && Advances(r0, r1) && Advances(r1, r2)
    ensures Advances(r0, r2)
  {
    forall b | b in r0.local
      ensures b in r2.local && r0.local[b] in r2.anc[r2.local[b]]
    {
      assert r1.anc[r1.local[b]] <= r2.anc[r2.local[b]];
    }
  }

  /** Every commit a local branch reached before is reached by a local branch after. */
  lemma AdvancesKeepsCommits(r: Repo, r': Repo, b: Branch, c: Commit)
    requires Wf(r) && Wf(r') && Advances(r, r') && b in r.local && c in r.anc[r.local[b]]
    ensures exists b' :: b' in r'.local && c in r'.anc[r'.local[b']]
  {
    assert r'.anc[r.local[b]] <= r'.anc[r'.local[b]];
  }

  // ---------------------------------------------------------------- every command

  lemma RunsStayOk(anc: map<Commit, set<Commit>>, names: set<Branch>, runs: map<Op, Run>,
                   anc': map<Commit, set<Commit>>, names': set<Branch>)
    requires RunsOk(anc, names, runs) && names <= names'
    requires forall c :: c in anc ==> c in anc' && anc'[c] == anc[c]
    ensures RunsOk(anc', names', runs)
  {
    forall op | op in runs ensures RunOk(anc', names', op, runs[op]) {
      assert RunOk(anc, names, op, runs[op]);
    }
  }

  /** HEAD leaves the branch it was on, for a commit that is stored. */
  lemma DetachedOk(r: Repo, c: Commit)
    requires Wf(r) && c in r.anc
    ensures Wf(r.(head := Detached(c))) && Advances(r, r.(head := Detached(c)))
  {
  }

  lemma ForwardOk(r: Repo, b: Branch, c: Commit)
    requires Wf(r) && b in r.local && c in r.anc && r.local[b] in r.anc[c]
    ensures Wf(r.(local := r.local[b := c])) && Advances(r, r.(local := r.local[b := c]))
  {
    assert r.local[b := c].Keys == r.local.Keys;
  }

  lemma MoveHeadOk(r: Repo, r': Repo, c: Commit)
    requires Wf(r) && r' == MoveHead(r, c)
    requires c in r.anc && Tip(r) in r.anc[c]
    ensures Wf(r') && Advances(r, r') && Tip(r') == c
  {
    match r.head
    case On(b) => ForwardOk(r, b, c);
    case Detached(_) => DetachedOk(r, c);
  }

  /** A new commit over everything in `below` keeps the store closed. */
  lemma NewCommitOk(r: Repo, r': Repo, c: Commit, below: set<Commit>)
    requires Wf(r) && c !in r.anc && r'.ops <= r.ops
    requires forall d :: d in below ==> d in r.anc && r.anc[d] <= below
    requires r' == r.(anc := r.anc[c := {c} + below], tree := r'.tree, ops := r'.ops, saved := r'.saved,
                      marked := r'.marked, history := r'.history)
    requires TreeOk(r'.tree) && (r'.ops == {} ==> r'.tree.conflicts == {}) && r'.marked <= r.marked + {c}
    ensures Wf(r') && Advances(r, r')
  {
    RunsStayOk(r.anc, r.local.Keys, r.runs, r'.anc, r'.local.Keys);
    forall x, d | x in r'.anc && d in r'.anc[x]
      ensures d in r'.anc && r'.anc[d] <= r'.anc[x]
    {
      if x == c && d != c {
        assert r.anc[d] <= below;
      }
    }
  }

  lemma CommitOk(r: Repo, y: Reply)
    requires Wf(r) && Possible(r, CommitStaged, y)
    ensures var r' := Done(r, CommitStaged, y); Wf(r') && Advances(r, r') && Tip(r') == y.commit && r'.runs == r.runs
  {
    var c, t := y.commit, r.tree;
    var r1 := r.(anc := r.anc[c := {c} + InHead(r)],
                 tree := TreeAfterCommit(t, r.ops - ENDED_BY_COMMIT), ops := r.ops - ENDED_BY_COMMIT,
                 saved := r.saved[c := t.staged],
                 marked := if Marks(t) * t.staged == {} then r.marked else r.marked + {c},
                 history := r.history.(made := r.history.made + [(r.head, c)]));
    NewCommitOk(r, r1, c, InHead(r));
    assert Tip(r1) == Tip(r) && Tip(r) in InHead(r);
    MoveHeadOk(r1, MoveHead(r1, c), c);
    AdvancesTrans(r, r1, MoveHead(r1, c));
  }

  lemma WithMergeOk(r: Repo, target: Commit, c: Commit)
    requires Wf(r) && target in r.anc && c !in r.anc
    ensures var r' := WithMerge(r, target, c);
            && Wf(r') && Advances(r, r') && Tip(r') == Tip(r)
            && c in r'.anc && Tip(r) in r'.anc[c] && target in r'.anc[c]
  {
    NewCommitOk(r, WithMerge(r, target, c), c, r.anc[Tip(r)] + r.anc[target]);
  }

  /** A merge that works keeps everything and brings in the target. */
  lemma MergedOk(r: Repo, target: Commit, c: Commit)
    requires Wf(r) && target in r.anc && c !in r.anc
    ensures var r' := Merged(r, target, c);
            && Wf(r') && Advances(r, r')
            && target in InHead(r') && Tip(r) in InHead(r')
  {
    if target in r.anc[Tip(r)] {
      AdvancesRefl(r);
    } else if Tip(r) in r.anc[target] {
      MoveHeadOk(r, MoveHead(r, target), target);
    } else {
      WithMergeOk(r, target, c);
      var r1 := WithMerge(r, target, c);
      MoveHeadOk(r1, MoveHead(r1, c), c);
      AdvancesTrans(r, r1, MoveHead(r1, c));
    }
  }

  predicate Fetches(cmd: Cmd) { cmd.FetchUnshallow? || cmd.FetchBranch? || cmd.FetchOrigin? }

  lemma FetchOk(r: Repo, cmd: Cmd, y: Reply)
    requires Wf(r) && Fetches(cmd) && Possible(r, cmd, y)
    ensures Wf(Done(r, cmd, y)) && Advances(r, Done(r, cmd, y)) && Done(r, cmd, y).runs == r.runs
  {
    GrownStoreOk(r, Done(r, cmd, y), y.objects);
  }

  lemma GrownStoreOk(r: Repo, r': Repo, objects: map<Commit, set<Commit>>)
    requires Wf(r) && objects.Keys !! r.anc.Keys && Closed(r.anc + objects)
    requires r' == r.(anc := r.anc + objects, tracking := r'.tracking, fetchHead := r'.fetchHead, history := r'.history)
    requires forall b :: b in r'.tracking ==> r'.tracking[b] in r'.anc
    requires r'.fetchHead.Some? ==> r'.fetchHead.value in r'.anc
    ensures Wf(r') && Advances(r, r')
  {
    RunsStayOk(r.anc, r.local.Keys, r.runs, r'.anc, r'.local.Keys);
  }

  predicate Merges(cmd: Cmd) { cmd.MergeFetched? || cmd.MergeBase? || cmd.MergeFastForward? }

  lemma MergeOk(r: Repo, cmd: Cmd, y: Reply)
    requires Wf(r) && Merges(cmd) && Possible(r, cmd, y)
    ensures Wf(Done(r, cmd, y)) && Advances(r, Done(r, cmd, y)) && Done(r, cmd, y).runs == r.runs
  {
    match cmd
    case MergeFastForward => MoveHeadOk(r, MoveHead(r, r.fetchHead.value), r.fetchHead.value);
    case MergeFetched => MergedOk(r, r.fetchHead.value, y.commit);
    case MergeBase(base) => MergedOk(r, BaseTip(r, base).value, y.commit);
  }

  predicate Moves(cmd: Cmd) {
    || cmd.CheckoutNew? || cmd.BranchNew? || cmd.Checkout? || cmd.CheckoutPrevious? || cmd.CheckoutFetched?
  }

  predicate Plain(cmd: Cmd) {
    !Fetches(cmd) && !Merges(cmd) && !Moves(cmd) && !IsAbort(cmd) && !cmd.CommitStaged? && !cmd.VerifyLocal?
  }

  /** The same commits and branches. */
  lemma SameStoreOk(r: Repo, r': Repo)
    requires Wf(r) && r'.anc == r.anc && r'.local == r.local && r'.fetchHead == r.fetchHead && r'.marked == r.marked
    requires r'.previous == r.previous && HeadOk(r, r'.head) && r'.runs == r.runs && r'.ops <= r.ops
    requires TreeOk(r'.tree) && (r'.ops == {} ==> r'.tree.conflicts == {})
    requires forall b :: b in r'.tracking ==> r'.tracking[b] in r.anc
    ensures Wf(r') && Advances(r, r')
  {
  }

  /** The commands that neither store a commit nor touch a local branch. */
  lemma PlainOk(r: Repo, cmd: Cmd, y: Reply)
    requires Wf(r) && Possible(r, cmd, y) && Plain(cmd)
    ensures Wf(Done(r, cmd, y)) && Advances(r, Done(r, cmd, y)) && Done(r, cmd, y).runs == r.runs
  {
    SameStoreOk(r, Done(r, cmd, y));
  }

  lemma NewBranchOk(r: Repo, r': Repo, b: Branch)
    requires Wf(r) && r' == r.(local := r'.local, head := r'.head, previous := r'.previous)
    requires r'.local == r.local || exists c :: c in r.anc && r'.local == r.local[b := c]
    requires HeadOk(r', r'.head) && HeadOk(r', r'.previous)
    ensures Wf(r') && (b !in r.local || r'.local == r.local ==> Advances(r, r'))
  {
    RunsStayOk(r.anc, r.local.Keys, r.runs, r'.anc, r'.local.Keys);
  }

  lemma MovesOk(r: Repo, cmd: Cmd, y: Reply)
    requires Wf(r) && Possible(r, cmd, y) && Moves(cmd)
    ensures Wf(Done(r, cmd, y)) && Done(r, cmd, y).runs == r.runs
    ensures (cmd.CheckoutFetched? && cmd.branch in r.local) || Advances(r, Done(r, cmd, y))
  {
    var b := if cmd.CheckoutPrevious? then "" else cmd.branch;
    NewBranchOk(r, Done(r, cmd, y), b);
  }

  /** An abort that works keeps every branch but the one it sets, and that one too unless commits go. */
  lemma AbortOk(r: Repo, cmd: Cmd, y: Reply)
    requires Wf(r) && IsAbort(cmd) && Accepts(r, cmd, y)
    ensures Wf(AbortedBy(r, cmd, y))
    ensures !Loses(r, cmd) <==> Advances(r, AbortedBy(r, cmd, y))
  {
    var r' := AbortedBy(r, cmd, y);
    var back := Back(r, cmd);
    assert back.Some? ==> back.value.0 in r.local && back.value.1 in r.anc;
    assert r'.local.Keys == r.local.Keys;
    if Loses(r, cmd) {
      assert r'.local[back.value.0] == back.value.1;
    }
  }

  lemma NewRunOk(r: Repo, op: Op, y: Reply)
    requires Wf(r) && MayBegin(r, op, y)
    ensures RunsOk(r.anc + y.objects, r.local.Keys, NewRun(r, op, y))
  {
    var anc := r.anc + y.objects;
    RunsStayOk(r.anc, r.local.Keys, r.runs, anc, r.local.Keys);
    assert Tip(r) in r.anc && r.anc[Tip(r)] <= r.anc.Keys;
  }

  lemma RecordedOk(r: Repo, op: Op, y: Reply)
    requires Wf(r) && MayBegin(r, op, y)
    ensures var r' := Recorded(r, op, y);
            && Wf(r') && Advances(r, r') && Tip(r') == Tip(r) && y.commit in r'.anc
            && (op != Bisect && op != RebaseMerge ==> Tip(r) in r'.anc[y.commit])
  {
    var r' := Recorded(r, op, y);
    NewRunOk(r, op, y);
    assert forall c :: c in r.anc ==> c in r'.anc && r'.anc[c] == r.anc[c];
  }

  lemma BegunOk(r: Repo, op: Op, y: Reply)
    requires Wf(r) && MayBegin(r, op, y)
    ensures Wf(Begun(r, op, y)) && Advances(r, Begun(r, op, y))
  {
    RecordedOk(r, op, y);
    var r1 := Recorded(r, op, y);
    if op == Bisect || op == RebaseMerge {
      DetachedOk(r1, y.commit);
    } else {
      MoveHeadOk(r1, Begun(r, op, y), y.commit);
    }
    AdvancesTrans(r, r1, Begun(r, op, y));
  }

  lemma StoppedOk(r: Repo, cmd: Cmd, y: Reply)
    requires Wf(r) && !cmd.Begin?
    ensures Wf(Undone(r, cmd, y)) && Advances(r, Undone(r, cmd, y))
  {
    AdvancesRefl(r);
    var r' := Undone(r, cmd, y);
    assert r' == r.(tree := r'.tree, ops := r'.ops, history := r'.history);
  }

  /** The commands that can take commits off a branch: `checkout -B` over one that exists, and some aborts. */
  predicate MayLose(r: Repo, cmd: Cmd) {
    (cmd.CheckoutFetched? && cmd.branch in r.local) || Loses(r, cmd)
  }

  lemma DoneOk(r: Repo, cmd: Cmd, y: Reply)
    requires Wf(r) && !cmd.VerifyLocal? && Possible(r, cmd, y)
    ensures Wf(Done(r, cmd, y)) && (MayLose(r, cmd) || Advances(r, Done(r, cmd, y)))
    ensures !IsAbort(cmd) ==> Done(r, cmd, y).runs == r.runs
  {
    if Fetches(cmd) {
      FetchOk(r, cmd, y);
    } else if Merges(cmd) {
      MergeOk(r, cmd, y);
    } else if cmd.CommitStaged? {
      CommitOk(r, y);
    } else if Moves(cmd) {
      MovesOk(r, cmd, y);
    } else if IsAbort(cmd) {
      AbortOk(r, cmd, y);
    } else {
      PlainOk(r, cmd, y);
    }
  }

  /** Any other command keeps every local branch at a descendant. */
  lemma ExecOk(r: Repo, cmd: Cmd, y: Reply)
    requires Wf(r)
    ensures Wf(Exec(r, cmd, y).0)
    ensures MayLose(r, cmd) || Advances(r, Exec(r, cmd, y).0)
  {
    if cmd.VerifyLocal? {
      AdvancesRefl(r);
    } else if Succeeds(r, cmd, y) {
      DoneOk(r, cmd, y);
    } else {
      FailedOk(r, cmd, y);
    }
  }

  lemma FailedOk(r: Repo, cmd: Cmd, y: Reply)
    requires Wf(r)
    ensures Wf(Undone(r, cmd, y)) && Advances(r, Undone(r, cmd, y))
  {
    if cmd.Begin? {
      if MayBegin(r, cmd.op, y) {
        BegunOk(r, cmd.op, y);
      }
    } else {
      StoppedOk(r, cmd, y);
    }
  }

  // ---------------------------------------------------------------- what aborts leave alone

  /** Going back to where the run began, on whichever branch, does not take c off b. */
  predicate Spares(anc: map<Commit, set<Commit>>, run: Run, b: Branch, c: Commit) {
    match run
    case Picking(start, last) => last in anc && c in anc[last] ==> start in anc && c in anc[start]
    case Rebasing(from, tip) => from == On(b) ==> tip in anc && c in anc[tip]
  }

  ghost predicate Guarded(r: Repo, ops: set<Op>, b: Branch, c: Commit) {
    forall op :: op in ops && op in r.runs ==> Spares(r.anc, r.runs[op], b, c)
  }

  /** Nothing is lost but, from some branch, what an interrupted operation had put there since it began. */
  ghost predicate KeepsGuarded(r: Repo, r': Repo) {
    && Grown(r, r')
    && (forall b :: b in r.local ==> b in r'.local && r'.local[b] in r'.anc)
    && (forall b, c :: b in r.local && r.local[b] in r.anc && c in r.anc[r.local[b]] && Guarded(r, r.ops, b, c) ==>
                         c in r'.anc[r'.local[b]])
  }

  lemma AbortSpares(r: Repo, cmd: Cmd, b: Branch, c: Commit)
    requires Wf(r) && IsAbort(cmd) && b in r.local && c in r.anc[r.local[b]]
    requires Guarded(r, {cmd.op}, b, c)
    ensures b in LocalBack(r, cmd) && LocalBack(r, cmd)[b] in r.anc && c in r.anc[LocalBack(r, cmd)[b]]
  {
    var back := Back(r, cmd);
    if back.Some? {
      assert RunOk(r.anc, r.local.Keys, cmd.op, r.runs[cmd.op]);
      assert Spares(r.anc, r.runs[cmd.op], b, c);
    }
  }

  lemma AdvancesGuarded(r0: Repo, r1: Repo, r2: Repo)
    requires Wf(r0) && Wf(r1) && Wf(r2) && KeepsGuarded(r0, r1) && Advances(r1, r2)
    ensures KeepsGuarded(r0, r2)
  {
    forall b, c | b in r0.local && c in r0.anc[r0.local[b]] && Guarded(r0, r0.ops, b, c)
      ensures c in r2.anc[r2.local[b]]
    {
      assert r1.anc[r1.local[b]] <= r2.anc[r2.local[b]];
    }
  }

  /** With no such operation in progress nothing is lost at all. */
  lemma NoRunsAdvances(r: Repo, r': Repo)
    requires Wf(r) && KeepsGuarded(r, r') && r.ops !! r.runs.Keys
    ensures Advances(r, r')
  {
    forall b | b in r.local ensures r.local[b] in r'.anc[r'.local[b]] {
      assert Guarded(r, r.ops, b, r.local[b]);
    }
  }

  /** Commit c is on branch b, and no interrupted operation can take it off. */
  ghost predicate Held(r: Repo, b: Branch, c: Commit) {
    && b in r.local && r.local[b] in r.anc && c in r.anc[r.local[b]]
    && Guarded(r, r.runs.Keys, b, c)
  }

  lemma GuardedGrows(r: Repo, r': Repo, b: Branch, c: Commit)
    requires Wf(r) && Grown(r, r') && r'.runs == r.runs && Guarded(r, r.runs.Keys, b, c)
    ensures Guarded(r', r'.runs.Keys, b, c)
  {
    forall op | op in r.runs ensures Spares(r'.anc, r.runs[op], b, c) {
      assert RunOk(r.anc, r.local.Keys, op, r.runs[op]) && Spares(r.anc, r.runs[op], b, c);
    }
  }

  lemma HeldOver(r: Repo, r': Repo, b: Branch, c: Commit)
    requires Wf(r) && Wf(r') && Advances(r, r') && r'.runs == r.runs && Held(r, b, c)
    ensures Held(r', b, c)
  {
    assert r'.anc[r.local[b]] <= r'.anc[r'.local[b]];
    GuardedGrows(r, r', b, c);
  }

  lemma AbortHolds(r: Repo, cmd: Cmd, y: Reply, b: Branch, c: Commit)
    requires Wf(r) && IsAbort(cmd) && Accepts(r, cmd, y) && Held(r, b, c)
    ensures Held(AbortedBy(r, cmd, y), b, c)
  {
    AbortSpares(r, cmd, b, c);
    var r' := AbortedBy(r, cmd, y);
    forall op | op in r'.runs ensures Spares(r'.anc, r'.runs[op], b, c) {
      assert op in r.runs && Spares(r.anc, r.runs[op], b, c);
    }
  }

  lemma NewRunSpares(r: Repo, op: Op, y: Reply, b: Branch, c: Commit)
    requires Wf(r) && MayBegin(r, op, y) && Held(r, b, c) && op != Bisect
    ensures Spares(r.anc + y.objects, NewRun(r, op, y)[op], b, c)
  {
    var anc := r.anc + y.objects;
    assert c in r.anc && anc[Tip(r)] == r.anc[Tip(r)];
    if op != RebaseMerge && y.commit in y.objects {
      assert anc[y.commit] == y.objects[y.commit] && c !in y.objects.Keys;
    }
  }

  lemma RecordedHolds(r: Repo, op: Op, y: Reply, b: Branch, c: Commit)
    requires Wf(r) && MayBegin(r, op, y) && Held(r, b, c)
    ensures Held(Recorded(r, op, y), b, c)
  {
    var r' := Recorded(r, op, y);
    assert forall d :: d in r.anc ==> d in r'.anc && r'.anc[d] == r.anc[d];
    GuardedGrows(r, r'.(runs := r.runs), b, c);
    if op != Bisect {
      NewRunSpares(r, op, y, b, c);
    }
  }

  lemma BegunHolds(r: Repo, op: Op, y: Reply, b: Branch, c: Commit)
    requires Wf(r) && MayBegin(r, op, y) && Held(r, b, c)
    ensures Held(Begun(r, op, y), b, c)
  {
    RecordedHolds(r, op, y, b, c);
    RecordedOk(r, op, y);
    var r1, r' := Recorded(r, op, y), Begun(r, op, y);
    if op == Bisect || op == RebaseMerge {
      DetachedOk(r1, y.commit);
    } else {
      MoveHeadOk(r1, r', y.commit);
    }
    HeldOver(r1, r', b, c);
  }

  lemma ForcedHolds(r: Repo, cmd: Cmd, y: Reply, b: Branch, c: Commit)
    requires Wf(r) && Possible(r, cmd, y) && cmd.CheckoutFetched? && cmd.branch != b && Held(r, b, c)
    ensures Held(Done(r, cmd, y), b, c)
  {
    GuardedGrows(r, Done(r, cmd, y), b, c);
  }

  lemma DoneHolds(r: Repo, cmd: Cmd, y: Reply, b: Branch, c: Commit)
    requires Wf(r) && Possible(r, cmd, y) && Held(r, b, c) && !(cmd.CheckoutFetched? && cmd.branch == b)
    ensures Held(Done(r, cmd, y), b, c)
  {
    if IsAbort(cmd) {
      AbortHolds(r, cmd, y, b, c);
    } else if cmd.CheckoutFetched? {
      ForcedHolds(r, cmd, y, b, c);
    } else if cmd.VerifyLocal? {
    } else {
      DoneOk(r, cmd, y);
      HeldOver(r, Done(r, cmd, y), b, c);
    }
  }

  lemma FailedHolds(r: Repo, cmd: Cmd, y: Reply, b: Branch, c: Commit)
    requires Wf(r) && Held(r, b, c)
    ensures Held(Undone(r, cmd, y), b, c)
  {
    if cmd.Begin? {
      if MayBegin(r, cmd.op, y) {
        BegunHolds(r, cmd.op, y, b, c);
      }
    } else {
      StoppedOk(r, cmd, y);
      HeldOver(r, Undone(r, cmd, y), b, c);
    }
  }

  /** It stays so whatever git is asked to do next, but for a forced checkout of that very branch. */
  lemma StaysHeld(r: Repo, cmd: Cmd, y: Reply, b: Branch, c: Commit)
    requires Wf(r) && Held(r, b, c) && !(cmd.CheckoutFetched? && cmd.branch == b)
    ensures Held(Exec(r, cmd, y).0, b, c)
  {
    if cmd.VerifyLocal? {
    } else if Succeeds(r, cmd, y) {
      DoneHolds(r, cmd, y, b, c);
    } else {
      FailedHolds(r, cmd, y, b, c);
    }
  }

  // ---------------------------------------------------------------- the checkout on disk

  const NO_REPLY := Reply(false, 0, map[], map[], "", Tree({}, {}, {}, {}, {}), Detached(0))

  function NextReply(replies: seq<Reply>): Reply {
    if replies == [] then NO_REPLY else replies[0]
  }

  /** The checkout directory: which clone of the repository it holds, or held, counted from the first. */
  datatype Place = There(clones: nat) | Gone(clones: nat)

  /** One checkout directory and the git that runs in it. `log` lists the commands run and how each ended. */
  class Checkout {
    var repo: Repo
    var place: Place
    var replies: seq<Reply>
    var log: seq<(Cmd, bool)>

    constructor (repo: Repo, place: Place, replies: seq<Reply>)
      ensures this.repo == repo && this.place == place && this.replies == replies && log == []
    {
      this.repo, this.place, this.replies, log := repo, place, replies, [];
    }

    /** Runs one command with the next reply; when the script has run out, the command fails. */
    method Git(cmd: Cmd) returns (ok: bool)
      requires Wf(repo)
      modifies `repo, `replies, `log
      ensures (repo, ok) == Exec(old(repo), cmd, NextReply(old(replies)))
      ensures log == old(log) + [(cmd, ok)]
      ensures Wf(repo)
      ensures MayLose(old(repo), cmd) || Advances(old(repo), repo)
    {
      ExecOk(repo, cmd, NextReply(replies));
      var r := Exec(repo, cmd, NextReply(replies));
      repo, ok := r.0, r.1;
      replies := if replies == [] then [] else replies[1..];
      log := log + [(cmd, ok)];
    }

    /** RemoveAll on the checkout. */
    method Remove() returns (ok: bool)
      modifies `place, `replies
      ensures ok == NextReply(old(replies)).ok
      ensures place == if ok then Gone(old(place).clones) else old(place)
    {
      ok := NextReply(replies).ok;
      replies := if replies == [] then [] else replies[1..];
      if ok {
        place := Gone(place.clones);
      }
    }

    /** A fresh clone into a directory that is not there. */
    method Clone(cloned: Repo)
      requires place.Gone?
      modifies `repo, `place
      ensures repo == cloned && place == There(old(place).clones + 1)
    {
      repo, place := cloned, There(place.clones + 1);
    }
  }
}
