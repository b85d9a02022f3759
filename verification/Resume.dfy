/**
 PrepareWorkspace: making a checkout that outlived its pod safe to use (internal/bootstrap/resume.go). Undoing
 half-done operations is in Aborts.

 Each method is one phase. `dirty`, `abortFailed` and the exit codes in `log` are what the phase goes by;
 the checkout's true state is in `repo`.
 */
module Resume {
  import opened Wrappers
  import opened Git
  import opened Aborts

  /** A tree the agent must look at first: the rescue branch that holds it and the commit made there. */
  datatype Requirement = Preserved(branch: Branch, commit: Commit)

  const RESCUE_BRANCH := "tatara-bootstrap-rescue"
  const ABORT_RESCUE_BRANCH := "tatara-bootstrap-rescue-aborted"
  const MAX_RESCUE_ATTEMPTS := 9

  // ---------------------------------------------------------------- rescue names

  /** The i-th name tried, counting from 0: the base name, then the base with "-2" to "-9". */
  function RescueName(base: Branch, i: nat): Branch
    requires i < MAX_RESCUE_ATTEMPTS
  {
    if i == 0 then base else base + "-" + ["123456789"[i]]
  }

  lemma RescueNamesDiffer(base: Branch, i: nat, j: nat)
    requires i < j < MAX_RESCUE_ATTEMPTS
    ensures RescueName(base, i) != RescueName(base, j)
  {
    var a, b := RescueName(base, i), RescueName(base, j);
    assert |b| == |base| + 2 && b[|base| + 1] == "123456789"[j];
    if i > 0 {
      assert |a| == |base| + 2 && a[|base| + 1] == "123456789"[i];
    }
  }

  method RescueBranchNames(base: Branch) returns (names: seq<Branch>)
    ensures |names| == MAX_RESCUE_ATTEMPTS
    ensures forall i :: 0 <= i < MAX_RESCUE_ATTEMPTS ==> names[i] == RescueName(base, i)
  {
    names := [base];
    var i := 2;
    while i <= MAX_RESCUE_ATTEMPTS
      invariant 2 <= i <= MAX_RESCUE_ATTEMPTS + 1 && |names| == i - 1
      invariant forall k :: 0 <= k < |names| ==> names[k] == RescueName(base, k)
    {
      names := names + [base + "-" + ["123456789"[i - 1]]];
      i := i + 1;
    }
  }

  function Refusals(base: Branch, k: nat): seq<(Cmd, bool)>
    requires k <= MAX_RESCUE_ATTEMPTS
  {
    seq(k, i requires 0 <= i < k => (CheckoutNew(RescueName(base, i)), false))
  }

  /** The checkout with a new branch at HEAD, checked out. */
  function Claimed(r: Repo, name: Branch): Repo {
    r.(local := r.local[name := Tip(r)], previous := r.head, head := On(name))
  }

  lemma NewBranchEffect(r: Repo, name: Branch, y: Reply)
    requires Wf(r)
    ensures var (r', ok) := Exec(r, CheckoutNew(name), y);
            if ok then name !in r.local && r' == Claimed(r, name) else r' == r
    ensures var (r', ok) := Exec(r, BranchNew(name), y);
            if ok then name !in r.local && r' == r.(local := r.local[name := Tip(r)]) else r' == r
  {
  }

  method TryClaim(co: Checkout, name: Branch) returns (ok: bool)
    requires Wf(co.repo)
    modifies co
    ensures co.place == old(co.place) && Wf(co.repo) && co.log == old(co.log) + [(CheckoutNew(name), ok)]
    ensures if ok then name !in old(co.repo).local && co.repo == Claimed(old(co.repo), name) else co.repo == old(co.repo)
  {
    NewBranchEffect(co.repo, name, NextReply(co.replies));
    ok := co.Git(CheckoutNew(name));
  }

  method TryName(co: Checkout, name: Branch) returns (ok: bool)
    requires Wf(co.repo)
    modifies co
    ensures co.place == old(co.place) && Wf(co.repo) && co.log == old(co.log) + [(BranchNew(name), ok)]
    ensures if ok then
              name !in old(co.repo).local
              && co.repo == old(co.repo).(local := old(co.repo).local[name := Tip(old(co.repo))])
            else co.repo == old(co.repo)
  {
    NewBranchEffect(co.repo, name, NextReply(co.replies));
    ok := co.Git(BranchNew(name));
  }

  /** The first name that git accepts, the k-th, is claimed; it was never a branch before, and no branch moves. */
  method ClaimRescueBranch(co: Checkout, base: Branch) returns (name: Option<Branch>, ghost k: nat)
    requires Wf(co.repo)
    modifies co
    ensures co.place == old(co.place) && Wf(co.repo)
    ensures old(co.log) <= co.log
    ensures name.None? ==> co.repo == old(co.repo) && co.log == old(co.log) + Refusals(base, MAX_RESCUE_ATTEMPTS)
    ensures name.Some? ==>
              && k < MAX_RESCUE_ATTEMPTS && name.value == RescueName(base, k)
              && name.value !in old(co.repo).local
              && co.repo == Claimed(old(co.repo), name.value)
              && co.log == old(co.log) + Refusals(base, k) + [(CheckoutNew(name.value), true)]
  {
    var names := RescueBranchNames(base);
    var i := 0;
    while i < |names|
      invariant 0 <= i <= |names|
      invariant co.place == old(co.place) && co.repo == old(co.repo)
      invariant co.log == old(co.log) + Refusals(base, i)
    {
      var ok := TryClaim(co, names[i]);
      if ok {
        return Some(names[i]), i;
      }
      assert Refusals(base, i + 1) == Refusals(base, i) + [(CheckoutNew(names[i]), false)];
      i := i + 1;
    }
    return None, i;
  }

  function NamesRefused(base: Branch, k: nat): seq<(Cmd, bool)>
    requires k <= MAX_RESCUE_ATTEMPTS
  {
    seq(k, i requires 0 <= i < k => (BranchNew(RescueName(base, i)), false))
  }

  /** A name for a commit made on a detached HEAD; HEAD stays where it is. None means that all nine were refused. */
  method NameRescueBranch(co: Checkout, base: Branch) returns (name: Option<Branch>, ghost k: nat)
    requires Wf(co.repo)
    modifies co
    ensures co.place == old(co.place) && Wf(co.repo) && old(co.log) <= co.log
    ensures name.None? ==> co.repo == old(co.repo) && co.log == old(co.log) + NamesRefused(base, MAX_RESCUE_ATTEMPTS)
    ensures name.Some? ==>
              && k < MAX_RESCUE_ATTEMPTS && name.value == RescueName(base, k)
              && name.value !in old(co.repo).local
              && co.repo == old(co.repo).(local := old(co.repo).local[name.value := Tip(old(co.repo))])
              && co.log == old(co.log) + NamesRefused(base, k) + [(BranchNew(name.value), true)]
    ensures PastProbes(co.log)
  {
    var names := RescueBranchNames(base);
    var i := 0;
    while i < |names|
      invariant 0 <= i <= |names|
      invariant co.place == old(co.place) && co.repo == old(co.repo)
      invariant co.log == old(co.log) + NamesRefused(base, i)
    {
      var ok := TryName(co, names[i]);
      if ok {
        return Some(names[i]), i;
      }
      assert NamesRefused(base, i + 1) == NamesRefused(base, i) + [(BranchNew(names[i]), false)];
      i := i + 1;
    }
    return None, i;
  }

  // ---------------------------------------------------------------- phase D

  predicate IsProbe(cmd: Cmd) {
    cmd.DiffQuiet? || cmd.DiffCachedQuiet? || cmd.SymbolicRef? || cmd.RevParseInside? || cmd.RevParseGitDir?
  }

  lemma ProbeEffect(r: Repo, cmd: Cmd, y: Reply)
    requires Wf(r) && IsProbe(cmd)
    ensures Exec(r, cmd, y).0 == r
  {
  }

  /** A question to git: the checkout stays as it is, and a "quiet" answer is a true one. */
  method Probe(co: Checkout, cmd: Cmd) returns (ok: bool)
    requires Wf(co.repo) && IsProbe(cmd)
    modifies co
    ensures co.repo == old(co.repo) && co.place == old(co.place)
    ensures co.log == old(co.log) + [(cmd, ok)]
    ensures ok && cmd.DiffQuiet? ==> co.repo.tree.work <= co.repo.tree.untracked
    ensures ok && cmd.DiffCachedQuiet? ==> co.repo.tree.staged == {}
    ensures ok && cmd.SymbolicRef? ==> co.repo.head.On?
  {
    ProbeEffect(co.repo, cmd, NextReply(co.replies));
    ok := co.Git(cmd);
  }

  function AllStaged(r: Repo): Repo {
    r.(tree := r.tree.(work := {}, staged := r.tree.staged + r.tree.work))
  }

  lemma AddEffect(r: Repo, y: Reply)
    requires Wf(r)
    ensures Exec(r, AddAll, y).0 == if Exec(r, AddAll, y).1 then AllStaged(r) else r
  {
  }

  method StageAll(co: Checkout) returns (ok: bool)
    requires Wf(co.repo)
    modifies co
    ensures Wf(co.repo) && co.place == old(co.place)
    ensures co.repo == if ok then AllStaged(old(co.repo)) else old(co.repo)
    ensures co.log == old(co.log) + [(AddAll, ok)]
  {
    AddEffect(co.repo, NextReply(co.replies));
    ok := co.Git(AddAll);
  }

  /** Some paths of `big` went from the index back to the working tree; nothing else changed. */
  predicate Unstaged(r: Repo, r': Repo, big: seq<Path>) {
    && r' == r.(tree := r'.tree)
    && r'.tree.untracked == r.tree.untracked && r'.tree.conflicts == r.tree.conflicts && r'.tree.stray == r.tree.stray
    && Dirt(r') == Dirt(r)
    && r'.tree.staged <= r.tree.staged
    && (forall p :: p in r.tree.staged && p !in big ==> p in r'.tree.staged)
    && (forall p :: p in r'.tree.work ==> p in r.tree.work || p in big)
  }

  lemma UnstageEffect(r: Repo, p: Path, y: Reply)
    requires Wf(r)
    ensures Unstaged(r, Exec(r, Unstage(p), y).0, [p])
    ensures Exec(r, Unstage(p), y).1 ==> p !in Exec(r, Unstage(p), y).0.tree.staged
  {
  }

  lemma UnstagedTrans(r0: Repo, r1: Repo, r2: Repo, big: seq<Path>, p: Path)
    requires Unstaged(r0, r1, big) && Unstaged(r1, r2, [p])
    ensures Unstaged(r0, r2, big + [p])
  {
  }

  /** The index kept this path: since the first `from` commands git was asked to unstage it, and refused. */
  predicate RefusedIn(from: nat, log: seq<(Cmd, bool)>, p: Path) {
    exists i :: from <= i < |log| && log[i] == (Unstage(p), false)
  }

  /** An oversized path is among those taken only if git refused to unstage it. */
  predicate BigKeptOut(big: seq<Path>, taken: set<Path>, from: nat, log: seq<(Cmd, bool)>) {
    forall p :: p in big && p in taken ==> RefusedIn(from, log, p)
  }

  lemma StillKeptOut(big: seq<Path>, taken: set<Path>, from: nat, log: seq<(Cmd, bool)>, from': nat, log': seq<(Cmd, bool)>)
    requires BigKeptOut(big, taken, from, log) && from' <= from && log <= log'
    ensures BigKeptOut(big, taken, from', log')
  {
    forall p | p in big && p in taken ensures RefusedIn(from', log', p) {
      assert RefusedIn(from, log, p);
      var i :| from <= i < |log| && log[i] == (Unstage(p), false);
      assert log'[i] == log[i];
    }
  }

  lemma KeptOutStep(big: seq<Path>, i: nat, staged: set<Path>, staged': set<Path>, from: nat, log: seq<(Cmd, bool)>, ok: bool)
    requires i < |big| && from <= |log| && BigKeptOut(big[..i], staged, from, log)
    requires staged' <= staged && (ok ==> big[i] !in staged')
    ensures BigKeptOut(big[..i + 1], staged', from, log + [(Unstage(big[i]), ok)])
  {
    var log' := log + [(Unstage(big[i]), ok)];
    StillKeptOut(big[..i], staged, from, log, from, log');
    assert big[..i + 1] == big[..i] + [big[i]];
    assert log'[|log|] == (Unstage(big[i]), ok);
    if big[i] in staged' {
      assert RefusedIn(from, log', big[i]);
    }
  }

  method UnstageOversized(co: Checkout, big: seq<Path>)
    requires Wf(co.repo)
    modifies co
    ensures co.place == old(co.place) && Wf(co.repo)
    ensures Unstaged(old(co.repo), co.repo, big) && old(co.log) <= co.log
    ensures BigKeptOut(big, co.repo.tree.staged, |old(co.log)|, co.log)
  {
    var i := 0;
    while i < |big|
      invariant 0 <= i <= |big|
      invariant co.place == old(co.place) && Wf(co.repo)
      invariant Unstaged(old(co.repo), co.repo, big[..i]) && old(co.log) <= co.log
      invariant BigKeptOut(big[..i], co.repo.tree.staged, |old(co.log)|, co.log)
    {
      UnstageEffect(co.repo, big[i], NextReply(co.replies));
      ghost var r, log := co.repo, co.log;
      var ok := co.Git(Unstage(big[i]));
      KeptOutStep(big, i, r.tree.staged, co.repo.tree.staged, |old(co.log)|, log, ok);
      UnstagedTrans(old(co.repo), r, co.repo, big[..i], big[i]);
      assert big[..i + 1] == big[..i] + [big[i]];
      i := i + 1;
    }
    assert big[..|big|] == big;
  }

  /** The command run last, and whether it succeeded. */
  predicate LastWas(log: seq<(Cmd, bool)>, cmd: Cmd, ok: bool) {
    log != [] && log[|log| - 1] == (cmd, ok)
  }

  /** Some command has run since the usability probes. */
  predicate PastProbes(log: seq<(Cmd, bool)>) {
    log != [] && !log[|log| - 1].0.RevParseInside? && !log[|log| - 1].0.RevParseGitDir?
  }

  function WithCommit(r: Repo, c: Commit): History {
    r.history.(made := r.history.made + [(r.head, c)])
  }

  /** The checkout after a commit of the index by c. */
  ghost predicate CommittedBy(r: Repo, r': Repo, c: Commit) {
    && c !in r.anc && c in r'.anc && r'.anc[c] == {c} + InHead(r) && Tip(r') == c
    && Grown(r, r')
    && r'.saved == r.saved[c := r.tree.staged]
    && r'.ops == r.ops - ENDED_BY_COMMIT && r'.tree == TreeAfterCommit(r.tree, r'.ops)
    && r'.marked == (if Marks(r.tree) * r.tree.staged == {} then r.marked else r.marked + {c})
    && r'.previous == r.previous && r'.runs == r.runs && r'.history == WithCommit(r, c)
    && (forall b :: b in r.local && r.head != On(b) ==> b in r'.local && r'.local[b] == r.local[b])
    && (r.head.On? ==> r'.head == r.head && r.head.branch in r'.local && r'.local[r.head.branch] == c)
    && (r.head.Detached? ==> r'.head == Detached(c) && r'.local == r.local)
  }

  lemma CommitEffect(r: Repo, y: Reply)
    requires Wf(r)
    ensures Exec(r, CommitStaged, y).1 ==> CommittedBy(r, Exec(r, CommitStaged, y).0, y.commit)
    ensures !Exec(r, CommitStaged, y).1 ==> Exec(r, CommitStaged, y).0 == r
  {
  }

  method Commit(co: Checkout) returns (ok: bool, c: Commit)
    requires Wf(co.repo)
    modifies co
    ensures Wf(co.repo) && co.place == old(co.place) && Advances(old(co.repo), co.repo)
    ensures if ok then CommittedBy(old(co.repo), co.repo, c) else co.repo == old(co.repo)
    ensures co.log == old(co.log) + [(CommitStaged, ok)]
  {
    CommitEffect(co.repo, NextReply(co.replies));
    c := NextReply(co.replies).commit;
    ok := co.Git(CommitStaged);
  }

  lemma SwitchBackEffect(r: Repo, y: Reply)
    requires Wf(r)
    ensures var r' := Exec(r, CheckoutPrevious, y).0;
            r' == r.(head := r'.head, previous := r'.previous)
  {
  }

  /** Everything still uncommitted is oversized. */
  predicate OnlyBig(r: Repo, big: seq<Path>) {
    forall p :: p in Dirt(r) ==> p in big
  }

  datatype SaveOutcome = AddFailed | NothingLeft | CommitFailed | Saved(commit: Commit)

  /** The tree of r went into commit c, except for oversized paths, which are still uncommitted. */
  ghost predicate TreeSaved(r: Repo, r': Repo, c: Commit, big: seq<Path>) {
    && c !in r.anc && c in r'.anc && r'.anc[c] == {c} + InHead(r) && Tip(r') == c && Grown(r, r')
    && c in r'.saved
    && Dirt(r') + r'.saved[c] == Dirt(r) && OnlyBig(r', big)
    && r'.marked == (if Marks(r.tree) * r'.saved[c] == {} then r.marked else r.marked + {c})
    && r'.previous == r.previous && r'.runs == r.runs && r'.history == WithCommit(r, c)
    && (forall b :: b in r.local && r.head != On(b) ==> b in r'.local && r'.local[b] == r.local[b])
    && (r.head.On? ==> r'.head == r.head && r.head.branch in r'.local && r'.local[r.head.branch] == c)
    && (r.head.Detached? ==> r'.head == Detached(c) && r'.local == r.local)
  }

  lemma SavedTree(r: Repo, mid: Repo, r': Repo, c: Commit, big: seq<Path>)
    requires Wf(r) && Unstaged(AllStaged(r), mid, big) && CommittedBy(mid, r', c)
    ensures TreeSaved(r, r', c, big)
  {
    assert Dirt(AllStaged(r)) == Dirt(r);
    assert Tip(mid) == Tip(r) && InHead(mid) == InHead(r);
  }

  /** Everything is staged, and what is oversized taken out of the index again. */
  method StageTree(co: Checkout, big: seq<Path>) returns (added: bool)
    requires Wf(co.repo)
    modifies co
    ensures co.place == old(co.place) && Wf(co.repo) && old(co.log) <= co.log
    ensures !added ==> co.repo == old(co.repo) && LastWas(co.log, AddAll, false)
    ensures added ==> Unstaged(AllStaged(old(co.repo)), co.repo, big)
    ensures added ==> BigKeptOut(big, co.repo.tree.staged, |old(co.log)|, co.log)
  {
    added := StageAll(co);
    if added {
      ghost var log1 := co.log;
      UnstageOversized(co, big);
      StillKeptOut(big, co.repo.tree.staged, |log1|, co.log, |old(co.log)|, co.log);
    }
  }

  /** Everything uncommitted goes into one commit where HEAD stands: add, drop the oversized, commit. */
  method SaveTree(co: Checkout, big: seq<Path>) returns (o: SaveOutcome)
    requires Wf(co.repo)
    modifies co
    ensures co.place == old(co.place) && Wf(co.repo) && Advances(old(co.repo), co.repo)
    ensures old(co.log) <= co.log
    ensures !o.Saved? ==> co.repo == old(co.repo).(tree := co.repo.tree) && Dirt(co.repo) == Dirt(old(co.repo))
    ensures o.NothingLeft? ==> OnlyBig(old(co.repo), big)
    ensures o.Saved? ==> TreeSaved(old(co.repo), co.repo, o.commit, big)
    ensures o.Saved? ==> BigKeptOut(big, co.repo.saved[o.commit], |old(co.log)|, co.log)
    ensures match o
      case AddFailed => LastWas(co.log, AddAll, false)
      case NothingLeft => LastWas(co.log, DiffCachedQuiet, true)
      case CommitFailed => LastWas(co.log, CommitStaged, false)
      case Saved(_) => LastWas(co.log, CommitStaged, true)
  {
    ghost var r0 := co.repo;
    var added := StageTree(co, big);
    if !added {
      AdvancesRefl(r0);
      return AddFailed;
    }
    ghost var r2, log2 := co.repo, co.log;
    var empty := Probe(co, DiffCachedQuiet);
    AdvancesSameRefs(r0, r2);
    if empty {
      return NothingLeft;
    }
    var ok, made := Commit(co);
    if !ok {
      return CommitFailed;
    }
    SavedTree(r0, r2, co.repo, made, big);
    AdvancesTrans(r0, r2, co.repo);
    StillKeptOut(big, r2.tree.staged, |old(co.log)|, log2, |old(co.log)|, co.log);
    return Saved(made);
  }

  lemma AdvancesSameRefs(r: Repo, r': Repo)
    requires Wf(r) && r'.anc == r.anc && r'.local == r.local
    ensures Advances(r, r')
  {
  }

  method SwitchBack(co: Checkout)
    requires Wf(co.repo)
    modifies co
    ensures Wf(co.repo) && co.place == old(co.place)
    ensures co.repo == old(co.repo).(head := co.repo.head, previous := co.repo.previous)
    ensures co.log != [] && co.log[|co.log| - 1].0 == CheckoutPrevious && old(co.log) <= co.log
  {
    SwitchBackEffect(co.repo, NextReply(co.replies));
    var _ := co.Git(CheckoutPrevious);
  }

  /** Every branch that existed is exactly where it was. */
  ghost predicate BranchesStay(r: Repo, r': Repo) {
    Grown(r, r') && forall b :: b in r.local ==> b in r'.local && r'.local[b] == r.local[b]
  }

  ghost predicate IsRescueName(b: Branch) {
    exists k: nat :: k < MAX_RESCUE_ATTEMPTS && b == RescueName(ABORT_RESCUE_BRANCH, k)
  }

  /** The tree of r is the commit c on the branch `name`, which is new; only oversized paths are still loose. */
  ghost predicate Rescued(r: Repo, r': Repo, name: Branch, c: Commit, big: seq<Path>) {
    && IsRescueName(name) && name !in r.local && name in r'.local && r'.local[name] == c
    && c !in r.anc && c in r'.saved
    && Dirt(r') + r'.saved[c] == Dirt(r) && OnlyBig(r', big)
    && r'.marked <= r.marked + {c} && r'.runs == r.runs
    && r'.history == r.history.(made := r.history.made + [(On(name), c)])
  }

  /** The last command is one that leaves no way to keep the tree. */
  predicate NoWayOut(log: seq<(Cmd, bool)>) {
    || LastWas(log, AddAll, false)
    || LastWas(log, CommitStaged, false)
    || LastWas(log, CheckoutNew(RescueName(ABORT_RESCUE_BRANCH, MAX_RESCUE_ATTEMPTS - 1)), false)
  }

  lemma RescuedOnNewBranch(r0: Repo, r1: Repo, r2: Repo, r3: Repo, name: Branch, c: Commit, big: seq<Path>)
    requires Wf(r0) && name !in r0.local && r1 == Claimed(r0, name) && IsRescueName(name)
    requires TreeSaved(r1, r2, c, big)
    requires r3 == r2.(head := r3.head, previous := r3.previous)
    ensures BranchesStay(r0, r3) && Rescued(r0, r3, name, c, big)
  {
  }

  lemma StayedOnNewBranch(r0: Repo, r1: Repo, r3: Repo, name: Branch)
    requires Wf(r0) && name !in r0.local && r1 == Claimed(r0, name)
    requires r3 == r1.(tree := r3.tree, head := r3.head, previous := r3.previous)
    ensures BranchesStay(r0, r3) && r3.marked == r0.marked && r3.history == r0.history
  {
  }

  /** The commit on the rescue branch, and the way back to where the checkout was found. */
  method KeepOnBranch(co: Checkout, big: seq<Path>) returns (o: SaveOutcome)
    requires Wf(co.repo)
    modifies co
    ensures co.place == old(co.place) && Wf(co.repo) && old(co.log) <= co.log
    ensures o.AddFailed? <==> LastWas(co.log, AddAll, false)
    ensures o.CommitFailed? <==> LastWas(co.log, CommitStaged, false)
    ensures o.NothingLeft? || o.Saved? ==> co.log != [] && co.log[|co.log| - 1].0 == CheckoutPrevious
    ensures !o.Saved? ==>
              && co.repo == old(co.repo).(tree := co.repo.tree, head := co.repo.head, previous := co.repo.previous)
              && Dirt(co.repo) == Dirt(old(co.repo))
    ensures o.NothingLeft? ==> OnlyBig(old(co.repo), big)
    ensures o.Saved? ==> exists r :: TreeSaved(old(co.repo), r, o.commit, big)
                                     && co.repo == r.(head := co.repo.head, previous := co.repo.previous)
    ensures o.Saved? ==>
              o.commit in co.repo.saved && BigKeptOut(big, co.repo.saved[o.commit], |old(co.log)|, co.log)
  {
    o := SaveTree(co, big);
    ghost var r, log := co.repo, co.log;
    if o.NothingLeft? || o.Saved? {
      SwitchBack(co);
      if o.Saved? {
        StillKeptOut(big, r.saved[o.commit], |old(co.log)|, log, |old(co.log)|, co.log);
      }
      assert o.Saved? ==> TreeSaved(old(co.repo), r, o.commit, big)
                          && co.repo == r.(head := co.repo.head, previous := co.repo.previous);
    }
  }

  /**
   A dirty tree whose operation could not be aborted. No branch that existed moves; the tree ends as a
   commit on a branch that did not exist, unless all of it is oversized. The checkout goes only when a
   branch could not be claimed, or add or commit failed. `failed` is a wipe that could not be carried out.
   */
  method RescueUnabortable(co: Checkout, big: seq<Path>)
    returns (required: seq<Requirement>, wiped: bool, failed: bool)
    requires Wf(co.repo)
    modifies co
    ensures Wf(co.repo) && BranchesStay(old(co.repo), co.repo)
    ensures old(co.log) <= co.log && co.repo.runs == old(co.repo).runs
    ensures required == [] ==> co.repo.history == old(co.repo).history
    ensures wiped || failed <==> NoWayOut(co.log)
    ensures co.place == if wiped then Gone(old(co.place).clones) else old(co.place)
    ensures (failed ==> !wiped) && PastProbes(co.log)
    ensures wiped || failed ==> required == [] && co.repo.marked == old(co.repo).marked
    ensures !wiped && !failed ==>
              if required == [] then
                && OnlyBig(old(co.repo), big)
                && Dirt(co.repo) == Dirt(old(co.repo)) && co.repo.marked == old(co.repo).marked
              else
                |required| == 1 && Rescued(old(co.repo), co.repo, required[0].branch, required[0].commit, big)
                && BigKeptOut(big, co.repo.saved[required[0].commit], |old(co.log)|, co.log)
  {
    ghost var r0 := co.repo;
    required, wiped, failed := [], false, false;
    var branch, _ := ClaimRescueBranch(co, ABORT_RESCUE_BRANCH);
    if branch.None? {
      assert LastWas(Refusals(ABORT_RESCUE_BRANCH, MAX_RESCUE_ATTEMPTS),
                     CheckoutNew(RescueName(ABORT_RESCUE_BRANCH, MAX_RESCUE_ATTEMPTS - 1)), false);
      wiped := co.Remove();
      failed := !wiped;
      return;
    }
    ghost var r1, log1 := co.repo, co.log;
    var saved := KeepOnBranch(co, big);
    ghost var r3 := co.repo;
    if saved.Saved? {
      ghost var r2 :| TreeSaved(r1, r2, saved.commit, big) && r3 == r2.(head := r3.head, previous := r3.previous);
      RescuedOnNewBranch(r0, r1, r2, r3, branch.value, saved.commit, big);
      StillKeptOut(big, co.repo.saved[saved.commit], |log1|, co.log, |old(co.log)|, co.log);
      required := [Preserved(branch.value, saved.commit)];
      return;
    }
    StayedOnNewBranch(r0, r1, r3, branch.value);
    if !saved.NothingLeft? {
      wiped := co.Remove();
      failed := !wiped;
    }
  }

  /** reset --hard HEAD over a tree with nothing tracked uncommitted: it discards nothing. */
  method ResetClean(co: Checkout)
    requires Wf(co.repo) && co.repo.tree.staged == {} && co.repo.tree.work <= co.repo.tree.untracked
    modifies co
    ensures Wf(co.repo) && co.place == old(co.place)
    ensures co.repo == old(co.repo).(tree := co.repo.tree, ops := co.repo.ops) && Dirt(co.repo) == Dirt(old(co.repo))
    ensures old(co.log) <= co.log && |co.log| == |old(co.log)| + 1
    ensures co.repo.tree.staged == {} && co.repo.tree.work <= co.repo.tree.untracked
    ensures co.log != [] && co.log[|co.log| - 1].0 == ResetHard
  {
    var _ := co.Git(ResetHard);
  }

  /** Both diffs were asked next, and came back quiet. */
  predicate FoundQuiet(before: seq<(Cmd, bool)>, log: seq<(Cmd, bool)>) {
    && |before| + 2 <= |log| && before <= log
    && log[|before|] == (DiffQuiet, true) && log[|before| + 1] == (DiffCachedQuiet, true)
  }

  /** The diffs were asked next until one did not come back quiet. */
  predicate FoundDirty(before: seq<(Cmd, bool)>, log: seq<(Cmd, bool)>) {
    && |before| < |log| && before <= log
    && (|| log[|before|] == (DiffQuiet, false)
        || (log[|before|] == (DiffQuiet, true) && |before| + 1 < |log| && log[|before| + 1] == (DiffCachedQuiet, false)))
  }

  /** dirty: some `diff --quiet` did not come back quiet. */
  method IsDirty(co: Checkout) returns (dirty: bool)
    requires Wf(co.repo)
    modifies co
    ensures co.repo == old(co.repo) && co.place == old(co.place)
    ensures !dirty ==> co.repo.tree.staged == {} && co.repo.tree.work <= co.repo.tree.untracked
    ensures PastProbes(co.log) && old(co.log) <= co.log
    ensures dirty <==> FoundDirty(old(co.log), co.log)
    ensures !dirty <==> FoundQuiet(old(co.log), co.log)
    ensures |co.log| == AskedAt(|old(co.log)|, co.log)
  {
    var quiet := Probe(co, DiffQuiet);
    if !quiet {
      return true;
    }
    var cachedQuiet := Probe(co, DiffCachedQuiet);
    return !cachedQuiet;
  }

  ghost predicate IsKeptName(b: Branch) {
    exists k: nat :: k < MAX_RESCUE_ATTEMPTS && b == RescueName(RESCUE_BRANCH, k)
  }

  /** What the phase does when every operation could be aborted: at most one commit, which a branch then reaches. */
  ghost predicate CommittedInPlace(r: Repo, r': Repo, notes: seq<Note>, big: seq<Path>) {
    if notes == [] then
      r' == r.(tree := r'.tree) && Dirt(r') == Dirt(r)
    else
      && |notes| == 1 && notes[0].RescueCommitted?
      && var RescueCommitted(c, keptOn) := notes[0];
      && c !in r.anc && c in r'.anc && r'.anc[c] == {c} + InHead(r)
      && c in r'.saved && r'.runs == r.runs && r'.history == WithCommit(r, c)
      && Dirt(r') + r'.saved[c] == Dirt(r) && OnlyBig(r', big)
      && (forall b :: b in r.local && r.head != On(b) ==> b in r'.local && r'.local[b] == r.local[b])
      && (r.head.On? ==> r.head.branch in r'.local && r'.local[r.head.branch] == c)
      && (keptOn.Some? ==>
            IsKeptName(keptOn.value) && keptOn.value !in r.local && keptOn.value in r'.local && r'.local[keptOn.value] == c)
      && r'.marked == (if Marks(r.tree) * r'.saved[c] == {} then r.marked else r.marked + {c})
  }

  /** Git refused to stage, or to commit what was staged. */
  predicate NotTaken(log: seq<(Cmd, bool)>) {
    LastWas(log, AddAll, false) || LastWas(log, CommitStaged, false)
  }

  predicate EndsWith(log: seq<(Cmd, bool)>, suffix: seq<(Cmd, bool)>) {
    |suffix| <= |log| && log[|log| - |suffix|..] == suffix
  }

  /** All nine rescue names were tried in order, and refused. */
  predicate NoNameFree(log: seq<(Cmd, bool)>) {
    EndsWith(log, NamesRefused(RESCUE_BRANCH, MAX_RESCUE_ATTEMPTS))
  }

  /** The tree has nothing uncommitted but untracked or oversized files, or git refused to stage or to commit it. */
  predicate Tidied(r: Repo, log: seq<(Cmd, bool)>, big: seq<Path>) {
    || (r.tree.staged == {} && r.tree.work <= r.tree.untracked)
    || OnlyBig(r, big)
    || NotTaken(log)
  }

  /** HEAD was asked about at `at`; a branch keeps the commit exactly when git called it detached and a name was free. */
  predicate KeptIfDetached(note: Note, at: nat, log: seq<(Cmd, bool)>) {
    && note.RescueCommitted? && at < |log| && log[at].0 == SymbolicRef
    && (note.keptOn.Some? ==> !log[at].1)
    && (note.keptOn.None? && !log[at].1 ==> NoNameFree(log))
  }

  /** A commit made where HEAD is detached gets a branch of its own, if a name is free. */
  method KeepDetached(co: Checkout, attached: bool) returns (keptOn: Option<Branch>)
    requires Wf(co.repo) && PastProbes(co.log)
    modifies co
    ensures Wf(co.repo) && co.place == old(co.place) && old(co.log) <= co.log && PastProbes(co.log)
    ensures Advances(old(co.repo), co.repo)
    ensures keptOn.None? ==> co.repo == old(co.repo) && (!attached ==> NoNameFree(co.log))
    ensures attached ==> keptOn.None? && co.log == old(co.log)
    ensures keptOn.Some? ==>
              && IsKeptName(keptOn.value) && keptOn.value !in old(co.repo).local
              && co.repo == old(co.repo).(local := old(co.repo).local[keptOn.value := Tip(old(co.repo))])
  {
    keptOn := None;
    AdvancesRefl(co.repo);
    if !attached {
      ghost var r, k := co.repo, 0;
      keptOn, k := NameRescueBranch(co, RESCUE_BRANCH);
      AdvancesNewBranch(r, co.repo);
      assert keptOn.Some? ==> IsKeptName(keptOn.value);
    }
  }

  lemma InPlace(r0: Repo, r1: Repo, r2: Repo, c: Commit, keptOn: Option<Branch>, big: seq<Path>)
    requires Wf(r0) && TreeSaved(r0, r1, c, big)
    requires keptOn.None? ==> r2 == r1
    requires keptOn.Some? ==>
               && IsKeptName(keptOn.value) && keptOn.value !in r1.local
               && r2 == r1.(local := r1.local[keptOn.value := Tip(r1)])
    ensures CommittedInPlace(r0, r2, [RescueCommitted(c, keptOn)], big) && OnlyBig(r2, big)
  {
  }

  method CommitInPlace(co: Checkout, big: seq<Path>) returns (notes: seq<Note>)
    requires Wf(co.repo)
    modifies co
    ensures Wf(co.repo) && co.place == old(co.place) && Advances(old(co.repo), co.repo)
    ensures CommittedInPlace(old(co.repo), co.repo, notes, big)
    ensures PastProbes(co.log) && Tidied(co.repo, co.log, big) && old(co.log) <= co.log
    ensures notes == [] ==> OnlyBig(old(co.repo), big) || NotTaken(co.log)
    ensures notes != [] && old(co.repo).head.Detached? && notes[0].keptOn.None? ==> NoNameFree(co.log)
    ensures notes != [] ==> KeptIfDetached(notes[0], |old(co.log)|, co.log)
    ensures notes != [] ==> BigKeptOut(big, co.repo.saved[notes[0].commit], |old(co.log)|, co.log)
  {
    notes := [];
    var attached := Probe(co, SymbolicRef);
    ghost var r0, log0 := co.repo, co.log;
    var saved := SaveTree(co, big);
    ghost var r1, log1 := co.repo, co.log;
    if saved.Saved? {
      var keptOn := KeepDetached(co, attached);
      AdvancesTrans(r0, r1, co.repo);
      StillKeptOut(big, r1.saved[saved.commit], |log0|, log1, |old(co.log)|, co.log);
      InPlace(r0, r1, co.repo, saved.commit, keptOn, big);
      notes := [RescueCommitted(saved.commit, keptOn)];
    }
  }

  lemma AdvancesNewBranch(r: Repo, r': Repo)
    requires Wf(r) && r'.anc == r.anc && forall b :: b in r.local ==> b in r'.local && r'.local[b] == r.local[b]
    ensures Advances(r, r')
  {
  }

  /** The commit that is reported, and where HEAD was. */
  function MadeBy(r: Repo, notes: seq<Note>, required: seq<Requirement>): seq<(Head, Commit)> {
    if required != [] then [(On(required[0].branch), required[0].commit)]
    else if notes != [] && notes[0].RescueCommitted? then [(r.head, notes[0].commit)]
    else []
  }

  /** What phase D promises of the repository that phase C left in r1. */
  ghost predicate RescuedFrom(r1: Repo, r2: Repo, abortFailed: bool, notes: seq<Note>, required: seq<Requirement>,
                              log: seq<(Cmd, bool)>, big: seq<Path>) {
    && Advances(r1, r2) && r2.runs == r1.runs
    && r2.history == r1.history.(made := r1.history.made + MadeBy(r1, notes, required))
    && (!abortFailed ==> required == [] && CommittedInPlace(r1, r2, notes, big))
    && (!abortFailed && notes == [] ==>
          (r1.tree.staged == {} && r1.tree.work <= r1.tree.untracked) || OnlyBig(r1, big) || NotTaken(log))
    && (!abortFailed && notes != [] && r1.head.Detached? && notes[0].keptOn.None? ==> NoNameFree(log))
    && (abortFailed ==> notes == [] && BranchesStay(r1, r2))
    && (required == [] && abortFailed ==> r2.marked == r1.marked)
    && (required != [] ==> |required| == 1 && Rescued(r1, r2, required[0].branch, required[0].commit, big))
  }

  /** Where HEAD is asked about: after the diffs, the second of which is asked only when the first was quiet. */
  function AskedAt(asked: nat, log: seq<(Cmd, bool)>): nat {
    if asked < |log| && log[asked].1 then asked + 2 else asked + 1
  }

  /** No oversized path is in a commit just made, but one that git refused to unstage. */
  ghost predicate TakenKeptOut(r': Repo, made: seq<(Head, Commit)>, big: seq<Path>, from: nat,
                               log: seq<(Cmd, bool)>) {
    forall x :: x in made ==> x.1 in r'.saved && BigKeptOut(big, r'.saved[x.1], from, log)
  }

  /** A quiet tree: nothing is staged, committed or claimed; one more command runs, and it moves no branch. */
  predicate LeftAlone(r: Repo, r': Repo, before: seq<(Cmd, bool)>, log: seq<(Cmd, bool)>, abortFailed: bool) {
    && r'.local == r.local && r'.history == r.history && Dirt(r') == Dirt(r) && (!abortFailed ==> r' == r)
    && |log| == |before| + 3 && log[|before| + 2].0 == (if abortFailed then ResetHard else SymbolicRef)
  }

  /** Phase D. */
  method RescueWorkingTree(co: Checkout, big: seq<Path>, abortFailed: bool)
    returns (notes: seq<Note>, required: seq<Requirement>, wiped: bool, failed: bool)
    requires Wf(co.repo)
    modifies co
    ensures Wf(co.repo) && old(co.log) <= co.log && PastProbes(co.log)
    ensures co.place == if wiped then Gone(old(co.place).clones) else old(co.place)
    ensures wiped || failed <==> abortFailed && NoWayOut(co.log)
    ensures (failed ==> !wiped) && (wiped || failed ==> required == [])
    ensures RescuedFrom(old(co.repo), co.repo, abortFailed, notes, required, co.log, big)
    ensures !wiped && !failed ==> Tidied(co.repo, co.log, big)
    ensures required == [] && abortFailed && !wiped && !failed ==> Dirt(co.repo) == Dirt(old(co.repo))
    ensures FoundQuiet(old(co.log), co.log) || FoundDirty(old(co.log), co.log)
    ensures FoundQuiet(old(co.log), co.log) ==>
              && notes == [] && required == [] && !wiped && !failed
              && LeftAlone(old(co.repo), co.repo, old(co.log), co.log, abortFailed)
    ensures notes != [] ==> KeptIfDetached(notes[0], AskedAt(|old(co.log)|, co.log), co.log)
    ensures TakenKeptOut(co.repo, MadeBy(old(co.repo), notes, required), big, |old(co.log)|, co.log)
  {
    notes, required, wiped, failed := [], [], false, false;
    AdvancesRefl(co.repo);
    ghost var r0 := co.repo;
    var dirty := IsDirty(co);
    if abortFailed {
      if !dirty {
        ResetClean(co);
        AdvancesNewBranch(r0, co.repo);
        return;
      }
      ghost var log1 := co.log;
      required, wiped, failed := RescueUnabortable(co, big);
      AdvancesNewBranches(r0, co.repo);
      if required != [] {
        StillKeptOut(big, co.repo.saved[required[0].commit], |log1|, co.log, |old(co.log)|, co.log);
      }
      return;
    }
    if dirty {
      ghost var log1 := co.log;
      notes := CommitInPlace(co, big);
      if notes != [] {
        StillKeptOut(big, co.repo.saved[notes[0].commit], |log1|, co.log, |old(co.log)|, co.log);
      }
    } else {
      var _ := Probe(co, SymbolicRef);
    }
  }

  lemma AdvancesNewBranches(r: Repo, r': Repo)
    requires Wf(r) && Wf(r') && BranchesStay(r, r')
    ensures Advances(r, r')
  {
  }

  // ---------------------------------------------------------------- the whole preparation

  datatype Prep = Prep(wiped: bool, notes: seq<Note>, required: seq<Requirement>)

  /** The last command was a usability probe, and it failed. */
  predicate ProbeFailed(log: seq<(Cmd, bool)>) {
    LastWas(log, RevParseInside, false) || LastWas(log, RevParseGitDir, false)
  }

  /** Both usability probes were asked next, and said yes. */
  function Usable(log: seq<(Cmd, bool)>): seq<(Cmd, bool)> {
    log + [(RevParseInside, true), (RevParseGitDir, true)]
  }

  /** Both probes must say that this is a repository. */
  method IsUsableRepo(co: Checkout) returns (usable: bool)
    requires Wf(co.repo)
    modifies co
    ensures co.repo == old(co.repo) && co.place == old(co.place) && old(co.log) <= co.log
    ensures !usable <==> ProbeFailed(co.log)
    ensures usable ==> co.log == Usable(old(co.log))
  {
    usable := Probe(co, RevParseInside);
    if usable {
      usable := Probe(co, RevParseGitDir);
    }
  }

  /** Commits made here out of conflict markers that a branch of r can now reach. */
  function MarkersOn(r: Repo, r': Repo, b: Branch): set<Commit>
    requires b in r'.local && r'.local[b] in r'.anc
  {
    r'.anc[r'.local[b]] * (r'.marked - r.marked)
  }

  lemma NoMarkersReachable(r: Repo, r': Repo)
    requires Wf(r) && BranchesStay(r, r') && (r'.marked - r.marked) !! r.anc.Keys
    ensures forall b :: b in r.local ==> MarkersOn(r, r', b) == {}
  {
  }

  /** Phase D puts markers on the checked-out branch exactly when its commit took a path that held some. */
  lemma BranchTakesMarks(r: Repo, r': Repo, notes: seq<Note>, big: seq<Path>)
    requires Wf(r) && Wf(r') && CommittedInPlace(r, r', notes, big) && Advances(r, r') && r.head.On?
    ensures MarkersOn(r, r', r.head.branch) != {} <==>
            notes != [] && Marks(r.tree) * r'.saved[notes[0].commit] != {}
  {
    if notes != [] {
      var c := notes[0].commit;
      assert c in r'.anc[r'.local[r.head.branch]] && c !in r.marked;
      if Marks(r.tree) * r'.saved[c] != {} {
        assert c in MarkersOn(r, r', r.head.branch);
      }
    }
  }

  /** Some path with markers of no operation in progress is neither untracked nor oversized. */
  predicate StrayInTheWay(r: Repo, big: seq<Path>) {
    exists p :: p in r.tree.stray && p !in r.tree.untracked && p !in big
  }

  /** Whatever git answers to phase D, stray markers end on the checked-out branch, unless nothing is committed. */
  lemma StrayIsCommitted(r: Repo, r': Repo, notes: seq<Note>, log: seq<(Cmd, bool)>, big: seq<Path>)
    requires Wf(r) && Wf(r') && CommittedInPlace(r, r', notes, big) && Advances(r, r') && r.head.On?
    requires notes == [] ==>
               (r.tree.staged == {} && r.tree.work <= r.tree.untracked) || OnlyBig(r, big) || NotTaken(log)
    requires StrayInTheWay(r, big)
    ensures NotTaken(log) || MarkersOn(r, r', r.head.branch) != {}
  {
    var p :| p in r.tree.stray && p !in r.tree.untracked && p !in big;
    assert p in Marks(r.tree) && p in Dirt(r);
    if notes != [] {
      assert p in Dirt(r') + r'.saved[notes[0].commit];
      assert p in Marks(r.tree) * r'.saved[notes[0].commit];
    }
    BranchTakesMarks(r, r', notes, big);
  }

  /** The markers that old branches gain, over phases C and D. */
  lemma NoStrayNoMarkers(r0: Repo, r1: Repo, r2: Repo, abortFailed: bool, notes: seq<Note>, required: seq<Requirement>,
                         log: seq<(Cmd, bool)>, big: seq<Path>)
    requires Wf(r0) && Wf(r1) && Wf(r2) && SameStore(r0, r1) && FewerOps(r0, r1) && KeepsGuarded(r0, r2)
    requires !abortFailed ==> r1.ops == {}
    requires RescuedFrom(r1, r2, abortFailed, notes, required, log, big)
    ensures r0.tree.stray == {} || abortFailed ==> forall b :: b in r0.local ==> MarkersOn(r0, r2, b) == {}
  {
    if abortFailed {
      NoMarkersReachable(r1, r2);
      assert forall b :: b in r0.local ==> MarkersOn(r0, r2, b) == MarkersOn(r1, r2, b);
    } else if r0.tree.stray == {} {
      assert Marks(r1.tree) == {};
      assert r2.marked == r0.marked;
    }
  }

  /** What a boot put on a rescue branch, if it had to. */
  ghost predicate PutOnNewBranch(r: Repo, r': Repo, required: seq<Requirement>) {
    && |required| <= 1
    && (required != [] ==>
          && IsRescueName(required[0].branch) && required[0].branch !in r.local && required[0].branch in r'.local
          && r'.local[required[0].branch] == required[0].commit && required[0].commit !in r.anc)
  }

  // What happened between two states of one checkout.

  predicate HistoryGrows(r: Repo, r': Repo) {
    r.history.aborts <= r'.history.aborts && r.history.made <= r'.history.made
  }

  function AbortsSince(r: Repo, r': Repo): seq<(Cmd, bool)> {
    if |r.history.aborts| <= |r'.history.aborts| then r'.history.aborts[|r.history.aborts|..] else []
  }

  function MadeSince(r: Repo, r': Repo): seq<(Head, Commit)> {
    if |r.history.made| <= |r'.history.made| then r'.history.made[|r.history.made|..] else []
  }

  /** The uncommitted paths that the aborts left, or that were there when none ran. */
  function Found(r: Repo, r': Repo): set<Path> {
    var t := if r.ops == {} then r.tree else r'.history.left;
    t.work + t.staged
  }

  /** Everything uncommitted is in the one commit made, or still uncommitted; only oversized paths miss the commit. */
  ghost predicate NothingDropped(r: Repo, r': Repo, big: seq<Path>) {
    var made := MadeSince(r, r');
    if made == [] then Dirt(r') == Found(r, r')
    else
      && |made| == 1 && made[0].1 in r'.saved
      && Dirt(r') + r'.saved[made[0].1] == Found(r, r') && OnlyBig(r', big)
  }

  /** A commit made over an operation that could not be aborted is something the agent must look at. */
  function MustLook(r: Repo, r': Repo): seq<Requirement> {
    var made := MadeSince(r, r');
    if GivenUp(AbortsSince(r, r')) && made != [] && made[0].0.On?
    then [Preserved(made[0].0.branch, made[0].1)] else []
  }

  /** The note about a commit made in place, and the branch that keeps it when HEAD was detached. */
  ghost predicate NotedCommit(r: Repo, r': Repo, made: (Head, Commit), note: Note, log: seq<(Cmd, bool)>) {
    && note.RescueCommitted? && note.commit == made.1
    && (note.keptOn.Some? ==>
          && IsKeptName(note.keptOn.value) && note.keptOn.value !in r.local && note.keptOn.value in r'.local
          && r'.local[note.keptOn.value] == made.1)
    && (made.0.Detached? && note.keptOn.None? ==> NoNameFree(log))
  }

  /** The report says what was done: each abort that worked, and each commit made, where it is, and no more. */
  ghost predicate Accounts(r: Repo, r': Repo, prep: Prep, failed: bool, log: seq<(Cmd, bool)>) {
    var tried, made, notes := AbortsSince(r, r'), MadeSince(r, r'), prep.notes;
    && prep.required == MustLook(r, r')
    && (GivenUp(tried) && made != [] ==> made[0].0.On?)
    && (if prep.wiped then made == [] && notes == []
        else if failed || GivenUp(tried) || made == [] then (failed ==> made == []) && notes == AbortNotes(tried)
        else
          && notes != [] && notes[..|notes| - 1] == AbortNotes(tried)
          && NotedCommit(r, r', made[0], notes[|notes| - 1], log))
  }

  // Phases C and D together, from r0 over r1 to r2.

  lemma HistoryAdds(r0: Repo, r1: Repo, r2: Repo, tried: seq<(Cmd, bool)>, made: seq<(Head, Commit)>)
    requires SameStore(r0, r1) && r1.history.aborts == r0.history.aborts + tried
    requires r2.history == r1.history.(made := r1.history.made + made)
    ensures AbortsSince(r0, r2) == tried && MadeSince(r0, r2) == made && HistoryGrows(r0, r2)
  {
  }

  /** Commits that phase C took off a branch do not come back in phase D. */
  lemma StillLost(r0: Repo, r1: Repo, r2: Repo, abortFailed: bool, notes: seq<Note>, required: seq<Requirement>,
                  log: seq<(Cmd, bool)>, big: seq<Path>, b: Branch)
    requires Wf(r0) && Wf(r1) && Wf(r2) && r1.anc == r0.anc && b in r0.local && b in r1.local
    requires RescuedFrom(r1, r2, abortFailed, notes, required, log, big)
    requires r0.local[b] !in r1.anc[r1.local[b]]
    ensures !Advances(r0, r2)
  {
    var t := r0.local[b];
    assert b in r2.local && r2.local[b] in r2.anc;
    if r2.local[b] == r1.local[b] {
      assert r2.anc[r2.local[b]] == r1.anc[r1.local[b]];
    } else {
      assert !abortFailed && notes != [] && r1.head == On(b);
      assert r2.anc[r2.local[b]] == {notes[0].commit} + r1.anc[r1.local[b]];
    }
  }

  lemma LossStays(r0: Repo, r1: Repo, r2: Repo, abortFailed: bool, notes: seq<Note>, required: seq<Requirement>,
                  log: seq<(Cmd, bool)>, big: seq<Path>)
    requires Wf(r0) && Wf(r1) && Wf(r2) && r1.anc == r0.anc && r1.local.Keys == r0.local.Keys
    requires RescuedFrom(r1, r2, abortFailed, notes, required, log, big)
    ensures Advances(r0, r2) <==> Advances(r0, r1)
  {
    if Advances(r0, r1) {
      AdvancesTrans(r0, r1, r2);
    } else {
      var b :| b in r0.local && r0.local[b] !in r1.anc[r1.local[b]];
      StillLost(r0, r1, r2, abortFailed, notes, required, log, big, b);
    }
  }

  lemma SetBackStays(r0: Repo, r1: Repo, r2: Repo)
    requires SetBack(r0, r1) && r1.local.Keys == r0.local.Keys && BranchesStay(r1, r2)
    ensures SetBack(r0, r2)
  {
  }

  /** The branches and what they contain, over both phases. */
  ghost predicate BranchesKept(r: Repo, r': Repo) {
    && KeepsGuarded(r, r')
    && (OneRebase(r) ==> (Advances(r, r') <==> !Lost(r, AbortsSince(r, r'))))
    && (GivenUp(AbortsSince(r, r')) ==> SetBack(r, r'))
    && (forall op :: op in r'.runs ==> op in r.runs && r'.runs[op] == r.runs[op])
  }

  lemma RescueKeeps(r0: Repo, r1: Repo, r2: Repo, tried: seq<(Cmd, bool)>, abortFailed: bool, notes: seq<Note>,
                    required: seq<Requirement>, log: seq<(Cmd, bool)>, big: seq<Path>)
    requires Wf(r0) && Wf(r1) && Wf(r2) && Cleared(r0, r1, tried, abortFailed)
    requires RescuedFrom(r1, r2, abortFailed, notes, required, log, big)
    ensures BranchesKept(r0, r2)
    ensures AbortsSince(r0, r2) == tried && MadeSince(r0, r2) == MadeBy(r1, notes, required) && HistoryGrows(r0, r2)
    ensures r2.history.fetched == r0.history.fetched
  {
    HistoryAdds(r0, r1, r2, tried, MadeBy(r1, notes, required));
    AdvancesGuarded(r0, r1, r2);
    LossStays(r0, r1, r2, abortFailed, notes, required, log, big);
    if abortFailed {
      SetBackStays(r0, r1, r2);
    }
  }

  lemma RescueMarks(r0: Repo, r1: Repo, r2: Repo, tried: seq<(Cmd, bool)>, abortFailed: bool, notes: seq<Note>,
                    required: seq<Requirement>, log: seq<(Cmd, bool)>, big: seq<Path>)
    requires Wf(r0) && Wf(r1) && Wf(r2) && Cleared(r0, r1, tried, abortFailed) && KeepsGuarded(r0, r2)
    requires RescuedFrom(r1, r2, abortFailed, notes, required, log, big)
    ensures r0.tree.stray == {} ==> forall b :: b in r0.local ==> MarkersOn(r0, r2, b) == {}
    ensures r0.ops == {} && r0.head.On? && StrayInTheWay(r0, big) ==>
              NotTaken(log) || MarkersOn(r0, r2, r0.head.branch) != {}
  {
    NoStrayNoMarkers(r0, r1, r2, abortFailed, notes, required, log, big);
    if r0.ops == {} && r0.head.On? && StrayInTheWay(r0, big) {
      assert r1 == r0 && !abortFailed;
      StrayIsCommitted(r1, r2, notes, log, big);
    }
  }

  lemma RescueAccounts(r0: Repo, r1: Repo, r2: Repo, tried: seq<(Cmd, bool)>, abortFailed: bool, notes: seq<Note>,
                       required: seq<Requirement>, log: seq<(Cmd, bool)>, big: seq<Path>)
    requires Wf(r0) && Wf(r1) && Cleared(r0, r1, tried, abortFailed)
    requires RescuedFrom(r1, r2, abortFailed, notes, required, log, big)
    requires AbortsSince(r0, r2) == tried && MadeSince(r0, r2) == MadeBy(r1, notes, required)
    ensures PutOnNewBranch(r0, r2, required)
    ensures Accounts(r0, r2, Prep(false, AbortNotes(tried) + notes, required), false, log)
    ensures required == [] && notes == [] ==>
              && Accounts(r0, r2, Prep(true, [], []), false, log)
              && Accounts(r0, r2, Prep(false, AbortNotes(tried), []), true, log)
    ensures (required == [] && abortFailed ==> Dirt(r2) == Dirt(r1)) ==> NothingDropped(r0, r2, big)
  {
    assert tried != [] ==> r2.history.left == r1.tree;
    assert (AbortNotes(tried) + notes)[..|AbortNotes(tried)|] == AbortNotes(tried);
  }

  /** Why a checkout may be removed: it is no repository, or an abort failed and its tree could not be kept. */
  ghost predicate WipeReason(log: seq<(Cmd, bool)>, abortFailed: bool) {
    ProbeFailed(log) || (abortFailed && NoWayOut(log))
  }

  /**
   What phases C and D come to. Branches keep what they held as `BranchesKept` says, nothing uncommitted is dropped
   unless the checkout goes, the report accounts for all that was done, and no branch that existed gains a commit
   made out of conflict markers unless some were stray.
   */
  ghost predicate Prepared(r: Repo, r': Repo, prep: Prep, failed: bool, log: seq<(Cmd, bool)>, big: seq<Path>) {
    && BranchesKept(r, r') && PutOnNewBranch(r, r', prep.required) && Accounts(r, r', prep, failed, log)
    && HistoryGrows(r, r') && r'.history.fetched == r.history.fetched
    && (r.tree.stray == {} ==> forall b :: b in r.local ==> MarkersOn(r, r', b) == {})
  }

  /** With no operation in progress stray markers reach the checked-out branch, unless nothing is committed. */
  ghost predicate StrayTaken(r: Repo, r': Repo, log: seq<(Cmd, bool)>, big: seq<Path>) {
    r.ops == {} && r.head.On? && StrayInTheWay(r, big) ==>
      NotTaken(log) || (r.head.branch in r'.local && r'.local[r.head.branch] in r'.anc
                        && MarkersOn(r, r', r.head.branch) != {})
  }

  function Summary(tried: seq<(Cmd, bool)>, wiped: bool, failed: bool, notes: seq<Note>, required: seq<Requirement>)
    : Prep
  {
    if failed then Prep(false, AbortNotes(tried), [])
    else if wiped then Prep(true, [], [])
    else Prep(false, AbortNotes(tried) + notes, required)
  }

  lemma RescueSums(r0: Repo, r1: Repo, r2: Repo, tried: seq<(Cmd, bool)>, abortFailed: bool, notes: seq<Note>,
                   required: seq<Requirement>, wiped: bool, failed: bool, log: seq<(Cmd, bool)>, big: seq<Path>,
                   prep: Prep)
    requires Wf(r0) && Wf(r1) && Wf(r2) && Cleared(r0, r1, tried, abortFailed)
    requires RescuedFrom(r1, r2, abortFailed, notes, required, log, big)
    requires prep == Summary(tried, wiped, failed, notes, required) && (failed ==> !wiped)
    requires wiped || failed ==> required == [] && notes == []
    requires required == [] && abortFailed && !wiped && !failed ==> Dirt(r2) == Dirt(r1)
    ensures Prepared(r0, r2, prep, failed, log, big)
    ensures StrayTaken(r0, r2, log, big) && AbortsSince(r0, r2) == tried
    ensures MadeSince(r0, r2) == MadeBy(r1, notes, required)
    ensures !prep.wiped && !failed ==> NothingDropped(r0, r2, big)
  {
    RescueKeeps(r0, r1, r2, tried, abortFailed, notes, required, log, big);
    RescueMarks(r0, r1, r2, tried, abortFailed, notes, required, log, big);
    RescueAccounts(r0, r1, r2, tried, abortFailed, notes, required, log, big);
  }

  /** What a quiet tree means for both phases: the report says nothing but the aborts, and nothing uncommitted moved. */
  ghost predicate QuietIsLeft(r: Repo, r': Repo, before: seq<(Cmd, bool)>, log: seq<(Cmd, bool)>, prep: Prep, failed: bool) {
    var asked := before + AbortsSince(r, r');
    && (FoundQuiet(asked, log) || FoundDirty(asked, log))
    && (FoundQuiet(asked, log) ==>
          && !failed && prep == Prep(false, AbortNotes(AbortsSince(r, r')), [])
          && MadeSince(r, r') == [] && r'.local.Keys == r.local.Keys && Dirt(r') == Found(r, r')
          && |log| == |asked| + 3
          && log[|asked| + 2].0 == (if GivenUp(AbortsSince(r, r')) then ResetHard else SymbolicRef))
  }

  lemma QuietSums(r0: Repo, r1: Repo, r2: Repo, tried: seq<(Cmd, bool)>, abortFailed: bool, before: seq<(Cmd, bool)>,
                  log: seq<(Cmd, bool)>, prep: Prep, failed: bool)
    requires Cleared(r0, r1, tried, abortFailed) && AbortsSince(r0, r2) == tried
    requires FoundQuiet(before + tried, log) || FoundDirty(before + tried, log)
    requires FoundQuiet(before + tried, log) ==>
               !failed && prep == Prep(false, AbortNotes(tried), []) && LeftAlone(r1, r2, before + tried, log, abortFailed)
    ensures QuietIsLeft(r0, r2, before, log, prep, failed)
  {
    assert tried != [] ==> r1.history.left == r1.tree;
  }

  /** What is reported of a commit made in place, and what of the tree it did not take. */
  ghost predicate CommitIsRight(r: Repo, r': Repo, before: seq<(Cmd, bool)>, log: seq<(Cmd, bool)>, prep: Prep,
                                big: seq<Path>) {
    var tried, made := AbortsSince(r, r'), MadeSince(r, r');
    && TakenKeptOut(r', made, big, |before|, log)
    && (!GivenUp(tried) && made != [] ==>
          prep.notes != [] && KeptIfDetached(prep.notes[|prep.notes| - 1], AskedAt(|before + tried|, log), log))
  }

  lemma CommitSums(r0: Repo, r1: Repo, r2: Repo, tried: seq<(Cmd, bool)>, abortFailed: bool, notes: seq<Note>,
                   required: seq<Requirement>, wiped: bool, failed: bool, before: seq<(Cmd, bool)>,
                   log: seq<(Cmd, bool)>, big: seq<Path>, prep: Prep)
    requires Cleared(r0, r1, tried, abortFailed) && AbortsSince(r0, r2) == tried
    requires MadeSince(r0, r2) == MadeBy(r1, notes, required) && before + tried <= log
    requires RescuedFrom(r1, r2, abortFailed, notes, required, log, big)
    requires prep == Summary(tried, wiped, failed, notes, required)
    requires wiped || failed ==> required == [] && notes == []
    requires notes != [] ==> KeptIfDetached(notes[0], AskedAt(|before + tried|, log), log)
    requires TakenKeptOut(r2, MadeBy(r1, notes, required), big, |before + tried|, log)
    ensures CommitIsRight(r0, r2, before, log, prep, big)
  {
    forall x | x in MadeSince(r0, r2)
      ensures x.1 in r2.saved && BigKeptOut(big, r2.saved[x.1], |before|, log)
    {
      StillKeptOut(big, r2.saved[x.1], |before + tried|, log, |before|, log);
    }
  }

  /** Phases C and D of a checkout that is usable. */
  method AbortAndRescue(co: Checkout, big: seq<Path>) returns (prep: Prep, failed: bool)
    requires Wf(co.repo) && co.place.There?
    modifies co
    ensures Wf(co.repo) && old(co.log) <= co.log && PastProbes(co.log)
    ensures co.place == if prep.wiped then Gone(old(co.place).clones) else old(co.place)
    ensures prep.wiped || failed <==> GivenUp(AbortsSince(old(co.repo), co.repo)) && NoWayOut(co.log)
    ensures !prep.wiped && !failed ==> Tidied(co.repo, co.log, big) && NothingDropped(old(co.repo), co.repo, big)
    ensures Prepared(old(co.repo), co.repo, prep, failed, co.log, big)
    ensures !prep.wiped && !failed ==> StrayTaken(old(co.repo), co.repo, co.log, big)
    ensures old(co.log) + AbortsSince(old(co.repo), co.repo) <= co.log
    ensures QuietIsLeft(old(co.repo), co.repo, old(co.log), co.log, prep, failed)
    ensures CommitIsRight(old(co.repo), co.repo, old(co.log), co.log, prep, big)
    ensures Attempted(old(co.repo), AbortsSince(old(co.repo), co.repo))
  {
    ghost var r0, log0 := co.repo, co.log;
    var abortNotes, abortFailed;
    ghost var tried;
    abortNotes, abortFailed, tried := AbortInProgress(co);
    ghost var r1 := co.repo;
    var treeNotes, required, wiped, err := RescueWorkingTree(co, big, abortFailed);
    failed := err;
    prep := if err then Prep(false, abortNotes, [])
    else if wiped then Prep(true, [], [])
    else Prep(false, abortNotes + treeNotes, required);
    RescueSums(r0, r1, co.repo, tried, abortFailed, treeNotes, required, wiped, err, co.log, big, prep);
    QuietSums(r0, r1, co.repo, tried, abortFailed, log0, co.log, prep, failed);
    CommitSums(r0, r1, co.repo, tried, abortFailed, treeNotes, required, wiped, err, log0, co.log, big, prep);
  }

  /**
   PrepareWorkspace. `big` are the oversized paths. Whatever git answers:
   - no branch loses a commit but to an abort of an operation that had put it there, and then it does;
   - the checkout is removed exactly when a usability probe failed, or when an abort was given up and the dirty tree
     could not be put on a rescue branch (`failed`: the removal itself did not work);
   - otherwise everything uncommitted is in one commit or still there, and nothing but untracked or oversized files
     is left uncommitted, unless git would not stage or commit;
   - the report names each abort that worked and each commit made;
   - when an abort was given up, no branch that existed takes a commit;
   - no branch that existed gains a commit made out of conflict markers, if the tree held none but those of the
     operations in progress; and with none in progress, stray markers do reach the checked-out branch.
   */
  method PrepareWorkspace(co: Checkout, big: seq<Path>) returns (prep: Prep, failed: bool)
    requires Wf(co.repo)
    modifies co
    ensures Wf(co.repo) && old(co.log) <= co.log && Prepared(old(co.repo), co.repo, prep, failed, co.log, big)
    ensures co.place == if prep.wiped then Gone(old(co.place).clones) else old(co.place)
    ensures old(co.place).Gone? ==> co.repo == old(co.repo) && prep == Prep(false, [], []) && !failed
    ensures old(co.place).There? ==>
              (prep.wiped || failed <==> WipeReason(co.log, GivenUp(AbortsSince(old(co.repo), co.repo))))
    ensures old(co.place).There? && !prep.wiped && !failed ==>
              && Tidied(co.repo, co.log, big) && NothingDropped(old(co.repo), co.repo, big)
              && StrayTaken(old(co.repo), co.repo, co.log, big)
    ensures GivenUp(AbortsSince(old(co.repo), co.repo)) ==> GivenUp(co.log[|old(co.log)|..])
    ensures old(co.place).There? && !ProbeFailed(co.log) ==>
              && Attempted(old(co.repo), AbortsSince(old(co.repo), co.repo))
              && QuietIsLeft(old(co.repo), co.repo, Usable(old(co.log)), co.log, prep, failed)
              && CommitIsRight(old(co.repo), co.repo, Usable(old(co.log)), co.log, prep, big)
  {
    prep, failed := Prep(false, [], []), false;
    ghost var r0, log0 := co.repo, co.log;
    NothingDone(r0);
    if co.place.Gone? {
      return;
    }
    var usable := IsUsableRepo(co);
    if !usable {
      var removed := co.Remove();
      prep := prep.(wiped := removed);
      failed := !removed;
      return;
    }
    ghost var log1 := co.log;
    prep, failed := AbortAndRescue(co, big);
    AbortsLogged(log0, log1, AbortsSince(r0, co.repo), co.log);
  }

  lemma NothingDone(r: Repo)
    requires Wf(r)
    ensures BranchesKept(r, r) && AbortsSince(r, r) == [] && MadeSince(r, r) == []
    ensures forall b :: b in r.local ==> MarkersOn(r, r, b) == {}
  {
    AdvancesRefl(r);
  }

  lemma AbortsLogged(log0: seq<(Cmd, bool)>, log1: seq<(Cmd, bool)>, tried: seq<(Cmd, bool)>, log: seq<(Cmd, bool)>)
    requires log0 <= log1 && log1 + tried <= log
    ensures GivenUp(tried) ==> GivenUp(log[|log0|..])
  {
    forall x | x in tried ensures x in log[|log0|..] {
      var k :| 0 <= k < |tried| && tried[k] == x;
      assert log[|log0|..][|log1| - |log0| + k] == x;
    }
  }
}
