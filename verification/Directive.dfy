/**
 The resumed-branch block that a boot writes for the agent, as a list of items instead of prose
 (resumeDirective and orderedRepoUnion in internal/bootstrap/bootstrap.go), and the boot of one repository
 that leads to it.
 */
module Directive {
  import opened Wrappers
  import opened Git
  import opened Aborts
  import opened Resume
  import opened Bootstrap

  datatype ResumedRepo = ResumedRepo(
    name: string,
    dir: string,
    taskBranch: Branch,
    baseRef: string,
    result: BaseResult,
    localResult: LocalResult,
    notes: seq<Note>,
    required: seq<Requirement>)

  datatype Item =
    | WorkspaceNote(text: string)
    | RepoNote(dir: string, note: Note)
    | Inspect(dir: string, what: Requirement)
    | MergeRemote(dir: string, branch: Branch)
    | MergeWithBase(dir: string, baseRef: string, branch: Branch)

  /** `header` names repositories, `recovered` is informational, `mandatory` is the agent's first job. */
  datatype Block = Block(header: seq<ResumedRepo>, recovered: seq<Item>, mandatory: seq<Item>)

  function BaseRefName(base: Branch): string {
    if base == "" then "origin/HEAD" else "origin/" + base
  }

  /** The commit that a ref under origin/ names. */
  function RefNamed(r: Repo, ref: string): Option<Commit> {
    if ref == "origin/HEAD" then BaseTip(r, "")
    else if |ref| > 7 && ref[..7] == "origin/" then BaseTip(r, ref[7..])
    else None
  }

  /** The ref a line names has the tip that was to be merged, unless the base is itself called HEAD. */
  lemma BaseRefIsBase(r: Repo, base: Branch)
    requires base != "HEAD"
    ensures RefNamed(r, BaseRefName(base)) == BaseTip(r, base)
  {
    var ref := BaseRefName(base);
    if base != "" {
      assert ref[..7] == "origin/" && ref[7..] == base && "origin/HEAD"[7..] == "HEAD";
    }
  }

  predicate MustInspect(r: ResumedRepo) { |r.required| > 0 }
  predicate RemoteUnreconciled(r: ResumedRepo) { r.localResult == LocalRemoteConflict }
  predicate BaseUnreconciled(r: ResumedRepo) { r.result == Conflict || r.result == BaseUnresolved }
  predicate Recovered(r: ResumedRepo) { |r.notes| > 0 }

  predicate ReconciledCleanly(r: ResumedRepo) {
    || r.result == MergedBase || r.result == UpToDate
    || r.localResult == LocalOnly || r.localResult == LocalAhead || r.localResult == RemoteAhead
    || r.localResult == LocalRemoteMerged
  }

  /** Whether the repository is mentioned at all. */
  predicate Mentioned(r: ResumedRepo) {
    MustInspect(r) || RemoteUnreconciled(r) || BaseUnreconciled(r) || Recovered(r) || ReconciledCleanly(r)
  }

  /** What the block must ask for one repository. */
  predicate Asked(r: ResumedRepo, x: Item) {
    || (exists q :: q in r.required && x == Inspect(r.dir, q))
    || (RemoteUnreconciled(r) && x == MergeRemote(r.dir, r.taskBranch))
    || (BaseUnreconciled(r) && x == MergeWithBase(r.dir, r.baseRef, r.taskBranch))
  }

  function Rank(x: Item): int {
    match x case Inspect(_, _) => 1 case MergeRemote(_, _) => 2 case MergeWithBase(_, _, _) => 3 case _ => 0
  }

  ghost predicate Ordered(xs: seq<Item>) {
    forall i, j :: 0 <= i < j < |xs| ==> Rank(xs[i]) <= Rank(xs[j])
  }

  /** No directory twice. */
  ghost predicate DistinctDirs(rs: seq<ResumedRepo>) {
    forall i, j :: 0 <= i < j < |rs| ==> rs[i].dir != rs[j].dir
  }

  function Dirs(rs: seq<ResumedRepo>): set<string> {
    set k | 0 <= k < |rs| :: rs[k].dir
  }

  ghost predicate IsFirst(all: seq<ResumedRepo>, i: int, r: ResumedRepo) {
    0 <= i < |all| && all[i] == r && r.dir !in Dirs(all[..i])
  }

  /** No directory twice; each listed repository is the first of `all` with its directory; none is left out. */
  ghost predicate FirstOfEach(out: seq<ResumedRepo>, all: seq<ResumedRepo>) {
    && DistinctDirs(out)
    && (forall r :: r in out ==> exists i :: IsFirst(all, i, r))
    && Dirs(out) == Dirs(all)
  }

  lemma DirsAppend(rs: seq<ResumedRepo>, r: ResumedRepo)
    ensures Dirs(rs + [r]) == Dirs(rs) + {r.dir}
  {
    var rs' := rs + [r];
    assert rs'[|rs|] == r;
    assert forall k :: 0 <= k < |rs| ==> rs'[k] == rs[k];
  }

  lemma UnionStep(was: seq<ResumedRepo>, all: seq<ResumedRepo>, r: ResumedRepo)
    requires FirstOfEach(was, all)
    ensures FirstOfEach(if r.dir in Dirs(was) then was else was + [r], all + [r])
  {
    var out := if r.dir in Dirs(was) then was else was + [r];
    var all' := all + [r];
    DirsAppend(was, r);
    DirsAppend(all, r);
    forall x | x in out
      ensures exists i :: IsFirst(all', i, x)
    {
      if x in was {
        var i :| IsFirst(all, i, x);
        assert all'[..i] == all[..i];
        assert IsFirst(all', i, x);
      } else {
        assert all'[..|all|] == all;
        assert IsFirst(all', |all|, r);
      }
    }
  }

  function Flatten(buckets: seq<seq<ResumedRepo>>): seq<ResumedRepo> {
    if buckets == [] then [] else Flatten(buckets[..|buckets| - 1]) + buckets[|buckets| - 1]
  }

  /** The repositories of one bucket whose directory has not been seen, added to the output. */
  method AddBucket(bucket: seq<ResumedRepo>, ghost before: seq<ResumedRepo>, seen: set<string>, out: seq<ResumedRepo>)
    returns (seen': set<string>, out': seq<ResumedRepo>)
    requires FirstOfEach(out, before) && seen == Dirs(out)
    ensures FirstOfEach(out', before + bucket) && seen' == Dirs(out')
  {
    seen', out' := seen, out;
    var i := 0;
    assert before + bucket[..0] == before;
    while i < |bucket|
      invariant 0 <= i <= |bucket|
      invariant FirstOfEach(out', before + bucket[..i]) && seen' == Dirs(out')
    {
      var r := bucket[i];
      UnionStep(out', before + bucket[..i], r);
      assert (before + bucket[..i]) + [r] == before + bucket[..i + 1];
      if r.dir !in seen' {
        DirsAppend(out', r);
        seen' := seen' + {r.dir};
        out' := out' + [r];
      }
      i := i + 1;
    }
    assert bucket[..i] == bucket;
  }

  method OrderedRepoUnion(buckets: seq<seq<ResumedRepo>>) returns (out: seq<ResumedRepo>)
    ensures FirstOfEach(out, Flatten(buckets))
  {
    var seen: set<string> := {};
    out := [];
    ghost var all: seq<ResumedRepo> := [];
    var b := 0;
    while b < |buckets|
      invariant 0 <= b <= |buckets| && all == Flatten(buckets[..b])
      invariant FirstOfEach(out, all) && seen == Dirs(out)
    {
      seen, out := AddBucket(buckets[b], all, seen, out);
      assert buckets[..b + 1][..b] == buckets[..b];
      all := all + buckets[b];
      b := b + 1;
    }
    assert buckets[..b] == buckets;
  }

  // ---------------------------------------------------------------- resumeDirective

  /** The repositories of rs that satisfy p, in order. */
  function Where(rs: seq<ResumedRepo>, p: ResumedRepo -> bool): seq<ResumedRepo> {
    if rs == [] then [] else
      var r := rs[|rs| - 1];
      Where(rs[..|rs| - 1], p) + (if p(r) then [r] else [])
  }

  lemma {:induction false} WhereContains(rs: seq<ResumedRepo>, p: ResumedRepo -> bool, r: ResumedRepo)
    ensures r in Where(rs, p) <==> r in rs && p(r)
  {
    if rs != [] {
      WhereContains(rs[..|rs| - 1], p, r);
      assert rs == rs[..|rs| - 1] + [rs[|rs| - 1]];
    }
  }

  /** The first loop of resumeDirective: one pass, five buckets. */
  method Buckets(repos: seq<ResumedRepo>)
    returns (mustInspect: seq<ResumedRepo>, remote: seq<ResumedRepo>, base: seq<ResumedRepo>,
             recovered: seq<ResumedRepo>, clean: seq<ResumedRepo>)
    ensures mustInspect == Where(repos, MustInspect) && remote == Where(repos, RemoteUnreconciled)
    ensures base == Where(repos, BaseUnreconciled) && recovered == Where(repos, Recovered)
    ensures clean == Where(repos, ReconciledCleanly)
  {
    mustInspect, remote, base, recovered, clean := [], [], [], [], [];
    var i := 0;
    while i < |repos|
      invariant 0 <= i <= |repos|
      invariant mustInspect == Where(repos[..i], MustInspect)
      invariant remote == Where(repos[..i], RemoteUnreconciled)
      invariant base == Where(repos[..i], BaseUnreconciled)
      invariant recovered == Where(repos[..i], Recovered)
      invariant clean == Where(repos[..i], ReconciledCleanly)
    {
      var r := repos[i];
      assert repos[..i + 1][..i] == repos[..i];
      if |r.required| > 0 { mustInspect := mustInspect + [r]; }
      if r.localResult == LocalRemoteConflict { remote := remote + [r]; }
      if r.result == Conflict || r.result == BaseUnresolved { base := base + [r]; }
      if |r.notes| > 0 { recovered := recovered + [r]; }
      if ReconciledCleanly(r) { clean := clean + [r]; }
      i := i + 1;
    }
    assert repos[..|repos|] == repos;
  }

  function Inspections(r: ResumedRepo): seq<Item> {
    seq(|r.required|, i requires 0 <= i < |r.required| => Inspect(r.dir, r.required[i]))
  }

  function NotesOf(r: ResumedRepo): seq<Item> {
    seq(|r.notes|, i requires 0 <= i < |r.notes| => RepoNote(r.dir, r.notes[i]))
  }

  function RemoteItem(r: ResumedRepo): seq<Item> { [MergeRemote(r.dir, r.taskBranch)] }

  function BaseItem(r: ResumedRepo): seq<Item> { [MergeWithBase(r.dir, r.baseRef, r.taskBranch)] }

  /** The items that f gives for each repository, in order. */
  function Each(rs: seq<ResumedRepo>, f: ResumedRepo -> seq<Item>): seq<Item> {
    if rs == [] then [] else Each(rs[..|rs| - 1], f) + f(rs[|rs| - 1])
  }

  lemma {:induction false} EachContains(rs: seq<ResumedRepo>, f: ResumedRepo -> seq<Item>, x: Item)
    ensures x in Each(rs, f) <==> exists r :: r in rs && x in f(r)
  {
    if rs != [] {
      var front, last := rs[..|rs| - 1], rs[|rs| - 1];
      EachContains(front, f, x);
      assert rs == front + [last];
      assert last in rs;
    }
  }

  lemma {:induction false} EachRank(rs: seq<ResumedRepo>, f: ResumedRepo -> seq<Item>, rank: int)
    requires forall r, x :: r in rs && x in f(r) ==> Rank(x) == rank
    ensures forall x :: x in Each(rs, f) ==> Rank(x) == rank
  {
    forall x | x in Each(rs, f)
      ensures Rank(x) == rank
    {
      EachContains(rs, f, x);
    }
  }

  function Mandatory(repos: seq<ResumedRepo>): seq<Item> {
    Each(Where(repos, MustInspect), Inspections)
    + Each(Where(repos, RemoteUnreconciled), RemoteItem)
    + Each(Where(repos, BaseUnreconciled), BaseItem)
  }

  /** Inspect first, then the branch's own remote, then the base. */
  lemma MandatoryOrdered(repos: seq<ResumedRepo>)
    ensures Ordered(Mandatory(repos))
  {
    EachRank(Where(repos, MustInspect), Inspections, 1);
    EachRank(Where(repos, RemoteUnreconciled), RemoteItem, 2);
    EachRank(Where(repos, BaseUnreconciled), BaseItem, 3);
  }

  ghost predicate InSection(rs: seq<ResumedRepo>, p: ResumedRepo -> bool, f: ResumedRepo -> seq<Item>, x: Item) {
    exists r :: r in rs && p(r) && x in f(r)
  }

  lemma SectionContains(rs: seq<ResumedRepo>, p: ResumedRepo -> bool, f: ResumedRepo -> seq<Item>, x: Item)
    ensures x in Each(Where(rs, p), f) <==> InSection(rs, p, f, x)
  {
    EachContains(Where(rs, p), f, x);
    forall r ensures r in Where(rs, p) <==> r in rs && p(r) {
      WhereContains(rs, p, r);
    }
  }

  /** One repository's needs are its lines in the three sections. */
  lemma AskedInSections(r: ResumedRepo, x: Item)
    ensures Asked(r, x) <==>
            || (MustInspect(r) && x in Inspections(r))
            || (RemoteUnreconciled(r) && x in RemoteItem(r))
            || (BaseUnreconciled(r) && x in BaseItem(r))
  {
    if q :| q in r.required && x == Inspect(r.dir, q) {
      var i :| 0 <= i < |r.required| && r.required[i] == q;
      assert Inspections(r)[i] == x;
    }
  }

  /** The mandatory section asks for exactly what some repository needs. */
  lemma MandatoryIsWhatIsAsked(repos: seq<ResumedRepo>, x: Item)
    ensures x in Mandatory(repos) <==> exists r :: r in repos && Asked(r, x)
  {
    SectionContains(repos, MustInspect, Inspections, x);
    SectionContains(repos, RemoteUnreconciled, RemoteItem, x);
    SectionContains(repos, BaseUnreconciled, BaseItem, x);
    forall r | r in repos
      ensures Asked(r, x) <==> (MustInspect(r) && x in Inspections(r)) || (RemoteUnreconciled(r) && x in RemoteItem(r))
                               || (BaseUnreconciled(r) && x in BaseItem(r))
    {
      AskedInSections(r, x);
    }
  }

  function Notices(texts: seq<string>): seq<Item> {
    seq(|texts|, i requires 0 <= i < |texts| => WorkspaceNote(texts[i]))
  }

  function Informational(repos: seq<ResumedRepo>, workspaceNotes: seq<string>): seq<Item> {
    Notices(workspaceNotes) + Each(Where(repos, Recovered), NotesOf)
  }

  lemma {:induction false} EachNote(rs: seq<ResumedRepo>, x: Item)
    ensures x in Each(Where(rs, Recovered), NotesOf) <==> exists r, n :: r in rs && n in r.notes && x == RepoNote(r.dir, n)
  {
    SectionContains(rs, Recovered, NotesOf, x);
    if r, n :| r in rs && n in r.notes && x == RepoNote(r.dir, n) {
      var i :| 0 <= i < |r.notes| && r.notes[i] == n;
      assert NotesOf(r)[i] == x;
    }
  }

  /** The informational section holds the workspace's notes, first, and each note of each repository, and nothing else. */
  lemma InformationalIsWhatIsNoted(repos: seq<ResumedRepo>, workspaceNotes: seq<string>, x: Item)
    ensures x in Informational(repos, workspaceNotes) <==>
            || (exists text :: text in workspaceNotes && x == WorkspaceNote(text))
            || (exists r, n :: r in repos && n in r.notes && x == RepoNote(r.dir, n))
    ensures forall i :: 0 <= i < |Informational(repos, workspaceNotes)| ==>
              (Informational(repos, workspaceNotes)[i].WorkspaceNote? <==> i < |workspaceNotes|)
  {
    EachNote(repos, x);
    var first, then_ := Notices(workspaceNotes), Each(Where(repos, Recovered), NotesOf);
    assert x in first + then_ <==> x in first || x in then_;
    if text :| text in workspaceNotes && x == WorkspaceNote(text) {
      var i :| 0 <= i < |workspaceNotes| && workspaceNotes[i] == text;
      assert first[i] == x;
    }
    forall k | 0 <= k < |then_| ensures then_[k].RepoNote? {
      EachNote(repos, then_[k]);
    }
    assert forall i :: |first| <= i < |first + then_| ==> (first + then_)[i] == then_[i - |first|];
  }

  method AppendItems(items: seq<Item>, rs: seq<ResumedRepo>, f: ResumedRepo -> seq<Item>) returns (out: seq<Item>)
    ensures out == items + Each(rs, f)
  {
    out := items;
    var i := 0;
    while i < |rs|
      invariant 0 <= i <= |rs|
      invariant out == items + Each(rs[..i], f)
    {
      out := out + f(rs[i]);
      assert rs[..i + 1][..i] == rs[..i];
      i := i + 1;
    }
    assert rs[..|rs|] == rs;
  }

  /** The dirs of a concatenation of buckets. */
  lemma {:induction false} FlattenContains(buckets: seq<seq<ResumedRepo>>, r: ResumedRepo)
    ensures r in Flatten(buckets) <==> exists b :: b in buckets && r in b
  {
    if buckets != [] {
      var front, last := buckets[..|buckets| - 1], buckets[|buckets| - 1];
      FlattenContains(front, r);
      assert buckets == front + [last];
      assert last in buckets;
    }
  }

  /** A header that names, once each, the directories of the repositories that have something to say. */
  ghost predicate HeaderOk(header: seq<ResumedRepo>, repos: seq<ResumedRepo>) {
    && DistinctDirs(header)
    && (forall r :: r in header ==> r in repos && Mentioned(r))
    && (forall r :: r in repos && Mentioned(r) ==> r.dir in Dirs(header))
  }

  lemma HeaderFromBuckets(repos: seq<ResumedRepo>, buckets: seq<seq<ResumedRepo>>, header: seq<ResumedRepo>)
    requires buckets == [Where(repos, MustInspect), Where(repos, RemoteUnreconciled), Where(repos, BaseUnreconciled),
                         Where(repos, Recovered), Where(repos, ReconciledCleanly)]
    requires FirstOfEach(header, Flatten(buckets))
    ensures HeaderOk(header, repos)
  {
    forall r
      ensures r in Flatten(buckets) <==> r in repos && Mentioned(r)
    {
      FlattenContains(buckets, r);
      WhereContains(repos, MustInspect, r);
      WhereContains(repos, RemoteUnreconciled, r);
      WhereContains(repos, BaseUnreconciled, r);
      WhereContains(repos, Recovered, r);
      WhereContains(repos, ReconciledCleanly, r);
      assert buckets[0] in buckets && buckets[1] in buckets && buckets[2] in buckets && buckets[3] in buckets
          && buckets[4] in buckets;
    }
    forall r | r in repos && Mentioned(r)
      ensures r.dir in Dirs(header)
    {
      var all := Flatten(buckets);
      assert r in all;
      var k :| 0 <= k < |all| && all[k] == r;
      assert r.dir in Dirs(all);
    }
  }

  lemma HeaderEmpty(header: seq<ResumedRepo>, repos: seq<ResumedRepo>)
    requires HeaderOk(header, repos)
    ensures header == [] <==> forall r :: r in repos ==> !Mentioned(r)
  {
    if header != [] {
      assert header[0] in header;
    }
  }

  /** The buckets, and the header made from them. */
  method Header(repos: seq<ResumedRepo>)
    returns (header: seq<ResumedRepo>, mustInspect: seq<ResumedRepo>, remote: seq<ResumedRepo>,
             base: seq<ResumedRepo>, recovered: seq<ResumedRepo>)
    ensures HeaderOk(header, repos)
    ensures mustInspect == Where(repos, MustInspect) && remote == Where(repos, RemoteUnreconciled)
    ensures base == Where(repos, BaseUnreconciled) && recovered == Where(repos, Recovered)
  {
    var clean;
    mustInspect, remote, base, recovered, clean := Buckets(repos);
    var buckets := [mustInspect, remote, base, recovered, clean];
    header := OrderedRepoUnion(buckets);
    HeaderFromBuckets(repos, buckets, header);
  }

  /** The three loops of the mandatory section. */
  method FirstJobs(mustInspect: seq<ResumedRepo>, remote: seq<ResumedRepo>, base: seq<ResumedRepo>)
    returns (items: seq<Item>)
    ensures items == Each(mustInspect, Inspections) + Each(remote, RemoteItem) + Each(base, BaseItem)
  {
    items := AppendItems([], mustInspect, Inspections);
    items := AppendItems(items, remote, RemoteItem);
    items := AppendItems(items, base, BaseItem);
  }

  /** resumeDirective: no block at all when no repository is mentioned and the workspace has no notes. */
  method ResumeDirective(repos: seq<ResumedRepo>, workspaceNotes: seq<string>) returns (block: Option<Block>)
    ensures block.None? <==> workspaceNotes == [] && forall r :: r in repos ==> !Mentioned(r)
    ensures block.Some? ==>
              && HeaderOk(block.value.header, repos)
              && block.value.recovered == Informational(repos, workspaceNotes)
              && block.value.mandatory == Mandatory(repos)
  {
    var listed, mustInspect, remote, base, recovered := Header(repos);
    HeaderEmpty(listed, repos);
    if |listed| == 0 && |workspaceNotes| == 0 {
      return None;
    }
    var info := AppendItems(Notices(workspaceNotes), recovered, NotesOf);
    var first := FirstJobs(mustInspect, remote, base);
    return Some(Block(listed, info, first));
  }

  // ---------------------------------------------------------------- the boot of one repository

  /** No line in the mandatory section means both reconciles ended well and nothing waits on a rescue branch. */
  lemma NothingMandatory(r: ResumedRepo)
    ensures Mandatory([r]) == [] <==>
            r.required == [] && !RemoteUnreconciled(r) && !BaseUnreconciled(r)
  {
    assert r in [r];
    if r.required != [] {
      MandatoryIsWhatIsAsked([r], Inspect(r.dir, r.required[0]));
      assert Asked(r, Inspect(r.dir, r.required[0]));
    }
    if RemoteUnreconciled(r) {
      MandatoryIsWhatIsAsked([r], MergeRemote(r.dir, r.taskBranch));
      assert Asked(r, MergeRemote(r.dir, r.taskBranch));
    }
    if BaseUnreconciled(r) {
      MandatoryIsWhatIsAsked([r], MergeWithBase(r.dir, r.baseRef, r.taskBranch));
      assert Asked(r, MergeWithBase(r.dir, r.baseRef, r.taskBranch));
    }
    if Mandatory([r]) != [] {
      var x := Mandatory([r])[0];
      MandatoryIsWhatIsAsked([r], x);
      assert Asked(r, x);
    }
  }

  /** A line about one repository is there exactly when that repository needs it. */
  lemma LineMandatory(r: ResumedRepo, x: Item)
    ensures x in Mandatory([r]) <==> Asked(r, x)
  {
    MandatoryIsWhatIsAsked([r], x);
    assert r in [r];
  }

  /** Each line of the mandatory section stands for its own reason. */
  lemma LinesMandatory(r: ResumedRepo)
    ensures MergeRemote(r.dir, r.taskBranch) in Mandatory([r]) <==> RemoteUnreconciled(r)
    ensures MergeWithBase(r.dir, r.baseRef, r.taskBranch) in Mandatory([r]) <==> BaseUnreconciled(r)
    ensures forall q :: q in r.required ==> Inspect(r.dir, q) in Mandatory([r])
  {
    LineMandatory(r, MergeRemote(r.dir, r.taskBranch));
    LineMandatory(r, MergeWithBase(r.dir, r.baseRef, r.taskBranch));
    forall q | q in r.required ensures Inspect(r.dir, q) in Mandatory([r]) {
      LineMandatory(r, Inspect(r.dir, q));
    }
  }

  /** What the boot of a repository adds to the block. */
  function Report(o: Outcome, prep: Prep, name: string, dir: string, task: Branch, base: Branch)
    : (r: Option<ResumedRepo>)
    ensures r.None? <==> !o.resumed && prep.notes == [] && prep.required == []
    ensures r.Some? ==> r.value.name == name && r.value.dir == dir
    ensures r.Some? ==> r.value.taskBranch == task && r.value.baseRef == BaseRefName(base)
    ensures r.Some? ==> r.value.result == o.base && r.value.localResult == o.local
    ensures r.Some? ==> r.value.notes == prep.notes && r.value.required == prep.required
  {
    if o.resumed || |prep.notes| > 0 || |prep.required| > 0 then
      Some(ResumedRepo(name, dir, task, BaseRefName(base), o.base, o.local, prep.notes, prep.required))
    else None
  }

  /**
   Some time since `from` there was a reason to remove the checkout: an abort that was given up is one that was
   tried since.
   */
  ghost predicate HadWipeReason(from: Log, log: Log) {
    exists at: Log :: from <= at <= log && WipeReason(at, GivenUp(at[|from|..]))
  }

  lemma WipeReasonStays(from: Log, log: Log, log': Log)
    requires HadWipeReason(from, log) && log <= log'
    ensures HadWipeReason(from, log')
  {
    var at :| from <= at <= log && WipeReason(at, GivenUp(at[|from|..]));
    assert at <= log';
  }

  /** Every commit made while preparing is reported, and so is every abort that worked; and nothing else is. */
  ghost predicate Told(r: Repo, r': Repo, prep: Prep) {
    var made, tried := MadeSince(r, r'), AbortsSince(r, r');
    && (forall x :: x in made ==>
          || (x.0.On? && Preserved(x.0.branch, x.1) in prep.required)
          || (exists kept :: RescueCommitted(x.1, kept) in prep.notes))
    && (forall q :: q in prep.required ==> (On(q.branch), q.commit) in made)
    && (forall c, kept :: RescueCommitted(c, kept) in prep.notes ==> exists x :: x in made && x.1 == c)
    && (forall op :: op != Merge ==> (Aborted(op) in prep.notes <==> WasAborted(tried, op)))
    && (Aborted(Merge) in prep.notes ==> WasAborted(tried, Merge))
  }

  predicate WasAborted(tried: Log, op: Op) {
    (Abort(op), true) in tried || (AbortFallback(op), true) in tried
  }

  lemma {:induction false} NotesAreAborts(tried: Log, n: Note)
    ensures n in AbortNotes(tried) <==> n.Aborted? && WasAborted(tried, n.op)
  {
    if tried != [] {
      var front, last := tried[..|tried| - 1], tried[|tried| - 1];
      NotesAreAborts(front, n);
      assert forall x :: x in tried <==> x in front || x == last;
    }
  }

  lemma AccountsTell(r: Repo, r': Repo, prep: Prep, log: Log)
    requires Accounts(r, r', prep, false, log) && !prep.wiped && |MadeSince(r, r')| <= 1
    ensures Told(r, r', prep)
  {
    var made, tried := MadeSince(r, r'), AbortsSince(r, r');
    forall n ensures n in AbortNotes(tried) <==> n.Aborted? && WasAborted(tried, n.op) {
      NotesAreAborts(tried, n);
    }
    if made != [] {
      assert made == [made[0]];
      if !GivenUp(tried) {
        var last := prep.notes[|prep.notes| - 1];
        assert prep.notes == AbortNotes(tried) + [last] && last == RescueCommitted(made[0].1, last.keptOn);
        assert RescueCommitted(made[0].1, last.keptOn) in prep.notes;
      }
    }
  }

  lemma UntoldAborts(before: Log, more: Log, op: Op)
    requires forall k :: 0 <= k < |more| ==> more[k].0 == Abort(Merge)
    ensures WasAborted(before, op) ==> WasAborted(before + more, op)
    ensures WasAborted(before + more, op) && op != Merge ==> WasAborted(before, op)
  {
    assert forall x :: x in before + more <==> x in before || x in more;
    assert forall x :: x in more ==> x.0 == Abort(Merge);
  }

  /** Merges that were aborted later change nothing of that. */
  lemma StillTold(r0: Repo, r1: Repo, r2: Repo, prep: Prep)
    requires Told(r0, r1, prep) && Untold(r1, r2)
    requires HistoryGrows(r0, r1)
    ensures Told(r0, r2, prep)
  {
    var more := r2.history.aborts[|r1.history.aborts|..];
    assert AbortsSince(r0, r2) == AbortsSince(r0, r1) + more;
    assert MadeSince(r0, r2) == MadeSince(r0, r1);
    forall op ensures op != Merge ==> (WasAborted(AbortsSince(r0, r1), op) <==> WasAborted(AbortsSince(r0, r2), op))
      ensures WasAborted(AbortsSince(r0, r1), op) ==> WasAborted(AbortsSince(r0, r2), op)
    {
      UntoldAborts(AbortsSince(r0, r1), more, op);
    }
  }

  /** The checkout that was there, prepared, or a fresh clone. */
  method Obtain(co: Checkout, big: seq<Path>, cloned: Repo, cloneOk: bool)
    returns (prep: Prep, persistent: bool, ok: bool)
    requires Wf(co.repo) && Wf(cloned)
    modifies co
    ensures Wf(co.repo) && old(co.log) <= co.log
    ensures old(co.place).There? && co.place == old(co.place) ==> BranchesKept(old(co.repo), co.repo)
    ensures old(co.place).There? && co.place != old(co.place) ==> HadWipeReason(old(co.log), co.log)
    ensures ok ==> co.place.There? && (persistent <==> co.place == old(co.place))
    ensures old(co.place).There? && co.place == old(co.place) ==>
              (ok <==> !WipeReason(co.log, GivenUp(AbortsSince(old(co.repo), co.repo))))
    ensures ok && persistent ==> Prepared(old(co.repo), co.repo, prep, false, co.log, big) && !prep.wiped
    ensures ok && persistent ==> NothingDropped(old(co.repo), co.repo, big)
    ensures ok && !persistent ==> co.repo == cloned && prep.notes == [] && prep.required == []
    ensures !ok ==> !cloneOk || HadWipeReason(old(co.log), co.log)
  {
    ghost var was, from := co.place, co.log;
    var failed;
    prep, failed := PrepareWorkspace(co, big);
    assert was.There? && (prep.wiped || failed) ==> WipeReason(co.log, GivenUp(co.log[|from|..]));
    persistent, ok := co.place.There?, true;
    if failed {
      ok := false;
    } else if !persistent {
      ok := cloneOk;
      if ok {
        co.Clone(cloned);
      }
    }
  }

  /** The results of an entry, or of the run that made none: a branch that was new. */
  function OutcomeOf(entry: Option<ResumedRepo>, resumed: bool): Outcome {
    if entry.Some? then Outcome(resumed, entry.value.localResult, entry.value.result, false)
    else Outcome(resumed, Unknown, NoResult, false)
  }

  /**
   The entry is about this repository and carries what was prepared. A reconcile ran exactly for an owned branch that
   was resumed. A merge line is there exactly when the merge it is about was run since `start` and stopped, or for the
   base when origin/HEAD could not be resolved; whatever HEAD lacks has its line, and each rescue has one.
   */
  ghost predicate Reported(r: Repo, entry: ResumedRepo, prep: Prep, name: string, dir: string, task: Branch, base: Branch,
                           owned: bool, resumed: bool, seen: Option<Commit>, start: nat, log: Log)
    requires Wf(r)
  {
    && entry.name == name && entry.dir == dir && entry.taskBranch == task && entry.baseRef == BaseRefName(base)
    && entry.notes == prep.notes && entry.required == prep.required
    && (entry.result != NoResult <==> owned && resumed)
    && (forall q :: q in prep.required ==> Inspect(dir, q) in Mandatory([entry]))
    && (MergeRemote(dir, task) in Mandatory([entry]) <==> FailedSince(start, log, REMOTE_MERGES))
    && (MergeWithBase(dir, BaseRefName(base), task) in Mandatory([entry]) <==> FailedSince(start, log, BaseMerges(base)))
    && (resumed && seen.Some? && seen.value !in InHead(r) ==> MergeRemote(dir, task) in Mandatory([entry]))
    && (owned && resumed && (BaseTip(r, base).None? || BaseTip(r, base).value !in InHead(r)) ==>
          MergeWithBase(dir, BaseRefName(base), task) in Mandatory([entry]))
  }

  /** There is an entry exactly when the branch was resumed or something was prepared, and it says all of it. */
  ghost predicate ReportedWhenDue(r: Repo, entry: Option<ResumedRepo>, prep: Prep, name: string, dir: string, task: Branch,
                                  base: Branch, owned: bool, resumed: bool, seen: Option<Commit>, start: nat, log: Log)
    requires Wf(r)
  {
    && (entry.Some? <==> resumed || prep.notes != [] || prep.required != [])
    && (entry.Some? ==> Reported(r, entry.value, prep, name, dir, task, base, owned, resumed, seen, start, log))
  }

  /** What the outcome of a checkout must be for its report to be right. */
  ghost predicate SoundOutcome(r: Repo, o: Outcome, task: Branch, base: Branch, owned: bool, resumed: bool,
                               seen: Option<Commit>, start: nat, log: Log)
    requires Wf(r)
  {
    && o.resumed == resumed && (o.base != NoResult <==> owned && resumed)
    && (FailedSince(start, log, REMOTE_MERGES) <==> o.local == LocalRemoteConflict)
    && (FailedSince(start, log, BaseMerges(base)) <==> o.base == Conflict || o.base == BaseUnresolved)
    && (resumed && o.local != LocalRemoteConflict && seen.Some? ==> seen.value in InHead(r))
    && (owned && resumed && o.base != Conflict && o.base != BaseUnresolved ==>
          BaseTip(r, base).Some? && BaseTip(r, base).value in InHead(r))
  }

  lemma ReportIsDue(r: Repo, o: Outcome, prep: Prep, name: string, dir: string, task: Branch, base: Branch,
                    owned: bool, resumed: bool, seen: Option<Commit>, start: nat, log: Log)
    requires Wf(r) && SoundOutcome(r, o, task, base, owned, resumed, seen, start, log)
    ensures ReportedWhenDue(r, Report(o, prep, name, dir, task, base), prep, name, dir, task, base, owned, resumed, seen,
                            start, log)
  {
    var entry := Report(o, prep, name, dir, task, base);
    if entry.Some? {
      LinesMandatory(entry.value);
    }
  }

  /** Whether the header names a repository, by what its probes said and what was prepared. */
  predicate Named(prep: Prep, owned: bool, here: bool, there: bool) {
    prep.notes != [] || prep.required != [] || here || (owned && there)
  }

  /** The one kind of entry that stays unmentioned: a branch of another owner adopted from the remote, quietly. */
  lemma WhoIsMentioned(o: Outcome, prep: Prep, name: string, dir: string, task: Branch, base: Branch, owned: bool,
                       here: bool, there: bool)
    requires ArmOf(here, there, o.resumed, o.local) && o.base != FetchFail
    requires o.base != NoResult <==> owned && o.resumed
    ensures var entry := Report(o, prep, name, dir, task, base);
            entry.Some? ==> (Mentioned(entry.value) <==> Named(prep, owned, here, there))
  {
  }

  /** The task branch is brought up, and what came of it is reported. */
  method BringUp(co: Checkout, prep: Prep, name: string, dir: string, task: Branch, base: Branch, fullClone: bool,
                 owned: bool, persistent: bool)
    returns (entry: Option<ResumedRepo>, failed: bool, ghost seen: Option<Commit>, ghost here: bool, ghost there: bool)
    requires Wf(co.repo)
    modifies co
    ensures Wf(co.repo) && co.place == old(co.place) && old(co.log) <= co.log
    ensures persistent ==> Advances(old(co.repo), co.repo)
    ensures here <==> persistent && task in old(co.repo).local
    ensures Probed(old(co.log), task, persistent, here, there) <= co.log
    ensures FetchedAs(old(co.repo), co.repo, task, seen)
    ensures !failed ==> co.repo.head == On(task) && (there <==> seen.Some?)
    ensures failed ==> FailedAt(old(co.log), co.log, Fatal(task))
    ensures if failed then entry == None
            else ReportedWhenDue(co.repo, entry, prep, name, dir, task, base, owned, here || there, seen,
                                 |Probed(old(co.log), task, persistent, here, there)|, co.log)
    ensures entry.Some? ==> (Mentioned(entry.value) <==> Named(prep, owned, here, there))
    ensures !failed ==> BranchRun(Probed(old(co.log), task, persistent, here, there), co.log, task, base, fullClone, owned,
                                  here, there, OutcomeOf(entry, here || there))
  {
    ghost var log0 := co.log;
    entry, here := None, persistent && task in co.repo.local;
    var o;
    o, seen, there := CheckoutTaskBranch(co, task, base, fullClone, owned, persistent);
    failed := o.failed;
    if !failed {
      ghost var probed := Probed(log0, task, persistent, here, there);
      ConflictsAreStops(probed, co.log, task, base, fullClone, owned, here, there, o);
      ReportIsDue(co.repo, o, prep, name, dir, task, base, owned, here || there, seen, |probed|, co.log);
      WhoIsMentioned(o, prep, name, dir, task, base, owned, here, there);
      entry := Report(o, prep, name, dir, task, base);
    }
  }

  /**
   What Render does to one repository: prepare, clone when there is nothing there, check out, report. `here` and
   `there` are the answers of the branch probes, `start` the log when they were asked, and `seen` the remote tip that
   was fetched.
   */
  method Boot(co: Checkout, big: seq<Path>, cloned: Repo, cloneOk: bool, name: string, dir: string, task: Branch,
              base: Branch, fullClone: bool, owned: bool)
    returns (entry: Option<ResumedRepo>, failed: bool, prep: Prep, ghost seen: Option<Commit>, ghost here: bool,
             ghost there: bool, ghost start: Log)
    requires Wf(co.repo) && Wf(cloned)
    modifies co
    ensures Wf(co.repo)
    // While the checkout is still the one it was, nothing a local branch reached is lost, but to an abort of an
    // operation that had put it there.
    ensures old(co.place).There? && co.place == old(co.place) ==>
              && KeepsGuarded(old(co.repo), co.repo)
              && (OneRebase(old(co.repo)) && !Lost(old(co.repo), AbortsSince(old(co.repo), co.repo)) ==>
                    Advances(old(co.repo), co.repo))
    // It is another one only if there was a reason to remove it.
    ensures old(co.place).There? && co.place != old(co.place) ==> HadWipeReason(old(co.log), co.log)
    ensures !failed ==> co.place.There? && co.repo.head == On(task)
    ensures !failed ==>
              var probed := Probed(start, task, co.place == old(co.place), here, there);
              && old(co.log) <= start && probed <= co.log
              && BranchRun(probed, co.log, task, base, fullClone, owned, here, there, OutcomeOf(entry, here || there))
    ensures !failed && here ==> co.place == old(co.place)
    ensures !failed && co.place == old(co.place) && task in old(co.repo).local ==> here
    ensures !failed ==>
              && FetchedSince(if co.place == old(co.place) then old(co.repo) else cloned, co.repo, task, seen)
              && (there <==> seen.Some?)
    // It fails only when nothing could be cloned, when a checkout that had to go would not, or by a command it
    // cannot do without.
    ensures failed ==>
              || !cloneOk || HadWipeReason(old(co.log), co.log)
              || (old(co.log) <= start && FailedAt(start, co.log, Fatal(task)))
    // The entry is there when it is due, and asks for all that is missing.
    ensures if failed then entry == None
            else ReportedWhenDue(co.repo, entry, prep, name, dir, task, base, owned, here || there, seen,
                                 |Probed(start, task, co.place == old(co.place), here, there)|, co.log)
    ensures entry.Some? ==> (Mentioned(entry.value) <==> Named(prep, owned, here, there))
    // What was prepared is what was done to the checkout.
    ensures !failed ==>
              if co.place == old(co.place) then Told(old(co.repo), co.repo, prep)
              else prep.notes == [] && prep.required == []
  {
    entry, seen, here, there, start := None, None, false, false, co.log;
    ghost var r0 := co.repo;
    var persistent, ok;
    prep, persistent, ok := Obtain(co, big, cloned, cloneOk);
    if !ok {
      failed := true;
      return;
    }
    ghost var r1 := co.repo;
    start := co.log;
    entry, failed, seen, here, there := BringUp(co, prep, name, dir, task, base, fullClone, owned, persistent);
    if persistent {
      BootKeeps(r0, r1, co.repo, prep, start, big);
    }
    if HadWipeReason(old(co.log), start) {
      WipeReasonStays(old(co.log), start, co.log);
    }
  }

  predicate FetchedSince(r: Repo, r': Repo, task: Branch, seen: Option<Commit>) {
    r'.history.fetched == r.history.fetched + if seen.Some? then [(task, seen.value)] else []
  }

  lemma BootAdvances(r0: Repo, r1: Repo, r2: Repo)
    requires Wf(r2) && BranchesKept(r0, r1) && HistoryGrows(r0, r1) && Advances(r1, r2) && Untold(r1, r2)
    ensures OneRebase(r0) && !Lost(r0, AbortsSince(r0, r2)) ==> Advances(r0, r2)
  {
    assert AbortsSince(r0, r1) <= AbortsSince(r0, r2);
    assert Lost(r0, AbortsSince(r0, r1)) ==> Lost(r0, AbortsSince(r0, r2));
    if Advances(r0, r1) {
      AdvancesTrans(r0, r1, r2);
    }
  }

  lemma BootKeeps(r0: Repo, r1: Repo, r2: Repo, prep: Prep, log: Log, big: seq<Path>)
    requires Wf(r0) && Wf(r1) && Wf(r2) && Prepared(r0, r1, prep, false, log, big) && !prep.wiped
    requires NothingDropped(r0, r1, big) && Advances(r1, r2) && Untold(r1, r2)
    ensures KeepsGuarded(r0, r2) && Told(r0, r2, prep)
    ensures OneRebase(r0) && !Lost(r0, AbortsSince(r0, r2)) ==> Advances(r0, r2)
  {
    AdvancesGuarded(r0, r1, r2);
    AccountsTell(r0, r1, prep, log);
    StillTold(r0, r1, r2, prep);
    BootAdvances(r0, r1, r2);
  }
}
