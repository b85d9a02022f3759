/**
 Cloning the skills repository (internal/bootstrap/skills.go) as a protocol that may die after any step: what
 the clone directory and its staging sibling hold, and every state the disk goes through.
 */
module Skills {
  import opened Wrappers
  import opened Strings

  /** A directory: its .git, what was fetched into it, what was checked out to completion, its sentinel file. */
  datatype Dir = Dir(hasGit: bool, fetched: Option<string>, checkout: Option<string>, sentinel: Option<string>)

  /** `removing` while the process is taking the clone directory away, entry by entry. */
  datatype State = State(dst: Option<Dir>, staging: Option<Dir>, removing: bool)

  predicate IsSkillsClone(d: Dir) {
    d.hasGit || d.sentinel.Some?
  }

  /** The sentinel names what was checked out to completion. */
  predicate Complete(d: Dir) {
    d.sentinel.Some? && d.checkout == d.sentinel
  }

  /** A sentinel in the clone directory vouches for its checkout. */
  predicate Sound(s: State) {
    s.dst.Some? && s.dst.value.sentinel.Some? ==> Complete(s.dst.value)
  }

  /** What removing some of the entries of a directory leaves. */
  predicate RemainsOf(whole: Dir, part: Dir) {
    && (part.hasGit ==> whole.hasGit)
    && (part.sentinel == whole.sentinel || part.sentinel == None)
    && (part.checkout == whole.checkout || part.checkout == None)
    && part.fetched == whole.fetched
  }

  /** A complete replacement stands ready for a directory that is a skills clone, or was when its removal began. */
  predicate MayRemove(s: State) {
    && s.dst.Some? && (s.removing || IsSkillsClone(s.dst.value))
    && s.staging.Some? && Complete(s.staging.value)
  }

  predicate RemovesSome(before: State, after: State) {
    && MayRemove(before) && after.staging == before.staging && after.removing
    && after.dst.Some? && RemainsOf(before.dst.value, after.dst.value)
  }

  /** What one step may do to the clone directory. */
  predicate Legal(before: State, after: State) {
    || (after.dst == before.dst && !after.removing)
    || RemovesSome(before, after)
    || (MayRemove(before) && after == State(None, before.staging, false))
    || (before.dst == None && before.staging.Some? && Complete(before.staging.value)
        && after == State(before.staging, None, false))
  }

  predicate Trail(states: seq<State>) {
    states != [] && forall i :: 0 <= i < |states| - 1 ==> Legal(states[i], states[i + 1])
  }

  /** How the steps of one attempt turn out: whether each works, and whether each look at the clone directory does. */
  datatype Luck = Luck(
    init: bool, remote: bool, fetch: bool, checkout: bool, stamp: bool,
    stat: bool, seesGit: bool, seesSentinel: bool, part: Part, remove: bool, rename: bool)

  /** What a removal has left at some point on its way; it stays there when the removal fails. */
  datatype Part = Part(git: bool, sentinel: bool, checkout: bool)

  function Remaining(d: Dir, part: Part): Dir {
    Dir(d.hasGit && part.git, d.fetched, if part.checkout then d.checkout else None,
        if part.sentinel then d.sentinel else None)
  }

  /** All the steps of this attempt work. */
  predicate AllWork(luck: Luck) {
    Builds(luck) && luck.stat && luck.seesGit && luck.seesSentinel && luck.remove && luck.rename
  }

  /** The new tree gets built. */
  predicate Builds(luck: Luck) {
    luck.init && luck.remote && luck.fetch && luck.checkout && luck.stamp
  }

  /** Whatever stands in the clone directory is seen to be a skills clone. */
  predicate SeenAsClone(d: Dir, luck: Luck) {
    (luck.seesGit && d.hasGit) || (luck.seesSentinel && d.sentinel.Some?)
  }

  predicate Works(dst: Option<Dir>, luck: Luck) {
    && Builds(luck) && luck.stat && luck.rename
    && (dst.Some? ==> SeenAsClone(dst.value, luck) && luck.remove)
  }

  /** What an attempt that does not work leaves in the clone directory: it is touched only once the new tree stands. */
  function Left(dst: Option<Dir>, luck: Luck): Option<Dir> {
    if dst == None || !Builds(luck) || !luck.stat || !SeenAsClone(dst.value, luck) then dst
    else if luck.remove then None
    else Some(Remaining(dst.value, luck.part))
  }

  /** One of the attempts works on what those before it left. */
  predicate SomeWorks(dst: Option<Dir>, attempts: seq<Luck>)
    decreases |attempts|
  {
    attempts != [] && (Works(dst, attempts[0]) || SomeWorks(Left(dst, attempts[0]), attempts[1..]))
  }

  function LeftBy(dst: Option<Dir>, attempts: seq<Luck>): Option<Dir>
    decreases |attempts|
  {
    if attempts == [] then dst else LeftBy(Left(dst, attempts[0]), attempts[1..])
  }

  class Disk {
    var dst: Option<Dir>
    var staging: Option<Dir>
    ghost var removing: bool
    ghost var states: seq<State>

    ghost function Now(): State
      reads this
    {
      State(dst, staging, removing)
    }

    ghost predicate Valid()
      reads this
    {
      Trail(states) && states[|states| - 1] == Now()
    }

    constructor (dst: Option<Dir>, staging: Option<Dir>)
      ensures Valid() && Now() == State(dst, staging, false) && states == [Now()]
    {
      this.dst, this.staging, removing := dst, staging, false;
      states := [State(dst, staging, false)];
    }

    ghost method Record()
      requires Trail(states) && Legal(states[|states| - 1], Now())
      modifies `states
      ensures Valid() && states == old(states) + [Now()]
    {
      states := states + [Now()];
    }

    /** Something happened to the staging directory only. */
    method SetStaging(d: Option<Dir>)
      requires Valid()
      modifies this
      ensures Valid() && old(states) < states && dst == old(dst) && staging == d
    {
      staging, removing := d, false;
      Record();
    }

    /** The error, if any, is ignored. */
    method RemoveStaging()
      requires Valid()
      modifies this
      ensures Valid() && old(states) < states && dst == old(dst)
      ensures staging == None || staging == old(staging)
    {
      var removed: bool := *;
      SetStaging(if removed then None else staging);
    }

    /** A step that failed may have left anything in the staging directory. */
    method Spoil()
      requires Valid()
      modifies this
      ensures Valid() && old(states) < states && dst == old(dst)
    {
      var left: Option<Dir> := *;
      SetStaging(left);
    }

    method GitInit(works: bool)
      requires Valid()
      modifies this
      ensures Valid() && old(states) < states && dst == old(dst)
      ensures works ==> staging.Some? && staging.value.hasGit
    {
      if works {
        SetStaging(Some(if staging.Some? then staging.value.(hasGit := true) else Dir(true, None, None, None)));
      } else {
        Spoil();
      }
    }

    method GitRemoteAdd(works: bool)
      requires Valid() && staging.Some?
      modifies this
      ensures Valid() && old(states) < states && dst == old(dst)
      ensures works ==> staging == old(staging)
    {
      if works {
        SetStaging(staging);
      } else {
        Spoil();
      }
    }

    method GitFetch(ref: string, works: bool)
      requires Valid() && staging.Some?
      modifies this
      ensures Valid() && old(states) < states && dst == old(dst)
      ensures works ==> staging == Some(old(staging).value.(fetched := Some(ref)))
    {
      if works {
        SetStaging(Some(staging.value.(fetched := Some(ref))));
      } else {
        Spoil();
      }
    }

    method GitCheckout(works: bool)
      requires Valid() && staging.Some?
      modifies this
      ensures Valid() && old(states) < states && dst == old(dst)
      ensures works ==> staging == Some(old(staging).value.(checkout := old(staging).value.fetched))
    {
      if works {
        SetStaging(Some(staging.value.(checkout := staging.value.fetched)));
      } else {
        Spoil();
      }
    }

    method WriteSentinel(ref: string, works: bool)
      requires Valid() && staging.Some?
      modifies this
      ensures Valid() && old(states) < states && dst == old(dst)
      ensures works ==> staging == Some(old(staging).value.(sentinel := Some(ref)))
    {
      if works {
        SetStaging(Some(staging.value.(sentinel := Some(ref))));
      } else {
        Spoil();
      }
    }

    /** promoteSkillsClone: the clone directory is destroyed only if it is itself a skills clone. */
    method Promote(luck: Luck) returns (ok: bool)
      requires Valid() && staging.Some? && Complete(staging.value)
      modifies this
      ensures Valid() && old(states) <= states
      ensures ok <==> luck.stat && luck.rename && (old(dst).Some? ==> SeenAsClone(old(dst).value, luck) && luck.remove)
      ensures ok ==> dst == old(staging) && staging == None
      ensures !ok && luck.stat && old(dst).Some? && SeenAsClone(old(dst).value, luck) ==>
                dst == if luck.remove then None else Some(Remaining(old(dst).value, luck.part))
      ensures !luck.stat || old(dst) == None || !SeenAsClone(old(dst).value, luck) ==> ok || dst == old(dst)
    {
      if !luck.stat {
        return false;
      }
      if dst.Some? {
        var gitSeen, sentinelSeen := luck.seesGit && dst.value.hasGit, luck.seesSentinel && dst.value.sentinel.Some?;
        if !gitSeen && !sentinelSeen {
          return false;
        }
        ok := RemoveClone(luck);
        if !ok {
          return;
        }
      }
      ok := luck.rename;
      if ok {
        dst, staging, removing := staging, None, false;
        Record();
      }
    }

    /** os.RemoveAll on the clone directory, which may fail or die half way. */
    method RemoveClone(luck: Luck) returns (ok: bool)
      requires Valid() && dst.Some? && IsSkillsClone(dst.value) && staging.Some? && Complete(staging.value)
      modifies this
      ensures Valid() && old(states) < states && staging == old(staging)
      ensures ok == luck.remove
      ensures dst == if ok then None else Some(Remaining(old(dst).value, luck.part))
    {
      dst, removing := Some(Remaining(dst.value, luck.part)), true;
      Record();
      ok := luck.remove;
      if ok {
        dst := None;
      }
      removing := false;
      Record();
    }

    /** One attempt: build the new tree in staging, stamp it, promote it. */
    method Attempt(ref: string, luck: Luck) returns (ok: bool)
      requires Valid()
      modifies this
      ensures Valid() && old(states) <= states
      ensures ok <==> Works(old(dst), luck)
      ensures ok ==> dst.Some? && dst.value.sentinel == Some(ref) && dst.value.checkout == Some(ref)
      ensures !ok ==> dst == Left(old(dst), luck)
    {
      RemoveStaging();
      GitInit(luck.init);
      if !luck.init { return false; }
      GitRemoteAdd(luck.remote);
      if !luck.remote { return false; }
      GitFetch(ref, luck.fetch);
      if !luck.fetch { return false; }
      GitCheckout(luck.checkout);
      if !luck.checkout { return false; }
      WriteSentinel(ref, luck.stamp);
      if !luck.stamp { return false; }
      ok := Promote(luck);
    }

    /**
     Up to three attempts, when there is a repository and a place for it, unless the clone directory can be read to vouch
     for the ref. It is cloned exactly when one of them works.
     */
    method CloneSkillsRepo(configured: bool, skillsRef: string, readable: bool, attempts: seq<Luck>)
      returns (cloned: bool)
      requires Valid() && |attempts| == 3
      modifies this
      ensures Valid() && old(states) <= states
      ensures
        var ref := if skillsRef == "" then "main" else skillsRef;
        var wanted := configured && !(readable && Current(old(dst), ref));
        && (cloned <==> wanted && SomeWorks(old(dst), attempts))
        && (cloned ==> dst.Some? && dst.value.sentinel == Some(ref) && dst.value.checkout == Some(ref))
        && (!cloned ==> dst == LeftBy(old(dst), if wanted then attempts else []))
        && (wanted <==> states != old(states))
      ensures old(dst).Some? && !IsSkillsClone(old(dst).value) ==> dst == old(dst)
    {
      cloned := false;
      var ref := if skillsRef == "" then "main" else skillsRef;
      if !configured || (readable && Current(dst, ref)) {
        return;
      }
      var attempt := 1;
      while attempt <= 3 && !cloned
        invariant 1 <= attempt <= 4 && Valid() && old(states) <= states
        invariant cloned ==> dst.Some? && dst.value.sentinel == Some(ref) && dst.value.checkout == Some(ref)
        invariant cloned ==> SomeWorks(old(dst), attempts)
        invariant !cloned ==> LeftBy(old(dst), attempts) == LeftBy(dst, attempts[attempt - 1..])
        invariant !cloned ==> SomeWorks(old(dst), attempts) == SomeWorks(dst, attempts[attempt - 1..])
        invariant old(dst).Some? && !IsSkillsClone(old(dst).value) ==> !cloned && dst == old(dst)
      {
        var next := attempts[attempt - 1..];
        assert next[0] == attempts[attempt - 1] && next[1..] == attempts[attempt..];
        cloned := Attempt(ref, attempts[attempt - 1]);
        attempt := attempt + 1;
      }
      RemoveStaging();
    }
  }

  /** The clone directory already holds the ref, by its sentinel. */
  predicate Current(dst: Option<Dir>, ref: string) {
    dst.Some? && dst.value.sentinel.Some? && TrimSpace(dst.value.sentinel.value) == ref
  }

  /** A foreign directory in the way is never replaced, whatever works. */
  lemma {:induction false} ForeignBlocks(dst: Option<Dir>, attempts: seq<Luck>)
    requires dst.Some? && !IsSkillsClone(dst.value)
    ensures !SomeWorks(dst, attempts) && LeftBy(dst, attempts) == dst
    decreases |attempts|
  {
    if attempts != [] {
      ForeignBlocks(dst, attempts[1..]);
    }
  }

  /**
   Otherwise an attempt in which every step works makes the clone, after any that did not, unless one of those left
   something that cannot be told to be a clone any more.
   */
  lemma {:induction false} CloneCanWork(dst: Option<Dir>, attempts: seq<Luck>, k: nat)
    requires dst.Some? ==> IsSkillsClone(dst.value)
    requires k < |attempts| && AllWork(attempts[k])
    requires forall j :: 0 <= j < k ==> attempts[j].remove || (attempts[j].part.git && attempts[j].part.sentinel)
    ensures SomeWorks(dst, attempts)
    decreases |attempts|
  {
    if k > 0 && !Works(dst, attempts[0]) {
      CloneCanWork(Left(dst, attempts[0]), attempts[1..], k - 1);
    }
  }

  // ---------------------------------------------------------------- any number of boots, each dying anywhere

  /** The boot dies in its state j, and the next one starts from what is on the disk. */
  predicate DiesIn(boot: seq<State>, j: nat, next: State) {
    j < |boot| && next == boot[j].(removing := false)
  }

  ghost predicate StartsAfter(boot: seq<State>, next: State) {
    exists j: nat :: DiesIn(boot, j, next)
  }

  /** Boots one after the other, each starting from what one of the states of the one before left on the disk. */
  ghost predicate Boots(boots: seq<seq<State>>) {
    && (forall k :: 0 <= k < |boots| ==> Trail(boots[k]) && !boots[k][0].removing)
    && (forall k :: 0 < k < |boots| ==> StartsAfter(boots[k - 1], boots[k][0]))
  }

  /** The state that the boot before k died in. */
  lemma DiedIn(boots: seq<seq<State>>, k: nat) returns (j: nat)
    requires Boots(boots) && 0 < k < |boots|
    ensures DiesIn(boots[k - 1], j, boots[k][0])
  {
    assert StartsAfter(boots[k - 1], boots[k][0]);
    j :| DiesIn(boots[k - 1], j, boots[k][0]);
  }

  /** A removal took the checkout, or part of it, and has left the sentinel so far. */
  predicate LeavesSentinel(before: State, after: State) {
    RemovesSome(before, after) && after.dst.value.sentinel.Some? && after.dst.value.checkout != after.dst.value.sentinel
  }

  predicate SentinelFirst(states: seq<State>) {
    forall i :: 0 <= i < |states| - 1 ==> !LeavesSentinel(states[i], states[i + 1])
  }

  predicate AllSound(states: seq<State>) {
    forall i :: 0 <= i < |states| ==> Sound(states[i])
  }

  lemma {:induction false} TrailKeepsSound(states: seq<State>, i: nat)
    requires Trail(states) && Sound(states[0]) && SentinelFirst(states) && i < |states|
    ensures Sound(states[i])
  {
    if i > 0 {
      TrailKeepsSound(states, i - 1);
      assert Legal(states[i - 1], states[i - 1 + 1]) && !LeavesSentinel(states[i - 1], states[i - 1 + 1]);
    }
  }

  lemma {:induction false} BootsKeepSound(boots: seq<seq<State>>, k: nat)
    requires Boots(boots) && k < |boots| && Sound(boots[0][0])
    requires forall m :: 0 <= m < |boots| ==> SentinelFirst(boots[m])
    ensures AllSound(boots[k])
  {
    if k > 0 {
      BootsKeepSound(boots, k - 1);
      var j := DiedIn(boots, k);
    }
    forall i | 0 <= i < |boots[k]| ensures Sound(boots[k][i]) {
      TrailKeepsSound(boots[k], i);
    }
  }

  /**
   Over any boots, each dying anywhere, a sentinel in the clone directory always names a checkout that ran to completion,
   exactly when no removal takes any of a checkout before it takes the sentinel.
   */
  lemma SentinelVouches(boots: seq<seq<State>>)
    requires Boots(boots) && boots != [] && Sound(boots[0][0])
    ensures (forall k :: 0 <= k < |boots| ==> AllSound(boots[k])) <==>
            (forall k :: 0 <= k < |boots| ==> SentinelFirst(boots[k]))
  {
    if forall k :: 0 <= k < |boots| ==> SentinelFirst(boots[k]) {
      forall k | 0 <= k < |boots| ensures AllSound(boots[k]) {
        BootsKeepSound(boots, k);
      }
    }
    if forall k :: 0 <= k < |boots| ==> AllSound(boots[k]) {
      forall k | 0 <= k < |boots| ensures SentinelFirst(boots[k]) {
        assert AllSound(boots[k]);
        forall i | 0 <= i < |boots[k]| - 1 ensures !LeavesSentinel(boots[k][i], boots[k][i + 1]) {
          assert Sound(boots[k][i + 1]);
        }
      }
    }
  }

  /** A boot that replaces the clone d by another ref and dies in the middle of removing d. */
  function CutShort(d: Dir, other: string, part: Part): seq<State> {
    var next := Some(Dir(true, Some(other), Some(other), Some(other)));
    [State(Some(d), None, false), State(Some(d), next, false), State(Some(Remaining(d, part)), next, true)]
  }

  lemma CutShortIsTrail(d: Dir, other: string, part: Part)
    requires IsSkillsClone(d)
    ensures Trail(CutShort(d, other, part)) && Boots([CutShort(d, other, part)])
  {
  }

  /**
   And nothing rules such a removal out: a boot that wants the old ref back then takes the sentinel's word for a checkout
   that is not there.
   */
  lemma SentinelCanLie(ref: string, other: string) returns (boots: seq<seq<State>>)
    requires TrimSpace(ref) == ref
    ensures Boots(boots) && |boots| == 2 && boots[0][0].dst.Some? && Complete(boots[0][0].dst.value)
    ensures Current(boots[1][0].dst, ref) && boots[1][0].dst.value.checkout == None
  {
    var d, part := Dir(true, Some(ref), Some(ref), Some(ref)), Part(true, true, false);
    var boot := CutShort(d, other, part);
    CutShortIsTrail(d, other, part);
    boots := [boot, [boot[2].(removing := false)]];
    assert DiesIn(boots[0], 2, boots[1][0]);
  }

  lemma {:induction false} TrailKeepsForeign(states: seq<State>, d: Dir, i: nat)
    requires Trail(states) && states[0].dst == Some(d) && !states[0].removing && !IsSkillsClone(d) && i < |states|
    ensures states[i].dst == Some(d) && !states[i].removing
  {
    if i > 0 {
      TrailKeepsForeign(states, d, i - 1);
      assert Legal(states[i - 1], states[i - 1 + 1]);
    }
  }

  /** A directory that is not a skills clone is never replaced, by any boot. */
  lemma {:induction false} ForeignNeverReplaced(boots: seq<seq<State>>, d: Dir, k: nat, i: nat)
    requires Boots(boots) && k < |boots| && i < |boots[k]|
    requires boots[0][0].dst == Some(d) && !IsSkillsClone(d)
    ensures boots[k][i].dst == Some(d)
  {
    if k > 0 {
      var j := DiedIn(boots, k);
      ForeignNeverReplaced(boots, d, k - 1, j);
    }
    TrailKeepsForeign(boots[k], d, i);
  }

  /**
   That has a price: what is left of a clone without its .git and its sentinel is such a directory. A boot that dies
   having removed those keeps every later one from ever cloning again.
   */
  lemma WreckIsNeverReplaced(d: Dir, other: string, later: seq<seq<State>>, k: nat, i: nat)
    requires IsSkillsClone(d) && Boots([CutShort(d, other, Part(false, false, true))] + later)
    requires later != [] && later[0] != [] && later[0][0].dst == Some(d.(hasGit := false, sentinel := None))
    requires k < |later| && i < |later[k]|
    ensures later[k][i].dst == Some(d.(hasGit := false, sentinel := None))
  {
    var boots := [CutShort(d, other, Part(false, false, true))] + later;
    assert forall m :: 0 <= m < |later| ==> later[m] == boots[m + 1];
    forall m | 0 < m < |later| ensures StartsAfter(later[m - 1], later[m][0]) {
      assert StartsAfter(boots[m + 1 - 1], boots[m + 1][0]);
    }
    ForeignNeverReplaced(later, d.(hasGit := false, sentinel := None), k, i);
  }

  /** At step i the last of the old clone goes, and a completed, stamped replacement stands in the staging directory. */
  predicate SwapAt(states: seq<State>, i: nat) {
    i + 1 < |states| && MayRemove(states[i]) && states[i + 1] == State(None, states[i].staging, false)
  }

  lemma {:induction false} GoneBySwap(states: seq<State>, start: nat, i: nat) returns (n: nat)
    requires Trail(states) && start <= i < |states| && states[start].dst.Some? && states[i].dst == None
    ensures start <= n < i && SwapAt(states, n)
    decreases i
  {
    if states[i - 1].dst == None {
      n := GoneBySwap(states, start, i - 1);
    } else {
      assert Legal(states[i - 1], states[i - 1 + 1]);
      n := i - 1;
    }
  }

  /**
   Boots on one disk, each run to its end: if there was a clone directory at the start and there is none at the
   end, then some step of one of them removed it over a complete replacement.
   */
  method CloneBootAfterBoot(disk: Disk, refs: seq<string>, readable: bool, luck: seq<seq<Luck>>)
    requires disk.Valid() && |luck| == |refs| && forall k :: 0 <= k < |luck| ==> |luck[k]| == 3
    modifies disk
    ensures disk.Valid() && old(disk.states) <= disk.states
    ensures old(disk.dst).Some? && disk.dst == None ==>
              exists n :: |old(disk.states)| - 1 <= n && SwapAt(disk.states, n)
  {
    var k := 0;
    while k < |refs|
      invariant 0 <= k <= |refs| && disk.Valid() && old(disk.states) <= disk.states
    {
      var _ := disk.CloneSkillsRepo(true, refs[k], readable, luck[k]);
      k := k + 1;
    }
    if old(disk.dst).Some? && disk.dst == None {
      ghost var states := disk.states;
      assert states[|old(disk.states)| - 1].dst == old(disk.dst);
      ghost var n := GoneBySwap(states, |old(disk.states)| - 1, |states| - 1);
    }
  }

  /** The same when any boot may die at any step: a clone directory is never lost but to a complete replacement. */
  lemma {:induction false} LostOnlyToAReplacement(boots: seq<seq<State>>, k: nat, i: nat) returns (m: nat, n: nat)
    requires Boots(boots) && k < |boots| && i < |boots[k]|
    requires boots[0][0].dst.Some? && boots[k][i].dst == None
    ensures m <= k && SwapAt(boots[m], n)
  {
    if boots[k][0].dst.Some? {
      m := k;
      n := GoneBySwap(boots[k], 0, i);
    } else {
      var j := DiedIn(boots, k);
      m, n := LostOnlyToAReplacement(boots, k - 1, j);
    }
  }

  /** What remains of the directory there was at the start, or of a completed checkout. */
  ghost predicate LeftOfWhole(start: Option<Dir>, d: Dir) {
    exists whole :: RemainsOf(whole, d) && (start == Some(whole) || Complete(whole))
  }

  lemma PartOfLeft(start: Option<Dir>, d: Dir, part: Dir)
    requires LeftOfWhole(start, d) && RemainsOf(d, part)
    ensures LeftOfWhole(start, part)
  {
    var whole :| RemainsOf(whole, d) && (start == Some(whole) || Complete(whole));
    assert RemainsOf(whole, part);
  }

  lemma {:induction false} TrailNeverPartlyBuilt(states: seq<State>, start: Option<Dir>, i: nat)
    requires Trail(states) && i < |states|
    requires states[0].dst.Some? ==> LeftOfWhole(start, states[0].dst.value)
    ensures states[i].dst.Some? ==> LeftOfWhole(start, states[i].dst.value)
  {
    if i > 0 {
      TrailNeverPartlyBuilt(states, start, i - 1);
      var before, after := states[i - 1], states[i - 1 + 1];
      assert Legal(before, after);
      if RemovesSome(before, after) {
        PartOfLeft(start, before.dst.value, after.dst.value);
      } else if after.dst.Some? && after.dst != before.dst {
        assert RemainsOf(after.dst.value, after.dst.value) && Complete(after.dst.value);
      }
    }
  }

  /** Nothing half built ever stands in the place of a clone, whenever a boot dies; at worst it is half removed. */
  lemma {:induction false} NeverPartlyBuilt(boots: seq<seq<State>>, k: nat, i: nat)
    requires Boots(boots) && k < |boots| && i < |boots[k]|
    ensures boots[k][i].dst.Some? ==> LeftOfWhole(boots[0][0].dst, boots[k][i].dst.value)
  {
    if k > 0 {
      var j := DiedIn(boots, k);
      NeverPartlyBuilt(boots, k - 1, j);
    } else if boots[0][0].dst.Some? {
      assert RemainsOf(boots[0][0].dst.value, boots[0][0].dst.value);
    }
    TrailNeverPartlyBuilt(boots[k], boots[0][0].dst, i);
  }

  /** A boot that finds the ref already there, by its sentinel, has a completed checkout of it, unless a removal died. */
  lemma SkippedIsThere(boots: seq<seq<State>>, k: nat, i: nat, ref: string)
    requires Boots(boots) && k < |boots| && i < |boots[k]| && Sound(boots[0][0])
    requires forall m :: 0 <= m < |boots| ==> SentinelFirst(boots[m])
    requires Current(boots[k][i].dst, ref)
    ensures boots[k][i].dst.value.checkout.Some? && TrimSpace(boots[k][i].dst.value.checkout.value) == ref
  {
    BootsKeepSound(boots, k);
  }
}
