/**
 The lists of pushed and failed repositories a turn's callback carries: where they come from
 (internal/bootstrap/repo.go) and how lists held from suppressed callbacks are folded into later ones
 (cmd/wrapper/app.go).
 */
module RepoLists {
  import opened Wrappers

  datatype Lists = Lists(pushed: seq<string>, failed: seq<string>)

  const NONE := Lists([], [])

  predicate NoRepeats(s: seq<string>) {
    forall i, j :: 0 <= i < j < |s| ==> s[i] != s[j]
  }

  predicate Disjoint(l: Lists) {
    forall x :: x in l.pushed ==> x !in l.failed
  }

  // ---------------------------------------------------------------- CommitAndPushAll

  /** A repository to commit: no base when no namespace can be derived from its URL. */
  datatype RepoSpec = RepoSpec(name: string, base: Option<string>)

  datatype Attempt = Pushed | NothingToPush | Failed

  function NameOf(r: RepoSpec): string
    requires r.base.Some?
  {
    if r.name == "" then r.base.value else r.name
  }

  /** The names of the repositories attempted with a given result, in order. */
  function Named(repos: seq<RepoSpec>, attempts: seq<Attempt>, result: Attempt): seq<string>
    requires |attempts| == |repos|
  {
    if repos == [] then []
    else
      var n := |repos| - 1;
      var before := Named(repos[..n], attempts[..n], result);
      if repos[n].base.Some? && attempts[n] == result then before + [NameOf(repos[n])] else before
  }

  /** Every repository is attempted, whatever happened to the ones before it. */
  method CommitAndPushAll(repos: seq<RepoSpec>, attempts: seq<Attempt>) returns (out: Lists, err: bool)
    requires |attempts| == |repos|
    ensures out == Lists(Named(repos, attempts, Pushed), Named(repos, attempts, Failed))
    ensures err <==> out.failed != []
  {
    var pushed, failed := [], [];
    var i := 0;
    err := false;
    while i < |repos|
      invariant 0 <= i <= |repos|
      invariant pushed == Named(repos[..i], attempts[..i], Pushed)
      invariant failed == Named(repos[..i], attempts[..i], Failed)
      invariant err <==> failed != []
    {
      var r := repos[i];
      assert repos[..i + 1][..i] == repos[..i] && attempts[..i + 1][..i] == attempts[..i];
      i := i + 1;
      if r.base == None {
        continue;
      }
      var name := r.name;
      if name == "" {
        name := r.base.value;
      }
      match attempts[i - 1] {
        case Failed =>
          failed := failed + [name];
          err := true;
        case Pushed =>
          pushed := pushed + [name];
        case NothingToPush =>
      }
    }
    assert repos[..i] == repos && attempts[..i] == attempts;
    out := Lists(pushed, failed);
  }

  /** A list names each repository with its result: by its own name, or by its base when it has none. */
  lemma {:induction false} NamedIs(repos: seq<RepoSpec>, attempts: seq<Attempt>, result: Attempt, x: string)
    requires |attempts| == |repos|
    ensures x in Named(repos, attempts, result) <==>
            exists i :: 0 <= i < |repos| && repos[i].base.Some? && attempts[i] == result
                        && x == if repos[i].name != "" then repos[i].name else repos[i].base.value
  {
    if repos != [] {
      var n := |repos| - 1;
      NamedIs(repos[..n], attempts[..n], result, x);
      assert forall i :: 0 <= i < n ==> repos[..n][i] == repos[i] && attempts[..n][i] == attempts[i];
    }
  }

  lemma NamedAppend(repos: seq<RepoSpec>, attempts: seq<Attempt>, r: RepoSpec, x: Attempt, result: Attempt)
    requires |attempts| == |repos|
    ensures Named(repos + [r], attempts + [x], result) ==
            Named(repos, attempts, result) + if r.base.Some? && x == result then [NameOf(r)] else []
  {
    assert (repos + [r])[..|repos|] == repos && (attempts + [x])[..|repos|] == attempts;
  }

  /** The lists follow the order of the repositories: each adds its name to the one list of its result. */
  lemma {:induction false} NamedConcat(repos: seq<RepoSpec>, attempts: seq<Attempt>, more: seq<RepoSpec>,
                                       moreAttempts: seq<Attempt>, result: Attempt)
    requires |attempts| == |repos| && |moreAttempts| == |more|
    ensures Named(repos + more, attempts + moreAttempts, result) ==
            Named(repos, attempts, result) + Named(more, moreAttempts, result)
    decreases |more|
  {
    if more == [] {
      assert repos + more == repos && attempts + moreAttempts == attempts;
      assert Named(repos, attempts, result) + [] == Named(repos, attempts, result);
    } else {
      var n := |more| - 1;
      NamedConcat(repos, attempts, more[..n], moreAttempts[..n], result);
      NamedAppend(more[..n], moreAttempts[..n], more[n], moreAttempts[n], result);
      NamedAppend(repos + more[..n], attempts + moreAttempts[..n], more[n], moreAttempts[n], result);
      assert more[..n] + [more[n]] == more && moreAttempts[..n] + [moreAttempts[n]] == moreAttempts;
      assert (repos + more[..n]) + [more[n]] == repos + more;
      assert (attempts + moreAttempts[..n]) + [moreAttempts[n]] == attempts + moreAttempts;
    }
  }

  predicate DistinctNames(repos: seq<RepoSpec>) {
    forall i, j :: 0 <= i < j < |repos| && repos[i].base.Some? && repos[j].base.Some? ==>
                     NameOf(repos[i]) != NameOf(repos[j])
  }

  ghost predicate AlwaysDisjoint(repos: seq<RepoSpec>) {
    forall attempts :: |attempts| == |repos| ==>
                         Disjoint(Lists(Named(repos, attempts, Pushed), Named(repos, attempts, Failed)))
  }

  function FailFrom(n: nat, first: nat): seq<Attempt> {
    seq(n, i => if i < first then Pushed else Failed)
  }

  /** A turn's own lists cannot overlap, whatever the pushes do, exactly when no two repositories share a name. */
  lemma OwnListsDisjoint(repos: seq<RepoSpec>)
    ensures AlwaysDisjoint(repos) <==> DistinctNames(repos)
  {
    if DistinctNames(repos) {
      forall attempts, x | |attempts| == |repos| && x in Named(repos, attempts, Pushed)
        ensures x !in Named(repos, attempts, Failed)
      {
        NamedIs(repos, attempts, Pushed, x);
        NamedIs(repos, attempts, Failed, x);
      }
    } else {
      var i, j :| 0 <= i < j < |repos| && repos[i].base.Some? && repos[j].base.Some?
                  && NameOf(repos[i]) == NameOf(repos[j]);
      var attempts, x := FailFrom(|repos|, j), NameOf(repos[i]);
      NamedIs(repos, attempts, Pushed, x);
      NamedIs(repos, attempts, Failed, x);
      assert attempts[i] == Pushed && attempts[j] == Failed;
      assert !Disjoint(Lists(Named(repos, attempts, Pushed), Named(repos, attempts, Failed)));
    }
  }

  // ---------------------------------------------------------------- union and subtraction

  /** s without repeats, in first-seen order. */
  function Dedup(s: seq<string>): seq<string> {
    if s == [] then []
    else
      var before, last := Dedup(s[..|s| - 1]), s[|s| - 1];
      if last in before then before else before + [last]
  }

  lemma {:induction false} DedupIs(s: seq<string>)
    ensures NoRepeats(Dedup(s))
    ensures forall x :: x in Dedup(s) <==> x in s
  {
    if s != [] {
      DedupIs(s[..|s| - 1]);
      assert s == s[..|s| - 1] + [s[|s| - 1]];
    }
  }

  /** Where x first turns up in s, or the length of s. */
  function FirstAt(s: seq<string>, x: string): (i: nat)
    ensures i <= |s|
    ensures i < |s| ==> s[i] == x
    ensures forall j :: 0 <= j < i ==> s[j] != x
  {
    if s == [] then 0
    else
      var i := FirstAt(s[..|s| - 1], x);
      if i < |s| - 1 || s[|s| - 1] == x then i else |s|
  }

  /** And the order is that of the first occurrences. */
  lemma {:induction false} DedupInFirstSeenOrder(s: seq<string>)
    ensures forall i, j :: 0 <= i < j < |Dedup(s)| ==> FirstAt(s, Dedup(s)[i]) < FirstAt(s, Dedup(s)[j])
  {
    if s != [] {
      var front := s[..|s| - 1];
      DedupInFirstSeenOrder(front);
      DedupIs(front);
      forall i, j | 0 <= i < j < |Dedup(s)|
        ensures FirstAt(s, Dedup(s)[i]) < FirstAt(s, Dedup(s)[j])
      {
        assert Dedup(front)[i] in front && FirstAt(front, Dedup(front)[i]) < |front|;
        if j < |Dedup(front)| {
          assert Dedup(front)[j] in front && FirstAt(front, Dedup(front)[j]) < |front|;
        }
      }
    }
  }

  /** The elements of a that are not in b, in order. */
  function Minus(a: seq<string>, b: seq<string>): seq<string> {
    if a == [] then []
    else
      var before, last := Minus(a[..|a| - 1], b), a[|a| - 1];
      if last in b then before else before + [last]
  }

  lemma {:induction false} MinusIs(a: seq<string>, b: seq<string>)
    ensures forall x :: x in Minus(a, b) <==> x in a && x !in b
    ensures NoRepeats(a) ==> NoRepeats(Minus(a, b))
  {
    if a != [] {
      MinusIs(a[..|a| - 1], b);
      assert a == a[..|a| - 1] + [a[|a| - 1]];
    }
  }

  lemma MinusAppend(a: seq<string>, x: string, b: seq<string>)
    ensures Minus(a + [x], b) == Minus(a, b) + if x in b then [] else [x]
  {
    assert (a + [x])[..|a|] == a;
  }

  /** Subtracting goes element by element: what is left keeps its order and its repeats. */
  lemma {:induction false} MinusConcat(a: seq<string>, more: seq<string>, b: seq<string>)
    ensures Minus(a + more, b) == Minus(a, b) + Minus(more, b)
    decreases |more|
  {
    if more == [] {
      assert a + more == a && Minus(a, b) + [] == Minus(a, b);
    } else {
      var front, x := more[..|more| - 1], more[|more| - 1];
      MinusConcat(a, front, b);
      MinusAppend(front, x, b);
      MinusAppend(a + front, x, b);
      assert front + [x] == more && (a + front) + [x] == a + more;
    }
  }

  lemma DedupAppend(s: seq<string>, x: string)
    ensures Dedup(s + [x]) == if x in Dedup(s) then Dedup(s) else Dedup(s) + [x]
  {
    assert (s + [x])[..|s|] == s;
  }

  /** The names of one list that have not been seen, added to the output. */
  method AddUnseen(list: seq<string>, ghost done: seq<string>, seen: set<string>, out: seq<string>)
    returns (seen': set<string>, out': seq<string>)
    requires out == Dedup(done) && forall x :: x in seen <==> x in out
    ensures out' == Dedup(done + list) && forall x :: x in seen' <==> x in out'
  {
    seen', out' := seen, out;
    ghost var all := done;
    var k := 0;
    while k < |list|
      invariant 0 <= k <= |list| && all == done + list[..k]
      invariant out' == Dedup(all)
      invariant forall x :: x in seen' <==> x in out'
    {
      var name := list[k];
      DedupAppend(all, name);
      if name !in seen' {
        seen' := seen' + {name};
        out' := out' + [name];
      }
      all := all + [name];
      k := k + 1;
    }
    assert list[..k] == list;
  }

  method UnionRepos(a: seq<string>, b: seq<string>) returns (out: seq<string>)
    ensures out == Dedup(a + b)
  {
    var seen: set<string> := {};
    out := [];
    var lists := [a, b];
    ghost var done: seq<string> := [];
    var i := 0;
    while i < 2
      invariant 0 <= i <= 2
      invariant done == if i == 0 then [] else if i == 1 then a else a + b
      invariant out == Dedup(done) && forall x :: x in seen <==> x in out
    {
      seen, out := AddUnseen(lists[i], done, seen, out);
      assert [] + a == a;
      done := done + lists[i];
      i := i + 1;
    }
  }

  method SubtractRepos(a: seq<string>, b: seq<string>) returns (out: seq<string>)
    ensures out == Minus(a, b)
  {
    if |a| == 0 || |b| == 0 {
      MinusNothing(a, b);
      return a;
    }
    var drop := ToSet(b);
    out := [];
    var i := 0;
    while i < |a|
      invariant 0 <= i <= |a| && out == Minus(a[..i], b)
    {
      assert a[..i + 1][..i] == a[..i];
      if a[i] !in drop {
        out := out + [a[i]];
      }
      i := i + 1;
    }
    assert a[..i] == a;
  }

  method ToSet(b: seq<string>) returns (drop: set<string>)
    ensures forall x :: x in drop <==> x in b
  {
    drop := {};
    var i := 0;
    while i < |b|
      invariant 0 <= i <= |b|
      invariant forall x :: x in drop <==> x in b[..i]
    {
      assert b[..i + 1] == b[..i] + [b[i]];
      drop := drop + {b[i]};
      i := i + 1;
    }
    assert b[..i] == b;
  }

  lemma {:induction false} MinusNothing(a: seq<string>, b: seq<string>)
    requires forall x :: x in a ==> x !in b
    ensures Minus(a, b) == a
  {
    if a != [] {
      assert a == a[..|a| - 1] + [a[|a| - 1]];
      MinusNothing(a[..|a| - 1], b);
    }
  }

  lemma {:induction false} DedupNothing(s: seq<string>)
    requires NoRepeats(s)
    ensures Dedup(s) == s
  {
    if s != [] {
      DedupNothing(s[..|s| - 1]);
    }
  }

  // ---------------------------------------------------------------- merging

  predicate Clean(l: Lists) {
    NoRepeats(l.pushed) && NoRepeats(l.failed) && Disjoint(l)
  }

  function NamesIn(l: Lists): set<string> {
    (set x | x in l.pushed) + (set x | x in l.failed)
  }

  /**
   Any inputs at all merge into lists that are disjoint, have no repeats and lose no name: this turn's
   failures win, then any push, then an older failure.
   */
  function Merge(held: Lists, this_: Lists): (r: Lists)
    ensures Clean(r) && NamesIn(r) == NamesIn(held) + NamesIn(this_)
    ensures forall x :: x in r.failed <==>
              x in this_.failed || (x in held.failed && x !in held.pushed && x !in this_.pushed)
    ensures forall x :: x in r.pushed <==> x !in this_.failed && (x in held.pushed || x in this_.pushed)
  {
    var all := Dedup(held.pushed + this_.pushed);
    DedupIs(held.pushed + this_.pushed);
    MinusIs(all, this_.failed);
    MinusIs(held.failed, all);
    DedupIs(Minus(held.failed, all) + this_.failed);
    Lists(Minus(all, this_.failed), Dedup(Minus(held.failed, all) + this_.failed))
  }

  method MergeRepoLists(held: Lists, this_: Lists) returns (out: Lists)
    ensures out == Merge(held, this_)
  {
    var all := UnionRepos(held.pushed, this_.pushed);
    var pushed := SubtractRepos(all, this_.failed);
    var older := SubtractRepos(held.failed, all);
    var failed := UnionRepos(older, this_.failed);
    out := Lists(pushed, failed);
  }

  /** Holding onto nothing held changes nothing: the fold in the hold is the identity on the sequential path. */
  lemma HoldIsIdentity(l: Lists)
    requires Clean(l)
    ensures Merge(NONE, l) == l
  {
    assert [] + l.pushed == l.pushed && Minus([], l.pushed) + l.failed == l.failed;
    DedupNothing(l.pushed);
    DedupNothing(l.failed);
    MinusNothing(l.pushed, l.failed);
  }

  // ---------------------------------------------------------------- chains of suppressed turns

  /** What is held after a chain of suppressed turns that starts with nothing held. */
  function Held(turns: seq<Lists>): Lists {
    if turns == [] then NONE
    else Merge(NONE, Merge(Held(turns[..|turns| - 1]), turns[|turns| - 1]))
  }

  /** What the latest turn naming a repository said of it: Some(true) when it pushed. */
  function Latest(turns: seq<Lists>, x: string): Option<bool> {
    if turns == [] then None
    else
      var last := turns[|turns| - 1];
      if x in last.pushed then Some(true)
      else if x in last.failed then Some(false)
      else Latest(turns[..|turns| - 1], x)
  }

  predicate Says(l: Lists, x: string, verdict: Option<bool>) {
    && (x in l.pushed <==> verdict == Some(true))
    && (x in l.failed <==> verdict == Some(false))
  }

  lemma {:induction false} HeldSaysLatest(turns: seq<Lists>, x: string)
    requires forall i :: 0 <= i < |turns| ==> Disjoint(turns[i])
    ensures Says(Held(turns), x, Latest(turns, x)) && Clean(Held(turns))
  {
    if turns != [] {
      var front, last := turns[..|turns| - 1], turns[|turns| - 1];
      HeldSaysLatest(front, x);
      HoldIsIdentity(Merge(Held(front), last));
    }
  }

  /**
   A delivered turn reports a repository failed, or pushed, exactly when the latest turn of the chain that
   names it failed, or pushed, it.
   */
  lemma DeliveredSaysLatest(suppressed: seq<Lists>, last: Lists, x: string)
    requires Disjoint(last) && forall i :: 0 <= i < |suppressed| ==> Disjoint(suppressed[i])
    ensures Says(Merge(Held(suppressed), last), x, Latest(suppressed + [last], x))
  {
    HeldSaysLatest(suppressed, x);
    assert (suppressed + [last])[..|suppressed|] == suppressed;
  }
}
