// Garbage collection of a Machine's DeployRuns.
module RunGC {
  import opened Common
  import opened Text

  // A DeployRun's name and creationTimestamp, in nanoseconds.
  datatype Run = Run(name: string, created: int)

  // The three runs a Machine's status can name.
  datatype MachineStatus = MachineStatus(
    currentRunRef: Option<string>, lastSuccessfulRunRef: Option<string>, lastAttemptedRunRef: Option<string>)

  // minRunAgeBeforeGC, ten minutes
  const MIN_AGE: int := 600_000_000_000

  // The comparison of runsToGC's sort: newest first, then by descending name.
  predicate Newer(a: Run, b: Run) {
    if a.created != b.created then b.created < a.created else Less(b.name, a.name)
  }

  ghost predicate Distinct(runs: seq<Run>) {
    forall i, j :: 0 <= i < j < |runs| ==> runs[i].name != runs[j].name
  }

  ghost function Members(runs: seq<Run>): set<Run> {
    set r | r in runs
  }

  // ----- what is collected -----

  ghost function NewerThan(runs: set<Run>, r: Run): set<Run> {
    set x | x in runs && Newer(x, r)
  }

  // r is beyond the newest retain runs, not protected, and old enough.
  ghost predicate IsVictim(r: Run, runs: set<Run>, protected: set<string>, retain: int, now: int) {
    r in runs && |NewerThan(runs, r)| >= retain && r.name !in protected && now - r.created >= MIN_AGE
  }

  ghost function Survivors(runs: set<Run>, protected: set<string>, retain: int, now: int): set<Run> {
    set r | r in runs && !IsVictim(r, runs, protected, retain, now)
  }

  // ----- order -----

  lemma NewerTotal(a: Run, b: Run)
    ensures a.name != b.name ==> Newer(a, b) || Newer(b, a)
    ensures !(Newer(a, b) && Newer(b, a)) && !Newer(a, a)
  {
    LeqTotal(a.name, b.name);
  }

  lemma NewerTransitive(a: Run, b: Run, c: Run)
    requires Newer(a, b) && Newer(b, c)
    ensures Newer(a, c)
  {
    if a.created == b.created == c.created { LessTransitive(c.name, b.name, a.name); }
  }

  function InsertRun(r: Run, s: seq<Run>): (out: seq<Run>)
    ensures multiset(out) == multiset(s) + multiset{r}
  {
    if s == [] then [r]
    else if Newer(r, s[0]) then [r] + s
    else
      assert s == [s[0]] + s[1..];
      [s[0]] + InsertRun(r, s[1..])
  }

  // sort.Slice
  function SortRuns(s: seq<Run>): (out: seq<Run>)
    ensures multiset(out) == multiset(s)
  {
    if s == [] then [] else
      assert s == [s[0]] + s[1..];
      InsertRun(s[0], SortRuns(s[1..]))
  }

  // Strictly ordered, newest first.
  ghost predicate Descending(s: seq<Run>) {
    forall i, j :: 0 <= i < j < |s| ==> Newer(s[i], s[j])
  }

  lemma {:induction false} InsertDescends(r: Run, s: seq<Run>)
    requires Descending(s) && forall i :: 0 <= i < |s| ==> s[i].name != r.name
    ensures Descending(InsertRun(r, s))
  {
    if s != [] {
      if Newer(r, s[0]) {
        forall j | 0 < j < |s|
          ensures Newer(r, s[j])
        {
          NewerTransitive(r, s[0], s[j]);
        }
      } else {
        NewerTotal(r, s[0]);
        InsertDescends(r, s[1..]);
        var rest := InsertRun(r, s[1..]);
        forall j | 0 <= j < |rest|
          ensures Newer(s[0], rest[j])
        {
          assert rest[j] in multiset(rest);
          assert rest[j] == r || rest[j] in s[1..];
        }
      }
    }
  }

  lemma {:induction false} SortDescends(s: seq<Run>)
    requires Distinct(s)
    ensures Descending(SortRuns(s))
  {
    if s != [] {
      SortDescends(s[1..]);
      var rest := SortRuns(s[1..]);
      forall i | 0 <= i < |rest|
        ensures rest[i].name != s[0].name
      {
        assert rest[i] in multiset(rest);
        assert rest[i] in s[1..];
      }
      InsertDescends(s[0], rest);
    }
  }

  // In a descending order exactly i runs are newer than the one at i.
  lemma RankIsIndex(s: seq<Run>, i: nat)
    requires Descending(s) && i < |s|
    ensures |NewerThan(Members(s), s[i])| == i
  {
    forall x
      ensures x in NewerThan(Members(s), s[i]) <==> x in s[..i]
    {
      if x in s {
        var j :| 0 <= j < |s| && s[j] == x;
        NewerTotal(s[i], s[j]);
        if j < i { assert x == s[..i][j]; }
      }
    }
    assert NewerThan(Members(s), s[i]) == Members(s[..i]);
    DescendingNoRepeats(s);
    PrefixSize(s, i);
  }

  ghost predicate NoRepeats(s: seq<Run>) {
    forall i, j :: 0 <= i < j < |s| ==> s[i] != s[j]
  }

  lemma DescendingNoRepeats(s: seq<Run>)
    requires Descending(s)
    ensures NoRepeats(s)
  {
    forall i, j | 0 <= i < j < |s|
      ensures s[i] != s[j]
    {
      NewerTotal(s[i], s[j]);
    }
  }

  // The first i runs of an order without repeats are i runs.
  lemma PrefixSize(s: seq<Run>, i: nat)
    requires NoRepeats(s) && i <= |s|
    ensures |Members(s[..i])| == i
  {
    var at := (j: nat) => if j < |s| then s[j] else Run("", 0);
    var image := set j | j in Upto(i) :: at(j);
    InjectiveImageSize(Upto(i), at, image);
    PrefixIsImage(s, i, at, image);
  }

  lemma {:induction false} PrefixIsImage(s: seq<Run>, i: nat, at: nat -> Run, image: set<Run>)
    requires i <= |s| && (forall j: nat :: j < |s| ==> at(j) == s[j])
    requires image == set j | j in Upto(i) :: at(j)
    ensures image == Members(s[..i])
  {
    forall x
      ensures x in image <==> x in s[..i]
    {
      if x in s[..i] {
        var j: nat :| j < i && s[..i][j] == x;
        assert j in Upto(i) && at(j) == x;
      }
    }
  }

  // ----- the code -----

  /** protectedRunNames */
  method ProtectedRunNames(status: MachineStatus) returns (protected: map<string, bool>)
    ensures forall n :: n in protected && protected[n] <==>
              status.currentRunRef == Some(n) || status.lastSuccessfulRunRef == Some(n)
                || status.lastAttemptedRunRef == Some(n)
  {
    protected := map[];
    if status.currentRunRef.Some? {
      protected := protected[status.currentRunRef.value := true];
    }
    if status.lastSuccessfulRunRef.Some? {
      protected := protected[status.lastSuccessfulRunRef.value := true];
    }
    if status.lastAttemptedRunRef.Some? {
      protected := protected[status.lastAttemptedRunRef.value := true];
    }
  }

  ghost function ProtectedNames(status: MachineStatus): set<string> {
    (if status.currentRunRef.Some? then {status.currentRunRef.value} else {})
    + (if status.lastSuccessfulRunRef.Some? then {status.lastSuccessfulRunRef.value} else {})
    + (if status.lastAttemptedRunRef.Some? then {status.lastAttemptedRunRef.value} else {})
  }

  // The runs picked among the first k of an order, given by position.
  ghost function Picked(ordered: seq<Run>, k: nat, protected: set<string>, retain: int, now: int): seq<Run>
    requires k <= |ordered|
  {
    if k == 0 then [] else
      var c := ordered[k - 1];
      Picked(ordered, k - 1, protected, retain, now)
      + (if k - 1 >= retain && c.name !in protected && now - c.created >= MIN_AGE then [c] else [])
  }

  lemma {:induction false} PickedAreVictims(ordered: seq<Run>, k: nat, protected: set<string>, retain: int, now: int)
    requires Descending(ordered) && k <= |ordered|
    ensures var picked := Picked(ordered, k, protected, retain, now);
            && (forall r :: r in picked <==> r in ordered[..k] && IsVictim(r, Members(ordered), protected, retain, now))
            && Descending(picked)
  {
    if k > 0 {
      var c := ordered[k - 1];
      PickedAreVictims(ordered, k - 1, protected, retain, now);
      RankIsIndex(ordered, k - 1);
      assert ordered[..k] == ordered[..k - 1] + [c];
      var before := Picked(ordered, k - 1, protected, retain, now);
      forall i | 0 <= i < |before|
        ensures Newer(before[i], c)
      {
        assert before[i] in ordered[..k - 1];
      }
      assert c in ordered;
    }
  }

  /** For distinct names, the positions chosen by the code are exactly the victims, newest first. */
  lemma {:induction false} PicksExactlyVictims(runs: seq<Run>, protected: set<string>, retain: int, now: int)
    requires Distinct(runs)
    ensures var picked := Picked(SortRuns(runs), |SortRuns(runs)|, protected, retain, now);
            && (forall r :: r in picked <==> IsVictim(r, Members(runs), protected, retain, now))
            && Descending(picked)
  {
    var ordered := SortRuns(runs);
    SameMembers(ordered, runs);
    SortDescends(runs);
    PickedAreVictims(ordered, |ordered|, protected, retain, now);
    assert ordered[..|ordered|] == ordered;
    assert forall r :: r in ordered <==> r in Members(runs);
  }

  // The loop of runsToGC over the sorted runs.
  method PickVictims(ordered: seq<Run>, protected: map<string, bool>, ghost names: set<string>, retain: int, now: int)
    returns (victims: seq<Run>)
    requires forall n :: n in names <==> n in protected && protected[n]
    ensures victims == Picked(ordered, |ordered|, names, retain, now)
  {
    victims := [];
    for i := 0 to |ordered|
      invariant victims == Picked(ordered, i, names, retain, now)
    {
      var candidate := ordered[i];
      if i < retain {
        continue;
      }
      if candidate.name in protected && protected[candidate.name] {
        continue;
      }
      if now - candidate.created < MIN_AGE {
        continue;
      }
      victims := victims + [candidate];
    }
  }

  /** runsToGC */
  method RunsToGC(runs: seq<Run>, status: MachineStatus, retain: int, now: int) returns (victims: seq<Run>)
    ensures victims == Picked(SortRuns(runs), |SortRuns(runs)|, ProtectedNames(status), retain, now)
    ensures Distinct(runs) ==>
              forall r :: r in victims <==> IsVictim(r, Members(runs), ProtectedNames(status), retain, now)
    ensures Distinct(runs) ==> Descending(victims)
  {
    var protected := ProtectedRunNames(status);
    ghost var names := ProtectedNames(status);
    victims := PickVictims(SortRuns(runs), protected, names, retain, now);
    if Distinct(runs) { PicksExactlyVictims(runs, names, retain, now); }
  }

  lemma SameMembers(a: seq<Run>, b: seq<Run>)
    requires multiset(a) == multiset(b)
    ensures Members(a) == Members(b)
  {
    forall x
      ensures x in a <==> x in b
    {
      assert x in a <==> x in multiset(a);
      assert x in b <==> x in multiset(b);
    }
  }

  // ----- properties of the choice -----

  /** Never collected: one of the newest retain runs, a protected run, a run younger than the age limit. */
  lemma NeverCollected(r: Run, runs: set<Run>, protected: set<string>, retain: int, now: int)
    requires r in runs
    requires |NewerThan(runs, r)| < retain || r.name in protected || now - r.created < MIN_AGE
    ensures r in Survivors(runs, protected, retain, now)
  {
  }

  /** In terms of time alone: a run with fewer than retain others created at or after it is never picked. */
  lemma {:induction false} NewestAreKept(runs: seq<Run>, r: Run, protected: set<string>, retain: int, now: int)
    requires Distinct(runs) && r in runs
    requires |set x | x in runs && x != r && x.created >= r.created| < retain
    ensures r !in Picked(SortRuns(runs), |SortRuns(runs)|, protected, retain, now)
  {
    PicksExactlyVictims(runs, protected, retain, now);
    var later := set x | x in runs && x != r && x.created >= r.created;
    NewerTotal(r, r);
    SubsetSize(NewerThan(Members(runs), r), later);
  }

  /** And one with at least retain others created after it is picked, if it is unprotected and old enough. */
  lemma {:induction false} OldestArePicked(runs: seq<Run>, r: Run, protected: set<string>, retain: int, now: int)
    requires Distinct(runs) && r in runs && r.name !in protected && now - r.created >= MIN_AGE
    requires |set x | x in runs && x.created > r.created| >= retain
    ensures r in Picked(SortRuns(runs), |SortRuns(runs)|, protected, retain, now)
  {
    PicksExactlyVictims(runs, protected, retain, now);
    var later := set x | x in runs && x.created > r.created;
    SubsetSize(later, NewerThan(Members(runs), r));
  }

  /** Collecting again among the survivors finds nothing. */
  lemma SecondPassIsEmpty(runs: set<Run>, protected: set<string>, retain: int, now: int)
    ensures var kept := Survivors(runs, protected, retain, now);
            Survivors(kept, protected, retain, now) == kept
  {
    var kept := Survivors(runs, protected, retain, now);
    forall r | r in kept
      ensures !IsVictim(r, kept, protected, retain, now)
    {
      SubsetSize(NewerThan(kept, r), NewerThan(runs, r));
    }
  }

  /** The code run on what it left, in any order, picks nothing. */
  lemma {:induction false} RerunPicksNothing(runs: seq<Run>, kept: seq<Run>, protected: set<string>, retain: int,
                                             now: int)
    requires Distinct(kept) && Members(kept) == Survivors(Members(runs), protected, retain, now)
    ensures Picked(SortRuns(kept), |SortRuns(kept)|, protected, retain, now) == []
  {
    PicksExactlyVictims(kept, protected, retain, now);
    SecondPassIsEmpty(Members(runs), protected, retain, now);
    var picked := Picked(SortRuns(kept), |SortRuns(kept)|, protected, retain, now);
    forall r
      ensures r !in picked
    {
      assert r in Members(kept) ==> r in Survivors(Members(kept), protected, retain, now);
    }
    NobodyMeansEmpty(picked);
  }

  lemma NobodyMeansEmpty(s: seq<Run>)
    ensures s == [] <==> forall r :: r !in s
  {
    if s != [] { assert s[0] in s; }
  }

  /** As time goes by, only more runs are collected. */
  lemma LaterCollectsMore(runs: set<Run>, protected: set<string>, retain: int, now: int, later: int)
    requires now <= later
    ensures Survivors(runs, protected, retain, later) <= Survivors(runs, protected, retain, now)
  {
  }

  // The oldest of a non-empty set of distinctly named runs.
  lemma {:induction false} Oldest(runs: set<Run>) returns (r: Run)
    requires runs != {} && forall a, b :: a in runs && b in runs && a.name == b.name ==> a == b
    ensures r in runs && NewerThan(runs, r) == runs - {r}
    decreases |runs|
  {
    var x :| x in runs;
    var rest := runs - {x};
    if rest == {} {
      r := x;
      NewerTotal(x, x);
      assert runs == {x};
    } else {
      var o := Oldest(rest);
      NewerTotal(x, o);
      r := if Newer(x, o) then o else x;
      forall y | y in runs && y != r
        ensures Newer(y, r)
      {
        if y != x && y != o {
          assert y in NewerThan(rest, o);
          if r == x { NewerTransitive(y, o, x); }
        }
      }
      NewerTotal(r, r);
    }
  }

  // The runs that are neither protected nor young.
  ghost function Loose(runs: set<Run>, protected: set<string>, now: int): set<Run> {
    set r | r in runs && r.name !in protected && now - r.created >= MIN_AGE
  }

  /** Nothing collectable is left behind: among the survivors, at most retain are unprotected and past the age limit. */
  lemma SurvivorsAreBounded(runs: set<Run>, protected: set<string>, retain: nat, now: int)
    requires forall a, b :: a in runs && b in runs && a.name == b.name ==> a == b
    ensures |Loose(Survivors(runs, protected, retain, now), protected, now)| <= retain
  {
    var loose := Loose(Survivors(runs, protected, retain, now), protected, now);
    if loose != {} {
      var o := Oldest(loose);
      SubsetSize(NewerThan(loose, o), NewerThan(runs, o));
      assert !IsVictim(o, runs, protected, retain, now);
      assert |loose - {o}| == |loose| - 1;
    }
  }
}
