// What one reconcile of a claim comes to when nothing else happens meanwhile,
// whatever its List calls return in which order.
module ClaimOutcome {
  import opened Common
  import opened ClaimBinding

  // run is one whole reconcile of claim key k and nothing else, taking s to t.
  ghost predicate IsReconcile(s: State, k: Key, run: seq<Action>, t: State) {
    && |run| > 0 && run[0] == Begin(k) && OnlyWork(k, run[1..])
    && Reaches(s, run, t) && k !in t.workers
  }

  ghost predicate OnlyWork(k: Key, run: seq<Action>) {
    forall i :: 0 <= i < |run| ==> run[i].Work? && run[i].claim == k
  }

  // Prepending a step of k's reconcile.
  lemma WorkFirst(k: Key, hint: seq<Key>, u: State, v: State, run: seq<Action>, t: State)
    requires Leads(u, Work(k, hint), v) && OnlyWork(k, run) && Reaches(v, run, t)
    ensures OnlyWork(k, [Work(k, hint)] + run) && Reaches(u, [Work(k, hint)] + run, t)
  {
    First(u, Work(k, hint), v, run, t);
  }

  // ----- a claim that is not bound -----

  // The claim names a Machine that does not exist, and no Machine carries it.
  ghost predicate NamesNothing(s: State, k: Key)
    requires k in s.claims
  {
    var c := s.claims[k];
    c.want.ByName? && Key(k.ns, c.want.machine) !in s.machines && NoCarrier(s, c.uid)
  }

  ghost predicate IsFree(s: State, m: Key) {
    m in s.machines && s.machines[m].claimRef.None? && s.machines[m].available
  }

  // Some Machine carries the claim, or the one it names is free and Available.
  ghost predicate HasMachine(s: State, k: Key)
    requires k in s.claims
  {
    var c := s.claims[k];
    || !NoCarrier(s, c.uid)
    || (c.want.ByName? && IsFree(s, Key(k.ns, c.want.machine)))
  }

  // The phase k's reconcile from s may end in; only a selector leaves the List a choice.
  ghost predicate PhaseFits(s: State, k: Key, phase: Phase)
    requires k in s.claims
  {
    && phase != Unset
    && (phase == Failed <==> NamesNothing(s, k))
    && (HasMachine(s, k) ==> phase == Bound)
    && (phase == Bound ==> HasMachine(s, k) || s.claims[k].want.BySelector?)
  }

  ghost predicate Live(s: State, k: Key) {
    k in s.claims && !s.claims[k].deleting && s.claims[k].finalizer && s.claims[k].phase != Bound
  }

  // u lies on the way of k's reconcile from s: what it has established agrees with s.
  ghost predicate OnTheWay(s: State, k: Key, u: State)
    requires k in s.claims
  {
    if k in u.workers then u.claims == s.claims && Agrees(s, k, u, u.workers[k])
    else k in u.claims && PhaseFits(s, k, u.claims[k].phase)
  }

  ghost predicate Agrees(s: State, k: Key, u: State, w: Worker)
    requires k in s.claims
  {
    var c := s.claims[k];
    match w
    case Starting => u.machines == s.machines
    case FindingToAdopt(d) => d == c && u.machines == s.machines
    case Picking(d) => d == c && u.machines == s.machines && NoCarrier(s, c.uid)
    case Binding(d, candidates) =>
      && d == c
      && if candidates == [] then PhaseFits(s, k, Pending) else PhaseFits(s, k, Bound) && Unchanged(u, candidates[0])
    case RecordingBound(d, _) => d == c && PhaseFits(s, k, Bound)
    case RecordingNoCandidate(d) => d == c && PhaseFits(s, k, Pending)
    case RecordingFailed(d) => d == c && PhaseFits(s, k, Failed)
    case _ => false
  }

  ghost predicate Unchanged(u: State, cand: Candidate) {
    cand.key in u.machines && u.machines[cand.key] == cand.copy
  }

  lemma FindAgrees(s: State, k: Key, u: State, hint: seq<Key>)
    requires Inv(u) && Live(s, k) && OnTheWay(s, k, u) && WorkEnabled(u, k, hint) && u.workers[k].FindingToAdopt?
    ensures OnTheWay(s, k, WorkStep(u, k, hint))
  {
    var c := s.claims[k];
    assert WorkerOk(u, k);
    FindBoundMeans(u, k, c);
    var r := FindBound(u, k, c);
    assert forall m :: Carries(u, m, c.uid) == Carries(s, m, c.uid);
    if r.Some? { assert Carries(s, r.value, c.uid); }
  }

  lemma PickAgrees(s: State, k: Key, u: State, hint: seq<Key>)
    requires Live(s, k) && OnTheWay(s, k, u) && WorkEnabled(u, k, hint) && u.workers[k].Picking?
    ensures OnTheWay(s, k, WorkStep(u, k, hint))
  {
  }

  lemma BindAgrees(s: State, k: Key, u: State, hint: seq<Key>)
    requires Live(s, k) && OnTheWay(s, k, u) && WorkEnabled(u, k, hint) && u.workers[k].Binding?
    ensures OnTheWay(s, k, WorkStep(u, k, hint))
  {
  }

  lemma RecordAgrees(s: State, k: Key, u: State, hint: seq<Key>)
    requires Live(s, k) && OnTheWay(s, k, u) && WorkEnabled(u, k, hint)
    requires u.workers[k].RecordingBound? || u.workers[k].RecordingNoCandidate? || u.workers[k].RecordingFailed?
    ensures OnTheWay(s, k, WorkStep(u, k, hint)) && k !in WorkStep(u, k, hint).workers
  {
  }

  lemma WorkAgrees(s: State, k: Key, u: State, hint: seq<Key>)
    requires Inv(u) && Live(s, k) && OnTheWay(s, k, u) && WorkEnabled(u, k, hint)
    ensures OnTheWay(s, k, WorkStep(u, k, hint))
  {
    match u.workers[k]
    case Starting =>
    case FindingToAdopt(_) => FindAgrees(s, k, u, hint);
    case Picking(_) => PickAgrees(s, k, u, hint);
    case Binding(_, _) => BindAgrees(s, k, u, hint);
    case _ => RecordAgrees(s, k, u, hint);
  }

  lemma {:induction false} WorkRunAgrees(s: State, k: Key, u: State, run: seq<Action>, t: State)
    requires Inv(u) && Live(s, k) && OnTheWay(s, k, u) && OnlyWork(k, run) && Reaches(u, run, t)
    ensures OnTheWay(s, k, t)
    decreases |run|
  {
    if run != [] {
      WorkAgrees(s, k, u, run[0].hint);
      StepKeeps(u, run[0]);
      WorkRunAgrees(s, k, Do(u, run[0]), run[1..], t);
    }
  }

  /** Exactly when a reconcile fails a claim, or leaves a Failed one so: the claim names a Machine that does not
      exist and no Machine carries it. Otherwise it ends Pending or Bound: Bound if some Machine carries the claim or
      the one it names is free, and else only by a selector's choice. */
  lemma EndsFailedIff(s: State, k: Key, run: seq<Action>, t: State)
    requires Inv(s) && Live(s, k) && IsReconcile(s, k, run, t)
    ensures k in t.claims && t.claims[k].phase != Unset
    ensures t.claims[k].phase == Failed <==> NamesNothing(s, k)
    ensures HasMachine(s, k) ==> t.claims[k].phase == Bound
    ensures t.claims[k].phase == Bound ==> HasMachine(s, k) || s.claims[k].want.BySelector?
  {
    StepKeeps(s, run[0]);
    WorkRunAgrees(s, k, Do(s, run[0]), run[1..], t);
  }

  ghost function StepsLeft(w: Worker): nat {
    match w
    case Starting => 4
    case FindingToAdopt(_) => 3
    case FindingToRelease(_) => 3
    case Picking(_) => 2
    case Releasing(_, _) => 2
    case Binding(_, _) => 1
    case _ => 0
  }

  // A step of an undisturbed reconcile brings its end nearer.
  lemma WorkNearsEnd(s: State, k: Key, u: State)
    requires Inv(u) && Live(s, k) && OnTheWay(s, k, u) && k in u.workers
    ensures WorkEnabled(u, k, [])
    ensures var v := WorkStep(u, k, []); k in v.workers ==> StepsLeft(v.workers[k]) < StepsLeft(u.workers[k])
  {
    if u.workers[k].RecordingBound? || u.workers[k].RecordingNoCandidate? || u.workers[k].RecordingFailed? {
      RecordAgrees(s, k, u, []);
    } else {
      assert OnTheWay(s, k, u);
    }
  }

  lemma {:induction false} Completes(s: State, k: Key, u: State) returns (run: seq<Action>, t: State)
    requires Inv(u) && Live(s, k) && OnTheWay(s, k, u) && k in u.workers
    ensures OnlyWork(k, run) && Reaches(u, run, t) && k !in t.workers
    decreases StepsLeft(u.workers[k])
  {
    WorkNearsEnd(s, k, u);
    WorkAgrees(s, k, u, []);
    StepKeeps(u, Work(k, []));
    var v := WorkStep(u, k, []);
    var rest: seq<Action>;
    if k in v.workers { rest, t := Completes(s, k, v); } else { rest, t := [], v; }
    assert Reaches(v, rest, t);
    WorkFirst(k, [], u, v, rest, t);
    run := [Work(k, [])] + rest;
  }

  /** Such a reconcile always runs to its end. */
  lemma ReconcileEnds(s: State, k: Key) returns (run: seq<Action>, t: State)
    requires Inv(s) && Live(s, k) && k !in s.workers
    ensures IsReconcile(s, k, run, t)
  {
    var u := Do(s, Begin(k));
    StepKeeps(s, Begin(k));
    var rest;
    rest, t := Completes(s, k, u);
    First(s, Begin(k), u, rest, t);
    run := [Begin(k)] + rest;
    assert run[1..] == rest;
  }

  // ----- which Machine it is bound to -----

  // A step of an undisturbed reconcile that is not over, and the end of one that is.
  lemma WorkNext(k: Key, u: State, run: seq<Action>, t: State)
    requires OnlyWork(k, run) && Reaches(u, run, t) && k in u.workers && k !in t.workers
    ensures run != [] && run[0] == Work(k, run[0].hint) && WorkEnabled(u, k, run[0].hint)
    ensures OnlyWork(k, run[1..]) && Reaches(WorkStep(u, k, run[0].hint), run[1..], t)
  {
  }

  lemma WorkOver(k: Key, u: State, run: seq<Action>, t: State)
    requires OnlyWork(k, run) && Reaches(u, run, t) && k !in u.workers
    ensures run == [] && t == u
  {
  }

  lemma ReadAny(s: State, k: Key, hint: seq<Key>)
    requires Live(s, k) && WorkEnabled(Put(s, k, Starting), k, hint)
    ensures WorkStep(Put(s, k, Starting), k, hint) == Put(s, k, FindingToAdopt(s.claims[k]))
  {
    assert Put(Put(s, k, Starting), k, FindingToAdopt(s.claims[k])) == Put(s, k, FindingToAdopt(s.claims[k]));
  }

  lemma FindNone(s: State, k: Key, c: Claim, hint: seq<Key>)
    requires NoCarrier(s, c.uid) && WorkEnabled(Put(s, k, FindingToAdopt(c)), k, hint)
    ensures WorkStep(Put(s, k, FindingToAdopt(c)), k, hint) == Put(s, k, Picking(c))
  {
    FindsNothing(s, k, c);
  }

  lemma FindCarrier(s: State, k: Key, c: Claim, m: Key, hint: seq<Key>)
    requires Inv(s) && Issued(s, k, c.uid) && StatusOk(s, k, c) && Carries(s, m, c.uid)
    requires WorkEnabled(Put(s, k, FindingToAdopt(c)), k, hint)
    ensures WorkStep(Put(s, k, FindingToAdopt(c)), k, hint) == Put(s, k, RecordingBound(c, m))
  {
    AdoptsCarrier(s, k, c, m);
  }

  // The Machines to try, in order: those listed, or the one named.
  ghost function Choices(s: State, k: Key, c: Claim, hint: seq<Key>): seq<Key> {
    match c.want
    case BySelector => hint
    case ByName(n) => if IsFree(s, Key(k.ns, n)) then [Key(k.ns, n)] else []
    case Nothing => []
  }

  lemma PickFirst(s: State, k: Key, c: Claim, hint: seq<Key>) returns (candidates: seq<Candidate>)
    requires WorkEnabled(Put(s, k, Picking(c)), k, hint) && Choices(s, k, c, hint) != []
    ensures WorkStep(Put(s, k, Picking(c)), k, hint) == Put(s, k, Binding(c, candidates))
    ensures var m := Choices(s, k, c, hint)[0];
            candidates != [] && IsFree(s, m) && m.ns == k.ns && candidates[0] == Candidate(m, s.machines[m])
  {
    var u := Put(s, k, Picking(c));
    candidates := Pick(u, k, c, hint).candidates;
    assert Put(u, k, Binding(c, candidates)) == Put(s, k, Binding(c, candidates));
  }

  lemma BindFirst(s: State, k: Key, c: Claim, candidates: seq<Candidate>, hint: seq<Key>)
    requires candidates != [] && Unchanged(s, candidates[0]) && WorkEnabled(Put(s, k, Binding(c, candidates)), k, hint)
    ensures var m := candidates[0].key;
            WorkStep(Put(s, k, Binding(c, candidates)), k, hint) ==
            Put(PutMachine(s, m, s.machines[m].(claimRef := Some(Ref(k, c.uid)))), k, RecordingBound(c, m))
  {
  }

  lemma RecordAny(s: State, k: Key, c: Claim, m: Key, hint: seq<Key>)
    requires k !in s.workers && k in s.claims && s.claims[k] == c
    requires WorkEnabled(Put(s, k, RecordingBound(c, m)), k, hint)
    ensures WorkStep(Put(s, k, RecordingBound(c, m)), k, hint) ==
            UpdateClaim(s, k, c, c.(phase := Bound, machineName := m.name))
  {
    RecordsBound(s, k, c, m);
  }

  // t is s with claim k recorded Bound to m.
  ghost predicate RecordedBound(s: State, k: Key, m: Key, t: State)
    requires k in s.claims
  {
    && k in t.claims
    && t.claims == s.claims[k := s.claims[k].(phase := Bound, machineName := m.name, rv := t.claims[k].rv)]
  }

  // t is s with claim k bound to m: m carries the claim's key and UID, and no other Machine changed.
  ghost predicate BoundTo(s: State, k: Key, m: Key, t: State)
    requires k in s.claims
  {
    && RecordedBound(s, k, m, t) && m in s.machines
    && t.machines == s.machines[m := s.machines[m].(claimRef := Some(Ref(k, s.claims[k].uid)), rv := s.nextRv)]
  }

  // The last two steps: the bind, and its record.
  lemma BindAndRecord(s: State, k: Key, c: Claim, candidates: seq<Candidate>, run: seq<Action>, t: State)
    requires k !in s.workers && k in s.claims && s.claims[k] == c && candidates != [] && Unchanged(s, candidates[0])
    requires OnlyWork(k, run) && Reaches(Put(s, k, Binding(c, candidates)), run, t) && k !in t.workers
    ensures BoundTo(s, k, candidates[0].key, t)
  {
    var m := candidates[0].key;
    WorkNext(k, Put(s, k, Binding(c, candidates)), run, t);
    BindFirst(s, k, c, candidates, run[0].hint);
    var bound := PutMachine(s, m, s.machines[m].(claimRef := Some(Ref(k, c.uid))));
    RecordAndEnd(bound, k, c, m, run[1..], t);
  }

  lemma RecordAndEnd(s: State, k: Key, c: Claim, m: Key, run: seq<Action>, t: State)
    requires k !in s.workers && k in s.claims && s.claims[k] == c
    requires OnlyWork(k, run) && Reaches(Put(s, k, RecordingBound(c, m)), run, t) && k !in t.workers
    ensures RecordedBound(s, k, m, t) && t.machines == s.machines
  {
    WorkNext(k, Put(s, k, RecordingBound(c, m)), run, t);
    RecordAny(s, k, c, m, run[0].hint);
    WorkOver(k, UpdateClaim(s, k, c, c.(phase := Bound, machineName := m.name)), run[1..], t);
  }

  // The reconcile of a claim nobody carries reaches its choice at its fourth action.
  lemma ReachesChoice(s: State, k: Key, run: seq<Action>, t: State)
    requires Live(s, k) && NoCarrier(s, s.claims[k].uid) && IsReconcile(s, k, run, t)
    ensures |run| > 3 && run[3].Work? && OnlyWork(k, run[3..]) && k !in s.workers
    ensures Reaches(Put(s, k, Picking(s.claims[k])), run[3..], t)
  {
    var c := s.claims[k];
    var u := Put(s, k, Starting);
    var r1 := run[1..];
    WorkNext(k, u, r1, t);
    ReadAny(s, k, r1[0].hint);
    var r2 := r1[1..];
    WorkNext(k, Put(s, k, FindingToAdopt(c)), r2, t);
    FindNone(s, k, c, r2[0].hint);
    var r3 := r2[1..];
    WorkNext(k, Put(s, k, Picking(c)), r3, t);
    assert r3 == run[3..] && r3[0] == run[3];
  }

  // With something to choose from, the first choice is taken.
  lemma FirstChoiceIsTaken(s: State, k: Key, run: seq<Action>, t: State)
    requires Live(s, k) && NoCarrier(s, s.claims[k].uid) && IsReconcile(s, k, run, t)
    ensures |run| > 3 && run[3].Work?
    ensures var choices := Choices(s, k, s.claims[k], run[3].hint);
            choices != [] ==> IsFree(s, choices[0]) && choices[0].ns == k.ns && BoundTo(s, k, choices[0], t)
  {
    var c := s.claims[k];
    ReachesChoice(s, k, run, t);
    var rest := run[3..];
    if Choices(s, k, c, run[3].hint) != [] {
      WorkNext(k, Put(s, k, Picking(c)), rest, t);
      var candidates := PickFirst(s, k, c, rest[0].hint);
      BindAndRecord(s, k, c, candidates, rest[1..], t);
    }
  }

  // With nothing to choose from, no Machine changes.
  lemma NoChoiceNoBind(s: State, k: Key, run: seq<Action>, t: State)
    requires Inv(s) && Live(s, k) && NoCarrier(s, s.claims[k].uid) && IsReconcile(s, k, run, t)
    requires |run| > 3 && run[3].Work? && Choices(s, k, s.claims[k], run[3].hint) == []
    ensures k in t.claims && t.claims[k].phase != Bound && t.machines == s.machines
  {
    var c := s.claims[k];
    ReachesChoice(s, k, run, t);
    var rest := run[3..];
    WorkNext(k, Put(s, k, Picking(c)), rest, t);
    var w := PickNone(s, k, c, rest[0].hint);
    if w.Binding? { NoneLeftPends(s, k, c, rest[1..], t); } else { FailsToBind(s, k, c, w, rest[1..], t); }
  }

  // Without a candidate left, the claim is recorded Pending.
  lemma NoneLeftPends(s: State, k: Key, c: Claim, run: seq<Action>, t: State)
    requires k in s.claims && s.claims[k] == c
    requires OnlyWork(k, run) && Reaches(Put(s, k, Binding(c, [])), run, t) && k !in t.workers
    ensures k in t.claims && t.claims[k].phase == Pending && t.machines == s.machines
  {
    WorkNext(k, Put(s, k, Binding(c, [])), run, t);
    NoneLeft(s, k, c, run[0].hint);
    FailsToBind(s, k, c, RecordingNoCandidate(c), run[1..], t);
  }

  lemma NoneLeft(s: State, k: Key, c: Claim, hint: seq<Key>)
    requires WorkEnabled(Put(s, k, Binding(c, [])), k, hint)
    ensures WorkStep(Put(s, k, Binding(c, [])), k, hint) == Put(s, k, RecordingNoCandidate(c))
  {
    assert Put(Put(s, k, Binding(c, [])), k, RecordingNoCandidate(c)) == Put(s, k, RecordingNoCandidate(c));
  }

  lemma PickNone(s: State, k: Key, c: Claim, hint: seq<Key>) returns (w: Worker)
    requires WorkEnabled(Put(s, k, Picking(c)), k, hint) && Choices(s, k, c, hint) == []
    ensures WorkStep(Put(s, k, Picking(c)), k, hint) == Put(s, k, w)
    ensures w == Binding(c, []) || w == RecordingNoCandidate(c) || w == RecordingFailed(c)
  {
    var u := Put(s, k, Picking(c));
    w := Pick(u, k, c, hint);
    assert Put(u, k, w) == Put(s, k, w);
  }

  lemma FailsToBind(s: State, k: Key, c: Claim, w: Worker, run: seq<Action>, t: State)
    requires k in s.claims && s.claims[k] == c && (w == RecordingNoCandidate(c) || w == RecordingFailed(c))
    requires OnlyWork(k, run) && Reaches(Put(s, k, w), run, t) && k !in t.workers
    ensures k in t.claims && t.claims[k].phase == (if w.RecordingFailed? then Failed else Pending)
    ensures t.machines == s.machines
  {
    WorkNext(k, Put(s, k, w), run, t);
    var v := WorkStep(Put(s, k, w), k, run[0].hint);
    WorkOver(k, v, run[1..], t);
  }

  /** An undisturbed reconcile of a selector claim nobody carries ends Bound exactly when its List, the fourth action,
      returned some Machine; it is then bound to the first one listed. */
  lemma SelectorBindsFirstListed(s: State, k: Key, run: seq<Action>, t: State)
    requires Inv(s) && Live(s, k) && NoCarrier(s, s.claims[k].uid) && s.claims[k].want.BySelector?
    requires IsReconcile(s, k, run, t)
    ensures |run| > 3 && run[3].Work? && k in t.claims
    ensures t.claims[k].phase == Bound <==> run[3].hint != []
    ensures run[3].hint != [] ==>
            IsFree(s, run[3].hint[0]) && run[3].hint[0].ns == k.ns && BoundTo(s, k, run[3].hint[0], t)
    ensures run[3].hint == [] ==> t.machines == s.machines
  {
    FirstChoiceIsTaken(s, k, run, t);
    if run[3].hint == [] { NoChoiceNoBind(s, k, run, t); }
  }

  /** That of a claim by name ends Bound exactly when the named Machine is free, and then to it. */
  lemma NamedBindsNamed(s: State, k: Key, run: seq<Action>, t: State)
    requires Inv(s) && Live(s, k) && NoCarrier(s, s.claims[k].uid) && s.claims[k].want.ByName?
    requires IsReconcile(s, k, run, t)
    ensures var m := Key(k.ns, s.claims[k].want.machine);
            && k in t.claims && (t.claims[k].phase == Bound <==> IsFree(s, m))
            && (IsFree(s, m) ==> BoundTo(s, k, m, t))
            && (!IsFree(s, m) ==> t.machines == s.machines)
  {
    var m := Key(k.ns, s.claims[k].want.machine);
    FirstChoiceIsTaken(s, k, run, t);
    if !IsFree(s, m) { NoChoiceNoBind(s, k, run, t); }
  }

  /** And a claim some Machine carries is recorded Bound to that Machine, which stays as it is like all others. */
  lemma CarriedIsAdopted(s: State, k: Key, m: Key, run: seq<Action>, t: State)
    requires Inv(s) && Live(s, k) && Carries(s, m, s.claims[k].uid) && IsReconcile(s, k, run, t)
    ensures RecordedBound(s, k, m, t) && t.machines == s.machines
  {
    var c := s.claims[k];
    assert ClaimOk(s, k);
    var r1 := run[1..];
    WorkNext(k, Put(s, k, Starting), r1, t);
    ReadAny(s, k, r1[0].hint);
    var r2 := r1[1..];
    WorkNext(k, Put(s, k, FindingToAdopt(c)), r2, t);
    FindCarrier(s, k, c, m, r2[0].hint);
    RecordAndEnd(s, k, c, m, r2[1..], t);
  }

  // ----- conflicts -----

  // Somebody changed the candidate since it was read, without deleting it.
  ghost predicate Conflicts(s: State, cand: Candidate) {
    cand.key in s.machines && s.machines[cand.key].rv != cand.copy.rv
  }

  lemma ConflictMovesOn(s: State, k: Key, c: Claim, candidates: seq<Candidate>, hint: seq<Key>)
    requires candidates != [] && Conflicts(s, candidates[0]) && WorkEnabled(Put(s, k, Binding(c, candidates)), k, hint)
    ensures WorkStep(Put(s, k, Binding(c, candidates)), k, hint) == Put(s, k, Binding(c, candidates[1..]))
  {
    var u := Put(s, k, Binding(c, candidates));
    assert Put(u, k, Binding(c, candidates[1..])) == Put(s, k, Binding(c, candidates[1..]));
  }

  /** Whatever became of the candidates since they were read, the rest of the reconcile passes over those that conflict
      and binds the first that is as it was read. */
  lemma {:induction false} ConflictTriesNext(s: State, k: Key, c: Claim, candidates: seq<Candidate>, i: nat,
                                             run: seq<Action>, t: State)
    requires k !in s.workers && k in s.claims && s.claims[k] == c
    requires i < |candidates| && Unchanged(s, candidates[i])
    requires forall j :: 0 <= j < i ==> Conflicts(s, candidates[j])
    requires OnlyWork(k, run) && Reaches(Put(s, k, Binding(c, candidates)), run, t) && k !in t.workers
    ensures BoundTo(s, k, candidates[i].key, t)
    decreases i
  {
    if i == 0 {
      BindAndRecord(s, k, c, candidates, run, t);
    } else {
      WorkNext(k, Put(s, k, Binding(c, candidates)), run, t);
      ConflictMovesOn(s, k, c, candidates, run[0].hint);
      ConflictTriesNext(s, k, c, candidates[1..], i - 1, run[1..], t);
    }
  }

  /** And when all of them conflict, the claim is recorded Pending and no Machine changes. */
  lemma {:induction false} AllConflictsPend(s: State, k: Key, c: Claim, candidates: seq<Candidate>, run: seq<Action>,
                                            t: State)
    requires k in s.claims && s.claims[k] == c && forall j :: 0 <= j < |candidates| ==> Conflicts(s, candidates[j])
    requires OnlyWork(k, run) && Reaches(Put(s, k, Binding(c, candidates)), run, t) && k !in t.workers
    ensures k in t.claims && t.claims[k].phase == Pending && t.machines == s.machines
    decreases |candidates|
  {
    if candidates == [] {
      NoneLeftPends(s, k, c, run, t);
    } else {
      WorkNext(k, Put(s, k, Binding(c, candidates)), run, t);
      ConflictMovesOn(s, k, c, candidates, run[0].hint);
      AllConflictsPend(s, k, c, candidates[1..], run[1..], t);
    }
  }

  // ----- before and after the finalizer -----

  /** An undisturbed reconcile of a new claim puts the finalizer on it and does nothing else. */
  lemma FinalizerIsAdded(s: State, k: Key, run: seq<Action>, t: State)
    requires k in s.claims && !s.claims[k].deleting && !s.claims[k].finalizer && IsReconcile(s, k, run, t)
    ensures t.machines == s.machines && k in t.claims
    ensures t.claims == s.claims[k := s.claims[k].(finalizer := true, rv := t.claims[k].rv)]
  {
    var c, r1 := s.claims[k], run[1..];
    WorkNext(k, Put(s, k, Starting), r1, t);
    assert WorkStep(Put(s, k, Starting), k, r1[0].hint) == Put(s, k, AddingFinalizer(c));
    var r2 := r1[1..];
    WorkNext(k, Put(s, k, AddingFinalizer(c)), r2, t);
    WorkOver(k, WorkStep(Put(s, k, AddingFinalizer(c)), k, r2[0].hint), r2[1..], t);
  }

  /** One of a deleted claim without it changes nothing. */
  lemma FinishedIsLeftAlone(s: State, k: Key, run: seq<Action>, t: State)
    requires k in s.claims && s.claims[k].deleting && !s.claims[k].finalizer && IsReconcile(s, k, run, t)
    ensures t.machines == s.machines && t.claims == s.claims
  {
    var r1 := run[1..];
    WorkNext(k, Put(s, k, Starting), r1, t);
    WorkOver(k, WorkStep(Put(s, k, Starting), k, r1[0].hint), r1[1..], t);
  }

  // ----- calls that fail -----

  // The reconcile's next call names a Machine that has been deleted.
  ghost predicate NamesDeleted(s: State, k: Key, hint: seq<Key>)
    requires WorkEnabled(s, k, hint)
  {
    match s.workers[k]
    case Binding(_, candidates) => candidates != [] && candidates[0].key !in s.machines
    case Releasing(_, m) => m !in s.machines
    case ClearingOrphans(todo) => todo != {} && hint[0] !in s.machines
    case _ => false
  }

  // It writes a claim somebody has changed or deleted since it was read.
  ghost predicate WritesStale(s: State, k: Key)
    requires k in s.workers
  {
    var w := s.workers[k];
    && (w.AddingFinalizer? || w.RemovingFinalizer? || w.RecordingLost? || w.Mirroring? || w.RecordingBound?
        || w.RecordingNoCandidate? || w.RecordingFailed?)
    && (k !in s.claims || s.claims[k].rv != w.claim.rv)
  }

  /** A failing call ends the reconcile and changes nothing: neither a patch or bind of a Machine that is gone, nor a
      write of a claim that is no longer as it was read. */
  lemma FailedCallEnds(s: State, k: Key, hint: seq<Key>)
    requires WorkEnabled(s, k, hint) && (NamesDeleted(s, k, hint) || WritesStale(s, k))
    ensures WorkStep(s, k, hint) == s.(workers := s.workers - {k})
  {
  }

  // ----- a claim that is being deleted -----

  ghost predicate Leaving(s: State, k: Key) {
    k in s.claims && s.claims[k].deleting && s.claims[k].finalizer
  }

  // u's Machines are s's without the references to uid.
  ghost predicate Released(s: State, uid: nat, u: State) {
    && u.machines.Keys == s.machines.Keys
    && (forall m :: m in s.machines && !Carries(s, m, uid) ==> u.machines[m] == s.machines[m])
    && (forall m :: m in s.machines && Carries(s, m, uid) ==>
          u.machines[m] == s.machines[m].(claimRef := None, rv := u.machines[m].rv))
  }

  // t's claims are s's without claim k, or with k kept by somebody else's finalizer alone.
  ghost predicate LetGo(s: State, k: Key, t: State)
    requires k in s.claims
  {
    && s.claims[k].uid in t.retired
    && if s.claims[k].pinned
       then k in t.claims && t.claims == s.claims[k := s.claims[k].(finalizer := false, rv := t.claims[k].rv)]
       else t.claims == s.claims - {k}
  }

  ghost predicate OnTheWayOut(s: State, k: Key, u: State)
    requires k in s.claims
  {
    if k in u.workers then u.claims == s.claims && Releases(s, k, u, u.workers[k])
    else Released(s, s.claims[k].uid, u) && LetGo(s, k, u)
  }

  ghost predicate Releases(s: State, k: Key, u: State, w: Worker)
    requires k in s.claims
  {
    var c := s.claims[k];
    match w
    case Starting => u.machines == s.machines
    case FindingToRelease(d) => d == c && u.machines == s.machines
    case Releasing(d, m) => d == c && u.machines == s.machines && Carries(s, m, c.uid)
    case RemovingFinalizer(d) => d == c && Released(s, c.uid, u)
    case _ => false
  }

  lemma FindReleases(s: State, k: Key, u: State, hint: seq<Key>)
    requires Inv(u) && Leaving(s, k) && OnTheWayOut(s, k, u) && WorkEnabled(u, k, hint)
    requires u.workers[k].FindingToRelease?
    ensures OnTheWayOut(s, k, WorkStep(u, k, hint))
  {
    var c := s.claims[k];
    assert WorkerOk(u, k);
    FindBoundMeans(u, k, c);
    var r := FindBound(u, k, c);
    assert forall m :: Carries(u, m, c.uid) == Carries(s, m, c.uid);
    if r.Some? { assert Carries(s, r.value, c.uid); } else { assert Released(s, c.uid, u); }
  }

  lemma PatchReleases(s: State, k: Key, u: State, hint: seq<Key>)
    requires Inv(u) && Leaving(s, k) && OnTheWayOut(s, k, u) && WorkEnabled(u, k, hint) && u.workers[k].Releasing?
    ensures OnTheWayOut(s, k, WorkStep(u, k, hint))
  {
    var c, m := s.claims[k], u.workers[k].machine;
    assert forall n :: Carries(u, n, c.uid) == Carries(s, n, c.uid);
    assert forall n :: Carries(s, n, c.uid) ==> n == m;
  }

  lemma RemovalLetsGo(s: State, k: Key, u: State, hint: seq<Key>)
    requires Leaving(s, k) && OnTheWayOut(s, k, u) && WorkEnabled(u, k, hint) && u.workers[k].RemovingFinalizer?
    ensures OnTheWayOut(s, k, WorkStep(u, k, hint)) && k !in WorkStep(u, k, hint).workers
  {
  }

  lemma WorkReleases(s: State, k: Key, u: State, hint: seq<Key>)
    requires Inv(u) && Leaving(s, k) && OnTheWayOut(s, k, u) && WorkEnabled(u, k, hint)
    ensures OnTheWayOut(s, k, WorkStep(u, k, hint))
  {
    match u.workers[k]
    case Starting =>
    case FindingToRelease(_) => FindReleases(s, k, u, hint);
    case Releasing(_, _) => PatchReleases(s, k, u, hint);
    case _ => RemovalLetsGo(s, k, u, hint);
  }

  lemma {:induction false} WorkRunReleases(s: State, k: Key, u: State, run: seq<Action>, t: State)
    requires Inv(u) && Leaving(s, k) && OnTheWayOut(s, k, u) && OnlyWork(k, run) && Reaches(u, run, t)
    ensures OnTheWayOut(s, k, t)
    decreases |run|
  {
    if run != [] {
      WorkReleases(s, k, u, run[0].hint);
      StepKeeps(u, run[0]);
      WorkRunReleases(s, k, Do(u, run[0]), run[1..], t);
    }
  }

  /** One undisturbed reconcile of a deleted claim takes its reference off every Machine that carries it, changes no
      other Machine, removes the finalizer and with it, unless somebody else holds it, the claim. */
  lemma DeletionReleases(s: State, k: Key, run: seq<Action>, t: State)
    requires Inv(s) && Leaving(s, k) && IsReconcile(s, k, run, t)
    ensures Released(s, s.claims[k].uid, t) && NoCarrier(t, s.claims[k].uid) && LetGo(s, k, t)
  {
    StepKeeps(s, run[0]);
    WorkRunReleases(s, k, Do(s, run[0]), run[1..], t);
    forall m
      ensures !Carries(t, m, s.claims[k].uid)
    {
      if m in s.machines { assert Carries(s, m, s.claims[k].uid) || t.machines[m] == s.machines[m]; }
    }
  }

  lemma ReleaseNearsEnd(s: State, k: Key, u: State)
    requires Inv(u) && Leaving(s, k) && OnTheWayOut(s, k, u) && k in u.workers
    ensures WorkEnabled(u, k, [])
    ensures var v := WorkStep(u, k, []); k in v.workers ==> StepsLeft(v.workers[k]) < StepsLeft(u.workers[k])
  {
    if u.workers[k].RemovingFinalizer? { RemovalLetsGo(s, k, u, []); } else { assert OnTheWayOut(s, k, u); }
  }

  lemma {:induction false} ReleaseCompletes(s: State, k: Key, u: State) returns (run: seq<Action>, t: State)
    requires Inv(u) && Leaving(s, k) && OnTheWayOut(s, k, u) && k in u.workers
    ensures OnlyWork(k, run) && Reaches(u, run, t) && k !in t.workers
    decreases StepsLeft(u.workers[k])
  {
    ReleaseNearsEnd(s, k, u);
    WorkReleases(s, k, u, []);
    StepKeeps(u, Work(k, []));
    var v := WorkStep(u, k, []);
    var rest: seq<Action>;
    if k in v.workers { rest, t := ReleaseCompletes(s, k, v); } else { rest, t := [], v; }
    assert Reaches(v, rest, t);
    WorkFirst(k, [], u, v, rest, t);
    run := [Work(k, [])] + rest;
  }

  /** The reconcile of a deleted claim always runs to its end too. */
  lemma DeletionEnds(s: State, k: Key) returns (run: seq<Action>, t: State)
    requires Inv(s) && Leaving(s, k) && k !in s.workers
    ensures IsReconcile(s, k, run, t)
  {
    var u := Do(s, Begin(k));
    StepKeeps(s, Begin(k));
    var rest;
    rest, t := ReleaseCompletes(s, k, u);
    First(s, Begin(k), u, rest, t);
    run := [Begin(k)] + rest;
    assert run[1..] == rest;
  }

  // ----- a claim that is bound -----

  ghost predicate Held(s: State, k: Key) {
    k in s.claims && !s.claims[k].deleting && s.claims[k].finalizer && s.claims[k].phase == Bound
  }

  // The Machine recorded for claim k still carries it.
  ghost predicate StillCarried(s: State, k: Key)
    requires k in s.claims
  {
    var m := Key(k.ns, s.claims[k].machineName);
    m in s.machines && RefIs(s.machines[m], Ref(k, s.claims[k].uid))
  }

  // t is s with a new version of claim k: as it was, or unbound.
  ghost predicate Rechecked(s: State, k: Key, t: State)
    requires k in s.claims
  {
    var c := s.claims[k];
    var d := if StillCarried(s, k) then c else c.(phase := Pending, machineName := "");
    && t.machines == s.machines
    && k in t.claims && t.claims == s.claims[k := d.(rv := t.claims[k].rv)]
  }

  ghost predicate OnRecheck(s: State, k: Key, u: State)
    requires k in s.claims
  {
    if k in u.workers then u.claims == s.claims && u.machines == s.machines && Checks(s, k, u.workers[k])
    else Rechecked(s, k, u)
  }

  ghost predicate Checks(s: State, k: Key, w: Worker)
    requires k in s.claims
  {
    var c := s.claims[k];
    match w
    case Starting => true
    case CheckingBound(d) => d == c
    case Mirroring(d) => d == c && StillCarried(s, k)
    case RecordingLost(d) => d == c && !StillCarried(s, k)
    case _ => false
  }

  lemma RecordRechecks(s: State, k: Key, u: State, hint: seq<Key>)
    requires Held(s, k) && OnRecheck(s, k, u) && WorkEnabled(u, k, hint)
    requires u.workers[k].Mirroring? || u.workers[k].RecordingLost?
    ensures OnRecheck(s, k, WorkStep(u, k, hint)) && k !in WorkStep(u, k, hint).workers
  {
  }

  lemma WorkRechecks(s: State, k: Key, u: State, hint: seq<Key>)
    requires Held(s, k) && OnRecheck(s, k, u) && WorkEnabled(u, k, hint)
    ensures OnRecheck(s, k, WorkStep(u, k, hint))
  {
    if u.workers[k].Mirroring? || u.workers[k].RecordingLost? { RecordRechecks(s, k, u, hint); }
  }

  lemma {:induction false} WorkRunRechecks(s: State, k: Key, u: State, run: seq<Action>, t: State)
    requires Held(s, k) && OnRecheck(s, k, u) && OnlyWork(k, run) && Reaches(u, run, t)
    ensures OnRecheck(s, k, t)
    decreases |run|
  {
    if run != [] {
      WorkRechecks(s, k, u, run[0].hint);
      WorkRunRechecks(s, k, Do(u, run[0]), run[1..], t);
    }
  }

  /** One undisturbed reconcile of a Bound claim leaves it Bound, to the same Machine, if and only if that Machine still
      carries it; otherwise it is Pending, with no Machine recorded. No Machine and no other claim changes. */
  lemma StaysBoundIff(s: State, k: Key, run: seq<Action>, t: State)
    requires Held(s, k) && IsReconcile(s, k, run, t)
    ensures t.machines == s.machines && k in t.claims && t.claims - {k} == s.claims - {k}
    ensures t.claims[k].phase == Bound <==> StillCarried(s, k)
    ensures StillCarried(s, k) ==> t.claims[k] == s.claims[k].(rv := t.claims[k].rv)
    ensures !StillCarried(s, k) ==> t.claims[k].phase == Pending && t.claims[k].machineName == ""
  {
    WorkRunRechecks(s, k, Do(s, run[0]), run[1..], t);
  }

  /** It always runs to its end. */
  lemma RecheckEnds(s: State, k: Key) returns (run: seq<Action>, t: State)
    requires Held(s, k) && k !in s.workers
    ensures IsReconcile(s, k, run, t)
  {
    var u := Do(s, Begin(k));
    var rest;
    rest, t := RecheckCompletes(s, k, u, 2);
    First(s, Begin(k), u, rest, t);
    run := [Begin(k)] + rest;
    assert run[1..] == rest;
  }

  // At most left steps remain before the last.
  lemma {:induction false} RecheckCompletes(s: State, k: Key, u: State, left: nat)
    returns (run: seq<Action>, t: State)
    requires Held(s, k) && OnRecheck(s, k, u) && k in u.workers
    requires u.workers[k].Starting? ==> left >= 2
    requires u.workers[k].CheckingBound? ==> left >= 1
    ensures OnlyWork(k, run) && Reaches(u, run, t) && k !in t.workers
    decreases left
  {
    WorkRechecks(s, k, u, []);
    var v := WorkStep(u, k, []);
    var rest: seq<Action>;
    if u.workers[k].Mirroring? || u.workers[k].RecordingLost? {
      RecordRechecks(s, k, u, []);
      rest, t := [], v;
    } else {
      rest, t := RecheckCompletes(s, k, v, left - 1);
    }
    assert Reaches(v, rest, t);
    WorkFirst(k, [], u, v, rest, t);
    run := [Work(k, [])] + rest;
  }

  // ----- a claim that is gone -----

  // Machine m's reference names claim key k, in k's namespace.
  ghost predicate Names(s: State, m: Key, k: Key) {
    m in s.machines && m.ns == k.ns && s.machines[m].claimRef.Some? && s.machines[m].claimRef.value.key == k
  }

  // u's Machines are s's, with the references to k gone from all but those in todo.
  ghost predicate Cleared(s: State, k: Key, u: State, todo: set<Key>) {
    && u.machines.Keys == s.machines.Keys
    && (forall m :: m in s.machines && (m in todo || !Names(s, m, k)) ==> u.machines[m] == s.machines[m])
    && (forall m :: Names(s, m, k) && m !in todo ==>
          u.machines[m] == s.machines[m].(claimRef := None, rv := u.machines[m].rv))
  }

  ghost predicate OnClearing(s: State, k: Key, u: State) {
    && u.claims == s.claims
    && if k in u.workers then Clears(s, k, u, u.workers[k]) else Cleared(s, k, u, {})
  }

  ghost predicate Clears(s: State, k: Key, u: State, w: Worker) {
    match w
    case Starting => u.machines == s.machines
    case ListingOrphans => u.machines == s.machines
    case ClearingOrphans(todo) => (forall m :: m in todo ==> Names(s, m, k)) && Cleared(s, k, u, todo)
    case _ => false
  }

  lemma ListClears(s: State, k: Key, u: State, hint: seq<Key>)
    requires OnClearing(s, k, u) && WorkEnabled(u, k, hint) && u.workers[k].ListingOrphans?
    ensures OnClearing(s, k, WorkStep(u, k, hint))
  {
    var todo := WorkStep(u, k, hint).workers[k].todo;
    assert forall m :: m in todo <==> Names(s, m, k);
  }

  lemma PatchClears(s: State, k: Key, u: State, hint: seq<Key>)
    requires OnClearing(s, k, u) && WorkEnabled(u, k, hint) && u.workers[k].ClearingOrphans?
    ensures OnClearing(s, k, WorkStep(u, k, hint))
  {
    var todo := u.workers[k].todo;
    if todo != {} {
      var m := hint[0];
      assert Names(s, m, k) && u.machines[m] == s.machines[m];
    }
  }

  lemma WorkClears(s: State, k: Key, u: State, hint: seq<Key>)
    requires k !in s.claims && OnClearing(s, k, u) && WorkEnabled(u, k, hint)
    ensures OnClearing(s, k, WorkStep(u, k, hint))
  {
    match u.workers[k]
    case Starting =>
    case ListingOrphans => ListClears(s, k, u, hint);
    case _ => PatchClears(s, k, u, hint);
  }

  lemma {:induction false} WorkRunClears(s: State, k: Key, u: State, run: seq<Action>, t: State)
    requires k !in s.claims && OnClearing(s, k, u) && OnlyWork(k, run) && Reaches(u, run, t)
    ensures OnClearing(s, k, t)
    decreases |run|
  {
    if run != [] {
      WorkClears(s, k, u, run[0].hint);
      WorkRunClears(s, k, Do(u, run[0]), run[1..], t);
    }
  }

  /** One undisturbed reconcile of a key without a claim leaves no Machine of the namespace with a reference naming
      that key, whatever its UID, and changes no other Machine and no claim. */
  lemma OrphansAreCleared(s: State, k: Key, run: seq<Action>, t: State)
    requires k !in s.claims && IsReconcile(s, k, run, t)
    ensures Cleared(s, k, t, {}) && (forall m :: !Names(t, m, k)) && t.claims == s.claims
  {
    WorkRunClears(s, k, Do(s, run[0]), run[1..], t);
    forall m
      ensures !Names(t, m, k)
    {
      if m in s.machines { assert Names(s, m, k) || t.machines[m] == s.machines[m]; }
    }
  }

  // The patches still to come, one Machine after another.
  lemma {:induction false} ClearingCompletes(s: State, k: Key, u: State) returns (run: seq<Action>, t: State)
    requires OnClearing(s, k, u) && k in u.workers && u.workers[k].ClearingOrphans?
    ensures OnlyWork(k, run) && Reaches(u, run, t) && k !in t.workers
    decreases u.workers[k].todo
  {
    var todo := u.workers[k].todo;
    var hint: seq<Key> := [];
    if m :| m in todo { hint := [m]; }
    PatchClears(s, k, u, hint);
    var v := WorkStep(u, k, hint);
    var rest: seq<Action>;
    if todo != {} {
      assert Names(s, hint[0], k);
      rest, t := ClearingCompletes(s, k, v);
    } else {
      rest, t := [], v;
    }
    assert Reaches(v, rest, t);
    WorkFirst(k, hint, u, v, rest, t);
    run := [Work(k, hint)] + rest;
  }

  /** It always runs to its end. */
  lemma ClearingEnds(s: State, k: Key) returns (run: seq<Action>, t: State)
    requires k !in s.claims && k !in s.workers
    ensures IsReconcile(s, k, run, t)
  {
    var w := Work(k, []);
    var s1 := Do(s, Begin(k));
    var s2 := Do(s1, w);
    var s3 := Do(s2, w);
    WorkClears(s, k, s1, []);
    WorkClears(s, k, s2, []);
    var last;
    last, t := ClearingCompletes(s, k, s3);
    WorkFirst(k, [], s2, s3, last, t);
    WorkFirst(k, [], s1, s2, [w] + last, t);
    var rest := [w] + ([w] + last);
    First(s, Begin(k), s1, rest, t);
    run := [Begin(k)] + rest;
    assert run[1..] == rest;
  }
}
