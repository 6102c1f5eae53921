// The MachineClaim controller as a step system over the API server's state:
// one reconcile at a time per claim key, any interleaving between keys, and a
// crash possible between any two API calls.
module ClaimBinding {
  import opened Common

  datatype Key = Key(ns: string, name: string)

  // MachineClaimReference: the claim's key and UID.
  datatype Ref = Ref(key: Key, uid: nat)

  datatype Machine = Machine(rv: nat, claimRef: Option<Ref>, available: bool)

  datatype Phase = Unset | Pending | Bound | Failed

  // spec.machineName, spec.selector, or neither.
  datatype Want = ByName(machine: string) | BySelector | Nothing

  // finalizer: this controller's; pinned: somebody else's.
  datatype Claim = Claim(
    uid: nat, rv: nat, want: Want, deleting: bool, finalizer: bool, pinned: bool,
    phase: Phase, machineName: string)

  datatype Candidate = Candidate(key: Key, copy: Machine)

  // Where a reconcile stands between two API calls, with the copies it has read.
  datatype Worker =
    | Starting
    | ListingOrphans
    | ClearingOrphans(todo: set<Key>)
    | AddingFinalizer(claim: Claim)
    | FindingToRelease(claim: Claim)
    | Releasing(claim: Claim, machine: Key)
    | RemovingFinalizer(claim: Claim)
    | CheckingBound(claim: Claim)
    | RecordingLost(claim: Claim)
    | Mirroring(claim: Claim)
    | FindingToAdopt(claim: Claim)
    | RecordingBound(claim: Claim, machine: Key)
    | Picking(claim: Claim)
    | Binding(claim: Claim, candidates: seq<Candidate>)
    | RecordingNoCandidate(claim: Claim)
    | RecordingFailed(claim: Claim)

  // owner and retired are history: the key every UID was issued to, and the
  // UIDs whose finalizer onDelete has removed.
  datatype State = State(
    machines: map<Key, Machine>, claims: map<Key, Claim>, workers: map<Key, Worker>,
    nextRv: nat, nextUid: nat, owner: map<nat, Key>, retired: set<nat>)

  datatype Action =
    // the environment
    | CreateMachine(machine: Key, available: bool)
    | DeleteMachine(machine: Key)
    | TouchMachine(machine: Key, available: bool)
    | DropClaimRef(machine: Key)
    | CreateClaim(claim: Key, want: Want, pinned: bool)
    | EditClaim(claim: Key, want: Want, pinned: bool)
    | StripFinalizer(claim: Key)
    | DeleteClaim(claim: Key)
    // the controller; hint resolves what a List returned in which order
    | Begin(claim: Key)
    | Work(claim: Key, hint: seq<Key>)
    | Crash(claim: Key)

  // ----- what the objects say -----

  predicate RefIs(m: Machine, ref: Ref) {
    m.claimRef == Some(ref)
  }

  // machineIsFreeAndAvailable
  predicate FreeAndAvailable(m: Machine) {
    m.claimRef.None? && m.available
  }

  ghost predicate Carries(s: State, m: Key, uid: nat) {
    m in s.machines && s.machines[m].claimRef.Some? && s.machines[m].claimRef.value.uid == uid
  }

  ghost predicate NoCarrier(s: State, uid: nat) {
    forall m :: !Carries(s, m, uid)
  }

  ghost predicate OnlyCarrier(s: State, uid: nat, m: Key) {
    forall n :: Carries(s, n, uid) ==> n == m
  }

  // ----- API calls -----

  ghost function Put(s: State, k: Key, w: Worker): State {
    s.(workers := s.workers[k := w])
  }

  // The reconcile returns (or fails): its local copies are gone.
  ghost function Stop(s: State, k: Key): State {
    s.(workers := s.workers - {k})
  }

  // An Update or Status().Update of the copy read: refused unless the stored version is the one read.
  ghost function UpdateClaim(s: State, k: Key, read: Claim, written: Claim): State {
    if k in s.claims && s.claims[k].rv == read.rv then
      s.(claims := s.claims[k := written.(rv := s.nextRv)], nextRv := s.nextRv + 1)
    else s
  }

  ghost function PutMachine(s: State, m: Key, machine: Machine): State {
    s.(machines := s.machines[m := machine.(rv := s.nextRv)], nextRv := s.nextRv + 1)
  }

  // clearClaimRef's merge patch: it names only spec.claimRef and carries no version.
  ghost function PatchClearRef(s: State, m: Key): State {
    if m in s.machines && s.machines[m].claimRef.Some? then
      PutMachine(s, m, s.machines[m].(claimRef := None))
    else s
  }

  // findBoundMachine: by status.machineName when set, else by scanning the namespace.
  ghost function FindBound(s: State, k: Key, claim: Claim): (r: Option<Key>)
    ensures r.Some? ==> r.value in s.machines && RefIs(s.machines[r.value], Ref(k, claim.uid)) && r.value.ns == k.ns
    ensures r.None? && claim.machineName == "" ==>
              forall m :: m in s.machines && m.ns == k.ns ==> !RefIs(s.machines[m], Ref(k, claim.uid))
  {
    if claim.machineName != "" then
      var m := Key(k.ns, claim.machineName);
      if m in s.machines && RefIs(s.machines[m], Ref(k, claim.uid)) then Some(m) else None
    else if exists m :: m in s.machines && m.ns == k.ns && RefIs(s.machines[m], Ref(k, claim.uid)) then
      var m :| m in s.machines && m.ns == k.ns && RefIs(s.machines[m], Ref(k, claim.uid));
      Some(m)
    else None
  }

  ghost predicate ListedFree(s: State, ns: string, names: seq<Key>) {
    forall i :: 0 <= i < |names| ==>
      names[i].ns == ns && names[i] in s.machines && FreeAndAvailable(s.machines[names[i]])
  }

  ghost function CopiesOf(s: State, ns: string, names: seq<Key>): (r: seq<Candidate>)
    requires ListedFree(s, ns, names)
    ensures |r| == |names|
    ensures forall i :: 0 <= i < |r| ==> r[i] == Candidate(names[i], s.machines[names[i]])
  {
    seq(|names|, i requires 0 <= i < |names| => Candidate(names[i], s.machines[names[i]]))
  }

  // ----- one step of the reconcile for claim key k -----

  ghost predicate WorkEnabled(s: State, k: Key, hint: seq<Key>) {
    && k in s.workers
    && var w := s.workers[k];
       && (w.ClearingOrphans? && w.todo != {} ==> |hint| > 0 && hint[0] in w.todo)
       && (w.Picking? && w.claim.want.BySelector? ==> ListedFree(s, k.ns, hint))
  }

  // reconcilePending, once no Machine carries the claim.
  ghost function Pick(s: State, k: Key, c: Claim, hint: seq<Key>): Worker
    requires c.want.BySelector? ==> ListedFree(s, k.ns, hint)
  {
    match c.want
    case Nothing => RecordingNoCandidate(c)
    case ByName(n) =>
      var m := Key(k.ns, n);
      if m !in s.machines then RecordingFailed(c)
      else if !FreeAndAvailable(s.machines[m]) then RecordingNoCandidate(c)
      else Binding(c, [Candidate(m, s.machines[m])])
    case BySelector => Binding(c, CopiesOf(s, k.ns, hint))
  }

  // tryBind on the first candidate; a conflict moves on to the next.
  ghost function TryBind(s: State, k: Key, c: Claim, candidates: seq<Candidate>): State {
    if candidates == [] then Put(s, k, RecordingNoCandidate(c)) else
      var m := candidates[0].key;
      if m !in s.machines then Stop(s, k)
      else if s.machines[m].rv != candidates[0].copy.rv then Put(s, k, Binding(c, candidates[1..]))
      else Put(PutMachine(s, m, candidates[0].copy.(claimRef := Some(Ref(k, c.uid)))), k, RecordingBound(c, m))
  }

  ghost function WorkStep(s: State, k: Key, hint: seq<Key>): State
    requires WorkEnabled(s, k, hint)
  {
    match s.workers[k]
    case Starting => if Finished(s, k) then Stop(s, k) else Put(s, k, ReadClaim(s, k))
    case ListingOrphans =>
      Put(s, k, ClearingOrphans(set m | m in s.machines && m.ns == k.ns
                                        && s.machines[m].claimRef.Some? && s.machines[m].claimRef.value.key == k))
    case ClearingOrphans(todo) =>
      if todo == {} then Stop(s, k)
      else if hint[0] !in s.machines then Stop(s, k)
      else Put(PatchClearRef(s, hint[0]), k, ClearingOrphans(todo - {hint[0]}))
    case AddingFinalizer(c) => Stop(UpdateClaim(s, k, c, c.(finalizer := true)), k)
    case FindingToRelease(c) =>
      (match FindBound(s, k, c)
       case None => Put(s, k, RemovingFinalizer(c))
       case Some(m) => Put(s, k, Releasing(c, m)))
    case Releasing(c, m) =>
      if m !in s.machines then Stop(s, k) else Put(PatchClearRef(s, m), k, RemovingFinalizer(c))
    case RemovingFinalizer(c) => Stop(RemoveFinalizer(s, k, c), k)
    case CheckingBound(c) =>
      var m := Key(k.ns, c.machineName);
      if m in s.machines && RefIs(s.machines[m], Ref(k, c.uid)) then Put(s, k, Mirroring(c))
        else Put(s, k, RecordingLost(c))
    case RecordingLost(c) => Stop(UpdateClaim(s, k, c, c.(phase := Pending, machineName := "")), k)
    case Mirroring(c) => Stop(UpdateClaim(s, k, c, c), k)
    case FindingToAdopt(c) =>
      (match FindBound(s, k, c)
       case None => Put(s, k, Picking(c))
       case Some(m) => Put(s, k, RecordingBound(c, m)))
    case RecordingBound(c, m) => Stop(UpdateClaim(s, k, c, c.(phase := Bound, machineName := m.name)), k)
    case Picking(c) => Put(s, k, Pick(s, k, c, hint))
    case Binding(c, candidates) => TryBind(s, k, c, candidates)
    case RecordingNoCandidate(c) => Stop(UpdateClaim(s, k, c, c.(phase := Pending)), k)
    case RecordingFailed(c) => Stop(UpdateClaim(s, k, c, c.(phase := Failed)), k)
  }

  // onDelete on a claim without the finalizer returns at once.
  ghost predicate Finished(s: State, k: Key) {
    k in s.claims && s.claims[k].deleting && !s.claims[k].finalizer
  }

  // The dispatch of Reconcile and onChange on the claim just read.
  ghost function ReadClaim(s: State, k: Key): Worker {
    if k !in s.claims then ListingOrphans else
      var c := s.claims[k];
      if c.deleting then FindingToRelease(c)
      else if !c.finalizer then AddingFinalizer(c)
      else if c.phase == Bound then CheckingBound(c)
      else FindingToAdopt(c)
  }

  // The Update of onDelete: without other finalizers the object disappears with it.
  ghost function RemoveFinalizer(s: State, k: Key, c: Claim): State {
    if k in s.claims && s.claims[k].rv == c.rv then
      var s' := s.(retired := s.retired + {c.uid});
      if c.pinned then UpdateClaim(s', k, c, c.(finalizer := false)) else s'.(claims := s'.claims - {k})
    else s
  }

  // ----- all steps -----

  // An empty spec.machineName names nothing.
  predicate IsWant(want: Want) {
    want.ByName? ==> want.machine != ""
  }

  ghost predicate Enabled(s: State, a: Action) {
    match a
    case CreateMachine(m, _) => m !in s.machines && m.name != ""
    case DeleteMachine(m) => m in s.machines
    case TouchMachine(m, _) => m in s.machines
    case DropClaimRef(m) => m in s.machines
    case CreateClaim(k, want, _) => k !in s.claims && IsWant(want)
    case EditClaim(k, want, _) => k in s.claims && IsWant(want)
    case StripFinalizer(k) => k in s.claims && s.claims[k].finalizer
    case DeleteClaim(k) => k in s.claims
    case Begin(k) => k !in s.workers
    case Work(k, hint) => WorkEnabled(s, k, hint)
    case Crash(k) => k in s.workers
  }

  ghost function StoreClaim(s: State, k: Key, c: Claim): State {
    if c.deleting && !c.finalizer && !c.pinned then s.(claims := s.claims - {k})
    else s.(claims := s.claims[k := c.(rv := s.nextRv)], nextRv := s.nextRv + 1)
  }

  ghost function Do(s: State, a: Action): State
    requires Enabled(s, a)
  {
    match a
    case CreateMachine(m, available) => PutMachine(s, m, Machine(0, None, available))
    case DeleteMachine(m) => s.(machines := s.machines - {m})
    case TouchMachine(m, available) => PutMachine(s, m, s.machines[m].(available := available))
    case DropClaimRef(m) => PatchClearRef(s, m)
    case CreateClaim(k, want, pinned) =>
      StoreClaim(s.(nextUid := s.nextUid + 1, owner := s.owner[s.nextUid := k]), k,
                 Claim(s.nextUid, 0, want, false, false, pinned, Unset, ""))
    case EditClaim(k, want, pinned) => StoreClaim(s, k, s.claims[k].(want := want, pinned := pinned))
    case StripFinalizer(k) => StoreClaim(s, k, s.claims[k].(finalizer := false))
    case DeleteClaim(k) => StoreClaim(s, k, s.claims[k].(deleting := true))
    case Begin(k) => Put(s, k, Starting)
    case Work(k, hint) => WorkStep(s, k, hint)
    case Crash(k) => Stop(s, k)
  }

  const INITIAL := State(map[], map[], map[], 0, 0, map[], {})

  ghost predicate IsRun(s: State, run: seq<Action>)
    decreases |run|
  {
    run == [] || (Enabled(s, run[0]) && IsRun(Do(s, run[0]), run[1..]))
  }

  ghost function End(s: State, run: seq<Action>): State
    requires IsRun(s, run)
    decreases |run|
  {
    if run == [] then s else End(Do(s, run[0]), run[1..])
  }

  // ----- the invariant -----

  ghost predicate HasCopy(w: Worker) {
    !w.Starting? && !w.ListingOrphans? && !w.ClearingOrphans?
  }

  // Reconciles that have established that no Machine carries their claim.
  ghost predicate SawNoCarrier(w: Worker) {
    w.RemovingFinalizer? || w.RecordingLost? || w.Picking? || w.Binding? || w.RecordingNoCandidate?
      || w.RecordingFailed?
  }

  // Reconciles that hold the name of their claim's only possible carrier.
  ghost predicate SawCarrier(w: Worker) {
    w.Releasing? || w.RecordingBound?
  }

  // status.machineName is set exactly in phase Bound, and then names the only possible carrier.
  ghost predicate StatusOk(s: State, k: Key, c: Claim) {
    && (c.phase == Bound <==> c.machineName != "")
    && (c.machineName != "" ==> OnlyCarrier(s, c.uid, Key(k.ns, c.machineName)))
  }

  ghost predicate Issued(s: State, k: Key, uid: nat) {
    uid in s.owner && s.owner[uid] == k
  }

  ghost predicate MachineOk(s: State, m: Key) {
    m in s.machines ==>
      && m.name != ""
      && s.machines[m].rv < s.nextRv
      && (s.machines[m].claimRef.Some? ==>
            var ref := s.machines[m].claimRef.value;
            Issued(s, ref.key, ref.uid) && ref.key.ns == m.ns && ref.uid !in s.retired)
  }

  ghost predicate ClaimOk(s: State, k: Key) {
    k in s.claims ==>
      var c := s.claims[k];
      && Issued(s, k, c.uid)
      && c.rv < s.nextRv
      && (c.deleting ==> c.finalizer || c.pinned)
      && (c.uid in s.retired ==> c.deleting && !c.finalizer)
      && StatusOk(s, k, c)
  }

  ghost predicate CopyOk(s: State, k: Key, c: Claim) {
    && Issued(s, k, c.uid)
    && c.rv < s.nextRv
    && c.uid !in s.retired
    && StatusOk(s, k, c)
    && (k in s.claims && s.claims[k].rv == c.rv ==> s.claims[k] == c)
    && (k in s.claims && s.claims[k].uid == c.uid ==>
        s.claims[k].phase == c.phase && s.claims[k].machineName == c.machineName)
  }

  ghost predicate CandidateOk(s: State, k: Key, cand: Candidate) {
    && cand.key.ns == k.ns && cand.key.name != ""
    && FreeAndAvailable(cand.copy)
    && cand.copy.rv < s.nextRv
    && (cand.key in s.machines && s.machines[cand.key].rv == cand.copy.rv ==> s.machines[cand.key] == cand.copy)
  }

  ghost predicate WorkerOk(s: State, k: Key) {
    k in s.workers ==>
      var w := s.workers[k];
      && (HasCopy(w) ==> CopyOk(s, k, w.claim))
      && (SawNoCarrier(w) ==> NoCarrier(s, w.claim.uid))
      && (SawCarrier(w) ==> OnlyCarrier(s, w.claim.uid, w.machine) && w.machine.ns == k.ns && w.machine.name != "")
      && (w.RemovingFinalizer? || w.FindingToRelease? || w.Releasing? ==> w.claim.deleting && w.claim.finalizer)
      && (w.Binding? || w.FindingToAdopt? || w.Picking? || w.RecordingNoCandidate? || w.RecordingFailed? ==>
          w.claim.phase != Bound)
      && (w.AddingFinalizer? ==> !w.claim.deleting)
      && (w.CheckingBound? ==> w.claim.phase == Bound)
      && (w.Binding? ==> forall i :: 0 <= i < |w.candidates| ==> CandidateOk(s, k, w.candidates[i]))
  }

  // Each UID sits on at most one Machine.
  ghost predicate Exclusive(s: State) {
    forall m, n, uid :: Carries(s, m, uid) && Carries(s, n, uid) ==> m == n
  }

  ghost predicate Inv(s: State) {
    && (forall uid :: uid in s.owner ==> uid < s.nextUid)
    && s.retired <= s.owner.Keys
    && (forall m :: MachineOk(s, m))
    && (forall k :: ClaimOk(s, k))
    && (forall k :: WorkerOk(s, k))
    && Exclusive(s)
  }

  // ----- every step keeps the invariant -----

  lemma SetWorker(s: State, k: Key, w: Worker)
    requires Inv(s) && WorkerOk(Put(s, k, w), k)
    ensures Inv(Put(s, k, w))
  {
    var s' := Put(s, k, w);
    assert forall m, uid :: Carries(s', m, uid) <==> Carries(s, m, uid);
    assert forall m :: MachineOk(s, m) ==> MachineOk(s', m);
    assert forall c :: ClaimOk(s, c) ==> ClaimOk(s', c);
    assert forall c :: c != k && WorkerOk(s, c) ==> WorkerOk(s', c);
  }

  lemma DropWorker(s: State, k: Key)
    requires Inv(s)
    ensures Inv(Stop(s, k))
  {
    var s' := Stop(s, k);
    assert forall m, uid :: Carries(s', m, uid) <==> Carries(s, m, uid);
    assert forall m :: MachineOk(s, m) ==> MachineOk(s', m);
    assert forall c :: ClaimOk(s, c) ==> ClaimOk(s', c);
    assert forall c :: WorkerOk(s, c) ==> WorkerOk(s', c);
  }

  // Rewriting a Machine without adding a reference.
  lemma RewriteMachine(s: State, m: Key, machine: Machine)
    requires Inv(s) && m.name != ""
    requires machine.claimRef.None? || (m in s.machines && machine.claimRef == s.machines[m].claimRef)
    ensures Inv(PutMachine(s, m, machine))
  {
    var s' := PutMachine(s, m, machine);
    assert forall n, uid :: Carries(s', n, uid) ==> Carries(s, n, uid);
    assert forall n :: MachineOk(s, n) ==> MachineOk(s', n);
    assert forall c :: ClaimOk(s, c) ==> ClaimOk(s', c);
    forall k
      ensures WorkerOk(s', k)
    {
      assert WorkerOk(s, k);
    }
  }

  lemma LoseMachine(s: State, m: Key)
    requires Inv(s)
    ensures Inv(s.(machines := s.machines - {m}))
  {
    var s' := s.(machines := s.machines - {m});
    assert forall n, uid :: Carries(s', n, uid) ==> Carries(s, n, uid);
    assert forall n :: MachineOk(s, n) ==> MachineOk(s', n);
    assert forall c :: ClaimOk(s, c) ==> ClaimOk(s', c);
    assert forall c :: WorkerOk(s, c) ==> WorkerOk(s', c);
  }

  // Storing claim k while its reconcile holds no copy, or with an unchanged status.
  lemma RewriteClaim(s: State, k: Key, c: Claim)
    requires Inv(s)
    requires Issued(s, k, c.uid) && StatusOk(s, k, c)
    requires c.deleting ==> c.finalizer || c.pinned
    requires c.uid in s.retired ==> c.deleting && !c.finalizer
    requires k in s.workers ==>
               HasCopy(s.workers[k]) && s.workers[k].claim.uid == c.uid ==>
                 c.phase == s.workers[k].claim.phase && c.machineName == s.workers[k].claim.machineName
    ensures Inv(s.(claims := s.claims[k := c.(rv := s.nextRv)], nextRv := s.nextRv + 1))
  {
    var s' := s.(claims := s.claims[k := c.(rv := s.nextRv)], nextRv := s.nextRv + 1);
    assert forall m, uid :: Carries(s', m, uid) <==> Carries(s, m, uid);
    assert forall m :: MachineOk(s, m) ==> MachineOk(s', m);
    assert forall n :: n != k && ClaimOk(s, n) ==> ClaimOk(s', n);
    RewriteKeepsWorkers(s, k, c, s');
  }

  // A reconcile of k that holds a copy either holds another claim, or sees phase and Machine unchanged.
  lemma RewriteKeepsWorkers(s: State, k: Key, c: Claim, s': State)
    requires forall n :: WorkerOk(s, n)
    requires s' == s.(claims := s.claims[k := c.(rv := s.nextRv)], nextRv := s.nextRv + 1)
    requires k in s.workers ==>
               HasCopy(s.workers[k]) && s.workers[k].claim.uid == c.uid ==>
                 c.phase == s.workers[k].claim.phase && c.machineName == s.workers[k].claim.machineName
    requires forall m, uid :: Carries(s', m, uid) <==> Carries(s, m, uid)
    ensures forall n :: WorkerOk(s', n)
  {
    forall n
      ensures WorkerOk(s', n)
    {
      assert WorkerOk(s, n);
    }
  }

  lemma LoseClaim(s: State, k: Key)
    requires Inv(s)
    ensures Inv(s.(claims := s.claims - {k}))
  {
    var s' := s.(claims := s.claims - {k});
    assert forall m, uid :: Carries(s', m, uid) <==> Carries(s, m, uid);
    assert forall m :: MachineOk(s, m) ==> MachineOk(s', m);
    assert forall n :: ClaimOk(s, n) ==> ClaimOk(s', n);
    assert forall n :: WorkerOk(s, n) ==> WorkerOk(s', n);
  }

  lemma PatchKeeps(s: State, m: Key)
    requires Inv(s)
    ensures Inv(PatchClearRef(s, m))
    ensures NoRefOn(PatchClearRef(s, m), m)
    ensures forall n, uid :: Carries(PatchClearRef(s, m), n, uid) ==> Carries(s, n, uid)
  {
    assert MachineOk(s, m);
    if m in s.machines && s.machines[m].claimRef.Some? {
      RewriteMachine(s, m, s.machines[m].(claimRef := None));
    }
  }

  ghost predicate NoRefOn(s: State, m: Key) {
    m in s.machines ==> s.machines[m].claimRef.None?
  }

  // A status or metadata write by the reconcile of k, which then returns.
  lemma WriteAndStop(s: State, k: Key, c: Claim, written: Claim)
    requires Inv(s) && k in s.workers && HasCopy(s.workers[k]) && s.workers[k].claim == c
    requires written.uid == c.uid && StatusOk(s, k, written)
    requires written.deleting == c.deleting && written.pinned == c.pinned && (c.finalizer ==> written.finalizer)
    ensures Inv(Stop(UpdateClaim(s, k, c, written), k))
  {
    DropWorker(s, k);
    var t := Stop(s, k);
    assert WorkerOk(s, k) && ClaimOk(s, k);
    assert StatusOk(t, k, written) by { assert forall m, uid :: Carries(t, m, uid) <==> Carries(s, m, uid); }
    if k in s.claims && s.claims[k].rv == c.rv {
      RewriteClaim(t, k, written);
    }
    assert Stop(UpdateClaim(s, k, c, written), k) == UpdateClaim(t, k, c, written);
  }

  lemma UserStoreKeeps(s: State, k: Key, c: Claim)
    requires Inv(s) && k in s.claims
    requires c.uid == s.claims[k].uid && c.phase == s.claims[k].phase && c.machineName == s.claims[k].machineName
    requires s.claims[k].deleting ==> c.deleting
    requires c.finalizer ==> s.claims[k].finalizer
    ensures Inv(StoreClaim(s, k, c))
  {
    assert ClaimOk(s, k) && WorkerOk(s, k);
    if c.deleting && !c.finalizer && !c.pinned {
      LoseClaim(s, k);
    } else {
      RewriteClaim(s, k, c);
    }
  }

  lemma IssueKeeps(s: State, k: Key)
    requires Inv(s)
    ensures Inv(s.(nextUid := s.nextUid + 1, owner := s.owner[s.nextUid := k]))
  {
    var t := s.(nextUid := s.nextUid + 1, owner := s.owner[s.nextUid := k]);
    assert forall m, uid :: Carries(t, m, uid) <==> Carries(s, m, uid);
    assert forall m :: MachineOk(s, m) ==> MachineOk(t, m);
    assert forall n :: ClaimOk(s, n) ==> ClaimOk(t, n);
    assert forall n :: WorkerOk(s, n) ==> WorkerOk(t, n);
  }

  lemma CreateClaimKeeps(s: State, k: Key, want: Want, pinned: bool)
    requires Inv(s) && k !in s.claims && IsWant(want)
    ensures Inv(Do(s, CreateClaim(k, want, pinned)))
  {
    IssueKeeps(s, k);
    assert WorkerOk(s, k);
    RewriteClaim(s.(nextUid := s.nextUid + 1, owner := s.owner[s.nextUid := k]), k,
                 Claim(s.nextUid, 0, want, false, false, pinned, Unset, ""));
  }

  // A UID without a carrier can be retired.
  lemma RetireKeeps(s: State, k: Key, c: Claim)
    requires Inv(s) && k in s.workers && s.workers[k] == RemovingFinalizer(c)
    ensures Inv(Stop(RemoveFinalizer(s, k, c), k))
  {
    DropWorker(s, k);
    var t := Stop(s, k);
    assert WorkerOk(s, k) && ClaimOk(s, k);
    if k in s.claims && s.claims[k].rv == c.rv {
      var u := t.(claims := t.claims - {k}, retired := t.retired + {c.uid});
      assert forall m, uid :: Carries(u, m, uid) <==> Carries(t, m, uid);
      forall m
        ensures MachineOk(u, m)
      {
        assert MachineOk(t, m);
        if m in s.machines && s.machines[m].claimRef.Some? { assert Carries(s, m, s.machines[m].claimRef.value.uid); }
      }
      assert forall n :: ClaimOk(t, n) ==> ClaimOk(u, n);
      forall n
        ensures WorkerOk(u, n)
      {
        assert WorkerOk(t, n);
      }
      assert Inv(u);
      if c.pinned {
        assert NoCarrier(u, c.uid) by { assert forall m, uid :: Carries(t, m, uid) <==> Carries(s, m, uid); }
        RewriteClaim(u, k, c.(finalizer := false));
        var v := u.(claims := u.claims[k := c.(finalizer := false).(rv := u.nextRv)], nextRv := u.nextRv + 1);
        assert v.claims == s.claims[k := c.(finalizer := false).(rv := u.nextRv)];
        assert Stop(RemoveFinalizer(s, k, c), k) == v;
      } else {
        assert Stop(RemoveFinalizer(s, k, c), k) == u;
      }
    }
  }

  // The bind: only k's own reconcile writes k's UID, and it saw no carrier.
  lemma BindKeeps(s: State, k: Key, c: Claim, candidates: seq<Candidate>)
    requires Inv(s) && k in s.workers && s.workers[k] == Binding(c, candidates) && candidates != []
    requires candidates[0].key in s.machines && s.machines[candidates[0].key].rv == candidates[0].copy.rv
    ensures var m := candidates[0].key;
            Inv(Put(PutMachine(s, m, candidates[0].copy.(claimRef := Some(Ref(k, c.uid)))), k, RecordingBound(c, m)))
  {
    var m := candidates[0].key;
    assert WorkerOk(s, k) && ClaimOk(s, k) && MachineOk(s, m);
    assert CandidateOk(s, k, candidates[0]);
    var t := PutMachine(s, m, candidates[0].copy.(claimRef := Some(Ref(k, c.uid))));
    var u := Put(t, k, RecordingBound(c, m));
    assert forall n, uid :: Carries(u, n, uid) <==> Carries(s, n, uid) || (n == m && uid == c.uid);
    assert forall n :: MachineOk(s, n) ==> MachineOk(u, n);
    BindKeepsClaims(s, u, k, c, m);
    BindKeepsWorkers(s, u, k, c, m);
  }

  // The other reconciles work for other UIDs, and hold older versions of m.
  lemma BindKeepsWorkers(s: State, u: State, k: Key, c: Claim, m: Key)
    requires (forall n :: WorkerOk(s, n)) && CopyOk(s, k, c) && c.phase != Bound && NoCarrier(s, c.uid)
    requires m in s.machines && m.ns == k.ns && m.name != "" && s.machines[m].claimRef.None?
    requires u == Put(PutMachine(s, m, s.machines[m].(claimRef := Some(Ref(k, c.uid)))), k, RecordingBound(c, m))
    requires forall n, uid :: Carries(u, n, uid) <==> Carries(s, n, uid) || (n == m && uid == c.uid)
    ensures forall n :: WorkerOk(u, n)
  {
    forall n
      ensures WorkerOk(u, n)
    {
      assert WorkerOk(s, n);
    }
  }

  // The claims do not notice: one recorded elsewhere has another UID.
  lemma BindKeepsClaims(s: State, u: State, k: Key, c: Claim, m: Key)
    requires (forall n :: ClaimOk(s, n)) && CopyOk(s, k, c) && c.phase != Bound
    requires u.claims == s.claims && u.owner == s.owner && u.retired == s.retired && s.nextRv <= u.nextRv
    requires forall n, uid :: Carries(u, n, uid) <==> Carries(s, n, uid) || (n == m && uid == c.uid)
    ensures forall n :: ClaimOk(u, n)
  {
    forall n
      ensures ClaimOk(u, n)
    {
      assert ClaimOk(s, n);
    }
  }

  lemma FindBoundMeans(s: State, k: Key, c: Claim)
    requires Inv(s) && Issued(s, k, c.uid) && StatusOk(s, k, c)
    ensures FindBound(s, k, c).None? ==> NoCarrier(s, c.uid)
    ensures FindBound(s, k, c).Some? ==> OnlyCarrier(s, c.uid, FindBound(s, k, c).value)
    ensures FindBound(s, k, c).Some? ==> FindBound(s, k, c).value.name != ""
  {
    var r := FindBound(s, k, c);
    if r.Some? {
      assert Carries(s, r.value, c.uid);
      assert MachineOk(s, r.value);
    } else {
      forall m
        ensures !Carries(s, m, c.uid)
      {
        assert MachineOk(s, m);
      }
    }
  }

  lemma WorkKeeps(s: State, k: Key, hint: seq<Key>)
    requires Inv(s) && WorkEnabled(s, k, hint)
    ensures Inv(WorkStep(s, k, hint))
  {
    match s.workers[k]
    case Starting =>
      DropWorker(s, k);
      if !Finished(s, k) { StartKeeps(s, k); }
    case ListingOrphans => SetWorker(s, k, WorkStep(s, k, hint).workers[k]);
    case ClearingOrphans(_) => ClearOrphanKeeps(s, k, hint);
    case FindingToRelease(_) => FindKeeps(s, k, hint);
    case FindingToAdopt(_) => FindKeeps(s, k, hint);
    case Releasing(c, m) =>
      DropWorker(s, k);
      if m in s.machines { ReleaseKeeps(s, k, c, m); }
    case RemovingFinalizer(c) => RetireKeeps(s, k, c);
    case CheckingBound(_) => CheckKeeps(s, k, hint);
    case Picking(_) => PickKeeps(s, k, hint);
    case Binding(_, _) => TryBindKeeps(s, k, hint);
    case _ => RecordKeeps(s, k, hint);
  }

  // The reconciles that end with a write to their own claim.
  lemma RecordKeeps(s: State, k: Key, hint: seq<Key>)
    requires Inv(s) && WorkEnabled(s, k, hint)
    requires var w := s.workers[k];
             w.AddingFinalizer? || w.RecordingLost? || w.Mirroring? || w.RecordingBound? || w.RecordingNoCandidate?
               || w.RecordingFailed?
    ensures Inv(WorkStep(s, k, hint))
  {
    assert WorkerOk(s, k);
    match s.workers[k]
    case AddingFinalizer(c) => WriteAndStop(s, k, c, c.(finalizer := true));
    case RecordingLost(c) => WriteAndStop(s, k, c, c.(phase := Pending, machineName := ""));
    case Mirroring(c) => WriteAndStop(s, k, c, c);
    case RecordingBound(c, m) =>
      assert m == Key(k.ns, m.name);
      WriteAndStop(s, k, c, c.(phase := Bound, machineName := m.name));
    case RecordingNoCandidate(c) => WriteAndStop(s, k, c, c.(phase := Pending));
    case RecordingFailed(c) => WriteAndStop(s, k, c, c.(phase := Failed));
  }

  lemma ClearOrphanKeeps(s: State, k: Key, hint: seq<Key>)
    requires Inv(s) && WorkEnabled(s, k, hint) && s.workers[k].ClearingOrphans?
    ensures Inv(WorkStep(s, k, hint))
  {
    var todo := s.workers[k].todo;
    if todo != {} && hint[0] in s.machines {
      PatchKeeps(s, hint[0]);
      SetWorker(PatchClearRef(s, hint[0]), k, ClearingOrphans(todo - {hint[0]}));
    } else {
      DropWorker(s, k);
    }
  }

  lemma TryBindKeeps(s: State, k: Key, hint: seq<Key>)
    requires Inv(s) && WorkEnabled(s, k, hint) && s.workers[k].Binding?
    ensures Inv(WorkStep(s, k, hint))
  {
    assert WorkerOk(s, k);
    var c, candidates := s.workers[k].claim, s.workers[k].candidates;
    if candidates == [] {
      SameCarriers(s, k, RecordingNoCandidate(c));
      SetWorker(s, k, RecordingNoCandidate(c));
    } else if candidates[0].key !in s.machines {
      DropWorker(s, k);
    } else if s.machines[candidates[0].key].rv != candidates[0].copy.rv {
      SameCarriers(s, k, Binding(c, candidates[1..]));
      SetWorker(s, k, Binding(c, candidates[1..]));
    } else {
      BindKeeps(s, k, c, candidates);
    }
  }

  lemma SameCarriers(s: State, k: Key, w: Worker)
    ensures forall m, uid :: Carries(Put(s, k, w), m, uid) <==> Carries(s, m, uid)
  {
  }

  lemma StartKeeps(s: State, k: Key)
    requires Inv(s) && k in s.workers && !Finished(s, k)
    ensures Inv(Put(s, k, ReadClaim(s, k)))
  {
    var w := ReadClaim(s, k);
    assert ClaimOk(s, k);
    SameCarriers(s, k, w);
    assert WorkerOk(Put(s, k, w), k);
    SetWorker(s, k, w);
  }

  lemma FindKeeps(s: State, k: Key, hint: seq<Key>)
    requires Inv(s) && WorkEnabled(s, k, hint)
    requires s.workers[k].FindingToRelease? || s.workers[k].FindingToAdopt?
    ensures Inv(WorkStep(s, k, hint))
  {
    assert WorkerOk(s, k);
    var w := WorkStep(s, k, hint).workers[k];
    FindBoundMeans(s, k, s.workers[k].claim);
    SameCarriers(s, k, w);
    assert WorkerOk(Put(s, k, w), k);
    SetWorker(s, k, w);
  }

  lemma CheckKeeps(s: State, k: Key, hint: seq<Key>)
    requires Inv(s) && WorkEnabled(s, k, hint) && s.workers[k].CheckingBound?
    ensures Inv(WorkStep(s, k, hint))
  {
    assert WorkerOk(s, k);
    var c := s.workers[k].claim;
    var w := WorkStep(s, k, hint).workers[k];
    SameCarriers(s, k, w);
    if w.RecordingLost? {
      forall m
        ensures !Carries(s, m, c.uid)
      {
        assert MachineOk(s, m);
      }
    }
    assert WorkerOk(Put(s, k, w), k);
    SetWorker(s, k, w);
  }

  lemma PickKeeps(s: State, k: Key, hint: seq<Key>)
    requires Inv(s) && WorkEnabled(s, k, hint) && s.workers[k].Picking?
    ensures Inv(WorkStep(s, k, hint))
  {
    var w := PickLeads(s, k, hint);
    PickedIsOk(s, k, w);
    SetWorker(s, k, w);
  }

  // Where Picking leads: to a record, or to candidates as they are now.
  ghost predicate Picked(s: State, k: Key, c: Claim, w: Worker) {
    || w == RecordingNoCandidate(c)
    || w == RecordingFailed(c)
    || (w.Binding? && w.claim == c && forall i :: 0 <= i < |w.candidates| ==> IsCurrent(s, k, w.candidates[i]))
  }

  ghost predicate IsCurrent(s: State, k: Key, cand: Candidate) {
    && cand.key.ns == k.ns && cand.key in s.machines
    && cand.copy == s.machines[cand.key] && FreeAndAvailable(cand.copy)
  }

  lemma PickLeads(s: State, k: Key, hint: seq<Key>) returns (w: Worker)
    requires WorkEnabled(s, k, hint) && s.workers[k].Picking?
    ensures Picked(s, k, s.workers[k].claim, w) && WorkStep(s, k, hint) == Put(s, k, w)
  {
    w := WorkStep(s, k, hint).workers[k];
  }

  lemma PickedIsOk(s: State, k: Key, w: Worker)
    requires Inv(s) && k in s.workers && s.workers[k].Picking? && Picked(s, k, s.workers[k].claim, w)
    ensures WorkerOk(Put(s, k, w), k)
  {
    assert WorkerOk(s, k);
    SameCarriers(s, k, w);
    if w.Binding? {
      CopiesAreCandidates(s, k, w.candidates);
      assert forall i :: 0 <= i < |w.candidates| ==> CandidateOk(Put(s, k, w), k, w.candidates[i]);
    }
    assert NoCarrier(Put(s, k, w), w.claim.uid);
  }

  lemma CopiesAreCandidates(s: State, k: Key, candidates: seq<Candidate>)
    requires Inv(s)
    requires forall i :: 0 <= i < |candidates| ==> IsCurrent(s, k, candidates[i])
    ensures forall i :: 0 <= i < |candidates| ==> CandidateOk(s, k, candidates[i])
  {
    forall i | 0 <= i < |candidates|
      ensures CandidateOk(s, k, candidates[i])
    {
      assert MachineOk(s, candidates[i].key);
    }
  }

  lemma ReleaseKeeps(s: State, k: Key, c: Claim, m: Key)
    requires Inv(s) && k in s.workers && s.workers[k] == Releasing(c, m) && m in s.machines
    ensures Inv(Put(PatchClearRef(s, m), k, RemovingFinalizer(c)))
  {
    assert WorkerOk(s, k);
    PatchKeeps(s, m);
    var t := PatchClearRef(s, m);
    assert WorkerOk(t, k);
    assert NoCarrier(t, c.uid);
    SameCarriers(t, k, RemovingFinalizer(c));
    assert WorkerOk(Put(t, k, RemovingFinalizer(c)), k);
    SetWorker(t, k, RemovingFinalizer(c));
  }

  lemma StepKeeps(s: State, a: Action)
    requires Inv(s) && Enabled(s, a)
    ensures Inv(Do(s, a))
  {
    match a
    case CreateMachine(m, available) => RewriteMachine(s, m, Machine(0, None, available));
    case DeleteMachine(m) => LoseMachine(s, m);
    case TouchMachine(m, available) =>
      assert MachineOk(s, m);
      RewriteMachine(s, m, s.machines[m].(available := available));
    case DropClaimRef(m) => PatchKeeps(s, m);
    case CreateClaim(k, want, pinned) => CreateClaimKeeps(s, k, want, pinned);
    case EditClaim(k, want, pinned) => UserStoreKeeps(s, k, s.claims[k].(want := want, pinned := pinned));
    case StripFinalizer(k) => UserStoreKeeps(s, k, s.claims[k].(finalizer := false));
    case DeleteClaim(k) => UserStoreKeeps(s, k, s.claims[k].(deleting := true));
    case Begin(k) => SetWorker(s, k, Starting);
    case Work(k, hint) => WorkKeeps(s, k, hint);
    case Crash(k) => DropWorker(s, k);
  }

  // ----- what a step of a reconcile can touch -----

  // Reconciles whose next step may write to a Machine.
  ghost predicate WritesMachine(w: Worker) {
    w.Binding? || w.Releasing? || w.ClearingOrphans?
  }

  // Reconciles whose next step only reads.
  ghost predicate OnlyReads(w: Worker) {
    w.Starting? || w.ListingOrphans? || w.FindingToRelease? || w.FindingToAdopt? || w.CheckingBound? || w.Picking?
  }

  // A reading step only moves the reconcile itself on.
  lemma ReadersTouch(s: State, k: Key, hint: seq<Key>)
    requires WorkEnabled(s, k, hint) && OnlyReads(s.workers[k])
    ensures var t := WorkStep(s, k, hint); t == s.(workers := t.workers) && t.workers - {k} == s.workers - {k}
  {
    if s.workers[k].Picking? { PickerTouches(s, k, hint); } else { FinderTouches(s, k, hint); }
  }

  lemma PickerTouches(s: State, k: Key, hint: seq<Key>)
    requires WorkEnabled(s, k, hint) && s.workers[k].Picking?
    ensures var t := WorkStep(s, k, hint); t == s.(workers := t.workers) && t.workers - {k} == s.workers - {k}
  {
  }

  lemma FinderTouches(s: State, k: Key, hint: seq<Key>)
    requires WorkEnabled(s, k, hint) && OnlyReads(s.workers[k]) && !s.workers[k].Picking?
    ensures var t := WorkStep(s, k, hint); t == s.(workers := t.workers) && t.workers - {k} == s.workers - {k}
  {
  }

  // A reconcile that writes to its own claim then returns.
  lemma RecordersTouch(s: State, k: Key, hint: seq<Key>)
    requires WorkEnabled(s, k, hint) && !OnlyReads(s.workers[k]) && !WritesMachine(s.workers[k])
    requires !s.workers[k].RemovingFinalizer?
    ensures var t := WorkStep(s, k, hint);
            t.machines == s.machines && t.workers == s.workers - {k} && t.retired == s.retired
  {
    match s.workers[k]
    case AddingFinalizer(c) => UpdateTouches(s, k, c, c.(finalizer := true));
    case RecordingLost(c) => UpdateTouches(s, k, c, c.(phase := Pending, machineName := ""));
    case Mirroring(c) => UpdateTouches(s, k, c, c);
    case RecordingBound(c, m) => UpdateTouches(s, k, c, c.(phase := Bound, machineName := m.name));
    case RecordingNoCandidate(c) => UpdateTouches(s, k, c, c.(phase := Pending));
    case RecordingFailed(c) => UpdateTouches(s, k, c, c.(phase := Failed));
  }

  lemma UpdateTouches(s: State, k: Key, read: Claim, written: Claim)
    ensures var t := Stop(UpdateClaim(s, k, read, written), k);
            t.machines == s.machines && t.workers == s.workers - {k} && t.retired == s.retired
  {
  }

  lemma FinalizerTouches(s: State, k: Key, hint: seq<Key>)
    requires WorkEnabled(s, k, hint) && s.workers[k].RemovingFinalizer?
    ensures var t := WorkStep(s, k, hint);
            t.machines == s.machines && t.workers == s.workers - {k} && s.retired <= t.retired
  {
  }

  lemma ReadersKeepMachines(s: State, k: Key, hint: seq<Key>)
    requires WorkEnabled(s, k, hint) && !WritesMachine(s.workers[k])
    ensures WorkStep(s, k, hint).machines == s.machines
    ensures WorkStep(s, k, hint).workers - {k} == s.workers - {k}
    ensures s.retired <= WorkStep(s, k, hint).retired
  {
    if OnlyReads(s.workers[k]) {
      ReadersTouch(s, k, hint);
    } else if s.workers[k].RemovingFinalizer? {
      FinalizerTouches(s, k, hint);
    } else {
      RecordersTouch(s, k, hint);
    }
  }

  lemma BinderKeepsOthers(s: State, k: Key, hint: seq<Key>)
    requires WorkEnabled(s, k, hint) && s.workers[k].Binding?
    ensures WorkStep(s, k, hint).workers - {k} == s.workers - {k} && WorkStep(s, k, hint).retired == s.retired
  {
    TryBindKeepsOthers(s, k, s.workers[k].claim, s.workers[k].candidates);
  }

  lemma TryBindKeepsOthers(s: State, k: Key, c: Claim, candidates: seq<Candidate>)
    ensures var t := TryBind(s, k, c, candidates); t.workers - {k} == s.workers - {k} && t.retired == s.retired
  {
  }

  lemma PatcherKeepsOthers(s: State, k: Key, hint: seq<Key>)
    requires WorkEnabled(s, k, hint) && (s.workers[k].Releasing? || s.workers[k].ClearingOrphans?)
    ensures WorkStep(s, k, hint).workers - {k} == s.workers - {k} && WorkStep(s, k, hint).retired == s.retired
  {
    if s.workers[k].Releasing? { ReleaserKeepsOthers(s, k, hint); } else { ClearerKeepsOthers(s, k, hint); }
  }

  lemma ReleaserKeepsOthers(s: State, k: Key, hint: seq<Key>)
    requires WorkEnabled(s, k, hint) && s.workers[k].Releasing?
    ensures WorkStep(s, k, hint).workers - {k} == s.workers - {k} && WorkStep(s, k, hint).retired == s.retired
  {
  }

  lemma ClearerKeepsOthers(s: State, k: Key, hint: seq<Key>)
    requires WorkEnabled(s, k, hint) && s.workers[k].ClearingOrphans?
    ensures WorkStep(s, k, hint).workers - {k} == s.workers - {k} && WorkStep(s, k, hint).retired == s.retired
  {
  }

  // A patch touches the one Machine it names, and only to clear its reference.
  lemma PatchTouches(s: State, k: Key, hint: seq<Key>, m: Key)
    requires WorkEnabled(s, k, hint) && (s.workers[k].Releasing? || s.workers[k].ClearingOrphans?)
    ensures var t := WorkStep(s, k, hint);
            && (m in t.machines <==> m in s.machines)
            && (m in s.machines && t.machines[m] != s.machines[m] ==>
                AboutToPatch(s, k, m) && t.machines[m].claimRef.None?)
  {
  }

  // A bind touches the first candidate, if it is still as it was read.
  lemma BindTouches(s: State, k: Key, hint: seq<Key>, m: Key)
    requires Inv(s) && WorkEnabled(s, k, hint) && s.workers[k].Binding?
    ensures var t := WorkStep(s, k, hint);
            && (m in t.machines <==> m in s.machines)
            && (m in s.machines && t.machines[m] != s.machines[m] ==>
                  && FreeAndAvailable(s.machines[m]) && m.ns == k.ns
                  && t.machines[m] == s.machines[m].(claimRef := Some(Ref(k, s.workers[k].claim.uid)), rv := s.nextRv))
  {
    assert WorkerOk(s, k);
    var candidates := s.workers[k].candidates;
    if candidates != [] { assert CandidateOk(s, k, candidates[0]); }
  }

  // Claim key k's reconcile has read m and is about to patch its claimRef away.
  ghost predicate AboutToPatch(s: State, k: Key, m: Key) {
    k in s.workers && (
      (s.workers[k].Releasing? && s.workers[k].machine == m)
      || (s.workers[k].ClearingOrphans? && m in s.workers[k].todo))
  }

  // ----- whole runs -----

  lemma {:induction false} RunKeeps(s: State, run: seq<Action>)
    requires Inv(s) && IsRun(s, run)
    ensures Inv(End(s, run))
    decreases |run|
  {
    if run != [] {
      StepKeeps(s, run[0]);
      RunKeeps(Do(s, run[0]), run[1..]);
    }
  }

  /** In every reachable state a claim UID sits on at most one Machine, and a
      recorded status.machineName is the only Machine that can carry it. */
  lemma {:induction false} BindingIsExclusive(run: seq<Action>)
    requires IsRun(INITIAL, run)
    ensures var s := End(INITIAL, run);
            && Exclusive(s)
            && (forall k :: k in s.claims && s.claims[k].machineName != "" ==>
                  OnlyCarrier(s, s.claims[k].uid, Key(k.ns, s.claims[k].machineName)))
            && (forall k :: k in s.claims ==> (s.claims[k].phase == Bound <==> s.claims[k].machineName != ""))
  {
    RunKeeps(INITIAL, run);
    var s := End(INITIAL, run);
    forall k | k in s.claims
      ensures StatusOk(s, k, s.claims[k])
    {
      assert ClaimOk(s, k);
    }
  }

  // Action a makes Machine m carry a reference it did not carry before.
  ghost predicate GainsRef(s: State, a: Action, m: Key)
    requires Enabled(s, a)
  {
    var after := Do(s, a).machines;
    && m in after && after[m].claimRef.Some?
    && (m in s.machines ==> s.machines[m].claimRef != after[m].claimRef)
  }

  /** A reference appears only by a bind, on a Machine that is unclaimed and
      Available at that instant, and it names the claim being reconciled. */
  lemma {:induction false} BindLandsOnFreeMachine(run: seq<Action>, a: Action, m: Key)
    requires IsRun(INITIAL, run)
    requires var s := End(INITIAL, run); Enabled(s, a) && GainsRef(s, a, m)
    ensures var s := End(INITIAL, run);
            && m in s.machines && s.machines[m].claimRef.None? && s.machines[m].available
            && a.Work? && s.workers[a.claim].Binding? && m.ns == a.claim.ns
            && Do(s, a).machines[m] ==
               s.machines[m].(claimRef := Some(Ref(a.claim, s.workers[a.claim].claim.uid)), rv := s.nextRv)
  {
    RunKeeps(INITIAL, run);
    var s := End(INITIAL, run);
    if a.Work? {
      WorkGainsByBind(s, a.claim, a.hint, m);
    } else {
      OthersGainNothing(s, a, m);
    }
  }

  lemma WorkGainsByBind(s: State, k: Key, hint: seq<Key>, m: Key)
    requires Inv(s) && WorkEnabled(s, k, hint) && GainsRef(s, Work(k, hint), m)
    ensures s.workers[k].Binding? && m in s.machines && FreeAndAvailable(s.machines[m]) && m.ns == k.ns
    ensures WorkStep(s, k, hint).machines[m] ==
            s.machines[m].(claimRef := Some(Ref(k, s.workers[k].claim.uid)), rv := s.nextRv)
  {
    if s.workers[k].Binding? {
      BindTouches(s, k, hint, m);
    } else if WritesMachine(s.workers[k]) {
      PatchTouches(s, k, hint, m);
    } else {
      ReadersKeepMachines(s, k, hint);
    }
  }

  lemma OthersGainNothing(s: State, a: Action, m: Key)
    requires Enabled(s, a) && !a.Work?
    ensures !GainsRef(s, a, m)
  {
  }

  // Action a is onDelete's successful Update dropping the finalizer of the claim with this UID.
  ghost predicate RemovesFinalizer(s: State, a: Action, uid: nat) {
    && a.Work? && a.claim in s.workers && s.workers[a.claim].RemovingFinalizer?
    && s.workers[a.claim].claim.uid == uid
    && a.claim in s.claims && s.claims[a.claim].rv == s.workers[a.claim].claim.rv
  }

  lemma {:induction false} RetiredStays(s: State, run: seq<Action>, uid: nat)
    requires Inv(s) && IsRun(s, run) && uid in s.retired
    ensures uid in End(s, run).retired
    decreases |run|
  {
    if run != [] {
      StepKeeps(s, run[0]);
      RetiredGrows(s, run[0]);
      RetiredStays(Do(s, run[0]), run[1..], uid);
    }
  }

  lemma WorkRetires(s: State, k: Key, hint: seq<Key>)
    requires WorkEnabled(s, k, hint)
    ensures s.retired <= WorkStep(s, k, hint).retired
  {
    if s.workers[k].Binding? {
      BinderKeepsOthers(s, k, hint);
    } else if WritesMachine(s.workers[k]) {
      PatcherKeepsOthers(s, k, hint);
    } else {
      ReadersKeepMachines(s, k, hint);
    }
  }

  lemma RetiredGrows(s: State, a: Action)
    requires Enabled(s, a)
    ensures s.retired <= Do(s, a).retired
  {
    match a
    case Work(k, hint) => WorkRetires(s, k, hint);
    case _ =>
  }

  lemma RetiredHasNoCarrier(s: State, uid: nat)
    requires Inv(s) && uid in s.retired
    ensures NoCarrier(s, uid)
  {
    forall m
      ensures !Carries(s, m, uid)
    {
      assert MachineOk(s, m);
    }
  }

  /** When onDelete drops the finalizer no Machine carries the claim, and none ever will again. */
  lemma {:induction false} FinalizerRemovedMeansReleased(run: seq<Action>, a: Action, rest: seq<Action>, uid: nat)
    requires IsRun(INITIAL, run)
    requires var s := End(INITIAL, run); Enabled(s, a) && RemovesFinalizer(s, a, uid) && IsRun(Do(s, a), rest)
    ensures NoCarrier(End(INITIAL, run), uid)
    ensures NoCarrier(End(Do(End(INITIAL, run), a), rest), uid)
  {
    RunKeeps(INITIAL, run);
    var s := End(INITIAL, run);
    assert WorkerOk(s, a.claim);
    StepKeeps(s, a);
    var t := Do(s, a);
    RunKeeps(t, rest);
    RetiredStays(t, rest, uid);
    RetiredHasNoCarrier(End(t, rest), uid);
  }

  // ----- the unversioned patch -----

  // The environment takes m's reference away between that read and that patch.
  ghost predicate Interferes(s: State, a: Action) {
    (a.DeleteMachine? || a.DropClaimRef?) && exists k :: AboutToPatch(s, k, a.machine)
  }

  ghost predicate IsCalmRun(s: State, run: seq<Action>)
    decreases |run|
  {
    run == [] || (Enabled(s, run[0]) && !Interferes(s, run[0]) && IsCalmRun(Do(s, run[0]), run[1..]))
  }

  ghost predicate PatchOk(s: State, k: Key, m: Key) {
    AboutToPatch(s, k, m) ==> m in s.machines && s.machines[m].claimRef.Some? && s.machines[m].claimRef.value.key == k
  }

  ghost predicate PatchesOk(s: State) {
    forall k, m :: PatchOk(s, k, m)
  }

  // A step of key w's reconcile leaves the other reconciles where they are.
  lemma OtherWorkersStay(s: State, w: Key, hint: seq<Key>, k: Key)
    requires WorkEnabled(s, w, hint) && k != w
    ensures k in WorkStep(s, w, hint).workers <==> k in s.workers
    ensures k in s.workers ==> WorkStep(s, w, hint).workers[k] == s.workers[k]
  {
    if s.workers[w].Binding? {
      BinderKeepsOthers(s, w, hint);
    } else if WritesMachine(s.workers[w]) {
      PatcherKeepsOthers(s, w, hint);
    } else {
      ReadersKeepMachines(s, w, hint);
    }
    AwayFrom(s.workers, WorkStep(s, w, hint).workers, w, k);
  }

  lemma AwayFrom(a: map<Key, Worker>, b: map<Key, Worker>, w: Key, k: Key)
    requires a - {w} == b - {w} && k != w
    ensures (k in a <==> k in b) && (k in a ==> a[k] == b[k])
  {
    assert k in a <==> k in a - {w};
    assert k in b <==> k in b - {w};
  }

  // Two reconciles about to patch the same Machine would both have to own its reference.
  lemma OtherPatchStays(s: State, w: Key, hint: seq<Key>, k: Key, m: Key)
    requires Inv(s) && PatchesOk(s) && WorkEnabled(s, w, hint) && k != w
    ensures PatchOk(WorkStep(s, w, hint), k, m)
  {
    OtherWorkersStay(s, w, hint, k);
    assert PatchOk(s, k, m) && PatchOk(s, w, m);
    if s.workers[w].Binding? {
      BindTouches(s, w, hint, m);
    } else if WritesMachine(s.workers[w]) {
      PatchTouches(s, w, hint, m);
    } else {
      ReadersKeepMachines(s, w, hint);
    }
  }

  // The reconcile's own patches: a fresh read, or the rest of a list of distinct Machines.
  lemma OwnPatchFound(s: State, k: Key, hint: seq<Key>, m: Key)
    requires WorkEnabled(s, k, hint) && (s.workers[k].FindingToRelease? || s.workers[k].ListingOrphans?)
    ensures PatchOk(WorkStep(s, k, hint), k, m)
  {
  }

  lemma OwnPatchStays(s: State, k: Key, hint: seq<Key>, m: Key)
    requires PatchesOk(s) && WorkEnabled(s, k, hint) && s.workers[k].ClearingOrphans?
    ensures PatchOk(WorkStep(s, k, hint), k, m)
  {
    assert PatchOk(s, k, m);
  }

  lemma OwnPatchNone(s: State, k: Key, hint: seq<Key>, m: Key)
    requires WorkEnabled(s, k, hint)
    requires var w := s.workers[k]; !w.FindingToRelease? && !w.ListingOrphans? && !w.ClearingOrphans?
    ensures PatchOk(WorkStep(s, k, hint), k, m)
  {
  }

  lemma WorkKeepsPatch(s: State, w: Key, hint: seq<Key>, k: Key, m: Key)
    requires Inv(s) && PatchesOk(s) && WorkEnabled(s, w, hint)
    ensures PatchOk(WorkStep(s, w, hint), k, m)
  {
    if k != w {
      OtherPatchStays(s, w, hint, k, m);
    } else if s.workers[k].FindingToRelease? || s.workers[k].ListingOrphans? {
      OwnPatchFound(s, k, hint, m);
    } else if s.workers[k].ClearingOrphans? {
      OwnPatchStays(s, k, hint, m);
    } else {
      OwnPatchNone(s, k, hint, m);
    }
  }

  lemma CalmStepKeeps(s: State, a: Action)
    requires Inv(s) && PatchesOk(s) && Enabled(s, a) && !Interferes(s, a)
    ensures PatchesOk(Do(s, a))
  {
    var s' := Do(s, a);
    forall k, m
      ensures PatchOk(s', k, m)
    {
      assert PatchOk(s, k, m);
      match a
      case Work(w, hint) => WorkKeepsPatch(s, w, hint, k, m);
      case DeleteMachine(n) => assert !AboutToPatch(s, k, n);
      case DropClaimRef(n) => assert !AboutToPatch(s, k, n);
      case _ =>
    }
  }

  lemma {:induction false} CalmRunKeeps(s: State, run: seq<Action>)
    requires Inv(s) && PatchesOk(s) && IsCalmRun(s, run)
    ensures IsRun(s, run) && PatchesOk(End(s, run))
    decreases |run|
  {
    if run != [] {
      StepKeeps(s, run[0]);
      CalmStepKeeps(s, run[0]);
      CalmRunKeeps(Do(s, run[0]), run[1..]);
    }
  }

  // Step a of the reconcile of another key takes claim key k's reference off m.
  ghost predicate ErasesForeignBinding(s: State, a: Action, m: Key)
    requires Enabled(s, a)
  {
    && a.Work?
    && m in s.machines && s.machines[m].claimRef.Some? && s.machines[m].claimRef.value.key != a.claim
    && m in Do(s, a).machines && Do(s, a).machines[m].claimRef != s.machines[m].claimRef
  }

  /** Without interference between read and patch, no reconcile ever erases another claim key's binding. */
  lemma {:induction false} PatchSparesForeignBindings(run: seq<Action>, a: Action, m: Key)
    requires IsRun(INITIAL, run) && IsCalmRun(INITIAL, run) && Enabled(End(INITIAL, run), a)
    ensures !ErasesForeignBinding(End(INITIAL, run), a, m)
  {
    CalmRunKeeps(INITIAL, run);
    RunKeeps(INITIAL, run);
    var s := End(INITIAL, run);
    if a.Work? {
      assert PatchOk(s, a.claim, m);
      if s.workers[a.claim].Binding? {
        BindTouches(s, a.claim, a.hint, m);
      } else if WritesMachine(s.workers[a.claim]) {
        PatchTouches(s, a.claim, a.hint, m);
      } else {
        ReadersKeepMachines(s, a.claim, a.hint);
      }
    }
  }

  // ----- undisturbed reconciles make progress -----

  ghost predicate Leads(s: State, a: Action, t: State) {
    Enabled(s, a) && Do(s, a) == t
  }

  // run takes s to t.
  ghost predicate Reaches(s: State, run: seq<Action>, t: State) {
    IsRun(s, run) && End(s, run) == t
  }

  lemma First(s: State, a: Action, t: State, run: seq<Action>, u: State)
    requires Leads(s, a, t) && Reaches(t, run, u)
    ensures Reaches(s, [a] + run, u)
  {
    assert ([a] + run)[1..] == run;
  }

  lemma {:induction false} Concatenate(s: State, run: seq<Action>, t: State, more: seq<Action>, u: State)
    requires Reaches(s, run, t) && Reaches(t, more, u)
    ensures Reaches(s, run + more, u)
    decreases |run|
  {
    if run == [] {
      assert run + more == more;
    } else {
      Concatenate(Do(s, run[0]), run[1..], t, more, u);
      First(s, run[0], Do(s, run[0]), run[1..] + more, u);
      assert run + more == [run[0]] + (run[1..] + more);
    }
  }

  // Some run from o ends in s.
  ghost predicate Reachable(o: State, s: State) {
    exists run :: Reaches(o, run, s)
  }

  lemma ReachableInv(o: State, s: State)
    requires Inv(o) && Reachable(o, s)
    ensures Inv(s)
  {
    var run :| Reaches(o, run, s);
    RunKeeps(o, run);
  }

  lemma ReachFurther(o: State, s: State, run: seq<Action>, t: State)
    requires Reachable(o, s) && Reaches(s, run, t)
    ensures Reachable(o, t)
  {
    var before :| Reaches(o, before, s);
    Concatenate(o, before, s, run, t);
  }

  lemma ReachNext(o: State, s: State, a: Action, t: State)
    requires Reachable(o, s) && Leads(s, a, t)
    ensures Reachable(o, t)
  {
    First(s, a, t, [], t);
    ReachFurther(o, s, [a] + [], t);
  }

  // The bind of an existing Pending or Failed claim that names a free Available Machine.
  ghost predicate ReadyToBind(s: State, k: Key, name: string) {
    && k !in s.workers && k in s.claims
    && s.claims[k].want == ByName(name) && name != ""
    && !s.claims[k].deleting && s.claims[k].finalizer && s.claims[k].phase != Bound
    && Key(k.ns, name) in s.machines
    && s.machines[Key(k.ns, name)].claimRef.None? && s.machines[Key(k.ns, name)].available
    && NoCarrier(s, s.claims[k].uid)
  }

  // t is s with claim k bound to its namespace's Machine name, and nothing else changed.
  ghost predicate IsBoundIn(s: State, k: Key, name: string, t: State)
    requires k in s.claims && Key(k.ns, name) in s.machines
  {
    var c, m := s.claims[k], Key(k.ns, name);
    && t.machines == s.machines[m := s.machines[m].(rv := s.nextRv, claimRef := Some(Ref(k, c.uid)))]
    && t.claims == s.claims[k := c.(rv := s.nextRv + 1, phase := Bound, machineName := name)]
    && t.workers == s.workers
  }

  // The reconcile that binds: read, look for an existing binding, look at the candidate, bind, record.
  function BindActions(k: Key): seq<Action> {
    [Begin(k), Work(k, []), Work(k, []), Work(k, []), Work(k, []), Work(k, [])]
  }

  lemma ReadsUnbound(s: State, k: Key)
    requires k in s.claims && !s.claims[k].deleting && s.claims[k].finalizer && s.claims[k].phase != Bound
    ensures Leads(Put(s, k, Starting), Work(k, []), Put(s, k, FindingToAdopt(s.claims[k])))
  {
  }

  lemma FindsNothing(s: State, k: Key, c: Claim)
    requires NoCarrier(s, c.uid)
    ensures Leads(Put(s, k, FindingToAdopt(c)), Work(k, []), Put(s, k, Picking(c)))
  {
    var t := Put(s, k, FindingToAdopt(c));
    var r := FindBound(t, k, c);
    if r.Some? { assert Carries(s, r.value, c.uid); }
    assert Put(t, k, Picking(c)) == Put(s, k, Picking(c));
  }

  lemma PicksNamed(s: State, k: Key, c: Claim, name: string)
    requires c.want == ByName(name) && Key(k.ns, name) in s.machines && FreeAndAvailable(s.machines[Key(k.ns, name)])
    ensures var m := Key(k.ns, name);
            Leads(Put(s, k, Picking(c)), Work(k, []), Put(s, k, Binding(c, [Candidate(m, s.machines[m])])))
  {
    var m := Key(k.ns, name);
    var t := Put(s, k, Picking(c));
    assert Put(t, k, Binding(c, [Candidate(m, s.machines[m])])) == Put(s, k, Binding(c, [Candidate(m, s.machines[m])]));
  }

  lemma BindsNamed(s: State, k: Key, c: Claim, m: Key)
    requires m in s.machines
    ensures Leads(Put(s, k, Binding(c, [Candidate(m, s.machines[m])])), Work(k, []),
                  Put(PutMachine(s, m, s.machines[m].(claimRef := Some(Ref(k, c.uid)))), k, RecordingBound(c, m)))
  {
  }

  lemma RecordsBound(s: State, k: Key, c: Claim, m: Key)
    requires k !in s.workers && k in s.claims && s.claims[k] == c
    ensures Leads(Put(s, k, RecordingBound(c, m)), Work(k, []),
                  UpdateClaim(s, k, c, c.(phase := Bound, machineName := m.name)))
  {
    assert Put(s, k, RecordingBound(c, m)).workers - {k} == s.workers;
  }

  /** One undisturbed reconcile binds a claim to the free Available Machine it names, from any phase but Bound. */
  lemma ReconcileBinds(s: State, k: Key, name: string) returns (t: State)
    requires Inv(s) && ReadyToBind(s, k, name)
    ensures Reaches(s, BindActions(k), t) && IsBoundIn(s, k, name, t)
  {
    var c, m := s.claims[k], Key(k.ns, name);
    ReadsUnbound(s, k);
    FindsNothing(s, k, c);
    PicksNamed(s, k, c, name);
    BindsNamed(s, k, c, m);
    var bound := PutMachine(s, m, s.machines[m].(claimRef := Some(Ref(k, c.uid))));
    RecordsBound(bound, k, c, m);
    t := UpdateClaim(bound, k, c, c.(phase := Bound, machineName := m.name));
    SixSteps(s, k, Put(s, k, Starting), Put(s, k, FindingToAdopt(c)), Put(s, k, Picking(c)),
             Put(s, k, Binding(c, [Candidate(m, s.machines[m])])), Put(bound, k, RecordingBound(c, m)), t);
  }

  // Six consecutive steps form a run: each later one is prepended to the tail already known.
  lemma SixSteps(s: State, k: Key, s1: State, s2: State, s3: State, s4: State, s5: State, s6: State)
    requires Leads(s, Begin(k), s1) && Leads(s1, Work(k, []), s2) && Leads(s2, Work(k, []), s3)
    requires Leads(s3, Work(k, []), s4) && Leads(s4, Work(k, []), s5) && Leads(s5, Work(k, []), s6)
    ensures Reaches(s, BindActions(k), s6)
  {
    var w := Work(k, []);
    assert Reaches(s6, [], s6);
    First(s5, w, s6, [], s6);
    First(s4, w, s5, [w] + [], s6);
    First(s3, w, s4, [w] + ([w] + []), s6);
    First(s2, w, s3, [w] + ([w] + ([w] + [])), s6);
    First(s1, w, s2, [w] + ([w] + ([w] + ([w] + []))), s6);
    First(s, Begin(k), s1, [w] + ([w] + ([w] + ([w] + ([w] + [])))), s6);
    assert BindActions(k) == [Begin(k)] + ([w] + ([w] + ([w] + ([w] + ([w] + [])))));
  }

  lemma FindsCarrier(s: State, k: Key, c: Claim, m: Key)
    requires Inv(s) && Issued(s, k, c.uid) && StatusOk(s, k, c) && Carries(s, m, c.uid)
    ensures FindBound(Put(s, k, FindingToAdopt(c)), k, c) == Some(m)
    ensures FindBound(Put(s, k, FindingToRelease(c)), k, c) == Some(m)
  {
    assert MachineOk(s, m);
    assert RefIs(s.machines[m], Ref(k, c.uid));
    FindBoundMeans(s, k, c);
    forall w
      ensures FindBound(Put(s, k, w), k, c) == Some(m)
    {
      var t := Put(s, k, w);
      if c.machineName != "" { assert m == Key(k.ns, c.machineName); }
      var r := FindBound(t, k, c);
      assert r.Some?;
      assert Carries(s, r.value, c.uid);
    }
  }

  lemma AdoptsCarrier(s: State, k: Key, c: Claim, m: Key)
    requires Inv(s) && Issued(s, k, c.uid) && StatusOk(s, k, c) && Carries(s, m, c.uid)
    ensures Leads(Put(s, k, FindingToAdopt(c)), Work(k, []), Put(s, k, RecordingBound(c, m)))
  {
    FindsCarrier(s, k, c, m);
    assert Put(Put(s, k, FindingToAdopt(c)), k, RecordingBound(c, m)) == Put(s, k, RecordingBound(c, m));
  }

  /** A crash between the bind and its record is repaired: the next undisturbed reconcile
      records the Machine that carries the claim, and changes no Machine. */
  lemma CrashedBindIsAdopted(s: State, k: Key, m: Key) returns (t: State)
    requires Inv(s) && k !in s.workers && k in s.claims
    requires !s.claims[k].deleting && s.claims[k].finalizer && s.claims[k].phase != Bound
    requires Carries(s, m, s.claims[k].uid)
    ensures Reaches(s, [Begin(k), Work(k, []), Work(k, []), Work(k, [])], t)
    ensures t.machines == s.machines && t.workers == s.workers
    ensures t.claims == s.claims[k := s.claims[k].(rv := s.nextRv, phase := Bound, machineName := m.name)]
  {
    var c, w := s.claims[k], Work(k, []);
    assert ClaimOk(s, k);
    t := UpdateClaim(s, k, c, c.(phase := Bound, machineName := m.name));
    BeginsReconcile(s, k);
    ReadsUnbound(s, k);
    AdoptsCarrier(s, k, c, m);
    RecordsBound(s, k, c, m);
    FourSteps(s, k, Put(s, k, Starting), Put(s, k, FindingToAdopt(c)), Put(s, k, RecordingBound(c, m)), t);
  }

  lemma FourSteps(s: State, k: Key, s1: State, s2: State, s3: State, s4: State)
    requires Leads(s, Begin(k), s1) && Leads(s1, Work(k, []), s2) && Leads(s2, Work(k, []), s3)
    requires Leads(s3, Work(k, []), s4)
    ensures Reaches(s, [Begin(k), Work(k, []), Work(k, []), Work(k, [])], s4)
  {
    var w := Work(k, []);
    assert Reaches(s4, [], s4);
    First(s3, w, s4, [], s4);
    First(s2, w, s3, [w] + [], s4);
    First(s1, w, s2, [w] + ([w] + []), s4);
    First(s, Begin(k), s1, [w] + ([w] + ([w] + [])), s4);
    assert [Begin(k), w, w, w] == [Begin(k)] + ([w] + ([w] + ([w] + [])));
  }

  lemma BeginsReconcile(s: State, k: Key)
    requires k !in s.workers
    ensures Leads(s, Begin(k), Put(s, k, Starting))
  {
  }

  // ----- two concrete runs -----

  function FreshClaim(uid: nat, rv: nat, name: string): Claim {
    Claim(uid, rv, ByName(name), false, true, false, Unset, "")
  }

  lemma CreatesClaim(o: State, s: State, k: Key, name: string) returns (t: State)
    requires Inv(o) && Reachable(o, s) && k !in s.claims && name != ""
    ensures Reachable(o, t) && t.machines == s.machines && t.workers == s.workers
    ensures t.nextUid == s.nextUid + 1 && t.nextRv == s.nextRv + 1
    ensures t.claims == s.claims[k := FreshClaim(s.nextUid, s.nextRv, name).(finalizer := false)]
    ensures NoCarrier(t, s.nextUid)
  {
    ReachableInv(o, s);
    t := Do(s, CreateClaim(k, ByName(name), false));
    ReachNext(o, s, CreateClaim(k, ByName(name), false), t);
    forall m
      ensures !Carries(t, m, s.nextUid)
    {
      assert MachineOk(s, m);
    }
  }

  lemma ReadsNew(s: State, k: Key)
    requires k in s.claims && !s.claims[k].deleting && !s.claims[k].finalizer
    ensures Leads(Put(s, k, Starting), Work(k, []), Put(s, k, AddingFinalizer(s.claims[k])))
  {
  }

  lemma WritesFinalizer(s: State, k: Key, c: Claim)
    requires k !in s.workers && k in s.claims && s.claims[k] == c
    ensures Leads(Put(s, k, AddingFinalizer(c)), Work(k, []), UpdateClaim(s, k, c, c.(finalizer := true)))
  {
    assert Put(s, k, AddingFinalizer(c)).workers - {k} == s.workers;
  }

  // The reconcile of a new claim puts the finalizer on it.
  lemma ReconcileAddsFinalizer(o: State, s: State, k: Key) returns (t: State)
    requires Reachable(o, s) && k in s.claims && k !in s.workers && !s.claims[k].deleting && !s.claims[k].finalizer
    ensures Reachable(o, t) && t == UpdateClaim(s, k, s.claims[k], s.claims[k].(finalizer := true))
  {
    var c := s.claims[k];
    BeginsReconcile(s, k);
    ReachNext(o, s, Begin(k), Put(s, k, Starting));
    ReadsNew(s, k);
    ReachNext(o, Put(s, k, Starting), Work(k, []), Put(s, k, AddingFinalizer(c)));
    WritesFinalizer(s, k, c);
    t := UpdateClaim(s, k, c, c.(finalizer := true));
    ReachNext(o, Put(s, k, AddingFinalizer(c)), Work(k, []), t);
  }

  // A new claim naming a Machine, once the reconcile has put its finalizer on it.
  lemma AddsFinalizer(o: State, s: State, k: Key, name: string) returns (t: State)
    requires Inv(o) && Reachable(o, s) && k !in s.claims && k !in s.workers && name != ""
    ensures Reachable(o, t) && t.machines == s.machines && t.workers == s.workers && t.nextUid == s.nextUid + 1
    ensures t.claims == s.claims[k := FreshClaim(s.nextUid, s.nextRv + 1, name)]
    ensures NoCarrier(t, s.nextUid)
  {
    var s1 := CreatesClaim(o, s, k, name);
    t := ReconcileAddsFinalizer(o, s1, k);
    assert forall m :: Carries(t, m, s.nextUid) == Carries(s1, m, s.nextUid);
  }

  lemma PicksMissing(s: State, k: Key, c: Claim, name: string)
    requires c.want == ByName(name) && Key(k.ns, name) !in s.machines
    ensures Leads(Put(s, k, Picking(c)), Work(k, []), Put(s, k, RecordingFailed(c)))
  {
    assert Put(Put(s, k, Picking(c)), k, RecordingFailed(c)) == Put(s, k, RecordingFailed(c));
  }

  lemma RecordsFailed(s: State, k: Key, c: Claim)
    requires k !in s.workers && k in s.claims && s.claims[k] == c
    ensures Leads(Put(s, k, RecordingFailed(c)), Work(k, []), UpdateClaim(s, k, c, c.(phase := Failed)))
  {
    assert Put(s, k, RecordingFailed(c)).workers - {k} == s.workers;
  }

  // The reconcile of a claim naming a Machine that does not exist.
  lemma FailsOnMissingMachine(o: State, s: State, k: Key, name: string) returns (t: State)
    requires Reachable(o, s) && k in s.claims && k !in s.workers && Key(k.ns, name) !in s.machines
    requires s.claims[k].want == ByName(name) && !s.claims[k].deleting && s.claims[k].finalizer
    requires s.claims[k].phase != Bound
    requires NoCarrier(s, s.claims[k].uid)
    ensures Reachable(o, t) && t.machines == s.machines && t.workers == s.workers
    ensures t.claims == s.claims[k := s.claims[k].(rv := s.nextRv, phase := Failed)]
  {
    var c := s.claims[k];
    BeginsReconcile(s, k);
    ReachNext(o, s, Begin(k), Put(s, k, Starting));
    ReadsUnbound(s, k);
    ReachNext(o, Put(s, k, Starting), Work(k, []), Put(s, k, FindingToAdopt(c)));
    FindsNothing(s, k, c);
    ReachNext(o, Put(s, k, FindingToAdopt(c)), Work(k, []), Put(s, k, Picking(c)));
    PicksMissing(s, k, c, name);
    ReachNext(o, Put(s, k, Picking(c)), Work(k, []), Put(s, k, RecordingFailed(c)));
    RecordsFailed(s, k, c);
    t := UpdateClaim(s, k, c, c.(phase := Failed));
    ReachNext(o, Put(s, k, RecordingFailed(c)), Work(k, []), t);
  }

  lemma CreatesMachine(o: State, s: State, m: Key) returns (t: State)
    requires Reachable(o, s) && m !in s.machines && m.name != ""
    ensures Reachable(o, t) && t.claims == s.claims && t.workers == s.workers && t.nextUid == s.nextUid
    ensures t.machines == s.machines[m := Machine(s.nextRv, None, true)]
    ensures forall n, uid :: Carries(t, n, uid) ==> Carries(s, n, uid)
  {
    t := Do(s, CreateMachine(m, true));
    ReachNext(o, s, CreateMachine(m, true), t);
  }

  /** Failed is not terminal in the code: a reachable Failed claim that its next reconcile binds. */
  lemma FailedIsNotTerminal() returns (failed: State, k: Key, bound: State)
    ensures Reachable(INITIAL, failed) && k in failed.claims && failed.claims[k].phase == Failed
    ensures Reaches(failed, BindActions(k), bound)
    ensures k in bound.claims && bound.claims[k].phase == Bound && bound.claims[k].uid == failed.claims[k].uid
  {
    k := Key("default", "claim");
    assert Reaches(INITIAL, [], INITIAL);
    var s1 := AddsFinalizer(INITIAL, INITIAL, k, "node-1");
    var s2 := FailsOnMissingMachine(INITIAL, s1, k, "node-1");
    assert forall n, uid :: Carries(s2, n, uid) == Carries(s1, n, uid);
    failed := CreatesMachine(INITIAL, s2, Key("default", "node-1"));
    ReachableInv(INITIAL, failed);
    bound := ReconcileBinds(failed, k, "node-1");
  }

  lemma ReadsDeleted(s: State, k: Key)
    requires k in s.claims && s.claims[k].deleting && s.claims[k].finalizer
    ensures Leads(Put(s, k, Starting), Work(k, []), Put(s, k, FindingToRelease(s.claims[k])))
  {
  }

  lemma FindsRecorded(s: State, k: Key, c: Claim, m: Key)
    requires c.machineName != "" && m == Key(k.ns, c.machineName) && m in s.machines
    requires RefIs(s.machines[m], Ref(k, c.uid))
    ensures Leads(Put(s, k, FindingToRelease(c)), Work(k, []), Put(s, k, Releasing(c, m)))
  {
    assert Put(Put(s, k, FindingToRelease(c)), k, Releasing(c, m)) == Put(s, k, Releasing(c, m));
  }

  // Deleting a bound claim, up to the point where its reconcile is about to patch the Machine.
  lemma ReleasePending(o: State, s: State, k: Key, m: Key) returns (t: State)
    requires Reachable(o, s) && k in s.claims && k !in s.workers
    requires s.claims[k].machineName != "" && Key(k.ns, s.claims[k].machineName) == m && s.claims[k].finalizer
    requires m in s.machines && RefIs(s.machines[m], Ref(k, s.claims[k].uid))
    ensures Reachable(o, t) && t.machines == s.machines && t.claims.Keys == s.claims.Keys
    ensures exists c :: t.workers == s.workers[k := Releasing(c, m)]
  {
    var s1 := Do(s, DeleteClaim(k));
    ReachNext(o, s, DeleteClaim(k), s1);
    var c := s1.claims[k];
    BeginsReconcile(s1, k);
    ReachNext(o, s1, Begin(k), Put(s1, k, Starting));
    ReadsDeleted(s1, k);
    ReachNext(o, Put(s1, k, Starting), Work(k, []), Put(s1, k, FindingToRelease(c)));
    FindsRecorded(s1, k, c, m);
    t := Put(s1, k, Releasing(c, m));
    ReachNext(o, Put(s1, k, FindingToRelease(c)), Work(k, []), t);
  }

  // The patch takes away whatever reference it meets.
  lemma PatchErases(s: State, k: Key, m: Key)
    requires AboutToPatch(s, k, m)
    requires m in s.machines && s.machines[m].claimRef.Some? && s.machines[m].claimRef.value.key != k
    ensures Enabled(s, Work(k, [m])) && ErasesForeignBinding(s, Work(k, [m]), m)
  {
  }

  lemma {:induction false} LongName(used: set<Key>) returns (name: string)
    ensures name != "" && forall k :: k in used ==> |k.name| < |name|
    decreases used
  {
    if used == {} {
      name := "c";
    } else {
      var k :| k in used;
      var rest := LongName(used - {k});
      name := rest + k.name;
      assert forall u :: u in used ==> u == k || u in used - {k};
    }
  }

  lemma TouchesMachine(o: State, s: State, m: Key) returns (t: State)
    requires Reachable(o, s) && m in s.machines && s.machines[m].claimRef.None?
    ensures Reachable(o, t) && t.claims == s.claims && t.workers == s.workers
    ensures m in t.machines && FreeAndAvailable(t.machines[m])
  {
    t := Do(s, TouchMachine(m, true));
    ReachNext(o, s, TouchMachine(m, true), t);
  }

  // A new claim takes the unclaimed or missing Machine m, and nothing else is going on.
  lemma AnotherBinds(o: State, m: Key) returns (t: State)
    requires Inv(o) && m.name != "" && (m in o.machines ==> o.machines[m].claimRef.None?)
    ensures Reachable(o, t) && t.workers == o.workers && m in t.machines && t.machines[m].claimRef.Some?
    ensures t.machines[m].claimRef.value.key !in o.workers
  {
    assert Reaches(o, [], o);
    var s1;
    if m in o.machines { s1 := TouchesMachine(o, o, m); } else { s1 := CreatesMachine(o, o, m); }
    var name := LongName(s1.claims.Keys + s1.workers.Keys);
    var k := Key(m.ns, name);
    var s2 := AddsFinalizer(o, s1, k, m.name);
    ReachableInv(o, s2);
    t := ReconcileBinds(s2, k, m.name);
    ReachFurther(o, s2, BindActions(k), t);
  }

  /** The condition is needed: any interference between a read and its patch, in any state, has a
      continuation in which the patch erases the binding of a claim that did nothing wrong. */
  lemma InterferenceCanErase(s: State, a: Action, k: Key) returns (t: State, b: Action)
    requires Inv(s) && Enabled(s, a) && (a.DeleteMachine? || a.DropClaimRef?) && AboutToPatch(s, k, a.machine)
    ensures Reachable(Do(s, a), t) && Enabled(t, b) && ErasesForeignBinding(t, b, a.machine)
  {
    var m, o := a.machine, Do(s, a);
    StepKeeps(s, a);
    assert MachineOk(s, m);
    assert o.workers == s.workers;
    t := AnotherBinds(o, m);
    assert AboutToPatch(t, k, m);
    b := Work(k, [m]);
    PatchErases(t, k, m);
  }

  // A claim bound to a Machine, whose deletion is about to patch that Machine.
  lemma BoundThenDeleted(k: Key, m: Key) returns (s: State)
    requires m == Key(k.ns, m.name) && m.name != ""
    ensures Reachable(INITIAL, s) && AboutToPatch(s, k, m) && m in s.machines
  {
    var o := INITIAL;
    assert Reaches(o, [], o);
    var s1 := CreatesMachine(o, o, m);
    var s2 := AddsFinalizer(o, s1, k, m.name);
    ReachableInv(o, s2);
    var s3 := ReconcileBinds(s2, k, m.name);
    ReachFurther(o, s2, BindActions(k), s3);
    s := ReleasePending(o, s3, k, m);
  }

  /** It happens: the Machine is deleted, recreated and bound by a second claim
      between the first claim's read and its patch. */
  lemma PatchCanEraseForeignBinding() returns (s: State, a: Action, m: Key)
    ensures Reachable(INITIAL, s) && Enabled(s, a) && ErasesForeignBinding(s, a, m)
  {
    m := Key("default", "node-1");
    var k := Key("default", "first");
    var s1 := BoundThenDeleted(k, m);
    ReachableInv(INITIAL, s1);
    s, a := InterferenceCanErase(s1, DeleteMachine(m), k);
    var more :| Reaches(Do(s1, DeleteMachine(m)), more, s);
    First(s1, DeleteMachine(m), Do(s1, DeleteMachine(m)), more, s);
    ReachFurther(INITIAL, s1, [DeleteMachine(m)] + more, s);
  }
}
