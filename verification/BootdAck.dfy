// Acknowledging revisions: when the revision the Subnet cache holds for current
// is the one served, and when it has been recorded on the Subnet.
module BootdAck {
  import opened Common
  import opened Text
  import opened Hostsfile
  import opened Supervisor
  import opened Bootd
  import BootdApplied
  import BootdWakeup

  // ----- what is recorded -----

  function Newest(begun: seq<string>): string {
    if begun == [] then "" else begun[|begun| - 1]
  }

  // Another revision was begun after r.
  ghost predicate Superseded(begun: seq<string>, r: string) {
    exists i, j :: 0 <= i < j < |begun| && begun[i] == r && begun[j] != r
  }

  // r is the newest revision, and was superseded before.
  ghost predicate Returned(begun: seq<string>, r: string) {
    Newest(begun) == r && Superseded(begun, r)
  }

  // The last report is recorded on the Subnet.
  ghost predicate Recorded(s: State) {
    s.loop.lastApplied.Some? && HasPatch(s.h.log, s.loop.lastApplied.value, s.h.appliedPush)
  }

  ghost predicate HasPatch(log: seq<Event>, revision: string, push: nat) {
    exists i :: 0 <= i < |log| && log[i] == Patched(revision, push)
  }

  // The newest record on the Subnet names this revision.
  ghost predicate LastPatchIs(log: seq<Event>, revision: string) {
    exists i :: 0 <= i < |log| && IsLastPatch(log, i) && log[i].revision == revision
  }

  ghost predicate IsLastPatch(log: seq<Event>, i: nat) {
    i < |log| && log[i].Patched? && forall j :: i < j < |log| ==> !log[j].Patched?
  }

  // ----- the invariant -----

  // Every push under way knows its place, and what is stored is what its place says.
  ghost predicate PushersOk(s: State) {
    var begun := s.h.acks.begun;
    && s.feeds.current == Newest(begun)
    && (forall id :: id in s.feeds.pushers ==> PlaceOk(s.feeds.pushers[id], begun))
    && (s.d.revSet <==> s.h.acks.stored.Some?)
    && (s.d.revSet ==> s.h.acks.stored.value < |begun| && s.d.revision == begun[s.h.acks.stored.value])
  }

  ghost predicate PlaceOk(p: PusherPc, begun: seq<string>) {
    p.Computed? ==> p.at < |begun| && begun[p.at] == p.revision
  }

  ghost predicate Known(s: State, revision: string) {
    revision in s.h.acks.begun
  }

  // The revisions the loop works with were begun.
  ghost predicate RevisionsOk(s: State) {
    && (InTick(s.loop.pc) ==> SnapKnown(s, s.loop.pc.snap))
    && (s.loop.lastApplied.Some? ==> Known(s, s.loop.lastApplied.value))
  }

  ghost predicate SnapKnown(s: State, snap: Snapshot) {
    snap.revSet ==> Known(s, snap.revision)
  }

  ghost predicate Deciding(pc: LoopPc) {
    pc.Marking? || pc.Patching?
  }

  // The last report is recorded unless it was dropped or refused, or is still being decided on.
  ghost predicate RecordOk(s: State) {
    var a := s.h.acks;
    && (Deciding(s.loop.pc) ==> s.loop.lastApplied.Some? && !a.dropped && !a.refused)
    && (!Deciding(s.loop.pc) && s.loop.lastApplied.Some? ==> (Recorded(s) <==> !a.dropped && !a.refused))
    && (a.dropped ==> s.loop.lastApplied.Some? && Superseded(a.begun, s.loop.lastApplied.value))
  }

  ghost predicate AckOk(s: State) {
    PushersOk(s) && RevisionsOk(s) && RecordOk(s)
  }

  ghost predicate Inv(s: State) {
    BootdApplied.Inv(s) && BootdWakeup.TickOk(s) && AckOk(s)
  }

  // ----- steps -----

  lemma HasPatchGrows(log: seq<Event>, e: Event, revision: string, push: nat)
    ensures HasPatch(log + [e], revision, push) <==> HasPatch(log, revision, push) || e == Patched(revision, push)
  {
    var more := log + [e];
    if HasPatch(log, revision, push) {
      var i :| 0 <= i < |log| && log[i] == Patched(revision, push);
      assert more[i] == Patched(revision, push);
    }
    if e == Patched(revision, push) { assert more[|log|] == Patched(revision, push); }
  }

  // Steps that leave the pushes, the reports and the decision on the last one alone.
  ghost predicate Aside(s: State, t: State) {
    && t.feeds.current == s.feeds.current && t.feeds.pushers == s.feeds.pushers
    && t.d.revSet == s.d.revSet && t.d.revision == s.d.revision
    && t.h.acks == s.h.acks && t.h.appliedPush == s.h.appliedPush && t.loop.lastApplied == s.loop.lastApplied
  }

  // The log is the same, or grew by something that is no record.
  ghost predicate NoRecord(s: State, t: State) {
    t.h.log == s.h.log || exists e: Event :: !e.Patched? && t.h.log == s.h.log + [e]
  }

  // The loop stays outside or inside the decision, with a snapshot it had.
  ghost predicate SamePart(s: State, t: State) {
    && Deciding(t.loop.pc) == Deciding(s.loop.pc)
    && (InTick(t.loop.pc) ==> InTick(s.loop.pc) && t.loop.pc.snap == s.loop.pc.snap)
  }

  lemma AsideKeeps(s: State, t: State)
    requires AckOk(s) && Aside(s, t) && NoRecord(s, t) && SamePart(s, t)
    ensures AckOk(t)
  {
    RecordedStays(s, t);
    AsideKeepsRest(s, t);
  }

  lemma RecordedStays(s: State, t: State)
    requires Aside(s, t) && NoRecord(s, t)
    ensures Recorded(t) == Recorded(s)
  {
    if s.loop.lastApplied.Some? && t.h.log != s.h.log {
      var e: Event :| !e.Patched? && t.h.log == s.h.log + [e];
      HasPatchGrows(s.h.log, e, s.loop.lastApplied.value, s.h.appliedPush);
    }
  }

  lemma AsideKeepsRest(s: State, t: State)
    requires AckOk(s) && Aside(s, t) && SamePart(s, t) && Recorded(t) == Recorded(s)
    ensures AckOk(t)
  {
  }

  lemma CacheKeeps(s: State, a: Action)
    requires AckOk(s) && Enabled(s, a) && (a.MachineEvent? || a.SyncCache? || a.CacheStep?)
    ensures AckOk(Do(s, a))
  {
    match a
    case MachineEvent(key, record) =>
      EventIsAside(s, key, record);
      AsideKeeps(s, DoMachineEvent(s, key, record));
    case SyncCache => AsideKeeps(s, Do(s, a));
    case CacheStep =>
      CacheIsAside(s);
      AsideKeeps(s, DoCacheStep(s));
  }

  lemma EventIsAside(s: State, key: string, record: Option<MacCache.Record>)
    ensures var t := DoMachineEvent(s, key, record); Aside(s, t) && t.h.log == s.h.log && t.loop == s.loop
  {
  }

  lemma CacheIsAside(s: State)
    requires s.feeds.cachePc != Free
    ensures var t := DoCacheStep(s); Aside(s, t) && NoRecord(s, t) && t.loop == s.loop
  {
    var t := DoCacheStep(s);
    if s.feeds.cachePc == Pushing && s.feeds.synced { assert t.h.log == s.h.log + [Allowed(t.d.macs)]; }
  }

  lemma ChildKeeps(s: State, a: Action)
    requires AckOk(s) && Enabled(s, a) && (a.ChildStarts? || a.ChildExits? || a.ChildReads?)
    ensures AckOk(Do(s, a))
  {
    var t := Do(s, a);
    assert NoRecord(s, t) by {
      if a.ChildReads? { assert t.h.log == s.h.log + [Read(s.loop.file)]; }
    }
    AsideKeeps(s, t);
  }

  lemma SupersededStays(begun: seq<string>, r: string, q: string)
    requires Superseded(begun, r)
    ensures Superseded(begun + [q], r)
  {
    var i, j :| 0 <= i < j < |begun| && begun[i] == r && begun[j] != r;
    var more := begun + [q];
    assert more[i] == r && more[j] != r;
  }

  lemma BeginKeeps(s: State, a: Action)
    requires AckOk(s) && Enabled(s, a) && a.BeginPush?
    ensures AckOk(Do(s, a))
  {
    var t := Do(s, a);
    var begun := s.h.acks.begun;
    assert t.h.acks.begun == begun + [a.revision];
    assert forall id :: id in s.feeds.pushers && id != a.id ==> t.feeds.pushers[id] == s.feeds.pushers[id];
    if s.h.acks.dropped { SupersededStays(begun, s.loop.lastApplied.value, a.revision); }
    assert Recorded(t) == Recorded(s);
    assert forall r :: Known(s, r) ==> Known(t, r);
  }

  lemma StoreKeeps(s: State, t: State, p: PusherPc)
    requires AckOk(s) && p.Computed? && PlaceOk(p, s.h.acks.begun)
    requires t.feeds.current == s.feeds.current && t.loop == s.loop && t.h.appliedPush == s.h.appliedPush
    requires forall id :: id in t.feeds.pushers ==> PlaceOk(t.feeds.pushers[id], s.h.acks.begun)
    requires t.d.revSet && t.d.revision == p.revision && t.h.acks == s.h.acks.(stored := Some(p.at))
    requires t.h.log == s.h.log + [Reserved(p.revision, p.reservations)]
    ensures AckOk(t)
  {
    var e := Reserved(p.revision, p.reservations);
    if s.loop.lastApplied.Some? { HasPatchGrows(s.h.log, e, s.loop.lastApplied.value, s.h.appliedPush); }
    assert Recorded(t) == Recorded(s);
    assert forall r :: Known(s, r) ==> Known(t, r);
  }

  // The rest of a push leaves places and stored revision alone.
  lemma FinishKeeps(s: State, t: State)
    requires AckOk(s) && t.loop == s.loop && t.feeds.current == s.feeds.current
    requires forall id :: id in t.feeds.pushers ==> PlaceOk(t.feeds.pushers[id], s.h.acks.begun)
    requires t.d.revSet == s.d.revSet && t.d.revision == s.d.revision
    requires t.h.log == s.h.log && t.h.acks == s.h.acks && t.h.appliedPush == s.h.appliedPush
    ensures AckOk(t)
  {
    assert Recorded(t) == Recorded(s);
  }

  lemma PusherKeeps(s: State, id: nat, hint: string)
    requires AckOk(s) && PusherEnabled(s, id, hint)
    ensures AckOk(DoPusherStep(s, id, hint))
  {
    var t, p := DoPusherStep(s, id, hint), s.feeds.pushers[id];
    OthersPlaced(s, id, hint);
    if p.Computed? { StoreKeeps(s, t, p); } else { FinishKeeps(s, t); }
  }

  lemma OthersPlaced(s: State, id: nat, hint: string)
    requires AckOk(s) && PusherEnabled(s, id, hint)
    ensures var t := DoPusherStep(s, id, hint);
            forall j :: j in t.feeds.pushers ==> PlaceOk(t.feeds.pushers[j], s.h.acks.begun)
  {
    var t := DoPusherStep(s, id, hint);
    forall j | j in t.feeds.pushers
      ensures PlaceOk(t.feeds.pushers[j], s.h.acks.begun)
    {
      if j != id { assert t.feeds.pushers[j] == s.feeds.pushers[j]; }
    }
  }

  lemma SnapshotKeeps(s: State)
    requires AckOk(s) && s.loop.pc.Locking?
    ensures AckOk(EarlyStep(s))
  {
    var t := EarlyStep(s);
    assert Recorded(t) == Recorded(s);
    assert s.d.revSet ==> Known(t, s.d.revision);
  }

  lemma EarlyIsAside(s: State)
    requires EarlyPc(s.loop.pc) && !s.loop.pc.Locking?
    ensures Aside(s, EarlyStep(s)) && NoRecord(s, EarlyStep(s)) && SamePart(s, EarlyStep(s))
  {
    if s.loop.pc.Releasing? { HandOnIsAside(s); } else { WakeIsAside(s); }
  }

  lemma HandOnIsAside(s: State)
    requires s.loop.pc.Releasing?
    ensures Aside(s, EarlyStep(s)) && NoRecord(s, EarlyStep(s)) && SamePart(s, EarlyStep(s))
  {
  }

  // The steps before the snapshot.
  lemma WakeIsAside(s: State)
    requires EarlyPc(s.loop.pc) && !s.loop.pc.Locking? && !s.loop.pc.Releasing?
    ensures Aside(s, EarlyStep(s)) && NoRecord(s, EarlyStep(s)) && SamePart(s, EarlyStep(s))
  {
    NoTickYet(EarlyStep(s).loop.pc);
  }

  lemma NoTickYet(pc: LoopPc)
    requires pc.WritingInitial? || pc.Idle? || pc.Debouncing? || pc.Draining? || pc.Locking?
    ensures !InTick(pc)
  {
  }

  lemma WriteIsAside(s: State, ok: bool)
    requires WritePc(s.loop.pc)
    ensures Aside(s, WriteStep(s, ok)) && NoRecord(s, WriteStep(s, ok)) && SamePart(s, WriteStep(s, ok))
  {
    var t := WriteStep(s, ok);
    if t.h.log != s.h.log { assert t.h.log == s.h.log + [Wrote(t.loop.file)]; }
  }

  lemma ConfirmIsAside(s: State, ok: bool)
    requires ConfirmPc(s.loop.pc)
    ensures Aside(s, ConfirmStep(s, ok)) && NoRecord(s, ConfirmStep(s, ok)) && SamePart(s, ConfirmStep(s, ok))
  {
    if s.loop.pc.Checking? || s.loop.pc.Hupping? { SignalIsAside(s, ok); } else { WaitIsAside(s, ok); }
  }

  lemma SignalIsAside(s: State, ok: bool)
    requires s.loop.pc.Checking? || s.loop.pc.Hupping?
    ensures Aside(s, ConfirmStep(s, ok)) && NoRecord(s, ConfirmStep(s, ok)) && SamePart(s, ConfirmStep(s, ok))
  {
  }

  lemma WaitIsAside(s: State, ok: bool)
    requires s.loop.pc.Awaiting? || s.loop.pc.Blocked?
    ensures Aside(s, ConfirmStep(s, ok)) && NoRecord(s, ConfirmStep(s, ok)) && SamePart(s, ConfirmStep(s, ok))
  {
  }

  // A new report starts undecided.
  lemma ReportKeeps(s: State, ok: bool)
    requires AckOk(s) && s.loop.pc.Reporting?
    ensures AckOk(ReportStep(s, ok))
  {
    var t, snap := ReportStep(s, ok), s.loop.pc.snap;
    if t.loop.pc.Marking? {
      assert SnapKnown(s, snap);
      assert Known(t, snap.revision);
    } else {
      AsideKeeps(s, t);
    }
  }

  // MarkApplied drops a report only if another revision was begun since.
  lemma MarkKeeps(s: State, ok: bool)
    requires BootdApplied.BoundOk(s) && BootdWakeup.TickOk(s) && AckOk(s) && s.loop.pc.Marking?
    ensures AckOk(ReportStep(s, ok))
  {
    var t, snap := ReportStep(s, ok), s.loop.pc.snap;
    if t.loop.pc.Patching? {
      AsideKeeps(s, t);
    } else {
      NotRecordedYet(s, snap);
      DropMeansSuperseded(s.h.acks.begun, snap.revision);
      UndecidedKeeps(s, t);
    }
  }

  lemma NotRecordedYet(s: State, snap: Snapshot)
    requires BootdApplied.MarkOk(s, snap)
    ensures !Recorded(s)
  {
  }

  lemma DropMeansSuperseded(begun: seq<string>, r: string)
    requires r in begun && Newest(begun) != r
    ensures Superseded(begun, r)
  {
    var i :| 0 <= i < |begun| && begun[i] == r;
    assert begun[|begun| - 1] != r;
  }

  // A report dropped or refused stays unrecorded.
  lemma UndecidedKeeps(s: State, t: State)
    requires PushersOk(s) && RevisionsOk(s) && !Recorded(s) && Deciding(s.loop.pc) && t.loop.pc.Idle?
    requires t.loop.lastApplied == s.loop.lastApplied && s.loop.lastApplied.Some?
    requires t.feeds == s.feeds && t.d == s.d && t.h.log == s.h.log && t.h.appliedPush == s.h.appliedPush
    requires t.h.acks.begun == s.h.acks.begun && t.h.acks.stored == s.h.acks.stored
    requires t.h.acks.dropped || t.h.acks.refused
    requires t.h.acks.dropped ==> Superseded(t.h.acks.begun, t.loop.lastApplied.value)
    ensures AckOk(t)
  {
    assert !Recorded(t);
  }

  lemma PatchKeeps(s: State, ok: bool)
    requires BootdApplied.BoundOk(s) && BootdWakeup.TickOk(s) && AckOk(s) && s.loop.pc.Patching?
    ensures AckOk(ReportStep(s, ok))
  {
    var t, snap := ReportStep(s, ok), s.loop.pc.snap;
    if ok {
      HasPatchGrows(s.h.log, Patched(snap.revision, snap.push), snap.revision, snap.push);
      assert Recorded(t);
    } else {
      NotRecordedYet(s, snap);
      UndecidedKeeps(s, t);
    }
  }

  lemma LoopKeeps(s: State, ok: bool)
    requires BootdApplied.BoundOk(s) && BootdWakeup.TickOk(s) && AckOk(s) && LoopEnabled(s, ok)
    ensures AckOk(DoLoopStep(s, ok))
  {
    var pc, t := s.loop.pc, DoLoopStep(s, ok);
    if pc.Reporting? {
      ReportKeeps(s, ok);
    } else if pc.Marking? {
      MarkKeeps(s, ok);
    } else if pc.Patching? {
      PatchKeeps(s, ok);
    } else if pc.Locking? {
      SnapshotKeeps(s);
    } else {
      if WritePc(pc) {
        WriteIsAside(s, ok);
      } else if ConfirmPc(pc) {
        ConfirmIsAside(s, ok);
      } else {
        EarlyIsAside(s);
      }
      AsideKeeps(s, t);
    }
  }

  lemma CancelKeeps(s: State)
    requires AckOk(s) && Enabled(s, Cancel)
    ensures AckOk(GoTo(s, Stopped))
  {
    StoppedIsNoTick(GoTo(s, Stopped));
    AsideKeeps(s, GoTo(s, Stopped));
  }

  lemma StoppedIsNoTick(s: State)
    requires s.loop.pc.Stopped?
    ensures !InTick(s.loop.pc) && !Deciding(s.loop.pc)
  {
  }

  lemma StepKeeps(s: State, a: Action)
    requires Inv(s) && Enabled(s, a)
    ensures AckOk(Do(s, a))
  {
    match a
    case BeginPush(_, _, _) => BeginKeeps(s, a);
    case PusherStep(id, hint) => PusherKeeps(s, id, hint);
    case LoopStep(ok) => LoopKeeps(s, ok);
    case Cancel => CancelKeeps(s);
    case ChildStarts(_) => ChildKeeps(s, a);
    case ChildExits => ChildKeeps(s, a);
    case ChildReads => ChildKeeps(s, a);
    case _ => CacheKeeps(s, a);
  }

  lemma {:induction false} RunKeepsAcks(s: State, run: seq<Action>)
    requires Inv(s) && BootdWakeup.Inv(s) && IsRun(s, run)
    ensures Inv(End(s, run))
    decreases |run|
  {
    if run != [] {
      StepKeeps(s, run[0]);
      BootdApplied.StepKeeps(s, run[0]);
      BootdWakeup.StepKeeps(s, run[0]);
      RunKeepsAcks(Do(s, run[0]), run[1..]);
    }
  }

  lemma {:induction false} ReachedInv(cfg: Config, run: seq<Action>)
    requires IsRun(Initial(cfg), run)
    ensures Inv(End(Initial(cfg), run))
  {
    BootdApplied.InitialInv(cfg);
    RunKeepsAcks(Initial(cfg), run);
  }

  // ----- which revision is served -----

  /** The revision the Subnet cache holds for current is the one of the push begun last, and the one stored with the
      supervisor that of the push stored last. */
  lemma {:induction false} HeldAndStoredRevisions(cfg: Config, run: seq<Action>)
    requires IsRun(Initial(cfg), run)
    requires End(Initial(cfg), run).d.revSet
    ensures var s := End(Initial(cfg), run);
            var a := s.h.acks;
            && a.stored.Some? && a.stored.value < |a.begun|
            && s.feeds.current == a.begun[|a.begun| - 1] && s.d.revision == a.begun[a.stored.value]
  {
    ReachedInv(cfg, run);
  }

  ghost predicate IsPending(s: State, id: nat) {
    id in s.feeds.pushers && s.feeds.pushers[id].Computed?
  }

  // Some push has begun and not stored its table.
  ghost predicate PushPending(s: State) {
    exists id :: IsPending(s, id)
  }

  // A push begins while a pending one carries another revision.
  ghost predicate Mixes(s: State, a: Action) {
    a.BeginPush? && exists id :: IsPending(s, id) && s.feeds.pushers[id].revision != a.revision
  }

  ghost predicate IsUnmixedRun(s: State, run: seq<Action>)
    decreases |run|
  {
    run == [] || (Enabled(s, run[0]) && !Mixes(s, run[0]) && IsUnmixedRun(Do(s, run[0]), run[1..]))
  }

  // Every pending push carries the current revision, and with none pending that one is stored.
  ghost predicate UnmixedOk(s: State) {
    && (forall id :: IsPending(s, id) ==> s.feeds.pushers[id].revision == s.feeds.current)
    && (!PushPending(s) && s.d.revSet ==> s.d.revision == s.feeds.current)
  }

  // What the two revisions depend on stays.
  ghost predicate SameRevisions(s: State, t: State) {
    && t.feeds.current == s.feeds.current && t.feeds.pushers == s.feeds.pushers
    && t.d.revSet == s.d.revSet && t.d.revision == s.d.revision
  }

  // t's pushes are s's, except that push id has none to store.
  ghost predicate PushersBut(s: State, t: State, id: nat) {
    && (forall j :: IsPending(t, j) <==> IsPending(s, j) && j != id)
    && (forall j :: IsPending(t, j) ==> t.feeds.pushers[j] == s.feeds.pushers[j])
    && t.feeds.current == s.feeds.current
  }

  lemma PusherLeavesOthers(s: State, id: nat, hint: string)
    requires PusherEnabled(s, id, hint)
    ensures PushersBut(s, DoPusherStep(s, id, hint), id)
  {
  }

  lemma UnmixedPusherKeeps(s: State, id: nat, hint: string)
    requires UnmixedOk(s) && PusherEnabled(s, id, hint)
    ensures UnmixedOk(DoPusherStep(s, id, hint))
  {
    var t := DoPusherStep(s, id, hint);
    PusherLeavesOthers(s, id, hint);
    if s.feeds.pushers[id].Computed? { UnmixedStoreKeeps(s, t, id); } else { UnmixedFinishKeeps(s, t, id); }
  }

  lemma UnmixedStoreKeeps(s: State, t: State, id: nat)
    requires UnmixedOk(s) && PushersBut(s, t, id) && IsPending(s, id)
    requires t.d.revSet && t.d.revision == s.feeds.pushers[id].revision
    ensures UnmixedOk(t)
  {
  }

  lemma UnmixedFinishKeeps(s: State, t: State, id: nat)
    requires UnmixedOk(s) && PushersBut(s, t, id) && !IsPending(s, id)
    requires t.d.revSet == s.d.revSet && t.d.revision == s.d.revision
    ensures UnmixedOk(t)
  {
    if PushPending(s) {
      var j :| IsPending(s, j);
      assert IsPending(t, j);
    }
  }

  lemma UnmixedBeginKeeps(s: State, a: Action)
    requires UnmixedOk(s) && Enabled(s, a) && a.BeginPush? && !Mixes(s, a)
    ensures UnmixedOk(Do(s, a))
  {
    var t := Do(s, a);
    forall j | IsPending(t, j)
      ensures t.feeds.pushers[j].revision == a.revision
    {
      if j != a.id { assert IsPending(s, j) && t.feeds.pushers[j] == s.feeds.pushers[j]; }
    }
    assert IsPending(t, a.id);
  }

  lemma UnmixedOthersKeep(s: State, t: State)
    requires UnmixedOk(s) && SameRevisions(s, t)
    ensures UnmixedOk(t)
  {
    assert forall j :: IsPending(t, j) == IsPending(s, j);
  }

  lemma LoopLeavesRevisions(s: State, ok: bool)
    requires LoopEnabled(s, ok)
    ensures SameRevisions(s, DoLoopStep(s, ok))
  {
    if WritePc(s.loop.pc) {
      WriteIsAside(s, ok);
    } else if ConfirmPc(s.loop.pc) {
      ConfirmIsAside(s, ok);
    } else if EarlyPc(s.loop.pc) && !s.loop.pc.Locking? {
      EarlyIsAside(s);
    }
  }

  lemma OthersLeaveRevisions(s: State, a: Action)
    requires Enabled(s, a) && !a.BeginPush? && !a.PusherStep? && !a.LoopStep?
    ensures SameRevisions(s, Do(s, a))
  {
    match a
    case MachineEvent(key, record) => EventIsAside(s, key, record);
    case CacheStep => CacheIsAside(s);
    case _ =>
  }

  lemma UnmixedStepKeeps(s: State, a: Action)
    requires UnmixedOk(s) && Enabled(s, a) && !Mixes(s, a)
    ensures UnmixedOk(Do(s, a))
  {
    match a
    case BeginPush(_, _, _) => UnmixedBeginKeeps(s, a);
    case PusherStep(id, hint) => UnmixedPusherKeeps(s, id, hint);
    case LoopStep(ok) =>
      LoopLeavesRevisions(s, ok);
      UnmixedOthersKeep(s, Do(s, a));
    case _ =>
      OthersLeaveRevisions(s, a);
      UnmixedOthersKeep(s, Do(s, a));
  }

  lemma {:induction false} UnmixedRunKeeps(s: State, run: seq<Action>)
    requires UnmixedOk(s) && IsUnmixedRun(s, run)
    ensures IsRun(s, run) && UnmixedOk(End(s, run))
    decreases |run|
  {
    if run != [] {
      UnmixedStepKeeps(s, run[0]);
      UnmixedRunKeeps(Do(s, run[0]), run[1..]);
    }
  }

  /** As long as no push begins while a pending one carries another revision, whenever none is pending the revision
      held for current is the one stored, however many pushes of one revision overlap. */
  lemma {:induction false} UnmixedPushesAgree(cfg: Config, run: seq<Action>)
    requires IsUnmixedRun(Initial(cfg), run)
    ensures IsRun(Initial(cfg), run)
    ensures var s := End(Initial(cfg), run);
            !PushPending(s) && s.d.revSet ==> s.feeds.current == s.d.revision
  {
    UnmixedRunKeeps(Initial(cfg), run);
  }

  /** The condition is needed: any step that mixes, in any state, has a continuation in which both pushes have stored
      and the older revision and its table are in place while the newer is held for current. */
  lemma MixingCanSwap(s: State, a: Action) returns (t: State, first: nat)
    requires Enabled(s, a) && Mixes(s, a)
    ensures IsPending(s, first) && a.revision != s.feeds.pushers[first].revision
    ensures var run := [PusherStep(a.id, ""), PusherStep(first, "")];
            IsRun(Do(s, a), run) && End(Do(s, a), run) == t
    ensures first in t.feeds.pushers && !IsPending(t, first) && a.id in t.feeds.pushers && !IsPending(t, a.id)
    ensures t.feeds.current == a.revision && t.d.revSet
    ensures t.d.revision == s.feeds.pushers[first].revision
    ensures t.d.reservations == s.feeds.pushers[first].reservations
  {
    first :| IsPending(s, first) && s.feeds.pushers[first].revision != a.revision;
    var o := Do(s, a);
    var run := [PusherStep(a.id, ""), PusherStep(first, "")];
    var mid := Do(o, run[0]);
    t := Do(mid, run[1]);
    assert run[1..] == [run[1]] && run[1..][1..] == [];
    assert IsRun(t, []);
    assert IsRun(mid, run[1..]) && End(mid, run[1..]) == t;
  }

  // ----- when it is recorded -----

  /** Quiet and without a failed write, with the current revision the one served, the last report is recorded
      exactly when its patch did not fail, unless the revision went away and came back. */
  lemma {:induction false} QuietMeansRecorded(cfg: Config, run: seq<Action>)
    requires IsRun(Initial(cfg), run)
    requires var s := End(Initial(cfg), run);
             BootdWakeup.Quiet(s) && s.h.nudged && !s.h.writeFailed && s.d.revSet && s.feeds.current == s.d.revision
    ensures var s := End(Initial(cfg), run);
            && (!Returned(s.h.acks.begun, s.d.revision) ==> (Recorded(s) <==> !s.h.acks.refused))
            && (Recorded(s) <==> !s.h.acks.refused && !s.h.acks.dropped)
            && (Recorded(s) ==> LastPatchIs(s.h.log, s.d.revision))
  {
    ReachedInv(cfg, run);
    BootdWakeup.NoLostWakeup(cfg, run);
    var s := End(Initial(cfg), run);
    if Recorded(s) { RecordIsLast(s); }
  }

  lemma RecordIsLast(s: State)
    requires BootdApplied.BoundOk(s) && BootdApplied.PatchedInOrder(s.h.log) && Recorded(s)
    ensures LastPatchIs(s.h.log, s.loop.lastApplied.value)
  {
    var i :| 0 <= i < |s.h.log| && s.h.log[i] == Patched(s.loop.lastApplied.value, s.h.appliedPush);
    assert IsLastPatch(s.h.log, i);
  }

  // ----- a revision that comes back -----

  // A push begins.
  lemma Begins(cfg: Config, s: State, revision: string, table: map<string, string>) returns (t: State)
    requires BootdWakeup.Reachable(cfg, s) && s.feeds.pushers == map[]
    ensures BootdWakeup.Reachable(cfg, t)
    ensures t == s.(feeds := s.feeds.(current := revision, pushers := t.feeds.pushers),
                    h := s.h.(acks := s.h.acks.(begun := s.h.acks.begun + [revision])))
    ensures t.feeds.pushers == map[0 := Computed(revision, table, |s.h.acks.begun|)]
  {
    t := Do(s, BeginPush(0, revision, table));
    BootdWakeup.Reach(cfg, s, BeginPush(0, revision, table), t);
  }

  // What the rest of a push, with nobody in the allowlist, leaves as it was.
  ghost predicate PushedOnto(s: State, t: State, revision: string, table: map<string, string>) {
    && t.loop == s.loop && t.cfg == s.cfg && t.d == StoreReservations(s.d, revision, table)
    && t.feeds == s.feeds.(pushers := t.feeds.pushers) && t.h.writeFailed == s.h.writeFailed
    && t.h.acks.dropped == s.h.acks.dropped && t.h.acks.refused == s.h.acks.refused
  }

  lemma Stores(cfg: Config, s: State, revision: string, table: map<string, string>, at: nat) returns (t: State)
    requires BootdWakeup.Reachable(cfg, s) && s.feeds.pushers == map[0 := Computed(revision, table, at)]
    requires s.d.macs == []
    ensures BootdWakeup.Reachable(cfg, t) && PushedOnto(s, t, revision, table)
    ensures t.feeds.pushers ==
            map[0 := if s.cfg.leaseMode && s.cfg.subnetMember then Sifting({}, [], |s.h.log|) else Signalling]
  {
    assert Unreserved(s.d, table) == {};
    t := Do(s, PusherStep(0, ""));
    BootdWakeup.Reach(cfg, s, PusherStep(0, ""), t);
  }

  lemma SiftsNobody(cfg: Config, s: State, push: nat) returns (t: State)
    requires BootdWakeup.Reachable(cfg, s) && s.feeds.pushers == map[0 := Sifting({}, [], push)]
    ensures BootdWakeup.Reachable(cfg, t) && t == SetPusher(s, 0, Signalling)
    ensures t.feeds.pushers == map[0 := Signalling]
  {
    t := SetPusher(s, 0, Signalling);
    BootdWakeup.Reach(cfg, s, PusherStep(0, ""), t);
  }

  lemma Signals(cfg: Config, s: State) returns (t: State)
    requires BootdWakeup.Reachable(cfg, s) && s.feeds.pushers == map[0 := Signalling]
    ensures BootdWakeup.Reachable(cfg, t)
    ensures t == s.(feeds := s.feeds.(pushers := map[]), dirty := true, h := s.h.(nudged := true))
  {
    t := Do(s, PusherStep(0, ""));
    BootdWakeup.Reach(cfg, s, PusherStep(0, ""), t);
    assert t.feeds.pushers == map[];
  }

  lemma Readies(cfg: Config, s: State, revision: string, table: map<string, string>, at: nat) returns (t: State)
    requires BootdWakeup.Reachable(cfg, s) && s.feeds.pushers == map[0 := Computed(revision, table, at)]
    requires s.d.macs == []
    ensures BootdWakeup.Reachable(cfg, t) && PushedOnto(s, t, revision, table)
    ensures t.feeds.pushers == map[0 := Signalling]
  {
    t := Stores(cfg, s, revision, table, at);
    if s.cfg.leaseMode && s.cfg.subnetMember {
      var stored := t;
      t := SiftsNobody(cfg, stored, |s.h.log|);
      StaysPushed(s, stored, t, revision, table);
    }
  }

  lemma Finishes(cfg: Config, s: State, revision: string, table: map<string, string>, at: nat) returns (t: State)
    requires BootdWakeup.Reachable(cfg, s) && s.feeds.pushers == map[0 := Computed(revision, table, at)]
    requires s.d.macs == []
    ensures BootdWakeup.Reachable(cfg, t) && PushedOnto(s, t, revision, table)
    ensures t.feeds.pushers == map[] && t.dirty && t.h.nudged
  {
    var ready := Readies(cfg, s, revision, table, at);
    t := Signals(cfg, ready);
    StaysPushed(s, ready, t, revision, table);
  }

  lemma StaysPushed(s: State, m: State, t: State, revision: string, table: map<string, string>)
    requires PushedOnto(s, m, revision, table)
    requires t == m.(feeds := m.feeds.(pushers := t.feeds.pushers), dirty := t.dirty, h := m.h.(nudged := t.h.nudged))
    ensures PushedOnto(s, t, revision, table)
  {
  }

  // A tick over an unchanged file, up to the check for a confirmation.
  lemma Checks(cfg: Config, s: State) returns (t: State)
    requires BootdWakeup.Reachable(cfg, s) && s.loop.pc.Idle? && s.dirty
    requires s.loop.lastWritten == Render(s.d.macs, s.d.reservations)
    ensures BootdWakeup.Reachable(cfg, t) && t.loop == s.loop.(pc := Checking(TakeSnapshot(s))) && !t.dirty
    ensures t.feeds == s.feeds && t.cfg == s.cfg && t.d == s.d.(pending := []) && t.seen == s.seen
    ensures t.h.nudged == s.h.nudged && t.h.acks == s.h.acks && !t.h.writeFailed
  {
    var s1 := BootdWakeup.TakesToken(cfg, s);
    var s2 := BootdWakeup.Snaps(cfg, s1);
    var s3 := BootdWakeup.HandsOn(cfg, s2);
    t := WriteStep(s3, true);
    BootdWakeup.Reach(cfg, s3, LoopStep(true), t);
  }

  // A child confirms the file.
  lemma Confirms(cfg: Config, s: State) returns (t: State)
    requires BootdWakeup.Reachable(cfg, s) && s.loop.pc.Checking? && !s.loop.confirmed && s.loop.pc.snap.child.Some?
    ensures BootdWakeup.Reachable(cfg, t) && t.loop == s.loop.(pc := Reporting(s.loop.pc.snap), confirmed := true)
    ensures t.dirty == s.dirty && t.feeds == s.feeds && t.d == s.d && t.cfg == s.cfg
    ensures t.h.nudged == s.h.nudged && t.h.acks == s.h.acks && t.h.writeFailed == s.h.writeFailed
  {
    var snap := s.loop.pc.snap;
    var s1 := GoTo(s, Hupping(snap, s.seen.count));
    BootdWakeup.Reach(cfg, s, LoopStep(true), s1);
    var s2 := GoTo(s1, Awaiting(snap, s.seen.count));
    BootdWakeup.Reach(cfg, s1, LoopStep(true), s2);
    var s3 := DoRead(s2);
    BootdWakeup.Reach(cfg, s2, ChildReads, s3);
    t := s3.(loop := s3.loop.(pc := Reporting(snap), confirmed := true));
    BootdWakeup.Reach(cfg, s3, LoopStep(true), t);
  }

  // A report that MarkApplied finds stale.
  lemma Drops(cfg: Config, s: State) returns (t: State)
    requires BootdWakeup.Reachable(cfg, s) && s.loop.pc.Reporting? && s.loop.pc.snap.revSet && s.loop.lastApplied.None?
    requires s.feeds.current != s.loop.pc.snap.revision
    ensures BootdWakeup.Reachable(cfg, t)
    ensures t.loop == s.loop.(pc := Idle, lastApplied := Some(s.loop.pc.snap.revision))
    ensures t.dirty == s.dirty && t.feeds == s.feeds && t.d == s.d && t.cfg == s.cfg
    ensures t.h.nudged == s.h.nudged && t.h.acks.dropped && !t.h.acks.refused
  {
    var s1 := ReportStep(s, true);
    BootdWakeup.Reach(cfg, s, LoopStep(true), s1);
    t := ReportStep(s1, true);
    BootdWakeup.Reach(cfg, s1, LoopStep(true), t);
  }

  // A tick with nothing new to report.
  lemma Rests(cfg: Config, s: State) returns (t: State)
    requires BootdWakeup.Reachable(cfg, s) && s.loop.pc.Checking? && s.loop.confirmed
    requires s.loop.lastApplied == Some(s.loop.pc.snap.revision)
    ensures BootdWakeup.Reachable(cfg, t) && t == GoTo(s, Idle)
  {
    var s1 := GoTo(s, Reporting(s.loop.pc.snap));
    BootdWakeup.Reach(cfg, s, LoopStep(true), s1);
    t := GoTo(s1, Idle);
    BootdWakeup.Reach(cfg, s1, LoopStep(true), t);
  }

  lemma StartsChild(cfg: Config, s: State) returns (t: State)
    requires BootdWakeup.Reachable(cfg, s) && Launched(s) && s.d.child.None?
    ensures BootdWakeup.Reachable(cfg, t) && t == s.(d := s.d.(child := Some(1)))
  {
    t := s.(d := s.d.(child := Some(1)));
    BootdWakeup.Reach(cfg, s, ChildStarts(1), t);
  }

  // The first sync finds no Machine, and its empty allowlist opens the startup gate.
  lemma SyncsEmpty(cfg: Config, s: State) returns (t: State)
    requires BootdWakeup.Reachable(cfg, s) && s.feeds == Initial(cfg).feeds && s.d == Initial(cfg).d
    ensures BootdWakeup.Reachable(cfg, t) && t.loop == s.loop && t.cfg == s.cfg && t.d == s.d && t.firstMacs
    ensures t.feeds.pushers == map[] && t.feeds.cachePc == Free && t.h.acks == s.h.acks
  {
    var s1 := s.(feeds := s.feeds.(synced := true, cachePc := Pushing));
    BootdWakeup.Reach(cfg, s, SyncCache, s1);
    var s2 := DoCacheStep(s1);
    BootdWakeup.Reach(cfg, s1, CacheStep, s2);
    NobodyListed(s1.feeds.records);
    t := NudgesAfterPush(cfg, s2);
  }

  lemma NudgesAfterPush(cfg: Config, s: State) returns (t: State)
    requires BootdWakeup.Reachable(cfg, s) && s.feeds.cachePc == Opening
    ensures BootdWakeup.Reachable(cfg, t)
    ensures t == s.(feeds := s.feeds.(cachePc := Free), firstMacs := true, dirty := true, h := s.h.(nudged := true))
  {
    var mid := s.(feeds := s.feeds.(cachePc := Nudging), firstMacs := true);
    BootdWakeup.Reach(cfg, s, CacheStep, mid);
    t := mid.(feeds := mid.feeds.(cachePc := Free), dirty := true, h := mid.h.(nudged := true));
    BootdWakeup.Reach(cfg, mid, CacheStep, t);
  }

  lemma NobodyListed(records: map<string, MacCache.Record>)
    requires records == map[]
    ensures Listing(MacCache.Enrolled(records)) == []
  {
    NoElements(Listing(MacCache.Enrolled(records)));
  }

  // Start in lease mode, up to its gate.
  lemma Gates(cfg: Config) returns (t: State)
    requires cfg.leaseMode
    ensures BootdWakeup.Reachable(cfg, t) && t == GoTo(WriteFile(Initial(cfg), ""), Gated)
  {
    var s := Initial(cfg);
    assert IsRun(s, []) && End(s, []) == s;
    NobodyRendered(map[]);
    var s1 := GoTo(s, WritingInitial(""));
    BootdWakeup.Reach(cfg, s, LoopStep(true), s1);
    t := GoTo(WriteFile(s, ""), Gated);
    BootdWakeup.Reach(cfg, s1, LoopStep(true), t);
  }

  // Start in lease mode, past the gate, with a child.
  lemma BootsLease(cfg: Config) returns (t: State)
    requires cfg.leaseMode
    ensures BootdWakeup.Reachable(cfg, t) && t.cfg == cfg && t.loop == Loop(Idle, "", false, None, "")
    ensures t.d == Initial(cfg).d.(child := Some(1)) && t.h.acks == Initial(cfg).h.acks
    ensures t.feeds.pushers == map[] && t.feeds.cachePc == Free
  {
    var s2 := Gates(cfg);
    var s3 := SyncsEmpty(cfg, s2);
    var s4 := GoTo(s3, Idle);
    BootdWakeup.Reach(cfg, s3, LoopStep(true), s4);
    t := StartsChild(cfg, s4);
  }

  lemma NobodyRendered(table: map<string, string>)
    ensures Render([], table) == ""
  {
  }

  // Revision r is served and reported while q is already current, so its record is dropped.
  lemma DropsFirst(cfg: Config, r: string, tableR: map<string, string>, q: string, tableQ: map<string, string>)
    returns (t: State, at: nat)
    requires r != q && cfg.leaseMode
    ensures BootdWakeup.Reachable(cfg, t) && t.cfg == cfg && t.loop.pc.Idle? && t.loop.confirmed
    ensures t.loop.lastWritten == "" && t.loop.lastApplied == Some(r)
    ensures t.feeds.pushers == map[0 := Computed(q, tableQ, at)] && t.feeds.cachePc == Free
    ensures t.d.macs == [] && t.h.acks.dropped && !t.h.acks.refused
  {
    var s2 := BootsLease(cfg);
    var s3 := Begins(cfg, s2, r, tableR);
    var s4 := Finishes(cfg, s3, r, tableR, 0);
    NobodyRendered(tableR);
    var s5 := Checks(cfg, s4);
    var s6 := Confirms(cfg, s5);
    var s7 := Begins(cfg, s6, q, tableQ);
    t := Drops(cfg, s7);
    at := |s6.h.acks.begun|;
  }

  /** That exception is real: in lease mode, for any two revisions and their tables, a run ends quiet, current and
      served, with no failed patch, and the report of the revision that came back is on no record. */
  lemma ReturnedStaysUnrecorded(cfg: Config, r: string, tableR: map<string, string>,
                                q: string, tableQ: map<string, string>) returns (s: State)
    requires cfg.leaseMode && r != q
    ensures BootdWakeup.Reachable(cfg, s) && BootdWakeup.Quiet(s) && s.h.nudged && !s.h.writeFailed
    ensures s.d.revSet && s.feeds.current == s.d.revision == r && s.d.reservations == tableR
    ensures !s.h.acks.refused && !Recorded(s)
  {
    var s1, at := DropsFirst(cfg, r, tableR, q, tableQ);
    var s2 := Finishes(cfg, s1, q, tableQ, at);
    s := ComesBack(cfg, s2, r, tableR);
    var run :| IsRun(Initial(cfg), run) && End(Initial(cfg), run) == s;
    ReachedInv(cfg, run);
  }

  // The revision last reported is pushed again, and the tick finds nothing to report.
  lemma ComesBack(cfg: Config, s: State, r: string, table: map<string, string>) returns (t: State)
    requires BootdWakeup.Reachable(cfg, s) && s.loop.pc.Idle? && s.loop.confirmed && s.loop.lastWritten == ""
    requires s.loop.lastApplied == Some(r) && s.feeds.pushers == map[] && s.feeds.cachePc == Free && s.d.macs == []
    ensures BootdWakeup.Reachable(cfg, t) && BootdWakeup.Quiet(t) && t.h.nudged && !t.h.writeFailed
    ensures t.loop.lastApplied == Some(r) && t.d.revSet && t.d.revision == r && t.d.reservations == table
    ensures t.feeds.current == r
    ensures t.h.acks.dropped == s.h.acks.dropped && t.h.acks.refused == s.h.acks.refused
  {
    var s1 := Begins(cfg, s, r, table);
    var s2 := Finishes(cfg, s1, r, table, |s.h.acks.begun|);
    NobodyRendered(table);
    var s3 := Checks(cfg, s2);
    t := Rests(cfg, s3);
  }
}
