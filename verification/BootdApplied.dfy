// What an OnApplied(revision) proves: a child has read the very file rendered
// from the reservations pushed with that revision, and reports follow push order.
module BootdApplied {
  import opened Common
  import opened Hostsfile
  import opened Supervisor
  import opened Bootd

  // ----- statements about a log -----

  // The report at position k: its push, a write of the file rendered from that push's
  // reservations and an allowlist of the cache, a read of it, and no other write up to the report.
  ghost predicate Served(log: seq<Event>, k: nat, macs: seq<string>, w: nat, r: nat)
    requires k < |log| && log[k].Applied?
  {
    var p := log[k].push;
    && p < k && log[p].Reserved? && log[p].revision == log[k].revision
    && w < r < k && WasAllowed(log[..k], macs)
    && log[w] == Wrote(Render(macs, log[p].reservations))
    && log[r] == Read(Render(macs, log[p].reservations))
    && (forall i :: w < i < k ==> !log[i].Wrote?)
  }

  ghost predicate AppliedOk(log: seq<Event>, k: nat) {
    k < |log| && log[k].Applied? ==> exists macs, w, r :: Served(log, k, macs, w, r)
  }

  // Reports name strictly later and later pushes.
  ghost predicate AppliedInOrder(log: seq<Event>) {
    forall i, j :: 0 <= i < j < |log| && log[i].Applied? && log[j].Applied? ==> log[i].push < log[j].push
  }

  ghost predicate PatchedInOrder(log: seq<Event>) {
    forall i, j :: 0 <= i < j < |log| && log[i].Patched? && log[j].Patched? ==> log[i].push < log[j].push
  }

  ghost predicate Reported(log: seq<Event>, revision: string, push: nat) {
    exists i :: 0 <= i < |log| && log[i] == Applied(revision, push)
  }

  // A recorded appliedRevision was reported before.
  ghost predicate PatchedOk(log: seq<Event>, k: nat) {
    k < |log| && log[k].Patched? ==> Reported(log[..k], log[k].revision, log[k].push)
  }

  // content is rendered from an allowlist the cache pushed, or from the empty one.
  ghost predicate FromAllowlist(log: seq<Event>, content: string) {
    exists macs :: WasAllowed(log, macs) && RenderedFrom(macs, content)
  }

  ghost predicate RenderedFrom(macs: seq<string>, content: string) {
    exists reservations :: content == Render(macs, reservations)
  }

  ghost predicate WasAllowed(log: seq<Event>, macs: seq<string>) {
    macs == [] || exists i :: 0 <= i < |log| && log[i] == Allowed(macs)
  }

  ghost predicate ReadOk(log: seq<Event>, k: nat) {
    k < |log| && log[k].Read? ==> FromAllowlist(log[..k], log[k].content)
  }

  // ----- the invariant -----

  // The current state is the last push, and reports never ran ahead of it.
  ghost predicate PushOk(s: State) {
    && s.h.lastPush <= |s.h.log|
    && (s.d.revSet ==> s.h.lastPush < |s.h.log| && s.h.log[s.h.lastPush] == Reserved(s.d.revision, s.d.reservations))
    && (s.loop.lastApplied.Some? ==>
          && s.d.revSet && s.h.appliedPush <= s.h.lastPush && s.h.appliedPush < |s.h.log|
          && s.h.log[s.h.appliedPush].Reserved? && s.h.log[s.h.appliedPush].revision == s.loop.lastApplied.value)
    && WasAllowed(s.h.log, s.d.macs)
  }

  ghost predicate SnapOk(s: State) {
    InTick(s.loop.pc) ==> SnapshotOk(s, s.loop.pc.snap)
  }

  ghost predicate SnapshotOk(s: State, snap: Snapshot) {
    && snap.content == Render(snap.macs, snap.reservations)
    && WasAllowed(s.h.log, snap.macs)
    && snap.push <= s.h.lastPush
    && (snap.revSet ==>
          s.d.revSet && snap.push < |s.h.log| && s.h.log[snap.push] == Reserved(snap.revision, snap.reservations))
    && (s.loop.lastApplied.Some? ==> snap.revSet && s.h.appliedPush <= snap.push)
  }

  ghost predicate SourceOk(s: State) {
    && (s.loop.pc.WritingInitial? ==> FromAllowlist(s.h.log, s.loop.pc.content))
    && (s.loop.pc.Gated? || Launched(s) ==> FromAllowlist(s.h.log, s.loop.file))
  }

  // No report or record is later than the last report.
  ghost predicate BoundOk(s: State) {
    && (forall i :: 0 <= i < |s.h.log| && s.h.log[i].Applied? ==>
        s.loop.lastApplied.Some? && s.h.log[i].push <= s.h.appliedPush)
    && (forall i :: 0 <= i < |s.h.log| && s.h.log[i].Patched? ==>
        s.loop.lastApplied.Some? && s.h.log[i].push <= s.h.appliedPush)
    && (s.loop.pc.Marking? || s.loop.pc.Patching? ==> MarkOk(s, s.loop.pc.snap))
  }

  // The last report has just been made and is not recorded yet.
  ghost predicate MarkOk(s: State, snap: Snapshot) {
    && s.h.appliedPush == snap.push && Reported(s.h.log, snap.revision, snap.push)
    && (forall i :: 0 <= i < |s.h.log| && s.h.log[i].Patched? ==> s.h.log[i].push < s.h.appliedPush)
  }

  ghost predicate EntryOk(log: seq<Event>, k: nat) {
    AppliedOk(log, k) && PatchedOk(log, k) && ReadOk(log, k)
  }

  ghost predicate LogOk(log: seq<Event>) {
    && (forall k :: EntryOk(log, k))
    && AppliedInOrder(log)
    && PatchedInOrder(log)
  }

  ghost predicate Inv(s: State) {
    LoopOk(s) && PushOk(s) && SnapOk(s) && SourceOk(s) && BoundOk(s) && LogOk(s.h.log)
  }

  // ----- growing the log -----

  lemma EarlierStay(log: seq<Event>, e: Event, k: nat)
    requires k < |log| && EntryOk(log, k)
    ensures EntryOk(log + [e], k)
  {
    var more := log + [e];
    assert more[..k] == log[..k] && more[k] == log[k];
    SamePrefixKeeps(log, more, k);
  }

  // What an entry claims depends on the log up to it.
  lemma SamePrefixKeeps(log: seq<Event>, more: seq<Event>, k: nat)
    requires k < |log| && k < |more| && more[..k] == log[..k] && more[k] == log[k] && EntryOk(log, k)
    ensures EntryOk(more, k)
  {
    if log[k].Applied? {
      var macs, w, r :| Served(log, k, macs, w, r);
      ServedStays(log, more, k, macs, w, r);
    }
  }

  lemma ServedStays(log: seq<Event>, more: seq<Event>, k: nat, macs: seq<string>, w: nat, r: nat)
    requires k < |log| && k < |more| && more[..k] == log[..k] && more[k] == log[k]
    requires log[k].Applied? && Served(log, k, macs, w, r)
    ensures Served(more, k, macs, w, r)
  {
    forall i | 0 <= i < k
      ensures more[i] == log[i]
    {
      assert more[i] == more[..k][i] && log[i] == log[..k][i];
    }
  }

  lemma GrowKeeps(log: seq<Event>, e: Event)
    requires LogOk(log)
    requires EntryOk(log + [e], |log|)
    requires e.Applied? ==> forall i :: 0 <= i < |log| && log[i].Applied? ==> log[i].push < e.push
    requires e.Patched? ==> forall i :: 0 <= i < |log| && log[i].Patched? ==> log[i].push < e.push
    ensures LogOk(log + [e])
  {
    forall k: nat
      ensures EntryOk(log + [e], k)
    {
      if k < |log| {
        EarlierStay(log, e, k);
      }
    }
    GrowInOrder(log, e);
  }

  lemma GrowInOrder(log: seq<Event>, e: Event)
    requires AppliedInOrder(log) && PatchedInOrder(log)
    requires e.Applied? ==> forall i :: 0 <= i < |log| && log[i].Applied? ==> log[i].push < e.push
    requires e.Patched? ==> forall i :: 0 <= i < |log| && log[i].Patched? ==> log[i].push < e.push
    ensures AppliedInOrder(log + [e]) && PatchedInOrder(log + [e])
  {
  }

  // An event that claims nothing.
  lemma PlainGrowKeeps(log: seq<Event>, e: Event)
    requires LogOk(log) && !e.Applied? && !e.Patched? && !e.Read?
    ensures LogOk(log + [e])
  {
    GrowKeeps(log, e);
  }

  lemma GrowKeepsSources(log: seq<Event>, e: Event, macs: seq<string>, content: string)
    ensures WasAllowed(log, macs) ==> WasAllowed(log + [e], macs)
    ensures FromAllowlist(log, content) ==> FromAllowlist(log + [e], content)
  {
    var more := log + [e];
    forall ms | WasAllowed(log, ms)
      ensures WasAllowed(more, ms)
    {
      if ms != [] {
        var i :| 0 <= i < |log| && log[i] == Allowed(ms);
        assert more[i] == Allowed(ms);
      }
    }
    if FromAllowlist(log, content) {
      var ms :| WasAllowed(log, ms) && RenderedFrom(ms, content);
      assert WasAllowed(more, ms);
    }
  }

  // ----- the invariant, part by part, when the log grows by one event -----

  lemma GrowPush(s: State, t: State, e: Event)
    requires PushOk(s) && t.h.log == s.h.log + [e]
    requires t.d.macs == s.d.macs && t.d.reservations == s.d.reservations && t.d.revision == s.d.revision
    requires t.d.revSet == s.d.revSet
    requires t.loop.lastApplied == s.loop.lastApplied && t.h.lastPush == s.h.lastPush
    requires t.h.appliedPush == s.h.appliedPush
    ensures PushOk(t)
  {
    GrowKeepsSources(s.h.log, e, s.d.macs, "");
  }

  lemma GrowSnap(s: State, t: State, e: Event)
    requires SnapOk(s) && t.h.log == s.h.log + [e]
    requires InTick(t.loop.pc) ==> InTick(s.loop.pc) && t.loop.pc.snap == s.loop.pc.snap
    requires t.loop.lastApplied == s.loop.lastApplied && t.h.appliedPush == s.h.appliedPush
    requires s.h.lastPush <= t.h.lastPush && (s.d.revSet ==> t.d.revSet)
    ensures SnapOk(t)
  {
    if InTick(t.loop.pc) { GrowKeepsSources(s.h.log, e, t.loop.pc.snap.macs, ""); }
  }

  lemma GrowSource(s: State, t: State, e: Event)
    requires SourceOk(s) && t.h.log == s.h.log + [e] && t.loop.file == s.loop.file
    requires t.loop.pc.WritingInitial? ==> t.loop.pc == s.loop.pc
    requires t.loop.pc.Gated? || Launched(t) ==> s.loop.pc.Gated? || Launched(s)
    ensures SourceOk(t)
  {
    GrowKeepsSources(s.h.log, e, [], s.loop.file);
    if t.loop.pc.WritingInitial? { GrowKeepsSources(s.h.log, e, [], t.loop.pc.content); }
  }

  lemma ReportedStays(log: seq<Event>, e: Event, revision: string, push: nat)
    requires Reported(log, revision, push)
    ensures Reported(log + [e], revision, push)
  {
    var i :| 0 <= i < |log| && log[i] == Applied(revision, push);
    assert (log + [e])[i] == Applied(revision, push);
  }

  lemma GrowBound(s: State, t: State, e: Event)
    requires BoundOk(s) && t.h.log == s.h.log + [e] && !e.Applied? && !e.Patched?
    requires t.loop.lastApplied == s.loop.lastApplied && t.h.appliedPush == s.h.appliedPush
    requires t.loop.pc.Marking? || t.loop.pc.Patching? ==> t.loop.pc == s.loop.pc
    ensures BoundOk(t)
  {
    if t.loop.pc.Marking? || t.loop.pc.Patching? {
      ReportedStays(s.h.log, e, t.loop.pc.snap.revision, t.loop.pc.snap.push);
    }
  }

  // ----- steps of the feeds and the child -----

  // Steps that log nothing and leave the loop, the allowlist and the reservations alone.
  lemma SilentKeeps(s: State, t: State)
    requires Inv(s) && LoopOk(t) && t.loop == s.loop
    requires t.h.log == s.h.log && t.h.lastPush == s.h.lastPush && t.h.appliedPush == s.h.appliedPush
    requires t.d.macs == s.d.macs && t.d.reservations == s.d.reservations && t.d.revision == s.d.revision
    requires t.d.revSet == s.d.revSet
    ensures Inv(t)
  {
  }

  lemma CacheKeeps(s: State)
    requires Inv(s) && s.feeds.cachePc != Free
    ensures Inv(DoCacheStep(s))
  {
    var t := DoCacheStep(s);
    LoopOkStep(s, CacheStep);
    if s.feeds.cachePc == Pushing && s.feeds.synced {
      AllowKeeps(s, t);
    } else {
      SilentKeeps(s, t);
    }
  }

  lemma AllowKeeps(s: State, t: State)
    requires Inv(s) && LoopOk(t) && t.loop == s.loop && t.h.log == s.h.log + [Allowed(t.d.macs)]
    requires t.h.lastPush == s.h.lastPush && t.h.appliedPush == s.h.appliedPush
    requires t.d.reservations == s.d.reservations && t.d.revision == s.d.revision && t.d.revSet == s.d.revSet
    ensures Inv(t)
  {
    var e := Allowed(t.d.macs);
    PlainGrowKeeps(s.h.log, e);
    GrowPush(s, t.(d := t.d.(macs := s.d.macs)), e);
    assert t.h.log[|s.h.log|] == e;
    GrowSnap(s, t, e);
    GrowSource(s, t, e);
    GrowBound(s, t, e);
  }

  lemma PusherKeeps(s: State, id: nat, hint: string)
    requires Inv(s) && PusherEnabled(s, id, hint)
    ensures Inv(DoPusherStep(s, id, hint))
  {
    var t := DoPusherStep(s, id, hint);
    LoopOkStep(s, PusherStep(id, hint));
    if s.feeds.pushers[id].Computed? {
      StoreKeeps(s, t, s.feeds.pushers[id].revision, s.feeds.pushers[id].reservations);
    } else {
      SilentKeeps(s, t);
    }
  }

  lemma StoreKeeps(s: State, t: State, revision: string, reservations: map<string, string>)
    requires Inv(s) && LoopOk(t) && t.loop == s.loop
    requires t.d == StoreReservations(s.d, revision, reservations)
    requires t.h.log == s.h.log + [Reserved(revision, reservations)]
    requires t.h.lastPush == |s.h.log| && t.h.appliedPush == s.h.appliedPush
    ensures Inv(t)
  {
    var e := Reserved(revision, reservations);
    PlainGrowKeeps(s.h.log, e);
    GrowKeepsSources(s.h.log, e, s.d.macs, "");
    assert t.h.log[|s.h.log|] == e;
    GrowSnap(s, t, e);
    GrowSource(s, t, e);
    GrowBound(s, t, e);
  }

  lemma ReadKeepsApplied(s: State)
    requires Inv(s) && Launched(s)
    ensures Inv(DoRead(s))
  {
    var t := DoRead(s);
    LoopOkStep(s, ChildReads);
    var e := Read(s.loop.file);
    assert (s.h.log + [e])[..|s.h.log|] == s.h.log;
    GrowKeeps(s.h.log, e);
    GrowPush(s, t, e);
    GrowSnap(s, t, e);
    GrowSource(s, t, e);
    GrowBound(s, t, e);
  }

  // ----- steps of the loop -----

  // A step that logs nothing: the same snapshot is carried on, or none.
  ghost predicate Moves(s: State, t: State) {
    var from, pc := s.loop.pc, t.loop.pc;
    && t.loop.file == s.loop.file && t.loop.lastApplied == s.loop.lastApplied
    && t.h.log == s.h.log && t.h.lastPush == s.h.lastPush && t.h.appliedPush == s.h.appliedPush
    && t.d.macs == s.d.macs && t.d.reservations == s.d.reservations && t.d.revision == s.d.revision
    && t.d.revSet == s.d.revSet
    && (InTick(pc) ==> InTick(from) && pc.snap == from.snap)
    && !pc.WritingInitial? && !pc.Marking? && (pc.Patching? ==> from.Marking?)
    && (pc.Gated? || Launched(t) ==> from.Gated? || Launched(s))
  }

  lemma MoveKeeps(s: State, t: State)
    requires Inv(s) && LoopOk(t) && Moves(s, t)
    ensures Inv(t)
  {
  }

  lemma EarlyKeeps(s: State)
    requires Inv(s) && EarlyPc(s.loop.pc) && !s.loop.pc.Locking? && !s.loop.pc.Unstarted?
    ensures Inv(EarlyStep(s))
  {
    EarlyStepKeeps(s);
    EarlyMoves(s);
    MoveKeeps(s, EarlyStep(s));
  }

  lemma EarlyMoves(s: State)
    requires EarlyPc(s.loop.pc) && !s.loop.pc.Locking? && !s.loop.pc.Unstarted?
    ensures Moves(s, EarlyStep(s))
  {
  }

  lemma CurrentIsAllowed(s: State)
    requires PushOk(s)
    ensures FromAllowlist(s.h.log, Render(s.d.macs, s.d.reservations))
  {
  }

  lemma SnapshotKeeps(s: State)
    requires Inv(s) && s.loop.pc.Locking?
    ensures Inv(EarlyStep(s))
  {
    EarlyStepKeeps(s);
  }

  lemma StartKeeps(s: State)
    requires Inv(s) && s.loop.pc.Unstarted?
    ensures Inv(EarlyStep(s))
  {
    var t := EarlyStep(s);
    EarlyStepKeeps(s);
    CurrentIsAllowed(s);
    RenderedKeeps(s, t);
    assert t.h == s.h;
  }

  // Rendering the first file changes nothing but the program point.
  lemma RenderedKeeps(s: State, t: State)
    requires PushOk(s) && BoundOk(s) && t.d == s.d && t.h == s.h && t.loop.lastApplied == s.loop.lastApplied
    requires t.loop.pc.WritingInitial? && FromAllowlist(t.h.log, t.loop.pc.content)
    ensures PushOk(t) && SnapOk(t) && SourceOk(t) && BoundOk(t)
  {
    assert !InTick(t.loop.pc);
  }

  lemma WriteKeepsApplied(s: State, content: string, pc: LoopPc)
    requires Inv(s) && FromAllowlist(s.h.log, content)
    requires pc == Gated || pc == Idle
             || (s.loop.pc.Comparing? && pc == Checking(s.loop.pc.snap) && content == s.loop.pc.snap.content)
    ensures Inv(GoTo(WriteFile(s, content), pc))
  {
    var t := GoTo(WriteFile(s, content), pc);
    var e := Wrote(content);
    WriteKeeps(s, content, pc);
    PlainGrowKeeps(s.h.log, e);
    GrowPush(s, t, e);
    GrowSnap(s, t, e);
    GrowBound(s, t, e);
    GrowKeepsSources(s.h.log, e, [], content);
  }

  lemma InitialWriteKeeps(s: State, ok: bool)
    requires Inv(s) && s.loop.pc.WritingInitial?
    ensures Inv(WriteStep(s, ok))
  {
    if ok {
      WriteKeepsApplied(s, s.loop.pc.content, if s.cfg.leaseMode then Gated else Idle);
    } else {
      MoveKeeps(s, GoTo(s, Stopped));
    }
  }

  lemma CompareKeeps(s: State, ok: bool)
    requires Inv(s) && s.loop.pc.Comparing?
    ensures Inv(WriteStep(s, ok))
  {
    var snap := s.loop.pc.snap;
    if snap.content != s.loop.lastWritten && ok {
      WriteKeepsApplied(s, snap.content, Checking(snap));
    } else {
      WriteStepKeeps(s, ok);
      CompareMoves(s, ok);
      MoveKeeps(s, WriteStep(s, ok));
    }
  }

  lemma CompareMoves(s: State, ok: bool)
    requires s.loop.pc.Comparing? && (s.loop.pc.snap.content == s.loop.lastWritten || !ok)
    ensures Moves(s, WriteStep(s, ok))
  {
  }

  lemma ConfirmKeeps(s: State, ok: bool)
    requires Inv(s) && ConfirmPc(s.loop.pc)
    ensures Inv(ConfirmStep(s, ok))
  {
    ConfirmStepKeeps(s, ok);
    if s.loop.pc.Checking? || s.loop.pc.Hupping? { SignalMoves(s, ok); } else { WaitMoves(s, ok); }
    MoveKeeps(s, ConfirmStep(s, ok));
  }

  lemma SignalMoves(s: State, ok: bool)
    requires s.loop.pc.Checking? || s.loop.pc.Hupping?
    ensures Moves(s, ConfirmStep(s, ok))
  {
  }

  lemma WaitMoves(s: State, ok: bool)
    requires s.loop.pc.Awaiting? || s.loop.pc.Blocked?
    ensures Moves(s, ConfirmStep(s, ok))
  {
  }

  // The report: the file is the snapshot's, and a read of it is on record.
  lemma NewReportServed(s: State)
    requires LoopOk(s) && SnapOk(s) && s.loop.pc.Reporting? && s.loop.pc.snap.revSet
    ensures var snap := s.loop.pc.snap; AppliedOk(s.h.log + [Applied(snap.revision, snap.push)], |s.h.log|)
  {
    var snap := s.loop.pc.snap;
    var log := s.h.log + [Applied(snap.revision, snap.push)];
    var r :| s.h.wroteAt < r < |s.h.log| && s.h.log[r] == Read(s.loop.file);
    assert log[..|s.h.log|] == s.h.log;
    assert Served(log, |s.h.log|, snap.macs, s.h.wroteAt, r);
  }

  // A revision other than the last reported one comes from a later push.
  lemma NewReportLater(s: State)
    requires PushOk(s) && SnapOk(s) && s.loop.pc.Reporting? && s.loop.pc.snap.revSet
    requires s.loop.lastApplied != Some(s.loop.pc.snap.revision)
    ensures s.loop.lastApplied.Some? ==> s.h.appliedPush < s.loop.pc.snap.push
  {
  }

  // A report leaves the loop marking, with the new report as the last one.
  lemma ReportKeepsParts(s: State, t: State)
    requires PushOk(s) && SnapOk(s) && BoundOk(s) && s.loop.pc.Reporting? && s.loop.pc.snap.revSet
    requires s.loop.lastApplied.Some? ==> s.h.appliedPush < s.loop.pc.snap.push
    requires t.d == s.d && t.loop.pc == Marking(s.loop.pc.snap) && t.loop.lastApplied == Some(s.loop.pc.snap.revision)
    requires t.h.log == s.h.log + [Applied(s.loop.pc.snap.revision, s.loop.pc.snap.push)]
    requires t.h.lastPush == s.h.lastPush && t.h.appliedPush == s.loop.pc.snap.push
    ensures PushOk(t) && SnapOk(t) && BoundOk(t)
  {
    var snap := s.loop.pc.snap;
    var e := Applied(snap.revision, snap.push);
    GrowKeepsSources(s.h.log, e, s.d.macs, "");
    GrowKeepsSources(s.h.log, e, snap.macs, "");
    ReportMarks(s, t, snap);
  }

  lemma ReportMarks(s: State, t: State, snap: Snapshot)
    requires BoundOk(s) && (s.loop.lastApplied.Some? ==> s.h.appliedPush < snap.push)
    requires t.loop.pc == Marking(snap) && t.loop.lastApplied == Some(snap.revision)
    requires t.h.log == s.h.log + [Applied(snap.revision, snap.push)] && t.h.appliedPush == snap.push
    ensures BoundOk(t)
  {
    assert t.h.log[|s.h.log|] == Applied(snap.revision, snap.push);
    assert MarkOk(t, snap);
  }

  lemma ReportKeeps(s: State)
    requires Inv(s) && s.loop.pc.Reporting? && s.loop.pc.snap.revSet
    requires s.loop.lastApplied != Some(s.loop.pc.snap.revision)
    ensures Inv(ReportStep(s, true))
  {
    ReportStepKeeps(s, true);
    var t, snap := ReportStep(s, true), s.loop.pc.snap;
    var e := Applied(snap.revision, snap.push);
    NewReportServed(s);
    NewReportLater(s);
    GrowKeeps(s.h.log, e);
    GrowSource(s, t, e);
    ReportKeepsParts(s, t);
  }

  // Nothing to report, or the record is dropped or fails.
  ghost predicate Unreported(s: State, ok: bool) {
    || (s.loop.pc.Reporting? && (!s.loop.pc.snap.revSet || s.loop.lastApplied == Some(s.loop.pc.snap.revision)))
    || s.loop.pc.Marking?
    || (s.loop.pc.Patching? && !ok)
  }

  lemma UnreportedMoves(s: State, ok: bool)
    requires Unreported(s, ok)
    ensures Moves(s, ReportStep(s, ok))
  {
  }

  lemma UnreportedKeeps(s: State, ok: bool)
    requires Inv(s) && Unreported(s, ok)
    ensures Inv(ReportStep(s, ok))
  {
    ReportStepKeeps(s, ok);
    UnreportedMoves(s, ok);
    MoveKeeps(s, ReportStep(s, ok));
  }

  lemma PatchKeepsBound(s: State, t: State)
    requires BoundOk(s) && s.loop.pc.Patching? && t.loop.pc.Idle? && t.loop.lastApplied == s.loop.lastApplied
    requires t.h.log == s.h.log + [Patched(s.loop.pc.snap.revision, s.loop.pc.snap.push)]
    requires t.h.appliedPush == s.h.appliedPush
    ensures BoundOk(t)
  {
    var i :| 0 <= i < |s.h.log| && s.h.log[i] == Applied(s.loop.pc.snap.revision, s.loop.pc.snap.push);
    assert s.loop.lastApplied.Some?;
  }

  lemma PatchKeeps(s: State)
    requires Inv(s) && s.loop.pc.Patching?
    ensures Inv(ReportStep(s, true))
  {
    ReportStepKeeps(s, true);
    var t, snap := ReportStep(s, true), s.loop.pc.snap;
    var e := Patched(snap.revision, snap.push);
    PatchKeepsLog(s.h.log, e, s, snap);
    PatchKeepsParts(s, t, e);
  }

  lemma PatchKeepsParts(s: State, t: State, e: Event)
    requires PushOk(s) && SourceOk(s) && BoundOk(s) && s.loop.pc.Patching?
    requires e == Patched(s.loop.pc.snap.revision, s.loop.pc.snap.push)
    requires t.loop == s.loop.(pc := Idle) && t.d == s.d && t.h == Log(s.h, e)
    ensures PushOk(t) && SnapOk(t) && SourceOk(t) && BoundOk(t)
  {
    assert !InTick(t.loop.pc);
    GrowPush(s, t, e);
    GrowSource(s, t, e);
    PatchKeepsBound(s, t);
  }

  lemma PatchKeepsLog(log: seq<Event>, e: Event, s: State, snap: Snapshot)
    requires LogOk(log) && s.h.log == log && MarkOk(s, snap) && e == Patched(snap.revision, snap.push)
    ensures LogOk(log + [e])
  {
    assert (log + [e])[..|log|] == log;
    GrowKeeps(log, e);
  }

  lemma ReportPcKeeps(s: State, ok: bool)
    requires Inv(s) && ReportPc(s.loop.pc)
    ensures Inv(ReportStep(s, ok))
  {
    if s.loop.pc.Reporting? && s.loop.pc.snap.revSet && s.loop.lastApplied != Some(s.loop.pc.snap.revision) {
      ReportKeeps(s);
    } else if s.loop.pc.Patching? && ok {
      PatchKeeps(s);
    } else {
      UnreportedKeeps(s, ok);
    }
  }

  lemma LoopKeeps(s: State, ok: bool)
    requires Inv(s) && LoopEnabled(s, ok)
    ensures Inv(DoLoopStep(s, ok))
  {
    if s.loop.pc.WritingInitial? {
      InitialWriteKeeps(s, ok);
    } else if s.loop.pc.Comparing? {
      CompareKeeps(s, ok);
    } else if ConfirmPc(s.loop.pc) {
      ConfirmKeeps(s, ok);
    } else if ReportPc(s.loop.pc) {
      ReportPcKeeps(s, ok);
    } else if s.loop.pc.Locking? {
      SnapshotKeeps(s);
    } else if s.loop.pc.Unstarted? {
      StartKeeps(s);
    } else {
      EarlyKeeps(s);
    }
  }

  lemma CancelKeeps(s: State)
    requires Inv(s)
    ensures Inv(GoTo(s, Stopped))
  {
    MoveKeeps(s, GoTo(s, Stopped));
  }

  lemma StepKeeps(s: State, a: Action)
    requires Inv(s) && Enabled(s, a)
    ensures Inv(Do(s, a))
  {
    match a
    case CacheStep => CacheKeeps(s);
    case PusherStep(id, hint) => PusherKeeps(s, id, hint);
    case ChildReads => ReadKeepsApplied(s);
    case LoopStep(ok) => LoopKeeps(s, ok);
    case Cancel => CancelKeeps(s);
    case _ =>
      LoopOkStep(s, a);
      SilentKeeps(s, Do(s, a));
  }

  lemma {:induction false} RunKeeps(s: State, run: seq<Action>)
    requires Inv(s) && IsRun(s, run)
    ensures Inv(End(s, run))
    decreases |run|
  {
    if run != [] {
      StepKeeps(s, run[0]);
      RunKeeps(Do(s, run[0]), run[1..]);
    }
  }

  lemma InitialInv(cfg: Config)
    ensures Inv(Initial(cfg))
  {
  }

  // ----- the theorems -----

  /** Every OnApplied(revision) is preceded by a push of that revision, a write of the hostsfile rendered
      from that push's reservations and a read of it, and the file is still that one at the report. */
  lemma {:induction false} AppliedMeansServed(cfg: Config, run: seq<Action>, k: nat)
    requires IsRun(Initial(cfg), run)
    requires var log := End(Initial(cfg), run).h.log; k < |log| && log[k].Applied?
    ensures exists macs, w, r :: Served(End(Initial(cfg), run).h.log, k, macs, w, r)
  {
    InitialInv(cfg);
    RunKeeps(Initial(cfg), run);
    assert EntryOk(End(Initial(cfg), run).h.log, k);
  }

  /** Reports follow SetReservations order, and so do the recorded appliedRevisions, each of which was reported. */
  lemma {:induction false} ReportsFollowPushOrder(cfg: Config, run: seq<Action>)
    requires IsRun(Initial(cfg), run)
    ensures var log := End(Initial(cfg), run).h.log;
            AppliedInOrder(log) && PatchedInOrder(log) && forall k :: PatchedOk(log, k)
  {
    InitialInv(cfg);
    RunKeeps(Initial(cfg), run);
    forall k: nat ensures PatchedOk(End(Initial(cfg), run).h.log, k) {
      assert EntryOk(End(Initial(cfg), run).h.log, k);
    }
  }

  /** Fail-secure: whatever file a child ever reads was rendered from an allowlist the
      synced cache had pushed before, or admits nobody. */
  lemma {:induction false} ReadsAdmitOnlyAllowed(cfg: Config, run: seq<Action>, k: nat)
    requires IsRun(Initial(cfg), run)
    requires var log := End(Initial(cfg), run).h.log; k < |log| && log[k].Read?
    ensures var log := End(Initial(cfg), run).h.log; FromAllowlist(log[..k], log[k].content)
  {
    InitialInv(cfg);
    RunKeeps(Initial(cfg), run);
    assert EntryOk(End(Initial(cfg), run).h.log, k);
  }
}
