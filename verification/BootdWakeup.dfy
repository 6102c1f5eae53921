// No lost wake-up: a nudge of the hostsfile loop is never swallowed for good.
module BootdWakeup {
  import opened Common
  import opened Text
  import opened Mac
  import opened Hostsfile
  import opened MacCache
  import opened Supervisor
  import opened Bootd

  // A setter has changed the shared state and not yet nudged the loop.
  ghost predicate MidCall(s: State) {
    || s.feeds.cachePc == Opening || s.feeds.cachePc == Nudging
    || exists id :: id in s.feeds.pushers && !s.feeds.pushers[id].Computed?
  }

  ghost predicate Quiet(s: State) {
    s.loop.pc.Idle? && !s.dirty && !MidCall(s)
  }

  // The file is the rendering of the current state and has been read since it was
  // written, no release is pending, and the current revision has been reported.
  ghost predicate Settled(s: State) {
    && s.loop.file == Render(s.d.macs, s.d.reservations)
    && s.loop.confirmed && ReadSince(s)
    && s.d.pending == []
    && (s.d.revSet ==> s.loop.lastApplied == Some(s.d.revision))
  }

  // ----- the invariant -----

  // The tick's snapshot is still the current state.
  ghost predicate Current(s: State, snap: Snapshot) {
    && snap.content == Render(s.d.macs, s.d.reservations)
    && snap.revision == s.d.revision && snap.revSet == s.d.revSet
    && s.d.pending == []
  }

  ghost predicate AtRest(s: State) {
    && s.d.pending == []
    && if s.h.writeFailed then s.loop.lastWritten != Render(s.d.macs, s.d.reservations)
       else && s.loop.lastWritten == Render(s.d.macs, s.d.reservations)
            && s.loop.confirmed
            && (s.d.revSet ==> s.loop.lastApplied == Some(s.d.revision))
  }

  ghost predicate Awake(s: State) {
    s.dirty || MidCall(s)
  }

  ghost predicate WakeOk(s: State) {
    s.h.nudged ==>
      && (s.loop.pc.Unstarted? || s.loop.pc.WritingInitial? || s.loop.pc.Gated? ==> s.dirty)
      && (s.loop.pc.Idle? ==> Awake(s) || AtRest(s))
      && (InTick(s.loop.pc) ==> Awake(s) || Current(s, s.loop.pc.snap))
  }

  // Between snapshot and write failure no failure is on record, and a report under way is recorded.
  ghost predicate TickOk(s: State) {
    var pc := s.loop.pc;
    && (InTick(pc) ==> !s.h.writeFailed)
    && (pc.Marking? || pc.Patching? ==> s.loop.lastApplied == Some(pc.snap.revision))
  }

  ghost predicate Inv(s: State) {
    LoopOk(s) && TickOk(s) && WakeOk(s)
  }

  // ----- every step keeps it -----

  lemma TickStep(s: State, a: Action)
    requires TickOk(s) && Enabled(s, a) && !a.LoopStep?
    ensures TickOk(Do(s, a))
  {
  }

  // A cache step: storing an allowlist leaves its setter mid-call, and finishing nudges.
  lemma CacheKeepsWake(s: State, a: Action)
    requires WakeOk(s) && Enabled(s, a) && (a.MachineEvent? || a.SyncCache? || a.CacheStep?)
    ensures WakeOk(Do(s, a))
  {
    var t := Do(s, a);
    assert t.feeds.pushers == s.feeds.pushers;
  }

  lemma BeginPushKeepsWake(s: State, a: Action)
    requires WakeOk(s) && Enabled(s, a) && a.BeginPush?
    ensures WakeOk(Do(s, a))
  {
    var t := Do(s, a);
    if id :| id in s.feeds.pushers && !s.feeds.pushers[id].Computed? {
      assert t.feeds.pushers[id] == s.feeds.pushers[id];
    }
  }

  // A pusher that changed something is mid-call until its nudge.
  lemma PusherKeepsWake(s: State, id: nat, hint: string)
    requires WakeOk(s) && PusherEnabled(s, id, hint)
    ensures WakeOk(DoPusherStep(s, id, hint))
  {
    var t := DoPusherStep(s, id, hint);
    if id in t.feeds.pushers {
      assert !t.feeds.pushers[id].Computed?;
      assert MidCall(t);
    }
  }

  lemma ChildKeepsWake(s: State, a: Action)
    requires WakeOk(s) && Enabled(s, a) && (a.ChildStarts? || a.ChildExits? || a.ChildReads?)
    ensures WakeOk(Do(s, a))
  {
    assert MidCall(Do(s, a)) == MidCall(s);
  }

  // A token sent before the loop runs stays in the channel.
  lemma StartKeeps(s: State)
    requires WakeOk(s) && TickOk(s) && (s.loop.pc.Unstarted? || s.loop.pc.Gated?)
    ensures TickOk(EarlyStep(s)) && WakeOk(EarlyStep(s))
  {
  }

  // Receiving or draining the token leads to a fresh snapshot.
  lemma ReceiveKeeps(s: State)
    requires WakeOk(s) && TickOk(s) && s.loop.pc.Idle?
    ensures TickOk(EarlyStep(s)) && WakeOk(EarlyStep(s))
  {
  }

  lemma DebounceKeeps(s: State)
    requires WakeOk(s) && TickOk(s) && s.loop.pc.Debouncing?
    ensures TickOk(EarlyStep(s)) && WakeOk(EarlyStep(s))
  {
  }

  lemma DrainKeeps(s: State)
    requires WakeOk(s) && TickOk(s) && s.loop.pc.Draining?
    ensures TickOk(EarlyStep(s)) && WakeOk(EarlyStep(s))
  {
  }

  // The snapshot is current when taken, and takes every pending release.
  lemma SnapshotKeeps(s: State)
    requires WakeOk(s) && TickOk(s) && s.loop.pc.Locking?
    ensures TickOk(EarlyStep(s)) && WakeOk(EarlyStep(s))
  {
  }

  lemma ReleaseKeeps(s: State)
    requires WakeOk(s) && TickOk(s) && s.loop.pc.Releasing?
    ensures TickOk(EarlyStep(s)) && WakeOk(EarlyStep(s))
  {
    assert MidCall(EarlyStep(s)) == MidCall(s);
  }

  lemma InitialWriteKeeps(s: State, ok: bool)
    requires WakeOk(s) && TickOk(s) && s.loop.pc.WritingInitial?
    ensures TickOk(WriteStep(s, ok)) && WakeOk(WriteStep(s, ok))
  {
  }

  lemma CompareKeeps(s: State, ok: bool)
    requires WakeOk(s) && TickOk(s) && s.loop.pc.Comparing? && (ok || s.loop.pc.snap.content == s.loop.lastWritten)
    ensures TickOk(WriteStep(s, ok)) && WakeOk(WriteStep(s, ok))
  {
    assert MidCall(WriteStep(s, ok)) == MidCall(s);
  }

  // A failed write leaves a stale file on record.
  lemma FailedWriteKeeps(s: State)
    requires WakeOk(s) && TickOk(s) && s.loop.pc.Comparing? && s.loop.pc.snap.content != s.loop.lastWritten
    ensures TickOk(WriteStep(s, false)) && WakeOk(WriteStep(s, false))
  {
    assert MidCall(WriteStep(s, false)) == MidCall(s);
  }

  // Without a child the loop nudges itself.
  lemma CheckKeeps(s: State, ok: bool)
    requires WakeOk(s) && TickOk(s) && s.loop.pc.Checking?
    ensures TickOk(ConfirmStep(s, ok)) && WakeOk(ConfirmStep(s, ok))
  {
    assert MidCall(ConfirmStep(s, ok)) == MidCall(s);
  }

  lemma HupKeeps(s: State, ok: bool)
    requires WakeOk(s) && TickOk(s) && s.loop.pc.Hupping?
    ensures TickOk(ConfirmStep(s, ok)) && WakeOk(ConfirmStep(s, ok))
  {
    assert MidCall(ConfirmStep(s, ok)) == MidCall(s);
  }

  lemma AwaitKeeps(s: State, ok: bool)
    requires WakeOk(s) && TickOk(s) && s.loop.pc.Awaiting?
    ensures TickOk(ConfirmStep(s, ok)) && WakeOk(ConfirmStep(s, ok))
  {
    assert MidCall(ConfirmStep(s, ok)) == MidCall(s);
  }

  // A timeout nudges the loop again.
  lemma TimeoutKeeps(s: State, ok: bool)
    requires WakeOk(s) && TickOk(s) && s.loop.pc.Blocked?
    ensures TickOk(ConfirmStep(s, ok)) && WakeOk(ConfirmStep(s, ok))
  {
    assert MidCall(ConfirmStep(s, ok)) == MidCall(s);
  }

  // After a report everything the snapshot held is settled.
  lemma ReportKeeps(s: State, ok: bool)
    requires WakeOk(s) && TickOk(s) && s.loop.pc.Reporting? && s.loop.confirmed
    requires s.loop.pc.snap.content == s.loop.lastWritten
    ensures TickOk(ReportStep(s, ok)) && WakeOk(ReportStep(s, ok))
  {
    assert MidCall(ReportStep(s, ok)) == MidCall(s);
  }

  lemma MarkGoesOn(s: State, ok: bool)
    requires WakeOk(s) && TickOk(s) && s.loop.pc.Marking? && s.feeds.current == s.loop.pc.snap.revision
    ensures TickOk(ReportStep(s, ok)) && WakeOk(ReportStep(s, ok))
  {
    assert MidCall(ReportStep(s, ok)) == MidCall(s);
  }

  lemma MarkDrops(s: State, ok: bool)
    requires WakeOk(s) && TickOk(s) && s.loop.pc.Marking? && s.feeds.current != s.loop.pc.snap.revision
    requires s.loop.confirmed && s.loop.pc.snap.content == s.loop.lastWritten
    ensures TickOk(ReportStep(s, ok)) && WakeOk(ReportStep(s, ok))
  {
    SettlesAfter(s, ReportStep(s, ok));
  }

  lemma PatchKeeps(s: State, ok: bool)
    requires WakeOk(s) && TickOk(s) && s.loop.pc.Patching? && s.loop.confirmed
    requires s.loop.pc.snap.content == s.loop.lastWritten
    ensures TickOk(ReportStep(s, ok)) && WakeOk(ReportStep(s, ok))
  {
    if ok { SettlesAfter(s, ReportStep(s, true)); } else { SettlesAfter(s, ReportStep(s, false)); }
  }

  // The tick ends with everything its snapshot held settled.
  lemma SettlesAfter(s: State, t: State)
    requires WakeOk(s) && TickOk(s) && (s.loop.pc.Marking? || s.loop.pc.Patching?) && s.loop.confirmed
    requires s.loop.pc.snap.content == s.loop.lastWritten
    requires t.loop == s.loop.(pc := Idle) && t.feeds == s.feeds && t.d == s.d && t.dirty == s.dirty
    requires t.h.nudged == s.h.nudged && t.h.writeFailed == s.h.writeFailed
    ensures TickOk(t) && WakeOk(t)
  {
    assert MidCall(t) == MidCall(s);
  }

  lemma LoopKeepsWake(s: State, ok: bool)
    requires Inv(s) && LoopEnabled(s, ok)
    ensures TickOk(DoLoopStep(s, ok)) && WakeOk(DoLoopStep(s, ok))
  {
    match s.loop.pc
    case Unstarted => StartKeeps(s);
    case Gated => StartKeeps(s);
    case Locking => SnapshotKeeps(s);
    case Releasing(_) => ReleaseKeeps(s);
    case WritingInitial(_) => InitialWriteKeeps(s, ok);
    case Comparing(snap) =>
      if ok || snap.content == s.loop.lastWritten { CompareKeeps(s, ok); } else { FailedWriteKeeps(s); }
    case Checking(_) => CheckKeeps(s, ok);
    case Hupping(_, _) => HupKeeps(s, ok);
    case Awaiting(_, _) => AwaitKeeps(s, ok);
    case Blocked(_, _, _) => TimeoutKeeps(s, ok);
    case Reporting(_) => ReportKeeps(s, ok);
    case Marking(snap) =>
      if s.feeds.current == snap.revision { MarkGoesOn(s, ok); } else { MarkDrops(s, ok); }
    case Patching(_) => PatchKeeps(s, ok);
    case Idle => ReceiveKeeps(s);
    case Debouncing => DebounceKeeps(s);
    case Draining => DrainKeeps(s);
  }

  lemma StepKeeps(s: State, a: Action)
    requires Inv(s) && Enabled(s, a)
    ensures Inv(Do(s, a))
  {
    LoopOkStep(s, a);
    if !a.LoopStep? { TickStep(s, a); }
    match a
    case MachineEvent(_, _) => CacheKeepsWake(s, a);
    case SyncCache => CacheKeepsWake(s, a);
    case CacheStep => CacheKeepsWake(s, a);
    case BeginPush(_, _, _) => BeginPushKeepsWake(s, a);
    case PusherStep(id, hint) => PusherKeepsWake(s, id, hint);
    case LoopStep(ok) => LoopKeepsWake(s, ok);
    case Cancel =>
    case _ => ChildKeepsWake(s, a);
  }

  lemma {:induction false} RunKeeps(s: State, run: seq<Action>)
    requires Inv(s) && IsRun(s, run)
    ensures Inv(End(s, run))
    decreases |run|
  {
    if run != [] {
      StepKeeps(s, run[0]);
      RunKeeps(Do(s, run[0]), run[1..]);
    }
  }

  // ----- the theorems -----

  /** Once a setter has completed, whenever the loop is idle with no token and no setter mid-call,
      everything is settled exactly when the last tick did not fail to write the file. */
  lemma {:induction false} NoLostWakeup(cfg: Config, run: seq<Action>)
    requires IsRun(Initial(cfg), run)
    ensures var s := End(Initial(cfg), run);
            Quiet(s) && s.h.nudged ==> (Settled(s) <==> !s.h.writeFailed)
  {
    RunKeeps(Initial(cfg), run);
  }

  /** A waiter for a read confirmation that nobody woke has no confirming read to miss. */
  lemma {:induction false} NoMissedRead(cfg: Config, run: seq<Action>)
    requires IsRun(Initial(cfg), run)
    ensures var s := End(Initial(cfg), run);
            s.loop.pc.Blocked? && !s.loop.pc.woken ==> s.seen.armed && !ReadAfter(s.seen, s.loop.pc.baseline)
  {
    RunKeeps(Initial(cfg), run);
  }

  // ----- the exception is real -----

  ghost predicate Reachable(cfg: Config, s: State) {
    exists run :: IsRun(Initial(cfg), run) && End(Initial(cfg), run) == s
  }

  lemma {:induction false} AppendStep(s: State, run: seq<Action>, a: Action)
    requires IsRun(s, run) && Enabled(End(s, run), a)
    ensures IsRun(s, run + [a]) && End(s, run + [a]) == Do(End(s, run), a)
    decreases |run|
  {
    if run == [] {
      assert [] + [a] == [a] && [a][1..] == [];
      assert IsRun(Do(s, a), []);
    } else {
      assert (run + [a])[1..] == run[1..] + [a];
      AppendStep(Do(s, run[0]), run[1..], a);
    }
  }

  lemma Reach(cfg: Config, s: State, a: Action, t: State)
    requires Reachable(cfg, s) && Enabled(s, a) && Do(s, a) == t
    ensures Reachable(cfg, t)
  {
    var run :| IsRun(Initial(cfg), run) && End(Initial(cfg), run) == s;
    AppendStep(Initial(cfg), run, a);
  }

  // Start without lease mode, up to the idle loop.
  lemma Boots(cfg: Config) returns (t: State)
    requires !cfg.leaseMode
    ensures Reachable(cfg, t)
    ensures t == GoTo(WriteFile(Initial(cfg), ""), Idle)
  {
    var s := Initial(cfg);
    assert IsRun(s, []) && End(s, []) == s;
    assert Render([], map[]) == "";
    Reach(cfg, s, LoopStep(true), GoTo(s, WritingInitial("")));
    t := GoTo(WriteFile(s, ""), Idle);
    Reach(cfg, GoTo(s, WritingInitial("")), LoopStep(true), t);
  }

  // One Machine is seen before the sync.
  lemma SeesMachine(cfg: Config, s: State, mac: string) returns (t: State)
    requires Reachable(cfg, s) && s.cfg == cfg && s.feeds == Initial(cfg).feeds && IsNormalized(mac)
    ensures Reachable(cfg, t) && Enrolled(t.feeds.records) == {mac}
    ensures t == s.(feeds := s.feeds.(records := t.feeds.records, synced := true, cachePc := Pushing))
  {
    var rec := Record(mac, false);
    var records := map["default/node-1" := rec];
    assert SetRecord(s.feeds.records, "default/node-1", Some(rec)) == records;
    var s1 := s.(feeds := s.feeds.(records := records, cachePc := Pushing));
    Reach(cfg, s, MachineEvent("default/node-1", Some(rec)), s1);
    var s2 := s1.(feeds := s1.feeds.(cachePc := Free));
    Reach(cfg, s1, CacheStep, s2);
    t := s1.(feeds := s1.feeds.(synced := true));
    Reach(cfg, s2, SyncCache, t);
    assert records["default/node-1"].mac == mac;
    assert Enrolled(records) == {mac};
  }

  // The first push names that Machine's MAC.
  lemma Enrolls(cfg: Config, s: State, mac: string) returns (t: State)
    requires Reachable(cfg, s) && !cfg.leaseMode && s.cfg == cfg && s.feeds == Initial(cfg).feeds && IsNormalized(mac)
    ensures Reachable(cfg, t) && t.loop == s.loop && t.d == s.d.(macs := Listing({mac})) && t.dirty && t.h.nudged
    ensures t.feeds.cachePc == Free && t.feeds.pushers == map[]
  {
    var s3 := SeesMachine(cfg, s, mac);
    Pushes(s3, mac);
    var s4 := DoCacheStep(s3);
    Reach(cfg, s3, CacheStep, s4);
    var s5 := s4.(feeds := s4.feeds.(cachePc := Nudging), firstMacs := true);
    Reach(cfg, s4, CacheStep, s5);
    t := s5.(feeds := s5.feeds.(cachePc := Free), dirty := true, h := s5.h.(nudged := true));
    Reach(cfg, s5, CacheStep, t);
  }

  lemma Pushes(s: State, mac: string)
    requires s.feeds.synced && s.feeds.cachePc == Pushing && Enrolled(s.feeds.records) == {mac} && !s.cfg.leaseMode
    ensures DoCacheStep(s) == s.(feeds := s.feeds.(cachePc := Opening), d := s.d.(macs := Listing({mac})),
                                 h := Log(s.h, Allowed(Listing({mac}))))
  {
    assert s.h.dropped + [] == s.h.dropped && s.h.queued + [] == s.h.queued;
  }

  lemma TakesToken(cfg: Config, s: State) returns (t: State)
    requires Reachable(cfg, s) && s.loop.pc.Idle? && s.dirty
    ensures Reachable(cfg, t) && t == GoTo(s, Locking).(dirty := false)
  {
    var s1 := GoTo(s, Debouncing).(dirty := false);
    Reach(cfg, s, LoopStep(true), s1);
    var s2 := GoTo(s1, Draining);
    Reach(cfg, s1, LoopStep(true), s2);
    t := GoTo(s2, Locking);
    Reach(cfg, s2, LoopStep(true), t);
  }

  lemma Snaps(cfg: Config, s: State) returns (t: State)
    requires Reachable(cfg, s) && s.loop.pc.Locking?
    ensures Reachable(cfg, t)
    ensures t == GoTo(s, Releasing(TakeSnapshot(s))).(d := s.d.(pending := []), h := s.h.(writeFailed := false))
  {
    t := EarlyStep(s);
    Reach(cfg, s, LoopStep(true), t);
  }

  lemma HandsOn(cfg: Config, s: State) returns (t: State)
    requires Reachable(cfg, s) && s.loop.pc.Releasing?
    ensures Reachable(cfg, t)
    ensures t == GoTo(s, Comparing(s.loop.pc.snap)).(h := s.h.(released := s.h.released + s.loop.pc.snap.toRelease))
  {
    t := EarlyStep(s);
    Reach(cfg, s, LoopStep(true), t);
  }

  // A tick whose write fails, with nothing else going on.
  lemma FailsToWrite(cfg: Config, s: State) returns (t: State)
    requires Reachable(cfg, s) && s.loop.pc.Idle? && s.dirty
    requires s.loop.lastWritten != Render(s.d.macs, s.d.reservations)
    ensures Reachable(cfg, t) && t.loop.pc.Idle? && !t.dirty && t.feeds == s.feeds && t.h.nudged == s.h.nudged
    ensures t.h.writeFailed
  {
    var s3 := TakesToken(cfg, s);
    var s4 := Snaps(cfg, s3);
    var s5 := HandsOn(cfg, s4);
    t := WriteStep(s5, false);
    Reach(cfg, s5, LoopStep(false), t);
  }

  /** For any MAC there is a run that ends quiet with a stale file, because the last write failed and nothing nudged
      the loop. */
  lemma FailedWriteStaysStale(mac: string) returns (cfg: Config, s: State)
    requires IsNormalized(mac)
    ensures Reachable(cfg, s) && Quiet(s) && s.h.nudged && s.h.writeFailed && !Settled(s)
  {
    cfg := Config(false, false);
    var s1 := Boots(cfg);
    var s2 := Enrolls(cfg, s1, mac);
    assert mac in Elements(s2.d.macs);
    RenderNotEmpty(s2.d.macs, s2.d.reservations, mac);
    s := FailsToWrite(cfg, s2);
    var run :| IsRun(Initial(cfg), run) && End(Initial(cfg), run) == s;
    NoLostWakeup(cfg, run);
  }

  lemma RenderNotEmpty(macs: seq<string>, reservations: map<string, string>, mac: string)
    requires mac in Elements(macs)
    ensures Render(macs, reservations) != ""
  {
    var sorted := SortedSet(macs);
    assert mac in Elements(sorted);
    assert |Line(sorted[0], reservations)| > 0;
  }
}
