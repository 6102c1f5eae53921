// bootd as a step system: the Machine cache, any number of Subnet pushers, the
// hostsfile loop and the dnsmasq child, interleaved at every lock and select.
module Bootd {
  import opened Common
  import opened Text
  import opened Mac
  import opened Hostsfile
  import opened MacCache
  import opened Supervisor

  // Progress of whoever holds MACCache.mu: it changed the records and must
  // push, or it pushed and must still close the first-allowlist channel and nudge the loop.
  datatype CachePc = Free | Pushing | Opening | Nudging

  // Progress of one SubnetDHCPCache.push; at is its place among the pushes begun, push where in the log it stored.
  datatype PusherPc =
    | Computed(revision: string, reservations: map<string, string>, at: nat)
    | Sifting(todo: set<string>, found: seq<string>, push: nat)
    | Queueing(found: seq<string>, push: nat)
    | Signalling

  // What one tick of the loop works from. macs, reservations and push (where in
  // the log the reservations were stored) are recorded for the proofs.
  datatype Snapshot = Snapshot(
    content: string, child: Option<nat>, revision: string, revSet: bool, toRelease: seq<string>,
    macs: seq<string>, reservations: map<string, string>, push: nat)

  datatype LoopPc =
    | Unstarted
    | WritingInitial(content: string)
    | Gated
    | Idle
    | Debouncing
    | Draining
    | Locking
    | Releasing(snap: Snapshot)
    | Comparing(snap: Snapshot)
    | Checking(snap: Snapshot)
    | Hupping(snap: Snapshot, baseline: nat)
    | Awaiting(snap: Snapshot, baseline: nat)
    | Blocked(snap: Snapshot, baseline: nat, woken: bool)
    | Reporting(snap: Snapshot)
    | Marking(snap: Snapshot)
    | Patching(snap: Snapshot)
    | Stopped

  // What has happened. Applied and Patched name the log position of the push they report.
  datatype Event =
    | Allowed(macs: seq<string>)
    | Reserved(revision: string, reservations: map<string, string>)
    | Wrote(content: string)
    | Read(content: string)
    | Applied(revision: string, push: nat)
    | Patched(revision: string, push: nat)

  datatype Config = Config(leaseMode: bool, subnetMember: bool)

  // The Machine cache and the Subnet pushers.
  datatype Feeds = Feeds(
    records: map<string, Record>, synced: bool, cachePc: CachePc,
    current: string, pushers: map<nat, PusherPc>)

  // The loop's own variables and the file.
  datatype Loop = Loop(
    pc: LoopPc, lastWritten: string, confirmed: bool, lastApplied: Option<string>, file: string)

  // The revisions of the pushes begun so far, in order; which of them was stored last; and
  // whether the last report was dropped by MarkApplied as stale, or its status patch failed.
  datatype Acks = Acks(begun: seq<string>, stored: Option<nat>, dropped: bool, refused: bool)

  // A SubnetMember query of the push stored at this log position, with what the cache knew then, and a MAC
  // such a push queued for release.
  datatype Query = Query(push: nat, mac: string, synced: bool, records: map<string, Record>)

  datatype Release = Release(push: nat, mac: string)

  datatype Sift = Sift(asked: seq<Query>, queued: seq<Release>)

  function Tagged(macs: seq<string>, push: nat): (r: seq<Release>)
    ensures |r| == |macs| && forall i :: 0 <= i < |r| ==> r[i] == Release(push, macs[i])
  {
    seq(|macs|, i requires 0 <= i < |macs| => Release(push, macs[i]))
  }

  // History. gone: MACs whose last claimant left after sync; dropped: MACs the
  // allowlist path queued; queued and released: all MACs queued, and handed to
  // releaseLeases; lastPush, appliedPush, wroteAt: log positions.
  datatype History = History(
    log: seq<Event>, gone: multiset<string>, dropped: seq<string>, queued: seq<string>, released: seq<string>,
    lastPush: nat, appliedPush: nat, wroteAt: nat, nudged: bool, writeFailed: bool,
    acks: Acks, sift: Sift)

  datatype State = State(
    cfg: Config, feeds: Feeds, d: Shared, dirty: bool, firstMacs: bool, seen: Reads,
    loop: Loop, h: History)

  datatype Action =
    // a Machine event under MACCache.mu, the informer's first sync, and the rest of the lock holder's work
    | MachineEvent(key: string, record: Option<Record>)
    | SyncCache
    | CacheStep
    // a push from the Subnet informer or the resync ticker; hint picks the next MAC of a map range
    | BeginPush(id: nat, revision: string, reservations: map<string, string>)
    | PusherStep(id: nat, hint: string)
    // the dnsmasq child
    | ChildStarts(pid: nat)
    | ChildExits
    | ChildReads
    // the loop; ok says whether the external call succeeds
    | LoopStep(ok: bool)
    | Cancel

  // ----- steps of the feeds -----

  ghost function Log(h: History, e: Event): History {
    h.(log := h.log + [e])
  }

  ghost function SetRecord(records: map<string, Record>, key: string, record: Option<Record>): map<string, Record> {
    match record
    case None => records - {key}
    case Some(r) => records[key := r]
  }

  ghost function DoMachineEvent(s: State, key: string, record: Option<Record>): State {
    var records := SetRecord(s.feeds.records, key, record);
    var left := Enrolled(s.feeds.records) - Enrolled(records);
    s.(feeds := s.feeds.(records := records, cachePc := Pushing),
       h := if s.feeds.synced && s.cfg.leaseMode then s.h.(gone := s.h.gone + multiset(left)) else s.h)
  }

  ghost function DoCacheStep(s: State): State {
    if s.feeds.cachePc == Pushing then
      if !s.feeds.synced then s.(feeds := s.feeds.(cachePc := Free)) else
        var macs := Listing(Enrolled(s.feeds.records));
        var dropped := if s.cfg.leaseMode then MacDiff(s.d.macs, macs) else [];
        s.(feeds := s.feeds.(cachePc := Opening),
           d := StoreMacs(s.d, macs, s.cfg.leaseMode),
           h := Log(s.h, Allowed(macs)).(dropped := s.h.dropped + dropped, queued := s.h.queued + dropped))
    else if s.feeds.cachePc == Opening then
      s.(feeds := s.feeds.(cachePc := Nudging), firstMacs := true)
    else
      s.(feeds := s.feeds.(cachePc := Free), dirty := true, h := s.h.(nudged := true))
  }

  // HasLocalMember
  ghost predicate IsMember(s: State, mac: string) {
    s.feeds.synced && Claimants(s.feeds.records, mac, true) != {}
  }

  ghost function SetPusher(s: State, id: nat, p: PusherPc): State {
    s.(feeds := s.feeds.(pushers := s.feeds.pushers[id := p]))
  }

  // A member query takes MACCache.mu only once the cache has synced.
  ghost predicate PusherEnabled(s: State, id: nat, hint: string) {
    && id in s.feeds.pushers
    && var p := s.feeds.pushers[id];
       p.Sifting? && p.todo != {} ==> hint in p.todo && (s.feeds.synced ==> s.feeds.cachePc == Free)
  }

  ghost function DoPusherStep(s: State, id: nat, hint: string): State
    requires PusherEnabled(s, id, hint)
  {
    match s.feeds.pushers[id]
    case Computed(revision, reservations, at) =>
      var next := if s.cfg.leaseMode && s.cfg.subnetMember then Sifting(Unreserved(s.d, reservations), [], |s.h.log|)
        else Signalling;
      SetPusher(s, id, next).(
        d := StoreReservations(s.d, revision, reservations),
        h := Log(s.h, Reserved(revision, reservations)).(lastPush := |s.h.log|, acks := s.h.acks.(stored := Some(at))))
    case Sifting(todo, found, push) =>
      if todo != {} then
        var q := Query(push, hint, s.feeds.synced, s.feeds.records);
        SetPusher(s, id, Sifting(todo - {hint}, if IsMember(s, hint) then found else found + [hint], push)).(
          h := s.h.(sift := s.h.sift.(asked := s.h.sift.asked + [q])))
      else SetPusher(s, id, if found == [] then Signalling else Queueing(found, push))
    case Queueing(found, push) =>
      SetPusher(s, id, Signalling).(
        d := QueueReleases(s.d, found),
        h := s.h.(queued := s.h.queued + found, sift := s.h.sift.(queued := s.h.sift.queued + Tagged(found, push))))
    case Signalling =>
      s.(feeds := s.feeds.(pushers := s.feeds.pushers - {id}), dirty := true, h := s.h.(nudged := true))
  }

  // ----- the child -----

  // Start is past its startup gate and not cancelled.
  ghost predicate Launched(s: State) {
    !s.loop.pc.Unstarted? && !s.loop.pc.WritingInitial? && !s.loop.pc.Gated? && !s.loop.pc.Stopped?
  }

  // A child reads the whole current file (it is replaced by rename) and the read is noted.
  ghost function DoRead(s: State): State {
    var pc := if s.seen.armed && s.loop.pc.Blocked? then s.loop.pc.(woken := true) else s.loop.pc;
    s.(seen := NoteRead(s.seen), loop := s.loop.(pc := pc), h := Log(s.h, Read(s.loop.file)))
  }

  // ----- steps of the hostsfile loop -----

  ghost function GoTo(s: State, pc: LoopPc): State {
    s.(loop := s.loop.(pc := pc))
  }

  ghost function WriteFile(s: State, content: string): State {
    s.(loop := s.loop.(file := content, lastWritten := content, confirmed := false),
       h := Log(s.h, Wrote(content)).(wroteAt := |s.h.log|))
  }

  ghost function TakeSnapshot(s: State): Snapshot {
    Snapshot(Render(s.d.macs, s.d.reservations), s.d.child, s.d.revision, s.d.revSet, s.d.pending,
             s.d.macs, s.d.reservations, s.h.lastPush)
  }

  // The loop's program points by what their steps do.
  ghost predicate EarlyPc(pc: LoopPc) {
    pc.Unstarted? || pc.Gated? || pc.Idle? || pc.Debouncing? || pc.Draining? || pc.Locking? || pc.Releasing?
  }

  ghost predicate WritePc(pc: LoopPc) {
    pc.WritingInitial? || pc.Comparing?
  }

  ghost predicate ConfirmPc(pc: LoopPc) {
    pc.Checking? || pc.Hupping? || pc.Awaiting? || pc.Blocked?
  }

  ghost predicate ReportPc(pc: LoopPc) {
    pc.Reporting? || pc.Marking? || pc.Patching?
  }

  // A tick holds a snapshot.
  ghost predicate InTick(pc: LoopPc) {
    pc.Releasing? || pc.Comparing? || ConfirmPc(pc) || ReportPc(pc)
  }

  ghost predicate LoopEnabled(s: State, ok: bool) {
    match s.loop.pc
    case Gated => s.firstMacs
    case Idle => s.dirty
    case Blocked(_, _, woken) => ok ==> woken
    case Stopped => false
    case _ => true
  }

  ghost function DoLoopStep(s: State, ok: bool): State
    requires LoopEnabled(s, ok)
  {
    if WritePc(s.loop.pc) then WriteStep(s, ok)
    else if ConfirmPc(s.loop.pc) then ConfirmStep(s, ok)
    else if ReportPc(s.loop.pc) then ReportStep(s, ok)
    else EarlyStep(s)
  }

  // Up to the snapshot and the releases it carries.
  ghost function EarlyStep(s: State): State
    requires EarlyPc(s.loop.pc)
  {
    match s.loop.pc
    case Unstarted => GoTo(s, WritingInitial(Render(s.d.macs, s.d.reservations)))
    case Gated => GoTo(s, Idle)
    case Idle => GoTo(s, Debouncing).(dirty := false)
    case Debouncing => GoTo(s, Draining)
    case Draining => GoTo(s, Locking).(dirty := false)
    case Locking =>
      GoTo(s, Releasing(TakeSnapshot(s))).(d := s.d.(pending := []), h := s.h.(writeFailed := false))
    case Releasing(snap) => GoTo(s, Comparing(snap)).(h := s.h.(released := s.h.released + snap.toRelease))
  }

  // The writes of the file.
  ghost function WriteStep(s: State, ok: bool): State
    requires WritePc(s.loop.pc)
  {
    match s.loop.pc
    case WritingInitial(content) =>
      if ok then GoTo(WriteFile(s, content), if s.cfg.leaseMode then Gated else Idle) else GoTo(s, Stopped)
    case Comparing(snap) =>
      if snap.content == s.loop.lastWritten then GoTo(s, Checking(snap))
      else if ok then GoTo(WriteFile(s, snap.content), Checking(snap))
      else GoTo(s, Idle).(h := s.h.(writeFailed := true))
  }

  // SIGHUP and the wait for a confirming read.
  ghost function ConfirmStep(s: State, ok: bool): State
    requires ConfirmPc(s.loop.pc)
  {
    match s.loop.pc
    case Checking(snap) =>
      if s.loop.confirmed then GoTo(s, Reporting(snap))
      else if snap.child.None? then GoTo(s, Idle).(dirty := true)
      else GoTo(s, Hupping(snap, s.seen.count))
    case Hupping(snap, baseline) =>
      if ok then GoTo(s, Awaiting(snap, baseline)) else GoTo(s, Idle).(dirty := true)
    case Awaiting(snap, baseline) =>
      var t := s.(seen := AwaitRead(s.seen, baseline));
      if ReadAfter(s.seen, baseline) then t.(loop := t.loop.(pc := Reporting(snap), confirmed := true))
      else GoTo(t, Blocked(snap, baseline, false))
    case Blocked(snap, baseline, _) =>
      if ok then GoTo(s, Awaiting(snap, baseline)) else GoTo(s, Idle).(dirty := true)
  }

  // OnApplied, and the MarkApplied it is wired to.
  ghost function ReportStep(s: State, ok: bool): State
    requires ReportPc(s.loop.pc)
  {
    match s.loop.pc
    case Reporting(snap) =>
      if snap.revSet && s.loop.lastApplied != Some(snap.revision) then
        s.(loop := s.loop.(pc := Marking(snap), lastApplied := Some(snap.revision)),
           h := Log(s.h, Applied(snap.revision, snap.push)).(
             appliedPush := snap.push, acks := s.h.acks.(dropped := false, refused := false)))
      else GoTo(s, Idle)
    case Marking(snap) =>
      if s.feeds.current == snap.revision then GoTo(s, Patching(snap))
      else GoTo(s, Idle).(h := s.h.(acks := s.h.acks.(dropped := true)))
    case Patching(snap) =>
      if ok then GoTo(s, Idle).(h := Log(s.h, Patched(snap.revision, snap.push)))
      else GoTo(s, Idle).(h := s.h.(acks := s.h.acks.(refused := true)))
  }

  // ----- all steps -----

  ghost predicate Enabled(s: State, a: Action) {
    match a
    case MachineEvent(_, record) => s.feeds.cachePc == Free && (record.Some? ==> IsNormalized(record.value.mac))
    case SyncCache => s.feeds.cachePc == Free && !s.feeds.synced
    case CacheStep => s.feeds.cachePc != Free
    case BeginPush(id, _, _) => id !in s.feeds.pushers
    case PusherStep(id, hint) => PusherEnabled(s, id, hint)
    case ChildStarts(_) => s.d.child.None? && Launched(s)
    case ChildExits => s.d.child.Some?
    case ChildReads => Launched(s)
    case LoopStep(ok) => LoopEnabled(s, ok)
    // ctx.Done is looked at only in these selects
    case Cancel => s.loop.pc.Gated? || s.loop.pc.Idle? || s.loop.pc.Debouncing? || s.loop.pc.Blocked?
  }

  ghost function Do(s: State, a: Action): State
    requires Enabled(s, a)
  {
    match a
    case MachineEvent(key, record) => DoMachineEvent(s, key, record)
    case SyncCache => s.(feeds := s.feeds.(synced := true, cachePc := Pushing))
    case CacheStep => DoCacheStep(s)
    case BeginPush(id, revision, reservations) =>
      var acks := s.h.acks.(begun := s.h.acks.begun + [revision]);
      SetPusher(s.(feeds := s.feeds.(current := revision), h := s.h.(acks := acks)), id,
                Computed(revision, reservations, |s.h.acks.begun|))
    case PusherStep(id, hint) => DoPusherStep(s, id, hint)
    case ChildStarts(pid) => s.(d := s.d.(child := Some(pid)))
    case ChildExits => s.(d := s.d.(child := None))
    case ChildReads => DoRead(s)
    case LoopStep(ok) => DoLoopStep(s, ok)
    case Cancel => GoTo(s, Stopped)
  }

  ghost function Initial(cfg: Config): State {
    State(cfg, Feeds(map[], false, Free, "", map[]), Shared([], map[], "", false, None, []), false, false, NO_READS,
          Loop(Unstarted, "", false, None, ""),
          History([], multiset{}, [], [], [], 0, 0, 0, false, false, Acks([], None, false, false), Sift([], [])))
  }

  ghost predicate IsRun(s: State, run: seq<Action>)
    decreases |run|
  {
    run == [] || (Enabled(s, run[0]) && IsRun(Do(s, run[0]), run[1..]))
  }

  ghost function End(s: State, run: seq<Action>): State
    requires IsRun(s, run)
    decreases |run|
  {
    if run == [] then s else End(Do(s, run[0]), run[1..])
  }

  lemma ConfirmLeavesFeeds(s: State, ok: bool)
    requires ConfirmPc(s.loop.pc)
    ensures ConfirmStep(s, ok).feeds == s.feeds && ConfirmStep(s, ok).cfg == s.cfg
  {
  }

  lemma LoopLeavesFeeds(s: State, ok: bool)
    requires LoopEnabled(s, ok)
    ensures DoLoopStep(s, ok).feeds == s.feeds && DoLoopStep(s, ok).cfg == s.cfg
  {
    if ConfirmPc(s.loop.pc) { ConfirmLeavesFeeds(s, ok); }
  }

  lemma StepKeepsConfig(s: State, a: Action)
    requires Enabled(s, a)
    ensures Do(s, a).cfg == s.cfg
  {
    if a.LoopStep? { LoopLeavesFeeds(s, a.ok); }
  }

  lemma {:induction false} ConfigStays(s: State, run: seq<Action>)
    requires IsRun(s, run)
    ensures End(s, run).cfg == s.cfg
    decreases |run|
  {
    if run != [] {
      StepKeepsConfig(s, run[0]);
      ConfigStays(Do(s, run[0]), run[1..]);
    }
  }

  // ----- the cache's handlers are steps -----

  // The step an informer event amounts to; an event the handlers ignore is none.
  ghost function StepOf(own: Subnet, e: MacCache.Event): Option<Action> {
    match e
    case Added(IsMachine(m)) => Some(MachineEvent(KeyOf(m), RecordOf(own, m)))
    case Updated(IsMachine(before), IsMachine(after)) => Some(MachineEvent(KeyOf(before), RecordOf(own, after)))
    case Deleted(IsMachine(m)) => Some(MachineEvent(KeyOf(m), None))
    case Deleted(Tombstone(IsMachine(m))) => Some(MachineEvent(KeyOf(m), None))
    case _ => None
  }

  /** What a MACCache handler does to the index is an enabled step here, with the lock free: the records it
      leaves are those of the Machines it then knows. */
  lemma HandlerIsStep(s: State, own: Subnet, machines: map<string, Machine>, e: MacCache.Event)
    requires s.feeds.cachePc == Free && s.feeds.records == RecordsOf(own, machines)
    ensures match StepOf(own, e)
            case None => MachinesAfter(machines, e) == machines
            case Some(a) => Enabled(s, a) && Do(s, a).feeds.records == RecordsOf(own, MachinesAfter(machines, e))
  {
    match e
    case Added(IsMachine(m)) => StoredIsStep(s, own, machines, KeyOf(m), m);
    case Updated(IsMachine(before), IsMachine(after)) => StoredIsStep(s, own, machines, KeyOf(before), after);
    case Deleted(IsMachine(m)) => RecordsWithout(own, machines, KeyOf(m));
    case Deleted(Tombstone(IsMachine(m))) => RecordsWithout(own, machines, KeyOf(m));
    case _ =>
  }

  lemma StoredIsStep(s: State, own: Subnet, machines: map<string, Machine>, key: string, m: Machine)
    requires s.feeds.cachePc == Free && s.feeds.records == RecordsOf(own, machines)
    ensures var a := MachineEvent(key, RecordOf(own, m));
            Enabled(s, a) && Do(s, a).feeds.records == RecordsOf(own, machines[key := m])
  {
    var after := machines[key := m];
    RecordsWith(own, machines, key, m);
    RecordsAreNormalized(own, after);
    if RecordOf(own, m).Some? { assert RecordsOf(own, after)[key] == RecordOf(own, m).value; }
  }

  // ----- the loop's own bookkeeping -----

  // A child has read the current file since it was written.
  ghost predicate ReadSince(s: State) {
    exists r :: s.h.wroteAt < r < |s.h.log| && s.h.log[r] == Read(s.loop.file)
  }

  ghost predicate FileLogged(s: State) {
    && s.loop.lastWritten == s.loop.file
    && s.h.wroteAt < |s.h.log| && s.h.log[s.h.wroteAt] == Wrote(s.loop.file)
    && (forall i :: s.h.wroteAt < i < |s.h.log| ==> !s.h.log[i].Wrote?)
  }

  // lastWritten is the file, confirmed means read since, and the read counter
  // passing the baseline means the same; a waiter nobody woke has nothing to miss.
  ghost predicate LoopOk(s: State) {
    var pc := s.loop.pc;
    && (pc.Unstarted? || pc.WritingInitial? ==> !s.loop.confirmed)
    && (pc.Gated? || Launched(s) ==> FileLogged(s) && (s.loop.confirmed ==> ReadSince(s)))
    && (ConfirmPc(pc) || ReportPc(pc) ==> pc.snap.content == s.loop.lastWritten)
    && (pc.Hupping? || pc.Awaiting? || pc.Blocked? ==>
          pc.baseline <= s.seen.count && (s.seen.count > pc.baseline ==> ReadSince(s)))
    && (pc.Blocked? && !pc.woken ==> s.seen.armed && s.seen.count == pc.baseline)
    && (ReportPc(pc) ==> s.loop.confirmed)
  }

  // Appending anything but a write keeps what the log says about the file.
  lemma LogKeepsFile(s: State, t: State, e: Event)
    requires t.h.log == s.h.log + [e] && !e.Wrote? && t.h.wroteAt == s.h.wroteAt && t.loop.file == s.loop.file
    requires t.loop.lastWritten == s.loop.lastWritten
    ensures FileLogged(s) ==> FileLogged(t)
    ensures ReadSince(s) ==> ReadSince(t)
    ensures FileLogged(s) && e == Read(s.loop.file) ==> ReadSince(t)
  {
    if ReadSince(s) {
      var r :| s.h.wroteAt < r < |s.h.log| && s.h.log[r] == Read(s.loop.file);
      assert t.h.log[r] == Read(t.loop.file);
    }
    if FileLogged(s) && e == Read(s.loop.file) {
      assert t.h.log[|s.h.log|] == Read(t.loop.file);
    }
  }

  // t's log is s's, or s's plus one event other than a write.
  ghost predicate LogGrows(s: State, t: State) {
    t.h.log == s.h.log || (|t.h.log| == |s.h.log| + 1 && t.h.log[..|s.h.log|] == s.h.log && !t.h.log[|s.h.log|].Wrote?)
  }

  // Steps that leave the loop and the read counter alone.
  lemma LoopUntouched(s: State, t: State)
    requires LoopOk(s) && t.loop == s.loop && t.seen == s.seen
    requires t.h.wroteAt == s.h.wroteAt && LogGrows(s, t)
    ensures LoopOk(t)
  {
    if t.h.log != s.h.log {
      var e := t.h.log[|s.h.log|];
      assert t.h.log == s.h.log + [e];
      LogKeepsFile(s, t, e);
    }
    assert t.h.log == s.h.log ==> (ReadSince(s) <==> ReadSince(t));
  }

  lemma ReadKeeps(s: State)
    requires LoopOk(s) && Launched(s)
    ensures LoopOk(DoRead(s))
  {
    LogKeepsFile(s, DoRead(s), Read(s.loop.file));
  }

  lemma WriteKeeps(s: State, content: string, pc: LoopPc)
    requires pc == Gated || pc == Idle || (pc.Checking? && pc.snap.content == content)
    ensures LoopOk(GoTo(WriteFile(s, content), pc))
  {
    var t := GoTo(WriteFile(s, content), pc);
    assert t.h.log[|s.h.log|] == Wrote(content);
  }

  // Loop steps that write nothing to the log or the file.
  lemma SilentLoopKeeps(s: State, t: State)
    requires LoopOk(s) && t.h.log == s.h.log && t.h.wroteAt == s.h.wroteAt
    requires t.loop.file == s.loop.file && t.loop.lastWritten == s.loop.lastWritten
    ensures ReadSince(s) == ReadSince(t) && FileLogged(s) == FileLogged(t)
  {
  }

  // Moves between program points that promise nothing about the file beyond what s had.
  lemma PlainMoveKeeps(s: State, t: State)
    requires LoopOk(s) && (s.loop.pc.Gated? || Launched(s))
    requires t.loop == s.loop.(pc := t.loop.pc) && t.h.log == s.h.log && t.h.wroteAt == s.h.wroteAt
    requires t.loop.pc.Releasing? || t.loop.pc.Comparing? || t.loop.pc.Idle? || t.loop.pc.Debouncing?
             || t.loop.pc.Draining? || t.loop.pc.Locking?
    ensures LoopOk(t)
  {
    assert ReadSince(s) ==> ReadSince(t);
  }

  lemma EarlyStepKeeps(s: State)
    requires LoopOk(s) && EarlyPc(s.loop.pc)
    ensures LoopOk(EarlyStep(s))
  {
    if !s.loop.pc.Unstarted? { PlainMoveKeeps(s, EarlyStep(s)); }
  }

  lemma WriteStepKeeps(s: State, ok: bool)
    requires LoopOk(s) && WritePc(s.loop.pc)
    ensures LoopOk(WriteStep(s, ok))
  {
    var t := WriteStep(s, ok);
    match s.loop.pc
    case WritingInitial(content) =>
      if ok { WriteKeeps(s, content, if s.cfg.leaseMode then Gated else Idle); }
    case Comparing(snap) =>
      if snap.content != s.loop.lastWritten && ok {
        WriteKeeps(s, snap.content, Checking(snap));
      } else {
        SilentLoopKeeps(s, t);
      }
  }

  lemma ConfirmStepKeeps(s: State, ok: bool)
    requires LoopOk(s) && ConfirmPc(s.loop.pc)
    ensures LoopOk(ConfirmStep(s, ok))
  {
    SilentLoopKeeps(s, ConfirmStep(s, ok));
  }

  lemma ReportStepKeeps(s: State, ok: bool)
    requires LoopOk(s) && ReportPc(s.loop.pc)
    ensures LoopOk(ReportStep(s, ok))
  {
    var t := ReportStep(s, ok);
    var snap := s.loop.pc.snap;
    if t.loop.pc.Marking? {
      LogKeepsFile(s, t, Applied(snap.revision, snap.push));
    } else if s.loop.pc.Patching? && ok {
      LogKeepsFile(s, t, Patched(snap.revision, snap.push));
    } else {
      SilentLoopKeeps(s, t);
    }
  }

  lemma LoopStepKeeps(s: State, ok: bool)
    requires LoopOk(s) && LoopEnabled(s, ok)
    ensures LoopOk(DoLoopStep(s, ok))
  {
    var pc := s.loop.pc;
    if WritePc(pc) {
      WriteStepKeeps(s, ok);
    } else if ReportPc(pc) {
      ReportStepKeeps(s, ok);
    } else if ConfirmPc(pc) {
      ConfirmStepKeeps(s, ok);
    } else {
      EarlyStepKeeps(s);
    }
  }

  lemma CacheLeavesLoop(s: State)
    requires LoopOk(s) && s.feeds.cachePc != Free
    ensures LoopOk(DoCacheStep(s))
  {
    LoopUntouched(s, DoCacheStep(s));
  }

  lemma PusherLeavesLoop(s: State, id: nat, hint: string)
    requires LoopOk(s) && PusherEnabled(s, id, hint)
    ensures LoopOk(DoPusherStep(s, id, hint))
  {
    LoopUntouched(s, DoPusherStep(s, id, hint));
  }

  lemma LoopOkStep(s: State, a: Action)
    requires LoopOk(s) && Enabled(s, a)
    ensures LoopOk(Do(s, a))
  {
    match a
    case LoopStep(ok) => LoopStepKeeps(s, ok);
    case CacheStep => CacheLeavesLoop(s);
    case PusherStep(id, hint) => PusherLeavesLoop(s, id, hint);
    case ChildReads => ReadKeeps(s);
    case Cancel =>
    case _ => LoopUntouched(s, Do(s, a));
  }
}
