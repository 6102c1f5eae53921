// DHCP lease releases across the Machine cache and the supervisor: what is
// queued, and that everything queued is handed on exactly once.
module BootdReleases {
  import opened Common
  import opened Text
  import opened Mac
  import opened Hostsfile
  import opened MacCache
  import opened Supervisor
  import opened Bootd
  import BootdWakeup

  // The releases a tick has taken over and not yet handed on.
  ghost function InFlight(pc: LoopPc): seq<string> {
    if pc.Releasing? then pc.snap.toRelease else []
  }

  ghost predicate QueueOk(s: State) {
    s.h.queued == s.h.released + InFlight(s.loop.pc) + s.d.pending
  }

  // The allowlist last pushed is the listing of the enrolled MACs whenever MACCache.mu is not between update and push.
  ghost predicate CacheOk(s: State) {
    && Canonical(s.d.macs)
    && (!s.feeds.synced ==> s.d.macs == [] && s.feeds.cachePc != Opening && s.feeds.cachePc != Nudging)
    && (s.feeds.synced && s.feeds.cachePc != Pushing ==> Elements(s.d.macs) == Enrolled(s.feeds.records))
  }

  // The MACs that left since the last push.
  ghost function Unpushed(s: State): set<string> {
    Elements(s.d.macs) - Enrolled(s.feeds.records)
  }

  ghost predicate DropOk(s: State) {
    s.cfg.leaseMode ==> multiset(s.h.dropped) + multiset(Unpushed(s)) == s.h.gone
  }

  ghost predicate NormalOk(s: State) {
    forall k :: k in s.feeds.records ==> IsNormalized(s.feeds.records[k].mac)
  }

  ghost predicate Inv(s: State) {
    QueueOk(s) && CacheOk(s) && DropOk(s) && NormalOk(s)
  }

  // ----- steps -----

  lemma EventKeeps(s: State, key: string, record: Option<Record>)
    requires Inv(s) && s.feeds.cachePc == Free && (record.Some? ==> IsNormalized(record.value.mac))
    ensures Inv(DoMachineEvent(s, key, record))
  {
    var t := DoMachineEvent(s, key, record);
    if s.feeds.synced {
      assert Unpushed(s) == {};
      assert Unpushed(t) == Enrolled(s.feeds.records) - Enrolled(t.feeds.records);
    } else {
      assert Unpushed(s) == {} && Unpushed(t) == {};
    }
  }

  lemma SyncKeeps(s: State)
    requires Inv(s) && s.feeds.cachePc == Free && !s.feeds.synced
    ensures Inv(s.(feeds := s.feeds.(synced := true, cachePc := Pushing)))
  {
  }

  // The push: the difference to the previous allowlist is queued, each MAC once.
  lemma PushKeeps(s: State)
    requires Inv(s) && s.feeds.cachePc == Pushing && s.feeds.synced
    ensures Inv(DoCacheStep(s))
  {
    var t := DoCacheStep(s);
    var macs := Listing(Enrolled(s.feeds.records));
    assert t.d.macs == macs;
    assert Unpushed(t) == {};
    if s.cfg.leaseMode {
      var dropped := MacDiff(s.d.macs, macs);
      MacDiffIsDifference(s.d.macs, macs);
      assert multiset(dropped) == multiset(Unpushed(s));
      Regroup(s.h.released, InFlight(s.loop.pc), s.d.pending, dropped);
    } else {
      assert s.h.queued + [] == s.h.queued;
    }
  }

  lemma Regroup(a: seq<string>, b: seq<string>, c: seq<string>, e: seq<string>)
    ensures a + b + c + e == a + b + (c + e)
  {
  }

  lemma CacheKeeps(s: State)
    requires Inv(s) && s.feeds.cachePc != Free
    ensures Inv(DoCacheStep(s))
  {
    if s.feeds.cachePc == Pushing && s.feeds.synced {
      PushKeeps(s);
    }
  }

  // Steps that leave the queue and the cache's side alone.
  ghost predicate Other(s: State, t: State) {
    && InFlight(t.loop.pc) == InFlight(s.loop.pc) && t.d.pending == s.d.pending && t.d.macs == s.d.macs
    && t.cfg == s.cfg && t.feeds.records == s.feeds.records && t.feeds.synced == s.feeds.synced
    && t.feeds.cachePc == s.feeds.cachePc
    && t.h.queued == s.h.queued && t.h.released == s.h.released && t.h.dropped == s.h.dropped && t.h.gone == s.h.gone
  }

  lemma OtherKeeps(s: State, t: State)
    requires Inv(s) && Other(s, t)
    ensures Inv(t)
  {
    assert Unpushed(t) == Unpushed(s);
  }

  lemma QueueKeeps(s: State, t: State, found: seq<string>)
    requires Inv(s) && Other(s, t.(d := s.d, h := s.h)) && t.d == QueueReleases(s.d, found)
    requires t.h == s.h.(queued := s.h.queued + found, sift := t.h.sift)
    ensures Inv(t)
  {
    Regroup(s.h.released, InFlight(s.loop.pc), s.d.pending, found);
    assert Unpushed(t) == Unpushed(s);
  }

  lemma PusherKeeps(s: State, id: nat, hint: string)
    requires Inv(s) && PusherEnabled(s, id, hint)
    ensures Inv(DoPusherStep(s, id, hint))
  {
    var t := DoPusherStep(s, id, hint);
    match s.feeds.pushers[id]
    case Queueing(found, _) => QueueKeeps(s, t, found);
    case _ => OtherKeeps(s, t);
  }

  // The snapshot takes the whole queue over, the next step hands it on.
  lemma SnapshotKeeps(s: State)
    requires Inv(s) && s.loop.pc.Locking?
    ensures Inv(EarlyStep(s))
  {
    assert s.h.released + [] + s.d.pending == s.h.released + s.d.pending + [];
    assert Unpushed(EarlyStep(s)) == Unpushed(s);
  }

  lemma HandOnKeeps(s: State)
    requires Inv(s) && s.loop.pc.Releasing?
    ensures Inv(EarlyStep(s))
  {
    assert s.h.released + s.loop.pc.snap.toRelease + [] == s.h.released + s.loop.pc.snap.toRelease;
    assert Unpushed(EarlyStep(s)) == Unpushed(s);
  }

  lemma EarlyIsOther(s: State)
    requires EarlyPc(s.loop.pc) && !s.loop.pc.Locking? && !s.loop.pc.Releasing?
    ensures Other(s, EarlyStep(s))
  {
  }

  lemma WriteIsOther(s: State, ok: bool)
    requires WritePc(s.loop.pc)
    ensures Other(s, WriteStep(s, ok))
  {
  }

  lemma ConfirmIsOther(s: State, ok: bool)
    requires ConfirmPc(s.loop.pc)
    ensures Other(s, ConfirmStep(s, ok))
  {
  }

  lemma ReportIsOther(s: State, ok: bool)
    requires s.loop.pc.Reporting? || s.loop.pc.Marking?
    ensures Other(s, ReportStep(s, ok))
  {
  }

  lemma PatchIsOther(s: State, ok: bool)
    requires s.loop.pc.Patching?
    ensures Other(s, ReportStep(s, ok))
  {
  }

  lemma LoopKeeps(s: State, ok: bool)
    requires Inv(s) && LoopEnabled(s, ok)
    ensures Inv(DoLoopStep(s, ok))
  {
    if s.loop.pc.Locking? {
      SnapshotKeeps(s);
    } else if s.loop.pc.Releasing? {
      HandOnKeeps(s);
    } else {
      if WritePc(s.loop.pc) {
        WriteIsOther(s, ok);
      } else if ConfirmPc(s.loop.pc) {
        ConfirmIsOther(s, ok);
      } else if s.loop.pc.Patching? {
        PatchIsOther(s, ok);
      } else if ReportPc(s.loop.pc) {
        ReportIsOther(s, ok);
      } else {
        EarlyIsOther(s);
      }
      OtherKeeps(s, DoLoopStep(s, ok));
    }
  }

  lemma StepKeeps(s: State, a: Action)
    requires Inv(s) && Enabled(s, a)
    ensures Inv(Do(s, a))
  {
    match a
    case MachineEvent(key, record) => EventKeeps(s, key, record);
    case SyncCache => SyncKeeps(s);
    case CacheStep => CacheKeeps(s);
    case PusherStep(id, hint) => PusherKeeps(s, id, hint);
    case LoopStep(ok) => LoopKeeps(s, ok);
    case _ => OtherKeeps(s, Do(s, a));
  }

  lemma {:induction false} RunKeeps(s: State, run: seq<Action>)
    requires Inv(s) && IsRun(s, run)
    ensures Inv(End(s, run))
    decreases |run|
  {
    if run != [] {
      StepKeeps(s, run[0]);
      RunKeeps(Do(s, run[0]), run[1..]);
    }
  }

  lemma InitialInv(cfg: Config)
    ensures Inv(Initial(cfg))
  {
  }

  // ----- the theorems -----

  /** However the nudges coalesce, the MACs queued for release are those handed on, then those a tick
      is about to hand on, then those pending: in order, none lost, none twice. */
  lemma {:induction false} ReleasesAreConserved(cfg: Config, run: seq<Action>)
    requires IsRun(Initial(cfg), run)
    ensures var s := End(Initial(cfg), run);
            s.h.queued == s.h.released + InFlight(s.loop.pc) + s.d.pending
  {
    InitialInv(cfg);
    RunKeeps(Initial(cfg), run);
  }

  /** Once the loop is quiet, everything ever queued has been handed on. */
  lemma {:induction false} QuietMeansAllReleased(cfg: Config, run: seq<Action>)
    requires IsRun(Initial(cfg), run)
    requires var s := End(Initial(cfg), run); BootdWakeup.Quiet(s) && s.h.nudged
    ensures var s := End(Initial(cfg), run); s.h.queued == s.h.released
  {
    InitialInv(cfg);
    RunKeeps(Initial(cfg), run);
    BootdWakeup.RunKeeps(Initial(cfg), run);
    RestMeansReleased(End(Initial(cfg), run));
  }

  lemma RestMeansReleased(s: State)
    requires QueueOk(s) && s.loop.pc.Idle? && s.d.pending == []
    ensures s.h.queued == s.h.released
  {
    assert s.h.released + [] + [] == s.h.released;
  }

  /** In lease mode the allowlist path has queued a MAC once for every time its last claiming Machine
      went away after the sync, and for nothing else. */
  lemma {:induction false} AllowlistReleasesExactly(cfg: Config, run: seq<Action>)
    requires IsRun(Initial(cfg), run) && cfg.leaseMode
    ensures var s := End(Initial(cfg), run);
            s.feeds.cachePc != Pushing && s.feeds.synced ==> multiset(s.h.dropped) == s.h.gone
  {
    InitialInv(cfg);
    RunKeeps(Initial(cfg), run);
    ConfigStays(Initial(cfg), run);
    var s := End(Initial(cfg), run);
    if s.feeds.cachePc != Pushing && s.feeds.synced { assert Unpushed(s) == {}; }
  }

  /** The system's purpose: quiet and without a failed write, the file the child has read admits exactly the
      boot MACs of the currently enrolled Machines, with the addresses currently reserved for them. */
  lemma {:induction false} QuietMeansEnrolledAdmitted(cfg: Config, run: seq<Action>)
    requires IsRun(Initial(cfg), run)
    requires var s := End(Initial(cfg), run);
             && BootdWakeup.Quiet(s) && s.h.nudged && !s.h.writeFailed
             && s.feeds.synced && s.feeds.cachePc == Free
             && (forall mac :: mac in Enrolled(s.feeds.records) ==> '\n' !in Pin(s.d.reservations, mac))
    ensures var s := End(Initial(cfg), run);
            && ReadSince(s)
            && ReadHosts(s.loop.file) == map mac | mac in Enrolled(s.feeds.records) :: Pin(s.d.reservations, mac)
  {
    InitialInv(cfg);
    RunKeeps(Initial(cfg), run);
    BootdWakeup.NoLostWakeup(cfg, run);
    var s := End(Initial(cfg), run);
    forall mac | mac in s.d.macs
      ensures mac in Enrolled(s.feeds.records)
    {
      assert mac in Elements(s.d.macs);
    }
    RenderRoundTrip(s.d.macs, s.d.reservations);
  }
}
