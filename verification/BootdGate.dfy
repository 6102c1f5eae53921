// The startup gate of lease mode: no dnsmasq child before the first allowlist.
module BootdGate {
  import opened Bootd

  ghost predicate HasAllowlist(log: seq<Event>) {
    exists i :: 0 <= i < |log| && log[i].Allowed?
  }

  // Whoever read the file did so after an allowlist.
  ghost predicate ReadsAfter(log: seq<Event>) {
    forall k :: 0 <= k < |log| && log[k].Read? ==> HasAllowlist(log[..k])
  }

  ghost predicate Inv(s: State) {
    s.cfg.leaseMode ==>
      && (s.feeds.cachePc == Opening ==> HasAllowlist(s.h.log))
      && (s.firstMacs ==> HasAllowlist(s.h.log))
      && (Launched(s) || s.d.child.Some? ==> s.firstMacs)
      && ReadsAfter(s.h.log)
  }

  // ----- steps -----

  lemma GrowAllowlist(log: seq<Event>, e: Event)
    ensures HasAllowlist(log) || e.Allowed? ==> HasAllowlist(log + [e])
  {
    if HasAllowlist(log) {
      var i :| 0 <= i < |log| && log[i].Allowed?;
      assert (log + [e])[i].Allowed?;
    } else if e.Allowed? {
      assert (log + [e])[|log|].Allowed?;
    }
  }

  lemma GrowReads(log: seq<Event>, e: Event)
    requires ReadsAfter(log) && (e.Read? ==> HasAllowlist(log))
    ensures ReadsAfter(log + [e])
  {
    var more := log + [e];
    forall k | 0 <= k < |more| && more[k].Read?
      ensures HasAllowlist(more[..k])
    {
      assert more[..k] == log[..k];
      if k == |log| { assert more[..k] == log; }
    }
  }

  // A step that opens no gate and launches nothing.
  lemma GrowKeeps(s: State, t: State, e: Event)
    requires Inv(s) && t.cfg == s.cfg && t.h.log == s.h.log + [e] && (e.Read? ==> Launched(s))
    requires t.feeds.cachePc == s.feeds.cachePc || e.Allowed?
    requires t.firstMacs == s.firstMacs && t.d.child == s.d.child && (Launched(t) ==> Launched(s) || !s.cfg.leaseMode)
    ensures Inv(t)
  {
    if s.cfg.leaseMode {
      GrowAllowlist(s.h.log, e);
      GrowReads(s.h.log, e);
    }
  }

  lemma SilentKeeps(s: State, t: State)
    requires Inv(s) && t.cfg == s.cfg && t.h.log == s.h.log
    requires t.feeds.cachePc == Opening ==> s.feeds.cachePc == Opening
    requires t.firstMacs ==> s.firstMacs || s.feeds.cachePc == Opening
    requires Launched(t) || t.d.child.Some? ==> t.firstMacs || (Launched(s) && s.firstMacs) || !s.cfg.leaseMode
    requires s.firstMacs ==> t.firstMacs
    ensures Inv(t)
  {
  }

  lemma CacheKeeps(s: State)
    requires Inv(s) && s.feeds.cachePc != Free
    ensures Inv(DoCacheStep(s))
  {
    var t := DoCacheStep(s);
    if s.feeds.cachePc == Pushing && s.feeds.synced { GrowKeeps(s, t, Allowed(t.d.macs)); } else { SilentKeeps(s, t); }
  }

  lemma PusherKeeps(s: State, id: nat, hint: string)
    requires Inv(s) && PusherEnabled(s, id, hint)
    ensures Inv(DoPusherStep(s, id, hint))
  {
    var t, p := DoPusherStep(s, id, hint), s.feeds.pushers[id];
    if p.Computed? { GrowKeeps(s, t, Reserved(p.revision, p.reservations)); } else { SilentKeeps(s, t); }
  }

  lemma EarlyKeeps(s: State)
    requires Inv(s) && EarlyPc(s.loop.pc) && LoopEnabled(s, true)
    ensures Inv(EarlyStep(s))
  {
    SilentKeeps(s, EarlyStep(s));
  }

  lemma WriteKeeps(s: State, ok: bool)
    requires Inv(s) && WritePc(s.loop.pc)
    ensures Inv(WriteStep(s, ok))
  {
    var t := WriteStep(s, ok);
    if t.h.log == s.h.log { SilentKeeps(s, t); } else { GrowKeeps(s, t, Wrote(t.loop.file)); }
  }

  lemma ConfirmKeeps(s: State, ok: bool)
    requires Inv(s) && ConfirmPc(s.loop.pc)
    ensures Inv(ConfirmStep(s, ok))
  {
    SilentKeeps(s, ConfirmStep(s, ok));
  }

  lemma ReportKeeps(s: State, ok: bool)
    requires Inv(s) && s.loop.pc.Reporting?
    ensures Inv(ReportStep(s, ok))
  {
    var t, snap := ReportStep(s, ok), s.loop.pc.snap;
    if t.loop.pc.Marking? { GrowKeeps(s, t, Applied(snap.revision, snap.push)); } else { SilentKeeps(s, t); }
  }

  lemma MarkKeeps(s: State, ok: bool)
    requires Inv(s) && (s.loop.pc.Marking? || s.loop.pc.Patching?)
    ensures Inv(ReportStep(s, ok))
  {
    var t, snap := ReportStep(s, ok), s.loop.pc.snap;
    if s.loop.pc.Patching? && ok { GrowKeeps(s, t, Patched(snap.revision, snap.push)); } else { SilentKeeps(s, t); }
  }

  lemma LoopKeeps(s: State, ok: bool)
    requires Inv(s) && LoopEnabled(s, ok)
    ensures Inv(DoLoopStep(s, ok))
  {
    if WritePc(s.loop.pc) {
      WriteKeeps(s, ok);
    } else if ConfirmPc(s.loop.pc) {
      ConfirmKeeps(s, ok);
    } else if s.loop.pc.Reporting? {
      ReportKeeps(s, ok);
    } else if ReportPc(s.loop.pc) {
      MarkKeeps(s, ok);
    } else {
      EarlyKeeps(s);
    }
  }

  lemma StepKeeps(s: State, a: Action)
    requires Inv(s) && Enabled(s, a)
    ensures Inv(Do(s, a))
  {
    match a
    case CacheStep => CacheKeeps(s);
    case PusherStep(id, hint) => PusherKeeps(s, id, hint);
    case ChildReads => GrowKeeps(s, DoRead(s), Read(s.loop.file));
    case LoopStep(ok) => LoopKeeps(s, ok);
    case _ => SilentKeeps(s, Do(s, a));
  }

  lemma {:induction false} RunKeepsGate(s: State, run: seq<Action>)
    requires Inv(s) && IsRun(s, run)
    ensures Inv(End(s, run))
    decreases |run|
  {
    if run != [] {
      StepKeeps(s, run[0]);
      RunKeepsGate(Do(s, run[0]), run[1..]);
    }
  }

  /** In lease mode no child is started, and none ever reads the file, before the synced cache has pushed an
      allowlist. */
  lemma {:induction false} NoChildBeforeAllowlist(cfg: Config, run: seq<Action>)
    requires IsRun(Initial(cfg), run) && cfg.leaseMode
    ensures var s := End(Initial(cfg), run);
            && (s.d.child.Some? ==> HasAllowlist(s.h.log))
            && (forall k :: 0 <= k < |s.h.log| && s.h.log[k].Read? ==> HasAllowlist(s.h.log[..k]))
  {
    RunKeepsGate(Initial(cfg), run);
    ConfigStays(Initial(cfg), run);
  }
}
