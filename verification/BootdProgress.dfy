// What bootd's threads achieve when nothing gets in their way: a push and a
// cache update finish, and one tick of the loop settles everything.
module BootdProgress {
  import opened Common
  import opened Text
  import opened Hostsfile
  import opened Supervisor
  import opened Bootd
  import BootdWakeup

  // ----- runs of one thread -----

  datatype Thread = TheCache | ThePusher(id: nat) | TheLoop

  // The loop's own steps, with every call succeeding, and the reads of the child it signals.
  ghost predicate BelongsTo(a: Action, who: Thread) {
    match who
    case TheCache => a == CacheStep
    case ThePusher(id) => a.PusherStep? && a.id == id
    case TheLoop => a == LoopStep(true) || a == ChildReads
  }

  // Steps of one thread alone take s to t.
  ghost predicate Gets(who: Thread, s: State, t: State) {
    exists run :: IsOwn(who, run) && IsRun(s, run) && End(s, run) == t
  }

  ghost predicate IsOwn(who: Thread, run: seq<Action>) {
    forall i :: 0 <= i < |run| ==> BelongsTo(run[i], who)
  }

  lemma GetsNowhere(who: Thread, s: State)
    ensures Gets(who, s, s)
  {
    assert IsOwn(who, []) && IsRun(s, []) && End(s, []) == s;
  }

  lemma GetsFurther(who: Thread, s: State, t: State, a: Action, u: State)
    requires Gets(who, s, t) && Enabled(t, a) && BelongsTo(a, who) && Do(t, a) == u
    ensures Gets(who, s, u)
  {
    var run :| IsOwn(who, run) && IsRun(s, run) && End(s, run) == t;
    BootdWakeup.AppendStep(s, run, a);
    assert IsOwn(who, run + [a]);
  }

  // ----- the cache and the pushes -----

  /** Whoever holds MACCache.mu gives it back; after sync the supervisor then holds the listing of the enrolled MACs,
      the startup gate is open and the loop is nudged. */
  lemma CacheUpdateFinishes(s: State) returns (t: State)
    requires s.feeds.cachePc == Pushing
    ensures Gets(TheCache, s, t) && t.feeds == s.feeds.(cachePc := Free) && t.loop == s.loop
    ensures s.feeds.synced ==>
            t.d.macs == Listing(MacCache.Enrolled(s.feeds.records)) && t.firstMacs && t.dirty && t.h.nudged
    ensures !s.feeds.synced ==> t.d == s.d && t.dirty == s.dirty && t.firstMacs == s.firstMacs
  {
    GetsNowhere(TheCache, s);
    var s1 := DoCacheStep(s);
    GetsFurther(TheCache, s, s, CacheStep, s1);
    t := s1;
    if s.feeds.synced {
      var s2 := DoCacheStep(s1);
      GetsFurther(TheCache, s, s1, CacheStep, s2);
      t := DoCacheStep(s2);
      GetsFurther(TheCache, s, s2, CacheStep, t);
    }
  }

  // Asking about everything left to ask.
  lemma {:induction false} SiftingFinishes(o: State, s: State, id: nat) returns (t: State)
    requires Gets(ThePusher(id), o, s) && s.feeds.cachePc == Free && id in s.feeds.pushers
    requires s.feeds.pushers[id].Sifting?
    ensures Gets(ThePusher(id), o, t) && t.feeds == s.feeds.(pushers := t.feeds.pushers) && t.d == s.d
    ensures t.loop == s.loop
    ensures t.feeds.pushers - {id} == s.feeds.pushers - {id}
    ensures id in t.feeds.pushers && t.feeds.pushers[id].Sifting? && t.feeds.pushers[id].todo == {}
    decreases s.feeds.pushers[id].todo
  {
    if s.feeds.pushers[id].todo == {} {
      t := s;
    } else {
      var mac :| mac in s.feeds.pushers[id].todo;
      var next := DoPusherStep(s, id, mac);
      GetsFurther(ThePusher(id), o, s, PusherStep(id, mac), next);
      assert next.feeds.pushers - {id} == s.feeds.pushers - {id};
      t := SiftingFinishes(o, next, id);
    }
  }

  // From the last question on: what was found is queued, and the loop nudged.
  lemma SiftedFinishes(o: State, s: State, id: nat) returns (t: State)
    requires Gets(ThePusher(id), o, s) && id in s.feeds.pushers && s.feeds.pushers[id].Sifting?
    requires s.feeds.pushers[id].todo == {}
    ensures Gets(ThePusher(id), o, t) && t.feeds == s.feeds.(pushers := s.feeds.pushers - {id}) && t.loop == s.loop
    ensures t.d == QueueReleases(s.d, s.feeds.pushers[id].found) && t.dirty && t.h.nudged
  {
    if s.feeds.pushers[id].found == [] { t := NothingFound(o, s, id); } else { t := SomethingFound(o, s, id); }
  }

  lemma NothingFound(o: State, s: State, id: nat) returns (t: State)
    requires Gets(ThePusher(id), o, s) && id in s.feeds.pushers && s.feeds.pushers[id].Sifting?
    requires s.feeds.pushers[id].todo == {} && s.feeds.pushers[id].found == []
    ensures Gets(ThePusher(id), o, t) && t.feeds == s.feeds.(pushers := s.feeds.pushers - {id}) && t.loop == s.loop
    ensures t.d == QueueReleases(s.d, []) && t.dirty && t.h.nudged
  {
    var s1 := SetPusher(s, id, Signalling);
    GetsFurther(ThePusher(id), o, s, PusherStep(id, ""), s1);
    t := SignalFinishes(o, s1, id);
    assert s.d.pending + [] == s.d.pending;
    assert t.feeds.pushers == s.feeds.pushers - {id};
  }

  lemma SomethingFound(o: State, s: State, id: nat) returns (t: State)
    requires Gets(ThePusher(id), o, s) && id in s.feeds.pushers && s.feeds.pushers[id].Sifting?
    requires s.feeds.pushers[id].todo == {} && s.feeds.pushers[id].found != []
    ensures Gets(ThePusher(id), o, t) && t.feeds == s.feeds.(pushers := s.feeds.pushers - {id}) && t.loop == s.loop
    ensures t.d == QueueReleases(s.d, s.feeds.pushers[id].found) && t.dirty && t.h.nudged
  {
    var s1 := SetPusher(s, id, Queueing(s.feeds.pushers[id].found, s.feeds.pushers[id].push));
    GetsFurther(ThePusher(id), o, s, PusherStep(id, ""), s1);
    var s2 := QueueFinishes(o, s1, id);
    t := SignalFinishes(o, s2, id);
    assert t.feeds.pushers == s.feeds.pushers - {id};
  }

  lemma QueueFinishes(o: State, s: State, id: nat) returns (t: State)
    requires Gets(ThePusher(id), o, s) && id in s.feeds.pushers && s.feeds.pushers[id].Queueing?
    ensures Gets(ThePusher(id), o, t) && t.feeds == s.feeds.(pushers := s.feeds.pushers[id := Signalling])
    ensures t.d == QueueReleases(s.d, s.feeds.pushers[id].found) && t.loop == s.loop
  {
    t := DoPusherStep(s, id, "");
    GetsFurther(ThePusher(id), o, s, PusherStep(id, ""), t);
  }

  lemma SignalFinishes(o: State, s: State, id: nat) returns (t: State)
    requires Gets(ThePusher(id), o, s) && id in s.feeds.pushers && s.feeds.pushers[id].Signalling?
    ensures Gets(ThePusher(id), o, t)
    ensures t == s.(feeds := s.feeds.(pushers := s.feeds.pushers - {id}), dirty := true, h := s.h.(nudged := true))
  {
    t := DoPusherStep(s, id, "");
    GetsFurther(ThePusher(id), o, s, PusherStep(id, ""), t);
  }

  /** A push that has begun finishes while MACCache.mu is free: its table and revision are stored, the loop is nudged,
      and the other pushes are where they were. */
  lemma PushFinishes(s: State, id: nat) returns (t: State)
    requires id in s.feeds.pushers && s.feeds.pushers[id].Computed? && s.feeds.cachePc == Free
    ensures Gets(ThePusher(id), s, t) && t.feeds == s.feeds.(pushers := s.feeds.pushers - {id}) && t.loop == s.loop
    ensures t.d.reservations == s.feeds.pushers[id].reservations && t.d.revision == s.feeds.pushers[id].revision
    ensures t.d.revSet && t.d.macs == s.d.macs && t.dirty && t.h.nudged
  {
    var who := ThePusher(id);
    GetsNowhere(who, s);
    var s1 := DoPusherStep(s, id, "");
    GetsFurther(who, s, s, PusherStep(id, ""), s1);
    if s.cfg.leaseMode && s.cfg.subnetMember {
      var s2 := SiftingFinishes(s, s1, id);
      t := SiftedFinishes(s, s2, id);
      assert s2.feeds.pushers - {id} == s.feeds.pushers - {id};
    } else {
      t := SignalFinishes(s, s1, id);
      assert s1.feeds.pushers - {id} == s.feeds.pushers - {id};
    }
  }

  // ----- one tick -----

  // In the tick that began in o, everything but the loop is as it was, and the snapshot is o's.
  ghost predicate InTickOf(o: State, u: State, snap: Snapshot) {
    && u.feeds == o.feeds && u.cfg == o.cfg && u.d == o.d.(pending := []) && !u.dirty && LoopOk(u)
    && u.h.released == o.h.released + o.d.pending && !u.h.writeFailed && u.h.nudged == o.h.nudged
    && snap.content == Render(o.d.macs, o.d.reservations) && snap.child == o.d.child
    && snap.revision == o.d.revision && snap.revSet == o.d.revSet
  }

  lemma TickDrains(o: State) returns (t: State)
    requires LoopOk(o) && o.loop.pc.Debouncing?
    ensures Gets(TheLoop, o, t) && LoopOk(t) && t == GoTo(o, Locking).(dirty := false)
  {
    var a := LoopStep(true);
    GetsNowhere(TheLoop, o);
    var s1 := GoTo(o, Draining);
    GetsFurther(TheLoop, o, o, a, s1);
    LoopOkStep(o, a);
    t := GoTo(s1, Locking).(dirty := false);
    GetsFurther(TheLoop, o, s1, a, t);
    LoopOkStep(s1, a);
  }

  // From the debounce to the comparison, whatever token came meanwhile.
  lemma TickSnaps(o: State) returns (t: State)
    requires LoopOk(o) && o.loop.pc.Debouncing?
    ensures Gets(TheLoop, o, t) && t.loop == o.loop.(pc := t.loop.pc) && t.loop.pc.Comparing?
    ensures InTickOf(o, t, t.loop.pc.snap)
  {
    var a := LoopStep(true);
    var s1 := TickDrains(o);
    var s2 := GoTo(s1, Releasing(TakeSnapshot(s1))).(d := s1.d.(pending := []), h := s1.h.(writeFailed := false));
    GetsFurther(TheLoop, o, s1, a, s2);
    LoopOkStep(s1, a);
    t := TickHandsOn(o, s2);
  }

  lemma TickHandsOn(o: State, s: State) returns (t: State)
    requires Gets(TheLoop, o, s) && LoopOk(s) && s.loop.pc.Releasing?
    ensures Gets(TheLoop, o, t) && LoopOk(t)
    ensures t == GoTo(s, Comparing(s.loop.pc.snap)).(h := s.h.(released := s.h.released + s.loop.pc.snap.toRelease))
  {
    t := EarlyStep(s);
    GetsFurther(TheLoop, o, s, LoopStep(true), t);
    LoopOkStep(s, LoopStep(true));
  }

  // The file is the snapshot's afterwards.
  lemma TickWrites(o: State, s: State) returns (t: State)
    requires Gets(TheLoop, o, s) && s.loop.pc.Comparing? && InTickOf(o, s, s.loop.pc.snap)
    ensures Gets(TheLoop, o, t) && t.loop.pc == Checking(s.loop.pc.snap) && InTickOf(o, t, s.loop.pc.snap)
    ensures t.loop.lastApplied == s.loop.lastApplied
  {
    t := WriteStep(s, true);
    GetsFurther(TheLoop, o, s, LoopStep(true), t);
    LoopOkStep(s, LoopStep(true));
  }

  // A signal, and the child's read of it.
  lemma TickConfirms(o: State, s: State) returns (t: State)
    requires Gets(TheLoop, o, s) && s.loop.pc.Checking? && InTickOf(o, s, s.loop.pc.snap) && o.d.child.Some?
    ensures Gets(TheLoop, o, t) && t.loop.pc == Reporting(s.loop.pc.snap) && InTickOf(o, t, s.loop.pc.snap)
    ensures t.loop.lastApplied == s.loop.lastApplied
  {
    var a, snap := LoopStep(true), s.loop.pc.snap;
    if s.loop.confirmed {
      t := GoTo(s, Reporting(snap));
      GetsFurther(TheLoop, o, s, a, t);
      LoopOkStep(s, a);
    } else {
      var s1 := GoTo(s, Hupping(snap, s.seen.count));
      GetsFurther(TheLoop, o, s, a, s1);
      LoopOkStep(s, a);
      t := ReadConfirms(o, s1);
    }
  }

  lemma ReadConfirms(o: State, s: State) returns (t: State)
    requires Gets(TheLoop, o, s) && s.loop.pc.Hupping? && s.loop.pc.baseline == s.seen.count
    requires InTickOf(o, s, s.loop.pc.snap)
    ensures Gets(TheLoop, o, t) && t.loop.pc == Reporting(s.loop.pc.snap) && InTickOf(o, t, s.loop.pc.snap)
    ensures t.loop.lastApplied == s.loop.lastApplied
  {
    var s1 := GoTo(s, Awaiting(s.loop.pc.snap, s.loop.pc.baseline));
    GetsFurther(TheLoop, o, s, LoopStep(true), s1);
    LoopOkStep(s, LoopStep(true));
    var s2 := ChildConfirms(o, s1);
    t := SeesRead(o, s2);
  }

  lemma SeesRead(o: State, s: State) returns (t: State)
    requires Gets(TheLoop, o, s) && s.loop.pc.Awaiting? && s.loop.pc.baseline < s.seen.count && LoopOk(s)
    ensures Gets(TheLoop, o, t) && LoopOk(t)
    ensures t == s.(loop := s.loop.(pc := Reporting(s.loop.pc.snap), confirmed := true))
  {
    t := s.(loop := s.loop.(pc := Reporting(s.loop.pc.snap), confirmed := true));
    GetsFurther(TheLoop, o, s, LoopStep(true), t);
    LoopOkStep(s, LoopStep(true));
  }

  lemma ChildConfirms(o: State, s: State) returns (t: State)
    requires Gets(TheLoop, o, s) && s.loop.pc.Awaiting? && LoopOk(s)
    ensures Gets(TheLoop, o, t) && LoopOk(t) && t.loop == s.loop && t.seen.count == s.seen.count + 1
    ensures t.feeds == s.feeds && t.cfg == s.cfg && t.d == s.d && t.dirty == s.dirty && t.h == s.h.(log := t.h.log)
  {
    t := DoRead(s);
    GetsFurther(TheLoop, o, s, ChildReads, t);
    LoopOkStep(s, ChildReads);
  }

  // Back to idle, with the revision reported.
  ghost predicate Rests(o: State, t: State, snap: Snapshot) {
    && t.loop.pc.Idle? && InTickOf(o, t, snap) && t.loop.confirmed && t.loop.lastWritten == snap.content
    && (snap.revSet ==> t.loop.lastApplied == Some(snap.revision))
  }

  lemma TickReports(o: State, s: State) returns (t: State)
    requires Gets(TheLoop, o, s) && s.loop.pc.Reporting? && InTickOf(o, s, s.loop.pc.snap)
    ensures Gets(TheLoop, o, t) && Rests(o, t, s.loop.pc.snap)
    ensures var snap := s.loop.pc.snap;
            snap.revSet && s.loop.lastApplied != Some(snap.revision) && o.feeds.current == snap.revision ==>
              t.h.log == s.h.log + [Applied(snap.revision, snap.push), Patched(snap.revision, snap.push)]
  {
    var a, snap := LoopStep(true), s.loop.pc.snap;
    var s1 := ReportStep(s, true);
    GetsFurther(TheLoop, o, s, a, s1);
    LoopOkStep(s, a);
    if s1.loop.pc.Marking? { t := TickMarks(o, s1); } else { t := s1; }
  }

  lemma TickMarks(o: State, s: State) returns (t: State)
    requires Gets(TheLoop, o, s) && s.loop.pc.Marking? && InTickOf(o, s, s.loop.pc.snap)
    requires s.loop.lastApplied == Some(s.loop.pc.snap.revision)
    ensures Gets(TheLoop, o, t) && Rests(o, t, s.loop.pc.snap)
    ensures o.feeds.current == s.loop.pc.snap.revision ==>
              t.h.log == s.h.log + [Patched(s.loop.pc.snap.revision, s.loop.pc.snap.push)]
  {
    var a := LoopStep(true);
    var s1 := ReportStep(s, true);
    GetsFurther(TheLoop, o, s, a, s1);
    LoopOkStep(s, a);
    t := s1;
    if s1.loop.pc.Patching? {
      t := ReportStep(s1, true);
      GetsFurther(TheLoop, o, s1, a, t);
      LoopOkStep(s1, a);
    }
  }

  lemma TickWakes(s: State) returns (t: State)
    requires LoopOk(s) && s.loop.pc.Idle? && s.dirty
    ensures Gets(TheLoop, s, t) && LoopOk(t) && t == GoTo(s, Debouncing).(dirty := false)
  {
    GetsNowhere(TheLoop, s);
    t := EarlyStep(s);
    GetsFurther(TheLoop, s, s, LoopStep(true), t);
    LoopOkStep(s, LoopStep(true));
  }

  /** One undisturbed tick with a child and with calls that succeed settles everything, whatever nudges arrived
      during its debounce: the loop is idle with no token, the file is the rendering of the current state and read
      since, the revision is reported and, if it is current and new, recorded, and all pending releases are handed
      on. */
  lemma OneTickSettles(s: State) returns (t: State)
    requires LoopOk(s) && s.loop.pc.Debouncing? && s.d.child.Some?
    ensures Gets(TheLoop, s, t) && t.loop.pc.Idle? && !t.dirty && BootdWakeup.Settled(t)
    ensures t.feeds == s.feeds && t.d == s.d.(pending := []) && t.h.released == s.h.released + s.d.pending
    ensures s.d.revSet && s.loop.lastApplied != Some(s.d.revision) && s.feeds.current == s.d.revision ==>
              t.h.log != [] && t.h.log[|t.h.log| - 1].Patched? && t.h.log[|t.h.log| - 1].revision == s.d.revision
  {
    var s1 := TickSnaps(s);
    var s2 := TickWrites(s, s1);
    var s3 := TickConfirms(s, s2);
    t := TickReports(s, s3);
  }
}
