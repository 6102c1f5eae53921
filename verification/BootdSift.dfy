// Releases by the reservation path: which MACs a Subnet push queues, told from
// the log of pushes and from what the Machine cache knew when it was asked.
module BootdSift {
  import opened Common
  import opened Text
  import opened Supervisor
  import opened Bootd

  // ----- what the log and the queries say -----

  // The reservations and the allowlist in force after a log.
  ghost function TableAfter(log: seq<Event>): map<string, string> {
    if log == [] then map[]
    else if log[|log| - 1].Reserved? then log[|log| - 1].reservations
    else TableAfter(log[..|log| - 1])
  }

  ghost function AllowedAfter(log: seq<Event>): seq<string> {
    if log == [] then []
    else if log[|log| - 1].Allowed? then log[|log| - 1].macs
    else AllowedAfter(log[..|log| - 1])
  }

  ghost predicate IsPush(log: seq<Event>, p: nat) {
    p < |log| && log[p].Reserved?
  }

  // The push at p takes mac's reservation away while it is in the allowlist.
  ghost predicate LosesPin(log: seq<Event>, p: nat, mac: string) {
    IsPush(log, p) && mac in TableAfter(log[..p]) && mac !in log[p].reservations && mac in AllowedAfter(log[..p])
  }

  ghost function Losers(log: seq<Event>, p: nat): set<string>
    requires IsPush(log, p)
  {
    set mac | mac in TableAfter(log[..p]) && LosesPin(log, p, mac)
  }

  // When asked, the cache was synced and knew a Machine of this Subnet with the MAC.
  ghost predicate ClaimedLocally(q: Query) {
    q.synced && exists k :: k in q.records && q.records[k].mac == q.mac && q.records[k].local
  }

  ghost function Asked(asked: seq<Query>, p: nat): set<string> {
    set i | 0 <= i < |asked| && asked[i].push == p :: asked[i].mac
  }

  ghost function Unclaimed(asked: seq<Query>, p: nat): set<string> {
    set i | 0 <= i < |asked| && asked[i].push == p && !ClaimedLocally(asked[i]) :: asked[i].mac
  }

  ghost function QueuedBy(queued: seq<Release>, p: nat): set<string> {
    set i | 0 <= i < |queued| && queued[i].push == p :: queued[i].mac
  }

  ghost function MacsOf(queued: seq<Release>): seq<string> {
    seq(|queued|, i requires 0 <= i < |queued| => queued[i].mac)
  }

  // ----- the invariant -----

  // Pushes ask SubnetMember only in lease mode, and only when it is set.
  ghost predicate Sifts(cfg: Config) {
    cfg.leaseMode && cfg.subnetMember
  }

  ghost predicate IsAtWork(pc: PusherPc) {
    pc.Sifting? || pc.Queueing?
  }

  ghost function Todo(pc: PusherPc): set<string> {
    if pc.Sifting? then pc.todo else {}
  }

  ghost predicate IsListed(found: seq<string>, macs: set<string>) {
    Elements(found) == macs && forall i, j :: 0 <= i < j < |found| ==> found[i] != found[j]
  }

  // A push at work has asked about all losers but those to do, and found those nobody claimed.
  ghost predicate Midway(log: seq<Event>, sift: Sift, pc: PusherPc)
    requires IsAtWork(pc)
  {
    && IsPush(log, pc.push)
    && Todo(pc) !! Asked(sift.asked, pc.push)
    && Todo(pc) + Asked(sift.asked, pc.push) == Losers(log, pc.push)
    && IsListed(pc.found, Unclaimed(sift.asked, pc.push))
    && QueuedBy(sift.queued, pc.push) == {}
  }

  // A push no longer at work has asked about all losers and queued those nobody claimed.
  ghost predicate Done(cfg: Config, log: seq<Event>, sift: Sift, p: nat)
    requires IsPush(log, p)
  {
    && (Sifts(cfg) ==> Asked(sift.asked, p) == Losers(log, p))
    && QueuedBy(sift.queued, p) == Unclaimed(sift.asked, p)
  }

  ghost predicate WorksOn(s: State, id: nat, p: nat) {
    id in s.feeds.pushers && IsAtWork(s.feeds.pushers[id]) && s.feeds.pushers[id].push == p
  }

  ghost predicate InProgress(s: State, p: nat) {
    exists id :: WorksOn(s, id, p)
  }

  ghost predicate Tied(s: State) {
    s.d.reservations == TableAfter(s.h.log) && s.d.macs == AllowedAfter(s.h.log)
  }

  ghost predicate PushersOk(s: State) {
    && (forall id :: id in s.feeds.pushers && IsAtWork(s.feeds.pushers[id]) ==>
          Midway(s.h.log, s.h.sift, s.feeds.pushers[id]))
    && (forall i, j, p :: WorksOn(s, i, p) && WorksOn(s, j, p) ==> i == j)
    && (forall p :: IsPush(s.h.log, p) && !InProgress(s, p) ==> Done(s.cfg, s.h.log, s.h.sift, p))
  }

  // No question and no release occurs twice, and each belongs to a push.
  ghost predicate SiftOk(cfg: Config, log: seq<Event>, sift: Sift) {
    && (forall i, j :: 0 <= i < j < |sift.asked| ==>
          sift.asked[i].push != sift.asked[j].push || sift.asked[i].mac != sift.asked[j].mac)
    && (forall i, j :: 0 <= i < j < |sift.queued| ==> sift.queued[i] != sift.queued[j])
    && (forall i :: 0 <= i < |sift.asked| ==> IsPush(log, sift.asked[i].push))
    && (forall i :: 0 <= i < |sift.queued| ==> IsPush(log, sift.queued[i].push))
    && (!Sifts(cfg) ==> sift.asked == [] && sift.queued == [])
  }

  // Everything queued comes from the allowlist path or from this one.
  ghost predicate CountsOk(h: History) {
    multiset(h.queued) == multiset(h.dropped) + multiset(MacsOf(h.sift.queued))
  }

  ghost predicate Inv(s: State) {
    Tied(s) && PushersOk(s) && SiftOk(s.cfg, s.h.log, s.h.sift) && CountsOk(s.h)
  }

  // ----- the log grows -----

  lemma {:induction false} GrowAfter(log: seq<Event>, e: Event)
    ensures TableAfter(log + [e]) == if e.Reserved? then e.reservations else TableAfter(log)
    ensures AllowedAfter(log + [e]) == if e.Allowed? then e.macs else AllowedAfter(log)
  {
    assert (log + [e])[..|log|] == log;
  }

  lemma GrowPush(log: seq<Event>, e: Event, p: nat)
    requires p < |log|
    ensures IsPush(log + [e], p) == IsPush(log, p)
    ensures IsPush(log, p) ==> Losers(log + [e], p) == Losers(log, p)
  {
    var more := log + [e];
    assert more[..p] == log[..p] && more[p] == log[p];
    assert forall mac :: LosesPin(more, p, mac) == LosesPin(log, p, mac);
  }

  lemma GrowPushers(s: State, t: State, e: Event)
    requires PushersOk(s) && t.cfg == s.cfg && t.feeds.pushers == s.feeds.pushers && t.h.sift == s.h.sift
    requires t.h.log == s.h.log + [e] && !e.Reserved?
    ensures PushersOk(t)
  {
    var log := s.h.log;
    assert forall id, p :: WorksOn(t, id, p) == WorksOn(s, id, p);
    forall id | id in t.feeds.pushers && IsAtWork(t.feeds.pushers[id])
      ensures Midway(t.h.log, t.h.sift, t.feeds.pushers[id])
    {
      assert Midway(log, s.h.sift, s.feeds.pushers[id]);
      GrowPush(log, e, s.feeds.pushers[id].push);
    }
    forall p: nat | IsPush(t.h.log, p) && !InProgress(t, p)
      ensures Done(t.cfg, t.h.log, t.h.sift, p)
    {
      GrowPush(log, e, p);
      assert !InProgress(s, p);
    }
  }

  lemma GrowSift(cfg: Config, log: seq<Event>, e: Event, sift: Sift)
    requires SiftOk(cfg, log, sift)
    ensures SiftOk(cfg, log + [e], sift)
  {
    forall p: nat | IsPush(log, p)
      ensures IsPush(log + [e], p)
    {
      GrowPush(log, e, p);
    }
  }

  // A step that stores no reservations and leaves the pushes alone.
  lemma GrowKeeps(s: State, t: State, e: Event)
    requires Inv(s) && t.cfg == s.cfg && t.feeds.pushers == s.feeds.pushers && t.h.sift == s.h.sift
    requires t.h.log == s.h.log + [e] && !e.Reserved?
    requires t.d.reservations == s.d.reservations && t.d.macs == (if e.Allowed? then e.macs else s.d.macs)
    requires CountsOk(t.h)
    ensures Inv(t)
  {
    GrowAfter(s.h.log, e);
    GrowPushers(s, t, e);
    GrowSift(s.cfg, s.h.log, e, s.h.sift);
  }

  // What the invariant speaks of.
  ghost predicate Same(s: State, t: State) {
    && t.cfg == s.cfg && t.feeds.pushers == s.feeds.pushers
    && t.d.reservations == s.d.reservations && t.d.macs == s.d.macs
    && t.h.log == s.h.log && t.h.sift == s.h.sift && t.h.queued == s.h.queued && t.h.dropped == s.h.dropped
  }

  lemma SameKeeps(s: State, t: State)
    requires Inv(s) && Same(s, t)
    ensures Inv(t)
  {
    assert forall id, p :: WorksOn(t, id, p) == WorksOn(s, id, p);
    forall p: nat | IsPush(t.h.log, p) && !InProgress(t, p)
      ensures Done(t.cfg, t.h.log, t.h.sift, p)
    {
      assert !InProgress(s, p);
    }
  }

  // ----- steps of the cache, the child and the loop -----

  lemma AllowKeeps(s: State)
    requires Inv(s) && s.feeds.cachePc == Pushing && s.feeds.synced
    ensures Inv(DoCacheStep(s))
  {
    var t := DoCacheStep(s);
    GrowKeeps(s, t, Allowed(t.d.macs));
  }

  lemma CacheKeeps(s: State)
    requires Inv(s) && s.feeds.cachePc != Free
    ensures Inv(DoCacheStep(s))
  {
    if s.feeds.cachePc == Pushing && s.feeds.synced { AllowKeeps(s); } else { SameKeeps(s, DoCacheStep(s)); }
  }

  lemma ReadKeeps(s: State)
    requires Inv(s)
    ensures Inv(DoRead(s))
  {
    GrowKeeps(s, DoRead(s), Read(s.loop.file));
  }

  lemma EarlyIsSame(s: State)
    requires EarlyPc(s.loop.pc)
    ensures Same(s, EarlyStep(s))
  {
  }

  lemma ConfirmIsSame(s: State, ok: bool)
    requires ConfirmPc(s.loop.pc)
    ensures Same(s, ConfirmStep(s, ok))
  {
  }

  lemma WriteKeeps(s: State, ok: bool)
    requires Inv(s) && WritePc(s.loop.pc)
    ensures Inv(WriteStep(s, ok))
  {
    var t := WriteStep(s, ok);
    if t.h.log == s.h.log { SameKeeps(s, t); } else { GrowKeeps(s, t, Wrote(t.loop.file)); }
  }

  lemma ReportKeeps(s: State, ok: bool)
    requires Inv(s) && s.loop.pc.Reporting?
    ensures Inv(ReportStep(s, ok))
  {
    var t, snap := ReportStep(s, ok), s.loop.pc.snap;
    if t.loop.pc.Marking? { GrowKeeps(s, t, Applied(snap.revision, snap.push)); } else { SameKeeps(s, t); }
  }

  lemma MarkKeeps(s: State, ok: bool)
    requires Inv(s) && (s.loop.pc.Marking? || s.loop.pc.Patching?)
    ensures Inv(ReportStep(s, ok))
  {
    var t, snap := ReportStep(s, ok), s.loop.pc.snap;
    if s.loop.pc.Patching? && ok { GrowKeeps(s, t, Patched(snap.revision, snap.push)); } else { SameKeeps(s, t); }
  }

  lemma LoopKeeps(s: State, ok: bool)
    requires Inv(s) && LoopEnabled(s, ok)
    ensures Inv(DoLoopStep(s, ok))
  {
    if WritePc(s.loop.pc) {
      WriteKeeps(s, ok);
    } else if s.loop.pc.Reporting? {
      ReportKeeps(s, ok);
    } else if ReportPc(s.loop.pc) {
      MarkKeeps(s, ok);
    } else if ConfirmPc(s.loop.pc) {
      ConfirmIsSame(s, ok);
      SameKeeps(s, ConfirmStep(s, ok));
    } else {
      EarlyIsSame(s);
      SameKeeps(s, EarlyStep(s));
    }
  }

  // ----- steps of a push -----

  // t's pushes are s's, except that id is at pc, or gone.
  ghost predicate Moves(s: State, t: State, id: nat, pc: Option<PusherPc>) {
    && t.cfg == s.cfg
    && t.feeds.pushers == match pc case None => s.feeds.pushers - {id} case Some(p) => s.feeds.pushers[id := p]
  }

  lemma MovesWorks(s: State, t: State, id: nat, pc: Option<PusherPc>)
    requires Moves(s, t, id, pc)
    ensures forall j, p :: j != id ==> (WorksOn(t, j, p) <==> WorksOn(s, j, p))
    ensures forall p :: WorksOn(t, id, p) <==> pc.Some? && IsAtWork(pc.value) && pc.value.push == p
  {
  }

  // A push that begins, signals or ends is not at work.
  lemma IdleMoveKeeps(s: State, t: State, id: nat, pc: Option<PusherPc>)
    requires Inv(s) && Moves(s, t, id, pc) && (id in s.feeds.pushers ==> !IsAtWork(s.feeds.pushers[id]))
    requires pc.Some? ==> !IsAtWork(pc.value)
    requires Same(s, t.(feeds := s.feeds))
    ensures Inv(t)
  {
    MovesWorks(s, t, id, pc);
    assert forall j, p :: WorksOn(t, j, p) == WorksOn(s, j, p);
    forall p: nat | IsPush(t.h.log, p) && !InProgress(t, p)
      ensures Done(t.cfg, t.h.log, t.h.sift, p)
    {
      assert !InProgress(s, p);
    }
  }

  // The candidates of a push are the losers of its log entry.
  lemma UnreservedAreLosers(s: State, revision: string, reservations: map<string, string>)
    requires Tied(s)
    ensures var log := s.h.log + [Reserved(revision, reservations)];
            IsPush(log, |s.h.log|) && Losers(log, |s.h.log|) == Unreserved(s.d, reservations)
  {
    var log := s.h.log + [Reserved(revision, reservations)];
    assert log[..|s.h.log|] == s.h.log;
    assert forall mac :: LosesPin(log, |s.h.log|, mac) <==> mac in Unreserved(s.d, reservations);
  }

  // Nobody has asked for, or queued by, a push that is not stored yet.
  lemma NothingYet(cfg: Config, log: seq<Event>, sift: Sift)
    requires SiftOk(cfg, log, sift)
    ensures Asked(sift.asked, |log|) == {} && Unclaimed(sift.asked, |log|) == {} && QueuedBy(sift.queued, |log|) == {}
  {
  }

  lemma StoreKeepsPushers(s: State, t: State, id: nat, pc: PusherPc, e: Event)
    requires Inv(s) && Moves(s, t, id, Some(pc)) && !(id in s.feeds.pushers && IsAtWork(s.feeds.pushers[id]))
    requires e.Reserved? && t.h.log == s.h.log + [e] && t.h.sift == s.h.sift
    requires pc == if Sifts(s.cfg) then Sifting(Unreserved(s.d, e.reservations), [], |s.h.log|) else Signalling
    ensures PushersOk(t)
  {
    var log, n := s.h.log, |s.h.log|;
    MovesWorks(s, t, id, Some(pc));
    NothingYet(s.cfg, log, s.h.sift);
    UnreservedAreLosers(s, e.revision, e.reservations);
    forall j | j in t.feeds.pushers && IsAtWork(t.feeds.pushers[j])
      ensures Midway(t.h.log, t.h.sift, t.feeds.pushers[j])
    {
      if j != id {
        assert Midway(log, s.h.sift, s.feeds.pushers[j]);
        GrowPush(log, e, s.feeds.pushers[j].push);
      }
    }
    forall i, j, p | WorksOn(t, i, p) && WorksOn(t, j, p)
      ensures i == j
    {
      if i != id { assert Midway(log, s.h.sift, s.feeds.pushers[i]); }
      if j != id { assert Midway(log, s.h.sift, s.feeds.pushers[j]); }
    }
    forall p: nat | IsPush(t.h.log, p) && !InProgress(t, p)
      ensures Done(t.cfg, t.h.log, t.h.sift, p)
    {
      if p < n {
        GrowPush(log, e, p);
        NotInProgress(s, t, id, p);
      } else {
        assert Sifts(s.cfg) ==> WorksOn(t, id, n);
      }
    }
  }

  lemma NotInProgress(s: State, t: State, id: nat, p: nat)
    requires !InProgress(t, p) && !WorksOn(s, id, p)
    requires forall j :: j != id ==> (WorksOn(t, j, p) <==> WorksOn(s, j, p))
    ensures !InProgress(s, p)
  {
    forall j
      ensures !WorksOn(s, j, p)
    {
      assert !WorksOn(t, j, p);
    }
  }

  lemma StoreKeeps(s: State, id: nat)
    requires Inv(s) && id in s.feeds.pushers && s.feeds.pushers[id].Computed?
    ensures PusherEnabled(s, id, "") && Inv(DoPusherStep(s, id, ""))
  {
    var t, p := DoPusherStep(s, id, ""), s.feeds.pushers[id];
    var e := Reserved(p.revision, p.reservations);
    StoreKeepsPushers(s, t, id, t.feeds.pushers[id], e);
    GrowAfter(s.h.log, e);
    GrowSift(s.cfg, s.h.log, e, s.h.sift);
  }

  // One query more.
  lemma AskGrows(asked: seq<Query>, q: Query, p: nat)
    ensures Asked(asked + [q], p) == Asked(asked, p) + (if q.push == p then {q.mac} else {})
    ensures Unclaimed(asked + [q], p) ==
            Unclaimed(asked, p) + (if q.push == p && !ClaimedLocally(q) then {q.mac} else {})
  {
    var more := asked + [q];
    AskedGrows(asked, q, p);
    forall mac
      ensures mac in Unclaimed(more, p) <==>
              mac in Unclaimed(asked, p) || (q.push == p && !ClaimedLocally(q) && mac == q.mac)
    {
      if mac in Unclaimed(asked, p) {
        var i :| 0 <= i < |asked| && asked[i].push == p && !ClaimedLocally(asked[i]) && asked[i].mac == mac;
        assert more[i] == asked[i];
      }
      if q.push == p && !ClaimedLocally(q) && mac == q.mac { assert more[|asked|] == q; }
    }
  }

  lemma AskedGrows(asked: seq<Query>, q: Query, p: nat)
    ensures Asked(asked + [q], p) == Asked(asked, p) + (if q.push == p then {q.mac} else {})
  {
    var more := asked + [q];
    forall mac
      ensures mac in Asked(more, p) <==> mac in Asked(asked, p) || (q.push == p && mac == q.mac)
    {
      if mac in Asked(asked, p) {
        var i :| 0 <= i < |asked| && asked[i].push == p && asked[i].mac == mac;
        assert more[i] == asked[i];
      }
      if q.push == p && mac == q.mac { assert more[|asked|] == q; }
    }
  }

  lemma MemberIsClaimed(s: State, q: Query)
    requires q.synced == s.feeds.synced && q.records == s.feeds.records
    ensures IsMember(s, q.mac) <==> ClaimedLocally(q)
  {
    if ClaimedLocally(q) {
      var k :| k in q.records && q.records[k].mac == q.mac && q.records[k].local;
      assert k in MacCache.Claimants(s.feeds.records, q.mac, true);
    }
    if IsMember(s, q.mac) {
      var k :| k in MacCache.Claimants(s.feeds.records, q.mac, true);
    }
  }

  lemma ListMore(found: seq<string>, macs: set<string>, mac: string)
    requires IsListed(found, macs) && mac !in macs
    ensures IsListed(found + [mac], macs + {mac})
  {
    assert forall i :: 0 <= i < |found| ==> found[i] in Elements(found);
  }

  lemma UnclaimedAreAsked(asked: seq<Query>, p: nat)
    ensures Unclaimed(asked, p) <= Asked(asked, p)
  {
  }

  // The pusher's own progress by one query.
  lemma AskKeepsMidway(log: seq<Event>, sift: Sift, pc: PusherPc, q: Query, member: bool)
    requires pc.Sifting? && Midway(log, sift, pc) && q.push == pc.push && q.mac in pc.todo
    requires member == ClaimedLocally(q)
    ensures Midway(log, sift.(asked := sift.asked + [q]),
                   Sifting(pc.todo - {q.mac}, if member then pc.found else pc.found + [q.mac], pc.push))
  {
    AskGrows(sift.asked, q, pc.push);
    UnclaimedAreAsked(sift.asked, pc.push);
    if !member { ListMore(pc.found, Unclaimed(sift.asked, pc.push), q.mac); }
  }

  lemma AskKeepsOthers(log: seq<Event>, sift: Sift, pc: PusherPc, q: Query)
    requires IsAtWork(pc) && Midway(log, sift, pc) && q.push != pc.push
    ensures Midway(log, sift.(asked := sift.asked + [q]), pc)
  {
    AskGrows(sift.asked, q, pc.push);
  }

  lemma AskKeepsSift(cfg: Config, log: seq<Event>, sift: Sift, q: Query)
    requires SiftOk(cfg, log, sift) && Sifts(cfg) && IsPush(log, q.push) && q.mac !in Asked(sift.asked, q.push)
    ensures SiftOk(cfg, log, sift.(asked := sift.asked + [q]))
  {
    forall i | 0 <= i < |sift.asked|
      ensures sift.asked[i].push != q.push || sift.asked[i].mac != q.mac
    {
      if sift.asked[i].push == q.push { assert sift.asked[i].mac in Asked(sift.asked, q.push); }
    }
  }

  lemma AskKeepsPushers(s: State, t: State, id: nat, pc: PusherPc, q: Query)
    requires PushersOk(s) && id in s.feeds.pushers && s.feeds.pushers[id].Sifting? && Moves(s, t, id, Some(pc))
    requires var p := s.feeds.pushers[id];
             && q.push == p.push && q.mac in p.todo
             && pc == Sifting(p.todo - {q.mac}, if ClaimedLocally(q) then p.found else p.found + [q.mac], p.push)
    requires t.h.log == s.h.log && t.h.sift == s.h.sift.(asked := s.h.sift.asked + [q])
    ensures PushersOk(t)
  {
    var log, was := s.h.log, s.feeds.pushers[id];
    MovesWorks(s, t, id, Some(pc));
    assert WorksOn(s, id, q.push);
    assert forall j, p :: WorksOn(t, j, p) == WorksOn(s, j, p);
    AskKeepsMidway(log, s.h.sift, was, q, ClaimedLocally(q));
    forall j | j in t.feeds.pushers && IsAtWork(t.feeds.pushers[j])
      ensures Midway(t.h.log, t.h.sift, t.feeds.pushers[j])
    {
      if j != id {
        assert WorksOn(s, j, s.feeds.pushers[j].push);
        AskKeepsOthers(log, s.h.sift, s.feeds.pushers[j], q);
      }
    }
    forall p: nat | IsPush(t.h.log, p) && !InProgress(t, p)
      ensures Done(t.cfg, t.h.log, t.h.sift, p)
    {
      assert !WorksOn(t, id, p);
      assert !InProgress(s, p);
      AskGrows(s.h.sift.asked, q, p);
    }
  }

  lemma AskKeeps(s: State, id: nat, hint: string)
    requires Inv(s) && PusherEnabled(s, id, hint) && s.feeds.pushers[id].Sifting? && s.feeds.pushers[id].todo != {}
    requires Sifts(s.cfg)
    ensures Inv(DoPusherStep(s, id, hint))
  {
    var t, p := DoPusherStep(s, id, hint), s.feeds.pushers[id];
    var q := Query(p.push, hint, s.feeds.synced, s.feeds.records);
    MemberIsClaimed(s, q);
    AskKeepsPushers(s, t, id, t.feeds.pushers[id], q);
    assert Midway(s.h.log, s.h.sift, p);
    AskKeepsSift(s.cfg, s.h.log, s.h.sift, q);
  }

  // With nothing left to ask the push goes on to queue what it found, or is done.
  lemma SiftedKeeps(s: State, t: State, id: nat, pc: PusherPc)
    requires Inv(s) && id in s.feeds.pushers && s.feeds.pushers[id].Sifting? && s.feeds.pushers[id].todo == {}
    requires Moves(s, t, id, Some(pc)) && Same(s, t.(feeds := s.feeds))
    requires var p := s.feeds.pushers[id]; pc == if p.found == [] then Signalling else Queueing(p.found, p.push)
    ensures Inv(t)
  {
    var was := s.feeds.pushers[id];
    MovesWorks(s, t, id, Some(pc));
    assert Midway(s.h.log, s.h.sift, was);
    NoElements(was.found);
    forall j | j in t.feeds.pushers && IsAtWork(t.feeds.pushers[j])
      ensures Midway(t.h.log, t.h.sift, t.feeds.pushers[j])
    {
      if j != id { assert Midway(s.h.log, s.h.sift, s.feeds.pushers[j]); }
    }
    assert forall i, p :: WorksOn(t, i, p) ==> WorksOn(s, i, p);
    forall p: nat | IsPush(t.h.log, p) && !InProgress(t, p)
      ensures Done(t.cfg, t.h.log, t.h.sift, p)
    {
      if p != was.push { NotInProgress(s, t, id, p); } else { assert !WorksOn(t, id, p); }
    }
  }

  // ----- queueing -----

  lemma QueueGrows(queued: seq<Release>, found: seq<string>, push: nat, p: nat)
    ensures QueuedBy(queued + Tagged(found, push), p) ==
            QueuedBy(queued, p) + (if push == p then Elements(found) else {})
  {
    var more := queued + Tagged(found, push);
    forall mac
      ensures mac in QueuedBy(more, p) <==> mac in QueuedBy(queued, p) || (push == p && mac in found)
    {
      if mac in QueuedBy(queued, p) {
        var i :| 0 <= i < |queued| && queued[i].push == p && queued[i].mac == mac;
        assert more[i] == queued[i];
      }
      if push == p && mac in found {
        var i :| 0 <= i < |found| && found[i] == mac;
        assert more[|queued| + i] == Release(push, mac);
      }
    }
  }

  lemma MacsGrow(queued: seq<Release>, found: seq<string>, push: nat)
    ensures MacsOf(queued + Tagged(found, push)) == MacsOf(queued) + found
  {
  }

  lemma QueuedIsIn(queued: seq<Release>, i: nat)
    requires i < |queued|
    ensures queued[i].mac in QueuedBy(queued, queued[i].push)
  {
  }

  lemma QueueKeepsSift(cfg: Config, log: seq<Event>, sift: Sift, found: seq<string>, push: nat)
    requires SiftOk(cfg, log, sift) && IsPush(log, push) && QueuedBy(sift.queued, push) == {}
    requires Sifts(cfg) && forall i, j :: 0 <= i < j < |found| ==> found[i] != found[j]
    ensures SiftOk(cfg, log, sift.(queued := sift.queued + Tagged(found, push)))
  {
    forall i | 0 <= i < |sift.queued|
      ensures sift.queued[i].push != push
    {
      QueuedIsIn(sift.queued, i);
    }
  }

  lemma QueueKeepsPushers(s: State, t: State, id: nat)
    requires PushersOk(s) && id in s.feeds.pushers && s.feeds.pushers[id].Queueing? && Moves(s, t, id, Some(Signalling))
    requires var p := s.feeds.pushers[id];
             t.h.log == s.h.log && t.h.sift == s.h.sift.(queued := s.h.sift.queued + Tagged(p.found, p.push))
    ensures PushersOk(t)
  {
    var log, was := s.h.log, s.feeds.pushers[id];
    MovesWorks(s, t, id, Some(Signalling));
    assert WorksOn(s, id, was.push) && Midway(log, s.h.sift, was);
    assert forall i, p :: WorksOn(t, i, p) ==> WorksOn(s, i, p);
    forall j | j in t.feeds.pushers && IsAtWork(t.feeds.pushers[j])
      ensures Midway(t.h.log, t.h.sift, t.feeds.pushers[j])
    {
      assert WorksOn(s, j, s.feeds.pushers[j].push);
      QueueGrows(s.h.sift.queued, was.found, was.push, s.feeds.pushers[j].push);
    }
    forall p: nat | IsPush(t.h.log, p) && !InProgress(t, p)
      ensures Done(t.cfg, t.h.log, t.h.sift, p)
    {
      QueueGrows(s.h.sift.queued, was.found, was.push, p);
      if p != was.push { NotInProgress(s, t, id, p); }
    }
  }

  lemma QueueKeeps(s: State, id: nat)
    requires Inv(s) && id in s.feeds.pushers && s.feeds.pushers[id].Queueing? && Sifts(s.cfg)
    ensures PusherEnabled(s, id, "") && Inv(DoPusherStep(s, id, ""))
  {
    var t, p := DoPusherStep(s, id, ""), s.feeds.pushers[id];
    QueueKeepsPushers(s, t, id);
    assert Midway(s.h.log, s.h.sift, p);
    QueueKeepsSift(s.cfg, s.h.log, s.h.sift, p.found, p.push);
    MacsGrow(s.h.sift.queued, p.found, p.push);
  }

  // Only a push that may ask is ever at work.
  ghost predicate WorkMeansSifts(s: State) {
    forall id :: id in s.feeds.pushers && IsAtWork(s.feeds.pushers[id]) ==> Sifts(s.cfg)
  }

  lemma PusherKeeps(s: State, id: nat, hint: string)
    requires Inv(s) && WorkMeansSifts(s) && PusherEnabled(s, id, hint)
    ensures Inv(DoPusherStep(s, id, hint))
  {
    match s.feeds.pushers[id]
    case Computed(_, _, _) => StoreKeeps(s, id);
    case Sifting(todo, found, push) =>
      if todo != {} {
        AskKeeps(s, id, hint);
      } else {
        SiftedKeeps(s, DoPusherStep(s, id, hint), id, if found == [] then Signalling else Queueing(found, push));
      }
    case Queueing(_, _) => QueueKeeps(s, id);
    case Signalling => IdleMoveKeeps(s, DoPusherStep(s, id, hint), id, None);
  }

  // ----- all steps -----

  lemma WorkStepKeeps(s: State, a: Action)
    requires WorkMeansSifts(s) && Enabled(s, a) && !a.LoopStep?
    ensures WorkMeansSifts(Do(s, a))
  {
  }

  lemma StepKeeps(s: State, a: Action)
    requires Inv(s) && WorkMeansSifts(s) && Enabled(s, a)
    ensures Inv(Do(s, a)) && WorkMeansSifts(Do(s, a))
  {
    if a.LoopStep? { LoopLeavesFeeds(s, a.ok); } else { WorkStepKeeps(s, a); }
    match a
    case CacheStep => CacheKeeps(s);
    case BeginPush(id, revision, reservations) =>
      IdleMoveKeeps(s, Do(s, a), id, Some(Computed(revision, reservations, |s.h.acks.begun|)));
    case PusherStep(id, hint) => PusherKeeps(s, id, hint);
    case ChildReads => ReadKeeps(s);
    case LoopStep(ok) => LoopKeeps(s, ok);
    case _ => SameKeeps(s, Do(s, a));
  }

  lemma {:induction false} RunKeepsSift(s: State, run: seq<Action>)
    requires Inv(s) && WorkMeansSifts(s) && IsRun(s, run)
    ensures Inv(End(s, run))
    decreases |run|
  {
    if run != [] {
      StepKeeps(s, run[0]);
      RunKeepsSift(Do(s, run[0]), run[1..]);
    }
  }

  lemma InitialInv(cfg: Config)
    ensures Inv(Initial(cfg)) && WorkMeansSifts(Initial(cfg))
  {
  }

  // ----- the theorems -----

  // Query q of the push at p is about mac.
  ghost predicate IsQuery(q: Query, p: nat, mac: string) {
    q.push == p && q.mac == mac
  }

  ghost predicate AskedUnclaimed(asked: seq<Query>, p: nat, mac: string) {
    exists j :: 0 <= j < |asked| && IsQuery(asked[j], p, mac) && !ClaimedLocally(asked[j])
  }

  // Release i is one of a MAC that lost its reservation and was not claimed locally, and the only one of its kind.
  ghost predicate RightlyQueued(s: State, i: nat)
    requires i < |s.h.sift.queued|
  {
    var r := s.h.sift.queued[i];
    && LosesPin(s.h.log, r.push, r.mac) && AskedUnclaimed(s.h.sift.asked, r.push, r.mac)
    && (forall j :: 0 <= j < |s.h.sift.queued| && j != i ==> s.h.sift.queued[j] != r)
  }

  /** Every MAC the reservation path queues lost its reservation at a push while in the allowlist, and when that
      push asked about it the cache was not synced or knew no Machine of this Subnet with it; no push queues a MAC
      twice. */
  lemma {:induction false} OnlyDepartedAreQueued(cfg: Config, run: seq<Action>)
    requires IsRun(Initial(cfg), run)
    ensures var s := End(Initial(cfg), run); forall i: nat :: i < |s.h.sift.queued| ==> RightlyQueued(s, i)
  {
    InitialInv(cfg);
    RunKeepsSift(Initial(cfg), run);
    var s := End(Initial(cfg), run);
    forall i: nat | i < |s.h.sift.queued|
      ensures RightlyQueued(s, i)
    {
      QueuedIsIn(s.h.sift.queued, i);
      QueuedIsUnclaimed(s, s.h.sift.queued[i].push, s.h.sift.queued[i].mac);
    }
  }

  lemma NoneQueuedInProgress(s: State, p: nat)
    requires PushersOk(s)
    ensures InProgress(s, p) ==> QueuedBy(s.h.sift.queued, p) == {}
  {
    if InProgress(s, p) {
      var id :| WorksOn(s, id, p);
      assert Midway(s.h.log, s.h.sift, s.feeds.pushers[id]);
    }
  }

  lemma QueuedIsUnclaimed(s: State, p: nat, mac: string)
    requires Inv(s) && IsPush(s.h.log, p) && mac in QueuedBy(s.h.sift.queued, p)
    ensures LosesPin(s.h.log, p, mac)
    ensures AskedUnclaimed(s.h.sift.asked, p, mac)
  {
    NoneQueuedInProgress(s, p);
    assert mac in Unclaimed(s.h.sift.asked, p);
    UnclaimedAreAsked(s.h.sift.asked, p);
    assert mac in Losers(s.h.log, p);
    var j :| 0 <= j < |s.h.sift.asked| && s.h.sift.asked[j].push == p && !ClaimedLocally(s.h.sift.asked[j])
             && s.h.sift.asked[j].mac == mac;
    assert IsQuery(s.h.sift.asked[j], p, mac);
  }

  // The push at p has asked about mac once, and queued it exactly when nobody claimed it locally.
  ghost predicate RightlySifted(s: State, p: nat, mac: string) {
    exists j :: 0 <= j < |s.h.sift.asked| && IsOnlyQuery(s.h.sift.asked, j, p, mac)
                && (Release(p, mac) in s.h.sift.queued <==> !ClaimedLocally(s.h.sift.asked[j]))
  }

  ghost predicate IsOnlyQuery(asked: seq<Query>, j: nat, p: nat, mac: string) {
    && j < |asked| && IsQuery(asked[j], p, mac)
    && (forall i :: 0 <= i < |asked| && IsQuery(asked[i], p, mac) ==> i == j)
  }

  /** Conversely, in lease mode with member queries, a push that is through has asked once about every MAC that lost its
      reservation by it while in the allowlist, and has queued it exactly when that query found no local claim. */
  lemma {:induction false} AllDepartedAreQueued(cfg: Config, run: seq<Action>)
    requires IsRun(Initial(cfg), run) && Sifts(cfg)
    ensures var s := End(Initial(cfg), run);
            forall p, mac :: LosesPin(s.h.log, p, mac) && !InProgress(s, p) ==> RightlySifted(s, p, mac)
  {
    InitialInv(cfg);
    RunKeepsSift(Initial(cfg), run);
    ConfigStays(Initial(cfg), run);
    var s := End(Initial(cfg), run);
    forall p: nat, mac | LosesPin(s.h.log, p, mac) && !InProgress(s, p)
      ensures RightlySifted(s, p, mac)
    {
      LoserIsSifted(s, p, mac);
    }
  }

  lemma LoserIsSifted(s: State, p: nat, mac: string)
    requires Inv(s) && Sifts(s.cfg) && LosesPin(s.h.log, p, mac) && !InProgress(s, p)
    ensures RightlySifted(s, p, mac)
  {
    assert mac in Losers(s.h.log, p);
    assert mac in Asked(s.h.sift.asked, p);
    var j :| 0 <= j < |s.h.sift.asked| && s.h.sift.asked[j].push == p && s.h.sift.asked[j].mac == mac;
    AskedOnce(s, p, mac, j);
    assert IsOnlyQuery(s.h.sift.asked, j, p, mac);
  }

  lemma AskedOnce(s: State, p: nat, mac: string, j: nat)
    requires Inv(s) && IsPush(s.h.log, p) && !InProgress(s, p)
    requires j < |s.h.sift.asked| && IsQuery(s.h.sift.asked[j], p, mac)
    ensures forall i :: 0 <= i < |s.h.sift.asked| && IsQuery(s.h.sift.asked[i], p, mac) ==> i == j
    ensures Release(p, mac) in s.h.sift.queued <==> !ClaimedLocally(s.h.sift.asked[j])
  {
    var asked, queued := s.h.sift.asked, s.h.sift.queued;
    assert Done(s.cfg, s.h.log, s.h.sift, p);
    if Release(p, mac) in queued {
      var i :| 0 <= i < |queued| && queued[i] == Release(p, mac);
      assert mac in QueuedBy(queued, p);
      assert mac in Unclaimed(asked, p);
      var q :| 0 <= q < |asked| && asked[q].push == p && !ClaimedLocally(asked[q]) && asked[q].mac == mac;
      assert q == j;
    }
    if !ClaimedLocally(asked[j]) {
      assert mac in Unclaimed(asked, p);
      assert mac in QueuedBy(queued, p);
      var i :| 0 <= i < |queued| && queued[i].push == p && queued[i].mac == mac;
      assert queued[i] == Release(p, mac);
    }
  }

  /** What is queued for release is what the allowlist path dropped and what the reservation path queued, and without
      lease mode or member queries the latter is nothing. */
  lemma {:induction false} QueueHasTwoSources(cfg: Config, run: seq<Action>)
    requires IsRun(Initial(cfg), run)
    ensures var h := End(Initial(cfg), run).h;
            && multiset(h.queued) == multiset(h.dropped) + multiset(MacsOf(h.sift.queued))
            && (!Sifts(cfg) ==> h.sift.queued == [])
  {
    InitialInv(cfg);
    RunKeepsSift(Initial(cfg), run);
    ConfigStays(Initial(cfg), run);
  }

  // ----- the queries are real -----

  // Query q shows the cache as it was after the first n steps of the run, with MACCache.mu free once synced.
  ghost predicate TakenAt(s: State, run: seq<Action>, n: nat, q: Query) {
    && n < |run| && IsRun(s, run[..n])
    && var u := End(s, run[..n]);
       && q.synced == u.feeds.synced && q.records == u.feeds.records && (q.synced ==> u.feeds.cachePc == Free)
       && run[n].PusherStep? && run[n].hint == q.mac
  }

  // more is asked, or asked and one query about mac that shows the cache as it is in s.
  ghost predicate AsksOnce(s: State, asked: seq<Query>, more: seq<Query>, a: Action) {
    more == asked
    || (|more| == |asked| + 1 && more[..|asked|] == asked && IsAskedIn(s, more[|asked|], a))
  }

  ghost predicate IsAskedIn(s: State, q: Query, a: Action) {
    && a.PusherStep? && q.mac == a.hint && q.synced == s.feeds.synced && q.records == s.feeds.records
    && (s.feeds.synced ==> s.feeds.cachePc == Free)
  }

  lemma StepAsks(s: State, a: Action)
    requires Enabled(s, a)
    ensures AsksOnce(s, s.h.sift.asked, Do(s, a).h.sift.asked, a)
  {
    match a
    case LoopStep(ok) => LoopAsksNothing(s, ok);
    case PusherStep(id, hint) => PusherAsks(s, id, hint);
    case CacheStep => assert DoCacheStep(s).h.sift == s.h.sift;
    case _ =>
  }

  lemma PusherAsks(s: State, id: nat, hint: string)
    requires PusherEnabled(s, id, hint)
    ensures AsksOnce(s, s.h.sift.asked, DoPusherStep(s, id, hint).h.sift.asked, PusherStep(id, hint))
  {
  }

  lemma LoopAsksNothing(s: State, ok: bool)
    requires LoopEnabled(s, ok)
    ensures DoLoopStep(s, ok).h.sift == s.h.sift
  {
    if ConfirmPc(s.loop.pc) { ConfirmIsSame(s, ok); } else if EarlyPc(s.loop.pc) { EarlyIsSame(s); }
  }

  lemma {:induction false} QueriesFrom(s: State, run: seq<Action>, i: nat)
    requires IsRun(s, run) && |s.h.sift.asked| <= i < |End(s, run).h.sift.asked|
    ensures exists n: nat :: TakenAt(s, run, n, End(s, run).h.sift.asked[i])
    decreases |run|
  {
    var next, rest := Do(s, run[0]), run[1..];
    StepAsks(s, run[0]);
    AskedStay(next, rest);
    if i < |next.h.sift.asked| {
      TakenFirst(s, run, next.h.sift.asked[i]);
    } else {
      QueriesFrom(next, rest, i);
      var n: nat :| TakenAt(next, rest, n, End(next, rest).h.sift.asked[i]);
      TakenLater(s, run, n, End(next, rest).h.sift.asked[i]);
    }
  }

  lemma {:induction false} TakenFirst(s: State, run: seq<Action>, q: Query)
    requires run != [] && IsAskedIn(s, q, run[0])
    ensures TakenAt(s, run, 0, q)
  {
    assert run[..0] == [];
  }

  lemma {:induction false} TakenLater(s: State, run: seq<Action>, n: nat, q: Query)
    requires run != [] && Enabled(s, run[0]) && TakenAt(Do(s, run[0]), run[1..], n, q)
    ensures TakenAt(s, run, n + 1, q)
  {
    var rest := run[1..];
    assert run[..n + 1] == [run[0]] + rest[..n] && run[..n + 1][1..] == rest[..n];
  }

  lemma {:induction false} AskedStay(s: State, run: seq<Action>)
    requires IsRun(s, run)
    ensures s.h.sift.asked <= End(s, run).h.sift.asked
    decreases |run|
  {
    if run != [] {
      StepAsks(s, run[0]);
      AskedStay(Do(s, run[0]), run[1..]);
    }
  }

  // Some step of the run asked q.
  ghost predicate IsTaken(s: State, run: seq<Action>, q: Query) {
    exists n: nat :: TakenAt(s, run, n, q)
  }

  /** Every query shows the cache as it was at the step of the run that asked it. */
  lemma {:induction false} QueriesAreReal(cfg: Config, run: seq<Action>)
    requires IsRun(Initial(cfg), run)
    ensures var asked := End(Initial(cfg), run).h.sift.asked;
            forall i :: 0 <= i < |asked| ==> IsTaken(Initial(cfg), run, asked[i])
  {
    var asked := End(Initial(cfg), run).h.sift.asked;
    forall i: nat | i < |asked|
      ensures IsTaken(Initial(cfg), run, asked[i])
    {
      QueriesFrom(Initial(cfg), run, i);
    }
  }
}
