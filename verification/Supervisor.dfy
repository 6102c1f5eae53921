// The dnsmasq supervisor's shared state, and the critical sections its
// setters and its hostsfile loop run under the supervisor's mutex.
module Supervisor {
  import opened Common
  import opened Text
  import opened Hostsfile

  // The fields Dnsmasq.mu guards.
  datatype Shared = Shared(
    macs: seq<string>, reservations: map<string, string>, revision: string, revSet: bool,
    child: Option<nat>, pending: seq<string>)

  // The fields Dnsmasq.readMu guards: the reads counted, and whether readSig holds a channel somebody waits on.
  datatype Reads = Reads(count: nat, armed: bool)

  const NO_READS := Reads(0, false)

  // ----- critical sections as functions -----

  // macDiff: the entries of before absent from current.
  function MacDiff(before: seq<string>, current: seq<string>): seq<string> {
    if before == [] then []
    else (if before[0] in current then [] else [before[0]]) + MacDiff(before[1..], current)
  }

  function StoreMacs(d: Shared, macs: seq<string>, leaseMode: bool): Shared {
    d.(macs := macs, pending := if leaseMode then d.pending + MacDiff(d.macs, macs) else d.pending)
  }

  function StoreReservations(d: Shared, revision: string, reservations: map<string, string>): Shared {
    d.(reservations := reservations, revision := revision, revSet := true)
  }

  function QueueReleases(d: Shared, macs: seq<string>): Shared {
    d.(pending := d.pending + macs)
  }

  function NoteRead(r: Reads): Reads {
    Reads(r.count + 1, false)
  }

  predicate ReadAfter(r: Reads, baseline: nat) {
    r.count > baseline
  }

  // One turn of the wait: without a read after the baseline, a channel is armed.
  function AwaitRead(r: Reads, baseline: nat): Reads {
    if ReadAfter(r, baseline) then r else r.(armed := true)
  }

  // The MACs whose reservation disappears in a push while they stay in the allowlist.
  ghost function Unreserved(d: Shared, reservations: map<string, string>): set<string> {
    set mac | mac in d.reservations && mac !in reservations && mac in d.macs
  }

  // ----- facts about the sections -----

  lemma {:induction false} MacDiffAppend(a: seq<string>, mac: string, current: seq<string>)
    ensures MacDiff(a + [mac], current) == MacDiff(a, current) + (if mac in current then [] else [mac])
  {
    if a == [] {
      assert [mac][1..] == [];
    } else {
      assert (a + [mac])[1..] == a[1..] + [mac];
      MacDiffAppend(a[1..], mac, current);
    }
  }

  // For a listing, macDiff names each departed MAC once and nothing else.
  lemma {:induction false} MacDiffIsDifference(before: seq<string>, current: seq<string>)
    requires Canonical(before)
    ensures multiset(MacDiff(before, current)) == multiset(Elements(before) - Elements(current))
  {
    if before != [] {
      var mac, rest := before[0], before[1..];
      TailElements(before);
      MacDiffIsDifference(rest, current);
      if mac in current {
        assert Elements(before) - Elements(current) == Elements(rest) - Elements(current);
      } else {
        assert Elements(before) - Elements(current) == (Elements(rest) - Elements(current)) + {mac};
      }
    }
  }

  /** macDiff */
  method ComputeMacDiff(before: seq<string>, current: seq<string>) returns (removed: seq<string>)
    ensures removed == MacDiff(before, current)
  {
    removed := [];
    for i := 0 to |before|
      invariant removed == MacDiff(before[..i], current)
    {
      assert before[..i + 1] == before[..i] + [before[i]];
      MacDiffAppend(before[..i], before[i], current);
      if before[i] !in current {
        removed := removed + [before[i]];
      }
    }
    assert before[..|before|] == before;
  }

  ghost predicate MustRelease(mac: string, reservations: map<string, string>, allowed: seq<string>,
                              local: set<string>) {
    mac !in reservations && mac in allowed && mac !in local
  }

  // The loop of SetReservations over the previous table, in any order.
  method SiftReleases(before: set<string>, reservations: map<string, string>, allowed: seq<string>, local: set<string>)
    returns (toRelease: seq<string>)
    ensures multiset(toRelease) == multiset(set mac | mac in before && MustRelease(mac, reservations, allowed, local))
  {
    toRelease := [];
    var rest := before;
    while rest != {}
      invariant rest <= before
      invariant multiset(toRelease) ==
                multiset(set mac | mac in before - rest && MustRelease(mac, reservations, allowed, local))
      decreases rest
    {
      var mac :| mac in rest;
      ghost var seen := set m | m in before - rest && MustRelease(m, reservations, allowed, local);
      rest := rest - {mac};
      ghost var next := set m | m in before - rest && MustRelease(m, reservations, allowed, local);
      if mac !in reservations && mac in allowed && mac !in local {
        toRelease := toRelease + [mac];
        assert next == seen + {mac};
      } else {
        assert next == seen;
      }
    }
    assert before - {} == before;
  }

  class Dnsmasq {
    const leaseMode: bool
    var macs: seq<string>
    var reservations: map<string, string>
    var revision: string
    var revSet: bool
    var child: Option<nat>
    var pendingReleases: seq<string>
    // The one-slot channel, and whether firstMACsSig is closed.
    var dirty: bool
    var firstMACs: bool
    // The read counter, and whether readSig holds a channel somebody waits on.
    var readSeq: nat
    var armed: bool

    ghost function Guarded(): Shared
      reads this
    {
      Shared(macs, reservations, revision, revSet, child, pendingReleases)
    }

    ghost function Confirmations(): Reads
      reads this
    {
      Reads(readSeq, armed)
    }

    constructor (leaseMode: bool)
      ensures this.leaseMode == leaseMode
      ensures Guarded() == Shared([], map[], "", false, None, [])
      ensures !dirty && !firstMACs && Confirmations() == NO_READS
    {
      this.leaseMode := leaseMode;
      macs, reservations, revision, revSet, child, pendingReleases := [], map[], "", false, None, [];
      dirty, firstMACs, readSeq, armed := false, false, 0, false;
    }

    /** requeueDirty: a send that a full slot swallows */
    method RequeueDirty()
      modifies this`dirty
      ensures dirty
    {
      if !dirty {
        dirty := true;
      }
    }

    /** SetAllowedMACs */
    method SetAllowedMACs(allowed: seq<string>)
      modifies this`macs, this`pendingReleases, this`firstMACs, this`dirty
      ensures Guarded() == StoreMacs(old(Guarded()), allowed, leaseMode)
      ensures firstMACs && dirty
    {
      var before := macs;
      macs := allowed;
      if leaseMode {
        var removed := ComputeMacDiff(before, macs);
        pendingReleases := pendingReleases + removed;
      }
      firstMACs := true;
      RequeueDirty();
    }

    /** The first section of SetReservations: the table and its revision change together, and what the
        candidates for release depend on is read at the same instant. */
    method StoreTable(newRevision: string, newReservations: map<string, string>)
      returns (before: map<string, string>, allowed: seq<string>)
      modifies this`reservations, this`revision, this`revSet
      ensures Guarded() == StoreReservations(old(Guarded()), newRevision, newReservations)
      ensures before == old(reservations) && allowed == old(macs)
    {
      before, allowed := reservations, macs;
      reservations, revision, revSet := newReservations, newRevision, true;
    }

    /** Its second section, on whatever the queue holds by then. */
    method QueueFound(found: seq<string>)
      modifies this`pendingReleases
      ensures Guarded() == QueueReleases(old(Guarded()), found)
    {
      if |found| > 0 {
        pendingReleases := pendingReleases + found;
      }
    }

    /** SetReservations with nothing between its sections; local is the MACs SubnetMember answers for, when it is
        set: each is asked about at most once, so its answers form a set whenever they are given. */
    method SetReservations(newRevision: string, newReservations: map<string, string>, local: Option<set<string>>)
      returns (toRelease: seq<string>)
      modifies this`reservations, this`revision, this`revSet, this`pendingReleases, this`dirty
      ensures Guarded() == QueueReleases(StoreReservations(old(Guarded()), newRevision, newReservations), toRelease)
      ensures multiset(toRelease) == if leaseMode && local.Some?
                                     then multiset(Unreserved(old(Guarded()), newReservations) - local.value)
                                     else multiset{}
      ensures dirty
    {
      var before, allowed := StoreTable(newRevision, newReservations);
      toRelease := [];
      if leaseMode && local.Some? {
        toRelease := SiftReleases(before.Keys, newReservations, allowed, local.value);
        assert (set mac | mac in before.Keys && MustRelease(mac, newReservations, allowed, local.value))
            == Unreserved(old(Guarded()), newReservations) - local.value;
        QueueFound(toRelease);
      }
      RequeueDirty();
    }

    /** The loop's snapshot: everything it works from is read in one section, and the releases are taken over. */
    method TakeSnapshot() returns (content: string, running: Option<nat>, rev: string, isSet: bool,
                                   toRelease: seq<string>)
      modifies this`pendingReleases
      ensures Guarded() == old(Guarded()).(pending := [])
      ensures content == Render(old(macs), old(reservations)) && running == old(child)
      ensures rev == old(revision) && isSet == old(revSet) && toRelease == old(pendingReleases)
    {
      content := RenderHostsfile(macs, reservations);
      running, rev, isSet, toRelease := child, revision, revSet, pendingReleases;
      pendingReleases := [];
    }

    /** noteHostsfileRead */
    method NoteHostsfileRead() returns (woke: bool)
      modifies this`readSeq, this`armed
      ensures Confirmations() == NoteRead(old(Confirmations())) && woke == old(armed)
    {
      readSeq := readSeq + 1;
      woke := armed;
      armed := false;
    }

    /** One turn of waitForHostsfileReadAfter: a confirming read, or a channel to wait on. */
    method CheckReadAfter(after: nat) returns (confirmed: bool)
      modifies this`armed
      ensures confirmed == ReadAfter(old(Confirmations()), after)
      ensures Confirmations() == AwaitRead(old(Confirmations()), after)
    {
      if readSeq > after {
        return true;
      }
      if !armed {
        armed := true;
      }
      return false;
    }
  }
}
