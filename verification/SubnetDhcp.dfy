// The Subnet's DHCP reservations: the table pushed to the supervisor, and the
// acknowledgement written back.
module SubnetDhcp {
  import opened Common
  import opened Mac
  import opened Hostsfile

  datatype Reservation = Reservation(mac: string, address: string)

  // status.dhcp
  datatype Status = Status(revision: string, reservations: seq<Reservation>, appliedRevision: string)

  // lease: spec.dhcp is given, with mode Lease.
  datatype Subnet = Subnet(namespace: string, name: string, lease: bool, dhcp: Option<Status>)

  // What the informer hands over.
  datatype Object = IsSubnet(subnet: Subnet) | Tombstone(last: Object) | Other

  datatype Pushed = Pushed(revision: string, table: map<string, string>)

  function RevisionOf(subnet: Subnet): string {
    if subnet.lease && subnet.dhcp.Some? then subnet.dhcp.value.revision else ""
  }

  function ReservationsOf(subnet: Subnet): seq<Reservation> {
    if subnet.lease && subnet.dhcp.Some? then subnet.dhcp.value.reservations else []
  }

  // The Subnet an event is about.
  function SubnetOf(obj: Object): Option<Subnet> {
    match obj
    case IsSubnet(subnet) => Some(subnet)
    case Tombstone(IsSubnet(subnet)) => Some(subnet)
    case _ => None
  }

  // ----- what a table must say -----

  // Reservation i is the last one for mac, in whatever spelling.
  ghost predicate IsLast(rs: seq<Reservation>, i: int, mac: string) {
    && 0 <= i < |rs| && NormalizeMAC(rs[i].mac) == Some(mac)
    && (forall j :: i < j < |rs| ==> NormalizeMAC(rs[j].mac) != Some(mac))
  }

  // The table pins a MAC exactly when some reservation names it, to the address of the last that does.
  ghost predicate IsTable(table: map<string, string>, rs: seq<Reservation>) {
    && (forall i :: 0 <= i < |rs| && NormalizeMAC(rs[i].mac).Some? ==> NormalizeMAC(rs[i].mac).value in table)
    && (forall mac :: mac in table ==> PinnedTo(rs, mac, table[mac]))
  }

  ghost predicate PinnedTo(rs: seq<Reservation>, mac: string, address: string) {
    exists i :: IsLast(rs, i, mac) && rs[i].address == address
  }

  lemma EmptyTable()
    ensures IsTable(map[], [])
  {
  }

  // One more reservation overrides the earlier ones for its MAC, and a malformed one is skipped.
  lemma TableGrows(table: map<string, string>, rs: seq<Reservation>, r: Reservation)
    requires IsTable(table, rs)
    ensures var n := NormalizeMAC(r.mac);
            IsTable(if n.Some? then table[n.value := r.address] else table, rs + [r])
  {
    var n, more := NormalizeMAC(r.mac), rs + [r];
    var after := if n.Some? then table[n.value := r.address] else table;
    forall mac | mac in after
      ensures PinnedTo(more, mac, after[mac])
    {
      if n == Some(mac) {
        assert IsLast(more, |rs|, mac);
      } else {
        assert PinnedTo(rs, mac, table[mac]);
        var i :| IsLast(rs, i, mac) && rs[i].address == table[mac];
        assert IsLast(more, i, mac) && more[i] == rs[i];
      }
    }
  }

  /** There is one such table. */
  lemma TableUnique(a: map<string, string>, b: map<string, string>, rs: seq<Reservation>)
    requires IsTable(a, rs) && IsTable(b, rs)
    ensures a == b
  {
    TableWithin(a, b, rs);
    TableWithin(b, a, rs);
  }

  lemma TableWithin(a: map<string, string>, b: map<string, string>, rs: seq<Reservation>)
    requires IsTable(a, rs) && IsTable(b, rs)
    ensures forall mac :: mac in a ==> mac in b && a[mac] == b[mac]
  {
    forall mac | mac in a
      ensures mac in b && a[mac] == b[mac]
    {
      assert PinnedTo(rs, mac, a[mac]);
      var i :| IsLast(rs, i, mac) && rs[i].address == a[mac];
      assert NormalizeMAC(rs[i].mac).value in b;
      PinIsUnique(rs, mac, a[mac], b[mac]);
    }
  }

  // The last reservation for a MAC is one.
  lemma PinIsUnique(rs: seq<Reservation>, mac: string, a: string, b: string)
    requires PinnedTo(rs, mac, a) && PinnedTo(rs, mac, b)
    ensures a == b
  {
    var i :| IsLast(rs, i, mac) && rs[i].address == a;
    var j :| IsLast(rs, j, mac) && rs[j].address == b;
    assert i == j;
  }

  /** Every pinned MAC is normalized, so it can meet the allowlist's spelling. */
  lemma TableIsNormalized(table: map<string, string>, rs: seq<Reservation>)
    requires IsTable(table, rs)
    ensures forall mac :: mac in table ==> IsNormalized(mac)
  {
    forall mac | mac in table
      ensures IsNormalized(mac)
    {
      assert PinnedTo(rs, mac, table[mac]);
      var i :| IsLast(rs, i, mac) && rs[i].address == table[mac];
      NormalizeIdempotent(rs[i].mac);
    }
  }

  // No reservation names mac.
  ghost predicate Unnamed(rs: seq<Reservation>, mac: string) {
    forall i :: 0 <= i < |rs| ==> NormalizeMAC(rs[i].mac) != Some(mac)
  }

  // What the table pins for a MAC, told from the reservations.
  lemma TablePins(table: map<string, string>, rs: seq<Reservation>, mac: string)
    requires IsTable(table, rs)
    ensures if Unnamed(rs, mac) then Pin(table, mac) == "" else PinnedTo(rs, mac, Pin(table, mac))
  {
    if mac in table {
      assert PinnedTo(rs, mac, table[mac]);
    }
  }

  lemma PlainTable(table: map<string, string>, rs: seq<Reservation>, mac: string)
    requires IsTable(table, rs) && forall i :: 0 <= i < |rs| ==> '\n' !in rs[i].address
    ensures '\n' !in Pin(table, mac)
  {
    TablePins(table, rs, mac);
  }

  /** From the Subnet's status to the bytes dnsmasq reads: an allowed MAC is pinned to its last reservation's
      address, and to none when no reservation names it. */
  lemma RenderedTablePins(table: map<string, string>, rs: seq<Reservation>, macs: seq<string>, mac: string)
    requires IsTable(table, rs) && mac in macs
    requires (forall m :: m in macs ==> IsNormalized(m)) && forall i :: 0 <= i < |rs| ==> '\n' !in rs[i].address
    ensures var hosts := ReadHosts(Render(macs, table));
            && mac in hosts
            && if Unnamed(rs, mac) then hosts[mac] == "" else PinnedTo(rs, mac, hosts[mac])
  {
    forall m | m in macs
      ensures '\n' !in Pin(table, m)
    {
      PlainTable(table, rs, m);
    }
    RenderRoundTrip(macs, table);
    TablePins(table, rs, mac);
    assert ReadHosts(Render(macs, table))[mac] == Pin(table, mac);
  }

  class SubnetDHCPCache {
    const namespace: string
    const name: string
    var revision: string
    var synced: bool
    // The calls of SetReservations so far.
    var pushed: seq<Pushed>

    constructor (namespace: string, name: string)
      ensures this.namespace == namespace && this.name == name
      ensures revision == "" && !synced && pushed == []
    {
      this.namespace, this.name := namespace, name;
      revision, synced, pushed := "", false, [];
    }

    // One more push than before, of subnet's reservations, under the revision now current.
    ghost predicate HasPushed(before: seq<Pushed>, subnet: Subnet)
      reads this
    {
      && revision == RevisionOf(subnet)
      && |pushed| == |before| + 1 && pushed[..|before|] == before
      && pushed[|before|].revision == revision
      && IsTable(pushed[|before|].table, ReservationsOf(subnet))
    }

    /** push */
    method Push(subnet: Subnet)
      modifies this`revision, this`pushed
      ensures HasPushed(old(pushed), subnet)
      ensures !subnet.lease || subnet.dhcp.None? ==> revision == "" && pushed == old(pushed) + [Pushed("", map[])]
      ensures subnet.lease && subnet.dhcp.Some? ==>
                && revision == subnet.dhcp.value.revision
                && IsTable(pushed[|old(pushed)|].table, subnet.dhcp.value.reservations)
    {
      var addresses: map<string, string> := map[];
      var rev := "";
      EmptyTable();
      if subnet.lease && subnet.dhcp.Some? {
        rev := subnet.dhcp.value.revision;
        var rs := subnet.dhcp.value.reservations;
        for i := 0 to |rs|
          invariant IsTable(addresses, rs[..i]) && pushed == old(pushed)
        {
          assert rs[..i + 1] == rs[..i] + [rs[i]];
          TableGrows(addresses, rs[..i], rs[i]);
          var mac := NormalizeMAC(rs[i].mac);
          if mac.None? {
            continue;
          }
          addresses := addresses[mac.value := rs[i].address];
        }
        assert rs[..|rs|] == rs;
      }
      revision := rev;
      pushed := pushed + [Pushed(rev, addresses)];
    }

    /** onEvent: only this cache's own Subnet, and only once synced */
    method OnEvent(obj: Object)
      modifies this`revision, this`pushed
      ensures var subnet := SubnetOf(obj);
              if synced && subnet.Some? && subnet.value.namespace == namespace && subnet.value.name == name
              then HasPushed(old(pushed), subnet.value)
              else revision == old(revision) && pushed == old(pushed)
    {
      var found := obj;
      if !found.IsSubnet? {
        if !found.Tombstone? {
          return;
        }
        found := obj.last;
        if !found.IsSubnet? {
          return;
        }
      }
      if found.subnet.namespace != namespace || found.subnet.name != name {
        return;
      }
      if !synced {
        return;
      }
      Push(found.subnet);
    }

    /** MarkApplied; stored is the Subnet a Get returns, accepted whether the status patch is */
    method MarkApplied(applied: string, stored: Option<Subnet>, accepted: bool) returns (after: Option<Subnet>)
      ensures applied == revision && applied != "" && stored.Some? && accepted ==>
                after.Some? && after.value.dhcp.Some? && after.value.dhcp.value.appliedRevision == applied
      ensures after == if applied == revision && stored.Some? && accepted then Some(Acknowledge(stored.value, applied))
              else stored
    {
      if applied != revision {
        return stored;
      }
      if stored.None? {
        return stored;
      }
      var dhcp := if stored.value.dhcp.None? then Status("", [], "") else stored.value.dhcp.value;
      if dhcp.appliedRevision == applied {
        return stored;
      }
      if !accepted {
        return stored;
      }
      after := Some(stored.value.(dhcp := Some(dhcp.(appliedRevision := applied))));
    }
  }

  // The acknowledgement writes appliedRevision alone; an empty one is not worth a status.
  ghost function Acknowledge(subnet: Subnet, applied: string): Subnet {
    match subnet.dhcp
    case None => if applied == "" then subnet else subnet.(dhcp := Some(Status("", [], applied)))
    case Some(dhcp) => subnet.(dhcp := Some(dhcp.(appliedRevision := applied)))
  }

  /** An acknowledged revision is on the Subnet, next to the status as it was. */
  lemma AcknowledgeRecords(subnet: Subnet, applied: string)
    requires applied != ""
    ensures var after := Acknowledge(subnet, applied);
            && after.dhcp.Some? && after.dhcp.value.appliedRevision == applied
            && after.namespace == subnet.namespace && after.name == subnet.name && after.lease == subnet.lease
            && after.dhcp.value.revision == (if subnet.dhcp.Some? then subnet.dhcp.value.revision else "")
            && after.dhcp.value.reservations == (if subnet.dhcp.Some? then subnet.dhcp.value.reservations else [])
  {
  }

  /** Acknowledging never changes what the next push reads, so it cannot trigger a different push. */
  lemma AcknowledgeKeepsPush(subnet: Subnet, applied: string)
    ensures RevisionOf(Acknowledge(subnet, applied)) == RevisionOf(subnet)
    ensures ReservationsOf(Acknowledge(subnet, applied)) == ReservationsOf(subnet)
  {
  }
}
