// The allowlist of boot MACs: an incremental reference count over Machines,
// pushed to a sink after every change.
module MacCache {
  import opened Common
  import opened Text
  import opened Mac

  datatype Machine = Machine(namespace: string, name: string, bootMACAddress: string, subnetNamespace: string,
                             subnetName: string)

  // A Subnet's identity; an empty name means no Subnet is configured.
  datatype Subnet = Subnet(namespace: string, name: string)

  // machineRecord
  datatype Record = Record(mac: string, local: bool)

  // What an informer hands to an event handler.
  datatype Object = IsMachine(machine: Machine) | Tombstone(last: Object) | Other

  datatype Event = Added(obj: Object) | Updated(before: Object, after: Object) | Deleted(obj: Object)

  function KeyOf(m: Machine): string {
    m.namespace + "/" + m.name
  }

  // isLocalLocked
  predicate IsLocal(own: Subnet, m: Machine) {
    && own.name != ""
    && (if m.subnetNamespace != "" then m.subnetNamespace else m.namespace) == own.namespace
    && m.subnetName == own.name
  }

  function RecordOf(own: Subnet, m: Machine): Option<Record> {
    match NormalizeMAC(m.bootMACAddress)
    case None => None
    case Some(mac) => Some(Record(mac, IsLocal(own, m)))
  }

  // ----- what the index must say -----

  // The Machines known after an event: identity comes from the old object.
  ghost function MachinesAfter(machines: map<string, Machine>, e: Event): map<string, Machine> {
    match e
    case Added(IsMachine(m)) => machines[KeyOf(m) := m]
    case Updated(IsMachine(before), IsMachine(after)) => machines[KeyOf(before) := after]
    case Deleted(IsMachine(m)) => machines - {KeyOf(m)}
    case Deleted(Tombstone(IsMachine(m))) => machines - {KeyOf(m)}
    case _ => machines
  }

  ghost function MachinesAfterAll(machines: map<string, Machine>, events: seq<Event>): map<string, Machine>
    decreases |events|
  {
    if events == [] then machines else MachinesAfterAll(MachinesAfter(machines, events[0]), events[1..])
  }

  // The valid records of the Machines.
  ghost function RecordsOf(own: Subnet, machines: map<string, Machine>): map<string, Record> {
    map k | k in machines && RecordOf(own, machines[k]).Some? :: RecordOf(own, machines[k]).value
  }

  // The Machines claiming mac; with localOnly, those of this bootd's own Subnet.
  ghost function Claimants(records: map<string, Record>, mac: string, localOnly: bool): set<string> {
    set k | k in records && records[k].mac == mac && (localOnly ==> records[k].local)
  }

  ghost function Enrolled(records: map<string, Record>): set<string> {
    set k | k in records :: records[k].mac
  }

  // counts holds, for each MAC somebody claims, how many do.
  ghost predicate Tallies(counts: map<string, int>, records: map<string, Record>, localOnly: bool) {
    && (forall mac :: mac in counts <==> Claimants(records, mac, localOnly) != {})
    && (forall mac :: mac in counts ==> counts[mac] == |Claimants(records, mac, localOnly)|)
  }

  ghost predicate IsRecount(records: map<string, Record>, counts: map<string, int>, localCounts: map<string, int>) {
    Tallies(counts, records, false) && Tallies(localCounts, records, true)
  }

  // counts[mac]++ on a Go map.
  function Increment(counts: map<string, int>, mac: string): map<string, int> {
    counts[mac := (if mac in counts then counts[mac] else 0) + 1]
  }

  function Decrement(counts: map<string, int>, mac: string): map<string, int> {
    if mac !in counts || counts[mac] <= 1 then counts - {mac} else counts[mac := counts[mac] - 1]
  }

  // Whether a record is seen by one of the two tallies.
  ghost predicate Counts(rec: Record, localOnly: bool) {
    localOnly ==> rec.local
  }

  // The number of claimants of a MAC when a record is stored under a new key, or forgotten.
  lemma ClaimantsWith(records: map<string, Record>, key: string, rec: Record, mac: string, localOnly: bool)
    requires key !in records
    ensures |Claimants(records[key := rec], mac, localOnly)| ==
            |Claimants(records, mac, localOnly)| + (if mac == rec.mac && Counts(rec, localOnly) then 1 else 0)
  {
    var before, after := Claimants(records, mac, localOnly), Claimants(records[key := rec], mac, localOnly);
    var added := if mac == rec.mac && Counts(rec, localOnly) then {key} else {};
    forall k
      ensures k in after <==> k in before || k in added
    {
    }
    assert after == before + added;
    assert before !! added;
  }

  lemma ClaimantsWithout(records: map<string, Record>, key: string, mac: string, localOnly: bool)
    requires key in records
    ensures |Claimants(records - {key}, mac, localOnly)| ==
            |Claimants(records, mac, localOnly)| -
              (if mac == records[key].mac && Counts(records[key], localOnly) then 1 else 0)
  {
    var before, after := Claimants(records, mac, localOnly), Claimants(records - {key}, mac, localOnly);
    if mac == records[key].mac && Counts(records[key], localOnly) {
      assert key in before && after == before - {key};
    } else {
      assert after == before;
    }
  }

  // A tally by numbers alone.
  lemma TalliesByNumber(counts: map<string, int>, records: map<string, Record>, localOnly: bool)
    ensures Tallies(counts, records, localOnly) <==>
            forall mac :: (if mac in counts then counts[mac] else 0) == |Claimants(records, mac, localOnly)|
              && (mac in counts ==> counts[mac] != 0)
  {
  }

  lemma IncrementTallies(counts: map<string, int>, records: map<string, Record>, key: string, rec: Record,
                         localOnly: bool)
    requires Tallies(counts, records, localOnly) && key !in records
    ensures Tallies(if Counts(rec, localOnly) then Increment(counts, rec.mac) else counts,
                    records[key := rec], localOnly)
  {
    TalliesByNumber(counts, records, localOnly);
    forall mac
      ensures |Claimants(records[key := rec], mac, localOnly)| ==
              |Claimants(records, mac, localOnly)| + (if mac == rec.mac && Counts(rec, localOnly) then 1 else 0)
    {
      ClaimantsWith(records, key, rec, mac, localOnly);
    }
    TalliesByNumber(if Counts(rec, localOnly) then Increment(counts, rec.mac) else counts,
                    records[key := rec], localOnly);
  }

  lemma DecrementTallies(counts: map<string, int>, records: map<string, Record>, key: string, localOnly: bool)
    requires Tallies(counts, records, localOnly) && key in records
    ensures Tallies(if Counts(records[key], localOnly) then Decrement(counts, records[key].mac) else counts,
                    records - {key}, localOnly)
  {
    var rec := records[key];
    TalliesByNumber(counts, records, localOnly);
    forall mac
      ensures |Claimants(records - {key}, mac, localOnly)| ==
              |Claimants(records, mac, localOnly)| - (if mac == rec.mac && Counts(rec, localOnly) then 1 else 0)
    {
      ClaimantsWithout(records, key, mac, localOnly);
    }
    TalliesByNumber(if Counts(rec, localOnly) then Decrement(counts, rec.mac) else counts, records - {key}, localOnly);
  }

  // The keys of a map in some order, as ranging over it yields them.
  method KeysInSomeOrder(s: set<string>) returns (keys: seq<string>)
    ensures multiset(keys) == multiset(s)
  {
    keys := [];
    var rest := s;
    while rest != {}
      invariant multiset(keys) + multiset(rest) == multiset(s)
      decreases rest
    {
      var k :| k in rest;
      keys, rest := keys + [k], rest - {k};
    }
  }

  // Records follow the Machines when one Machine is forgotten or replaced.
  lemma RecordsWithout(own: Subnet, machines: map<string, Machine>, key: string)
    ensures RecordsOf(own, machines - {key}) == RecordsOf(own, machines) - {key}
  {
  }

  lemma RecordsWith(own: Subnet, machines: map<string, Machine>, key: string, m: Machine)
    ensures RecordsOf(own, machines[key := m]) ==
            match RecordOf(own, m)
            case None => RecordsOf(own, machines) - {key}
            case Some(rec) => RecordsOf(own, machines)[key := rec]
  {
  }

  // Forgetting a missing key changes nothing, and storing under a key overrides what was there.
  lemma WithoutMissing(records: map<string, Record>, key: string)
    ensures key !in records ==> records - {key} == records
  {
  }

  lemma StoredOver(records: map<string, Record>, key: string, rec: Record)
    ensures (records - {key})[key := rec] == records[key := rec]
  {
  }

  class MACCache {
    var counts: map<string, int>
    var localCounts: map<string, int>
    var records: map<string, Record>
    var synced: bool
    const own: Subnet
    const hasSink: bool
    // The allowlists handed to the sink so far.
    var pushed: seq<seq<string>>
    // The Machines the delivered events describe.
    ghost var machines: map<string, Machine>

    ghost predicate IndexOk()
      reads this
    {
      records == RecordsOf(own, machines) && IsRecount(records, counts, localCounts)
    }

    // What holds whenever the lock is free.
    ghost predicate Valid()
      reads this
    {
      && IndexOk()
      && (!synced ==> pushed == [])
      && (synced && hasSink ==> pushed != [] && IsListing(pushed[|pushed| - 1], Enrolled(records)))
    }

    constructor (own: Subnet, hasSink: bool)
      ensures Valid() && machines == map[] && pushed == [] && !synced
      ensures this.own == own && this.hasSink == hasSink
    {
      counts, localCounts, records := map[], map[], map[];
      synced, pushed, machines := false, [], map[];
      this.own, this.hasSink := own, hasSink;
    }

    /** snapshotLocked */
    method SnapshotLocked() returns (macs: seq<string>)
      requires IndexOk()
      ensures IsListing(macs, Enrolled(records))
    {
      var keys := KeysInSomeOrder(counts.Keys);
      SortListsSet(keys, counts.Keys);
      CountsListEnrolled(records, counts, localCounts);
      macs := Sort(keys);
    }

    /** pushLocked */
    method PushLocked()
      requires IndexOk() && (!synced ==> pushed == [])
      modifies this`pushed
      ensures Valid()
      ensures synced && hasSink ==> |pushed| == |old(pushed)| + 1 && pushed[..|pushed| - 1] == old(pushed)
      ensures !(synced && hasSink) ==> pushed == old(pushed)
    {
      if !synced || !hasSink {
        return;
      }
      var snapshot := SnapshotLocked();
      pushed := pushed + [snapshot];
    }

    /** removeRecordLocked */
    method RemoveRecordLocked(rec: Record, ghost key: string)
      requires IsRecount(records, counts, localCounts) && key in records && records[key] == rec
      modifies this`counts, this`localCounts
      ensures IsRecount(records - {key}, counts, localCounts)
    {
      DecrementTallies(counts, records, key, false);
      DecrementTallies(localCounts, records, key, true);
      counts := Decrement(counts, rec.mac);
      if rec.local {
        localCounts := Decrement(localCounts, rec.mac);
      }
    }

    /** addRecordLocked, for a record just stored under key */
    method AddRecordLocked(rec: Record, ghost key: string, ghost rest: map<string, Record>)
      requires IsRecount(rest, counts, localCounts) && key !in rest && records == rest[key := rec]
      modifies this`counts, this`localCounts
      ensures IsRecount(records, counts, localCounts)
    {
      IncrementTallies(counts, rest, key, rec, false);
      IncrementTallies(localCounts, rest, key, rec, true);
      counts := Increment(counts, rec.mac);
      if rec.local {
        localCounts := Increment(localCounts, rec.mac);
      }
    }

    /** applyLocked */
    method ApplyLocked(key: string, newMachine: Option<Machine>)
      requires IndexOk()
      modifies this`counts, this`localCounts, this`records, this`machines
      ensures IndexOk()
      ensures machines == match newMachine case None => old(machines) - {key} case Some(m) => old(machines)[key := m]
    {
      ghost var before := machines;
      ghost var rest := RecordsOf(own, before) - {key};
      if key in records {
        RemoveRecordLocked(records[key], key);
        records := records - {key};
      }
      WithoutMissing(RecordsOf(own, before), key);
      if newMachine.None? {
        RecordsWithout(own, before, key);
        machines := before - {key};
        return;
      }
      RecordsWith(own, before, key, newMachine.value);
      machines := before[key := newMachine.value];
      var rec := RecordOf(own, newMachine.value);
      if rec.None? {
        return;
      }
      records := records[key := rec.value];
      StoredOver(RecordsOf(own, before), key, rec.value);
      AddRecordLocked(rec.value, key, rest);
    }

    /** onAdd */
    method OnAdd(obj: Object)
      requires Valid()
      modifies this
      ensures Valid() && machines == MachinesAfter(old(machines), Added(obj))
      ensures synced == old(synced)
    {
      if !obj.IsMachine? {
        return;
      }
      ApplyLocked(KeyOf(obj.machine), Some(obj.machine));
      PushLocked();
    }

    /** onUpdate */
    method OnUpdate(oldObj: Object, newObj: Object)
      requires Valid()
      modifies this
      ensures Valid() && machines == MachinesAfter(old(machines), Updated(oldObj, newObj))
      ensures synced == old(synced)
    {
      if !oldObj.IsMachine? {
        return;
      }
      if !newObj.IsMachine? {
        return;
      }
      ApplyLocked(KeyOf(oldObj.machine), Some(newObj.machine));
      PushLocked();
    }

    /** onDelete */
    method OnDelete(obj: Object)
      requires Valid()
      modifies this
      ensures Valid() && machines == MachinesAfter(old(machines), Deleted(obj))
      ensures synced == old(synced)
    {
      var machine := obj;
      if !machine.IsMachine? {
        if !obj.Tombstone? {
          return;
        }
        machine := obj.last;
        if !machine.IsMachine? {
          return;
        }
      }
      ApplyLocked(KeyOf(machine.machine), None);
      PushLocked();
    }

    /** Start, once the informer has synced */
    method MarkSynced()
      requires Valid()
      modifies this`synced, this`pushed
      ensures Valid() && synced
    {
      synced := true;
      PushLocked();
    }

    /** The informer delivering a whole history of events. */
    method Deliver(events: seq<Event>)
      requires Valid()
      modifies this
      ensures Valid() && machines == MachinesAfterAll(old(machines), events)
      ensures synced == old(synced)
    {
      for i := 0 to |events|
        invariant Valid() && synced == old(synced)
        invariant MachinesAfterAll(machines, events[i..]) == MachinesAfterAll(old(machines), events)
      {
        match events[i]
        case Added(obj) => OnAdd(obj);
        case Updated(before, after) => OnUpdate(before, after);
        case Deleted(obj) => OnDelete(obj);
        assert events[i..][0] == events[i] && events[i..][1..] == events[i + 1..];
      }
    }

    /** HasLocalMember */
    method HasLocalMember(mac: string) returns (b: bool)
      requires Valid()
      ensures b <==> synced && Claimants(records, mac, true) != {}
    {
      if !synced {
        return false;
      }
      b := mac in localCounts && localCounts[mac] > 0;
    }
  }

  // A MAC has a count exactly when some Machine claims it.
  lemma CountsListEnrolled(records: map<string, Record>, counts: map<string, int>, localCounts: map<string, int>)
    requires IsRecount(records, counts, localCounts)
    ensures counts.Keys == Enrolled(records)
  {
    forall mac
      ensures mac in counts <==> mac in Enrolled(records)
    {
      if mac in counts {
        var k :| k in Claimants(records, mac, false);
      }
      if mac in Enrolled(records) {
        var k :| k in records && records[k].mac == mac;
        assert k in Claimants(records, mac, false);
      }
    }
  }

  /** Machines of different namespaces or names have different keys. */
  lemma KeysAreDistinct(a: Machine, b: Machine)
    requires '/' !in a.namespace && '/' !in b.namespace
    ensures KeyOf(a) == KeyOf(b) <==> a.namespace == b.namespace && a.name == b.name
  {
    FindFirst(a.namespace, '/', a.name);
    FindFirst(b.namespace, '/', b.name);
    assert KeyOf(a) == a.namespace + ['/'] + a.name && KeyOf(b) == b.namespace + ['/'] + b.name;
  }

  /** A Machine that names a Subnet is local to one Subnet and to no other; one that names none is local nowhere. */
  lemma LocalToOneSubnet(m: Machine)
    ensures m.subnetName == "" ==> forall own :: !IsLocal(own, m)
    ensures m.subnetName != "" ==> exists own :: IsLocal(own, m) && own.name == m.subnetName
    ensures forall a, b :: IsLocal(a, m) && IsLocal(b, m) ==> a == b
    ensures forall own :: IsLocal(own, m) && m.subnetNamespace == "" ==> own.namespace == m.namespace
    ensures forall own :: IsLocal(own, m) && m.subnetNamespace != "" ==> own.namespace == m.subnetNamespace
  {
    if m.subnetName != "" {
      var home := Subnet(if m.subnetNamespace != "" then m.subnetNamespace else m.namespace, m.subnetName);
      assert IsLocal(home, m);
    }
  }

  // What an event may say about a key: that its Machine is gone, or what it is.
  datatype News = Gone | Now(machine: Machine)

  ghost predicate Says(e: Event, key: string, news: News) {
    match news
    case Now(m) =>
      || (e.Added? && e.obj == IsMachine(m) && KeyOf(m) == key)
      || (e.Updated? && e.before.IsMachine? && KeyOf(e.before.machine) == key && e.after == IsMachine(m))
    case Gone =>
      e.Deleted? && exists m :: KeyOf(m) == key && (e.obj == IsMachine(m) || e.obj == Tombstone(IsMachine(m)))
  }

  ghost predicate IsSilent(e: Event, key: string) {
    forall news :: !Says(e, key, news)
  }

  // Event i is the last that says anything about key.
  ghost predicate IsLastNews(events: seq<Event>, i: int, key: string, news: News) {
    && 0 <= i < |events| && Says(events[i], key, news)
    && (forall j :: i < j < |events| ==> IsSilent(events[j], key))
  }

  /** After any history, the Machine known under a key is the one its last event tells of. */
  lemma {:induction false} KnownByLastNews(machines: map<string, Machine>, events: seq<Event>, i: int, key: string,
                                           news: News)
    requires IsLastNews(events, i, key, news)
    ensures var known := MachinesAfterAll(machines, events);
            if news.Gone? then key !in known else key in known && known[key] == news.machine
    decreases |events|
  {
    var next := MachinesAfter(machines, events[0]);
    if i == 0 {
      NewsIsKnown(machines, events[0], key, news);
      assert forall j :: 0 <= j < |events[1..]| ==> events[1..][j] == events[j + 1];
      SilenceKeeps(next, events[1..], key);
    } else {
      assert forall j :: 0 <= j < |events[1..]| ==> events[1..][j] == events[j + 1];
      KnownByLastNews(next, events[1..], i - 1, key, news);
    }
  }

  lemma NewsIsKnown(machines: map<string, Machine>, e: Event, key: string, news: News)
    requires Says(e, key, news)
    ensures var known := MachinesAfter(machines, e);
            if news.Gone? then key !in known else key in known && known[key] == news.machine
  {
  }

  /** A history silent about a key leaves it as it was. */
  lemma {:induction false} SilenceKeeps(machines: map<string, Machine>, events: seq<Event>, key: string)
    requires forall j :: 0 <= j < |events| ==> IsSilent(events[j], key)
    ensures var known := MachinesAfterAll(machines, events);
            (key in known <==> key in machines) && (key in machines ==> known[key] == machines[key])
    decreases |events|
  {
    if events != [] {
      var next := MachinesAfter(machines, events[0]);
      SilentKeepsOne(machines, events[0], key);
      assert forall j :: 0 <= j < |events[1..]| ==> events[1..][j] == events[j + 1];
      SilenceKeeps(next, events[1..], key);
    }
  }

  lemma SilentKeepsOne(machines: map<string, Machine>, e: Event, key: string)
    requires IsSilent(e, key)
    ensures var known := MachinesAfter(machines, e);
            (key in known <==> key in machines) && (key in machines ==> known[key] == machines[key])
  {
    match e
    case Added(IsMachine(m)) => assert KeyOf(m) == key ==> Says(e, key, Now(m));
    case Updated(IsMachine(before), IsMachine(after)) => assert KeyOf(before) == key ==> Says(e, key, Now(after));
    case Deleted(IsMachine(m)) => assert KeyOf(m) == key ==> Says(e, key, Gone);
    case Deleted(Tombstone(IsMachine(m))) => assert KeyOf(m) == key ==> Says(e, key, Gone);
    case _ =>
  }

  // An incremental index that is a recount is the only one: two of them agree.
  lemma RecountUnique(records: map<string, Record>, counts1: map<string, int>, local1: map<string, int>,
                      counts2: map<string, int>, local2: map<string, int>)
    requires IsRecount(records, counts1, local1) && IsRecount(records, counts2, local2)
    ensures counts1 == counts2 && local1 == local2
  {
  }

  // Every record of the index carries a normalized MAC.
  lemma RecordsAreNormalized(own: Subnet, machines: map<string, Machine>)
    ensures forall k :: k in RecordsOf(own, machines) ==> IsNormalized(RecordsOf(own, machines)[k].mac)
  {
    forall k | k in RecordsOf(own, machines)
      ensures IsNormalized(RecordsOf(own, machines)[k].mac)
    {
      NormalizeIdempotent(machines[k].bootMACAddress);
    }
  }
}
