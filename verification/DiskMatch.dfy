// Hardware matching for MachineClaims: whether every disk requirement of a
// selector can be given a disk of its own.
module DiskMatch {
  import opened Common

  // ----- Go's int64 -----

  const TWO_63: int := 0x8000_0000_0000_0000
  const TWO_64: int := 0x1_0000_0000_0000_0000

  newtype int64 = x: int | -0x8000_0000_0000_0000 <= x < 0x8000_0000_0000_0000

  // Two's-complement truncation of a mathematical integer.
  function Wrap64(x: int): (r: int64)
    ensures (r as int - x) % TWO_64 == 0
    ensures -TWO_63 <= x < TWO_63 ==> r as int == x
  {
    ((x + TWO_63) % TWO_64 - TWO_63) as int64
  }

  // machineClaimGiB
  const GIB: int := 0x4000_0000

  // ----- data -----

  datatype Disk = Disk(model: string, vendor: string, sizeBytes: int64, rotational: Option<bool>)

  datatype DiskRequirement = DiskRequirement(
    model: string, vendor: string, minSizeGigabytes: Option<int64>, rotational: Option<bool>)

  datatype Hardware = Hardware(cpuCount: int, memoryBytes: int64, disks: seq<Disk>)

  datatype Selector = Selector(
    minCPUCount: Option<int>, minMemoryBytes: Option<int64>, disks: seq<DiskRequirement>)

  // diskMatchesRequirement: the product of line 105 is an int64 product and wraps.
  predicate DiskMatchesRequirement(disk: Disk, req: DiskRequirement) {
    && (req.model != "" ==> req.model == disk.model)
    && (req.vendor != "" ==> req.vendor == disk.vendor)
    && (req.minSizeGigabytes.Some? ==> disk.sizeBytes >= Wrap64(req.minSizeGigabytes.value as int * GIB))
    && (req.rotational.Some? ==> disk.rotational.Some? && disk.rotational.value == req.rotational.value)
  }

  // What the API documents for a requirement: the floor is a size, not a size modulo 2^64.
  predicate MeetsDocumentedRequirement(disk: Disk, req: DiskRequirement) {
    && (req.model != "" ==> req.model == disk.model)
    && (req.vendor != "" ==> req.vendor == disk.vendor)
    && (req.minSizeGigabytes.Some? ==> disk.sizeBytes as int >= req.minSizeGigabytes.value as int * GIB)
    && (req.rotational.Some? ==> disk.rotational.Some? && disk.rotational.value == req.rotational.value)
  }

  // The code decides the documented requirement for every disk exactly when the
  // requested floor is below 2^33 GiB (the API schema admits floors from 1 up).
  lemma SizeFloorExactIff(req: DiskRequirement)
    requires req.minSizeGigabytes.Some? ==> req.minSizeGigabytes.value >= 1
    ensures (forall disk: Disk :: DiskMatchesRequirement(disk, req) == MeetsDocumentedRequirement(disk, req))
            <==> (req.minSizeGigabytes.Some? ==> req.minSizeGigabytes.value < 0x2_0000_0000)
  {
    if req.minSizeGigabytes.Some? {
      var g := req.minSizeGigabytes.value as int;
      if g < 0x2_0000_0000 {
        assert Wrap64(g * GIB) as int == g * GIB;
      } else {
        // The largest disk meets every wrapped floor but no floor of 2^63 bytes or more.
        var disk := Disk(req.model, req.vendor, 0x7fff_ffff_ffff_ffff, req.rotational);
        assert DiskMatchesRequirement(disk, req) != MeetsDocumentedRequirement(disk, req);
      }
    }
  }

  // A floor of 2^34 GiB wraps to zero and admits an empty disk.
  lemma SizeFloorWraps()
    ensures var req := DiskRequirement("", "", Some(0x4_0000_0000), None);
            var disk := Disk("", "", 0, None);
            DiskMatchesRequirement(disk, req) && !MeetsDocumentedRequirement(disk, req)
  {
    assert 0x4_0000_0000 * GIB == TWO_64;
    assert Wrap64(TWO_64) == 0;
  }

  // ----- assignments -----

  // f gives every requirement i the disk f[i]: a matching disk, and its own.
  ghost predicate IsAssignment(disks: seq<Disk>, reqs: seq<DiskRequirement>, f: seq<nat>) {
    && |f| == |reqs|
    && (forall i :: 0 <= i < |f| ==> f[i] < |disks| && DiskMatchesRequirement(disks[f[i]], reqs[i]))
    && (forall i, j :: 0 <= i < j < |f| ==> f[i] != f[j])
  }

  ghost predicate Assignable(disks: seq<Disk>, reqs: seq<DiskRequirement>) {
    exists f: seq<nat> :: IsAssignment(disks, reqs, f)
  }

  // Requirements needing more disks than exist in their joint neighbourhood.
  ghost predicate HallViolator(disks: seq<Disk>, reqs: seq<DiskRequirement>, needy: set<nat>, offered: set<nat>) {
    && |offered| < |needy|
    && (forall i :: i in needy ==> i < |reqs|)
    && (forall i, d: nat :: i in needy && d < |disks| && DiskMatchesRequirement(disks[d], reqs[i]) ==> d in offered)
  }

  // Pigeonhole: a Hall violator rules out every assignment.
  lemma ViolatorBlocksAssignment(disks: seq<Disk>, reqs: seq<DiskRequirement>, needy: set<nat>, offered: set<nat>)
    requires HallViolator(disks, reqs, needy, offered)
    ensures !Assignable(disks, reqs)
  {
    if f: seq<nat> :| IsAssignment(disks, reqs, f) {
      var g := (i: nat) => if i < |f| then f[i] else 0;
      var image := set i | i in needy :: g(i);
      InjectiveImageSize(needy, g, image);
      SubsetSize(image, offered);
    }
  }

  // ----- the bipartite graph and its matchings -----

  // adj[i] lists the disks matching requirement i.
  ghost predicate IsAdjacency(disks: seq<Disk>, reqs: seq<DiskRequirement>, adj: seq<seq<nat>>) {
    && |adj| == |reqs|
    && (forall i :: 0 <= i < |adj| ==>
          forall d: nat :: d in adj[i] <==> d < |disks| && DiskMatchesRequirement(disks[d], reqs[i]))
  }

  ghost predicate InRange(adj: seq<seq<nat>>, n: nat) {
    forall i, k :: 0 <= i < |adj| && 0 <= k < |adj[i]| ==> adj[i][k] < n
  }

  // holder[d] is the requirement on disk d, or -1: a partial matching along adj.
  ghost predicate IsMatching(adj: seq<seq<nat>>, holder: seq<int>) {
    && (forall d :: 0 <= d < |holder| && holder[d] != -1 ==> 0 <= holder[d] < |adj| && d in adj[holder[d]])
    && (forall d, e :: 0 <= d < |holder| && 0 <= e < |holder| && holder[d] == holder[e] && holder[d] != -1 ==> d == e)
  }

  ghost function Visited(visited: seq<bool>): set<nat> {
    set d: nat | d < |visited| && visited[d]
  }

  // The disks not visited yet.
  ghost function Unvisited(visited: seq<bool>): (u: set<nat>) {
    set d: nat | d < |visited| && !visited[d]
  }

  // Requirement r sits on some disk of u.
  ghost predicate Sits(holder: seq<int>, u: set<nat>, r: nat) {
    exists d :: d in u && d < |holder| && holder[d] == r
  }

  ghost predicate EdgesOn(adj: seq<seq<nat>>, holder: seq<int>, u: set<nat>) {
    forall d :: d in u && d < |holder| && holder[d] != -1 ==> 0 <= holder[d] < |adj| && d in adj[holder[d]]
  }

  ghost predicate InjectiveOn(holder: seq<int>, u: set<nat>) {
    forall d, e :: d in u && e in u && d < |holder| && e < |holder| && holder[d] == holder[e] && holder[d] != -1 ==>
      d == e
  }

  // What a successful search leaves behind: outside the disks u that were
  // unvisited at entry nothing moved, and on u the holders are the old ones plus req.
  ghost predicate Augmented(adj: seq<seq<nat>>, before: seq<int>, after: seq<int>, u: set<nat>, req: nat) {
    && |after| == |before|
    && (forall d: nat :: d < |before| && d !in u ==> after[d] == before[d])
    && EdgesOn(adj, after, u)
    && InjectiveOn(after, u)
    && (forall r: nat :: Sits(after, u, r) <==> r == req || Sits(before, u, r))
  }

  // What a failed search leaves behind: every disk of seen is held, and all its
  // holder's options lie within the visited disks.
  ghost predicate Exhausted(adj: seq<seq<nat>>, holder: seq<int>, visited: seq<bool>, seen: set<nat>) {
    && |visited| == |holder|
    && InRange(adj, |holder|)
    && (forall d :: d in seen ==> d < |holder| && 0 <= holder[d] < |adj| && AllVisited(adj[holder[d]], visited))
  }

  ghost predicate AllVisited(disks: seq<nat>, visited: seq<bool>)
  {
    forall k :: 0 <= k < |disks| ==> disks[k] < |visited| && visited[disks[k]]
  }

  // Line 88: overwriting disk, whose holder h just found another place in inner, by req.
  lemma DisplaceHolder(adj: seq<seq<nat>>, before: seq<int>, mid: seq<int>, u: set<nat>, inner: set<nat>, disk: nat,
                       req: nat)
    requires IsMatching(adj, before)
    requires req < |adj| && disk in u && disk in adj[req] && disk < |before|
    requires forall d :: d in u ==> d < |before| && before[d] != req
    requires inner <= u - {disk}
    requires before[disk] >= 0
    requires Augmented(adj, before, mid, inner, before[disk])
    ensures Augmented(adj, before, mid[disk := req], u, req)
  {
    var after := mid[disk := req];
    forall d, e | d in u && e in u && d < |after| && e < |after| && after[d] == after[e] && after[d] != -1
      ensures d == e
    {
      HolderOrigin(adj, before, mid, inner, disk, d);
      HolderOrigin(adj, before, mid, inner, disk, e);
    }
    forall r: nat
      ensures Sits(after, u, r) <==> r == req || Sits(before, u, r)
    {
      SitsAfterDisplacing(adj, before, mid, u, inner, disk, req, r);
    }
  }

  // A disk of inner holds, after the inner search, either disk's old holder or an old holder within inner.
  lemma HolderOrigin(adj: seq<seq<nat>>, before: seq<int>, mid: seq<int>, inner: set<nat>, disk: nat, d: nat)
    requires disk < |before| && before[disk] >= 0 && d < |before|
    requires Augmented(adj, before, mid, inner, before[disk])
    ensures d in inner && mid[d] != -1 ==> mid[d] == before[disk] || Sits(before, inner, mid[d])
  {
    if d in inner && mid[d] != -1 {
      assert Sits(mid, inner, mid[d]);
    }
  }

  lemma SitsAfterDisplacing(adj: seq<seq<nat>>, before: seq<int>, mid: seq<int>, u: set<nat>, inner: set<nat>,
                            disk: nat, req: nat, r: nat)
    requires disk in u && disk < |before| && before[disk] >= 0
    requires forall d :: d in u ==> d < |before|
    requires inner <= u - {disk}
    requires Augmented(adj, before, mid, inner, before[disk])
    ensures Sits(mid[disk := req], u, r) <==> r == req || Sits(before, u, r)
  {
    var after := mid[disk := req];
    assert after[disk] == req;
    if Sits(after, u, r) && r != req {
      var d :| d in u && d < |after| && after[d] == r;
      if d in inner { assert Sits(mid, inner, r); } else { assert before[d] == r; }
    }
    if Sits(before, u, r) {
      var d :| d in u && d < |before| && before[d] == r;
      if d in inner || d == disk {
        assert d in inner ==> Sits(before, inner, r);
        assert Sits(mid, inner, r);
        var e :| e in inner && e < |mid| && mid[e] == r;
        assert after[e] == r;
      } else {
        assert after[d] == r;
      }
    }
  }

  /** tryAugmentDiskMatch: one augmenting-path search for req. */
  method TryAugmentDiskMatch(req: nat, adj: seq<seq<nat>>, visited: array<bool>, matchOfDisk: array<int>)
    returns (ok: bool)
    requires visited.Length == matchOfDisk.Length
    requires req < |adj| && InRange(adj, visited.Length)
    requires IsMatching(adj, matchOfDisk[..])
    requires forall d :: 0 <= d < visited.Length && !visited[d] ==> matchOfDisk[d] != req
    modifies visited, matchOfDisk
    ensures forall d :: 0 <= d < visited.Length && old(visited[d]) ==> visited[d]
    ensures ok ==> Augmented(adj, old(matchOfDisk[..]), matchOfDisk[..], Unvisited(old(visited[..])), req)
    ensures !ok ==> matchOfDisk[..] == old(matchOfDisk[..])
    ensures !ok ==> AllVisited(adj[req], visited[..])
    ensures !ok ==> Exhausted(adj, matchOfDisk[..], visited[..], Unvisited(old(visited[..])) - Unvisited(visited[..]))
    decreases Unvisited(visited[..])
  {
    ghost var before := matchOfDisk[..];
    ghost var u := Unvisited(visited[..]);
    for k := 0 to |adj[req]|
      invariant matchOfDisk[..] == before
      invariant forall d :: 0 <= d < visited.Length && old(visited[d]) ==> visited[d]
      invariant forall i :: 0 <= i < k ==> visited[adj[req][i]]
      invariant Exhausted(adj, before, visited[..], u - Unvisited(visited[..]))
    {
      var disk := adj[req][k];
      if visited[disk] {
        continue;
      }
      ghost var seen := u - Unvisited(visited[..]);
      ghost var was := visited[..];
      visited[disk] := true;
      ghost var inner := Unvisited(visited[..]);
      assert inner == Unvisited(was) - {disk};
      var free := matchOfDisk[disk] == -1;
      if !free {
        free := TryAugmentDiskMatch(matchOfDisk[disk], adj, visited, matchOfDisk);
        if free {
          DisplaceHolder(adj, before, matchOfDisk[..], u, inner, disk, req);
        } else {
          GrowExhausted(adj, before, was, visited[..], seen, disk, u, inner);
        }
      } else {
        TakeFreeDisk(adj, before, u, disk, req);
      }
      if free {
        matchOfDisk[disk] := req;
        return true;
      }
    }
    return false;
  }

  lemma TakeFreeDisk(adj: seq<seq<nat>>, before: seq<int>, u: set<nat>, disk: nat, req: nat)
    requires IsMatching(adj, before)
    requires req < |adj| && disk in u && disk in adj[req] && disk < |before|
    requires forall d :: d in u ==> d < |before| && before[d] != req
    requires before[disk] == -1
    ensures Augmented(adj, before, before[disk := req], u, req)
  {
    var after := before[disk := req];
    forall r: nat
      ensures Sits(after, u, r) <==> r == req || Sits(before, u, r)
    {
      if Sits(before, u, r) {
        var d :| d in u && d < |before| && before[d] == r;
        assert after[d] == r;
      }
      assert after[disk] == req;
    }
  }

  // A failed inner search closes disk's holder, and keeps what was closed before.
  lemma GrowExhausted(adj: seq<seq<nat>>, holder: seq<int>, was: seq<bool>, visited: seq<bool>,
                      seen: set<nat>, disk: nat, u: set<nat>, inner: set<nat>)
    requires |was| == |visited| == |holder|
    requires Exhausted(adj, holder, was, seen)
    requires seen == u - Unvisited(was)
    requires inner == Unvisited(was) - {disk}
    requires forall d :: 0 <= d < |was| && was[d] ==> visited[d]
    requires disk < |holder| && visited[disk] && 0 <= holder[disk] < |adj| && AllVisited(adj[holder[disk]], visited)
    requires Exhausted(adj, holder, visited, inner - Unvisited(visited))
    requires forall d :: d in u ==> d < |holder|
    ensures Exhausted(adj, holder, visited, u - Unvisited(visited))
  {
  }

  // From a failed top-level search: the visited disks and req with their holders violate Hall's condition.
  lemma ViolatorFromSearch(disks: seq<Disk>, reqs: seq<DiskRequirement>, adj: seq<seq<nat>>,
                           holder: seq<int>, visited: seq<bool>, req: nat)
    requires IsAdjacency(disks, reqs, adj) && |holder| == |visited| == |disks|
    requires IsMatching(adj, holder)
    requires req < |reqs| && forall d :: 0 <= d < |holder| ==> holder[d] != req
    requires AllVisited(adj[req], visited)
    requires Exhausted(adj, holder, visited, Visited(visited))
    ensures !Assignable(disks, reqs)
  {
    var holders := HoldersOf(adj, holder, visited);
    assert req !in holders;
    SearchIsClosed(disks, reqs, adj, holder, visited, req, holders);
    ViolatorBlocksAssignment(disks, reqs, holders + {req}, Visited(visited));
  }

  // As many requirements sit on the visited disks as there are visited disks.
  lemma HoldersOf(adj: seq<seq<nat>>, holder: seq<int>, visited: seq<bool>) returns (holders: set<nat>)
    requires IsMatching(adj, holder) && |holder| == |visited|
    requires Exhausted(adj, holder, visited, Visited(visited))
    ensures |holders| == |Visited(visited)|
    ensures forall h :: h in holders ==> exists d :: d in Visited(visited) && holder[d] == h
  {
    var seen := Visited(visited);
    var g := (d: nat) => if d < |holder| && holder[d] >= 0 then holder[d] as nat else 0;
    holders := set d | d in seen :: g(d);
    InjectiveImageSize(seen, g, holders);
  }

  // Every option of req and of the visited disks' holders has been visited.
  lemma SearchIsClosed(disks: seq<Disk>, reqs: seq<DiskRequirement>, adj: seq<seq<nat>>,
                       holder: seq<int>, visited: seq<bool>, req: nat, holders: set<nat>)
    requires IsAdjacency(disks, reqs, adj) && |holder| == |visited| == |disks| && req < |reqs|
    requires AllVisited(adj[req], visited) && Exhausted(adj, holder, visited, Visited(visited))
    requires forall h :: h in holders ==> exists d :: d in Visited(visited) && holder[d] == h
    ensures forall i :: i in holders ==> i < |reqs|
    ensures forall i, d: nat :: i in holders + {req} && d < |disks| && DiskMatchesRequirement(disks[d], reqs[i]) ==>
            d in Visited(visited)
  {
    forall i | i in holders
      ensures i < |reqs| && AllVisited(adj[i], visited)
    {
      var d :| d in Visited(visited) && holder[d] == i;
    }
    forall i, d: nat | i in holders + {req} && d < |disks| && DiskMatchesRequirement(disks[d], reqs[i])
      ensures d in Visited(visited)
    {
      assert d in adj[i];
    }
  }

  /** disksSatisfy: Kuhn's algorithm decides assignability. */
  method DisksSatisfy(disks: seq<Disk>, reqs: seq<DiskRequirement>) returns (ok: bool)
    ensures ok <==> Assignable(disks, reqs)
  {
    if |reqs| == 0 {
      assert IsAssignment(disks, reqs, []);
      return true;
    }
    if |reqs| > |disks| {
      assert HallViolator(disks, reqs, Upto(|reqs|), Upto(|disks|));
      ViolatorBlocksAssignment(disks, reqs, Upto(|reqs|), Upto(|disks|));
      return false;
    }
    var adj := BuildAdjacency(disks, reqs);
    var matchOfDisk := new int[|disks|](_ => -1);
    for i := 0 to |reqs|
      invariant IsMatching(adj, matchOfDisk[..])
      invariant forall r: nat :: Sits(matchOfDisk[..], Upto(|disks|), r) <==> r < i
    {
      var found := PlaceRequirement(i, disks, reqs, adj, matchOfDisk);
      if !found {
        return false;
      }
    }
    AssignmentFromMatching(disks, reqs, adj, matchOfDisk[..]);
    return true;
  }

  // Lines 69-72: the search for one more requirement, from a clean slate of visited disks.
  method PlaceRequirement(i: nat, disks: seq<Disk>, reqs: seq<DiskRequirement>, adj: seq<seq<nat>>,
                          matchOfDisk: array<int>)
    returns (found: bool)
    requires i < |reqs| && matchOfDisk.Length == |disks|
    requires IsAdjacency(disks, reqs, adj) && InRange(adj, |disks|) && IsMatching(adj, matchOfDisk[..])
    requires forall r: nat :: Sits(matchOfDisk[..], Upto(|disks|), r) <==> r < i
    modifies matchOfDisk
    ensures !found ==> !Assignable(disks, reqs)
    ensures found ==> IsMatching(adj, matchOfDisk[..])
    ensures found ==> forall r: nat :: Sits(matchOfDisk[..], Upto(|disks|), r) <==> r < i + 1
  {
    ghost var all := Upto(|disks|);
    var visited := new bool[|disks|](_ => false);
    ghost var before := matchOfDisk[..];
    assert Unvisited(visited[..]) == all;
    NotSitting(before, all, i);
    found := TryAugmentDiskMatch(i, adj, visited, matchOfDisk);
    if found {
      WholeMatching(adj, before, matchOfDisk[..], all, i);
    } else {
      assert all - Unvisited(visited[..]) == Visited(visited[..]);
      ViolatorFromSearch(disks, reqs, adj, before, visited[..], i);
    }
  }

  lemma NotSitting(holder: seq<int>, all: set<nat>, r: nat)
    requires !Sits(holder, all, r) && forall d: nat :: d < |holder| ==> d in all
    ensures forall d :: 0 <= d < |holder| ==> holder[d] != r
  {
  }

  lemma WholeMatching(adj: seq<seq<nat>>, before: seq<int>, after: seq<int>, all: set<nat>, req: nat)
    requires forall d: nat :: d in all <==> d < |before|
    requires Augmented(adj, before, after, all, req)
    ensures IsMatching(adj, after)
  {
  }

  // Lines 55-62.
  method BuildAdjacency(disks: seq<Disk>, reqs: seq<DiskRequirement>) returns (adj: seq<seq<nat>>)
    ensures IsAdjacency(disks, reqs, adj)
    ensures InRange(adj, |disks|)
  {
    adj := [];
    for i := 0 to |reqs|
      invariant IsAdjacency(disks, reqs[..i], adj)
    {
      var row: seq<nat> := [];
      for j := 0 to |disks|
        invariant forall d: nat :: d in row <==> d < j && DiskMatchesRequirement(disks[d], reqs[i])
      {
        if DiskMatchesRequirement(disks[j], reqs[i]) {
          row := row + [j];
        }
      }
      adj := adj + [row];
    }
    assert reqs[..|reqs|] == reqs;
    forall i, k | 0 <= i < |adj| && 0 <= k < |adj[i]|
      ensures adj[i][k] < |disks|
    {
      assert adj[i][k] in adj[i];
    }
  }

  // A matching that holds every requirement is an assignment.
  lemma {:induction false} AssignmentFromMatching(disks: seq<Disk>, reqs: seq<DiskRequirement>, adj: seq<seq<nat>>,
                                                  holder: seq<int>)
    requires IsAdjacency(disks, reqs, adj) && |holder| == |disks| && IsMatching(adj, holder)
    requires forall r: nat :: r < |reqs| ==> Sits(holder, Upto(|disks|), r)
    ensures Assignable(disks, reqs)
  {
    var f := PlacesOf(disks, reqs, adj, holder, |reqs|);
    assert IsAssignment(disks, reqs, f);
  }

  lemma PlacesOf(disks: seq<Disk>, reqs: seq<DiskRequirement>, adj: seq<seq<nat>>, holder: seq<int>, n: nat)
    returns (f: seq<nat>)
    requires IsAdjacency(disks, reqs, adj) && |holder| == |disks| && IsMatching(adj, holder)
    requires forall r: nat :: r < |reqs| ==> Sits(holder, Upto(|disks|), r)
    requires n <= |reqs|
    ensures |f| == n
    ensures forall i :: 0 <= i < n ==> f[i] < |disks| && holder[f[i]] == i
    ensures forall i :: 0 <= i < n ==> DiskMatchesRequirement(disks[f[i]], reqs[i])
  {
    if n == 0 {
      f := [];
    } else {
      var rest := PlacesOf(disks, reqs, adj, holder, n - 1);
      assert Sits(holder, Upto(|disks|), n - 1);
      var d :| d in Upto(|disks|) && d < |holder| && holder[d] == n - 1;
      assert d in adj[n - 1];
      f := rest + [d];
    }
  }

  /** hardwareMatchesSelector */
  method HardwareMatchesSelector(hw: Hardware, sel: Selector) returns (ok: bool)
    ensures ok <==> (sel.minCPUCount.Some? ==> hw.cpuCount >= sel.minCPUCount.value)
                    && (sel.minMemoryBytes.Some? ==> hw.memoryBytes >= sel.minMemoryBytes.value)
                    && Assignable(hw.disks, sel.disks)
  {
    if sel.minCPUCount.Some? && hw.cpuCount < sel.minCPUCount.value {
      return false;
    }
    if sel.minMemoryBytes.Some? && hw.memoryBytes < sel.minMemoryBytes.value {
      return false;
    }
    ok := DisksSatisfy(hw.disks, sel.disks);
  }
}
