// The lease range of a lease-mode Subnet, in Go's wrapping uint32 arithmetic.
module LeaseRange {
  import opened Common

  const TWO_32: int := 0x1_0000_0000

  const BITS: nat := 32

  type uint32 = x: int | 0 <= x < 0x1_0000_0000
  type uint8 = x: int | 0 <= x < 256

  function Wrap(x: int): uint32 {
    x % TWO_32
  }

  // ----- bitwise operators, bit by bit -----

  function BitAnd(x: nat, y: nat): (r: nat)
    ensures r <= x && r <= y
  {
    if x == 0 || y == 0 then 0
    else 2 * BitAnd(x / 2, y / 2) + (if x % 2 == 1 && y % 2 == 1 then 1 else 0)
  }

  function BitOr(x: nat, y: nat): nat {
    if x == 0 then y else if y == 0 then x
    else 2 * BitOr(x / 2, y / 2) + (if x % 2 == 1 || y % 2 == 1 then 1 else 0)
  }

  // ^x
  function Complement(x: uint32): uint32 {
    TWO_32 - 1 - x
  }

  function Pow2(k: nat): (p: nat)
    ensures p > 0
  {
    if k == 0 then 1 else 2 * Pow2(k - 1)
  }

  // ----- addresses -----

  // Four bytes, most significant first.
  datatype IPv4 = IPv4(a: uint8, b: uint8, c: uint8, d: uint8)

  // binary.BigEndian.Uint32
  function ToUint32(ip: IPv4): (v: uint32) {
    ip.a * 0x100_0000 + ip.b * 0x1_0000 + ip.c * 0x100 + ip.d
  }

  /** intToIPv4 */
  function IntToIPv4(v: uint32): (ip: IPv4)
    ensures ToUint32(ip) == v
  {
    var v1 := v / 0x100;
    var v2 := v1 / 0x100;
    IPv4(v2 / 0x100, v2 % 0x100, v1 % 0x100, v % 0x100)
  }

  datatype Result = Ok(start: IPv4, end: IPv4) | NoHosts | OnlyOneBound | BadStart | BadEnd

  // A configured bound: absent, not an IPv4 address, or one.
  datatype Bound = Unset | NotIPv4 | Address(ip: IPv4)

  // The auto-derived bounds, or nothing when the guard refuses.
  function Derive(n: uint32, m: uint32): Option<(uint32, uint32)> {
    var usableHosts := Wrap(Complement(m) - 1);
    if usableHosts < 1 then None else Some((Wrap(n + 1), Wrap(BitOr(n, Complement(m)) - 1)))
  }

  /** leaseRange */
  function LeaseRange(start: Bound, end: Bound, network: IPv4, mask: IPv4): Result {
    if start.Unset? != end.Unset? then OnlyOneBound
    else if !start.Unset? then
      if start.NotIPv4? then BadStart
      else if end.NotIPv4? then BadEnd
      else Ok(start.ip, end.ip)
    else
      match Derive(ToUint32(network), ToUint32(mask))
      case None => NoHosts
      case Some((first, last)) => Ok(IntToIPv4(first), IntToIPv4(last))
  }

  // ----- what is meant -----

  // The netmask of a prefix length.
  function PrefixMask(prefix: nat): uint32
    requires prefix <= 32
  {
    Pow2Monotone(32 - prefix, BITS);
    Pow2At32();
    TWO_32 - Pow2(32 - prefix)
  }

  // a is an address of the network n/m other than its first and its last.
  predicate IsHost(a: uint32, n: uint32, m: uint32) {
    BitAnd(a, m) == n && a != n && a != BitOr(n, Complement(m))
  }

  // The derivation is right for this network: refused when there is no host
  // address, and otherwise exactly the host addresses.
  ghost predicate DerivesHosts(n: uint32, m: uint32) {
    match Derive(n, m)
    case None => forall a: uint32 :: !IsHost(a, n, m)
    case Some((first, last)) =>
      && (exists a: uint32 :: IsHost(a, n, m))
      && (forall a: uint32 :: IsHost(a, n, m) <==> first <= a <= last)
  }

  // ----- masks as blocks of addresses -----

  lemma {:induction false} Pow2Monotone(j: nat, k: nat)
    requires j <= k
    ensures Pow2(j) <= Pow2(k) && (j < k ==> 2 * Pow2(j) <= Pow2(k))
    decreases k
  {
    if j < k { Pow2Monotone(j, k - 1); }
  }

  lemma HalveMod(a: nat, q: nat)
    requires q > 0
    ensures a % (2 * q) == 2 * (a / 2 % q) + a % 2
  {
    var h := a / 2;
    var d, r := h / q, h % q;
    assert h == q * d + r;
    assert a == 2 * h + a % 2;
    ModIs(a, 2 * q, d, 2 * r + a % 2);
  }

  lemma SmallMultiple(q: int, x: int)
    requires q > 0 && -q < q * x < q
    ensures x == 0
  {
  }

  lemma ModIs(a: int, q: int, d: int, r: int)
    requires q > 0 && 0 <= r < q && a == q * d + r
    ensures a % q == r && a / q == d
  {
    var e := a / q;
    assert a == q * e + a % q;
    assert q * (d - e) == a % q - r;
    SmallMultiple(q, d - e);
  }

  // r is the largest multiple of q that is not above a.
  ghost predicate IsFloor(a: nat, q: nat, r: nat)
    requires q > 0
  {
    r <= a < r + q && r % q == 0
  }

  lemma FloorDoubles(a: nat, q: nat, r: nat)
    requires q > 0 && IsFloor(a / 2, q, r)
    ensures IsFloor(a, 2 * q, 2 * r)
  {
    HalveMod(2 * r, q);
  }

  lemma FloorIs(a: nat, q: nat, r: nat)
    requires q > 0 && IsFloor(a, q, r)
    ensures r == a - a % q
  {
    assert r == q * (r / q);
    ModIs(a, q, r / q, a - r);
  }

  // A mask of width w with its k low bits clear rounds down to a multiple of 2^k.
  lemma {:induction false} AndRoundsDown(a: nat, w: nat, k: nat)
    requires k <= w && a < Pow2(w)
    ensures Pow2(k) <= Pow2(w) && IsFloor(a, Pow2(k), BitAnd(a, Pow2(w) - Pow2(k)))
    decreases w
  {
    if k == 0 {
      AndAllOnes(a, w);
      FloorOne(a);
    } else {
      HalfBelow(a, Pow2(w - 1));
      AndRoundsDown(a / 2, w - 1, k - 1);
      FloorsDouble(a, Pow2(w - 1), Pow2(k - 1), Pow2(w), Pow2(k));
    }
  }

  lemma FloorOne(a: nat)
    ensures IsFloor(a, 1, a)
  {
  }

  lemma {:induction false} FloorsDouble(a: nat, half: nat, q: nat, wide: nat, p: nat)
    requires 0 < q <= half && wide == 2 * half && p == 2 * q
    requires IsFloor(a / 2, q, BitAnd(a / 2, half - q))
    ensures p <= wide && IsFloor(a, p, BitAnd(a, wide - p))
  {
    FloorDoubles(a, q, BitAnd(a / 2, half - q));
    AndEven(a, half - q);
    assert wide - p == 2 * (half - q);
  }

  lemma HalfBelow(a: nat, half: nat)
    requires a < 2 * half
    ensures a / 2 < half
  {
  }

  lemma {:induction false} AndAllOnes(a: nat, w: nat)
    requires a < Pow2(w)
    ensures BitAnd(a, Pow2(w) - 1) == a
  {
    if w > 0 {
      AndAllOnes(a / 2, w - 1);
      AndOdd(a, Pow2(w - 1) - 1);
    }
  }

  lemma {:induction false} AndEven(a: nat, y: nat)
    ensures BitAnd(a, 2 * y) == 2 * BitAnd(a / 2, y)
  {
    var z := 2 * y;
    assert z / 2 == y && z % 2 == 0;
  }

  lemma {:induction false} AndOdd(a: nat, y: nat)
    ensures BitAnd(a, 2 * y + 1) == 2 * BitAnd(a / 2, y) + a % 2
  {
    var z := 2 * y + 1;
    assert z / 2 == y && z % 2 == 1;
  }

  lemma {:induction false} OrOdd(n: nat, y: nat)
    ensures BitOr(n, 2 * y + 1) == 2 * BitOr(n / 2, y) + 1
  {
    var z := 2 * y + 1;
    assert z / 2 == y && z % 2 == 1;
  }

  // Setting the k low bits of a multiple of 2^k adds them.
  lemma {:induction false} OrAdds(n: nat, k: nat)
    requires n % Pow2(k) == 0
    ensures BitOr(n, Pow2(k) - 1) == n + Pow2(k) - 1
    decreases k
  {
    if k > 0 {
      HalveMod(n, Pow2(k - 1));
      OrAdds(n / 2, k - 1);
      OrDoubles(n, Pow2(k - 1), Pow2(k));
    }
  }

  lemma {:induction false} OrDoubles(n: nat, half: nat, q: nat)
    requires half > 0 && q == 2 * half && n % 2 == 0
    requires BitOr(n / 2, half - 1) == n / 2 + half - 1
    ensures BitOr(n, q - 1) == n + q - 1
  {
    OrOdd(n, half - 1);
  }

  // Rounding down to n means lying in the block of size q that starts at n.
  lemma RoundsToBlock(a: nat, n: nat, q: nat)
    requires q > 0 && n % q == 0
    ensures a - a % q == n <==> n <= a < n + q
  {
    var e := n / q;
    assert n == q * e;
    if n <= a < n + q {
      ModIs(a, q, e, a - n);
    }
  }

  lemma Pow2At32()
    ensures Pow2(BITS) == TWO_32
  {
    assert Pow2(8) == 256;
    assert Pow2(16) == 0x1_0000 by { assert Pow2(12) == 4096; }
    assert Pow2(24) == 0x100_0000 by { assert Pow2(20) == 0x10_0000; }
    assert Pow2(28) == 0x1000_0000;
    assert Pow2(32) == TWO_32;
  }

  lemma {:induction false} MaskRoundsDown(a: uint32, prefix: nat)
    requires prefix <= 32
    ensures BitAnd(a, PrefixMask(prefix)) == a - a % Pow2(32 - prefix)
  {
    Pow2At32();
    WideMaskRoundsDown(a, BITS, 32 - prefix);
  }

  lemma {:induction false} WideMaskRoundsDown(a: uint32, w: nat, k: nat)
    requires k <= w && Pow2(w) == TWO_32
    ensures Pow2(k) <= TWO_32 && BitAnd(a, TWO_32 - Pow2(k)) == a - a % Pow2(k)
  {
    AndRoundsDown(a, w, k);
    FloorIs(a, Pow2(k), BitAnd(a, Pow2(w) - Pow2(k)));
  }

  // The host addresses of a network are what lies strictly between its ends.
  lemma {:induction false} HostsLieBetween(a: uint32, n: uint32, prefix: nat)
    requires prefix <= 32 && BitAnd(n, PrefixMask(prefix)) == n
    ensures var q := Pow2(32 - prefix);
            IsHost(a, n, PrefixMask(prefix)) <==> n < a < n + q - 1
    ensures BitOr(n, Complement(PrefixMask(prefix))) == n + Pow2(32 - prefix) - 1 < TWO_32
  {
    var k := 32 - prefix;
    MaskRoundsDown(n, prefix);
    MaskRoundsDown(a, prefix);
    OrAdds(n, k);
    RoundsToBlock(a, n, Pow2(k));
    BlockFits(n, k);
  }

  lemma {:induction false} BlockFits(n: nat, k: nat)
    requires k <= 32 && n < TWO_32 && n % Pow2(k) == 0
    ensures n + Pow2(k) <= TWO_32
  {
    Pow2At32();
    Pow2Divides(k, BITS);
    NextMultiple(n, TWO_32, Pow2(k));
  }

  lemma NextMultiple(n: nat, t: nat, q: nat)
    requires q > 0 && n % q == 0 && t % q == 0 && n < t
    ensures n + q <= t
  {
    var e, f := n / q, t / q;
    assert n == q * e && t == q * f;
    assert q * (f - e) == t - n;
    if t - n < q { SmallMultiple(q, f - e); }
  }

  lemma {:induction false} Pow2Divides(k: nat, w: nat)
    requires k <= w
    ensures Pow2(w) % Pow2(k) == 0
    decreases w
  {
    if k == w {
      ModIs(Pow2(w), Pow2(k), 1, 0);
    } else {
      Pow2Divides(k, w - 1);
      var d := Pow2(w - 1) / Pow2(k);
      assert Pow2(w - 1) == Pow2(k) * d;
      ModIs(Pow2(w), Pow2(k), 2 * d, 0);
    }
  }

  // ----- the auto-derived range -----

  lemma {:induction false} SmallPow2(k: nat)
    ensures k == 0 ==> Pow2(k) == 1
    ensures k == 1 ==> Pow2(k) == 2
    ensures k > 1 ==> Pow2(k) >= 4
  {
    if k > 1 {
      assert Pow2(2) == 4;
      Pow2Monotone(2, k);
    }
  }

  // What the code derives: nothing for prefix 31, and otherwise from n + 1 to n + q - 2, wrapping.
  lemma {:induction false} DerivedRange(n: uint32, prefix: nat)
    requires prefix <= 32 && BitAnd(n, PrefixMask(prefix)) == n
    ensures Derive(n, PrefixMask(prefix)) ==
            if prefix == 31 then None else Some((Wrap(n + 1), Wrap(n + Pow2(32 - prefix) - 2)))
  {
    var q := Pow2(32 - prefix);
    SmallPow2(32 - prefix);
    HostsLieBetween(n, n, prefix);
    DerivedFrom(n, PrefixMask(prefix), q);
  }

  // What is derived when the mask leaves q addresses.
  lemma {:induction false} DerivedFrom(n: uint32, m: uint32, q: nat)
    requires q > 0 && Complement(m) == q - 1 && BitOr(n, Complement(m)) == n + q - 1
    ensures Derive(n, m) == if q == 2 then None else Some((Wrap(n + 1), Wrap(n + q - 2)))
  {
  }

  lemma {:induction false} AllHosts(n: uint32, prefix: nat)
    requires prefix <= 32 && BitAnd(n, PrefixMask(prefix)) == n
    ensures forall a: uint32 :: IsHost(a, n, PrefixMask(prefix)) <==> n < a < n + Pow2(32 - prefix) - 1
    ensures n + Pow2(32 - prefix) - 1 < TWO_32
  {
    forall a: uint32
      ensures IsHost(a, n, PrefixMask(prefix)) <==> n < a < n + Pow2(32 - prefix) - 1
    {
      HostsLieBetween(a, n, prefix);
    }
    HostsLieBetween(n, n, prefix);
  }

  /** For every prefix length the auto-derived range is exactly the network's host addresses, and refused
      when there are none, if and only if the prefix is not 32; there the guard wraps and lets the network through. */
  lemma {:induction false} DerivesHostsIff(n: uint32, prefix: nat)
    requires prefix <= 32 && BitAnd(n, PrefixMask(prefix)) == n
    ensures DerivesHosts(n, PrefixMask(prefix)) <==> prefix != 32
    ensures Derive(n, PrefixMask(prefix)).None? <==> prefix == 31
  {
    var q := Pow2(32 - prefix);
    DerivedRange(n, prefix);
    AllHosts(n, prefix);
    SmallPow2(32 - prefix);
    BoundsMean(n, PrefixMask(prefix), q);
  }

  // The derived bounds, for a network whose hosts lie strictly between n and n + q - 1.
  lemma BoundsMean(n: uint32, m: uint32, q: nat)
    requires (q == 1 || q == 2 || q >= 4) && n + q - 1 < TWO_32
    requires forall a: uint32 :: IsHost(a, n, m) <==> n < a < n + q - 1
    requires Derive(n, m) == if q == 2 then None else Some((Wrap(n + 1), Wrap(n + q - 2)))
    ensures DerivesHosts(n, m) <==> q != 1
  {
    if q >= 4 {
      InRangeStays(n + 1);
      InRangeStays(n + q - 2);
      assert IsHost(n + 1, n, m);
    } else if q == 1 {
      assert forall a: uint32 :: !IsHost(a, n, m);
    }
  }

  lemma InRangeStays(x: int)
    requires 0 <= x < TWO_32
    ensures Wrap(x) == x
  {
  }

  /** The bytes handed to dnsmasq are the derived bounds. */
  lemma AutoRange(network: IPv4, mask: IPv4)
    ensures match Derive(ToUint32(network), ToUint32(mask))
            case None => LeaseRange(Unset, Unset, network, mask) == NoHosts
            case Some((first, last)) =>
              var r := LeaseRange(Unset, Unset, network, mask);
              r.Ok? && ToUint32(r.start) == first && ToUint32(r.end) == last
  {
  }

  /** Explicit bounds are taken as given, both or neither. */
  lemma ExplicitRange(start: Bound, end: Bound, network: IPv4, mask: IPv4)
    requires !(start.Unset? && end.Unset?)
    ensures LeaseRange(start, end, network, mask).Ok? <==> start.Address? && end.Address?
    ensures start.Address? && end.Address? ==> LeaseRange(start, end, network, mask) == Ok(start.ip, end.ip)
    ensures LeaseRange(start, end, network, mask).OnlyOneBound? <==> start.Unset? || end.Unset?
    ensures LeaseRange(start, end, network, mask).BadStart? <==> start.NotIPv4? && !end.Unset?
    ensures LeaseRange(start, end, network, mask).BadEnd? <==> start.Address? && end.NotIPv4?
  {
  }
}
