// MAC address normalization.
module Mac {
  import opened Common

  predicate IsHex(c: char) {
    '0' <= c <= '9' || 'a' <= c <= 'f' || 'A' <= c <= 'F'
  }

  function LowerHex(c: char): (r: char)
    requires IsHex(c) || c == ':'
    ensures IsHex(r) == IsHex(c) && (c == ':' <==> r == ':')
    ensures !('A' <= r <= 'F')
  {
    if 'A' <= c <= 'F' then (c as int + 32) as char else c
  }

  // macPattern: six colon-separated pairs of hex digits.
  predicate IsMAC(s: string) {
    && |s| == 17
    && forall i :: 0 <= i < 17 ==> if i % 3 == 2 then s[i] == ':' else IsHex(s[i])
  }

  /** NormalizeMAC */
  function NormalizeMAC(s: string): (r: Option<string>)
    ensures r.Some? <==> IsMAC(s)
    ensures r.Some? ==> IsMAC(r.value)
  {
    if IsMAC(s) then Some(seq(|s|, i requires 0 <= i < |s| => LowerHex(s[i]))) else None
  }

  ghost predicate IsNormalized(mac: string) {
    NormalizeMAC(mac) == Some(mac)
  }

  // Normalizing yields a fixed point, so one spelling stands for each address.
  lemma NormalizeIdempotent(s: string)
    ensures NormalizeMAC(s).Some? ==> IsNormalized(NormalizeMAC(s).value)
  {
    if IsMAC(s) {
      var r := NormalizeMAC(s).value;
      forall i | 0 <= i < 17
        ensures NormalizeMAC(r).value[i] == r[i]
      {
        assert IsHex(r[i]) || r[i] == ':';
      }
      assert NormalizeMAC(r).value == r;
    }
  }

  // The number a hex digit stands for, in either case.
  function HexValue(c: char): (v: nat)
    requires IsHex(c)
    ensures v < 16
  {
    if c <= '9' then c as int - '0' as int
    else if c <= 'F' then 10 + (c as int - 'A' as int)
    else 10 + (c as int - 'a' as int)
  }

  // Two MACs spell the same address.
  ghost predicate SameAddress(a: string, b: string)
    requires IsMAC(a) && IsMAC(b)
  {
    forall i :: 0 <= i < 17 && i % 3 != 2 ==> HexValue(a[i]) == HexValue(b[i])
  }

  ghost predicate IsLowerCase(s: string) {
    forall i :: 0 <= i < |s| ==> !('A' <= s[i] <= 'F')
  }

  /** Normalizing a MAC keeps its address and leaves no upper-case digit. */
  lemma NormalizeKeepsAddress(s: string)
    requires IsMAC(s)
    ensures NormalizeMAC(s).Some? && IsMAC(NormalizeMAC(s).value)
    ensures SameAddress(s, NormalizeMAC(s).value) && IsLowerCase(NormalizeMAC(s).value)
  {
    var r := NormalizeMAC(s).value;
    forall i | 0 <= i < 17 && i % 3 != 2
      ensures HexValue(s[i]) == HexValue(r[i])
    {
      LowerHexKeepsValue(s[i]);
    }
  }

  lemma LowerHexKeepsValue(c: char)
    requires IsHex(c)
    ensures HexValue(LowerHex(c)) == HexValue(c)
  {
  }

  // A lower-case digit is determined by its value.
  lemma LowerCaseUnique(a: char, b: char)
    requires IsHex(a) && IsHex(b) && HexValue(a) == HexValue(b)
    requires !('A' <= a <= 'F') && !('A' <= b <= 'F')
    ensures a == b
  {
  }

  lemma LowerCaseMACUnique(a: string, b: string)
    requires IsMAC(a) && IsMAC(b) && IsLowerCase(a) && IsLowerCase(b) && SameAddress(a, b)
    ensures a == b
  {
    forall i | 0 <= i < 17
      ensures a[i] == b[i]
    {
      if i % 3 != 2 { LowerCaseUnique(a[i], b[i]); }
    }
  }

  /** Two MACs have the same normal form exactly when they spell the same address. */
  lemma SameNormalFormIff(a: string, b: string)
    requires IsMAC(a) && IsMAC(b)
    ensures NormalizeMAC(a) == NormalizeMAC(b) <==> SameAddress(a, b)
  {
    var x, y := NormalizeMAC(a).value, NormalizeMAC(b).value;
    NormalizeKeepsAddress(a);
    NormalizeKeepsAddress(b);
    if SameAddress(a, b) {
      assert SameAddress(x, y);
      LowerCaseMACUnique(x, y);
    }
  }

  lemma NormalizedIsPlain(mac: string)
    requires IsNormalized(mac)
    ensures ',' !in mac && '\n' !in mac && mac != ""
  {
    forall i | 0 <= i < |mac|
      ensures mac[i] != ',' && mac[i] != '\n'
    {
      assert IsHex(mac[i]) || mac[i] == ':';
    }
  }
}
