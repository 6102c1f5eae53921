// The dhcp-hostsfile: its printer, and a reader of the same syntax.
module Hostsfile {
  import opened Common
  import opened Text
  import opened Mac

  // The address a reservation table pins for mac; empty when it pins none.
  function Pin(reservations: map<string, string>, mac: string): string {
    if mac in reservations then reservations[mac] else ""
  }

  // What a hostsfile means: the admitted MACs, each with its pinned address.
  ghost function Admitted(macs: seq<string>, reservations: map<string, string>): map<string, string> {
    map mac | mac in Elements(macs) :: Pin(reservations, mac)
  }

  const TAG := "set:kezio"

  function Body(mac: string, addr: string): string {
    if addr != "" then mac + [','] + (TAG + [','] + addr) else mac + [','] + TAG
  }

  function Line(mac: string, reservations: map<string, string>): string {
    Body(mac, Pin(reservations, mac)) + ['\n']
  }

  function Lines(macs: seq<string>, reservations: map<string, string>): string {
    if macs == [] then "" else Line(macs[0], reservations) + Lines(macs[1..], reservations)
  }

  function Render(macs: seq<string>, reservations: map<string, string>): string {
    Lines(SortedSet(macs), reservations)
  }

  lemma {:induction false} LinesAppend(a: seq<string>, mac: string, reservations: map<string, string>)
    ensures Lines(a + [mac], reservations) == Lines(a, reservations) + Line(mac, reservations)
  {
    var last := Line(mac, reservations);
    if a == [] {
      assert [] + [mac] == [mac] && [mac][1..] == [];
      assert Lines([], reservations) == "";
    } else {
      assert (a + [mac])[1..] == a[1..] + [mac];
      LinesAppend(a[1..], mac, reservations);
      Associative(Line(a[0], reservations), Lines(a[1..], reservations), last);
    }
  }

  /** RenderHostsfile */
  method RenderHostsfile(macs: seq<string>, reservations: map<string, string>) returns (b: string)
    ensures b == Render(macs, reservations)
  {
    if |macs| == 0 {
      assert SortedSet(macs) == [];
      return "";
    }
    var sorted := SortedSet(macs);
    b := "";
    for i := 0 to |sorted|
      invariant b == Lines(sorted[..i], reservations)
    {
      var mac := sorted[i];
      assert sorted[..i + 1] == sorted[..i] + [mac];
      LinesAppend(sorted[..i], mac, reservations);
      if mac in reservations && reservations[mac] != "" {
        b := b + ((mac + [','] + (TAG + [','] + reservations[mac])) + ['\n']);
      } else {
        b := b + ((mac + [','] + TAG) + ['\n']);
      }
    }
    assert sorted[..|sorted|] == sorted;
  }

  // ----- reading a hostsfile back -----

  // One "mac,set:kezio[,address]" line; anything else is not an entry.
  function ReadEntry(line: string): Option<(string, string)> {
    var k := Find(line, ',');
    if k == |line| then None else
      var rest := line[k + 1..];
      if rest == TAG then Some((line[..k], ""))
      else if |TAG| < |rest| && rest[..|TAG| + 1] == TAG + [','] then Some((line[..k], rest[|TAG| + 1..]))
      else None
  }

  // The entries of a newline-terminated file.
  function ReadHosts(file: string): map<string, string>
    decreases |file|
  {
    var k := Find(file, '\n');
    if k == |file| then map[] else
      var rest := ReadHosts(file[k + 1..]);
      match ReadEntry(file[..k])
      case None => rest
      case Some((mac, addr)) => rest[mac := addr]
  }

  lemma EntryRoundTrip(mac: string, addr: string)
    requires ',' !in mac
    ensures ReadEntry(Body(mac, addr)) == Some((mac, addr))
  {
    if addr == "" {
      FindFirst(mac, ',', TAG);
      assert Body(mac, addr) == mac + [','] + TAG;
      assert mac + [','] + TAG + [] == mac + [','] + TAG;
    } else {
      FindFirst(mac, ',', TAG + [','] + addr);
      assert (TAG + [','] + addr)[..|TAG| + 1] == TAG + [','];
      assert (TAG + [','] + addr)[|TAG| + 1..] == addr;
    }
  }

  ghost predicate PlainPins(macs: seq<string>, reservations: map<string, string>) {
    && (forall m :: m in macs ==> IsNormalized(m))
    && (forall m :: m in macs ==> '\n' !in Pin(reservations, m))
  }

  lemma {:induction false} LinesRoundTrip(macs: seq<string>, reservations: map<string, string>)
    requires Canonical(macs) && PlainPins(macs, reservations)
    ensures ReadHosts(Lines(macs, reservations)) == Admitted(macs, reservations)
  {
    if macs == [] {
      assert Find("", '\n') == 0;
    } else {
      var mac, rest := macs[0], macs[1..];
      NormalizedIsPlain(mac);
      assert forall m :: m in rest ==> m in macs;
      TailElements(macs);
      LinesRoundTrip(rest, reservations);
      AdmittedFront(macs, reservations);
      ReadFirst(mac, Pin(reservations, mac), Lines(rest, reservations));
    }
  }

  lemma AdmittedFront(macs: seq<string>, reservations: map<string, string>)
    requires macs != []
    ensures Admitted(macs, reservations) == Admitted(macs[1..], reservations)[macs[0] := Pin(reservations, macs[0])]
  {
    assert macs == [macs[0]] + macs[1..];
  }

  lemma {:induction false} ReadFirst(mac: string, addr: string, rest: string)
    requires ',' !in mac && '\n' !in mac && '\n' !in addr
    ensures ReadHosts(Body(mac, addr) + ['\n'] + rest) == ReadHosts(rest)[mac := addr]
  {
    var body := Body(mac, addr);
    assert '\n' !in body by { BodyPlain(mac, addr); }
    FindFirst(body, '\n', rest);
    EntryRoundTrip(mac, addr);
  }

  lemma BodyPlain(mac: string, addr: string)
    requires '\n' !in mac && '\n' !in addr
    ensures '\n' !in Body(mac, addr)
  {
    assert '\n' !in TAG;
  }

  /** Reading a rendered hostsfile gives back exactly the admitted MACs and their pins. */
  lemma RenderRoundTrip(macs: seq<string>, reservations: map<string, string>)
    requires PlainPins(macs, reservations)
    ensures ReadHosts(Render(macs, reservations)) == Admitted(macs, reservations)
  {
    var sorted := SortedSet(macs);
    forall m | m in sorted
      ensures m in macs
    {
      assert m in Elements(sorted);
    }
    LinesRoundTrip(sorted, reservations);
  }

  /** Two renderings are the same bytes exactly when they mean the same. */
  lemma RenderCanonical(macs1: seq<string>, reservations1: map<string, string>,
                        macs2: seq<string>, reservations2: map<string, string>)
    requires PlainPins(macs1, reservations1) && PlainPins(macs2, reservations2)
    ensures Render(macs1, reservations1) == Render(macs2, reservations2)
            <==> Admitted(macs1, reservations1) == Admitted(macs2, reservations2)
  {
    RenderRoundTrip(macs1, reservations1);
    RenderRoundTrip(macs2, reservations2);
    if Admitted(macs1, reservations1) == Admitted(macs2, reservations2) {
      assert Elements(macs1) == Admitted(macs1, reservations1).Keys;
      assert Elements(macs2) == Admitted(macs2, reservations2).Keys;
      SortedSetOfSet(macs1, macs2);
      var sorted := SortedSet(macs1);
      forall m | m in sorted
        ensures Pin(reservations1, m) == Pin(reservations2, m)
      {
        assert m in Elements(sorted);
        assert Admitted(macs1, reservations1)[m] == Admitted(macs2, reservations2)[m];
      }
      SameLines(sorted, reservations1, reservations2);
    }
  }

  lemma {:induction false} SameLines(macs: seq<string>, r1: map<string, string>, r2: map<string, string>)
    requires forall m :: m in macs ==> Pin(r1, m) == Pin(r2, m)
    ensures Lines(macs, r1) == Lines(macs, r2)
  {
    if macs != [] {
      SameLines(macs[1..], r1, r2);
    }
  }

  /** A reservation is never a second way in: only enrolled MACs are admitted, whatever is reserved. */
  lemma ReservationsAdmitNobody(macs: seq<string>, reservations: map<string, string>)
    requires PlainPins(macs, reservations)
    ensures ReadHosts(Render(macs, reservations)).Keys == Elements(macs)
    ensures ReadHosts(Render(macs, map[])).Keys == ReadHosts(Render(macs, reservations)).Keys
  {
    RenderRoundTrip(macs, reservations);
    RenderRoundTrip(macs, map[]);
  }
}
