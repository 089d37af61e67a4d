/**
  * The kernel's route table as the plugin reads it, and when it calls it a full
  * tunnel.  A destination in /proc/net/route is a network-order address printed
  * as a little-endian number, so its bytes stand in reverse.
  */
module RouteTable {
  import opened Text
  import opened Numbers
  import opened RouteLines

  datatype Route = Route(dest: nat, prefix: nat, nextHop: nat, metric: nat)

  function HexDigit(c: char): Option<nat> {
    if '0' <= c <= '9' then Some(c as int - '0' as int)
    else if 'a' <= c <= 'f' then Some(c as int - 'a' as int + 10)
    else if 'A' <= c <= 'F' then Some(c as int - 'A' as int + 10)
    else None
  }

  function HexValue(s: string): Option<nat>
    decreases |s|
  {
    if s == "" then Some(0)
    else
      var high := HexValue(s[..|s| - 1]);
      var low := HexDigit(s[|s| - 1]);
      if high.None? || low.None? then None else Some(16 * high.value + low.value)
  }

  /** `u32::from_str_radix(s, 16)`. */
  function ParseHex32(s: string): (r: Option<nat>)
    ensures r.Some? ==> r.value <= U32_MAX
  {
    var digits := if s != "" && s[0] == '+' then s[1..] else s;
    if digits == "" then None
    else
      var v := HexValue(digits);
      if v.Some? && v.value <= U32_MAX then v else None
  }

  /** `u32::count_ones`. */
  function CountOnes(n: nat): nat {
    if n == 0 then 0 else n % 2 + CountOnes(n / 2)
  }

  /** One row of the table, or None where the parser skips it. */
  function ParseRow(line: string, device: string): Option<Route> {
    var cols := Fields(line, false);
    if |cols| < 11 || cols[0] != device then None
    else
      var dest, hop, metric, mask := ParseHex32(cols[1]), ParseHex32(cols[2]), ParseU32(cols[6]), ParseHex32(cols[7]);
      if dest.None? || hop.None? || metric.None? || mask.None? then None
      else Some(Route(dest.value, CountOnes(mask.value), hop.value, metric.value))
  }

  function Rows(lines: seq<string>, device: string): seq<Route>
    decreases |lines|
  {
    if lines == [] then []
    else
      var row := ParseRow(lines[|lines| - 1], device);
      Rows(lines[..|lines| - 1], device) + if row.Some? then [row.value] else []
  }

  /** The header row is skipped by its number, whatever it says. */
  method ParseProcRoutes(raw: string, device: string) returns (out: seq<Route>)
    ensures var lines := Lines(raw); out == if lines == [] then [] else Rows(lines[1..], device)
  {
    hide ParseHex32, ParseU32, Fields, CountOnes, Lines;
    out := [];
    var lines := Lines(raw);
    for i := 0 to |lines|
      invariant i == 0 ==> out == []
      invariant i > 0 ==> out == Rows(lines[1..i], device)
    {
      if i == 0 {
        continue;
      }
      assert lines[1..i + 1][..i - 1] == lines[1..i];
      var cols := Fields(lines[i], false);
      if |cols| < 11 {
        continue;
      }
      if cols[0] != device {
        continue;
      }
      var dest := ParseHex32(cols[1]);
      if dest.None? {
        continue;
      }
      var hop := ParseHex32(cols[2]);
      if hop.None? {
        continue;
      }
      var metric := ParseU32(cols[6]);
      if metric.None? {
        continue;
      }
      var mask := ParseHex32(cols[7]);
      if mask.None? {
        continue;
      }
      out := out + [Route(dest.value, CountOnes(mask.value), hop.value, metric.value)];
    }
    if |lines| > 0 {
      assert lines[1..|lines|] == lines[1..];
    }
  }

  predicate HasDefaultRoute(routes: seq<Route>) {
    || (exists i :: 0 <= i < |routes| && routes[i].prefix == 0 && routes[i].dest == 0)
    || ((exists i :: 0 <= i < |routes| && routes[i].prefix == 1 && routes[i].dest == 0)
        && (exists i :: 0 <= i < |routes| && routes[i].prefix == 1 && routes[i].dest == 0x80))
  }

  // ---------- What the rows mean ----------

  const TWO_32 := 0x1_0000_0000

  /** The four bytes of a word in reverse. */
  function Swap(w: nat): nat {
    w % 256 * 0x100_0000 + w / 256 % 256 * 0x1_0000 + w / 0x1_0000 % 256 * 256 + w / 0x100_0000 % 256
  }

  function Pow2(n: nat): (p: nat)
    ensures p > 0
  {
    if n == 0 then 1 else 2 * Pow2(n - 1)
  }

  /** Prefix notation: the route matches the addresses that agree with it on the leading bits. */
  predicate Matches(r: Route, address: nat) {
    r.prefix <= 32 && address / Pow2(32 - r.prefix) == Swap(r.dest) / Pow2(32 - r.prefix)
  }

  predicate Routed(routes: seq<Route>, address: nat) {
    exists i :: 0 <= i < |routes| && Matches(routes[i], address)
  }

  ghost predicate CoversEverything(routes: seq<Route>) {
    forall a :: 0 <= a < TWO_32 ==> Routed(routes, a)
  }

  lemma Halves()
    ensures Pow2(31) == 0x8000_0000 && Pow2(32) == TWO_32
  {
    assert Pow2(4) == 16;
    assert Pow2(8) == 256;
    assert Pow2(12) == 4096;
    assert Pow2(16) == 65536;
    assert Pow2(20) == 0x10_0000;
    assert Pow2(24) == 0x100_0000;
    assert Pow2(28) == 0x1000_0000;
  }

  /** A route over everything or over one half, in plain numbers. */
  lemma CoarseMatch(r: Route, a: nat)
    requires a < TWO_32
    ensures r.prefix == 0 && r.dest == 0 ==> Matches(r, a)
    ensures r.prefix == 1 && r.dest == 0 ==> (Matches(r, a) <==> a < 0x8000_0000)
    ensures r.prefix == 1 && r.dest == 0x80 ==> (Matches(r, a) <==> a >= 0x8000_0000)
  {
    Halves();
    assert Swap(0x80) == 0x8000_0000 && Swap(0) == 0;
    hide Swap, Pow2;
    WhichHalf(a);
  }

  lemma WhichHalf(a: nat)
    requires a < TWO_32
    ensures a / 0x8000_0000 == if a < 0x8000_0000 then 0 else 1
    ensures a / TWO_32 == 0
  {
  }

  /** Whatever else is in the table: when it is called a full tunnel, every address is routed into it. */
  lemma DefaultRouteCoversEverything(routes: seq<Route>)
    requires HasDefaultRoute(routes)
    ensures CoversEverything(routes)
  {
    hide Matches;
    forall a | 0 <= a < TWO_32 ensures Routed(routes, a) {
      if i :| 0 <= i < |routes| && routes[i].prefix == 0 && routes[i].dest == 0 {
        CoarseMatch(routes[i], a);
      } else {
        var low :| 0 <= low < |routes| && routes[low].prefix == 1 && routes[low].dest == 0;
        var high :| 0 <= high < |routes| && routes[high].prefix == 1 && routes[high].dest == 0x80;
        CoarseMatch(routes[low], a);
        CoarseMatch(routes[high], a);
      }
    }
  }

  /** At most one bit of prefix, and no bit set behind it. */
  predicate Coarse(r: Route) {
    r.dest < TWO_32 && r.prefix <= 1 && Swap(r.dest) % Pow2(32 - r.prefix) == 0
  }

  lemma SplitByte(w: nat, q: nat, r: nat)
    requires w == q * 256 + r && r < 256
    ensures w / 256 == q && w % 256 == r
  {
  }

  lemma SplitHalf(w: nat, q: nat, r: nat)
    requires w == q * 0x1_0000 + r && r < 0x1_0000
    ensures w / 0x1_0000 == q
  {
  }

  lemma SplitTop(w: nat, q: nat, r: nat)
    requires w == q * 0x100_0000 + r && r < 0x100_0000
    ensures w / 0x100_0000 == q
  {
  }

  lemma SwapBytes(w: nat, b0: nat, b1: nat, b2: nat, b3: nat)
    requires b0 < 256 && b1 < 256 && b2 < 256 && b3 < 256
    requires w == ((b3 * 256 + b2) * 256 + b1) * 256 + b0
    ensures Swap(w) == b0 * 0x100_0000 + b1 * 0x1_0000 + b2 * 256 + b3
  {
    var y := b3 * 256 + b2;
    var x := y * 256 + b1;
    SplitByte(w, x, b0);
    SplitByte(x, y, b1);
    SplitHalf(w, y, b1 * 256 + b0);
    SplitByte(y, b3, b2);
    SplitTop(w, b3, (b2 * 256 + b1) * 256 + b0);
    SplitByte(b3, 0, b3);
  }

  lemma Bytes(w: nat) returns (b0: nat, b1: nat, b2: nat, b3: nat)
    requires w < TWO_32
    ensures b0 < 256 && b1 < 256 && b2 < 256 && b3 < 256
    ensures w == ((b3 * 256 + b2) * 256 + b1) * 256 + b0
  {
    var x := w / 256;
    var y := x / 256;
    b0, b1, b2, b3 := w % 256, x % 256, y % 256, y / 256;
  }

  lemma HalfBytes(b0: nat, b1: nat, b2: nat, b3: nat)
    requires b0 < 256 && b1 < 256 && b2 < 256 && b3 < 256
    requires (b0 * 0x100_0000 + b1 * 0x1_0000 + b2 * 256 + b3) % 0x8000_0000 == 0
    ensures b1 == b2 == b3 == 0 && (b0 == 0 || b0 == 0x80)
  {
    var s := b0 * 0x100_0000 + b1 * 0x1_0000 + b2 * 256 + b3;
    var k := s / 0x8000_0000;
    assert s == k * 0x8000_0000;
  }

  lemma SwappedHalf(w: nat)
    requires w < TWO_32 && Swap(w) % 0x8000_0000 == 0
    ensures w == 0 || w == 0x80
  {
    var b0, b1, b2, b3 := Bytes(w);
    SwapBytes(w, b0, b1, b2, b3);
    hide Swap;
    HalfBytes(b0, b1, b2, b3);
  }

  lemma CoarseDestinations(r: Route)
    requires Coarse(r)
    ensures if r.prefix == 0 then r.dest == 0 else r.dest == 0 || r.dest == 0x80
  {
    Halves();
    assert Swap(0x80) == 0x8000_0000;
    hide Swap, Pow2;
    if r.prefix == 0 {
      assert Swap(r.dest) % 0x8000_0000 == 0 by { EvenHalf(Swap(r.dest)); }
      SwappedHalf(r.dest);
    } else {
      SwappedHalf(r.dest);
    }
  }

  lemma SplitSign(w: nat, q: nat)
    requires w == q * 0x8000_0000
    ensures w % 0x8000_0000 == 0
  {
  }

  lemma EvenHalf(s: nat)
    requires s % TWO_32 == 0
    ensures s % 0x8000_0000 == 0
  {
    var q := s / TWO_32;
    assert s == q * TWO_32;
    SplitSign(s, 2 * q);
  }

  /** On tables of whole halves the test is exact. */
  lemma ExactOnHalves(routes: seq<Route>)
    requires forall i :: 0 <= i < |routes| ==> Coarse(routes[i])
    ensures HasDefaultRoute(routes) <==> CoversEverything(routes)
  {
    hide Matches, Coarse;
    if HasDefaultRoute(routes) {
      DefaultRouteCoversEverything(routes);
    } else {
      var a := if exists i :: 0 <= i < |routes| && routes[i].prefix == 1 && routes[i].dest == 0
               then 0x8000_0000 else 0;
      forall i | 0 <= i < |routes| ensures !Matches(routes[i], a) {
        CoarseDestinations(routes[i]);
        CoarsePrefix(routes[i]);
        CoarseMatch(routes[i], a);
      }
      assert !Routed(routes, a);
    }
  }

  lemma CoarsePrefix(r: Route)
    requires Coarse(r)
    ensures r.prefix <= 1
  {}

  /** The routes over everything or over one half. */
  function CoarseOnly(routes: seq<Route>): (r: seq<Route>)
    ensures forall i :: 0 <= i < |r| ==> Coarse(r[i])
    decreases |routes|
  {
    if routes == [] then []
    else
      var last := routes[|routes| - 1];
      CoarseOnly(routes[..|routes| - 1]) + if Coarse(last) then [last] else []
  }

  predicate Has(routes: seq<Route>, prefix: nat, dest: nat) {
    exists i :: 0 <= i < |routes| && routes[i].prefix == prefix && routes[i].dest == dest
  }

  lemma {:induction false} CoarseOnlyKeeps(routes: seq<Route>, prefix: nat, dest: nat)
    requires (prefix == 0 && dest == 0) || (prefix == 1 && (dest == 0 || dest == 0x80))
    ensures Has(CoarseOnly(routes), prefix, dest) <==> Has(routes, prefix, dest)
    decreases |routes|
  {
    hide Coarse;
    if routes != [] {
      var front, last := routes[..|routes| - 1], routes[|routes| - 1];
      CoarseOnlyKeeps(front, prefix, dest);
      HasOneMore(front, last, prefix, dest);
      assert routes == front + [last];
      if Coarse(last) {
        HasOneMore(CoarseOnly(front), last, prefix, dest);
      } else if last.prefix == prefix && last.dest == dest {
        HalvesAreCoarse(last);
      } else {
        assert CoarseOnly(front) + [] == CoarseOnly(front);
      }
    }
  }

  lemma HasOneMore(front: seq<Route>, last: Route, prefix: nat, dest: nat)
    ensures Has(front + [last], prefix, dest) <==>
              Has(front, prefix, dest) || (last.prefix == prefix && last.dest == dest)
  {
    var all := front + [last];
    assert all[|front|] == last;
    assert forall i :: 0 <= i < |front| ==> all[i] == front[i];
  }

  lemma HalvesAreCoarse(r: Route)
    requires (r.prefix == 0 && r.dest == 0) || (r.prefix == 1 && (r.dest == 0 || r.dest == 0x80))
    ensures Coarse(r)
  {
    Halves();
    assert Swap(0x80) == 0x8000_0000 && Swap(0) == 0;
  }

  /**
    * On every table at all: the test holds exactly when the routes with at most
    * one bit of prefix cover every address between them.
    */
  lemma DefaultRouteExactly(routes: seq<Route>)
    ensures HasDefaultRoute(routes) <==> CoversEverything(CoarseOnly(routes))
  {
    hide Coarse;
    ExactOnHalves(CoarseOnly(routes));
    CoarseOnlyKeeps(routes, 0, 0);
    CoarseOnlyKeeps(routes, 1, 0);
    CoarseOnlyKeeps(routes, 1, 0x80);
    hide CoversEverything, CoarseOnly;
    ByHalves(routes);
    ByHalves(CoarseOnly(routes));
  }

  lemma ByHalves(routes: seq<Route>)
    ensures HasDefaultRoute(routes) <==> Has(routes, 0, 0) || (Has(routes, 1, 0) && Has(routes, 1, 0x80))
  {}

  lemma QuarterMatch(r: Route, a: nat, q: nat)
    requires r.prefix == 2 && q < 4 && r.dest == q * 0x40 && a / 0x4000_0000 == q
    ensures Matches(r, a)
  {
    Halves();
    assert Pow2(30) == 0x4000_0000 by { assert Pow2(31) == 2 * Pow2(30); }
    SwapBytes(r.dest, q * 0x40, 0, 0, 0);
    hide Swap, Pow2;
    assert Swap(r.dest) == q * 0x4000_0000;
  }

  /** A full tunnel made of quarters is not recognised. */
  lemma QuartersAreMissed()
    ensures var routes := [Route(0, 2, 0, 0), Route(0x40, 2, 0, 0), Route(0x80, 2, 0, 0), Route(0xC0, 2, 0, 0)];
            CoversEverything(routes) && !HasDefaultRoute(routes)
  {
    var routes := [Route(0, 2, 0, 0), Route(0x40, 2, 0, 0), Route(0x80, 2, 0, 0), Route(0xC0, 2, 0, 0)];
    forall a | 0 <= a < TWO_32 ensures Routed(routes, a) {
      hide Matches;
      var q := a / 0x4000_0000;
      assert q == 0 || q == 1 || q == 2 || q == 3;
      QuarterMatch(routes[q], a, q);
    }
  }

  // ---------- The mask column ----------

  lemma HalfOfSum(m: nat, low: nat)
    ensures (2 * m + low) / 2 == m + low / 2 && (2 * m + low) % 2 == low % 2
  {
  }

  lemma TwiceOut(high: nat, p: nat, q: nat)
    requires p == 2 * q
    ensures high * p == 2 * (high * q)
  {
  }

  lemma PowStep(bits: nat)
    requires bits > 0
    ensures Pow2(bits) == 2 * Pow2(bits - 1)
  {
  }

  lemma {:induction false} OnesSplit(high: nat, low: nat, bits: nat)
    requires low < Pow2(bits)
    ensures CountOnes(high * Pow2(bits) + low) == CountOnes(high) + CountOnes(low)
    decreases bits
  {
    if bits == 0 {
      NoBits(high, low);
    } else {
      hide CountOnes, Pow2;
      PowStep(bits);
      var half := high * Pow2(bits - 1);
      TwiceOut(high, Pow2(bits), Pow2(bits - 1));
      HalfOfSum(half, low);
      OnesSplit(high, low / 2, bits - 1);
      OnesStep(2 * half + low);
      OnesStep(low);
    }
  }

  lemma NoBits(high: nat, low: nat)
    requires low < Pow2(0)
    ensures CountOnes(high * Pow2(0) + low) == CountOnes(high) + CountOnes(low)
  {
    assert Pow2(0) == 1 && low == 0;
  }

  lemma OnesStep(n: nat)
    ensures CountOnes(n) == n % 2 + CountOnes(n / 2)
  {
  }

  lemma PowByte()
    ensures Pow2(8) == 256
  {
    assert Pow2(4) == 16;
  }

  lemma OnesOfBytes(b0: nat, b1: nat, b2: nat, b3: nat)
    requires b0 < 256 && b1 < 256 && b2 < 256 && b3 < 256
    ensures CountOnes(((b3 * 256 + b2) * 256 + b1) * 256 + b0)
         == CountOnes(b0) + CountOnes(b1) + CountOnes(b2) + CountOnes(b3)
  {
    PowByte();
    hide CountOnes, Pow2;
    var x := b3 * 256 + b2;
    var y := x * 256 + b1;
    OnesSplit(b3, b2, 8);
    OnesSplit(x, b1, 8);
    OnesSplit(y, b0, 8);
  }

  /** `n` ones. */
  function Ones(n: nat): nat {
    if n == 0 then 0 else 2 * Ones(n - 1) + 1
  }

  /** The leading `n` bits of a word. */
  function PrefixMask(n: nat): nat
    requires n <= 32
  {
    Ones(n) * Pow2(32 - n)
  }

  lemma {:induction false} OnesCount(n: nat)
    ensures CountOnes(Ones(n)) == n
  {
    if n > 0 {
      OnesCount(n - 1);
      assert Ones(n) % 2 == 1 && Ones(n) / 2 == Ones(n - 1);
    }
  }

  lemma OnesOfPrefix(n: nat)
    requires n <= 32
    ensures CountOnes(PrefixMask(n)) == n
  {
    hide CountOnes, Pow2, Ones;
    OnesCount(n);
    OnesSplit(Ones(n), 0, 32 - n);
    assert CountOnes(0) == 0 by { NoOnes(); }
  }

  lemma NoOnes()
    ensures CountOnes(0) == 0
  {}

  /** Counting the ones of the mask gives the prefix length, although the mask is printed byte-swapped. */
  lemma MaskGivesPrefix(mask: nat, n: nat)
    requires mask < TWO_32 && n <= 32 && Swap(mask) == PrefixMask(n)
    ensures CountOnes(mask) == n
  {
    hide Swap, CountOnes, PrefixMask;
    var b0, b1, b2, b3 := Bytes(mask);
    SwapBytes(mask, b0, b1, b2, b3);
    OnesOfBytes(b0, b1, b2, b3);
    OnesOfBytes(b3, b2, b1, b0);
    OnesOfPrefix(n);
  }

  // ---------- A row as the kernel prints it ----------

  function HexChar(n: nat): char
    requires n < 16
  {
    if n < 10 then ('0' as int + n) as char else ('A' as int + n - 10) as char
  }

  /** The last `width` hexadecimal digits of a number, leading zeros included. */
  function ShowHex(n: nat, width: nat): string {
    if width == 0 then "" else ShowHex(n / 16, width - 1) + [HexChar(n % 16)]
  }

  function Pow16(n: nat): nat { if n == 0 then 1 else 16 * Pow16(n - 1) }

  lemma {:induction false} HexReads(n: nat, width: nat)
    requires n < Pow16(width)
    ensures |ShowHex(n, width)| == width && HexValue(ShowHex(n, width)) == Some(n)
    ensures forall i :: 0 <= i < width ==> IsRouteChar(ShowHex(n, width)[i])
  {
    if width > 0 {
      HexReads(n / 16, width - 1);
      var s := ShowHex(n, width);
      assert s[..|s| - 1] == ShowHex(n / 16, width - 1);
      assert HexDigit(HexChar(n % 16)) == Some(n % 16);
    }
  }

  /** Eight hexadecimal digits hold any word of 32 bits. */
  lemma WordReads(n: nat)
    requires n < TWO_32
    ensures ParseHex32(ShowHex(n, 8)) == Some(n) && |ShowHex(n, 8)| == 8
    ensures forall i :: 0 <= i < 8 ==> !IsWhite(ShowHex(n, 8)[i])
  {
    assert Pow16(8) == TWO_32 by {
      assert Pow16(4) == 65536;
    }
    HexReads(n, 8);
    var s := ShowHex(n, 8);
    forall i | 0 <= i < 8 ensures !IsWhite(s[i]) && s[i] != '+' {
      assert IsRouteChar(s[i]);
    }
  }

  /** The columns of a row, with tabs between them. */
  function Tabbed(cols: seq<string>): string
    decreases |cols|
  {
    if cols == [] then "" else cols[0] + ['\t'] + Tabbed(cols[1..])
  }

  predicate AreColumns(cols: seq<string>) {
    forall i :: 0 <= i < |cols| ==> cols[i] != "" && forall j :: 0 <= j < |cols[i]| ==> !IsWhite(cols[i][j])
  }

  lemma {:induction false} TabbedFields(cols: seq<string>)
    requires AreColumns(cols)
    ensures Fields(Tabbed(cols), false) == cols
    decreases |cols|
  {
    hide IsWhite;
    if cols != [] {
      var w, rest := cols[0], Tabbed(cols[1..]);
      var s := w + ['\t'] + rest;
      assert AreColumns(cols[1..]);
      TabbedFields(cols[1..]);
      TabIsWhite();
      FieldLengthAt(s, false, |w|);
      assert s[..|w|] == w && s[|w|..] == ['\t'] + rest && s[|w|..][1..] == rest;
      assert Fields(s[|w|..], false) == Fields(rest, false);
      assert s[0] == w[0];
    }
  }

  lemma TabIsWhite()
    ensures IsWhite('\t')
  {}

  /**
    * A row of eleven columns for the device: destination, gateway and mask are
    * the second, third and eighth, in hexadecimal, the metric is the seventh, in
    * decimal; whatever the other columns hold, the route comes out with the
    * prefix length of the mask.
    */
  lemma RowReads(cols: seq<string>, dest: nat, hop: nat, metric: nat, mask: nat, n: nat)
    requires |cols| >= 11 && AreColumns(cols)
    requires dest < TWO_32 && hop < TWO_32 && metric < TWO_32
    requires mask < TWO_32 && n <= 32 && Swap(mask) == PrefixMask(n)
    requires cols[1] == ShowHex(dest, 8) && cols[2] == ShowHex(hop, 8)
    requires cols[6] == ShowNat(metric) && cols[7] == ShowHex(mask, 8)
    ensures ParseRow(Tabbed(cols), cols[0]) == Some(Route(dest, n, hop, metric))
    ensures forall other :: other != cols[0] ==> ParseRow(Tabbed(cols), other) == None
  {
    hide ParseHex32, ParseU32, Fields, CountOnes, Swap, PrefixMask, ShowHex, ShowNat, Tabbed;
    TabbedFields(cols);
    WordReads(dest);
    WordReads(hop);
    WordReads(mask);
    ReadsU32(metric);
    MaskGivesPrefix(mask, n);
  }

  /** A row with fewer columns is no route. */
  lemma ShortRowsAreSkipped(cols: seq<string>, device: string)
    requires |cols| < 11 && AreColumns(cols)
    ensures ParseRow(Tabbed(cols), device) == None
  {
    hide Fields, Tabbed;
    TabbedFields(cols);
  }
}
