/**
 * The two emitters against each other: what the connect side hands to openvpn3
 * and what Save-As writes are the same directives in another order, and exactly
 * when.
 */
module Agreement {
  import opened Text
  import opened Numbers
  import opened Names
  import opened Lexer
  import opened Config
  import opened RouteLines
  import opened Export
  import opened Connect
  import opened Dictionary
  import RoundTrip
  import K = Keys

  // ----- The text says what the directives say -----

  lemma {:induction false} ReadOnwards(ds: Directives, rest: string, n: nat) returns (m: nat)
    requires AllProper(ds)
    ensures ParseLines(Lines(Print(ds) + rest), n) == Onto(ds, ParseLines(Lines(rest), m))
    decreases |ds|
  {
    hide Lines, Proper, ParseLines, PrintDirective, RoundTrip.Shaped, RoundTrip.Fragile;
    if ds == [] {
      m := n;
      assert Print(ds) + rest == rest;
      OntoNothing(ParseLines(Lines(rest), n));
    } else {
      ProperIsFirm(ds[0]);
      var k := RoundTrip.ReadDirective(ds[0], Print(ds[1..]) + rest, n);
      AppendAssoc(PrintDirective(ds[0]), Print(ds[1..]), rest);
      m := ReadOnwards(ds[1..], rest, k);
      assert [ds[0]] + ds[1..] == ds;
      if ParseLines(Lines(rest), m).Ok? {
        AppendAssoc([ds[0]], ds[1..], ParseLines(Lines(rest), m).value);
      }
    }
  }

  lemma RawLineReads(line: string, raw: string, rest: string, n: nat)
    requires line == Trim(raw) && line != "" && IsSafeRouteLine(line)
    ensures ParseLines(Lines(line + [LF] + rest), n) == Onto(LineDirective(line), ParseLines(Lines(rest), n + 1))
  {
    hide Trim, IsSafeRouteLine, Tokens, Fields, Lines, IsTag;
    SafeLineTokens(line);
    TrimmedStart(raw);
    SafeLineStart(line);
    SafeLineHasNoBreak(line);
    LinesCons(line, rest);
    var words := Fields(line, true);
    SafeWordsAreOption(line, words);
    var ls := [line] + Lines(rest);
    assert ls[0] == line && ls[1..] == Lines(rest);
    TurnFits(ls, n);
  }

  lemma SafeLineHasNoBreak(line: string)
    requires IsSafeRouteLine(line)
    ensures Without(line, LF) && StripCr(line) == line
  {
  }

  lemma SafeWordsAreOption(line: string, words: seq<string>)
    requires line != "" && line[0] == 'r' && words != [] && words[0] != "" && words[0][0] == 'r'
    ensures TrimStart(line) == line && !IsComment(line[0])
    ensures ClassifyWords(words) == Single(Opt(words[0], words[1..]))
  {
  }

  // ----- One list, two orders -----

  function CommonHead(d: K.NmData): Directives {
    FlagIf(K.TlsLike(d), Quiet(Client)) + RemoteSegment(d) + SwitchSegment(d)
    + FlagIf(K.PasswordLike(d), Trust(AuthUserPass)) + SecretSegment(d)
  }

  function Texts(d: K.NmData): Directives {
    Copied(d, K.Cipher, Plain(Cipher)) + Copied(d, K.DataCiphers, Plain(DataCiphers))
    + Copied(d, K.DataCiphersFallback, Plain(DataCiphersFallback))
    + Copied(d, K.TlsCipher, Plain(TlsCipher)) + Copied(d, K.Auth, Plain(Auth))
    + Copied(d, K.AllowCompression, Plain(AllowCompression)) + Copied(d, K.MtuDisc, Quiet(MtuDisc))
  }

  /** The numeric keys, as the exporter copies them. */
  function AllNumbers(d: K.NmData): Directives {
    Copied(d, K.RenegSeconds, Plain(RenegSec)) + Copied(d, K.MaxRoutes, Quiet(MaxRoutes))
    + Copied(d, K.Keysize, Plain(Keysize)) + Copied(d, K.TunnelMtu, Plain(TunMtu))
    + Copied(d, K.ConnectTimeout, Plain(ConnectTimeout)) + Copied(d, K.FragmentSize, Plain(Fragment))
    + Copied(d, K.Port, Plain(Port)) + Copied(d, K.Ping, Plain(Ping))
    + Copied(d, K.PingExit, Plain(PingExit)) + Copied(d, K.PingRestart, Plain(PingRestart))
  }

  /** The numeric keys that hold a number. */
  function GoodNumbers(d: K.NmData): Directives {
    CopiedNumber(d, K.RenegSeconds, Plain(RenegSec)) + CopiedNumber(d, K.MaxRoutes, Quiet(MaxRoutes))
    + CopiedNumber(d, K.Keysize, Plain(Keysize)) + CopiedNumber(d, K.TunnelMtu, Plain(TunMtu))
    + CopiedNumber(d, K.ConnectTimeout, Plain(ConnectTimeout)) + CopiedNumber(d, K.FragmentSize, Plain(Fragment))
    + CopiedNumber(d, K.Port, Plain(Port)) + CopiedNumber(d, K.Ping, Plain(Ping))
    + CopiedNumber(d, K.PingExit, Plain(PingExit)) + CopiedNumber(d, K.PingRestart, Plain(PingRestart))
  }

  /** Everything on which the two emitters cannot differ. */
  function Common(d: K.NmData): Directives {
    CommonHead(d) + Texts(d) + CompressionSegment(d) + FlagIf(K.IsYes(d, K.Float), Flag(Float)) + AddressSegment(d)
    + RouteSegment(d) + CrlIfTls(d) + ConnectTls(d) + DevSegment(d) + ProtoSegment(d) + ProxySegment(d)
    + TailSegment()
  }

  lemma ConnectHeadShuffle(d: K.NmData)
    ensures multiset(ConnectHead(d)) == multiset(CommonHead(d)) + multiset(ConnectPki(d))
  {
    hide FlagIf, RemoteSegment, SwitchSegment, SecretSegment, ConnectPki;
  }

  lemma ExportHeadShuffle(d: K.NmData)
    ensures multiset(ExportHead(d)) == multiset(CommonHead(d)) + multiset(ExportPki(d))
  {
    hide FlagIf, RemoteSegment, SwitchSegment, SecretSegment, ExportPki;
  }

  lemma ConnectMiddleShuffle(d: K.NmData)
    ensures multiset(ConnectCrypto(d) + ConnectLink(d))
         == multiset(Texts(d)) + multiset(GoodNumbers(d)) + multiset(ConnectMssfix(d)) + multiset(CompressionSegment(d))
            + multiset(FlagIf(K.IsYes(d, K.Float), Flag(Float))) + multiset(AddressSegment(d)) + multiset(CrlIfTls(d))
            + multiset(DevSegment(d)) + multiset(ProtoSegment(d))
  {
    hide FlagIf, Copied, CopiedNumber, ConnectMssfix, CompressionSegment, AddressSegment, CrlIfTls, DevSegment,
         ProtoSegment;
  }

  function Got(d: K.NmData, p: Pair): multiset<Directive> {
    multiset(Copied(d, p.key, p.kw))
  }

  lemma CopiedCons(d: K.NmData, p: Pair, rest: seq<Pair>)
    ensures multiset(CopiedAll(d, [p] + rest)) == Got(d, p) + multiset(CopiedAll(d, rest))
  {
    hide Copied;
    assert ([p] + rest)[1..] == rest;
  }

  lemma CopiedFive(d: K.NmData, p: Pair, q: Pair, r: Pair, s: Pair, t: Pair, rest: seq<Pair>)
    ensures multiset(CopiedAll(d, [p, q, r, s, t] + rest))
         == Got(d, p) + Got(d, q) + Got(d, r) + Got(d, s) + Got(d, t) + multiset(CopiedAll(d, rest))
  {
    hide CopiedAll, Got;
    CopiedCons(d, t, rest);
    CopiedCons(d, s, [t] + rest);
    CopiedCons(d, r, [s] + ([t] + rest));
    CopiedCons(d, q, [r] + ([s] + ([t] + rest)));
    CopiedCons(d, p, [q] + ([r] + ([s] + ([t] + rest))));
    assert [p] + ([q] + ([r] + ([s] + ([t] + rest)))) == [p, q, r, s, t] + rest;
  }

  lemma CopiedSeventeen(d: K.NmData, t: seq<Pair>)
    requires |t| == 17
    ensures multiset(CopiedAll(d, t))
         == Got(d, t[0]) + Got(d, t[1]) + Got(d, t[2]) + Got(d, t[3]) + Got(d, t[4]) + Got(d, t[5]) + Got(d, t[6])
            + Got(d, t[7]) + Got(d, t[8]) + Got(d, t[9]) + Got(d, t[10]) + Got(d, t[11]) + Got(d, t[12]) + Got(d, t[13])
            + Got(d, t[14]) + Got(d, t[15]) + Got(d, t[16])
  {
    hide CopiedAll, Got;
    CopiedFive(d, t[0], t[1], t[2], t[3], t[4], t[5..]);
    assert t == [t[0], t[1], t[2], t[3], t[4]] + t[5..];
    CopiedFive(d, t[5], t[6], t[7], t[8], t[9], t[10..]);
    assert t[5..] == [t[5], t[6], t[7], t[8], t[9]] + t[10..];
    CopiedFive(d, t[10], t[11], t[12], t[13], t[14], t[15..]);
    assert t[10..] == [t[10], t[11], t[12], t[13], t[14]] + t[15..];
    CopiedCons(d, t[15], t[16..]);
    assert t[15..] == [t[15]] + t[16..];
    CopiedCons(d, t[16], []);
    assert t[16..] == [t[16]] + [];
    CopiedNone(d);
  }

  lemma ExportPairsShuffle(d: K.NmData)
    ensures multiset(CopiedAll(d, EXPORT_PAIRS)) == multiset(Texts(d)) + multiset(AllNumbers(d))
  {
    hide Copied, CopiedAll;
    CopiedSeventeen(d, EXPORT_PAIRS);
  }

  lemma CopiedNone(d: K.NmData)
    ensures CopiedAll(d, []) == []
  {
  }

  lemma TlsPairsShuffle(d: K.NmData)
    ensures multiset(CopiedAll(d, TLS_PAIRS))
         == multiset(Copied(d, K.RemoteCertTls, Plain(RemoteCertTls)))
            + multiset(Copied(d, K.NsCertType, Plain(NsCertType)))
            + multiset(Copied(d, K.TlsRemote, Plain(TlsRemote)))
            + multiset(Copied(d, K.TlsVersionMax, Plain(TlsVersionMax)))
            + multiset(Copied(d, K.ExtraCerts, Plain(ExtraCerts)))
  {
    hide Copied, CopiedAll;
    var t := TLS_PAIRS;
    CopiedFive(d, t[0], t[1], t[2], t[3], t[4], []);
    assert t == [t[0], t[1], t[2], t[3], t[4]] + [];
    CopiedNone(d);
  }

  lemma TlsShuffle(d: K.NmData)
    ensures multiset(TlsSegment(d)) == multiset(ConnectTls(d)) + multiset(CrlIfTls(d))
  {
    hide Copied, X509Segment, TlsAuthSegment, TlsMinSegment, CrlSegment, CopiedAll;
    TlsPairsShuffle(d);
  }

  lemma ConnectShuffle(d: K.NmData)
    ensures multiset(ConnectDirectives(d))
         == multiset(Common(d)) + multiset(ConnectPki(d)) + multiset(GoodNumbers(d)) + multiset(ConnectMssfix(d))
  {
    hide CommonHead, ConnectHead, ConnectCrypto, ConnectLink, Texts, GoodNumbers, ConnectPki, ConnectMssfix, FlagIf,
         CompressionSegment, AddressSegment, RouteSegment, CrlIfTls, ConnectTls, DevSegment, ProtoSegment, ProxySegment,
         TailSegment;
    ConnectHeadShuffle(d);
    ConnectMiddleShuffle(d);
    AppendAssoc(ConnectHead(d), ConnectCrypto(d), ConnectLink(d));
  }

  lemma ExportShuffle(d: K.NmData)
    ensures multiset(FromNmData(d))
         == multiset(Common(d)) + multiset(ExportPki(d)) + multiset(AllNumbers(d)) + multiset(ExportMssfix(d))
  {
    hide CommonHead, ExportHead, Texts, AllNumbers, ExportPki, ExportMssfix, FlagIf, CopiedAll, TlsSegment,
         CompressionSegment, AddressSegment, RouteSegment, CrlIfTls, ConnectTls, DevSegment, ProtoSegment, ProxySegment,
         TailSegment;
    ExportHeadShuffle(d);
    ExportPairsShuffle(d);
    TlsShuffle(d);
  }

  // ----- Exactly when they agree -----

  predicate Parses(d: K.NmData, k: K.NmKey) {
    K.HasValue(d, k) ==> ParseI64(d[k]).Some?
  }

  /** Every numeric key that is set holds a number. */
  predicate NumbersParse(d: K.NmData) {
    && Parses(d, K.RenegSeconds) && Parses(d, K.MaxRoutes) && Parses(d, K.Keysize) && Parses(d, K.TunnelMtu)
    && Parses(d, K.ConnectTimeout) && Parses(d, K.FragmentSize) && Parses(d, K.Port) && Parses(d, K.Ping)
    && Parses(d, K.PingExit) && Parses(d, K.PingRestart)
  }

  /** A shared bundle for cert and key is the ca as well. */
  predicate BundleIsWhole(d: K.NmData) {
    CollapsesOnConnect(d) ==> CaOf(d) == CertOf(d)
  }

  /** The clamp is unset, a flag, or a number written as it would be printed. */
  predicate MssfixIsCanonical(d: K.NmData) {
    K.HasValue(d, K.Mssfix) ==>
      K.IsYes(d, K.Mssfix) || (ParseI64(d[K.Mssfix]).Some? && Canonical(d[K.Mssfix]))
  }

  predicate EmittersAgree(d: K.NmData) {
    NumbersParse(d) && BundleIsWhole(d) && MssfixIsCanonical(d)
  }

  lemma OneNumber(d: K.NmData, k: K.NmKey, kw: Kw)
    ensures |CopiedNumber(d, k, kw)| <= |Copied(d, k, kw)|
    ensures Parses(d, k) ==> CopiedNumber(d, k, kw) == Copied(d, k, kw)
    ensures !Parses(d, k) ==> |CopiedNumber(d, k, kw)| < |Copied(d, k, kw)|
  {
    hide ParseI64, Spell;
  }

  lemma NumbersAgree(d: K.NmData)
    ensures |GoodNumbers(d)| <= |AllNumbers(d)|
    ensures NumbersParse(d) ==> GoodNumbers(d) == AllNumbers(d)
    ensures !NumbersParse(d) ==> |GoodNumbers(d)| < |AllNumbers(d)|
  {
    hide Parses, Copied, CopiedNumber;
    OneNumber(d, K.RenegSeconds, Plain(RenegSec));
    OneNumber(d, K.MaxRoutes, Quiet(MaxRoutes));
    OneNumber(d, K.Keysize, Plain(Keysize));
    OneNumber(d, K.TunnelMtu, Plain(TunMtu));
    OneNumber(d, K.ConnectTimeout, Plain(ConnectTimeout));
    OneNumber(d, K.FragmentSize, Plain(Fragment));
    OneNumber(d, K.Port, Plain(Port));
    OneNumber(d, K.Ping, Plain(Ping));
    OneNumber(d, K.PingExit, Plain(PingExit));
    OneNumber(d, K.PingRestart, Plain(PingRestart));
  }

  lemma PkiAgrees(d: K.NmData)
    ensures |ConnectPki(d)| <= |ExportPki(d)|
    ensures BundleIsWhole(d) ==> ConnectPki(d) == ExportPki(d)
    ensures !BundleIsWhole(d) ==> |ConnectPki(d)| < |ExportPki(d)|
  {
    hide IsPkcs12Path, Spell, CaOf, CertOf, KeyOf;
  }

  lemma MssfixAgrees(d: K.NmData)
    ensures |ConnectMssfix(d)| <= |ExportMssfix(d)| <= 1
    ensures ConnectMssfix(d) == ExportMssfix(d) <==> MssfixIsCanonical(d)
  {
    hide Spell, ParseI64, ShowInt, Canonical;
    YesIsNoNumber();
    if K.HasValue(d, K.Mssfix) && ParseI64(d[K.Mssfix]).Some? {
      PrintsBack(d[K.Mssfix]);
    }
  }

  lemma YesIsNoNumber()
    ensures !Canonical(K.YES) && ParseI64(K.YES).None?
  {
  }

  lemma ShortBags(a: Directives, b: Directives)
    requires |a| <= 1 && |b| <= 1 && multiset(a) == multiset(b)
    ensures a == b
  {
    assert |multiset(a)| == |a| && |multiset(b)| == |b|;
    if a != [] {
      assert a[0] in multiset(a);
      assert b == [b[0]];
    }
  }

  /**
   * The connect side and the export side give the same directives, up to order,
   * exactly when the numeric keys hold numbers, a bundle shared by cert and key is
   * the ca too, and the clamp is canonical.
   */
  lemma SameDirectives(d: K.NmData)
    ensures multiset(ConnectDirectives(d)) == multiset(FromNmData(d)) <==> EmittersAgree(d)
  {
    hide ConnectDirectives, FromNmData, Common, ConnectPki, ExportPki, GoodNumbers, AllNumbers, ConnectMssfix,
         ExportMssfix, NumbersParse, BundleIsWhole, MssfixIsCanonical;
    ConnectShuffle(d);
    ExportShuffle(d);
    NumbersAgree(d);
    PkiAgrees(d);
    MssfixAgrees(d);
    if multiset(ConnectDirectives(d)) == multiset(FromNmData(d)) {
      SameSizes(multiset(Common(d)), ConnectPki(d), GoodNumbers(d), ConnectMssfix(d),
                ExportPki(d), AllNumbers(d), ExportMssfix(d));
      ShortBags(ConnectMssfix(d), ExportMssfix(d));
    }
  }

  lemma SameSizes(c: multiset<Directive>, p: Directives, n: Directives, m: Directives,
                  p': Directives, n': Directives, m': Directives)
    requires c + multiset(p) + multiset(n) + multiset(m) == c + multiset(p') + multiset(n') + multiset(m')
    requires |p| <= |p'| && |n| <= |n'| && |m| <= |m'|
    ensures |p| == |p'| && |n| == |n'| && |m| == |m'|
    ensures p == p' && n == n' ==> multiset(m) == multiset(m')
  {
    var left := c + multiset(p) + multiset(n) + multiset(m);
    var right := c + multiset(p') + multiset(n') + multiset(m');
    assert |left| == |c| + |p| + |n| + |m|;
    assert |right| == |c| + |p'| + |n'| + |m'|;
    if p == p' && n == n' {
      var same := c + multiset(p) + multiset(n);
      assert multiset(m) == left - same && multiset(m') == right - same;
    }
  }

  // ----- From the text -----

  lemma ConnectIsProper(d: K.NmData)
    ensures AllProper(ConnectDirectives(d))
  {
    hide ConnectDirectives, FromNmData, Common, ConnectPki, GoodNumbers, ConnectMssfix, Proper, ExportPki, AllNumbers,
         ExportMssfix;
    ConnectShuffle(d);
    ExportShuffle(d);
    ExportIsProper(d);
    ProperBag(FromNmData(d));
    ProperBag(Common(d));
    ProperBag(ConnectDirectives(d));
    PkiStaysProper(d);
    GoodNumbersAreProper(d);
    MssfixIsOne(d);
    AtMostIsProper(ConnectMssfix(d), Carrier(Mssfix));
    ProperBag(ConnectPki(d));
    ProperBag(GoodNumbers(d));
    ProperBag(ConnectMssfix(d));
  }

  /** Being proper does not depend on the order. */
  lemma ProperBag(ds: Directives)
    ensures AllProper(ds) <==> forall x :: x in multiset(ds) ==> Proper(x)
  {
    hide Proper;
    assert forall i :: 0 <= i < |ds| ==> ds[i] in multiset(ds);
  }

  lemma MssfixIsOne(d: K.NmData)
    ensures AtMost(ConnectMssfix(d), Carrier(Mssfix))
  {
    hide Spell, ParseI64, ShowInt;
  }

  lemma PkiStaysProper(d: K.NmData)
    ensures AllProper(ConnectPki(d))
  {
    hide Proper, Spell, OptionalFile, IsPkcs12Path;
    if CollapsesOnConnect(d) {
      SpelledIsProper(Trust(Pkcs12), [CertOf(d).value]);
    }
    FileIsProper(CaOf(d), Trust(Ca));
    FileIsProper(CertOf(d), Trust(Cert));
    FileIsProper(KeyOf(d), Trust(Key));
  }

  lemma NumberIsProper(d: K.NmData, k: K.NmKey, kw: Kw)
    requires kw != Trust(KeyDirection)
    ensures AllProper(CopiedNumber(d, k, kw))
  {
    hide Proper, Spell, Copied, ParseI64;
    CopiedIsProper(d, k, kw);
  }

  lemma GoodNumbersAreProper(d: K.NmData)
    ensures AllProper(GoodNumbers(d))
  {
    hide Proper, Spell, CopiedNumber;
    NumberIsProper(d, K.RenegSeconds, Plain(RenegSec));
    NumberIsProper(d, K.MaxRoutes, Quiet(MaxRoutes));
    NumberIsProper(d, K.Keysize, Plain(Keysize));
    NumberIsProper(d, K.TunnelMtu, Plain(TunMtu));
    NumberIsProper(d, K.ConnectTimeout, Plain(ConnectTimeout));
    NumberIsProper(d, K.FragmentSize, Plain(Fragment));
    NumberIsProper(d, K.Port, Plain(Port));
    NumberIsProper(d, K.Ping, Plain(Ping));
    NumberIsProper(d, K.PingExit, Plain(PingExit));
    NumberIsProper(d, K.PingRestart, Plain(PingRestart));
  }

  lemma {:induction false} ReadRaw(ls: seq<string>, rest: string, n: nat) returns (m: nat)
    ensures ParseLines(Lines(RawText(SafeLines(ls)) + rest), n)
         == Onto(LineDirectives(SafeLines(ls)), ParseLines(Lines(rest), m))
    decreases |ls|
  {
    hide Trim, IsSafeRouteLine, LineDirective, Lines, ParseLines;
    m := n;
    if ls == [] {
      assert RawText(SafeLines(ls)) + rest == rest;
      OntoNothing(ParseLines(Lines(rest), n));
    } else {
      var line := Trim(ls[0]);
      if line != "" && IsSafeRouteLine(line) {
        var more := SafeLines(ls[1..]);
        assert ([line] + more)[1..] == more;
        RawLineReads(line, ls[0], RawText(more) + rest, n);
        AppendAssoc(line + [LF], RawText(more), rest);
        m := ReadRaw(ls[1..], rest, n + 1);
        if ParseLines(Lines(rest), m).Ok? {
          AppendAssoc(LineDirective(line), LineDirectives(more), ParseLines(Lines(rest), m).value);
        }
      } else {
        m := ReadRaw(ls[1..], rest, n);
      }
    }
  }

  lemma RawRoutesRead(d: K.NmData, rest: string, n: nat) returns (m: nat)
    ensures ParseLines(Lines(RawText(RouteLinesOf(d)) + rest), n)
         == Onto(RouteSegment(d), ParseLines(Lines(rest), m))
  {
    hide Lines, ParseLines, SafeLines, RawText, LineDirectives;
    if K.HasValue(d, K.ExtraRoutes) {
      m := ReadRaw(Lines(d[K.ExtraRoutes]), rest, n);
    } else {
      m := ReadRaw([], rest, n);
      NoSafeLines();
    }
  }

  lemma NoSafeLines()
    ensures SafeLines([]) == []
  {
  }

  lemma TopComesFirst(d: K.NmData, rest: string)
    ensures StripBom(Print(ConnectTop(d)) + rest) == Print(ConnectTop(d)) + rest
  {
    hide PrintDirective;
    var top := ConnectTop(d);
    TopIsSomething(d);
    RoundTrip.FirstCharacter(top[0]);
    assert (Print(top) + rest)[0] == PrintDirective(top[0])[0];
  }

  lemma TopIsSomething(d: K.NmData)
    ensures ConnectTop(d) != []
  {
    hide ConnectHead, ConnectCrypto, Copied, CopiedNumber, CrlIfTls, ProtoSegment, AddressSegment, Spell, ChosenDev;
    assert |DevSegment(d)| >= 1;
  }

  /** Lexing the profile text gives back the directives it was built from, whatever the dictionary holds. */
  lemma TextSaysDirectives(d: K.NmData)
    ensures ReadText(ConnectText(d)) == Ok(ConnectDirectives(d))
  {
    hide ConnectTop, ConnectBottom, RouteSegment, RouteLinesOf, Proper, Print, Lines, ParseLines, RawText, StripBom;
    var top, bottom := ConnectTop(d), ConnectBottom(d);
    var raw := RawText(RouteLinesOf(d));
    ConnectIsProper(d);
    ProperParts(top, RouteSegment(d), bottom);
    AppendAssoc(Print(top), raw, Print(bottom));
    TopComesFirst(d, raw + Print(bottom));
    var m := ReadOnwards(top, raw + Print(bottom), 1);
    var k := RawRoutesRead(d, Print(bottom), m);
    assert Print(bottom) + "" == Print(bottom);
    var l := ReadOnwards(bottom, "", k);
    assert ParseLines(Lines(""), l) == Ok([]) by { NothingReads(l); }
    assert bottom + [] == bottom;
    AppendAssoc(top, RouteSegment(d), bottom);
  }

  lemma NothingReads(n: nat)
    ensures ParseLines(Lines(""), n) == Ok([])
  {
  }

  lemma ProperParts(a: Directives, b: Directives, c: Directives)
    requires AllProper(a + b + c)
    ensures AllProper(a) && AllProper(c)
  {
    hide Proper;
    assert forall i :: 0 <= i < |a| ==> a[i] == (a + b + c)[i];
    assert forall i :: 0 <= i < |c| ==> c[i] == (a + b + c)[|a| + |b| + i];
  }

  /** What the validator says does not depend on the order. */
  lemma SameVerdict(a: Directives, b: Directives)
    requires multiset(a) == multiset(b)
    ensures AllValid(a) <==> AllValid(b)
  {
    hide Valid;
    assert forall i :: 0 <= i < |a| ==> a[i] in multiset(a);
    assert forall i :: 0 <= i < |b| ==> b[i] in multiset(b);
  }

  /** Where the emitters agree, the validator takes both texts or neither. */
  lemma BothOrNeither(d: K.NmData)
    requires EmittersAgree(d)
    ensures ReadText(ConnectText(d)).Ok?
    ensures multiset(ReadText(ConnectText(d)).value) == multiset(FromNmData(d))
    ensures ParseText(ConnectText(d)).Ok? <==> ParseText(Print(FromNmData(d))).Ok?
  {
    hide ConnectDirectives, FromNmData, EmittersAgree, ConnectText, Print, ReadText, ParseText, AllValid;
    TextSaysDirectives(d);
    SameDirectives(d);
    AcceptedText(ConnectText(d));
    SameVerdict(ConnectDirectives(d), FromNmData(d));
    ExportIsRead(d);
    AcceptedText(Print(FromNmData(d)));
  }

  /** The exported text lexes to the exported directives even where the validator then refuses them. */
  lemma ExportIsRead(d: K.NmData)
    ensures ReadText(Print(FromNmData(d))) == Ok(FromNmData(d))
  {
    hide FromNmData, Proper, Print, Lines, ParseLines, StripBom, RoundTrip.Shaped, RoundTrip.Fragile;
    var ds := FromNmData(d);
    ExportIsProper(d);
    RoundTrip.PrintHasNoBom(ds);
    assert Print(ds) + "" == Print(ds);
    var m := ReadOnwards(ds, "", 1);
    assert ParseLines(Lines(""), m) == Ok([]) by { NothingReads(m); }
    assert ds + [] == ds;
  }
}
