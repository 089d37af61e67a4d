/**
 * From vpn.data to directives, on the user's side: the order of `from_nm_data`.
 * Each segment is the directives that a few keys give; the segments that the
 * connect path writes as well are used by `Connect`.
 */
module Export {
  import opened Text
  import opened Names
  import opened Lexer
  import opened Config
  import opened Remotes
  import opened RouteLines
  import K = Keys

  function Flagged(kw: Kw): Directive {
    Opt(Spell(kw), [])
  }

  function Valued(kw: Kw, v: string): Directive {
    Opt(Spell(kw), [v])
  }

  /** A directive without arguments, when `on`. */
  function FlagIf(on: bool, kw: Kw): Directives {
    if on then [Flagged(kw)] else []
  }

  /** A directive with the value of one key, when the key is set. */
  function Copied(d: K.NmData, k: K.NmKey, kw: Kw): Directives {
    match K.Get(d, k)
    case Some(v) => [Valued(kw, v)]
    case None => []
  }

  datatype Pair = Pair(key: K.NmKey, kw: Kw)

  function CopiedAll(d: K.NmData, table: seq<Pair>): Directives
    decreases |table|
  {
    if table == [] then [] else Copied(d, table[0].key, table[0].kw) + CopiedAll(d, table[1..])
  }

  // ----- Segments both emitters share -----

  function RemoteDirective(r: Remotes.Remote): Directive {
    Opt(Spell(Carrier(CarrierKw.Remote)), RemoteArgs(r))
  }

  function RemoteDirectives(rs: seq<Remotes.Remote>): Directives
    decreases |rs|
  {
    if rs == [] then [] else [RemoteDirective(rs[0])] + RemoteDirectives(rs[1..])
  }

  function RemoteSegment(d: K.NmData): Directives {
    match K.Get(d, K.Remote)
    case Some(v) => RemoteDirectives(Decode(v))
    case None => []
  }

  function SwitchSegment(d: K.NmData): Directives {
    FlagIf(K.IsYes(d, K.RemoteRandom), Flag(RemoteRandom))
    + FlagIf(K.IsYes(d, K.RemoteRandomHostname), Flag(RemoteRandomHostname))
    + FlagIf(K.IsYes(d, K.AllowPullFqdn), Flag(AllowPullFqdn))
    + FlagIf(K.IsYes(d, K.TunIpv6), Flag(TunIpv6))
    + FlagIf(K.IsYes(d, K.PushPeerInfo), Flag(PushPeerInfo))
  }

  function SecretSegment(d: K.NmData): Directives {
    if !K.StaticKeyMode(d) || !K.HasValue(d, K.StaticKey) then []
    else
      [Opt(Spell(Trust(Secret)),
           [d[K.StaticKey]] + (if K.HasValue(d, K.StaticKeyDirection) then [d[K.StaticKeyDirection]] else []))]
  }

  function LzoWord(v: string): string {
    if v == "no-by-default" then "no" else v
  }

  function CompressionSegment(d: K.NmData): Directives {
    if K.Get(d, K.AllowCompression) == Some("no") then []
    else
      (if K.HasValue(d, K.CompLzo) then [Valued(Carrier(CompLzo), LzoWord(d[K.CompLzo]))] else [])
      + (if !K.HasValue(d, K.Compress) then []
         else if d[K.Compress] == K.YES then [Flagged(Carrier(Compress))]
         else [Valued(Carrier(Compress), d[K.Compress])])
  }

  function AddressSegment(d: K.NmData): Directives {
    if K.HasValue(d, K.LocalIp) && K.HasValue(d, K.RemoteIp) then
      [Opt(Spell(Carrier(Ifconfig)), [d[K.LocalIp], d[K.RemoteIp]])]
    else []
  }

  function X509Args(v: string): seq<string> {
    var i := Find(v, ':');
    if i < |v| && v[..i] in {"subject", "name", "name-prefix"} then [v[i + 1..], v[..i]] else [v]
  }

  function X509Segment(d: K.NmData): Directives {
    match K.Get(d, K.VerifyX509Name)
    case Some(v) => [Opt(Spell(Trust(VerifyX509Name)), X509Args(v))]
    case None => []
  }

  function TlsAuthSegment(d: K.NmData): Directives {
    if !K.HasValue(d, K.Ta) then []
    else [Opt(Spell(Trust(TlsAuth)), [d[K.Ta]] + (if K.HasValue(d, K.TaDir) then [d[K.TaDir]] else []))]
  }

  function TlsMinSegment(d: K.NmData): Directives {
    if !K.HasValue(d, K.TlsVersionMin) then []
    else
      [Opt(Spell(Trust(TlsVersionMin)),
           [d[K.TlsVersionMin]] + (if K.IsYes(d, K.TlsVersionMinOrHighest) then ["or-highest"] else []))]
  }

  function CrlSegment(d: K.NmData): Directives {
    if K.HasValue(d, K.CrlVerifyFile) then [Valued(Trust(CrlVerify), d[K.CrlVerifyFile])]
    else if K.HasValue(d, K.CrlVerifyDir) then [Opt(Spell(Trust(CrlVerify)), [d[K.CrlVerifyDir], "dir"])]
    else []
  }

  function ChosenDev(d: K.NmData): string {
    if K.HasValue(d, K.Dev) then d[K.Dev]
    else if K.HasValue(d, K.DevType) then d[K.DevType]
    else if K.IsYes(d, K.TapDev) then "tap" else "tun"
  }

  function DevSegment(d: K.NmData): Directives {
    [Valued(Plain(Dev), ChosenDev(d))] + Copied(d, K.DevType, Plain(DevType))
  }

  function ProtoSegment(d: K.NmData): Directives {
    [Valued(Carrier(Proto), if K.IsYes(d, K.ProtoTcp) then "tcp" else "udp")]
  }

  function ValueOr(d: K.NmData, k: K.NmKey, default: string): string {
    if K.HasValue(d, k) then d[k] else default
  }

  function ProxySegment(d: K.NmData): Directives {
    if !K.HasValue(d, K.ProxyType) || !K.HasValue(d, K.ProxyServer) then []
    else if d[K.ProxyType] == "http" then
      [Opt(Spell(Carrier(HttpProxy)), [d[K.ProxyServer], ValueOr(d, K.ProxyPort, "8080")])]
      + FlagIf(K.IsYes(d, K.ProxyRetry), Quiet(HttpProxyRetry))
    else if d[K.ProxyType] == "socks" then
      [Opt(Spell(Carrier(SocksProxy)), [d[K.ProxyServer], ValueOr(d, K.ProxyPort, "1080")])]
      + FlagIf(K.IsYes(d, K.ProxyRetry), Quiet(SocksProxyRetry))
    else []
  }

  function TailSegment(): Directives {
    [Flagged(Quiet(Nobind)), Flagged(Quiet(AuthNocache)), Valued(Quiet(ScriptSecurity), "2"),
     Flagged(Quiet(PersistKey)), Flagged(Quiet(PersistTun)),
     Valued(Quiet(User), "nm-openvpn3"), Valued(Quiet(Group), "nm-openvpn3")]
  }

  // ----- Preserved routes -----

  /** The trimmed lines of the extra-routes value that the allow-list lets through. */
  function SafeLines(ls: seq<string>): seq<string>
    decreases |ls|
  {
    if ls == [] then []
    else
      var line := Trim(ls[0]);
      if line != "" && IsSafeRouteLine(line) then [line] + SafeLines(ls[1..]) else SafeLines(ls[1..])
  }

  function RouteLinesOf(d: K.NmData): seq<string> {
    match K.Get(d, K.ExtraRoutes)
    case Some(v) => SafeLines(Lines(v))
    case None => []
  }

  /** A tokenised line as a directive; a line that does not tokenise is skipped. */
  function LineDirective(line: string): Directives {
    match Tokens(line)
    case Ok(words) => if words == [] then [] else [Opt(words[0], words[1..])]
    case Err(_) => []
  }

  function LineDirectives(ls: seq<string>): Directives
    decreases |ls|
  {
    if ls == [] then [] else LineDirective(ls[0]) + LineDirectives(ls[1..])
  }

  function RouteSegment(d: K.NmData): Directives {
    LineDirectives(RouteLinesOf(d))
  }

  // ----- Segments of the export side -----

  predicate IsPkcs12Path(path: string) {
    EndsWith(AsciiLower(path), ".p12") || EndsWith(AsciiLower(path), ".pfx")
  }

  function AsciiLower(s: string): string {
    seq(|s|, i requires 0 <= i < |s| => if 'A' <= s[i] <= 'Z' then (s[i] as int + 32) as char else s[i])
  }

  function CertOf(d: K.NmData): Option<string> {
    if K.NeedsUserCert(d) then K.Get(d, K.Cert) else None
  }

  function KeyOf(d: K.NmData): Option<string> {
    if K.NeedsUserCert(d) then K.Get(d, K.Key) else None
  }

  function CaOf(d: K.NmData): Option<string> {
    if K.TlsLike(d) then K.Get(d, K.Ca) else None
  }

  /** One bundle carries all three: the export side asks for ca, cert and key to be the same path. */
  predicate CollapsesOnExport(d: K.NmData) {
    CaOf(d).Some? && CaOf(d) == CertOf(d) == KeyOf(d) && IsPkcs12Path(CertOf(d).value)
  }

  function OptionalFile(v: Option<string>, kw: Kw): Directives {
    match v
    case Some(path) => [Valued(kw, path)]
    case None => []
  }

  function SplitFiles(d: K.NmData): Directives {
    OptionalFile(CaOf(d), Trust(Ca)) + OptionalFile(CertOf(d), Trust(Cert)) + OptionalFile(KeyOf(d), Trust(Key))
  }

  function ExportPki(d: K.NmData): Directives {
    if CollapsesOnExport(d) then [Valued(Trust(Pkcs12), CertOf(d).value)] else SplitFiles(d)
  }

  function ExportMssfix(d: K.NmData): Directives {
    match K.Get(d, K.Mssfix)
    case Some(v) => if v == K.YES then [Flagged(Carrier(Mssfix))] else [Valued(Carrier(Mssfix), v)]
    case None => []
  }

  /** The unconditional one-to-one pairs, in the exporter's order. */
  const EXPORT_PAIRS: seq<Pair> := [
    Pair(K.RenegSeconds, Plain(RenegSec)),
    Pair(K.MaxRoutes, Quiet(MaxRoutes)),
    Pair(K.Cipher, Plain(Cipher)),
    Pair(K.DataCiphers, Plain(DataCiphers)),
    Pair(K.DataCiphersFallback, Plain(DataCiphersFallback)),
    Pair(K.TlsCipher, Plain(TlsCipher)),
    Pair(K.Keysize, Plain(Keysize)),
    Pair(K.AllowCompression, Plain(AllowCompression)),
    Pair(K.Auth, Plain(Auth)),
    Pair(K.MtuDisc, Quiet(MtuDisc)),
    Pair(K.TunnelMtu, Plain(TunMtu)),
    Pair(K.ConnectTimeout, Plain(ConnectTimeout)),
    Pair(K.FragmentSize, Plain(Fragment)),
    Pair(K.Port, Plain(Port)),
    Pair(K.Ping, Plain(Ping)),
    Pair(K.PingExit, Plain(PingExit)),
    Pair(K.PingRestart, Plain(PingRestart))]

  /** The TLS-only one-to-one pairs. */
  const TLS_PAIRS: seq<Pair> := [
    Pair(K.RemoteCertTls, Plain(RemoteCertTls)),
    Pair(K.NsCertType, Plain(NsCertType)),
    Pair(K.TlsRemote, Plain(TlsRemote)),
    Pair(K.TlsVersionMax, Plain(TlsVersionMax)),
    Pair(K.ExtraCerts, Plain(ExtraCerts))]

  function TlsSegment(d: K.NmData): Directives {
    if !K.TlsLike(d) then []
    else
      X509Segment(d) + TlsAuthSegment(d)
      + Copied(d, K.TlsCrypt, Plain(TlsCrypt)) + Copied(d, K.TlsCryptV2, Plain(TlsCryptV2))
      + TlsMinSegment(d) + CopiedAll(d, TLS_PAIRS) + CrlSegment(d)
  }

  // The export order, in four stretches.

  function ExportHead(d: K.NmData): Directives {
    FlagIf(K.TlsLike(d), Quiet(Client)) + RemoteSegment(d) + SwitchSegment(d) + ExportPki(d)
    + FlagIf(K.PasswordLike(d), Trust(AuthUserPass)) + SecretSegment(d)
  }

  function ExportLink(d: K.NmData): Directives {
    CopiedAll(d, EXPORT_PAIRS) + CompressionSegment(d) + FlagIf(K.IsYes(d, K.Float), Flag(Float))
    + ExportMssfix(d) + AddressSegment(d) + RouteSegment(d)
  }

  function ExportEnd(d: K.NmData): Directives {
    DevSegment(d) + ProtoSegment(d) + ProxySegment(d) + TailSegment()
  }

  function FromNmData(d: K.NmData): Directives {
    ExportHead(d) + ExportLink(d) + TlsSegment(d) + ExportEnd(d)
  }

  // ----- The loops of `from_nm_data` -----

  method PushRemotes(start: Directives, value: string) returns (ds: Directives)
    ensures ds == start + RemoteDirectives(Decode(value))
  {
    hide SplitRemote, RemoteDirective, Trim;
    ds := start;
    var pieces := Pieces(value);
    assert pieces[0..] == pieces;
    for i := 0 to |pieces|
      invariant start + RemoteDirectives(Decode(value)) == ds + RemoteDirectives(Entries(pieces[i..]))
    {
      assert pieces[i..][1..] == pieces[i + 1..];
      var gw := Trim(pieces[i]);
      if gw != "" {
        var d := RemoteDirective(SplitRemote(gw));
        ghost var more := Entries(pieces[i + 1..]);
        assert ([SplitRemote(gw)] + more)[1..] == more;
        AppendAssoc(ds, [d], RemoteDirectives(more));
        ds := ds + [d];
      }
    }
    assert ds + [] == ds;
  }

  method PushPairs(start: Directives, d: K.NmData, table: seq<Pair>) returns (ds: Directives)
    ensures ds == start + CopiedAll(d, table)
  {
    ds := start;
    assert table[0..] == table;
    for i := 0 to |table|
      invariant start + CopiedAll(d, table) == ds + CopiedAll(d, table[i..])
    {
      assert table[i..][1..] == table[i + 1..];
      AppendAssoc(ds, Copied(d, table[i].key, table[i].kw), CopiedAll(d, table[i + 1..]));
      var v := K.Get(d, table[i].key);
      ds := ds + if v.Some? then [Valued(table[i].kw, v.value)] else [];
    }
    assert ds + [] == ds;
  }

  method PushRoutes(start: Directives, value: string) returns (ds: Directives)
    ensures ds == start + LineDirectives(SafeLines(Lines(value)))
  {
    hide Trim, IsSafeRouteLine, Tokens, Lines;
    ds := start;
    var ls := Lines(value);
    assert ls[0..] == ls;
    for i := 0 to |ls|
      invariant start + LineDirectives(SafeLines(ls)) == ds + LineDirectives(SafeLines(ls[i..]))
    {
      assert ls[i..][1..] == ls[i + 1..];
      var line := Trim(ls[i]);
      if line != "" && IsSafeRouteLine(line) {
        ghost var more := SafeLines(ls[i + 1..]);
        assert ([line] + more)[1..] == more;
        AppendAssoc(ds, LineDirective(line), LineDirectives(more));
        var words := Tokenize(line);
        if words.Ok? && words.value != [] {
          ds := ds + [Opt(words.value[0], words.value[1..])];
        } else {
          assert ds + [] == ds;
        }
      }
    }
    assert ds + [] == ds;
  }

  /** `push_opt`. */
  method PushOne(ds: Directives, kw: Kw, args: seq<string>, ghost start: Directives, ghost done: Directives)
    returns (more: Directives, ghost all: Directives)
    requires ds == start + done
    ensures all == done + [Opt(Spell(kw), args)] && more == start + all
  {
    hide Spell;
    AppendAssoc(start, done, [Opt(Spell(kw), args)]);
    all := done + [Opt(Spell(kw), args)];
    more := ds + [Opt(Spell(kw), args)];
  }

  /** `push_flag`, under its condition. */
  method PushFlag(ds: Directives, on: bool, kw: Kw, ghost start: Directives, ghost done: Directives)
    returns (more: Directives, ghost all: Directives)
    requires ds == start + done
    ensures all == done + FlagIf(on, kw) && more == start + all
  {
    hide Spell;
    more, all := ds, done + [];
    assert all == done;
    if on {
      more, all := PushOne(ds, kw, [], start, done);
    }
  }

  /** `push_opt` with a value that may be missing. */
  method PushSome(ds: Directives, v: Option<string>, kw: Kw, ghost start: Directives, ghost done: Directives)
    returns (more: Directives, ghost all: Directives)
    requires ds == start + done
    ensures all == done + OptionalFile(v, kw) && more == start + all
  {
    hide Spell;
    more, all := ds, done + [];
    assert all == done;
    match v {
      case Some(value) => more, all := PushOne(ds, kw, [value], start, done);
      case None =>
    }
  }

  method PushSwitches(start: Directives, d: K.NmData) returns (ds: Directives)
    ensures ds == start + SwitchSegment(d)
  {
    hide Spell, FlagIf;
    ds := start;
    ghost var done: Directives := [];
    assert start + [] == start;
    ds, done := PushFlag(ds, K.IsYes(d, K.RemoteRandom), Flag(RemoteRandom), start, done);
    ds, done := PushFlag(ds, K.IsYes(d, K.RemoteRandomHostname), Flag(RemoteRandomHostname), start, done);
    ds, done := PushFlag(ds, K.IsYes(d, K.AllowPullFqdn), Flag(AllowPullFqdn), start, done);
    ds, done := PushFlag(ds, K.IsYes(d, K.TunIpv6), Flag(TunIpv6), start, done);
    ds, done := PushFlag(ds, K.IsYes(d, K.PushPeerInfo), Flag(PushPeerInfo), start, done);
    assert done == SwitchSegment(d);
  }

  method PushPki(start: Directives, d: K.NmData) returns (ds: Directives)
    ensures ds == start + ExportPki(d)
  {
    hide Spell, IsPkcs12Path, OptionalFile;
    ds := start;
    ghost var done: Directives := [];
    assert start + [] == start;
    var ca, cert, key := CaOf(d), CertOf(d), KeyOf(d);
    if ca.Some? && cert.Some? && key.Some? && ca == cert && cert == key && IsPkcs12Path(cert.value) {
      ds, done := PushOne(ds, Trust(Pkcs12), [cert.value], start, done);
    } else {
      ds, done := PushSome(ds, ca, Trust(Ca), start, done);
      ds, done := PushSome(ds, cert, Trust(Cert), start, done);
      ds, done := PushSome(ds, key, Trust(Key), start, done);
    }
    assert done == ExportPki(d);
  }

  method PushSecret(start: Directives, d: K.NmData) returns (ds: Directives)
    ensures ds == start + SecretSegment(d)
  {
    hide Spell;
    ds := start;
    ghost var done: Directives := [];
    assert start + [] == start;
    if K.StaticKeyMode(d) {
      if K.HasValue(d, K.StaticKey) {
        var args := [d[K.StaticKey]];
        if K.HasValue(d, K.StaticKeyDirection) {
          args := args + [d[K.StaticKeyDirection]];
        }
        assert args == [d[K.StaticKey]]
                       + (if K.HasValue(d, K.StaticKeyDirection) then [d[K.StaticKeyDirection]] else []);
        ds, done := PushOne(ds, Trust(Secret), args, start, done);
      }
    }
    assert done == SecretSegment(d);
  }

  method PushCompression(start: Directives, d: K.NmData) returns (ds: Directives)
    ensures ds == start + CompressionSegment(d)
  {
    hide Spell;
    ds := start;
    ghost var done: Directives := [];
    assert start + [] == start;
    if K.Get(d, K.AllowCompression) != Some("no") {
      if K.HasValue(d, K.CompLzo) {
        var lzo := if d[K.CompLzo] == "no-by-default" then "no" else d[K.CompLzo];
        ds, done := PushOne(ds, Carrier(CompLzo), [lzo], start, done);
      }
      if K.HasValue(d, K.Compress) {
        if d[K.Compress] == K.YES {
          ds, done := PushOne(ds, Carrier(Compress), [], start, done);
        } else {
          ds, done := PushOne(ds, Carrier(Compress), [d[K.Compress]], start, done);
        }
      }
    }
    assert done == CompressionSegment(d);
  }

  method PushMssfix(start: Directives, d: K.NmData) returns (ds: Directives)
    ensures ds == start + ExportMssfix(d)
  {
    hide Spell;
    ds := start;
    ghost var done: Directives := [];
    assert start + [] == start;
    match K.Get(d, K.Mssfix) {
      case Some(v) =>
        if v == K.YES {
          ds, done := PushOne(ds, Carrier(Mssfix), [], start, done);
        } else {
          ds, done := PushOne(ds, Carrier(Mssfix), [v], start, done);
        }
      case None =>
    }
    assert done == ExportMssfix(d);
  }

  method PushAddress(start: Directives, d: K.NmData) returns (ds: Directives)
    ensures ds == start + AddressSegment(d)
  {
    hide Spell;
    ds := start;
    ghost var done: Directives := [];
    assert start + [] == start;
    if K.HasValue(d, K.LocalIp) && K.HasValue(d, K.RemoteIp) {
      ds, done := PushOne(ds, Carrier(Ifconfig), [d[K.LocalIp], d[K.RemoteIp]], start, done);
    }
    assert done == AddressSegment(d);
  }

  method PushX509(start: Directives, d: K.NmData) returns (ds: Directives)
    ensures ds == start + X509Segment(d)
  {
    hide Spell;
    ds := start;
    ghost var done: Directives := [];
    assert start + [] == start;
    match K.Get(d, K.VerifyX509Name) {
      case Some(name) =>
        var args := [name];
        var i := Find(name, ':');
        if i < |name| && (name[..i] == "subject" || name[..i] == "name" || name[..i] == "name-prefix") {
          args := [name[i + 1..], name[..i]];
        }
        ds, done := PushOne(ds, Trust(VerifyX509Name), args, start, done);
      case None =>
    }
    assert done == X509Segment(d);
  }

  method PushTlsAuth(start: Directives, d: K.NmData) returns (ds: Directives)
    ensures ds == start + TlsAuthSegment(d)
  {
    hide Spell;
    ds := start;
    ghost var done: Directives := [];
    assert start + [] == start;
    if K.HasValue(d, K.Ta) {
      var args := [d[K.Ta]];
      if K.HasValue(d, K.TaDir) {
        args := args + [d[K.TaDir]];
      }
      assert args == [d[K.Ta]] + (if K.HasValue(d, K.TaDir) then [d[K.TaDir]] else []);
      ds, done := PushOne(ds, Trust(TlsAuth), args, start, done);
    }
    assert done == TlsAuthSegment(d);
  }

  method PushTlsMin(start: Directives, d: K.NmData) returns (ds: Directives)
    ensures ds == start + TlsMinSegment(d)
  {
    hide Spell;
    ds := start;
    ghost var done: Directives := [];
    assert start + [] == start;
    if K.HasValue(d, K.TlsVersionMin) {
      var args := [d[K.TlsVersionMin]];
      if K.IsYes(d, K.TlsVersionMinOrHighest) {
        args := args + ["or-highest"];
      }
      assert args == [d[K.TlsVersionMin]] + (if K.IsYes(d, K.TlsVersionMinOrHighest) then ["or-highest"] else []);
      ds, done := PushOne(ds, Trust(TlsVersionMin), args, start, done);
    }
    assert done == TlsMinSegment(d);
  }

  method PushCrl(start: Directives, d: K.NmData) returns (ds: Directives)
    ensures ds == start + CrlSegment(d)
  {
    hide Spell;
    ds := start;
    ghost var done: Directives := [];
    assert start + [] == start;
    if K.HasValue(d, K.CrlVerifyFile) {
      ds, done := PushOne(ds, Trust(CrlVerify), [d[K.CrlVerifyFile]], start, done);
    } else if K.HasValue(d, K.CrlVerifyDir) {
      ds, done := PushOne(ds, Trust(CrlVerify), [d[K.CrlVerifyDir], "dir"], start, done);
    }
    assert done == CrlSegment(d);
  }

  method PushDev(start: Directives, d: K.NmData) returns (ds: Directives)
    ensures ds == start + DevSegment(d)
  {
    hide Spell;
    ds := start;
    ghost var done: Directives := [];
    assert start + [] == start;
    var dev := K.Get(d, K.Dev);
    if dev.None? {
      dev := K.Get(d, K.DevType);
    }
    if dev.None? {
      dev := Some(if K.IsYes(d, K.TapDev) then "tap" else "tun");
    }
    ds, done := PushOne(ds, Plain(Dev), [dev.value], start, done);
    ds, done := PushSome(ds, K.Get(d, K.DevType), Plain(DevType), start, done);
    assert done == DevSegment(d);
  }

  method PushProto(start: Directives, d: K.NmData) returns (ds: Directives)
    ensures ds == start + ProtoSegment(d)
  {
    hide Spell;
    ds := start;
    ghost var done: Directives := [];
    assert start + [] == start;
    ds, done := PushOne(ds, Carrier(Proto), [if K.IsYes(d, K.ProtoTcp) then "tcp" else "udp"], start, done);
    assert done == ProtoSegment(d);
  }

  method PushProxy(start: Directives, d: K.NmData) returns (ds: Directives)
    ensures ds == start + ProxySegment(d)
  {
    hide Spell;
    ds := start;
    ghost var done: Directives := [];
    assert start + [] == start;
    if K.HasValue(d, K.ProxyType) {
      if K.HasValue(d, K.ProxyServer) {
        if d[K.ProxyType] == "http" {
          var port := if K.HasValue(d, K.ProxyPort) then d[K.ProxyPort] else "8080";
          ds, done := PushOne(ds, Carrier(HttpProxy), [d[K.ProxyServer], port], start, done);
          ds, done := PushFlag(ds, K.IsYes(d, K.ProxyRetry), Quiet(HttpProxyRetry), start, done);
        } else if d[K.ProxyType] == "socks" {
          var port := if K.HasValue(d, K.ProxyPort) then d[K.ProxyPort] else "1080";
          ds, done := PushOne(ds, Carrier(SocksProxy), [d[K.ProxyServer], port], start, done);
          ds, done := PushFlag(ds, K.IsYes(d, K.ProxyRetry), Quiet(SocksProxyRetry), start, done);
        }
      }
    }
    assert done == ProxySegment(d);
  }

  method PushTail(start: Directives) returns (ds: Directives)
    ensures ds == start + TailSegment()
  {
    hide Spell;
    ds := start;
    ghost var done: Directives := [];
    assert start + [] == start;
    ds, done := PushOne(ds, Quiet(Nobind), [], start, done);
    ds, done := PushOne(ds, Quiet(AuthNocache), [], start, done);
    ds, done := PushOne(ds, Quiet(ScriptSecurity), ["2"], start, done);
    ds, done := PushOne(ds, Quiet(PersistKey), [], start, done);
    ds, done := PushOne(ds, Quiet(PersistTun), [], start, done);
    ds, done := PushOne(ds, Quiet(User), ["nm-openvpn3"], start, done);
    ds, done := PushOne(ds, Quiet(Group), ["nm-openvpn3"], start, done);
    assert done == TailSegment();
  }

  method PushHead(d: K.NmData) returns (ds: Directives)
    ensures ds == ExportHead(d)
  {
    hide RemoteDirectives, Decode, SwitchSegment, ExportPki, SecretSegment, Spell, FlagIf;
    ghost var all: Directives;
    ds, all := PushFlag([], K.TlsLike(d), Quiet(Client), [], []);
    assert ds == FlagIf(K.TlsLike(d), Quiet(Client));
    if K.HasValue(d, K.Remote) {
      ds := PushRemotes(ds, d[K.Remote]);
    } else {
      assert ds + [] == ds;
    }
    ds := PushSwitches(ds, d);
    ds := PushPki(ds, d);
    ghost var before := ds;
    assert before + [] == before;
    ds, all := PushFlag(ds, K.PasswordLike(d), Trust(AuthUserPass), before, []);
    assert [] + FlagIf(K.PasswordLike(d), Trust(AuthUserPass)) == FlagIf(K.PasswordLike(d), Trust(AuthUserPass));
    ds := PushSecret(ds, d);
  }

  method PushLink(start: Directives, d: K.NmData) returns (ds: Directives)
    ensures ds == start + ExportLink(d)
  {
    hide CopiedAll, CompressionSegment, ExportMssfix, AddressSegment, LineDirectives, SafeLines, Lines, Spell, FlagIf;
    ds := PushPairs(start, d, EXPORT_PAIRS);
    ghost var done := CopiedAll(d, EXPORT_PAIRS);
    ds := PushCompression(ds, d);
    AppendAssoc(start, done, CompressionSegment(d));
    done := done + CompressionSegment(d);
    ds, done := PushFlag(ds, K.IsYes(d, K.Float), Flag(Float), start, done);
    ds := PushMssfix(ds, d);
    AppendAssoc(start, done, ExportMssfix(d));
    done := done + ExportMssfix(d);
    ds := PushAddress(ds, d);
    AppendAssoc(start, done, AddressSegment(d));
    done := done + AddressSegment(d);
    if K.HasValue(d, K.ExtraRoutes) {
      ds := PushRoutes(ds, d[K.ExtraRoutes]);
    } else {
      NoRoutes(d);
      assert ds + [] == ds;
    }
    AppendAssoc(start, done, RouteSegment(d));
  }

  lemma NoRoutes(d: K.NmData)
    requires !K.HasValue(d, K.ExtraRoutes)
    ensures RouteSegment(d) == []
  {
  }

  method PushTls(start: Directives, d: K.NmData) returns (ds: Directives)
    ensures ds == start + TlsSegment(d)
  {
    hide X509Segment, TlsAuthSegment, TlsMinSegment, CrlSegment, CopiedAll, Spell;
    ds := start;
    assert start + [] == start;
    if !K.TlsLike(d) {
      return;
    }
    ds := PushX509(ds, d);
    ghost var done := X509Segment(d);
    ds := PushTlsAuth(ds, d);
    AppendAssoc(start, done, TlsAuthSegment(d));
    done := done + TlsAuthSegment(d);
    ds, done := PushSome(ds, K.Get(d, K.TlsCrypt), Plain(TlsCrypt), start, done);
    ds, done := PushSome(ds, K.Get(d, K.TlsCryptV2), Plain(TlsCryptV2), start, done);
    ds := PushTlsMin(ds, d);
    AppendAssoc(start, done, TlsMinSegment(d));
    done := done + TlsMinSegment(d);
    ds := PushPairs(ds, d, TLS_PAIRS);
    AppendAssoc(start, done, CopiedAll(d, TLS_PAIRS));
    done := done + CopiedAll(d, TLS_PAIRS);
    ds := PushCrl(ds, d);
    AppendAssoc(start, done, CrlSegment(d));
    done := done + CrlSegment(d);
    assert done == TlsSegment(d);
  }

  method PushEnd(start: Directives, d: K.NmData) returns (ds: Directives)
    ensures ds == start + ExportEnd(d)
  {
    hide DevSegment, ProtoSegment, ProxySegment, TailSegment;
    ds := PushDev(start, d);
    ds := PushProto(ds, d);
    AppendAssoc(start, DevSegment(d), ProtoSegment(d));
    ds := PushProxy(ds, d);
    AppendAssoc(start, DevSegment(d) + ProtoSegment(d), ProxySegment(d));
    ds := PushTail(ds);
    AppendAssoc(start, DevSegment(d) + ProtoSegment(d) + ProxySegment(d), TailSegment());
  }

  /** `from_nm_data`: one push after the other, in the order of the source. */
  method DirectivesFromNmData(d: K.NmData) returns (ds: Directives)
    ensures ds == FromNmData(d)
  {
    hide ExportHead, ExportLink, TlsSegment, ExportEnd;
    ds := PushHead(d);
    ds := PushLink(ds, d);
    ds := PushTls(ds, d);
    ds := PushEnd(ds, d);
  }
}
