/**
  * What the two emitters say, option by option, read back from their text: the
  * option names and values are those of the `.ovpn` file, the conditions are
  * on the dictionary alone.
  */
module Profile {
  import opened Text
  import opened Numbers
  import opened Names
  import opened Lexer
  import opened Config
  import opened Remotes
  import opened RouteLines
  import opened Export
  import opened Connect
  import opened Agreement
  import opened Dictionary
  import opened Import
  import I = Imported
  import K = Keys

  /** The profile handed to openvpn3, and the file Save-As writes. */
  datatype Side = ConnectSide | ExportSide

  /** The directives that the text of a side holds. */
  function Told(side: Side, d: K.NmData): Directives {
    match ReadText(if side == ConnectSide then ConnectText(d) else Print(FromNmData(d)))
    case Ok(ds) => ds
    case Err(_) => []
  }

  /** How often the list holds the option with exactly these arguments. */
  function Times(ds: Directives, name: string, args: seq<string>): nat { multiset(ds)[Opt(name, args)] }

  function Once(want: Option<seq<string>>, args: seq<string>): nat { if want == Some(args) then 1 else 0 }

  /** The option stands there once, with these arguments; for None it does not stand there at all. */
  ghost predicate Says(ds: Directives, name: string, want: Option<seq<string>>) {
    forall args :: Times(ds, name, args) == Once(want, args)
  }

  // ---------- What each group of options says ----------

  predicate Set(d: K.NmData, k: K.NmKey) { k in d && d[k] != "" }

  predicate Is(d: K.NmData, k: K.NmKey, v: string) { k in d && d[k] == v }

  predicate OfType(d: K.NmData, types: set<string>) { K.ConnectionType in d && d[K.ConnectionType] in types }

  function Value(d: K.NmData, k: K.NmKey): Option<seq<string>> { if Set(d, k) then Some([d[k]]) else None }

  function When(c: bool, args: seq<string>): Option<seq<string>> { if c then Some(args) else None }

  predicate TlsType(d: K.NmData) { OfType(d, {"tls", "password", "password-tls"}) }

  function HeadSaid(d: K.NmData, kw: Kw): Option<seq<string>> {
    match kw
    case Quiet(Client) => When(TlsType(d), [])
    case Flag(RemoteRandom) => When(Is(d, K.RemoteRandom, "yes"), [])
    case Flag(RemoteRandomHostname) => When(Is(d, K.RemoteRandomHostname, "yes"), [])
    case Flag(AllowPullFqdn) => When(Is(d, K.AllowPullFqdn, "yes"), [])
    case Flag(TunIpv6) => When(Is(d, K.TunIpv6, "yes"), [])
    case Flag(PushPeerInfo) => When(Is(d, K.PushPeerInfo, "yes"), [])
    case Trust(AuthUserPass) => When(OfType(d, {"password", "password-tls"}), [])
    case Trust(Secret) =>
      if !OfType(d, {"static-key"}) || !Set(d, K.StaticKey) then None
      else if Set(d, K.StaticKeyDirection) then Some([d[K.StaticKey], d[K.StaticKeyDirection]])
      else Some([d[K.StaticKey]])
    case _ => None
  }

  function TextSaid(d: K.NmData, kw: Kw): Option<seq<string>> {
    match kw
    case Plain(Cipher) => Value(d, K.Cipher)
    case Plain(DataCiphers) => Value(d, K.DataCiphers)
    case Plain(DataCiphersFallback) => Value(d, K.DataCiphersFallback)
    case Plain(TlsCipher) => Value(d, K.TlsCipher)
    case Plain(Auth) => Value(d, K.Auth)
    case Plain(AllowCompression) => Value(d, K.AllowCompression)
    case Quiet(MtuDisc) => Value(d, K.MtuDisc)
    case _ => None
  }

  function ShapeSaid(d: K.NmData, kw: Kw): Option<seq<string>> {
    match kw
    case Carrier(CompLzo) =>
      if Is(d, K.AllowCompression, "no") || !Set(d, K.CompLzo) then None
      else if d[K.CompLzo] == "no-by-default" then Some(["no"]) else Some([d[K.CompLzo]])
    case Carrier(Compress) =>
      if Is(d, K.AllowCompression, "no") || !Set(d, K.Compress) then None
      else if d[K.Compress] == "yes" then Some([]) else Some([d[K.Compress]])
    case Flag(Float) => When(Is(d, K.Float, "yes"), [])
    case Carrier(Ifconfig) =>
      if Set(d, K.LocalIp) && Set(d, K.RemoteIp) then Some([d[K.LocalIp], d[K.RemoteIp]]) else None
    case Trust(CrlVerify) =>
      if !TlsType(d) then None
      else if Set(d, K.CrlVerifyFile) then Some([d[K.CrlVerifyFile]])
      else if Set(d, K.CrlVerifyDir) then Some([d[K.CrlVerifyDir], "dir"]) else None
    case _ => None
  }

  function TlsSaid(d: K.NmData, kw: Kw): Option<seq<string>> {
    if !TlsType(d) then None
    else
      match kw
      case Plain(RemoteCertTls) => Value(d, K.RemoteCertTls)
      case Plain(NsCertType) => Value(d, K.NsCertType)
      case Plain(TlsRemote) => Value(d, K.TlsRemote)
      case Trust(VerifyX509Name) => if Set(d, K.VerifyX509Name) then Some(X509Args(d[K.VerifyX509Name])) else None
      case Trust(TlsAuth) =>
        if !Set(d, K.Ta) then None
        else if Set(d, K.TaDir) then Some([d[K.Ta], d[K.TaDir]]) else Some([d[K.Ta]])
      case Plain(TlsCrypt) => Value(d, K.TlsCrypt)
      case Plain(TlsCryptV2) => Value(d, K.TlsCryptV2)
      case Trust(TlsVersionMin) =>
        if !Set(d, K.TlsVersionMin) then None
        else if Is(d, K.TlsVersionMinOrHighest, "yes") then Some([d[K.TlsVersionMin], "or-highest"])
        else Some([d[K.TlsVersionMin]])
      case Plain(TlsVersionMax) => Value(d, K.TlsVersionMax)
      case Plain(ExtraCerts) => Value(d, K.ExtraCerts)
      case _ => None
  }

  function DeviceOf(d: K.NmData): string {
    if Set(d, K.Dev) then d[K.Dev]
    else if Set(d, K.DevType) then d[K.DevType]
    else if Is(d, K.TapDev, "yes") then "tap" else "tun"
  }

  function ProxyOf(d: K.NmData, kind: string, port: string): Option<seq<string>> {
    if !Is(d, K.ProxyType, kind) || !Set(d, K.ProxyServer) then None
    else Some([d[K.ProxyServer], if Set(d, K.ProxyPort) then d[K.ProxyPort] else port])
  }

  function RetryOf(d: K.NmData, kind: string): Option<seq<string>> {
    When(Is(d, K.ProxyType, kind) && Set(d, K.ProxyServer) && Is(d, K.ProxyRetry, "yes"), [])
  }

  function EndSaid(d: K.NmData, kw: Kw): Option<seq<string>> {
    match kw
    case Plain(Dev) => Some([DeviceOf(d)])
    case Plain(DevType) => Value(d, K.DevType)
    case Carrier(Proto) => Some([if Is(d, K.ProtoTcp, "yes") then "tcp" else "udp"])
    case Carrier(HttpProxy) => ProxyOf(d, "http", "8080")
    case Carrier(SocksProxy) => ProxyOf(d, "socks", "1080")
    case Quiet(HttpProxyRetry) => RetryOf(d, "http")
    case Quiet(SocksProxyRetry) => RetryOf(d, "socks")
    case _ => None
  }

  function TailSaid(kw: Kw): Option<seq<string>> {
    match kw
    case Quiet(Nobind) => Some([])
    case Quiet(AuthNocache) => Some([])
    case Quiet(ScriptSecurity) => Some(["2"])
    case Quiet(PersistKey) => Some([])
    case Quiet(PersistTun) => Some([])
    case Quiet(User) => Some(["nm-openvpn3"])
    case Quiet(Group) => Some(["nm-openvpn3"])
    case _ => None
  }

  /** The connect side leaves out a number it cannot read. */
  function Number(side: Side, d: K.NmData, k: K.NmKey): Option<seq<string>> {
    if Set(d, k) && (side == ExportSide || ParseI64(d[k]).Some?) then Some([d[k]]) else None
  }

  function NumberSaid(side: Side, d: K.NmData, kw: Kw): Option<seq<string>> {
    match kw
    case Plain(RenegSec) => Number(side, d, K.RenegSeconds)
    case Quiet(MaxRoutes) => Number(side, d, K.MaxRoutes)
    case Plain(Keysize) => Number(side, d, K.Keysize)
    case Plain(TunMtu) => Number(side, d, K.TunnelMtu)
    case Plain(ConnectTimeout) => Number(side, d, K.ConnectTimeout)
    case Plain(Fragment) => Number(side, d, K.FragmentSize)
    case Plain(Port) => Number(side, d, K.Port)
    case Plain(Ping) => Number(side, d, K.Ping)
    case Plain(PingExit) => Number(side, d, K.PingExit)
    case Plain(PingRestart) => Number(side, d, K.PingRestart)
    case _ => None
  }

  function MssfixSaid(side: Side, d: K.NmData, kw: Kw): Option<seq<string>> {
    if kw != Carrier(Mssfix) || !Set(d, K.Mssfix) then None
    else if d[K.Mssfix] == "yes" then Some([])
    else if side == ExportSide then Some([d[K.Mssfix]])
    else
      match ParseI64(d[K.Mssfix])
      case Some(n) => Some([ShowInt(n)])
      case None => None
  }

  /** Certificate and key in one bundle; Save-As asks for the authority to be in it too. */
  predicate Bundled(side: Side, d: K.NmData) {
    && OfType(d, {"tls", "password-tls"}) && Set(d, K.Cert) && Is(d, K.Key, d[K.Cert]) && IsPkcs12Path(d[K.Cert])
    && (side == ExportSide ==> Is(d, K.Ca, d[K.Cert]))
  }

  function PkiSaid(side: Side, d: K.NmData, kw: Kw): Option<seq<string>> {
    match kw
    case Trust(Pkcs12) => if Bundled(side, d) then Some([d[K.Cert]]) else None
    case Trust(Ca) => if Bundled(side, d) || !TlsType(d) then None else Value(d, K.Ca)
    case Trust(Cert) => if Bundled(side, d) || !OfType(d, {"tls", "password-tls"}) then None else Value(d, K.Cert)
    case Trust(Key) => if Bundled(side, d) || !OfType(d, {"tls", "password-tls"}) then None else Value(d, K.Key)
    case _ => None
  }

  // ---------- Counting segment by segment ----------

  lemma OneTime(kw0: Kw, args0: seq<string>, kw: Kw, args: seq<string>)
    ensures Times([Opt(Spell(kw0), args0)], Spell(kw), args) == if kw == kw0 then Once(Some(args0), args) else 0
  {
    SpellIsInjective(Spell(kw));
    assert Spells(kw, Spell(kw)) && (Spell(kw0) == Spell(kw) ==> Spells(kw0, Spell(kw)));
  }

  lemma FlagTimes(on: bool, kw0: Kw, kw: Kw, args: seq<string>)
    ensures Times(FlagIf(on, kw0), Spell(kw), args) == if kw == kw0 then Once(When(on, []), args) else 0
  {
    hide Spell;
    OneTime(kw0, [], kw, args);
  }

  lemma CopiedTimes(d: K.NmData, k: K.NmKey, kw0: Kw, kw: Kw, args: seq<string>)
    ensures Times(Copied(d, k, kw0), Spell(kw), args) == if kw == kw0 then Once(Value(d, k), args) else 0
  {
    hide Spell;
    if Set(d, k) {
      OneTime(kw0, [d[k]], kw, args);
    }
  }

  lemma TimesAppend(a: Directives, b: Directives, name: string, args: seq<string>)
    ensures Times(a + b, name, args) == Times(a, name, args) + Times(b, name, args)
  {}

  lemma TimesNone(name: string, args: seq<string>)
    ensures Times([], name, args) == 0
  {}

  lemma TypesAreTypes(d: K.NmData)
    ensures K.TlsLike(d) <==> TlsType(d)
    ensures K.PasswordLike(d) <==> OfType(d, {"password", "password-tls"})
    ensures K.NeedsUserCert(d) <==> OfType(d, {"tls", "password-tls"})
    ensures K.StaticKeyMode(d) <==> OfType(d, {"static-key"})
  {}

  lemma YesIs(d: K.NmData, k: K.NmKey)
    ensures K.IsYes(d, k) <==> Is(d, k, "yes")
    ensures K.HasValue(d, k) <==> Set(d, k)
  {}

  lemma SwitchTimes(d: K.NmData, kw: Kw, args: seq<string>)
    ensures Times(SwitchSegment(d), Spell(kw), args) ==
      if kw.Flag? && kw.flag != Float then Once(HeadSaid(d, kw), args) else 0
  {
    hide Spell, FlagIf, K.IsYes;
    YesIs(d, K.RemoteRandom);
    YesIs(d, K.RemoteRandomHostname);
    YesIs(d, K.AllowPullFqdn);
    YesIs(d, K.TunIpv6);
    YesIs(d, K.PushPeerInfo);
    FlagTimes(K.IsYes(d, K.RemoteRandom), Flag(RemoteRandom), kw, args);
    FlagTimes(K.IsYes(d, K.RemoteRandomHostname), Flag(RemoteRandomHostname), kw, args);
    FlagTimes(K.IsYes(d, K.AllowPullFqdn), Flag(AllowPullFqdn), kw, args);
    FlagTimes(K.IsYes(d, K.TunIpv6), Flag(TunIpv6), kw, args);
    FlagTimes(K.IsYes(d, K.PushPeerInfo), Flag(PushPeerInfo), kw, args);
  }

  lemma SecretTimes(d: K.NmData, kw: Kw, args: seq<string>)
    ensures Times(SecretSegment(d), Spell(kw), args) ==
      if kw == Trust(Secret) then Once(HeadSaid(d, kw), args) else 0
  {
    hide Spell, K.StaticKeyMode, K.HasValue;
    TypesAreTypes(d);
    YesIs(d, K.StaticKey);
    YesIs(d, K.StaticKeyDirection);
    if K.StaticKeyMode(d) && K.HasValue(d, K.StaticKey) {
      var more := if K.HasValue(d, K.StaticKeyDirection) then [d[K.StaticKeyDirection]] else [];
      assert [d[K.StaticKey]] + more ==
        if K.HasValue(d, K.StaticKeyDirection) then [d[K.StaticKey], d[K.StaticKeyDirection]] else [d[K.StaticKey]];
      OneTime(Trust(Secret), [d[K.StaticKey]] + more, kw, args);
    }
  }

  lemma TextTimes(d: K.NmData, kw: Kw, args: seq<string>)
    ensures Times(Texts(d), Spell(kw), args) == Once(TextSaid(d, kw), args)
  {
    hide Spell, Copied, Value;
    CopiedTimes(d, K.Cipher, Plain(Cipher), kw, args);
    CopiedTimes(d, K.DataCiphers, Plain(DataCiphers), kw, args);
    CopiedTimes(d, K.DataCiphersFallback, Plain(DataCiphersFallback), kw, args);
    CopiedTimes(d, K.TlsCipher, Plain(TlsCipher), kw, args);
    CopiedTimes(d, K.Auth, Plain(Auth), kw, args);
    CopiedTimes(d, K.AllowCompression, Plain(AllowCompression), kw, args);
    CopiedTimes(d, K.MtuDisc, Quiet(MtuDisc), kw, args);
  }

  function LzoPart(d: K.NmData): Directives {
    if K.HasValue(d, K.CompLzo) then [Valued(Carrier(CompLzo), LzoWord(d[K.CompLzo]))] else []
  }

  function CompressPart(d: K.NmData): Directives {
    if !K.HasValue(d, K.Compress) then []
    else if d[K.Compress] == K.YES then [Flagged(Carrier(Compress))]
    else [Valued(Carrier(Compress), d[K.Compress])]
  }

  lemma LzoTimes(d: K.NmData, kw: Kw, args: seq<string>)
    requires !Is(d, K.AllowCompression, "no")
    ensures Times(LzoPart(d), Spell(kw), args) == if kw == Carrier(CompLzo) then Once(ShapeSaid(d, kw), args) else 0
  {
    hide Spell;
    if K.HasValue(d, K.CompLzo) {
      OneTime(Carrier(CompLzo), [LzoWord(d[K.CompLzo])], kw, args);
    }
  }

  lemma CompressTimes(d: K.NmData, kw: Kw, args: seq<string>)
    requires !Is(d, K.AllowCompression, "no")
    ensures Times(CompressPart(d), Spell(kw), args) ==
      if kw == Carrier(Compress) then Once(ShapeSaid(d, kw), args) else 0
  {
    hide Spell;
    if K.HasValue(d, K.Compress) {
      OneTime(Carrier(Compress), [], kw, args);
      OneTime(Carrier(Compress), [d[K.Compress]], kw, args);
    }
  }

  lemma CompressionTimes(d: K.NmData, kw: Kw, args: seq<string>)
    ensures Times(CompressionSegment(d), Spell(kw), args) ==
      if kw == Carrier(CompLzo) || kw == Carrier(Compress) then Once(ShapeSaid(d, kw), args) else 0
  {
    hide Spell, Times;
    TimesNone(Spell(kw), args);
    if !Is(d, K.AllowCompression, "no") {
      LzoTimes(d, kw, args);
      CompressTimes(d, kw, args);
      TimesAppend(LzoPart(d), CompressPart(d), Spell(kw), args);
    }
  }

  lemma AddressTimes(d: K.NmData, kw: Kw, args: seq<string>)
    ensures Times(AddressSegment(d), Spell(kw), args) ==
      if kw == Carrier(Ifconfig) then Once(ShapeSaid(d, kw), args) else 0
  {
    hide Spell;
    if K.HasValue(d, K.LocalIp) && K.HasValue(d, K.RemoteIp) {
      OneTime(Carrier(Ifconfig), [d[K.LocalIp], d[K.RemoteIp]], kw, args);
    }
  }

  lemma CrlTimes(d: K.NmData, kw: Kw, args: seq<string>)
    ensures Times(CrlIfTls(d), Spell(kw), args) == if kw == Trust(CrlVerify) then Once(ShapeSaid(d, kw), args) else 0
  {
    hide Spell, K.TlsLike;
    TypesAreTypes(d);
    if K.HasValue(d, K.CrlVerifyFile) {
      OneTime(Trust(CrlVerify), [d[K.CrlVerifyFile]], kw, args);
    } else if K.HasValue(d, K.CrlVerifyDir) {
      OneTime(Trust(CrlVerify), [d[K.CrlVerifyDir], "dir"], kw, args);
    }
  }

  lemma FloatTimes(d: K.NmData, kw: Kw, args: seq<string>)
    ensures Times(FlagIf(K.IsYes(d, K.Float), Flag(Float)), Spell(kw), args) ==
      if kw == Flag(Float) then Once(ShapeSaid(d, kw), args) else 0
  {
    hide Spell;
    YesIs(d, K.Float);
    FlagTimes(K.IsYes(d, K.Float), Flag(Float), kw, args);
  }

  lemma NameTimes(d: K.NmData, kw: Kw, args: seq<string>)
    requires TlsType(d)
    ensures Times(X509Segment(d), Spell(kw), args) ==
      if kw == Trust(VerifyX509Name) then Once(TlsSaid(d, kw), args) else 0
  {
    hide Spell, TlsType, X509Args;
    if K.HasValue(d, K.VerifyX509Name) {
      OneTime(Trust(VerifyX509Name), X509Args(d[K.VerifyX509Name]), kw, args);
    }
  }

  lemma ControlTimes(d: K.NmData, kw: Kw, args: seq<string>)
    requires TlsType(d)
    ensures Times(TlsAuthSegment(d), Spell(kw), args) == if kw == Trust(TlsAuth) then Once(TlsSaid(d, kw), args) else 0
  {
    hide Spell, TlsType;
    if K.HasValue(d, K.Ta) {
      var more := if K.HasValue(d, K.TaDir) then [d[K.TaDir]] else [];
      assert [d[K.Ta]] + more == if K.HasValue(d, K.TaDir) then [d[K.Ta], d[K.TaDir]] else [d[K.Ta]];
      OneTime(Trust(TlsAuth), [d[K.Ta]] + more, kw, args);
    }
  }

  lemma VersionTimes(d: K.NmData, kw: Kw, args: seq<string>)
    requires TlsType(d)
    ensures Times(TlsMinSegment(d), Spell(kw), args) ==
      if kw == Trust(TlsVersionMin) then Once(TlsSaid(d, kw), args) else 0
  {
    hide Spell, TlsType;
    if K.HasValue(d, K.TlsVersionMin) {
      var more := if K.IsYes(d, K.TlsVersionMinOrHighest) then ["or-highest"] else [];
      assert [d[K.TlsVersionMin]] + more ==
        if K.IsYes(d, K.TlsVersionMinOrHighest) then [d[K.TlsVersionMin], "or-highest"] else [d[K.TlsVersionMin]];
      OneTime(Trust(TlsVersionMin), [d[K.TlsVersionMin]] + more, kw, args);
    }
  }

  lemma TlsTimes(d: K.NmData, kw: Kw, args: seq<string>)
    ensures Times(ConnectTls(d), Spell(kw), args) == Once(TlsSaid(d, kw), args)
  {
    hide Spell, Copied, Value, K.TlsLike, X509Segment, TlsAuthSegment, TlsMinSegment, TlsType, X509Args, Times;
    TypesAreTypes(d);
    TimesNone(Spell(kw), args);
    if TlsType(d) {
      NameTimes(d, kw, args);
      ControlTimes(d, kw, args);
      VersionTimes(d, kw, args);
      CopiedTimes(d, K.RemoteCertTls, Plain(RemoteCertTls), kw, args);
      CopiedTimes(d, K.NsCertType, Plain(NsCertType), kw, args);
      CopiedTimes(d, K.TlsRemote, Plain(TlsRemote), kw, args);
      CopiedTimes(d, K.TlsCrypt, Plain(TlsCrypt), kw, args);
      CopiedTimes(d, K.TlsCryptV2, Plain(TlsCryptV2), kw, args);
      CopiedTimes(d, K.TlsVersionMax, Plain(TlsVersionMax), kw, args);
      CopiedTimes(d, K.ExtraCerts, Plain(ExtraCerts), kw, args);
      var ds0 := Copied(d, K.RemoteCertTls, Plain(RemoteCertTls));
      var ds1 := ds0 + Copied(d, K.NsCertType, Plain(NsCertType));
      TimesAppend(ds0, Copied(d, K.NsCertType, Plain(NsCertType)), Spell(kw), args);
      var ds2 := ds1 + Copied(d, K.TlsRemote, Plain(TlsRemote));
      TimesAppend(ds1, Copied(d, K.TlsRemote, Plain(TlsRemote)), Spell(kw), args);
      var ds3 := ds2 + X509Segment(d);
      TimesAppend(ds2, X509Segment(d), Spell(kw), args);
      var ds4 := ds3 + TlsAuthSegment(d);
      TimesAppend(ds3, TlsAuthSegment(d), Spell(kw), args);
      var ds5 := ds4 + Copied(d, K.TlsCrypt, Plain(TlsCrypt));
      TimesAppend(ds4, Copied(d, K.TlsCrypt, Plain(TlsCrypt)), Spell(kw), args);
      var ds6 := ds5 + Copied(d, K.TlsCryptV2, Plain(TlsCryptV2));
      TimesAppend(ds5, Copied(d, K.TlsCryptV2, Plain(TlsCryptV2)), Spell(kw), args);
      var ds7 := ds6 + TlsMinSegment(d);
      TimesAppend(ds6, TlsMinSegment(d), Spell(kw), args);
      var ds8 := ds7 + Copied(d, K.TlsVersionMax, Plain(TlsVersionMax));
      TimesAppend(ds7, Copied(d, K.TlsVersionMax, Plain(TlsVersionMax)), Spell(kw), args);
      var ds9 := ds8 + Copied(d, K.ExtraCerts, Plain(ExtraCerts));
      TimesAppend(ds8, Copied(d, K.ExtraCerts, Plain(ExtraCerts)), Spell(kw), args);
    }
  }

  lemma DeviceTimes(d: K.NmData, kw: Kw, args: seq<string>)
    ensures Times(DevSegment(d), Spell(kw), args) ==
      if kw == Plain(Dev) || kw == Plain(DevType) then Once(EndSaid(d, kw), args) else 0
  {
    hide Spell, Copied, Value, ChosenDev, DeviceOf;
    DeviceIsChosen(d);
    OneTime(Plain(Dev), [ChosenDev(d)], kw, args);
    CopiedTimes(d, K.DevType, Plain(DevType), kw, args);
    TimesAppend([Valued(Plain(Dev), ChosenDev(d))], Copied(d, K.DevType, Plain(DevType)), Spell(kw), args);
  }

  lemma DeviceIsChosen(d: K.NmData)
    ensures ChosenDev(d) == DeviceOf(d)
  {}

  lemma ProtoTimes(d: K.NmData, kw: Kw, args: seq<string>)
    ensures Times(ProtoSegment(d), Spell(kw), args) == if kw == Carrier(Proto) then Once(EndSaid(d, kw), args) else 0
  {
    hide Spell;
    YesIs(d, K.ProtoTcp);
    OneTime(Carrier(Proto), [if K.IsYes(d, K.ProtoTcp) then "tcp" else "udp"], kw, args);
  }

  predicate IsProxyWord(kw: Kw) {
    || kw == Carrier(HttpProxy) || kw == Carrier(SocksProxy)
    || kw == Quiet(HttpProxyRetry) || kw == Quiet(SocksProxyRetry)
  }

  lemma ProxyTimes(d: K.NmData, kw: Kw, args: seq<string>)
    ensures Times(ProxySegment(d), Spell(kw), args) == if IsProxyWord(kw) then Once(EndSaid(d, kw), args) else 0
  {
    hide Spell, FlagIf;
    YesIs(d, K.ProxyRetry);
    FlagTimes(K.IsYes(d, K.ProxyRetry), Quiet(HttpProxyRetry), kw, args);
    FlagTimes(K.IsYes(d, K.ProxyRetry), Quiet(SocksProxyRetry), kw, args);
    if K.HasValue(d, K.ProxyType) && K.HasValue(d, K.ProxyServer) {
      OneTime(Carrier(HttpProxy), [d[K.ProxyServer], ValueOr(d, K.ProxyPort, "8080")], kw, args);
      OneTime(Carrier(SocksProxy), [d[K.ProxyServer], ValueOr(d, K.ProxyPort, "1080")], kw, args);
    }
  }

  lemma TailTimes(kw: Kw, args: seq<string>)
    ensures Times(TailSegment(), Spell(kw), args) == Once(TailSaid(kw), args)
  {
    hide Spell, Times;
    OneTime(Quiet(Nobind), [], kw, args);
    OneTime(Quiet(AuthNocache), [], kw, args);
    OneTime(Quiet(ScriptSecurity), ["2"], kw, args);
    OneTime(Quiet(PersistKey), [], kw, args);
    OneTime(Quiet(PersistTun), [], kw, args);
    OneTime(Quiet(User), ["nm-openvpn3"], kw, args);
    OneTime(Quiet(Group), ["nm-openvpn3"], kw, args);
    var ds0 := [Opt(Spell(Quiet(Nobind)), [])];
    var ds1 := ds0 + [Opt(Spell(Quiet(AuthNocache)), [])];
    TimesAppend(ds0, [Opt(Spell(Quiet(AuthNocache)), [])], Spell(kw), args);
    var ds2 := ds1 + [Opt(Spell(Quiet(ScriptSecurity)), ["2"])];
    TimesAppend(ds1, [Opt(Spell(Quiet(ScriptSecurity)), ["2"])], Spell(kw), args);
    var ds3 := ds2 + [Opt(Spell(Quiet(PersistKey)), [])];
    TimesAppend(ds2, [Opt(Spell(Quiet(PersistKey)), [])], Spell(kw), args);
    var ds4 := ds3 + [Opt(Spell(Quiet(PersistTun)), [])];
    TimesAppend(ds3, [Opt(Spell(Quiet(PersistTun)), [])], Spell(kw), args);
    var ds5 := ds4 + [Opt(Spell(Quiet(User)), ["nm-openvpn3"])];
    TimesAppend(ds4, [Opt(Spell(Quiet(User)), ["nm-openvpn3"])], Spell(kw), args);
    var ds6 := ds5 + [Opt(Spell(Quiet(Group)), ["nm-openvpn3"])];
    TimesAppend(ds5, [Opt(Spell(Quiet(Group)), ["nm-openvpn3"])], Spell(kw), args);
    assert ds6 == TailSegment();
  }

  lemma NumberTimes(d: K.NmData, k: K.NmKey, kw0: Kw, kw: Kw, args: seq<string>)
    ensures Times(Copied(d, k, kw0), Spell(kw), args) == if kw == kw0 then Once(Number(ExportSide, d, k), args) else 0
    ensures Times(CopiedNumber(d, k, kw0), Spell(kw), args) ==
      if kw == kw0 then Once(Number(ConnectSide, d, k), args) else 0
  {
    hide Spell, Copied, ParseI64;
    CopiedTimes(d, k, kw0, kw, args);
  }

  lemma GoodNumberTimes(d: K.NmData, kw: Kw, args: seq<string>)
    ensures Times(GoodNumbers(d), Spell(kw), args) == Once(NumberSaid(ConnectSide, d, kw), args)
  {
    hide Spell, Copied, CopiedNumber, Number, Times;
    NumberTimes(d, K.RenegSeconds, Plain(RenegSec), kw, args);
    NumberTimes(d, K.MaxRoutes, Quiet(MaxRoutes), kw, args);
    NumberTimes(d, K.Keysize, Plain(Keysize), kw, args);
    NumberTimes(d, K.TunnelMtu, Plain(TunMtu), kw, args);
    NumberTimes(d, K.ConnectTimeout, Plain(ConnectTimeout), kw, args);
    NumberTimes(d, K.FragmentSize, Plain(Fragment), kw, args);
    NumberTimes(d, K.Port, Plain(Port), kw, args);
    NumberTimes(d, K.Ping, Plain(Ping), kw, args);
    NumberTimes(d, K.PingExit, Plain(PingExit), kw, args);
    NumberTimes(d, K.PingRestart, Plain(PingRestart), kw, args);
    var ds0 := CopiedNumber(d, K.RenegSeconds, Plain(RenegSec));
    var ds1 := ds0 + CopiedNumber(d, K.MaxRoutes, Quiet(MaxRoutes));
    TimesAppend(ds0, CopiedNumber(d, K.MaxRoutes, Quiet(MaxRoutes)), Spell(kw), args);
    var ds2 := ds1 + CopiedNumber(d, K.Keysize, Plain(Keysize));
    TimesAppend(ds1, CopiedNumber(d, K.Keysize, Plain(Keysize)), Spell(kw), args);
    var ds3 := ds2 + CopiedNumber(d, K.TunnelMtu, Plain(TunMtu));
    TimesAppend(ds2, CopiedNumber(d, K.TunnelMtu, Plain(TunMtu)), Spell(kw), args);
    var ds4 := ds3 + CopiedNumber(d, K.ConnectTimeout, Plain(ConnectTimeout));
    TimesAppend(ds3, CopiedNumber(d, K.ConnectTimeout, Plain(ConnectTimeout)), Spell(kw), args);
    var ds5 := ds4 + CopiedNumber(d, K.FragmentSize, Plain(Fragment));
    TimesAppend(ds4, CopiedNumber(d, K.FragmentSize, Plain(Fragment)), Spell(kw), args);
    var ds6 := ds5 + CopiedNumber(d, K.Port, Plain(Port));
    TimesAppend(ds5, CopiedNumber(d, K.Port, Plain(Port)), Spell(kw), args);
    var ds7 := ds6 + CopiedNumber(d, K.Ping, Plain(Ping));
    TimesAppend(ds6, CopiedNumber(d, K.Ping, Plain(Ping)), Spell(kw), args);
    var ds8 := ds7 + CopiedNumber(d, K.PingExit, Plain(PingExit));
    TimesAppend(ds7, CopiedNumber(d, K.PingExit, Plain(PingExit)), Spell(kw), args);
    var ds9 := ds8 + CopiedNumber(d, K.PingRestart, Plain(PingRestart));
    TimesAppend(ds8, CopiedNumber(d, K.PingRestart, Plain(PingRestart)), Spell(kw), args);
  }

  lemma AllNumberTimes(d: K.NmData, kw: Kw, args: seq<string>)
    ensures Times(AllNumbers(d), Spell(kw), args) == Once(NumberSaid(ExportSide, d, kw), args)
  {
    hide Spell, Copied, CopiedNumber, Number, Times;
    NumberTimes(d, K.RenegSeconds, Plain(RenegSec), kw, args);
    NumberTimes(d, K.MaxRoutes, Quiet(MaxRoutes), kw, args);
    NumberTimes(d, K.Keysize, Plain(Keysize), kw, args);
    NumberTimes(d, K.TunnelMtu, Plain(TunMtu), kw, args);
    NumberTimes(d, K.ConnectTimeout, Plain(ConnectTimeout), kw, args);
    NumberTimes(d, K.FragmentSize, Plain(Fragment), kw, args);
    NumberTimes(d, K.Port, Plain(Port), kw, args);
    NumberTimes(d, K.Ping, Plain(Ping), kw, args);
    NumberTimes(d, K.PingExit, Plain(PingExit), kw, args);
    NumberTimes(d, K.PingRestart, Plain(PingRestart), kw, args);
    var ds0 := Copied(d, K.RenegSeconds, Plain(RenegSec));
    var ds1 := ds0 + Copied(d, K.MaxRoutes, Quiet(MaxRoutes));
    TimesAppend(ds0, Copied(d, K.MaxRoutes, Quiet(MaxRoutes)), Spell(kw), args);
    var ds2 := ds1 + Copied(d, K.Keysize, Plain(Keysize));
    TimesAppend(ds1, Copied(d, K.Keysize, Plain(Keysize)), Spell(kw), args);
    var ds3 := ds2 + Copied(d, K.TunnelMtu, Plain(TunMtu));
    TimesAppend(ds2, Copied(d, K.TunnelMtu, Plain(TunMtu)), Spell(kw), args);
    var ds4 := ds3 + Copied(d, K.ConnectTimeout, Plain(ConnectTimeout));
    TimesAppend(ds3, Copied(d, K.ConnectTimeout, Plain(ConnectTimeout)), Spell(kw), args);
    var ds5 := ds4 + Copied(d, K.FragmentSize, Plain(Fragment));
    TimesAppend(ds4, Copied(d, K.FragmentSize, Plain(Fragment)), Spell(kw), args);
    var ds6 := ds5 + Copied(d, K.Port, Plain(Port));
    TimesAppend(ds5, Copied(d, K.Port, Plain(Port)), Spell(kw), args);
    var ds7 := ds6 + Copied(d, K.Ping, Plain(Ping));
    TimesAppend(ds6, Copied(d, K.Ping, Plain(Ping)), Spell(kw), args);
    var ds8 := ds7 + Copied(d, K.PingExit, Plain(PingExit));
    TimesAppend(ds7, Copied(d, K.PingExit, Plain(PingExit)), Spell(kw), args);
    var ds9 := ds8 + Copied(d, K.PingRestart, Plain(PingRestart));
    TimesAppend(ds8, Copied(d, K.PingRestart, Plain(PingRestart)), Spell(kw), args);
  }

  function Clamp(side: Side, d: K.NmData): Directives {
    if side == ConnectSide then ConnectMssfix(d) else ExportMssfix(d)
  }

  lemma MssfixTimes(side: Side, d: K.NmData, kw: Kw, args: seq<string>)
    ensures Times(Clamp(side, d), Spell(kw), args) == Once(MssfixSaid(side, d, kw), args)
  {
    hide Spell, ParseI64, ShowInt;
    OneTime(Carrier(Mssfix), [], kw, args);
    if K.HasValue(d, K.Mssfix) {
      OneTime(Carrier(Mssfix), [d[K.Mssfix]], kw, args);
      match ParseI64(d[K.Mssfix]) {
        case Some(n) => OneTime(Carrier(Mssfix), [ShowInt(n)], kw, args);
        case None =>
      }
    }
  }

  lemma FileTimes(v: Option<string>, kw0: Kw, kw: Kw, args: seq<string>)
    ensures Times(OptionalFile(v, kw0), Spell(kw), args) ==
      if kw == kw0 && v.Some? then Once(Some([v.value]), args) else 0
  {
    hide Spell;
    match v {
      case Some(path) => OneTime(kw0, [path], kw, args);
      case None =>
    }
  }

  function Pki(side: Side, d: K.NmData): Directives { if side == ConnectSide then ConnectPki(d) else ExportPki(d) }

  lemma FilesAre(d: K.NmData)
    ensures CaOf(d) == if TlsType(d) && Set(d, K.Ca) then Some(d[K.Ca]) else None
    ensures CertOf(d) == if OfType(d, {"tls", "password-tls"}) && Set(d, K.Cert) then Some(d[K.Cert]) else None
    ensures KeyOf(d) == if OfType(d, {"tls", "password-tls"}) && Set(d, K.Key) then Some(d[K.Key]) else None
  {
    hide K.TlsLike, K.NeedsUserCert, OfType, TlsType;
    TypesAreTypes(d);
  }

  lemma BundledIs(d: K.NmData)
    ensures CollapsesOnConnect(d) <==> Bundled(ConnectSide, d)
    ensures CollapsesOnExport(d) <==> Bundled(ExportSide, d)
  {
    hide IsPkcs12Path, CaOf, CertOf, KeyOf;
    FilesAre(d);
  }

  lemma PkiTimes(side: Side, d: K.NmData, kw: Kw, args: seq<string>)
    ensures Times(Pki(side, d), Spell(kw), args) == Once(PkiSaid(side, d, kw), args)
  {
    hide Spell, IsPkcs12Path, CaOf, CertOf, KeyOf, OptionalFile, CollapsesOnConnect, CollapsesOnExport, OfType;
    FilesAre(d);
    BundledIs(d);
    if Bundled(side, d) {
      OneTime(Trust(Pkcs12), [d[K.Cert]], kw, args);
    }
    FileTimes(CaOf(d), Trust(Ca), kw, args);
    FileTimes(CertOf(d), Trust(Cert), kw, args);
    FileTimes(KeyOf(d), Trust(Key), kw, args);
  }

  // ----- Gateways and routes are somebody else's words -----

  predicate SpellsRoute(kw: Kw) {
    || kw == Carrier(Route) || kw == Quiet(RouteIpv6) || kw == Quiet(RouteGateway) || kw == Quiet(RouteMetric)
    || kw == Quiet(RouteDelay)
  }

  lemma {:induction false} RemoteTimes(rs: seq<Remotes.Remote>, kw: Kw, args: seq<string>)
    ensures kw != Carrier(CarrierKw.Remote) ==> Times(RemoteDirectives(rs), Spell(kw), args) == 0
    decreases |rs|
  {
    hide Spell, Times, RemoteArgs;
    TimesNone(Spell(kw), args);
    if rs != [] {
      OneTime(Carrier(CarrierKw.Remote), RemoteArgs(rs[0]), kw, args);
      RemoteTimes(rs[1..], kw, args);
      TimesAppend([RemoteDirective(rs[0])], RemoteDirectives(rs[1..]), Spell(kw), args);
    }
  }

  lemma PlainIsNoRoute(k: PlainKw, f: FlagKw)
    ensures !BeginsRo(SpellPlain(k)) && !BeginsRo(SpellFlag(f))
  {}

  lemma TrustIsNoRoute(k: TrustKw)
    ensures !BeginsRo(SpellTrust(k))
  {}

  lemma CarrierIsNoRoute(k: CarrierKw)
    ensures BeginsRo(SpellCarrier(k)) ==> k == Route
  {}

  lemma QuietIsNoRoute(k: QuietKw)
    ensures BeginsRo(SpellQuiet(k)) ==> k in {RouteIpv6, RouteGateway, RouteMetric, RouteDelay}
  {}

  lemma RouteNames(kw: Kw)
    ensures BeginsRo(Spell(kw)) ==> SpellsRoute(kw)
  {
    hide SpellPlain, SpellFlag, SpellTrust, SpellCarrier, SpellQuiet;
    match kw {
      case Plain(k) => PlainIsNoRoute(k, Float);
      case Flag(f) => PlainIsNoRoute(Dev, f);
      case Carrier(k) => CarrierIsNoRoute(k);
      case Trust(k) => TrustIsNoRoute(k);
      case Quiet(k) => QuietIsNoRoute(k);
    }
  }

  lemma LineTimes(raw: string, kw: Kw, args: seq<string>)
    requires Trim(raw) != "" && IsSafeRouteLine(Trim(raw)) && !SpellsRoute(kw)
    ensures Times(LineDirective(Trim(raw)), Spell(kw), args) == 0
  {
    hide Trim, Keyword, Fields, Tokens, Spell, IsSafeRouteLine, BeginsRo, IsWhite;
    var line := Trim(raw);
    SafeLineTokens(line);
    TrimmedStart(raw);
    SafeLineBeginsRo(line);
    RouteNames(kw);
  }

  lemma {:induction false} RouteTimes(ls: seq<string>, kw: Kw, args: seq<string>)
    requires !SpellsRoute(kw)
    ensures Times(LineDirectives(SafeLines(ls)), Spell(kw), args) == 0
    decreases |ls|
  {
    hide Spell, Times, Trim, IsSafeRouteLine, LineDirective;
    TimesNone(Spell(kw), args);
    if ls != [] {
      RouteTimes(ls[1..], kw, args);
      var line := Trim(ls[0]);
      if line != "" && IsSafeRouteLine(line) {
        var more := SafeLines(ls[1..]);
        LineTimes(ls[0], kw, args);
        assert ([line] + more)[1..] == more;
        TimesAppend(LineDirective(line), LineDirectives(more), Spell(kw), args);
      }
    }
  }

  lemma RouteSegmentTimes(d: K.NmData, kw: Kw, args: seq<string>)
    requires !SpellsRoute(kw)
    ensures Times(RouteSegment(d), Spell(kw), args) == 0
  {
    hide Spell, Times, SafeLines, LineDirectives;
    if K.HasValue(d, K.ExtraRoutes) {
      RouteTimes(Lines(d[K.ExtraRoutes]), kw, args);
    } else {
      TimesNone(Spell(kw), args);
      NoLines();
    }
  }

  lemma NoLines()
    ensures LineDirectives([]) == []
  {}

  lemma RemoteSegmentTimes(d: K.NmData, kw: Kw, args: seq<string>)
    requires kw != Carrier(CarrierKw.Remote)
    ensures Times(RemoteSegment(d), Spell(kw), args) == 0
  {
    hide Spell, Times, Decode, RemoteDirectives;
    TimesNone(Spell(kw), args);
    if K.HasValue(d, K.Remote) {
      RemoteTimes(Decode(d[K.Remote]), kw, args);
    }
  }

  // ---------- The whole text ----------

  lemma HeadTimes(d: K.NmData, kw: Kw, args: seq<string>)
    ensures Times(CommonHead(d), Spell(kw), args) ==
      Once(HeadSaid(d, kw), args) + Times(RemoteSegment(d), Spell(kw), args)
  {
    hide Spell, Times, FlagIf, RemoteSegment, SwitchSegment, SecretSegment, K.TlsLike, K.PasswordLike, TlsType, OfType;
    TypesAreTypes(d);
    FlagTimes(K.TlsLike(d), Quiet(Client), kw, args);
    SwitchTimes(d, kw, args);
    FlagTimes(K.PasswordLike(d), Trust(AuthUserPass), kw, args);
    SecretTimes(d, kw, args);
    var ds0 := FlagIf(K.TlsLike(d), Quiet(Client));
    var ds1 := ds0 + RemoteSegment(d);
    TimesAppend(ds0, RemoteSegment(d), Spell(kw), args);
    var ds2 := ds1 + SwitchSegment(d);
    TimesAppend(ds1, SwitchSegment(d), Spell(kw), args);
    var ds3 := ds2 + FlagIf(K.PasswordLike(d), Trust(AuthUserPass));
    TimesAppend(ds2, FlagIf(K.PasswordLike(d), Trust(AuthUserPass)), Spell(kw), args);
    TimesAppend(ds3, SecretSegment(d), Spell(kw), args);
  }

  function CommonTimes(d: K.NmData, kw: Kw, args: seq<string>): nat {
    Once(HeadSaid(d, kw), args) + Once(TextSaid(d, kw), args) + Once(ShapeSaid(d, kw), args)
    + Once(TlsSaid(d, kw), args) + Once(EndSaid(d, kw), args) + Once(TailSaid(kw), args)
  }

  lemma ShapeTimes(d: K.NmData, kw: Kw, args: seq<string>)
    ensures Times(CompressionSegment(d), Spell(kw), args)
            + Times(FlagIf(K.IsYes(d, K.Float), Flag(Float)), Spell(kw), args)
            + Times(AddressSegment(d), Spell(kw), args) + Times(CrlIfTls(d), Spell(kw), args)
            == Once(ShapeSaid(d, kw), args)
  {
    hide Spell, Times, CompressionSegment, FlagIf, AddressSegment, CrlIfTls;
    CompressionTimes(d, kw, args);
    FloatTimes(d, kw, args);
    AddressTimes(d, kw, args);
    CrlTimes(d, kw, args);
  }

  lemma EndTimes(d: K.NmData, kw: Kw, args: seq<string>)
    ensures Times(DevSegment(d), Spell(kw), args) + Times(ProtoSegment(d), Spell(kw), args)
            + Times(ProxySegment(d), Spell(kw), args) == Once(EndSaid(d, kw), args)
  {
    hide Spell, Times, DevSegment, ProtoSegment, ProxySegment;
    DeviceTimes(d, kw, args);
    ProtoTimes(d, kw, args);
    ProxyTimes(d, kw, args);
  }

  lemma SharedTimes(d: K.NmData, kw: Kw, args: seq<string>)
    ensures Times(Common(d), Spell(kw), args) ==
      CommonTimes(d, kw, args) + Times(RemoteSegment(d), Spell(kw), args) + Times(RouteSegment(d), Spell(kw), args)
  {
    hide Spell, Times, CommonHead, Texts, CompressionSegment, FlagIf, AddressSegment, RouteSegment, RemoteSegment,
         CrlIfTls, ConnectTls, DevSegment, ProtoSegment, ProxySegment, TailSegment, HeadSaid, TextSaid, ShapeSaid,
         TlsSaid, EndSaid, TailSaid, Once;
    HeadTimes(d, kw, args);
    TextTimes(d, kw, args);
    ShapeTimes(d, kw, args);
    TlsTimes(d, kw, args);
    EndTimes(d, kw, args);
    TailTimes(kw, args);
    var ds0 := CommonHead(d);
    var ds1 := ds0 + Texts(d);
    TimesAppend(ds0, Texts(d), Spell(kw), args);
    var ds2 := ds1 + CompressionSegment(d);
    TimesAppend(ds1, CompressionSegment(d), Spell(kw), args);
    var ds3 := ds2 + FlagIf(K.IsYes(d, K.Float), Flag(Float));
    TimesAppend(ds2, FlagIf(K.IsYes(d, K.Float), Flag(Float)), Spell(kw), args);
    var ds4 := ds3 + AddressSegment(d);
    TimesAppend(ds3, AddressSegment(d), Spell(kw), args);
    var ds5 := ds4 + RouteSegment(d);
    TimesAppend(ds4, RouteSegment(d), Spell(kw), args);
    var ds6 := ds5 + CrlIfTls(d);
    TimesAppend(ds5, CrlIfTls(d), Spell(kw), args);
    var ds7 := ds6 + ConnectTls(d);
    TimesAppend(ds6, ConnectTls(d), Spell(kw), args);
    var ds8 := ds7 + DevSegment(d);
    TimesAppend(ds7, DevSegment(d), Spell(kw), args);
    var ds9 := ds8 + ProtoSegment(d);
    TimesAppend(ds8, ProtoSegment(d), Spell(kw), args);
    var ds10 := ds9 + ProxySegment(d);
    TimesAppend(ds9, ProxySegment(d), Spell(kw), args);
    var ds11 := ds10 + TailSegment();
    TimesAppend(ds10, TailSegment(), Spell(kw), args);
  }

  lemma BagTimes(ds: Directives, a: Directives, b: Directives, c: Directives, e: Directives,
                 name: string, args: seq<string>)
    requires multiset(ds) == multiset(a) + multiset(b) + multiset(c) + multiset(e)
    ensures Times(ds, name, args) == Times(a, name, args) + Times(b, name, args) + Times(c, name, args)
                                     + Times(e, name, args)
  {}

  lemma ToldIs(side: Side, d: K.NmData)
    ensures Told(side, d) == if side == ConnectSide then ConnectDirectives(d) else FromNmData(d)
  {
    hide ConnectText, ConnectDirectives, FromNmData, ReadText, Print;
    TextSaysDirectives(d);
    ExportIsRead(d);
  }

  /** What a side says of an option: at most one group speaks of it. */
  function Want(side: Side, d: K.NmData, kw: Kw): Option<seq<string>> {
    if HeadSaid(d, kw).Some? then HeadSaid(d, kw)
    else if TextSaid(d, kw).Some? then TextSaid(d, kw)
    else if ShapeSaid(d, kw).Some? then ShapeSaid(d, kw)
    else if TlsSaid(d, kw).Some? then TlsSaid(d, kw)
    else if EndSaid(d, kw).Some? then EndSaid(d, kw)
    else if TailSaid(kw).Some? then TailSaid(kw)
    else if PkiSaid(side, d, kw).Some? then PkiSaid(side, d, kw)
    else if NumberSaid(side, d, kw).Some? then NumberSaid(side, d, kw)
    else MssfixSaid(side, d, kw)
  }

  lemma ToldTimes(side: Side, d: K.NmData, kw: Kw, args: seq<string>)
    ensures Times(Told(side, d), Spell(kw), args) ==
      CommonTimes(d, kw, args) + Once(PkiSaid(side, d, kw), args) + Once(NumberSaid(side, d, kw), args)
      + Once(MssfixSaid(side, d, kw), args)
      + Times(RemoteSegment(d), Spell(kw), args) + Times(RouteSegment(d), Spell(kw), args)
  {
    hide RemoteSegment, RouteSegment, Spell, Times, Told, Common, CommonTimes, ConnectDirectives, FromNmData,
         ConnectPki, ExportPki, GoodNumbers, AllNumbers, ConnectMssfix, ExportMssfix, PkiSaid, NumberSaid, MssfixSaid,
         Once;
    ToldIs(side, d);
    SharedTimes(d, kw, args);
    PkiTimes(side, d, kw, args);
    MssfixTimes(side, d, kw, args);
    if side == ConnectSide {
      ConnectShuffle(d);
      GoodNumberTimes(d, kw, args);
      BagTimes(ConnectDirectives(d), Common(d), ConnectPki(d), GoodNumbers(d), ConnectMssfix(d), Spell(kw), args);
    } else {
      ExportShuffle(d);
      AllNumberTimes(d, kw, args);
      BagTimes(FromNmData(d), Common(d), ExportPki(d), AllNumbers(d), ExportMssfix(d), Spell(kw), args);
    }
  }

  lemma OneGroupSpeaks(side: Side, d: K.NmData, kw: Kw)
    ensures HeadSaid(d, kw).Some? ==> TextSaid(d, kw).None? && ShapeSaid(d, kw).None? && TlsSaid(d, kw).None?
                                      && EndSaid(d, kw).None? && TailSaid(kw).None? && PkiSaid(side, d, kw).None?
                                      && NumberSaid(side, d, kw).None? && MssfixSaid(side, d, kw).None?
    ensures TextSaid(d, kw).Some? || ShapeSaid(d, kw).Some? || TlsSaid(d, kw).Some? ==>
      EndSaid(d, kw).None? && TailSaid(kw).None? && PkiSaid(side, d, kw).None? && NumberSaid(side, d, kw).None?
      && MssfixSaid(side, d, kw).None?
    ensures TextSaid(d, kw).Some? ==> ShapeSaid(d, kw).None? && TlsSaid(d, kw).None?
    ensures ShapeSaid(d, kw).Some? ==> TlsSaid(d, kw).None?
    ensures EndSaid(d, kw).Some? || TailSaid(kw).Some? ==>
      PkiSaid(side, d, kw).None? && NumberSaid(side, d, kw).None? && MssfixSaid(side, d, kw).None?
    ensures EndSaid(d, kw).Some? ==> TailSaid(kw).None?
    ensures PkiSaid(side, d, kw).Some? ==> NumberSaid(side, d, kw).None? && MssfixSaid(side, d, kw).None?
    ensures NumberSaid(side, d, kw).Some? ==> MssfixSaid(side, d, kw).None?
  {
    hide Value, When, TlsType, OfType, Set, Is, Bundled, Number, RetryOf, ProxyOf, X509Args, ParseI64, ShowInt,
         DeviceOf;
  }

  /** Each option stands in the text once, with the arguments its group gives, or not at all. */
  lemma EachOptionOnce(side: Side, d: K.NmData, kw: Kw)
    requires kw != Carrier(CarrierKw.Remote) && !SpellsRoute(kw)
    ensures Says(Told(side, d), Spell(kw), Want(side, d, kw))
  {
    forall args ensures Times(Told(side, d), Spell(kw), args) == Once(Want(side, d, kw), args) {
      hide Spell, Times, Told, HeadSaid, TextSaid, ShapeSaid, TlsSaid, EndSaid, TailSaid, PkiSaid, NumberSaid,
           MssfixSaid;
      ToldTimes(side, d, kw, args);
      RemoteSegmentTimes(d, kw, args);
      RouteSegmentTimes(d, kw, args);
      OneGroupSpeaks(side, d, kw);
    }
  }

  // ---------- By name ----------

  /** One device is always said: the one that is set, else its type, else tap or tun; and one protocol. */
  lemma DeviceSaid(side: Side, d: K.NmData)
    ensures var ds := Told(side, d);
      && Says(ds, "dev",
              Some([if Set(d, K.Dev) then d[K.Dev] else if Set(d, K.DevType) then d[K.DevType]
              else if Is(d, K.TapDev, "yes") then "tap" else "tun"]))
      && Says(ds, "dev-type", Value(d, K.DevType))
      && Says(ds, "proto", Some([if Is(d, K.ProtoTcp, "yes") then "tcp" else "udp"]))
  {
    hide Says, Told;
    EachOptionOnce(side, d, Plain(Dev));
    EachOptionOnce(side, d, Plain(DevType));
    EachOptionOnce(side, d, Carrier(Proto));
  }

  /** A proxy of either kind, with its usual port when none is set, and its retry flag. */
  lemma ProxySaid(side: Side, d: K.NmData)
    ensures var ds := Told(side, d);
      && Says(ds, "http-proxy",
              if Is(d, K.ProxyType, "http") && Set(d, K.ProxyServer)
              then Some([d[K.ProxyServer], if Set(d, K.ProxyPort) then d[K.ProxyPort] else "8080"])
              else None)
      && Says(ds, "socks-proxy",
              if Is(d, K.ProxyType, "socks") && Set(d, K.ProxyServer)
              then Some([d[K.ProxyServer], if Set(d, K.ProxyPort) then d[K.ProxyPort] else "1080"])
              else None)
      && Says(ds, "http-proxy-retry",
              When(Is(d, K.ProxyType, "http") && Set(d, K.ProxyServer) && Is(d, K.ProxyRetry, "yes"), []))
      && Says(ds, "socks-proxy-retry",
              When(Is(d, K.ProxyType, "socks") && Set(d, K.ProxyServer) && Is(d, K.ProxyRetry, "yes"), []))
  {
    hide Says, Told;
    EachOptionOnce(side, d, Carrier(HttpProxy));
    EachOptionOnce(side, d, Carrier(SocksProxy));
    EachOptionOnce(side, d, Quiet(HttpProxyRetry));
    EachOptionOnce(side, d, Quiet(SocksProxyRetry));
  }

  /** What stands in every text, whatever the dictionary holds. */
  lemma TailSaidAlways(side: Side, d: K.NmData)
    ensures var ds := Told(side, d);
      && Says(ds, "nobind", Some([]))
      && Says(ds, "auth-nocache", Some([]))
      && Says(ds, "script-security", Some(["2"]))
  {
    hide Says, Told;
    EachOptionOnce(side, d, Quiet(Nobind));
    EachOptionOnce(side, d, Quiet(AuthNocache));
    EachOptionOnce(side, d, Quiet(ScriptSecurity));
  }

  /** Likewise: what is kept over a restart, and the account openvpn runs under. */
  lemma AccountSaidAlways(side: Side, d: K.NmData)
    ensures var ds := Told(side, d);
      && Says(ds, "persist-key", Some([]))
      && Says(ds, "persist-tun", Some([]))
      && Says(ds, "user", Some(["nm-openvpn3"]))
      && Says(ds, "group", Some(["nm-openvpn3"]))
  {
    hide Says, Told;
    EachOptionOnce(side, d, Quiet(PersistKey));
    EachOptionOnce(side, d, Quiet(PersistTun));
    EachOptionOnce(side, d, Quiet(User));
    EachOptionOnce(side, d, Quiet(Group));
  }

  /** What follows from the connection type alone. */
  lemma TypeSaid(side: Side, d: K.NmData)
    ensures var ds := Told(side, d);
      && Says(ds, "client", When(OfType(d, {"tls", "password", "password-tls"}), []))
      && Says(ds, "auth-user-pass", When(OfType(d, {"password", "password-tls"}), []))
  {
    hide Says, Told;
    EachOptionOnce(side, d, Quiet(Client));
    EachOptionOnce(side, d, Trust(AuthUserPass));
  }

  /** The switches about gateways. */
  lemma GatewaySwitchesSaid(side: Side, d: K.NmData)
    ensures var ds := Told(side, d);
      && Says(ds, "remote-random", When(Is(d, K.RemoteRandom, "yes"), []))
      && Says(ds, "remote-random-hostname", When(Is(d, K.RemoteRandomHostname, "yes"), []))
      && Says(ds, "allow-pull-fqdn", When(Is(d, K.AllowPullFqdn, "yes"), []))
  {
    hide Says, Told;
    EachOptionOnce(side, d, Flag(RemoteRandom));
    EachOptionOnce(side, d, Flag(RemoteRandomHostname));
    EachOptionOnce(side, d, Flag(AllowPullFqdn));
  }

  /** The other switches. */
  lemma LinkSwitchesSaid(side: Side, d: K.NmData)
    ensures var ds := Told(side, d);
      && Says(ds, "tun-ipv6", When(Is(d, K.TunIpv6, "yes"), []))
      && Says(ds, "push-peer-info", When(Is(d, K.PushPeerInfo, "yes"), []))
      && Says(ds, "float", When(Is(d, K.Float, "yes"), []))
  {
    hide Says, Told;
    EachOptionOnce(side, d, Flag(TunIpv6));
    EachOptionOnce(side, d, Flag(PushPeerInfo));
    EachOptionOnce(side, d, Flag(Float));
  }

  /** The values that are copied as they stand. */
  lemma CiphersSaid(side: Side, d: K.NmData)
    ensures var ds := Told(side, d);
      && Says(ds, "cipher", Value(d, K.Cipher))
      && Says(ds, "data-ciphers", Value(d, K.DataCiphers))
      && Says(ds, "data-ciphers-fallback", Value(d, K.DataCiphersFallback))
  {
    hide Says, Told;
    EachOptionOnce(side, d, Plain(Cipher));
    EachOptionOnce(side, d, Plain(DataCiphers));
    EachOptionOnce(side, d, Plain(DataCiphersFallback));
  }

  /** And the others of that kind. */
  lemma DigestsSaid(side: Side, d: K.NmData)
    ensures var ds := Told(side, d);
      && Says(ds, "tls-cipher", Value(d, K.TlsCipher))
      && Says(ds, "auth", Value(d, K.Auth))
      && Says(ds, "allow-compression", Value(d, K.AllowCompression))
      && Says(ds, "mtu-disc", Value(d, K.MtuDisc))
  {
    hide Says, Told;
    EachOptionOnce(side, d, Plain(TlsCipher));
    EachOptionOnce(side, d, Plain(Auth));
    EachOptionOnce(side, d, Plain(AllowCompression));
    EachOptionOnce(side, d, Quiet(MtuDisc));
  }

  /** Compression, unless it is ruled out, and the two addresses of a static-key link. */
  lemma LinkSaid(side: Side, d: K.NmData)
    ensures var ds := Told(side, d);
      && Says(ds, "comp-lzo",
              if Is(d, K.AllowCompression, "no") || !Set(d, K.CompLzo) then None
              else Some([if d[K.CompLzo] == "no-by-default" then "no" else d[K.CompLzo]]))
      && Says(ds, "compress",
              if Is(d, K.AllowCompression, "no") || !Set(d, K.Compress) then None
              else Some(if d[K.Compress] == "yes" then [] else [d[K.Compress]]))
      && Says(ds, "ifconfig",
              if Set(d, K.LocalIp) && Set(d, K.RemoteIp) then Some([d[K.LocalIp], d[K.RemoteIp]])
              else None)
  {
    hide Says, Told;
    EachOptionOnce(side, d, Carrier(CompLzo));
    EachOptionOnce(side, d, Carrier(Compress));
    EachOptionOnce(side, d, Carrier(Ifconfig));
  }

  /** The numbers: Save-As copies what is set, the connect side only what reads as a number. */
  lemma NumbersSaid(side: Side, d: K.NmData)
    ensures var ds := Told(side, d);
      && Says(ds, "reneg-sec", Number(side, d, K.RenegSeconds))
      && Says(ds, "max-routes", Number(side, d, K.MaxRoutes))
      && Says(ds, "keysize", Number(side, d, K.Keysize))
      && Says(ds, "tun-mtu", Number(side, d, K.TunnelMtu))
  {
    hide Says, Told;
    EachOptionOnce(side, d, Plain(RenegSec));
    EachOptionOnce(side, d, Quiet(MaxRoutes));
    EachOptionOnce(side, d, Plain(Keysize));
    EachOptionOnce(side, d, Plain(TunMtu));
  }

  /** Likewise for the transport. */
  lemma TransportNumbersSaid(side: Side, d: K.NmData)
    ensures var ds := Told(side, d);
      && Says(ds, "connect-timeout", Number(side, d, K.ConnectTimeout))
      && Says(ds, "fragment", Number(side, d, K.FragmentSize))
      && Says(ds, "port", Number(side, d, K.Port))
  {
    hide Says, Told;
    EachOptionOnce(side, d, Plain(ConnectTimeout));
    EachOptionOnce(side, d, Plain(Fragment));
    EachOptionOnce(side, d, Plain(Port));
  }

  /** Likewise for the pings. */
  lemma PingsSaid(side: Side, d: K.NmData)
    ensures var ds := Told(side, d);
      && Says(ds, "ping", Number(side, d, K.Ping))
      && Says(ds, "ping-exit", Number(side, d, K.PingExit))
      && Says(ds, "ping-restart", Number(side, d, K.PingRestart))
  {
    hide Says, Told;
    EachOptionOnce(side, d, Plain(Ping));
    EachOptionOnce(side, d, Plain(PingExit));
    EachOptionOnce(side, d, Plain(PingRestart));
  }

  /** The clamp: a bare flag for yes; otherwise the value, which the connect side reads and prints again. */
  lemma ClampSaid(side: Side, d: K.NmData)
    ensures var ds := Told(side, d);
      && Says(ds, "mssfix",
              if !Set(d, K.Mssfix) then None
              else if d[K.Mssfix] == "yes" then Some([])
              else if side == ExportSide then Some([d[K.Mssfix]])
              else if ParseI64(d[K.Mssfix]).Some? then Some([ShowInt(ParseI64(d[K.Mssfix]).value)])
              else None)
  {
    hide Says, Told;
    EachOptionOnce(side, d, Carrier(Mssfix));
  }

  /** Certificates and keys by connection type, apart or in one bundle. */
  lemma KeyMaterialSaid(side: Side, d: K.NmData)
    ensures var ds := Told(side, d);
      && Says(ds, "pkcs12", if Bundled(side, d) then Some([d[K.Cert]]) else None)
      && Says(ds, "ca", if Bundled(side, d) || !TlsType(d) then None else Value(d, K.Ca))
      && Says(ds, "cert", if Bundled(side, d) || !OfType(d, {"tls", "password-tls"}) then None else Value(d, K.Cert))
      && Says(ds, "key", if Bundled(side, d) || !OfType(d, {"tls", "password-tls"}) then None else Value(d, K.Key))
  {
    hide Says, Told;
    EachOptionOnce(side, d, Trust(Pkcs12));
    EachOptionOnce(side, d, Trust(Ca));
    EachOptionOnce(side, d, Trust(Cert));
    EachOptionOnce(side, d, Trust(Key));
  }

  /** The static key, with its direction behind it. */
  lemma StaticKeySaid(side: Side, d: K.NmData)
    ensures var ds := Told(side, d);
      && Says(ds, "secret",
              if !OfType(d, {"static-key"}) || !Set(d, K.StaticKey) then None
              else if Set(d, K.StaticKeyDirection) then Some([d[K.StaticKey], d[K.StaticKeyDirection]])
              else Some([d[K.StaticKey]]))
  {
    hide Says, Told;
    EachOptionOnce(side, d, Trust(Secret));
  }

  /** What is asked of the peer, with a TLS type only. */
  lemma PeerSaid(side: Side, d: K.NmData)
    ensures var ds := Told(side, d);
      && Says(ds, "remote-cert-tls", if TlsType(d) then Value(d, K.RemoteCertTls) else None)
      && Says(ds, "ns-cert-type", if TlsType(d) then Value(d, K.NsCertType) else None)
      && Says(ds, "tls-remote", if TlsType(d) then Value(d, K.TlsRemote) else None)
  {
    hide Says, Told;
    EachOptionOnce(side, d, Plain(RemoteCertTls));
    EachOptionOnce(side, d, Plain(NsCertType));
    EachOptionOnce(side, d, Plain(TlsRemote));
  }

  /** The control channel, with a TLS type only. */
  lemma ChannelSaid(side: Side, d: K.NmData)
    ensures var ds := Told(side, d);
      && Says(ds, "tls-crypt", if TlsType(d) then Value(d, K.TlsCrypt) else None)
      && Says(ds, "tls-crypt-v2", if TlsType(d) then Value(d, K.TlsCryptV2) else None)
      && Says(ds, "extra-certs", if TlsType(d) then Value(d, K.ExtraCerts) else None)
  {
    hide Says, Told;
    EachOptionOnce(side, d, Plain(TlsCrypt));
    EachOptionOnce(side, d, Plain(TlsCryptV2));
    EachOptionOnce(side, d, Plain(ExtraCerts));
  }

  /** The control channel key, with its direction behind it. */
  lemma TlsAuthSaid(side: Side, d: K.NmData)
    ensures var ds := Told(side, d);
      && Says(ds, "tls-auth",
              if !TlsType(d) || !Set(d, K.Ta) then None
              else if Set(d, K.TaDir) then Some([d[K.Ta], d[K.TaDir]]) else Some([d[K.Ta]]))
  {
    hide Says, Told;
    EachOptionOnce(side, d, Trust(TlsAuth));
  }

  /** Versions, the name to verify and revocation, with a TLS type only. */
  lemma VersionsSaid(side: Side, d: K.NmData)
    ensures var ds := Told(side, d);
      && Says(ds, "tls-version-max", if TlsType(d) then Value(d, K.TlsVersionMax) else None)
      && Says(ds, "verify-x509-name",
              if TlsType(d) && Set(d, K.VerifyX509Name) then Some(X509Args(d[K.VerifyX509Name])) else None)
      && Says(ds, "tls-version-min",
              if !TlsType(d) || !Set(d, K.TlsVersionMin) then None
              else if Is(d, K.TlsVersionMinOrHighest, "yes") then Some([d[K.TlsVersionMin], "or-highest"])
              else Some([d[K.TlsVersionMin]]))
      && Says(ds, "crl-verify",
              if !TlsType(d) then None
              else if Set(d, K.CrlVerifyFile) then Some([d[K.CrlVerifyFile]])
              else if Set(d, K.CrlVerifyDir) then Some([d[K.CrlVerifyDir], "dir"]) else None)
  {
    hide Says, Told;
    EachOptionOnce(side, d, Plain(TlsVersionMax));
    EachOptionOnce(side, d, Trust(VerifyX509Name));
    EachOptionOnce(side, d, Trust(TlsVersionMin));
    EachOptionOnce(side, d, Trust(CrlVerify));
  }

  /** Options the importer takes and no emitter writes. */
  lemma NeverSaid(side: Side, d: K.NmData)
    ensures var ds := Told(side, d);
      && Says(ds, "server-poll-timeout", None)
      && Says(ds, "keepalive", None)
      && Says(ds, "key-direction", None)
  {
    hide Says, Told;
    EachOptionOnce(side, d, Plain(ServerPollTimeout));
    EachOptionOnce(side, d, Carrier(Keepalive));
    EachOptionOnce(side, d, Trust(KeyDirection));
  }

  /** Names the importer passes over, and no emitter writes. */
  lemma NeverSaidEither(side: Side, d: K.NmData)
    ensures var ds := Told(side, d);
      && Says(ds, "tls-client", None)
      && Says(ds, "proxy-port", None)
      && Says(ds, "static-key-direction", None)
  {
    hide Says, Told;
    EachOptionOnce(side, d, Quiet(TlsClient));
    EachOptionOnce(side, d, Quiet(ProxyPort));
    EachOptionOnce(side, d, Quiet(StaticKeyDirection));
  }

  // ---------- Gateways, in order ----------

  /** No directive of that name: none of any arguments. */
  lemma {:induction false} NoArgs(ds: Directives, name: string)
    requires forall args :: Times(ds, name, args) == 0
    ensures I.ArgsOf(ds, name) == []
    decreases |ds|
  {
    if ds != [] {
      assert ds == [ds[0]] + ds[1..];
      if ds[0].Opt? {
        assert ds[0] == Opt(ds[0].name, ds[0].args) && ds[0] in multiset(ds);
        assert Times(ds, name, ds[0].args) == 0;
      }
      forall args ensures Times(ds[1..], name, args) == 0 {
        TimesAppend([ds[0]], ds[1..], name, args);
        assert Times(ds, name, args) == 0;
      }
      NoArgs(ds[1..], name);
    }
  }

  lemma {:induction false} ArgsAppend(a: Directives, b: Directives, name: string)
    ensures I.ArgsOf(a + b, name) == I.ArgsOf(a, name) + I.ArgsOf(b, name)
    decreases |a|
  {
    if a == [] {
      assert a + b == b;
    } else {
      assert (a + b)[1..] == a[1..] + b;
      ArgsAppend(a[1..], b, name);
    }
  }

  /** The words of each entry; a protocol without a port is given the default port. */
  function GatewayWords(rs: seq<Remotes.Remote>): seq<seq<string>>
    decreases |rs|
  {
    if rs == [] then [] else [WordsOf(rs[0])] + GatewayWords(rs[1..])
  }

  function WordsOf(r: Remotes.Remote): seq<string> {
    match r.port
    case Some(port) => if r.proto.Some? then [r.host, port, r.proto.value] else [r.host, port]
    case None => if r.proto.Some? then [r.host, "1194", r.proto.value] else [r.host]
  }

  lemma WordsOfOne(r: Remotes.Remote)
    ensures RemoteArgs(r) == WordsOf(r)
  {}

  lemma {:induction false} RemotesAreGateways(rs: seq<Remotes.Remote>)
    ensures I.ArgsOf(RemoteDirectives(rs), "remote") == GatewayWords(rs)
    decreases |rs|
  {
    if rs != [] {
      RemotesAreGateways(rs[1..]);
      var rest := RemoteDirectives(rs[1..]);
      WordsOfOne(rs[0]);
      assert ([RemoteDirective(rs[0])] + rest)[1..] == rest;
    }
  }

  lemma RemoteSegmentComesEarly(side: Side, d: K.NmData)
    ensures FlagIf(K.TlsLike(d), Quiet(Client)) + RemoteSegment(d) <= Told(side, d)
  {
    hide FlagIf, RemoteSegment, SwitchSegment, SecretSegment, ConnectPki, ExportPki, K.TlsLike, K.PasswordLike, Told,
         ConnectCrypto, ConnectLink, ConnectBottom, RouteSegment, ExportLink, TlsSegment, ExportEnd;
    ToldIs(side, d);
    var start := FlagIf(K.TlsLike(d), Quiet(Client)) + RemoteSegment(d);
    if side == ConnectSide {
      assert start <= ConnectHead(d) <= ConnectTop(d) <= ConnectDirectives(d);
    } else {
      assert start <= ExportHead(d) <= FromNmData(d);
    }
  }

  lemma RestTimes(side: Side, d: K.NmData, rest: Directives, kw: Kw, args: seq<string>)
    requires kw == Carrier(CarrierKw.Remote)
    requires Told(side, d) == FlagIf(K.TlsLike(d), Quiet(Client)) + RemoteSegment(d) + rest
    ensures Times(rest, Spell(kw), args) == 0
  {
    hide Spell, Times, Told, FlagIf, RemoteSegment, RouteSegment, K.TlsLike, CommonTimes, PkiSaid, NumberSaid,
         MssfixSaid;
    var client := FlagIf(K.TlsLike(d), Quiet(Client));
    RemoteIsNoOther(side, d, args);
    ToldTimes(side, d, kw, args);
    RouteSegmentTimes(d, kw, args);
    FlagTimes(K.TlsLike(d), Quiet(Client), kw, args);
    TimesAppend(client + RemoteSegment(d), rest, Spell(kw), args);
    TimesAppend(client, RemoteSegment(d), Spell(kw), args);
  }

  lemma RestHasNoRemote(side: Side, d: K.NmData, rest: Directives)
    requires Told(side, d) == FlagIf(K.TlsLike(d), Quiet(Client)) + RemoteSegment(d) + rest
    ensures forall args :: Times(rest, "remote", args) == 0
  {
    hide Told, FlagIf, RemoteSegment, Times;
    assert Spell(Carrier(CarrierKw.Remote)) == "remote";
    forall args ensures Times(rest, "remote", args) == 0 {
      RestTimes(side, d, rest, Carrier(CarrierKw.Remote), args);
    }
  }

  lemma RemoteIsNoOther(side: Side, d: K.NmData, args: seq<string>)
    ensures var kw := Carrier(CarrierKw.Remote);
      && CommonTimes(d, kw, args) == 0
      && PkiSaid(side, d, kw).None? && NumberSaid(side, d, kw).None? && MssfixSaid(side, d, kw).None?
  {}

  /** The gateways are said in the order of the list, and no other. */
  lemma GatewaysSaid(side: Side, d: K.NmData)
    ensures I.ArgsOf(Told(side, d), "remote") ==
      if Set(d, K.Remote) then GatewayWords(Decode(d[K.Remote])) else []
  {
    hide Told, FlagIf, Decode, RemoteDirectives, GatewayWords, K.TlsLike, Times, I.ArgsOf;
    RemoteSegmentComesEarly(side, d);
    var client := FlagIf(K.TlsLike(d), Quiet(Client));
    var start := client + RemoteSegment(d);
    var rest := Told(side, d)[|start|..];
    assert Told(side, d) == start + rest;
    RestHasNoRemote(side, d, rest);
    NoArgs(rest, "remote");
    ArgsAppend(start, rest, "remote");
    ArgsAppend(client, RemoteSegment(d), "remote");
    ClientIsNoRemote(K.TlsLike(d));
    if Set(d, K.Remote) {
      RemotesAreGateways(Decode(d[K.Remote]));
    } else {
      NoneIsNone();
    }
  }

  lemma ClientIsNoRemote(on: bool)
    ensures I.ArgsOf(FlagIf(on, Quiet(Client)), "remote") == []
  {
    if on {
      assert [Flagged(Quiet(Client))][1..] == [];
    }
  }

  lemma NoneIsNone()
    ensures I.ArgsOf([], "remote") == []
  {}

  // ---------- Two helpers of the emitters ----------

  /** A name with one of three types in front is split at its first colon; anything else is one argument. */
  lemma TypedNameArgs(kind: string, name: string)
    requires kind == "subject" || kind == "name" || kind == "name-prefix"
    ensures X509Args(kind + ":" + name) == [name, kind]
  {
    var v := kind + ":" + name;
    FindAt(v, ':', |kind|);
    assert v[..|kind|] == kind && v[|kind| + 1..] == name;
  }

  lemma UntypedNameArgs(v: string)
    requires forall kind, name :: v == kind + ":" + name && Without(kind, ':') ==>
               kind != "subject" && kind != "name" && kind != "name-prefix"
    ensures X509Args(v) == [v]
  {
    var i := Find(v, ':');
    if i < |v| {
      assert v == v[..i] + ":" + v[i + 1..];
    }
  }

  /** Nothing else is said: an option the importer knows, or a preserved line of the route family. */
  lemma OnlyKnownOptions(side: Side, d: K.NmData)
    ensures forall i :: 0 <= i < |Told(side, d)| ==>
      Told(side, d)[i].Opt? && (Keyword(Told(side, d)[i].name).Some? || BeginsRo(Told(side, d)[i].name))
  {
    hide Told, ConnectDirectives, FromNmData, Keyword, BeginsRo, IsKeyDirection;
    ToldIs(side, d);
    ConnectIsProper(d);
    ExportIsProper(d);
  }

  /** A bundle is a path that ends in `.p12` or `.pfx`, in letters of either case. */
  lemma BundlePath(path: string)
    ensures IsPkcs12Path(path) <==>
      var n := |path|;
      n >= 4 && path[n - 4] == '.' && (path[n - 3] == 'p' || path[n - 3] == 'P')
      && ((path[n - 2] == '1' && path[n - 1] == '2')
          || ((path[n - 2] == 'f' || path[n - 2] == 'F') && (path[n - 1] == 'x' || path[n - 1] == 'X')))
  {
    var low := AsciiLower(path);
    var n := |path|;
    if n >= 4 {
      LowerCase(path[n - 4]);
      LowerCase(path[n - 3]);
      LowerCase(path[n - 2]);
      LowerCase(path[n - 1]);
      assert low[n - 4..] == [low[n - 4], low[n - 3], low[n - 2], low[n - 1]];
    }
  }

  lemma LowerCase(c: char)
    ensures var l := if 'A' <= c <= 'Z' then (c as int + 32) as char else c;
      && (l == '.' <==> c == '.') && (l == '1' <==> c == '1') && (l == '2' <==> c == '2')
      && (l == 'p' <==> c == 'p' || c == 'P') && (l == 'f' <==> c == 'f' || c == 'F')
      && (l == 'x' <==> c == 'x' || c == 'X')
  {}
}
