/**
  * What an import stores, said key by key: which options write a key, with
  * which of their arguments, and which of several wins.  The option names are
  * those of the `.ovpn` file, spelled out.
  */
module Imported {
  import opened Text
  import opened Names
  import opened Config
  import opened Remotes
  import opened Import
  import K = Keys

  function OnlyIf(c: bool, v: Option<string>): Option<string> { if c then v else None }

  function Yes(c: bool): Option<string> { if c then Some("yes") else None }

  function Either(v: Option<string>, w: Option<string>): Option<string> { if v.Some? then v else w }

  // ----- By key: what the option with keyword `k` and arguments `args` writes to it -----

  predicate IsLinkKey(key: K.NmKey) {
    || key == K.Dev || key == K.DevType || key == K.Port || key == K.Keysize
    || key == K.TunnelMtu || key == K.FragmentSize
  }

  function LinkWritten(k: Kw, args: seq<string>, key: K.NmKey): Option<string> {
    match key
    case Dev => OnlyIf(k == Plain(Dev), Arg(args, 0))
    case DevType => OnlyIf(k == Plain(DevType), Arg(args, 0))
    case Port => OnlyIf(k == Plain(Port), Arg(args, 0))
    case Keysize => OnlyIf(k == Plain(Keysize), Arg(args, 0))
    case TunnelMtu => OnlyIf(k == Plain(TunMtu), Arg(args, 0))
    case FragmentSize => OnlyIf(k == Plain(Fragment), Arg(args, 0))
    case _ => None
  }

  predicate IsCipherKey(key: K.NmKey) {
    || key == K.Cipher || key == K.DataCiphers || key == K.DataCiphersFallback || key == K.Auth
    || key == K.TlsCipher || key == K.AllowCompression
  }

  function CipherWritten(k: Kw, args: seq<string>, key: K.NmKey): Option<string> {
    match key
    case Cipher => OnlyIf(k == Plain(Cipher), Arg(args, 0))
    case DataCiphers => OnlyIf(k == Plain(DataCiphers), Arg(args, 0))
    case DataCiphersFallback => OnlyIf(k == Plain(DataCiphersFallback), Arg(args, 0))
    case Auth => OnlyIf(k == Plain(Auth), Arg(args, 0))
    case TlsCipher => OnlyIf(k == Plain(TlsCipher), Arg(args, 0))
    case AllowCompression => OnlyIf(k == Plain(AllowCompression), Arg(args, 0))
    case _ => None
  }

  predicate IsLivenessKey(key: K.NmKey) { key == K.Ping || key == K.PingExit || key == K.PingRestart }

  function LivenessWritten(k: Kw, args: seq<string>, key: K.NmKey): Option<string> {
    match key
    case Ping =>
      OnlyIf(k == Plain(Ping) || (k == Carrier(Keepalive) && |args| > 1), Arg(args, 0))
    case PingExit => OnlyIf(k == Plain(PingExit), Arg(args, 0))
    case PingRestart =>
      if k == Carrier(Keepalive) then Arg(args, 1) else OnlyIf(k == Plain(PingRestart), Arg(args, 0))
    case _ => None
  }

  predicate IsTimerKey(key: K.NmKey) { key == K.RenegSeconds || key == K.ConnectTimeout }

  function TimerWritten(k: Kw, args: seq<string>, key: K.NmKey): Option<string> {
    match key
    case RenegSeconds => OnlyIf(k == Plain(RenegSec), Arg(args, 0))
    case ConnectTimeout => OnlyIf(k == Plain(ConnectTimeout) || k == Plain(ServerPollTimeout), Arg(args, 0))
    case _ => None
  }

  predicate IsPeerKey(key: K.NmKey) {
    || key == K.NsCertType || key == K.RemoteCertTls || key == K.TlsRemote
    || key == K.TlsVersionMax
  }

  function PeerWritten(k: Kw, args: seq<string>, key: K.NmKey): Option<string> {
    match key
    case NsCertType => OnlyIf(k == Plain(NsCertType), Arg(args, 0))
    case RemoteCertTls => OnlyIf(k == Plain(RemoteCertTls), Arg(args, 0))
    case TlsRemote => OnlyIf(k == Plain(TlsRemote), Arg(args, 0))
    case TlsVersionMax => OnlyIf(k == Plain(TlsVersionMax), Arg(args, 0))
    case _ => None
  }

  predicate IsChannelKey(key: K.NmKey) { key == K.TlsCrypt || key == K.TlsCryptV2 || key == K.ExtraCerts }

  function ChannelWritten(k: Kw, args: seq<string>, key: K.NmKey): Option<string> {
    match key
    case TlsCrypt => OnlyIf(k == Plain(TlsCrypt), Arg(args, 0))
    case TlsCryptV2 => OnlyIf(k == Plain(TlsCryptV2), Arg(args, 0))
    case ExtraCerts => OnlyIf(k == Plain(ExtraCerts), Arg(args, 0))
    case _ => None
  }

  predicate IsSwitchKey(key: K.NmKey) {
    || key == K.Float || key == K.RemoteRandom || key == K.RemoteRandomHostname || key == K.PushPeerInfo
    || key == K.TunIpv6 || key == K.AllowPullFqdn
  }

  function SwitchWritten(k: Kw, args: seq<string>, key: K.NmKey): Option<string> {
    match key
    case Float => Yes(k == Flag(Float))
    case RemoteRandom => Yes(k == Flag(RemoteRandom))
    case RemoteRandomHostname => Yes(k == Flag(RemoteRandomHostname))
    case PushPeerInfo => Yes(k == Flag(PushPeerInfo))
    case TunIpv6 => Yes(k == Flag(TunIpv6))
    case AllowPullFqdn => Yes(k == Flag(AllowPullFqdn))
    case _ => None
  }

  predicate IsTransportKey(key: K.NmKey) {
    || key == K.ProtoTcp || key == K.Mssfix || key == K.CompLzo || key == K.Compress
    || key == K.LocalIp || key == K.RemoteIp
  }

  function TransportWritten(k: Kw, args: seq<string>, key: K.NmKey): Option<string> {
    match key
    case ProtoTcp => Yes(k == Carrier(Proto) && |args| > 0 && !("udp" <= args[0]))
    case Mssfix => OnlyIf(k == Carrier(Mssfix), Some(OrElse(Arg(args, 0), "yes")))
    case CompLzo =>
      OnlyIf(k == Carrier(CompLzo), if Arg(args, 0) == Some("no") then Some("no-by-default")
                                 else Some(OrElse(Arg(args, 0), "yes")))
    case Compress => OnlyIf(k == Carrier(Compress), Some(OrElse(Arg(args, 0), "yes")))
    case LocalIp => OnlyIf(k == Carrier(Ifconfig) && |args| > 1, Arg(args, 0))
    case RemoteIp => OnlyIf(k == Carrier(Ifconfig), Arg(args, 1))
    case _ => None
  }

  predicate IsProxyKey(key: K.NmKey) {
    || key == K.ProxyType || key == K.ProxyServer || key == K.ProxyPort
    || key == K.HttpProxyAuthFile
  }

  function ProxyWritten(k: Kw, args: seq<string>, key: K.NmKey): Option<string> {
    match key
    case ProxyType =>
      if |args| == 0 then None
      else if k == Carrier(HttpProxy) then Some("http") else OnlyIf(k == Carrier(SocksProxy), Some("socks"))
    case ProxyServer => OnlyIf(k == Carrier(HttpProxy) || k == Carrier(SocksProxy), Arg(args, 0))
    case ProxyPort => OnlyIf(k == Carrier(HttpProxy) || k == Carrier(SocksProxy), Arg(args, 1))
    case HttpProxyAuthFile => OnlyIf(k == Carrier(HttpProxy), Arg(args, 2))
    case _ => None
  }

  predicate IsFileKey(key: K.NmKey) {
    || key == K.Ca || key == K.Cert || key == K.Key || key == K.StaticKey
    || key == K.StaticKeyDirection || key == K.Ta || key == K.TaDir
  }

  function FileWritten(k: Kw, args: seq<string>, key: K.NmKey): Option<string> {
    match key
    case Ca => OnlyIf(k == Trust(Ca) || k == Trust(Pkcs12), Arg(args, 0))
    case Cert => OnlyIf(k == Trust(Cert) || k == Trust(Pkcs12), Arg(args, 0))
    case Key => OnlyIf(k == Trust(Key) || k == Trust(Pkcs12), Arg(args, 0))
    case StaticKey => OnlyIf(k == Trust(Secret), Arg(args, 0))
    case StaticKeyDirection => OnlyIf(k == Trust(Secret), Arg(args, 1))
    case Ta => OnlyIf(k == Trust(TlsAuth), Arg(args, 0))
    case TaDir => OnlyIf(k == Trust(TlsAuth), Arg(args, 1))
    case _ => None
  }

  predicate IsNameKey(key: K.NmKey) {
    || key == K.VerifyX509Name || key == K.TlsVersionMin || key == K.TlsVersionMinOrHighest
    || key == K.CrlVerifyDir || key == K.CrlVerifyFile
  }

  function NameWritten(k: Kw, args: seq<string>, key: K.NmKey): Option<string> {
    match key
    case VerifyX509Name =>
      OnlyIf(k == Trust(VerifyX509Name),
             Some(if |args| > 1 then args[1] + ":" + args[0] else if |args| > 0 then args[0] else ""))
    case TlsVersionMin => OnlyIf(k == Trust(TlsVersionMin), Arg(args, 0))
    case TlsVersionMinOrHighest => Yes(k == Trust(TlsVersionMin) && Arg(args, 1) == Some("or-highest"))
    case CrlVerifyDir => OnlyIf(k == Trust(CrlVerify) && Arg(args, 1) == Some("dir"), Arg(args, 0))
    case CrlVerifyFile => OnlyIf(k == Trust(CrlVerify) && Arg(args, 1) != Some("dir"), Arg(args, 0))
    case _ => None
  }

  /**
    * What an option writes to a key.  The gateway list, the routes and the
    * connection type are not written by one option alone.
    */
  function Written(k: Kw, args: seq<string>, key: K.NmKey): Option<string> {
    if IsLinkKey(key) then LinkWritten(k, args, key)
    else if IsCipherKey(key) then CipherWritten(k, args, key)
    else if IsLivenessKey(key) then LivenessWritten(k, args, key)
    else if IsTimerKey(key) then TimerWritten(k, args, key)
    else if IsPeerKey(key) then PeerWritten(k, args, key)
    else if IsChannelKey(key) then ChannelWritten(k, args, key)
    else if IsSwitchKey(key) then SwitchWritten(k, args, key)
    else if IsTransportKey(key) then TransportWritten(k, args, key)
    else if IsProxyKey(key) then ProxyWritten(k, args, key)
    else if IsFileKey(key) then FileWritten(k, args, key)
    else if IsNameKey(key) then NameWritten(k, args, key)
    else None
  }

  /** The same by option: what it writes, and where. */
  function WrittenBy(k: Option<Kw>, args: seq<string>, key: K.NmKey): Option<string> {
    match k
    case Some(Plain(p)) => OnlyIf(key == PlainKey(p), Arg(args, 0))
    case Some(Flag(f)) => Yes(key == FlagKey(f))
    case Some(Carrier(c)) => WrittenByCarrier(c, args, key)
    case Some(Trust(t)) => WrittenByTrust(t, args, key)
    case _ => None
  }

  function WrittenByCarrier(c: CarrierKw, args: seq<string>, key: K.NmKey): Option<string> {
    match c
    case Proto => Yes(key == K.ProtoTcp && |args| > 0 && !("udp" <= args[0]))
    case Mssfix => OnlyIf(key == K.Mssfix, Some(OrElse(Arg(args, 0), "yes")))
    case CompLzo =>
      OnlyIf(key == K.CompLzo, if Arg(args, 0) == Some("no") then Some("no-by-default")
                               else Some(OrElse(Arg(args, 0), "yes")))
    case Compress => OnlyIf(key == K.Compress, Some(OrElse(Arg(args, 0), "yes")))
    case HttpProxy =>
      if key == K.ProxyType then OnlyIf(|args| > 0, Some("http"))
      else if key == K.ProxyServer then Arg(args, 0)
      else if key == K.ProxyPort then Arg(args, 1)
      else OnlyIf(key == K.HttpProxyAuthFile, Arg(args, 2))
    case SocksProxy =>
      if key == K.ProxyType then OnlyIf(|args| > 0, Some("socks"))
      else if key == K.ProxyServer then Arg(args, 0)
      else OnlyIf(key == K.ProxyPort, Arg(args, 1))
    case Ifconfig =>
      if key == K.LocalIp then OnlyIf(|args| > 1, Arg(args, 0)) else OnlyIf(key == K.RemoteIp, Arg(args, 1))
    case Keepalive =>
      if key == K.Ping then OnlyIf(|args| > 1, Arg(args, 0)) else OnlyIf(key == K.PingRestart, Arg(args, 1))
    case _ => None
  }

  function WrittenByTrust(t: TrustKw, args: seq<string>, key: K.NmKey): Option<string> {
    match t
    case VerifyX509Name =>
      OnlyIf(key == K.VerifyX509Name,
             Some(if |args| > 1 then args[1] + ":" + args[0] else if |args| > 0 then args[0] else ""))
    case TlsVersionMin =>
      if key == K.TlsVersionMin then Arg(args, 0)
      else Yes(key == K.TlsVersionMinOrHighest && Arg(args, 1) == Some("or-highest"))
    case Ca => OnlyIf(key == K.Ca, Arg(args, 0))
    case Cert => OnlyIf(key == K.Cert, Arg(args, 0))
    case Key => OnlyIf(key == K.Key, Arg(args, 0))
    case Pkcs12 => OnlyIf(key == K.Ca || key == K.Cert || key == K.Key, Arg(args, 0))
    case Secret => if key == K.StaticKey then Arg(args, 0) else OnlyIf(key == K.StaticKeyDirection, Arg(args, 1))
    case TlsAuth => if key == K.Ta then Arg(args, 0) else OnlyIf(key == K.TaDir, Arg(args, 1))
    case CrlVerify =>
      OnlyIf(key == if Arg(args, 1) == Some("dir") then K.CrlVerifyDir else K.CrlVerifyFile, Arg(args, 0))
    case _ => None
  }

  /** Keys that one option writes by itself. */
  predicate IsSimple(key: K.NmKey) { key != K.ConnectionType && key != K.Remote && key != K.ExtraRoutes }

  lemma ShapeWrites(st: State, c: CarrierKw, args: seq<string>, key: K.NmKey)
    requires IsSimple(key) && (c == Proto || c == Mssfix || c == CompLzo || c == Compress)
    ensures Lookup(ApplyCarrier(st, c, args).data, key) == Either(WrittenByCarrier(c, args, key), Lookup(st.data, key))
  {
    hide Extend, JoinWords, AddLine, ValueOrEmpty, TypedName;
    match c {
      case Proto =>
      case Mssfix =>
      case CompLzo =>
      case Compress =>
      case _ =>
    }
  }

  lemma PutReads(st: State, k: K.NmKey, v: Option<string>, key: K.NmKey)
    ensures Lookup(st.PutIf(k, v).data, key) == Either(OnlyIf(key == k, v), Lookup(st.data, key))
    ensures v.Some? ==> st.PutIf(k, v) == st.Put(k, v.value)
  {}

  lemma HttpProxyWrites(st: State, args: seq<string>, key: K.NmKey)
    ensures Lookup(ApplyCarrier(st, HttpProxy, args).data, key) ==
            Either(WrittenByCarrier(HttpProxy, args, key), Lookup(st.data, key))
  {
    hide Lookup;
    if |args| > 0 {
      var st1 := st.Put(K.ProxyType, "http");
      var st2 := st1.Put(K.ProxyServer, args[0]);
      PutReads(st, K.ProxyType, Some("http"), key);
      PutReads(st1, K.ProxyServer, Some(args[0]), key);
      PutReads(st2, K.ProxyPort, Arg(args, 1), key);
      PutReads(st2.PutIf(K.ProxyPort, Arg(args, 1)), K.HttpProxyAuthFile, Arg(args, 2), key);
    }
  }

  lemma SocksProxyWrites(st: State, args: seq<string>, key: K.NmKey)
    ensures Lookup(ApplyCarrier(st, SocksProxy, args).data, key) ==
            Either(WrittenByCarrier(SocksProxy, args, key), Lookup(st.data, key))
  {
    hide Lookup;
    if |args| > 0 {
      var st1 := st.Put(K.ProxyType, "socks");
      var st2 := st1.Put(K.ProxyServer, args[0]);
      PutReads(st, K.ProxyType, Some("socks"), key);
      PutReads(st1, K.ProxyServer, Some(args[0]), key);
      PutReads(st2, K.ProxyPort, Arg(args, 1), key);
    }
  }

  lemma PairWrites(st: State, c: CarrierKw, args: seq<string>, key: K.NmKey)
    requires IsSimple(key) && (c == Ifconfig || c == Keepalive || c == CarrierKw.Remote || c == Route)
    ensures Lookup(ApplyCarrier(st, c, args).data, key) == Either(WrittenByCarrier(c, args, key), Lookup(st.data, key))
  {
    hide Extend, JoinWords, AddLine, ValueOrEmpty, TypedName;
    match c {
      case Ifconfig =>
      case Keepalive =>
      case Remote =>
      case Route =>
      case _ =>
    }
  }

  lemma BundleWrites(st: State, args: seq<string>, key: K.NmKey)
    ensures Lookup(ApplyTrust(st, Pkcs12, args).data, key) ==
            Either(WrittenByTrust(Pkcs12, args, key), Lookup(st.data, key))
  {
    hide Lookup;
    if |args| > 0 {
      var st1 := st.Put(K.Ca, args[0]);
      var st2 := st1.Put(K.Cert, args[0]);
      PutReads(st, K.Ca, Some(args[0]), key);
      PutReads(st1, K.Cert, Some(args[0]), key);
      PutReads(st2, K.Key, Some(args[0]), key);
    }
  }

  lemma FileWrites(st: State, t: TrustKw, args: seq<string>, key: K.NmKey)
    requires t == Ca || t == Cert || t == Key
    ensures Lookup(ApplyTrust(st, t, args).data, key) == Either(WrittenByTrust(t, args, key), Lookup(st.data, key))
  {
    hide Lookup;
    match t {
      case Ca => PutReads(st, K.Ca, Arg(args, 0), key);
      case Cert => PutReads(st, K.Cert, Arg(args, 0), key);
      case Key => PutReads(st, K.Key, Arg(args, 0), key);
      case _ =>
    }
  }

  lemma SharedKeyWrites(st: State, t: TrustKw, args: seq<string>, key: K.NmKey)
    requires t == Secret || t == TlsAuth
    ensures Lookup(ApplyTrust(st, t, args).data, key) == Either(WrittenByTrust(t, args, key), Lookup(st.data, key))
  {
    hide Lookup;
    match t {
      case Secret =>
        PutReads(st, K.StaticKey, Arg(args, 0), key);
        PutReads(st.PutIf(K.StaticKey, Arg(args, 0)), K.StaticKeyDirection, Arg(args, 1), key);
      case TlsAuth =>
        PutReads(st, K.Ta, Arg(args, 0), key);
        PutReads(st.PutIf(K.Ta, Arg(args, 0)), K.TaDir, Arg(args, 1), key);
      case _ =>
    }
  }

  lemma RevocationWrites(st: State, args: seq<string>, key: K.NmKey)
    ensures Lookup(ApplyTrust(st, CrlVerify, args).data, key) ==
            Either(WrittenByTrust(CrlVerify, args, key), Lookup(st.data, key))
  {
    hide Lookup;
    PutReads(st, CrlKey(args), Arg(args, 0), key);
  }

  lemma NameWrites(st: State, args: seq<string>, key: K.NmKey)
    ensures Lookup(ApplyTrust(st, VerifyX509Name, args).data, key) ==
            Either(WrittenByTrust(VerifyX509Name, args, key), Lookup(st.data, key))
  {
    hide Lookup;
    PutReads(st, K.VerifyX509Name, Some(TypedName(OrElse(Arg(args, 0), ""), Arg(args, 1))), key);
  }

  lemma VersionWrites(st: State, args: seq<string>, key: K.NmKey)
    ensures Lookup(ApplyTrust(st, TlsVersionMin, args).data, key) ==
            Either(WrittenByTrust(TlsVersionMin, args, key), Lookup(st.data, key))
  {
    hide Lookup;
    PutReads(st, K.TlsVersionMin, Arg(args, 0), key);
    PutReads(st.PutIf(K.TlsVersionMin, Arg(args, 0)), K.TlsVersionMinOrHighest, Some(K.YES), key);
  }

  lemma FlagWrites(st: State, t: TrustKw, args: seq<string>, key: K.NmKey)
    requires t == AuthUserPass || t == KeyDirection
    ensures Lookup(ApplyTrust(st, t, args).data, key) == Either(WrittenByTrust(t, args, key), Lookup(st.data, key))
  {
    hide Lookup;
  }

  lemma CarrierWrites(st: State, c: CarrierKw, args: seq<string>, key: K.NmKey)
    requires IsSimple(key)
    ensures Lookup(ApplyCarrier(st, c, args).data, key) == Either(WrittenByCarrier(c, args, key), Lookup(st.data, key))
  {
    hide ApplyCarrier, WrittenByCarrier;
    if c == Proto || c == Mssfix || c == CompLzo || c == Compress {
      ShapeWrites(st, c, args, key);
    } else if c == HttpProxy {
      HttpProxyWrites(st, args, key);
    } else if c == SocksProxy {
      SocksProxyWrites(st, args, key);
    } else {
      PairWrites(st, c, args, key);
    }
  }

  lemma TrustWrites(st: State, t: TrustKw, args: seq<string>, key: K.NmKey)
    requires IsSimple(key)
    ensures Lookup(ApplyTrust(st, t, args).data, key) == Either(WrittenByTrust(t, args, key), Lookup(st.data, key))
  {
    hide ApplyTrust, WrittenByTrust;
    match t {
      case AuthUserPass => FlagWrites(st, t, args, key);
      case Ca => FileWrites(st, t, args, key);
      case Cert => FileWrites(st, t, args, key);
      case Key => FileWrites(st, t, args, key);
      case Pkcs12 => BundleWrites(st, args, key);
      case Secret => SharedKeyWrites(st, t, args, key);
      case TlsAuth => SharedKeyWrites(st, t, args, key);
      case KeyDirection => FlagWrites(st, t, args, key);
      case CrlVerify => RevocationWrites(st, args, key);
      case VerifyX509Name => NameWrites(st, args, key);
      case TlsVersionMin => VersionWrites(st, args, key);
    }
  }

  lemma CopyWrites(st: State, p: PlainKw, f: FlagKw, args: seq<string>, key: K.NmKey)
    ensures Lookup(ApplyOption(st, Some(Plain(p)), args).data, key) ==
            Either(OnlyIf(key == PlainKey(p), Arg(args, 0)), Lookup(st.data, key))
    ensures Lookup(ApplyOption(st, Some(Flag(f)), args).data, key) ==
            Either(Yes(key == FlagKey(f)), Lookup(st.data, key))
  {
    hide PlainKey, FlagKey;
  }

  lemma OptionWrites(st: State, k: Option<Kw>, args: seq<string>, key: K.NmKey)
    requires IsSimple(key)
    ensures Lookup(ApplyOption(st, k, args).data, key) == Either(WrittenBy(k, args, key), Lookup(st.data, key))
  {
    hide PlainKey, FlagKey, ApplyCarrier, ApplyTrust, WrittenByCarrier, WrittenByTrust, Lookup;
    match k {
      case Some(Plain(p)) => CopyWrites(st, p, Float, args, key);
      case Some(Flag(f)) => CopyWrites(st, Dev, f, args, key);
      case Some(Carrier(c)) => CarrierWrites(st, c, args, key);
      case Some(Trust(t)) => TrustWrites(st, t, args, key);
      case _ =>
    }
  }

  lemma LinkKeys(k: Kw, args: seq<string>, key: K.NmKey)
    requires IsLinkKey(key)
    ensures LinkWritten(k, args, key) == WrittenBy(Some(k), args, key)
  {
    match key {
      case Dev =>
      case DevType =>
      case Port =>
      case Keysize =>
      case TunnelMtu =>
      case FragmentSize =>
      case _ =>
    }
  }

  lemma CipherKeys(k: Kw, args: seq<string>, key: K.NmKey)
    requires IsCipherKey(key)
    ensures CipherWritten(k, args, key) == WrittenBy(Some(k), args, key)
  {
    match key {
      case Cipher =>
      case DataCiphers =>
      case DataCiphersFallback =>
      case Auth =>
      case TlsCipher =>
      case AllowCompression =>
      case _ =>
    }
  }

  lemma LivenessKeys(k: Kw, args: seq<string>, key: K.NmKey)
    requires IsLivenessKey(key)
    ensures LivenessWritten(k, args, key) == WrittenBy(Some(k), args, key)
  {
    match key {
      case Ping =>
      case PingExit =>
      case PingRestart =>
      case _ =>
    }
  }

  lemma TimerKeys(k: Kw, args: seq<string>, key: K.NmKey)
    requires IsTimerKey(key)
    ensures TimerWritten(k, args, key) == WrittenBy(Some(k), args, key)
  {
    match key {
      case RenegSeconds =>
      case ConnectTimeout =>
      case _ =>
    }
  }

  lemma CertKeys(k: Kw, args: seq<string>, key: K.NmKey)
    requires key == K.NsCertType || key == K.RemoteCertTls
    ensures PeerWritten(k, args, key) == WrittenBy(Some(k), args, key)
  {
    match key {
      case NsCertType =>
      case RemoteCertTls =>
      case _ =>
    }
  }

  lemma NamedPeerKeys(k: Kw, args: seq<string>, key: K.NmKey)
    requires key == K.TlsRemote || key == K.TlsVersionMax
    ensures PeerWritten(k, args, key) == WrittenBy(Some(k), args, key)
  {
    match key {
      case TlsRemote =>
      case TlsVersionMax =>
      case _ =>
    }
  }

  lemma PeerKeys(k: Kw, args: seq<string>, key: K.NmKey)
    requires IsPeerKey(key)
    ensures PeerWritten(k, args, key) == WrittenBy(Some(k), args, key)
  {
    if key == K.NsCertType || key == K.RemoteCertTls {
      CertKeys(k, args, key);
    } else {
      NamedPeerKeys(k, args, key);
    }
  }

  lemma ChannelKeys(k: Kw, args: seq<string>, key: K.NmKey)
    requires IsChannelKey(key)
    ensures ChannelWritten(k, args, key) == WrittenBy(Some(k), args, key)
  {
    match key {
      case TlsCrypt =>
      case TlsCryptV2 =>
      case ExtraCerts =>
      case _ =>
    }
  }

  lemma SwitchKeys(k: Kw, args: seq<string>, key: K.NmKey)
    requires IsSwitchKey(key)
    ensures SwitchWritten(k, args, key) == WrittenBy(Some(k), args, key)
  {
    match key {
      case Float =>
      case RemoteRandom =>
      case RemoteRandomHostname =>
      case PushPeerInfo =>
      case TunIpv6 =>
      case AllowPullFqdn =>
      case _ =>
    }
  }

  lemma TransportKeys(k: Kw, args: seq<string>, key: K.NmKey)
    requires IsTransportKey(key)
    ensures TransportWritten(k, args, key) == WrittenBy(Some(k), args, key)
  {
    match key {
      case ProtoTcp =>
      case Mssfix =>
      case CompLzo =>
      case Compress =>
      case LocalIp =>
      case RemoteIp =>
      case _ =>
    }
  }

  lemma ProxyKeys(k: Kw, args: seq<string>, key: K.NmKey)
    requires IsProxyKey(key)
    ensures ProxyWritten(k, args, key) == WrittenBy(Some(k), args, key)
  {
    match key {
      case ProxyType =>
      case ProxyServer =>
      case ProxyPort =>
      case HttpProxyAuthFile =>
      case _ =>
    }
  }

  lemma FileKeys(k: Kw, args: seq<string>, key: K.NmKey)
    requires IsFileKey(key)
    ensures FileWritten(k, args, key) == WrittenBy(Some(k), args, key)
  {
    match key {
      case Ca =>
      case Cert =>
      case Key =>
      case StaticKey =>
      case StaticKeyDirection =>
      case Ta =>
      case TaDir =>
      case _ =>
    }
  }

  lemma NameKeys(k: Kw, args: seq<string>, key: K.NmKey)
    requires IsNameKey(key)
    ensures NameWritten(k, args, key) == WrittenBy(Some(k), args, key)
  {
    match key {
      case VerifyX509Name =>
      case TlsVersionMin =>
      case TlsVersionMinOrHighest =>
      case CrlVerifyDir =>
      case CrlVerifyFile =>
      case _ =>
    }
  }

  /** The keys that no option writes at all. */
  predicate IsUnwritten(key: K.NmKey) {
    && IsSimple(key)
    && !IsLinkKey(key) && !IsCipherKey(key) && !IsLivenessKey(key) && !IsTimerKey(key)
    && !IsPeerKey(key) && !IsChannelKey(key) && !IsSwitchKey(key) && !IsTransportKey(key)
    && !IsProxyKey(key) && !IsFileKey(key) && !IsNameKey(key)
  }

  lemma NobodyWrites(k: Kw, args: seq<string>, key: K.NmKey)
    requires IsUnwritten(key)
    ensures WrittenBy(Some(k), args, key) == None && Written(k, args, key) == None
  {
    hide PlainKey, FlagKey, WrittenByCarrier, WrittenByTrust;
    match k {
      case Plain(p) => CopiesAreWritten(p, Float);
      case Flag(f) => CopiesAreWritten(Dev, f);
      case Carrier(c) => CarriersAreWritten(c, args, key);
      case Trust(t) => TrustIsWritten(t, args, key);
      case Quiet(_) =>
    }
  }

  lemma CarriersAreWritten(c: CarrierKw, args: seq<string>, key: K.NmKey)
    requires IsUnwritten(key)
    ensures WrittenByCarrier(c, args, key) == None
  {}

  lemma TrustIsWritten(t: TrustKw, args: seq<string>, key: K.NmKey)
    requires IsUnwritten(key)
    ensures WrittenByTrust(t, args, key) == None
  {}

  lemma CopiesAreWritten(p: PlainKw, f: FlagKw)
    ensures !IsUnwritten(PlainKey(p)) && !IsUnwritten(FlagKey(f))
  {}

  lemma KeyWritten(k: Kw, args: seq<string>, key: K.NmKey)
    requires IsSimple(key)
    ensures WrittenBy(Some(k), args, key) == Written(k, args, key)
  {
    hide WrittenBy, IsSimple, LinkWritten, CipherWritten, LivenessWritten, TimerWritten, PeerWritten, ChannelWritten,
         SwitchWritten, TransportWritten, ProxyWritten, FileWritten, NameWritten, IsLinkKey, IsCipherKey,
         IsLivenessKey, IsTimerKey,
         IsPeerKey, IsChannelKey, IsSwitchKey, IsTransportKey, IsProxyKey, IsFileKey, IsNameKey;
    if IsLinkKey(key) {
      LinkKeys(k, args, key);
    } else if IsCipherKey(key) {
      CipherKeys(k, args, key);
    } else if IsLivenessKey(key) {
      LivenessKeys(k, args, key);
    } else if IsTimerKey(key) {
      TimerKeys(k, args, key);
    } else if IsPeerKey(key) {
      PeerKeys(k, args, key);
    } else if IsChannelKey(key) {
      ChannelKeys(k, args, key);
    } else if IsSwitchKey(key) {
      SwitchKeys(k, args, key);
    } else if IsTransportKey(key) {
      TransportKeys(k, args, key);
    } else if IsProxyKey(key) {
      ProxyKeys(k, args, key);
    } else if IsFileKey(key) {
      FileKeys(k, args, key);
    } else if IsNameKey(key) {
      NameKeys(k, args, key);
    } else {
      NobodyWrites(k, args, key);
    }
  }

  // ----- The names of the options -----

  lemma LinkNames(name: string)
    ensures name == "dev" <==> Keyword(name) == Some(Plain(Dev))
    ensures name == "dev-type" <==> Keyword(name) == Some(Plain(DevType))
    ensures name == "port" <==> Keyword(name) == Some(Plain(Port))
    ensures name == "cipher" <==> Keyword(name) == Some(Plain(Cipher))
    ensures name == "data-ciphers" <==> Keyword(name) == Some(Plain(DataCiphers))
    ensures name == "data-ciphers-fallback" <==> Keyword(name) == Some(Plain(DataCiphersFallback))
    ensures name == "auth" <==> Keyword(name) == Some(Plain(Auth))
    ensures name == "keysize" <==> Keyword(name) == Some(Plain(Keysize))
    ensures name == "tls-cipher" <==> Keyword(name) == Some(Plain(TlsCipher))
  {
    hide Keyword;
    NameIs(name, Plain(Dev));
    NameIs(name, Plain(DevType));
    NameIs(name, Plain(Port));
    NameIs(name, Plain(Cipher));
    NameIs(name, Plain(DataCiphers));
    NameIs(name, Plain(DataCiphersFallback));
    NameIs(name, Plain(Auth));
    NameIs(name, Plain(Keysize));
    NameIs(name, Plain(TlsCipher));
  }

  lemma TimerNames(name: string)
    ensures name == "tun-mtu" <==> Keyword(name) == Some(Plain(TunMtu))
    ensures name == "fragment" <==> Keyword(name) == Some(Plain(Fragment))
    ensures name == "ping" <==> Keyword(name) == Some(Plain(Ping))
    ensures name == "ping-exit" <==> Keyword(name) == Some(Plain(PingExit))
    ensures name == "ping-restart" <==> Keyword(name) == Some(Plain(PingRestart))
    ensures name == "reneg-sec" <==> Keyword(name) == Some(Plain(RenegSec))
    ensures name == "connect-timeout" <==> Keyword(name) == Some(Plain(ConnectTimeout))
    ensures name == "server-poll-timeout" <==> Keyword(name) == Some(Plain(ServerPollTimeout))
  {
    hide Keyword;
    NameIs(name, Plain(TunMtu));
    NameIs(name, Plain(Fragment));
    NameIs(name, Plain(Ping));
    NameIs(name, Plain(PingExit));
    NameIs(name, Plain(PingRestart));
    NameIs(name, Plain(RenegSec));
    NameIs(name, Plain(ConnectTimeout));
    NameIs(name, Plain(ServerPollTimeout));
  }

  lemma PeerNames(name: string)
    ensures name == "allow-compression" <==> Keyword(name) == Some(Plain(AllowCompression))
    ensures name == "ns-cert-type" <==> Keyword(name) == Some(Plain(NsCertType))
    ensures name == "remote-cert-tls" <==> Keyword(name) == Some(Plain(RemoteCertTls))
    ensures name == "tls-remote" <==> Keyword(name) == Some(Plain(TlsRemote))
    ensures name == "tls-version-max" <==> Keyword(name) == Some(Plain(TlsVersionMax))
    ensures name == "tls-crypt" <==> Keyword(name) == Some(Plain(TlsCrypt))
    ensures name == "tls-crypt-v2" <==> Keyword(name) == Some(Plain(TlsCryptV2))
    ensures name == "extra-certs" <==> Keyword(name) == Some(Plain(ExtraCerts))
  {
    hide Keyword;
    NameIs(name, Plain(AllowCompression));
    NameIs(name, Plain(NsCertType));
    NameIs(name, Plain(RemoteCertTls));
    NameIs(name, Plain(TlsRemote));
    NameIs(name, Plain(TlsVersionMax));
    NameIs(name, Plain(TlsCrypt));
    NameIs(name, Plain(TlsCryptV2));
    NameIs(name, Plain(ExtraCerts));
  }

  lemma SwitchNames(name: string)
    ensures name == "float" <==> Keyword(name) == Some(Flag(Float))
    ensures name == "remote-random" <==> Keyword(name) == Some(Flag(RemoteRandom))
    ensures name == "remote-random-hostname" <==> Keyword(name) == Some(Flag(RemoteRandomHostname))
    ensures name == "push-peer-info" <==> Keyword(name) == Some(Flag(PushPeerInfo))
    ensures name == "tun-ipv6" <==> Keyword(name) == Some(Flag(TunIpv6))
    ensures name == "allow-pull-fqdn" <==> Keyword(name) == Some(Flag(AllowPullFqdn))
  {
    hide Keyword;
    NameIs(name, Flag(Float));
    NameIs(name, Flag(RemoteRandom));
    NameIs(name, Flag(RemoteRandomHostname));
    NameIs(name, Flag(PushPeerInfo));
    NameIs(name, Flag(TunIpv6));
    NameIs(name, Flag(AllowPullFqdn));
  }

  lemma TransportNames(name: string)
    ensures name == "proto" <==> Keyword(name) == Some(Carrier(Proto))
    ensures name == "remote" <==> Keyword(name) == Some(Carrier(CarrierKw.Remote))
    ensures name == "mssfix" <==> Keyword(name) == Some(Carrier(Mssfix))
    ensures name == "comp-lzo" <==> Keyword(name) == Some(Carrier(CompLzo))
    ensures name == "compress" <==> Keyword(name) == Some(Carrier(Compress))
    ensures name == "http-proxy" <==> Keyword(name) == Some(Carrier(HttpProxy))
    ensures name == "socks-proxy" <==> Keyword(name) == Some(Carrier(SocksProxy))
    ensures name == "ifconfig" <==> Keyword(name) == Some(Carrier(Ifconfig))
    ensures name == "route" <==> Keyword(name) == Some(Carrier(Route))
    ensures name == "keepalive" <==> Keyword(name) == Some(Carrier(Keepalive))
  {
    hide Keyword;
    NameIs(name, Carrier(Proto));
    NameIs(name, Carrier(CarrierKw.Remote));
    NameIs(name, Carrier(Mssfix));
    NameIs(name, Carrier(CompLzo));
    NameIs(name, Carrier(Compress));
    NameIs(name, Carrier(HttpProxy));
    NameIs(name, Carrier(SocksProxy));
    NameIs(name, Carrier(Ifconfig));
    NameIs(name, Carrier(Route));
    NameIs(name, Carrier(Keepalive));
  }

  lemma TrustNames(name: string)
    ensures name == "auth-user-pass" <==> Keyword(name) == Some(Trust(AuthUserPass))
    ensures name == "ca" <==> Keyword(name) == Some(Trust(Ca))
    ensures name == "cert" <==> Keyword(name) == Some(Trust(Cert))
    ensures name == "key" <==> Keyword(name) == Some(Trust(Key))
    ensures name == "pkcs12" <==> Keyword(name) == Some(Trust(Pkcs12))
    ensures name == "secret" <==> Keyword(name) == Some(Trust(Secret))
    ensures name == "tls-auth" <==> Keyword(name) == Some(Trust(TlsAuth))
    ensures name == "key-direction" <==> Keyword(name) == Some(Trust(KeyDirection))
    ensures name == "crl-verify" <==> Keyword(name) == Some(Trust(CrlVerify))
    ensures name == "verify-x509-name" <==> Keyword(name) == Some(Trust(VerifyX509Name))
    ensures name == "tls-version-min" <==> Keyword(name) == Some(Trust(TlsVersionMin))
  {
    hide Keyword;
    NameIs(name, Trust(AuthUserPass));
    NameIs(name, Trust(Ca));
    NameIs(name, Trust(Cert));
    NameIs(name, Trust(Key));
    NameIs(name, Trust(Pkcs12));
    NameIs(name, Trust(Secret));
    NameIs(name, Trust(TlsAuth));
    NameIs(name, Trust(KeyDirection));
    NameIs(name, Trust(CrlVerify));
    NameIs(name, Trust(VerifyX509Name));
    NameIs(name, Trust(TlsVersionMin));
  }

  // ---------- The last writer wins ----------

  /** What one directive writes to a key. */
  function Effect(d: Directive, key: K.NmKey): Option<string> {
    if d.Blob? then None
    else
      match Keyword(d.name)
      case Some(k) => Written(k, d.args, key)
      case None => None
  }

  lemma ApplyWrites(st: State, d: Directive, key: K.NmKey)
    requires IsSimple(key)
    ensures Lookup(Apply(st, d).data, key) == Either(Effect(d, key), Lookup(st.data, key))
  {
    hide Keyword, Written, ApplyOption, IsSimple;
    if d.Opt? {
      OptionWrites(st, Keyword(d.name), d.args, key);
      if Keyword(d.name).Some? {
        KeyWritten(Keyword(d.name).value, d.args, key);
      } else {
        hide Written;
        UnknownWritesNothing(d.args, key);
      }
    }
  }

  lemma UnknownWritesNothing(args: seq<string>, key: K.NmKey)
    ensures WrittenBy(None, args, key) == None
  {}

  predicate IsLastWriter(ds: Directives, key: K.NmKey, i: nat) {
    i < |ds| && Effect(ds[i], key).Some? && forall j :: i < j < |ds| ==> Effect(ds[j], key).None?
  }

  predicate NoWriter(ds: Directives, key: K.NmKey) { forall j :: 0 <= j < |ds| ==> Effect(ds[j], key).None? }

  lemma {:induction false} FoldKeeps(st: State, ds: Directives, key: K.NmKey)
    requires IsSimple(key) && NoWriter(ds, key)
    ensures Lookup(Fold(st, ds).data, key) == Lookup(st.data, key)
    decreases |ds|
  {
    hide Apply, Effect, IsSimple, Lookup;
    if ds != [] {
      ApplyWrites(st, ds[0], key);
      assert forall j :: 0 <= j < |ds[1..]| ==> ds[1..][j] == ds[j + 1];
      FoldKeeps(Apply(st, ds[0]), ds[1..], key);
    }
  }

  lemma FoldWrites(st: State, ds: Directives, key: K.NmKey, i: nat)
    requires IsSimple(key) && IsLastWriter(ds, key, i)
    ensures Lookup(Fold(st, ds).data, key) == Effect(ds[i], key)
  {
    hide Apply, Effect, IsSimple, Lookup, Fold;
    var a, b := ds[..i], ds[i + 1..];
    assert ds == a + ([ds[i]] + b);
    FoldAppend(st, a, [ds[i]] + b);
    FoldAppend(Fold(st, a), [ds[i]], b);
    FoldOne(Fold(st, a), ds[i]);
    ApplyWrites(Fold(st, a), ds[i], key);
    assert forall j :: 0 <= j < |b| ==> b[j] == ds[i + 1 + j];
    FoldKeeps(Apply(Fold(st, a), ds[i]), b, key);
  }

  lemma FoldOne(st: State, d: Directive)
    ensures Fold(st, [d]) == Apply(st, d)
  {
    hide Apply;
    assert [d][1..] == [];
  }

  /** `key` is none of those that depend on more than one directive. */
  predicate IsPlainlyWritten(key: K.NmKey) { IsSimple(key) && key != K.TaDir && key != K.StaticKeyDirection }

  lemma FinishKeeps(st: State, dir: Option<string>, key: K.NmKey)
    requires IsSimple(key)
    ensures IsPlainlyWritten(key) || Lookup(st.data, key).Some? ==>
            Lookup(Finish(st, dir), key) == Lookup(st.data, key)
  {}

  /** For any directives: a key holds what its last writer wrote, and is absent if nobody writes it. */
  lemma LastWriterWins(ds: Directives, key: K.NmKey)
    requires IsSimple(key)
    ensures forall i: nat :: IsLastWriter(ds, key, i) ==> Lookup(AsNmData(ds), key) == Effect(ds[i], key)
    ensures NoWriter(ds, key) && IsPlainlyWritten(key) ==> key !in AsNmData(ds)
  {
    hide Fold, LastDirection, Finish, Effect, IsSimple;
    FinishKeeps(Fold(START, ds), LastDirection(None, ds), key);
    forall i: nat | IsLastWriter(ds, key, i) ensures Lookup(AsNmData(ds), key) == Effect(ds[i], key) {
      FoldWrites(START, ds, key, i);
    }
    if NoWriter(ds, key) {
      FoldKeeps(START, ds, key);
    }
  }

  // ----- Three of the writers, in full -----

  predicate IsOption(d: Directive, name: string) { d.Opt? && d.name == name }

  predicate NoneNamed(ds: Directives, names: set<string>) {
    forall j :: 0 <= j < |ds| && ds[j].Opt? ==> ds[j].name !in names
  }

  lemma WinsOverEarlier(a: Directives, d: Directive, b: Directives, key: K.NmKey)
    requires IsSimple(key) && Effect(d, key).Some? && NoWriter(b, key)
    ensures Lookup(AsNmData(a + [d] + b), key) == Effect(d, key)
  {
    hide AsNmData, Effect, IsSimple, Lookup;
    var ds := a + [d] + b;
    forall j | |a| < j < |ds| ensures Effect(ds[j], key).None? {
      assert ds[j] == b[j - |a| - 1];
    }
    assert IsLastWriter(ds, key, |a|);
    LastWriterWins(ds, key);
  }

  lemma WritesNoPing(d: Directive)
    requires d.Opt? ==> d.name !in {"ping", "ping-restart", "keepalive"}
    ensures Effect(d, K.Ping).None? && Effect(d, K.PingRestart).None?
  {
    hide Keyword;
    TimerNames(d.name);
    TransportNames(d.name);
  }

  lemma KeepaliveWrites(x: string, y: string)
    ensures var d := Opt("keepalive", [x, y]); Effect(d, K.Ping) == Some(x) && Effect(d, K.PingRestart) == Some(y)
  {
    hide Keyword;
    TransportNames("keepalive");
  }

  /** `keepalive A B` sets ping and ping-restart, unless something behind it sets them again. */
  lemma KeepaliveSetsBoth(a: Directives, b: Directives, x: string, y: string)
    requires NoneNamed(b, {"ping", "ping-restart", "keepalive"})
    ensures var data := AsNmData(a + [Opt("keepalive", [x, y])] + b);
      Lookup(data, K.Ping) == Some(x) && Lookup(data, K.PingRestart) == Some(y)
  {
    var d := Opt("keepalive", [x, y]);
    KeepaliveWrites(x, y);
    hide AsNmData, Effect, Lookup;
    forall j | 0 <= j < |b| ensures Effect(b[j], K.Ping).None? && Effect(b[j], K.PingRestart).None? {
      WritesNoPing(b[j]);
    }
    WinsOverEarlier(a, d, b, K.Ping);
    WinsOverEarlier(a, d, b, K.PingRestart);
  }

  predicate IsTimeout(d: Directive) { d.Opt? && (d.name == "server-poll-timeout" || d.name == "connect-timeout") }

  lemma TimeoutWrites(d: Directive)
    ensures Effect(d, K.ConnectTimeout) == if IsTimeout(d) then Arg(d.args, 0) else None
  {
    hide Keyword, Written;
    TimerNames(d.name);
    if d.Opt? && Keyword(d.name).Some? {
      TimeoutWritten(Keyword(d.name).value, d.args);
    }
  }

  lemma TimeoutWritten(k: Kw, args: seq<string>)
    ensures Written(k, args, K.ConnectTimeout) ==
      OnlyIf(k == Plain(ConnectTimeout) || k == Plain(ServerPollTimeout), Arg(args, 0))
  {}

  /** `server-poll-timeout` and `connect-timeout` write the same key, and the later one is kept. */
  lemma TimeoutsShareAKey(a: Directives, b: Directives, name: string, v: string)
    requires name == "server-poll-timeout" || name == "connect-timeout"
    requires NoneNamed(b, {"server-poll-timeout", "connect-timeout"})
    ensures Lookup(AsNmData(a + [Opt(name, [v])] + b), K.ConnectTimeout) == Some(v)
  {
    hide AsNmData, Effect;
    TimeoutWrites(Opt(name, [v]));
    forall j | 0 <= j < |b| ensures Effect(b[j], K.ConnectTimeout).None? {
      TimeoutWrites(b[j]);
    }
    WinsOverEarlier(a, Opt(name, [v]), b, K.ConnectTimeout);
  }

  predicate SaysTcp(d: Directive) { IsOption(d, "proto") && d.args != [] && !("udp" <= d.args[0]) }

  lemma ProtoWrites(d: Directive)
    ensures Effect(d, K.ProtoTcp) == if SaysTcp(d) then Some("yes") else None
  {
    hide Keyword, Written;
    TransportNames(d.name);
    if d.Opt? && Keyword(d.name).Some? {
      TcpWritten(Keyword(d.name).value, d.args);
    }
  }

  lemma TcpWritten(k: Kw, args: seq<string>)
    ensures Written(k, args, K.ProtoTcp) == Yes(k == Carrier(Proto) && |args| > 0 && !("udp" <= args[0]))
  {}

  /** TCP is recorded exactly if some `proto` names a protocol that does not begin with udp. */
  lemma TcpExactly(ds: Directives)
    ensures K.ProtoTcp in AsNmData(ds) <==> exists i :: 0 <= i < |ds| && SaysTcp(ds[i])
    ensures K.ProtoTcp in AsNmData(ds) ==> AsNmData(ds)[K.ProtoTcp] == "yes"
  {
    hide AsNmData, Effect, SaysTcp;
    forall i | 0 <= i < |ds| ensures Effect(ds[i], K.ProtoTcp) == if SaysTcp(ds[i]) then Some("yes") else None {
      ProtoWrites(ds[i]);
    }
    LastWriterWins(ds, K.ProtoTcp);
    if k :| 0 <= k < |ds| && Effect(ds[k], K.ProtoTcp).Some? {
      var i := LastOf(ds, K.ProtoTcp, k);
    }
  }

  /** So `udp4-client` is no TCP, and `tcp4-client` is. */
  lemma VariantsOfProto()
    ensures !SaysTcp(Opt("proto", ["udp4-client"])) && !SaysTcp(Opt("proto", ["udp6"]))
    ensures SaysTcp(Opt("proto", ["tcp4-client"])) && SaysTcp(Opt("proto", ["tcp"]))
  {
    assert "udp4-client"[..3] == "udp" && "udp6"[..3] == "udp";
    assert "tcp"[0] != "udp"[0] && "tcp4-client"[0] != "udp"[0];
  }

  lemma {:induction false} LastOf(ds: Directives, key: K.NmKey, k: nat) returns (i: nat)
    requires k < |ds| && Effect(ds[k], key).Some?
    ensures IsLastWriter(ds, key, i)
    decreases |ds| - k
  {
    hide Effect;
    if j :| k < j < |ds| && Effect(ds[j], key).Some? {
      i := LastOf(ds, key, j);
    } else {
      i := k;
    }
  }

  // ---------- The connection type ----------

  predicate HasOption(ds: Directives, name: string) { exists i :: 0 <= i < |ds| && IsOption(ds[i], name) }

  predicate HasArgument(ds: Directives, name: string) {
    exists i :: 0 <= i < |ds| && IsOption(ds[i], name) && ds[i].args != []
  }

  predicate HasBlob(ds: Directives, name: string) { exists i :: 0 <= i < |ds| && ds[i].Blob? && ds[i].name == name }

  /** A slot for key material is filled by an option with an argument or by an inline blob. */
  predicate Fills(d: Directive, name: string) { d.name == name && (d.Opt? ==> d.args != []) }

  predicate Bundles(d: Directive) { IsOption(d, "pkcs12") && d.args != [] }

  lemma ApplyRaises(st: State, d: Directive)
    ensures var r := Apply(st, d);
      && r.userPass == (st.userPass || IsOption(d, "auth-user-pass"))
      && r.secret == (st.secret || Fills(d, "secret"))
      && r.cert == (st.cert || Fills(d, "cert") || Bundles(d))
      && r.key == (st.key || Fills(d, "key") || Bundles(d))
      && r.tlsAuth == (st.tlsAuth || IsOption(d, "tls-auth"))
  {
    hide Keyword, ApplyOption;
    TrustNames(d.name);
    if d.Opt? {
      OptionRaises(st, Keyword(d.name), d.args);
    }
  }

  lemma OptionRaises(st: State, k: Option<Kw>, args: seq<string>)
    ensures var r := ApplyOption(st, k, args);
      && r.userPass == (st.userPass || k == Some(Trust(AuthUserPass)))
      && r.secret == (st.secret || (k == Some(Trust(Secret)) && args != []))
      && r.cert == (st.cert || (args != [] && (k == Some(Trust(Cert)) || k == Some(Trust(Pkcs12)))))
      && r.key == (st.key || (args != [] && (k == Some(Trust(Key)) || k == Some(Trust(Pkcs12)))))
      && r.tlsAuth == (st.tlsAuth || k == Some(Trust(TlsAuth)))
  {
    hide ApplyCarrier, ApplyTrust, PlainKey, FlagKey;
    match k {
      case Some(Carrier(c)) => CarrierRaises(st, c, args);
      case Some(Trust(t)) =>
        TrustRaises(st, t, args);
        TrustTracksFlags(st, t, args);
      case _ =>
    }
  }

  lemma CarrierRaises(st: State, c: CarrierKw, args: seq<string>)
    ensures var r := ApplyCarrier(st, c, args);
      && r.userPass == st.userPass && r.secret == st.secret && r.cert == st.cert && r.key == st.key
      && r.tlsAuth == st.tlsAuth
  {
    hide Extend, JoinWords, AddLine, ValueOrEmpty, OrElse;
    match c {
      case Proto =>
      case Remote =>
      case Mssfix =>
      case CompLzo =>
      case Compress =>
      case HttpProxy =>
      case SocksProxy =>
      case Ifconfig =>
      case Route =>
      case Keepalive =>
    }
  }

  lemma TrustRaises(st: State, t: TrustKw, args: seq<string>)
    ensures var r := ApplyTrust(st, t, args);
      && r.userPass == (st.userPass || t == AuthUserPass)
      && r.cert == (st.cert || (args != [] && (t == Cert || t == Pkcs12)))
      && r.key == (st.key || (args != [] && (t == Key || t == Pkcs12)))
  {
    hide OrElse, TypedName;
    match t {
      case AuthUserPass =>
      case Ca =>
      case Cert =>
      case Key =>
      case Pkcs12 =>
      case Secret =>
      case TlsAuth =>
      case KeyDirection =>
      case CrlVerify =>
      case VerifyX509Name =>
      case TlsVersionMin =>
    }
  }

  predicate SomeFills(ds: Directives, name: string) { exists i :: 0 <= i < |ds| && Fills(ds[i], name) }

  predicate SomeBundles(ds: Directives) { exists i :: 0 <= i < |ds| && Bundles(ds[i]) }

  lemma {:induction false} FoldRaises(st: State, ds: Directives)
    ensures var r := Fold(st, ds);
      && r.userPass == (st.userPass || HasOption(ds, "auth-user-pass"))
      && r.secret == (st.secret || SomeFills(ds, "secret"))
      && r.cert == (st.cert || SomeFills(ds, "cert") || SomeBundles(ds))
      && r.key == (st.key || SomeFills(ds, "key") || SomeBundles(ds))
      && r.tlsAuth == (st.tlsAuth || HasOption(ds, "tls-auth"))
    decreases |ds|
  {
    hide Apply, IsOption, Fills, Bundles;
    if ds != [] {
      ApplyRaises(st, ds[0]);
      FoldRaises(Apply(st, ds[0]), ds[1..]);
      assert forall i :: 1 <= i < |ds| ==> ds[i] == ds[1..][i - 1];
      assert forall i :: 0 <= i < |ds[1..]| ==> ds[1..][i] == ds[i + 1];
    }
  }

  lemma FilledBy(ds: Directives, name: string)
    ensures SomeFills(ds, name) <==> HasArgument(ds, name) || HasBlob(ds, name)
  {
    if SomeFills(ds, name) {
      var i :| 0 <= i < |ds| && Fills(ds[i], name);
      assert ds[i].Blob? || IsOption(ds[i], name);
    }
    if HasArgument(ds, name) {
      var i :| 0 <= i < |ds| && IsOption(ds[i], name) && ds[i].args != [];
      assert Fills(ds[i], name);
    }
    if HasBlob(ds, name) {
      var i :| 0 <= i < |ds| && ds[i].Blob? && ds[i].name == name;
      assert Fills(ds[i], name);
    }
  }

  /**
    * The connection type of any list of directives.  A static key decides it;
    * otherwise a certificate with its key and a user name and password do, each
    * given as an option, inline, or, for the two files, as a bundle.
    */
  lemma ConnectionTypeOf(ds: Directives)
    ensures var secret := HasArgument(ds, "secret") || HasBlob(ds, "secret");
      var cert := HasArgument(ds, "cert") || HasBlob(ds, "cert") || HasArgument(ds, "pkcs12");
      var key := HasArgument(ds, "key") || HasBlob(ds, "key") || HasArgument(ds, "pkcs12");
      var userPass := HasOption(ds, "auth-user-pass");
      Lookup(AsNmData(ds), K.ConnectionType) == Some(
        if secret then "static-key"
        else if cert && key then if userPass then "password-tls" else "tls"
        else if userPass then "password" else "tls")
  {
    hide Fold, LastDirection, HasArgument, HasBlob, HasOption, SomeFills, Resolve;
    FoldRaises(START, ds);
    FilledBy(ds, "secret");
    FilledBy(ds, "cert");
    FilledBy(ds, "key");
    assert SomeBundles(ds) <==> HasArgument(ds, "pkcs12") by {
      BundledBy(ds);
    }
  }

  lemma BundledBy(ds: Directives)
    ensures SomeBundles(ds) <==> HasArgument(ds, "pkcs12")
  {
    if HasArgument(ds, "pkcs12") {
      var i :| 0 <= i < |ds| && IsOption(ds[i], "pkcs12") && ds[i].args != [];
      assert Bundles(ds[i]);
    }
  }

  // ---------- Where a standalone direction goes ----------

  predicate IsDirection(d: Directive) { IsOption(d, "key-direction") && d.args != [] }

  predicate IsLastDirection(ds: Directives, i: nat) {
    i < |ds| && IsDirection(ds[i]) && forall j :: i < j < |ds| ==> !IsDirection(ds[j])
  }

  lemma NextDirectionIs(dir: Option<string>, d: Directive)
    ensures NextDirection(dir, d) == if IsDirection(d) then Some(d.args[0]) else dir
  {
    hide Keyword;
    TrustNames(d.name);
  }

  lemma {:induction false} DirectionsKeep(dir: Option<string>, ds: Directives)
    requires forall j :: 0 <= j < |ds| ==> !IsDirection(ds[j])
    ensures LastDirection(dir, ds) == dir
    decreases |ds|
  {
    hide IsDirection, NextDirection;
    if ds != [] {
      NextDirectionIs(dir, ds[0]);
      assert forall j :: 0 <= j < |ds[1..]| ==> ds[1..][j] == ds[j + 1];
      DirectionsKeep(dir, ds[1..]);
    }
  }

  lemma DirectionIs(ds: Directives, i: nat)
    requires IsLastDirection(ds, i)
    ensures LastDirection(None, ds) == Some(ds[i].args[0])
  {
    hide LastDirection, NextDirection;
    var a, b := ds[..i], ds[i + 1..];
    assert ds == a + ([ds[i]] + b);
    DirectionAppend(None, a, [ds[i]] + b);
    DirectionAppend(LastDirection(None, a), [ds[i]], b);
    assert LastDirection(LastDirection(None, a), [ds[i]]) == Some(ds[i].args[0]) by {
      NextDirectionIs(LastDirection(None, a), ds[i]);
      LastOfOne(LastDirection(None, a), ds[i]);
    }
    assert forall j :: 0 <= j < |b| ==> b[j] == ds[i + 1 + j];
    DirectionsKeep(Some(ds[i].args[0]), b);
  }

  lemma LastOfOne(dir: Option<string>, d: Directive)
    ensures LastDirection(dir, [d]) == NextDirection(dir, d)
  {
    hide NextDirection;
    assert [d][1..] == [];
  }

  /**
    * The last standalone key-direction goes to tls-auth if there is one that
    * gives no direction itself, to a static key if there is no tls-auth, and
    * nowhere otherwise.
    */
  lemma StandaloneDirectionGoes(ds: Directives, i: nat)
    requires IsLastDirection(ds, i)
    ensures var data := AsNmData(ds);
      var control, stat := HasOption(ds, "tls-auth"), HasArgument(ds, "secret") || HasBlob(ds, "secret");
      && (NoWriter(ds, K.TaDir) ==> Lookup(data, K.TaDir) == if control then Some(ds[i].args[0]) else None)
      && (NoWriter(ds, K.StaticKeyDirection) ==>
            Lookup(data, K.StaticKeyDirection) == if stat && !control then Some(ds[i].args[0]) else None)
  {
    hide Fold, LastDirection, HasArgument, HasBlob, HasOption, SomeFills, NoWriter, InferType;
    FoldRaises(START, ds);
    FilledBy(ds, "secret");
    DirectionIs(ds, i);
    if NoWriter(ds, K.TaDir) {
      FoldKeeps(START, ds, K.TaDir);
    }
    if NoWriter(ds, K.StaticKeyDirection) {
      FoldKeeps(START, ds, K.StaticKeyDirection);
    }
  }

  lemma NoDirectionGoesNowhere(ds: Directives)
    requires forall j :: 0 <= j < |ds| ==> !IsDirection(ds[j])
    ensures NoWriter(ds, K.TaDir) ==> K.TaDir !in AsNmData(ds)
    ensures NoWriter(ds, K.StaticKeyDirection) ==> K.StaticKeyDirection !in AsNmData(ds)
  {
    hide Fold, LastDirection, NoWriter, InferType, IsDirection;
    DirectionsKeep(None, ds);
    if NoWriter(ds, K.TaDir) {
      FoldKeeps(START, ds, K.TaDir);
    }
    if NoWriter(ds, K.StaticKeyDirection) {
      FoldKeeps(START, ds, K.StaticKeyDirection);
    }
  }

  // ---------- The gateways and the routes ----------

  /** The arguments of all options of that name, in order. */
  function ArgsOf(ds: Directives, name: string): seq<seq<string>>
    decreases |ds|
  {
    if ds == [] then []
    else (if IsOption(ds[0], name) then [ds[0].args] else []) + ArgsOf(ds[1..], name)
  }

  /** Parts joined by a separator; what is empty so far takes none. */
  function Collected(value: string, parts: seq<string>, separator: char): string
    decreases |parts|
  {
    if parts == [] then value
    else Collected((if value == "" then "" else value + [separator]) + parts[0], parts[1..], separator)
  }

  function EntryTexts(argLists: seq<seq<string>>): seq<string>
    decreases |argLists|
  {
    if argLists == [] then [] else [EncodeArgs(argLists[0])] + EntryTexts(argLists[1..])
  }

  function RouteTexts(argLists: seq<seq<string>>): seq<string>
    decreases |argLists|
  {
    if argLists == [] then [] else [JoinWords("route", argLists[0])] + RouteTexts(argLists[1..])
  }

  lemma CarrierCollectsGateways(st: State, c: CarrierKw, args: seq<string>)
    ensures Lookup(ApplyCarrier(st, c, args).data, K.Remote) ==
      if c == CarrierKw.Remote then Some(Extend(ValueOrEmpty(st.data, K.Remote), args)) else Lookup(st.data, K.Remote)
  {
    hide Extend, JoinWords, AddLine, ValueOrEmpty, OrElse;
    match c {
      case Proto =>
      case Remote =>
      case Mssfix =>
      case CompLzo =>
      case Compress =>
      case HttpProxy =>
      case SocksProxy =>
      case Ifconfig =>
      case Route =>
      case Keepalive =>
    }
  }

  lemma CarrierCollectsRoutes(st: State, c: CarrierKw, args: seq<string>)
    ensures Lookup(ApplyCarrier(st, c, args).data, K.ExtraRoutes) ==
      if c == Route then Some(AddLine(ValueOrEmpty(st.data, K.ExtraRoutes), JoinWords("route", args)))
      else Lookup(st.data, K.ExtraRoutes)
  {
    hide Extend, JoinWords, AddLine, ValueOrEmpty, OrElse;
    match c {
      case Proto =>
      case Remote =>
      case Mssfix =>
      case CompLzo =>
      case Compress =>
      case HttpProxy =>
      case SocksProxy =>
      case Ifconfig =>
      case Route =>
      case Keepalive =>
    }
  }

  lemma TrustCollectsNothing(st: State, t: TrustKw, args: seq<string>, key: K.NmKey)
    requires key == K.Remote || key == K.ExtraRoutes
    ensures Lookup(ApplyTrust(st, t, args).data, key) == Lookup(st.data, key)
  {
    hide Lookup, TypedName;
    var a0, a1 := Arg(args, 0), Arg(args, 1);
    match t {
      case Secret =>
        PutIfReads(st, K.StaticKey, a0, key);
        PutIfReads(st.PutIf(K.StaticKey, a0), K.StaticKeyDirection, a1, key);
      case TlsAuth =>
        PutIfReads(st, K.Ta, a0, key);
        PutIfReads(st.PutIf(K.Ta, a0), K.TaDir, a1, key);
      case _ => OthersLeave(st, t, args, key);
    }
  }

  lemma CopiesCollectNothing(p: PlainKw, f: FlagKw)
    ensures PlainKey(p) != K.Remote && PlainKey(p) != K.ExtraRoutes
    ensures FlagKey(f) != K.Remote && FlagKey(f) != K.ExtraRoutes
  {}

  lemma OptionCollectsGateways(st: State, k: Option<Kw>, args: seq<string>)
    ensures Lookup(ApplyOption(st, k, args).data, K.Remote) ==
      if k == Some(Carrier(CarrierKw.Remote)) then Some(Extend(ValueOrEmpty(st.data, K.Remote), args))
      else Lookup(st.data, K.Remote)
  {
    hide PlainKey, FlagKey, ApplyCarrier, ApplyTrust, Extend, ValueOrEmpty;
    match k {
      case Some(Plain(p)) => CopiesCollectNothing(p, Float);
      case Some(Flag(f)) => CopiesCollectNothing(Dev, f);
      case Some(Carrier(c)) => CarrierCollectsGateways(st, c, args);
      case Some(Trust(t)) => TrustCollectsNothing(st, t, args, K.Remote);
      case _ =>
    }
  }

  lemma OptionCollectsRoutes(st: State, k: Option<Kw>, args: seq<string>)
    ensures Lookup(ApplyOption(st, k, args).data, K.ExtraRoutes) ==
      if k == Some(Carrier(Route))
      then Some(AddLine(ValueOrEmpty(st.data, K.ExtraRoutes), JoinWords("route", args)))
      else Lookup(st.data, K.ExtraRoutes)
  {
    hide PlainKey, FlagKey, ApplyCarrier, ApplyTrust, AddLine, JoinWords, ValueOrEmpty;
    match k {
      case Some(Plain(p)) => CopiesCollectNothing(p, Float);
      case Some(Flag(f)) => CopiesCollectNothing(Dev, f);
      case Some(Carrier(c)) => CarrierCollectsRoutes(st, c, args);
      case Some(Trust(t)) => TrustCollectsNothing(st, t, args, K.ExtraRoutes);
      case _ =>
    }
  }

  lemma ApplyCollects(st: State, d: Directive)
    ensures Lookup(Apply(st, d).data, K.Remote) ==
      if IsOption(d, "remote") then Some(Extend(ValueOrEmpty(st.data, K.Remote), d.args)) else Lookup(st.data, K.Remote)
    ensures Lookup(Apply(st, d).data, K.ExtraRoutes) ==
      if IsOption(d, "route") then Some(AddLine(ValueOrEmpty(st.data, K.ExtraRoutes), JoinWords("route", d.args)))
      else Lookup(st.data, K.ExtraRoutes)
  {
    hide Keyword, ApplyOption, Extend, AddLine, JoinWords, ValueOrEmpty;
    TransportNames(d.name);
    if d.Opt? {
      OptionCollectsGateways(st, Keyword(d.name), d.args);
      OptionCollectsRoutes(st, Keyword(d.name), d.args);
    }
  }

  lemma CollectOne(value: string, part: string, parts: seq<string>, separator: char)
    ensures Collected(value, [part] + parts, separator) ==
      Collected((if value == "" then "" else value + [separator]) + part, parts, separator)
  {
    assert ([part] + parts)[1..] == parts;
  }

  lemma {:induction false} FoldCollectsGateways(st: State, ds: Directives)
    ensures Lookup(Fold(st, ds).data, K.Remote) ==
      var gateways := ArgsOf(ds, "remote");
      if gateways == [] then Lookup(st.data, K.Remote)
      else Some(Collected(ValueOrEmpty(st.data, K.Remote), EntryTexts(gateways), ','))
    decreases |ds|
  {
    hide Apply, EncodeArgs, Collected;
    if ds != [] {
      ApplyCollects(st, ds[0]);
      FoldCollectsGateways(Apply(st, ds[0]), ds[1..]);
      var rest := ArgsOf(ds[1..], "remote");
      if IsOption(ds[0], "remote") {
        assert ([ds[0].args] + rest)[1..] == rest;
        assert EntryTexts([ds[0].args] + rest) == [EncodeArgs(ds[0].args)] + EntryTexts(rest);
        CollectOne(ValueOrEmpty(st.data, K.Remote), EncodeArgs(ds[0].args), EntryTexts(rest), ',');
        CollectedNone(Extend(ValueOrEmpty(st.data, K.Remote), ds[0].args), ',');
      } else {
        assert ArgsOf(ds, "remote") == rest;
      }
    }
  }

  lemma CollectedNone(value: string, separator: char)
    ensures Collected(value, [], separator) == value
  {}

  lemma {:induction false} FoldCollectsRoutes(st: State, ds: Directives)
    ensures Lookup(Fold(st, ds).data, K.ExtraRoutes) ==
      var routes := ArgsOf(ds, "route");
      if routes == [] then Lookup(st.data, K.ExtraRoutes)
      else Some(Collected(ValueOrEmpty(st.data, K.ExtraRoutes), RouteTexts(routes), LF))
    decreases |ds|
  {
    hide Apply, JoinWords, Collected;
    if ds != [] {
      ApplyCollects(st, ds[0]);
      FoldCollectsRoutes(Apply(st, ds[0]), ds[1..]);
      var rest := ArgsOf(ds[1..], "route");
      if IsOption(ds[0], "route") {
        var line := JoinWords("route", ds[0].args);
        assert ([ds[0].args] + rest)[1..] == rest;
        assert RouteTexts([ds[0].args] + rest) == [line] + RouteTexts(rest);
        CollectOne(ValueOrEmpty(st.data, K.ExtraRoutes), line, RouteTexts(rest), LF);
        CollectedNone(AddLine(ValueOrEmpty(st.data, K.ExtraRoutes), line), LF);
      } else {
        assert ArgsOf(ds, "route") == rest;
      }
    }
  }

  /** Every `remote` adds an entry to the gateway list, every `route` a line to the routes, and nothing else does. */
  lemma ListsAreCollected(ds: Directives)
    ensures var gateways, routes := ArgsOf(ds, "remote"), ArgsOf(ds, "route");
      && Lookup(AsNmData(ds), K.Remote) ==
         (if gateways == [] then None else Some(Collected("", EntryTexts(gateways), ',')))
      && Lookup(AsNmData(ds), K.ExtraRoutes) ==
         (if routes == [] then None else Some(Collected("", RouteTexts(routes), LF)))
  {
    hide Fold, LastDirection, Collected, EntryTexts, RouteTexts, InferType;
    FoldCollectsGateways(START, ds);
    FoldCollectsRoutes(START, ds);
  }

  /** An entry of the gateway list: colons between the fields, and brackets around a host that holds one. */
  lemma EntryTextOf(host: string, port: string, proto: string)
    ensures var shown := ShownHost(host);
      && EncodeArgs([]) == "" && EncodeArgs([host]) == shown
      && EncodeArgs([host, port]) == shown + ":" + port
      && EncodeArgs([host, port, proto]) == shown + ":" + port + ":" + proto
  {
    hide EncodeHost, ShownHost;
    HostIsShown(host);
    HostIsShown("");
    assert ShownHost("") == "" by { NoHostIsShown(); }
    assert forall s: string :: s + "" == s;
  }

  function ShownHost(host: string): string {
    if ':' in host && host[0] != '[' then "[" + host + "]" else host
  }

  lemma HostIsShown(host: string)
    ensures EncodeHost(host) == ShownHost(host)
  {
    assert Contains(host, ':') <==> ':' in host;
  }

  lemma NoHostIsShown()
    ensures ShownHost("") == ""
  {}
}
