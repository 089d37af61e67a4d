/**
 * The option names the emitters write and the importer knows.  A directive
 * carries its name as a string; `Keyword` is the classification that the
 * source's matches on that string make, sorted by how the importer treats the
 * option.
 */
module Names {
  import opened Text

  // Options whose first argument is copied into one vpn.data key.
  datatype PlainKw =
    | Dev | DevType | Port | Cipher | DataCiphers | DataCiphersFallback | Auth | Keysize | TlsCipher
    | TunMtu | Fragment | Ping | PingExit | PingRestart | RenegSec | ConnectTimeout
    | ServerPollTimeout | AllowCompression | NsCertType | RemoteCertTls | TlsRemote | TlsVersionMax
    | TlsCrypt | TlsCryptV2 | ExtraCerts

  // Options without arguments that set one vpn.data key to `yes`.
  datatype FlagKw =
    | Float | RemoteRandom | RemoteRandomHostname | PushPeerInfo | TunIpv6 | AllowPullFqdn

  // Options about the transport with an import rule of their own.
  datatype CarrierKw =
    | Proto | Remote | Mssfix | CompLzo | Compress | HttpProxy | SocksProxy | Ifconfig | Route
    | Keepalive

  // Options about keys and peers with an import rule of their own.
  datatype TrustKw =
    | AuthUserPass | Ca | Cert | Key | Pkcs12 | Secret | TlsAuth | KeyDirection | CrlVerify
    | VerifyX509Name | TlsVersionMin

  // Options that leave no trace in vpn.data.
  datatype QuietKw =
    | Client | TlsClient | MaxRoutes | MtuDisc | HttpProxyRetry | SocksProxyRetry | Nobind
    | AuthNocache | ScriptSecurity | PersistKey | PersistTun | User | Group | RouteIpv6
    | RouteGateway | RouteMetric | RouteDelay | ProxyPort | StaticKeyDirection

  datatype Kw =
    | Plain(plain: PlainKw)
    | Flag(flag: FlagKw)
    | Carrier(carrier: CarrierKw)
    | Trust(trust: TrustKw)
    | Quiet(quiet: QuietKw)

  function SpellPlain(k: PlainKw): string {
    match k
    case Dev => "dev"
    case DevType => "dev-type"
    case Port => "port"
    case Cipher => "cipher"
    case DataCiphers => "data-ciphers"
    case DataCiphersFallback => "data-ciphers-fallback"
    case Auth => "auth"
    case Keysize => "keysize"
    case TlsCipher => "tls-cipher"
    case TunMtu => "tun-mtu"
    case Fragment => "fragment"
    case Ping => "ping"
    case PingExit => "ping-exit"
    case PingRestart => "ping-restart"
    case RenegSec => "reneg-sec"
    case ConnectTimeout => "connect-timeout"
    case ServerPollTimeout => "server-poll-timeout"
    case AllowCompression => "allow-compression"
    case NsCertType => "ns-cert-type"
    case RemoteCertTls => "remote-cert-tls"
    case TlsRemote => "tls-remote"
    case TlsVersionMax => "tls-version-max"
    case TlsCrypt => "tls-crypt"
    case TlsCryptV2 => "tls-crypt-v2"
    case ExtraCerts => "extra-certs"
  }

  function SpellFlag(k: FlagKw): string {
    match k
    case Float => "float"
    case RemoteRandom => "remote-random"
    case RemoteRandomHostname => "remote-random-hostname"
    case PushPeerInfo => "push-peer-info"
    case TunIpv6 => "tun-ipv6"
    case AllowPullFqdn => "allow-pull-fqdn"
  }

  function SpellCarrier(k: CarrierKw): string {
    match k
    case Proto => "proto"
    case Remote => "remote"
    case Mssfix => "mssfix"
    case CompLzo => "comp-lzo"
    case Compress => "compress"
    case HttpProxy => "http-proxy"
    case SocksProxy => "socks-proxy"
    case Ifconfig => "ifconfig"
    case Route => "route"
    case Keepalive => "keepalive"
  }

  function SpellTrust(k: TrustKw): string {
    match k
    case AuthUserPass => "auth-user-pass"
    case Ca => "ca"
    case Cert => "cert"
    case Key => "key"
    case Pkcs12 => "pkcs12"
    case Secret => "secret"
    case TlsAuth => "tls-auth"
    case KeyDirection => "key-direction"
    case CrlVerify => "crl-verify"
    case VerifyX509Name => "verify-x509-name"
    case TlsVersionMin => "tls-version-min"
  }

  function SpellQuiet(k: QuietKw): string {
    match k
    case Client => "client"
    case TlsClient => "tls-client"
    case MaxRoutes => "max-routes"
    case MtuDisc => "mtu-disc"
    case HttpProxyRetry => "http-proxy-retry"
    case SocksProxyRetry => "socks-proxy-retry"
    case Nobind => "nobind"
    case AuthNocache => "auth-nocache"
    case ScriptSecurity => "script-security"
    case PersistKey => "persist-key"
    case PersistTun => "persist-tun"
    case User => "user"
    case Group => "group"
    case RouteIpv6 => "route-ipv6"
    case RouteGateway => "route-gateway"
    case RouteMetric => "route-metric"
    case RouteDelay => "route-delay"
    case ProxyPort => "proxy-port"
    case StaticKeyDirection => "static-key-direction"
  }

  function Spell(k: Kw): string {
    match k
    case Plain(w) => SpellPlain(w)
    case Flag(w) => SpellFlag(w)
    case Carrier(w) => SpellCarrier(w)
    case Trust(w) => SpellTrust(w)
    case Quiet(w) => SpellQuiet(w)
  }

  predicate SpellsPlain(k: PlainKw, name: string) {
    SpellPlain(k) == name
  }

  predicate SpellsFlag(k: FlagKw, name: string) {
    SpellFlag(k) == name
  }

  predicate SpellsCarrier(k: CarrierKw, name: string) {
    SpellCarrier(k) == name
  }

  predicate SpellsTrust(k: TrustKw, name: string) {
    SpellTrust(k) == name
  }

  predicate SpellsQuiet(k: QuietKw, name: string) {
    SpellQuiet(k) == name
  }

  /** The known option with this name, if there is one. */
  function Keyword(name: string): (k: Option<Kw>)
    ensures k.Some? ==> Spell(k.value) == name
  {
    SpellIsInjective(name);
    if exists p :: SpellsPlain(p, name) then var p :| SpellsPlain(p, name); Some(Plain(p))
    else if exists f :: SpellsFlag(f, name) then var f :| SpellsFlag(f, name); Some(Flag(f))
    else if exists c :: SpellsCarrier(c, name) then var c :| SpellsCarrier(c, name); Some(Carrier(c))
    else if exists t :: SpellsTrust(t, name) then var t :| SpellsTrust(t, name); Some(Trust(t))
    else if exists q :: SpellsQuiet(q, name) then var q :| SpellsQuiet(q, name); Some(Quiet(q))
    else None
  }

  lemma KeywordOfSpelling(k: Kw)
    ensures Keyword(Spell(k)) == Some(k)
  {
    KeywordIs(k, Spell(k));
  }

  lemma KeywordIs(k: Kw, name: string)
    requires Spells(k, name)
    ensures Keyword(name) == Some(k)
  {
    SpellIsInjective(name);
    assert || (k.Plain? && SpellsPlain(k.plain, name))
           || (k.Flag? && SpellsFlag(k.flag, name))
           || (k.Carrier? && SpellsCarrier(k.carrier, name))
           || (k.Trust? && SpellsTrust(k.trust, name))
           || (k.Quiet? && SpellsQuiet(k.quiet, name));
    assert Spells(Keyword(name).value, name);
  }

  ghost predicate Spells(k: Kw, name: string) {
    Spell(k) == name
  }

  /** A name is recognised exactly as the option it spells. */
  lemma NameIs(name: string, k: Kw)
    ensures name == Spell(k) <==> Keyword(name) == Some(k)
  {
    if name == Spell(k) {
      assert Spells(k, name);
      KeywordIs(k, name);
    }
  }

  /** No two options share a name. */
  lemma SpellIsInjective(name: string)
    ensures forall j, k :: Spells(j, name) && Spells(k, name) ==> j == k
    ensures forall j, k :: SpellsPlain(j, name) && SpellsPlain(k, name) ==> j == k
    ensures forall j, k :: SpellsFlag(j, name) && SpellsFlag(k, name) ==> j == k
    ensures forall j, k :: SpellsCarrier(j, name) && SpellsCarrier(k, name) ==> j == k
    ensures forall j, k :: SpellsTrust(j, name) && SpellsTrust(k, name) ==> j == k
    ensures forall j, k :: SpellsQuiet(j, name) && SpellsQuiet(k, name) ==> j == k
  {
    forall j, k | Spells(j, name) && Spells(k, name) ensures j == k {
      SpellingNumber(j);
      SpellingNumber(k);
      Numbered(j);
      Numbered(k);
    }
    forall j, k | SpellsPlain(j, name) && SpellsPlain(k, name) ensures j == k {
      assert Spells(Plain(j), name) && Spells(Plain(k), name);
    }
    forall j, k | SpellsFlag(j, name) && SpellsFlag(k, name) ensures j == k {
      assert Spells(Flag(j), name) && Spells(Flag(k), name);
    }
    forall j, k | SpellsCarrier(j, name) && SpellsCarrier(k, name) ensures j == k {
      assert Spells(Carrier(j), name) && Spells(Carrier(k), name);
    }
    forall j, k | SpellsTrust(j, name) && SpellsTrust(k, name) ensures j == k {
      assert Spells(Trust(j), name) && Spells(Trust(k), name);
    }
    forall j, k | SpellsQuiet(j, name) && SpellsQuiet(k, name) ensures j == k {
      assert Spells(Quiet(j), name) && Spells(Quiet(k), name);
    }
  }

  // A number computed from the spelling that differs between any two names.

  function NameNumber(s: string): int {
    if |s| < 2 then 0 else |s| + 2 * (s[0] as int) + 25 * (s[|s| - 2] as int)
  }

  function PlainNumber(k: PlainKw): int {
    match k
    case Dev => 2728
    case DevType => 3008
    case Port => 3078
    case Cipher => 2729
    case DataCiphers => 3062
    case DataCiphersFallback => 2696
    case Auth => 3098
    case Keysize => 3271
    case TlsCipher => 2767
    case TunMtu => 3139
    case Fragment => 2962
    case Ping => 2978
    case PingExit => 2858
    case PingRestart => 3086
    case RenegSec => 2762
    case ConnectTimeout => 3138
    case ServerPollTimeout => 3174
    case AllowCompression => 2986
    case NsCertType => 3032
    case RemoteCertTls => 2943
    case TlsRemote => 3142
    case TlsVersionMax => 2672
    case TlsCrypt => 3041
    case TlsCryptV2 => 3194
    case ExtraCerts => 3113
  }

  function FlagNumber(k: FlagKw): int {
    match k
    case Float => 2634
    case RemoteRandom => 3016
    case RemoteRandomHostname => 2975
    case PushPeerInfo => 2788
    case TunIpv6 => 3190
    case AllowPullFqdn => 2709
  }

  function CarrierNumber(k: CarrierKw): int {
    match k
    case Proto => 3129
    case Remote => 3134
    case Mssfix => 2849
    case CompLzo => 3256
    case Compress => 3081
    case HttpProxy => 3218
    case SocksProxy => 3241
    case Ifconfig => 2843
    case Route => 3133
    case Keepalive => 3173
  }

  function TrustNumber(k: TrustKw): int {
    match k
    case AuthUserPass => 3083
    case Ca => 2675
    case Cert => 3052
    case Key => 2742
    case Pkcs12 => 1455
    case Secret => 2761
    case TlsAuth => 3140
    case KeyDirection => 3002
    case CrlVerify => 2758
    case VerifyX509Name => 2977
    case TlsVersionMin => 2872
  }

  function QuietNumber(k: QuietKw): int {
    match k
    case Client => 2954
    case TlsClient => 2992
    case MaxRoutes => 2753
    case MtuDisc => 3101
    case HttpProxyRetry => 3074
    case SocksProxyRetry => 3097
    case Nobind => 2976
    case AuthNocache => 2806
    case ScriptSecurity => 3145
    case PersistKey => 2760
    case PersistTun => 3160
    case User => 2763
    case Group => 3136
    case RouteIpv6 => 3188
    case RouteGateway => 2666
    case RouteMetric => 2865
    case RouteDelay => 2664
    case ProxyPort => 3084
    case StaticKeyDirection => 3025
  }

  function KwNumber(k: Kw): int {
    match k
    case Plain(w) => PlainNumber(w)
    case Flag(w) => FlagNumber(w)
    case Carrier(w) => CarrierNumber(w)
    case Trust(w) => TrustNumber(w)
    case Quiet(w) => QuietNumber(w)
  }

  function KwWithNumber(n: int): Kw {
    if n < 2767 then KwInRange0(n)
    else if n < 3008 then KwInRange1(n)
    else if n < 3133 then KwInRange2(n)
    else KwInRange3(n)
  }

  function KwInRange0(n: int): Kw {
    if n == 1455 then Trust(Pkcs12)
    else if n == 2634 then Flag(Float)
    else if n == 2664 then Quiet(RouteDelay)
    else if n == 2666 then Quiet(RouteGateway)
    else if n == 2672 then Plain(TlsVersionMax)
    else if n == 2675 then Trust(Ca)
    else if n == 2696 then Plain(DataCiphersFallback)
    else if n == 2709 then Flag(AllowPullFqdn)
    else if n == 2728 then Plain(Dev)
    else if n == 2729 then Plain(Cipher)
    else if n == 2742 then Trust(Key)
    else if n == 2753 then Quiet(MaxRoutes)
    else if n == 2758 then Trust(CrlVerify)
    else if n == 2760 then Quiet(PersistKey)
    else if n == 2761 then Trust(Secret)
    else if n == 2762 then Plain(RenegSec)
    else Quiet(User)
  }

  function KwInRange1(n: int): Kw {
    if n == 2767 then Plain(TlsCipher)
    else if n == 2788 then Flag(PushPeerInfo)
    else if n == 2806 then Quiet(AuthNocache)
    else if n == 2843 then Carrier(Ifconfig)
    else if n == 2849 then Carrier(Mssfix)
    else if n == 2858 then Plain(PingExit)
    else if n == 2865 then Quiet(RouteMetric)
    else if n == 2872 then Trust(TlsVersionMin)
    else if n == 2943 then Plain(RemoteCertTls)
    else if n == 2954 then Quiet(Client)
    else if n == 2962 then Plain(Fragment)
    else if n == 2975 then Flag(RemoteRandomHostname)
    else if n == 2976 then Quiet(Nobind)
    else if n == 2977 then Trust(VerifyX509Name)
    else if n == 2978 then Plain(Ping)
    else if n == 2986 then Plain(AllowCompression)
    else if n == 2992 then Quiet(TlsClient)
    else Trust(KeyDirection)
  }

  function KwInRange2(n: int): Kw {
    if n == 3008 then Plain(DevType)
    else if n == 3016 then Flag(RemoteRandom)
    else if n == 3025 then Quiet(StaticKeyDirection)
    else if n == 3032 then Plain(NsCertType)
    else if n == 3041 then Plain(TlsCrypt)
    else if n == 3052 then Trust(Cert)
    else if n == 3062 then Plain(DataCiphers)
    else if n == 3074 then Quiet(HttpProxyRetry)
    else if n == 3078 then Plain(Port)
    else if n == 3081 then Carrier(Compress)
    else if n == 3083 then Trust(AuthUserPass)
    else if n == 3084 then Quiet(ProxyPort)
    else if n == 3086 then Plain(PingRestart)
    else if n == 3097 then Quiet(SocksProxyRetry)
    else if n == 3098 then Plain(Auth)
    else if n == 3101 then Quiet(MtuDisc)
    else if n == 3113 then Plain(ExtraCerts)
    else Carrier(Proto)
  }

  function KwInRange3(n: int): Kw {
    if n == 3133 then Carrier(Route)
    else if n == 3134 then Carrier(Remote)
    else if n == 3136 then Quiet(Group)
    else if n == 3138 then Plain(ConnectTimeout)
    else if n == 3139 then Plain(TunMtu)
    else if n == 3140 then Trust(TlsAuth)
    else if n == 3142 then Plain(TlsRemote)
    else if n == 3145 then Quiet(ScriptSecurity)
    else if n == 3160 then Quiet(PersistTun)
    else if n == 3173 then Carrier(Keepalive)
    else if n == 3174 then Plain(ServerPollTimeout)
    else if n == 3188 then Quiet(RouteIpv6)
    else if n == 3190 then Flag(TunIpv6)
    else if n == 3194 then Plain(TlsCryptV2)
    else if n == 3218 then Carrier(HttpProxy)
    else if n == 3241 then Carrier(SocksProxy)
    else if n == 3256 then Carrier(CompLzo)
    else Plain(Keysize)
  }

  lemma SpellingNumber(k: Kw)
    ensures NameNumber(Spell(k)) == KwNumber(k)
    ensures Spell(k) != "" && Spell(k)[0] != '-' && Spell(k)[0] != '<'
  {
    match k
    case Plain(w) => PlainSpellingNumber(w);
    case Flag(w) => FlagSpellingNumber(w);
    case Carrier(w) => CarrierSpellingNumber(w);
    case Trust(w) => TrustSpellingNumber(w);
    case Quiet(w) => QuietSpellingNumber(w);
  }

  lemma Numbered(k: Kw)
    ensures KwWithNumber(KwNumber(k)) == k
  {
    match k
    case Plain(w) => PlainNumbered(w);
    case Flag(w) => FlagNumbered(w);
    case Carrier(w) => CarrierNumbered(w);
    case Trust(w) => TrustNumbered(w);
    case Quiet(w) => QuietNumbered(w);
  }

  lemma PlainSpellingNumber(k: PlainKw)
    ensures NameNumber(SpellPlain(k)) == PlainNumber(k)
    ensures SpellPlain(k) != "" && SpellPlain(k)[0] != '-' && SpellPlain(k)[0] != '<'
  {
  }

  lemma PlainNumbered(k: PlainKw)
    ensures KwWithNumber(PlainNumber(k)) == Plain(k)
  {
  }

  lemma FlagSpellingNumber(k: FlagKw)
    ensures NameNumber(SpellFlag(k)) == FlagNumber(k)
    ensures SpellFlag(k) != "" && SpellFlag(k)[0] != '-' && SpellFlag(k)[0] != '<'
  {
  }

  lemma FlagNumbered(k: FlagKw)
    ensures KwWithNumber(FlagNumber(k)) == Flag(k)
  {
  }

  lemma CarrierSpellingNumber(k: CarrierKw)
    ensures NameNumber(SpellCarrier(k)) == CarrierNumber(k)
    ensures SpellCarrier(k) != "" && SpellCarrier(k)[0] != '-' && SpellCarrier(k)[0] != '<'
  {
  }

  lemma CarrierNumbered(k: CarrierKw)
    ensures KwWithNumber(CarrierNumber(k)) == Carrier(k)
  {
  }

  lemma TrustSpellingNumber(k: TrustKw)
    ensures NameNumber(SpellTrust(k)) == TrustNumber(k)
    ensures SpellTrust(k) != "" && SpellTrust(k)[0] != '-' && SpellTrust(k)[0] != '<'
  {
  }

  lemma TrustNumbered(k: TrustKw)
    ensures KwWithNumber(TrustNumber(k)) == Trust(k)
  {
  }

  lemma QuietSpellingNumber(k: QuietKw)
    ensures NameNumber(SpellQuiet(k)) == QuietNumber(k)
    ensures SpellQuiet(k) != "" && SpellQuiet(k)[0] != '-' && SpellQuiet(k)[0] != '<'
  {
  }

  lemma QuietNumbered(k: QuietKw)
    ensures KwWithNumber(QuietNumber(k)) == Quiet(k)
  {
  }
}
