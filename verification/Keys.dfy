/** The vpn.data keys the plugin names; any other key is `Other` of its name. */
module Keys {
  import opened Text

  datatype NmKey =
    | Remote | ConnectionType
    | RemoteRandom | RemoteRandomHostname | AllowPullFqdn | TunIpv6 | PushPeerInfo | Float
    | Ca | Cert | Key | StaticKey | StaticKeyDirection
    | RenegSeconds | MaxRoutes | Cipher | DataCiphers | DataCiphersFallback | TlsCipher | Keysize
    | AllowCompression | Auth | MtuDisc | TunnelMtu | ConnectTimeout | FragmentSize | Port
    | Ping | PingExit | PingRestart | CompLzo | Compress | Mssfix
    | LocalIp | RemoteIp | ExtraRoutes
    | VerifyX509Name | Ta | TaDir | TlsCrypt | TlsCryptV2 | TlsVersionMin | TlsVersionMinOrHighest
    | RemoteCertTls | NsCertType | TlsRemote | TlsVersionMax | ExtraCerts | CrlVerifyFile | CrlVerifyDir
    | Dev | DevType | TapDev | ProtoTcp
    | ProxyType | ProxyServer | ProxyPort | ProxyRetry | HttpProxyUsername | HttpProxyAuthFile
    | Username | Profile
    | OverrideRouteNopull | OverrideForceDefaultGateway | OverrideBlockIpv6
    | OverrideDnsSetupDisabled | OverrideDco | OverrideLogLevel
    | Other(name: string)

  type NmData = map<NmKey, string>

  const YES := "yes"

  /** A value counts only when it is not empty. */
  function Get(d: NmData, k: NmKey): Option<string> {
    if k in d && d[k] != "" then Some(d[k]) else None
  }

  predicate IsYes(d: NmData, k: NmKey) {
    Get(d, k) == Some(YES)
  }

  predicate HasValue(d: NmData, k: NmKey) {
    Get(d, k).Some?
  }

  // ----- Connection types -----

  const TLS := "tls"
  const PASSWORD := "password"
  const PASSWORD_TLS := "password-tls"
  const STATIC_KEY := "static-key"

  predicate TlsLike(d: NmData) {
    var t := Get(d, ConnectionType);
    t == Some(TLS) || t == Some(PASSWORD) || t == Some(PASSWORD_TLS)
  }

  predicate PasswordLike(d: NmData) {
    var t := Get(d, ConnectionType);
    t == Some(PASSWORD) || t == Some(PASSWORD_TLS)
  }

  predicate NeedsUserCert(d: NmData) {
    var t := Get(d, ConnectionType);
    t == Some(TLS) || t == Some(PASSWORD_TLS)
  }

  predicate StaticKeyMode(d: NmData) {
    Get(d, ConnectionType) == Some(STATIC_KEY)
  }
}
