/**
 * From directives to vpn.data: the loop of `as_nm_data`, the resolution of a
 * standalone `key-direction`, and the inference of the connection type.
 */
module Import {
  import opened Text
  import opened Names
  import opened Config
  import opened Remotes
  import K = Keys

  /** The variables of the import loop, except the pending `key-direction`. */
  datatype State = State(
    data: K.NmData,
    userPass: bool, cert: bool, key: bool, secret: bool, tlsAuth: bool)
  {
    function Put(k: K.NmKey, v: string): State {
      this.(data := data[k := v])
    }

    function PutIf(k: K.NmKey, v: Option<string>): State {
      if v.Some? then Put(k, v.value) else this
    }
  }

  const START := State(map[], false, false, false, false, false)

  function Arg(args: seq<string>, i: nat): Option<string> {
    if i < |args| then Some(args[i]) else None
  }

  function OrElse(v: Option<string>, default: string): string {
    if v.Some? then v.value else default
  }

  function PlainKey(p: PlainKw): K.NmKey {
    match p
    case Dev => K.Dev
    case DevType => K.DevType
    case Port => K.Port
    case Cipher => K.Cipher
    case DataCiphers => K.DataCiphers
    case DataCiphersFallback => K.DataCiphersFallback
    case Auth => K.Auth
    case Keysize => K.Keysize
    case TlsCipher => K.TlsCipher
    case TunMtu => K.TunnelMtu
    case Fragment => K.FragmentSize
    case Ping => K.Ping
    case PingExit => K.PingExit
    case PingRestart => K.PingRestart
    case RenegSec => K.RenegSeconds
    case ConnectTimeout => K.ConnectTimeout
    case ServerPollTimeout => K.ConnectTimeout
    case AllowCompression => K.AllowCompression
    case NsCertType => K.NsCertType
    case RemoteCertTls => K.RemoteCertTls
    case TlsRemote => K.TlsRemote
    case TlsVersionMax => K.TlsVersionMax
    case TlsCrypt => K.TlsCrypt
    case TlsCryptV2 => K.TlsCryptV2
    case ExtraCerts => K.ExtraCerts
  }

  function FlagKey(f: FlagKw): K.NmKey {
    match f
    case Float => K.Float
    case RemoteRandom => K.RemoteRandom
    case RemoteRandomHostname => K.RemoteRandomHostname
    case PushPeerInfo => K.PushPeerInfo
    case TunIpv6 => K.TunIpv6
    case AllowPullFqdn => K.AllowPullFqdn
  }

  /** `join(" ")` of the option name and its arguments. */
  function JoinWords(first: string, rest: seq<string>): string
    decreases |rest|
  {
    if rest == [] then first else JoinWords(first + [' '] + rest[0], rest[1..])
  }

  function AddLine(value: string, line: string): string {
    (if value == "" then "" else value + [LF]) + line
  }

  function ValueOrEmpty(data: K.NmData, k: K.NmKey): string {
    if k in data then data[k] else ""
  }

  function ApplyCarrier(st: State, c: CarrierKw, args: seq<string>): State {
    var a0, a1 := Arg(args, 0), Arg(args, 1);
    match c
    case Proto => if a0.Some? && !("udp" <= a0.value) then st.Put(K.ProtoTcp, K.YES) else st
    case Remote => st.Put(K.Remote, Extend(ValueOrEmpty(st.data, K.Remote), args))
    case Mssfix => st.Put(K.Mssfix, OrElse(a0, K.YES))
    case CompLzo =>
      var v := OrElse(a0, K.YES);
      st.Put(K.CompLzo, if v == "no" then "no-by-default" else v)
    case Compress => st.Put(K.Compress, OrElse(a0, K.YES))
    case HttpProxy =>
      if a0.None? then st
      else
        st.Put(K.ProxyType, "http").Put(K.ProxyServer, a0.value)
          .PutIf(K.ProxyPort, a1).PutIf(K.HttpProxyAuthFile, Arg(args, 2))
    case SocksProxy =>
      if a0.None? then st
      else st.Put(K.ProxyType, "socks").Put(K.ProxyServer, a0.value).PutIf(K.ProxyPort, a1)
    case Ifconfig =>
      if a0.Some? && a1.Some? then st.Put(K.LocalIp, a0.value).Put(K.RemoteIp, a1.value) else st
    case Route =>
      st.Put(K.ExtraRoutes, AddLine(ValueOrEmpty(st.data, K.ExtraRoutes), JoinWords("route", args)))
    case Keepalive =>
      if a0.Some? && a1.Some? then st.Put(K.Ping, a0.value).Put(K.PingRestart, a1.value) else st
  }

  /** The name to verify, with its type in front where one is given. */
  function TypedName(name: string, kind: Option<string>): string {
    if kind.Some? then kind.value + [':'] + name else name
  }

  function ApplyTrust(st: State, t: TrustKw, args: seq<string>): State {
    var a0, a1 := Arg(args, 0), Arg(args, 1);
    match t
    case AuthUserPass => st.(userPass := true)
    case VerifyX509Name =>
      st.Put(K.VerifyX509Name, TypedName(OrElse(a0, ""), a1))
    case TlsVersionMin =>
      var st1 := st.PutIf(K.TlsVersionMin, a0);
      if a1 == Some("or-highest") then st1.Put(K.TlsVersionMinOrHighest, K.YES) else st1
    case Ca => st.PutIf(K.Ca, a0)
    case Cert => st.PutIf(K.Cert, a0).(cert := st.cert || a0.Some?)
    case Key => st.PutIf(K.Key, a0).(key := st.key || a0.Some?)
    case Pkcs12 =>
      if a0.None? then st
      else st.Put(K.Ca, a0.value).Put(K.Cert, a0.value).Put(K.Key, a0.value).(cert := true, key := true)
    case Secret =>
      st.PutIf(K.StaticKey, a0).PutIf(K.StaticKeyDirection, a1).(secret := st.secret || a0.Some?)
    case TlsAuth => st.PutIf(K.Ta, a0).PutIf(K.TaDir, a1).(tlsAuth := true)
    case KeyDirection => st  // see `NextDirection`
    case CrlVerify =>
      if a0.None? then st
      else st.Put(if a1 == Some("dir") then K.CrlVerifyDir else K.CrlVerifyFile, a0.value)
  }

  function ApplyOption(st: State, k: Option<Kw>, args: seq<string>): State {
    match k
    case None => st
    case Some(Plain(p)) => st.PutIf(PlainKey(p), Arg(args, 0))
    case Some(Flag(f)) => st.Put(FlagKey(f), K.YES)
    case Some(Carrier(c)) => ApplyCarrier(st, c, args)
    case Some(Trust(t)) => ApplyTrust(st, t, args)
    case Some(Quiet(_)) => st
  }

  /** An inline blob only records that its slot is filled. */
  function ApplyBlob(st: State, k: Option<Kw>): State {
    match k
    case Some(Trust(Cert)) => st.(cert := true)
    case Some(Trust(Key)) => st.(key := true)
    case Some(Trust(Secret)) => st.(secret := true)
    case _ => st
  }

  function Apply(st: State, d: Directive): State {
    match d
    case Opt(name, args) => ApplyOption(st, Keyword(name), args)
    case Blob(name, _) => ApplyBlob(st, Keyword(name))
  }

  function Fold(st: State, ds: Directives): State
    decreases |ds|
  {
    if ds == [] then st else Fold(Apply(st, ds[0]), ds[1..])
  }

  predicate IsKeyDirection(d: Directive) {
    d.Opt? && Keyword(d.name) == Some(Trust(KeyDirection))
  }

  /** The pending standalone direction: the last `key-direction` with an argument. */
  function NextDirection(dir: Option<string>, d: Directive): Option<string> {
    if IsKeyDirection(d) && d.args != [] then Some(d.args[0]) else dir
  }

  function LastDirection(dir: Option<string>, ds: Directives): Option<string>
    decreases |ds|
  {
    if ds == [] then dir else LastDirection(NextDirection(dir, ds[0]), ds[1..])
  }

  function OrInsert(data: K.NmData, k: K.NmKey, v: string): K.NmData {
    if k in data then data else data[k := v]
  }

  /** Where a standalone direction ends up: on tls-auth first, and never over an inline one. */
  function Resolve(st: State, dir: Option<string>): K.NmData {
    if dir.None? then st.data
    else if st.tlsAuth then OrInsert(st.data, K.TaDir, dir.value)
    else if st.secret then OrInsert(st.data, K.StaticKeyDirection, dir.value)
    else st.data
  }

  function InferType(st: State): string {
    if st.secret then K.STATIC_KEY
    else if st.cert && st.key && st.userPass then K.PASSWORD_TLS
    else if st.cert && st.key then K.TLS
    else if st.userPass then K.PASSWORD
    else K.TLS
  }

  function Finish(st: State, dir: Option<string>): K.NmData {
    Resolve(st, dir)[K.ConnectionType := InferType(st)]
  }

  function AsNmData(ds: Directives): K.NmData {
    Finish(Fold(START, ds), LastDirection(None, ds))
  }

  method ProjectOntoNmData(ds: Directives) returns (data: K.NmData)
    ensures data == AsNmData(ds)
  {
    hide Apply, Finish, NextDirection;
    var st := START;
    var dir: Option<string> := None;
    assert ds[0..] == ds;
    for i := 0 to |ds|
      invariant Fold(START, ds) == Fold(st, ds[i..])
      invariant LastDirection(None, ds) == LastDirection(dir, ds[i..])
    {
      assert ds[i..][1..] == ds[i + 1..];
      st := Apply(st, ds[i]);
      dir := NextDirection(dir, ds[i]);
    }
    return Finish(st, dir);
  }

  lemma {:induction false} FoldAppend(st: State, a: Directives, b: Directives)
    ensures Fold(st, a + b) == Fold(Fold(st, a), b)
    decreases |a|
  {
    hide Apply;
    if a == [] {
      assert a + b == b;
    } else {
      FoldAppend(Apply(st, a[0]), a[1..], b);
      assert (a + b)[1..] == a[1..] + b;
    }
  }

  // ----- The standalone key-direction -----

  predicate NoKeyDirection(ds: Directives) {
    forall i :: 0 <= i < |ds| ==> !IsKeyDirection(ds[i])
  }

  lemma {:induction false} DirectionUnchanged(dir: Option<string>, ds: Directives)
    requires NoKeyDirection(ds)
    ensures LastDirection(dir, ds) == dir
    decreases |ds|
  {
    hide IsKeyDirection;
    if ds != [] {
      assert forall i :: 0 <= i < |ds[1..]| ==> ds[1..][i] == ds[i + 1];
      DirectionUnchanged(dir, ds[1..]);
    }
  }

  lemma {:induction false} DirectionAppend(dir: Option<string>, a: Directives, b: Directives)
    ensures LastDirection(dir, a + b) == LastDirection(LastDirection(dir, a), b)
    decreases |a|
  {
    hide NextDirection;
    if a == [] {
      assert a + b == b;
    } else {
      DirectionAppend(NextDirection(dir, a[0]), a[1..], b);
      assert (a + b)[1..] == a[1..] + b;
    }
  }

  function KeyDirectionLine(dir: string): Directive {
    Opt(Spell(Trust(KeyDirection)), [dir])
  }

  lemma KeyDirectionApplies(st: State, dir: string)
    ensures IsKeyDirection(KeyDirectionLine(dir))
    ensures Apply(st, KeyDirectionLine(dir)) == st
  {
    KeywordOfSpelling(Trust(KeyDirection));
  }

  /**
   * What one standalone `key-direction` adds, wherever it stands: nothing that an
   * inline direction already set, and nothing at all without a keyed directive.
   */
  lemma KeyDirectionEffect(a: Directives, b: Directives, dir: string)
    requires NoKeyDirection(a) && NoKeyDirection(b)
    ensures var st := Fold(START, a + b);
            var data := AsNmData(a + b);
            AsNmData(a + ([KeyDirectionLine(dir)] + b)) ==
            if st.tlsAuth then OrInsert(data, K.TaDir, dir)
            else if st.secret then OrInsert(data, K.StaticKeyDirection, dir)
            else data
  {
    hide Apply, IsKeyDirection, NoKeyDirection, InferType, KeyDirectionLine;
    var line := KeyDirectionLine(dir);
    FoldAppend(START, a, [line] + b);
    FoldAppend(START, a, b);
    DirectionAppend(None, a, [line] + b);
    DirectionAppend(None, a, b);
    assert ([line] + b)[1..] == b;
    KeyDirectionApplies(Fold(START, a), dir);
    DirectionUnchanged(None, a);
    DirectionUnchanged(None, b);
    DirectionUnchanged(Some(dir), b);
    DirectionOfLine(None, dir);
    FinishWithDirection(Fold(START, a + b), dir);
  }

  lemma DirectionOfLine(before: Option<string>, dir: string)
    ensures NextDirection(before, KeyDirectionLine(dir)) == Some(dir)
  {
    KeyDirectionApplies(START, dir);
  }

  lemma FinishWithDirection(st: State, dir: string)
    ensures Finish(st, Some(dir)) ==
            if st.tlsAuth then OrInsert(Finish(st, None), K.TaDir, dir)
            else if st.secret then OrInsert(Finish(st, None), K.StaticKeyDirection, dir)
            else Finish(st, None)
  {
  }

  /** Moving a single standalone `key-direction` anywhere changes nothing. */
  lemma KeyDirectionMoves(a: Directives, b: Directives, a': Directives, b': Directives, dir: string)
    requires NoKeyDirection(a) && NoKeyDirection(b) && NoKeyDirection(a') && NoKeyDirection(b')
    requires a + b == a' + b'
    ensures AsNmData(a + ([KeyDirectionLine(dir)] + b)) == AsNmData(a' + ([KeyDirectionLine(dir)] + b'))
  {
    hide AsNmData, IsKeyDirection;
    KeyDirectionEffect(a, b, dir);
    KeyDirectionEffect(a', b', dir);
  }

  // ----- Inline directions -----

  /** The two keyed directives and the key their second argument is stored under. */
  function DirectionKey(s: TrustKw): K.NmKey
    requires s == TlsAuth || s == Secret
  {
    if s == TlsAuth then K.TaDir else K.StaticKeyDirection
  }

  function Lookup(data: K.NmData, k: K.NmKey): Option<string> {
    if k in data then Some(data[k]) else None
  }

  predicate IsTrust(d: Directive, s: TrustKw) {
    d.Opt? && Keyword(d.name) == Some(Trust(s))
  }

  function NextInline(dir: Option<string>, d: Directive, s: TrustKw): Option<string> {
    if IsTrust(d, s) && |d.args| > 1 then Some(d.args[1]) else dir
  }

  /** The last inline direction of the directives named `s`. */
  function LastInline(dir: Option<string>, ds: Directives, s: TrustKw): Option<string>
    decreases |ds|
  {
    if ds == [] then dir else LastInline(NextInline(dir, ds[0], s), ds[1..], s)
  }

  predicate Occurs(ds: Directives, s: TrustKw) {
    exists i :: 0 <= i < |ds| && IsTrust(ds[i], s)
  }

  lemma PutIfReads(st: State, k: K.NmKey, v: Option<string>, key: K.NmKey)
    ensures Lookup(st.PutIf(k, v).data, key) == if key == k && v.Some? then v else Lookup(st.data, key)
    ensures v.Some? ==> st.PutIf(k, v) == st.Put(k, v.value)
  {
  }

  function CrlKey(args: seq<string>): K.NmKey {
    if Arg(args, 1) == Some("dir") then K.CrlVerifyDir else K.CrlVerifyFile
  }

  /** Keys that the options about single files and names do not write. */
  predicate IsNoFile(key: K.NmKey) {
    key == K.TaDir || key == K.StaticKeyDirection || key == K.Remote || key == K.ExtraRoutes
  }

  lemma FilesLeave(st: State, t: TrustKw, args: seq<string>, key: K.NmKey)
    requires IsNoFile(key) && (t == Ca || t == Cert || t == Key || t == CrlVerify)
    ensures Lookup(ApplyTrust(st, t, args).data, key) == Lookup(st.data, key)
  {
    hide Lookup;
    var a0 := Arg(args, 0);
    match t {
      case Ca => PutIfReads(st, K.Ca, a0, key);
      case Cert => PutIfReads(st, K.Cert, a0, key);
      case Key => PutIfReads(st, K.Key, a0, key);
      case CrlVerify => PutIfReads(st, CrlKey(args), a0, key);
      case _ =>
    }
  }

  lemma NameLeaves(st: State, args: seq<string>, key: K.NmKey)
    requires IsNoFile(key)
    ensures Lookup(ApplyTrust(st, VerifyX509Name, args).data, key) == Lookup(st.data, key)
  {
    hide Lookup, TypedName;
    PutIfReads(st, K.VerifyX509Name, Some(TypedName(OrElse(Arg(args, 0), ""), Arg(args, 1))), key);
  }

  lemma VersionLeaves(st: State, args: seq<string>, key: K.NmKey)
    requires IsNoFile(key)
    ensures Lookup(ApplyTrust(st, TlsVersionMin, args).data, key) == Lookup(st.data, key)
  {
    hide Lookup;
    var st1 := st.PutIf(K.TlsVersionMin, Arg(args, 0));
    PutIfReads(st, K.TlsVersionMin, Arg(args, 0), key);
    PutIfReads(st1, K.TlsVersionMinOrHighest, Some(K.YES), key);
  }

  lemma FlagsLeave(st: State, t: TrustKw, args: seq<string>)
    requires t == AuthUserPass || t == KeyDirection
    ensures ApplyTrust(st, t, args).data == st.data
  {}

  lemma OthersLeave(st: State, t: TrustKw, args: seq<string>, key: K.NmKey)
    requires IsNoFile(key) && t != TlsAuth && t != Secret
    ensures Lookup(ApplyTrust(st, t, args).data, key) == Lookup(st.data, key)
  {
    hide ApplyTrust, Lookup, IsNoFile;
    match t {
      case Pkcs12 => BundleLeaves(st, args, key);
      case VerifyX509Name => NameLeaves(st, args, key);
      case TlsVersionMin => VersionLeaves(st, args, key);
      case AuthUserPass => FlagsLeave(st, t, args);
      case KeyDirection => FlagsLeave(st, t, args);
      case _ => FilesLeave(st, t, args, key);
    }
  }

  lemma BundleLeaves(st: State, args: seq<string>, key: K.NmKey)
    requires IsNoFile(key)
    ensures Lookup(ApplyTrust(st, Pkcs12, args).data, key) == Lookup(st.data, key)
  {
    hide Lookup;
    if |args| > 0 {
      var path := Some(args[0]);
      var st1 := st.Put(K.Ca, args[0]);
      PutIfReads(st, K.Ca, path, key);
      PutIfReads(st1, K.Cert, path, key);
      PutIfReads(st1.Put(K.Cert, args[0]), K.Key, path, key);
    }
  }

  lemma TrustTracksInline(st: State, t: TrustKw, args: seq<string>, s: TrustKw)
    requires s == TlsAuth || s == Secret
    ensures var k := DirectionKey(s);
            Lookup(ApplyTrust(st, t, args).data, k) ==
            if t == s && |args| > 1 then Some(args[1]) else Lookup(st.data, k)
  {
    hide Lookup, OrElse, TypedName;
    var k, a0, a1 := DirectionKey(s), Arg(args, 0), Arg(args, 1);
    match t {
      case TlsAuth =>
        PutIfReads(st, K.Ta, a0, k);
        PutIfReads(st.PutIf(K.Ta, a0), K.TaDir, a1, k);
      case Secret =>
        PutIfReads(st, K.StaticKey, a0, k);
        PutIfReads(st.PutIf(K.StaticKey, a0), K.StaticKeyDirection, a1, k);
      case _ => OthersLeave(st, t, args, k);
    }
  }

  lemma TrustTracksFlags(st: State, t: TrustKw, args: seq<string>)
    ensures ApplyTrust(st, t, args).tlsAuth == (st.tlsAuth || t == TlsAuth)
    ensures ApplyTrust(st, t, args).secret == (st.secret || (t == Secret && args != []))
  {
    hide OrElse;
    match t {
      case AuthUserPass =>
      case Ca =>
      case Cert =>
      case Key =>
      case Pkcs12 =>
      case Secret =>
      case TlsAuth =>
      case KeyDirection =>
      case CrlVerify =>
      case VerifyX509Name =>
      case TlsVersionMin =>
    }
  }

  lemma CarrierKeepsDirections(st: State, c: CarrierKw, args: seq<string>, s: TrustKw)
    requires s == TlsAuth || s == Secret
    ensures Lookup(ApplyCarrier(st, c, args).data, DirectionKey(s)) == Lookup(st.data, DirectionKey(s))
  {
    hide Extend, JoinWords, AddLine, ValueOrEmpty, OrElse;
    match c {
      case Proto =>
      case Remote =>
      case Mssfix =>
      case CompLzo =>
      case Compress =>
      case HttpProxy =>
      case SocksProxy =>
      case Ifconfig =>
      case Route =>
      case Keepalive =>
    }
  }

  lemma CarrierKeepsFlags(st: State, c: CarrierKw, args: seq<string>)
    ensures ApplyCarrier(st, c, args).tlsAuth == st.tlsAuth && ApplyCarrier(st, c, args).secret == st.secret
  {
    hide Extend, JoinWords, AddLine, ValueOrEmpty, OrElse;
    match c {
      case Proto =>
      case Remote =>
      case Mssfix =>
      case CompLzo =>
      case Compress =>
      case HttpProxy =>
      case SocksProxy =>
      case Ifconfig =>
      case Route =>
      case Keepalive =>
    }
  }

  lemma CopiesAreNoDirections(p: PlainKw, f: FlagKw, s: TrustKw)
    requires s == TlsAuth || s == Secret
    ensures PlainKey(p) != DirectionKey(s) && FlagKey(f) != DirectionKey(s)
  {
  }

  lemma OptionTracksInline(st: State, k: Option<Kw>, args: seq<string>, s: TrustKw)
    requires s == TlsAuth || s == Secret
    ensures Lookup(ApplyOption(st, k, args).data, DirectionKey(s)) ==
            if k == Some(Trust(s)) && |args| > 1 then Some(args[1]) else Lookup(st.data, DirectionKey(s))
  {
    hide ApplyCarrier, ApplyTrust, PlainKey, FlagKey, DirectionKey;
    match k
    case Some(Plain(p)) => CopiesAreNoDirections(p, Float, s);
    case Some(Flag(f)) => CopiesAreNoDirections(Dev, f, s);
    case Some(Trust(t)) => TrustTracksInline(st, t, args, s);
    case Some(Carrier(c)) => CarrierKeepsDirections(st, c, args, s);
    case _ =>
  }

  lemma OptionTracksFlags(st: State, k: Option<Kw>, args: seq<string>)
    ensures var r := ApplyOption(st, k, args);
            && r.tlsAuth == (st.tlsAuth || k == Some(Trust(TlsAuth)))
            && r.secret == (st.secret || (k == Some(Trust(Secret)) && args != []))
  {
    hide ApplyCarrier, ApplyTrust, PlainKey, FlagKey;
    match k
    case Some(Trust(t)) => TrustTracksFlags(st, t, args);
    case Some(Carrier(c)) => CarrierKeepsFlags(st, c, args);
    case _ =>
  }

  lemma ApplyTracksInline(st: State, d: Directive, s: TrustKw)
    requires s == TlsAuth || s == Secret
    ensures Lookup(Apply(st, d).data, DirectionKey(s)) == NextInline(Lookup(st.data, DirectionKey(s)), d, s)
    ensures Apply(st, d).tlsAuth == (st.tlsAuth || IsTrust(d, TlsAuth))
  {
    hide Keyword, ApplyOption, DirectionKey;
    if d.Opt? {
      OptionTracksInline(st, Keyword(d.name), d.args, s);
      OptionTracksFlags(st, Keyword(d.name), d.args);
    }
  }

  lemma {:induction false} FoldTracksInline(st: State, ds: Directives, s: TrustKw)
    requires s == TlsAuth || s == Secret
    ensures Lookup(Fold(st, ds).data, DirectionKey(s)) == LastInline(Lookup(st.data, DirectionKey(s)), ds, s)
    ensures Fold(st, ds).tlsAuth == (st.tlsAuth || Occurs(ds, TlsAuth))
    decreases |ds|
  {
    hide Apply, IsTrust, NextInline;
    if ds != [] {
      ApplyTracksInline(st, ds[0], s);
      FoldTracksInline(Apply(st, ds[0]), ds[1..], s);
      assert forall i :: 1 <= i < |ds| ==> ds[i] == ds[1..][i - 1];
      assert forall i :: 0 <= i < |ds[1..]| ==> ds[1..][i] == ds[i + 1];
    }
  }

  /**
   * An inline direction on tls-auth is what the import keeps, whatever standalone
   * line stands beside it; without a tls-auth option the same holds for secret.
   */
  lemma InlineDirectionWins(a: Directives, b: Directives, dir: string, s: TrustKw)
    requires NoKeyDirection(a) && NoKeyDirection(b)
    requires s == TlsAuth || (s == Secret && !Occurs(a + b, TlsAuth))
    requires LastInline(None, a + b, s).Some?
    ensures AsNmData(a + ([KeyDirectionLine(dir)] + b)) == AsNmData(a + b)
    ensures Lookup(AsNmData(a + b), DirectionKey(s)) == LastInline(None, a + b, s)
  {
    hide Apply, IsKeyDirection, InferType, KeyDirectionLine, IsTrust, LastInline, Occurs, NoKeyDirection;
    KeyDirectionEffect(a, b, dir);
    DirectionAppend(None, a, b);
    DirectionUnchanged(None, a);
    DirectionUnchanged(None, b);
    FoldTracksInline(START, a + b, s);
    if s == TlsAuth {
      InlineOccurs(None, a + b, s);
    }
  }

  lemma {:induction false} InlineOccurs(dir: Option<string>, ds: Directives, s: TrustKw)
    ensures LastInline(dir, ds, s) == dir || Occurs(ds, s)
    decreases |ds|
  {
    hide IsTrust;
    if ds != [] {
      InlineOccurs(NextInline(dir, ds[0], s), ds[1..], s);
      assert forall i :: 0 <= i < |ds[1..]| ==> ds[1..][i] == ds[i + 1];
    }
  }
}
