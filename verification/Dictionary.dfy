/**
 * Save-As and re-import: for a dictionary in normal form, exporting, printing,
 * parsing and importing gives the dictionary back.
 */
module Dictionary {
  import opened Text
  import opened Names
  import opened Config
  import opened Remotes
  import opened Import
  import opened Export
  import opened Lexer
  import opened RouteLines
  import opened RouteText
  import RoundTrip
  import K = Keys

  // ----- Normal form -----

  /** Keys that only the TLS connection types carry. */
  predicate IsTlsKey(k: K.NmKey) {
    match k
    case Ca | VerifyX509Name | Ta | TaDir | TlsCrypt | TlsCryptV2 => true
    case TlsVersionMin | TlsVersionMinOrHighest | TlsVersionMax => true
    case RemoteCertTls | NsCertType | TlsRemote | ExtraCerts | CrlVerifyFile | CrlVerifyDir => true
    case _ => false
  }

  /** Keys with an export arm and an import arm, as far as the connection type lets them through. */
  predicate Allowed(d: K.NmData, k: K.NmKey) {
    match k
    case Cert | Key => K.NeedsUserCert(d)
    case StaticKey | StaticKeyDirection => K.StaticKeyMode(d)
    case MaxRoutes | MtuDisc | TapDev | ProxyRetry | HttpProxyUsername | HttpProxyAuthFile => false
    case Username | Profile | OverrideRouteNopull | OverrideForceDefaultGateway | OverrideBlockIpv6 => false
    case OverrideDnsSetupDisabled | OverrideDco | OverrideLogLevel | Other(_) => false
    case _ => IsTlsKey(k) ==> K.TlsLike(d)
  }

  predicate YesOrUnset(d: K.NmData, k: K.NmKey) {
    k in d ==> d[k] == K.YES
  }

  predicate SwitchesAreYes(d: K.NmData) {
    && (forall f: FlagKw :: YesOrUnset(d, FlagKey(f)))
    && YesOrUnset(d, K.ProtoTcp)
    && YesOrUnset(d, K.TlsVersionMinOrHighest)
  }

  /** The credentials that make the importer infer the same connection type. */
  predicate TypeIsInferable(d: K.NmData) {
    && (K.TlsLike(d) || K.StaticKeyMode(d))
    && (K.StaticKeyMode(d) ==> K.StaticKey in d)
    && (K.PasswordLike(d) && K.NeedsUserCert(d) ==> K.Cert in d && K.Key in d)
  }

  predicate ProxyIsComplete(d: K.NmData) {
    K.ProxyType in d || K.ProxyServer in d || K.ProxyPort in d ==>
      && K.ProxyType in d && K.ProxyServer in d && K.ProxyPort in d
      && (d[K.ProxyType] == "http" || d[K.ProxyType] == "socks")
  }

  predicate CompressionIsPlain(d: K.NmData) {
    && (K.CompLzo in d ==> d[K.CompLzo] != "no")
    && (K.Get(d, K.AllowCompression) == Some("no") ==> K.CompLzo !in d && K.Compress !in d)
  }

  predicate DependentsHaveBase(d: K.NmData) {
    && (K.TaDir in d ==> K.Ta in d)
    && (K.TlsVersionMinOrHighest in d ==> K.TlsVersionMin in d)
    && (K.LocalIp in d <==> K.RemoteIp in d)
    && !(K.CrlVerifyFile in d && K.CrlVerifyDir in d)
  }

  /** The value lists at least one entry, each in the form the importer writes. */
  ghost predicate IsRemoteText(v: string) {
    exists rs :: rs != [] && AllEntries(rs) && v == Encode(rs)
  }

  /** The value lists at least one single-spaced `route` line. */
  ghost predicate IsRouteText(v: string) {
    exists routes :: routes != [] && AllRoutes(routes) && v == TextFrom("", routes)
  }

  ghost predicate NormalForm(d: K.NmData) {
    && (forall k :: k in d ==> Allowed(d, k) && d[k] != "")
    && SwitchesAreYes(d)
    && TypeIsInferable(d)
    && ProxyIsComplete(d)
    && CompressionIsPlain(d)
    && DependentsHaveBase(d)
    && K.Dev in d
    && (K.Remote in d ==> IsRemoteText(d[K.Remote]))
    && (K.ExtraRoutes in d ==> IsRouteText(d[K.ExtraRoutes]))
  }

  /** A TLS connection with one gateway: the smallest normal form of its kind. */
  const SAMPLE: K.NmData := map[
    K.ConnectionType := K.TLS, K.Dev := "tun", K.Remote := "vpn", K.Ca := "/ca", K.Cert := "/c", K.Key := "/k"]

  lemma SampleRemote()
    ensures IsRemoteText("vpn")
  {
    var rs := [Remotes.Remote("vpn", None, None)];
    assert RemoteArgs(rs[0]) == ["vpn"];
    assert EncodeHost("vpn") == "vpn";
    assert EncodeArgs(["vpn"]) == "vpn";
    assert Encode(rs) == EncodeFrom(Extend("", ["vpn"]), rs[1..]) == "vpn";
    assert IsEntry(rs[0]);
  }

  lemma SampleIsNormal()
    ensures NormalForm(SAMPLE)
  {
    hide IsRemoteText, IsRouteText;
    SampleRemote();
  }

  // ----- Folding one segment -----

  function Restrict(d: K.NmData, ks: set<K.NmKey>): K.NmData {
    map k | k in d && k in ks :: d[k]
  }

  /** The state after copying the values of `ks` out of `d`. */
  function Take(st: State, d: K.NmData, ks: set<K.NmKey>): State {
    st.(data := st.data + Restrict(d, ks))
  }

  lemma TakeTwice(st: State, d: K.NmData, a: set<K.NmKey>, b: set<K.NmKey>)
    ensures Take(Take(st, d, a), d, b) == Take(st, d, a + b)
  {
    assert (st.data + Restrict(d, a)) + Restrict(d, b) == st.data + Restrict(d, a + b);
  }

  lemma TakeNothing(st: State, d: K.NmData, ks: set<K.NmKey>)
    requires forall k :: k in ks ==> k !in d
    ensures Take(st, d, ks) == st
  {
    assert st.data + Restrict(d, ks) == st.data;
  }

  lemma PutIsTake(st: State, d: K.NmData, k: K.NmKey)
    requires k in d
    ensures st.Put(k, d[k]) == Take(st, d, {k})
  {
    assert st.data[k := d[k]] == st.data + Restrict(d, {k});
  }

  lemma PutBoth(st: State, d: K.NmData, k: K.NmKey, k': K.NmKey)
    requires k in d && k' in d
    ensures st.Put(k, d[k]).Put(k', d[k']) == Take(st, d, {k, k'})
  {
    assert st.data[k := d[k]][k' := d[k']] == st.data + Restrict(d, {k, k'});
  }

  lemma PutFirst(st: State, d: K.NmData, k: K.NmKey, k': K.NmKey)
    requires k in d && k' !in d
    ensures st.Put(k, d[k]) == Take(st, d, {k, k'})
  {
    assert st.data[k := d[k]] == st.data + Restrict(d, {k, k'});
  }

  lemma FoldOne(st: State, kw: Kw, args: seq<string>)
    ensures Fold(st, [Opt(Spell(kw), args)]) == ApplyOption(st, Some(kw), args)
  {
    hide ApplyOption, Spell;
    KeywordOfSpelling(kw);
    assert [Opt(Spell(kw), args)][1..] == [];
  }

  lemma FoldNone(st: State)
    ensures Fold(st, []) == st
  {
  }

  lemma FoldQuiet(st: State, on: bool, q: QuietKw)
    ensures Fold(st, FlagIf(on, Quiet(q))) == st
  {
    hide Fold;
    FoldNone(st);
    FoldOne(st, Quiet(q), []);
  }

  lemma FoldSwitch(st: State, d: K.NmData, f: FlagKw)
    requires YesOrUnset(d, FlagKey(f))
    ensures Fold(st, FlagIf(K.IsYes(d, FlagKey(f)), Flag(f))) == Take(st, d, {FlagKey(f)})
  {
    hide Fold, FlagKey, Take;
    FoldNone(st);
    FoldOne(st, Flag(f), []);
    if FlagKey(f) in d {
      PutIsTake(st, d, FlagKey(f));
    } else {
      TakeNothing(st, d, {FlagKey(f)});
    }
  }

  /** A pair the importer copies back, or whose key is not set. */
  predicate ComesBack(d: K.NmData, p: Pair) {
    && (p.key in d ==> d[p.key] != "")
    && (p.key in d ==> p.kw.Plain? && PlainKey(p.kw.plain) == p.key)
  }

  lemma FoldCopied(st: State, d: K.NmData, p: Pair)
    requires ComesBack(d, p)
    ensures Fold(st, Copied(d, p.key, p.kw)) == Take(st, d, {p.key})
  {
    hide Fold, PlainKey, Take;
    FoldNone(st);
    if p.key in d {
      FoldOne(st, p.kw, [d[p.key]]);
      PutIsTake(st, d, p.key);
    } else {
      TakeNothing(st, d, {p.key});
    }
  }

  lemma FoldPlain(st: State, d: K.NmData, p: PlainKw, k: K.NmKey)
    requires PlainKey(p) == k && (k in d ==> d[k] != "")
    ensures Fold(st, Copied(d, k, Plain(p))) == Take(st, d, {k})
  {
    FoldCopied(st, d, Pair(k, Plain(p)));
  }

  function TableKeys(table: seq<Pair>): set<K.NmKey>
    decreases |table|
  {
    if table == [] then {} else {table[0].key} + TableKeys(table[1..])
  }

  predicate TableComesBack(d: K.NmData, table: seq<Pair>) {
    forall i :: 0 <= i < |table| ==> ComesBack(d, table[i])
  }

  lemma {:induction false} FoldTable(st: State, d: K.NmData, table: seq<Pair>)
    requires TableComesBack(d, table)
    ensures Fold(st, CopiedAll(d, table)) == Take(st, d, TableKeys(table))
    decreases |table|
  {
    hide Fold, Take, ComesBack, Copied;
    if table == [] {
      FoldNone(st);
      TakeNothing(st, d, {});
    } else {
      var p := table[0];
      FoldCopied(st, d, p);
      FoldTable(Take(st, d, {p.key}), d, table[1..]);
      FoldAppend(st, Copied(d, p.key, p.kw), CopiedAll(d, table[1..]));
      TakeTwice(st, d, {p.key}, TableKeys(table[1..]));
    }
  }

  // ----- The segments with a rule of their own -----

  /** The facts about one key that hold in a normal form. */
  predicate Set(d: K.NmData, k: K.NmKey) {
    k in d ==> d[k] != ""
  }

  lemma {:induction false} FoldRemotes(st: State, rs: seq<Remotes.Remote>)
    ensures Fold(st, RemoteDirectives(rs)) ==
            if rs == [] then st else st.Put(K.Remote, EncodeFrom(ValueOrEmpty(st.data, K.Remote), rs))
    decreases |rs|
  {
    hide Fold, Extend, RemoteArgs;
    if rs == [] {
      FoldNone(st);
    } else {
      var args := RemoteArgs(rs[0]);
      var next := st.Put(K.Remote, Extend(ValueOrEmpty(st.data, K.Remote), args));
      FoldOne(st, Carrier(CarrierKw.Remote), args);
      FoldAppend(st, [RemoteDirective(rs[0])], RemoteDirectives(rs[1..]));
      FoldRemotes(next, rs[1..]);
    }
  }

  lemma FoldRemoteSegment(st: State, d: K.NmData)
    requires Set(d, K.Remote) && K.Remote !in st.data
    requires K.Remote in d ==> IsRemoteText(d[K.Remote])
    ensures Fold(st, RemoteSegment(d)) == Take(st, d, {K.Remote})
  {
    hide Fold, Take, EncodeFrom, Decode, AllEntries, RemoteDirectives;
    if K.Remote in d {
      var rs :| rs != [] && AllEntries(rs) && d[K.Remote] == Encode(rs);
      CodecIsLossless(rs);
      FoldRemotes(st, rs);
      PutIsTake(st, d, K.Remote);
    } else {
      FoldNone(st);
      TakeNothing(st, d, {K.Remote});
    }
  }

  lemma {:induction false} FoldRoutes(st: State, routes: seq<seq<string>>)
    ensures Fold(st, RouteDirectives(routes)) ==
            if routes == [] then st
            else st.Put(K.ExtraRoutes, TextFrom(ValueOrEmpty(st.data, K.ExtraRoutes), routes))
    decreases |routes|
  {
    hide Fold, AddLine, JoinWords, Spell, Keyword;
    if routes == [] {
      FoldNone(st);
    } else {
      var args := routes[0];
      var next := st.Put(K.ExtraRoutes, AddLine(ValueOrEmpty(st.data, K.ExtraRoutes), RouteLine(args)));
      RouteIsSpelled();
      FoldOne(st, Carrier(Route), args);
      FoldAppend(st, [Opt(ROUTE, args)], RouteDirectives(routes[1..]));
      FoldRoutes(next, routes[1..]);
    }
  }

  lemma RouteIsSpelled()
    ensures Spell(Carrier(Route)) == ROUTE
  {
  }

  lemma FoldRouteSegment(st: State, d: K.NmData)
    requires Set(d, K.ExtraRoutes) && K.ExtraRoutes !in st.data
    requires K.ExtraRoutes in d ==> IsRouteText(d[K.ExtraRoutes])
    ensures Fold(st, RouteSegment(d)) == Take(st, d, {K.ExtraRoutes})
  {
    hide Fold, Take, TextFrom, AllRoutes, LineDirectives, SafeLines, Lines, RouteDirectives;
    if K.ExtraRoutes in d {
      var routes :| routes != [] && AllRoutes(routes) && d[K.ExtraRoutes] == TextFrom("", routes);
      RouteTextReads(routes);
      FoldRoutes(st, routes);
      PutIsTake(st, d, K.ExtraRoutes);
    } else {
      NoRoutes(d);
      FoldNone(st);
      TakeNothing(st, d, {K.ExtraRoutes});
    }
  }

  lemma FoldFile(st: State, d: K.NmData, k: K.NmKey, v: Option<string>, t: TrustKw)
    requires (t == Ca && k == K.Ca) || (t == Cert && k == K.Cert) || (t == Key && k == K.Key)
    requires v == if k in d then Some(d[k]) else None
    ensures Fold(st, OptionalFile(v, Trust(t))) ==
            Take(st, d, {k}).(cert := st.cert || (t == Cert && k in d), key := st.key || (t == Key && k in d))
  {
    hide Fold;
    if k in d {
      FoldOne(st, Trust(t), [d[k]]);
      PutIsTake(st, d, k);
    } else {
      FoldNone(st);
      TakeNothing(st, d, {k});
    }
  }

  const PKI_KEYS: set<K.NmKey> := {K.Ca, K.Cert, K.Key}

  predicate PkiIsGated(d: K.NmData) {
    && Set(d, K.Ca) && Set(d, K.Cert) && Set(d, K.Key)
    && (K.Ca in d ==> K.TlsLike(d))
    && (K.Cert in d || K.Key in d ==> K.NeedsUserCert(d))
  }

  lemma FileStep(st: State, d: K.NmData, before: Directives, f: State, ks: set<K.NmKey>,
                 k: K.NmKey, v: Option<string>, t: TrustKw)
    requires Fold(st, before) == Take(f, d, ks)
    requires (t == Ca && k == K.Ca) || (t == Cert && k == K.Cert) || (t == Key && k == K.Key)
    requires v == if k in d then Some(d[k]) else None
    ensures Fold(st, before + OptionalFile(v, Trust(t))) ==
            Take(f.(cert := f.cert || (t == Cert && k in d), key := f.key || (t == Key && k in d)), d, ks + {k})
  {
    hide Fold, OptionalFile, Restrict;
    FoldAppend(st, before, OptionalFile(v, Trust(t)));
    FoldFile(Take(f, d, ks), d, k, v, t);
    TakeTwice(f, d, ks, {k});
  }

  lemma FoldNoFile(st: State, d: K.NmData)
    ensures Fold(st, []) == Take(st, d, {})
  {
    FoldNone(st);
    TakeNothing(st, d, {});
  }

  lemma TakeFlags(st: State, d: K.NmData, ks: set<K.NmKey>, cert: bool, key: bool)
    ensures Take(st.(cert := cert, key := key), d, ks) == Take(st, d, ks).(cert := cert, key := key)
  {
  }

  lemma FoldTwoFiles(st: State, d: K.NmData, ca: Directives, cert: Directives)
    requires PkiIsGated(d) && ca == OptionalFile(CaOf(d), Trust(Ca)) && cert == OptionalFile(CertOf(d), Trust(Cert))
    ensures Fold(st, ca + cert) == Take(st.(cert := st.cert || K.Cert in d, key := st.key), d, {K.Ca} + {K.Cert})
  {
    hide Fold, Take, OptionalFile, Restrict, PkiIsGated, CaOf, CertOf, KeyOf;
    FoldNoFile(st, d);
    assert [] + ca == ca;
    FilesAreThere(d);
    FileStep(st, d, [], st, {}, K.Ca, CaOf(d), Ca);
    assert {} + {K.Ca} == {K.Ca};
    assert st.(cert := st.cert, key := st.key) == st;
    FileStep(st, d, ca, st, {K.Ca}, K.Cert, CertOf(d), Cert);
  }

  lemma FoldSplitFiles(st: State, d: K.NmData)
    requires PkiIsGated(d)
    ensures Fold(st, SplitFiles(d)) ==
            Take(st, d, PKI_KEYS).(cert := st.cert || K.Cert in d, key := st.key || K.Key in d)
  {
    hide Fold, Take, OptionalFile, Restrict, PkiIsGated, CaOf, CertOf, KeyOf;
    var ca, cert := OptionalFile(CaOf(d), Trust(Ca)), OptionalFile(CertOf(d), Trust(Cert));
    FilesAreThere(d);
    FoldTwoFiles(st, d, ca, cert);
    var f := st.(cert := st.cert || K.Cert in d, key := st.key);
    FileStep(st, d, ca + cert, f, {K.Ca} + {K.Cert}, K.Key, KeyOf(d), Key);
    assert {K.Ca} + {K.Cert} + {K.Key} == PKI_KEYS;
    TakeFlags(st, d, PKI_KEYS, st.cert || K.Cert in d, st.key || K.Key in d);
  }

  lemma FilesAreThere(d: K.NmData)
    requires PkiIsGated(d)
    ensures CaOf(d) == (if K.Ca in d then Some(d[K.Ca]) else None)
    ensures CertOf(d) == (if K.Cert in d then Some(d[K.Cert]) else None)
    ensures KeyOf(d) == (if K.Key in d then Some(d[K.Key]) else None)
  {
  }

  lemma FoldPki(st: State, d: K.NmData)
    requires PkiIsGated(d)
    ensures Fold(st, ExportPki(d)) ==
            Take(st, d, PKI_KEYS).(cert := st.cert || K.Cert in d, key := st.key || K.Key in d)
  {
    hide Fold, IsPkcs12Path, SplitFiles;
    if CollapsesOnExport(d) {
      FoldOne(st, Trust(Pkcs12), [d[K.Cert]]);
      assert st.data[K.Ca := d[K.Cert]][K.Cert := d[K.Cert]][K.Key := d[K.Cert]] == st.data + Restrict(d, PKI_KEYS);
    } else {
      FoldSplitFiles(st, d);
    }
  }

  lemma FoldUserPass(st: State, on: bool)
    ensures Fold(st, FlagIf(on, Trust(AuthUserPass))) == st.(userPass := st.userPass || on)
  {
    hide Fold;
    FoldNone(st);
    FoldOne(st, Trust(AuthUserPass), []);
  }

  const SECRET_KEYS: set<K.NmKey> := {K.StaticKey, K.StaticKeyDirection}

  lemma FoldSecret(st: State, d: K.NmData)
    requires Set(d, K.StaticKey) && Set(d, K.StaticKeyDirection)
    requires K.StaticKey in d ==> K.StaticKeyMode(d)
    requires K.StaticKeyDirection in d ==> K.StaticKey in d
    ensures Fold(st, SecretSegment(d)) == Take(st, d, SECRET_KEYS).(secret := st.secret || K.StaticKey in d)
  {
    hide Fold, Take, Spell;
    if K.StaticKey !in d {
      FoldNone(st);
      TakeNothing(st, d, {K.StaticKey, K.StaticKeyDirection});
    } else if K.StaticKeyDirection in d {
      FoldOne(st, Trust(Secret), [d[K.StaticKey], d[K.StaticKeyDirection]]);
      assert [d[K.StaticKey]] + [d[K.StaticKeyDirection]] == [d[K.StaticKey], d[K.StaticKeyDirection]];
      PutBoth(st, d, K.StaticKey, K.StaticKeyDirection);
    } else {
      FoldOne(st, Trust(Secret), [d[K.StaticKey]]);
      assert [d[K.StaticKey]] + [] == [d[K.StaticKey]];
      PutFirst(st, d, K.StaticKey, K.StaticKeyDirection);
    }
  }

  const COMPRESSION_KEYS: set<K.NmKey> := {K.CompLzo, K.Compress}

  lemma FoldLzo(st: State, d: K.NmData)
    requires Set(d, K.CompLzo) && (K.CompLzo in d ==> d[K.CompLzo] != "no")
    ensures Fold(st, if K.HasValue(d, K.CompLzo) then [Valued(Carrier(CompLzo), LzoWord(d[K.CompLzo]))] else [])
         == Take(st, d, {K.CompLzo})
  {
    hide Fold, Take;
    if K.CompLzo in d {
      FoldOne(st, Carrier(CompLzo), [LzoWord(d[K.CompLzo])]);
      PutIsTake(st, d, K.CompLzo);
    } else {
      FoldNone(st);
      TakeNothing(st, d, {K.CompLzo});
    }
  }

  lemma FoldCompress(st: State, d: K.NmData)
    requires Set(d, K.Compress)
    ensures Fold(st, if !K.HasValue(d, K.Compress) then []
                     else if d[K.Compress] == K.YES then [Flagged(Carrier(Compress))]
                     else [Valued(Carrier(Compress), d[K.Compress])])
         == Take(st, d, {K.Compress})
  {
    hide Fold, Take;
    if K.Compress in d {
      FoldOne(st, Carrier(Compress), []);
      FoldOne(st, Carrier(Compress), [d[K.Compress]]);
      PutIsTake(st, d, K.Compress);
    } else {
      FoldNone(st);
      TakeNothing(st, d, {K.Compress});
    }
  }

  lemma FoldCompression(st: State, d: K.NmData)
    requires Set(d, K.CompLzo) && Set(d, K.Compress) && CompressionIsPlain(d)
    ensures Fold(st, CompressionSegment(d)) == Take(st, d, COMPRESSION_KEYS)
  {
    hide Fold, Take, LzoWord, Valued, Flagged;
    if K.Get(d, K.AllowCompression) == Some("no") {
      FoldNone(st);
      TakeNothing(st, d, COMPRESSION_KEYS);
    } else {
      var lzo := if K.HasValue(d, K.CompLzo) then [Valued(Carrier(CompLzo), LzoWord(d[K.CompLzo]))] else [];
      var comp := if !K.HasValue(d, K.Compress) then []
                  else if d[K.Compress] == K.YES then [Flagged(Carrier(Compress))]
                  else [Valued(Carrier(Compress), d[K.Compress])];
      FoldAppend(st, lzo, comp);
      FoldLzo(st, d);
      FoldCompress(Take(st, d, {K.CompLzo}), d);
      TakeTwice(st, d, {K.CompLzo}, {K.Compress});
      assert {K.CompLzo} + {K.Compress} == COMPRESSION_KEYS;
    }
  }

  lemma FoldMssfix(st: State, d: K.NmData)
    requires Set(d, K.Mssfix)
    ensures Fold(st, ExportMssfix(d)) == Take(st, d, {K.Mssfix})
  {
    hide Fold, Take;
    if K.Mssfix in d {
      FoldOne(st, Carrier(Mssfix), []);
      FoldOne(st, Carrier(Mssfix), [d[K.Mssfix]]);
      PutIsTake(st, d, K.Mssfix);
    } else {
      FoldNone(st);
      TakeNothing(st, d, {K.Mssfix});
    }
  }

  const ADDRESS_KEYS: set<K.NmKey> := {K.LocalIp, K.RemoteIp}

  lemma FoldAddress(st: State, d: K.NmData)
    requires Set(d, K.LocalIp) && Set(d, K.RemoteIp) && (K.LocalIp in d <==> K.RemoteIp in d)
    ensures Fold(st, AddressSegment(d)) == Take(st, d, ADDRESS_KEYS)
  {
    hide Fold;
    if K.LocalIp in d {
      FoldOne(st, Carrier(Ifconfig), [d[K.LocalIp], d[K.RemoteIp]]);
      assert st.data[K.LocalIp := d[K.LocalIp]][K.RemoteIp := d[K.RemoteIp]] == st.data + Restrict(d, ADDRESS_KEYS);
    } else {
      FoldNone(st);
      TakeNothing(st, d, ADDRESS_KEYS);
    }
  }

  /** A `type:` prefix is split off on export and put back on import; any other value passes as it is. */
  lemma FoldX509(st: State, d: K.NmData)
    requires Set(d, K.VerifyX509Name)
    ensures Fold(st, X509Segment(d)) == Take(st, d, {K.VerifyX509Name})
  {
    hide Fold, Take;
    if K.VerifyX509Name in d {
      var v := d[K.VerifyX509Name];
      var args := X509Args(v);
      var i := Find(v, ':');
      FoldOne(st, Trust(VerifyX509Name), args);
      if |args| == 2 {
        assert v == v[..i] + [':'] + v[i + 1..];
      }
      PutIsTake(st, d, K.VerifyX509Name);
    } else {
      FoldNone(st);
      TakeNothing(st, d, {K.VerifyX509Name});
    }
  }

  const TLS_AUTH_KEYS: set<K.NmKey> := {K.Ta, K.TaDir}

  lemma FoldTlsAuth(st: State, d: K.NmData)
    requires Set(d, K.Ta) && Set(d, K.TaDir) && (K.TaDir in d ==> K.Ta in d)
    ensures Fold(st, TlsAuthSegment(d)) == Take(st, d, TLS_AUTH_KEYS).(tlsAuth := st.tlsAuth || K.Ta in d)
  {
    hide Fold, Take, Spell;
    if K.Ta !in d {
      FoldNone(st);
      TakeNothing(st, d, {K.Ta, K.TaDir});
    } else if K.TaDir in d {
      FoldOne(st, Trust(TlsAuth), [d[K.Ta], d[K.TaDir]]);
      assert [d[K.Ta]] + [d[K.TaDir]] == [d[K.Ta], d[K.TaDir]];
      PutBoth(st, d, K.Ta, K.TaDir);
    } else {
      FoldOne(st, Trust(TlsAuth), [d[K.Ta]]);
      assert [d[K.Ta]] + [] == [d[K.Ta]];
      PutFirst(st, d, K.Ta, K.TaDir);
    }
  }

  const TLS_MIN_KEYS: set<K.NmKey> := {K.TlsVersionMin, K.TlsVersionMinOrHighest}

  lemma FoldTlsMin(st: State, d: K.NmData)
    requires Set(d, K.TlsVersionMin) && YesOrUnset(d, K.TlsVersionMinOrHighest)
    requires K.TlsVersionMinOrHighest in d ==> K.TlsVersionMin in d
    ensures Fold(st, TlsMinSegment(d)) == Take(st, d, TLS_MIN_KEYS)
  {
    hide Fold, Take, Spell;
    if K.TlsVersionMin !in d {
      FoldNone(st);
      TakeNothing(st, d, {K.TlsVersionMin, K.TlsVersionMinOrHighest});
    } else if K.TlsVersionMinOrHighest in d {
      FoldOne(st, Trust(TlsVersionMin), [d[K.TlsVersionMin], "or-highest"]);
      assert [d[K.TlsVersionMin]] + ["or-highest"] == [d[K.TlsVersionMin], "or-highest"];
      PutBoth(st, d, K.TlsVersionMin, K.TlsVersionMinOrHighest);
    } else {
      FoldOne(st, Trust(TlsVersionMin), [d[K.TlsVersionMin]]);
      assert [d[K.TlsVersionMin]] + [] == [d[K.TlsVersionMin]];
      PutFirst(st, d, K.TlsVersionMin, K.TlsVersionMinOrHighest);
    }
  }

  const CRL_KEYS: set<K.NmKey> := {K.CrlVerifyFile, K.CrlVerifyDir}

  lemma FoldCrl(st: State, d: K.NmData)
    requires Set(d, K.CrlVerifyFile) && Set(d, K.CrlVerifyDir)
    requires !(K.CrlVerifyFile in d && K.CrlVerifyDir in d)
    ensures Fold(st, CrlSegment(d)) == Take(st, d, CRL_KEYS)
  {
    hide Fold;
    if K.CrlVerifyFile in d {
      FoldOne(st, Trust(CrlVerify), [d[K.CrlVerifyFile]]);
      assert st.data[K.CrlVerifyFile := d[K.CrlVerifyFile]] == st.data + Restrict(d, CRL_KEYS);
    } else if K.CrlVerifyDir in d {
      FoldOne(st, Trust(CrlVerify), [d[K.CrlVerifyDir], "dir"]);
      assert st.data[K.CrlVerifyDir := d[K.CrlVerifyDir]] == st.data + Restrict(d, CRL_KEYS);
    } else {
      FoldNone(st);
      TakeNothing(st, d, CRL_KEYS);
    }
  }

  const DEV_KEYS: set<K.NmKey> := {K.Dev, K.DevType}

  lemma FoldDev(st: State, d: K.NmData)
    requires K.Dev in d && Set(d, K.Dev) && Set(d, K.DevType)
    ensures Fold(st, DevSegment(d)) == Take(st, d, DEV_KEYS)
  {
    hide Fold, Take, Spell;
    FoldAppend(st, [Valued(Plain(Dev), d[K.Dev])], Copied(d, K.DevType, Plain(DevType)));
    FoldOne(st, Plain(Dev), [d[K.Dev]]);
    PutIsTake(st, d, K.Dev);
    FoldCopied(Take(st, d, {K.Dev}), d, Pair(K.DevType, Plain(DevType)));
    TakeTwice(st, d, {K.Dev}, {K.DevType});
    assert {K.Dev} + {K.DevType} == DEV_KEYS;
  }

  lemma FoldProto(st: State, d: K.NmData)
    requires YesOrUnset(d, K.ProtoTcp)
    ensures Fold(st, ProtoSegment(d)) == Take(st, d, {K.ProtoTcp})
  {
    hide Fold, Take;
    if K.ProtoTcp in d {
      FoldOne(st, Carrier(Proto), ["tcp"]);
      assert !("udp" <= "tcp") by {
        assert "udp"[0] != "tcp"[0];
      }
      PutIsTake(st, d, K.ProtoTcp);
    } else {
      FoldOne(st, Carrier(Proto), ["udp"]);
      TakeNothing(st, d, {K.ProtoTcp});
    }
  }

  const PROXY_KEYS: set<K.NmKey> := {K.ProxyType, K.ProxyServer, K.ProxyPort}

  lemma FoldProxy(st: State, d: K.NmData)
    requires Set(d, K.ProxyType) && Set(d, K.ProxyServer) && Set(d, K.ProxyPort)
    requires ProxyIsComplete(d) && K.ProxyRetry !in d
    ensures Fold(st, ProxySegment(d)) == Take(st, d, PROXY_KEYS)
  {
    hide Fold, Spell;
    if K.ProxyType !in d {
      FoldNone(st);
      TakeNothing(st, d, PROXY_KEYS);
    } else {
      var kw := if d[K.ProxyType] == "http" then Carrier(HttpProxy) else Carrier(SocksProxy);
      var args := [d[K.ProxyServer], d[K.ProxyPort]];
      FoldOne(st, kw, args);
      assert [Opt(Spell(kw), args)] + [] == [Opt(Spell(kw), args)];
      assert st.data[K.ProxyType := d[K.ProxyType]][K.ProxyServer := args[0]][K.ProxyPort := args[1]]
          == st.data + Restrict(d, PROXY_KEYS);
    }
  }

  predicate IsQuiet(d: Directive) {
    d.Opt? && Keyword(d.name).Some? && Keyword(d.name).value.Quiet?
  }

  lemma {:induction false} FoldQuietAll(st: State, ds: Directives)
    requires forall i :: 0 <= i < |ds| ==> IsQuiet(ds[i])
    ensures Fold(st, ds) == st
    decreases |ds|
  {
    hide Keyword;
    if ds != [] {
      FoldQuietAll(st, ds[1..]);
    }
  }

  lemma QuietSpelling(q: QuietKw, args: seq<string>)
    ensures IsQuiet(Opt(Spell(Quiet(q)), args))
  {
    KeywordOfSpelling(Quiet(q));
  }

  lemma FoldTail(st: State)
    ensures Fold(st, TailSegment()) == st
  {
    hide Fold, IsQuiet, Spell;
    QuietSpelling(Nobind, []);
    QuietSpelling(AuthNocache, []);
    QuietSpelling(ScriptSecurity, ["2"]);
    QuietSpelling(PersistKey, []);
    QuietSpelling(PersistTun, []);
    QuietSpelling(User, ["nm-openvpn3"]);
    QuietSpelling(Group, ["nm-openvpn3"]);
    FoldQuietAll(st, TailSegment());
  }

  // ----- The four stretches -----

  lemma WhatIsAllowed(d: K.NmData)
    ensures Allowed(d, K.Ca) ==> K.TlsLike(d)
    ensures Allowed(d, K.Cert) || Allowed(d, K.Key) ==> K.NeedsUserCert(d)
    ensures Allowed(d, K.StaticKey) || Allowed(d, K.StaticKeyDirection) ==> K.StaticKeyMode(d)
    ensures !Allowed(d, K.MaxRoutes) && !Allowed(d, K.MtuDisc) && !Allowed(d, K.ProxyRetry)
  {
    hide K.TlsLike, K.NeedsUserCert, K.StaticKeyMode;
  }

  lemma Gating(d: K.NmData)
    requires forall k :: k in d ==> Allowed(d, k)
    ensures K.Ca in d ==> K.TlsLike(d)
    ensures K.Cert in d || K.Key in d ==> K.NeedsUserCert(d)
    ensures K.StaticKey in d || K.StaticKeyDirection in d ==> K.StaticKeyMode(d)
    ensures K.MaxRoutes !in d && K.MtuDisc !in d && K.ProxyRetry !in d
  {
    hide K.TlsLike, K.NeedsUserCert, K.StaticKeyMode, Allowed;
    WhatIsAllowed(d);
  }

  const SWITCH_KEYS: set<K.NmKey> :=
    {K.RemoteRandom, K.RemoteRandomHostname, K.AllowPullFqdn, K.TunIpv6, K.PushPeerInfo}

  lemma FoldSwitches(st: State, d: K.NmData)
    requires SwitchesAreYes(d)
    ensures Fold(st, SwitchSegment(d)) == Take(st, d, SWITCH_KEYS)
  {
    hide Fold, Take, FlagIf, YesOrUnset, Restrict;
    var a := FlagIf(K.IsYes(d, K.RemoteRandom), Flag(RemoteRandom));
    var b := FlagIf(K.IsYes(d, K.RemoteRandomHostname), Flag(RemoteRandomHostname));
    var c := FlagIf(K.IsYes(d, K.AllowPullFqdn), Flag(AllowPullFqdn));
    var e := FlagIf(K.IsYes(d, K.TunIpv6), Flag(TunIpv6));
    var f := FlagIf(K.IsYes(d, K.PushPeerInfo), Flag(PushPeerInfo));
    FoldAppend(st, a + b + c + e, f);
    FoldAppend(st, a + b + c, e);
    FoldAppend(st, a + b, c);
    FoldAppend(st, a, b);
    var k1 := {K.RemoteRandom};
    var k2 := k1 + {K.RemoteRandomHostname};
    var k3 := k2 + {K.AllowPullFqdn};
    var k4 := k3 + {K.TunIpv6};
    FoldSwitch(st, d, RemoteRandom);
    FoldSwitch(Take(st, d, k1), d, RemoteRandomHostname);
    TakeTwice(st, d, k1, {K.RemoteRandomHostname});
    FoldSwitch(Take(st, d, k2), d, AllowPullFqdn);
    TakeTwice(st, d, k2, {K.AllowPullFqdn});
    FoldSwitch(Take(st, d, k3), d, TunIpv6);
    TakeTwice(st, d, k3, {K.TunIpv6});
    FoldSwitch(Take(st, d, k4), d, PushPeerInfo);
    TakeTwice(st, d, k4, {K.PushPeerInfo});
    assert k4 + {K.PushPeerInfo} == SWITCH_KEYS;
  }

  const HEAD_KEYS: set<K.NmKey> := {K.Remote} + SWITCH_KEYS + PKI_KEYS + SECRET_KEYS

  /** The credential flags the directives of `d` set. */
  function Credentials(d: K.NmData): State {
    START.(userPass := K.PasswordLike(d), cert := K.Cert in d, key := K.Key in d, secret := K.StaticKey in d)
  }

  lemma FoldHead(d: K.NmData)
    requires NormalForm(d)
    ensures Fold(START, ExportHead(d)) == Take(Credentials(d), d, HEAD_KEYS)
  {
    hide Fold, FlagIf, RemoteSegment, SwitchSegment, ExportPki, SecretSegment, Allowed, Restrict,
         IsRemoteText, IsRouteText;
    Gating(d);
    var a, b, c := FlagIf(K.TlsLike(d), Quiet(Client)), RemoteSegment(d), SwitchSegment(d);
    var e, f, g := ExportPki(d), FlagIf(K.PasswordLike(d), Trust(AuthUserPass)), SecretSegment(d);
    FoldAppend(START, a + b + c + e + f, g);
    FoldAppend(START, a + b + c + e, f);
    FoldAppend(START, a + b + c, e);
    FoldAppend(START, a + b, c);
    FoldAppend(START, a, b);
    FoldQuiet(START, K.TlsLike(d), Client);
    FoldRemoteSegment(START, d);
    FoldSwitches(Take(START, d, {K.Remote}), d);
    TakeTwice(START, d, {K.Remote}, SWITCH_KEYS);
    var k2 := {K.Remote} + SWITCH_KEYS;
    FoldPki(Take(START, d, k2), d);
    TakeTwice(START, d, k2, PKI_KEYS);
    var withPki := Fold(Take(START, d, k2), e);
    FoldUserPass(withPki, K.PasswordLike(d));
    FoldSecret(Fold(withPki, f), d);
    TakeTwice(START, d, k2 + PKI_KEYS, SECRET_KEYS);
  }

  /** The pair the importer copies back; the two export-only pairs are the exception. */
  predicate IsCopyBack(p: Pair) {
    (p.kw.Plain? && PlainKey(p.kw.plain) == p.key) || p.key == K.MaxRoutes || p.key == K.MtuDisc
  }

  lemma ExportTableCopiesBack()
    ensures forall i :: 0 <= i < |EXPORT_PAIRS| ==> IsCopyBack(EXPORT_PAIRS[i])
  {
  }

  lemma TlsTableCopiesBack()
    ensures forall i :: 0 <= i < |TLS_PAIRS| ==> IsCopyBack(TLS_PAIRS[i])
  {
  }

  lemma CopyBackComesBack(d: K.NmData, p: Pair)
    requires IsCopyBack(p) && (forall k :: k in d ==> d[k] != "") && K.MaxRoutes !in d && K.MtuDisc !in d
    ensures ComesBack(d, p)
  {
    hide PlainKey;
  }

  lemma ExportPairsComeBack(d: K.NmData)
    requires (forall k :: k in d ==> d[k] != "") && K.MaxRoutes !in d && K.MtuDisc !in d
    ensures TableComesBack(d, EXPORT_PAIRS) && TableComesBack(d, TLS_PAIRS)
  {
    hide IsCopyBack, ComesBack;
    ExportTableCopiesBack();
    TlsTableCopiesBack();
    forall i | 0 <= i < |EXPORT_PAIRS| ensures ComesBack(d, EXPORT_PAIRS[i]) {
      CopyBackComesBack(d, EXPORT_PAIRS[i]);
    }
    forall i | 0 <= i < |TLS_PAIRS| ensures ComesBack(d, TLS_PAIRS[i]) {
      CopyBackComesBack(d, TLS_PAIRS[i]);
    }
  }

  const LINK_KEYS: set<K.NmKey> :=
    TableKeys(EXPORT_PAIRS) + COMPRESSION_KEYS + {K.Float} + {K.Mssfix} + ADDRESS_KEYS + {K.ExtraRoutes}

  lemma FoldLink(st: State, d: K.NmData)
    requires NormalForm(d) && K.ExtraRoutes !in st.data
    ensures Fold(st, ExportLink(d)) == Take(st, d, LINK_KEYS)
  {
    hide Fold, FlagIf, CopiedAll, CompressionSegment, ExportMssfix, AddressSegment, RouteSegment, Allowed,
         Restrict, TableKeys, TableComesBack, IsRemoteText, IsRouteText;
    Gating(d);
    ExportPairsComeBack(d);
    var a, b, c := CopiedAll(d, EXPORT_PAIRS), CompressionSegment(d), FlagIf(K.IsYes(d, K.Float), Flag(Float));
    var e, f, g := ExportMssfix(d), AddressSegment(d), RouteSegment(d);
    FoldAppend(st, a + b + c + e + f, g);
    FoldAppend(st, a + b + c + e, f);
    FoldAppend(st, a + b + c, e);
    FoldAppend(st, a + b, c);
    FoldAppend(st, a, b);
    var k1 := TableKeys(EXPORT_PAIRS);
    var k2 := k1 + COMPRESSION_KEYS;
    var k3 := k2 + {K.Float};
    var k4 := k3 + {K.Mssfix};
    var k5 := k4 + ADDRESS_KEYS;
    FoldTable(st, d, EXPORT_PAIRS);
    FoldCompression(Take(st, d, k1), d);
    TakeTwice(st, d, k1, COMPRESSION_KEYS);
    FoldSwitch(Take(st, d, k2), d, Float);
    TakeTwice(st, d, k2, {K.Float});
    FoldMssfix(Take(st, d, k3), d);
    TakeTwice(st, d, k3, {K.Mssfix});
    FoldAddress(Take(st, d, k4), d);
    TakeTwice(st, d, k4, ADDRESS_KEYS);
    RoutesNotTaken(st, d, k5);
    FoldRouteSegment(Take(st, d, k5), d);
    TakeTwice(st, d, k5, {K.ExtraRoutes});
  }

  lemma {:induction false} KeysOfTable(table: seq<Pair>)
    ensures forall k :: k in TableKeys(table) <==> exists i :: 0 <= i < |table| && table[i].key == k
    decreases |table|
  {
    if table != [] {
      KeysOfTable(table[1..]);
      assert forall i :: 1 <= i < |table| ==> table[i] == table[1..][i - 1];
    }
  }

  lemma NoRoutesInTable()
    ensures K.ExtraRoutes !in TableKeys(EXPORT_PAIRS) && K.ConnectionType !in TableKeys(EXPORT_PAIRS)
  {
    hide TableKeys;
    KeysOfTable(EXPORT_PAIRS);
  }

  lemma RoutesNotTaken(st: State, d: K.NmData, ks: set<K.NmKey>)
    requires K.ExtraRoutes !in st.data
    requires ks == TableKeys(EXPORT_PAIRS) + COMPRESSION_KEYS + {K.Float} + {K.Mssfix} + ADDRESS_KEYS
    ensures K.ExtraRoutes !in Take(st, d, ks).data
  {
    hide TableKeys;
    NoRoutesInTable();
  }

  const TLS_STRETCH_KEYS: set<K.NmKey> :=
    {K.VerifyX509Name} + TLS_AUTH_KEYS + {K.TlsCrypt} + {K.TlsCryptV2} + TLS_MIN_KEYS
    + TableKeys(TLS_PAIRS) + CRL_KEYS

  lemma TlsTableIsTls()
    ensures forall i :: 0 <= i < |TLS_PAIRS| ==> IsTlsKey(TLS_PAIRS[i].key)
  {
  }

  lemma StretchIsTls(k: K.NmKey)
    requires k in TLS_STRETCH_KEYS
    ensures IsTlsKey(k)
  {
    hide TableKeys;
    if k in TableKeys(TLS_PAIRS) {
      hide IsTlsKey;
      KeysOfTable(TLS_PAIRS);
      TlsTableIsTls();
    }
  }

  lemma FoldTls(st: State, d: K.NmData)
    requires NormalForm(d)
    ensures Fold(st, TlsSegment(d)) == Take(st, d, TLS_STRETCH_KEYS).(tlsAuth := st.tlsAuth || K.Ta in d)
  {
    hide Fold, Take, NormalForm;
    if !K.TlsLike(d) {
      FoldNone(st);
      NoTlsKeys(d);
      TakeNothing(st, d, TLS_STRETCH_KEYS);
    } else {
      FoldTlsSegments(st, d);
    }
  }

  lemma NoTlsKeys(d: K.NmData)
    requires NormalForm(d) && !K.TlsLike(d)
    ensures forall k :: k in TLS_STRETCH_KEYS ==> k !in d
    ensures K.Ta !in d
  {
    hide K.TlsLike, TableKeys, IsRemoteText, IsRouteText;
    forall k | k in TLS_STRETCH_KEYS ensures k !in d {
      StretchIsTls(k);
    }
  }

  predicate TlsReady(d: K.NmData) {
    && (forall k :: k in d ==> d[k] != "")
    && YesOrUnset(d, K.TlsVersionMinOrHighest)
    && DependentsHaveBase(d)
    && K.MaxRoutes !in d && K.MtuDisc !in d
  }

  lemma TlsAuthFlagLater(st: State, d: K.NmData, ks: set<K.NmKey>)
    ensures Take(Take(st, d, ks), d, TLS_AUTH_KEYS).(tlsAuth := st.tlsAuth || K.Ta in d)
         == Take(st.(tlsAuth := st.tlsAuth || K.Ta in d), d, ks + TLS_AUTH_KEYS)
  {
    TakeTwice(st, d, ks, TLS_AUTH_KEYS);
  }

  lemma FoldPeerKeys(st: State, d: K.NmData)
    requires TlsReady(d)
    ensures Fold(st, X509Segment(d) + TlsAuthSegment(d))
         == Take(st.(tlsAuth := st.tlsAuth || K.Ta in d), d, {K.VerifyX509Name} + TLS_AUTH_KEYS)
  {
    hide Fold, X509Segment, TlsAuthSegment, Restrict;
    FoldAppend(st, X509Segment(d), TlsAuthSegment(d));
    FoldX509(st, d);
    FoldTlsAuth(Take(st, d, {K.VerifyX509Name}), d);
    TlsAuthFlagLater(st, d, {K.VerifyX509Name});
  }

  lemma FoldTlsCrypt(st: State, d: K.NmData, before: Directives, ks: set<K.NmKey>, st': State)
    requires (K.TlsCrypt in d ==> d[K.TlsCrypt] != "") && (K.TlsCryptV2 in d ==> d[K.TlsCryptV2] != "")
    requires Fold(st, before) == Take(st', d, ks)
    ensures Fold(st, before + Copied(d, K.TlsCrypt, Plain(TlsCrypt)) + Copied(d, K.TlsCryptV2, Plain(TlsCryptV2)))
         == Take(st', d, ks + {K.TlsCrypt} + {K.TlsCryptV2})
  {
    hide Fold, Take, Copied;
    var c, e := Copied(d, K.TlsCrypt, Plain(TlsCrypt)), Copied(d, K.TlsCryptV2, Plain(TlsCryptV2));
    FoldAppend(st, before + c, e);
    FoldAppend(st, before, c);
    FoldPlain(Take(st', d, ks), d, TlsCrypt, K.TlsCrypt);
    TakeTwice(st', d, ks, {K.TlsCrypt});
    FoldPlain(Take(st', d, ks + {K.TlsCrypt}), d, TlsCryptV2, K.TlsCryptV2);
    TakeTwice(st', d, ks + {K.TlsCrypt}, {K.TlsCryptV2});
  }

  lemma FoldTlsSecond(st: State, d: K.NmData, before: Directives, ks: set<K.NmKey>, st': State)
    requires TlsReady(d) && Fold(st, before) == Take(st', d, ks)
    ensures Fold(st, before + TlsMinSegment(d) + CopiedAll(d, TLS_PAIRS) + CrlSegment(d))
         == Take(st', d, ks + TLS_MIN_KEYS + TableKeys(TLS_PAIRS) + CRL_KEYS)
  {
    hide Fold, Take, TlsMinSegment, CopiedAll, CrlSegment, TableKeys, TableComesBack;
    var f, g, h := TlsMinSegment(d), CopiedAll(d, TLS_PAIRS), CrlSegment(d);
    FoldAppend(st, before + f + g, h);
    FoldAppend(st, before + f, g);
    FoldAppend(st, before, f);
    var k5 := ks + TLS_MIN_KEYS;
    var k6 := k5 + TableKeys(TLS_PAIRS);
    FoldTlsMin(Take(st', d, ks), d);
    TakeTwice(st', d, ks, TLS_MIN_KEYS);
    ExportPairsComeBack(d);
    FoldTable(Take(st', d, k5), d, TLS_PAIRS);
    TakeTwice(st', d, k5, TableKeys(TLS_PAIRS));
    FoldCrl(Take(st', d, k6), d);
    TakeTwice(st', d, k6, CRL_KEYS);
  }

  lemma FoldTlsSegments(st: State, d: K.NmData)
    requires NormalForm(d) && K.TlsLike(d)
    ensures Fold(st, TlsSegment(d)) == Take(st, d, TLS_STRETCH_KEYS).(tlsAuth := st.tlsAuth || K.Ta in d)
  {
    Gating(d);
    assert TlsReady(d);
    assert (K.TlsCrypt in d ==> d[K.TlsCrypt] != "") && (K.TlsCryptV2 in d ==> d[K.TlsCryptV2] != "");
    hide Fold, X509Segment, TlsAuthSegment, Copied, TlsMinSegment, CopiedAll, CrlSegment, Restrict, TlsReady,
         NormalForm, TableKeys;
    var keys := X509Segment(d) + TlsAuthSegment(d);
    var st' := st.(tlsAuth := st.tlsAuth || K.Ta in d);
    var ks := {K.VerifyX509Name} + TLS_AUTH_KEYS;
    FoldPeerKeys(st, d);
    FoldTlsCrypt(st, d, keys, ks, st');
    FoldTlsSecond(st, d, keys + Copied(d, K.TlsCrypt, Plain(TlsCrypt)) + Copied(d, K.TlsCryptV2, Plain(TlsCryptV2)),
                  ks + {K.TlsCrypt} + {K.TlsCryptV2}, st');
  }

  const END_KEYS: set<K.NmKey> := DEV_KEYS + {K.ProtoTcp} + PROXY_KEYS

  lemma FoldEnd(st: State, d: K.NmData)
    requires NormalForm(d)
    ensures Fold(st, ExportEnd(d)) == Take(st, d, END_KEYS)
  {
    hide Fold, Take, DevSegment, ProtoSegment, ProxySegment, TailSegment, Allowed, IsRemoteText, IsRouteText;
    Gating(d);
    var a, b, c := DevSegment(d), ProtoSegment(d), ProxySegment(d);
    FoldAppend(st, a + b + c, TailSegment());
    FoldAppend(st, a + b, c);
    FoldAppend(st, a, b);
    FoldDev(st, d);
    FoldProto(Take(st, d, DEV_KEYS), d);
    TakeTwice(st, d, DEV_KEYS, {K.ProtoTcp});
    FoldProxy(Take(st, d, DEV_KEYS + {K.ProtoTcp}), d);
    TakeTwice(st, d, DEV_KEYS + {K.ProtoTcp}, PROXY_KEYS);
    FoldTail(Take(st, d, END_KEYS));
  }

  // ----- The whole export -----

  function ExportedKeys(): set<K.NmKey> {
    HEAD_KEYS + LINK_KEYS + TLS_STRETCH_KEYS + END_KEYS
  }

  lemma RoutesNotInHead(d: K.NmData)
    ensures K.ExtraRoutes !in Take(Credentials(d), d, HEAD_KEYS).data
  {
  }

  /** Importing the export collects exactly the exported keys and the credential flags. */
  lemma FoldExport(d: K.NmData)
    requires NormalForm(d)
    ensures Fold(START, FromNmData(d))
         == Take(Credentials(d).(tlsAuth := K.Ta in d), d, ExportedKeys())
  {
    hide Fold, ExportHead, ExportLink, TlsSegment, ExportEnd, NormalForm, Restrict, Credentials, TableKeys;
    var a, b, c, e := ExportHead(d), ExportLink(d), TlsSegment(d), ExportEnd(d);
    FoldAppend(START, a + b + c, e);
    FoldAppend(START, a + b, c);
    FoldAppend(START, a, b);
    var st := Credentials(d);
    FoldHead(d);
    RoutesNotInHead(d);
    FoldLink(Take(st, d, HEAD_KEYS), d);
    TakeTwice(st, d, HEAD_KEYS, LINK_KEYS);
    FoldTlsLater(st, d, HEAD_KEYS + LINK_KEYS);
    var st' := st.(tlsAuth := K.Ta in d);
    FoldEnd(Take(st', d, HEAD_KEYS + LINK_KEYS + TLS_STRETCH_KEYS), d);
    TakeTwice(st', d, HEAD_KEYS + LINK_KEYS + TLS_STRETCH_KEYS, END_KEYS);
  }

  lemma FoldTlsLater(st: State, d: K.NmData, ks: set<K.NmKey>)
    requires NormalForm(d) && st == Credentials(d)
    ensures Fold(Take(st, d, ks), TlsSegment(d)) == Take(st.(tlsAuth := K.Ta in d), d, ks + TLS_STRETCH_KEYS)
  {
    hide Fold, TlsSegment, NormalForm, Restrict, TableKeys;
    FoldTls(Take(st, d, ks), d);
    TakeTwice(st, d, ks, TLS_STRETCH_KEYS);
  }

  lemma InTable(table: seq<Pair>, i: nat)
    requires i < |table|
    ensures table[i].key in TableKeys(table)
  {
    KeysOfTable(table);
  }

  lemma LinkKeyIsExported(k: K.NmKey, i: nat)
    requires i < |EXPORT_PAIRS| && EXPORT_PAIRS[i].key == k
    ensures k in ExportedKeys()
  {
    hide TableKeys;
    InTable(EXPORT_PAIRS, i);
  }

  lemma TlsKeyIsExported(k: K.NmKey, i: nat)
    requires i < |TLS_PAIRS| && TLS_PAIRS[i].key == k
    ensures k in ExportedKeys()
  {
    hide TableKeys;
    InTable(TLS_PAIRS, i);
  }

  predicate InExportTable(k: K.NmKey) {
    match k
    case RenegSeconds | Cipher | DataCiphers | DataCiphersFallback | TlsCipher | Keysize => true
    case AllowCompression | Auth | TunnelMtu | ConnectTimeout | FragmentSize | Port => true
    case Ping | PingExit | PingRestart => true
    case _ => false
  }

  predicate InTlsTable(k: K.NmKey) {
    k in {K.RemoteCertTls, K.NsCertType, K.TlsRemote, K.TlsVersionMax, K.ExtraCerts}
  }

  lemma ExportTableIsExported(k: K.NmKey)
    requires InExportTable(k)
    ensures k in ExportedKeys()
  {
    hide ExportedKeys;
    match k
    case RenegSeconds => LinkKeyIsExported(k, 0);
    case Cipher => LinkKeyIsExported(k, 2);
    case DataCiphers => LinkKeyIsExported(k, 3);
    case DataCiphersFallback => LinkKeyIsExported(k, 4);
    case TlsCipher => LinkKeyIsExported(k, 5);
    case Keysize => LinkKeyIsExported(k, 6);
    case AllowCompression => LinkKeyIsExported(k, 7);
    case Auth => LinkKeyIsExported(k, 8);
    case TunnelMtu => LinkKeyIsExported(k, 10);
    case ConnectTimeout => LinkKeyIsExported(k, 11);
    case FragmentSize => LinkKeyIsExported(k, 12);
    case Port => LinkKeyIsExported(k, 13);
    case Ping => LinkKeyIsExported(k, 14);
    case PingExit => LinkKeyIsExported(k, 15);
    case PingRestart => LinkKeyIsExported(k, 16);
  }

  lemma TlsTableIsExported(k: K.NmKey)
    requires InTlsTable(k)
    ensures k in ExportedKeys()
  {
    hide ExportedKeys;
    match k
    case RemoteCertTls => TlsKeyIsExported(k, 0);
    case NsCertType => TlsKeyIsExported(k, 1);
    case TlsRemote => TlsKeyIsExported(k, 2);
    case TlsVersionMax => TlsKeyIsExported(k, 3);
    case ExtraCerts => TlsKeyIsExported(k, 4);
  }

  lemma OtherKeysAreExported(d: K.NmData, k: K.NmKey)
    requires Allowed(d, k) && k != K.ConnectionType && !InExportTable(k) && !InTlsTable(k)
    ensures k in HEAD_KEYS || k in COMPRESSION_KEYS || k in ADDRESS_KEYS || k in END_KEYS
         || k in TLS_AUTH_KEYS || k in TLS_MIN_KEYS || k in CRL_KEYS
         || k in {K.Float, K.Mssfix, K.ExtraRoutes, K.VerifyX509Name, K.TlsCrypt, K.TlsCryptV2}
  {
  }

  /** Every key a normal form can hold, other than the type itself, is exported. */
  lemma AllowedIsExported(d: K.NmData, k: K.NmKey)
    requires Allowed(d, k) && k != K.ConnectionType
    ensures k in ExportedKeys()
  {
    hide TableKeys, Allowed, InExportTable, InTlsTable;
    if InExportTable(k) {
      ExportTableIsExported(k);
    } else if InTlsTable(k) {
      TlsTableIsExported(k);
    } else {
      OtherKeysAreExported(d, k);
    }
  }

  lemma TypeComesBack(d: K.NmData)
    requires TypeIsInferable(d)
    requires K.StaticKey in d ==> K.StaticKeyMode(d)
    requires K.Cert in d || K.Key in d ==> K.NeedsUserCert(d)
    ensures K.ConnectionType in d && InferType(Credentials(d)) == d[K.ConnectionType]
  {
  }

  lemma NothingElse(d: K.NmData, u: set<K.NmKey>)
    requires K.ConnectionType in d && K.ConnectionType !in u
    requires forall k :: k in d && k != K.ConnectionType ==> k in u
    ensures Take(Credentials(d), d, u).data[K.ConnectionType := d[K.ConnectionType]] == d
  {
    assert Take(Credentials(d), d, u).data == Restrict(d, u);
  }

  lemma TypeIsNotExported()
    ensures K.ConnectionType !in ExportedKeys()
  {
    TypeIsNotInHead();
    TypeIsNotInLink();
    TypeIsNotInTls();
    NotInAny(K.ConnectionType, HEAD_KEYS, LINK_KEYS, TLS_STRETCH_KEYS, END_KEYS);
  }

  lemma NotInAny(k: K.NmKey, a: set<K.NmKey>, b: set<K.NmKey>, c: set<K.NmKey>, e: set<K.NmKey>)
    requires k !in a && k !in b && k !in c && k !in e
    ensures k !in a + b + c + e
  {
  }

  lemma TypeIsNotInHead()
    ensures K.ConnectionType !in HEAD_KEYS && K.ConnectionType !in END_KEYS
  {
  }

  lemma TypeIsNotInLink()
    ensures K.ConnectionType !in LINK_KEYS
  {
    hide TableKeys;
    NoRoutesInTable();
  }

  lemma TypeIsNotInTls()
    ensures K.ConnectionType !in TLS_STRETCH_KEYS
  {
    hide TableKeys, IsTlsKey;
    if K.ConnectionType in TLS_STRETCH_KEYS {
      StretchIsTls(K.ConnectionType);
      TypeIsNoTlsKey();
    }
  }

  lemma TypeIsNoTlsKey()
    ensures !IsTlsKey(K.ConnectionType)
  {
  }

  // ----- Exported configs are well-formed -----

  /** An option that is no `key-direction`, whose name reads back as it is, and which is known or a route line. */
  predicate Proper(d: Directive) {
    d.Opt? && d.name != "" && d.name[0] != '-' && d.name[0] != '<' && !IsKeyDirection(d)
    && (Keyword(d.name).Some? || BeginsRo(d.name))
  }

  predicate AllProper(ds: Directives) {
    forall i :: 0 <= i < |ds| ==> Proper(ds[i])
  }

  lemma ProperIsFirm(d: Directive)
    requires Proper(d)
    ensures RoundTrip.Shaped(d) && !RoundTrip.Fragile(d)
  {
    hide Keyword;
  }

  lemma ProperAppend(a: Directives, b: Directives)
    requires AllProper(a) && AllProper(b)
    ensures AllProper(a + b)
  {
    hide Proper;
  }

  lemma SpelledIsProper(kw: Kw, args: seq<string>)
    requires kw != Trust(KeyDirection)
    ensures Proper(Opt(Spell(kw), args))
  {
    SpellingNumber(kw);
    KeywordOfSpelling(kw);
  }

  lemma NameWithR(name: string, args: seq<string>)
    requires BeginsRo(name)
    ensures Proper(Opt(name, args))
  {
    hide Keyword;
    KeyDirectionStartsWithK();
  }

  lemma KeyDirectionStartsWithK()
    ensures Spell(Trust(KeyDirection)) != "" && Spell(Trust(KeyDirection))[0] == 'k'
  {
  }

  lemma {:induction false} RoutesAreProper(ls: seq<string>)
    ensures AllProper(LineDirectives(SafeLines(ls)))
    decreases |ls|
  {
    hide Proper, Trim, IsSafeRouteLine, LineDirective;
    if ls != [] {
      RoutesAreProper(ls[1..]);
      var line := Trim(ls[0]);
      if line != "" && IsSafeRouteLine(line) {
        SafeLineIsProper(ls[0]);
        var more := SafeLines(ls[1..]);
        assert ([line] + more)[1..] == more;
        ProperAppend(LineDirective(line), LineDirectives(more));
      }
    }
  }

  lemma SafeLineIsProper(raw: string)
    requires Trim(raw) != "" && IsSafeRouteLine(Trim(raw))
    ensures AllProper(LineDirective(Trim(raw)))
  {
    hide Trim, IsSafeRouteLine, Proper, Tokens, Fields;
    var line := Trim(raw);
    TrimmedStart(raw);
    SafeLineTokens(line);
    SafeLineBeginsRo(line);
    var words := Fields(line, true);
    NameWithR(words[0], words[1..]);
  }

  lemma {:induction false} RemotesAreProper(rs: seq<Remotes.Remote>)
    ensures AllProper(RemoteDirectives(rs))
    decreases |rs|
  {
    hide Proper, RemoteArgs, Spell;
    if rs != [] {
      SpelledIsProper(Carrier(CarrierKw.Remote), RemoteArgs(rs[0]));
      RemotesAreProper(rs[1..]);
    }
  }

  predicate TableIsProper(table: seq<Pair>) {
    forall i :: 0 <= i < |table| ==> table[i].kw != Trust(KeyDirection)
  }

  lemma {:induction false} TableEntriesAreProper(d: K.NmData, table: seq<Pair>)
    requires TableIsProper(table)
    ensures AllProper(CopiedAll(d, table))
    decreases |table|
  {
    hide Proper, Spell;
    if table != [] {
      CopiedIsProper(d, table[0].key, table[0].kw);
      TableEntriesAreProper(d, table[1..]);
      ProperAppend(Copied(d, table[0].key, table[0].kw), CopiedAll(d, table[1..]));
    }
  }

  lemma CopiedIsProper(d: K.NmData, k: K.NmKey, kw: Kw)
    requires kw != Trust(KeyDirection)
    ensures AllProper(Copied(d, k, kw))
  {
    hide Proper, Spell;
    match K.Get(d, k)
    case Some(v) => SpelledIsProper(kw, [v]);
    case None =>
  }

  lemma FlagIsProper(on: bool, kw: Kw)
    requires kw != Trust(KeyDirection)
    ensures AllProper(FlagIf(on, kw))
  {
    hide Proper, Spell;
    SpelledIsProper(kw, []);
  }

  lemma SwitchesAreProper(d: K.NmData)
    ensures AllProper(SwitchSegment(d))
  {
    hide Proper, Spell, FlagIf;
    FlagIsProper(K.IsYes(d, K.RemoteRandom), Flag(RemoteRandom));
    FlagIsProper(K.IsYes(d, K.RemoteRandomHostname), Flag(RemoteRandomHostname));
    FlagIsProper(K.IsYes(d, K.AllowPullFqdn), Flag(AllowPullFqdn));
    FlagIsProper(K.IsYes(d, K.TunIpv6), Flag(TunIpv6));
    FlagIsProper(K.IsYes(d, K.PushPeerInfo), Flag(PushPeerInfo));
  }

  lemma FileIsProper(v: Option<string>, kw: Kw)
    requires kw != Trust(KeyDirection)
    ensures AllProper(OptionalFile(v, kw))
  {
    hide Proper, Spell;
    if v.Some? {
      SpelledIsProper(kw, [v.value]);
    }
  }

  lemma PkiIsProper(d: K.NmData)
    ensures AllProper(ExportPki(d))
  {
    hide Proper, Spell, OptionalFile, IsPkcs12Path;
    if CollapsesOnExport(d) {
      SpelledIsProper(Trust(Pkcs12), [CertOf(d).value]);
    }
    FileIsProper(CaOf(d), Trust(Ca));
    FileIsProper(CertOf(d), Trust(Cert));
    FileIsProper(KeyOf(d), Trust(Key));
  }

  /** A list with at most one directive, which is a spelled option. */
  predicate AtMost(ds: Directives, kw: Kw) {
    ds == [] || (|ds| == 1 && ds[0].Opt? && ds[0] == Opt(Spell(kw), ds[0].args))
  }

  lemma AtMostIsProper(ds: Directives, kw: Kw)
    requires AtMost(ds, kw) && kw != Trust(KeyDirection)
    ensures AllProper(ds)
  {
    hide Proper, Spell;
    if ds != [] {
      SpelledIsProper(kw, ds[0].args);
    }
  }

  lemma HeadIsProper(d: K.NmData)
    ensures AllProper(ExportHead(d))
  {
    hide Proper, Spell, FlagIf, SwitchSegment, ExportPki, RemoteDirectives, Decode;
    FlagIsProper(K.TlsLike(d), Quiet(Client));
    if K.HasValue(d, K.Remote) {
      RemotesAreProper(Decode(d[K.Remote]));
    }
    SwitchesAreProper(d);
    PkiIsProper(d);
    FlagIsProper(K.PasswordLike(d), Trust(AuthUserPass));
    AtMostIsProper(SecretSegment(d), Trust(Secret));
  }

  lemma CompressionIsProper(d: K.NmData)
    ensures AllProper(CompressionSegment(d))
  {
    hide Proper, Spell;
    if K.HasValue(d, K.CompLzo) {
      SpelledIsProper(Carrier(CompLzo), [LzoWord(d[K.CompLzo])]);
    }
    if K.HasValue(d, K.Compress) {
      SpelledIsProper(Carrier(Compress), []);
      SpelledIsProper(Carrier(Compress), [d[K.Compress]]);
    }
  }

  lemma RouteSegmentIsProper(d: K.NmData)
    ensures AllProper(RouteSegment(d))
  {
    hide Proper, SafeLines, LineDirectives, Lines;
    if K.HasValue(d, K.ExtraRoutes) {
      RoutesAreProper(Lines(d[K.ExtraRoutes]));
    } else {
      NoRoutes(d);
    }
  }

  lemma LinkIsProper(d: K.NmData)
    ensures AllProper(ExportLink(d))
  {
    hide Proper, Spell, FlagIf, CopiedAll, CompressionSegment, RouteSegment;
    TableEntriesAreProper(d, EXPORT_PAIRS);
    CompressionIsProper(d);
    FlagIsProper(K.IsYes(d, K.Float), Flag(Float));
    AtMostIsProper(ExportMssfix(d), Carrier(Mssfix));
    AtMostIsProper(AddressSegment(d), Carrier(Ifconfig));
    RouteSegmentIsProper(d);
  }

  lemma TlsPartsAreProper(d: K.NmData)
    ensures AllProper(X509Segment(d)) && AllProper(TlsAuthSegment(d))
    ensures AllProper(TlsMinSegment(d)) && AllProper(CrlSegment(d))
  {
    hide Proper, AllProper, Spell, X509Args;
    AtMostIsProper(X509Segment(d), Trust(VerifyX509Name));
    AtMostIsProper(TlsAuthSegment(d), Trust(TlsAuth));
    AtMostIsProper(TlsMinSegment(d), Trust(TlsVersionMin));
    AtMostIsProper(CrlSegment(d), Trust(CrlVerify));
  }

  lemma TlsIsProper(d: K.NmData)
    ensures AllProper(TlsSegment(d))
  {
    hide Proper, Spell, Copied, CopiedAll, X509Segment, TlsAuthSegment, TlsMinSegment, CrlSegment;
    TlsPartsAreProper(d);
    CopiedIsProper(d, K.TlsCrypt, Plain(TlsCrypt));
    CopiedIsProper(d, K.TlsCryptV2, Plain(TlsCryptV2));
    TableEntriesAreProper(d, TLS_PAIRS);
  }

  lemma ProxyIsProper(d: K.NmData)
    ensures AllProper(ProxySegment(d))
  {
    hide Proper, Spell, FlagIf;
    if K.HasValue(d, K.ProxyServer) {
      SpelledIsProper(Carrier(HttpProxy), [d[K.ProxyServer], ValueOr(d, K.ProxyPort, "8080")]);
      SpelledIsProper(Carrier(SocksProxy), [d[K.ProxyServer], ValueOr(d, K.ProxyPort, "1080")]);
    }
    FlagIsProper(K.IsYes(d, K.ProxyRetry), Quiet(HttpProxyRetry));
    FlagIsProper(K.IsYes(d, K.ProxyRetry), Quiet(SocksProxyRetry));
  }

  lemma TailIsProper()
    ensures AllProper(TailSegment())
  {
    hide Proper, Spell;
    SpelledIsProper(Quiet(Nobind), []);
    SpelledIsProper(Quiet(AuthNocache), []);
    SpelledIsProper(Quiet(ScriptSecurity), ["2"]);
    SpelledIsProper(Quiet(PersistKey), []);
    SpelledIsProper(Quiet(PersistTun), []);
    SpelledIsProper(Quiet(User), ["nm-openvpn3"]);
    SpelledIsProper(Quiet(Group), ["nm-openvpn3"]);
  }

  lemma EndIsProper(d: K.NmData)
    ensures AllProper(ExportEnd(d))
  {
    hide Proper, Spell, Copied, ProxySegment, TailSegment;
    SpelledIsProper(Plain(Dev), [ChosenDev(d)]);
    CopiedIsProper(d, K.DevType, Plain(DevType));
    SpelledIsProper(Carrier(Proto), [if K.IsYes(d, K.ProtoTcp) then "tcp" else "udp"]);
    ProxyIsProper(d);
    TailIsProper();
  }

  /** Whatever the dictionary holds, every exported directive reads back as it is and none is a `key-direction`. */
  lemma ExportIsProper(d: K.NmData)
    ensures AllProper(FromNmData(d))
  {
    hide Proper, ExportHead, ExportLink, TlsSegment, ExportEnd;
    HeadIsProper(d);
    LinkIsProper(d);
    TlsIsProper(d);
    EndIsProper(d);
    ProperAppend(ExportHead(d), ExportLink(d));
    ProperAppend(ExportHead(d) + ExportLink(d), TlsSegment(d));
    ProperAppend(ExportHead(d) + ExportLink(d) + TlsSegment(d), ExportEnd(d));
  }

  /** The exported text parses back to the exported directives exactly when `validate` accepts them. */
  lemma ExportParsesBack(d: K.NmData)
    ensures ParseText(Print(FromNmData(d))) == Ok(FromNmData(d)) <==> AllValid(FromNmData(d))
  {
    hide FromNmData, Proper, ParseText, Print, Valid, RoundTrip.Shaped, RoundTrip.Fragile;
    var ds := FromNmData(d);
    ExportIsProper(d);
    forall i | 0 <= i < |ds| ensures RoundTrip.Shaped(ds[i]) && !RoundTrip.Fragile(ds[i]) {
      ProperIsFirm(ds[i]);
    }
    RoundTrip.PrintThenParse(ds);
  }

  lemma ExportHasNoDirection(d: K.NmData)
    ensures LastDirection(None, FromNmData(d)) == None
  {
    hide FromNmData, IsKeyDirection;
    ExportIsProper(d);
    DirectionUnchanged(None, FromNmData(d));
  }

  /** Exporting and importing a normal form gives it back. */
  lemma ImportOfExport(d: K.NmData)
    requires NormalForm(d)
    ensures AsNmData(FromNmData(d)) == d
  {
    hide FromNmData, Fold, Allowed, ExportedKeys, Credentials, IsRemoteText, IsRouteText, Restrict;
    FoldExport(d);
    ExportHasNoDirection(d);
    Gating(d);
    TypeComesBack(d);
    TypeIsNotExported();
    forall k | k in d && k != K.ConnectionType ensures k in ExportedKeys() {
      AllowedIsExported(d, k);
    }
    NothingElse(d, ExportedKeys());
  }

  /**
   * Save-As followed by a fresh import: printing the export and parsing the text
   * leads back to the same dictionary.
   */
  lemma SaveAsThenImport(d: K.NmData)
    requires NormalForm(d) && AllValid(FromNmData(d))
    ensures ParseText(Print(FromNmData(d))).Ok?
    ensures AsNmData(ParseText(Print(FromNmData(d))).value) == d
  {
    hide FromNmData, ParseText, Print, AllValid, NormalForm, AsNmData;
    ExportParsesBack(d);
    ImportOfExport(d);
  }
}
