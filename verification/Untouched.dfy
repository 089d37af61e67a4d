/**
  * Opening the editor and pressing Apply without an edit: which dictionaries it
  * leaves exactly as they are, and what becomes of a number outside its row.
  */
module Untouched {
  import opened Text
  import opened Numbers
  import opened Editor
  import opened Apply
  import C = Config
  import R = Reading
  import K = Keys

  /** A positive number of at most `max`, spelled as it would be printed. */
  ghost predicate IsNumberUpTo(v: string, max: int) { exists n: int :: 1 <= n <= max && v == ShowInt(n) }

  predicate OfType(d: K.NmData, types: set<string>) { K.ConnectionType in d && d[K.ConnectionType] in types }

  /** The form in which the editor itself leaves the value of a key. */
  ghost predicate IsTidy(d: K.NmData, k: K.NmKey)
    requires k in d
  {
    match k
    case Port | TunnelMtu | FragmentSize | Keysize | ProxyPort => IsNumberUpTo(d[k], 65535)
    case Ping | PingRestart | RenegSeconds | ConnectTimeout => IsNumberUpTo(d[k], 2147483647)
    case OverrideLogLevel => IsNumberUpTo(d[k], 6)
    case Mssfix => d[k] == "yes" || IsNumberUpTo(d[k], 65535)
    case ProtoTcp | TlsVersionMinOrHighest | OverrideRouteNopull | OverrideForceDefaultGateway => d[k] == "yes"
    case OverrideBlockIpv6 | OverrideDnsSetupDisabled | OverrideDco => d[k] == "yes"
    case Ca => d[k] != "" && OfType(d, {"tls", "password", "password-tls"})
    case Cert | Key => d[k] != "" && OfType(d, {"tls", "password-tls"})
    case Username => d[k] != "" && OfType(d, {"password", "password-tls"})
    case StaticKey | StaticKeyDirection => d[k] != "" && OfType(d, {"static-key"})
    case ConnectionType | Remote | Profile | Dev | DevType | DataCiphers | TlsCipher | VerifyX509Name => d[k] != ""
    case Ta | TaDir | TlsCrypt | TlsCryptV2 | ProxyType | ProxyServer | HttpProxyUsername => d[k] != ""
    case AllowCompression | CompLzo | Compress | Cipher | DataCiphersFallback | Auth => d[k] != ""
    case TlsVersionMin | TlsVersionMax | RemoteCertTls | NsCertType => d[k] != ""
    case _ => true
  }

  ghost predicate IsEditorsOwn(d: K.NmData) {
    K.ConnectionType in d && forall k :: k in d ==> IsTidy(d, k)
  }

  // ---------- Kind by kind ----------

  lemma TextTidy(d: K.NmData, k: K.NmKey)
    requires (IsEntry(k) || IsCombo(k)) && k in d && K.ConnectionType in d
    ensures IsTidy(d, k) <==> d[k] != "" && Applies(k, d[K.ConnectionType])
  {}

  lemma SwitchTidy(d: K.NmData, k: K.NmKey)
    requires IsSwitch(k) && k in d
    ensures IsTidy(d, k) <==> d[k] == "yes"
  {}

  lemma BoundedTidy(d: K.NmData, k: K.NmKey)
    requires IsBounded(k) && k in d
    ensures FieldOf(k) == Spin(65535) && (IsTidy(d, k) <==> IsNumberUpTo(d[k], 65535))
  {
    hide IsNumberUpTo;
  }

  lemma SecondsTidy(d: K.NmData, k: K.NmKey)
    requires IsSeconds(k) && k in d
    ensures FieldOf(k) == Spin(2147483647) && (IsTidy(d, k) <==> IsNumberUpTo(d[k], 2147483647))
  {
    hide IsNumberUpTo;
  }

  lemma SpinTidy(d: K.NmData, k: K.NmKey)
    requires IsSpin(k) && k in d
    ensures FieldOf(k).Spin? && (IsTidy(d, k) <==> IsNumberUpTo(d[k], FieldOf(k).max))
  {
    hide IsNumberUpTo, IsBounded, IsSeconds;
    if IsBounded(k) {
      BoundedTidy(d, k);
    } else if IsSeconds(k) {
      SecondsTidy(d, k);
    }
  }

  lemma ForeignIsTidy(d: K.NmData, k: K.NmKey)
    requires FieldOf(k).Foreign? && k in d
    ensures IsTidy(d, k)
  {}

  /** The key holds what its untouched widget would store. */
  predicate Rests(d: K.NmData, read: string -> real, k: K.NmKey) { Holds(d, k, Target(k, Load(d, read))) }

  predicate HasType(d: K.NmData) { K.ConnectionType in d && d[K.ConnectionType] != "" }

  lemma TypeOf(d: K.NmData, read: string -> real)
    requires HasType(d)
    ensures Load(d, read).choice(K.ConnectionType) == d[K.ConnectionType]
  {
    hide Load;
    LoadedChoice(d, read, K.ConnectionType);
  }

  lemma EntryRests(d: K.NmData, read: string -> real, k: K.NmKey)
    requires HasType(d) && IsEntry(k)
    ensures Rests(d, read, k) <==> (k in d ==> IsTidy(d, k))
  {
    hide Target, Applies, IsTidy, IsEntry, Load;
    TypeOf(d, read);
    EntryTarget(k, Load(d, read));
    LoadedText(d, read, k);
    if k in d {
      TextTidy(d, k);
    }
  }

  lemma ComboRests(d: K.NmData, read: string -> real, k: K.NmKey)
    requires HasType(d) && IsCombo(k)
    ensures Rests(d, read, k) <==> (k in d ==> IsTidy(d, k))
  {
    hide Target, Applies, IsTidy, IsCombo, Load, IsGated, FieldOf;
    TypeOf(d, read);
    ComboTarget(k, Load(d, read));
    LoadedChoice(d, read, k);
    TypeIsOwned();
    if k in d {
      TextTidy(d, k);
    }
  }

  lemma SwitchRests(d: K.NmData, read: string -> real, k: K.NmKey)
    requires IsSwitch(k)
    ensures Rests(d, read, k) <==> (k in d ==> IsTidy(d, k))
  {
    SwitchTarget(k, Load(d, read));
    LoadedSwitch(d, read, k);
    if k in d {
      SwitchTidy(d, k);
    }
    hide Target, IsTidy, IsSwitch, Load;
  }

  lemma LoadedSwitch(d: K.NmData, read: string -> real, k: K.NmKey)
    ensures Load(d, read).active(k) <==> Stored(d, k) == K.YES
  {}

  /** What a spin row stores: its text as a number, cut to its range; below one, nothing. */
  function Shown(v: real, max: nat): string {
    if v < 1.0 then "" else if v >= max as real then ShowInt(max) else ShowInt(v.Floor)
  }

  lemma ClampedShows(v: real, max: nat)
    requires max >= 1
    ensures IntOrEmpty(Clamped(v, max).Floor) == Shown(v, max)
    ensures Clamped(v, max).Floor > 0 <==> v >= 1.0
  {
    hide ShowInt;
  }

  lemma LoadedNumber(d: K.NmData, read: string -> real, k: K.NmKey)
    requires FieldOf(k).Spin?
    ensures Load(d, read).number(k) == Clamped(Loaded(d, k, read), FieldOf(k).max)
  {}

  lemma SpinHasRoom(k: K.NmKey)
    requires IsSpin(k)
    ensures FieldOf(k).Spin? && 1 <= FieldOf(k).max <= SECONDS_MAX
  {}

  lemma SpinStores(d: K.NmData, read: string -> real, k: K.NmKey)
    requires IsSpin(k)
    ensures FieldOf(k).Spin? && 1 <= FieldOf(k).max <= SECONDS_MAX
    ensures Target(k, Load(d, read)) == Shown(Loaded(d, k, read), FieldOf(k).max)
  {
    SpinHasRoom(k);
    SpinTarget(k, Load(d, read));
    hide Target, ShowInt, Load, FieldOf, Clamped, IntOrEmpty, Shown, IsSpin;
    LoadedNumber(d, read, k);
    ClampedShows(Loaded(d, k, read), FieldOf(k).max);
  }

  lemma NumberShows(read: string -> real, v: string, max: nat)
    requires ReadsIntegers(read) && 1 <= max <= SECONDS_MAX
    ensures v != "" && Shown(read(v), max) == v <==> IsNumberUpTo(v, max)
  {
    hide ShowInt;
    if IsNumberUpTo(v, max) {
      var n: int :| 1 <= n <= max && v == ShowInt(n);
      IntegerIsRead(read, n);
      ShownIsSomething(n);
      assert (n as real).Floor == n;
    }
    if v != "" && Shown(read(v), max) == v {
      var x := read(v);
      assert v == ShowInt(if x >= max as real then max else x.Floor);
    }
  }

  lemma SpinRests(d: K.NmData, read: string -> real, k: K.NmKey)
    requires ReadsIntegers(read) && IsSpin(k)
    ensures Rests(d, read, k) <==> (k in d ==> IsTidy(d, k))
  {
    hide Target, IsTidy, IsSpin, ShowInt, Load, IsNumberUpTo, FieldOf, ReadsIntegers;
    SpinStores(d, read, k);
    if k in d {
      SpinTidy(d, k);
      hide Shown;
      NumberShows(read, d[k], FieldOf(k).max);
    }
  }

  lemma LoadedClamp(d: K.NmData, read: string -> real)
    ensures Load(d, read).clampOn <==> Stored(d, K.Mssfix) == K.YES || Loaded(d, K.Mssfix, read) > 0.0
    ensures Load(d, read).clampBytes == Clamped(Loaded(d, K.Mssfix, read), 65535)
  {}

  /** What the clamp row stores: nothing when it is off, a positive number of bytes, or a bare yes. */
  lemma ClampStores(d: K.NmData, read: string -> real)
    ensures var v := Loaded(d, K.Mssfix, read);
      Target(K.Mssfix, Load(d, read)) ==
        if v >= 1.0 then Shown(v, 65535) else if v > 0.0 || Stored(d, K.Mssfix) == K.YES then K.YES else ""
  {
    ClampTarget(Load(d, read));
    hide Target, ShowInt, Load, Clamped;
    LoadedClamp(d, read);
    ClampedShows(Loaded(d, K.Mssfix, read), 65535);
  }

  lemma ClampRests(d: K.NmData, read: string -> real)
    requires ReadsIntegers(read)
    ensures Rests(d, read, K.Mssfix) <==> (K.Mssfix in d ==> IsTidy(d, K.Mssfix))
  {
    hide Target, ShowInt, IsNumberUpTo, ReadsIntegers, Load;
    ClampStores(d, read);
    YesIsNotRead(read);
    if K.Mssfix in d {
      NumberShows(read, d[K.Mssfix], 65535);
    }
  }

  lemma KeyRests(d: K.NmData, read: string -> real, k: K.NmKey)
    requires ReadsIntegers(read) && HasType(d) && !FieldOf(k).Foreign?
    ensures Rests(d, read, k) <==> (k in d ==> IsTidy(d, k))
  {
    hide Rests, IsTidy, FieldOf, IsEntry, IsCombo, IsSwitch, IsSpin, ReadsIntegers;
    KindsOfField(k);
    if IsEntry(k) {
      EntryRests(d, read, k);
    } else if IsCombo(k) {
      ComboRests(d, read, k);
    } else if IsSwitch(k) {
      SwitchRests(d, read, k);
    } else if IsSpin(k) {
      SpinRests(d, read, k);
    } else {
      ClampRests(d, read);
    }
  }

  // ---------- The whole dictionary ----------

  lemma RoundHasType(d: K.NmData, read: string -> real)
    ensures HasType(Round(d, read))
  {
    hide Round, Target, Load, FieldOf, Holds;
    RoundAt(d, read, K.ConnectionType);
    TypeIsOwned();
    TypeSettles(d, Round(d, read), read);
  }

  /**
    * An Apply without an edit leaves a dictionary as it is exactly when the
    * dictionary is in the editor's own form: every number in its row's range and
    * canonical, switches only on, nothing empty, nothing a connection type rules
    * out, and the type itself set.
    */
  lemma UntouchedExactly(d: K.NmData, read: string -> real)
    requires ReadsIntegers(read)
    ensures Round(d, read) == d <==> IsEditorsOwn(d)
  {
    hide Round, Target, Load, FieldOf, Holds, IsTidy, ReadsIntegers;
    var e := Round(d, read);
    if e == d {
      RoundHasType(d, read);
      forall k | k in d ensures IsTidy(d, k) {
        KeyStays(d, read, k);
      }
    }
    if IsEditorsOwn(d) {
      TypeIsFilled(d);
      forall k: K.NmKey | true
        ensures k in e <==> k in d
        ensures k in e && k in d ==> e[k] == d[k]
      {
        KeyComesBack(d, read, k);
      }
    }
  }

  lemma TypeIsFilled(d: K.NmData)
    requires IsEditorsOwn(d)
    ensures HasType(d)
  {
    assert IsTidy(d, K.ConnectionType);
  }

  lemma KeyStays(d: K.NmData, read: string -> real, k: K.NmKey)
    requires ReadsIntegers(read) && HasType(d) && Round(d, read) == d && k in d
    ensures IsTidy(d, k)
  {
    hide Round, Target, Load, FieldOf, Holds, IsTidy, ReadsIntegers;
    RoundAt(d, read, k);
    if FieldOf(k).Foreign? {
      ForeignIsTidy(d, k);
    } else {
      KeyRests(d, read, k);
    }
  }

  lemma KeyComesBack(d: K.NmData, read: string -> real, k: K.NmKey)
    requires ReadsIntegers(read) && HasType(d) && IsEditorsOwn(d)
    ensures var e := Round(d, read); (k in e <==> k in d) && (k in e ==> e[k] == d[k])
  {
    hide Round, Target, Load, FieldOf, IsTidy, ReadsIntegers;
    RoundAt(d, read, k);
    if !FieldOf(k).Foreign? {
      KeyRests(d, read, k);
    }
  }

  /** The largest number of each row. */
  predicate HasRange(k: K.NmKey, max: nat) {
    || (max == 65535 && (k.Port? || k.TunnelMtu? || k.FragmentSize? || k.Keysize? || k.ProxyPort?))
    || (max == 2147483647 && (k.Ping? || k.PingRestart? || k.RenegSeconds? || k.ConnectTimeout?))
    || (max == 6 && k.OverrideLogLevel?)
  }

  lemma RangeOfField(k: K.NmKey, max: nat)
    requires HasRange(k, max)
    ensures IsSpin(k) && FieldOf(k) == Spin(max)
  {}

  /** Any value of a numeric key, whatever the parser makes of it, comes back cut to the range of its row. */
  lemma NumbersAreCut(d: K.NmData, read: string -> real, k: K.NmKey, max: nat)
    requires HasRange(k, max)
    ensures Stored(Round(d, read), k) == Shown(if k in d then read(d[k]) else 0.0, max)
  {
    RangeOfField(k, max);
    hide Round, Target, Load, FieldOf, ShowInt, IsSpin, Shown;
    SpinStores(d, read, k);
    RoundAt(d, read, k);
  }

  /** In particular a canonical number in its range is kept. */
  lemma NumbersAreKept(d: K.NmData, read: string -> real, k: K.NmKey, n: int, max: nat)
    requires ReadsIntegers(read) && HasRange(k, max) && 1 <= n <= max && k in d && d[k] == ShowInt(n)
    ensures k in Round(d, read) && Round(d, read)[k] == d[k]
  {
    hide Round, ShowInt, ReadsIntegers, Shown;
    NumbersAreCut(d, read, k, max);
    assert IsNumberUpTo(d[k], max);
    NumberShows(read, d[k], max);
  }

  // ---------- What the combos offer ----------

  predicate IsOffered(k: K.NmKey, v: string) { v != "" && v in Vocabulary(k) }

  lemma OfferedLzo(v: string)
    ensures IsOffered(K.CompLzo, v) <==> v in {"yes", "no", "adaptive"}
  {}

  lemma OfferedPeer(k: K.NmKey, v: string)
    requires k == K.RemoteCertTls || k == K.NsCertType
    ensures IsOffered(k, v) <==> v in {"client", "server"}
  {}

  lemma OfferedVersion(k: K.NmKey, v: string)
    requires k == K.TlsVersionMin || k == K.TlsVersionMax
    ensures IsOffered(k, v) <==> R.IsVersion(v)
  {}

  lemma OfferedDirection(k: K.NmKey, v: string)
    requires k == K.TaDir || k == K.StaticKeyDirection
    ensures IsOffered(k, v) <==> v in {"0", "1"}
  {}

  /** The words these combos offer are exactly the words the validator takes. */
  lemma OfferedIsValid(v: string)
    ensures IsOffered(K.CompLzo, v) <==> C.ValidOption("comp-lzo", [v])
    ensures IsOffered(K.RemoteCertTls, v) <==> C.ValidOption("remote-cert-tls", [v])
    ensures IsOffered(K.NsCertType, v) <==> C.ValidOption("ns-cert-type", [v])
  {
    hide C.ValidOption, Vocabulary, IsOffered;
    OfferedLzo(v);
    OfferedPeer(K.RemoteCertTls, v);
    OfferedPeer(K.NsCertType, v);
    R.ValidTransport([v]);
    R.ValidPeer("remote-cert-tls", [v]);
    R.ValidPeer("ns-cert-type", [v]);
  }

  /** So are the directions, and the versions but for those with a fallback. */
  lemma OfferedVersionIsValid(v: string)
    ensures IsOffered(K.TlsVersionMin, v) <==> C.ValidOption("tls-version-min", [v]) && |v| == 3
    ensures IsOffered(K.TlsVersionMax, v) <==> C.ValidOption("tls-version-max", [v]) && |v| == 3
  {
    hide C.ValidOption, Vocabulary, IsOffered;
    OfferedVersion(K.TlsVersionMin, v);
    OfferedVersion(K.TlsVersionMax, v);
    R.ValidVersion("tls-version-min", [v]);
    R.ValidVersion("tls-version-max", [v]);
  }

  lemma OfferedDirectionIsValid(v: string)
    ensures IsOffered(K.TaDir, v) <==> C.ValidOption("key-direction", [v])
    ensures IsOffered(K.StaticKeyDirection, v) <==> C.ValidOption("static-key-direction", [v])
  {
    hide C.ValidOption, Vocabulary, IsOffered;
    OfferedDirection(K.TaDir, v);
    OfferedDirection(K.StaticKeyDirection, v);
    R.ValidDirection("key-direction", [v]);
    R.ValidDirection("static-key-direction", [v]);
  }
}
