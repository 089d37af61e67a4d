/**
 * What Load then Apply does to a dictionary: it settles after one round, leaves
 * foreign keys alone, and what it accepts the connect side can build.
 */
module Apply {
  import opened Text
  import opened Numbers
  import opened Names
  import opened Config
  import opened Export
  import opened Connect
  import opened Editor
  import K = Keys

  /** The float parser on what matters here: it reads back the integers the editor prints, and cannot read `yes`. */
  ghost predicate ReadsIntegers(read: string -> real) {
    && (forall n: int :: 0 < n <= SECONDS_MAX ==> read(ShowInt(n)) == n as real)
    && read(K.YES) == 0.0
  }

  predicate Accepts(d: K.NmData, read: string -> real) { WidgetGap(Load(d, read)).None? }

  /** Opening the editor on `d` and pressing Apply without touching anything. */
  function Round(d: K.NmData, read: string -> real): K.NmData { Applied(d, d, Load(d, read)) }

  lemma RoundAt(d: K.NmData, read: string -> real, k: K.NmKey)
    ensures var r := Round(d, read);
      if !FieldOf(k).Foreign? then Holds(r, k, Target(k, Load(d, read)))
      else (k in r <==> k in d) && (k in r ==> r[k] == d[k])
  {
    hide Applied, Target, Load, FieldOf;
    AppliedAt(d, d, Load(d, read), k);
  }

  // ----- Nothing else changes -----

  /** Whatever the widgets say, a key without one keeps its value, or its absence. */
  lemma ForeignKeysAreUntouched(d: K.NmData, w: Widgets, k: K.NmKey)
    requires FieldOf(k).Foreign?
    ensures (k in Applied(d, d, w) <==> k in d) && (k in d ==> Applied(d, d, w)[k] == d[k])
  {
    hide Applied, FieldOf;
    AppliedAt(d, d, w, k);
  }

  /**
    * A combo row that was not touched, and that no connection type switches off,
    * stores back whatever string it was loaded with, in its vocabulary or not,
    * whatever else was edited.
    */
  lemma CombosKeepStrangers(d: K.NmData, read: string -> real, w: Widgets, k: K.NmKey)
    requires IsCombo(k) && !IsGated(k) && k in d && d[k] != ""
    requires w.choice(k) == Load(d, read).choice(k)
    ensures k in Applied(d, d, w) && Applied(d, d, w)[k] == d[k]
  {
    hide Applied, IsCombo, IsGated, Target, FieldOf, Load;
    AppliedAt(d, d, w, k);
    ComboTarget(k, w);
    LoadedChoice(d, read, k);
  }

  lemma LoadedChoice(d: K.NmData, read: string -> real, k: K.NmKey)
    ensures Load(d, read).choice(k) == if Stored(d, k) != "" then Stored(d, k) else FirstChoice(k)
  {
    hide SelectedId, Vocabulary;
    ComboShows(d, k);
  }

  lemma ComboTarget(k: K.NmKey, w: Widgets)
    requires IsCombo(k)
    ensures !FieldOf(k).Foreign?
    ensures Target(k, w) == if Applies(k, w.choice(K.ConnectionType)) then w.choice(k) else ""
    ensures !IsGated(k) ==> Applies(k, w.choice(K.ConnectionType))
  {
    hide TlsLike, NeedsUserCert, NeedsPassword;
  }

  lemma EntryTarget(k: K.NmKey, w: Widgets)
    requires IsEntry(k)
    ensures !FieldOf(k).Foreign?
    ensures Target(k, w) == if Applies(k, w.choice(K.ConnectionType)) then w.text(k) else ""
  {
    hide Applies;
  }

  lemma SpinTarget(k: K.NmKey, w: Widgets)
    requires IsSpin(k)
    ensures FieldOf(k).Spin? && FieldOf(k).max <= SECONDS_MAX
    ensures Target(k, w) == IntOrEmpty(w.number(k).Floor)
  {
    hide Applies, IntOrEmpty;
  }

  lemma SwitchTarget(k: K.NmKey, w: Widgets)
    requires IsSwitch(k)
    ensures Target(k, w) == YesOrEmpty(w.active(k))
  {
    hide Applies, YesOrEmpty;
  }

  // ----- One round settles -----

  lemma TypeSettles(d: K.NmData, e: K.NmData, read: string -> real)
    requires Holds(e, K.ConnectionType, Target(K.ConnectionType, Load(d, read)))
    ensures Load(e, read).choice(K.ConnectionType) == Load(d, read).choice(K.ConnectionType)
    ensures K.ConnectionType in e && e[K.ConnectionType] == Load(d, read).choice(K.ConnectionType) != ""
  {
    hide Target, Load, FieldOf, IsCombo, IsGated, Applies;
    TypeIsOwned();
    ComboTarget(K.ConnectionType, Load(d, read));
    LoadedChoice(d, read, K.ConnectionType);
    LoadedChoice(e, read, K.ConnectionType);
  }

  lemma EntrySettles(d: K.NmData, e: K.NmData, read: string -> real, k: K.NmKey)
    requires IsEntry(k) && Holds(e, k, Target(k, Load(d, read)))
    requires Load(e, read).choice(K.ConnectionType) == Load(d, read).choice(K.ConnectionType)
    ensures Target(k, Load(e, read)) == Target(k, Load(d, read))
    ensures Applies(k, Load(d, read).choice(K.ConnectionType)) ==> Load(e, read).text(k) == Load(d, read).text(k)
  {
    hide Target, Applies;
    EntryTarget(k, Load(d, read));
    EntryTarget(k, Load(e, read));
  }

  lemma ComboSettles(d: K.NmData, e: K.NmData, read: string -> real, k: K.NmKey)
    requires IsCombo(k) && k != K.ConnectionType && Holds(e, k, Target(k, Load(d, read)))
    requires Load(e, read).choice(K.ConnectionType) == Load(d, read).choice(K.ConnectionType)
    ensures Target(k, Load(e, read)) == Target(k, Load(d, read))
  {
    hide Target, Applies, Load, IsCombo, FieldOf, IsGated;
    ComboTarget(k, Load(d, read));
    ComboTarget(k, Load(e, read));
    LoadedChoice(d, read, k);
    LoadedChoice(e, read, k);
  }

  lemma FloorOfClamped(v: real, max: nat)
    ensures 0 <= Clamped(v, max).Floor <= max
  {
  }

  lemma IntegerIsKept(n: int, max: nat)
    requires 0 <= n <= max
    ensures Clamped(n as real, max).Floor == n
  {
  }

  lemma ShownIsSomething(n: int)
    requires n > 0
    ensures ShowInt(n) != "" && ShowInt(n) != K.YES
  {
    ShownIsCanonical(n);
  }

  lemma SpinSettles(d: K.NmData, e: K.NmData, read: string -> real, k: K.NmKey)
    requires ReadsIntegers(read) && IsSpin(k) && Holds(e, k, Target(k, Load(d, read)))
    ensures Target(k, Load(e, read)) == Target(k, Load(d, read))
  {
    hide Target, ShowInt, Clamped;
    SpinTarget(k, Load(d, read));
    SpinTarget(k, Load(e, read));
    hide FieldOf, IsSpin;
    var max := FieldOf(k).max;
    var n := Load(d, read).number(k).Floor;
    FloorOfClamped(Loaded(d, k, read), max);
    IntegerIsKept(n, max);
    if n > 0 {
      ShownIsSomething(n);
      assert Loaded(e, k, read) == n as real;
    } else {
      assert Loaded(e, k, read) == n as real;
    }
  }

  lemma SwitchSettles(d: K.NmData, e: K.NmData, read: string -> real, k: K.NmKey)
    requires IsSwitch(k) && Holds(e, k, Target(k, Load(d, read)))
    ensures Target(k, Load(e, read)) == Target(k, Load(d, read))
  {
    hide Target;
    SwitchTarget(k, Load(d, read));
    SwitchTarget(k, Load(e, read));
  }

  lemma ClampSettles(d: K.NmData, e: K.NmData, read: string -> real)
    requires ReadsIntegers(read) && Holds(e, K.Mssfix, Target(K.Mssfix, Load(d, read)))
    ensures Target(K.Mssfix, Load(e, read)) == Target(K.Mssfix, Load(d, read))
  {
    hide Target, ShowInt, Clamped, ReadsIntegers;
    var w := Load(d, read);
    ClampTarget(w);
    ClampTarget(Load(e, read));
    FloorOfClamped(Loaded(d, K.Mssfix, read), 65535);
    var n := w.clampBytes.Floor;
    if w.clampOn && n > 0 {
      ShownIsSomething(n);
      IntegerIsRead(read, n);
      IntegerIsKept(n, 65535);
    } else {
      YesIsNotRead(read);
      IntegerIsKept(0, 65535);
    }
  }

  lemma IntegerIsRead(read: string -> real, n: int)
    requires ReadsIntegers(read) && 0 < n <= SECONDS_MAX
    ensures read(ShowInt(n)) == n as real > 0.0
  {
  }

  lemma YesIsNotRead(read: string -> real)
    requires ReadsIntegers(read)
    ensures read(K.YES) == 0.0 == (0 as int) as real
  {
  }

  lemma TargetSettles(d: K.NmData, read: string -> real, k: K.NmKey)
    requires ReadsIntegers(read) && !FieldOf(k).Foreign?
    ensures Target(k, Load(Round(d, read), read)) == Target(k, Load(d, read))
  {
    hide Target, Load, Round, Holds, FieldOf, IsEntry, IsCombo, IsSwitch, IsSpin;
    var e := Round(d, read);
    RoundAt(d, read, k);
    RoundAt(d, read, K.ConnectionType);
    TypeIsOwned();
    TypeSettles(d, e, read);
    KindsOfField(k);
    if IsEntry(k) {
      EntrySettles(d, e, read, k);
    } else if IsCombo(k) && k != K.ConnectionType {
      ComboSettles(d, e, read, k);
    } else if IsSwitch(k) {
      SwitchSettles(d, e, read, k);
    } else if IsSpin(k) {
      SpinSettles(d, e, read, k);
    } else if k == K.ConnectionType {
      ComboTarget(k, Load(d, read));
      ComboTarget(k, Load(e, read));
    } else {
      ClampSettles(d, e, read);
    }
  }

  lemma TypeIsOwned()
    ensures !FieldOf(K.ConnectionType).Foreign? && IsCombo(K.ConnectionType) && !IsGated(K.ConnectionType)
  {
  }

  /** Applying a second time changes nothing: a round is where the editor comes to rest. */
  lemma RoundSettles(d: K.NmData, read: string -> real)
    requires ReadsIntegers(read)
    ensures Round(Round(d, read), read) == Round(d, read)
  {
    hide Round, Target, Load, FieldOf, Holds;
    var e := Round(d, read);
    var f := Round(e, read);
    forall k: K.NmKey | true
      ensures k in f <==> k in e
      ensures k in f && k in e ==> f[k] == e[k]
    {
      RoundAt(d, read, k);
      RoundAt(e, read, k);
      if !FieldOf(k).Foreign? {
        TargetSettles(d, read, k);
        HoldsOnce(e, f, k, Target(k, Load(d, read)));
      }
    }
  }

  lemma HoldsOnce(e: K.NmData, f: K.NmData, k: K.NmKey, v: string)
    requires Holds(e, k, v) && Holds(f, k, v)
    ensures k in f <==> k in e
    ensures k in f ==> f[k] == e[k]
  {
  }

  lemma EntryKept(d: K.NmData, read: string -> real, k: K.NmKey)
    requires IsEntry(k)
    ensures Applies(k, Load(d, read).choice(K.ConnectionType)) ==>
              Load(Round(d, read), read).text(k) == Load(d, read).text(k) == Stored(Round(d, read), k)
  {
    hide Target, Load, Round, Holds, FieldOf, IsEntry, Applies;
    RoundAt(d, read, k);
    RoundAt(d, read, K.ConnectionType);
    TypeIsOwned();
    TypeSettles(d, Round(d, read), read);
    EntryTarget(k, Load(d, read));
    EntrySettles(d, Round(d, read), read, k);
    assert Load(Round(d, read), read).text(k) == Stored(Round(d, read), k) by { LoadedText(Round(d, read), read, k); }
  }

  lemma LoadedText(d: K.NmData, read: string -> real, k: K.NmKey)
    ensures Load(d, read).text(k) == Stored(d, k)
  {
  }

  lemma TypeKept(d: K.NmData, read: string -> real)
    ensures var e, ct := Round(d, read), Load(d, read).choice(K.ConnectionType);
      K.Get(e, K.ConnectionType) == Some(ct) && Load(e, read).choice(K.ConnectionType) == ct
  {
    hide Target, Load, Round, Holds, FieldOf;
    RoundAt(d, read, K.ConnectionType);
    TypeIsOwned();
    TypeSettles(d, Round(d, read), read);
  }

  /** The fields a connection type asks for are there after an accepted Apply. */
  predicate HasCredentials(d: K.NmData) {
    && K.HasValue(d, K.Remote)
    && (K.NeedsUserCert(d) ==> K.HasValue(d, K.Ca) && K.HasValue(d, K.Cert) && K.HasValue(d, K.Key))
    && (K.PasswordLike(d) ==> K.HasValue(d, K.Username))
    && (K.StaticKeyMode(d) ==> K.HasValue(d, K.StaticKey))
  }

  lemma KeptEntries(d: K.NmData, read: string -> real)
    ensures var e, w := Round(d, read), Load(d, read);
      var ct := w.choice(K.ConnectionType);
      && Stored(e, K.Remote) == w.text(K.Remote)
      && (TlsLike(ct) ==> Stored(e, K.Ca) == w.text(K.Ca))
      && (NeedsUserCert(ct) ==> Stored(e, K.Cert) == w.text(K.Cert) && Stored(e, K.Key) == w.text(K.Key))
      && (NeedsPassword(ct) ==> Stored(e, K.Username) == w.text(K.Username))
      && (ct == K.STATIC_KEY ==> Stored(e, K.StaticKey) == w.text(K.StaticKey))
  {
    hide Round, Load, TlsLike, NeedsUserCert, NeedsPassword;
    EntryKept(d, read, K.Remote);
    EntryKept(d, read, K.Ca);
    EntryKept(d, read, K.Cert);
    EntryKept(d, read, K.Key);
    EntryKept(d, read, K.Username);
    EntryKept(d, read, K.StaticKey);
  }

  /** Acceptance is kept: a dictionary that came out of an Apply is accepted exactly when the one before was. */
  lemma RoundKeepsVerdict(d: K.NmData, read: string -> real)
    ensures Accepts(Round(d, read), read) <==> Accepts(d, read)
  {
    hide Round, Load;
    var e := Round(d, read);
    KeptEntries(d, read);
    TypeKept(d, read);
    LoadedText(e, read, K.Remote);
    LoadedText(e, read, K.Ca);
    LoadedText(e, read, K.Cert);
    LoadedText(e, read, K.Key);
    LoadedText(e, read, K.Username);
    LoadedText(e, read, K.StaticKey);
  }

  /** What an Apply stores under the keys that the required-field check looks at. */
  lemma StoredEntries(d: K.NmData, initial: K.NmData, w: Widgets)
    ensures var e, ct := Applied(d, initial, w), w.choice(K.ConnectionType);
      && Stored(e, K.ConnectionType) == ct
      && Stored(e, K.Remote) == w.text(K.Remote)
      && (TlsLike(ct) ==> Stored(e, K.Ca) == w.text(K.Ca))
      && (NeedsUserCert(ct) ==> Stored(e, K.Cert) == w.text(K.Cert) && Stored(e, K.Key) == w.text(K.Key))
      && (NeedsPassword(ct) ==> Stored(e, K.Username) == w.text(K.Username))
      && (ct == K.STATIC_KEY ==> Stored(e, K.StaticKey) == w.text(K.StaticKey))
  {
    hide Applied, Target, TlsLike, NeedsUserCert, NeedsPassword;
    GatedTargets(w);
    TypeIsOwned();
    ComboTarget(K.ConnectionType, w);
    EntryTarget(K.Remote, w);
    assert Applies(K.Remote, w.choice(K.ConnectionType));
    TargetIsStored(d, initial, w, K.ConnectionType);
    TargetIsStored(d, initial, w, K.Remote);
    TargetIsStored(d, initial, w, K.Ca);
    TargetIsStored(d, initial, w, K.Cert);
    TargetIsStored(d, initial, w, K.Key);
    TargetIsStored(d, initial, w, K.Username);
    TargetIsStored(d, initial, w, K.StaticKey);
  }

  lemma TargetIsStored(d: K.NmData, initial: K.NmData, w: Widgets, k: K.NmKey)
    requires IsEntry(k) || IsCombo(k)
    ensures Stored(Applied(d, initial, w), k) == Target(k, w)
  {
    hide Applied, Target, FieldOf, IsEntry, IsCombo;
    KindsOfField(k);
    AppliedAt(d, initial, w, k);
  }

  /** Any Apply is accepted exactly when what it stores has a gateway and the credentials its type asks for. */
  lemma AcceptedMeansCredentials(d: K.NmData, initial: K.NmData, w: Widgets)
    ensures WidgetGap(w).None? <==> HasCredentials(Applied(d, initial, w))
  {
    hide Applied;
    StoredEntries(d, initial, w);
    var e := Applied(d, initial, w);
    StoredHasValue(e, K.ConnectionType);
    StoredHasValue(e, K.Remote);
    StoredHasValue(e, K.Ca);
    StoredHasValue(e, K.Cert);
    StoredHasValue(e, K.Key);
    StoredHasValue(e, K.Username);
    StoredHasValue(e, K.StaticKey);
  }

  lemma StoredHasValue(d: K.NmData, k: K.NmKey)
    ensures Stored(d, k) != "" <==> K.HasValue(d, k)
  {
  }

  // ----- And the connect side can use it -----

  /** A PKCS#12 bundle, or ca, cert and key. */
  predicate CarriesCert(ds: Directives, d: K.NmData) {
    || (K.HasValue(d, K.Cert) && Valued(Trust(Pkcs12), d[K.Cert]) in ds)
    || (K.HasValue(d, K.Ca) && K.HasValue(d, K.Cert) && K.HasValue(d, K.Key)
        && Valued(Trust(Ca), d[K.Ca]) in ds && Valued(Trust(Cert), d[K.Cert]) in ds
        && Valued(Trust(Key), d[K.Key]) in ds)
  }

  ghost predicate CarriesSecret(ds: Directives, d: K.NmData) {
    K.HasValue(d, K.StaticKey)
    && exists args: seq<string> :: args != [] && args[0] == d[K.StaticKey] && Opt(Spell(Trust(Secret)), args) in ds
  }

  /** The directives that carry the credentials a connection type asks for. */
  ghost predicate CarriesCredentials(ds: Directives, d: K.NmData) {
    && (K.NeedsUserCert(d) ==> CarriesCert(ds, d))
    && (K.PasswordLike(d) ==> Flagged(Trust(AuthUserPass)) in ds)
    && (K.StaticKeyMode(d) ==> CarriesSecret(ds, d))
  }

  lemma HeadHoldsSegments(d: K.NmData, x: Directive)
    requires x in ConnectPki(d) || x in FlagIf(K.PasswordLike(d), Trust(AuthUserPass)) || x in SecretSegment(d)
    ensures x in ConnectDirectives(d)
  {
    hide FlagIf, RemoteSegment, SwitchSegment, ConnectPki, SecretSegment, ConnectCrypto, ConnectLink, RouteSegment,
         ConnectBottom;
    assert x in ConnectHead(d);
  }

  lemma PkiCarries(d: K.NmData)
    requires K.NeedsUserCert(d) && K.HasValue(d, K.Ca) && K.HasValue(d, K.Cert) && K.HasValue(d, K.Key)
    ensures CarriesCert(ConnectPki(d), d)
  {
    hide Spell, IsPkcs12Path;
  }

  lemma CertIsCarried(d: K.NmData)
    requires K.NeedsUserCert(d) && K.HasValue(d, K.Ca) && K.HasValue(d, K.Cert) && K.HasValue(d, K.Key)
    ensures CarriesCert(ConnectDirectives(d), d)
  {
    hide ConnectPki, ConnectDirectives, Spell;
    PkiCarries(d);
    forall x | x in ConnectPki(d) ensures x in ConnectDirectives(d) { HeadHoldsSegments(d, x); }
  }

  lemma PasswordIsCarried(d: K.NmData)
    requires K.PasswordLike(d)
    ensures Flagged(Trust(AuthUserPass)) in ConnectDirectives(d)
  {
    hide ConnectDirectives, Spell;
    HeadHoldsSegments(d, Flagged(Trust(AuthUserPass)));
  }

  lemma SecretIsCarried(d: K.NmData)
    requires K.StaticKeyMode(d) && K.HasValue(d, K.StaticKey)
    ensures CarriesSecret(ConnectDirectives(d), d)
  {
    hide ConnectDirectives, Spell;
    var args := [d[K.StaticKey]] + (if K.HasValue(d, K.StaticKeyDirection) then [d[K.StaticKeyDirection]] else []);
    assert SecretSegment(d) == [Opt(Spell(Trust(Secret)), args)];
    HeadHoldsSegments(d, Opt(Spell(Trust(Secret)), args));
  }

  lemma CredentialsAreCarried(e: K.NmData)
    requires HasCredentials(e)
    ensures CarriesCredentials(ConnectDirectives(e), e)
  {
    hide ConnectDirectives, CarriesCert, CarriesSecret, Spell;
    if K.NeedsUserCert(e) {
      CertIsCarried(e);
    }
    if K.PasswordLike(e) {
      PasswordIsCarried(e);
    }
    if K.StaticKeyMode(e) {
      SecretIsCarried(e);
    }
  }

  /**
    * Whatever was edited: what an accepted Apply stores can be built into a profile
    * that carries the credentials of its type.
    */
  lemma AcceptedApplyConnects(d: K.NmData, initial: K.NmData, w: Widgets)
    requires WidgetGap(w).None?
    ensures var e := Applied(d, initial, w);
            K.HasValue(e, K.Remote) && CarriesCredentials(ConnectDirectives(e), e)
  {
    hide Applied, ConnectDirectives, CarriesCredentials;
    AcceptedMeansCredentials(d, initial, w);
    CredentialsAreCarried(Applied(d, initial, w));
  }

  /** The same for an editor that was opened and applied without an edit. */
  lemma UntouchedApplyConnects(d: K.NmData, read: string -> real)
    ensures Accepts(d, read) <==> HasCredentials(Round(d, read))
    ensures Accepts(d, read) ==> CarriesCredentials(ConnectDirectives(Round(d, read)), Round(d, read))
  {
    hide Applied, ConnectDirectives, CarriesCredentials, Load, HasCredentials, WidgetGap;
    AcceptedMeansCredentials(d, d, Load(d, read));
    if Accepts(d, read) {
      CredentialsAreCarried(Round(d, read));
    }
  }
}
