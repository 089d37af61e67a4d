/**
 * The connection editor: loading vpn.data into the widgets and applying the
 * widgets to vpn.data.  A widget is the plain value it shows; it is addressed by
 * the key it is bound to.
 */
module Editor {
  import opened Text
  import opened Numbers
  import K = Keys

  // ----- Widgets -----

  datatype Field = Entry | Combo | Spin(max: nat) | Switch | Clamp | Foreign

  const SECONDS_MAX := 0x7FFF_FFFF

  predicate IsEntry(k: K.NmKey) {
    || k.Remote? || k.Ca? || k.Cert? || k.Key? || k.StaticKey? || k.Username? || k.Profile? || k.Dev?
    || k.DataCiphers? || k.TlsCipher? || k.VerifyX509Name? || k.Ta? || k.TlsCrypt? || k.TlsCryptV2?
    || k.ProxyServer? || k.HttpProxyUsername?
  }

  predicate IsCombo(k: K.NmKey) {
    || k.ConnectionType? || k.StaticKeyDirection? || k.DevType? || k.AllowCompression? || k.CompLzo? || k.Compress?
    || k.Cipher? || k.DataCiphersFallback? || k.Auth? || k.TlsVersionMin? || k.TlsVersionMax? || k.RemoteCertTls?
    || k.NsCertType? || k.TaDir? || k.ProxyType?
  }

  predicate IsSwitch(k: K.NmKey) {
    || k.ProtoTcp? || k.TlsVersionMinOrHighest? || k.OverrideRouteNopull? || k.OverrideForceDefaultGateway?
    || k.OverrideBlockIpv6? || k.OverrideDnsSetupDisabled? || k.OverrideDco?
  }

  predicate IsSeconds(k: K.NmKey) { k.Ping? || k.PingRestart? || k.RenegSeconds? || k.ConnectTimeout? }

  predicate IsBounded(k: K.NmKey) { k.Port? || k.TunnelMtu? || k.FragmentSize? || k.Keysize? || k.ProxyPort? }

  predicate IsSpin(k: K.NmKey) { IsBounded(k) || IsSeconds(k) || k.OverrideLogLevel? }

  /** The kind of row a key is bound to; `Foreign` keys have none. */
  function FieldOf(k: K.NmKey): Field {
    if IsEntry(k) then Entry
    else if IsCombo(k) then Combo
    else if IsSwitch(k) then Switch
    else if IsBounded(k) then Spin(65535)
    else if IsSeconds(k) then Spin(SECONDS_MAX)
    else if k.OverrideLogLevel? then Spin(6)
    else if k.Mssfix? then Clamp
    else Foreign
  }

  datatype Widgets = Widgets(
    text: K.NmKey -> string,
    choice: K.NmKey -> string,
    number: K.NmKey -> real,
    active: K.NmKey -> bool,
    clampOn: bool,
    clampBytes: real)

  // ----- Loading -----

  /** The vocabulary of each combo row, in the order of the source; other rows have no choice. */
  function Vocabulary(k: K.NmKey): (v: seq<string>)
    ensures v != []
  {
    if k.ConnectionType? then [K.TLS, K.PASSWORD, K.PASSWORD_TLS, K.STATIC_KEY]
    else if k.StaticKeyDirection? || k.TaDir? then ["", "0", "1"]
    else if k.DevType? then ["", "tun", "tap"]
    else if k.AllowCompression? then ["", "no", "asym", "yes"]
    else if k.CompLzo? then ["", "yes", "no", "adaptive"]
    else if k.Compress? then ["", "lzo", "lz4", "lz4-v2"]
    else if k.Cipher? || k.DataCiphersFallback? then
      ["", "AES-256-GCM", "AES-192-GCM", "AES-128-GCM", "CHACHA20-POLY1305",
       "AES-256-CBC", "AES-192-CBC", "AES-128-CBC", "BF-CBC"]
    else if k.Auth? then ["", "SHA1", "SHA224", "SHA256", "SHA384", "SHA512", "RIPEMD160", "MD5"]
    else if k.TlsVersionMin? || k.TlsVersionMax? then ["", "1.0", "1.1", "1.2", "1.3"]
    else if k.RemoteCertTls? || k.NsCertType? then ["", "client", "server"]
    else if k.ProxyType? then ["", "http", "socks"]
    else [""]
  }

  /** The ids behind a combo row: a stored value that is not in the vocabulary is one more choice. */
  function RowIds(vocabulary: seq<string>, initial: Option<string>): seq<string> {
    vocabulary
    + if initial.Some? && initial.value != "" && initial.value !in vocabulary then [initial.value] else []
  }

  /** The last position of a value in a list that holds it. */
  function LastPosition(ids: seq<string>, v: string): (n: nat)
    requires v in ids
    ensures n < |ids| && ids[n] == v && v !in ids[n + 1..]
    decreases |ids|
  {
    if ids[|ids| - 1] == v then |ids| - 1
    else
      var n := LastPosition(ids[..|ids| - 1], v);
      assert ids[n + 1..] == ids[..|ids| - 1][n + 1..] + [ids[|ids| - 1]];
      n
  }

  /** The position a combo row selects when it is built. */
  function RowIndex(vocabulary: seq<string>, initial: Option<string>): (n: nat)
    requires vocabulary != []
    ensures n < |RowIds(vocabulary, initial)|
  {
    if initial.Some? && initial.value in vocabulary then LastPosition(vocabulary, initial.value)
    else if initial.Some? && initial.value != "" then |vocabulary|
    else 0
  }

  /** `selected_id` of a row that was just built. */
  function SelectedId(vocabulary: seq<string>, initial: Option<string>): string
    requires vocabulary != []
  {
    RowIds(vocabulary, initial)[RowIndex(vocabulary, initial)]
  }

  /** `combo_row`: the ids behind the row and the selected position. */
  method ComboRow(vocabulary: seq<string>, initial: Option<string>) returns (ids: seq<string>, selected: nat)
    requires vocabulary != []
    ensures ids == RowIds(vocabulary, initial) && selected == RowIndex(vocabulary, initial)
  {
    ids, selected := [], 0;
    var matched := false;
    for i := 0 to |vocabulary|
      invariant ids == vocabulary[..i]
      invariant matched <==> initial.Some? && initial.value in vocabulary[..i]
      invariant selected == if matched then LastPosition(vocabulary[..i], initial.value) else 0
    {
      assert vocabulary[..i + 1] == vocabulary[..i] + [vocabulary[i]];
      assert vocabulary[..i + 1][..i] == vocabulary[..i];
      ids := ids + [vocabulary[i]];
      if initial == Some(vocabulary[i]) {
        selected := i;
        matched := true;
      }
    }
    assert ids == vocabulary[..|vocabulary|] == vocabulary;
    if initial.Some? && initial.value != "" && !matched {
      ids := ids + [initial.value];
      selected := |ids| - 1;
    }
  }

  /** Whatever the vocabulary: a value that is there is what the row shows, and none shows the first choice. */
  lemma RowShows(vocabulary: seq<string>, initial: Option<string>)
    requires vocabulary != []
    ensures SelectedId(vocabulary, initial) ==
            if initial.Some? && (initial.value != "" || "" in vocabulary) then initial.value else vocabulary[0]
  {
  }

  function Stored(d: K.NmData, k: K.NmKey): string {
    if k in d then d[k] else ""
  }

  /** Every combo starts with the empty choice, but the connection type starts with TLS. */
  function FirstChoice(k: K.NmKey): string {
    if k == K.ConnectionType then K.TLS else ""
  }

  /** What a combo row is built with: a missing connection type counts as TLS. */
  function Initial(d: K.NmData, k: K.NmKey): Option<string> {
    if k in d then Some(d[k]) else if k.ConnectionType? then Some(K.TLS) else None
  }

  lemma VocabularyStarts(k: K.NmKey)
    ensures Vocabulary(k)[0] == FirstChoice(k)
    ensures "" in Vocabulary(k) <==> !k.ConnectionType?
  {
    if !k.ConnectionType? {
      assert Vocabulary(k)[0] == "";
    }
  }

  /** What a combo row shows, in or out of its vocabulary. */
  lemma ComboShows(d: K.NmData, k: K.NmKey)
    ensures SelectedId(Vocabulary(k), Initial(d, k)) == if Stored(d, k) != "" then Stored(d, k) else FirstChoice(k)
  {
    hide Vocabulary, SelectedId;
    VocabularyStarts(k);
    RowShows(Vocabulary(k), Initial(d, k));
  }

  function Clamped(v: real, max: nat): real {
    if v < 0.0 then 0.0 else if v > max as real then max as real else v
  }

  /** A row's text as a number: `read` is the float parser, and what it cannot read counts as zero. */
  function Loaded(d: K.NmData, k: K.NmKey, read: string -> real): real {
    if k in d then read(d[k]) else 0.0
  }

  function Load(d: K.NmData, read: string -> real): Widgets {
    var bytes := Loaded(d, K.Mssfix, read);
    Widgets(
      k => Stored(d, k),
      k => SelectedId(Vocabulary(k), Initial(d, k)),
      k => Clamped(Loaded(d, k, read), if FieldOf(k).Spin? then FieldOf(k).max else 0),
      k => Stored(d, k) == K.YES,
      Stored(d, K.Mssfix) == K.YES || bytes > 0.0,
      Clamped(bytes, 65535))
  }

  // ----- Applying -----

  predicate TlsLike(ct: string) { ct == K.TLS || ct == K.PASSWORD || ct == K.PASSWORD_TLS }

  predicate NeedsUserCert(ct: string) { ct == K.TLS || ct == K.PASSWORD_TLS }

  predicate NeedsPassword(ct: string) { ct == K.PASSWORD || ct == K.PASSWORD_TLS }

  /** Fields that the connection type may switch off. */
  predicate IsGated(k: K.NmKey) {
    k.Ca? || k.Cert? || k.Key? || k.Username? || k.StaticKey? || k.StaticKeyDirection?
  }

  predicate Applies(k: K.NmKey, ct: string) {
    && (k.Ca? ==> TlsLike(ct))
    && (k.Cert? || k.Key? ==> NeedsUserCert(ct))
    && (k.Username? ==> NeedsPassword(ct))
    && (k.StaticKey? || k.StaticKeyDirection? ==> ct == K.STATIC_KEY)
  }

  function IntOrEmpty(v: int): string {
    if v > 0 then ShowInt(v) else ""
  }

  function YesOrEmpty(on: bool): string {
    if on then K.YES else ""
  }

  /** What a widget stores; the empty string stands for no key. */
  function Target(k: K.NmKey, w: Widgets): string {
    var on := Applies(k, w.choice(K.ConnectionType));
    match FieldOf(k)
    case Entry => if on then w.text(k) else ""
    case Combo => if on then w.choice(k) else ""
    case Spin(_) => IntOrEmpty(w.number(k).Floor)
    case Switch => YesOrEmpty(w.active(k))
    case Clamp =>
      if !w.clampOn then "" else if w.clampBytes.Floor > 0 then ShowInt(w.clampBytes.Floor) else K.YES
    case Foreign => ""
  }

  datatype Gap = MissingGateway | MissingCa | MissingCertOrKey | MissingUserName | MissingKeyFile

  /** `validate_required_fields`. */
  function RequiredGap(ct: string, remote: string, ca: string, cert: string, key: string, user: string, file: string)
    : Option<Gap>
  {
    if remote == "" then Some(MissingGateway)
    else if NeedsUserCert(ct) && ca == "" then Some(MissingCa)
    else if NeedsUserCert(ct) && (cert == "" || key == "") then Some(MissingCertOrKey)
    else if NeedsPassword(ct) && user == "" then Some(MissingUserName)
    else if ct == K.STATIC_KEY && file == "" then Some(MissingKeyFile)
    else None
  }

  function WidgetGap(w: Widgets): Option<Gap> {
    RequiredGap(w.choice(K.ConnectionType), w.text(K.Remote), w.text(K.Ca), w.text(K.Cert), w.text(K.Key),
                w.text(K.Username), w.text(K.StaticKey))
  }

  /** `set`: an empty value removes the key. */
  function Put(d: K.NmData, k: K.NmKey, v: string): K.NmData {
    if v == "" then d - {k} else d[k := v]
  }

  /** The keys that the editor owns, in the order it writes them. */
  const GENERAL_KEYS := [K.ConnectionType, K.Remote, K.Port, K.Ca, K.Cert, K.Key, K.Username, K.StaticKey,
                         K.StaticKeyDirection, K.Profile]
  const LINK_KEYS := [K.Dev, K.DevType, K.ProtoTcp, K.TunnelMtu, K.Mssfix, K.FragmentSize, K.Ping, K.PingRestart,
                      K.RenegSeconds, K.ConnectTimeout]
  const CRYPTO_KEYS := [K.AllowCompression, K.CompLzo, K.Compress, K.Cipher, K.DataCiphers, K.DataCiphersFallback,
                        K.TlsCipher, K.Auth, K.Keysize]
  const TLS_KEYS := [K.TlsVersionMin, K.TlsVersionMinOrHighest, K.TlsVersionMax, K.VerifyX509Name, K.RemoteCertTls,
                     K.NsCertType, K.Ta, K.TaDir, K.TlsCrypt, K.TlsCryptV2]
  const LAST_KEYS := [K.ProxyType, K.ProxyServer, K.ProxyPort, K.HttpProxyUsername, K.OverrideRouteNopull,
                      K.OverrideForceDefaultGateway, K.OverrideBlockIpv6, K.OverrideDnsSetupDisabled, K.OverrideDco,
                      K.OverrideLogLevel]

  function SetAll(d: K.NmData, ks: seq<K.NmKey>, w: Widgets): K.NmData
    decreases |ks|
  {
    if ks == [] then d
    else Put(SetAll(d, ks[..|ks| - 1], w), ks[|ks| - 1], Target(ks[|ks| - 1], w))
  }

  /** The imported keys the editor does not own are replayed. */
  function Replayed(d: K.NmData, initial: K.NmData): K.NmData {
    d + map k | k in initial && FieldOf(k).Foreign? :: initial[k]
  }

  function Applied(d: K.NmData, initial: K.NmData, w: Widgets): K.NmData {
    SetAll(SetAll(SetAll(SetAll(SetAll(Replayed(d, initial), GENERAL_KEYS, w), LINK_KEYS, w), CRYPTO_KEYS, w),
                  TLS_KEYS, w), LAST_KEYS, w)
  }

  /** The vpn setting of a connection, as far as the data items go. */
  class Setting {
    var data: K.NmData

    constructor (initial: K.NmData)
      ensures data == initial
    {
      data := initial;
    }

    method Set(k: K.NmKey, v: string)
      modifies this
      ensures data == Put(old(data), k, v)
    {
      if v == "" {
        data := data - {k};
      } else {
        data := data[k := v];
      }
    }
  }

  /** One more `set`, behind the keys that are already written. */
  method Write(s: Setting, k: K.NmKey, v: string, w: Widgets, ghost start: K.NmData, ghost ks: seq<K.NmKey>)
    returns (ghost more: seq<K.NmKey>)
    requires s.data == SetAll(start, ks, w) && v == Target(k, w)
    modifies s
    ensures more == ks + [k] && s.data == SetAll(start, more, w)
  {
    s.Set(k, v);
    more := ks + [k];
    assert more[..|ks|] == ks;
  }

  method WriteText(s: Setting, k: K.NmKey, w: Widgets, ghost start: K.NmData, ghost ks: seq<K.NmKey>)
    returns (ghost more: seq<K.NmKey>)
    requires IsEntry(k) && !IsGated(k) && s.data == SetAll(start, ks, w)
    modifies s
    ensures more == ks + [k] && s.data == SetAll(start, more, w)
  {
    hide SetAll;
    more := Write(s, k, w.text(k), w, start, ks);
  }

  method WriteChoice(s: Setting, k: K.NmKey, w: Widgets, ghost start: K.NmData, ghost ks: seq<K.NmKey>)
    returns (ghost more: seq<K.NmKey>)
    requires IsCombo(k) && !IsGated(k) && s.data == SetAll(start, ks, w)
    modifies s
    ensures more == ks + [k] && s.data == SetAll(start, more, w)
  {
    hide SetAll;
    more := Write(s, k, w.choice(k), w, start, ks);
  }

  method WriteNumber(s: Setting, k: K.NmKey, w: Widgets, ghost start: K.NmData, ghost ks: seq<K.NmKey>)
    returns (ghost more: seq<K.NmKey>)
    requires IsSpin(k) && s.data == SetAll(start, ks, w)
    modifies s
    ensures more == ks + [k] && s.data == SetAll(start, more, w)
  {
    hide SetAll, IntOrEmpty;
    SpinField(k);
    hide FieldOf;
    more := Write(s, k, IntOrEmpty(w.number(k).Floor), w, start, ks);
  }

  method WriteSwitch(s: Setting, k: K.NmKey, w: Widgets, ghost start: K.NmData, ghost ks: seq<K.NmKey>)
    returns (ghost more: seq<K.NmKey>)
    requires IsSwitch(k) && s.data == SetAll(start, ks, w)
    modifies s
    ensures more == ks + [k] && s.data == SetAll(start, more, w)
  {
    hide SetAll;
    more := Write(s, k, YesOrEmpty(w.active(k)), w, start, ks);
  }

  lemma SpinField(k: K.NmKey)
    requires IsSpin(k)
    ensures FieldOf(k).Spin?
  {
  }

  function Cond(on: bool, v: string): string {
    if on then v else ""
  }

  lemma GatedTargets(w: Widgets)
    ensures var ct := w.choice(K.ConnectionType);
      && Target(K.Ca, w) == Cond(TlsLike(ct), w.text(K.Ca))
      && Target(K.Cert, w) == Cond(NeedsUserCert(ct), w.text(K.Cert))
      && Target(K.Key, w) == Cond(NeedsUserCert(ct), w.text(K.Key))
      && Target(K.Username, w) == Cond(NeedsPassword(ct), w.text(K.Username))
      && Target(K.StaticKey, w) == Cond(ct == K.STATIC_KEY, w.text(K.StaticKey))
      && Target(K.StaticKeyDirection, w) == Cond(ct == K.STATIC_KEY, w.choice(K.StaticKeyDirection))
  {
    hide TlsLike, NeedsUserCert, NeedsPassword;
  }

  lemma ClampTarget(w: Widgets)
    ensures Target(K.Mssfix, w) ==
      if !w.clampOn then "" else if w.clampBytes.Floor > 0 then ShowInt(w.clampBytes.Floor) else K.YES
  {
    hide ShowInt;
  }

  lemma GeneralRows()
    ensures IsCombo(K.ConnectionType) && !IsGated(K.ConnectionType)
    ensures IsEntry(K.Remote) && !IsGated(K.Remote)
    ensures IsSpin(K.Port)
    ensures IsEntry(K.Profile) && !IsGated(K.Profile)
  {
  }

  method SaveGeneral(s: Setting, w: Widgets)
    modifies s
    ensures s.data == SetAll(old(s.data), GENERAL_KEYS, w)
  {
    hide SetAll, ShowInt, Target, IsEntry, IsCombo, IsSwitch, IsGated, IsSpin;
    ghost var start := s.data;
    NothingSet(start, w);
    GeneralRows();
    GatedTargets(w);
    var ct := w.choice(K.ConnectionType);
    ghost var ks := WriteChoice(s, K.ConnectionType, w, start, []);
    ks := WriteText(s, K.Remote, w, start, ks);
    ks := WriteNumber(s, K.Port, w, start, ks);
    ks := Write(s, K.Ca, Cond(TlsLike(ct), w.text(K.Ca)), w, start, ks);
    ks := Write(s, K.Cert, Cond(NeedsUserCert(ct), w.text(K.Cert)), w, start, ks);
    ks := Write(s, K.Key, Cond(NeedsUserCert(ct), w.text(K.Key)), w, start, ks);
    ks := Write(s, K.Username, Cond(NeedsPassword(ct), w.text(K.Username)), w, start, ks);
    ks := Write(s, K.StaticKey, Cond(ct == K.STATIC_KEY, w.text(K.StaticKey)), w, start, ks);
    ks := Write(s, K.StaticKeyDirection, Cond(ct == K.STATIC_KEY, w.choice(K.StaticKeyDirection)), w, start, ks);
    ks := WriteText(s, K.Profile, w, start, ks);
    assert ks == GENERAL_KEYS;
  }

  lemma LinkRows()
    ensures IsEntry(K.Dev) && !IsGated(K.Dev)
    ensures IsCombo(K.DevType) && !IsGated(K.DevType)
    ensures IsSwitch(K.ProtoTcp)
    ensures IsSpin(K.TunnelMtu)
    ensures IsSpin(K.FragmentSize)
    ensures IsSpin(K.Ping)
    ensures IsSpin(K.PingRestart)
    ensures IsSpin(K.RenegSeconds)
    ensures IsSpin(K.ConnectTimeout)
  {
  }

  method SaveLink(s: Setting, w: Widgets)
    modifies s
    ensures s.data == SetAll(old(s.data), LINK_KEYS, w)
  {
    hide SetAll, ShowInt, Target, IsEntry, IsCombo, IsSwitch, IsGated, IsSpin;
    ghost var start := s.data;
    NothingSet(start, w);
    LinkRows();
    ClampTarget(w);
    var clamp := "";
    if w.clampOn {
      var bytes := w.clampBytes.Floor;
      clamp := if bytes > 0 then ShowInt(bytes) else K.YES;
    }
    ghost var ks := WriteText(s, K.Dev, w, start, []);
    ks := WriteChoice(s, K.DevType, w, start, ks);
    ks := WriteSwitch(s, K.ProtoTcp, w, start, ks);
    ks := WriteNumber(s, K.TunnelMtu, w, start, ks);
    ks := Write(s, K.Mssfix, clamp, w, start, ks);
    ks := WriteNumber(s, K.FragmentSize, w, start, ks);
    ks := WriteNumber(s, K.Ping, w, start, ks);
    ks := WriteNumber(s, K.PingRestart, w, start, ks);
    ks := WriteNumber(s, K.RenegSeconds, w, start, ks);
    ks := WriteNumber(s, K.ConnectTimeout, w, start, ks);
    assert ks == LINK_KEYS;
  }

  lemma CryptoRows()
    ensures IsCombo(K.AllowCompression) && !IsGated(K.AllowCompression)
    ensures IsCombo(K.CompLzo) && !IsGated(K.CompLzo)
    ensures IsCombo(K.Compress) && !IsGated(K.Compress)
    ensures IsCombo(K.Cipher) && !IsGated(K.Cipher)
    ensures IsEntry(K.DataCiphers) && !IsGated(K.DataCiphers)
    ensures IsCombo(K.DataCiphersFallback) && !IsGated(K.DataCiphersFallback)
    ensures IsEntry(K.TlsCipher) && !IsGated(K.TlsCipher)
    ensures IsCombo(K.Auth) && !IsGated(K.Auth)
    ensures IsSpin(K.Keysize)
  {
  }

  method SaveCrypto(s: Setting, w: Widgets)
    modifies s
    ensures s.data == SetAll(old(s.data), CRYPTO_KEYS, w)
  {
    hide SetAll, ShowInt, Target, IsEntry, IsCombo, IsSwitch, IsGated, IsSpin;
    ghost var start := s.data;
    NothingSet(start, w);
    CryptoRows();
    ghost var ks := WriteChoice(s, K.AllowCompression, w, start, []);
    ks := WriteChoice(s, K.CompLzo, w, start, ks);
    ks := WriteChoice(s, K.Compress, w, start, ks);
    ks := WriteChoice(s, K.Cipher, w, start, ks);
    ks := WriteText(s, K.DataCiphers, w, start, ks);
    ks := WriteChoice(s, K.DataCiphersFallback, w, start, ks);
    ks := WriteText(s, K.TlsCipher, w, start, ks);
    ks := WriteChoice(s, K.Auth, w, start, ks);
    ks := WriteNumber(s, K.Keysize, w, start, ks);
    assert ks == CRYPTO_KEYS;
  }

  lemma TlsRows()
    ensures IsCombo(K.TlsVersionMin) && !IsGated(K.TlsVersionMin)
    ensures IsSwitch(K.TlsVersionMinOrHighest)
    ensures IsCombo(K.TlsVersionMax) && !IsGated(K.TlsVersionMax)
    ensures IsEntry(K.VerifyX509Name) && !IsGated(K.VerifyX509Name)
    ensures IsCombo(K.RemoteCertTls) && !IsGated(K.RemoteCertTls)
    ensures IsCombo(K.NsCertType) && !IsGated(K.NsCertType)
    ensures IsEntry(K.Ta) && !IsGated(K.Ta)
    ensures IsCombo(K.TaDir) && !IsGated(K.TaDir)
    ensures IsEntry(K.TlsCrypt) && !IsGated(K.TlsCrypt)
    ensures IsEntry(K.TlsCryptV2) && !IsGated(K.TlsCryptV2)
  {
  }

  method SaveTls(s: Setting, w: Widgets)
    modifies s
    ensures s.data == SetAll(old(s.data), TLS_KEYS, w)
  {
    hide SetAll, ShowInt, Target, IsEntry, IsCombo, IsSwitch, IsGated, IsSpin;
    ghost var start := s.data;
    NothingSet(start, w);
    TlsRows();
    ghost var ks := WriteChoice(s, K.TlsVersionMin, w, start, []);
    ks := WriteSwitch(s, K.TlsVersionMinOrHighest, w, start, ks);
    ks := WriteChoice(s, K.TlsVersionMax, w, start, ks);
    ks := WriteText(s, K.VerifyX509Name, w, start, ks);
    ks := WriteChoice(s, K.RemoteCertTls, w, start, ks);
    ks := WriteChoice(s, K.NsCertType, w, start, ks);
    ks := WriteText(s, K.Ta, w, start, ks);
    ks := WriteChoice(s, K.TaDir, w, start, ks);
    ks := WriteText(s, K.TlsCrypt, w, start, ks);
    ks := WriteText(s, K.TlsCryptV2, w, start, ks);
    assert ks == TLS_KEYS;
  }

  lemma LastRows()
    ensures IsCombo(K.ProxyType) && !IsGated(K.ProxyType)
    ensures IsEntry(K.ProxyServer) && !IsGated(K.ProxyServer)
    ensures IsSpin(K.ProxyPort)
    ensures IsEntry(K.HttpProxyUsername) && !IsGated(K.HttpProxyUsername)
    ensures IsSwitch(K.OverrideRouteNopull)
    ensures IsSwitch(K.OverrideForceDefaultGateway)
    ensures IsSwitch(K.OverrideBlockIpv6)
    ensures IsSwitch(K.OverrideDnsSetupDisabled)
    ensures IsSwitch(K.OverrideDco)
    ensures IsSpin(K.OverrideLogLevel)
  {
  }

  method SaveLast(s: Setting, w: Widgets)
    modifies s
    ensures s.data == SetAll(old(s.data), LAST_KEYS, w)
  {
    hide SetAll, ShowInt, Target, IsEntry, IsCombo, IsSwitch, IsGated, IsSpin;
    ghost var start := s.data;
    NothingSet(start, w);
    LastRows();
    ghost var ks := WriteChoice(s, K.ProxyType, w, start, []);
    ks := WriteText(s, K.ProxyServer, w, start, ks);
    ks := WriteNumber(s, K.ProxyPort, w, start, ks);
    ks := WriteText(s, K.HttpProxyUsername, w, start, ks);
    ks := WriteSwitch(s, K.OverrideRouteNopull, w, start, ks);
    ks := WriteSwitch(s, K.OverrideForceDefaultGateway, w, start, ks);
    ks := WriteSwitch(s, K.OverrideBlockIpv6, w, start, ks);
    ks := WriteSwitch(s, K.OverrideDnsSetupDisabled, w, start, ks);
    ks := WriteSwitch(s, K.OverrideDco, w, start, ks);
    ks := WriteNumber(s, K.OverrideLogLevel, w, start, ks);
    assert ks == LAST_KEYS;
  }

  lemma NothingSet(d: K.NmData, w: Widgets)
    ensures SetAll(d, [], w) == d
  {
  }

  /** `iface_update_connection`: a gap refuses the Apply and leaves the connection alone. */
  method UpdateConnection(s: Setting, w: Widgets, initial: K.NmData) returns (gap: Option<Gap>)
    modifies s
    ensures gap == WidgetGap(w)
    ensures s.data == if gap.Some? then old(s.data) else Applied(old(s.data), initial, w)
  {
    hide SetAll, Target;
    gap := WidgetGap(w);
    if gap.Some? {
      return;
    }
    s.data := Replayed(s.data, initial);
    SaveGeneral(s, w);
    SaveLink(s, w);
    SaveCrypto(s, w);
    SaveTls(s, w);
    SaveLast(s, w);
  }

  // ----- What an Apply does to each key -----

  /** A key after `set`: the target, or nothing. */
  predicate Holds(d: K.NmData, k: K.NmKey, v: string) {
    if v == "" then k !in d else k in d && d[k] == v
  }

  lemma PutHere(d: K.NmData, k: K.NmKey, v: string)
    ensures Holds(Put(d, k, v), k, v)
  {
  }

  lemma PutElsewhere(d: K.NmData, at: K.NmKey, v: string, k: K.NmKey)
    requires k != at
    ensures k in Put(d, at, v) <==> k in d
    ensures k in d ==> Put(d, at, v)[k] == d[k]
  {
  }

  lemma {:induction false} SetAllAt(d: K.NmData, ks: seq<K.NmKey>, w: Widgets, k: K.NmKey)
    ensures k in ks ==> Holds(SetAll(d, ks, w), k, Target(k, w))
    ensures k !in ks ==> (k in SetAll(d, ks, w) <==> k in d)
    ensures k !in ks && k in d ==> SetAll(d, ks, w)[k] == d[k]
    decreases |ks|
  {
    hide Target, Put;
    if ks != [] {
      var front, last := ks[..|ks| - 1], ks[|ks| - 1];
      SetAllAt(d, front, w, k);
      assert ks == front + [last];
      if k == last {
        PutHere(SetAll(d, front, w), last, Target(last, w));
      } else {
        PutElsewhere(SetAll(d, front, w), last, Target(last, w), k);
      }
    }
  }

  predicate IsOwned(k: K.NmKey) {
    k in GENERAL_KEYS || k in LINK_KEYS || k in CRYPTO_KEYS || k in TLS_KEYS || k in LAST_KEYS
  }

  lemma OwnedEntries(k: K.NmKey)
    requires IsEntry(k)
    ensures IsOwned(k)
  {
  }

  lemma OwnedCombos(k: K.NmKey)
    requires IsCombo(k)
    ensures IsOwned(k)
  {
  }

  lemma OwnedOthers(k: K.NmKey)
    requires IsSwitch(k) || IsSpin(k) || k.Mssfix?
    ensures IsOwned(k)
  {
  }

  lemma GeneralAreOwned(k: K.NmKey)
    requires k in GENERAL_KEYS
    ensures !FieldOf(k).Foreign?
  {
  }

  lemma LinkAreOwned(k: K.NmKey)
    requires k in LINK_KEYS
    ensures !FieldOf(k).Foreign?
  {
  }

  lemma CryptoAreOwned(k: K.NmKey)
    requires k in CRYPTO_KEYS
    ensures !FieldOf(k).Foreign?
  {
  }

  lemma TlsAreOwned(k: K.NmKey)
    requires k in TLS_KEYS
    ensures !FieldOf(k).Foreign?
  {
  }

  lemma LastAreOwned(k: K.NmKey)
    requires k in LAST_KEYS
    ensures !FieldOf(k).Foreign?
  {
  }

  lemma OwnedKeys(k: K.NmKey)
    ensures IsOwned(k) <==> !FieldOf(k).Foreign?
  {
    hide IsEntry, IsCombo, IsSwitch, FieldOf;
    if IsOwned(k) {
      if k in GENERAL_KEYS {
        GeneralAreOwned(k);
      } else if k in LINK_KEYS {
        LinkAreOwned(k);
      } else if k in CRYPTO_KEYS {
        CryptoAreOwned(k);
      } else if k in TLS_KEYS {
        TlsAreOwned(k);
      } else {
        LastAreOwned(k);
      }
    } else {
      NotOwned(k);
    }
  }

  lemma NotOwned(k: K.NmKey)
    requires !IsOwned(k)
    ensures FieldOf(k).Foreign?
  {
    hide IsOwned, IsEntry, IsCombo, IsSwitch, IsSpin;
    KindsOfField(k);
    if IsEntry(k) {
      OwnedEntries(k);
    } else if IsCombo(k) {
      OwnedCombos(k);
    } else if IsSwitch(k) || IsSpin(k) || k.Mssfix? {
      OwnedOthers(k);
    }
  }

  lemma KindsOfField(k: K.NmKey)
    ensures !FieldOf(k).Foreign? <==> IsEntry(k) || IsCombo(k) || IsSwitch(k) || IsSpin(k) || k.Mssfix?
  {
    hide IsEntry, IsCombo, IsSwitch, IsBounded, IsSeconds;
  }

  /** Exactly the editor's own keys are rewritten, each to what its widget says. */
  lemma AppliedAt(d: K.NmData, initial: K.NmData, w: Widgets, k: K.NmKey)
    ensures var r := Applied(d, initial, w);
      if !FieldOf(k).Foreign? then Holds(r, k, Target(k, w))
      else if k in initial then k in r && r[k] == initial[k]
      else (k in r <==> k in d) && (k in r ==> r[k] == d[k])
  {
    hide SetAll, Target;
    OwnedKeys(k);
    var d0 := Replayed(d, initial);
    var d1 := SetAll(d0, GENERAL_KEYS, w);
    var d2 := SetAll(d1, LINK_KEYS, w);
    var d3 := SetAll(d2, CRYPTO_KEYS, w);
    var d4 := SetAll(d3, TLS_KEYS, w);
    SetAllAt(d0, GENERAL_KEYS, w, k);
    SetAllAt(d1, LINK_KEYS, w, k);
    SetAllAt(d2, CRYPTO_KEYS, w, k);
    SetAllAt(d3, TLS_KEYS, w, k);
    SetAllAt(d4, LAST_KEYS, w, k);
  }
}
