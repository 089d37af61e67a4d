/**
 * From vpn.data to profile text, on the connect side: `build_profile_string` and
 * its `Writer`.  The text is specified by the directives it holds, in the order
 * of the source, with the preserved routes written as raw lines.
 */
module Connect {
  import opened Text
  import opened Numbers
  import opened Names
  import opened Lexer
  import opened Config
  import opened Remotes
  import opened RouteLines
  import opened Export
  import K = Keys

  // ----- Segments of the connect side -----

  /** The connect side collapses on cert and key alone and then leaves the ca out. */
  predicate CollapsesOnConnect(d: K.NmData) {
    CertOf(d).Some? && CertOf(d) == KeyOf(d) && IsPkcs12Path(CertOf(d).value)
  }

  function ConnectPki(d: K.NmData): Directives {
    if CollapsesOnConnect(d) then [Valued(Trust(Pkcs12), CertOf(d).value)] else SplitFiles(d)
  }

  predicate IsNumber(d: K.NmData, k: K.NmKey) {
    K.HasValue(d, k) && ParseI64(d[k]).Some?
  }

  /** A numeric key is written as it stands, but only when it reads as a number. */
  function CopiedNumber(d: K.NmData, k: K.NmKey, kw: Kw): Directives {
    if IsNumber(d, k) then Copied(d, k, kw) else []
  }

  /** The clamp is printed again from the number that was read. */
  function ConnectMssfix(d: K.NmData): Directives {
    if K.IsYes(d, K.Mssfix) then [Flagged(Carrier(Mssfix))]
    else if IsNumber(d, K.Mssfix) then [Valued(Carrier(Mssfix), ShowInt(ParseI64(d[K.Mssfix]).value))]
    else []
  }

  function ConnectHead(d: K.NmData): Directives {
    FlagIf(K.TlsLike(d), Quiet(Client)) + RemoteSegment(d) + SwitchSegment(d) + ConnectPki(d)
    + FlagIf(K.PasswordLike(d), Trust(AuthUserPass)) + SecretSegment(d)
  }

  function ConnectCrypto(d: K.NmData): Directives {
    CopiedNumber(d, K.RenegSeconds, Plain(RenegSec)) + CopiedNumber(d, K.MaxRoutes, Quiet(MaxRoutes))
    + Copied(d, K.Cipher, Plain(Cipher)) + Copied(d, K.DataCiphers, Plain(DataCiphers))
    + Copied(d, K.DataCiphersFallback, Plain(DataCiphersFallback))
    + Copied(d, K.TlsCipher, Plain(TlsCipher)) + Copied(d, K.Auth, Plain(Auth))
    + CopiedNumber(d, K.Keysize, Plain(Keysize)) + Copied(d, K.AllowCompression, Plain(AllowCompression))
    + CompressionSegment(d) + FlagIf(K.IsYes(d, K.Float), Flag(Float)) + ConnectMssfix(d)
  }

  function CrlIfTls(d: K.NmData): Directives {
    if K.TlsLike(d) then CrlSegment(d) else []
  }

  function ConnectLink(d: K.NmData): Directives {
    Copied(d, K.MtuDisc, Quiet(MtuDisc)) + CopiedNumber(d, K.TunnelMtu, Plain(TunMtu))
    + CopiedNumber(d, K.ConnectTimeout, Plain(ConnectTimeout)) + CopiedNumber(d, K.FragmentSize, Plain(Fragment))
    + CrlIfTls(d) + DevSegment(d) + ProtoSegment(d)
    + CopiedNumber(d, K.Port, Plain(Port)) + CopiedNumber(d, K.Ping, Plain(Ping))
    + CopiedNumber(d, K.PingExit, Plain(PingExit)) + CopiedNumber(d, K.PingRestart, Plain(PingRestart))
    + AddressSegment(d)
  }

  function ConnectTls(d: K.NmData): Directives {
    if !K.TlsLike(d) then []
    else
      Copied(d, K.RemoteCertTls, Plain(RemoteCertTls)) + Copied(d, K.NsCertType, Plain(NsCertType))
      + Copied(d, K.TlsRemote, Plain(TlsRemote)) + X509Segment(d) + TlsAuthSegment(d)
      + Copied(d, K.TlsCrypt, Plain(TlsCrypt)) + Copied(d, K.TlsCryptV2, Plain(TlsCryptV2))
      + TlsMinSegment(d) + Copied(d, K.TlsVersionMax, Plain(TlsVersionMax))
      + Copied(d, K.ExtraCerts, Plain(ExtraCerts))
  }

  function ConnectTop(d: K.NmData): Directives {
    ConnectHead(d) + ConnectCrypto(d) + ConnectLink(d)
  }

  function ConnectBottom(d: K.NmData): Directives {
    ConnectTls(d) + ProxySegment(d) + TailSegment()
  }

  /** What the profile says, with the raw route lines as the directives they hold. */
  function ConnectDirectives(d: K.NmData): Directives {
    ConnectTop(d) + RouteSegment(d) + ConnectBottom(d)
  }

  function RawText(ls: seq<string>): string
    decreases |ls|
  {
    if ls == [] then "" else ls[0] + [LF] + RawText(ls[1..])
  }

  function ConnectText(d: K.NmData): string {
    Print(ConnectTop(d)) + RawText(RouteLinesOf(d)) + Print(ConnectBottom(d))
  }

  lemma {:induction false} PrintAppend(a: Directives, b: Directives)
    ensures Print(a + b) == Print(a) + Print(b)
    decreases |a|
  {
    hide PrintDirective;
    if a == [] {
      assert a + b == b;
    } else {
      assert (a + b)[1..] == a[1..] + b;
      PrintAppend(a[1..], b);
      AppendAssoc(PrintDirective(a[0]), Print(a[1..]), Print(b));
    }
  }

  // ----- The writer -----

  function Present(args: seq<Option<string>>): seq<string>
    decreases |args|
  {
    if args == [] then []
    else (if args[0].Some? then [args[0].value] else []) + Present(args[1..])
  }

  function PrintWords(words: seq<string>): string {
    if words == [] then "" else PrintDirective(Opt(words[0], words[1..]))
  }

  /** A line without its end. */
  function Unended(words: seq<string>): string {
    if words == [] then "" else OptionLine(words[0], words[1..])
  }

  lemma Prefix(args: seq<Option<string>>)
    ensures Present(args[..0]) == [] && args[..|args|] == args
    ensures forall buf: string :: buf + Unended([]) == buf
  {
  }

  lemma {:induction false} PresentStep(args: seq<Option<string>>, i: nat)
    requires i < |args|
    ensures Present(args[..i + 1]) == Present(args[..i]) + (if args[i].Some? then [args[i].value] else [])
    decreases i
  {
    var longer := args[..i + 1];
    if i > 0 {
      PresentStep(args[1..], i - 1);
      assert longer[1..] == args[1..][..i] && args[..i][1..] == args[1..][..i - 1];
    } else {
      assert longer[1..] == [];
    }
  }

  lemma {:induction false} EscapedArgsAppend(args: seq<string>, v: string)
    ensures EscapedArgs(args + [v]) == EscapedArgs(args) + [' '] + Escaped(v)
    decreases |args|
  {
    hide Escaped;
    if args == [] {
      assert ([v])[1..] == [];
    } else {
      assert (args + [v])[1..] == args[1..] + [v];
      EscapedArgsAppend(args[1..], v);
    }
  }

  lemma UnendedStep(buf: string, words: seq<string>, v: string)
    ensures words == [] ==> buf + Unended(words) + Escaped(v) == buf + Unended(words + [v])
    ensures words != [] ==> buf + Unended(words) + [' '] + Escaped(v) == buf + Unended(words + [v])
  {
    hide Escaped;
    var more := words + [v];
    if words == [] {
      assert more[1..] == [];
    } else {
      assert more[1..] == words[1..] + [v];
      EscapedArgsAppend(words[1..], v);
    }
  }

  lemma Ended(buf: string, words: seq<string>)
    ensures words == [] ==> buf + Unended(words) == buf + PrintWords(words)
    ensures words != [] ==> buf + Unended(words) + [LF] == buf + PrintWords(words)
  {
    hide OptionLine;
    if words != [] {
      AppendAssoc(buf, Unended(words), [LF]);
    }
  }

  class Writer {
    var buf: string

    constructor ()
      ensures buf == ""
    {
      buf := "";
    }

    method Line(args: seq<string>)
      requires args != []
      modifies this
      ensures buf == old(buf) + PrintWords(args)
    {
      var out := EmitOption(buf, args[0], args[1..]);
      buf := out;
    }

    /** The arguments that are there; nothing at all when none is. */
    method LineOpt(args: seq<Option<string>>)
      modifies this
      ensures buf == old(buf) + PrintWords(Present(args))
    {
      hide PrintWords;
      ghost var words: seq<string> := [];
      var first := true;
      Prefix(args);
      for i := 0 to |args|
        invariant words == Present(args[..i]) && (first <==> words == [])
        invariant buf == old(buf) + Unended(words)
      {
        PresentStep(args, i);
        if args[i].Some? {
          UnendedStep(old(buf), words, args[i].value);
          if !first {
            buf := buf + [' '];
          }
          first := false;
          var out := PushEscaped(buf, args[i].value);
          buf := out;
          words := words + [args[i].value];
        }
      }
      Prefix(args);
      Ended(old(buf), words);
      if !first {
        buf := buf + [LF];
      }
    }

    method RawLine(line: string)
      modifies this
      ensures buf == old(buf) + (line + [LF])
    {
      AppendAssoc(buf, line, [LF]);
      buf := buf + line + [LF];
    }
  }

  // ----- The body of `build_profile_string`, in the order of the source -----

  /** One more directive behind `ds` in a buffer that began with `start`. */
  lemma OneLine(start: string, ds: Directives, d: Directive)
    ensures start + Print(ds) + PrintDirective(d) == start + Print(ds + [d])
  {
    PrintAppend(ds, [d]);
    assert [d][1..] == [];
    assert PrintDirective(d) + "" == PrintDirective(d);
    AppendAssoc(start, Print(ds), PrintDirective(d));
  }

  lemma WordsPrint(name: string, args: seq<string>)
    ensures PrintWords([name] + args) == PrintDirective(Opt(name, args))
  {
    assert ([name] + args)[1..] == args;
  }

  method Put(w: Writer, kw: Kw, args: seq<string>, ghost start: string, ghost ds: Directives)
    returns (ghost all: Directives)
    requires w.buf == start + Print(ds)
    modifies w
    ensures all == ds + [Opt(Spell(kw), args)] && w.buf == start + Print(all)
  {
    hide PrintWords, PrintDirective, Spell, Print;
    w.Line([Spell(kw)] + args);
    WordsPrint(Spell(kw), args);
    all := ds + [Opt(Spell(kw), args)];
    OneLine(start, ds, Opt(Spell(kw), args));
  }

  method PutFlag(w: Writer, on: bool, kw: Kw, ghost start: string, ghost ds: Directives)
    returns (ghost all: Directives)
    requires w.buf == start + Print(ds)
    modifies w
    ensures all == ds + FlagIf(on, kw) && w.buf == start + Print(all)
  {
    if on {
      all := Put(w, kw, [], start, ds);
    } else {
      all := ds + [];
      assert all == ds;
    }
  }

  method PutIf(w: Writer, kw: Kw, value: Option<string>, ghost start: string, ghost ds: Directives)
    returns (ghost all: Directives)
    requires w.buf == start + Print(ds)
    modifies w
    ensures all == ds + OptionalFile(value, kw) && w.buf == start + Print(all)
  {
    match value {
      case Some(v) => all := Put(w, kw, [v], start, ds);
      case None =>
        all := ds + [];
        assert all == ds;
    }
  }

  /** `line_str` with the value of a key. */
  method LineStr(w: Writer, d: K.NmData, kw: Kw, k: K.NmKey, ghost start: string, ghost ds: Directives)
    returns (ghost all: Directives)
    requires w.buf == start + Print(ds)
    modifies w
    ensures all == ds + Copied(d, k, kw) && w.buf == start + Print(all)
  {
    hide Print;
    all := PutIf(w, kw, K.Get(d, k), start, ds);
  }

  /** `line_int` with the value of a key. */
  method LineInt(w: Writer, d: K.NmData, kw: Kw, k: K.NmKey, ghost start: string, ghost ds: Directives)
    returns (ghost all: Directives)
    requires w.buf == start + Print(ds)
    modifies w
    ensures all == ds + CopiedNumber(d, k, kw) && w.buf == start + Print(all)
  {
    hide Print, ParseI64;
    var value := K.Get(d, k);
    if value.Some? && ParseI64(value.value).Some? {
      all := Put(w, kw, [value.value], start, ds);
    } else {
      all := ds + [];
      assert all == ds;
    }
  }

  lemma PresentCons(first: Option<string>, rest: seq<Option<string>>)
    ensures Present([first] + rest) == (if first.Some? then [first.value] else []) + Present(rest)
  {
    assert ([first] + rest)[1..] == rest;
  }

  lemma PresentFour(a: string, b: string, c: Option<string>, e: Option<string>)
    ensures Present([Some(a), Some(b), c, e])
         == [a] + ([b] + (if c.Some? then [c.value] else []) + (if e.Some? then [e.value] else []))
  {
    PresentCons(e, []);
    PresentCons(c, [e]);
    PresentCons(Some(b), [c, e]);
    PresentCons(Some(a), [Some(b), c, e]);
    assert [e] + [] == [e] && [c] + [e] == [c, e] && [Some(b)] + [c, e] == [Some(b), c, e];
    assert [Some(a)] + [Some(b), c, e] == [Some(a), Some(b), c, e];
  }

  lemma RemoteWords(r: Remotes.Remote)
    ensures var port := if r.port.Some? then r.port else if r.proto.Some? then Some("1194") else None;
            Present([Some(Spell(Carrier(CarrierKw.Remote))), Some(r.host), port, r.proto])
            == [Spell(Carrier(CarrierKw.Remote))] + RemoteArgs(r)
  {
    hide Spell, Present;
    var port := if r.port.Some? then r.port else if r.proto.Some? then Some("1194") else None;
    PresentFour(Spell(Carrier(CarrierKw.Remote)), r.host, port, r.proto);
  }

  method WriteRemotes(w: Writer, value: string, ghost start: string, ghost ds: Directives)
    returns (ghost all: Directives)
    requires w.buf == start + Print(ds)
    modifies w
    ensures all == ds + RemoteDirectives(Decode(value)) && w.buf == start + Print(all)
  {
    hide SplitRemote, Trim, Print, PrintDirective, PrintWords, Spell, RemoteArgs;
    all := ds;
    var pieces := Pieces(value);
    assert pieces[0..] == pieces;
    for i := 0 to |pieces|
      invariant ds + RemoteDirectives(Decode(value)) == all + RemoteDirectives(Entries(pieces[i..]))
      invariant w.buf == start + Print(all)
    {
      assert pieces[i..][1..] == pieces[i + 1..];
      var gw := Trim(pieces[i]);
      if gw != "" {
        var r := SplitRemote(gw);
        var port := if r.port.Some? then r.port else if r.proto.Some? then Some("1194") else None;
        w.LineOpt([Some(Spell(Carrier(CarrierKw.Remote))), Some(r.host), port, r.proto]);
        RemoteWords(r);
        WordsPrint(Spell(Carrier(CarrierKw.Remote)), RemoteArgs(r));
        OneLine(start, all, RemoteDirective(r));
        ghost var more := Entries(pieces[i + 1..]);
        assert ([r] + more)[1..] == more;
        AppendAssoc(all, [RemoteDirective(r)], RemoteDirectives(more));
        all := all + [RemoteDirective(r)];
      }
    }
    assert all + [] == all;
  }

  lemma NothingYet(start: string)
    ensures start == start + Print([])
  {
  }

  /** A group of lines behind what was written before. */
  lemma More(start: string, ds: Directives, more: Directives)
    ensures start + Print(ds) + Print(more) == start + Print(ds + more)
  {
    PrintAppend(ds, more);
    AppendAssoc(start, Print(ds), Print(more));
  }

  method WriteSwitches(w: Writer, d: K.NmData)
    modifies w
    ensures w.buf == old(w.buf) + Print(SwitchSegment(d))
  {
    hide Print, FlagIf;
    ghost var start := w.buf;
    NothingYet(start);
    ghost var ds := PutFlag(w, K.IsYes(d, K.RemoteRandom), Flag(RemoteRandom), start, []);
    assert ds == FlagIf(K.IsYes(d, K.RemoteRandom), Flag(RemoteRandom));
    ds := PutFlag(w, K.IsYes(d, K.RemoteRandomHostname), Flag(RemoteRandomHostname), start, ds);
    ds := PutFlag(w, K.IsYes(d, K.AllowPullFqdn), Flag(AllowPullFqdn), start, ds);
    ds := PutFlag(w, K.IsYes(d, K.TunIpv6), Flag(TunIpv6), start, ds);
    ds := PutFlag(w, K.IsYes(d, K.PushPeerInfo), Flag(PushPeerInfo), start, ds);
  }

  method WritePki(w: Writer, d: K.NmData)
    modifies w
    ensures w.buf == old(w.buf) + Print(ConnectPki(d))
  {
    hide Print, IsPkcs12Path, OptionalFile;
    ghost var start := w.buf;
    NothingYet(start);
    var cert, key := CertOf(d), KeyOf(d);
    if cert.Some? && cert == key && IsPkcs12Path(cert.value) {
      ghost var ds := Put(w, Trust(Pkcs12), [cert.value], start, []);
      assert ds == ConnectPki(d);
    } else {
      ghost var ds := PutIf(w, Trust(Ca), CaOf(d), start, []);
      assert ds == OptionalFile(CaOf(d), Trust(Ca));
      ds := PutIf(w, Trust(Cert), cert, start, ds);
      ds := PutIf(w, Trust(Key), key, start, ds);
    }
  }

  method WriteSecret(w: Writer, d: K.NmData)
    modifies w
    ensures w.buf == old(w.buf) + Print(SecretSegment(d))
  {
    hide Print;
    ghost var start := w.buf;
    NothingYet(start);
    if K.StaticKeyMode(d) {
      if K.HasValue(d, K.StaticKey) {
        ghost var ds := Put(w, Trust(Secret),
          [d[K.StaticKey]] + (if K.HasValue(d, K.StaticKeyDirection) then [d[K.StaticKeyDirection]] else []),
          start, []);
        assert ds == SecretSegment(d);
      }
    }
  }

  method WriteHead(w: Writer, d: K.NmData)
    requires K.HasValue(d, K.Remote)
    modifies w
    ensures w.buf == old(w.buf) + Print(ConnectHead(d))
  {
    hide Print, FlagIf, RemoteDirectives, Decode, SwitchSegment, ConnectPki, SecretSegment;
    ghost var start := w.buf;
    NothingYet(start);
    ghost var ds := PutFlag(w, K.TlsLike(d), Quiet(Client), start, []);
    assert ds == FlagIf(K.TlsLike(d), Quiet(Client));
    ds := WriteRemotes(w, d[K.Remote], start, ds);
    WriteSwitches(w, d);
    More(start, ds, SwitchSegment(d));
    ds := ds + SwitchSegment(d);
    WritePki(w, d);
    More(start, ds, ConnectPki(d));
    ds := ds + ConnectPki(d);
    ds := PutFlag(w, K.PasswordLike(d), Trust(AuthUserPass), start, ds);
    WriteSecret(w, d);
    More(start, ds, SecretSegment(d));
  }

  method WriteCompression(w: Writer, d: K.NmData)
    modifies w
    ensures w.buf == old(w.buf) + Print(CompressionSegment(d))
  {
    hide Print;
    ghost var start := w.buf;
    NothingYet(start);
    if K.Get(d, K.AllowCompression) != Some("no") {
      ghost var ds: Directives := [];
      if K.HasValue(d, K.CompLzo) {
        ds := Put(w, Carrier(CompLzo), [if d[K.CompLzo] == "no-by-default" then "no" else d[K.CompLzo]], start, ds);
      }
      if K.HasValue(d, K.Compress) {
        if d[K.Compress] == K.YES {
          ds := Put(w, Carrier(Compress), [], start, ds);
        } else {
          ds := Put(w, Carrier(Compress), [d[K.Compress]], start, ds);
        }
      }
      assert ds == CompressionSegment(d);
    }
  }

  method WriteMssfix(w: Writer, d: K.NmData)
    modifies w
    ensures w.buf == old(w.buf) + Print(ConnectMssfix(d))
  {
    hide Print, ParseI64, ShowInt;
    ghost var start := w.buf;
    NothingYet(start);
    match K.Get(d, K.Mssfix) {
      case Some(v) =>
        if v == K.YES {
          ghost var ds := Put(w, Carrier(Mssfix), [], start, []);
          assert ds == ConnectMssfix(d);
        } else if ParseI64(v).Some? {
          ghost var ds := Put(w, Carrier(Mssfix), [ShowInt(ParseI64(v).value)], start, []);
          assert ds == ConnectMssfix(d);
        }
      case None =>
    }
  }

  method WriteCrypto(w: Writer, d: K.NmData)
    modifies w
    ensures w.buf == old(w.buf) + Print(ConnectCrypto(d))
  {
    hide Print, FlagIf, Copied, CopiedNumber, CompressionSegment, ConnectMssfix;
    ghost var start := w.buf;
    NothingYet(start);
    ghost var ds := LineInt(w, d, Plain(RenegSec), K.RenegSeconds, start, []);
    assert ds == CopiedNumber(d, K.RenegSeconds, Plain(RenegSec));
    ds := LineInt(w, d, Quiet(MaxRoutes), K.MaxRoutes, start, ds);
    ds := LineStr(w, d, Plain(Cipher), K.Cipher, start, ds);
    ds := LineStr(w, d, Plain(DataCiphers), K.DataCiphers, start, ds);
    ds := LineStr(w, d, Plain(DataCiphersFallback), K.DataCiphersFallback, start, ds);
    ds := LineStr(w, d, Plain(TlsCipher), K.TlsCipher, start, ds);
    ds := LineStr(w, d, Plain(Auth), K.Auth, start, ds);
    ds := LineInt(w, d, Plain(Keysize), K.Keysize, start, ds);
    ds := LineStr(w, d, Plain(AllowCompression), K.AllowCompression, start, ds);
    WriteCompression(w, d);
    More(start, ds, CompressionSegment(d));
    ds := ds + CompressionSegment(d);
    ds := PutFlag(w, K.IsYes(d, K.Float), Flag(Float), start, ds);
    WriteMssfix(w, d);
    More(start, ds, ConnectMssfix(d));
    ds := ds + ConnectMssfix(d);
  }

  method WriteCrl(w: Writer, d: K.NmData)
    modifies w
    ensures w.buf == old(w.buf) + Print(CrlIfTls(d))
  {
    hide Print;
    ghost var start := w.buf;
    NothingYet(start);
    if K.TlsLike(d) {
      if K.HasValue(d, K.CrlVerifyFile) {
        ghost var ds := Put(w, Trust(CrlVerify), [d[K.CrlVerifyFile]], start, []);
        assert ds == CrlSegment(d);
      } else if K.HasValue(d, K.CrlVerifyDir) {
        ghost var ds := Put(w, Trust(CrlVerify), [d[K.CrlVerifyDir], "dir"], start, []);
        assert ds == CrlSegment(d);
      }
    }
  }

  method WriteDev(w: Writer, d: K.NmData)
    modifies w
    ensures w.buf == old(w.buf) + Print(DevSegment(d))
  {
    hide Print, Copied;
    ghost var start := w.buf;
    NothingYet(start);
    ghost var ds := Put(w, Plain(Dev), [ChosenDev(d)], start, []);
    assert ds == [Valued(Plain(Dev), ChosenDev(d))];
    ds := LineStr(w, d, Plain(DevType), K.DevType, start, ds);
  }

  method WriteProto(w: Writer, d: K.NmData)
    modifies w
    ensures w.buf == old(w.buf) + Print(ProtoSegment(d))
  {
    hide Print;
    ghost var start := w.buf;
    NothingYet(start);
    ghost var ds := Put(w, Carrier(Proto), [if K.IsYes(d, K.ProtoTcp) then "tcp" else "udp"], start, []);
    assert ds == ProtoSegment(d);
  }

  method WriteAddress(w: Writer, d: K.NmData)
    modifies w
    ensures w.buf == old(w.buf) + Print(AddressSegment(d))
  {
    hide Print;
    ghost var start := w.buf;
    NothingYet(start);
    if K.HasValue(d, K.LocalIp) && K.HasValue(d, K.RemoteIp) {
      ghost var ds := Put(w, Carrier(Ifconfig), [d[K.LocalIp], d[K.RemoteIp]], start, []);
      assert ds == AddressSegment(d);
    }
  }

  method WriteLink(w: Writer, d: K.NmData)
    modifies w
    ensures w.buf == old(w.buf) + Print(ConnectLink(d))
  {
    hide Print, FlagIf, Copied, CopiedNumber, CrlIfTls, DevSegment, ProtoSegment, AddressSegment;
    ghost var start := w.buf;
    NothingYet(start);
    ghost var ds := LineStr(w, d, Quiet(MtuDisc), K.MtuDisc, start, []);
    assert ds == Copied(d, K.MtuDisc, Quiet(MtuDisc));
    ds := LineInt(w, d, Plain(TunMtu), K.TunnelMtu, start, ds);
    ds := LineInt(w, d, Plain(ConnectTimeout), K.ConnectTimeout, start, ds);
    ds := LineInt(w, d, Plain(Fragment), K.FragmentSize, start, ds);
    WriteCrl(w, d);
    More(start, ds, CrlIfTls(d));
    ds := ds + CrlIfTls(d);
    WriteDev(w, d);
    More(start, ds, DevSegment(d));
    ds := ds + DevSegment(d);
    WriteProto(w, d);
    More(start, ds, ProtoSegment(d));
    ds := ds + ProtoSegment(d);
    ds := LineInt(w, d, Plain(Port), K.Port, start, ds);
    ds := LineInt(w, d, Plain(Ping), K.Ping, start, ds);
    ds := LineInt(w, d, Plain(PingExit), K.PingExit, start, ds);
    ds := LineInt(w, d, Plain(PingRestart), K.PingRestart, start, ds);
    WriteAddress(w, d);
    More(start, ds, AddressSegment(d));
    ds := ds + AddressSegment(d);
  }

  method WriteX509(w: Writer, d: K.NmData)
    modifies w
    ensures w.buf == old(w.buf) + Print(X509Segment(d))
  {
    hide Print;
    ghost var start := w.buf;
    NothingYet(start);
    match K.Get(d, K.VerifyX509Name) {
      case Some(name) =>
        ghost var ds := Put(w, Trust(VerifyX509Name), X509Args(name), start, []);
        assert ds == X509Segment(d);
      case None =>
    }
  }

  method WriteTlsAuth(w: Writer, d: K.NmData)
    modifies w
    ensures w.buf == old(w.buf) + Print(TlsAuthSegment(d))
  {
    hide Print;
    ghost var start := w.buf;
    NothingYet(start);
    if K.HasValue(d, K.Ta) {
      ghost var ds := Put(w, Trust(TlsAuth),
        [d[K.Ta]] + (if K.HasValue(d, K.TaDir) then [d[K.TaDir]] else []), start, []);
      assert ds == TlsAuthSegment(d);
    }
  }

  method WriteTlsMin(w: Writer, d: K.NmData)
    modifies w
    ensures w.buf == old(w.buf) + Print(TlsMinSegment(d))
  {
    hide Print;
    ghost var start := w.buf;
    NothingYet(start);
    if K.HasValue(d, K.TlsVersionMin) {
      ghost var ds := Put(w, Trust(TlsVersionMin),
        [d[K.TlsVersionMin]] + (if K.IsYes(d, K.TlsVersionMinOrHighest) then ["or-highest"] else []), start, []);
      assert ds == TlsMinSegment(d);
    }
  }

  method WriteTls(w: Writer, d: K.NmData)
    modifies w
    ensures w.buf == old(w.buf) + Print(ConnectTls(d))
  {
    hide Print, FlagIf, Copied, CopiedNumber, X509Segment, TlsAuthSegment, TlsMinSegment;
    ghost var start := w.buf;
    NothingYet(start);
    if !K.TlsLike(d) {
      return;
    }
    ghost var ds := LineStr(w, d, Plain(RemoteCertTls), K.RemoteCertTls, start, []);
    assert ds == Copied(d, K.RemoteCertTls, Plain(RemoteCertTls));
    ds := LineStr(w, d, Plain(NsCertType), K.NsCertType, start, ds);
    ds := LineStr(w, d, Plain(TlsRemote), K.TlsRemote, start, ds);
    WriteX509(w, d);
    More(start, ds, X509Segment(d));
    ds := ds + X509Segment(d);
    WriteTlsAuth(w, d);
    More(start, ds, TlsAuthSegment(d));
    ds := ds + TlsAuthSegment(d);
    ds := LineStr(w, d, Plain(TlsCrypt), K.TlsCrypt, start, ds);
    ds := LineStr(w, d, Plain(TlsCryptV2), K.TlsCryptV2, start, ds);
    WriteTlsMin(w, d);
    More(start, ds, TlsMinSegment(d));
    ds := ds + TlsMinSegment(d);
    ds := LineStr(w, d, Plain(TlsVersionMax), K.TlsVersionMax, start, ds);
    ds := LineStr(w, d, Plain(ExtraCerts), K.ExtraCerts, start, ds);
  }

  method WriteProxy(w: Writer, d: K.NmData)
    modifies w
    ensures w.buf == old(w.buf) + Print(ProxySegment(d))
  {
    hide Print;
    ghost var start := w.buf;
    NothingYet(start);
    if K.HasValue(d, K.ProxyType) {
      if K.HasValue(d, K.ProxyServer) {
        if d[K.ProxyType] == "http" {
          ghost var ds := Put(w, Carrier(HttpProxy), [d[K.ProxyServer], ValueOr(d, K.ProxyPort, "8080")], start, []);
          assert ds == [Opt(Spell(Carrier(HttpProxy)), [d[K.ProxyServer], ValueOr(d, K.ProxyPort, "8080")])];
          ds := PutFlag(w, K.IsYes(d, K.ProxyRetry), Quiet(HttpProxyRetry), start, ds);
        } else if d[K.ProxyType] == "socks" {
          ghost var ds := Put(w, Carrier(SocksProxy), [d[K.ProxyServer], ValueOr(d, K.ProxyPort, "1080")], start, []);
          assert ds == [Opt(Spell(Carrier(SocksProxy)), [d[K.ProxyServer], ValueOr(d, K.ProxyPort, "1080")])];
          ds := PutFlag(w, K.IsYes(d, K.ProxyRetry), Quiet(SocksProxyRetry), start, ds);
        }
      }
    }
  }

  method WriteTail(w: Writer)
    modifies w
    ensures w.buf == old(w.buf) + Print(TailSegment())
  {
    hide Print, Spell;
    ghost var start := w.buf;
    NothingYet(start);
    ghost var ds := Put(w, Quiet(Nobind), [], start, []);
    ds := Put(w, Quiet(AuthNocache), [], start, ds);
    ds := Put(w, Quiet(ScriptSecurity), ["2"], start, ds);
    ds := Put(w, Quiet(PersistKey), [], start, ds);
    ds := Put(w, Quiet(PersistTun), [], start, ds);
    ds := Put(w, Quiet(User), ["nm-openvpn3"], start, ds);
    ds := Put(w, Quiet(Group), ["nm-openvpn3"], start, ds);
    assert ds == TailSegment();
  }

  lemma {:induction false} RawAppend(ls: seq<string>, line: string)
    ensures RawText(ls + [line]) == RawText(ls) + (line + [LF])
    decreases |ls|
  {
    if ls == [] {
      assert (ls + [line])[1..] == [];
      assert line + [LF] + "" == line + [LF];
    } else {
      assert (ls + [line])[1..] == ls[1..] + [line];
      RawAppend(ls[1..], line);
      AppendAssoc(ls[0] + [LF], RawText(ls[1..]), line + [LF]);
    }
  }

  method WriteRoutes(w: Writer, d: K.NmData)
    modifies w
    ensures w.buf == old(w.buf) + RawText(RouteLinesOf(d))
  {
    hide Trim, IsSafeRouteLine, Lines;
    ghost var start := w.buf;
    assert start + "" == start;
    if K.HasValue(d, K.ExtraRoutes) {
      ghost var done: seq<string> := [];
      var ls := Lines(d[K.ExtraRoutes]);
      assert ls[0..] == ls;
      for i := 0 to |ls|
        invariant SafeLines(ls) == done + SafeLines(ls[i..])
        invariant w.buf == start + RawText(done)
      {
        assert ls[i..][1..] == ls[i + 1..];
        var line := Trim(ls[i]);
        if line != "" {
          if IsSafeRouteLine(line) {
            AppendAssoc(done, [line], SafeLines(ls[i + 1..]));
            RawAppend(done, line);
            AppendAssoc(start, RawText(done), line + [LF]);
            w.RawLine(line);
            done := done + [line];
          }
        }
      }
      assert done == SafeLines(ls);
    }
  }

  datatype BuildError = RemoteIsRequired

  /** The profile text, or the one error: a connection without a server address. */
  method BuildProfileString(d: K.NmData) returns (r: Result<string, BuildError>)
    ensures r == if K.HasValue(d, K.Remote) then Ok(ConnectText(d)) else Err(RemoteIsRequired)
  {
    hide Print, ConnectHead, ConnectCrypto, ConnectLink, ConnectTls, ProxySegment, TailSegment, RawText, RouteLinesOf;
    var w := new Writer();
    if !K.HasValue(d, K.Remote) {
      return Err(RemoteIsRequired);
    }
    WriteHead(w, d);
    assert w.buf == Print(ConnectHead(d));
    WriteCrypto(w, d);
    PrintAppend(ConnectHead(d), ConnectCrypto(d));
    WriteLink(w, d);
    PrintAppend(ConnectHead(d) + ConnectCrypto(d), ConnectLink(d));
    assert w.buf == Print(ConnectTop(d));
    WriteRoutes(w, d);
    ghost var start := w.buf;
    WriteTls(w, d);
    WriteProxy(w, d);
    More(start, ConnectTls(d), ProxySegment(d));
    WriteTail(w);
    More(start, ConnectTls(d) + ProxySegment(d), TailSegment());
    r := Ok(w.buf);
  }
}
