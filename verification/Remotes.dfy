/**
 * The `remote` value of vpn.data: a list of `host[:port[:proto]]` entries, with
 * an IPv6 host in brackets (section 3.2.2 of RFC 3986), and its inverse.
 */
module Remotes {
  import opened Text

  datatype Remote = Remote(host: string, port: Option<string>, proto: Option<string>)

  function NonEmpty(s: string): Option<string> {
    if s == "" then None else Some(s)
  }

  /** `splitn(2, ':')`: what is before the first colon, and what is behind it. */
  function Before(s: string): string {
    s[..Find(s, ':')]
  }

  function Behind(s: string): string {
    if Find(s, ':') == |s| then "" else s[Find(s, ':') + 1..]
  }

  /** The `split_remote` of the exporter and the `parse_remote` of the connect path. */
  function SplitRemote(gw: string): Remote {
    if gw != "" && gw[0] == '[' && Find(gw[1..], ']') < |gw| - 1 then
      var i := Find(gw[1..], ']');
      var tail := gw[i + 2..];
      var fields := if tail != "" && tail[0] == ':' then tail[1..] else tail;
      Remote(gw[1..i + 1], NonEmpty(Before(fields)), NonEmpty(Behind(fields)))
    else
      Remote(Before(gw), NonEmpty(Before(Behind(gw))), NonEmpty(Behind(Behind(gw))))
  }

  predicate IsSeparator(c: char) {
    c == ' ' || c == '\t' || c == ','
  }

  /** `split([' ', '\t', ','])`, empty pieces included. */
  function Pieces(s: string): (ps: seq<string>)
    ensures ps != []
    decreases |s|
  {
    if s == "" then [""]
    else if IsSeparator(s[0]) then [""] + Pieces(s[1..])
    else
      var ps := Pieces(s[1..]);
      [[s[0]] + ps[0]] + ps[1..]
  }

  /** The entries of the pieces that are not blank. */
  function Entries(ps: seq<string>): seq<Remote>
    decreases |ps|
  {
    if ps == [] then []
    else if Trim(ps[0]) == "" then Entries(ps[1..])
    else [SplitRemote(Trim(ps[0]))] + Entries(ps[1..])
  }

  function Decode(value: string): seq<Remote> {
    Entries(Pieces(value))
  }

  /** The arguments of the `remote` directive; a protocol without a port gets the default port. */
  function RemoteArgs(r: Remote): seq<string> {
    [r.host]
    + (if r.port.Some? then [r.port.value] else if r.proto.Some? then ["1194"] else [])
    + (if r.proto.Some? then [r.proto.value] else [])
  }

  predicate Contains(s: string, c: char) {
    exists i :: 0 <= i < |s| && s[i] == c
  }

  function EncodeHost(host: string): string {
    if Contains(host, ':') && host[0] != '[' then ['['] + host + [']'] else host
  }

  /** How the importer writes the arguments of one `remote` directive. */
  function EncodeArgs(args: seq<string>): string {
    EncodeHost(if args == [] then "" else args[0])
    + (if |args| > 1 then [':'] + args[1] else "")
    + (if |args| > 2 then [':'] + args[2] else "")
  }

  /** The importer's comma-joined value after one more entry. */
  function Extend(value: string, args: seq<string>): string {
    (if value == "" then "" else value + [',']) + EncodeArgs(args)
  }

  function EncodeFrom(value: string, rs: seq<Remote>): string
    decreases |rs|
  {
    if rs == [] then value else EncodeFrom(Extend(value, RemoteArgs(rs[0])), rs[1..])
  }

  function Encode(rs: seq<Remote>): string {
    EncodeFrom("", rs)
  }

  // ----- The codec is lossless -----

  predicate IsPart(s: string) {
    && s != ""
    && forall i :: 0 <= i < |s| ==> !IsWhite(s[i]) && s[i] != ',' && s[i] != '[' && s[i] != ']'
  }

  /** The entries the value can hold: a port wherever there is a protocol, and no colon in the port. */
  predicate IsEntry(r: Remote) {
    && IsPart(r.host)
    && (r.port.Some? ==> IsPart(r.port.value) && Without(r.port.value, ':'))
    && (r.proto.Some? ==> IsPart(r.proto.value) && r.port.Some?)
  }

  predicate AllEntries(rs: seq<Remote>) {
    forall i :: 0 <= i < |rs| ==> IsEntry(rs[i])
  }

  lemma SplitAtColon(a: string, b: string)
    requires Without(a, ':')
    ensures Before(a + [':'] + b) == a && Behind(a + [':'] + b) == b
    ensures Before(a) == a && Behind(a) == ""
  {
    var s := a + [':'] + b;
    FindAt(s, ':', |a|);
    FindAt(a, ':', |a|);
    assert s[|a| + 1..] == b;
  }

  /** The `:port[:proto]` part of an encoded entry. */
  function EncodeTail(r: Remote): string {
    (if r.port.Some? then [':'] + r.port.value else "") + (if r.proto.Some? then [':'] + r.proto.value else "")
  }

  function EncodeEntry(r: Remote): string {
    EncodeHost(r.host) + EncodeTail(r)
  }

  lemma EncodedArgs(r: Remote)
    requires IsEntry(r)
    ensures EncodeArgs(RemoteArgs(r)) == EncodeEntry(r)
  {
    hide EncodeHost, IsPart;
    match (r.port, r.proto)
    case (Some(p), Some(q)) =>
      assert RemoteArgs(r) == [r.host, p, q];
      AppendAssoc(EncodeHost(r.host), [':'] + p, [':'] + q);
    case (Some(p), None) => assert RemoteArgs(r) == [r.host, p];
    case (None, _) => assert RemoteArgs(r) == [r.host];
  }

  lemma SplitTail(r: Remote)
    requires IsEntry(r)
    ensures var t := EncodeTail(r);
            && (r.port.Some? ==>
                  t != "" && t[0] == ':' && Before(t[1..]) == r.port.value && NonEmpty(Behind(t[1..])) == r.proto)
            && (r.port.None? ==> t == "" && r.proto.None?)
  {
    if r.port.Some? {
      var p := r.port.value;
      match r.proto
      case Some(q) =>
        SplitAtColon(p, q);
        assert EncodeTail(r)[1..] == p + [':'] + q;
      case None =>
        SplitAtColon(p, "");
        assert EncodeTail(r)[1..] == p;
    }
  }

  lemma SplitBracketed(host: string, t: string)
    requires Without(host, ']')
    ensures var fields := if t != "" && t[0] == ':' then t[1..] else t;
            SplitRemote(['['] + host + [']'] + t)
            == Remote(host, NonEmpty(Before(fields)), NonEmpty(Behind(fields)))
  {
    hide Before, Behind;
    var gw := ['['] + host + [']'] + t;
    assert gw[1..] == host + [']'] + t;
    FindAt(gw[1..], ']', |host|);
    assert gw[|host| + 2..] == t;
    assert gw[1..|host| + 1] == host;
  }

  lemma BracketedComesBack(r: Remote)
    requires IsEntry(r) && Contains(r.host, ':')
    ensures SplitRemote(EncodeEntry(r)) == r
  {
    hide Before, Behind, SplitRemote, EncodeTail;
    var t := EncodeTail(r);
    assert EncodeEntry(r) == ['['] + r.host + [']'] + t;
    SplitBracketed(r.host, t);
    SplitTail(r);
    SplitAtColon("", "");
  }

  lemma BareComesBack(r: Remote)
    requires IsEntry(r) && !Contains(r.host, ':')
    ensures SplitRemote(EncodeEntry(r)) == r
  {
    hide Before, Behind;
    var t := EncodeTail(r);
    assert EncodeEntry(r) == r.host + t && (r.host + t)[0] == r.host[0];
    SplitTail(r);
    if r.port.Some? {
      assert r.host + t == r.host + [':'] + t[1..];
      SplitAtColon(r.host, t[1..]);
    } else {
      assert r.host + t == r.host;
      SplitAtColon(r.host, "");
      SplitAtColon("", "");
    }
  }

  predicate IsPiece(s: string) {
    s != "" && forall i :: 0 <= i < |s| ==> !IsWhite(s[i]) && s[i] != ','
  }

  lemma EntryIsPiece(r: Remote)
    requires IsEntry(r)
    ensures IsPiece(EncodeEntry(r))
  {
    assert IsPiece(EncodeHost(r.host));
  }

  /** Reading a piece, up to the next comma or the end. */
  lemma {:induction false} PiecesOf(s: string, rest: string)
    requires forall i :: 0 <= i < |s| ==> !IsSeparator(s[i])
    ensures Pieces(s) == [s]
    ensures Pieces(s + [','] + rest) == [s] + Pieces(rest)
    decreases |s|
  {
    var t := s + [','] + rest;
    if s == "" {
      assert t[1..] == rest;
    } else {
      PiecesOf(s[1..], rest);
      assert t[1..] == s[1..] + [','] + rest;
      assert [s[0]] + s[1..] == s;
    }
  }

  lemma OnePiece(r: Remote, ps: seq<string>)
    requires IsEntry(r)
    ensures Entries([EncodeEntry(r)] + ps) == [r] + Entries(ps)
  {
    hide SplitRemote, EncodeEntry, IsEntry;
    var s := EncodeEntry(r);
    EntryIsPiece(r);
    TrimIsIdentity(s);
    if Contains(r.host, ':') {
      BracketedComesBack(r);
    } else {
      BareComesBack(r);
    }
    assert ([s] + ps)[1..] == ps;
  }

  /** The comma-joined text of a list, first entry first. */
  function Joined(rs: seq<Remote>): string
    requires rs != []
    decreases |rs|
  {
    if |rs| == 1 then EncodeEntry(rs[0]) else EncodeEntry(rs[0]) + [','] + Joined(rs[1..])
  }

  lemma {:induction false} EncodeFromIsJoined(value: string, rs: seq<Remote>)
    requires rs != [] && AllEntries(rs)
    ensures EncodeFrom(value, rs) == (if value == "" then "" else value + [',']) + Joined(rs)
    decreases |rs|
  {
    hide EncodeEntry, EncodeArgs, RemoteArgs, IsEntry;
    var head := if value == "" then "" else value + [','];
    EncodedArgs(rs[0]);
    EntryIsPiece(rs[0]);
    var next := head + EncodeEntry(rs[0]);
    assert next != "";
    if |rs| == 1 {
      assert rs[1..] == [];
    } else {
      EncodeFromIsJoined(next, rs[1..]);
      AppendAssoc(head, EncodeEntry(rs[0]) + [','], Joined(rs[1..]));
      AppendAssoc(head, EncodeEntry(rs[0]), [',']);
    }
  }

  lemma EntryHasNoSeparator(r: Remote)
    requires IsEntry(r)
    ensures forall i :: 0 <= i < |EncodeEntry(r)| ==> !IsSeparator(EncodeEntry(r)[i])
  {
    hide EncodeEntry, IsEntry;
    EntryIsPiece(r);
  }

  lemma NoEntries()
    ensures Entries([]) == []
  {
  }

  lemma {:induction false} DecodeJoined(rs: seq<Remote>)
    requires rs != [] && AllEntries(rs)
    ensures Decode(Joined(rs)) == rs
    decreases |rs|
  {
    hide EncodeEntry, IsEntry, Pieces, Entries, IsSeparator;
    var s := EncodeEntry(rs[0]);
    EntryHasNoSeparator(rs[0]);
    NoEntries();
    if |rs| == 1 {
      PiecesOf(s, "");
      OnePiece(rs[0], []);
      assert [s] + [] == [s] && [rs[0]] + [] == rs;
    } else {
      PiecesOf(s, Joined(rs[1..]));
      OnePiece(rs[0], Pieces(Joined(rs[1..])));
      DecodeJoined(rs[1..]);
      assert [rs[0]] + rs[1..] == rs;
    }
  }

  /** Joining on import and splitting on export give the same list of remotes. */
  lemma CodecIsLossless(rs: seq<Remote>)
    requires rs != [] && AllEntries(rs)
    ensures Decode(Encode(rs)) == rs && Encode(rs) != ""
  {
    EncodeFromIsJoined("", rs);
    assert "" + Joined(rs) == Joined(rs);
    DecodeJoined(rs);
    EntryIsPiece(rs[0]);
  }

  /** Starts with a bracket that is closed again. */
  predicate IsBracketed(gw: string) {
    gw != "" && gw[0] == '[' && Find(gw[1..], ']') < |gw| - 1
  }

  /**
   * An entry is one bare host exactly when it holds no colon and no pair of
   * brackets: an IPv6 address written without brackets is cut at its first colon.
   */
  lemma WholeEntryIsHost(gw: string)
    ensures SplitRemote(gw).host == gw <==> Without(gw, ':') && !IsBracketed(gw)
    ensures !IsBracketed(gw) ==> Without(SplitRemote(gw).host, ':')
  {
    hide Behind, NonEmpty;
    if IsBracketed(gw) {
      assert |SplitRemote(gw).host| < |gw|;
    }
  }

  // ----- Lists by hand -----

  lemma {:induction false} PiecesSplit(a: string, sep: char, b: string)
    requires IsSeparator(sep)
    ensures Pieces(a + [sep] + b) == Pieces(a) + Pieces(b)
    decreases |a|
  {
    var s := a + [sep] + b;
    if a == "" {
      assert s[1..] == b;
    } else {
      assert s[1..] == a[1..] + [sep] + b;
      PiecesSplit(a[1..], sep, b);
    }
  }

  lemma {:induction false} EntriesAppend(a: seq<string>, b: seq<string>)
    ensures Entries(a + b) == Entries(a) + Entries(b)
    decreases |a|
  {
    hide Trim, SplitRemote;
    if a == [] {
      assert a + b == b;
    } else {
      assert (a + b)[0] == a[0] && (a + b)[1..] == a[1..] + b;
      EntriesAppend(a[1..], b);
    }
  }

  /** Spaces, tabs and commas all separate gateways. */
  lemma SeparatorsAreAlike(a: string, sep: char, b: string)
    requires sep == ' ' || sep == '\t' || sep == ','
    ensures Decode(a + [sep] + b) == Decode(a) + Decode(b)
  {
    PiecesSplit(a, sep, b);
    EntriesAppend(Pieces(a), Pieces(b));
  }

  /** A field that is left empty counts as not given. */
  lemma EmptyFieldsAreMissing(host: string, proto: string)
    requires host != "" && host[0] != '[' && Without(host, ':')
    ensures SplitRemote(host + "::" + proto) == Remote(host, None, NonEmpty(proto))
    ensures SplitRemote(host + ":") == Remote(host, None, None)
  {
    SplitAtColon(host, [':'] + proto);
    assert host + "::" + proto == host + [':'] + ([':'] + proto);
    SplitAtColon("", proto);
    assert "" + [':'] + proto == [':'] + proto;
    SplitAtColon(host, "");
    assert host + ":" == host + [':'] + "";
    assert Find("", ':') == 0;
  }
}
