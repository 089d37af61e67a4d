/**
  * What the reader makes of text that no printer writes: comments, blank lines,
  * escapes by hand, dashes in front of a name, a byte order mark.
  */
module Reading {
  import opened Text
  import opened Numbers
  import opened Names
  import opened Lexer
  import opened Config

  // ---------- Words ----------

  /** What separates words: space, tab, line feed, form feed and carriage return. */
  lemma WordSeparators(c: char)
    ensures IsAsciiWhite(c) <==> c in {' ', '\t', '\n', '\r', 12 as char}
  {}

  /** A word that is broken off by white space reads as before, whatever follows. */
  lemma {:induction false} QuotedAppend(s: string, q: char, more: string)
    requires Quoted(s, q).Lexeme?
    ensures Quoted(s + more, q) == Lexeme(Quoted(s, q).token, Quoted(s, q).rest + more)
    decreases |s|
  {
    hide Unescape;
    var t := s + more;
    assert t[0] == s[0] && t[1..] == s[1..] + more;
    if s[0] == q {
    } else if q == DOUBLE && s[0] == BACKSLASH {
      QuotedAppend(s[2..], q, more);
      assert t[1] == s[1] && t[2..] == s[2..] + more;
    } else {
      QuotedAppend(s[1..], q, more);
    }
  }

  lemma {:induction false} UnquotedAppend(s: string, more: string)
    requires Unquoted(s).Lexeme? && more != "" && IsAsciiWhite(more[0])
    ensures Unquoted(s + more) == Lexeme(Unquoted(s).token, Unquoted(s).rest + more)
    decreases |s|
  {
    if s == "" {
      assert s + more == more;
    } else if IsAsciiWhite(s[0]) {
      assert (s + more)[0] == s[0];
    } else if s[0] == BACKSLASH {
      UnquotedAppend(s[2..], more);
      assert (s + more)[2..] == s[2..] + more;
    } else {
      UnquotedAppend(s[1..], more);
      assert (s + more)[1..] == s[1..] + more;
    }
  }

  lemma WordAppend(s: string, more: string)
    requires s != "" && !IsAsciiWhite(s[0]) && Word(s).Lexeme? && more != "" && IsAsciiWhite(more[0])
    ensures Word(s + more) == Lexeme(Word(s).token, Word(s).rest + more)
  {
    hide Quoted, Unquoted, IsAsciiWhite;
    if IsQuote(s[0]) {
      assert (s + more)[1..] == s[1..] + more;
      QuotedAppend(s[1..], s[0], more);
    } else {
      UnquotedAppend(s, more);
    }
  }

  /** `;` or `#` in front of a word ends the words of the line. */
  lemma {:induction false} CommentEndsWords(s: string, white: char, sign: char, rest: string)
    requires Tokens(s).Ok? && IsAsciiWhite(white) && (sign == ';' || sign == '#')
    ensures Tokens(s + ([white, sign] + rest)) == Tokens(s)
    ensures Tokens([sign] + rest) == Ok([])
    decreases |s|
  {
    hide Word;
    var more := [white, sign] + rest;
    if s == "" {
      assert s + more == more && more[1..] == [sign] + rest;
    } else if IsAsciiWhite(s[0]) {
      assert (s + more)[1..] == s[1..] + more;
      CommentEndsWords(s[1..], white, sign, rest);
    } else if !IsComment(s[0]) {
      hide IsAsciiWhite;
      WordAppend(s, more);
      CommentEndsWords(Word(s).rest, white, sign, rest);
    }
  }

  /** One word, white space, and the words behind it. */
  lemma WhiteSeparates(w: string, white: char, rest: string)
    requires w != "" && IsPlain(w) && !IsQuote(w[0]) && !IsComment(w[0]) && IsAsciiWhite(white)
    ensures Tokens(w + [white] + rest) == Prepend([w], Tokens(rest))
  {
    var s, tail := w + [white] + rest, [white] + rest;
    assert s == w + tail && tail[1..] == rest;
    UnquotedPlain(w, tail);
  }

  /** A backslash keeps the next character, white space and quotes included, as part of the word. */
  lemma BackslashKeeps(p: string, c: char, q: string)
    requires IsPlain(p) && IsPlain(q) && (p != "" ==> !IsQuote(p[0]) && !IsComment(p[0]))
    ensures Tokens(p + ([BACKSLASH, c] + q)) == Ok([p + ([c] + q)])
    ensures Tokens(p + [BACKSLASH]) == Err(TrailingEscape)
  {
    UnquotedPlain(q, "");
    assert q + "" == q;
    var s := [BACKSLASH, c] + q;
    assert s[2..] == q;
    assert Unquoted(s) == Lexeme([c] + q, "");
    UnquotedOnward(p, s);
    UnquotedOnward(p, [BACKSLASH]);
    assert [p + ([c] + q)] + [] == [p + ([c] + q)];
    assert Tokens("") == Ok([]);
  }

  lemma {:induction false} UnquotedOnward(p: string, s: string)
    requires IsPlain(p)
    ensures Unquoted(p + s) == Unquoted(s).After(p)
    decreases |p|
  {
    if p == "" {
      assert p + s == s;
      assert Unquoted(s).Lexeme? ==> "" + Unquoted(s).token == Unquoted(s).token;
    } else {
      assert (p + s)[1..] == p[1..] + s;
      UnquotedOnward(p[1..], s);
      if Unquoted(s).Lexeme? {
        assert [p[0]] + (p[1..] + Unquoted(s).token) == p + Unquoted(s).token;
      }
    }
  }

  predicate IsBare(s: string) { forall i :: 0 <= i < |s| ==> s[i] != DOUBLE && s[i] != BACKSLASH }

  lemma {:induction false} QuotedOnward(p: string, s: string)
    requires IsBare(p)
    ensures Quoted(p + s, DOUBLE) == Quoted(s, DOUBLE).After(p)
    decreases |p|
  {
    if p == "" {
      assert p + s == s;
      assert Quoted(s, DOUBLE).Lexeme? ==> "" + Quoted(s, DOUBLE).token == Quoted(s, DOUBLE).token;
    } else {
      assert (p + s)[1..] == p[1..] + s;
      QuotedOnward(p[1..], s);
      if Quoted(s, DOUBLE).Lexeme? {
        assert [p[0]] + (p[1..] + Quoted(s, DOUBLE).token) == p + Quoted(s, DOUBLE).token;
      }
    }
  }

  /** Inside double quotes `\n` is a line feed, `\t` a tab, and any other character behind a backslash itself. */
  lemma DoubleQuotesEscape(p: string, c: char, q: string)
    requires IsBare(p) && IsBare(q)
    ensures var meant := if c == 'n' then '\n' else if c == 't' then '\t' else c;
      Tokens(['"'] + (p + (['\\', c] + (q + ['"'])))) == Ok([p + ([meant] + q)])
    ensures Tokens(['"'] + p) == Err(UnterminatedQuote('"'))
    ensures Tokens(['"'] + (p + ['\\'])) == Err(TrailingEscapeInQuote)
  {
    var meant := if c == 'n' then '\n' else if c == 't' then '\t' else c;
    var s2 := q + ['"'];
    var s1 := ['\\', c] + s2;
    QuotedOnward(q, ['"']);
    assert ['"'][1..] == "";
    assert q + "" == q;
    assert s1[2..] == s2;
    assert Quoted(s1, DOUBLE) == Lexeme([meant] + q, "");
    QuotedOnward(p, s1);
    TokensOfQuoted(p + s1, p + ([meant] + q), '"');
    QuotedOnward(p, "");
    assert p + "" == p;
    BadQuote(p, '"');
    QuotedOnward(p, ['\\']);
    BadQuote(p + ['\\'], '"');
  }

  lemma TokensOfQuoted(s: string, t: string, q: char)
    requires IsQuote(q) && Quoted(s, q) == Lexeme(t, "")
    ensures Tokens([q] + s) == Ok([t])
  {
    assert ([q] + s)[1..] == s;
    assert Tokens("") == Ok([]);
    assert [t] + [] == [t];
  }

  lemma BadQuote(s: string, q: char)
    requires IsQuote(q) && Quoted(s, q).Bad?
    ensures Tokens([q] + s) == Err(Quoted(s, q).error)
  {
    assert ([q] + s)[1..] == s;
  }

  /** Inside single quotes everything stands for itself; a word ends with its closing quote. */
  lemma SingleQuotesAreLiteral(p: string, q: string)
    requires Without(p, '\'')
    requires q != "" && IsPlain(q) && !IsQuote(q[0]) && !IsComment(q[0])
    ensures Tokens(['\''] + (p + ['\''])) == Ok([p])
    ensures Tokens(['\''] + (p + (['\''] + q))) == Ok([p, q])
    ensures Tokens(['\''] + p) == Err(UnterminatedQuote('\''))
  {
    QuotedSingle(p, "");
    assert [SINGLE] + "" == [SINGLE];
    TokensOfQuoted(p + [SINGLE], p, SINGLE);
    QuotedSingle(p, q);
    var s := ['\''] + (p + (['\''] + q));
    assert s[1..] == p + ([SINGLE] + q);
    TokensPlain(q);
    TokensOfWord(s, p, q, [q]);
    assert [p] + [q] == [p, q];
    OpenSingle(p);
    BadQuote(p, SINGLE);
  }

  lemma {:induction false} OpenSingle(p: string)
    requires Without(p, '\'')
    ensures Quoted(p, SINGLE) == Bad(UnterminatedQuote(SINGLE))
    decreases |p|
  {
    if p != "" {
      OpenSingle(p[1..]);
    }
  }

  // ---------- Lines ----------

  /** White space, or white space and a comment. */
  predicate IsRemark(line: string) {
    exists i :: 0 <= i <= |line| && (forall j :: 0 <= j < i ==> IsWhite(line[j]))
                && (i < |line| ==> line[i] == ';' || line[i] == '#')
  }

  lemma {:induction false} RemarkIsBlank(line: string, i: nat)
    requires i <= |line| && (forall j :: 0 <= j < i ==> IsWhite(line[j]))
    requires i < |line| ==> line[i] == ';' || line[i] == '#'
    ensures Classify(line) == Blank
    decreases i
  {
    hide Tokens;
    if i > 0 {
      assert forall j :: 0 <= j < i - 1 ==> line[1..][j] == line[j + 1];
      RemarkIsBlank(line[1..], i - 1);
    }
  }

  lemma CarriageReturnIsWhite(line: string)
    requires IsRemark(line)
    ensures Classify(StripCr(line)) == Blank
  {
    hide Classify;
    var i :| 0 <= i <= |line| && (forall j :: 0 <= j < i ==> IsWhite(line[j]))
             && (i < |line| ==> line[i] == ';' || line[i] == '#');
    var short := StripCr(line);
    RemarkIsBlank(short, if i <= |short| then i else |short|);
  }

  /** Two results that differ in no more than the number of the line an error is reported for. */
  predicate SameButForLine(r: Parsed, t: Parsed) {
    match r
    case Ok(_) => r == t
    case Err(BadLine(_, e)) => t.Err? && t.error.BadLine? && t.error.error == e
    case Err(UnterminatedBlob(_, name)) => t.Err? && t.error.UnterminatedBlob? && t.error.name == name
    case Err(UnsupportedBlob(_, name)) => t.Err? && t.error.UnsupportedBlob? && t.error.name == name
    case Err(InvalidOption(_)) => r == t
  }

  lemma {:induction false} LinesShift(ls: seq<string>, n: nat, m: nat)
    ensures SameButForLine(ParseLines(ls, n), ParseLines(ls, m))
    decreases |ls|
  {
    hide Classify, TakeBody, IsInlineBlob;
    if ls != [] {
      TurnFits(ls, n);
      TurnFits(ls, m);
      match NextTurn(ls, n) {
        case Stop(_) =>
        case Skip => LinesShift(ls[1..], n + 1, m + 1);
        case Yield(_, k) => LinesShift(ls[k..], n + k, m + k);
      }
    }
  }

  lemma {:induction false} BodyAppend(a: seq<string>, b: seq<string>, close: string)
    requires TakeBody(a, close).Closed?
    ensures TakeBody(a + b, close) == TakeBody(a, close)
    decreases |a|
  {
    hide Trim;
    assert (a + b)[0] == a[0] && (a + b)[1..] == a[1..] + b;
    if Trim(a[0]) != close {
      BodyAppend(a[1..], b, close);
    }
  }

  predicate LeavesBlobOpen(r: Parsed) { r.Err? && r.error.UnterminatedBlob? }

  lemma TurnAppend(a: seq<string>, b: seq<string>, n: nat)
    requires a != [] && !(NextTurn(a, n).Stop? && NextTurn(a, n).error.UnterminatedBlob?)
    ensures NextTurn(a + b, n) == NextTurn(a, n)
  {
    hide Classify, IsInlineBlob;
    assert (a + b)[0] == a[0] && (a + b)[1..] == a[1..] + b;
    match Classify(a[0]) {
      case Open(name) => BodyAppend(a[1..], b, CloseTag(name));
      case _ =>
    }
  }

  /** Lines behind lines that leave no blob open: what the first say, then what the others say. */
  lemma {:induction false} LinesFollow(a: seq<string>, b: seq<string>, n: nat)
    requires !LeavesBlobOpen(ParseLines(a, n))
    ensures ParseLines(a + b, n) ==
      match ParseLines(a, n)
      case Ok(ds) => Onto(ds, ParseLines(b, n + |a|))
      case Err(_) => ParseLines(a, n)
    decreases |a|
  {
    hide NextTurn;
    if a == [] {
      assert a + b == b;
      OntoNothing(ParseLines(b, n));
    } else {
      TurnFits(a, n);
      TurnAppend(a, b, n);
      TurnFits(a + b, n);
      match NextTurn(a, n) {
        case Stop(_) =>
        case Skip =>
          assert (a + b)[1..] == a[1..] + b;
          LinesFollow(a[1..], b, n + 1);
        case Yield(d, k) =>
          assert (a + b)[k..] == a[k..] + b;
          LinesFollow(a[k..], b, n + k);
          if ParseLines(a[k..], n + k).Ok? && ParseLines(b, n + |a|).Ok? {
            AppendAssoc([d], ParseLines(a[k..], n + k).value, ParseLines(b, n + |a|).value);
          }
      }
    }
  }

  const BOM := 0xFEFF as char

  /** A byte order mark that a line in front would keep from being stripped. */
  predicate MarkIsFirst(a: string, b: string) { a == "" && b != "" && b[0] == BOM }

  lemma BomOfFront(a: string, b: string)
    requires a != ""
    ensures StripBom(a + b) == StripBom(a) + b
  {
    if a[0] == BOM {
      assert (a + b)[1..] == a[1..] + b;
    }
  }

  /** The lines of a text that goes on behind a terminated one. */
  lemma ReadOn(a: string, b: string)
    requires Terminated(a) && !LeavesBlobOpen(ReadText(a)) && !MarkIsFirst(a, b)
    ensures ReadText(a + b) ==
      match ReadText(a)
      case Ok(ds) => Onto(ds, ParseLines(Lines(b), 1 + |Lines(StripBom(a))|))
      case Err(_) => ReadText(a)
  {
    hide Lines, ParseLines;
    if a == "" {
      assert a + b == b && StripBom(a) == "" && Lines("") == [] by { NoLines(); }
      assert ParseLines([], 1) == Ok([]) by { NothingParses(); }
      OntoNothing(ParseLines(Lines(b), 1));
    } else {
      BomOfFront(a, b);
      BomKeepsEnd(a);
      LinesAppend(StripBom(a), b);
      LinesFollow(Lines(StripBom(a)), Lines(b), 1);
    }
  }

  lemma NoLines()
    ensures Lines("") == []
  {}

  lemma NothingParses()
    ensures ParseLines([], 1) == Ok([])
  {}

  lemma BomKeepsEnd(a: string)
    requires Terminated(a)
    ensures Terminated(StripBom(a))
  {}

  /**
    * A blank line or a comment line may stand anywhere but inside a blob: behind
    * any lines that leave no blob open, with it or without it, the text says the
    * same.
    */
  lemma CommentsSayNothing(a: string, line: string, b: string)
    requires Terminated(a) && Without(line, LF) && IsRemark(line)
    requires !LeavesBlobOpen(ReadText(a)) && !MarkIsFirst(a, b)
    ensures SameButForLine(ReadText(a + (line + [LF] + b)), ReadText(a + b))
  {
    hide Lines, ParseLines, Classify, StripBom, IsWhite;
    var n := 1 + |Lines(StripBom(a))|;
    RemarkIsNoMark(line);
    ReadOn(a, b);
    ReadOn(a, line + [LF] + b);
    LinesCons(line, b);
    CarriageReturnIsWhite(line);
    BlankIsSkipped(StripCr(line), Lines(b), n);
    LinesShift(Lines(b), n + 1, n);
    if ReadText(a).Ok? {
      SameBehind(ReadText(a), ParseLines(Lines(b), n + 1), ParseLines(Lines(b), n));
    }
  }

  lemma RemarkIsNoMark(line: string)
    requires IsRemark(line)
    ensures line != "" ==> line[0] != BOM
  {
    var i :| 0 <= i <= |line| && (forall j :: 0 <= j < i ==> IsWhite(line[j]))
             && (i < |line| ==> line[i] == ';' || line[i] == '#');
    assert line != "" ==> IsWhite(line[0]) || line[0] == ';' || line[0] == '#';
  }

  lemma BlankIsSkipped(line: string, ls: seq<string>, n: nat)
    requires Classify(line) == Blank
    ensures ParseLines([line] + ls, n) == ParseLines(ls, n + 1)
  {
    hide Classify;
    assert ([line] + ls)[1..] == ls;
    TurnFits([line] + ls, n);
  }

  lemma SameBehind(front: Parsed, r: Parsed, t: Parsed)
    requires SameButForLine(r, t) && front.Ok?
    ensures SameButForLine(Onto(front.value, r), Onto(front.value, t))
  {}

  /** A line whose words cannot be read is reported under its own number. */
  lemma ErrorNamesItsLine(a: string, line: string, b: string, e: LexError)
    requires Terminated(a) && Without(line, LF) && ReadText(a).Ok? && !MarkIsFirst(a, line)
    requires Classify(StripCr(line)) == Unreadable(e)
    ensures ReadText(a + (line + [LF] + b)) == Err(BadLine(|Lines(StripBom(a))| + 1, e))
  {
    hide Lines, ParseLines, Classify, StripBom;
    ReadOn(a, line + [LF] + b);
    LinesCons(line, b);
    BadIsReported(StripCr(line), Lines(b), 1 + |Lines(StripBom(a))|, e);
  }

  lemma BadIsReported(line: string, ls: seq<string>, n: nat, e: LexError)
    requires Classify(line) == Unreadable(e)
    ensures ParseLines([line] + ls, n) == Err(BadLine(n, e))
  {
    hide Classify;
    TurnFits([line] + ls, n);
  }

  /** One byte order mark in front of a text says nothing. */
  lemma MarkSaysNothing(text: string)
    requires text != "" ==> text[0] != BOM
    ensures ReadText([BOM] + text) == ReadText(text)
  {
    hide Lines, ParseLines;
    assert ([BOM] + text)[1..] == text;
  }

  lemma OneWordLine(w: string, n: nat)
    requires w != "" && Without(w, LF) && IsPlain(w) && !IsWhite(w[0]) && !IsQuote(w[0]) && !IsComment(w[0])
    requires w[0] != '-' && w[0] != '<'
    ensures ParseLines(Lines(w), n) == Ok([Opt(w, [])])
  {
    TokensPlain(w);
    FindAt(w, LF, |w|);
    assert Lines(w) == [w];
    assert [w][1..] == [];
    assert Classify(w) == Single(Opt(w, []));
    TurnFits([w], n);
    assert [Opt(w, [])] + [] == [Opt(w, [])];
  }

  /** Only at the very start: behind a comment line the mark is part of the first name. */
  lemma MarkBehindComment()
    ensures ReadText([BOM] + "dev") == Ok([Opt("dev", [])])
    ensures ReadText(";" + [LF] + ([BOM] + "dev")) == Ok([Opt([BOM] + "dev", [])])
  {
    hide Lines, ParseLines, Classify;
    MarkSaysNothing("dev");
    OneWordLine("dev", 1);
    var text := [BOM] + "dev";
    OneWordLine(text, 2);
    LinesCons(";", text);
    RemarkIsBlank(";", 0);
    BlankIsSkipped(";", Lines(text), 1);
  }

  /** A carriage return in front of a line feed belongs to the line ending. */
  lemma LineEndingsAreAlike(line: string, rest: string)
    requires Without(line, LF) && (line != "" ==> line[0] != BOM && line[|line| - 1] != CR)
    ensures ReadText(line + [CR] + [LF] + rest) == ReadText(line + [LF] + rest)
  {
    hide Lines, ParseLines;
    LinesCons(line, rest);
    LinesCons(line + [CR], rest);
    assert StripCr(line + [CR]) == line && StripCr(line) == line;
    NoMark(line, [LF] + rest);
    NoMark(line, [CR] + [LF] + rest);
    assert line + [LF] + rest == line + ([LF] + rest);
    assert line + [CR] + [LF] + rest == line + ([CR] + [LF] + rest);
  }

  lemma NoMark(line: string, rest: string)
    requires (line != "" ==> line[0] != BOM) && (rest != "" ==> rest[0] != BOM)
    ensures StripBom(line + rest) == line + rest
  {
    if line == "" {
      assert line + rest == rest;
    }
  }

  // ---------- What a line of words is ----------

  /** Two dashes in front of a name, as on a command line, are dropped, once. */
  lemma DashesAreDropped(name: string, args: seq<string>)
    requires !("--" <= name)
    ensures ClassifyWords(["--" + name] + args) == ClassifyWords([name] + args)
  {
    assert (["--" + name] + args)[1..] == args && ([name] + args)[1..] == args;
    assert ("--" + name)[2..] == name;
  }

  /** A first word in angle brackets opens a blob; any other line is an option with its arguments. */
  lemma WordsSay(name: string, args: seq<string>)
    ensures ClassifyWords(["<" + name + ">"] + args) == Open(name)
    ensures !("--" <= name) && !(name != "" && name[0] == '<' && name[|name| - 1] == '>') ==>
      ClassifyWords([name] + args) == Single(Opt(name, args))
  {
    var tag := "<" + name + ">";
    assert ([tag] + args)[1..] == args && ([name] + args)[1..] == args;
    assert tag[0] == '<' && tag[|tag| - 1] == '>' && tag[1..|tag| - 1] == name;
  }

  /** The ten names that may stand inline. */
  lemma InlineNames(name: string)
    ensures IsInlineBlob(name) <==>
      name in {"ca", "cert", "extra-certs", "crl-verify", "key", "pkcs12", "secret", "tls-auth", "tls-crypt",
               "tls-crypt-v2"}
  {
    hide Keyword;
    NameIs(name, Trust(Ca));
    NameIs(name, Trust(Cert));
    NameIs(name, Trust(Key));
    NameIs(name, Plain(ExtraCerts));
    NameIs(name, Trust(CrlVerify));
    NameIs(name, Trust(Pkcs12));
    NameIs(name, Trust(Secret));
    NameIs(name, Trust(TlsAuth));
    NameIs(name, Plain(TlsCrypt));
    NameIs(name, Plain(TlsCryptV2));
  }

  // ---------- What the validator asks ----------

  /** A port is a number from 1 to 65535. */
  lemma ValidPort(name: string, args: seq<string>)
    requires name == "port" || name == "proxy-port"
    ensures ValidOption(name, args) <==>
      args != [] && match ParseU32(args[0]) case Some(n) => 1 <= n <= 65535 case None => false
  {
    hide Keyword, ParseU32;
    NameIs(name, Plain(Port));
    NameIs(name, Quiet(ProxyPort));
  }

  /** These options want one word out of a short list. */
  lemma ValidDirection(name: string, args: seq<string>)
    requires name == "key-direction" || name == "static-key-direction"
    ensures ValidOption(name, args) <==> args != [] && args[0] in {"0", "1"}
  {
    hide Keyword;
    NameIs(name, Trust(KeyDirection));
    NameIs(name, Quiet(StaticKeyDirection));
  }

  lemma ValidPeer(name: string, args: seq<string>)
    requires name == "remote-cert-tls" || name == "ns-cert-type"
    ensures ValidOption(name, args) <==> args != [] && args[0] in {"client", "server"}
  {
    hide Keyword;
    NameIs(name, Plain(RemoteCertTls));
    NameIs(name, Plain(NsCertType));
  }

  lemma ValidDiscovery(args: seq<string>)
    ensures ValidOption("mtu-disc", args) <==> args != [] && args[0] in {"no", "maybe", "yes"}
  {
    hide Keyword;
    NameIs("mtu-disc", Quiet(MtuDisc));
  }

  /** `comp-lzo` may stand alone; `proto` names one of fourteen protocols. */
  lemma ValidTransport(args: seq<string>)
    ensures ValidOption("comp-lzo", args) <==> args == [] || args[0] in {"yes", "no", "adaptive"}
    ensures ValidOption("proto", args) <==>
      args != [] && args[0] in
        {"udp", "tcp", "udp4", "udp6", "tcp4", "tcp6", "tcp-client", "tcp-server", "udp-client", "udp-server",
         "tcp4-client", "tcp6-client", "udp4-client", "udp6-client"}
  {
    hide Keyword;
    NameIs("comp-lzo", Carrier(CompLzo));
    NameIs("proto", Carrier(Proto));
  }

  /** A version, with or without a fallback in the same word. */
  lemma ValidVersion(name: string, args: seq<string>)
    requires name == "tls-version-min" || name == "tls-version-max"
    ensures ValidOption(name, args) <==> args != [] && (IsVersion(args[0]) || IsVersionOrHighest(args[0]))
  {
    hide Keyword, WithoutOrHighest, IsVersion, IsVersionOrHighest;
    NameIs(name, Trust(TlsVersionMin));
    NameIs(name, Plain(TlsVersionMax));
    if args != [] {
      VersionWord(args[0]);
    }
  }

  predicate IsVersion(w: string) { w == "1.0" || w == "1.1" || w == "1.2" || w == "1.3" }

  predicate IsVersionOrHighest(w: string) {
    |w| == 14 && IsVersion(w[..3]) && w[3..] == " or-highest"
  }

  lemma VersionWord(w: string)
    ensures WithoutOrHighest(w) in {"1.0", "1.1", "1.2", "1.3"} <==> IsVersion(w) || IsVersionOrHighest(w)
  {}

  /** `keepalive` wants two numbers. */
  lemma ValidKeepalive(args: seq<string>)
    ensures ValidOption("keepalive", args) <==>
      |args| >= 2 && ParseU32(args[0]).Some? && ParseU32(args[1]).Some?
  {
    hide Keyword, ParseU32;
    NameIs("keepalive", Carrier(Keepalive));
  }

  /** Nothing is asked of any other option. */
  lemma OthersAreValid(name: string, args: seq<string>)
    requires name !in {"port", "proxy-port", "key-direction", "static-key-direction", "remote-cert-tls",
                       "ns-cert-type", "mtu-disc"}
    requires name !in {"comp-lzo", "proto", "tls-version-min", "tls-version-max", "keepalive"}
    ensures ValidOption(name, args)
  {
    hide IsTransport, WithoutOrHighest, ParseU32;
  }

  // ---------- What is printed ----------

  predicate IsSafe(c: char) {
    'A' <= c <= 'Z' || 'a' <= c <= 'z' || '0' <= c <= '9' || c == '_' || c == '-' || c == ':' || c == '/'
  }

  /** When a value is printed bare, in single quotes, or in double quotes. */
  lemma EscapedForm(v: string)
    ensures v == "" ==> Escaped(v) == "''"
    ensures v != "" && (forall i :: 0 <= i < |v| ==> IsSafe(v[i])) ==> Escaped(v) == v
    ensures (exists i :: 0 <= i < |v| && !IsSafe(v[i])) ==>
      if '\'' in v || '\n' in v then Escaped(v) == "\"" + EscapedChars(v) + "\""
      else Escaped(v) == "'" + v + "'"
  {
    assert forall c :: IsSafe(c) <==> IsBenign(c);
    if '\'' in v {
      var i :| 0 <= i < |v| && v[i] == '\'';
      assert !IsSafe(v[i]);
    }
  }

  /** Inside double quotes a line feed is `\n`, a backslash and a double quote take a backslash. */
  lemma EscapedCharForm(c: char)
    ensures EscapedChar(c) ==
      if c == '\n' then "\\n" else if c == '\\' then "\\\\" else if c == '"' then "\\\"" else [c]
  {}
}
