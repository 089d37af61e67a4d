/**
 * Printing a config and parsing the text: it gives the config back exactly for
 * the well-formed configs, and everything the parser returns is well-formed up
 * to three shapes that the printed text cannot carry.
 */
module RoundTrip {
  import opened Text
  import opened Names
  import opened Lexer
  import opened Config

  predicate NoCloseLine(ls: seq<string>, close: string) {
    forall i :: 0 <= i < |ls| ==> Trim(ls[i]) != close
  }

  /** What the parser guarantees of a directive it returns. */
  predicate Shaped(d: Directive) {
    match d
    case Opt(name, _) => !IsTag(name)
    case Blob(name, body) =>
      IsInlineBlob(name) && Terminated(body) && NoCloseLine(Lines(body), CloseTag(name))
  }

  /** The shapes that are read back differently. */
  predicate Fragile(d: Directive) {
    match d
    case Opt(name, _) => ['-', '-'] <= name
    case Blob(_, body) => body == "" || HasCrLf(body)
  }

  predicate AllShaped(ds: Directives) {
    forall i :: 0 <= i < |ds| ==> Shaped(ds[i])
  }

  predicate NoneFragile(ds: Directives) {
    forall i :: 0 <= i < |ds| ==> !Fragile(ds[i])
  }

  predicate WellFormed(ds: Directives) {
    AllValid(ds) && AllShaped(ds) && NoneFragile(ds)
  }

  // ----- What the parser returns -----

  predicate Unbroken(ls: seq<string>) {
    forall i :: 0 <= i < |ls| ==> Without(ls[i], LF)
  }

  lemma {:induction false} LinesAreUnbroken(s: string)
    ensures Unbroken(Lines(s))
    decreases |s|
  {
    if s != "" {
      var i := Find(s, LF);
      if i < |s| {
        LinesAreUnbroken(s[i + 1..]);
      }
    }
  }

  lemma TrimStripCr(line: string)
    ensures Trim(StripCr(line)) == Trim(line)
  {
    if StripCr(line) != line {
      assert line == StripCr(line) + [CR];
      TrimDropsCr(StripCr(line));
    }
  }

  lemma {:induction false} TakenBodyIsShaped(ls: seq<string>, close: string)
    requires Unbroken(ls) && TakeBody(ls, close).Closed?
    ensures var body := TakeBody(ls, close).body;
            Terminated(body) && NoCloseLine(Lines(body), close)
    decreases |ls|
  {
    hide Trim, Without;
    if Trim(ls[0]) != close {
      var body := TakeBody(ls[1..], close).body;
      TakenBodyIsShaped(ls[1..], close);
      LinesCons(ls[0], body);
      TrimStripCr(ls[0]);
    }
  }

  lemma TurnIsShaped(ls: seq<string>, n: nat)
    requires ls != [] && Unbroken(ls) && NextTurn(ls, n).Yield?
    ensures Shaped(NextTurn(ls, n).directive)
  {
    hide Trim, TrimStart, Tokens, IsInlineBlob;
    match Classify(ls[0])
    case Open(name) => TakenBodyIsShaped(ls[1..], CloseTag(name));
    case Single(d) =>
      var words := Tokens(TrimStart(ls[0])).value;
      assert d == Opt(StripDashes(words[0]), words[1..]);
    case _ =>
  }

  lemma {:induction false} ParsedIsShaped(ls: seq<string>, n: nat)
    requires Unbroken(ls) && ParseLines(ls, n).Ok?
    ensures AllShaped(ParseLines(ls, n).value)
    decreases |ls|
  {
    hide NextTurn, Shaped, Without;
    if ls != [] {
      TurnFits(ls, n);
      match NextTurn(ls, n)
      case Stop(_) =>
      case Skip => ParsedIsShaped(ls[1..], n + 1);
      case Yield(d, k) =>
        TurnIsShaped(ls, n);
        ParsedIsShaped(ls[k..], n + k);
    }
  }

  /** Every config the parser returns is valid and shaped. */
  lemma ParsedTextIsShaped(text: string)
    requires ParseText(text).Ok?
    ensures AllValid(ParseText(text).value) && AllShaped(ParseText(text).value)
  {
    AcceptedText(text);
    LinesAreUnbroken(StripBom(text));
    ParsedIsShaped(Lines(StripBom(text)), 1);
  }

  // ----- Reading one printed directive -----

  /** A printed option is one line, and its words come back. */
  lemma OptionLineReads(name: string, args: seq<string>)
    ensures var line := OptionLine(name, args);
            && Without(line, LF) && StripCr(line) == line
            && line != "" && (IsQuote(line[0]) || IsBenign(line[0]))
            && Classify(line) == ClassifyWords([name] + args)
  {
    hide ClassifyWords, Word, NeedsQuote, NeedsDouble;
    var line := OptionLine(name, args);
    EscapedHasNoBreak(name);
    EscapedArgsHaveNoBreak(args);
    assert args == [] ==> line == Escaped(name);
    EscapedArgsEndWord(args);
    WordEscaped(name, EscapedArgs(args));
    StartIsVisible(line);
    assert TrimStart(line) == line;
    TokensEscaped(name, args);
  }

  lemma EscapedArgsEndWord(args: seq<string>)
    ensures EndsWord(EscapedArgs(args))
  {
  }

  lemma LinesOfOption(name: string, args: seq<string>, rest: string)
    ensures Lines(PrintDirective(Opt(name, args)) + rest) == [OptionLine(name, args)] + Lines(rest)
  {
    OptionLineReads(name, args);
    LinesCons(OptionLine(name, args), rest);
  }

  /** The parse result does not begin with `d`. */
  predicate NotFirst(d: Directive, r: Parsed) {
    r.Ok? ==> r.value == [] || r.value[0] != d
  }

  lemma OptionWords(name: string, args: seq<string>)
    requires !IsTag(name)
    ensures var kind := ClassifyWords([name] + args);
            && (!Fragile(Opt(name, args)) ==> kind == Single(Opt(name, args)))
            && (Fragile(Opt(name, args)) ==> kind != Blank && kind != Single(Opt(name, args)))
  {
    assert ([name] + args)[1..] == args;
    assert Fragile(Opt(name, args)) ==> |StripDashes(name)| < |name|;
  }

  lemma ReadOption(name: string, args: seq<string>, rest: seq<string>, n: nat)
    requires !IsTag(name)
    ensures var d := Opt(name, args);
            var r := ParseLines([OptionLine(name, args)] + rest, n);
            && (!Fragile(d) ==> r == With(d, ParseLines(rest, n + 1)))
            && (Fragile(d) ==> NotFirst(d, r))
  {
    hide Classify, Fragile, ClassifyWords, OptionLine, IsQuote, IsBenign, IsTag, TakeBody;
    var ls := [OptionLine(name, args)] + rest;
    assert ls[0] == OptionLine(name, args) && ls[1..] == rest;
    OptionLineReads(name, args);
    OptionWords(name, args);
    TurnFits(ls, n);
  }

  lemma InlineNameIsPlain(name: string)
    requires IsInlineBlob(name)
    ensures IsPlain(name)
  {
    hide Keyword;
    assert name in {"ca", "cert", "key", "extra-certs", "crl-verify", "pkcs12", "secret",
                    "tls-auth", "tls-crypt", "tls-crypt-v2"};
  }

  lemma CloseTagIsTrimmed(name: string)
    ensures Trim(CloseTag(name)) == CloseTag(name)
  {
    TrimIsIdentity(CloseTag(name));
  }

  lemma OpenTagReads(name: string)
    requires IsPlain(name)
    ensures Classify(OpenTag(name)) == Open(name)
  {
    var tag := OpenTag(name);
    assert tag[0] == '<' && tag[|tag| - 1] == '>' && tag[1..|tag| - 1] == name;
    TokensPlain(tag);
    assert TrimStart(tag) == tag;
    assert StripDashes(tag) == tag;
  }

  lemma {:induction false} TakeJoined(ls: seq<string>, close: string, rest: seq<string>)
    requires NoCloseLine(ls, close) && Trim(close) == close
    ensures TakeBody(ls + ([close] + rest), close) == Closed(Joined(ls), |ls| + 1)
    decreases |ls|
  {
    hide Trim;
    var all := ls + ([close] + rest);
    if ls == [] {
      assert all[0] == close;
    } else {
      TakeJoined(ls[1..], close, rest);
      assert all[0] == ls[0] && all[1..] == ls[1..] + ([close] + rest);
    }
  }

  /** The body as it is printed: an LF is added where the last one is missing. */
  function PrintedBody(body: string): (b: string)
    ensures Terminated(b) && b != ""
  {
    if EndsWith(body, [LF]) then body else body + [LF]
  }

  lemma LinesOfBlob(name: string, body: string, rest: string)
    requires IsPlain(name)
    ensures Lines(PrintDirective(Blob(name, body)) + rest)
         == [OpenTag(name)] + (Lines(PrintedBody(body)) + ([CloseTag(name)] + Lines(rest)))
  {
    hide Lines;
    var b := PrintedBody(body);
    var tail := CloseTag(name) + [LF] + rest;
    assert PrintDirective(Blob(name, body)) + rest == OpenTag(name) + [LF] + (b + tail) by {
      AppendAssoc(OpenTag(name) + [LF] + b, CloseTag(name) + [LF], rest);
      AppendAssoc(OpenTag(name) + [LF], b, tail);
    }
    LinesCons(CloseTag(name), rest);
    LinesAppend(b, tail);
    LinesCons(OpenTag(name), b + tail);
  }

  lemma ReadBlob(name: string, lines: seq<string>, rest: seq<string>, n: nat)
    requires IsInlineBlob(name) && NoCloseLine(lines, CloseTag(name))
    ensures ParseLines([OpenTag(name)] + (lines + ([CloseTag(name)] + rest)), n)
         == With(Blob(name, Joined(lines)), ParseLines(rest, n + |lines| + 2))
  {
    hide *;
    InlineNameIsPlain(name);
    CloseTagIsTrimmed(name);
    OpenTagReads(name);
    TakeJoined(lines, CloseTag(name), rest);
    BlobTurnReads(name, lines, rest, n);
  }

  lemma BlobTurnReads(name: string, lines: seq<string>, rest: seq<string>, n: nat)
    requires IsInlineBlob(name) && Classify(OpenTag(name)) == Open(name)
    requires TakeBody(lines + ([CloseTag(name)] + rest), CloseTag(name)) == Closed(Joined(lines), |lines| + 1)
    ensures ParseLines([OpenTag(name)] + (lines + ([CloseTag(name)] + rest)), n)
         == With(Blob(name, Joined(lines)), ParseLines(rest, n + |lines| + 2))
  {
    hide Joined, Classify, TakeBody, IsInlineBlob, OpenTag, CloseTag;
    var tail := lines + ([CloseTag(name)] + rest);
    var ls := [OpenTag(name)] + tail;
    assert ls[0] == OpenTag(name) && ls[1..] == tail;
    assert ls[|lines| + 2..] == rest;
    TurnFits(ls, n);
  }

  lemma PrintedLinesDoNotClose(body: string, close: string)
    requires Terminated(body) && NoCloseLine(Lines(body), close) && close != ""
    ensures NoCloseLine(Lines(PrintedBody(body)), close)
  {
    hide Lines;
    if body == "" {
      OneEmptyLine();
      assert PrintedBody(body) == [LF];
      assert Trim("") == "";
    } else {
      assert PrintedBody(body) == body;
    }
  }

  lemma OneEmptyLine()
    ensures Lines([LF]) == [""]
  {
    LinesCons("", "");
    assert "" + [LF] + "" == [LF];
  }

  lemma BlobComesBack(body: string)
    requires Terminated(body)
    ensures Joined(Lines(PrintedBody(body))) == body <==> body != "" && !HasCrLf(body)
  {
    JoinedLines(PrintedBody(body));
    if body == "" {
      OneEmptyLine();
    }
  }

  lemma ReadDirective(d: Directive, rest: string, n: nat) returns (m: nat)
    requires Shaped(d)
    ensures var r := ParseLines(Lines(PrintDirective(d) + rest), n);
            && (!Fragile(d) ==> r == With(d, ParseLines(Lines(rest), m)))
            && (Fragile(d) ==> NotFirst(d, r))
  {
    hide Classify, IsInlineBlob, Lines, PrintedBody, Joined, NoCloseLine, IsTag;
    match d {
      case Opt(name, args) =>
        LinesOfOption(name, args, rest);
        ReadOption(name, args, Lines(rest), n);
        m := n + 1;
      case Blob(name, body) =>
        InlineNameIsPlain(name);
        LinesOfBlob(name, body, rest);
        PrintedLinesDoNotClose(body, CloseTag(name));
        ReadBlob(name, Lines(PrintedBody(body)), Lines(rest), n);
        BlobComesBack(body);
        m := n + |Lines(PrintedBody(body))| + 2;
    }
  }

  // ----- Whole configs -----

  lemma ReadNothing(n: nat)
    ensures ParseLines(Lines(Print([])), n) == Ok([])
  {
    assert Lines("") == [];
  }

  lemma {:induction false} ReadPrinted(ds: Directives, n: nat)
    requires AllShaped(ds)
    ensures ParseLines(Lines(Print(ds)), n) == Ok(ds) <==> NoneFragile(ds)
    decreases |ds|
  {
    hide Lines, Fragile, Shaped, ParseLines, PrintDirective, NotFirst, With;
    if ds == [] {
      ReadNothing(n);
    } else {
      hide NoneFragile;
      var d, more := ds[0], ds[1..];
      var m := ReadDirective(d, Print(more), n);
      ReadPrinted(more, m);
      OneMore(d, more, ParseLines(Lines(Print(more)), m), ParseLines(Lines(Print(ds)), n));
      assert ds == [d] + more;
    }
  }

  lemma OneMore(d: Directive, more: Directives, r: Parsed, whole: Parsed)
    requires !Fragile(d) ==> whole == With(d, r)
    requires Fragile(d) ==> NotFirst(d, whole)
    requires r == Ok(more) <==> NoneFragile(more)
    ensures whole == Ok([d] + more) <==> NoneFragile([d] + more)
  {
    hide Fragile;
    var ds := [d] + more;
    assert ds[1..] == more;
    FragileSplit(ds);
    if r.Ok? {
      assert ([d] + r.value)[1..] == r.value;
    }
  }

  lemma FragileSplit(ds: Directives)
    requires ds != []
    ensures NoneFragile(ds) <==> !Fragile(ds[0]) && NoneFragile(ds[1..])
  {
    assert forall i :: 1 <= i < |ds| ==> ds[i] == ds[1..][i - 1];
  }

  lemma PrintHasNoBom(ds: Directives)
    ensures StripBom(Print(ds)) == Print(ds)
  {
    if ds != [] {
      FirstCharacter(ds[0]);
      assert Print(ds)[0] == PrintDirective(ds[0])[0];
    }
  }

  lemma FirstCharacter(d: Directive)
    ensures PrintDirective(d) != "" && PrintDirective(d)[0] as int != 0xFEFF
  {
    hide Classify;
    match d
    case Opt(name, args) =>
      OptionLineReads(name, args);
      assert PrintDirective(d)[0] == OptionLine(name, args)[0];
    case Blob(_, _) =>
  }

  /** Printing and parsing give the config back exactly when it is well-formed. */
  lemma PrintThenParse(ds: Directives)
    ensures ParseText(Print(ds)) == Ok(ds) <==> WellFormed(ds)
  {
    var text := Print(ds);
    PrintHasNoBom(ds);
    AcceptedText(text);
    if AllShaped(ds) {
      ReadPrinted(ds, 1);
    }
    if ParseText(text).Ok? {
      ParsedTextIsShaped(text);
    }
  }

  /** A config that came from a text survives Save-As and re-import exactly when it has none of the three shapes. */
  lemma ReparseIsStable(text: string)
    requires ParseText(text).Ok?
    ensures var ds := ParseText(text).value;
            ParseText(Print(ds)) == Ok(ds) <==> NoneFragile(ds)
  {
    ParsedTextIsShaped(text);
    PrintThenParse(ParseText(text).value);
  }
}
