/**
 * An `.ovpn` config as a list of directives: the parser, the per-option
 * validation and the printer.
 */
module Config {
  import opened Text
  import opened Numbers
  import opened Names
  import opened Lexer

  datatype Directive =
    | Opt(name: string, args: seq<string>)
    | Blob(name: string, body: string)

  type Directives = seq<Directive>

  datatype ParseError =
    | BadLine(line: nat, error: LexError)
    | UnterminatedBlob(line: nat, name: string)
    | UnsupportedBlob(line: nat, name: string)
    | InvalidOption(directive: Directive)

  type Parsed = Result<Directives, ParseError>

  /** The names in `INLINE_BLOB_NAMES`. */
  predicate IsInlineBlob(name: string) {
    match Keyword(name)
    case Some(Trust(Ca)) | Some(Trust(Cert)) | Some(Trust(Key)) => true
    case Some(Plain(ExtraCerts)) | Some(Trust(CrlVerify)) => true
    case Some(Trust(Pkcs12)) | Some(Trust(Secret)) => true
    case Some(Trust(TlsAuth)) | Some(Plain(TlsCrypt)) | Some(Plain(TlsCryptV2)) => true
    case _ => false
  }

  function With(d: Directive, r: Parsed): Parsed {
    match r
    case Ok(ds) => Ok([d] + ds)
    case Err(_) => r
  }

  // ----- Validation -----

  function First(args: seq<string>): Option<string> {
    if args == [] then None else Some(args[0])
  }

  predicate IsTransport(v: string) {
    v in {"udp", "tcp", "udp4", "udp6", "tcp4", "tcp6", "tcp-client", "tcp-server",
          "udp-client", "udp-server", "tcp4-client", "tcp6-client", "udp4-client", "udp6-client"}
  }

  function WithoutOrHighest(v: string): string {
    if EndsWith(v, " or-highest") then v[..|v| - 11] else v
  }

  /** The checks `validate` makes on one option. */
  predicate ValidOption(name: string, args: seq<string>) {
    var v := First(args);
    match Keyword(name)
    case Some(Plain(Port)) | Some(Quiet(ProxyPort)) =>
      v.Some? && ParseU32(v.value).Some? && 1 <= ParseU32(v.value).value <= 65535
    case Some(Trust(KeyDirection)) | Some(Quiet(StaticKeyDirection)) =>
      v.Some? && v.value in {"0", "1"}
    case Some(Plain(RemoteCertTls)) | Some(Plain(NsCertType)) =>
      v.Some? && v.value in {"client", "server"}
    case Some(Quiet(MtuDisc)) => v.Some? && v.value in {"no", "maybe", "yes"}
    case Some(Carrier(CompLzo)) => v.Some? ==> v.value in {"yes", "no", "adaptive"}
    case Some(Carrier(Proto)) => v.Some? && IsTransport(v.value)
    case Some(Trust(TlsVersionMin)) | Some(Plain(TlsVersionMax)) =>
      v.Some? && WithoutOrHighest(v.value) in {"1.0", "1.1", "1.2", "1.3"}
    case Some(Carrier(Keepalive)) =>
      |args| >= 2 && ParseU32(args[0]).Some? && ParseU32(args[1]).Some?
    case _ => true
  }

  predicate Valid(d: Directive) {
    d.Opt? ==> ValidOption(d.name, d.args)
  }

  predicate AllValid(ds: Directives) {
    forall i :: 0 <= i < |ds| ==> Valid(ds[i])
  }

  /** The first directive that `validate` refuses. */
  method Validate(ds: Directives) returns (refused: Option<Directive>)
    ensures refused == FirstInvalid(ds)
  {
    assert ds[0..] == ds;
    for i := 0 to |ds|
      invariant FirstInvalid(ds) == FirstInvalid(ds[i..])
    {
      assert ds[i..][1..] == ds[i + 1..];
      if !Valid(ds[i]) {
        return Some(ds[i]);
      }
    }
    return None;
  }

  function FirstInvalid(ds: Directives): Option<Directive>
    decreases |ds|
  {
    if ds == [] then None
    else if !Valid(ds[0]) then Some(ds[0])
    else FirstInvalid(ds[1..])
  }

  lemma {:induction false} AcceptedIffAllValid(ds: Directives)
    ensures FirstInvalid(ds).None? <==> AllValid(ds)
  {
    if ds != [] {
      AcceptedIffAllValid(ds[1..]);
      assert AllValid(ds) ==> AllValid(ds[1..]);
      assert forall i :: 1 <= i < |ds| ==> ds[i] == ds[1..][i - 1];
    }
  }

  // ----- Parsing -----

  predicate IsTag(word: string) {
    word != "" && word[0] == '<' && word[|word| - 1] == '>'
  }

  /** The word between the angle brackets. */
  function Inner(tag: string): string
    requires IsTag(tag)
  {
    tag[1..|tag| - 1]
  }

  function OpenTag(name: string): string {
    ['<'] + name + ['>']
  }

  function CloseTag(name: string): string {
    ['<', '/'] + name + ['>']
  }

  function StripDashes(word: string): string {
    if ['-', '-'] <= word then word[2..] else word
  }

  /** The body of an inline blob and the number of lines it takes, close tag included. */
  datatype Taken = Unclosed | Closed(body: string, count: nat)
  {
    function Below(prefix: string, k: nat): Taken {
      if Unclosed? then Unclosed else Closed(prefix + body, count + k)
    }
  }

  function TakeBody(ls: seq<string>, close: string): Taken
    decreases |ls|
  {
    if ls == [] then Unclosed
    else if Trim(ls[0]) == close then Closed("", 1)
    else TakeBody(ls[1..], close).Below(ls[0] + [LF], 1)
  }

  lemma {:induction false} TakeBodyFits(ls: seq<string>, close: string)
    ensures TakeBody(ls, close).Closed? ==> 1 <= TakeBody(ls, close).count <= |ls|
    decreases |ls|
  {
    if ls != [] {
      TakeBodyFits(ls[1..], close);
    }
  }

  datatype LineKind =
    | Blank
    | Unreadable(error: LexError)
    | Open(name: string)
    | Single(directive: Directive)

  /** What one line outside a blob says. */
  function Classify(line: string): LineKind {
    var t := TrimStart(line);
    if t == "" || IsComment(t[0]) then Blank
    else
      match Tokens(t)
      case Err(e) => Unreadable(e)
      case Ok(words) => ClassifyWords(words)
  }

  function ClassifyWords(words: seq<string>): LineKind {
    if words == [] then Blank
    else
      var first := StripDashes(words[0]);
      if IsTag(first) then Open(Inner(first)) else Single(Opt(first, words[1..]))
  }

  /** What the lines from line number `n` on begin with, and how many lines that takes. */
  datatype Turn = Stop(error: ParseError) | Skip | Yield(directive: Directive, count: nat)

  function BlobTurn(ls: seq<string>, n: nat, name: string): Turn {
    match TakeBody(ls, CloseTag(name))
    case Unclosed => Stop(UnterminatedBlob(n, name))
    case Closed(body, k) =>
      if !IsInlineBlob(name) then Stop(UnsupportedBlob(n, name)) else Yield(Blob(name, body), 1 + k)
  }

  function NextTurn(ls: seq<string>, n: nat): Turn
    requires ls != []
  {
    match Classify(ls[0])
    case Blank => Skip
    case Unreadable(e) => Stop(BadLine(n, e))
    case Single(d) => Yield(d, 1)
    case Open(name) => BlobTurn(ls[1..], n, name)
  }

  lemma TurnFits(ls: seq<string>, n: nat)
    requires ls != []
    ensures NextTurn(ls, n).Yield? ==> 1 <= NextTurn(ls, n).count <= |ls|
  {
    match Classify(ls[0])
    case Open(name) => TakeBodyFits(ls[1..], CloseTag(name));
    case _ =>
  }

  function ParseLines(ls: seq<string>, n: nat): Parsed
    decreases |ls|
  {
    if ls == [] then Ok([])
    else
      TurnFits(ls, n);
      match NextTurn(ls, n)
      case Stop(e) => Err(e)
      case Skip => ParseLines(ls[1..], n + 1)
      case Yield(d, k) => With(d, ParseLines(ls[k..], n + k))
  }

  function StripBom(input: string): string {
    if input != "" && input[0] as int == 0xFEFF then input[1..] else input
  }

  /** The directives of a text before validation. */
  function ReadText(input: string): Parsed {
    ParseLines(Lines(StripBom(input)), 1)
  }

  function ParseText(input: string): Parsed {
    match ReadText(input)
    case Err(e) => Err(e)
    case Ok(ds) => if FirstInvalid(ds).Some? then Err(InvalidOption(FirstInvalid(ds).value)) else Ok(ds)
  }

  lemma AcceptedText(input: string)
    ensures ParseText(input).Ok? <==> ReadText(input).Ok? && AllValid(ReadText(input).value)
    ensures ParseText(input).Ok? ==> ParseText(input) == ReadText(input)
  {
    if ReadText(input).Ok? {
      AcceptedIffAllValid(ReadText(input).value);
    }
  }

  function Onto(ds: Directives, r: Parsed): Parsed {
    match r
    case Ok(more) => Ok(ds + more)
    case Err(_) => r
  }

  lemma WithOnto(ds: Directives, d: Directive, r: Parsed)
    ensures Onto(ds, With(d, r)) == Onto(ds + [d], r)
  {
    if r.Ok? {
      AppendAssoc(ds, [d], r.value);
    }
  }

  method ReadLine(line: string) returns (kind: LineKind)
    ensures kind == Classify(line)
  {
    var trimmed := TrimStart(line);
    if trimmed == "" || IsComment(trimmed[0]) {
      return Blank;
    }
    var words := Tokenize(trimmed);
    if words.Err? {
      return Unreadable(words.error);
    }
    return ClassifyWords(words.value);
  }

  lemma OntoNothing(r: Parsed)
    ensures Onto([], r) == r
  {
    if r.Ok? {
      assert [] + r.value == r.value;
    }
  }

  /** One turn at line index `i`; line numbers start at 1. */
  method ReadTurn(ls: seq<string>, i: nat) returns (turn: Turn)
    requires i < |ls|
    ensures turn == NextTurn(ls[i..], i + 1)
  {
    hide Classify, TakeBody, IsInlineBlob, CloseTag;
    assert ls[i..][1..] == ls[i + 1..];
    var kind := ReadLine(ls[i]);
    match kind {
      case Blank => return Skip;
      case Unreadable(e) => return Stop(BadLine(i + 1, e));
      case Single(d) => return Yield(d, 1);
      case Open(name) =>
        var closed, body, end := ReadBody(ls, i + 1, CloseTag(name));
        if !closed {
          return Stop(UnterminatedBlob(i + 1, name));
        }
        if !IsInlineBlob(name) {
          return Stop(UnsupportedBlob(i + 1, name));
        }
        return Yield(Blob(name, body), end - i);
    }
  }

  /** The parser's loop over the lines. */
  method Read(input: string) returns (r: Parsed)
    ensures r == ReadText(input)
  {
    hide NextTurn, Lines;
    var ls := Lines(StripBom(input));
    var ds: Directives := [];
    var i := 0;
    assert ls[0..] == ls;
    OntoNothing(ParseLines(ls, 1));
    while i < |ls|
      invariant 0 <= i <= |ls|
      invariant ParseLines(ls, 1) == Onto(ds, ParseLines(ls[i..], i + 1))
    {
      var turn := ReadTurn(ls, i);
      TurnFits(ls[i..], i + 1);
      match turn {
        case Stop(e) => return Err(e);
        case Skip =>
          assert ls[i..][1..] == ls[i + 1..];
          i := i + 1;
        case Yield(d, k) =>
          assert ls[i..][k..] == ls[i + k..];
          WithOnto(ds, d, ParseLines(ls[i + k..], i + k + 1));
          ds := ds + [d];
          i := i + k;
      }
    }
    assert ds + [] == ds;
    return Ok(ds);
  }

  method Parse(input: string) returns (r: Parsed)
    ensures r == ParseText(input)
  {
    r := Read(input);
    if r.Ok? {
      var refused := Validate(r.value);
      if refused.Some? {
        return Err(InvalidOption(refused.value));
      }
    }
  }

  /** The blob loop: it consumes lines up to and including the close tag. */
  method ReadBody(ls: seq<string>, start: nat, close: string) returns (closed: bool, body: string, end: nat)
    requires start <= |ls|
    ensures closed ==> start < end <= |ls| && TakeBody(ls[start..], close) == Closed(body, end - start)
    ensures !closed ==> TakeBody(ls[start..], close) == Unclosed
  {
    hide Trim;
    body := "";
    end := start;
    while end < |ls|
      invariant start <= end <= |ls|
      invariant TakeBody(ls[start..], close) == TakeBody(ls[end..], close).Below(body, end - start)
    {
      assert ls[end..][1..] == ls[end + 1..];
      if Trim(ls[end]) == close {
        assert body + "" == body;
        return true, body, end + 1;
      }
      BelowBelow(body, end - start, ls[end] + [LF], TakeBody(ls[end + 1..], close));
      body := body + (ls[end] + [LF]);
      end := end + 1;
    }
    return false, body, end;
  }

  lemma BelowBelow(prefix: string, k: nat, line: string, t: Taken)
    ensures t.Below(line, 1).Below(prefix, k) == t.Below(prefix + line, k + 1)
  {
    if t.Closed? {
      AppendAssoc(prefix, line, t.body);
    }
  }

  // ----- Printing -----

  function OptionLine(name: string, args: seq<string>): string {
    Escaped(name) + EscapedArgs(args)
  }

  function PrintDirective(d: Directive): string {
    match d
    case Opt(name, args) => OptionLine(name, args) + [LF]
    case Blob(name, body) =>
      OpenTag(name) + [LF] + (if EndsWith(body, [LF]) then body else body + [LF]) + (CloseTag(name) + [LF])
  }

  function Print(ds: Directives): string
    decreases |ds|
  {
    if ds == [] then "" else PrintDirective(ds[0]) + Print(ds[1..])
  }

  method EmitOption(buf: string, name: string, args: seq<string>) returns (out: string)
    ensures out == buf + PrintDirective(Opt(name, args))
  {
    out := PushEscaped(buf, name);
    AppendAssoc(buf, Escaped(name), EscapedArgs(args));
    assert args[0..] == args;
    for j := 0 to |args|
      invariant out + EscapedArgs(args[j..]) == buf + OptionLine(name, args)
    {
      assert args[j..][1..] == args[j + 1..];
      AppendAssoc(out, [' '] + Escaped(args[j]), EscapedArgs(args[j + 1..]));
      AppendAssoc(out, [' '], Escaped(args[j]));
      out := out + [' '];
      out := PushEscaped(out, args[j]);
    }
    assert out + "" == out;
    AppendAssoc(buf, OptionLine(name, args), [LF]);
    out := out + [LF];
  }

  method EmitBlob(buf: string, name: string, body: string) returns (out: string)
    ensures out == buf + PrintDirective(Blob(name, body))
  {
    hide OpenTag, CloseTag;
    var head, tail := OpenTag(name) + [LF], CloseTag(name) + [LF];
    var printed := if EndsWith(body, [LF]) then body else body + [LF];
    AppendAssoc(buf, head, printed);
    AppendAssoc(buf, head + printed, tail);
    out := buf + head + printed + tail;
  }

  method Emit(ds: Directives) returns (out: string)
    ensures out == Print(ds)
  {
    out := "";
    assert ds[0..] == ds;
    for i := 0 to |ds|
      invariant Print(ds) == out + Print(ds[i..])
    {
      assert ds[i..][1..] == ds[i + 1..];
      AppendAssoc(out, PrintDirective(ds[i]), Print(ds[i + 1..]));
      match ds[i] {
        case Opt(name, args) => out := EmitOption(out, name, args);
        case Blob(name, body) => out := EmitBlob(out, name, body);
      }
    }
  }
}
