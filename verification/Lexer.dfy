/**
 * The word syntax of an `.ovpn` line: `Tokenize` reads it, `PushEscaped` writes
 * it.  Each method is proved equal to a function, and the lemmas say that
 * reading a line of escaped words gives the words back.
 */
module Lexer {
  import opened Text

  datatype LexError =
    | UnterminatedQuote(quote: char)
    | TrailingEscape
    | TrailingEscapeInQuote

  const DOUBLE := '"'
  const SINGLE := '\''
  const BACKSLASH := '\\'

  // ----- Reading -----

  /** One word and the input behind it. */
  datatype Lexeme = Lexeme(token: string, rest: string) | Bad(error: LexError)
  {
    function Push(c: char): Lexeme {
      match this
      case Lexeme(t, r) => Lexeme([c] + t, r)
      case Bad(_) => this
    }

    function After(prefix: string): Lexeme {
      match this
      case Lexeme(t, r) => Lexeme(prefix + t, r)
      case Bad(_) => this
    }
  }

  function Unescape(c: char): char {
    if c == 'n' then LF else if c == 't' then '\t' else c
  }

  predicate IsQuote(c: char) {
    c == DOUBLE || c == SINGLE
  }

  predicate IsComment(c: char) {
    c == ';' || c == '#'
  }

  /** The rest of a quoted word whose opening quote `q` has been read. */
  function Quoted(s: string, q: char): (l: Lexeme)
    ensures l.Lexeme? ==> |l.rest| < |s|
    decreases |s|
  {
    if s == "" then Bad(UnterminatedQuote(q))
    else if s[0] == q then Lexeme("", s[1..])
    else if q == DOUBLE && s[0] == BACKSLASH then
      if |s| == 1 then Bad(TrailingEscapeInQuote)
      else Quoted(s[2..], q).Push(Unescape(s[1]))
    else Quoted(s[1..], q).Push(s[0])
  }

  /** An unquoted word: it ends at ASCII white space, and a backslash keeps the next character. */
  function Unquoted(s: string): (l: Lexeme)
    ensures l.Lexeme? ==> |l.rest| <= |s|
    ensures l.Lexeme? && s != "" && !IsAsciiWhite(s[0]) ==> |l.rest| < |s|
    decreases |s|
  {
    if s == "" || IsAsciiWhite(s[0]) then Lexeme("", s)
    else if s[0] == BACKSLASH then
      if |s| == 1 then Bad(TrailingEscape) else Unquoted(s[2..]).Push(s[1])
    else Unquoted(s[1..]).Push(s[0])
  }

  function Word(s: string): (l: Lexeme)
    requires s != "" && !IsAsciiWhite(s[0])
    ensures l.Lexeme? ==> |l.rest| < |s|
  {
    if IsQuote(s[0]) then Quoted(s[1..], s[0]) else Unquoted(s)
  }

  type Words = Result<seq<string>, LexError>

  function Prepend(ts: seq<string>, r: Words): Words {
    match r
    case Ok(us) => Ok(ts + us)
    case Err(_) => r
  }

  function Tokens(s: string): Words
    decreases |s|
  {
    if s == "" then Ok([])
    else if IsAsciiWhite(s[0]) then Tokens(s[1..])
    else if IsComment(s[0]) then Ok([])
    else
      match Word(s)
      case Bad(e) => Err(e)
      case Lexeme(t, rest) => Prepend([t], Tokens(rest))
  }

  method Tokenize(line: string) returns (r: Words)
    ensures r == Tokens(line)
  {
    var tokens := [];
    var i := 0;
    assert line[0..] == line;
    PrependNothing(Tokens(line));
    while i < |line|
      invariant 0 <= i <= |line|
      invariant Tokens(line) == Prepend(tokens, Tokens(line[i..]))
    {
      var c := line[i];
      assert line[i..][1..] == line[i + 1..];
      if IsAsciiWhite(c) {
        i := i + 1;
      } else if IsComment(c) {
        break;
      } else {
        ghost var start := i;
        var word: Lexeme;
        if IsQuote(c) {
          word, i := ReadQuoted(line, i + 1, c);
        } else {
          word, i := ReadUnquoted(line, i);
        }
        assert word == Word(line[start..]);
        if word.Bad? {
          return Err(word.error);
        }
        AppendPrepend(tokens, word.token, Tokens(line[i..]));
        tokens := tokens + [word.token];
      }
    }
    assert Tokens(line[i..]) == Ok([]);
    assert tokens + [] == tokens;
    return Ok(tokens);
  }

  lemma PrependNothing(r: Words)
    ensures Prepend([], r) == r
  {
    if r.Ok? {
      assert [] + r.value == r.value;
    }
  }

  lemma AppendPrepend(ts: seq<string>, t: string, r: Words)
    ensures Prepend(ts, Prepend([t], r)) == Prepend(ts + [t], r)
  {
    if r.Ok? {
      AppendAssoc(ts, [t], r.value);
    }
  }

  lemma PushAfter(token: string, c: char, l: Lexeme)
    ensures l.Push(c).After(token) == l.After(token + [c])
  {
    if l.Lexeme? {
      AppendAssoc(token, [c], l.token);
    }
  }

  /** The body of the quoted-word loop, from `start` just behind the opening quote. */
  method ReadQuoted(line: string, start: nat, quote: char) returns (word: Lexeme, end: nat)
    requires start <= |line|
    ensures word == Quoted(line[start..], quote)
    ensures word.Lexeme? ==> start < end <= |line| && word.rest == line[end..]
  {
    var token := "";
    var i := start;
    while true
      invariant start <= i <= |line|
      invariant Quoted(line[start..], quote) == Quoted(line[i..], quote).After(token)
      decreases |line| - i
    {
      if i == |line| {
        return Bad(UnterminatedQuote(quote)), i;
      }
      var ch := line[i];
      assert line[i..][1..] == line[i + 1..];
      if ch == quote {
        return Lexeme(token, line[i + 1..]), i + 1;
      }
      if quote == DOUBLE && ch == BACKSLASH {
        if i + 1 == |line| {
          return Bad(TrailingEscapeInQuote), i;
        }
        assert line[i..][2..] == line[i + 2..];
        PushAfter(token, Unescape(line[i + 1]), Quoted(line[i + 2..], quote));
        token := token + [Unescape(line[i + 1])];
        i := i + 2;
      } else {
        PushAfter(token, ch, Quoted(line[i + 1..], quote));
        token := token + [ch];
        i := i + 1;
      }
    }
  }

  method ReadUnquoted(line: string, start: nat) returns (word: Lexeme, end: nat)
    requires start < |line| && !IsAsciiWhite(line[start])
    ensures word == Unquoted(line[start..])
    ensures word.Lexeme? ==> start < end <= |line| && word.rest == line[end..]
  {
    var token := "";
    var i := start;
    while i < |line| && !IsAsciiWhite(line[i])
      invariant start <= i <= |line|
      invariant Unquoted(line[start..]) == Unquoted(line[i..]).After(token)
    {
      var ch := line[i];
      assert line[i..][1..] == line[i + 1..];
      if ch == BACKSLASH {
        if i + 1 == |line| {
          return Bad(TrailingEscape), i;
        }
        assert line[i..][2..] == line[i + 2..];
        PushAfter(token, line[i + 1], Unquoted(line[i + 2..]));
        token := token + [line[i + 1]];
        i := i + 2;
      } else {
        PushAfter(token, ch, Unquoted(line[i + 1..]));
        token := token + [ch];
        i := i + 1;
      }
    }
    assert Unquoted(line[i..]) == Lexeme("", line[i..]);
    return Lexeme(token, line[i..]), i;
  }

  // ----- Writing -----

  predicate IsBenign(c: char) {
    IsAlphanumeric(c) || c == '_' || c == '-' || c == ':' || c == '/'
  }

  predicate NeedsQuote(v: string) {
    exists i :: 0 <= i < |v| && !IsBenign(v[i])
  }

  predicate NeedsDouble(v: string) {
    exists i :: 0 <= i < |v| && (v[i] == SINGLE || v[i] == LF)
  }

  function EscapedChar(c: char): string {
    if c == LF then [BACKSLASH, 'n']
    else if c == BACKSLASH || c == DOUBLE then [BACKSLASH, c]
    else [c]
  }

  function EscapedChars(v: string): string
    decreases |v|
  {
    if v == "" then "" else EscapedChar(v[0]) + EscapedChars(v[1..])
  }

  function Escaped(v: string): string {
    if v == "" then [SINGLE, SINGLE]
    else if !NeedsQuote(v) then v
    else if !NeedsDouble(v) then [SINGLE] + v + [SINGLE]
    else [DOUBLE] + EscapedChars(v) + [DOUBLE]
  }

  method PushEscaped(buf: string, value: string) returns (out: string)
    ensures out == buf + Escaped(value)
  {
    if value == "" {
      return buf + [SINGLE, SINGLE];
    }
    var needsQuote := false;
    var needsDouble := false;
    for i := 0 to |value|
      invariant needsQuote <==> NeedsQuote(value[..i])
      invariant needsDouble <==> NeedsDouble(value[..i])
    {
      var c := value[i];
      assert value[..i + 1][i] == c;
      assert forall j :: 0 <= j < i ==> value[..i + 1][j] == value[..i][j];
      if !IsBenign(c) {
        needsQuote := true;
        if c == SINGLE || c == LF {
          needsDouble := true;
        }
      }
    }
    assert value[..|value|] == value;
    if !needsQuote {
      return buf + value;
    }
    if !needsDouble {
      return buf + ([SINGLE] + value + [SINGLE]);
    }
    var body := "";
    for i := 0 to |value|
      invariant EscapedChars(value) == body + EscapedChars(value[i..])
    {
      assert value[i..][1..] == value[i + 1..];
      AppendAssoc(body, EscapedChar(value[i]), EscapedChars(value[i + 1..]));
      body := body + EscapedChar(value[i]);
    }
    assert EscapedChars(value) == body;
    return buf + ([DOUBLE] + body + [DOUBLE]);
  }

  /** Words separated by single spaces, each escaped. */
  function EscapedArgs(args: seq<string>): string
    decreases |args|
  {
    if args == [] then "" else [' '] + Escaped(args[0]) + EscapedArgs(args[1..])
  }

  // ----- Reading what was written -----

  lemma {:induction false} QuotedEscaped(v: string, rest: string)
    ensures Quoted(EscapedChars(v) + ([DOUBLE] + rest), DOUBLE) == Lexeme(v, rest)
    decreases |v|
  {
    var tail := [DOUBLE] + rest;
    if v == "" {
      assert EscapedChars(v) + tail == tail;
      assert tail[1..] == rest;
    } else {
      var more := EscapedChars(v[1..]) + tail;
      QuotedEscaped(v[1..], rest);
      AppendAssoc(EscapedChar(v[0]), EscapedChars(v[1..]), tail);
      QuotedEscapedChar(v[0], more);
      assert Lexeme(v[1..], rest).Push(v[0]) == Lexeme(v, rest);
    }
  }

  lemma QuotedEscapedChar(c: char, more: string)
    ensures Quoted(EscapedChar(c) + more, DOUBLE) == Quoted(more, DOUBLE).Push(c)
  {
    var s := EscapedChar(c) + more;
    if |EscapedChar(c)| == 2 {
      assert s[2..] == more && s[0] == BACKSLASH && Unescape(s[1]) == c;
    } else {
      assert s[1..] == more && s[0] == c;
    }
  }

  lemma {:induction false} QuotedSingle(v: string, rest: string)
    requires Without(v, SINGLE)
    ensures Quoted(v + ([SINGLE] + rest), SINGLE) == Lexeme(v, rest)
    decreases |v|
  {
    var tail := [SINGLE] + rest;
    if v == "" {
      assert v + tail == tail;
      assert tail[1..] == rest;
    } else {
      QuotedSingle(v[1..], rest);
      assert (v + tail)[1..] == v[1..] + tail;
      assert Lexeme(v[1..], rest).Push(v[0]) == Lexeme(v, rest);
    }
  }

  predicate EndsWord(rest: string) {
    rest == "" || IsAsciiWhite(rest[0])
  }

  predicate IsPlain(v: string) {
    forall i :: 0 <= i < |v| ==> v[i] != BACKSLASH && !IsAsciiWhite(v[i])
  }

  lemma {:induction false} UnquotedPlain(v: string, rest: string)
    requires IsPlain(v) && EndsWord(rest)
    ensures Unquoted(v + rest) == Lexeme(v, rest)
    decreases |v|
  {
    if v == "" {
      assert v + rest == rest;
    } else {
      UnquotedPlain(v[1..], rest);
      assert (v + rest)[1..] == v[1..] + rest;
      assert Lexeme(v[1..], rest).Push(v[0]) == Lexeme(v, rest);
    }
  }

  /** How an escaped word starts. */
  predicate StartsWord(s: string) {
    s != "" && (IsQuote(s[0]) || IsBenign(s[0]))
  }

  lemma StartIsVisible(s: string)
    requires StartsWord(s)
    ensures !IsAsciiWhite(s[0]) && !IsWhite(s[0]) && !IsComment(s[0])
  {
  }

  lemma WordBenign(v: string, rest: string)
    requires v != "" && !NeedsQuote(v) && EndsWord(rest)
    ensures StartsWord(v + rest)
    ensures Word(v + rest) == Lexeme(v, rest)
  {
    hide Unquoted;
    assert forall i :: 0 <= i < |v| ==> IsBenign(v[i]);
    assert (v + rest)[0] == v[0];
    UnquotedPlain(v, rest);
  }

  lemma WordSingle(v: string, rest: string)
    requires Without(v, SINGLE)
    ensures StartsWord([SINGLE] + v + [SINGLE] + rest)
    ensures Word([SINGLE] + v + [SINGLE] + rest) == Lexeme(v, rest)
  {
    hide Quoted;
    QuotedSingle(v, rest);
    assert ([SINGLE] + v + [SINGLE] + rest)[1..] == v + ([SINGLE] + rest);
  }

  lemma WordDouble(v: string, rest: string)
    ensures StartsWord([DOUBLE] + EscapedChars(v) + [DOUBLE] + rest)
    ensures Word([DOUBLE] + EscapedChars(v) + [DOUBLE] + rest) == Lexeme(v, rest)
  {
    hide Quoted, EscapedChars;
    QuotedEscaped(v, rest);
    assert ([DOUBLE] + EscapedChars(v) + [DOUBLE] + rest)[1..] == EscapedChars(v) + ([DOUBLE] + rest);
  }

  lemma WordEscaped(v: string, rest: string)
    requires EndsWord(rest)
    ensures StartsWord(Escaped(v) + rest)
    ensures !IsAsciiWhite((Escaped(v) + rest)[0])
    ensures Word(Escaped(v) + rest) == Lexeme(v, rest)
  {
    hide Word, IsBenign, IsAsciiWhite, EscapedChars;
    if v == "" {
      WordSingle(v, rest);
      assert [SINGLE] + v + [SINGLE] == Escaped(v);
    } else if !NeedsQuote(v) {
      WordBenign(v, rest);
    } else if !NeedsDouble(v) {
      WordSingle(v, rest);
    } else {
      WordDouble(v, rest);
    }
    StartIsVisible(Escaped(v) + rest);
  }

  /** Reading escaped words gives the words back, whatever characters they hold. */
  lemma {:induction false} TokensEscaped(v: string, args: seq<string>)
    ensures Tokens(Escaped(v) + EscapedArgs(args)) == Ok([v] + args)
    decreases |args|
  {
    WordEscaped(v, EscapedArgs(args));
    StartIsVisible(Escaped(v) + EscapedArgs(args));
    if args == [] {
      TokensOfWord(Escaped(v) + EscapedArgs(args), v, EscapedArgs(args), []);
    } else {
      TokensEscaped(args[0], args[1..]);
      TokensAfterSpace(Escaped(args[0]), EscapedArgs(args[1..]));
      assert [args[0]] + args[1..] == args;
      TokensOfWord(Escaped(v) + EscapedArgs(args), v, EscapedArgs(args), args);
    }
  }

  lemma TokensAfterSpace(a: string, b: string)
    ensures Tokens([' '] + a + b) == Tokens(a + b)
  {
    assert ([' '] + a + b)[1..] == a + b;
  }

  lemma TokensOfWord(s: string, t: string, rest: string, us: seq<string>)
    requires s != "" && !IsAsciiWhite(s[0]) && !IsComment(s[0]) && Word(s) == Lexeme(t, rest)
    requires Tokens(rest) == Ok(us)
    ensures Tokens(s) == Ok([t] + us)
  {
  }

  /** A word without white space, quotes, comment signs or escapes reads as itself. */
  lemma TokensPlain(v: string)
    requires v != "" && IsPlain(v) && !IsQuote(v[0]) && !IsComment(v[0])
    ensures Tokens(v) == Ok([v])
  {
    UnquotedPlain(v, "");
    assert v + "" == v;
    assert [v] + [] == [v];
    TokensOfWord(v, v, "", []);
  }

  /** A line break never survives escaping, so one directive stays on one line. */
  lemma {:induction false} EscapedHasNoBreak(v: string)
    ensures Without(Escaped(v), LF) && Escaped(v) != ""
    ensures Escaped(v)[|Escaped(v)| - 1] != CR
    ensures IsQuote(Escaped(v)[0]) || IsBenign(Escaped(v)[0])
  {
    if v != "" && NeedsQuote(v) && NeedsDouble(v) {
      EscapedCharsHaveNoBreak(v);
    } else if v != "" && !NeedsQuote(v) {
      forall i | 0 <= i < |v| ensures IsBenign(v[i]) {}
    }
  }

  lemma {:induction false} EscapedCharsHaveNoBreak(v: string)
    ensures Without(EscapedChars(v), LF)
    decreases |v|
  {
    if v != "" {
      EscapedCharsHaveNoBreak(v[1..]);
    }
  }

  lemma {:induction false} EscapedArgsHaveNoBreak(args: seq<string>)
    ensures Without(EscapedArgs(args), LF)
    ensures args != [] ==> EscapedArgs(args) != "" && EscapedArgs(args)[|EscapedArgs(args)| - 1] != CR
    decreases |args|
  {
    if args != [] {
      EscapedHasNoBreak(args[0]);
      EscapedArgsHaveNoBreak(args[1..]);
    }
  }
}
