/**
 * The preserved extra-route lines: the allow-list both emitters apply, and why
 * the raw line and the tokenised line are the same directive.
 */
module RouteLines {
  import opened Text
  import opened Names
  import opened Lexer

  /** The words of `s`, split at Unicode white space (`split_whitespace`) or at its ASCII subset. */
  function Fields(s: string, ascii: bool): seq<string>
    decreases |s|
  {
    if s == "" then []
    else if IsSpace(s[0], ascii) then Fields(s[1..], ascii)
    else
      var n := FieldLength(s, ascii);
      [s[..n]] + Fields(s[n..], ascii)
  }

  predicate IsSpace(c: char, ascii: bool) {
    if ascii then IsAsciiWhite(c) else IsWhite(c)
  }

  function FieldLength(s: string, ascii: bool): (n: nat)
    ensures n <= |s|
    ensures s != "" && !IsSpace(s[0], ascii) ==> n > 0
    ensures forall i :: 0 <= i < n ==> !IsSpace(s[i], ascii)
    ensures n < |s| ==> IsSpace(s[n], ascii)
    decreases |s|
  {
    if s == "" || IsSpace(s[0], ascii) then 0 else 1 + FieldLength(s[1..], ascii)
  }

  predicate IsRouteChar(c: char) {
    IsAlphanumeric(c) || c == '.' || c == ':' || c == '/' || c == '_' || c == '-'
  }

  predicate IsRouteWord(w: string) {
    forall i :: 0 <= i < |w| ==> IsRouteChar(w[i])
  }

  predicate AllRouteWords(ws: seq<string>) {
    forall i :: 0 <= i < |ws| ==> IsRouteWord(ws[i])
  }

  /** The directive family the allow-list names; `route-up` and `route-pre-down` are not in it. */
  predicate IsRouteDirective(name: string) {
    match Keyword(name)
    case Some(Carrier(Route)) => true
    case Some(Quiet(k)) => k in {RouteIpv6, RouteGateway, RouteMetric, RouteDelay}
    case _ => false
  }

  predicate HasControl(s: string) {
    exists i :: 0 <= i < |s| && IsControl(s[i])
  }

  predicate IsSafeRouteLine(line: string) {
    && !HasControl(line)
    && var words := Fields(line, false);
       words != [] && IsRouteDirective(words[0]) && AllRouteWords(words[1..])
  }

  // ----- Safe lines hold no syntax -----

  predicate IsTame(s: string) {
    forall i :: 0 <= i < |s| ==> IsRouteChar(s[i]) || (IsWhite(s[i]) && !IsControl(s[i]))
  }

  lemma DirectiveIsRouteWord(name: string)
    requires IsRouteDirective(name)
    ensures IsRouteWord(name) && name != "" && name[0] == 'r'
  {
    hide Keyword;
    assert name in {"route", "route-ipv6", "route-gateway", "route-metric", "route-delay"};
  }

  lemma {:induction false} FieldsCover(s: string)
    requires !HasControl(s) && AllRouteWords(Fields(s, false))
    ensures IsTame(s)
    decreases |s|
  {
    hide IsControl, IsWhite, IsRouteChar;
    if s == "" {
    } else if IsSpace(s[0], false) {
      FieldsCover(s[1..]);
      assert forall i :: 1 <= i < |s| ==> s[i] == s[1..][i - 1];
    } else {
      var n := FieldLength(s, false);
      var fields := Fields(s, false);
      assert fields[0] == s[..n] && fields[1..] == Fields(s[n..], false);
      assert forall i :: 0 <= i < |fields[1..]| ==> fields[1..][i] == fields[i + 1];
      assert forall i :: 0 <= i < |s[n..]| ==> s[n..][i] == s[n + i];
      FieldsCover(s[n..]);
      assert forall i :: n <= i < |s| ==> s[i] == s[n..][i - n];
      assert forall i :: 0 <= i < n ==> s[i] == s[..n][i];
    }
  }

  lemma SafeLineIsTame(line: string)
    requires IsSafeRouteLine(line)
    ensures IsTame(line)
  {
    hide IsRouteDirective;
    var words := Fields(line, false);
    DirectiveIsRouteWord(words[0]);
    assert forall i :: 1 <= i < |words| ==> words[i] == words[1..][i - 1];
    FieldsCover(line);
  }

  lemma RouteCharIsPlain(c: char)
    requires IsRouteChar(c)
    ensures !IsWhite(c) && !IsAsciiWhite(c) && c != BACKSLASH && !IsQuote(c) && !IsComment(c)
  {
  }

  /** On a tame line the only ASCII white space is the space, and nothing quotes or escapes. */
  lemma {:induction false} TameTokens(s: string)
    requires IsTame(s)
    ensures Tokens(s) == Ok(Fields(s, true))
    decreases |s|
  {
    if s == "" {
    } else if IsAsciiWhite(s[0]) {
      TameTokens(s[1..]);
    } else {
      hide IsWhite, IsControl, IsRouteChar;
      var n := FieldLength(s, true);
      var word, rest := s[..n], s[n..];
      TameWord(s, n);
      TameTokens(rest);
      TokensOfWord(s, word, rest, Fields(rest, true));
    }
  }

  lemma TameWord(s: string, n: nat)
    requires IsTame(s) && s != "" && !IsAsciiWhite(s[0]) && n == FieldLength(s, true)
    ensures !IsComment(s[0]) && IsTame(s[n..])
    ensures Word(s) == Lexeme(s[..n], s[n..])
  {
    forall i | 0 <= i < |s| ensures s[i] != BACKSLASH && !IsQuote(s[i]) && !IsComment(s[i]) {
      if IsRouteChar(s[i]) {
        RouteCharIsPlain(s[i]);
      }
    }
    assert s == s[..n] + s[n..];
    UnquotedPlain(s[..n], s[n..]);
  }

  predicate OnlyAsciiWhite(s: string) {
    forall i :: 0 <= i < |s| ==> IsWhite(s[i]) ==> IsAsciiWhite(s[i])
  }

  lemma {:induction false} SameFields(s: string)
    requires OnlyAsciiWhite(s) && IsTame(s)
    ensures Fields(s, true) == Fields(s, false)
    decreases |s|
  {
    if s == "" {
    } else if IsAsciiWhite(s[0]) {
      SameFields(s[1..]);
    } else {
      var n, m := FieldLength(s, true), FieldLength(s, false);
      assert forall i :: 0 <= i < |s| ==> (IsAsciiWhite(s[i]) <==> IsWhite(s[i]));
      FieldLengthAt(s, true, m);
      SameFields(s[n..]);
    }
  }

  predicate IsVisible(w: string) {
    forall i :: 0 <= i < |w| ==> !IsWhite(w[i])
  }

  predicate AllVisible(ws: seq<string>) {
    forall i :: 0 <= i < |ws| ==> IsVisible(ws[i])
  }

  /** The words between Unicode white space hold none of it. */
  lemma {:induction false} WordsAreVisible(s: string)
    ensures AllVisible(Fields(s, false))
    decreases |s|
  {
    hide IsWhite;
    if s == "" {
    } else if IsSpace(s[0], false) {
      WordsAreVisible(s[1..]);
    } else {
      WordsAreVisible(s[FieldLength(s, false)..]);
    }
  }

  lemma AsciiWhiteIsWhite(c: char)
    ensures IsAsciiWhite(c) ==> IsWhite(c)
  {
  }

  /** Other white space ends up inside the words between ASCII white space. */
  lemma {:induction false} OtherWhiteIsInWords(s: string)
    requires AllVisible(Fields(s, true))
    ensures OnlyAsciiWhite(s)
    decreases |s|
  {
    hide IsWhite, IsAsciiWhite;
    if s == "" {
    } else if IsSpace(s[0], true) {
      OtherWhiteIsInWords(s[1..]);
      assert forall i :: 1 <= i < |s| ==> s[i] == s[1..][i - 1];
    } else {
      var n := FieldLength(s, true);
      var fields := Fields(s, true);
      assert fields[0] == s[..n] && fields[1..] == Fields(s[n..], true);
      assert forall i :: 0 <= i < |fields[1..]| ==> fields[1..][i] == fields[i + 1];
      OtherWhiteIsInWords(s[n..]);
      assert forall i :: n <= i < |s| ==> s[i] == s[n..][i - n];
      assert forall i :: 0 <= i < n ==> s[i] == s[..n][i];
    }
  }

  /**
   * A safe line always tokenises.  Its words are the ones the allow-list looked at
   * exactly when its white space is ASCII, and then the first of them is an
   * allowed name.
   */
  lemma SafeLineTokens(line: string)
    requires IsSafeRouteLine(line)
    ensures Tokens(line) == Ok(Fields(line, true))
    ensures Tokens(line) == Ok(Fields(line, false)) <==> OnlyAsciiWhite(line)
    ensures OnlyAsciiWhite(line) ==> IsRouteDirective(Tokens(line).value[0])
  {
    hide IsRouteDirective, Tokens, Fields, IsTame, OnlyAsciiWhite;
    SafeLineIsTame(line);
    TameTokens(line);
    if OnlyAsciiWhite(line) {
      SameFields(line);
    } else if Fields(line, true) == Fields(line, false) {
      WordsAreVisible(line);
      OtherWhiteIsInWords(line);
    }
  }

  /** A line with a no-break space that the allow-list takes and the lexer reads as one word. */
  lemma NonAsciiSpaceSplitsDifferently()
    ensures var line := "route" + [0xA0 as char] + "10";
            IsSafeRouteLine(line) && Tokens(line) == Ok([line]) && Fields(line, false) == ["route", "10"]
  {
    var line := "route" + [0xA0 as char] + "10";
    NoBreakSpaceFields();
    RouteIsAllowed();
    hide Fields, IsRouteDirective, Tokens, OnlyAsciiWhite;
    assert !HasControl(line) && IsRouteWord("10");
    assert ["route", "10"][1..] == ["10"];
    SafeLineTokens(line);
  }

  lemma RouteIsAllowed()
    ensures IsRouteDirective("route")
  {
    hide Keyword;
    KeywordOfSpelling(Carrier(Route));
    assert Spell(Carrier(Route)) == "route";
  }

  lemma NoBreakSpaceFields()
    ensures var line := "route" + [0xA0 as char] + "10";
            Fields(line, true) == [line] && Fields(line, false) == ["route", "10"]
  {
    var line := "route" + [0xA0 as char] + "10";
    FieldLengthAt(line, true, 8);
    FieldLengthAt(line, false, 5);
    assert line[..8] == line && line[8..] == "" && line[..5] == "route";
    assert line[5..][1..] == "10";
    FieldLengthAt("10", false, 2);
    assert "10"[..2] == "10" && "10"[2..] == "";
    assert Fields("10", false) == ["10"];
    assert Fields([0xA0 as char] + "10", false) == Fields("10", false) by {
      assert ([0xA0 as char] + "10")[1..] == "10";
    }
    assert line[5..] == [0xA0 as char] + "10";
  }

  lemma FieldLengthAt(s: string, ascii: bool, n: nat)
    requires n <= |s| && forall i :: 0 <= i < n ==> !IsSpace(s[i], ascii)
    requires n < |s| ==> IsSpace(s[n], ascii)
    ensures FieldLength(s, ascii) == n
  {
  }

  /** The first word of a trimmed safe line starts with `r`: it is no option of another kind and no tag. */
  lemma SafeLineStart(line: string)
    requires IsSafeRouteLine(line) && !IsWhite(line[0])
    ensures var words := Fields(line, true);
            line[0] == 'r' && words != [] && words[0] != "" && words[0][0] == 'r'
  {
    hide IsRouteDirective, IsWhite, IsControl;
    DirectiveIsRouteWord(Fields(line, false)[0]);
    assert Fields(line, false)[0][0] == line[0];
    assert !IsAsciiWhite(line[0]);
  }

  /** No option of another family begins like this. */
  predicate BeginsRo(s: string) { |s| > 1 && s[0] == 'r' && s[1] == 'o' }

  lemma AllowedBeginRo(name: string)
    requires IsRouteDirective(name)
    ensures BeginsRo(name)
  {
    hide Keyword;
    assert name in {"route", "route-ipv6", "route-gateway", "route-metric", "route-delay"};
  }

  lemma SafeLineBeginsRo(line: string)
    requires line != "" && !IsWhite(line[0]) && IsSafeRouteLine(line)
    ensures Fields(line, true) != [] && BeginsRo(Fields(line, true)[0])
  {
    hide IsRouteDirective, IsWhite, FieldLength;
    var name := Fields(line, false)[0];
    AllowedBeginRo(name);
    assert name == line[..|name|];
    AsciiWhiteIsWhite(line[0]);
    LongerField(line);
    var n := FieldLength(line, true);
    assert Fields(line, true)[0] == line[..n];
  }

  lemma LongerField(line: string)
    ensures FieldLength(line, false) <= FieldLength(line, true)
  {
    var n := FieldLength(line, true);
    if n < FieldLength(line, false) {
      AsciiWhiteIsWhite(line[n]);
    }
  }

  // ----- The allow-list, in full -----

  /** The names it lets through: the family of `route`, without its scripts. */
  lemma AllowedNames(name: string)
    ensures IsRouteDirective(name) <==>
      name in {"route", "route-ipv6", "route-gateway", "route-metric", "route-delay"}
    ensures !IsRouteDirective("route-up") && !IsRouteDirective("route-pre-down")
  {
    hide Keyword;
    NameIs(name, Carrier(Route));
    NameIs(name, Quiet(RouteIpv6));
    NameIs(name, Quiet(RouteGateway));
    NameIs(name, Quiet(RouteMetric));
    NameIs(name, Quiet(RouteDelay));
    ScriptsAreNotNames();
  }

  lemma ScriptsAreNotNames()
    ensures !IsRouteDirective("route-up") && !IsRouteDirective("route-pre-down")
  {
    hide Keyword;
    NameIs("route-up", Carrier(Route));
    assert "route-pre-down"[6] == 'p' && "route-up"[6] == 'u';
  }

  /** The characters it lets through behind the name. */
  lemma AllowedChars(c: char)
    ensures IsRouteChar(c) <==>
      'A' <= c <= 'Z' || 'a' <= c <= 'z' || '0' <= c <= '9' || c == '.' || c == ':' || c == '/' || c == '_' || c == '-'
  {}
}
