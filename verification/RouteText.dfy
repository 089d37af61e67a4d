/** The extra-routes value the importer builds, and what the exporter reads out of it. */
module RouteText {
  import opened Text
  import opened Names
  import opened Lexer
  import opened Config
  import opened RouteLines
  import opened Import
  import opened Export

  const ROUTE := "route"

  /** The words after the first, each behind one space. */
  function Spaced(ws: seq<string>): string
    decreases |ws|
  {
    if ws == [] then "" else [' '] + ws[0] + Spaced(ws[1..])
  }

  lemma {:induction false} JoinedWords(first: string, rest: seq<string>)
    ensures JoinWords(first, rest) == first + Spaced(rest)
    decreases |rest|
  {
    if rest != [] {
      JoinedWords(first + [' '] + rest[0], rest[1..]);
      AppendAssoc(first, [' '] + rest[0], Spaced(rest[1..]));
      AppendAssoc(first, [' '], rest[0]);
    } else {
      assert first + "" == first;
    }
  }

  predicate IsArgument(w: string) {
    w != "" && IsRouteWord(w)
  }

  predicate AllArguments(ws: seq<string>) {
    forall i :: 0 <= i < |ws| ==> IsArgument(ws[i])
  }

  lemma FirstFieldLength(first: string, rest: seq<string>, ascii: bool)
    requires IsArgument(first)
    ensures FieldLength(first + Spaced(rest), ascii) == |first|
  {
    hide IsRouteChar, FieldLength, IsWhite, IsAsciiWhite;
    var s := first + Spaced(rest);
    forall i | 0 <= i < |first| ensures !IsSpace(s[i], ascii) {
      assert s[i] == first[i];
      RouteCharIsPlain(first[i]);
    }
    SpaceIsWhite();
    FieldLengthAt(s, ascii, |first|);
  }

  lemma SpaceIsWhite()
    ensures IsWhite(' ') && IsAsciiWhite(' ')
  {
  }

  lemma {:induction false} FieldsOfSpaced(first: string, rest: seq<string>, ascii: bool)
    requires IsArgument(first) && AllArguments(rest)
    ensures Fields(first + Spaced(rest), ascii) == [first] + rest
    decreases |rest|
  {
    hide IsRouteChar, FieldLength;
    var s := first + Spaced(rest);
    FirstFieldLength(first, rest, ascii);
    assert s[..|first|] == first && s[|first|..] == Spaced(rest);
    if rest != [] {
      var t := rest[0] + Spaced(rest[1..]);
      FieldsOfSpaced(rest[0], rest[1..], ascii);
      assert Spaced(rest) == [' '] + t;
      assert Spaced(rest)[1..] == t;
      assert [rest[0]] + rest[1..] == rest;
    }
  }

  lemma {:induction false} SpacedIsTame(rest: seq<string>)
    requires AllArguments(rest)
    ensures IsTame(Spaced(rest)) && !HasControl(Spaced(rest))
    ensures rest != [] ==> Spaced(rest) != "" && IsRouteChar(Spaced(rest)[|Spaced(rest)| - 1])
    decreases |rest|
  {
    if rest != [] {
      SpacedIsTame(rest[1..]);
    }
  }

  function RouteLine(args: seq<string>): string {
    JoinWords(ROUTE, args)
  }

  lemma RouteKeyword()
    ensures Keyword(ROUTE) == Some(Carrier(Route)) && IsRouteDirective(ROUTE) && IsArgument(ROUTE)
  {
    KeywordOfSpelling(Carrier(Route));
    DirectiveIsRouteWord(ROUTE);
  }

  /** A single-spaced `route` line is kept as it is, and reads back as its own arguments. */
  lemma RouteLineReads(args: seq<string>)
    requires AllArguments(args)
    ensures var line := RouteLine(args);
            && line != "" && Trim(line) == line && Without(line, LF) && StripCr(line) == line
            && IsSafeRouteLine(line)
            && LineDirective(line) == [Opt(ROUTE, args)]
  {
    hide IsRouteDirective, IsRouteWord, IsArgument;
    var line := RouteLine(args);
    RouteKeyword();
    JoinedWords(ROUTE, args);
    FieldsOfSpaced(ROUTE, args, false);
    FieldsOfSpaced(ROUTE, args, true);
    ArgumentsAreRouteWords(args);
    assert ([ROUTE] + args)[1..] == args;
    RouteLineEnds(args);
    TrimIsIdentity(line);
    SafeLineTokens(line);
  }

  lemma ArgumentsAreRouteWords(args: seq<string>)
    requires AllArguments(args)
    ensures AllRouteWords(args)
  {
  }

  lemma RouteLineEnds(args: seq<string>)
    requires AllArguments(args)
    ensures var line := RouteLine(args);
            && line != "" && !IsWhite(line[0]) && !IsWhite(line[|line| - 1])
            && !HasControl(line) && Without(line, LF) && StripCr(line) == line
  {
    hide Spaced;
    var line := RouteLine(args);
    JoinedWords(ROUTE, args);
    SpacedIsTame(args);
    assert args == [] ==> line == ROUTE by {
      JoinedWords(ROUTE, []);
    }
    if args != [] {
      assert line[|line| - 1] == Spaced(args)[|Spaced(args)| - 1];
      RouteCharIsPlain(line[|line| - 1]);
    }
    forall i | 0 <= i < |line| ensures !IsControl(line[i]) {
      assert i >= |ROUTE| ==> line[i] == Spaced(args)[i - |ROUTE|];
    }
  }

  // ----- Many lines -----

  /** The value after appending one line per argument list. */
  function TextFrom(value: string, routes: seq<seq<string>>): string
    decreases |routes|
  {
    if routes == [] then value else TextFrom(AddLine(value, RouteLine(routes[0])), routes[1..])
  }

  predicate AllRoutes(routes: seq<seq<string>>) {
    forall i :: 0 <= i < |routes| ==> AllArguments(routes[i])
  }

  function RouteDirectives(routes: seq<seq<string>>): Directives
    decreases |routes|
  {
    if routes == [] then [] else [Opt(ROUTE, routes[0])] + RouteDirectives(routes[1..])
  }

  function JoinedLinesOf(routes: seq<seq<string>>): string
    requires routes != []
    decreases |routes|
  {
    if |routes| == 1 then RouteLine(routes[0]) else RouteLine(routes[0]) + [LF] + JoinedLinesOf(routes[1..])
  }

  lemma {:induction false} TextIsJoined(value: string, routes: seq<seq<string>>)
    requires routes != [] && AllRoutes(routes)
    ensures TextFrom(value, routes) == (if value == "" then "" else value + [LF]) + JoinedLinesOf(routes)
    decreases |routes|
  {
    hide RouteLine, AllArguments;
    var head := if value == "" then "" else value + [LF];
    RouteLineReads(routes[0]);
    var next := head + RouteLine(routes[0]);
    if |routes| == 1 {
      assert routes[1..] == [];
    } else {
      TextIsJoined(next, routes[1..]);
      AppendAssoc(head, RouteLine(routes[0]) + [LF], JoinedLinesOf(routes[1..]));
      AppendAssoc(head, RouteLine(routes[0]), [LF]);
    }
  }

  lemma KeepLine(args: seq<string>, more: seq<string>)
    requires AllArguments(args)
    ensures LineDirectives(SafeLines([RouteLine(args)] + more))
         == [Opt(ROUTE, args)] + LineDirectives(SafeLines(more))
  {
    hide RouteLine, IsSafeRouteLine, Trim, LineDirective, AllArguments;
    RouteLineReads(args);
    var line := RouteLine(args);
    assert ([line] + more)[1..] == more;
    assert ([line] + SafeLines(more))[1..] == SafeLines(more);
  }

  lemma {:induction false} ReadJoined(routes: seq<seq<string>>)
    requires routes != [] && AllRoutes(routes)
    ensures LineDirectives(SafeLines(Lines(JoinedLinesOf(routes)))) == RouteDirectives(routes)
    decreases |routes|
  {
    hide RouteLine, AllArguments, Lines, SafeLines, LineDirectives;
    var args := routes[0];
    RouteLineReads(args);
    if |routes| == 1 {
      LastLine(RouteLine(args));
      KeepLine(args, []);
      NoLines();
      assert [RouteLine(args)] + [] == [RouteLine(args)];
      assert routes[1..] == [];
    } else {
      LinesCons(RouteLine(args), JoinedLinesOf(routes[1..]));
      KeepLine(args, Lines(JoinedLinesOf(routes[1..])));
      ReadJoined(routes[1..]);
    }
  }

  lemma NoLines()
    ensures LineDirectives(SafeLines([])) == []
  {
  }

  lemma LastLine(line: string)
    requires line != "" && Without(line, LF)
    ensures Lines(line) == [line]
  {
    FindAt(line, LF, |line|);
  }

  /** The text built on import is read back on export as the same routes. */
  lemma RouteTextReads(routes: seq<seq<string>>)
    requires routes != [] && AllRoutes(routes)
    ensures LineDirectives(SafeLines(Lines(TextFrom("", routes)))) == RouteDirectives(routes)
  {
    TextIsJoined("", routes);
    assert "" + JoinedLinesOf(routes) == JoinedLinesOf(routes);
    ReadJoined(routes);
  }
}
