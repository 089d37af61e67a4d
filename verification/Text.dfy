/**
 * Strings as the Rust standard library treats them: a string is a sequence of
 * Unicode scalar values, white space is the Unicode property (or its ASCII
 * subset where the source asks for that), and a line ends at LF with at most
 * one CR in front of it.
 */
module Text {

  datatype Option<+T> = None | Some(value: T)

  datatype Result<+T, +E> = Ok(value: T) | Err(error: E)

  const LF := '\n'
  const CR := '\r'

  lemma AppendAssoc<T>(a: seq<T>, b: seq<T>, c: seq<T>)
    ensures a + (b + c) == (a + b) + c
  {
  }

  /** `char::is_whitespace`. */
  predicate IsWhite(c: char) {
    var n := c as int;
    || 9 <= n <= 13
    || n == 0x20
    || n == 0x85
    || n == 0xA0
    || n == 0x1680
    || 0x2000 <= n <= 0x200A
    || n == 0x2028
    || n == 0x2029
    || n == 0x202F
    || n == 0x205F
    || n == 0x3000
  }

  /** `char::is_ascii_whitespace`; unlike the Unicode property it leaves out U+000B. */
  predicate IsAsciiWhite(c: char) {
    c == ' ' || c == '\t' || c == LF || c as int == 12 || c == CR
  }

  /** `char::is_control`. */
  predicate IsControl(c: char) {
    (c as int) < 0x20 || 0x7F <= c as int <= 0x9F
  }

  predicate IsDigit(c: char) {
    '0' <= c <= '9'
  }

  predicate IsAlphanumeric(c: char) {
    'A' <= c <= 'Z' || 'a' <= c <= 'z' || IsDigit(c)
  }

  function TrimStart(s: string): (r: string)
    ensures |r| <= |s|
    ensures r != "" ==> !IsWhite(r[0])
    decreases |s|
  {
    if s != "" && IsWhite(s[0]) then TrimStart(s[1..]) else s
  }

  function TrimEnd(s: string): (r: string)
    ensures |r| <= |s|
    ensures r != "" ==> !IsWhite(r[|r| - 1])
    decreases |s|
  {
    if s != "" && IsWhite(s[|s| - 1]) then TrimEnd(s[..|s| - 1]) else s
  }

  function Trim(s: string): string {
    TrimEnd(TrimStart(s))
  }

  lemma TrimIsIdentity(s: string)
    requires s == "" || (!IsWhite(s[0]) && !IsWhite(s[|s| - 1]))
    ensures Trim(s) == s
  {
  }

  lemma {:induction false} TrimEndKeepsFirst(s: string)
    ensures TrimEnd(s) != "" ==> s != "" && TrimEnd(s)[0] == s[0]
    decreases |s|
  {
    if s != "" && IsWhite(s[|s| - 1]) {
      TrimEndKeepsFirst(s[..|s| - 1]);
    }
  }

  lemma TrimmedStart(s: string)
    ensures Trim(s) != "" ==> !IsWhite(Trim(s)[0])
  {
    TrimEndKeepsFirst(TrimStart(s));
  }

  lemma {:induction false} TrimStartKeepsCr(s: string)
    ensures TrimStart(s + [CR]) == if TrimStart(s) == "" then "" else TrimStart(s) + [CR]
    decreases |s|
  {
    var t := s + [CR];
    if s == "" {
      assert t[1..] == "";
    } else if IsWhite(s[0]) {
      assert t[1..] == s[1..] + [CR];
      TrimStartKeepsCr(s[1..]);
    }
  }

  lemma TrimEndDropsCr(s: string)
    ensures TrimEnd(s + [CR]) == TrimEnd(s)
  {
    var t := s + [CR];
    assert t[..|t| - 1] == s && IsWhite(t[|t| - 1]);
  }

  /** A CR is white space, so cutting it off the end of a line does not change the trimmed line. */
  lemma TrimDropsCr(s: string)
    ensures Trim(s + [CR]) == Trim(s)
  {
    TrimStartKeepsCr(s);
    TrimEndDropsCr(TrimStart(s));
  }

  predicate EndsWith(s: string, suffix: string) {
    |suffix| <= |s| && s[|s| - |suffix|..] == suffix
  }

  predicate StandsAt(s: string, part: string, i: nat) {
    i + |part| <= |s| && s[i..i + |part|] == part
  }

  /** `str::contains`. */
  predicate HasPart(s: string, part: string) {
    exists i :: 0 <= i <= |s| && StandsAt(s, part, i)
  }

  ghost predicate Mentions(s: string, part: string) { exists a: string, b: string :: s == a + part + b }

  lemma MentionsPart(s: string, part: string)
    ensures HasPart(s, part) <==> Mentions(s, part)
  {
    if HasPart(s, part) {
      var i :| 0 <= i <= |s| && StandsAt(s, part, i);
      assert s == s[..i] + part + s[i + |part|..];
    }
    if Mentions(s, part) {
      var a: string, b: string :| s == a + part + b;
      assert StandsAt(s, part, |a|);
    }
  }

  predicate Without(s: string, c: char) {
    forall i :: 0 <= i < |s| ==> s[i] != c
  }

  /** The first position of `c`, or the length of `s`. */
  function Find(s: string, c: char): (i: nat)
    ensures i <= |s|
    ensures forall j :: 0 <= j < i ==> s[j] != c
    ensures i < |s| ==> s[i] == c
    decreases |s|
  {
    if s == "" || s[0] == c then 0 else Find(s[1..], c) + 1
  }

  lemma FindAt(s: string, c: char, i: nat)
    requires i <= |s| && forall j :: 0 <= j < i ==> s[j] != c
    requires i < |s| ==> s[i] == c
    ensures Find(s, c) == i
  {
  }

  function StripCr(line: string): string {
    if line != "" && line[|line| - 1] == CR then line[..|line| - 1] else line
  }

  /** `str::lines`: a CR is part of the line ending only directly before an LF. */
  function Lines(s: string): seq<string>
    decreases |s|
  {
    if s == "" then []
    else
      var i := Find(s, LF);
      if i == |s| then [s]
      else [StripCr(s[..i])] + Lines(s[i + 1..])
  }

  lemma LinesCons(line: string, rest: string)
    requires Without(line, LF)
    ensures Lines(line + [LF] + rest) == [StripCr(line)] + Lines(rest)
  {
    var s := line + [LF] + rest;
    assert s[..|line|] == line;
    FindAt(s, LF, |line|);
    assert s[|line| + 1..] == rest;
  }

  /** Every line of `s` is ended by an LF. */
  predicate Terminated(s: string) {
    s == "" || s[|s| - 1] == LF
  }

  /** Some line ending of `s` is CR LF. */
  predicate HasCrLf(s: string) {
    exists i :: 0 <= i < |s| - 1 && s[i] == CR && s[i + 1] == LF
  }

  /** What a reader that appends an LF to each line it reads gets back. */
  function Joined(ls: seq<string>): string
    decreases |ls|
  {
    if |ls| == 0 then "" else ls[0] + [LF] + Joined(ls[1..])
  }

  /** The first line of a terminated text, and what follows it. */
  lemma SplitFirstLine(s: string) returns (line: string, rest: string)
    requires s != "" && Terminated(s)
    ensures Without(line, LF) && s == line + [LF] + rest && Terminated(rest) && |rest| < |s|
    ensures Lines(s) == [StripCr(line)] + Lines(rest)
  {
    var i := Find(s, LF);
    line, rest := s[..i], s[i + 1..];
    assert s == line + [LF] + rest;
    LinesCons(line, rest);
  }

  lemma {:induction false} LinesAppend(s: string, rest: string)
    requires Terminated(s)
    ensures Lines(s + rest) == Lines(s) + Lines(rest)
    decreases |s|
  {
    if s == "" {
      assert s + rest == rest;
      assert Lines(s) == [];
    } else {
      hide Lines, Terminated;
      var line, more := SplitFirstLine(s);
      LinesAppend(more, rest);
      LinesAppendStep(s, line, more, rest);
    }
  }

  lemma LinesAppendStep(s: string, line: string, more: string, rest: string)
    requires Without(line, LF) && s == line + [LF] + more
    requires Lines(more + rest) == Lines(more) + Lines(rest)
    ensures Lines(s + rest) == Lines(s) + Lines(rest)
  {
    var t := more + rest;
    AppendAssoc(line + [LF], more, rest);
    LinesCons(line, t);
    LinesCons(line, more);
    AppendAssoc([StripCr(line)], Lines(more), Lines(rest));
  }

  /** Reading a text line by line gives it back exactly when no line ends in CR LF. */
  lemma {:induction false} JoinedLines(s: string)
    requires Terminated(s)
    ensures Joined(Lines(s)) == s <==> !HasCrLf(s)
    ensures |Joined(Lines(s))| <= |s|
    decreases |s|
  {
    if s != "" {
      var line, rest := SplitFirstLine(s);
      JoinedLines(rest);
      assert Lines(s)[1..] == Lines(rest);
      assert Joined(Lines(s)) == StripCr(line) + [LF] + Joined(Lines(rest));
      if StripCr(line) != line {
        assert s[|line| - 1] == CR && s[|line| - 1 + 1] == LF;
      } else {
        CrLfInRest(line, rest);
        if Joined(Lines(rest)) != rest {
          assert Joined(Lines(s))[|line| + 1..] == Joined(Lines(rest));
          assert s[|line| + 1..] == rest;
        }
      }
    }
  }

  lemma CrLfInRest(line: string, rest: string)
    requires Without(line, LF) && StripCr(line) == line
    ensures HasCrLf(line + [LF] + rest) <==> HasCrLf(rest)
  {
    var s := line + [LF] + rest;
    if HasCrLf(rest) {
      var i :| 0 <= i < |rest| - 1 && rest[i] == CR && rest[i + 1] == LF;
      assert s[|line| + 1 + i] == CR && s[|line| + 1 + i + 1] == LF;
    }
    if HasCrLf(s) {
      var i :| 0 <= i < |s| - 1 && s[i] == CR && s[i + 1] == LF;
      var k := i - |line| - 1;
      assert 0 <= k < |rest| - 1 && rest[k] == CR && rest[k + 1] == LF;
    }
  }
}
