/**
  * The auth dialog: what it reads from its standard input, what it decides to
  * ask for, and how it escapes what it writes.
  */
module Dialog {
  import opened Text
  import opened Numbers

  type Dict = map<string, string>

  // ---------- Reading the details ----------

  datatype Line =
    | Done
    | Blank
    | KeyLine(key: string, secret: bool)
    | ValueLine(value: string, secret: bool)
    | OtherLine

  /** What one line of the stream is; the prefix ends at the first equals sign. */
  function Kind(line: string): Line {
    if line == "DONE" then Done
    else if line == "" then Blank
    else
      var i := Find(line, '=');
      if i == |line| then OtherLine
      else
        var prefix, value := line[..i], line[i + 1..];
        if prefix == "DATA_KEY" then KeyLine(value, false)
        else if prefix == "SECRET_KEY" then KeyLine(value, true)
        else if prefix == "DATA_VAL" then ValueLine(value, false)
        else if prefix == "SECRET_VAL" then ValueLine(value, true)
        else OtherLine
  }

  datatype Pending = Nothing | Pending(key: string, secret: bool)

  datatype Details = Details(pending: Pending, data: Dict, secrets: Dict, done: bool)

  const EMPTY := Details(Nothing, map[], map[], false)

  function Take(r: Details, line: string): Details {
    if r.done then r
    else
      match Kind(line)
      case Done => r.(done := true)
      case Blank => r.(pending := Nothing)
      case KeyLine(key, secret) => r.(pending := if key == "" then Nothing else Pending(key, secret))
      case ValueLine(value, secret) =>
        if r.pending.Nothing? || r.pending.secret != secret then r
        else if secret then r.(secrets := r.secrets[r.pending.key := value], pending := Nothing)
        else r.(data := r.data[r.pending.key := value], pending := Nothing)
      case OtherLine => r
  }

  function ReadLines(lines: seq<string>): Details
    decreases |lines|
  {
    if lines == [] then EMPTY else Take(ReadLines(lines[..|lines| - 1]), lines[|lines| - 1])
  }

  method ReadVpnDetails(input: string) returns (data: Dict, secrets: Dict)
    ensures data == ReadLines(Lines(input)).data && secrets == ReadLines(Lines(input)).secrets
  {
    hide Lines;
    data, secrets := map[], map[];
    var current: Option<string>, isSecret := None, false;
    var lines := Lines(input);
    var i := 0;
    while i < |lines|
      invariant 0 <= i <= |lines|
      invariant ReadLines(lines[..i])
             == Details(if current.None? then Nothing else Pending(current.value, isSecret), data, secrets, false)
    {
      var line := lines[i];
      assert lines[..i + 1][..i] == lines[..i];
      i := i + 1;
      if line == "DONE" {
        break;
      }
      if line == "" {
        current := None;
        continue;
      }
      match Kind(line) {
        case KeyLine(key, secret) =>
          if key == "" { current := None; } else { current, isSecret := Some(key), secret; }
        case ValueLine(value, secret) =>
          if current.Some? && isSecret == secret {
            if secret { secrets := secrets[current.value := value]; } else { data := data[current.value := value]; }
            current := None;
          }
        case _ =>
      }
    }
    DoneStays(lines, i);
    assert lines[..|lines|] == lines;
  }

  lemma {:induction false} DoneStays(lines: seq<string>, k: nat)
    requires k <= |lines|
    ensures ReadLines(lines[..k]).done ==> ReadLines(lines) == ReadLines(lines[..k])
    decreases |lines|
  {
    if k < |lines| {
      var rest := lines[..|lines| - 1];
      assert rest[..k] == lines[..k];
      DoneStays(rest, k);
    } else {
      assert lines[..k] == lines;
    }
  }

  // ---------- What libnm writes is what is read ----------

  /** A key with its value, on the data or on the secret side, and whether a blank line follows. */
  datatype Entry = Entry(key: string, value: string, secret: bool, blank: bool)

  function KeyPrefix(secret: bool): string { if secret then "SECRET_KEY" else "DATA_KEY" }

  function ValuePrefix(secret: bool): string { if secret then "SECRET_VAL" else "DATA_VAL" }

  function EntryLines(e: Entry): seq<string> {
    [KeyPrefix(e.secret) + ['='] + e.key, ValuePrefix(e.secret) + ['='] + e.value] + if e.blank then [""] else []
  }

  function AllLines(es: seq<Entry>): seq<string>
    decreases |es|
  {
    if es == [] then [] else AllLines(es[..|es| - 1]) + EntryLines(es[|es| - 1])
  }

  /** The values of one side, a later entry winning over an earlier one. */
  function Side(es: seq<Entry>, secret: bool): Dict
    decreases |es|
  {
    if es == [] then map[]
    else
      var e, before := es[|es| - 1], Side(es[..|es| - 1], secret);
      if e.secret == secret then before[e.key := e.value] else before
  }

  lemma PrefixedLine(prefix: string, value: string)
    requires Without(prefix, '=') && prefix != ""
    ensures var line := prefix + ['='] + value;
            line != "" && line != "DONE" && Find(line, '=') == |prefix| < |line|
            && line[..|prefix|] == prefix && line[|prefix| + 1..] == value
  {
    var line := prefix + ['='] + value;
    FindAt(line, '=', |prefix|);
  }

  lemma EntryKinds(e: Entry)
    ensures Kind(KeyPrefix(e.secret) + ['='] + e.key) == KeyLine(e.key, e.secret)
    ensures Kind(ValuePrefix(e.secret) + ['='] + e.value) == ValueLine(e.value, e.secret)
  {
    PrefixedLine(KeyPrefix(e.secret), e.key);
    PrefixedLine(ValuePrefix(e.secret), e.value);
  }

  lemma TakeOne(lines: seq<string>, line: string)
    ensures ReadLines(lines + [line]) == Take(ReadLines(lines), line)
  {
    assert (lines + [line])[..|lines|] == lines;
  }

  lemma ReadsEntry(ls: seq<string>, e: Entry)
    requires e.key != "" && ReadLines(ls).pending.Nothing? && !ReadLines(ls).done
    ensures var r := ReadLines(ls);
            ReadLines(ls + EntryLines(e)) ==
            if e.secret then r.(secrets := r.secrets[e.key := e.value]) else r.(data := r.data[e.key := e.value])
  {
    hide Kind, ReadLines, KeyPrefix, ValuePrefix;
    EntryKinds(e);
    assert Kind("").Blank? by { EmptyIsBlank(); }
    var k, v := KeyPrefix(e.secret) + ['='] + e.key, ValuePrefix(e.secret) + ['='] + e.value;
    TakeOne(ls, k);
    TakeOne(ls + [k], v);
    assert ls + [k] + [v] == ls + [k, v];
    TakeOne(ls + [k, v], "");
    assert ls + [k, v] + [""] == ls + ([k, v] + [""]);
    assert ls + ([k, v] + []) == ls + [k, v];
  }

  lemma EmptyIsBlank()
    ensures Kind("").Blank?
  {}

  lemma {:induction false} ReadsEntries(es: seq<Entry>)
    requires forall i :: 0 <= i < |es| ==> es[i].key != ""
    ensures ReadLines(AllLines(es)) == Details(Nothing, Side(es, false), Side(es, true), false)
    decreases |es|
  {
    hide EntryLines, Take;
    if es != [] {
      ReadsEntries(es[..|es| - 1]);
      ReadsEntry(AllLines(es[..|es| - 1]), es[|es| - 1]);
    }
  }

  lemma {:induction false} AfterDone(lines: seq<string>, rest: seq<string>)
    requires ReadLines(lines).done
    ensures ReadLines(lines + rest) == ReadLines(lines)
    decreases |rest|
  {
    if rest == [] {
      assert lines + rest == lines;
    } else {
      AfterDone(lines, rest[..|rest| - 1]);
      assert (lines + rest)[..|lines + rest| - 1] == lines + rest[..|rest| - 1];
    }
  }

  /** Whatever comes behind DONE, the entries in front of it are read back, values with equals signs included. */
  lemma ReadsWhatWasWritten(es: seq<Entry>, rest: seq<string>)
    requires forall i :: 0 <= i < |es| ==> es[i].key != ""
    ensures var r := ReadLines(AllLines(es) + ["DONE"] + rest);
            r.data == Side(es, false) && r.secrets == Side(es, true)
  {
    ReadsEntries(es);
    TakeOne(AllLines(es), "DONE");
    AfterDone(AllLines(es) + ["DONE"], rest);
  }

  /** A line that `lines` hands back as it was written. */
  predicate Unbroken(line: string) { Without(line, LF) && StripCr(line) == line }

  lemma {:induction false} JoinedReads(lines: seq<string>)
    requires forall i :: 0 <= i < |lines| ==> Unbroken(lines[i])
    ensures Lines(Joined(lines)) == lines
    decreases |lines|
  {
    hide StripCr;
    if lines != [] {
      JoinedReads(lines[1..]);
      LinesCons(lines[0], Joined(lines[1..]));
      assert lines == [lines[0]] + lines[1..];
    }
  }

  /** No LF in the key or the value, and no CR at their ends. */
  predicate Clean(e: Entry) { e.key != "" && Unbroken(e.key) && Unbroken(e.value) }

  lemma EntryIsUnbroken(e: Entry)
    requires Clean(e)
    ensures forall i :: 0 <= i < |EntryLines(e)| ==> Unbroken(EntryLines(e)[i])
  {
    PrefixIsUnbroken(KeyPrefix(e.secret), e.key);
    PrefixIsUnbroken(ValuePrefix(e.secret), e.value);
  }

  lemma PrefixIsUnbroken(prefix: string, v: string)
    requires Without(prefix, LF) && Unbroken(v)
    ensures Unbroken(prefix + ['='] + v)
  {
    var line := prefix + ['='] + v;
    if v != "" {
      assert line[|line| - 1] == v[|v| - 1];
    }
  }

  lemma {:induction false} EntriesAreUnbroken(es: seq<Entry>)
    requires forall i :: 0 <= i < |es| ==> Clean(es[i])
    ensures forall i :: 0 <= i < |AllLines(es)| ==> Unbroken(AllLines(es)[i])
    decreases |es|
  {
    hide Clean, Unbroken, EntryLines;
    if es != [] {
      EntriesAreUnbroken(es[..|es| - 1]);
      EntryIsUnbroken(es[|es| - 1]);
    }
  }

  /** A listing of a map: each key once, with its value. */
  ghost predicate Lists(es: seq<Entry>, secret: bool, d: Dict) {
    && (forall i :: 0 <= i < |es| && es[i].secret == secret ==> es[i].key in d && d[es[i].key] == es[i].value)
    && (forall k :: k in d ==> exists i :: 0 <= i < |es| && es[i].secret == secret && es[i].key == k)
  }

  lemma {:induction false} SideHolds(es: seq<Entry>, secret: bool, d: Dict)
    requires forall i :: 0 <= i < |es| && es[i].secret == secret ==> es[i].key in d && d[es[i].key] == es[i].value
    ensures forall k :: k in Side(es, secret) <==> exists i :: 0 <= i < |es| && es[i].secret == secret && es[i].key == k
    ensures forall k :: k in Side(es, secret) ==> k in d && Side(es, secret)[k] == d[k]
    decreases |es|
  {
    if es != [] {
      var before := es[..|es| - 1];
      SideHolds(before, secret, d);
      assert forall i :: 0 <= i < |before| ==> before[i] == es[i];
    }
  }

  lemma ListedIsRead(es: seq<Entry>, secret: bool, d: Dict)
    requires Lists(es, secret, d)
    ensures Side(es, secret) == d
  {
    SideHolds(es, secret, d);
  }

  /**
    * libnm's stream for a data map and a secret map reads back as the two maps,
    * in whatever order the keys come and wherever the blank lines stand.
    */
  lemma DetailsComeBack(es: seq<Entry>, data: Dict, secrets: Dict)
    requires forall i :: 0 <= i < |es| ==> Clean(es[i])
    requires Lists(es, false, data) && Lists(es, true, secrets)
    ensures var r := ReadLines(Lines(Joined(AllLines(es) + ["DONE", ""])));
            r.data == data && r.secrets == secrets
  {
    hide Lines, ReadLines, AllLines, Joined, Lists;
    var lines := AllLines(es) + ["DONE", ""];
    EntriesAreUnbroken(es);
    forall i | 0 <= i < |lines| ensures Unbroken(lines[i]) {
      if i >= |AllLines(es)| {
        assert lines[i] == "DONE" || lines[i] == "";
      }
    }
    JoinedReads(lines);
    assert lines == AllLines(es) + ["DONE"] + [""];
    ReadsWhatWasWritten(es, [""]);
    ListedIsRead(es, false, data);
    ListedIsRead(es, true, secrets);
  }

  // ---------- No value is filed under the wrong key ----------

  /** Between the key line and its value line there is no blank line, no other key line and no DONE. */
  predicate Paired(lines: seq<string>, i: nat, j: nat, secret: bool, key: string, value: string) {
    && i < j < |lines|
    && Kind(lines[i]) == KeyLine(key, secret)
    && Kind(lines[j]) == ValueLine(value, secret)
    && Calm(lines, i, j)
  }

  predicate Calm(lines: seq<string>, i: nat, j: nat)
    requires i < j <= |lines|
  {
    forall m :: i < m < j ==> !Kind(lines[m]).Blank? && !Kind(lines[m]).KeyLine? && !Kind(lines[m]).Done?
  }

  ghost predicate IsPaired(lines: seq<string>, secret: bool, key: string, value: string) {
    exists i, j :: Paired(lines, i, j, secret, key, value)
  }

  ghost predicate HasPending(lines: seq<string>, p: Pending) {
    p.Pending? ==> exists i :: 0 <= i < |lines| && Kind(lines[i]) == KeyLine(p.key, p.secret) && Calm(lines, i, |lines|)
  }

  lemma PairedStays(lines: seq<string>, line: string, secret: bool, key: string, value: string)
    requires IsPaired(lines, secret, key, value)
    ensures IsPaired(lines + [line], secret, key, value)
  {
    hide Kind;
    var i, j :| Paired(lines, i, j, secret, key, value);
    assert Paired(lines + [line], i, j, secret, key, value);
  }

  lemma PendingStep(lines: seq<string>, line: string)
    requires HasPending(lines, ReadLines(lines).pending) && !ReadLines(lines).done
    ensures HasPending(lines + [line], Take(ReadLines(lines), line).pending) || Kind(line).Done?
  {
    hide Kind, ReadLines;
    var r, more := ReadLines(lines), lines + [line];
    var p := Take(r, line).pending;
    if p.Pending? && !Kind(line).Done? {
      if Kind(line).KeyLine? {
        assert Kind(more[|lines|]) == KeyLine(p.key, p.secret) && Calm(more, |lines|, |more|);
      } else {
        var i :| 0 <= i < |lines| && Kind(lines[i]) == KeyLine(p.key, p.secret) && Calm(lines, i, |lines|);
        assert Kind(more[i]) == KeyLine(p.key, p.secret) && Calm(more, i, |more|);
      }
    }
  }

  lemma ValueIsPaired(lines: seq<string>, line: string)
    requires HasPending(lines, ReadLines(lines).pending) && ReadLines(lines).pending.Pending?
    requires Kind(line).ValueLine? && Kind(line).secret == ReadLines(lines).pending.secret
    ensures IsPaired(lines + [line], Kind(line).secret, ReadLines(lines).pending.key, Kind(line).value)
  {
    hide Kind, ReadLines;
    var p := ReadLines(lines).pending;
    var i :| 0 <= i < |lines| && Kind(lines[i]) == KeyLine(p.key, p.secret) && Calm(lines, i, |lines|);
    assert Paired(lines + [line], i, |lines|, p.secret, p.key, Kind(line).value);
  }

  /**
    * On any stream at all, each entry read pairs a value line with the last key
    * line of its own kind, with no blank line and no other key line in between.
    */
  lemma {:induction false} EntriesArePaired(lines: seq<string>)
    ensures var r := ReadLines(lines);
      && (forall k :: k in r.data ==> IsPaired(lines, false, k, r.data[k]))
      && (forall k :: k in r.secrets ==> IsPaired(lines, true, k, r.secrets[k]))
      && (!r.done ==> HasPending(lines, r.pending))
    decreases |lines|
  {
    hide Kind, IsPaired, HasPending;
    if lines == [] {
      NothingIsPending();
    } else {
      var before, line := lines[..|lines| - 1], lines[|lines| - 1];
      assert before + [line] == lines;
      EntriesArePaired(before);
      var r, s := ReadLines(before), ReadLines(lines);
      assert s == Take(r, line);
      if !r.done {
        PendingStep(before, line);
        if Kind(line).ValueLine? && r.pending.Pending? && r.pending.secret == Kind(line).secret {
          ValueIsPaired(before, line);
        }
      }
      forall k | k in s.data ensures IsPaired(lines, false, k, s.data[k]) {
        if k in r.data && r.data[k] == s.data[k] {
          PairedStays(before, line, false, k, s.data[k]);
        }
      }
      forall k | k in s.secrets ensures IsPaired(lines, true, k, s.secrets[k]) {
        if k in r.secrets && r.secrets[k] == s.secrets[k] {
          PairedStays(before, line, true, k, s.secrets[k]);
        }
      }
    }
  }

  lemma NothingIsPending()
    ensures HasPending([], Nothing)
  {}

  // ---------- What is written into the key file ----------

  const BACKSLASH := '\\'
  const TAB := '\t'

  function EscapedChar(c: char): string {
    if c == BACKSLASH then [BACKSLASH, BACKSLASH]
    else if c == LF then [BACKSLASH, 'n']
    else if c == CR then [BACKSLASH, 'r']
    else if c == TAB then [BACKSLASH, 't']
    else [c]
  }

  function EscapedText(s: string): string
    decreases |s|
  {
    if s == "" then "" else EscapedText(s[..|s| - 1]) + EscapedChar(s[|s| - 1])
  }

  method Escape(s: string) returns (out: string)
    ensures out == EscapedText(s)
  {
    out := "";
    for i := 0 to |s|
      invariant out == EscapedText(s[..i])
    {
      assert s[..i + 1][..i] == s[..i];
      out := out + EscapedChar(s[i]);
    }
    assert s[..|s|] == s;
  }

  lemma EscapedCharIsOneLine(c: char)
    ensures var e := EscapedChar(c); Without(e, LF) && Without(e, CR) && Without(e, TAB)
  {}

  lemma WithoutAppend(a: string, b: string, c: char)
    requires Without(a, c) && Without(b, c)
    ensures Without(a + b, c)
  {}

  /** No value can end its line early: a written entry stays one line of the key file. */
  lemma {:induction false} EscapedIsOneLine(s: string)
    ensures var e := EscapedText(s); Without(e, LF) && Without(e, CR) && Without(e, TAB)
    decreases |s|
  {
    hide EscapedChar, Without;
    if s == "" {
      EmptyIsOneLine();
    } else {
      var e, x := EscapedText(s[..|s| - 1]), EscapedChar(s[|s| - 1]);
      EscapedIsOneLine(s[..|s| - 1]);
      EscapedCharIsOneLine(s[|s| - 1]);
      WithoutAppend(e, x, LF);
      WithoutAppend(e, x, CR);
      WithoutAppend(e, x, TAB);
    }
  }

  lemma EmptyIsOneLine()
    ensures Without("", LF) && Without("", CR) && Without("", TAB)
  {}

  /** The characters an escaped text stands for, with the backslash that waits for its partner. */
  datatype Reading = Reading(text: string, waiting: bool)

  function Meaning(c: char): char {
    if c == 'n' then LF else if c == 'r' then CR else if c == 't' then TAB else c
  }

  function ReadBack(e: string): Reading
    decreases |e|
  {
    if e == "" then Reading("", false)
    else
      var r, c := ReadBack(e[..|e| - 1]), e[|e| - 1];
      if r.waiting then Reading(r.text + [Meaning(c)], false)
      else if c == BACKSLASH then Reading(r.text, true)
      else Reading(r.text + [c], false)
  }

  lemma ReadOne(e: string, c: char)
    ensures ReadBack(e + [c]) ==
      var r := ReadBack(e);
      if r.waiting then Reading(r.text + [Meaning(c)], false)
      else if c == BACKSLASH then Reading(r.text, true)
      else Reading(r.text + [c], false)
  {
    assert (e + [c])[..|e|] == e;
  }

  /** Escaping loses nothing: a key file reader gets the value back. */
  lemma {:induction false} EscapedReadsBack(s: string)
    ensures ReadBack(EscapedText(s)) == Reading(s, false)
    decreases |s|
  {
    hide ReadBack;
    if s == "" {
      assert ReadBack("") == Reading("", false) by { NothingToRead(); }
    } else {
      var front, c := s[..|s| - 1], s[|s| - 1];
      EscapedReadsBack(front);
      var e, x := EscapedText(front), EscapedChar(c);
      ReadOne(e, x[0]);
      if |x| == 2 {
        ReadOne(e + [x[0]], x[1]);
        assert e + [x[0]] + [x[1]] == e + x;
      } else {
        assert e + [x[0]] == e + x;
      }
      assert s == front + [c];
    }
  }

  lemma NothingToRead()
    ensures ReadBack("") == Reading("", false)
  {}

  // ---------- The lines of the stream, spelled out ----------

  /** The four prefixes, the end mark and the blank line; a value may hold further equals signs. */
  lemma LinesMean(prefix: string, v: string)
    requires prefix in {"DATA_KEY", "DATA_VAL", "SECRET_KEY", "SECRET_VAL"}
    ensures Kind(prefix + "=" + v) ==
      if prefix == "DATA_KEY" then KeyLine(v, false)
      else if prefix == "SECRET_KEY" then KeyLine(v, true)
      else if prefix == "DATA_VAL" then ValueLine(v, false)
      else ValueLine(v, true)
    ensures Kind("DONE") == Done && Kind("") == Blank
  {
    PrefixFound(prefix, v);
  }

  lemma PrefixFound(prefix: string, v: string)
    requires Without(prefix, '=')
    ensures var line := prefix + "=" + v;
      && line != "DONE" && line != ""
      && Find(line, '=') == |prefix| < |line| && line[..|prefix|] == prefix && line[|prefix| + 1..] == v
  {
    var line := prefix + "=" + v;
    assert line[|prefix|] == '=';
    FindAt(line, '=', |prefix|);
    assert Without("DONE", '=');
  }

  /** Any other prefix, and a line without an equals sign, says nothing. */
  lemma OtherLinesSayNothing(prefix: string, v: string)
    requires Without(prefix, '=') && prefix !in {"DATA_KEY", "DATA_VAL", "SECRET_KEY", "SECRET_VAL"}
    ensures Kind(prefix + "=" + v) == OtherLine
    ensures prefix != "DONE" && prefix != "" ==> Kind(prefix) == OtherLine
  {
    PrefixFound(prefix, v);
    FindAt(prefix, '=', |prefix|);
  }
}
