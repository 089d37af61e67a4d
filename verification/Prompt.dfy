/**
  * What the auth dialog writes: the key file that tells NetworkManager's agent
  * which secrets to ask for, read back the way a key file is read.
  */
module Prompt {
  import opened Text
  import opened Dialog
  import opened Credentials

  /** The translated texts the dialog puts on its fields. */
  datatype Labels = Labels(title: string, password: string, certpass: string, proxypass: string, challenge: string,
                           fallback: string)

  const UI_GROUP := "VPN Plugin UI"
  const NO_SECRET := "no-secret"

  function ShowBool(b: bool): string { if b then "true" else "false" }

  function GroupLine(group: string): string { ['['] + group + [']'] }

  function FieldLine(name: string, value: string): string { name + ['='] + value }

  function EntryBlock(key: string, caption: string, echo: bool, ask: bool): seq<string> {
    ["", GroupLine(key), FieldLine("Value", EscapedText("")), FieldLine("Label", EscapedText(caption)),
     FieldLine("IsSecret", "true"), FieldLine("ShouldAsk", ShowBool(ask)), FieldLine("ForceEcho", ShowBool(echo))]
  }

  predicate NeedsNothing(n: Needed) { !n.password && !n.certpass && !n.proxypass && !n.challenge }

  /** The file when no secret is needed. */
  function NoSecretLines(): seq<string> {
    [GroupLine(UI_GROUP), FieldLine("Version", "2"), "", GroupLine(NO_SECRET), FieldLine("Value", "true"),
     FieldLine("Label", ""), FieldLine("IsSecret", "true"), FieldLine("ShouldAsk", "false"),
     FieldLine("ForceEcho", "false")]
  }

  function HeadLines(prompt: string, labels: Labels): seq<string> {
    [GroupLine(UI_GROUP), FieldLine("Version", "2"), FieldLine("Description", EscapedText(prompt)),
     FieldLine("Title", EscapedText(labels.title))]
  }

  function EuiLines(prompt: string, n: Needed, allow: bool, labels: Labels): seq<string> {
    HeadLines(prompt, labels)
    + EntryBlock(PASSWORD, labels.password, false, n.password && allow)
    + EntryBlock(CERTPASS, labels.certpass, false, n.certpass && allow)
    + EntryBlock(PROXY_PASSWORD, labels.proxypass, false, n.proxypass && allow)
    + EntryBlock(CHALLENGE, labels.challenge, n.echo, n.challenge && allow)
  }

  function PromptText(n: Needed, labels: Labels): string {
    if n.prompt.Some? then n.prompt.value else labels.fallback
  }

  function OutputLines(n: Needed, allow: bool, labels: Labels): seq<string> {
    if NeedsNothing(n) then NoSecretLines() else EuiLines(PromptText(n, labels), n, allow, labels)
  }

  lemma {:induction false} JoinedAppend(a: seq<string>, b: seq<string>)
    ensures Joined(a + b) == Joined(a) + Joined(b)
    decreases |a|
  {
    if a == [] {
      assert a + b == b;
    } else {
      assert (a + b)[1..] == a[1..] + b;
      JoinedAppend(a[1..], b);
      AppendAssoc(a[0] + [LF], Joined(a[1..]), Joined(b));
    }
  }

  /** `writeln`. */
  method WriteLine(out: string, line: string, ghost lines: seq<string>) returns (more: string, ghost all: seq<string>)
    requires out == Joined(lines)
    ensures all == lines + [line] && more == Joined(all)
  {
    all := lines + [line];
    JoinedAppend(lines, [line]);
    assert [line][1..] == [];
    assert line + [LF] + "" == line + [LF];
    more := out + (line + [LF]);
  }

  /** `write_entry`. */
  method WriteEntry(out: string, key: string, caption: string, echo: bool, ask: bool, ghost lines: seq<string>)
    returns (more: string, ghost all: seq<string>)
    requires out == Joined(lines)
    ensures all == lines + EntryBlock(key, caption, echo, ask) && more == Joined(all)
  {
    hide Joined;
    var value := Escape("");
    var shown := Escape(caption);
    more, all := WriteLine(out, "", lines);
    more, all := WriteLine(more, ['['] + key + [']'], all);
    more, all := WriteLine(more, "Value" + ['='] + value, all);
    more, all := WriteLine(more, "Label" + ['='] + shown, all);
    more, all := WriteLine(more, FieldLine("IsSecret", "true"), all);
    more, all := WriteLine(more, "ShouldAsk" + ['='] + (if ask then "true" else "false"), all);
    more, all := WriteLine(more, "ForceEcho" + ['='] + (if echo then "true" else "false"), all);
    assert all == lines + EntryBlock(key, caption, echo, ask);
  }

  /** `write_eui_keyfile`. */
  method WriteEuiKeyfile(prompt: string, n: Needed, allow: bool, labels: Labels) returns (out: string)
    ensures out == Joined(EuiLines(prompt, n, allow, labels))
  {
    hide Joined, EntryBlock, EscapedText;
    var description := Escape(prompt);
    var title := Escape(labels.title);
    ghost var all: seq<string> := [];
    out := "";
    assert out == Joined([]) by { NothingJoined(); }
    out, all := WriteLine(out, GroupLine(UI_GROUP), all);
    out, all := WriteLine(out, FieldLine("Version", "2"), all);
    out, all := WriteLine(out, FieldLine("Description", description), all);
    out, all := WriteLine(out, FieldLine("Title", title), all);
    assert all == HeadLines(prompt, labels);
    hide GroupLine, FieldLine, HeadLines;
    out, all := WriteEntry(out, PASSWORD, labels.password, false, n.password && allow, all);
    out, all := WriteEntry(out, CERTPASS, labels.certpass, false, n.certpass && allow, all);
    out, all := WriteEntry(out, PROXY_PASSWORD, labels.proxypass, false, n.proxypass && allow, all);
    out, all := WriteEntry(out, CHALLENGE, labels.challenge, n.echo, n.challenge && allow, all);
  }

  lemma NothingJoined()
    ensures Joined([]) == ""
  {}

  /** `write_no_secret`. */
  method WriteNoSecret() returns (out: string)
    ensures out == Joined(NoSecretLines())
  {
    hide Joined;
    ghost var all: seq<string> := [];
    out := "";
    assert out == Joined([]) by { NothingJoined(); }
    out, all := WriteLine(out, GroupLine(UI_GROUP), all);
    out, all := WriteLine(out, FieldLine("Version", "2"), all);
    out, all := WriteLine(out, "", all);
    out, all := WriteLine(out, GroupLine(NO_SECRET), all);
    out, all := WriteLine(out, FieldLine("Value", "true"), all);
    out, all := WriteLine(out, FieldLine("Label", ""), all);
    out, all := WriteLine(out, FieldLine("IsSecret", "true"), all);
    out, all := WriteLine(out, FieldLine("ShouldAsk", "false"), all);
    out, all := WriteLine(out, FieldLine("ForceEcho", "false"), all);
    assert all == NoSecretLines();
  }

  /** The end of `run`: what goes to the standard output. */
  method WriteOutput(n: Needed, allow: bool, labels: Labels) returns (out: string)
    ensures out == Joined(OutputLines(n, allow, labels))
  {
    hide Joined, NoSecretLines, EuiLines;
    if !n.password && !n.certpass && !n.proxypass && !n.challenge {
      out := WriteNoSecret();
      return;
    }
    var prompt := if n.prompt.Some? then n.prompt.value else labels.fallback;
    out := WriteEuiKeyfile(prompt, n, allow, labels);
  }

  // ---------- Reading the key file ----------

  datatype Field = Field(group: string, name: string)

  /** What was read so far: the current group and the values by group and name. */
  datatype KeyFile = KeyFile(group: string, values: map<Field, string>)

  const NO_FILE := KeyFile("", map[])

  /** A line in brackets opens a group, a line with an equals sign sets a value, other lines say nothing. */
  function Digest(f: KeyFile, line: string): KeyFile {
    if line != "" && line[0] == '[' && line[|line| - 1] == ']' && |line| >= 2 then f.(group := line[1..|line| - 1])
    else
      var i := Find(line, '=');
      if i == |line| then f else f.(values := f.values[Field(f.group, line[..i]) := line[i + 1..]])
  }

  function ReadKeyFile(f: KeyFile, lines: seq<string>): KeyFile
    decreases |lines|
  {
    if lines == [] then f else ReadKeyFile(Digest(f, lines[0]), lines[1..])
  }

  lemma DigestsGroup(f: KeyFile, group: string)
    ensures Digest(f, GroupLine(group)) == f.(group := group)
  {
    assert GroupLine(group)[1..|group| + 1] == group;
  }

  lemma DigestsField(f: KeyFile, name: string, value: string)
    requires name != "" && name[0] != '[' && Without(name, '=')
    ensures Digest(f, FieldLine(name, value)) == f.(values := f.values[Field(f.group, name) := value])
  {
    var line := FieldLine(name, value);
    FindAt(line, '=', |name|);
    assert line[..|name|] == name && line[|name| + 1..] == value;
  }

  lemma DigestsBlank(f: KeyFile)
    ensures Digest(f, "") == f
  {}

  lemma {:induction false} ReadAppend(f: KeyFile, a: seq<string>, b: seq<string>)
    ensures ReadKeyFile(f, a + b) == ReadKeyFile(ReadKeyFile(f, a), b)
    decreases |a|
  {
    hide Digest;
    if a == [] {
      assert a + b == b;
    } else {
      assert (a + b)[1..] == a[1..] + b;
      ReadAppend(Digest(f, a[0]), a[1..], b);
    }
  }

  lemma ReadOneLine(f: KeyFile, line: string, rest: seq<string>)
    ensures ReadKeyFile(f, [line] + rest) == ReadKeyFile(Digest(f, line), rest)
  {
    hide Digest;
    assert ([line] + rest)[1..] == rest;
  }

  /** What an entry adds to the file. */
  function WithEntry(f: KeyFile, key: string, caption: string, echo: bool, ask: bool): KeyFile {
    KeyFile(key, f.values[Field(key, "Value") := EscapedText("")][Field(key, "Label") := EscapedText(caption)]
                 [Field(key, "IsSecret") := "true"][Field(key, "ShouldAsk") := ShowBool(ask)]
                 [Field(key, "ForceEcho") := ShowBool(echo)])
  }

  lemma EntryIsRead(f: KeyFile, key: string, caption: string, echo: bool, ask: bool)
    ensures ReadKeyFile(f, EntryBlock(key, caption, echo, ask)) == WithEntry(f, key, caption, echo, ask)
  {
    hide Digest, ReadKeyFile, FieldLine, GroupLine, EscapedText, ShowBool;
    var v, l, a, e := EscapedText(""), EscapedText(caption), ShowBool(ask), ShowBool(echo);
    var g := f.(group := key);
    var g1 := g.(values := g.values[Field(key, "Value") := v]);
    var g2 := g1.(values := g1.values[Field(key, "Label") := l]);
    var g3 := g2.(values := g2.values[Field(key, "IsSecret") := "true"]);
    var g4 := g3.(values := g3.values[Field(key, "ShouldAsk") := a]);
    var s4 := [FieldLine("ShouldAsk", a), FieldLine("ForceEcho", e)];
    var s3 := [FieldLine("IsSecret", "true")] + s4;
    var s2 := [FieldLine("Label", l)] + s3;
    var s1 := [FieldLine("Value", v)] + s2;
    var s0 := [GroupLine(key)] + s1;
    assert EntryBlock(key, caption, echo, ask) == [""] + s0;
    ReadOneLine(f, "", s0);
    DigestsBlank(f);
    ReadOneLine(f, GroupLine(key), s1);
    DigestsGroup(f, key);
    ReadOneLine(g, FieldLine("Value", v), s2);
    DigestsField(g, "Value", v);
    ReadOneLine(g1, FieldLine("Label", l), s3);
    DigestsField(g1, "Label", l);
    ReadOneLine(g2, FieldLine("IsSecret", "true"), s4);
    DigestsField(g2, "IsSecret", "true");
    LastTwo(g3, a, e);
  }

  lemma LastTwo(f: KeyFile, a: string, e: string)
    ensures ReadKeyFile(f, [FieldLine("ShouldAsk", a), FieldLine("ForceEcho", e)])
         == f.(values := f.values[Field(f.group, "ShouldAsk") := a][Field(f.group, "ForceEcho") := e])
  {
    hide Digest, ReadKeyFile, FieldLine;
    var x, y := FieldLine("ShouldAsk", a), FieldLine("ForceEcho", e);
    var g := f.(values := f.values[Field(f.group, "ShouldAsk") := a]);
    assert [x, y] == [x] + [y] && [y] == [y] + [];
    ReadOneLine(f, x, [y]);
    DigestsField(f, "ShouldAsk", a);
    ReadOneLine(g, y, []);
    DigestsField(g, "ForceEcho", e);
    NothingLeft(Digest(g, y));
  }

  lemma NothingLeft(f: KeyFile)
    ensures ReadKeyFile(f, []) == f
  {}

  // ---------- What the agent is told to ask ----------

  predicate Asks(f: KeyFile, key: string) {
    var field := Field(key, "ShouldAsk");
    field in f.values && f.values[field] == "true"
  }

  lemma AsksAfterEntry(f: KeyFile, key: string, caption: string, echo: bool, ask: bool, k: string)
    ensures Asks(WithEntry(f, key, caption, echo, ask), k) <==> if k == key then ask else Asks(f, k)
  {
    hide EscapedText;
    assert "ShouldAsk"[0] == 'S' && "ForceEcho"[0] == 'F';
  }

  lemma DescriptionAfterEntry(f: KeyFile, key: string, caption: string, echo: bool, ask: bool)
    requires key != UI_GROUP && Field(UI_GROUP, "Description") in f.values
    ensures var d, g := Field(UI_GROUP, "Description"), WithEntry(f, key, caption, echo, ask);
            d in g.values && g.values[d] == f.values[d]
  {
    hide EscapedText;
  }

  function HeadFile(prompt: string, labels: Labels): KeyFile {
    KeyFile(UI_GROUP, map[Field(UI_GROUP, "Version") := "2", Field(UI_GROUP, "Description") := EscapedText(prompt),
                          Field(UI_GROUP, "Title") := EscapedText(labels.title)])
  }

  lemma HeadIsRead(prompt: string, labels: Labels)
    ensures ReadKeyFile(NO_FILE, HeadLines(prompt, labels)) == HeadFile(prompt, labels)
  {
    hide Digest, ReadKeyFile, FieldLine, GroupLine, EscapedText;
    var d, t := EscapedText(prompt), EscapedText(labels.title);
    var g := NO_FILE.(group := UI_GROUP);
    var g1 := g.(values := g.values[Field(UI_GROUP, "Version") := "2"]);
    var g2 := g1.(values := g1.values[Field(UI_GROUP, "Description") := d]);
    var s2 := [FieldLine("Title", t)];
    var s1 := [FieldLine("Description", d)] + s2;
    var s0 := [FieldLine("Version", "2")] + s1;
    assert HeadLines(prompt, labels) == [GroupLine(UI_GROUP)] + s0;
    ReadOneLine(NO_FILE, GroupLine(UI_GROUP), s0);
    DigestsGroup(NO_FILE, UI_GROUP);
    ReadOneLine(g, FieldLine("Version", "2"), s1);
    DigestsField(g, "Version", "2");
    ReadOneLine(g1, FieldLine("Description", d), s2);
    DigestsField(g1, "Description", d);
    assert s2 == s2 + [];
    ReadOneLine(g2, FieldLine("Title", t), []);
    DigestsField(g2, "Title", t);
    NothingLeft(Digest(g2, FieldLine("Title", t)));
  }

  function EuiFile(prompt: string, n: Needed, allow: bool, labels: Labels): KeyFile {
    var f1 := WithEntry(HeadFile(prompt, labels), PASSWORD, labels.password, false, n.password && allow);
    var f2 := WithEntry(f1, CERTPASS, labels.certpass, false, n.certpass && allow);
    var f3 := WithEntry(f2, PROXY_PASSWORD, labels.proxypass, false, n.proxypass && allow);
    WithEntry(f3, CHALLENGE, labels.challenge, n.echo, n.challenge && allow)
  }

  lemma EuiIsRead(prompt: string, n: Needed, allow: bool, labels: Labels)
    ensures ReadKeyFile(NO_FILE, EuiLines(prompt, n, allow, labels)) == EuiFile(prompt, n, allow, labels)
  {
    hide HeadLines, HeadFile, EntryBlock, WithEntry, ReadKeyFile;
    HeadIsRead(prompt, labels);
    var h := HeadLines(prompt, labels);
    var b1 := EntryBlock(PASSWORD, labels.password, false, n.password && allow);
    var b2 := EntryBlock(CERTPASS, labels.certpass, false, n.certpass && allow);
    var b3 := EntryBlock(PROXY_PASSWORD, labels.proxypass, false, n.proxypass && allow);
    var b4 := EntryBlock(CHALLENGE, labels.challenge, n.echo, n.challenge && allow);
    ReadAppend(NO_FILE, h, b1);
    ReadAppend(NO_FILE, h + b1, b2);
    ReadAppend(NO_FILE, h + b1 + b2, b3);
    ReadAppend(NO_FILE, h + b1 + b2 + b3, b4);
    var f1 := WithEntry(HeadFile(prompt, labels), PASSWORD, labels.password, false, n.password && allow);
    EntryIsRead(HeadFile(prompt, labels), PASSWORD, labels.password, false, n.password && allow);
    var f2 := WithEntry(f1, CERTPASS, labels.certpass, false, n.certpass && allow);
    EntryIsRead(f1, CERTPASS, labels.certpass, false, n.certpass && allow);
    var f3 := WithEntry(f2, PROXY_PASSWORD, labels.proxypass, false, n.proxypass && allow);
    EntryIsRead(f2, PROXY_PASSWORD, labels.proxypass, false, n.proxypass && allow);
    EntryIsRead(f3, CHALLENGE, labels.challenge, n.echo, n.challenge && allow);
  }

  lemma FourKeysDiffer()
    ensures PASSWORD != CERTPASS && PASSWORD != PROXY_PASSWORD && PASSWORD != CHALLENGE
    ensures CERTPASS != PROXY_PASSWORD && CERTPASS != CHALLENGE && PROXY_PASSWORD != CHALLENGE
    ensures UI_GROUP != PASSWORD && UI_GROUP != CERTPASS && UI_GROUP != PROXY_PASSWORD && UI_GROUP != CHALLENGE
  {
    assert PASSWORD[0] == 'p' && CERTPASS[0] == 'c' && PROXY_PASSWORD[0] == 'h' && CHALLENGE[1] == 'h';
    assert CERTPASS[1] == 'e' && CHALLENGE[0] == 'c' && UI_GROUP[0] == 'V';
  }

  lemma EuiAsks(prompt: string, n: Needed, allow: bool, labels: Labels, key: string)
    ensures Asks(EuiFile(prompt, n, allow, labels), key) <==> AsksFor(n, key) && allow
    ensures var f, d := EuiFile(prompt, n, allow, labels), Field(UI_GROUP, "Description");
            d in f.values && f.values[d] == EscapedText(prompt)
  {
    hide WithEntry, EscapedText;
    FourKeysDiffer();
    HeadAsksNothing(prompt, labels, key);
    hide HeadFile, Asks;
    var h := HeadFile(prompt, labels);
    var f1 := WithEntry(h, PASSWORD, labels.password, false, n.password && allow);
    AsksAfterEntry(h, PASSWORD, labels.password, false, n.password && allow, key);
    DescriptionAfterEntry(h, PASSWORD, labels.password, false, n.password && allow);
    var f2 := WithEntry(f1, CERTPASS, labels.certpass, false, n.certpass && allow);
    AsksAfterEntry(f1, CERTPASS, labels.certpass, false, n.certpass && allow, key);
    DescriptionAfterEntry(f1, CERTPASS, labels.certpass, false, n.certpass && allow);
    var f3 := WithEntry(f2, PROXY_PASSWORD, labels.proxypass, false, n.proxypass && allow);
    AsksAfterEntry(f2, PROXY_PASSWORD, labels.proxypass, false, n.proxypass && allow, key);
    DescriptionAfterEntry(f2, PROXY_PASSWORD, labels.proxypass, false, n.proxypass && allow);
    AsksAfterEntry(f3, CHALLENGE, labels.challenge, n.echo, n.challenge && allow, key);
    DescriptionAfterEntry(f3, CHALLENGE, labels.challenge, n.echo, n.challenge && allow);
  }

  lemma HeadAsksNothing(prompt: string, labels: Labels, key: string)
    ensures !Asks(HeadFile(prompt, labels), key)
    ensures var f, d := HeadFile(prompt, labels), Field(UI_GROUP, "Description");
            d in f.values && f.values[d] == EscapedText(prompt)
  {
    hide EscapedText;
    assert "ShouldAsk"[0] == 'S' && "Version"[0] == 'V' && "Description"[0] == 'D' && "Title"[0] == 'T';
  }

  // ---------- From the text ----------

  predicate AllUnbroken(lines: seq<string>) { forall i :: 0 <= i < |lines| ==> Unbroken(lines[i]) }

  lemma FieldIsUnbroken(name: string, value: string)
    requires Without(name, LF) && Without(name, CR) && Without(value, LF) && Without(value, CR)
    ensures Unbroken(FieldLine(name, value))
  {}

  lemma EscapedFieldIsUnbroken(name: string, v: string)
    requires Without(name, LF) && Without(name, CR)
    ensures Unbroken(FieldLine(name, EscapedText(v)))
  {
    hide EscapedText;
    EscapedIsOneLine(v);
    FieldIsUnbroken(name, EscapedText(v));
  }

  lemma EntryIsUnbrokenText(key: string, caption: string, echo: bool, ask: bool)
    requires Without(key, LF) && Without(key, CR)
    ensures AllUnbroken(EntryBlock(key, caption, echo, ask))
  {
    hide EscapedText, FieldLine, Unbroken;
    EscapedFieldIsUnbroken("Value", "");
    EscapedFieldIsUnbroken("Label", caption);
    FieldIsUnbroken("IsSecret", "true");
    FieldIsUnbroken("ShouldAsk", ShowBool(ask));
    FieldIsUnbroken("ForceEcho", ShowBool(echo));
    GroupIsUnbroken(key);
    EmptyIsUnbroken();
  }

  lemma GroupIsUnbroken(group: string)
    requires Without(group, LF) && Without(group, CR)
    ensures Unbroken(GroupLine(group))
  {}

  lemma EmptyIsUnbroken()
    ensures Unbroken("")
  {}

  lemma HeadIsUnbroken(prompt: string, labels: Labels)
    ensures AllUnbroken(HeadLines(prompt, labels))
  {
    hide EscapedText, FieldLine, Unbroken, GroupLine;
    GroupIsUnbroken(UI_GROUP);
    FieldIsUnbroken("Version", "2");
    EscapedFieldIsUnbroken("Description", prompt);
    EscapedFieldIsUnbroken("Title", labels.title);
  }

  lemma UnbrokenAppend(a: seq<string>, b: seq<string>)
    requires AllUnbroken(a) && AllUnbroken(b)
    ensures AllUnbroken(a + b)
  {
    hide Unbroken;
  }

  lemma EuiIsUnbroken(prompt: string, n: Needed, allow: bool, labels: Labels)
    ensures AllUnbroken(EuiLines(prompt, n, allow, labels))
  {
    hide HeadLines, EntryBlock, AllUnbroken;
    var h := HeadLines(prompt, labels);
    var b1 := EntryBlock(PASSWORD, labels.password, false, n.password && allow);
    var b2 := EntryBlock(CERTPASS, labels.certpass, false, n.certpass && allow);
    var b3 := EntryBlock(PROXY_PASSWORD, labels.proxypass, false, n.proxypass && allow);
    var b4 := EntryBlock(CHALLENGE, labels.challenge, n.echo, n.challenge && allow);
    HeadIsUnbroken(prompt, labels);
    EntryIsUnbrokenText(PASSWORD, labels.password, false, n.password && allow);
    EntryIsUnbrokenText(CERTPASS, labels.certpass, false, n.certpass && allow);
    EntryIsUnbrokenText(PROXY_PASSWORD, labels.proxypass, false, n.proxypass && allow);
    EntryIsUnbrokenText(CHALLENGE, labels.challenge, n.echo, n.challenge && allow);
    UnbrokenAppend(h, b1);
    UnbrokenAppend(h + b1, b2);
    UnbrokenAppend(h + b1 + b2, b3);
    UnbrokenAppend(h + b1 + b2 + b3, b4);
  }

  lemma NoSecretIsUnbroken()
    ensures AllUnbroken(NoSecretLines())
  {
    hide FieldLine, Unbroken, GroupLine;
    GroupIsUnbroken(UI_GROUP);
    GroupIsUnbroken(NO_SECRET);
    EmptyIsUnbroken();
    FieldIsUnbroken("Version", "2");
    FieldIsUnbroken("Value", "true");
    FieldIsUnbroken("Label", "");
    FieldIsUnbroken("IsSecret", "true");
    FieldIsUnbroken("ShouldAsk", "false");
    FieldIsUnbroken("ForceEcho", "false");
  }

  function NoSecretFile(): KeyFile {
    KeyFile(NO_SECRET, map[Field(UI_GROUP, "Version") := "2", Field(NO_SECRET, "Value") := "true",
                           Field(NO_SECRET, "Label") := "", Field(NO_SECRET, "IsSecret") := "true",
                           Field(NO_SECRET, "ShouldAsk") := "false", Field(NO_SECRET, "ForceEcho") := "false"])
  }

  lemma NoSecretIsRead()
    ensures ReadKeyFile(NO_FILE, NoSecretLines()) == NoSecretFile()
  {
    hide Digest, ReadKeyFile, FieldLine, GroupLine;
    var g := NO_FILE.(group := UI_GROUP);
    var g1 := g.(values := g.values[Field(UI_GROUP, "Version") := "2"]);
    var g2 := g1.(group := NO_SECRET);
    var g3 := g2.(values := g2.values[Field(NO_SECRET, "Value") := "true"]);
    var g4 := g3.(values := g3.values[Field(NO_SECRET, "Label") := ""]);
    var g5 := g4.(values := g4.values[Field(NO_SECRET, "IsSecret") := "true"]);
    var s6 := [FieldLine("ShouldAsk", "false"), FieldLine("ForceEcho", "false")];
    var s5 := [FieldLine("IsSecret", "true")] + s6;
    var s4 := [FieldLine("Label", "")] + s5;
    var s3 := [FieldLine("Value", "true")] + s4;
    var s2 := [GroupLine(NO_SECRET)] + s3;
    var s1 := [""] + s2;
    var s0 := [FieldLine("Version", "2")] + s1;
    assert NoSecretLines() == [GroupLine(UI_GROUP)] + s0;
    ReadOneLine(NO_FILE, GroupLine(UI_GROUP), s0);
    DigestsGroup(NO_FILE, UI_GROUP);
    ReadOneLine(g, FieldLine("Version", "2"), s1);
    DigestsField(g, "Version", "2");
    ReadOneLine(g1, "", s2);
    DigestsBlank(g1);
    ReadOneLine(g1, GroupLine(NO_SECRET), s3);
    DigestsGroup(g1, NO_SECRET);
    ReadOneLine(g2, FieldLine("Value", "true"), s4);
    DigestsField(g2, "Value", "true");
    ReadOneLine(g3, FieldLine("Label", ""), s5);
    DigestsField(g3, "Label", "");
    ReadOneLine(g4, FieldLine("IsSecret", "true"), s6);
    DigestsField(g4, "IsSecret", "true");
    LastTwo(g5, "false", "false");
  }

  lemma NoSecretAsksNothing(key: string)
    ensures !Asks(NoSecretFile(), key)
  {
    assert "ShouldAsk"[0] == 'S' && "false"[0] == 'f' && "true"[0] == 't';
  }

  /**
    * Read back as a key file, the dialog's output asks for a key exactly when that
    * key is needed and interaction is allowed, whatever the prompt and the captions
    * hold; and the prompt can be read back from it.
    */
  lemma OutputAsksExactly(n: Needed, allow: bool, labels: Labels)
    ensures var f := ReadKeyFile(NO_FILE, Lines(Joined(OutputLines(n, allow, labels))));
      && (forall key :: Asks(f, key) <==> AsksFor(n, key) && allow)
      && (NeedsNothing(n) ==> f == NoSecretFile())
      && (!NeedsNothing(n) ==>
            var d := Field(UI_GROUP, "Description");
            d in f.values && ReadBack(f.values[d]) == Reading(PromptText(n, labels), false))
  {
    hide Lines, Joined, ReadKeyFile, EuiLines, NoSecretLines, EuiFile, NoSecretFile, Asks, EscapedText, ReadBack,
         PromptText, Unbroken;
    if NeedsNothing(n) {
      NoSecretIsUnbroken();
      JoinedReads(NoSecretLines());
      NoSecretIsRead();
      forall key | true ensures Asks(NoSecretFile(), key) <==> AsksFor(n, key) && allow {
        NoSecretAsksNothing(key);
      }
    } else {
      var prompt := PromptText(n, labels);
      EuiIsUnbroken(prompt, n, allow, labels);
      JoinedReads(EuiLines(prompt, n, allow, labels));
      EuiIsRead(prompt, n, allow, labels);
      forall key | true ensures Asks(EuiFile(prompt, n, allow, labels), key) <==> AsksFor(n, key) && allow {
        EuiAsks(prompt, n, allow, labels, key);
      }
      EuiAsks(prompt, n, allow, labels, "");
      EscapedReadsBack(prompt);
    }
  }

  /**
    * From the plugin's hints to the agent: with interaction allowed the key file
    * asks for exactly the open slots' keys that are not user names, and without it
    * for nothing.
    */
  lemma HintedKeysAreAsked(message: string, open: seq<Slot>, allow: bool, labels: Labels)
    ensures var f := ReadKeyFile(NO_FILE, Lines(Joined(OutputLines(Heeded(Hints(message, open)), allow, labels))));
      forall key :: Asks(f, key) <==> allow && !IsUserKey(key) && HasKey(open, key)
  {
    hide Lines, Joined, ReadKeyFile, OutputLines, Heeded, Hints, Asks, AsksFor, HasKey, IsUserKey, ReadBack,
         EscapedText;
    DialogAsksExactly(message, open);
    OutputAsksExactly(Heeded(Hints(message, open)), allow, labels);
  }

  // ---------- The lines of the file, spelled out ----------

  lemma NoSecretFormat()
    ensures NoSecretLines() ==
      ["[VPN Plugin UI]", "Version=2", "", "[no-secret]", "Value=true", "Label=", "IsSecret=true", "ShouldAsk=false",
       "ForceEcho=false"]
  {
    assert GroupLine(UI_GROUP) == "[VPN Plugin UI]" && GroupLine(NO_SECRET) == "[no-secret]";
    assert FieldLine("Version", "2") == "Version=2" && FieldLine("Value", "true") == "Value=true";
    assert FieldLine("Label", "") == "Label=" && FieldLine("IsSecret", "true") == "IsSecret=true";
    assert FieldLine("ShouldAsk", "false") == "ShouldAsk=false" && FieldLine("ForceEcho", "false") == "ForceEcho=false";
  }

  lemma HeadFormat(prompt: string, labels: Labels)
    ensures HeadLines(prompt, labels) ==
      ["[VPN Plugin UI]", "Version=2", "Description=" + EscapedText(prompt), "Title=" + EscapedText(labels.title)]
  {
    hide EscapedText;
    assert GroupLine(UI_GROUP) == "[VPN Plugin UI]" && FieldLine("Version", "2") == "Version=2";
    assert forall v: string :: FieldLine("Description", v) == "Description=" + v;
    assert forall v: string :: FieldLine("Title", v) == "Title=" + v;
  }

  /** A block of the file: a secret without a value, under its key, with its caption and the two switches. */
  lemma BlockFormat(key: string, caption: string, echo: bool, ask: bool)
    ensures EntryBlock(key, caption, echo, ask) ==
      ["", "[" + key + "]", "Value=", "Label=" + EscapedText(caption), "IsSecret=true",
       if ask then "ShouldAsk=true" else "ShouldAsk=false", if echo then "ForceEcho=true" else "ForceEcho=false"]
  {
    assert EscapedText("") == "" && FieldLine("Value", "") == "Value=";
    hide EscapedText;
    assert GroupLine(key) == "[" + key + "]";
    assert FieldLine("Label", EscapedText(caption)) == "Label=" + EscapedText(caption);
    assert FieldLine("IsSecret", "true") == "IsSecret=true";
    assert FieldLine("ShouldAsk", "true") == "ShouldAsk=true" && FieldLine("ShouldAsk", "false") == "ShouldAsk=false";
    assert FieldLine("ForceEcho", "true") == "ForceEcho=true" && FieldLine("ForceEcho", "false") == "ForceEcho=false";
  }
}
