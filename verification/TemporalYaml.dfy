/**
 * The hand-written reader for the Temporal CLI's YAML file (src/config.ts:595-659).
 *
 * `Parse` follows the reader line by line, its regular expressions written out. `Render`
 * writes a table of environments the way the CLI does, and `RoundTrip` says that reading it
 * back selects one environment and yields its fields.
 */
module TemporalYaml {
  import opened Options

  datatype Config = Config(address: Option<string>, namespace_: Option<string>, apiKey: Option<string>,
                           certPath: Option<string>, keyPath: Option<string>)

  const EMPTY := Config(None, None, None, None, None)

  /** Keys the reader does not know leave the configuration alone. */
  function Assign(c: Config, key: string, value: string): Config {
    if key == "address" then c.(address := Some(value))
    else if key == "namespace" then c.(namespace_ := Some(value))
    else if key == "api-key" then c.(apiKey := Some(value))
    else if key == "tls-cert-path" then c.(certPath := Some(value))
    else if key == "tls-key-path" then c.(keyPath := Some(value))
    else c
  }

  // ---------------------------------------------------------------------------------------
  // Characters and the regular expressions
  // ---------------------------------------------------------------------------------------

  /** What JavaScript's `.` does not match. */
  predicate Terminator(c: char) {
    c == '\n' || c == '\r' || c == '\U{2028}' || c == '\U{2029}'
  }

  /** JavaScript's `\s`, which is also what `trim` removes. */
  predicate Space(c: char) {
    Terminator(c) || '\t' <= c <= '\r' || c == ' ' || c == '\U{A0}' || c == '\U{1680}'
    || '\U{2000}' <= c <= '\U{200A}' || c == '\U{202F}' || c == '\U{205F}' || c == '\U{3000}' || c == '\U{FEFF}'
  }

  predicate Visible(c: char) {
    !Terminator(c)
  }

  predicate InLine(c: char) {
    c != '\n'
  }

  predicate NameChar(c: char) {
    'a' <= c <= 'z' || 'A' <= c <= 'Z' || '0' <= c <= '9' || c == '_' || c == '.' || c == ':' || c == '-'
  }

  predicate KeyChar(c: char) {
    'a' <= c <= 'z' || c == '-'
  }

  predicate Quote(c: char) {
    c == '\'' || c == '"'
  }

  /** How many characters at the front satisfy `p`. */
  function Run(s: string, p: char -> bool): (n: nat)
    ensures n <= |s|
    ensures forall k | 0 <= k < n :: p(s[k])
    ensures n < |s| ==> !p(s[n])
  {
    if s == "" || !p(s[0]) then 0 else 1 + Run(s[1..], p)
  }

  function TrimEnd(s: string): (t: string)
    ensures t <= s
    ensures t != "" ==> !Space(t[|t| - 1])
  {
    if s == "" || !Space(s[|s| - 1]) then s else TrimEnd(s[..|s| - 1])
  }

  function Trim(s: string): string {
    TrimEnd(s[Run(s, Space)..])
  }

  /** What `\s*(.+)` captures from `s`, trimmed; `None` when it does not match. */
  function Capture(s: string): Option<string> {
    var n := Run(s, Space);
    if n < |s| then Some(Trim(s[n..n + Run(s[n..], Visible)]))
    else if exists k | 0 <= k < |s| :: Visible(s[k]) then Some("")
    else None
  }

  const ACTIVE := "active-env:"

  predicate OpensActive(line: string) {
    |line| >= |ACTIVE| && line[..|ACTIVE|] == ACTIVE
  }

  function MatchActive(line: string): Option<string> {
    if OpensActive(line) then Capture(line[|ACTIVE|..]) else None
  }

  /** The name on an environment line, of a line without trailing space. */
  function MatchName(stripped: string): Option<string> {
    if |stripped| > 3 && stripped[0] == ' ' && stripped[1] == ' ' && stripped[|stripped| - 1] == ':'
       && forall k | 2 <= k < |stripped| - 1 :: NameChar(stripped[k])
    then Some(stripped[2..|stripped| - 1])
    else None
  }

  /** Key and value on a field line, the value trimmed. */
  function MatchField(stripped: string): Option<(string, string)> {
    var n := Run(stripped, Space);
    var rest := stripped[n..];
    var k := Run(rest, KeyChar);
    if n >= 4 && 0 < k < |rest| && rest[k] == ':' && Capture(rest[k + 1..]).Some?
    then Some((rest[..k], Capture(rest[k + 1..]).value))
    else None
  }

  /** One quote goes from the front and one from the back. */
  function Unquote(s: string): string {
    var t := if s != "" && Quote(s[0]) then s[1..] else s;
    if t != "" && Quote(t[|t| - 1]) then t[..|t| - 1] else t
  }

  // ---------------------------------------------------------------------------------------
  // The reader
  // ---------------------------------------------------------------------------------------

  /** CRLF becomes LF and a tab two spaces. */
  function Normalize(s: string): string {
    if s == "" then ""
    else if s[0] == '\r' && |s| > 1 && s[1] == '\n' then "\n" + Normalize(s[2..])
    else (if s[0] == '\t' then "  " else [s[0]]) + Normalize(s[1..])
  }

  function Split(s: string): (lines: seq<string>)
    ensures lines != []
  {
    var n := Run(s, InLine);
    if n == |s| then [s] else [s[..n]] + Split(s[n + 1..])
  }

  function ActiveEnv(lines: seq<string>): string {
    if lines == [] then ""
    else if MatchActive(lines[0]).Some? then MatchActive(lines[0]).value
    else ActiveEnv(lines[1..])
  }

  datatype State = State(inEnv: bool, target: string, inTarget: bool, config: Config)

  /** A line that ends the environment block. */
  predicate Ends(st: State, line: string) {
    var stripped := TrimEnd(line);
    st.inEnv && stripped != "env:" && stripped != "" && stripped[0] != ' '
  }

  function Advance(st: State, line: string): State {
    var stripped := TrimEnd(line);
    if stripped == "env:" then st.(inEnv := true)
    else if !st.inEnv then st
    else if MatchName(stripped).Some? then
      var name := MatchName(stripped).value;
      var target := if st.target == "" then name else st.target;
      st.(target := target, inTarget := name == target)
    else if !st.inTarget || MatchField(stripped).None? then st
    else
      var (key, value) := MatchField(stripped).value;
      st.(config := Assign(st.config, key, Unquote(value)))
  }

  function Read(lines: seq<string>, st: State): Config {
    if lines == [] || Ends(st, lines[0]) then st.config else Read(lines[1..], Advance(st, lines[0]))
  }

  function Parse(content: string): Config {
    var lines := Split(Normalize(content));
    Read(lines, State(false, ActiveEnv(lines), false, EMPTY))
  }

  method FindActiveEnv(lines: seq<string>) returns (activeEnv: string)
    ensures activeEnv == ActiveEnv(lines)
  {
    hide MatchActive;
    activeEnv := "";
    var i := 0;
    while i < |lines|
      invariant 0 <= i <= |lines| && activeEnv == ""
      invariant ActiveEnv(lines) == ActiveEnv(lines[i..])
    {
      var m := MatchActive(lines[i]);
      if m.Some? { return m.value; }
      i := i + 1;
    }
  }

  method ParseTemporalYaml(content: string) returns (result: Config)
    ensures result == Parse(content)
  {
    hide MatchName, MatchField, Assign, Unquote;
    var lines := Split(Normalize(content));
    var target := FindActiveEnv(lines);
    var inEnv, inTarget := false, false;
    result := EMPTY;
    var i := 0;
    while i < |lines|
      invariant 0 <= i <= |lines|
      invariant Read(lines[i..], State(inEnv, target, inTarget, result)) == Parse(content)
    {
      ghost var st := State(inEnv, target, inTarget, result);
      var stripped := TrimEnd(lines[i]);
      if stripped == "env:" {
        inEnv := true;
      } else if inEnv {
        if stripped != "" && stripped[0] != ' ' { break; }
        var name := MatchName(stripped);
        if name.Some? {
          if target == "" { target := name.value; }
          inTarget := name.value == target;
        } else if inTarget {
          var field := MatchField(stripped);
          if field.Some? {
            result := Assign(result, field.value.0, Unquote(field.value.1));
          }
        }
      }
      assert State(inEnv, target, inTarget, result) == Advance(st, lines[i]);
      i := i + 1;
    }
  }

  // ---------------------------------------------------------------------------------------
  // Tables
  // ---------------------------------------------------------------------------------------

  /** The quote before a value and the one after it, each of either kind or missing. */
  datatype Style = Style(front: string, back: string)

  datatype Field = Field(key: string, value: string, style: Style)

  datatype Env = Env(name: string, fields: seq<Field>)

  datatype Table = Table(preamble: seq<string>, active: Option<string>, envs: seq<Env>, trailer: seq<string>)

  /** Text that stays on one line and is not touched by normalisation. */
  predicate OneLine(s: string) {
    forall c <- s :: !Terminator(c) && c != '\t'
  }

  predicate Trimmed(s: string) {
    s != "" && !Space(s[0]) && !Space(s[|s| - 1])
  }

  predicate FieldOk(f: Field) {
    && f.key != "" && (forall c <- f.key :: 'a' <= c <= 'z' || c == '-')
    && OneLine(f.value)
    && f.style.front in {"", "'", "\""} && f.style.back in {"", "'", "\""}
    && (f.style.front == "" ==> f.value != "" && !Space(f.value[0]) && f.value[0] !in "'\"")
    && (f.style.back == "" ==> f.value != "" && !Space(f.value[|f.value| - 1]) && f.value[|f.value| - 1] !in "'\"")
  }

  predicate EnvOk(e: Env) {
    && e.name != ""
    && (forall c <- e.name ::
          'a' <= c <= 'z' || 'A' <= c <= 'Z' || '0' <= c <= '9' || c == '_' || c == '.' || c == ':' || c == '-')
    && forall f <- e.fields :: FieldOk(f)
  }

  /** A line before or after the block that neither opens it nor names an environment. */
  predicate Aside(line: string) {
    OneLine(line) && TrimEnd(line) != "env:" && !OpensActive(line)
  }

  predicate TableOk(t: Table) {
    && (forall line <- t.preamble :: Aside(line))
    && (t.active.Some? ==> OneLine(t.active.value) && Trimmed(t.active.value))
    && (forall e <- t.envs :: EnvOk(e))
    && (forall line <- t.trailer :: Aside(line))
    && (t.trailer != [] ==> TrimEnd(t.trailer[0]) != "" && t.trailer[0][0] != ' ')
  }

  function Shown(f: Field): string {
    f.style.front + f.value + f.style.back
  }

  function FieldLine(f: Field, indent: string): string {
    indent + indent + f.key + ": " + Shown(f)
  }

  function NameLine(e: Env, indent: string): string {
    indent + e.name + ":"
  }

  function FieldLines(fields: seq<Field>, indent: string): seq<string> {
    if fields == [] then []
    else [FieldLine(fields[0], indent)] + FieldLines(fields[1..], indent)
  }

  function EnvLines(envs: seq<Env>, indent: string): seq<string> {
    if envs == [] then []
    else [NameLine(envs[0], indent)] + FieldLines(envs[0].fields, indent) + EnvLines(envs[1..], indent)
  }

  function ActiveLines(t: Table): seq<string> {
    if t.active.Some? then ["active-env: " + t.active.value] else []
  }

  function Lines(t: Table, indent: string): seq<string> {
    t.preamble + ActiveLines(t) + ["env:"] + EnvLines(t.envs, indent) + t.trailer
  }

  function Joined(lines: seq<string>, eol: string): string {
    if lines == [] then "" else lines[0] + eol + Joined(lines[1..], eol)
  }

  function Render(t: Table, indent: string, eol: string): string {
    Joined(Lines(t, indent), eol)
  }

  function WithFields(c: Config, fields: seq<Field>): Config
    decreases fields
  {
    if fields == [] then c else WithFields(Assign(c, fields[0].key, fields[0].value), fields[1..])
  }

  /** The fields of every environment called `target`, later ones winning. */
  function WithEnvs(c: Config, envs: seq<Env>, target: string): Config
    decreases envs
  {
    if envs == [] then c
    else WithEnvs(if envs[0].name == target then WithFields(c, envs[0].fields) else c, envs[1..], target)
  }

  /** The environment a table selects: the active one, or else the first. */
  function Selected(t: Table): string {
    if t.active.Some? then t.active.value else if t.envs != [] then t.envs[0].name else ""
  }

  // ---------------------------------------------------------------------------------------
  // One line
  // ---------------------------------------------------------------------------------------

  lemma {:induction false} RunIs(a: string, b: string, p: char -> bool)
    requires forall c <- a :: p(c)
    requires b == "" || !p(b[0])
    ensures Run(a + b, p) == |a|
  {
    if a == "" {
      assert a + b == b;
    } else {
      assert a[0] in a;
      RunIs(a[1..], b, p);
      assert (a + b)[1..] == a[1..] + b;
    }
  }

  lemma TrimmedStays(s: string)
    requires s != "" && !Space(s[0]) && !Space(s[|s| - 1])
    ensures Trim(s) == s
  {
    RunIs("", s, Space);
    assert "" + s == s && s[0..] == s;
  }

  /** What is left of a shown value when a quote is taken from each end. */
  lemma ShownIsPlain(f: Field)
    requires FieldOk(f)
    ensures OneLine(Shown(f)) && Trimmed(Shown(f)) && Unquote(Shown(f)) == f.value
  {
    hide Shown, OneLine, Trimmed, Unquote;
    ShownIsOneLine(f);
    ShownEnds(f);
    ShownIsUnquoted(f);
  }

  lemma ShownIsUnquoted(f: Field)
    requires FieldOk(f)
    ensures Unquote(Shown(f)) == f.value
  {
    hide *;
    StyleIs(f);
    var front, v, back := f.style.front, f.value, f.style.back;
    if front == "" { assert (v + back)[0] == v[0]; }
    FrontUnquoted(front, v + back);
    BackUnquoted(v, back);
    ShownIs(f);
    UnquoteIs(Shown(f), v + back, v);
  }

  lemma StyleIs(f: Field)
    requires FieldOk(f)
    ensures var front, v, back := f.style.front, f.value, f.style.back;
      && (front == "" || front == "'" || front == "\"") && (back == "" || back == "'" || back == "\"")
      && (front == "" ==> v != "" && v[0] !in "'\"") && (back == "" ==> v != "" && v[|v| - 1] !in "'\"")
  {
    hide OneLine, Space;
  }

  lemma ShownIs(f: Field)
    ensures Shown(f) == f.style.front + (f.value + f.style.back)
  {
  }

  lemma UnquoteIs(s: string, t: string, v: string)
    requires (if s != "" && Quote(s[0]) then s[1..] else s) == t
    requires (if t != "" && Quote(t[|t| - 1]) then t[..|t| - 1] else t) == v
    ensures Unquote(s) == v
  {
  }

  lemma FrontUnquoted(front: string, rest: string)
    requires front == "" || front == "'" || front == "\""
    requires front == "" ==> rest != "" && rest[0] !in "'\""
    ensures var s := front + rest; (if s != "" && Quote(s[0]) then s[1..] else s) == rest
  {
    if front == "" {
      assert front + rest == rest;
    } else {
      assert (front + rest)[1..] == rest;
    }
  }

  lemma QuotesAreSolid()
    ensures !Space('\'') && !Space('"') && !Terminator('\'') && !Terminator('"')
  {
  }

  lemma ShownIsOneLine(f: Field)
    requires FieldOk(f)
    ensures OneLine(Shown(f))
  {
    hide Space, Terminator;
    QuotesAreSolid();
    var s := Shown(f);
    forall c | c in s ensures c in f.style.front || c in f.value || c in f.style.back {
    }
  }

  lemma ShownEnds(f: Field)
    requires FieldOk(f)
    ensures Trimmed(Shown(f))
  {
    hide Space, Terminator, OneLine;
    QuotesAreSolid();
  }

  lemma BackUnquoted(v: string, back: string)
    requires back == "" || back == "'" || back == "\""
    requires back == "" ==> v != "" && v[|v| - 1] !in "'\""
    ensures var t := v + back; (if t != "" && Quote(t[|t| - 1]) then t[..|t| - 1] else t) == v
  {
    if back == "" {
      assert v + back == v;
    } else {
      assert (v + back)[..|v|] == v;
    }
  }

  lemma CaptureShown(s: string)
    requires OneLine(s) && Trimmed(s)
    ensures Capture(" " + s) == Some(s)
  {
    RunIs(" ", s, Space);
    assert (" " + s)[1..] == s;
    RunIs(s, "", Visible);
    assert s + "" == s && s[..|s|] == s;
    assert (" " + s)[1..1 + |s|] == s;
    TrimmedStays(s);
  }

  lemma AfterColon(key: string, shown: string)
    ensures var rest := key + (": " + shown);
      rest[..|key|] == key && rest[|key|] == ':' && rest[|key| + 1..] == " " + shown
  {
    var rest := key + (": " + shown);
    assert rest == (key + ":") + (" " + shown);
  }

  lemma FieldIsMatched(key: string, shown: string)
    requires key != "" && (forall c <- key :: KeyChar(c))
    requires OneLine(shown) && Trimmed(shown)
    ensures MatchField("    " + (key + (": " + shown))) == Some((key, shown))
  {
    hide Capture, Run, OneLine, Trimmed;
    var rest := key + (": " + shown);
    assert key[0] in key && rest[0] == key[0];
    RunIs("    ", rest, Space);
    assert ("    " + rest)[4..] == rest;
    RunIs(key, ": " + shown, KeyChar);
    AfterColon(key, shown);
    CaptureShown(shown);
  }

  lemma FieldLineReads(f: Field)
    requires FieldOk(f)
    ensures var line := FieldLine(f, "  ");
      TrimEnd(line) == line && |line| > 4 && line[0] == ' ' && MatchName(line).None?
      && MatchField(line) == Some((f.key, Shown(f)))
  {
    hide MatchField, Shown;
    var line, shown := FieldLine(f, "  "), Shown(f);
    ShownIsPlain(f);
    FieldIsMatched(f.key, shown);
    assert line == "    " + (f.key + (": " + shown));
    assert line[|line| - 1] == shown[|shown| - 1];
    assert line[2] == ' ';
  }

  lemma NameLineReads(e: Env)
    requires EnvOk(e)
    ensures var line := NameLine(e, "  ");
      TrimEnd(line) == line && |line| > 3 && line[0] == ' ' && MatchName(line) == Some(e.name)
  {
    var line := NameLine(e, "  ");
    assert line[2..|line| - 1] == e.name;
    forall k | 2 <= k < |line| - 1 ensures NameChar(line[k]) {
      assert line[k] == e.name[k - 2] && e.name[k - 2] in e.name;
    }
  }

  // ---------------------------------------------------------------------------------------
  // The lines of a table
  // ---------------------------------------------------------------------------------------

  lemma {:induction false} ReadFields(fields: seq<Field>, rest: seq<string>, st: State)
    requires st.inEnv && forall f <- fields :: FieldOk(f)
    ensures Read(FieldLines(fields, "  ") + rest, st)
      == Read(rest, if st.inTarget then st.(config := WithFields(st.config, fields)) else st)
    decreases fields
  {
    hide FieldLine, MatchName, MatchField, Assign, TrimEnd, Unquote;
    var lines := FieldLines(fields, "  ");
    if fields == [] {
      assert lines + rest == rest;
    } else {
      var f := fields[0];
      FieldLineReads(f);
      ShownIsPlain(f);
      var next := if st.inTarget then st.(config := Assign(st.config, f.key, f.value)) else st;
      assert Advance(st, FieldLine(f, "  ")) == next;
      assert (lines + rest)[0] == FieldLine(f, "  ");
      assert (lines + rest)[1..] == FieldLines(fields[1..], "  ") + rest;
      ReadFields(fields[1..], rest, next);
    }
  }

  /** Reading stops at `rest`, wherever in the block it is met. */
  ghost predicate Closes(rest: seq<string>) {
    forall st: State :: st.inEnv ==> Read(rest, st) == st.config
  }

  /** What one environment does to the reader. */
  function AfterEnv(st: State, e: Env): State {
    var target := if st.target == "" then e.name else st.target;
    var named := st.(target := target, inTarget := e.name == target);
    if named.inTarget then named.(config := WithFields(named.config, e.fields)) else named
  }

  lemma ReadEnv(e: Env, rest: seq<string>, st: State)
    requires st.inEnv && EnvOk(e)
    ensures Read([NameLine(e, "  ")] + (FieldLines(e.fields, "  ") + rest), st) == Read(rest, AfterEnv(st, e))
  {
    hide NameLine, MatchName, MatchField, Assign, TrimEnd, Unquote, WithFields;
    var lines := [NameLine(e, "  ")] + (FieldLines(e.fields, "  ") + rest);
    NameLineReads(e);
    var target := if st.target == "" then e.name else st.target;
    var named := st.(target := target, inTarget := e.name == target);
    assert lines[0] == NameLine(e, "  ") && lines[1..] == FieldLines(e.fields, "  ") + rest;
    assert Advance(st, lines[0]) == named;
    ReadFields(e.fields, rest, named);
  }

  lemma {:induction false} ReadEnvs(envs: seq<Env>, rest: seq<string>, st: State)
    requires st.inEnv && (forall e <- envs :: EnvOk(e)) && Closes(rest)
    ensures Read(EnvLines(envs, "  ") + rest, st)
      == WithEnvs(st.config, envs, if st.target != "" then st.target else if envs != [] then envs[0].name else "")
    decreases envs
  {
    if envs == [] {
      assert EnvLines(envs, "  ") + rest == rest;
    } else {
      var e := envs[0];
      assert e in envs && e.name != "";
      hide NameLine, Read, WithFields, EnvOk, Closes, FieldLines;
      var after := EnvLines(envs[1..], "  ");
      assert EnvLines(envs, "  ") + rest == [NameLine(e, "  ")] + (FieldLines(e.fields, "  ") + (after + rest));
      ReadEnv(e, after + rest, st);
      ReadEnvs(envs[1..], rest, AfterEnv(st, e));
    }
  }

  lemma {:induction false} ReadAsides(lines: seq<string>, rest: seq<string>, st: State)
    requires !st.inEnv && forall line <- lines :: TrimEnd(line) != "env:"
    ensures Read(lines + rest, st) == Read(rest, st)
  {
    if lines == [] {
      assert lines + rest == rest;
    } else {
      assert lines[0] in lines;
      ReadAsides(lines[1..], rest, st);
      assert (lines + rest)[1..] == lines[1..] + rest;
    }
  }

  lemma TrailerCloses(trailer: seq<string>)
    requires forall line <- trailer :: Aside(line)
    requires trailer != [] ==> TrimEnd(trailer[0]) != "" && trailer[0][0] != ' '
    ensures Closes(trailer + [""])
  {
    forall st: State | st.inEnv ensures Read(trailer + [""], st) == st.config {
      if trailer == [] {
        assert trailer + [""] == [""];
        assert Advance(st, "") == st by {
          assert Run("", Space) == 0;
        }
        assert [""][1..] == [];
      } else {
        assert trailer[0] in trailer;
        assert Ends(st, (trailer + [""])[0]);
      }
    }
  }

  lemma {:induction false} NotActive(lines: seq<string>, rest: seq<string>)
    requires forall line <- lines :: !OpensActive(line)
    ensures ActiveEnv(lines + rest) == ActiveEnv(rest)
  {
    hide OpensActive, Capture;
    if lines == [] {
      assert lines + rest == rest;
    } else {
      assert lines[0] in lines;
      NotActive(lines[1..], rest);
      assert (lines + rest)[1..] == lines[1..] + rest;
    }
  }

  lemma {:induction false} BlockIsIndented(envs: seq<Env>)
    ensures forall line <- EnvLines(envs, "  ") :: line != "" && line[0] == ' '
  {
    if envs != [] {
      BlockIsIndented(envs[1..]);
      FieldsAreIndented(envs[0].fields);
    }
  }

  lemma {:induction false} FieldsAreIndented(fields: seq<Field>)
    ensures forall line <- FieldLines(fields, "  ") :: line != "" && line[0] == ' '
  {
    if fields != [] {
      FieldsAreIndented(fields[1..]);
    }
  }

  lemma ActiveLine(name: string)
    requires OneLine(name) && Trimmed(name)
    ensures var line := "active-env: " + name;
      MatchActive(line) == Some(name) && TrimEnd(line) != "env:"
  {
    hide Capture, OneLine, Run;
    var line := "active-env: " + name;
    assert line == ACTIVE + (" " + name);
    assert line[|ACTIVE|..] == " " + name && line[..|ACTIVE|] == ACTIVE;
    CaptureShown(name);
    assert line[|line| - 1] == name[|name| - 1];
    assert TrimEnd(line) == line;
    assert line[0] == 'a';
  }

  lemma OpensWithA(line: string)
    ensures OpensActive(line) ==> line[0] == 'a'
  {
    if OpensActive(line) {
      assert line[..|ACTIVE|][0] == line[0];
    }
  }

  lemma BlockIsNotActive(t: Table)
    requires TableOk(t)
    ensures forall line <- ["env:"] + EnvLines(t.envs, "  ") + t.trailer + [""] :: !OpensActive(line)
  {
    BlockIsIndented(t.envs);
    hide TrimEnd, EnvOk, EnvLines;
    assert "env:"[0] == 'e';
    forall line | line in ["env:"] + EnvLines(t.envs, "  ") + t.trailer + [""] ensures !OpensActive(line) {
      OpensWithA(line);
    }
  }

  lemma FrontIsAside(t: Table)
    requires TableOk(t)
    ensures forall line <- t.preamble + ActiveLines(t) :: TrimEnd(line) != "env:"
  {
    if t.active.Some? {
      ActiveLine(t.active.value);
    }
    hide TrimEnd, EnvOk;
  }

  lemma LinesAre(t: Table)
    ensures Lines(t, "  ") + [""]
      == (t.preamble + ActiveLines(t)) + (["env:"] + (EnvLines(t.envs, "  ") + (t.trailer + [""])))
    ensures Lines(t, "  ") + [""] ==
      t.preamble + (ActiveLines(t) + (["env:"] + EnvLines(t.envs, "  ") + t.trailer + [""]))
  {
    hide EnvLines, ActiveLines;
  }

  lemma ActiveOf(t: Table)
    requires TableOk(t)
    ensures ActiveEnv(Lines(t, "  ") + [""]) == t.active.GetOr("")
  {
    hide *;
    BlockIsNotActive(t);
    PreambleIsNotActive(t);
    var block := ["env:"] + EnvLines(t.envs, "  ") + t.trailer + [""];
    LinesAre(t);
    NotActive(t.preamble, ActiveLines(t) + block);
    NotActive(block, []);
    assert block + [] == block;
    ActiveFirst(t.active, ActiveLines(t), block);
  }

  lemma PreambleIsNotActive(t: Table)
    requires TableOk(t)
    ensures forall line <- t.preamble :: !OpensActive(line)
    ensures ActiveLines(t) == if t.active.Some? then ["active-env: " + t.active.value] else []
    ensures t.active.Some? ==> MatchActive("active-env: " + t.active.value) == t.active
  {
    hide TrimEnd, EnvOk, OpensActive;
    if t.active.Some? {
      ActiveLine(t.active.value);
    }
  }

  lemma ActiveFirst(active: Option<string>, lines: seq<string>, block: seq<string>)
    requires lines == if active.Some? then ["active-env: " + active.value] else []
    requires active.Some? ==> MatchActive("active-env: " + active.value) == active
    requires ActiveEnv(block) == ActiveEnv([])
    ensures ActiveEnv(lines + block) == active.GetOr("")
  {
    hide MatchActive;
    if active.Some? {
      assert (lines + block)[0] == lines[0];
    } else {
      assert lines + block == block;
    }
  }

  lemma ReadOpening(rest: seq<string>, st: State)
    requires !st.inEnv
    ensures Read(["env:"] + rest, st) == Read(rest, st.(inEnv := true))
  {
    assert TrimEnd("env:") == "env:";
    assert (["env:"] + rest)[1..] == rest;
  }

  lemma ReadTable(t: Table)
    requires TableOk(t)
    ensures Read(Lines(t, "  ") + [""], State(false, t.active.GetOr(""), false, EMPTY)) ==
      WithEnvs(EMPTY, t.envs, Selected(t))
  {
    TrailerCloses(t.trailer);
    FrontIsAside(t);
    hide Read, Lines, EnvLines, WithEnvs, Closes, TrimEnd, ActiveLines, Aside, EnvOk;
    var st := State(false, t.active.GetOr(""), false, EMPTY);
    var rest := t.trailer + [""];
    LinesAre(t);
    ReadAsides(t.preamble + ActiveLines(t), ["env:"] + (EnvLines(t.envs, "  ") + rest), st);
    ReadOpening(EnvLines(t.envs, "  ") + rest, st);
    ReadEnvs(t.envs, rest, st.(inEnv := true));
  }

  // ---------------------------------------------------------------------------------------
  // Line ends and tabs
  // ---------------------------------------------------------------------------------------

  /** Normalisation turns `raw` into `line`, whatever comes next. */
  ghost predicate Normal(raw: string, line: string) {
    forall rest: string :: Normalize(raw + rest) == line + Normalize(rest)
  }

  lemma {:induction false} NormalPlain(s: string, rest: string)
    requires OneLine(s)
    ensures Normalize(s + rest) == s + Normalize(rest)
  {
    if s == "" {
      assert s + rest == rest;
    } else {
      assert s[0] in s;
      NormalPlain(s[1..], rest);
      assert (s + rest)[1..] == s[1..] + rest;
    }
  }

  lemma NormalLine(s: string)
    requires OneLine(s)
    ensures Normal(s, s)
  {
    forall rest: string ensures Normalize(s + rest) == s + Normalize(rest) {
      NormalPlain(s, rest);
    }
  }

  lemma NormalJoin(a: string, lineA: string, b: string, lineB: string)
    requires Normal(a, lineA) && Normal(b, lineB)
    ensures Normal(a + b, lineA + lineB)
  {
    hide Normalize;
    forall rest: string ensures Normalize(a + b + rest) == lineA + lineB + Normalize(rest) {
      assert a + b + rest == a + (b + rest);
      assert Normalize(a + (b + rest)) == lineA + Normalize(b + rest);
      assert lineA + (lineB + Normalize(rest)) == lineA + lineB + Normalize(rest);
    }
  }

  predicate Indent(s: string) {
    s == "  " || s == "\t"
  }

  predicate LineEnd(s: string) {
    s == "\n" || s == "\r\n"
  }

  lemma NormalIndent(indent: string)
    requires Indent(indent)
    ensures Normal(indent, "  ")
  {
    if indent == "\t" {
      forall rest: string ensures Normalize(indent + rest) == "  " + Normalize(rest) {
        assert (indent + rest)[1..] == rest;
      }
    } else {
      NormalLine("  ");
    }
  }

  lemma NormalEnd(eol: string)
    requires LineEnd(eol)
    ensures Normal(eol, "\n")
  {
    forall rest: string ensures Normalize(eol + rest) == "\n" + Normalize(rest) {
      assert (eol + rest)[|eol|..] == rest;
    }
  }

  ghost predicate AllNormal(raw: seq<string>, lines: seq<string>) {
    |raw| == |lines| && forall i | 0 <= i < |raw| :: Normal(raw[i], lines[i]) && OneLine(lines[i])
  }

  lemma OneLineJoin(a: string, b: string)
    requires OneLine(a) && OneLine(b)
    ensures OneLine(a + b)
  {
    forall c | c in a + b ensures !Terminator(c) && c != '\t' {
      assert c in a || c in b;
    }
  }

  lemma FieldLineIs(f: Field, indent: string)
    ensures FieldLine(f, indent) == indent + indent + (f.key + ": " + Shown(f))
  {
  }

  lemma NameLineIs(e: Env, indent: string)
    ensures NameLine(e, indent) == indent + (e.name + ":")
  {
  }

  lemma PiecesAreOneLine(f: Field)
    requires FieldOk(f)
    ensures OneLine(f.key) && OneLine(": ") && OneLine(Shown(f)) && OneLine("  ")
  {
    ShownIsPlain(f);
  }

  lemma NameIsOneLine(e: Env)
    requires EnvOk(e)
    ensures OneLine(e.name) && OneLine(":") && OneLine("  ")
  {
  }

  lemma NormalField(f: Field, indent: string)
    requires FieldOk(f) && Indent(indent)
    ensures Normal(FieldLine(f, indent), FieldLine(f, "  ")) && OneLine(FieldLine(f, "  "))
  {
    hide *;
    var text := f.key + ": " + Shown(f);
    PiecesAreOneLine(f);
    OneLineJoin(f.key, ": ");
    OneLineJoin(f.key + ": ", Shown(f));
    OneLineJoin("  ", "  ");
    OneLineJoin("  " + "  ", text);
    NormalIndent(indent);
    NormalJoin(indent, "  ", indent, "  ");
    NormalLine(text);
    NormalJoin(indent + indent, "  " + "  ", text, text);
    FieldLineIs(f, indent);
    FieldLineIs(f, "  ");
  }

  lemma NormalName(e: Env, indent: string)
    requires EnvOk(e) && Indent(indent)
    ensures Normal(NameLine(e, indent), NameLine(e, "  ")) && OneLine(NameLine(e, "  "))
  {
    hide *;
    var text := e.name + ":";
    NameIsOneLine(e);
    OneLineJoin(e.name, ":");
    OneLineJoin("  ", text);
    NormalIndent(indent);
    NormalLine(text);
    NormalJoin(indent, "  ", text, text);
    NameLineIs(e, indent);
    NameLineIs(e, "  ");
  }

  lemma {:induction false} NormalFields(fields: seq<Field>, indent: string)
    requires (forall f <- fields :: FieldOk(f)) && Indent(indent)
    ensures AllNormal(FieldLines(fields, indent), FieldLines(fields, "  "))
  {
    if fields != [] {
      NormalField(fields[0], indent);
      NormalFields(fields[1..], indent);
      hide Normal, OneLine, FieldLine;
      AllNormalCons(FieldLine(fields[0], indent), FieldLine(fields[0], "  "),
                    FieldLines(fields[1..], indent), FieldLines(fields[1..], "  "));
    }
  }

  lemma AllNormalCons(raw: string, line: string, raws: seq<string>, lines: seq<string>)
    requires Normal(raw, line) && OneLine(line) && AllNormal(raws, lines)
    ensures AllNormal([raw] + raws, [line] + lines)
  {
    hide Normal, OneLine;
  }

  lemma AllNormalJoin(rawsA: seq<string>, linesA: seq<string>, rawsB: seq<string>, linesB: seq<string>)
    requires AllNormal(rawsA, linesA) && AllNormal(rawsB, linesB)
    ensures AllNormal(rawsA + rawsB, linesA + linesB)
  {
    hide Normal, OneLine;
  }

  lemma EnvFields(e: Env)
    requires EnvOk(e)
    ensures forall f <- e.fields :: FieldOk(f)
  {
  }

  lemma EnvLinesAre(envs: seq<Env>, indent: string)
    ensures EnvLines(envs, indent) ==
      if envs == [] then []
      else [NameLine(envs[0], indent)] + (FieldLines(envs[0].fields, indent) + EnvLines(envs[1..], indent))
  {
  }

  lemma NothingIsNormal()
    ensures AllNormal([], [])
  {
  }

  lemma {:induction false} NormalEnvs(envs: seq<Env>, indent: string)
    requires (forall e <- envs :: EnvOk(e)) && Indent(indent)
    ensures AllNormal(EnvLines(envs, indent), EnvLines(envs, "  "))
  {
    hide *;
    EnvLinesAre(envs, indent);
    EnvLinesAre(envs, "  ");
    if envs == [] {
      NothingIsNormal();
    } else {
      var e := envs[0];
      assert e in envs;
      EnvFields(e);
      NormalName(e, indent);
      NormalFields(e.fields, indent);
      NormalEnvs(envs[1..], indent);
      AllNormalJoin(FieldLines(e.fields, indent), FieldLines(e.fields, "  "),
                    EnvLines(envs[1..], indent), EnvLines(envs[1..], "  "));
      AllNormalCons(NameLine(e, indent), NameLine(e, "  "), FieldLines(e.fields, indent) + EnvLines(envs[1..], indent),
                    FieldLines(e.fields, "  ") + EnvLines(envs[1..], "  "));
    }
  }

  lemma PlainLines(lines: seq<string>)
    requires forall line <- lines :: OneLine(line)
    ensures AllNormal(lines, lines)
  {
    forall i | 0 <= i < |lines| ensures Normal(lines[i], lines[i]) {
      NormalLine(lines[i]);
    }
  }

  lemma NormalTable(t: Table, indent: string)
    requires TableOk(t) && Indent(indent)
    ensures AllNormal(Lines(t, indent), Lines(t, "  "))
  {
    var front := t.preamble + ActiveLines(t) + ["env:"];
    assert forall line <- front :: OneLine(line);
    PlainLines(front);
    PlainLines(t.trailer);
    NormalEnvs(t.envs, indent);
    hide AllNormal;
    AllNormalJoin(front, front, EnvLines(t.envs, indent), EnvLines(t.envs, "  "));
    AllNormalJoin(front + EnvLines(t.envs, indent), front + EnvLines(t.envs, "  "), t.trailer, t.trailer);
    assert Lines(t, indent) == front + EnvLines(t.envs, indent) + t.trailer;
    assert Lines(t, "  ") == front + EnvLines(t.envs, "  ") + t.trailer;
  }

  lemma NormalRest(raw: string, line: string, eol: string, rest: string)
    requires Normal(raw, line) && Normal(eol, "\n")
    ensures Normalize(raw + eol + rest) == line + "\n" + Normalize(rest)
  {
    hide Normalize;
    assert raw + eol + rest == raw + (eol + rest);
    assert line + ("\n" + Normalize(rest)) == line + "\n" + Normalize(rest);
  }

  lemma {:induction false} NormalText(raws: seq<string>, lines: seq<string>, eol: string)
    requires AllNormal(raws, lines) && LineEnd(eol)
    ensures Normalize(Joined(raws, eol)) == Joined(lines, "\n")
  {
    if raws != [] {
      hide Normal, OneLine, Normalize;
      NormalEnd(eol);
      NormalText(raws[1..], lines[1..], eol);
      NormalRest(raws[0], lines[0], eol, Joined(raws[1..], eol));
    }
  }

  lemma {:induction false} SplitJoined(lines: seq<string>)
    requires forall line <- lines :: OneLine(line)
    ensures Split(Joined(lines, "\n")) == lines + [""]
  {
    if lines != [] {
      var line, rest := lines[0], Joined(lines[1..], "\n");
      SplitJoined(lines[1..]);
      assert line in lines;
      SplitsAt(line, rest);
      assert lines + [""] == [line] + (lines[1..] + [""]);
    }
  }

  lemma SplitsAt(line: string, rest: string)
    requires OneLine(line)
    ensures Split(line + "\n" + rest) == [line] + Split(rest)
  {
    hide Run;
    var all := line + "\n" + rest;
    RunIs(line, "\n" + rest, InLine);
    assert all == line + ("\n" + rest);
    assert all[..|line|] == line && all[|line| + 1..] == rest;
  }

  // ---------------------------------------------------------------------------------------
  // The round trip
  // ---------------------------------------------------------------------------------------

  /**
   * Reading a rendered table yields the fields of the active environment, or of the first one
   * when none is named, whatever other environments, unknown keys and lines around the block
   * it holds, and whether it was written with tabs or spaces and with LF or CRLF.
   */
  lemma RoundTrip(t: Table, indent: string, eol: string)
    requires TableOk(t) && Indent(indent) && LineEnd(eol)
    ensures Parse(Render(t, indent, eol)) == WithEnvs(EMPTY, t.envs, Selected(t))
  {
    NormalTable(t, indent);
    NormalText(Lines(t, indent), Lines(t, "  "), eol);
    assert forall line <- Lines(t, "  ") :: OneLine(line);
    SplitJoined(Lines(t, "  "));
    ActiveOf(t);
    ReadTable(t);
  }

  lemma {:induction false} OthersDoNotMatter(c: Config, envs: seq<Env>, target: string)
    requires forall e <- envs :: e.name != target
    ensures WithEnvs(c, envs, target) == c
    decreases envs
  {
    if envs != [] {
      assert envs[0] in envs;
      OthersDoNotMatter(c, envs[1..], target);
    }
  }

  lemma {:induction false} OnlyOneMatters(c: Config, envs: seq<Env>, target: string, i: nat)
    requires i < |envs| && envs[i].name == target
    requires forall j | 0 <= j < |envs| && j != i :: envs[j].name != target
    ensures WithEnvs(c, envs, target) == WithFields(c, envs[i].fields)
    decreases envs
  {
    if i == 0 {
      OthersDoNotMatter(WithFields(c, envs[0].fields), envs[1..], target);
    } else {
      OnlyOneMatters(c, envs[1..], target, i - 1);
    }
  }

  /** The selected environment's fields and nothing else; nothing when it is not there. */
  lemma SelectsOneEnvironment(t: Table, indent: string, eol: string)
    requires TableOk(t) && Indent(indent) && LineEnd(eol)
    requires forall i, j | 0 <= i < j < |t.envs| :: t.envs[i].name != t.envs[j].name
    ensures (forall e <- t.envs :: e.name != Selected(t)) ==> Parse(Render(t, indent, eol)) == EMPTY
    ensures forall i | 0 <= i < |t.envs| && t.envs[i].name == Selected(t) ::
      Parse(Render(t, indent, eol)) == WithFields(EMPTY, t.envs[i].fields)
  {
    RoundTrip(t, indent, eol);
    if forall e <- t.envs :: e.name != Selected(t) {
      OthersDoNotMatter(EMPTY, t.envs, Selected(t));
    }
    forall i | 0 <= i < |t.envs| && t.envs[i].name == Selected(t)
      ensures WithEnvs(EMPTY, t.envs, Selected(t)) == WithFields(EMPTY, t.envs[i].fields)
    {
      OnlyOneMatters(EMPTY, t.envs, Selected(t), i);
    }
  }

  // ---------------------------------------------------------------------------------------
  // Key by key
  // ---------------------------------------------------------------------------------------

  /** The fields of the environments called `target`, in order. */
  function FieldsOf(envs: seq<Env>, target: string): seq<Field> {
    if envs == [] then []
    else (if envs[0].name == target then envs[0].fields else []) + FieldsOf(envs[1..], target)
  }

  /** `v` is the value of the last field with this key, or `before` when there is none. */
  ghost predicate IsLast(fields: seq<Field>, key: string, v: Option<string>, before: Option<string>) {
    if forall f <- fields :: f.key != key then v == before
    else exists k | 0 <= k < |fields| ::
           fields[k].key == key && v == Some(fields[k].value) && forall j | k < j < |fields| :: fields[j].key != key
  }

  /** Each setting holds what the last field with its key says; other keys say nothing. */
  ghost predicate ReadsKeys(fields: seq<Field>, c: Config, before: Config) {
    && IsLast(fields, "address", c.address, before.address)
    && IsLast(fields, "namespace", c.namespace_, before.namespace_)
    && IsLast(fields, "api-key", c.apiKey, before.apiKey)
    && IsLast(fields, "tls-cert-path", c.certPath, before.certPath)
    && IsLast(fields, "tls-key-path", c.keyPath, before.keyPath)
  }

  lemma {:induction false} WithFieldsJoin(c: Config, a: seq<Field>, b: seq<Field>)
    ensures WithFields(c, a + b) == WithFields(WithFields(c, a), b)
    decreases a
  {
    hide Assign;
    if a == [] {
      assert a + b == b;
    } else {
      WithFieldsJoin(Assign(c, a[0].key, a[0].value), a[1..], b);
      assert (a + b)[0] == a[0] && (a + b)[1..] == a[1..] + b;
    }
  }

  lemma {:induction false} WithEnvsIsWithFields(c: Config, envs: seq<Env>, target: string)
    ensures WithEnvs(c, envs, target) == WithFields(c, FieldsOf(envs, target))
    decreases envs
  {
    hide WithFields;
    if envs == [] {
      NoFields(c);
    } else {
      var own := if envs[0].name == target then envs[0].fields else [];
      NoFields(c);
      WithEnvsIsWithFields(WithFields(c, own), envs[1..], target);
      WithFieldsJoin(c, own, FieldsOf(envs[1..], target));
    }
  }

  lemma NoFields(c: Config)
    ensures WithFields(c, []) == c
  {
  }

  lemma LastOfMore(f: Field, rest: seq<Field>, key: string, v: Option<string>, before: Option<string>)
    requires IsLast(rest, key, v, if f.key == key then Some(f.value) else before)
    ensures IsLast([f] + rest, key, v, before)
  {
    var all := [f] + rest;
    if forall g <- rest :: g.key != key {
      if f.key == key {
        assert all[0] == f && forall j | 0 < j < |all| :: all[j].key != key;
      } else {
        assert forall g <- all :: g.key != key;
      }
    } else {
      var k :| 0 <= k < |rest| && rest[k].key == key && v == Some(rest[k].value)
               && forall j | k < j < |rest| :: rest[j].key != key;
      assert all[k + 1] == rest[k] && all[k + 1] in all;
      assert forall j | k + 1 < j < |all| :: all[j] == rest[j - 1];
    }
  }

  lemma {:induction false} FieldsAreRead(c: Config, fields: seq<Field>)
    ensures ReadsKeys(fields, WithFields(c, fields), c)
    decreases fields
  {
    hide *;
    if fields == [] {
      NoFields(c);
      NothingRead(c);
    } else {
      var f, rest := fields[0], fields[1..];
      FieldsAreRead(Assign(c, f.key, f.value), rest);
      FirstField(c, fields);
      assert fields == [f] + rest;
      OneMoreRead(c, f, rest, WithFields(c, fields));
    }
  }

  lemma NothingRead(c: Config)
    ensures ReadsKeys([], c, c)
  {
  }

  lemma FirstField(c: Config, fields: seq<Field>)
    requires fields != []
    ensures WithFields(c, fields) == WithFields(Assign(c, fields[0].key, fields[0].value), fields[1..])
  {
  }

  lemma OneMoreRead(c: Config, f: Field, rest: seq<Field>, all: Config)
    requires ReadsKeys(rest, all, Assign(c, f.key, f.value))
    ensures ReadsKeys([f] + rest, all, c)
  {
    hide IsLast;
    LastOfMore(f, rest, "address", all.address, c.address);
    LastOfMore(f, rest, "namespace", all.namespace_, c.namespace_);
    LastOfMore(f, rest, "api-key", all.apiKey, c.apiKey);
    LastOfMore(f, rest, "tls-cert-path", all.certPath, c.certPath);
    LastOfMore(f, rest, "tls-key-path", all.keyPath, c.keyPath);
  }

  /**
   * Reading a rendered table, key by key: each of the five settings is the value of the last field
   * with its key in the selected environments, and nothing when they have none.
   */
  lemma EachKeyIsRead(t: Table, indent: string, eol: string)
    requires TableOk(t) && Indent(indent) && LineEnd(eol)
    ensures ReadsKeys(FieldsOf(t.envs, Selected(t)), Parse(Render(t, indent, eol)),
      Config(None, None, None, None, None))
  {
    RoundTrip(t, indent, eol);
    WithEnvsIsWithFields(EMPTY, t.envs, Selected(t));
    FieldsAreRead(EMPTY, FieldsOf(t.envs, Selected(t)));
  }

  // ---------------------------------------------------------------------------------------
  // Which lines are names and fields
  // ---------------------------------------------------------------------------------------

  ghost predicate AllSpaces(s: string) {
    forall c <- s :: Space(c)
  }

  /** A line names an environment exactly when it is two spaces, the name and a colon. */
  lemma NamesAreExact(line: string, name: string)
    ensures MatchName(line) == Some(name) <==>
      && line == "  " + name + ":" && name != ""
      && forall c <- name ::
           'a' <= c <= 'z' || 'A' <= c <= 'Z' || '0' <= c <= '9' || c == '_' || c == '.' || c == ':' || c == '-'
  {
    if MatchName(line).Some? {
      var own := MatchName(line).value;
      assert line == "  " + own + ":";
      forall c | c in own ensures NameChar(c) {
        var k :| 0 <= k < |own| && own[k] == c;
        assert line[k + 2] == c;
      }
    }
    if line == "  " + name + ":" && name != "" && forall c <- name :: NameChar(c) {
      forall k | 2 <= k < |line| - 1 ensures NameChar(line[k]) {
        assert line[k] == name[k - 2] && name[k - 2] in name;
      }
      assert line[2..|line| - 1] == name;
    }
  }

  /** The text between the spaces around it, which may be nothing. */
  ghost predicate Core(text: string, core: string) {
    exists a: string, b: string :: Around(text, a, core, b)
  }

  ghost predicate Around(text: string, a: string, core: string, b: string) {
    && text == a + core + b && AllSpaces(a) && AllSpaces(b)
    && (core != "" ==> !Space(core[0]) && !Space(core[|core| - 1]))
  }

  lemma {:induction false} TrimEndIs(s: string)
    ensures AllSpaces(s[|TrimEnd(s)|..])
  {
    if s != "" && Space(s[|s| - 1]) {
      var front := s[..|s| - 1];
      TrimEndIs(front);
      assert s[|TrimEnd(s)|..] == front[|TrimEnd(front)|..] + [s[|s| - 1]];
    }
  }

  lemma {:induction false} TrimEndPads(c: string, b: string)
    requires AllSpaces(b) && (c != "" ==> !Space(c[|c| - 1]))
    ensures TrimEnd(c + b) == c
  {
    if b == "" {
      assert c + b == c;
    } else {
      assert b[|b| - 1] in b;
      TrimEndPads(c, b[..|b| - 1]);
      assert (c + b)[..|c + b| - 1] == c + b[..|b| - 1];
    }
  }

  lemma {:induction false} RunOfSpaces(s: string)
    requires AllSpaces(s)
    ensures Run(s, Space) == |s|
  {
    hide Space;
    if s != "" {
      assert s[0] in s;
      RunOfSpaces(s[1..]);
    }
  }

  lemma TrimIsCore(text: string, a: string, c: string, b: string)
    requires Around(text, a, c, b)
    ensures Trim(text) == c
  {
    hide Space, TrimEnd, Run;
    if c == "" {
      assert forall x <- text :: x in a || x in b;
      RunOfSpaces(text);
      assert text[|text|..] == "" + "";
      TrimEndPads("", "");
    } else {
      RunIs(a, c + b, Space);
      assert text == a + (c + b) && text[|a|..] == c + b;
      TrimEndPads(c, b);
    }
  }

  lemma TrimHasCore(text: string)
    ensures Core(text, Trim(text))
  {
    hide Space, TrimEnd, Run;
    var n := Run(text, Space);
    var tail := text[n..];
    var c := TrimEnd(tail);
    TrimEndIs(tail);
    LeadingSpaces(text, n);
    Rejoin(text, n, c);
    assert Around(text, text[..n], c, tail[|c|..]);
  }

  lemma Rejoin(text: string, n: nat, c: string)
    requires n <= |text| && c <= text[n..]
    ensures text == text[..n] + c + text[n..][|c|..]
  {
    assert text[n..] == c + text[n..][|c|..];
  }

  lemma LeadingSpaces(text: string, n: nat)
    requires n <= |text| && forall k | 0 <= k < n :: Space(text[k])
    ensures AllSpaces(text[..n])
  {
    hide Space;
    forall x | x in text[..n] ensures Space(x) { var k :| 0 <= k < n && text[k] == x; }
  }

  /** What a field's value is read from holds, on a line of its own, exactly its core. */
  lemma CaptureIsTrim(text: string)
    requires OneLine(text)
    ensures Capture(text) == if text == "" then None else Some(Trim(text))
  {
    hide Space, TrimEnd, Run, OneLine, Terminator;
    var n := Run(text, Space);
    if n < |text| {
      TailIsOneLine(text, text[n..], n);
      CaptureTail(text[n..]);
      assert text[n..n + |text[n..]|] == text[n..];
    } else if text != "" {
      SomethingVisible(text);
      TrimEndPads("", "");
      assert text[n..] == "" + "";
    }
  }

  lemma CaptureTail(tail: string)
    requires OneLine(tail) && tail != "" && !Space(tail[0])
    ensures Run(tail, Visible) == |tail| && Trim(tail) == TrimEnd(tail)
  {
    hide Space, TrimEnd, OneLine, Terminator;
    AllVisible(tail);
    RunIs("", tail, Space);
    assert "" + tail == tail && tail[0..] == tail;
  }

  lemma SomethingVisible(text: string)
    requires OneLine(text) && text != ""
    ensures exists k | 0 <= k < |text| :: Visible(text[k])
  {
    assert text[0] in text && Visible(text[0]);
  }

  lemma AllVisible(s: string)
    requires OneLine(s)
    ensures Run(s, Visible) == |s|
  {
    RunIs(s, "", Visible);
    assert s + "" == s;
  }

  /** Four spaces or more, a key of small letters and hyphens, a colon, and something behind it. */
  ghost predicate FieldParts(line: string, pad: string, key: string, tail: string) {
    && line == pad + (key + (":" + tail)) && |pad| >= 4 && AllSpaces(pad) && tail != ""
    && key != "" && forall c <- key :: 'a' <= c <= 'z' || c == '-'
  }

  /** A line without line ends holds a field exactly when it has these parts, the value being the core of the rest. */
  lemma FieldsAreExact(line: string, key: string, value: string)
    requires OneLine(line)
    ensures MatchField(line) == Some((key, value)) <==>
      exists pad: string, tail: string :: FieldParts(line, pad, key, tail) && Core(tail, value)
  {
    hide MatchField, FieldParts, Core, OneLine;
    if MatchField(line) == Some((key, value)) {
      var pad, tail := MatchHasParts(line, key, value);
      TrimHasCore(tail);
    }
    if pad: string, tail: string :| FieldParts(line, pad, key, tail) && Core(tail, value) {
      PartsMatch(line, pad, key, tail);
      CoreIsTrim(tail, value);
    }
  }

  lemma CoreIsTrim(text: string, c: string)
    requires Core(text, c)
    ensures c == Trim(text)
  {
    hide Around, Trim;
    var a: string, b: string :| Around(text, a, c, b);
    TrimIsCore(text, a, c, b);
  }

  lemma MatchHasParts(line: string, key: string, value: string) returns (pad: string, tail: string)
    requires OneLine(line) && MatchField(line) == Some((key, value))
    ensures FieldParts(line, pad, key, tail) && value == Trim(tail)
  {
    hide Capture, Space, Terminator, Trim, Run, KeyChar, OneLine, AllSpaces;
    var n := Run(line, Space);
    var rest := line[n..];
    var k := Run(rest, KeyChar);
    pad, tail := line[..n], rest[k + 1..];
    TailIsOneLine(line, tail, n + k + 1);
    CaptureIsTrim(tail);
    CutAtColon(rest, key, tail, k);
    assert line == pad + rest;
    LeadingSpaces(line, n);
    LeadingKey(rest, k);
  }

  lemma LeadingKey(rest: string, k: nat)
    requires k <= |rest| && forall j | 0 <= j < k :: KeyChar(rest[j])
    ensures forall c <- rest[..k] :: 'a' <= c <= 'z' || c == '-'
  {
    forall c | c in rest[..k] ensures KeyChar(c) { var j :| 0 <= j < k && rest[j] == c; }
  }

  lemma CutAtColon(rest: string, key: string, tail: string, k: nat)
    requires k < |rest| && rest[k] == ':' && key == rest[..k] && tail == rest[k + 1..]
    ensures rest == key + (":" + tail)
  {
  }

  lemma TailIsOneLine(line: string, tail: string, n: nat)
    requires OneLine(line) && n <= |line| && tail == line[n..]
    ensures OneLine(tail)
  {
    forall c | c in tail ensures c in line {
    }
  }

  lemma PartsMatch(line: string, pad: string, key: string, tail: string)
    requires OneLine(line) && FieldParts(line, pad, key, tail)
    ensures MatchField(line) == Some((key, Trim(tail)))
  {
    hide Capture, Trim, Run, Terminator;
    var rest := key + (":" + tail);
    assert key[0] in key && rest[0] == key[0];
    RunIs(pad, rest, Space);
    assert line[|pad|..] == rest;
    RunIs(key, ":" + tail, KeyChar);
    assert rest[..|key|] == key && rest[|key|] == ':' && rest[|key| + 1..] == tail;
    TailIsOneLine(line, tail, |pad| + |key| + 1);
    CaptureIsTrim(tail);
  }
}
