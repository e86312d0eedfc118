/**
 * Quoting arguments for a shell (src/spawn.ts) against the word splitting of the shells that
 * read them back: the POSIX shell of sections 2.2.1, 2.2.2 and 2.3 of the Shell Command
 * Language (POSIX.1-2017), and fish.
 *
 * Both readers are total: a text whose unquoted part would make the shell do more than split
 * words (expansion, operators, comments) is answered with `None`.
 */
module ShellWords {
  import opened Options
  import opened Sequences

  // ---------------------------------------------------------------------------------------
  // The quoting functions
  // ---------------------------------------------------------------------------------------

  function ReplaceAll(s: string, c: char, to: string): string {
    if s == "" then "" else (if s[0] == c then to else [s[0]]) + ReplaceAll(s[1..], c, to)
  }

  function Escaped(s: string): string {
    ReplaceAll(s, '\'', "'\\''")
  }

  function ShellQuote(s: string): string {
    "'" + Escaped(s) + "'"
  }

  function FishEscaped(s: string): string {
    ReplaceAll(ReplaceAll(s, '\\', "\\\\"), '\'', "\\'")
  }

  function FishQuote(s: string): string {
    "'" + FishEscaped(s) + "'"
  }

  function Map(args: seq<string>, f: string -> string): seq<string> {
    if args == [] then [] else [f(args[0])] + Map(args[1..], f)
  }

  function Join(words: seq<string>): string {
    if words == [] then "" else if |words| == 1 then words[0] else words[0] + " " + Join(words[1..])
  }

  /** The argument part of a terminal command. */
  function ArgLine(args: seq<string>): string {
    Join(Map(args, ShellQuote))
  }

  // ---------------------------------------------------------------------------------------
  // The shells
  // ---------------------------------------------------------------------------------------

  /** Where a reader stands: between two words, in a word, or between quotes in a word. */
  datatype Mode = Between | InWord(word: string) | InQuotes(word: string)

  function Begun(m: Mode): string {
    if m.Between? then "" else m.word
  }

  function Finish(m: Mode, rest: Option<seq<string>>): Option<seq<string>> {
    match rest
    case None => None
    case Some(words) => if m.Between? then Some(words) else Some([m.word] + words)
  }

  predicate Blank(c: char) {
    c == ' ' || c == '\t'
  }

  const POSIX_SPECIAL := "|&;<>()$`\"\n*?[]#~=%!{}"

  /** The words of `s` under the POSIX rules, `None` where the rules here do not decide. */
  function PosixWords(s: string, m: Mode): Option<seq<string>>
    decreases |s|
  {
    if s == "" then
      if m.InQuotes? then None else Finish(m, Some([]))
    else if s[0] == '\0' then
      None
    else if m.InQuotes? then
      PosixWords(s[1..], if s[0] == '\'' then InWord(m.word) else InQuotes(m.word + [s[0]]))
    else if Blank(s[0]) then
      Finish(m, PosixWords(s[1..], Between))
    else if s[0] == '\'' then
      PosixWords(s[1..], InQuotes(Begun(m)))
    else if s[0] == '\\' then
      if |s| == 1 || s[1] == '\0' then None
      else PosixWords(s[2..], if s[1] == '\n' then m else InWord(Begun(m) + [s[1]]))
    else if s[0] in POSIX_SPECIAL then
      None
    else
      PosixWords(s[1..], InWord(Begun(m) + [s[0]]))
  }

  const FISH_SPECIAL := "|&;<>()$\"\n*?[]#~{}%^"

  /** After an unquoted backslash, letters, digits and line ends do not stand for themselves. */
  predicate FishEscape(c: char) {
    'a' <= c <= 'z' || 'A' <= c <= 'Z' || '0' <= c <= '9' || c == '\n' || c == '\r'
  }

  /** The words of `s` under the rules of fish: in quotes only `\\` and `\'` are escapes. */
  function FishWords(s: string, m: Mode): Option<seq<string>>
    decreases |s|
  {
    if s == "" then
      if m.InQuotes? then None else Finish(m, Some([]))
    else if m.InQuotes? then
      if s[0] == '\'' then FishWords(s[1..], InWord(m.word))
      else if s[0] == '\\' && |s| > 1 && (s[1] == '\\' || s[1] == '\'') then
        FishWords(s[2..], InQuotes(m.word + [s[1]]))
      else FishWords(s[1..], InQuotes(m.word + [s[0]]))
    else if Blank(s[0]) then
      Finish(m, FishWords(s[1..], Between))
    else if s[0] == '\'' then
      FishWords(s[1..], InQuotes(Begun(m)))
    else if s[0] == '\\' then
      if |s| == 1 || FishEscape(s[1]) then None
      else FishWords(s[2..], InWord(Begun(m) + [s[1]]))
    else if s[0] in FISH_SPECIAL then
      None
    else
      FishWords(s[1..], InWord(Begun(m) + [s[0]]))
  }

  // ---------------------------------------------------------------------------------------
  // POSIX: every list of NUL-free arguments comes back
  // ---------------------------------------------------------------------------------------

  predicate NulFree(s: string) {
    '\0' !in s
  }

  /** What `Escaped` makes of one character. */
  function EscapedChar(c: char): string {
    if c == '\'' then "'\\''" else [c]
  }

  lemma EscapedCons(s: string, rest: string)
    requires s != ""
    ensures Escaped(s) + "'" + rest == EscapedChar(s[0]) + (Escaped(s[1..]) + "'" + rest)
  {
    assert Escaped(s) == EscapedChar(s[0]) + Escaped(s[1..]);
  }

  lemma PosixReadsChar(c: char, w: string, tail: string)
    ensures PosixWords(EscapedChar(c) + tail, InQuotes(w))
      == if c != '\0' then PosixWords(tail, InQuotes(w + [c])) else None
  {
    var line := EscapedChar(c) + tail;
    if c == '\'' {
      var l1, l3 := line[1..], line[3..];
      assert l1[2..] == l3 && l3[1..] == tail;
      assert PosixWords(line, InQuotes(w)) == PosixWords(l1, InWord(w));
      assert PosixWords(l1, InWord(w)) == PosixWords(l3, InWord(w + [c]));
    } else {
      assert line[1..] == tail;
    }
  }

  lemma PosixClosesQuote(w: string, rest: string)
    ensures PosixWords("'" + rest, InQuotes(w)) == PosixWords(rest, InWord(w))
  {
    assert ("'" + rest)[1..] == rest;
  }

  lemma {:induction false} PosixReadsQuoted(s: string, w: string, rest: string)
    ensures PosixWords(Escaped(s) + "'" + rest, InQuotes(w))
      == if NulFree(s) then PosixWords(rest, InWord(w + s)) else None
  {
    hide PosixWords, EscapedChar;
    if s == "" {
      PosixClosesQuote(w, rest);
      assert Escaped(s) + "'" + rest == "'" + rest && w + s == w;
    } else {
      EscapedCons(s, rest);
      PosixReadsChar(s[0], w, Escaped(s[1..]) + "'" + rest);
      PosixReadsQuoted(s[1..], w + [s[0]], rest);
      assert w + [s[0]] + s[1..] == w + s;
      assert NulFree(s) <==> s[0] != '\0' && NulFree(s[1..]);
    }
  }

  /** What follows the first word of a line. */
  function Tail(words: seq<string>): string {
    if words == [] then "" else " " + Join(words)
  }

  lemma JoinIsHeadAndTail(words: seq<string>)
    requires words != []
    ensures Join(words) == words[0] + Tail(words[1..])
  {
  }

  function ArgTail(args: seq<string>): string {
    Tail(Map(args, ShellQuote))
  }

  lemma ArgLineCons(args: seq<string>)
    requires args != []
    ensures ArgLine(args) != "" && ArgLine(args)[0] == '\''
    ensures ArgLine(args)[1..] == Escaped(args[0]) + "'" + ArgTail(args[1..])
  {
    hide Escaped;
    JoinIsHeadAndTail(Map(args, ShellQuote));
    assert Map(args, ShellQuote)[1..] == Map(args[1..], ShellQuote);
  }

  /**
   * The POSIX shell reads back exactly the arguments that were quoted, whatever they hold,
   * empty ones and quotes included; an argument with a NUL cannot be passed.
   */
  lemma {:induction false} PosixRoundTrip(args: seq<string>)
    ensures PosixWords(ArgLine(args), Between)
      == if forall a <- args :: NulFree(a) then Some(args) else None
  {
    if args != [] {
      hide Escaped, NulFree;
      var a, rest := args[0], args[1..];
      ArgLineCons(args);
      PosixReadsQuoted(a, "", ArgTail(rest));
      assert "" + a == a && args == [a] + rest;
      PosixRoundTrip(rest);
      if rest != [] {
        assert ArgTail(rest)[1..] == ArgLine(rest);
      }
    }
  }

  // ---------------------------------------------------------------------------------------
  // fish: what `fishQuote` writes always comes back
  // ---------------------------------------------------------------------------------------

  lemma {:induction false} ReplaceAllJoins(s: string, t: string, c: char, to: string)
    ensures ReplaceAll(s + t, c, to) == ReplaceAll(s, c, to) + ReplaceAll(t, c, to)
  {
    if s == "" {
      assert s + t == t;
    } else {
      ReplaceAllJoins(s[1..], t, c, to);
      assert (s + t)[0] == s[0] && (s + t)[1..] == s[1..] + t;
      var head := if s[0] == c then to else [s[0]];
      assert ReplaceAll(s, c, to) == head + ReplaceAll(s[1..], c, to);
      Associates(head, ReplaceAll(s[1..], c, to), ReplaceAll(t, c, to));
    }
  }

  /** A character, after both passes. */
  function FishChar(c: char): string {
    if c == '\\' || c == '\'' then ['\\', c] else [c]
  }

  lemma SecondPass(c: char)
    ensures ReplaceAll(if c == '\\' then "\\\\" else [c], '\'', "\\'") == FishChar(c)
  {
    if c == '\\' {
      assert "\\\\"[1..] == "\\" && "\\\\"[1..][1..] == "";
    } else {
      assert [c][1..] == "";
    }
  }

  /** Escaping the backslashes first leaves those of the second pass alone. */
  lemma FishEscapedHead(s: string)
    ensures s == "" ==> FishEscaped(s) == ""
    ensures s != "" ==>
      FishEscaped(s) == FishChar(s[0]) + FishEscaped(s[1..])
  {
    if s != "" {
      var head, tail := if s[0] == '\\' then "\\\\" else [s[0]], ReplaceAll(s[1..], '\\', "\\\\");
      assert ReplaceAll(s, '\\', "\\\\") == head + tail;
      hide ReplaceAll, FishChar;
      ReplaceAllJoins(head, tail, '\'', "\\'");
      SecondPass(s[0]);
    }
  }

  lemma {:induction false} FishReadsFishQuoted(s: string, w: string, rest: string)
    ensures FishWords(FishEscaped(s) + "'" + rest, InQuotes(w)) == FishWords(rest, InWord(w + s))
  {
    hide FishEscaped;
    var line := FishEscaped(s) + "'" + rest;
    FishEscapedHead(s);
    if s == "" {
      assert line[1..] == rest;
      assert w + s == w;
    } else {
      var tail := FishEscaped(s[1..]) + "'" + rest;
      FishReadsFishQuoted(s[1..], w + [s[0]], rest);
      assert w + [s[0]] + s[1..] == w + s;
      if s[0] == '\\' || s[0] == '\'' {
        assert line == ['\\', s[0]] + tail;
        assert line[2..] == tail;
      } else {
        assert line == [s[0]] + tail;
        assert line[1..] == tail;
      }
    }
  }

  /** fish reads back every list of arguments that `fishQuote` wrote. */
  lemma {:induction false} FishQuoteRoundTrip(args: seq<string>)
    ensures FishWords(Join(Map(args, FishQuote)), Between) == Some(args)
  {
    if args != [] {
      var a, rest := args[0], Map(args[1..], FishQuote);
      var line := Join(Map(args, FishQuote));
      JoinIsHeadAndTail(Map(args, FishQuote));
      assert Map(args, FishQuote)[1..] == rest;
      assert line[1..] == FishEscaped(a) + "'" + Tail(rest);
      FishReadsFishQuoted(a, "", Tail(rest));
      assert "" + a == a;
      assert args == [a] + args[1..];
      FishQuoteRoundTrip(args[1..]);
      if rest != [] {
        assert Tail(rest)[1..] == Join(rest);
      }
    }
  }

  // ---------------------------------------------------------------------------------------
  // fish: exactly which arguments survive `shellQuote`
  // ---------------------------------------------------------------------------------------

  /** Every backslash is followed by a character that is neither a backslash nor a quote. */
  predicate FishSafe(s: string) {
    forall i | 0 <= i < |s| && s[i] == '\\' :: i + 1 < |s| && s[i + 1] != '\\' && s[i + 1] != '\''
  }

  lemma FishSafeTail(s: string)
    requires s != ""
    ensures FishSafe(s) <==>
      (s[0] == '\\' ==> |s| > 1 && s[1] != '\\' && s[1] != '\'') && FishSafe(s[1..])
  {
    if FishSafe(s) {
      forall i | 0 <= i < |s[1..]| && s[1..][i] == '\\'
        ensures i + 1 < |s[1..]| && s[1..][i + 1] != '\\' && s[1..][i + 1] != '\''
      {
        assert s[i + 1] == '\\';
      }
    } else {
      var i :| 0 <= i < |s| && s[i] == '\\' && !(i + 1 < |s| && s[i + 1] != '\\' && s[i + 1] != '\'');
      if i > 0 {
        assert s[1..][i - 1] == '\\';
      }
    }
  }

  lemma FishReadsChar(c: char, w: string, tail: string)
    requires tail != "" && (c == '\\' ==> tail[0] != '\\' && tail[0] != '\'')
    ensures FishWords(EscapedChar(c) + tail, InQuotes(w)) == FishWords(tail, InQuotes(w + [c]))
  {
    var line := EscapedChar(c) + tail;
    if c == '\'' {
      var l1, l3 := line[1..], line[3..];
      assert l1[2..] == l3 && l3[1..] == tail;
      assert FishWords(line, InQuotes(w)) == FishWords(l1, InWord(w));
      assert FishWords(l1, InWord(w)) == FishWords(l3, InWord(w + [c]));
    } else {
      assert line[1..] == tail && (|line| > 1 ==> line[1] == tail[0]);
    }
  }

  lemma FishClosesQuote(w: string, rest: string)
    ensures FishWords("'" + rest, InQuotes(w)) == FishWords(rest, InWord(w))
  {
    assert ("'" + rest)[1..] == rest;
  }

  /** An argument's first character comes back, unless it is a backslash that fish takes for an escape. */
  lemma FishReadsHead(s: string, w: string, rest: string)
    requires s != "" && (s[0] == '\\' ==> |s| > 1 && s[1] != '\\' && s[1] != '\'')
    ensures FishWords(Escaped(s) + "'" + rest, InQuotes(w))
         == FishWords(Escaped(s[1..]) + "'" + rest, InQuotes(w + [s[0]]))
  {
    hide FishWords;
    var tail := Escaped(s[1..]) + "'" + rest;
    EscapedCons(s, rest);
    if s[0] == '\\' {
      EscapedCons(s[1..], rest);
      assert tail[0] == s[1];
    }
    FishReadsChar(s[0], w, tail);
  }

  lemma {:induction false} FishReadsSafe(s: string, w: string, rest: string)
    requires FishSafe(s)
    ensures FishWords(Escaped(s) + "'" + rest, InQuotes(w)) == FishWords(rest, InWord(w + s))
  {
    hide FishWords, EscapedChar, FishSafe;
    if s == "" {
      FishClosesQuote(w, rest);
      assert Escaped(s) + "'" + rest == "'" + rest && w + s == w;
    } else {
      FishSafeTail(s);
      FishReadsHead(s, w, rest);
      FishReadsSafe(s[1..], w + [s[0]], rest);
      assert w + [s[0]] + s[1..] == w + s;
    }
  }

  /** Characters and word ends, the most that reading can yield from what is left. */
  function Weight(words: seq<string>): nat {
    if words == [] then 0 else |words[0]| + 1 + Weight(words[1..])
  }

  /** Characters other than quotes. */
  function Solid(s: string): nat {
    if s == "" then 0 else (if s[0] == '\'' then 0 else 1) + Solid(s[1..])
  }

  lemma {:induction false} SolidJoins(s: string, t: string)
    ensures Solid(s + t) == Solid(s) + Solid(t)
  {
    if s == "" {
      assert s + t == t;
    } else {
      SolidJoins(s[1..], t);
      assert (s + t)[1..] == s[1..] + t;
    }
  }

  lemma {:induction false} SolidEscaped(s: string)
    ensures Solid(Escaped(s)) == |s|
  {
    if s != "" {
      SolidEscaped(s[1..]);
      SolidJoins(if s[0] == '\'' then "'\\''" else [s[0]], Escaped(s[1..]));
      assert Solid("'\\''") == 1 by {
        SolidJoins("'", "\\''");
        SolidJoins("\\", "''");
        assert "'\\''" == "'" + "\\''" && "\\''" == "\\" + "''";
      }
    }
  }

  /** Reading never yields more than it was given, and a begun word stays begun. */
  lemma {:induction false} FishYieldsNoMore(s: string, m: Mode)
    ensures var words := FishWords(s, m);
      words.Some? ==>
        && Weight(words.value) <= |Begun(m)| + 1 + Solid(s)
        && (!m.Between? ==> words.value != [] && m.word <= words.value[0])
    decreases |s|
  {
    if s == "" {
    } else if m.InQuotes? {
      if s[0] == '\'' {
        FishYieldsNoMore(s[1..], InWord(m.word));
      } else if s[0] == '\\' && |s| > 1 && (s[1] == '\\' || s[1] == '\'') {
        FishYieldsNoMore(s[2..], InQuotes(m.word + [s[1]]));
        assert Solid(s) >= 1 + Solid(s[1..][1..]);
        assert s[1..][1..] == s[2..];
      } else {
        FishYieldsNoMore(s[1..], InQuotes(m.word + [s[0]]));
      }
    } else if Blank(s[0]) {
      FishYieldsNoMore(s[1..], Between);
      var rest := FishWords(s[1..], Between);
      if rest.Some? && !m.Between? {
        assert ([m.word] + rest.value)[1..] == rest.value;
      }
    } else if s[0] == '\'' {
      FishYieldsNoMore(s[1..], InQuotes(Begun(m)));
    } else if s[0] == '\\' {
      if |s| > 1 {
        FishYieldsNoMore(s[2..], InWord(Begun(m) + [s[1]]));
        assert Solid(s) >= 1 + Solid(s[1..][1..]);
        assert s[1..][1..] == s[2..];
      }
    } else {
      FishYieldsNoMore(s[1..], InWord(Begun(m) + [s[0]]));
    }
  }

  /** The word being read is not `w`, or something was swallowed on the way. */
  predicate Spoilt(words: Option<seq<string>>, w: string, weight: nat) {
    words.Some? ==> words.value == [] || words.value[0] != w || Weight(words.value) < weight
  }

  lemma {:induction false} FishSpoilsUnsafe(s: string, w: string, rest: string)
    requires !FishSafe(s)
    ensures Spoilt(FishWords(Escaped(s) + "'" + rest, InQuotes(w)), w + s, |w + s| + 1 + Solid(rest))
  {
    var line := Escaped(s) + "'" + rest;
    var tail := Escaped(s[1..]) + "'" + rest;
    FishSafeTail(s);
    if s[0] == '\\' && (|s| == 1 || s[1] == '\'') {
      // The backslash takes the quote that was to end the quoting, and stays out of the word.
      assert line[0] == '\\' && line[1] == '\'';
      FishYieldsNoMore(line[2..], InQuotes(w + "'"));
      assert (w + "'")[|w|] == '\'' && (w + s)[|w|] == '\\';
    } else if s[0] == '\\' && s[1] == '\\' {
      // Two backslashes come back as one.
      assert line == "\\" + tail && tail == "\\" + Escaped(s[2..]) + "'" + rest;
      assert line[2..] == Escaped(s[2..]) + "'" + rest;
      FishYieldsNoMore(line[2..], InQuotes(w + "\\"));
      SolidEscaped(s[2..]);
      SolidJoins(Escaped(s[2..]) + "'", rest);
      SolidJoins(Escaped(s[2..]), "'");
    } else {
      FishSpoilsUnsafe(s[1..], w + [s[0]], rest);
      assert w + [s[0]] + s[1..] == w + s;
      FishReadsHead(s, w, rest);
    }
  }

  lemma SolidQuoted(a: string, rest: string)
    ensures Solid(" " + (ShellQuote(a) + rest)) == 1 + |a| + Solid(rest)
  {
    SolidEscaped(a);
    SolidJoins(" ", ShellQuote(a) + rest);
    SolidJoins(ShellQuote(a), rest);
    SolidJoins("'" + Escaped(a), "'");
    SolidJoins("'", Escaped(a));
  }

  lemma {:induction false} SolidArgs(args: seq<string>)
    ensures Solid(ArgTail(args)) == Weight(args)
  {
    if args != [] {
      var words := Map(args, ShellQuote);
      SolidArgs(args[1..]);
      assert words[1..] == Map(args[1..], ShellQuote);
      JoinIsHeadAndTail(words);
      SolidQuoted(args[0], Tail(words[1..]));
    }
  }

  /**
   * fish reads back what `shellQuote` wrote exactly when no argument has a backslash at its
   * end, before another backslash or before a quote. (The comment at src/spawn.ts:136
   * promises it for every argument.)
   */
  lemma {:induction false} ShellQuoteUnderFish(args: seq<string>)
    ensures FishWords(ArgLine(args), Between) == Some(args) <==> forall a <- args :: FishSafe(a)
  {
    if args != [] {
      var a, rest := args[0], args[1..];
      ArgLineCons(args);
      assert "" + a == a && args == [a] + rest;
      if FishSafe(a) {
        FishReadsSafe(a, "", ArgTail(rest));
        ShellQuoteUnderFish(rest);
        if rest != [] {
          assert ArgTail(rest)[1..] == ArgLine(rest);
        }
      } else {
        FishSpoilsUnsafe(a, "", ArgTail(rest));
        SolidArgs(rest);
      }
    }
  }
}
