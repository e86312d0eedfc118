/**
 * JSON with comments, as src/spawn.ts strips it before handing the text to JSON.parse.
 *
 * `Shaped` says declaratively what a token looks like next to the text that follows it, and
 * `Lex` splits a text into tokens. `LexIsTheOnlyReading` ties the two: a text has exactly one
 * split into shaped tokens. The index loop `StripJsonComments` is proved to return the
 * concatenation of the tokens that are not comments, and `StrippingRemovesOnlyComments` says
 * that reading the result again gives those tokens and no others.
 */
module Jsonc {
  import opened Sequences

  datatype Token =
    | Str(raw: string)
    | LineComment(raw: string)
    | BlockComment(raw: string)
    | Other(raw: string)

  predicate IsComment(t: Token) {
    t.LineComment? || t.BlockComment?
  }

  /** The text a list of tokens was read from. */
  function Raw(ts: seq<Token>): string {
    if ts == [] then "" else ts[0].raw + Raw(ts[1..])
  }

  /** The tokens that are not comments, in order. */
  function Kept(ts: seq<Token>): seq<Token> {
    if ts == [] then [] else if IsComment(ts[0]) then Kept(ts[1..]) else [ts[0]] + Kept(ts[1..])
  }

  // ---------------------------------------------------------------------------------------
  // What a token looks like
  // ---------------------------------------------------------------------------------------

  /** Characters that can stand between the quotes: each backslash takes its successor along. */
  predicate Body(s: string) {
    if s == "" then true
    else if s[0] == '\\' then |s| > 1 && Body(s[2..])
    else s[0] != '"' && Body(s[1..])
  }

  /** What follows the opening quote of a literal that the text never closes. */
  predicate OpenBody(s: string) {
    if s == "" then true
    else if s[0] == '\\' then |s| == 1 || OpenBody(s[2..])
    else s[0] != '"' && OpenBody(s[1..])
  }

  /** A slash and then `second`. */
  predicate Opens(s: string, second: char) {
    |s| > 1 && s[0] == '/' && s[1] == second
  }

  predicate EndsBlockAt(s: string, k: nat) {
    k + 1 < |s| && s[k] == '*' && s[k + 1] == '/'
  }

  /** No block comment ends at the first `n` positions of `s`. */
  ghost predicate NoEndBefore(s: string, n: int) {
    forall k: nat :: k < n ==> !EndsBlockAt(s, k)
  }

  /** `t` is a token when the text `rest` comes right after it. */
  ghost predicate Shaped(t: Token, rest: string) {
    match t
    case Str(raw) =>
      && raw != "" && raw[0] == '"'
      && ((|raw| > 1 && raw[|raw| - 1] == '"' && Body(raw[1..|raw| - 1])) || (OpenBody(raw[1..]) && rest == ""))
    case LineComment(raw) =>
      && Opens(raw, '/') && '\n' !in raw
      && (rest == "" || rest[0] == '\n')
    case BlockComment(raw) =>
      && Opens(raw, '*')
      && ((|raw| >= 4 && EndsBlockAt(raw[2..], |raw| - 4) && NoEndBefore(raw[2..], |raw| - 4))
          || (rest == "" && NoEndBefore(raw[2..], |raw| - 2)))
    case Other(raw) =>
      && |raw| == 1 && raw[0] != '"'
      && (raw[0] == '/' && rest != "" ==> rest[0] != '/' && rest[0] != '*')
  }

  ghost predicate WellFormed(ts: seq<Token>) {
    ts != [] ==> Shaped(ts[0], Raw(ts[1..])) && WellFormed(ts[1..])
  }

  // ---------------------------------------------------------------------------------------
  // The lexer
  // ---------------------------------------------------------------------------------------

  /** How far a literal reaches after its opening quote. */
  function LiteralLength(s: string): (n: nat)
    ensures n <= |s|
  {
    if s == "" then 0
    else if s[0] == '"' then 1
    else if s[0] == '\\' && |s| > 1 then 2 + LiteralLength(s[2..])
    else 1 + LiteralLength(s[1..])
  }

  /** How far a line comment reaches: up to the line feed, which it leaves alone. */
  function LineLength(s: string): (n: nat)
    ensures n <= |s|
  {
    if s == "" || s[0] == '\n' then 0 else 1 + LineLength(s[1..])
  }

  /** How far a block comment reaches after its opening. */
  function BlockLength(s: string): (n: nat)
    ensures n <= |s|
  {
    if s == "" then 0 else if EndsBlockAt(s, 0) then 2 else 1 + BlockLength(s[1..])
  }

  function Next(s: string): (t: Token)
    requires s != ""
    ensures t.raw != "" && t.raw <= s
  {
    if s[0] == '"' then Str(s[..1 + LiteralLength(s[1..])])
    else if Opens(s, '/') then LineComment(s[..LineLength(s)])
    else if Opens(s, '*') then BlockComment(s[..2 + BlockLength(s[2..])])
    else Other(s[..1])
  }

  function Lex(s: string): seq<Token> {
    if s == "" then [] else [Next(s)] + Lex(s[|Next(s).raw|..])
  }

  /** The specification of stripping: everything but the comment tokens. */
  function Strip(s: string): string {
    Raw(Kept(Lex(s)))
  }

  // ---------------------------------------------------------------------------------------
  // Lexing loses nothing, and every text has one reading
  // ---------------------------------------------------------------------------------------

  lemma {:induction false} LexIsLossless(s: string)
    ensures Raw(Lex(s)) == s
  {
    hide Next;
    if s != "" {
      var t := Next(s);
      var rest := s[|t.raw|..];
      LexIsLossless(rest);
      assert Lex(s)[1..] == Lex(rest);
    }
  }

  lemma {:induction false} LiteralShape(s: string)
    ensures var n := LiteralLength(s);
      || (n > 0 && s[n - 1] == '"' && Body(s[..n - 1]))
      || (n == |s| && OpenBody(s))
  {
    if s == "" || s[0] == '"' {
    } else if s[0] == '\\' && |s| > 1 {
      LiteralShape(s[2..]);
      var n := LiteralLength(s);
      if 0 < n - 2 && s[n - 1] == '"' && Body(s[2..][..n - 3]) {
        assert s[..n - 1][2..] == s[2..][..n - 3];
      }
    } else {
      LiteralShape(s[1..]);
      var n := LiteralLength(s);
      if s[0] != '\\' && 0 < n - 1 && s[n - 1] == '"' && Body(s[1..][..n - 2]) {
        assert s[..n - 1][1..] == s[1..][..n - 2];
      }
    }
  }

  lemma {:induction false} ClosedLiteralLength(b: string, rest: string)
    requires Body(b)
    ensures LiteralLength(b + "\"" + rest) == |b| + 1
  {
    var s := b + "\"" + rest;
    if b == "" {
    } else if b[0] == '\\' {
      ClosedLiteralLength(b[2..], rest);
      assert s[2..] == b[2..] + "\"" + rest;
    } else {
      ClosedLiteralLength(b[1..], rest);
      assert s[1..] == b[1..] + "\"" + rest;
    }
  }

  lemma {:induction false} OpenLiteralLength(b: string)
    requires OpenBody(b)
    ensures LiteralLength(b) == |b|
  {
    if b == "" {
    } else if b[0] == '\\' && |b| > 1 {
      OpenLiteralLength(b[2..]);
    } else {
      OpenLiteralLength(b[1..]);
    }
  }

  lemma {:induction false} LineShape(s: string)
    ensures '\n' !in s[..LineLength(s)]
    ensures LineLength(s) == |s| || s[LineLength(s)] == '\n'
  {
    if s != "" && s[0] != '\n' {
      LineShape(s[1..]);
      var n := LineLength(s);
      assert s[..n] == [s[0]] + s[1..][..n - 1];
    }
  }

  lemma {:induction false} LineLengthIs(l: string, rest: string)
    requires '\n' !in l
    requires rest == "" || rest[0] == '\n'
    ensures LineLength(l + rest) == |l|
  {
    if l == "" {
      assert l + rest == rest;
    } else {
      assert l[0] in l;
      LineLengthIs(l[1..], rest);
      assert (l + rest)[1..] == l[1..] + rest;
    }
  }

  lemma {:induction false} BlockShape(s: string)
    ensures var n := BlockLength(s);
      || (n >= 2 && EndsBlockAt(s, n - 2) && NoEndBefore(s, n - 2))
      || (n == |s| && NoEndBefore(s, n))
  {
    if s != "" && !EndsBlockAt(s, 0) {
      BlockShape(s[1..]);
      forall k: nat | 1 <= k < |s| ensures EndsBlockAt(s, k) <==> EndsBlockAt(s[1..], k - 1) {}
    }
  }

  lemma {:induction false} BlockLengthIs(s: string, n: nat)
    requires 2 <= n <= |s| && EndsBlockAt(s, n - 2)
    requires NoEndBefore(s, n - 2)
    ensures BlockLength(s) == n
  {
    if n > 2 {
      assert !EndsBlockAt(s, 0);
      forall k: nat | k < n - 3 ensures !EndsBlockAt(s[1..], k) {
        assert !EndsBlockAt(s, k + 1);
      }
      BlockLengthIs(s[1..], n - 1);
    }
  }

  lemma {:induction false} OpenBlockLength(s: string)
    requires NoEndBefore(s, |s|)
    ensures BlockLength(s) == |s|
  {
    if s != "" {
      assert !EndsBlockAt(s, 0);
      forall k: nat | k < |s[1..]| ensures !EndsBlockAt(s[1..], k) {
        assert !EndsBlockAt(s, k + 1);
      }
      OpenBlockLength(s[1..]);
    }
  }

  lemma NextLiteralIsShaped(s: string)
    requires s != "" && s[0] == '"'
    ensures Shaped(Next(s), s[|Next(s).raw|..])
  {
    var raw := Next(s).raw;
    LiteralShape(s[1..]);
    var n := LiteralLength(s[1..]);
    assert raw[1..] == s[1..][..n];
    if n > 0 && s[1..][n - 1] == '"' && Body(s[1..][..n - 1]) {
      assert raw[1..|raw| - 1] == s[1..][..n - 1];
    } else {
      assert s[1..][..n] == s[1..];
      assert s[|raw|..] == "";
    }
  }

  lemma NextBlockIsShaped(s: string)
    requires Opens(s, '*')
    ensures Shaped(Next(s), s[|Next(s).raw|..])
  {
    var raw, n := Next(s).raw, BlockLength(s[2..]);
    BlockShape(s[2..]);
    assert raw[2..] == s[2..][..n];
    forall k: nat | k + 1 < n ensures EndsBlockAt(raw[2..], k) <==> EndsBlockAt(s[2..], k) {}
    if n == |s[2..]| {
      assert s[|raw|..] == "";
    }
  }

  /** The lexer's next token has the shape of its kind. */
  lemma NextIsShaped(s: string)
    requires s != ""
    ensures Shaped(Next(s), s[|Next(s).raw|..])
  {
    if s[0] == '"' {
      NextLiteralIsShaped(s);
    } else if Opens(s, '/') {
      LineShape(s);
      assert s[1] != '\n';
    } else if Opens(s, '*') {
      NextBlockIsShaped(s);
    }
  }

  lemma ShapedLiteralIsNext(raw: string, rest: string)
    requires Shaped(Str(raw), rest)
    ensures Next(raw + rest) == Str(raw)
  {
    if |raw| > 1 && raw[|raw| - 1] == '"' && Body(raw[1..|raw| - 1]) {
      ClosedLiteralLength(raw[1..|raw| - 1], rest);
      assert (raw + rest)[1..] == raw[1..|raw| - 1] + "\"" + rest;
    } else {
      OpenLiteralLength(raw[1..]);
      assert raw + rest == raw;
    }
  }

  lemma ShapedBlockIsNext(raw: string, rest: string)
    requires Shaped(BlockComment(raw), rest)
    ensures Next(raw + rest) == BlockComment(raw)
  {
    var s := raw + rest;
    assert s[2..] == raw[2..] + rest;
    if |raw| >= 4 && EndsBlockAt(raw[2..], |raw| - 4) && NoEndBefore(raw[2..], |raw| - 4) {
      forall k: nat | k < |raw| - 3 ensures EndsBlockAt(raw[2..], k) <==> EndsBlockAt(s[2..], k) {}
      BlockLengthIs(s[2..], |raw| - 2);
    } else {
      assert s == raw;
      OpenBlockLength(raw[2..]);
    }
  }

  /** A shaped token in front of the text it was shaped for is the lexer's next token. */
  lemma ShapedIsNext(t: Token, rest: string)
    requires Shaped(t, rest)
    ensures t.raw != "" && Next(t.raw + rest) == t
  {
    match t
    case Str(raw) => ShapedLiteralIsNext(raw, rest);
    case LineComment(raw) => LineLengthIs(raw, rest);
    case BlockComment(raw) => ShapedBlockIsNext(raw, rest);
    case Other(_) =>
  }

  lemma {:induction false} LexIsWellFormed(s: string)
    ensures WellFormed(Lex(s))
  {
    if s != "" {
      NextIsShaped(s);
      var rest := s[|Next(s).raw|..];
      LexIsWellFormed(rest);
      LexIsLossless(rest);
    }
  }

  /** The only split of a text into shaped tokens is the lexer's. */
  lemma {:induction false} LexIsTheOnlyReading(ts: seq<Token>)
    requires WellFormed(ts)
    ensures Lex(Raw(ts)) == ts
  {
    if ts != [] {
      var rest := Raw(ts[1..]);
      ShapedIsNext(ts[0], rest);
      LexIsTheOnlyReading(ts[1..]);
      assert (ts[0].raw + rest)[|ts[0].raw|..] == rest;
    }
  }

  // ---------------------------------------------------------------------------------------
  // Stripping
  // ---------------------------------------------------------------------------------------

  /** The first token, when it is not a comment, stays in front. */
  lemma KeptHead(ts: seq<Token>)
    requires ts != [] && !IsComment(ts[0])
    ensures Kept(ts) != [] && Kept(ts)[0] == ts[0] && Kept(ts)[1..] == Kept(ts[1..])
  {
  }

  /**
   * A token that is not a comment keeps its shape when the comments after it go: a slash on
   * its own is never followed by a comment, and what an open literal runs into is the end.
   */
  lemma ShapeSurvives(t: Token, rest: string, kept: string)
    requires Shaped(t, rest) && !IsComment(t)
    requires rest == "" ==> kept == ""
    requires rest != "" && kept != "" && kept[0] != rest[0] ==> rest[0] == '/'
    ensures Shaped(t, kept)
  {
  }

  lemma {:induction false} KeptIsWellFormed(ts: seq<Token>)
    requires WellFormed(ts)
    ensures WellFormed(Kept(ts))
    ensures Raw(ts) == "" ==> Kept(ts) == []
    ensures Raw(ts) != "" && Raw(Kept(ts)) != "" && Raw(Kept(ts))[0] != Raw(ts)[0] ==> Raw(ts)[0] == '/'
  {
    if ts != [] {
      KeptIsWellFormed(ts[1..]);
      if IsComment(ts[0]) {
      } else {
        KeptHead(ts);
        ShapeSurvives(ts[0], Raw(ts[1..]), Raw(Kept(ts[1..])));
      }
    }
  }

  /**
   * Reading the stripped text again gives exactly the tokens of the original that were not
   * comments: no literal is touched, nothing else is dropped, and the pieces left over never
   * join into a comment that was not there before.
   */
  lemma StrippingRemovesOnlyComments(s: string)
    ensures Lex(Strip(s)) == Kept(Lex(s))
  {
    LexIsWellFormed(s);
    KeptIsWellFormed(Lex(s));
    LexIsTheOnlyReading(Kept(Lex(s)));
  }

  lemma {:induction false} KeptHasNoComments(ts: seq<Token>)
    ensures forall t <- Kept(ts) :: !IsComment(t) && t in ts
    ensures Kept(Kept(ts)) == Kept(ts)
  {
    if ts != [] {
      KeptHasNoComments(ts[1..]);
      assert ts == [ts[0]] + ts[1..];
      if !IsComment(ts[0]) {
        KeptHead(ts);
      }
    }
  }

  /** A stripped text holds no comment, and stripping it again changes nothing. */
  lemma StrippingIsIdempotent(s: string)
    ensures forall t <- Lex(Strip(s)) :: !IsComment(t)
    ensures Strip(Strip(s)) == Strip(s)
  {
    StrippingRemovesOnlyComments(s);
    KeptHasNoComments(Lex(s));
  }

  /** The tokens that say something, by their kind: literals and single characters. */
  function Solid(ts: seq<Token>): seq<Token> {
    if ts == [] then []
    else (match ts[0] case Str(_) => [ts[0]] case Other(_) => [ts[0]] case _ => []) + Solid(ts[1..])
  }

  lemma {:induction false} KeptIsSolid(ts: seq<Token>)
    ensures Kept(ts) == Solid(ts)
  {
    if ts != [] {
      KeptIsSolid(ts[1..]);
    }
  }

  /**
   * However a text is split into shaped tokens, reading the stripped text gives the literals and
   * single characters of that split, in order, and nothing of another kind.
   */
  lemma StrippingLeavesLiteralsAndCharacters(s: string, ts: seq<Token>)
    requires WellFormed(ts) && Raw(ts) == s
    ensures Lex(Strip(s)) == Solid(ts)
    ensures forall t <- Lex(Strip(s)) :: t.Str? || t.Other?
  {
    LexIsTheOnlyReading(ts);
    StrippingRemovesOnlyComments(s);
    KeptIsSolid(ts);
    KeptHasNoComments(ts);
  }

  lemma {:induction false} KeptIsShorter(ts: seq<Token>)
    requires WellFormed(ts)
    ensures |Raw(Kept(ts))| <= |Raw(ts)|
    ensures |Raw(Kept(ts))| == |Raw(ts)| <==> forall t <- ts :: !IsComment(t)
    ensures (forall t <- ts :: !IsComment(t)) ==> Kept(ts) == ts
  {
    if ts != [] {
      KeptIsShorter(ts[1..]);
      assert ts == [ts[0]] + ts[1..];
      assert ts[0].raw != "";
      if !IsComment(ts[0]) {
        KeptHead(ts);
      }
    }
  }

  /** Stripping leaves a text alone exactly when it has no comment. */
  lemma UnchangedIffNoComment(s: string)
    ensures Strip(s) == s <==> forall t <- Lex(s) :: !IsComment(t)
  {
    LexIsWellFormed(s);
    LexIsLossless(s);
    KeptIsShorter(Lex(s));
  }

  // ---------------------------------------------------------------------------------------
  // Stripping, character by character
  // ---------------------------------------------------------------------------------------

  /** A piece of a literal: a character that stands for itself, or one behind a backslash. */
  datatype Piece = Itself(c: char) | Escaped(c: char)

  function Spelt(pieces: seq<Piece>): string {
    if pieces == [] then ""
    else (match pieces[0] case Itself(c) => [c] case Escaped(c) => ['\\', c]) + Spelt(pieces[1..])
  }

  predicate Spellable(pieces: seq<Piece>) {
    forall p <- pieces :: p.Itself? ==> p.c != '"' && p.c != '\\'
  }

  lemma StripNext(s: string, t: Token, rest: string)
    requires s != "" && Next(s) == t && s == t.raw + rest
    ensures Strip(s) == (if IsComment(t) then "" else t.raw) + Strip(rest)
  {
    hide Next;
    assert s[|t.raw|..] == rest;
    KeptCons(t, Lex(rest));
  }

  lemma {:induction false} SpeltLength(pieces: seq<Piece>, rest: string)
    requires Spellable(pieces)
    ensures LiteralLength(Spelt(pieces) + rest) == |Spelt(pieces)| + LiteralLength(rest)
  {
    var s := Spelt(pieces) + rest;
    if pieces == [] {
      assert s == rest;
    } else {
      var tail := Spelt(pieces[1..]) + rest;
      SpeltLength(pieces[1..], rest);
      match pieces[0] {
        case Itself(c) =>
          assert pieces[0] in pieces;
          assert s[0] == c && s[1..] == tail;
        case Escaped(c) =>
          assert s[0] == '\\' && s[1] == c && s[2..] == tail;
      }
    }
  }

  /** A literal stays as it is, whatever its pieces, and so does one that is never closed. */
  lemma StripLiteral(pieces: seq<Piece>, rest: string)
    requires Spellable(pieces)
    ensures Strip("\"" + Spelt(pieces) + "\"" + rest) == "\"" + Spelt(pieces) + "\"" + Strip(rest)
    ensures Strip("\"" + Spelt(pieces)) == "\"" + Spelt(pieces)
    ensures Strip("\"" + Spelt(pieces) + "\\") == "\"" + Spelt(pieces) + "\\"
  {
    hide Lex, Kept, Spelt;
    var b := Spelt(pieces);
    LiteralIsNext(pieces, "\"" + rest, 1);
    LiteralIsNext(pieces, "", 0);
    LiteralIsNext(pieces, "\\", 1);
    NothingStays();
    hide Strip, Next;
    assert "\"" + b + "\"" + rest == "\"" + b + ("\"" + rest) == ("\"" + b + "\"") + rest;
    StripNext("\"" + b + "\"" + rest, Str("\"" + b + "\""), rest);
    assert "\"" + b + "" == "\"" + b;
    StripNext("\"" + b, Str("\"" + b), "");
    StripNext("\"" + b + "\\", Str("\"" + b + "\\"), "");
  }

  lemma NothingStays()
    ensures Strip("") == ""
  {
  }

  /** After the pieces the literal takes `n` more characters: its quote, a last backslash, or nothing. */
  lemma LiteralIsNext(pieces: seq<Piece>, after: string, n: nat)
    requires Spellable(pieces)
    requires if n == 0 then after == "" else n == 1 && (after == "\\" || (after != "" && after[0] == '"'))
    ensures Next("\"" + Spelt(pieces) + after) == Str("\"" + Spelt(pieces) + after[..n])
  {
    hide Spelt;
    var s := "\"" + Spelt(pieces) + after;
    assert s[1..] == Spelt(pieces) + after;
    SpeltLength(pieces, after);
    AfterLength(after, n);
    assert s[..1 + |Spelt(pieces)| + n] == "\"" + Spelt(pieces) + after[..n];
  }

  lemma AfterLength(after: string, n: nat)
    requires if n == 0 then after == "" else n == 1 && (after == "\\" || (after != "" && after[0] == '"'))
    ensures LiteralLength(after) == n
  {
  }

  /** A line comment goes, up to its line feed or the end of the text. */
  lemma StripLineComment(line: string, rest: string)
    requires '\n' !in line
    ensures Strip("//" + line + "\n" + rest) == Strip("\n" + rest)
    ensures Strip("//" + line) == ""
  {
    hide Lex, Kept;
    LineIsNext(line, "\n" + rest);
    LineIsNext(line, "");
    NothingStays();
    hide Strip, Next;
    assert "//" + line + "\n" + rest == "//" + line + ("\n" + rest) && "//" + line + "" == "//" + line;
    StripNext("//" + line + "\n" + rest, LineComment("//" + line), "\n" + rest);
    StripNext("//" + line, LineComment("//" + line), "");
  }

  lemma LineIsNext(line: string, after: string)
    requires '\n' !in line && (after == "" || after[0] == '\n')
    ensures Next("//" + line + after) == LineComment("//" + line)
  {
    var s := "//" + line + after;
    assert s == ("//" + line) + after;
    assert '\n' !in "//" + line;
    LineLengthIs("//" + line, after);
    assert s[..|"//" + line|] == "//" + line;
  }

  /** A block comment goes with its end, or with all the rest when it has none. */
  lemma StripBlockComment(block: string, rest: string)
    requires forall k | 0 <= k < |block| :: !((block + "*/")[k] == '*' && (block + "*/")[k + 1] == '/')
    ensures Strip("/*" + block + "*/" + rest) == Strip(rest)
  {
    hide Lex, Kept;
    var s := "/*" + block + "*/" + rest;
    assert s[2..] == block + "*/" + rest;
    forall k: nat | k < |block| ensures !EndsBlockAt(s[2..], k) {
      assert (block + "*/")[k] == s[2..][k] && (block + "*/")[k + 1] == s[2..][k + 1];
    }
    BlockLengthIs(s[2..], |block| + 2);
    assert s[..2 + |block| + 2] == "/*" + block + "*/";
    assert Next(s) == BlockComment("/*" + block + "*/");
    hide Strip, Next;
    assert s == ("/*" + block + "*/") + rest;
    StripNext(s, BlockComment("/*" + block + "*/"), rest);
  }

  lemma StripOpenBlock(block: string)
    requires forall k | 0 <= k < |block| - 1 :: !(block[k] == '*' && block[k + 1] == '/')
    ensures Strip("/*" + block) == ""
  {
    hide Lex, Kept;
    var s := "/*" + block;
    assert s[2..] == block;
    OpenBlockLength(block);
    assert Next(s) == BlockComment(s);
    NothingStays();
    hide Strip, Next;
    StripNext(s, BlockComment(s), "");
  }

  /** Any other character stays. */
  lemma StripCharacter(c: char, rest: string)
    requires c != '"' && !(c == '/' && rest != "" && (rest[0] == '/' || rest[0] == '*'))
    ensures Strip([c] + rest) == [c] + Strip(rest)
  {
    hide Lex, Kept;
    var s := [c] + rest;
    assert s[..1] == [c] && (|s| > 1 ==> s[1] == rest[0]);
    assert Next(s) == Other([c]);
    hide Strip, Next;
    StripNext(s, Other([c]), rest);
  }

  // ---------------------------------------------------------------------------------------
  // The loop
  // ---------------------------------------------------------------------------------------

  /** What the index loops have still to read. The index may have run past the end. */
  function From(text: string, i: nat): string {
    if i < |text| then text[i..] else ""
  }

  lemma KeptCons(t: Token, ts: seq<Token>)
    ensures Raw(Kept([t] + ts)) == (if IsComment(t) then "" else t.raw) + Raw(Kept(ts))
  {
    assert ([t] + ts)[1..] == ts;
    if !IsComment(t) {
      KeptHead([t] + ts);
    }
  }

  /** What stripping yields from `i` on, when the token that starts there reaches to `j`. */
  lemma StripFrom(text: string, i: nat, j: nat, t: Token)
    requires i < |text| && i <= j
    requires t == Next(text[i..]) && t.raw == text[i..if j < |text| then j else |text|]
    ensures Strip(From(text, i)) == (if IsComment(t) then "" else t.raw) + Strip(From(text, j))
  {
    var s := text[i..];
    assert From(text, i) == s;
    assert From(text, j) == s[|t.raw|..];
    hide Next, From;
    KeptCons(t, Lex(s[|t.raw|..]));
  }

  lemma StripEnds(text: string, i: nat)
    ensures From(text, 0) == text
    ensures i >= |text| ==> Strip(From(text, i)) == ""
  {
  }

  /** Where the literal being read at `i` ends. */
  ghost function LiteralEnd(text: string, i: nat): nat
    requires i <= |text|
  {
    i + LiteralLength(text[i..])
  }

  lemma LiteralEndAfter(text: string, i: nat)
    requires i < |text| && text[i] != '"'
    ensures text[i] != '\\' || i + 1 == |text| ==> LiteralEnd(text, i) == LiteralEnd(text, i + 1)
    ensures text[i] == '\\' && i + 1 < |text| ==> LiteralEnd(text, i) == LiteralEnd(text, i + 2)
  {
    assert text[i..][1..] == text[i + 1..];
    if i + 1 < |text| {
      assert text[i..][2..] == text[i + 2..];
    }
  }

  lemma LiteralEndsHere(text: string, i: nat)
    requires i == |text| || (i < |text| && text[i] == '"')
    ensures LiteralEnd(text, i) == if i < |text| then i + 1 else i
  {
  }

  lemma LiteralFrom(text: string, start: nat)
    requires start < |text| && text[start] == '"'
    ensures start < LiteralEnd(text, start + 1) <= |text|
    ensures Next(text[start..]) == Str(text[start..LiteralEnd(text, start + 1)])
  {
    assert text[start..][1..] == text[start + 1..];
  }

  lemma OneMore(text: string, start: nat, i: nat)
    requires start <= i < |text|
    ensures text[start..i] + [text[i]] == text[start..i + 1]
  {
  }

  /** The literal that opens at `start`, copied verbatim, and the index after it. */
  method CopyLiteral(text: string, start: nat) returns (copy: string, i: nat)
    requires start < |text| && text[start] == '"'
    ensures start < i <= |text| && copy == text[start..i]
    ensures Next(text[start..]) == Str(copy)
  {
    hide Next, LiteralEnd;
    copy, i := "\"", start + 1;
    LiteralFrom(text, start);
    while i < |text| && text[i] != '"'
      invariant start < i <= |text|
      invariant LiteralEnd(text, i) == LiteralEnd(text, start + 1)
      invariant copy == text[start..i]
    {
      LiteralEndAfter(text, i);
      OneMore(text, start, i);
      if text[i] == '\\' {
        copy, i := copy + [text[i]], i + 1;
      }
      if i < |text| {
        OneMore(text, start, i);
        copy, i := copy + [text[i]], i + 1;
      }
    }
    LiteralEndsHere(text, i);
    if i < |text| {
      OneMore(text, start, i);
      copy, i := copy + [text[i]], i + 1;
    }
  }

  /** The end of the line comment that opens at `start`. */
  method SkipLine(text: string, start: nat) returns (i: nat)
    requires start <= |text| && Opens(text[start..], '/')
    ensures start <= i <= |text| && Next(text[start..]) == LineComment(text[start..i])
  {
    i := start;
    while i < |text| && text[i] != '\n'
      invariant start <= i <= |text|
      invariant i + LineLength(text[i..]) == start + LineLength(text[start..])
    {
      assert text[i..][1..] == text[i + 1..];
      i := i + 1;
    }
  }

  /** The end of the block comment that opens at `start`; past the text when it never closes. */
  method SkipBlock(text: string, start: nat) returns (i: nat)
    requires start <= |text| && Opens(text[start..], '*')
    ensures start <= i && Next(text[start..]) == BlockComment(text[start..if i < |text| then i else |text|])
  {
    i := start + 2;
    assert text[start..][2..] == text[i..];
    while i < |text| && !(text[i] == '*' && i + 1 < |text| && text[i + 1] == '/')
      invariant start + 2 <= i <= |text|
      invariant i + BlockLength(text[i..]) == start + 2 + BlockLength(text[start..][2..])
    {
      assert text[i..][1..] == text[i + 1..];
      i := i + 1;
    }
    i := i + 2;
  }

  lemma NextOther(text: string, i: nat)
    requires i < |text| && text[i] != '"' && !Opens(text[i..], '/') && !Opens(text[i..], '*')
    ensures Next(text[i..]) == Other([text[i]]) && [text[i]] == text[i..i + 1]
  {
  }

  method StripJsonComments(text: string) returns (result: string)
    ensures result == Strip(text)
  {
    hide Next, Strip, From;
    result := "";
    var i := 0;
    StripEnds(text, 0);
    while i < |text|
      invariant result + Strip(From(text, i)) == Strip(text)
    {
      ghost var start := i;
      if text[i] == '"' {
        var copy;
        copy, i := CopyLiteral(text, i);
        StripFrom(text, start, i, Str(copy));
        Associates(result, copy, Strip(From(text, i)));
        result := result + copy;
      } else if text[i] == '/' && i + 1 < |text| && text[i + 1] == '/' {
        i := SkipLine(text, i);
        StripFrom(text, start, i, LineComment(text[start..i]));
      } else if text[i] == '/' && i + 1 < |text| && text[i + 1] == '*' {
        i := SkipBlock(text, i);
        StripFrom(text, start, i, BlockComment(text[start..if i < |text| then i else |text|]));
      } else {
        NextOther(text, i);
        StripFrom(text, start, i + 1, Other([text[i]]));
        Associates(result, [text[i]], Strip(From(text, i + 1)));
        result, i := result + [text[i]], i + 1;
      }
    }
    StripEnds(text, i);
  }
}
