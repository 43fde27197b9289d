/**
 * What the scanner of com/interpreter/rpdc/Scanner.java computes, as pure
 * functions: one call of `scanToken` is `Step`, the loop of `scanTokens` is
 * `ScanFrom`. The class in scanning.dfy is proved to follow these functions;
 * the lemmas here state what the scanner promises.
 */
module Lexical {
  import opened Wrappers
  import opened Tokens

  /** A report handed to the diagnostics sink: `Main.error(line, message)`. */
  datatype ScanError = ScanError(line: nat, message: string)

  /** The source positions `start` and `current` at the moment a token was added. */
  datatype Span = Span(lo: nat, hi: nat)

  /** What one call of `scanToken` does: where `current` and `line` end up,
      and the token and the error (at most one of each) it produces. */
  datatype StepResult = StepResult(next: nat, line: nat, token: Option<Token>, error: Option<ScanError>)

  /** Everything `scanTokens` produces: the token list, the ghost record of the
      span each non-EOF token was cut from, and the diagnostics. */
  datatype Output = Output(tokens: seq<Token>, spans: seq<Span>, errors: seq<ScanError>)

  predicate IsDigit(c: char) { '0' <= c <= '9' }

  predicate IsAlpha(c: char) { 'a' <= c <= 'z' || 'A' <= c <= 'Z' || c == '_' }

  predicate IsAlphaNumeric(c: char) { IsAlpha(c) || IsDigit(c) }

  /** The characters a scanning loop keeps consuming: digits in `number()`,
      letters, digits and `_` in `identifier()`, anything but a line break in
      a comment, anything but a quote in `string()`. */
  datatype Run = Digits | Word | RestOfLine | StringBody

  predicate Keep(run: Run, c: char)
  {
    match run
    case Digits => IsDigit(c)
    case Word => IsAlphaNumeric(c)
    case RestOfLine => c != '\n'
    case StringBody => c != '"'
  }

  /** Where a loop `while (keep(peek()) && !isAtEnd()) advance();` that starts
      at `i` stops: the first index from `i` on whose character fails `keep`,
      or the end of the input. */
  function SkipWhile(src: string, i: nat, keep: Run): (j: nat)
    requires i <= |src|
    ensures i <= j <= |src|
    decreases |src| - i
  {
    if i < |src| && Keep(keep, src[i]) then SkipWhile(src, i + 1, keep) else i
  }

  /** `SkipWhile` stops at the first character from `i` on that `keep` rejects. */
  lemma {:induction false} SkipWhileStops(src: string, i: nat, keep: Run)
    requires i <= |src|
    ensures var j := SkipWhile(src, i, keep);
      && (forall k :: i <= k < j ==> Keep(keep, src[k]))
      && (j < |src| ==> !Keep(keep, src[j]))
    decreases |src| - i
  {
    if i < |src| && Keep(keep, src[i]) {
      SkipWhileStops(src, i + 1, keep);
    }
  }

  /** The number of line breaks in `src[i..j]`, counted from the left as the
      loop of `string()` counts them. */
  function NewlinesIn(src: string, i: nat, j: nat): nat
    requires i <= j <= |src|
    decreases j - i
  {
    if i == j then 0 else NewlinesIn(src, i, j - 1) + (if src[j - 1] == '\n' then 1 else 0)
  }

  /** The number of line breaks in `s`. */
  function Newlines(s: string): nat
  {
    NewlinesIn(s, 0, |s|)
  }

  /** Counting in a slice is counting in the range it was cut from. */
  lemma {:induction false} NewlinesOfSlice(src: string, i: nat, j: nat)
    requires i <= j <= |src|
    ensures Newlines(src[i..j]) == NewlinesIn(src, i, j)
    decreases j - i
  {
    if i < j {
      NewlinesOfSlice(src, i, j - 1);
      NewlinesPrefix(src[i..j], j - 1 - i);
      assert src[i..j][..j - 1 - i] == src[i..j - 1];
    }
  }

  lemma {:induction false} NewlinesPrefix(s: string, k: nat)
    requires k <= |s|
    ensures NewlinesIn(s, 0, k) == NewlinesIn(s[..k], 0, k)
    decreases k
  {
    if k > 0 {
      NewlinesPrefix(s, k - 1);
      NewlinesPrefix(s[..k], k - 1);
      assert s[..k][..k - 1] == s[..k - 1];
    }
  }

  /** The characters `scanToken` has a case for, besides digits and letters. */
  predicate Recognized(c: char)
  {
    c in "(){},.-+;*!=<>/ \r\t\n\""
  }

  /** The reference table of operator tokens: the kind a leading `!`, `=`, `<`
      or `>` gives, by whether an `=` follows it. */
  function OperatorKind(c: char, withEquals: bool): TokenType
    requires c in "!=<>"
  {
    match c
    case '!' => if withEquals then NEGARE_EGAL else NEGARE
    case '=' => if withEquals then EGAL_EGAL else ATRIBUIRE
    case '<' => if withEquals then MAI_MIC_EGAL else MAI_MIC
    case '>' => if withEquals then MAI_MARE_EGAL else MAI_MARE
  }

  /** The kind of each single-character token of `scanToken`. */
  function PunctuationKind(c: char): TokenType
    requires c in "(){},.-+;*"
  {
    match c
    case '(' => PARANTEZA_STANGA
    case ')' => PARANTEZA_DREAPTA
    case '{' => ACOLADA_STANGA
    case '}' => ACOLADA_DREAPTA
    case ',' => VIRGULA
    case '.' => PUNCT
    case '-' => MINUS
    case '+' => PLUS
    case ';' => PUNCT_SI_VIRGULA
    case '*' => STAR
  }

  /** `addToken(kind, lit)` once `current` has reached `next`. */
  function Emit(src: string, pos: nat, next: nat, line: nat, kind: TokenType, lit: Lit): StepResult
    requires pos <= next <= |src|
  {
    StepResult(next, line, Some(Token(kind, src[pos..next], lit, line)), None)
  }

  /** `number()`: digits, then a `.` and more digits only when a digit follows the `.`. */
  function NumberStep(src: string, pos: nat, line: nat): StepResult
    requires pos < |src|
  {
    var d := SkipWhile(src, pos + 1, Digits);
    var e := if d + 1 < |src| && src[d] == '.' && IsDigit(src[d + 1]) then SkipWhile(src, d + 1, Digits) else d;
    Emit(src, pos, e, line, NUMAR, Num(src[pos..e]))
  }

  /** The end of `string()` once its loop has stopped at `q` on line `l`. */
  function StringEnd(src: string, pos: nat, q: nat, l: nat): StepResult
    requires pos < q <= |src|
  {
    if q == |src| then StepResult(q, l, None, Some(ScanError(l, "Unterminated string.")))
    else StepResult(q + 1, l, Some(Token(SIR, src[pos..q + 1], Str(src[pos + 1..q]), l)), None)
  }

  /** `string()`, entered after the opening quote at `pos`. */
  function StringStep(src: string, pos: nat, line: nat): StepResult
    requires pos < |src|
  {
    var q := SkipWhile(src, pos + 1, StringBody);
    StringEnd(src, pos, q, line + NewlinesIn(src, pos + 1, q))
  }

  /** One call of `scanToken` with `start == current == pos`. */
  function Step(src: string, pos: nat, line: nat): (r: StepResult)
    requires pos < |src|
    ensures pos < r.next <= |src| && line <= r.line
    ensures r.token.None? || r.error.None?
  {
    match src[pos]
    case '(' | ')' | '{' | '}' | ',' | '.' | '-' | '+' | ';' | '*' =>
      Emit(src, pos, pos + 1, line, PunctuationKind(src[pos]), Null)
    case '!' | '=' | '<' | '>' =>
      var two := pos + 1 < |src| && src[pos + 1] == '=';
      Emit(src, pos, if two then pos + 2 else pos + 1, line, OperatorKind(src[pos], two), Null)
    case '/' =>
      if pos + 1 < |src| && src[pos + 1] == '/' then StepResult(SkipWhile(src, pos + 2, RestOfLine), line, None, None)
      else Emit(src, pos, pos + 1, line, SLASH, Null)
    case ' ' | '\r' | '\t' => StepResult(pos + 1, line, None, None)
    case '\n' => StepResult(pos + 1, line + 1, None, None)
    case '"' => StringStep(src, pos, line)
    case c =>
      if IsDigit(c) then NumberStep(src, pos, line)
      else if IsAlpha(c) then Emit(src, pos, SkipWhile(src, pos + 1, Word), line, IDENTIFICATOR, Null)
      else StepResult(pos + 1, line, None, Some(ScanError(line, "Unexpected character.")))
  }

  /** `scanToken` on an opening quote is `string()`. */
  lemma {:induction false} StepAtQuote(src: string, pos: nat, line: nat)
    requires pos < |src| && src[pos] == '"'
    ensures var q := SkipWhile(src, pos + 1, StringBody);
      Step(src, pos, line) == StringEnd(src, pos, q, line + NewlinesIn(src, pos + 1, q))
  {
  }

  /** `scanToken` on a digit is `number()`. */
  lemma {:induction false} StepAtDigit(src: string, pos: nat, line: nat)
    requires pos < |src| && IsDigit(src[pos])
    ensures Step(src, pos, line) == NumberStep(src, pos, line)
  {
  }

  function TokensOf(r: StepResult): seq<Token> { if r.token.Some? then [r.token.value] else [] }

  function SpansOf(r: StepResult, pos: nat): seq<Span> { if r.token.Some? then [Span(pos, r.next)] else [] }

  function ErrorsOf(r: StepResult): seq<ScanError> { if r.error.Some? then [r.error.value] else [] }

  /** What the step `r` from `pos` appends to the three lists. */
  function StepOutput(r: StepResult, pos: nat): Output
  {
    Output(TokensOf(r), SpansOf(r, pos), ErrorsOf(r))
  }

  /** `a`'s lists followed by `b`'s. */
  function Join(a: Output, b: Output): Output
  {
    Output(a.tokens + b.tokens, a.spans + b.spans, a.errors + b.errors)
  }

  /** The loop of `scanTokens` from `current == pos` on `line`, with the closing EOF token. */
  function ScanFrom(src: string, pos: nat, line: nat): (out: Output)
    requires pos <= |src|
    decreases |src| - pos
  {
    if pos == |src| then Output([Token(EOF, "", Null, line)], [], [])
    else
      var r := Step(src, pos, line);
      Join(StepOutput(r, pos), ScanFrom(src, r.next, r.line))
  }

  /** One more turn of the loop: what was produced so far, then one step,
      then the rest of the scan, is what was produced so far and the scan. */
  lemma {:induction false} ScanFromStep(done: Output, src: string, pos: nat, line: nat)
    requires pos < |src|
    ensures var r := Step(src, pos, line);
      Join(Join(done, StepOutput(r, pos)), ScanFrom(src, r.next, r.line)) == Join(done, ScanFrom(src, pos, line))
  {
    var r := Step(src, pos, line);
    var a, b := StepOutput(r, pos), ScanFrom(src, r.next, r.line);
    assert done.tokens + a.tokens + b.tokens == done.tokens + (a.tokens + b.tokens);
    assert done.spans + a.spans + b.spans == done.spans + (a.spans + b.spans);
    assert done.errors + a.errors + b.errors == done.errors + (a.errors + b.errors);
  }

  /** `new Scanner(src).scanTokens()`: the line counter starts at 0. */
  function Scan(src: string): Output
  {
    ScanFrom(src, 0, 0)
  }

  // ---------------------------------------------------------------------------
  // One scan step

  /** Every token a step adds is cut from the source between `start` and
      `current`, is never EOF, and carries the line reached by the step. */
  lemma {:induction false} StepToken(src: string, pos: nat, line: nat)
    requires pos < |src|
    ensures var r := Step(src, pos, line);
      r.token.Some? ==>
        && r.token.value.lexeme == src[pos..r.next]
        && r.token.value.kind != EOF
        && !IsKeywordKind(r.token.value.kind)
        && r.token.value.line == r.line
  {
  }

  /** Maximal munch: `!`, `=`, `<`, `>` followed by `=` give the two-character
      token, otherwise the one-character token. */
  lemma {:induction false} StepOperator(src: string, pos: nat, line: nat)
    requires pos < |src| && src[pos] in "!=<>"
    ensures var r := Step(src, pos, line);
      var two := pos + 1 < |src| && src[pos + 1] == '=';
      && r.error.None? && r.line == line
      && r.next == (if two then pos + 2 else pos + 1)
      && r.token == Some(Token(OperatorKind(src[pos], two), src[pos..r.next], Null, line))
  {
  }

  /** The single-character punctuation, including a `.` that no number absorbed. */
  lemma {:induction false} StepPunctuation(src: string, pos: nat, line: nat)
    requires pos < |src| && src[pos] in "(){},.-+;*"
    ensures var r := Step(src, pos, line);
      && r.next == pos + 1 && r.line == line && r.error.None?
      && r.token.Some? && r.token.value.lexeme == [src[pos]]
      && r.token.value.kind == PunctuationKind(src[pos]) && r.token.value.literal == Null
      && (src[pos] == '.' ==> r.token.value.kind == PUNCT)
  {
  }

  /** A `//` comment adds no token and stops just before the next line break,
      or at the end of the input. */
  lemma {:induction false} StepComment(src: string, pos: nat, line: nat)
    requires pos + 1 < |src| && src[pos] == '/' && src[pos + 1] == '/'
    ensures var r := Step(src, pos, line);
      && r.token.None? && r.error.None? && r.line == line
      && pos + 2 <= r.next <= |src|
      && (forall k :: pos + 2 <= k < r.next ==> src[k] != '\n')
      && (r.next < |src| ==> src[r.next] == '\n')
  {
    SkipWhileStops(src, pos + 2, RestOfLine);
  }

  predicate AllDigits(s: string) { forall k :: 0 <= k < |s| ==> IsDigit(s[k]) }

  /** `digit+` or `digit+ . digit+`. */
  predicate NumberShape(s: string)
  {
    || (|s| > 0 && AllDigits(s))
    || (exists d :: 0 < d < |s| - 1 && s[d] == '.' && AllDigits(s[..d]) && AllDigits(s[d + 1..]))
  }

  /** A number is `digit+` optionally followed by `.digit+`; it takes every digit
      there is, and it leaves a `.` alone unless a digit follows it. */
  lemma {:induction false} StepNumber(src: string, pos: nat, line: nat)
    requires pos < |src| && IsDigit(src[pos])
    ensures var r := Step(src, pos, line);
      && r.line == line && r.error.None? && r.token.Some?
      && r.token.value.kind == NUMAR
      && r.token.value.literal == Num(r.token.value.lexeme)
      && NumberShape(r.token.value.lexeme)
      && (r.next < |src| ==> !IsDigit(src[r.next]))
      && ('.' !in r.token.value.lexeme ==>
            !(r.next + 1 < |src| && src[r.next] == '.' && IsDigit(src[r.next + 1])))
  {
    var r := Step(src, pos, line);
    var d := SkipWhile(src, pos + 1, Digits);
    SkipWhileStops(src, pos + 1, Digits);
    var lex := r.token.value.lexeme;
    if d + 1 < |src| && src[d] == '.' && IsDigit(src[d + 1]) {
      var e := SkipWhile(src, d + 1, Digits);
      SkipWhileStops(src, d + 1, Digits);
      assert lex == src[pos..e];
      forall k | pos <= k < e && k != d ensures IsDigit(src[k]) {
        if pos < k < d || d < k { assert Keep(Digits, src[k]); }
      }
      assert lex[d - pos] == '.' && AllDigits(lex[..d - pos]) && AllDigits(lex[d - pos + 1..]) by {
        assert lex[..d - pos] == src[pos..d];
        assert lex[d - pos + 1..] == src[d + 1..e];
      }
    } else {
      assert lex == src[pos..d];
      forall k | 0 <= k < |lex| ensures IsDigit(lex[k]) {
        assert lex[k] == src[pos + k];
        if 0 < k { assert Keep(Digits, src[pos + k]); }
      }
      assert AllDigits(lex);
      assert '.' !in lex;
    }
  }

  /** The end of `string()` at a closing quote: the lexeme runs from quote to
      quote and the literal is what lies between them. */
  lemma {:induction false} StringEndClosed(src: string, pos: nat, q: nat, l: nat)
    requires pos < q < |src| && src[pos] == '"' && src[q] == '"'
    requires forall k :: pos < k < q ==> src[k] != '"'
    ensures var r := StringEnd(src, pos, q, l);
      && r.error.None? && r.token.Some? && r.line == l
      && var t := r.token.value;
      && t.kind == SIR && |t.lexeme| >= 2
      && t.lexeme[0] == '"' && t.lexeme[|t.lexeme| - 1] == '"'
      && t.literal == Str(t.lexeme[1..|t.lexeme| - 1])
      && t.literal.s == src[pos + 1..q]
      && '"' !in t.literal.s
  {
    var lex := src[pos..q + 1];
    var inner := lex[1..|lex| - 1];
    assert |inner| == q - pos - 1;
    forall i | 0 <= i < |inner| ensures inner[i] == src[pos + 1 + i] {
      assert inner[i] == lex[i + 1];
    }
    assert inner == src[pos + 1..q];
  }

  /** A terminated string gives one SIR token whose literal is the lexeme
      without its quotes; every line break inside it advances the line. */
  lemma {:induction false} StepString(src: string, pos: nat, line: nat)
    requires pos < |src| && src[pos] == '"'
    requires exists k :: pos < k < |src| && src[k] == '"'
    ensures var r := Step(src, pos, line);
      && r.error.None? && r.token.Some?
      && var t := r.token.value;
      && t.kind == SIR && |t.lexeme| >= 2
      && t.lexeme[0] == '"' && t.lexeme[|t.lexeme| - 1] == '"'
      && t.literal == Str(t.lexeme[1..|t.lexeme| - 1])
      && '"' !in t.literal.s
      && r.line == line + Newlines(t.literal.s)
  {
    var q := SkipWhile(src, pos + 1, StringBody);
    SkipWhileStops(src, pos + 1, StringBody);
    var k :| pos < k < |src| && src[k] == '"';
    assert q <= k;
    StepAtQuote(src, pos, line);
    StringEndClosed(src, pos, q, line + NewlinesIn(src, pos + 1, q));
    NewlinesOfSlice(src, pos + 1, q);
  }

  /** A string with no closing quote reports exactly one error, adds no
      token and runs to the end of the input. */
  lemma {:induction false} StepUnterminatedString(src: string, pos: nat, line: nat)
    requires pos < |src| && src[pos] == '"'
    requires forall k :: pos < k < |src| ==> src[k] != '"'
    ensures var r := Step(src, pos, line);
      && r.next == |src| && r.token.None?
      && r.line == line + Newlines(src[pos + 1..])
      && r.error == Some(ScanError(r.line, "Unterminated string."))
  {
    var q := SkipWhile(src, pos + 1, StringBody);
    SkipWhileStops(src, pos + 1, StringBody);
    assert src[pos + 1..q] == src[pos + 1..];
    NewlinesOfSlice(src, pos + 1, q);
  }

  /** Every word starting with a letter or `_` is an IDENTIFICATOR token, keywords
      included (the keyword looked up at Scanner.java:129-130 is not used), and it
      takes the whole run of letters, digits and `_`. */
  lemma {:induction false} StepIdentifier(src: string, pos: nat, line: nat)
    requires pos < |src| && IsAlpha(src[pos])
    ensures var r := Step(src, pos, line);
      && r.line == line && r.error.None?
      && r.token == Some(Token(IDENTIFICATOR, src[pos..r.next], Null, line))
      && (forall k :: pos <= k < r.next ==> IsAlphaNumeric(src[k]))
      && (r.next < |src| ==> !IsAlphaNumeric(src[r.next]))
  {
    SkipWhileStops(src, pos + 1, Word);
  }

  /** An unexpected character is reported once, on the current line, and
      scanning goes on with the next character. */
  lemma {:induction false} StepUnexpected(src: string, pos: nat, line: nat)
    requires pos < |src| && !Recognized(src[pos]) && !IsAlphaNumeric(src[pos])
    ensures Step(src, pos, line) == StepResult(pos + 1, line, None, Some(ScanError(line, "Unexpected character.")))
  {
  }

  /** Line breaks advance the line; blanks, tabs and carriage returns are skipped. */
  lemma {:induction false} StepWhitespace(src: string, pos: nat, line: nat)
    requires pos < |src| && src[pos] in " \r\t\n"
    ensures Step(src, pos, line) == StepResult(pos + 1, if src[pos] == '\n' then line + 1 else line, None, None)
  {
  }

  // ---------------------------------------------------------------------------
  // The whole scan

  /** The token list ends with exactly one EOF token, with an empty lexeme and
      a null literal, and no other token is EOF. */
  lemma {:induction false} ScanEndsWithEof(src: string, pos: nat, line: nat)
    requires pos <= |src|
    ensures var ts := ScanFrom(src, pos, line).tokens;
      && |ts| > 0
      && ts[|ts| - 1].kind == EOF && ts[|ts| - 1].lexeme == "" && ts[|ts| - 1].literal == Null
      && forall i :: 0 <= i < |ts| - 1 ==> ts[i].kind != EOF
    decreases |src| - pos
  {
    if pos < |src| {
      var r := Step(src, pos, line);
      StepToken(src, pos, line);
      ScanEndsWithEof(src, r.next, r.line);
      assert ScanFrom(src, pos, line) == Join(StepOutput(r, pos), ScanFrom(src, r.next, r.line));
    }
  }

  /** Each non-EOF token's lexeme is the source slice it was cut from, and the
      slices follow one another in source order without overlapping. */
  lemma {:induction false} ScanLexemesAreSlices(src: string, pos: nat, line: nat)
    requires pos <= |src|
    ensures var out := ScanFrom(src, pos, line);
      && |out.spans| == |out.tokens| - 1
      && (forall i :: 0 <= i < |out.spans| ==>
            && pos <= out.spans[i].lo < out.spans[i].hi <= |src|
            && out.tokens[i].lexeme == src[out.spans[i].lo..out.spans[i].hi])
      && (forall i, j :: 0 <= i < j < |out.spans| ==> out.spans[i].hi <= out.spans[j].lo)
    decreases |src| - pos
  {
    if pos < |src| {
      var r := Step(src, pos, line);
      StepToken(src, pos, line);
      ScanLexemesAreSlices(src, r.next, r.line);
      assert ScanFrom(src, pos, line) == Join(StepOutput(r, pos), ScanFrom(src, r.next, r.line));
    }
  }

  /** Tokens on line `l` or later, in order of their lines. */
  predicate LinesFrom(ts: seq<Token>, l: nat)
  {
    && (forall i :: 0 <= i < |ts| ==> l <= ts[i].line)
    && (forall i, j :: 0 <= i < j < |ts| ==> ts[i].line <= ts[j].line)
  }

  lemma {:induction false} LinesFromPrepend(head: seq<Token>, tail: seq<Token>, l: nat, l0: nat)
    requires l0 <= l && |head| <= 1 && (forall t :: t in head ==> t.line == l) && LinesFrom(tail, l)
    ensures LinesFrom(head + tail, l0)
  {
    var ts := head + tail;
    forall i, j | 0 <= i < j < |ts| ensures ts[i].line <= ts[j].line {
      assert ts[j] == tail[j - |head|];
    }
  }

  /** Lines never decrease: every token is on the starting line or later, and
      a later token is never on an earlier line. */
  lemma {:induction false} ScanLinesNondecreasing(src: string, pos: nat, line: nat)
    requires pos <= |src|
    ensures LinesFrom(ScanFrom(src, pos, line).tokens, line)
    decreases |src| - pos
  {
    if pos < |src| {
      var r := Step(src, pos, line);
      StepToken(src, pos, line);
      ScanLinesNondecreasing(src, r.next, r.line);
      LinesFromPrepend(TokensOf(r), ScanFrom(src, r.next, r.line).tokens, r.line, line);
    }
  }

  /** Because every word becomes IDENTIFICATOR, no scanned token has a keyword kind. */
  lemma {:induction false} ScanNoKeywordTokens(src: string, pos: nat, line: nat)
    requires pos <= |src|
    ensures forall t :: t in ScanFrom(src, pos, line).tokens ==> !IsKeywordKind(t.kind)
    decreases |src| - pos
  {
    if pos < |src| {
      var r := Step(src, pos, line);
      StepToken(src, pos, line);
      ScanNoKeywordTokens(src, r.next, r.line);
      assert ScanFrom(src, pos, line) == Join(StepOutput(r, pos), ScanFrom(src, r.next, r.line));
    }
  }

  /** An unterminated string that runs to the end of the input yields exactly
      one error and no token before the EOF, and the scan still ends. */
  lemma {:induction false} UnterminatedStringAtEnd(src: string, pos: nat, line: nat)
    requires pos < |src| && src[pos] == '"'
    requires forall k :: pos < k < |src| ==> src[k] != '"'
    ensures var out := ScanFrom(src, pos, line);
      var l := line + Newlines(src[pos + 1..]);
      && out.tokens == [Token(EOF, "", Null, l)]
      && out.errors == [ScanError(l, "Unterminated string.")]
  {
    StepUnterminatedString(src, pos, line);
  }
}
