/**
 * The scanner of com/interpreter/rpdc/Scanner.java as a class whose fields
 * `start`, `current` and `line` are advanced step by step. Every method is
 * proved to do what the functions of module Lexical say.
 */
module Scanning {
  import opened Wrappers
  import opened Tokens
  import opened Lexical

  /** The keyword table of Scanner.java:13-33 ("print" maps to SCRIE and
      "return" to INTOARCE). `Identifier` looks words up in it and, as the
      source does, then ignores what it found. */
  const Keywords: map<string, TokenType> := map[
    "and" := SI, "class" := CLASA, "else" := ALTFEL, "false" := FALS,
    "for" := PENTRU, "fun" := FUNCTIE, "if" := DACA, "nil" := NIMIC,
    "or" := SAU, "print" := SCRIE, "return" := INTOARCE, "super" := SUPER,
    "this" := ACESTA, "true" := ADEVARAT, "var" := VARIABILA, "while" := CAT_TIMP]

  class Scanner {
    const source: string
    var tokens: seq<Token>
    var start: nat
    var current: nat
    var line: nat
    /** What was handed to the diagnostics sink, in order. */
    var errors: seq<ScanError>
    /** The `start..current` span of every token added so far. */
    ghost var spans: seq<Span>

    ghost predicate Valid()
      reads this
    {
      start <= current <= |source|
    }

    /** The three lists built so far. */
    ghost function Produced(): Output
      reads this
    {
      Output(tokens, spans, errors)
    }

    /** The state reached from `pos` by the step `r`, given the lists before it. */
    ghost predicate Stepped(r: StepResult, pos: nat, ts: seq<Token>, sp: seq<Span>, es: seq<ScanError>)
      reads this
    {
      && current == r.next && line == r.line
      && tokens == ts + TokensOf(r) && spans == sp + SpansOf(r, pos) && errors == es + ErrorsOf(r)
    }

    constructor (source: string)
      ensures Valid() && this.source == source
      ensures tokens == [] && spans == [] && errors == []
      ensures start == 0 && current == 0 && line == 0
    {
      this.source := source;
      tokens, spans, errors := [], [], [];
      start, current, line := 0, 0, 0;
    }

    function IsAtEnd(): bool
      reads this
    {
      current >= |source|
    }

    /** One character of lookahead; NUL at the end of the input. */
    function Peek(): char
      reads this
    {
      if IsAtEnd() then '\0' else source[current]
    }

    /** Two characters of lookahead; NUL past the end of the input. */
    function PeekNext(): char
      reads this
    {
      if current + 1 >= |source| then '\0' else source[current + 1]
    }

    method Advance() returns (c: char)
      requires Valid() && current < |source|
      modifies this
      ensures Valid() && current == old(current) + 1 && c == source[old(current)]
      ensures start == old(start) && line == old(line)
      ensures tokens == old(tokens) && spans == old(spans) && errors == old(errors)
    {
      current := current + 1;
      c := source[current - 1];
    }

    /** Consumes the next character only when it is `expected`. */
    method Match(expected: char) returns (b: bool)
      requires Valid()
      modifies this
      ensures Valid()
      ensures b == (old(current) < |source| && source[old(current)] == expected)
      ensures current == if b then old(current) + 1 else old(current)
      ensures start == old(start) && line == old(line)
      ensures tokens == old(tokens) && spans == old(spans) && errors == old(errors)
    {
      if IsAtEnd() { return false; }
      if source[current] != expected { return false; }
      current := current + 1;
      return true;
    }

    /** Adds a token whose lexeme is `source[start..current]`. */
    method AddToken(kind: TokenType, literal: Lit)
      requires Valid()
      modifies this
      ensures Valid()
      ensures tokens == old(tokens) + [Token(kind, source[start..current], literal, line)]
      ensures spans == old(spans) + [Span(start, current)]
      ensures start == old(start) && current == old(current) && line == old(line) && errors == old(errors)
    {
      var text := source[start..current];
      tokens := tokens + [Token(kind, text, literal, line)];
      spans := spans + [Span(start, current)];
    }

    /** `Main.error(line, message)`. */
    method Error(message: string)
      modifies this
      ensures errors == old(errors) + [ScanError(line, message)]
      ensures start == old(start) && current == old(current) && line == old(line)
      ensures tokens == old(tokens) && spans == old(spans)
    {
      errors := errors + [ScanError(line, message)];
    }

    /** The loops of `identifier()`, `number()` and of a `//` comment:
        advances while the next character belongs to `run`; the NUL that
        `Peek` gives at the end of the input belongs to none of them. */
    method Skip(run: Run)
      requires Valid() && run != StringBody
      modifies this
      ensures Valid() && current == SkipWhile(source, old(current), run)
      ensures start == old(start) && line == old(line)
      ensures tokens == old(tokens) && spans == old(spans) && errors == old(errors)
    {
      while !IsAtEnd() && Keep(run, Peek())
        invariant Valid() && start == old(start) && old(current) <= current
        invariant SkipWhile(source, current, run) == SkipWhile(source, old(current), run)
        invariant line == old(line) && tokens == old(tokens) && spans == old(spans) && errors == old(errors)
        decreases |source| - current
      {
        var c := Advance();
      }
    }

    /** Java's `identifier()`: the keyword found for the word is not used,
        every word becomes an IDENTIFICATOR token. */
    method Identifier()
      requires Valid() && current == start + 1 && IsAlpha(source[start])
      modifies this
      ensures Valid() && start == old(start)
      ensures Stepped(Step(source, start, old(line)), start, old(tokens), old(spans), old(errors))
    {
      Skip(Word);
      var text := source[start..current];
      var kind := if text in Keywords then Keywords[text] else IDENTIFICATOR;
      AddToken(IDENTIFICATOR, Null);
    }

    /** Java's `number()`. */
    method Number()
      requires Valid() && current == start + 1 && IsDigit(source[start])
      modifies this
      ensures Valid() && start == old(start)
      ensures Stepped(Step(source, start, old(line)), start, old(tokens), old(spans), old(errors))
    {
      StepAtDigit(source, start, line);
      Skip(Digits);
      if Peek() == '.' && IsDigit(PeekNext()) {
        var dot := Advance();
        Skip(Digits);
      }
      AddToken(NUMAR, Num(source[start..current]));
    }

    /** The loop of `string()`: advances to the closing quote or to the end
        of the input, counting the line breaks it passes. */
    method SkipStringBody()
      requires Valid() && start < current
      modifies this
      ensures Valid() && start == old(start)
      ensures current == SkipWhile(source, old(current), StringBody)
      ensures line == old(line) + NewlinesIn(source, old(current), current)
      ensures tokens == old(tokens) && spans == old(spans) && errors == old(errors)
    {
      while Peek() != '"' && !IsAtEnd()
        invariant Valid() && start == old(start) && old(current) <= current
        invariant SkipWhile(source, current, StringBody) == SkipWhile(source, old(current), StringBody)
        invariant line == old(line) + NewlinesIn(source, old(current), current)
        invariant tokens == old(tokens) && spans == old(spans) && errors == old(errors)
        decreases |source| - current
      {
        if Peek() == '\n' { line := line + 1; }
        var c := Advance();
      }
    }

    /** Java's `string()`: entered just after the opening quote. */
    method StringLiteral()
      requires Valid() && current == start + 1 && source[start] == '"'
      modifies this
      ensures Valid() && start == old(start)
      ensures Stepped(Step(source, start, old(line)), start, old(tokens), old(spans), old(errors))
    {
      StepAtQuote(source, start, line);
      SkipStringBody();
      if IsAtEnd() {
        Error("Unterminated string.");
        return;
      }
      var close := Advance();
      var value := source[start + 1..current - 1];
      AddToken(SIR, Str(value));
    }

    /** Java's `scanToken()`, with `start == current`. */
    method ScanToken()
      requires Valid() && start == current < |source|
      modifies this
      ensures Valid() && start == old(start)
      ensures Stepped(Step(source, start, old(line)), start, old(tokens), old(spans), old(errors))
    {
      var c := Advance();
      match c {
        case '(' | ')' | '{' | '}' | ',' | '.' | '-' | '+' | ';' | '*' =>
          AddToken(PunctuationKind(c), Null);
        case '!' | '=' | '<' | '>' =>
          var m := Match('=');
          AddToken(OperatorKind(c, m), Null);
        case '/' =>
          var m := Match('/');
          if m {
            Skip(RestOfLine);
          } else {
            AddToken(SLASH, Null);
          }
        case ' ' | '\r' | '\t' =>
        case '\n' => line := line + 1;
        case '"' => StringLiteral();
        case _ =>
          if IsDigit(c) {
            Number();
          } else if IsAlpha(c) {
            Identifier();
          } else {
            Error("Unexpected character.");
          }
      }
    }

    /** Java's `scanTokens()`: scans to the end of the input, then adds EOF. */
    method ScanTokens() returns (result: seq<Token>)
      requires Valid()
      modifies this
      ensures Produced() == Join(old(Produced()), ScanFrom(source, old(current), old(line)))
      ensures result == tokens
    {
      while !IsAtEnd()
        invariant Valid() && old(current) <= current
        invariant Join(Produced(), ScanFrom(source, current, line)) == Join(old(Produced()), ScanFrom(source, old(current), old(line)))
        decreases |source| - current
      {
        start := current;
        ghost var done, pos, l := Produced(), current, line;
        ScanToken();
        ScanFromStep(done, source, pos, l);
        assert Produced() == Join(done, StepOutput(Step(source, pos, l), pos));
      }
      tokens := tokens + [Token(EOF, "", Null, line)];
      result := tokens;
    }
  }

  /** `new Scanner(src).scanTokens()`: the token list of the whole source. */
  method Tokenize(src: string) returns (ts: seq<Token>)
    ensures ts == Scan(src).tokens
  {
    var scanner := new Scanner(src);
    ts := scanner.ScanTokens();
  }
}
