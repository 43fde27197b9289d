/**
 * Token kinds, literal values and tokens shared by the scanner and the parser
 * (com/interpreter/rpdc/TokenType.java, and the Token record it tags).
 *
 * Scanner.java and Parser.java name three kinds that TokenType.java does not
 * declare. They are read as the declared kind of the same role:
 *   EGAL      (Scanner.java:86)           -> ATRIBUIRE  (assignment '=')
 *   AFISEAZA  (Scanner.java:26)           -> SCRIE      (keyword 'print')
 *   RETURNARE (Scanner.java:27, Parser.java:290) -> INTOARCE (keyword 'return')
 */
module Tokens {

  datatype TokenType =
    // Single-character tokens
    | PARANTEZA_STANGA | PARANTEZA_DREAPTA | ACOLADA_STANGA | ACOLADA_DREAPTA
    | VIRGULA | PUNCT | MINUS | PLUS | PUNCT_SI_VIRGULA | SLASH | STAR
    // One or two character tokens
    | NEGARE | NEGARE_EGAL
    | ATRIBUIRE | EGAL_EGAL
    | MAI_MARE | MAI_MARE_EGAL
    | MAI_MIC | MAI_MIC_EGAL
    // Literals
    | IDENTIFICATOR | SIR | NUMAR
    // Keywords
    | SI | CLASA | ALTFEL | FALS | FUNCTIE | PENTRU | DACA | NIMIC | SAU
    | SCRIE | INTOARCE | SUPER | ACESTA | ADEVARAT | VARIABILA | CAT_TIMP
    | PROCEDURA
    | EOF

  /** The literal a token carries, or that a Literal expression holds: Java's
      null, a Boolean, a number (kept as its digit lexeme) or a String. */
  datatype Lit = Null | Bool(b: bool) | Num(digits: string) | Str(s: string)

  datatype Token = Token(kind: TokenType, lexeme: string, literal: Lit, line: nat)

  /** The kinds the keyword table of the scanner maps words to. */
  predicate IsKeywordKind(k: TokenType)
  {
    k in {SI, CLASA, ALTFEL, FALS, PENTRU, FUNCTIE, DACA, NIMIC, SAU,
          SCRIE, INTOARCE, SUPER, ACESTA, ADEVARAT, VARIABILA, CAT_TIMP}
  }
}
