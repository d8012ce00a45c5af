/**
 The two character classes the rewrite patterns use: whitespace (`\s`) and word
 characters (`\w`). Python defines both over all of Unicode; the model keeps them
 abstract and relies only on the facts collected in `Sound`.
 */
module CharClasses {

  /** A choice of the whitespace and word-character predicates. */
  datatype Classes = Classes(isSpace: char -> bool, isWord: char -> bool)

  /** ASCII letters, digits and the underscore: word characters in every Python build. */
  predicate AsciiWord(c: char) {
    ('a' <= c <= 'z') || ('A' <= c <= 'Z') || ('0' <= c <= '9') || c == '_'
  }

  /** Space, tab, newline, carriage return, vertical tab and form feed. */
  predicate AsciiSpace(c: char) {
    c == ' ' || c == '\t' || c == '\n' || c == '\r' || c == '\U{000B}' || c == '\U{000C}'
  }

  /** The punctuation that occurs in the four patterns. */
  predicate PatternPunctuation(c: char) {
    c == '<' || c == '>' || c == '/' || c == '=' || c == '\'' || c == '-' || c == ':' || c == '#'
  }

  /** What the model assumes of `\s` and `\w`; Python's Unicode classes satisfy all of it. */
  predicate Sound(k: Classes) {
    && (forall c :: AsciiWord(c) ==> k.isWord(c))
    && (forall c :: AsciiSpace(c) ==> k.isSpace(c))
    && (forall c :: PatternPunctuation(c) ==> !k.isWord(c) && !k.isSpace(c))
    && (forall c :: k.isSpace(c) ==> !k.isWord(c))
  }

  /** The ASCII-only reading of the two classes. */
  function AsciiClasses(): Classes {
    Classes(c => AsciiSpace(c), c => AsciiWord(c))
  }

  lemma AsciiClassesSound()
    ensures Sound(AsciiClasses())
  {
  }
}
