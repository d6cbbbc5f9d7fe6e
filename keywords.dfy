/** The reserved-word table (tokentypes.go). */
module KeywordTable {
  import opened Chars
  import opened Wrappers
  import opened Tokens

  /** The reserved-word table: a constant map from exact keyword text to its type. */
  const Keywords: map<seq<byte>, TokenType> := map[
    "and" := And,
    "class" := Class,
    "else" := Else,
    "false" := False,
    "fun" := Fun,
    "for" := For,
    "if" := If,
    "nil" := Nil,
    "or" := Or,
    "print" := Print,
    "return" := Return,
    "super" := Super,
    "this" := This,
    "true" := True,
    "var" := Var,
    "while" := While
  ]

  /** The sixteen reserved words. */
  const ReservedWords: set<seq<byte>> := {
    "and", "class", "else", "false", "fun", "for", "if", "nil",
    "or", "print", "return", "super", "this", "true", "var", "while"
  }

  /** The table's keys are the sixteen reserved words. */
  lemma KeywordsAreTheReservedWords()
    ensures Keywords.Keys == ReservedWords
  {
  }

  /** The table has exactly sixteen entries. */
  lemma KeywordCount()
    ensures |Keywords| == 16
  {
    KeywordsAreTheReservedWords();
    ReservedWordCount();
  }

  lemma ReservedWordCount()
    ensures |ReservedWords| == 16
  {
  }

  /** Distinct reserved words map to distinct token types. */
  lemma KeywordsInjective(w: seq<byte>, v: seq<byte>)
    requires w in Keywords && v in Keywords
    requires Keywords[w] == Keywords[v]
    ensures w == v
  {
  }

  /** Every value of the table is a keyword type; none is a literal type or EOF. */
  lemma KeywordValuesInRange(w: seq<byte>)
    requires w in Keywords
    ensures IsKeywordType(Keywords[w])
    ensures Keywords[w] !in {Identifier, String, Number, EOF}
  {
    KeywordsAreTheReservedWords();
    if w in {"and", "class", "else", "false"} { KeywordValuesInGroup0(w); }
    else if w in {"fun", "for", "if", "nil"} { KeywordValuesInGroup1(w); }
    else if w in {"or", "print", "return", "super"} { KeywordValuesInGroup2(w); }
    else if w in {"this", "true", "var", "while"} { KeywordValuesInGroup3(w); }
    KeywordTypesAreTheSixteen(Keywords[w]);
  }

  lemma KeywordValuesInGroup0(w: seq<byte>)
    requires w in {"and", "class", "else", "false"}
    ensures Keywords[w] in {And, Class, Else, False}
  {
  }

  lemma KeywordValuesInGroup1(w: seq<byte>)
    requires w in {"fun", "for", "if", "nil"}
    ensures Keywords[w] in {Fun, For, If, Nil}
  {
  }

  lemma KeywordValuesInGroup2(w: seq<byte>)
    requires w in {"or", "print", "return", "super"}
    ensures Keywords[w] in {Or, Print, Return, Super}
  {
  }

  lemma KeywordValuesInGroup3(w: seq<byte>)
    requires w in {"this", "true", "var", "while"}
    ensures Keywords[w] in {This, True, Var, While}
  {
  }

  /** The reserved word of a keyword type: the inverse of the table. */
  function KeywordText(t: TokenType): (w: seq<byte>)
    requires IsKeywordType(t)
    ensures w in Keywords && Keywords[w] == t
  {
    match t
    case And => "and"
    case Class => "class"
    case Else => "else"
    case False => "false"
    case Fun => "fun"
    case For => "for"
    case If => "if"
    case Nil => "nil"
    case Or => "or"
    case Print => "print"
    case Return => "return"
    case Super => "super"
    case This => "this"
    case True => "true"
    case Var => "var"
    case While => "while"
  }

  /** The table and KeywordText are inverse bijections between the reserved
      words and the keyword types. */
  lemma KeywordTableRoundTrip(w: seq<byte>)
    requires w in Keywords
    ensures KeywordText(Keywords[w]) == w
  {
    KeywordValuesInRange(w);
    KeywordsInjective(KeywordText(Keywords[w]), w);
  }

  /** Looks a word up in the table; absent words are not keywords. */
  function LookupKeyword(word: seq<byte>): (r: Option<TokenType>)
    ensures r.Some? ==> IsKeywordType(r.value) && KeywordText(r.value) == word
    ensures r.None? ==> word !in ReservedWords
  {
    KeywordsAreTheReservedWords();
    if word in Keywords then
      KeywordValuesInRange(word);
      KeywordTableRoundTrip(word);
      Some(Keywords[word])
    else None
  }

  /** Lookup is by exact text: every reserved word is all lower-case letters,
      so a word holding any other byte (an upper-case letter, a digit, an
      underscore) is not a keyword. */
  lemma KeywordLookupIsExact(word: seq<byte>, i: nat)
    requires i < |word| && !('a' <= word[i] <= 'z')
    ensures LookupKeyword(word).None?
  {
  }

  /** The examples of exact matching: a longer word, a capitalised word and a
      proper prefix of "and" are not keywords. */
  lemma KeywordLookupExamples()
    ensures LookupKeyword("and") == Some(And)
    ensures LookupKeyword("android").None?
    ensures LookupKeyword("And").None?
    ensures LookupKeyword("an").None?
  {
  }
}
