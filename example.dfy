/**
 * The two-sentence document "I contain four words. Therefore, it should be
 * possible to calculate by hand." with a syllable splitter that gives the
 * hand-counted syllables of each word.
 */
module Example {
  import opened Document

  /** A word whose lemma is its text. */
  function Word(text: string): Token {
    Token(text, text, false, false)
  }

  /** A punctuation mark. */
  function Punct(text: string): Token {
    Token(text, text, true, false)
  }

  function FirstSentence(): Sentence {
    [Word("I"), Word("contain"), Word("four"), Word("words"), Punct(".")]
  }

  function SecondSentence(): Sentence {
    [Word("Therefore"), Punct(","), Word("it"), Word("should"), Word("be"), Word("possible"),
     Word("to"), Word("calculate"), Word("by"), Word("hand"), Punct(".")]
  }

  function ExampleDoc(): Doc {
    [FirstSentence(), SecondSentence()]
  }

  /** A splitter that knows the syllables of the example's words. */
  function ExampleSyllables(w: string): seq<string> {
    if w == "contain" then ["con", "tain"]
    else if w == "Therefore" then ["There", "fore"]
    else if w == "possible" then ["pos", "si", "ble"]
    else if w == "calculate" then ["cal", "cu", "late"]
    else if w == "." || w == "," then []
    else [w]
  }

  /** The sums over one token sequence, as a triple (words, letters, syllables). */
  function Sums(ts: seq<Token>): (nat, nat, nat) {
    (CountWords(ts), SumLetters(ts), SumSyllables(ts, ExampleSyllables))
  }

  // The sums of consecutive chunks of the example, built up one token at a time.

  lemma FirstChunk()
    ensures Sums([Word("I"), Word("contain"), Word("four")]) == (3, 12, 4)
  {
    var s: seq<Token> := [];
    SumsSnoc(s, Word("I"), ExampleSyllables);
    s := s + [Word("I")];
    SumsSnoc(s, Word("contain"), ExampleSyllables);
    s := s + [Word("contain")];
    SumsSnoc(s, Word("four"), ExampleSyllables);
    s := s + [Word("four")];
    assert s == [Word("I"), Word("contain"), Word("four")];
  }

  lemma SecondChunk()
    ensures Sums([Word("words"), Punct(".")]) == (1, 5, 1)
  {
    var s: seq<Token> := [];
    SumsSnoc(s, Word("words"), ExampleSyllables);
    s := s + [Word("words")];
    SumsSnoc(s, Punct("."), ExampleSyllables);
    s := s + [Punct(".")];
    assert s == [Word("words"), Punct(".")];
  }

  lemma ThirdChunk()
    ensures Sums([Word("Therefore"), Punct(","), Word("it"), Word("should")]) == (3, 17, 4)
  {
    var s: seq<Token> := [];
    SumsSnoc(s, Word("Therefore"), ExampleSyllables);
    s := s + [Word("Therefore")];
    SumsSnoc(s, Punct(","), ExampleSyllables);
    s := s + [Punct(",")];
    SumsSnoc(s, Word("it"), ExampleSyllables);
    s := s + [Word("it")];
    SumsSnoc(s, Word("should"), ExampleSyllables);
    s := s + [Word("should")];
    assert s == [Word("Therefore"), Punct(","), Word("it"), Word("should")];
  }

  lemma FourthChunk()
    ensures Sums([Word("be"), Word("possible"), Word("to")]) == (3, 12, 5)
  {
    var s: seq<Token> := [];
    SumsSnoc(s, Word("be"), ExampleSyllables);
    s := s + [Word("be")];
    SumsSnoc(s, Word("possible"), ExampleSyllables);
    s := s + [Word("possible")];
    SumsSnoc(s, Word("to"), ExampleSyllables);
    s := s + [Word("to")];
    assert s == [Word("be"), Word("possible"), Word("to")];
  }

  lemma FifthChunk()
    ensures Sums([Word("calculate"), Word("by"), Word("hand"), Punct(".")]) == (3, 15, 5)
  {
    var s: seq<Token> := [];
    SumsSnoc(s, Word("calculate"), ExampleSyllables);
    s := s + [Word("calculate")];
    SumsSnoc(s, Word("by"), ExampleSyllables);
    s := s + [Word("by")];
    SumsSnoc(s, Word("hand"), ExampleSyllables);
    s := s + [Word("hand")];
    SumsSnoc(s, Punct("."), ExampleSyllables);
    s := s + [Punct(".")];
    assert s == [Word("calculate"), Word("by"), Word("hand"), Punct(".")];
  }

  /** "I contain four words." has 4 words, 17 letters and 5 syllables. */
  lemma FirstSentenceSums()
    ensures Sums(FirstSentence()) == (4, 17, 5)
  {
    var a, b := [Word("I"), Word("contain"), Word("four")], [Word("words"), Punct(".")];
    FirstChunk();
    SecondChunk();
    SumsAppend(a, b, ExampleSyllables);
    assert FirstSentence() == a + b;
  }

  /** "Therefore, it should be possible to calculate by hand." has 9 words, 44 letters and 14 syllables. */
  lemma SecondSentenceSums()
    ensures Sums(SecondSentence()) == (9, 44, 14)
  {
    var a := [Word("Therefore"), Punct(","), Word("it"), Word("should")];
    var b := [Word("be"), Word("possible"), Word("to")];
    var c := [Word("calculate"), Word("by"), Word("hand"), Punct(".")];
    ThirdChunk();
    FourthChunk();
    FifthChunk();
    SumsAppend(a, b, ExampleSyllables);
    SumsAppend(a + b, c, ExampleSyllables);
    assert SecondSentence() == a + b + c;
  }

  /** The totals of the example: 2 sentences, 13 words, 19 syllables, 61 letters. */
  lemma ExampleTotals()
    ensures Totals(ExampleDoc(), ExampleSyllables) == Aggregates(2, 13, 19, 61)
  {
    assert ExampleDoc()[..0] == [];
    assert ExampleDoc()[..1] == [FirstSentence()];
    FlattenSnoc(ExampleDoc(), 0);
    FlattenSnoc(ExampleDoc(), 1);
    assert ExampleDoc()[..2] == ExampleDoc();
    assert Flatten(ExampleDoc()) == FirstSentence() + SecondSentence();
    FirstSentenceSums();
    SecondSentenceSums();
    SumsAppend(FirstSentence(), SecondSentence(), ExampleSyllables);
  }
}
