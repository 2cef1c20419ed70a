/**
 * The statistics pass of the component (its `__call__`): one walk over the
 * sentences and their tokens that counts sentences, countable words,
 * syllables and letters, and annotates every countable token.
 */
module Collector {
  import opened Wrappers
  import opened Document

  /**
   * Runs the statistics pass over `doc`, with `syllables` as the syllable
   * splitter. The totals are the specification sums of Document, and the
   * annotation map holds an entry exactly for the countable tokens.
   */
  method Collect(doc: Doc, syllables: string -> seq<string>) returns (d: AnnotatedDoc)
    ensures d.sents == doc
    ensures d.totals.totalSentences == |doc|
    ensures d.totals.totalWords == CountWords(Flatten(doc))
    ensures d.totals.totalSyllables == SumSyllables(Flatten(doc), syllables)
    ensures d.totals.totalLetters == SumLetters(Flatten(doc))
    ensures AnnotationsMatch(d.ann, Flatten(doc), syllables)
  {
    var totalSentences, totalWords, totalSyllables, totalLetters := 0, 0, 0, 0;
    var ann: map<nat, TokenAnnotation> := map[];
    var pos := 0;  // document position of the next token
    for i := 0 to |doc|
      invariant totalSentences == i
      invariant pos == |Flatten(doc[..i])|
      invariant totalWords == CountWords(Flatten(doc[..i]))
      invariant totalSyllables == SumSyllables(Flatten(doc[..i]), syllables)
      invariant totalLetters == SumLetters(Flatten(doc[..i]))
      invariant AnnotationsMatch(ann, Flatten(doc[..i]), syllables)
    {
      totalSentences := totalSentences + 1;
      ghost var seen := Flatten(doc[..i]);
      for j := 0 to |doc[i]|
        invariant seen == Flatten(doc[..i]) + doc[i][..j]
        invariant pos == |seen|
        invariant totalWords == CountWords(seen)
        invariant totalSyllables == SumSyllables(seen, syllables)
        invariant totalLetters == SumLetters(seen)
        invariant AnnotationsMatch(ann, seen, syllables)
      {
        var token := doc[i][j];
        TakeSnoc(doc[i], j);
        SumsSnoc(seen, token, syllables);
        AnnotateSnoc(ann, seen, token, syllables);
        if !token.isPunct && !token.isDigit {
          totalWords := totalWords + 1;
          var a := TokenAnnotation(|token.text|, None, None);
          totalLetters := totalLetters + |token.text|;
          var syl := syllables(token.text);
          if |syl| > 0 {
            a := a.(syllables := Some(syl), syllablesCount := Some(|syl|));
            totalSyllables := totalSyllables + |syl|;
          }
          assert a == AnnotationOf(token, syllables);
          ann := ann[pos := a];
        }
        seen := seen + [token];
        pos := pos + 1;
      }
      assert doc[i][..|doc[i]|] == doc[i];
      FlattenSnoc(doc, i);
    }
    assert doc[..|doc|] == doc;
    d := AnnotatedDoc(doc, Aggregates(totalSentences, totalWords, totalSyllables, totalLetters), ann);
  }
}
