/**
 * The document the component reads and the statistics it derives from it:
 * tokens with their flags, the "countable word" filter, the four totals and
 * the per-token annotations, all as specification functions.
 *
 * Token positions are positions in the whole document, sentences laid end to
 * end; this is the order in which both the statistics pass (sentence by
 * sentence) and the formulas (`for word in doc`) visit the tokens.
 */
module Document {
  import opened Wrappers

  /** One lexical unit as the tokenizer delivers it. */
  datatype Token = Token(text: string, lemmaText: string, isPunct: bool, isDigit: bool)

  type Sentence = seq<Token>

  /** A sentence-segmented document. */
  type Doc = seq<Sentence>

  /** The four document totals the statistics pass stores on the document. */
  datatype Aggregates = Aggregates(totalSentences: nat, totalWords: nat, totalSyllables: nat, totalLetters: nat)

  /**
   * The attributes the statistics pass writes on one countable token:
   * `letters_count` always, `syllables` and `syllables_count` only when the
   * splitter returned at least one syllable.
   */
  datatype TokenAnnotation = TokenAnnotation(lettersCount: nat, syllables: Option<seq<string>>, syllablesCount: Option<nat>)

  /** A document after the statistics pass: the sentences, the totals and the annotations by position. */
  datatype AnnotatedDoc = AnnotatedDoc(sents: Doc, totals: Aggregates, ann: map<nat, TokenAnnotation>)

  /** The tokens of an annotated document, in order: what `for word in doc` visits. */
  function Tokens(d: AnnotatedDoc): seq<Token> {
    Flatten(d.sents)
  }

  /** The filter every total and every token-walking formula applies. */
  predicate Countable(t: Token) {
    !t.isPunct && !t.isDigit
  }

  /** The tokens of the document in order. */
  function Flatten(doc: Doc): seq<Token> {
    if doc == [] then [] else Flatten(doc[..|doc| - 1]) + doc[|doc| - 1]
  }

  /** The number of countable tokens. */
  function CountWords(ts: seq<Token>): nat {
    if ts == [] then 0
    else CountWords(ts[..|ts| - 1]) + (if Countable(ts[|ts| - 1]) then 1 else 0)
  }

  /** The sum of the text lengths of the countable tokens. */
  function SumLetters(ts: seq<Token>): nat {
    if ts == [] then 0
    else SumLetters(ts[..|ts| - 1]) + (if Countable(ts[|ts| - 1]) then |ts[|ts| - 1].text| else 0)
  }

  /** The sum of the syllable-list lengths of the countable tokens. */
  function SumSyllables(ts: seq<Token>, syllables: string -> seq<string>): nat {
    if ts == [] then 0
    else
      var last := ts[|ts| - 1];
      SumSyllables(ts[..|ts| - 1], syllables) + (if Countable(last) then |syllables(last.text)| else 0)
  }

  /** The totals the statistics pass is meant to compute for `doc`. */
  function Totals(doc: Doc, syllables: string -> seq<string>): Aggregates {
    var ts := Flatten(doc);
    Aggregates(|doc|, CountWords(ts), SumSyllables(ts, syllables), SumLetters(ts))
  }

  /** The annotation the statistics pass writes on a countable token `t`. */
  function AnnotationOf(t: Token, syllables: string -> seq<string>): (a: TokenAnnotation)
    ensures a.lettersCount == |t.text|
    ensures a.syllablesCount.Some? <==> |syllables(t.text)| > 0
    ensures a.syllablesCount.Some? ==>
      a.syllables == Some(syllables(t.text)) && a.syllablesCount.value == |syllables(t.text)| >= 1
    ensures a.syllablesCount.None? ==> a.syllables.None?
  {
    var s := syllables(t.text);
    if |s| > 0 then TokenAnnotation(|t.text|, Some(s), Some(|s|))
    else TokenAnnotation(|t.text|, None, None)
  }

  /**
   * `ann` holds exactly the annotations of the countable tokens of `ts`:
   * a position is annotated iff its token is countable, with AnnotationOf.
   */
  predicate AnnotationsMatch(ann: map<nat, TokenAnnotation>, ts: seq<Token>, syllables: string -> seq<string>) {
    (forall k: nat :: k in ann ==> k < |ts| && Countable(ts[k]) && ann[k] == AnnotationOf(ts[k], syllables)) &&
    (forall k: nat :: k < |ts| && Countable(ts[k]) ==> k in ann)
  }

  /** `d` is what the statistics pass produces for its sentences. */
  predicate Collected(d: AnnotatedDoc, syllables: string -> seq<string>) {
    d.totals == Totals(d.sents, syllables) && AnnotationsMatch(d.ann, Tokens(d), syllables)
  }

  /** `syllables_count` of the token at position `k`, None when it was never set. */
  function SyllablesCountAt(ann: map<nat, TokenAnnotation>, k: nat): Option<nat> {
    if k in ann then ann[k].syllablesCount else None
  }

  /**
   * The positions of the countable tokens, in order: the list of eligible
   * words that Forcast samples from.
   */
  function EligiblePositions(ts: seq<Token>): seq<nat> {
    if ts == [] then []
    else EligiblePositions(ts[..|ts| - 1]) + (if Countable(ts[|ts| - 1]) then [|ts| - 1] else [])
  }

  /**
   * EligiblePositions lists exactly the countable positions, in increasing
   * order, and there are CountWords of them.
   */
  lemma {:induction false} EligiblePositionsCorrect(ts: seq<Token>)
    ensures |EligiblePositions(ts)| == CountWords(ts)
    ensures forall i :: 0 <= i < |EligiblePositions(ts)| ==>
      EligiblePositions(ts)[i] < |ts| && Countable(ts[EligiblePositions(ts)[i]])
    ensures forall i, j :: 0 <= i < j < |EligiblePositions(ts)| ==> EligiblePositions(ts)[i] < EligiblePositions(ts)[j]
    ensures forall k :: 0 <= k < |ts| && Countable(ts[k]) ==> k in EligiblePositions(ts)
  {
    if ts != [] {
      var init := ts[..|ts| - 1];
      EligiblePositionsCorrect(init);
      assert forall k :: 0 <= k < |init| ==> init[k] == ts[k];
    }
  }

  /** One more element of a sequence extends its prefix by that element. */
  lemma TakeSnoc<T>(s: seq<T>, j: nat)
    requires j < |s|
    ensures s[..j + 1] == s[..j] + [s[j]]
  {
  }

  /** Flattening one more sentence appends its tokens. */
  lemma FlattenSnoc(doc: Doc, i: nat)
    requires i < |doc|
    ensures Flatten(doc[..i + 1]) == Flatten(doc[..i]) + doc[i]
  {
    assert doc[..i + 1][..i] == doc[..i];
  }

  /** Appending one token extends every sum by that token's share. */
  lemma SumsSnoc(ts: seq<Token>, t: Token, syllables: string -> seq<string>)
    ensures CountWords(ts + [t]) == CountWords(ts) + (if Countable(t) then 1 else 0)
    ensures SumLetters(ts + [t]) == SumLetters(ts) + (if Countable(t) then |t.text| else 0)
    ensures SumSyllables(ts + [t], syllables) == SumSyllables(ts, syllables) + (if Countable(t) then |syllables(t.text)| else 0)
  {
    assert (ts + [t])[..|ts|] == ts;
  }

  /** The sums are additive: the tokens of two sentences together count what each counts. */
  lemma {:induction false} SumsAppend(a: seq<Token>, b: seq<Token>, syllables: string -> seq<string>)
    ensures CountWords(a + b) == CountWords(a) + CountWords(b)
    ensures SumLetters(a + b) == SumLetters(a) + SumLetters(b)
    ensures SumSyllables(a + b, syllables) == SumSyllables(a, syllables) + SumSyllables(b, syllables)
  {
    if b == [] {
      assert a + b == a;
    } else {
      var init, last := b[..|b| - 1], b[|b| - 1];
      SumsAppend(a, init, syllables);
      assert a + b == (a + init) + [last];
      SumsSnoc(a + init, last, syllables);
      SumsSnoc(init, last, syllables);
      assert init + [last] == b;
    }
  }

  /** Annotating the next token, if countable, keeps the annotations matching the tokens seen so far. */
  lemma AnnotateSnoc(ann: map<nat, TokenAnnotation>, ts: seq<Token>, t: Token, syllables: string -> seq<string>)
    requires AnnotationsMatch(ann, ts, syllables)
    ensures AnnotationsMatch(if Countable(t) then ann[|ts| := AnnotationOf(t, syllables)] else ann, ts + [t], syllables)
  {
    var ts' := ts + [t];
    assert forall k :: 0 <= k < |ts| ==> ts'[k] == ts[k];
  }

  /** A document with a countable word has a sentence. */
  lemma WordsNeedSentences(doc: Doc, syllables: string -> seq<string>)
    ensures Totals(doc, syllables).totalWords > 0 ==> Totals(doc, syllables).totalSentences > 0
  {
  }

  /** The word count never exceeds the number of tokens. */
  lemma {:induction false} WordsAtMostTokens(ts: seq<Token>)
    ensures CountWords(ts) <= |ts|
    ensures CountWords(ts) == |ts| <==> forall k :: 0 <= k < |ts| ==> Countable(ts[k])
  {
    if ts != [] {
      var init := ts[..|ts| - 1];
      WordsAtMostTokens(init);
      assert forall k :: 0 <= k < |init| ==> init[k] == ts[k];
    }
  }
}
