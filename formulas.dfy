/**
 * The seven readability formulas and the syllable-sum helper they share.
 * Each formula reads the totals of an annotated document (two of them also
 * walk its tokens) and returns 0 on its own degenerate inputs. The bodies use
 * the English literals exactly as the component does; the contracts state
 * the same values through the English entries of the coefficient catalog.
 * Floating point is modelled by exact reals.
 */
module Formulas {
  import opened Wrappers
  import opened Document
  import MP = MeasureParameters

  /** The Dale-Chall adjustment for texts with more than 5% difficult words; not a catalog entry. */
  const DaleChallAdjustment: real := 3.6365

  /** The number of words Forcast draws. */
  const ForcastSampleSize: nat := 150

  /** Flesch-Kincaid grade level. */
  function FleschKincaidGradeLevel(d: AnnotatedDoc): (r: real)
    ensures var t := d.totals;
      t.totalSentences == 0 || t.totalWords == 0 || t.totalSyllables == 0 ==> r == 0.0
    ensures var t := d.totals;
      t.totalSentences != 0 && t.totalWords != 0 && t.totalSyllables != 0 ==>
        r == MP.En(MP.FleschKincaidGradeLevel, "asw") * (t.totalSyllables as real) / (t.totalWords as real)
           + MP.En(MP.FleschKincaidGradeLevel, "asl") * (t.totalWords as real) / (t.totalSentences as real)
           - MP.En(MP.FleschKincaidGradeLevel, "base")
  {
    var sentences, words, syllables := d.totals.totalSentences, d.totals.totalWords, d.totals.totalSyllables;
    if sentences == 0 || words == 0 || syllables == 0 then 0.0
    else (11.8 * (syllables as real) / (words as real)) + (0.39 * (words as real) / (sentences as real)) - 15.59
  }

  /** Flesch-Kincaid reading ease. */
  function FleschKincaidReadingEase(d: AnnotatedDoc): (r: real)
    ensures var t := d.totals;
      t.totalSentences == 0 || t.totalWords == 0 || t.totalSyllables == 0 ==> r == 0.0
    ensures var t := d.totals;
      t.totalSentences != 0 && t.totalWords != 0 && t.totalSyllables != 0 ==>
        r == MP.En(MP.FleschKincaidReadingEase, "base")
           - MP.En(MP.FleschKincaidReadingEase, "asl") * ((t.totalWords as real) / (t.totalSentences as real))
           - MP.En(MP.FleschKincaidReadingEase, "asw") * ((t.totalSyllables as real) / (t.totalWords as real))
  {
    var sentences, words, syllables := d.totals.totalSentences, d.totals.totalWords, d.totals.totalSyllables;
    if sentences == 0 || words == 0 || syllables == 0 then 0.0
    else
      var wordsPerSentence := (words as real) / (sentences as real);
      var syllablesPerWord := (syllables as real) / (words as real);
      206.835 - (1.015 * wordsPerSentence) - (84.6 * syllablesPerWord)
  }

  /** A Dale-Chall difficult word: countable, and neither its lower-cased text nor its lower-cased lemma is easy. */
  predicate IsDifficult(t: Token, easy: set<string>, lower: string -> string) {
    Countable(t) && lower(t.text) !in easy && lower(t.lemmaText) !in easy
  }

  /** The number of difficult words; never more than the number of countable words. */
  function DifficultWords(ts: seq<Token>, easy: set<string>, lower: string -> string): (n: nat)
    ensures n <= CountWords(ts)
  {
    if ts == [] then 0
    else DifficultWords(ts[..|ts| - 1], easy, lower) + (if IsDifficult(ts[|ts| - 1], easy, lower) then 1 else 0)
  }

  /** With no easy words at all, every countable word is difficult. */
  lemma {:induction false} NoEasyWordsAllDifficult(ts: seq<Token>, lower: string -> string)
    ensures DifficultWords(ts, {}, lower) == CountWords(ts)
  {
    if ts != [] {
      NoEasyWordsAllDifficult(ts[..|ts| - 1], lower);
    }
  }

  /** The percentage of difficult words, between 0 and 100 when the word total is the document's. */
  function PercentDifficult(d: AnnotatedDoc, easy: set<string>, lower: string -> string): (p: real)
    requires d.totals.totalWords > 0
    ensures p >= 0.0
    ensures d.totals.totalWords == CountWords(Tokens(d)) ==> p <= 100.0
  {
    var difficult, words := DifficultWords(Tokens(d), easy, lower) as real, d.totals.totalWords as real;
    assert difficult <= words ==> 100.0 * difficult / words <= 100.0 by {
      if difficult <= words {
        assert 100.0 * difficult / words == 100.0 * (difficult / words);
        assert difficult / words <= 1.0;
      }
    }
    100.0 * difficult / words
  }

  /** Dale-Chall score, with the adjustment exactly when more than 5% of the words are difficult. */
  function DaleChall(d: AnnotatedDoc, easy: set<string>, lower: string -> string): (r: real)
    ensures d.totals.totalSentences == 0 || d.totals.totalWords == 0 ==> r == 0.0
    ensures d.totals.totalSentences != 0 && d.totals.totalWords != 0 ==>
      var p := PercentDifficult(d, easy, lower);
      r == MP.En(MP.DaleChall, "pdw") * p
         + MP.En(MP.DaleChall, "asl") * ((d.totals.totalWords as real) / (d.totals.totalSentences as real))
         + (if p > 5.0 then DaleChallAdjustment else 0.0)
    ensures r >= 0.0
  {
    var sentences, words := d.totals.totalSentences, d.totals.totalWords;
    if sentences == 0 || words == 0 then 0.0
    else
      var percentDifficultWords := 100.0 * (DifficultWords(Tokens(d), easy, lower) as real) / (words as real);
      var averageSentenceLength := (words as real) / (sentences as real);
      var grade := 0.1579 * percentDifficultWords + 0.0496 * averageSentenceLength;
      if percentDifficultWords > 5.0 then grade + 3.6365 else grade
  }

  /**
   * On a collected document the Dale-Chall score is at most the score of an
   * all-difficult text of the same sentence length.
   */
  lemma DaleChallBounded(d: AnnotatedDoc, syllables: string -> seq<string>, easy: set<string>, lower: string -> string)
    requires Collected(d, syllables) && d.totals.totalWords > 0
    ensures 0.0 <= PercentDifficult(d, easy, lower) <= 100.0
    ensures DaleChall(d, easy, lower)
      <= 0.1579 * 100.0 + 0.0496 * ((d.totals.totalWords as real) / (d.totals.totalSentences as real)) + DaleChallAdjustment
  {
    WordsNeedSentences(d.sents, syllables);
  }

  /** `syllables_count` of position `k` as `_get_num_syllables` counts it: present, non-zero and at least `minSyllables`. */
  function SyllablesAtLeast(ann: map<nat, TokenAnnotation>, k: nat, minSyllables: int): (c: nat)
    ensures c > 0 <==> SyllablesCountAt(ann, k).Some? && SyllablesCountAt(ann, k).value > 0
                       && SyllablesCountAt(ann, k).value >= minSyllables
    ensures c > 0 ==> c == SyllablesCountAt(ann, k).value
  {
    match SyllablesCountAt(ann, k)
    case Some(c) => if c != 0 && c >= minSyllables then c else 0
    case None => 0
  }

  /**
   * `_get_num_syllables` over the first `n` positions of the document: the sum
   * of the syllable counts that pass the threshold. It adds counts, not words,
   * so a word of four syllables adds 4.
   */
  function GetNumSyllables(ann: map<nat, TokenAnnotation>, n: nat, minSyllables: int): (r: nat)
    ensures forall k :: 0 <= k < n ==> SyllablesAtLeast(ann, k, minSyllables) <= r
    ensures (forall k :: 0 <= k < n ==> SyllablesAtLeast(ann, k, minSyllables) == 0) ==> r == 0
  {
    if n == 0 then 0 else GetNumSyllables(ann, n - 1, minSyllables) + SyllablesAtLeast(ann, n - 1, minSyllables)
  }

  /** Raising the threshold never raises the sum. */
  lemma {:induction false} GetNumSyllablesAntitone(ann: map<nat, TokenAnnotation>, n: nat, lo: int, hi: int)
    requires lo <= hi
    ensures GetNumSyllables(ann, n, hi) <= GetNumSyllables(ann, n, lo)
  {
    if n > 0 {
      GetNumSyllablesAntitone(ann, n - 1, lo, hi);
    }
  }

  /**
   * Over matching annotations, the sum with the default threshold 1 is the
   * syllable total of the tokens: a token with no syllables has no count.
   */
  lemma {:induction false} GetNumSyllablesMatchesSum(ann: map<nat, TokenAnnotation>, ts: seq<Token>, n: nat,
                                                     syllables: string -> seq<string>)
    requires AnnotationsMatch(ann, ts, syllables) && n <= |ts|
    ensures GetNumSyllables(ann, n, 1) == SumSyllables(ts[..n], syllables)
  {
    if n > 0 {
      GetNumSyllablesMatchesSum(ann, ts, n - 1, syllables);
      assert ts[..n][..n - 1] == ts[..n - 1];
      if Countable(ts[n - 1]) {
        assert n - 1 in ann;
      } else {
        assert n - 1 !in ann;
      }
    }
  }

  /** After the statistics pass, the syllable total equals the sum of the syllable annotations. */
  lemma TotalSyllablesIsAnnotationSum(d: AnnotatedDoc, syllables: string -> seq<string>)
    requires Collected(d, syllables)
    ensures GetNumSyllables(d.ann, |Tokens(d)|, 1) == d.totals.totalSyllables
    ensures GetNumSyllables(d.ann, |Tokens(d)|, 3) <= d.totals.totalSyllables
  {
    GetNumSyllablesMatchesSum(d.ann, Tokens(d), |Tokens(d)|, syllables);
    assert Tokens(d)[..|Tokens(d)|] == Tokens(d);
    GetNumSyllablesAntitone(d.ann, |Tokens(d)|, 1, 3);
  }

  /** SMOG; `sqrt` is the square root of the host language, left uninterpreted. */
  function Smog(d: AnnotatedDoc, sqrt: real -> real): (r: real)
    ensures d.totals.totalSentences < 30 || d.totals.totalWords == 0 ==> r == 0.0
    ensures d.totals.totalSentences >= 30 && d.totals.totalWords != 0 ==>
      var poly := GetNumSyllables(d.ann, |Tokens(d)|, 3) as real;
      r == MP.En(MP.Smog, "mult") * sqrt(poly * 30.0 / (d.totals.totalSentences as real)) + MP.En(MP.Smog, "base")
  {
    var sentences, words := d.totals.totalSentences, d.totals.totalWords;
    if sentences < 30 || words == 0 then 0.0
    else
      var numPoly := GetNumSyllables(d.ann, |Tokens(d)|, 3);
      1.0430 * sqrt((numPoly as real) * 30.0 / (sentences as real)) + 3.1291
  }

  /** With a square root that is non-negative on non-negative arguments, SMOG is positive from 30 sentences on. */
  lemma SmogPositive(d: AnnotatedDoc, sqrt: real -> real)
    requires forall x: real :: x >= 0.0 ==> sqrt(x) >= 0.0
    requires d.totals.totalSentences >= 30 && d.totals.totalWords != 0
    ensures Smog(d, sqrt) >= 3.1291
  {
    var x := (GetNumSyllables(d.ann, |Tokens(d)|, 3) as real) * 30.0 / (d.totals.totalSentences as real);
    assert sqrt(x) >= 0.0;
  }

  /** Coleman-Liau index. */
  function ColemanLiauIndex(d: AnnotatedDoc): (r: real)
    ensures d.totals.totalWords == 0 || d.totals.totalLetters == 0 ==> r == 0.0
    ensures d.totals.totalWords != 0 && d.totals.totalLetters != 0 ==>
      var w := d.totals.totalWords as real;
      r == MP.En(MP.ColemanLiauIndex, "l") * ((d.totals.totalLetters as real) / w * 100.0)
         - MP.En(MP.ColemanLiauIndex, "s") * ((d.totals.totalSentences as real) / w * 100.0)
         - MP.En(MP.ColemanLiauIndex, "base")
  {
    var words := d.totals.totalWords;
    if words <= 0 then 0.0
    else
      var sentences, letters := d.totals.totalSentences, d.totals.totalLetters;
      if letters <= 0 then 0.0
      else
        var lettersToWords := (letters as real) / (words as real) * 100.0;
        var sentToWords := (sentences as real) / (words as real) * 100.0;
        0.0588 * lettersToWords - 0.296 * sentToWords - 15.8
  }

  /**
   * Automated Readability Index. Its division by the sentence total is not
   * guarded: None stands for the division-by-zero fault.
   */
  function AutomatedReadabilityIndex(d: AnnotatedDoc): (r: Option<real>)
    ensures r.None? <==> d.totals.totalWords != 0 && d.totals.totalSentences == 0
    ensures d.totals.totalWords == 0 ==> r == Some(0.0)
    ensures d.totals.totalWords != 0 && d.totals.totalSentences != 0 ==>
      r == Some(MP.En(MP.AutomatedReadabilityIndex, "alw") * ((d.totals.totalLetters as real) / (d.totals.totalWords as real))
              + MP.En(MP.AutomatedReadabilityIndex, "asw") * ((d.totals.totalWords as real) / (d.totals.totalSentences as real))
              - MP.En(MP.AutomatedReadabilityIndex, "base"))
  {
    var sentences, words := d.totals.totalSentences, d.totals.totalWords;
    if words <= 0 then Some(0.0)
    else if sentences == 0 then None
    else
      var letterToWords := (d.totals.totalLetters as real) / (words as real);
      var wordsToSents := (words as real) / (sentences as real);
      Some(4.71 * letterToWords + 0.5 * wordsToSents - 21.43)
  }

  /** The unguarded division in ARI never faults on a collected document. */
  lemma AutomatedReadabilityIndexDefined(d: AnnotatedDoc, syllables: string -> seq<string>)
    requires Collected(d, syllables)
    ensures AutomatedReadabilityIndex(d).Some?
  {
    WordsNeedSentences(d.sents, syllables);
  }

  /** `draws` is a sample of 150 indices drawn from [0, n). */
  predicate ValidSample(draws: seq<int>, n: nat) {
    |draws| == ForcastSampleSize && forall i :: 0 <= i < |draws| ==> 0 <= draws[i] < n
  }

  /** How many drawn eligible words have exactly one syllable; at most the number of draws. */
  function MonoSyllabic(eligible: seq<nat>, ann: map<nat, TokenAnnotation>, draws: seq<int>): (n: nat)
    requires forall i :: 0 <= i < |draws| ==> 0 <= draws[i] < |eligible|
    ensures n <= |draws|
  {
    if draws == [] then 0
    else
      var last := draws[|draws| - 1];
      MonoSyllabic(eligible, ann, draws[..|draws| - 1])
        + (if SyllablesCountAt(ann, eligible[last]) == Some(1) then 1 else 0)
  }

  /** Every draw is monosyllabic exactly when the count reaches the number of draws. */
  lemma {:induction false} MonoSyllabicAll(eligible: seq<nat>, ann: map<nat, TokenAnnotation>, draws: seq<int>)
    requires forall i :: 0 <= i < |draws| ==> 0 <= draws[i] < |eligible|
    ensures MonoSyllabic(eligible, ann, draws) == |draws| <==>
      forall i :: 0 <= i < |draws| ==> SyllablesCountAt(ann, eligible[draws[i]]) == Some(1)
  {
    if draws != [] {
      var init := draws[..|draws| - 1];
      MonoSyllabicAll(eligible, ann, init);
      assert forall i :: 0 <= i < |init| ==> init[i] == draws[i];
    }
  }

  /**
   * Forcast, over a sample of 150 indices into the eligible words. The index
   * bound holds because the eligible list has exactly the word total as length.
   */
  function Forcast(d: AnnotatedDoc, draws: seq<int>): (r: real)
    requires d.totals.totalWords == CountWords(Tokens(d))
    requires d.totals.totalWords >= ForcastSampleSize ==> ValidSample(draws, d.totals.totalWords)
    ensures d.totals.totalWords < ForcastSampleSize ==> r == 0.0
    ensures d.totals.totalWords >= ForcastSampleSize ==> 5.0 <= r <= 20.0
    ensures d.totals.totalWords >= ForcastSampleSize ==>
      (EligiblePositionsCorrect(Tokens(d));
       r == MP.En(MP.Forcast, "base") - (MonoSyllabic(EligiblePositions(Tokens(d)), d.ann, draws) as real) / MP.En(MP.Forcast, "w"))
  {
    var numWords := d.totals.totalWords;
    var eligibleWords := EligiblePositions(Tokens(d));
    if numWords < ForcastSampleSize then 0.0
    else
      EligiblePositionsCorrect(Tokens(d));
      var monoSyllabic := MonoSyllabic(eligibleWords, d.ann, draws);
      20.0 - (monoSyllabic as real / 10.0)
  }

  /**
   * Every guarded formula is 0 on a collected document without sentences or
   * without countable words; ARI is defined there too.
   */
  lemma DegenerateFloor(d: AnnotatedDoc, syllables: string -> seq<string>, easy: set<string>,
                        lower: string -> string, sqrt: real -> real, draws: seq<int>)
    requires Collected(d, syllables)
    requires d.sents == [] || d.totals.totalWords == 0
    ensures FleschKincaidGradeLevel(d) == 0.0 && FleschKincaidReadingEase(d) == 0.0
    ensures DaleChall(d, easy, lower) == 0.0 && Smog(d, sqrt) == 0.0 && ColemanLiauIndex(d) == 0.0
    ensures AutomatedReadabilityIndex(d) == Some(0.0) && Forcast(d, draws) == 0.0
  {
    assert d.totals.totalWords == 0 by {
      if d.sents == [] {
        assert Tokens(d) == [];
      }
    }
  }

  /** The values of the two-sentence example: FK grade about 4.19, Coleman-Liau about 7.22, ARI about 3.92, SMOG 0, to within 1%. */
  lemma TwoSentenceExample(d: AnnotatedDoc, sqrt: real -> real)
    requires d.totals == Aggregates(2, 13, 19, 61)
    ensures 4.19 * 0.99 <= FleschKincaidGradeLevel(d) <= 4.19 * 1.01
    ensures 7.22 * 0.99 <= ColemanLiauIndex(d) <= 7.22 * 1.01
    ensures AutomatedReadabilityIndex(d).Some?
    ensures 3.92 * 0.99 <= AutomatedReadabilityIndex(d).value <= 3.92 * 1.01
    ensures Smog(d, sqrt) == 0.0
  {
  }
}
