# spacy_readability: the counting and scoring engine, in Dafny

This project models the core of the `Readability` spaCy pipeline component.
The core has four parts:

- **The statistics pass** (`Readability.__call__`). It walks the sentences of a
  document and their tokens once. A token is a *countable word* when it is
  neither punctuation nor a digit. The pass counts sentences, countable words,
  syllables and letters. It annotates every countable token with
  `letters_count`, and with `syllables` and `syllables_count` when the syllable
  splitter returned at least one syllable.
- **Measure selection** in `Readability.__init__`. The requested measures are
  intersected with those registered for the language. No request, or an empty
  one, means all registered measures.
- **The seven formulas**: Flesch-Kincaid grade level and reading ease,
  Dale-Chall, SMOG, Coleman-Liau, the Automated Readability Index and Forcast.
  They share the helper `_get_num_syllables`. Each returns 0 on its own
  degenerate input.
- **The coefficient catalog** `MEASURE_PARAMETERS` (language → metric →
  coefficient → value).

Modules:

- `Document` (document.dfy): tokens, sentences and the countable-word filter.
  It also holds the specification sums (`CountWords`, `SumLetters`,
  `SumSyllables`, `Totals`), the annotation record and `AnnotationsMatch`, the
  predicate saying which annotations a document must carry.
- `Collector` (collector.dfy): the statistics pass as a method with two nested
  loops. Its loop invariants tie the four accumulators and the annotation map
  to those sums.
- `Selection` (selection.dfy): measure selection.
- `Formulas` (formulas.dfy): the formulas and `_get_num_syllables`. The
  function bodies use the English literals exactly as the component does. The
  contracts state each value through the English entries of the catalog, so
  each contract also proves that the literals and the table agree.
- `MeasureParameters` (measure_parameters.dfy): the catalog as a constant map.
  Languages and coefficient names are strings, as in the source. Metrics are
  the enumeration `Measure`, and `Name` gives each one's dictionary key.
- `Example` (example.dfy): the two-sentence document of the test suite.
- `Wrappers` (wrappers.dfy): `Option`, used for attributes that are never set.

Token annotations are a map from a token's position in the document to a
record. A position counts the sentences' tokens laid end to end. The
formulas that walk `doc` directly (Dale-Chall, `_get_num_syllables`,
Forcast) see the same sequence. This assumes the sentences cover the whole
document, as spaCy's sentence segmentation does.

External collaborators are parameters:

- the syllable splitter is `syllables: string -> seq<string>`;
- `str.lower` is `lower: string -> string`;
- the Dale-Chall easy-word list is `easy: set<string>`;
- the square root is `sqrt: real -> real`;
- the registry of available measures is a `map<string, seq<string>>`;
- numpy's 150 draws with replacement are the input `draws: seq<int>`.

Floating-point arithmetic is modelled by exact `real` arithmetic.

Two behaviours of the component shape the model:

- An unknown language is a `KeyError` in `__init__`. `Selection.ActiveMeasures`
  and `Selection.SelectedMeasures` therefore require the language to be known.
- ARI divides by the sentence total without a guard. The model returns `None`
  for that fault, and `Formulas.AutomatedReadabilityIndexDefined` shows that it
  cannot happen on the output of the statistics pass. Coleman-Liau divides only
  by the word total, and that division is guarded.

## Model

| member | source | states |
|---|---|---|
| Collector.Collect | spacy_readability/__init__.py:64-85 | The sentence total is the number of sentences. The word, syllable and letter totals are the counts and sums over exactly the countable tokens. A position is annotated iff its token is countable, with that token's annotation. |
| Document.AnnotationOf | spacy_readability/__init__.py:72-80 | `letters_count` is the text length. `syllables` and `syllables_count` are set iff the splitter returns a non-empty list; the count is then its length (at least 1). |
| Document.EligiblePositionsCorrect | spacy_readability/__init__.py:208 | The eligible-word list holds exactly the countable positions, in increasing order, and its length is the word total. |
| Document.WordsAtMostTokens | spacy_readability/__init__.py:71-73 | The word total is at most the number of tokens, with equality iff every token is countable. |
| Document.SumsAppend | spacy_readability/__init__.py:69-80 | Word, letter and syllable totals add up over consecutive parts of the document. |
| Document.WordsNeedSentences | spacy_readability/__init__.py:69-73 | A positive word total implies a positive sentence total. |
| Selection.SelectedMeasures | spacy_readability/__init__.py:47-52 | The language is the explicit one unless it is absent or empty, else the pipeline's. A measure is then active iff that language registers it and, when a non-empty request was given, the request names it. |
| Selection.PipelineLanguageDefault | spacy_readability/__init__.py:47-52 | With no explicit language (absent or empty) and no request, exactly the measures registered for the pipeline's language are active. |
| Selection.ExplicitLanguageWins | spacy_readability/__init__.py:47 | A non-empty explicit language is used instead of the pipeline's. |
| Selection.ActiveMeasures | spacy_readability/__init__.py:48-52 | A measure is active iff the language registers it and, when a non-empty request was given, the request names it. |
| Selection.ActiveMeasuresBounds | spacy_readability/__init__.py:49-52 | The active set is a subset of the registered set and of a non-empty request. Without a request it is the whole registered set. |
| Selection.UnsupportedDropped | spacy_readability/__init__.py:50 | A requested name the language does not register is not active, and no error is raised. |
| Selection.DaleChallOnly | spacy_readability/__init__.py:50 | Requesting Dale-Chall and an unknown name activates exactly Dale-Chall. |
| MeasureParameters.Coefficient | spacy_readability/measure_parameters.py:1-46 | Every coefficient in the catalog is strictly positive. |
| MeasureParameters.AllCoefficientsPositive | spacy_readability/measure_parameters.py:1-46 | The same positivity, quantified over every language, metric and coefficient name. |
| MeasureParameters.Languages | spacy_readability/measure_parameters.py:1-46 | The catalog has exactly the languages "en" and "de". |
| MeasureParameters.EnglishMetrics | spacy_readability/measure_parameters.py:2-38 | "en" registers all eight metrics, including `gunning_fog_index` with multiplier 0.4. |
| MeasureParameters.NamesDistinct | spacy_readability/measure_parameters.py:2-38 | The eight metric keys are pairwise distinct, so "en" has exactly eight names. |
| MeasureParameters.GermanMetrics | spacy_readability/measure_parameters.py:39-45 | "de" registers only the reading ease, with base 180, asl 1 and asw 58.5. |
| Formulas.FleschKincaidGradeLevel | spacy_readability/__init__.py:116-129 | 0 when sentences, words or syllables is 0. Otherwise asw·syllables/words + asl·words/sentences − base, with the catalog's English coefficients 11.8, 0.39 and 15.59. |
| Formulas.FleschKincaidReadingEase | spacy_readability/__init__.py:131-141 | 0 under the same guard. Otherwise base − asl·words/sentences − asw·syllables/words, with the English coefficients 206.835, 1.015 and 84.6. |
| Formulas.DifficultWords | spacy_readability/__init__.py:150-156 | The difficult-word count never exceeds the countable-word count. |
| Formulas.NoEasyWordsAllDifficult | spacy_readability/__init__.py:150-156 | With an empty lexicon, every countable word is difficult: a word counts when both its lower-cased text and its lower-cased lemma are outside the lexicon. |
| Formulas.PercentDifficult | spacy_readability/__init__.py:157 | The percentage of difficult words is non-negative, and at most 100 when the word total is the document's. |
| Formulas.DaleChall | spacy_readability/__init__.py:143-164 | 0 when sentences or words is 0. Otherwise pdw·percentage + asl·words/sentences (English 0.1579 and 0.0496), plus 3.6365 exactly when the percentage is strictly above 5. Never negative. |
| Formulas.DaleChallBounded | spacy_readability/__init__.py:157-163 | On collected documents the percentage lies in [0, 100], so the score is at most 15.79 + 0.0496·words/sentences + 3.6365. |
| Formulas.SyllablesAtLeast | spacy_readability/__init__.py:220-223 | A position contributes iff its `syllables_count` is set, non-zero and at least `min_syllables`, and then it contributes that count. |
| Formulas.GetNumSyllables | spacy_readability/__init__.py:216-224 | The sum of the contributions of all positions: it is at least each single contribution, and 0 when no position passes the threshold. It adds syllable counts, not words; `GetNumSyllablesAntitone` and `GetNumSyllablesMatchesSum` relate it to the threshold and to the syllable total. |
| Formulas.GetNumSyllablesAntitone | spacy_readability/__init__.py:216-224 | Raising `min_syllables` never raises the sum of the counted `syllables_count` values. |
| Formulas.GetNumSyllablesMatchesSum | spacy_readability/__init__.py:216-224 | Over annotations that match the tokens, the sum with threshold 1 equals the syllable sum of those tokens. |
| Formulas.TotalSyllablesIsAnnotationSum | spacy_readability/__init__.py:76-80 | After the statistics pass, the syllable total is the sum of the `syllables_count` annotations. SMOG's polysyllable sum (threshold 3) is at most that total. |
| Formulas.Smog | spacy_readability/__init__.py:166-175 | 0 below 30 sentences or with no words. Otherwise mult·sqrt(poly·30/sentences) + base, with English 1.0430 and 3.1291. `poly` is `_get_num_syllables` with threshold 3. `poly` is thus the total syllable count of the words with three or more syllables, not the number of such words: a four-syllable word adds 4. |
| Formulas.SmogPositive | spacy_readability/__init__.py:172-175 | With 30 or more sentences and some words, SMOG is at least 3.1291, given a square root that is non-negative on non-negative arguments. |
| Formulas.ColemanLiauIndex | spacy_readability/__init__.py:177-189 | 0 when words or letters is 0. Otherwise l·(letters/words·100) − s·(sentences/words·100) − base, with English 0.0588, 0.296 and 15.8. |
| Formulas.AutomatedReadabilityIndex | spacy_readability/__init__.py:191-201 | 0 with no words. A division fault iff there are words but no sentences. Otherwise alw·letters/words + asw·words/sentences − base, with English 4.71, 0.5 and 21.43. |
| Formulas.AutomatedReadabilityIndexDefined | spacy_readability/__init__.py:195-200 | The unguarded division by the sentence total never faults on a collected document. |
| Formulas.MonoSyllabic | spacy_readability/__init__.py:211-212 | The monosyllabic count of the sample is at most the number of draws. |
| Formulas.MonoSyllabicAll | spacy_readability/__init__.py:211-212 | The count equals the number of draws iff every drawn eligible word has `syllables_count` 1. |
| Formulas.Forcast | spacy_readability/__init__.py:203-213 | 0 below 150 words. Otherwise base − mono/w (English 20 and 10) over 150 in-bounds draws into the eligible words, so the result lies in [5, 20]. |
| Formulas.DegenerateFloor | spacy_readability/__init__.py:116-213 | A collected document with no sentences or no words scores 0 on all seven formulas, and ARI does not fault on it. |
| Formulas.TwoSentenceExample | tests/test_readability.py:103-109 | With totals 2/13/19/61: FK grade within 1% of 4.19, Coleman-Liau within 1% of 7.22, ARI within 1% of 3.92, and SMOG is 0. |
| Example.ExampleTotals | tests/test_readability.py:56-98 | The two-sentence test document, with its hand-counted syllables, has totals 2 sentences, 13 words, 19 syllables and 61 letters. |

## Left out

- `gunning_fog_index`: the catalog has coefficients for it, but `Readability` has no such method. No formula is modelled for it.
- Registration with spaCy (`Doc.set_extension`, `Token.set_extension`, getters bound with `getattr`, lines 54-61 of `spacy_readability/__init__.py`): this is framework reflection. Results are plain function values, and annotations are an explicit map returned by the pass.
- The helper methods `total_sentences`, `total_words`, `total_syllables` and `total_letters` (lines 87-114): they are never registered as getters. The totals come from the statistics pass.
- Syllable splitting (inherited from `spacy_syllables.SpacySyllables`), `str.lower` and `math.sqrt`: these are parameters, not implementations.
- `DALE_CHALL_WORDS` and `MEASURES` (the `words` and `available_measures` modules) are not part of this model. They are parameters.
- numpy's random sampling and its global seed: the 150 draws are an input, and `Formulas.Forcast` requires them to lie in range.
- Floating-point rounding: formulas are exact over `real`, so the test's approximate values are checked only with exact arithmetic within the test's 1% tolerance.
- Per-language coefficients: the formulas hard-code the English values. The German entry is data only and affects no result.
- Formulas.Smog: states the value only up to the square root, which is an uninterpreted parameter.
- Selection.ActiveMeasures: an unknown language is excluded by the requires. The component raises `KeyError` there; the model does not represent that error as a value.
- Selection.SelectedMeasures: the same; a resolved language that the registry does not know is excluded by the requires rather than modelled as `KeyError`.
