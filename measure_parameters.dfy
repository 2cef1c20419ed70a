/**
 * The coefficient catalog: language -> metric -> coefficient name -> value.
 * Metrics are an enumeration whose Name is the dictionary key of the
 * component. The formulas of the component never read this table; they
 * hard-code the English values. The contracts in module Formulas state each
 * formula through the English entries here, which ties the two together.
 */
module MeasureParameters {

  /** The metrics the catalog knows. */
  datatype Measure =
    | FleschKincaidGradeLevel
    | FleschKincaidReadingEase
    | DaleChall
    | Smog
    | ColemanLiauIndex
    | AutomatedReadabilityIndex
    | Forcast
    | GunningFogIndex

  /** The key of the metric in the catalog and the name of its document attribute. */
  function Name(m: Measure): string {
    match m
    case FleschKincaidGradeLevel => "flesch_kincaid_grade_level"
    case FleschKincaidReadingEase => "flesch_kincaid_reading_ease"
    case DaleChall => "dale_chall"
    case Smog => "smog"
    case ColemanLiauIndex => "coleman_liau_index"
    case AutomatedReadabilityIndex => "automated_readability_index"
    case Forcast => "forcast"
    case GunningFogIndex => "gunning_fog_index"
  }

  type CoefficientSet = map<string, real>

  const MEASURE_PARAMETERS: map<string, map<Measure, CoefficientSet>> := map[
    "en" := map[
      FleschKincaidGradeLevel := map["base" := 15.59, "asl" := 0.39, "asw" := 11.8],
      FleschKincaidReadingEase := map["base" := 206.835, "asl" := 1.015, "asw" := 84.6],
      DaleChall := map["pdw" := 0.1579, "asl" := 0.0496],
      Smog := map["mult" := 1.0430, "base" := 3.1291],
      ColemanLiauIndex := map["l" := 0.0588, "s" := 0.296, "base" := 15.8],
      AutomatedReadabilityIndex := map["alw" := 4.71, "asw" := 0.5, "base" := 21.43],
      Forcast := map["base" := 20.0, "w" := 10.0],
      GunningFogIndex := map["mult" := 0.4]
    ],
    "de" := map[
      FleschKincaidReadingEase := map["base" := 180.0, "asl" := 1.0, "asw" := 58.5]
    ]
  ]

  /** A coefficient of the catalog; the table stores magnitudes only, each formula fixes the sign. */
  function Coefficient(lang: string, metric: Measure, name: string): (c: real)
    requires lang in MEASURE_PARAMETERS && metric in MEASURE_PARAMETERS[lang]
    requires name in MEASURE_PARAMETERS[lang][metric]
    ensures c > 0.0
  {
    MEASURE_PARAMETERS[lang][metric][name]
  }

  /** The English coefficient `name` of `metric`. */
  function En(metric: Measure, name: string): real
    requires metric in MEASURE_PARAMETERS["en"] && name in MEASURE_PARAMETERS["en"][metric]
  {
    Coefficient("en", metric, name)
  }

  /** The catalog knows two languages. */
  lemma Languages()
    ensures MEASURE_PARAMETERS.Keys == {"en", "de"}
  {
  }

  /** English registers all eight metrics, Gunning Fog among them. */
  lemma EnglishMetrics()
    ensures forall m: Measure :: m in MEASURE_PARAMETERS["en"]
    ensures MEASURE_PARAMETERS["en"][GunningFogIndex] == map["mult" := 0.4]
  {
    forall m: Measure ensures m in MEASURE_PARAMETERS["en"] {
      match m
      case FleschKincaidGradeLevel =>
      case FleschKincaidReadingEase =>
      case DaleChall =>
      case Smog =>
      case ColemanLiauIndex =>
      case AutomatedReadabilityIndex =>
      case Forcast =>
      case GunningFogIndex =>
    }
  }

  /** No two metrics share a name. */
  lemma NamesDistinct(m: Measure, n: Measure)
    requires m != n
    ensures Name(m) != Name(n)
  {
  }

  /** German registers only the reading ease, with its own coefficients. */
  lemma GermanMetrics()
    ensures MEASURE_PARAMETERS["de"].Keys == {FleschKincaidReadingEase}
    ensures Coefficient("de", FleschKincaidReadingEase, "base") == 180.0
    ensures Coefficient("de", FleschKincaidReadingEase, "asl") == 1.0
    ensures Coefficient("de", FleschKincaidReadingEase, "asw") == 58.5
  {
  }

  /** Every value in the catalog is strictly positive. */
  lemma AllCoefficientsPositive()
    ensures forall lang, metric, name ::
      (lang in MEASURE_PARAMETERS && metric in MEASURE_PARAMETERS[lang] &&
       name in MEASURE_PARAMETERS[lang][metric]) ==> MEASURE_PARAMETERS[lang][metric][name] > 0.0
  {
    forall lang, metric, name |
      lang in MEASURE_PARAMETERS && metric in MEASURE_PARAMETERS[lang] &&
      name in MEASURE_PARAMETERS[lang][metric]
      ensures MEASURE_PARAMETERS[lang][metric][name] > 0.0
    {
      var _ := Coefficient(lang, metric, name);
    }
  }
}
