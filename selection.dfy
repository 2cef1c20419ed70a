/**
 * Which measures the component registers on construction. The registry of
 * available measures per language is a parameter here: its contents live in
 * a module that is not part of this model.
 */
module Selection {
  import opened Wrappers

  /** The registry of available measures: language -> measure names. */
  type Registry = map<string, seq<string>>

  /** Python truthiness of the optional `measures` argument: given and non-empty. */
  predicate Requested(measures: Option<seq<string>>) {
    measures.Some? && |measures.value| > 0
  }

  /**
   * `lang or nlp.lang`: the explicit language unless it is absent or empty,
   * and then the pipeline's language.
   */
  function ResolveLanguage(lang: Option<string>, pipelineLang: string): (l: string)
    ensures lang.Some? && lang.value != "" ==> l == lang.value
    ensures lang.None? || lang.value == "" ==> l == pipelineLang
  {
    if lang.Some? && lang.value != "" then lang.value else pipelineLang
  }

  /**
   * The active measures for a known language: the requested ones that the
   * language supports, or all it supports when nothing is requested. An
   * unknown language is a lookup error in the component, hence the requires.
   */
  function ActiveMeasures(registry: Registry, lang: string, measures: Option<seq<string>>): (active: set<string>)
    requires lang in registry
    ensures forall m :: m in active <==> m in registry[lang] && (Requested(measures) ==> m in measures.value)
  {
    var supported := set m | m in registry[lang];
    if Requested(measures) then supported * (set m | m in measures.value) else supported
  }

  /**
   * The measures the component registers on construction: the language is
   * resolved first (`lang or nlp.lang`), then the request is intersected with
   * what that language supports. An unresolvable language is a lookup error
   * in the component, hence the requires.
   */
  function SelectedMeasures(registry: Registry, lang: Option<string>, pipelineLang: string,
                            measures: Option<seq<string>>): (active: set<string>)
    requires ResolveLanguage(lang, pipelineLang) in registry
    ensures forall m :: m in active <==>
      m in registry[ResolveLanguage(lang, pipelineLang)] && (Requested(measures) ==> m in measures.value)
  {
    ActiveMeasures(registry, ResolveLanguage(lang, pipelineLang), measures)
  }

  /**
   * Without an explicit language and without a request, every measure the
   * pipeline's language registers is active.
   */
  lemma PipelineLanguageDefault(registry: Registry, lang: Option<string>, pipelineLang: string)
    requires lang.None? || lang.value == ""
    requires pipelineLang in registry
    ensures ResolveLanguage(lang, pipelineLang) == pipelineLang
    ensures SelectedMeasures(registry, lang, pipelineLang, None) == set m | m in registry[pipelineLang]
  {
  }

  /** A non-empty explicit language takes precedence over the pipeline's. */
  lemma ExplicitLanguageWins(registry: Registry, lang: string, pipelineLang: string, measures: Option<seq<string>>)
    requires lang != "" && lang in registry
    ensures SelectedMeasures(registry, Some(lang), pipelineLang, measures) == ActiveMeasures(registry, lang, measures)
  {
  }

  /**
   * The active set lies within the supported set and, when a request was
   * made, within the request; without a request it is the supported set.
   */
  lemma ActiveMeasuresBounds(registry: Registry, lang: string, measures: Option<seq<string>>)
    requires lang in registry
    ensures ActiveMeasures(registry, lang, measures) <= set m | m in registry[lang]
    ensures Requested(measures) ==> ActiveMeasures(registry, lang, measures) <= set m | m in measures.value
    ensures !Requested(measures) ==> ActiveMeasures(registry, lang, measures) == set m | m in registry[lang]
  {
  }

  /** A requested name the language does not support is dropped without error. */
  lemma UnsupportedDropped(registry: Registry, lang: string, measures: seq<string>, name: string)
    requires lang in registry && name in measures && name !in registry[lang]
    ensures name !in ActiveMeasures(registry, lang, Some(measures))
  {
  }

  /**
   * Requesting Dale-Chall and a name that no language registers yields only
   * Dale-Chall, when the language supports it.
   */
  lemma DaleChallOnly(registry: Registry, lang: string)
    requires lang in registry && "dale_chall" in registry[lang] && "nonexistent_metric" !in registry[lang]
    ensures ActiveMeasures(registry, lang, Some(["dale_chall", "nonexistent_metric"])) == {"dale_chall"}
  {
    var active := ActiveMeasures(registry, lang, Some(["dale_chall", "nonexistent_metric"]));
    assert "dale_chall" in active;
    forall m | m in active ensures m == "dale_chall" {
      assert m in ["dale_chall", "nonexistent_metric"];
    }
  }
}
