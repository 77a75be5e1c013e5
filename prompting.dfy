/** Example retrieval and prompt building (`_get_example_poems`, `_get_prompt`). */
module Prompting {
  import opened Wrappers
  import opened Text
  import opened Config
  import opened Sampling
  import opened Data
  import opened Themes

  /** The texts examples are drawn from: those of the poems tagged with the
      theme, or all poem texts of the language when none is. */
  function ExamplePool(language: string, data: TrainingData, theme: string): (pool: seq<string>)
    ensures |pool| == 0 <==> LanguagePoems(language, data) == []
    ensures forall t :: t in pool ==> exists p :: p in LanguagePoems(language, data) && p.text == t
  {
    var poems := LanguagePoems(language, data);
    var matching := Texts(WithTheme(poems, theme));
    if matching == [] then
      assert poems != [] ==> Texts(poems)[0] == poems[0].text;
      Texts(poems)
    else
      assert WithTheme(poems, theme)[0] in poems;
      matching
  }

  /** `_get_example_poems(theme, num_examples)`. */
  function ExamplePoems(language: string, data: TrainingData, theme: string, numExamples: nat,
                        draws: seq<nat>): (r: seq<string>)
    ensures var pool := ExamplePool(language, data, theme);
            |r| == if |pool| <= numExamples then |pool| else numExamples
  {
    var pool := ExamplePool(language, data, theme);
    if |pool| <= numExamples then pool else Sample(pool, numExamples, draws)
  }

  /** The examples are the whole pool when it is small enough, and otherwise
      exactly `numExamples` elements drawn from distinct positions of it. */
  lemma ExamplePoemsBounded(language: string, data: TrainingData, theme: string, numExamples: nat,
                            draws: seq<nat>)
    ensures var pool := ExamplePool(language, data, theme);
            var r := ExamplePoems(language, data, theme, numExamples, draws);
            && (|pool| <= numExamples ==> r == pool)
            && (|pool| > numExamples ==> |r| == numExamples)
            && multiset(r) <= multiset(pool)
  {
    var pool := ExamplePool(language, data, theme);
    if |pool| > numExamples {
      SampleSubMultiset(pool, numExamples, draws);
    }
  }

  /** The pool is the texts of the poems tagged with the theme, in corpus
      order and with their repetitions, when there are any, and every text of
      the language otherwise. */
  lemma ExamplePoolFollowsTheme(language: string, data: TrainingData, theme: string)
    ensures var poems := LanguagePoems(language, data);
            var pool := ExamplePool(language, data, theme);
            && ((exists p :: p in poems && p.theme == Some(theme)) ==>
                  && pool == Texts(WithTheme(poems, theme))
                  && forall t :: t in pool <==> exists p :: p in poems && p.theme == Some(theme) && p.text == t)
            && ((forall p :: p in poems ==> p.theme != Some(theme)) ==> pool == Texts(poems))
  {
    var poems := LanguagePoems(language, data);
    var matching := WithTheme(poems, theme);
    var pool := ExamplePool(language, data, theme);
    if exists p :: p in poems && p.theme == Some(theme) {
      var p :| p in poems && p.theme == Some(theme);
      assert p in matching;
      assert pool == Texts(matching);
      forall t ensures t in pool <==> exists p :: p in poems && p.theme == Some(theme) && p.text == t {
        if t in pool {
          var i :| 0 <= i < |pool| && pool[i] == t;
          assert matching[i] in matching;
        }
        if exists p :: p in poems && p.theme == Some(theme) && p.text == t {
          var q :| q in poems && q.theme == Some(theme) && q.text == t;
          var i :| 0 <= i < |matching| && matching[i] == q;
          assert pool[i] == t;
        }
      }
    } else {
      WithThemeNone(poems, theme);
    }
  }

  /** The seed prompt: a prompt listed for the theme when the metadata has a
      non-empty list for it, a generic one about the raw theme otherwise. */
  function BasePrompt(themes: ThemesData, normalized: string, theme: string, draw: nat): (r: string)
    ensures normalized in themes && themes[normalized].prompts.Some? && themes[normalized].prompts.value != [] ==>
      r in themes[normalized].prompts.value
    ensures !(normalized in themes && themes[normalized].prompts.Some? && themes[normalized].prompts.value != []) ==>
      r == "A Victory Day poem about " + theme
  {
    if normalized in themes && themes[normalized].prompts.Some? && themes[normalized].prompts.value != [] then
      Choice(themes[normalized].prompts.value, draw)
    else
      "A Victory Day poem about " + theme
  }

  /** `_get_prompt(theme)`: fails with the lookup error for a language
      without a prompt template. */
  function Prompt(language: string, data: TrainingData, themes: ThemesData, theme: string,
                  promptDraw: nat, exampleDraws: seq<nat>): (r: Result<string, Error>)
    ensures r.Err? <==> !SupportedLanguage(language)
    ensures r.Err? ==> r.error == UnknownLanguage(language)
  {
    var normalized := Normalized(ThemeAliases, theme);
    if !SupportedLanguage(language) then Err(UnknownLanguage(language))
    else
      var base := BasePrompt(themes, normalized, theme, promptDraw);
      var examples := ExamplePoems(language, data, normalized, 2, exampleDraws);
      if examples != [] then Ok(Join(examples, "\n\n") + "\n\n" + base + ":\n")
      else Ok(PromptPrefix(language, theme) + base + "\n")
  }

  /** The two shapes of a prompt. With a non-empty corpus the prompt is one or
      two example texts joined by blank lines, a blank line, the seed prompt
      and ":\n"; with an empty corpus it is the language prefix about the raw
      theme, the seed prompt and "\n". Only an unsupported language fails. */
  lemma PromptShape(language: string, data: TrainingData, themes: ThemesData, theme: string,
                    promptDraw: nat, exampleDraws: seq<nat>)
    ensures var r := Prompt(language, data, themes, theme, promptDraw, exampleDraws);
            var normalized := Normalized(ThemeAliases, theme);
            var base := BasePrompt(themes, normalized, theme, promptDraw);
            var examples := ExamplePoems(language, data, normalized, 2, exampleDraws);
            && (r.Err? <==> !SupportedLanguage(language))
            && (r.Ok? && LanguagePoems(language, data) != [] ==>
                  1 <= |examples| <= 2 && multiset(examples) <= multiset(ExamplePool(language, data, normalized)) &&
                  r.value == Join(examples, "\n\n") + "\n\n" + base + ":\n")
            && (r.Ok? && LanguagePoems(language, data) == [] ==>
                  r.value == PromptPrefix(language, theme) + base + "\n")
  {
    var normalized := Normalized(ThemeAliases, theme);
    ExamplePoemsBounded(language, data, normalized, 2, exampleDraws);
  }
}
