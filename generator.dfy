/** The generator object: its language field, the datasets it was built
    with, the per-request loop of `generate` and the two accessors. */
module Generator {
  import opened Wrappers
  import opened Text
  import opened Config
  import opened Data
  import opened Themes
  import opened Prompting
  import opened Templates
  import opened Formatting
  import opened Sampling

  /** What the model path yields for one request. The transformer is not
      modelled: it either returns some text, or the model is unavailable and
      `_generate_with_model` falls back to the template generator on the
      prompt, or an exception escapes it and `generate` falls back to the
      template generator on the raw theme. */
  datatype Backend =
    | ModelText(text: string)
    | ModelUnavailable
    | ModelRaised

  /** The random numbers one request consumes, and the outcome of the model
      path for it. */
  datatype Request = Request(
    promptDraw: nat,
    exampleDraws: seq<nat>,
    backend: Backend,
    poemDraw: nat,
    fillerDraws: seq<nat>,
    padDraws: seq<nat>)

  /** The text handed to the formatter for one request. */
  function RawText(language: string, data: TrainingData, theme: string, prompt: string, rq: Request): (r: string)
    ensures rq.backend.ModelUnavailable? && LanguagePoems(language, data) == [] ==> Contains(r, prompt)
    ensures rq.backend.ModelRaised? && LanguagePoems(language, data) == [] ==> Contains(r, theme)
  {
    match rq.backend
    case ModelText(text) => text
    case ModelUnavailable => TemplateBased(language, data, prompt, rq.poemDraw, rq.fillerDraws)
    case ModelRaised => TemplateBased(language, data, theme, rq.poemDraw, rq.fillerDraws)
  }

  /** One iteration of the loop in `generate`: build the prompt, obtain text,
      format it as four lines. */
  function Poem(language: string, data: TrainingData, themes: ThemesData, theme: string, rq: Request): (r: Result<string, Error>)
    ensures r.Err? <==> !SupportedLanguage(language)
    ensures r.Err? ==> r.error == UnknownLanguage(language)
  {
    match Prompt(language, data, themes, theme, rq.promptDraw, rq.exampleDraws)
    case Err(e) => Err(e)
    case Ok(prompt) => Ok(Join(FormattedLines(language, RawText(language, data, theme, prompt, rq), rq.padDraws), "\n"))
  }

  /** What `generate` returns for `numOutputs` requests: the `i`-th poem is
      made from the `i`-th request alone; a negative count gives no poem, and
      an unsupported language fails on the first prompt. */
  function Poems(language: string, data: TrainingData, themes: ThemesData, theme: string, numOutputs: int,
                 requests: nat -> Request): (r: Result<seq<string>, Error>)
    ensures r.Err? <==> numOutputs > 0 && !SupportedLanguage(language)
    ensures r.Err? ==> r.error == UnknownLanguage(language)
    ensures r.Ok? ==> |r.value| == if numOutputs > 0 then numOutputs else 0
  {
    if numOutputs <= 0 then Ok([])
    else if !SupportedLanguage(language) then Err(UnknownLanguage(language))
    else Ok(seq(numOutputs, i requires 0 <= i < numOutputs => Poem(language, data, themes, theme, requests(i)).value))
  }

  /** Every poem of a successful `generate` is the formatter's output, so it
      has exactly four lines; the call fails exactly when at least one poem is
      asked for in an unsupported language. */
  lemma PoemsHaveFourLines(language: string, data: TrainingData, themes: ThemesData, theme: string,
                           numOutputs: int, requests: nat -> Request)
    ensures var r := Poems(language, data, themes, theme, numOutputs, requests);
            && (r.Err? <==> numOutputs > 0 && !SupportedLanguage(language))
            && (r.Ok? ==> |r.value| == (if numOutputs > 0 then numOutputs else 0))
            && (r.Ok? ==> forall i :: 0 <= i < |r.value| ==>
                  var rq := requests(i);
                  var prompt := Prompt(language, data, themes, theme, rq.promptDraw, rq.exampleDraws).value;
                  var lines := FormattedLines(language, RawText(language, data, theme, prompt, rq), rq.padDraws);
                  |lines| == 4 && r.value[i] == Join(lines, "\n") && Split(r.value[i], '\n') == lines)
  {
    var r := Poems(language, data, themes, theme, numOutputs, requests);
    if r.Ok? && numOutputs > 0 {
      forall i | 0 <= i < |r.value|
        ensures var rq := requests(i);
                var prompt := Prompt(language, data, themes, theme, rq.promptDraw, rq.exampleDraws).value;
                var lines := FormattedLines(language, RawText(language, data, theme, prompt, rq), rq.padDraws);
                |lines| == 4 && r.value[i] == Join(lines, "\n") && Split(r.value[i], '\n') == lines
      {
        PoemHasFourLines(language, data, themes, theme, requests(i));
      }
    }
  }

  /** One poem in a supported language is four formatted lines. */
  lemma PoemHasFourLines(language: string, data: TrainingData, themes: ThemesData, theme: string, rq: Request)
    requires SupportedLanguage(language)
    ensures var prompt := Prompt(language, data, themes, theme, rq.promptDraw, rq.exampleDraws).value;
            var lines := FormattedLines(language, RawText(language, data, theme, prompt, rq), rq.padDraws);
            && Poem(language, data, themes, theme, rq) == Ok(Join(lines, "\n"))
            && |lines| == 4 && Split(Join(lines, "\n"), '\n') == lines
  {
    var prompt := Prompt(language, data, themes, theme, rq.promptDraw, rq.exampleDraws).value;
    PoemOfPrompt(language, data, themes, theme, rq, prompt);
    FormatHasFourLines(language, RawText(language, data, theme, prompt, rq), rq.padDraws);
  }

  lemma PoemOfPrompt(language: string, data: TrainingData, themes: ThemesData, theme: string, rq: Request,
                     prompt: string)
    requires Prompt(language, data, themes, theme, rq.promptDraw, rq.exampleDraws) == Ok(prompt)
    ensures Poem(language, data, themes, theme, rq)
            == Ok(Join(FormattedLines(language, RawText(language, data, theme, prompt, rq), rq.padDraws), "\n"))
  {
  }

  /** A failing iteration fails the whole call with the same error. */
  lemma PoemFails(language: string, data: TrainingData, themes: ThemesData, theme: string, numOutputs: int,
                  requests: nat -> Request, i: nat)
    requires i < numOutputs
    requires Poem(language, data, themes, theme, requests(i)).Err?
    ensures Poems(language, data, themes, theme, numOutputs, requests)
            == Err(Poem(language, data, themes, theme, requests(i)).error)
  {
  }

  lemma PoemSucceeds(language: string, data: TrainingData, themes: ThemesData, theme: string, rq: Request)
    requires Poem(language, data, themes, theme, rq).Ok?
    ensures SupportedLanguage(language)
  {
  }

  lemma PoemsOfResults(language: string, data: TrainingData, themes: ThemesData, theme: string, numOutputs: int,
                       requests: nat -> Request, results: seq<string>)
    requires |results| == (if numOutputs > 0 then numOutputs else 0)
    requires forall k :: 0 <= k < |results| ==> Poem(language, data, themes, theme, requests(k)) == Ok(results[k])
    requires numOutputs > 0 ==> SupportedLanguage(language)
    ensures Poems(language, data, themes, theme, numOutputs, requests) == Ok(results)
  {
    if numOutputs > 0 {
      var r := seq(numOutputs, i requires 0 <= i < numOutputs => Poem(language, data, themes, theme, requests(i)).value);
      assert Poems(language, data, themes, theme, numOutputs, requests) == Ok(r);
      forall k | 0 <= k < |results| ensures r[k] == results[k] {
        assert Poem(language, data, themes, theme, requests(k)) == Ok(results[k]);
      }
      assert r == results;
    }
  }

  lemma AppendPoem(language: string, data: TrainingData, themes: ThemesData, theme: string,
                   requests: nat -> Request, results: seq<string>, poem: string)
    requires forall k :: 0 <= k < |results| ==> Poem(language, data, themes, theme, requests(k)) == Ok(results[k])
    requires Poem(language, data, themes, theme, requests(|results|)) == Ok(poem)
    ensures forall k :: 0 <= k < |results| + 1 ==>
      Poem(language, data, themes, theme, requests(k)) == Ok((results + [poem])[k])
  {
  }

  /** One iteration of the loop of `generate`. */
  method GenerateOne(language: string, data: TrainingData, themes: ThemesData, theme: string, rq: Request)
    returns (r: Result<string, Error>)
    ensures r == Poem(language, data, themes, theme, rq)
  {
    var prompt := Prompt(language, data, themes, theme, rq.promptDraw, rq.exampleDraws);
    if prompt.Err? {
      return Err(prompt.error);
    }
    var generated := RawText(language, data, theme, prompt.value, rq);
    var formatted := FormatAs4Lines(language, generated, rq.padDraws);
    PoemOfPrompt(language, data, themes, theme, rq, prompt.value);
    return Ok(formatted);
  }

  /** The loop of `generate`: one poem per iteration, appended in order; the
      first failing prompt ends the call. */
  method GeneratePoems(language: string, data: TrainingData, themes: ThemesData, theme: string, numOutputs: int,
                       requests: nat -> Request) returns (r: Result<seq<string>, Error>)
    ensures r == Poems(language, data, themes, theme, numOutputs, requests)
  {
    var count: nat := if numOutputs > 0 then numOutputs else 0;
    var results: seq<string> := [];
    for i := 0 to count
      invariant |results| == i
      invariant forall k :: 0 <= k < i ==> Poem(language, data, themes, theme, requests(k)) == Ok(results[k])
      invariant i > 0 ==> SupportedLanguage(language)
    {
      var poem := GenerateOne(language, data, themes, theme, requests(i));
      if poem.Err? {
        PoemFails(language, data, themes, theme, numOutputs, requests, i);
        return Err(poem.error);
      }
      PoemSucceeds(language, data, themes, theme, requests(i));
      AppendPoem(language, data, themes, theme, requests, results, poem.value);
      results := results + [poem.value];
    }
    PoemsOfResults(language, data, themes, theme, numOutputs, requests, results);
    r := Ok(results);
  }

  /** `get_random_slogan`'s answer for an empty slogan list. */
  const DefaultSlogan: string := "à¦œà¦¯à¦¼ à¦¬à¦¾à¦‚à¦²à¦¾! ðŸ‡§ðŸ‡©"

  /** `BijoyPoetryGenerator`. Only the language changes after construction;
      the datasets are the loaded JSON files. */
  class PoetryGenerator {
    var language: string
    const trainingData: TrainingData
    const themesData: ThemesData

    constructor (language: string, trainingData: TrainingData, themesData: ThemesData)
      ensures this.language == Lower(language)
      ensures this.trainingData == trainingData && this.themesData == themesData
    {
      this.language := Lower(language);
      this.trainingData := trainingData;
      this.themesData := themesData;
    }

    /** `generate(theme, language, num_outputs)`: a non-empty language
        argument replaces the current language before the loop; each
        iteration consumes one request. */
    method Generate(theme: string, languageOverride: Option<string>, numOutputs: int, requests: nat -> Request)
      returns (r: Result<seq<string>, Error>)
      modifies this
      ensures languageOverride.Some? && languageOverride.value != "" ==> language == Lower(languageOverride.value)
      ensures !(languageOverride.Some? && languageOverride.value != "") ==> language == old(language)
      ensures r == Poems(language, trainingData, themesData, theme, numOutputs, requests)
    {
      if languageOverride.Some? && languageOverride.value != "" {
        language := Lower(languageOverride.value);
      }
      r := GeneratePoems(language, trainingData, themesData, theme, numOutputs, requests);
    }

    /** `get_available_themes`: the canonical keys in table order, each of
        which normalises to itself. */
    function AvailableThemes(): (r: seq<string>)
      ensures r == CanonicalThemes
      ensures forall i :: 0 <= i < |r| ==> Normalized(ThemeAliases, r[i]) == r[i]
    {
      ThemeKeys();
      forall i | 0 <= i < |ThemeAliases| ensures Normalized(ThemeAliases, ThemeAliases[i].key) == ThemeAliases[i].key {
        EntryKeyClean(i);
        assert Keys(ThemeAliases)[i] == ThemeAliases[i].key;
      }
      Keys(ThemeAliases)
    }

    /** `get_random_slogan`: one of the loaded slogans, or the default one
        when there are none. */
    function RandomSlogan(draw: nat): (s: string)
      ensures trainingData.slogans != [] ==> s in trainingData.slogans
      ensures trainingData.slogans == [] ==> s == DefaultSlogan
    {
      if trainingData.slogans != [] then Choice(trainingData.slogans, draw) else DefaultSlogan
    }
  }
}
