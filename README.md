# Bijoy Dibosh poetry generator — verified model of the generation pipeline

This project models the core of `BijoyPoetryGenerator`. The generator writes
four-line Victory Day poems in Bengali or English. It builds a prompt from a
theme, asks a language model or a template fallback for text, and normalises
whatever text comes back into exactly four lines.

The model covers these parts, one module each:

- **Theme normalisation** (`Themes`): lower-case and trim the input. Keep it
  if it is a canonical key. Otherwise take the first key, in table order,
  that lists it as an alias. Otherwise keep the cleaned input.
- **Example retrieval and prompt building** (`Prompting`): poems tagged with
  the theme, or the whole corpus of the language, capped at two. The prompt
  is either the few-shot form or the language prefix form.
- **Template-based generation** (`Templates`): the default poem for an empty
  corpus. Otherwise the first four lines of a random poem, padded with
  filler templates.
- **The four-line normaliser** (`Formatting`): split, strip, drop blank
  lines, skip short lines, truncate long ones, keep at most four, and pad
  with "victory" fillers.
- **The generator object** (`Generator`): the language field, the loop of
  `generate`, and the two accessors.

`Text` holds the Python string operations the code uses (`lower`, `strip`,
`split`, `join`). `Sampling` holds `random.choice` and `random.sample`.
`Config` holds the tables of `config.py`, and `Data` holds the loaded
datasets.

Randomness is an explicit argument. Every random call reads natural numbers
("draws") from a sequence handed in by the caller. Every property is proved
for all draws, so it holds whatever the random module returns.
`SampleReachesEveryPositionChoice` shows that every ordered choice of
distinct positions of a pool is the outcome of some draws, also when the pool
repeats a text. So the model leaves out no outcome of `random.sample`.

The language model is not modelled. For each request, a `Backend` value says
what the model path produced:

- some arbitrary text;
- "model unavailable", where the code runs the template generator on the
  prompt;
- "exception escaped", where `generate` runs the template generator on the
  raw theme.

The normaliser's guarantees hold for any text, so they hold for every model
output.

In these places the code behaves otherwise than a reader might expect, and the model follows the code:

- A failed model load is not remembered. The code resets the model to
  `None` and the next call tries again (poetry_generator.py:84-128). Each
  request therefore gets its own `Backend` outcome, and no state records a
  load failure.
- Prompt building can fail. `config.PROMPT_TEMPLATES[self.language]`
  (poetry_generator.py:148) raises a lookup error for a language other than
  "bengali" or "english". `generate` does not catch it, because the prompt
  is built outside the `try`. The model returns `Err(UnknownLanguage(...))`
  from `Prompt`, `Poem`, `Poems` and `Generate`.
- The fallback inside `_generate_with_model` passes the prompt, not the
  theme, to `_generate_template_based` (poetry_generator.py:192 and 229). So
  the prompt text is what gets normalised as a theme there. `RawText` models
  exactly this.
- `generate` replaces the language only for a non-empty argument, because
  `if language:` is false for `""`. A negative `num_outputs` yields an empty
  list.

## Model

| member | source | states |
|---|---|---|
| Text.Lower | poetry_generator.py:131 | `str.lower()` keeps the length, maps each ASCII capital to its lower-case letter (code point plus 32) and leaves every other character as it is |
| Text.Strip | poetry_generator.py:131 | the result is a contiguous slice `s[lo..hi]` of the input with only whitespace before `lo` and after `hi`, and it neither starts nor ends with whitespace; an empty result means the input was all whitespace |
| Text.CleanIdempotent | poetry_generator.py:131 | lower-casing and stripping a second time changes nothing |
| Text.JoinSplit | poetry_generator.py:260 | joining the parts of `split('\n')` with `'\n'` gives back the text |
| Text.SplitJoin | poetry_generator.py:271 | splitting the `'\n'`-join of line-break-free lines gives back exactly those lines |
| Text.Clean | poetry_generator.py:131 | `theme.lower().strip()` has no upper-case letter, is no longer than the input and neither starts nor ends with whitespace |
| Text.Join | poetry_generator.py:271 | `sep.join(parts)` starts with the first part; `JoinSplit` and `SplitJoin` relate it to `split` |
| Text.Split | poetry_generator.py:307 | `split` never returns an empty list and no part contains the separator |
| Themes.FirstOwnerFrom | poetry_generator.py:137-140 | the position found is the first entry from `i` on whose lower-cased aliases contain the input; no position is found exactly when no such entry exists |
| Themes.Normalized | poetry_generator.py:129-143 | a cleaned input that is a key is returned as is; otherwise the key of the first entry owning it, with no earlier entry owning it; otherwise the cleaned input |
| Themes.NormalizeTheme | poetry_generator.py:129-143 | the loop with early returns computes `Normalized` |
| Themes.NormalizeIdempotent | poetry_generator.py:129-143 | normalising twice gives the same theme as normalising once, for any table whose keys are written in cleaned form |
| Themes.NormalizedIsKeyOrInput | poetry_generator.py:129-143 | normalisation never fails: the result is a canonical key or the cleaned input |
| Themes.ThemeAliasesKeysClean | config.py:73-82 | every key of the configured alias table is already lower-case and trimmed, so idempotence applies to it |
| Themes.IndependenceStaysCanonical | poetry_generator.py:133-135 | "independence" stays "independence" although the "freedom" entry lists it, because the key check comes first |
| Themes.SwadhinotaResolvesToFreedom | poetry_generator.py:137-140 | the Bengali alias listed under both "freedom" and "independence" resolves to "freedom", the earlier entry |
| Themes.LibertyResolvesToFreedom | poetry_generator.py:131-140 | "  Liberty " is lower-cased and trimmed before the lookup and resolves to "freedom" |
| Data.LanguagePoems | poetry_generator.py:170-173 | the corpus is the Bengali poems for "bengali" and the English poems for every other language |
| Data.WithTheme | poetry_generator.py:176 | a poem is kept exactly when its theme equals the given one, and the result is no longer than the corpus |
| Data.WithThemeAppend | poetry_generator.py:176 | the records kept from a concatenation are those kept from the first part followed by those kept from the second, so the corpus order is kept |
| Data.WithThemeMultiset | poetry_generator.py:176 | each record with the theme is kept as often as the corpus holds it, and no other record is kept |
| Data.WithThemeNone | poetry_generator.py:176 | a corpus with no record of the theme gives the empty list |
| Data.WithThemeKeepsAll | poetry_generator.py:176 | a corpus whose every record has the theme comes back whole and in order |
| Data.Texts | poetry_generator.py:176 | the texts of the poems, position by position |
| Sampling.Choice | poetry_generator.py:256 | `random.choice` returns an element of the non-empty list |
| Sampling.Sample | poetry_generator.py:185 | `random.sample(pool, k)` returns exactly `k` elements; `SampleSubMultiset` states that they come from the pool without repetition and `SampleReachesEveryPositionChoice` that every ordered choice of distinct positions can come out |
| Sampling.SampleSubMultiset | poetry_generator.py:185 | `random.sample(pool, k)` returns `k` elements of the pool, none more often than it occurs there |
| Sampling.SampleReachesEveryChoice | poetry_generator.py:185 | every ordered choice of distinct elements of a duplicate-free pool is the outcome of some draws |
| Sampling.SampleAt | poetry_generator.py:185 | sampling the elements found at a list of positions gives the elements at the positions sampled from that list |
| Sampling.SampleReachesEveryPositionChoice | poetry_generator.py:185 | every ordered choice of distinct positions of any pool, with or without repeated elements, is the outcome of some draws |
| Prompting.ExamplePool | poetry_generator.py:168-181 | the pool is empty exactly when the language's corpus is; each text in it is the text of a corpus poem |
| Prompting.ExamplePoolFollowsTheme | poetry_generator.py:175-181 | if some poem has the theme, the pool is the texts of the `WithTheme` records, in corpus order and with their repetitions, and holds exactly the texts of such poems; otherwise it is every text of the corpus in order |
| Prompting.ExamplePoems | poetry_generator.py:168-185 | `_get_example_poems` returns `min(len(pool), num_examples)` texts; `ExamplePoemsBounded` states which |
| Prompting.ExamplePoemsBounded | poetry_generator.py:183-185 | a pool of at most `num_examples` texts is returned whole and in order; a larger one gives exactly `num_examples` texts, taken at distinct positions of it |
| Config.PromptPrefix | config.py:61-70 | the prefix of a supported language has the theme at the `{theme}` placeholder and ends with ":\n" |
| Prompting.BasePrompt | poetry_generator.py:150-158 | the seed prompt is one of the theme's prompts when the metadata has a non-empty list for the normalised theme, and "A Victory Day poem about " + raw theme otherwise |
| Prompting.Prompt | poetry_generator.py:145-166 | `_get_prompt` fails exactly for a language without a prompt template, with the lookup error for that language; `PromptShape` gives the two shapes of a prompt |
| Prompting.PromptShape | poetry_generator.py:145-166 | the prompt fails exactly for an unsupported language; with a non-empty corpus it is one or two pool texts joined by blank lines, a blank line, the seed prompt and ":\n"; with an empty corpus it is the language prefix about the raw theme, the seed prompt and "\n" |
| Templates.Fillers | poetry_generator.py:275-288 | each language has a list of four filler templates |
| Templates.AdditionalLines | poetry_generator.py:273-290 | `min(count, 4)` lines are returned |
| Templates.AdditionalLinesAreTemplates | poetry_generator.py:273-290 | every additional line is one of the language's templates, English unless the language is "bengali" |
| Templates.AdditionalLinesSubMultiset | poetry_generator.py:290 | no template is used more often than it occurs in the list |
| Templates.DefaultLines | poetry_generator.py:292-303 | the default poem has four lines |
| Templates.DefaultPoem | poetry_generator.py:292-303 | `_generate_default_poem` embeds the raw theme |
| Templates.DefaultPoemShape | poetry_generator.py:292-303 | for a theme without a line break, the default poem splits into exactly its four lines |
| Templates.TemplatePool | poetry_generator.py:236-250 | when some poem of the language has the normalised theme, the pool is exactly the `WithTheme` records, so it holds exactly the poems with that theme; otherwise it is the whole corpus of the language; it is empty exactly when that corpus is |
| Templates.PaddedLines | poetry_generator.py:259-269 | there are always four result lines; `PaddedLinesShape` states which |
| Templates.PaddedLinesShape | poetry_generator.py:259-269 | four lines: the poem's first (at most four) lines in order, and every later line is a filler template of the language about the normalised theme, no template used more often than it occurs in the list |
| Templates.PaddedLinesSplit | poetry_generator.py:259-271 | the joined result splits back into those four lines unless the poem has fewer than four lines and an English filler embeds a theme with a line break |
| Templates.TemplateBased | poetry_generator.py:231-271 | `_generate_template_based` embeds the raw theme for an empty corpus; otherwise its text splits into four lines unless the chosen poem has fewer than four lines and an English filler embeds a theme with a line break |
| Templates.TemplateBasedOutcomes | poetry_generator.py:231-271 | for an empty corpus the default poem with the raw theme; otherwise the padded lines of a poem chosen from the pool, which has the normalised theme whenever some corpus poem has it, and the lines split back into four under the same proviso |
| Templates.FillersHaveNoLineBreak | poetry_generator.py:275-288 | no filler template contains a line break unless it embeds a theme with one |
| Templates.DefaultLinesHaveNoLineBreak | poetry_generator.py:292-303 | no default line contains a line break for a theme without one |
| Formatting.MeaningfulLines | poetry_generator.py:307 | the meaningful lines are the stripped parts of the split taken at the positions of the non-blank parts |
| Formatting.MeaningfulLinesFromSplit | poetry_generator.py:307 | the meaningful lines are, in order, the stripped forms of exactly the non-blank parts of the split, and none is empty |
| Formatting.Truncate | poetry_generator.py:316 | a truncated line is a prefix of the line, of length `min(len, 80)` |
| Formatting.KeepLines | poetry_generator.py:310-316 | the scan with its early `break` keeps exactly the first four long-enough meaningful lines, truncated |
| Formatting.KeptFromPositions | poetry_generator.py:310-316 | kept lines keep their input order, are `min(4, n)` of the `n` long-enough lines, came from lines of at least 10 characters, and have between 10 and 80 characters |
| Formatting.KeptFromText | poetry_generator.py:305-316 | end to end over the raw text: each kept line is the truncation of a stripped, non-blank part of `text.split('\n')` that has at least 10 characters once stripped, and the parts used occur in increasing order |
| Formatting.PadLineIsFiller | poetry_generator.py:319-320 | each padding line is a filler template for the theme "victory" |
| Formatting.FormatAs4Lines | poetry_generator.py:305-322 | the method, with its padding loop, returns the kept lines followed by one independently drawn "victory" filler per missing line, joined with `'\n'` |
| Formatting.FormattedLines | poetry_generator.py:305-322 | the formatter always produces four lines |
| Formatting.FormattedShape | poetry_generator.py:319-322 | there are four lines: the kept lines first, then "victory" fillers |
| Formatting.FormatHasFourLines | poetry_generator.py:305-322 | for every input text the output splits into exactly four lines |
| Formatting.EnglishLinesInBounds | poetry_generator.py:305-322 | in English every output line, kept or filler, has between 10 and 80 characters |
| Generator.RawText | poetry_generator.py:350-355 | with an empty corpus, the text after a failed model load embeds the prompt, because the fallback at line 192 is called on it, while the text after an escaped exception embeds the raw theme |
| Generator.Poem | poetry_generator.py:347-359 | one iteration fails exactly for an unsupported language, with the lookup error for that language |
| Generator.Poems | poetry_generator.py:346-361 | `generate` fails exactly when a poem is asked for in an unsupported language, with the lookup error; otherwise it returns `max(num_outputs, 0)` poems |
| Generator.GenerateOne | poetry_generator.py:348-359 | one iteration either fails on the prompt or yields the normalised text the backend produced |
| Generator.PoemHasFourLines | poetry_generator.py:348-359 | in a supported language one iteration succeeds with the formatted lines of the backend's text, and they split back into exactly four lines |
| Generator.GeneratePoems | poetry_generator.py:346-361 | the loop returns one poem per request in order, and fails with the prompt's error when that error occurs |
| Generator.PoemsHaveFourLines | poetry_generator.py:324-361 | `generate` fails exactly when a poem is requested in an unsupported language; otherwise it returns `max(num_outputs, 0)` poems, the i-th made from the i-th request alone, each splitting into exactly four lines |
| Generator.PoetryGenerator.constructor | poetry_generator.py:37-56 | the language is stored lower-cased and the loaded datasets are kept |
| Generator.PoetryGenerator.Generate | poetry_generator.py:324-361 | a non-empty language argument replaces the field with its lower-case form before the loop, and the field is unchanged otherwise; the result is `Poems` for the new language |
| Generator.PoetryGenerator.AvailableThemes | poetry_generator.py:363-365 | the canonical keys in table order, each of which normalises to itself |
| Generator.PoetryGenerator.RandomSlogan | poetry_generator.py:367-372 | one of the loaded slogans when there are any, the fixed default slogan otherwise |

## Left out

- Model loading and inference (`_load_model`, `_generate_with_model`, `_get_device`). These are calls into torch and transformers plus environment checks. They are replaced by the per-request `Backend` outcome, and the model, tokenizer and device fields are not modelled.
- Reading the JSON datasets (`_load_training_data`, `_load_themes_data`) and logging. These are I/O. The datasets are constructor arguments, and `EmptyTrainingData` is the value the code uses when the file is missing.
- The probability distribution of `random`. The model fixes only which outcomes are possible.
- Text.Lower: models `str.lower()` for the ASCII letters only; Unicode case mapping is not modelled.
- Text.Join: its own contract states only that the first part starts the result. The whole value is tied to `split` by `JoinSplit` and `SplitJoin`; a clause about the last part is left out to keep those round-trip proofs cheap.
- Templates.Fillers and Templates.DefaultLines: the Bengali templates are the stored string constants exactly as written, and no property of their lengths is claimed.
- Formatting.EnglishLinesInBounds: the line-length bound on filler lines is proved for English only. The code appends Bengali fillers without truncating them, and the model claims no bound for them.
- Templates.PaddedLinesSplit: requires the poem to have four lines already, the language to be Bengali, or the normalised theme to have no line break, because the English fillers embed the theme. The formatter still returns four lines for any such text.
- Prompting.ExamplePoemsBounded: states distinct positions through the multiset bound. For a pool with repeated texts the draws may pick equal texts at different positions, as the code does.
- Corpus records without a `"text"` field, and `str.format` placeholders inside a theme. Records always carry a text here. The theme is substituted literally, which is what `format` does with the value of a keyword argument.
- `_format_as_4_lines` is split into `KeepLines` (the scan with `break`) and `FormatAs4Lines` (the padding loop), to keep each proof small. `FormatAs4Lines` calls `KeepLines`, so together they are the one source function.
