/** Template-based generation: the fallback used when no model output is
    available (`_generate_template_based`, `_generate_additional_lines`,
    `_generate_default_poem`). The Bengali templates are the constants as
    the source file stores them; nothing is proved about their lengths. */
module Templates {
  import opened Wrappers
  import opened Text
  import opened Config
  import opened Sampling
  import opened Data
  import opened Themes

  /** The English filler lines about `theme`. */
  function EnglishFillers(theme: string): seq<string> {
    [ "The spirit of " + theme + " lives forever strong",
      "Through " + theme + " we find our way",
      "In hearts of heroes, " + theme + " stays",
      "Victory's song will always play" ]
  }

  /** The Bengali filler lines; they do not mention the theme. */
  const BengaliFillers: seq<string> := [
    "à¦¬à¦¾à¦‚à¦²à¦¾à¦° " + "à¦†à¦•à¦¾à¦¶à§‡ " + "à¦‰à¦¡à¦¼à§‡ " + "à¦¸à§à¦¬à¦¾à¦§à§€à¦¨à¦¤à¦¾à¦° " + "à¦ªà¦¤à¦¾à¦•à¦¾",
    "à¦¬à¦¿à¦œà¦¯à¦¼à§‡à¦° " + "à¦—à¦¾à¦¨ à¦—à¦¾à¦‡ " + "à¦†à¦®à¦°à¦¾",
    "à¦¶à¦¹à§€à¦¦à¦¦à§‡à¦° " + "à¦¸à§à¦®à§ƒà¦¤à¦¿ " + "à¦…à¦®à¦°",
    "à¦œà¦¯à¦¼ " + "à¦¬à¦¾à¦‚à¦²à¦¾ " + "à¦œà¦¯à¦¼ " + "à¦¬à¦¾à¦‚à¦²à¦¾à¦¦à§‡à¦¶"
  ]

  /** The fixed four-template list of the language (English unless "bengali"). */
  function Fillers(language: string, theme: string): (r: seq<string>)
    ensures |r| == 4
  {
    if language == "bengali" then BengaliFillers else EnglishFillers(theme)
  }

  /** `_generate_additional_lines(theme, count)`: `min(count, 4)` templates
      of the language's list, drawn one position after the other. */
  function AdditionalLines(language: string, theme: string, count: nat, draws: seq<nat>): (r: seq<string>)
    ensures |r| == if count < 4 then count else 4
  {
    Sample(Fillers(language, theme), if count < 4 then count else 4, draws)
  }

  /** Every additional line is one of the language's templates. */
  lemma AdditionalLinesAreTemplates(language: string, theme: string, count: nat, draws: seq<nat>)
    ensures forall i :: 0 <= i < |AdditionalLines(language, theme, count, draws)| ==>
      AdditionalLines(language, theme, count, draws)[i] in Fillers(language, theme)
  {
    SampleSubMultiset(Fillers(language, theme), if count < 4 then count else 4, draws);
  }

  /** No template is used more often than it occurs in the list: the draws
      pick distinct positions. */
  lemma AdditionalLinesSubMultiset(language: string, theme: string, count: nat, draws: seq<nat>)
    ensures multiset(AdditionalLines(language, theme, count, draws)) <= multiset(Fillers(language, theme))
  {
    SampleSubMultiset(Fillers(language, theme), if count < 4 then count else 4, draws);
  }

  /** The four lines of `_generate_default_poem(theme)` in Bengali; the raw
      theme is embedded in the second line. */
  function BengaliDefaultLines(theme: string): seq<string> {
    [ "à¦¬à¦¿à¦œà¦¯à¦¼ " + "à¦¦à¦¿à¦¬à¦¸à§‡à¦° " + "à¦¶à§à¦\U{00AD}à§‡à¦šà§à¦›à¦¾",
      theme + " à¦à¦° " + "à¦®à¦¹à¦¿à¦®à¦¾à¦¯à¦¼ " + "à¦\U{00AD}à¦°à¦¾",
      "à¦¸à§à¦¬à¦¾à¦§à§€à¦¨à¦¤à¦¾à¦° " + "à¦¸à§‚à¦°à§à¦¯ " + "à¦‰à¦\U{00A0}à§‡à¦›à§‡",
      "à¦¬à¦¾à¦‚à¦²à¦¾à¦¦à§‡à¦¶ " + "à¦†à¦®à¦¾à¦° " + "à¦ªà§à¦°à¦¿à¦¯à¦¼ " + "à¦¦à§‡à¦¶" ]
  }

  /** The English default lines; the raw theme is embedded in the second line. */
  function EnglishDefaultLines(theme: string): seq<string> {
    [ "On Victory Day we celebrate",
      "The " + theme + " of our nation great",
      "December's triumph we relate",
      "Freedom's story, never late" ]
  }

  /** The default lines of the language (English unless "bengali"). */
  function DefaultLines(language: string, theme: string): (r: seq<string>)
    ensures |r| == 4
  {
    if language == "bengali" then BengaliDefaultLines(theme) else EnglishDefaultLines(theme)
  }

  /** `_generate_default_poem(theme)`: the hard-coded poem as one text. */
  function DefaultPoem(language: string, theme: string): (r: string)
    ensures Contains(r, theme)
  {
    var ls := DefaultLines(language, theme);
    JoinFour(ls, "\n");
    var s := ls[0] + "\n" + (ls[1] + "\n" + (ls[2] + "\n" + ls[3]));
    assert OccursAt(s, theme, |ls[0]| + 1 + (if language == "bengali" then 0 else 4));
    Join(ls, "\n")
  }

  predicate OccursAt(s: string, part: string, i: nat) {
    i + |part| <= |s| && s[i..i + |part|] == part
  }

  predicate Contains(s: string, part: string) {
    exists i: nat | i <= |s| :: OccursAt(s, part, i)
  }

  lemma JoinFour(ls: seq<string>, sep: string)
    requires |ls| == 4
    ensures Join(ls, sep) == ls[0] + sep + (ls[1] + sep + (ls[2] + sep + ls[3]))
  {
    assert ls[1..][1..] == ls[2..];
    assert ls[2..][1..] == ls[3..];
    assert Join(ls[3..], sep) == ls[3];
    assert Join(ls[2..], sep) == ls[2] + sep + ls[3];
    assert Join(ls[1..], sep) == ls[1] + sep + Join(ls[2..], sep);
  }

  /** For a theme without line breaks the default poem has exactly its four
      lines. */
  lemma DefaultPoemShape(language: string, theme: string)
    ensures '\n' !in theme ==> Split(DefaultPoem(language, theme), '\n') == DefaultLines(language, theme)
  {
    var ls := DefaultLines(language, theme);
    if '\n' !in theme {
      DefaultLinesHaveNoLineBreak(language, theme);
      SplitJoin(ls, '\n');
    }
  }

  /** The poems the template generator picks from: those of the language
      tagged with the normalised theme, or the whole language corpus. */
  function TemplatePool(language: string, data: TrainingData, normalized: string): (pool: seq<PoemRecord>)
    ensures pool == [] <==> LanguagePoems(language, data) == []
    ensures forall p :: p in pool ==> p in LanguagePoems(language, data)
    ensures (exists p :: p in LanguagePoems(language, data) && p.theme == Some(normalized)) ==>
              && pool == WithTheme(LanguagePoems(language, data), normalized)
              && forall p :: p in pool <==> p in LanguagePoems(language, data) && p.theme == Some(normalized)
    ensures (forall p :: p in LanguagePoems(language, data) ==> p.theme != Some(normalized)) ==>
              pool == LanguagePoems(language, data)
  {
    var all := LanguagePoems(language, data);
    var poems := WithTheme(all, normalized);
    if poems == [] then
      assert forall p :: p in all ==> p.theme != Some(normalized);
      all
    else
      assert poems[0] in poems;
      poems
  }

  /** The first four lines of the chosen poem, or all of its lines followed
      by filler lines up to four. */
  function PaddedLines(language: string, normalized: string, text: string, fillerDraws: seq<nat>): (r: seq<string>)
    ensures |r| == 4
  {
    var lines := Split(Strip(text), '\n');
    if |lines| >= 4 then lines[..4]
    else lines + AdditionalLines(language, normalized, 4 - |lines|, fillerDraws)
  }

  /** Exactly four lines: the first (at most four) lines of the poem, then
      filler templates of the language about the normalised theme, drawn
      without repetition. */
  lemma PaddedLinesShape(language: string, normalized: string, text: string, fillerDraws: seq<nat>)
    ensures var lines := Split(Strip(text), '\n');
            var r := PaddedLines(language, normalized, text, fillerDraws);
            var n := if |lines| < 4 then |lines| else 4;
            && |r| == 4
            && r[..n] == lines[..n]
            && (forall k :: n <= k < 4 ==> r[k] in Fillers(language, normalized))
            && multiset(r[n..]) <= multiset(Fillers(language, normalized))
  {
    var lines := Split(Strip(text), '\n');
    var r := PaddedLines(language, normalized, text, fillerDraws);
    var n := if |lines| < 4 then |lines| else 4;
    PaddedLinesParts(language, normalized, text, fillerDraws);
    if |lines| < 4 {
      var extra := AdditionalLines(language, normalized, 4 - n, fillerDraws);
      AdditionalLinesAreTemplates(language, normalized, 4 - n, fillerDraws);
      AdditionalLinesSubMultiset(language, normalized, 4 - n, fillerDraws);
      PaddingFromTemplates(r, n, extra, Fillers(language, normalized));
    } else {
      assert r[n..] == [];
    }
  }

  lemma PaddedLinesParts(language: string, normalized: string, text: string, fillerDraws: seq<nat>)
    ensures var lines := Split(Strip(text), '\n');
            var r := PaddedLines(language, normalized, text, fillerDraws);
            var n := if |lines| < 4 then |lines| else 4;
            && r[..n] == lines[..n]
            && (n < 4 ==> r[n..] == AdditionalLines(language, normalized, 4 - n, fillerDraws))
  {
    var lines := Split(Strip(text), '\n');
    var r := PaddedLines(language, normalized, text, fillerDraws);
    if |lines| < 4 {
      assert r[..|lines|] == lines;
    }
  }

  lemma PaddingFromTemplates(r: seq<string>, n: nat, extra: seq<string>, templates: seq<string>)
    requires n <= |r| && r[n..] == extra
    requires forall i :: 0 <= i < |extra| ==> extra[i] in templates
    requires multiset(extra) <= multiset(templates)
    ensures forall k :: n <= k < |r| ==> r[k] in templates
    ensures multiset(r[n..]) <= multiset(templates)
  {
    forall k | n <= k < |r| ensures r[k] in templates {
      assert r[k] == extra[k - n];
    }
  }

  /** No filler line with a line break is used: the language is Bengali, the
      normalised theme has no line break, or the poem already has four lines
      and needs no filler. */
  predicate NoBrokenFiller(language: string, normalized: string, text: string) {
    language == "bengali" || '\n' !in normalized || |Split(Strip(text), '\n')| >= 4
  }

  /** `_generate_template_based(theme)`. */
  function TemplateBased(language: string, data: TrainingData, theme: string, poemDraw: nat,
                         fillerDraws: seq<nat>): (r: string)
    ensures LanguagePoems(language, data) == [] ==> Contains(r, theme)
    ensures LanguagePoems(language, data) != [] &&
            NoBrokenFiller(language, Normalized(ThemeAliases, theme),
                           Choice(TemplatePool(language, data, Normalized(ThemeAliases, theme)), poemDraw).text) ==>
              |Split(r, '\n')| == 4
  {
    var normalized := Normalized(ThemeAliases, theme);
    var pool := TemplatePool(language, data, normalized);
    if pool == [] then DefaultPoem(language, theme)
    else
      var text := Choice(pool, poemDraw).text;
      PaddedLinesSplitWhen(language, normalized, text, fillerDraws);
      Join(PaddedLines(language, normalized, text, fillerDraws), "\n")
  }

  /** Filler lines hold no line break unless they embed a theme with one. */
  lemma AdditionalLinesHaveNoLineBreak(language: string, theme: string, count: nat, draws: seq<nat>)
    requires language == "bengali" || '\n' !in theme
    ensures forall i :: 0 <= i < |AdditionalLines(language, theme, count, draws)| ==>
      '\n' !in AdditionalLines(language, theme, count, draws)[i]
  {
    var r := AdditionalLines(language, theme, count, draws);
    AdditionalLinesAreTemplates(language, theme, count, draws);
    FillersHaveNoLineBreak(language, theme);
    forall i | 0 <= i < |r| ensures '\n' !in r[i] {
      var j :| 0 <= j < 4 && Fillers(language, theme)[j] == r[i];
    }
  }

  lemma AppendHasNoLineBreak(a: seq<string>, b: seq<string>)
    requires forall i :: 0 <= i < |a| ==> '\n' !in a[i]
    requires forall i :: 0 <= i < |b| ==> '\n' !in b[i]
    ensures forall i :: 0 <= i < |a + b| ==> '\n' !in (a + b)[i]
  {
  }

  /** Padded lines hold no line break unless a filler embeds a theme with one. */
  lemma PaddedLinesSplit(language: string, normalized: string, text: string, fillerDraws: seq<nat>)
    requires NoBrokenFiller(language, normalized, text)
    ensures var ls := PaddedLines(language, normalized, text, fillerDraws);
            Split(Join(ls, "\n"), '\n') == ls
  {
    var ls := PaddedLines(language, normalized, text, fillerDraws);
    var lines := Split(Strip(text), '\n');
    if |lines| >= 4 {
      assert forall i :: 0 <= i < 4 ==> ls[i] == lines[i];
    } else {
      var extra := AdditionalLines(language, normalized, 4 - |lines|, fillerDraws);
      AdditionalLinesHaveNoLineBreak(language, normalized, 4 - |lines|, fillerDraws);
      assert ls == lines + extra;
      AppendHasNoLineBreak(lines, extra);
    }
    SplitJoin(ls, '\n');
  }

  lemma PaddedLinesSplitWhen(language: string, normalized: string, text: string, fillerDraws: seq<nat>)
    ensures var ls := PaddedLines(language, normalized, text, fillerDraws);
            NoBrokenFiller(language, normalized, text) ==> Split(Join(ls, "\n"), '\n') == ls
  {
    if NoBrokenFiller(language, normalized, text) {
      PaddedLinesSplit(language, normalized, text, fillerDraws);
    }
  }

  /** The three outcomes of template-based generation: the default poem for
      an empty corpus; otherwise four lines of a poem from the pool, padded
      with fillers, and these are four lines of text unless a filler line is
      needed and embeds a normalised theme with a line break in it. */
  lemma TemplateBasedOutcomes(language: string, data: TrainingData, theme: string, poemDraw: nat,
                              fillerDraws: seq<nat>)
    ensures var r := TemplateBased(language, data, theme, poemDraw, fillerDraws);
            var normalized := Normalized(ThemeAliases, theme);
            var pool := TemplatePool(language, data, normalized);
            && (LanguagePoems(language, data) == [] ==> r == DefaultPoem(language, theme))
            && (LanguagePoems(language, data) != [] ==>
                  var p := Choice(pool, poemDraw);
                  && p in pool && p in LanguagePoems(language, data)
                  && ((exists q :: q in LanguagePoems(language, data) && q.theme == Some(normalized)) ==>
                        p.theme == Some(normalized))
                  && r == Join(PaddedLines(language, normalized, p.text, fillerDraws), "\n")
                  && (NoBrokenFiller(language, normalized, p.text) ==>
                        Split(r, '\n') == PaddedLines(language, normalized, p.text, fillerDraws)))
  {
    var normalized := Normalized(ThemeAliases, theme);
    var pool := TemplatePool(language, data, normalized);
    if pool != [] {
      PaddedLinesSplitWhen(language, normalized, Choice(pool, poemDraw).text, fillerDraws);
    }
  }

  lemma FillersHaveNoLineBreak(language: string, theme: string)
    requires language == "bengali" || '\n' !in theme
    ensures forall i :: 0 <= i < 4 ==> '\n' !in Fillers(language, theme)[i]
  {
    if language == "bengali" {
      BengaliFillersHaveNoLineBreak();
    } else {
      EnglishFillersHaveNoLineBreak(theme);
    }
  }

  lemma BengaliFillersHaveNoLineBreak()
    ensures forall i :: 0 <= i < 4 ==> '\n' !in BengaliFillers[i]
  {
    BengaliFirstFillerHasNoLineBreak();
    BengaliSecondFillerHasNoLineBreak();
    BengaliThirdFillerHasNoLineBreak();
    BengaliFourthFillerHasNoLineBreak();
  }

  /** A line break in a concatenation comes from one of its parts. */
  lemma NoBreakAround(a: string, t: string, b: string)
    requires '\n' !in a && '\n' !in t && '\n' !in b
    ensures '\n' !in a + t + b
  {
  }

  lemma EnglishFillersHaveNoLineBreak(theme: string)
    requires '\n' !in theme
    ensures forall i :: 0 <= i < 4 ==> '\n' !in EnglishFillers(theme)[i]
  {
    EnglishFillerHasNoLineBreak(theme, 0);
    EnglishFillerHasNoLineBreak(theme, 1);
    EnglishFillerHasNoLineBreak(theme, 2);
    EnglishFillerHasNoLineBreak(theme, 3);
  }

  lemma EnglishFillerHasNoLineBreak(theme: string, i: nat)
    requires '\n' !in theme && i < 4
    ensures '\n' !in EnglishFillers(theme)[i]
  {
    if i == 0 {
      NoBreakAround("The spirit of ", theme, " lives forever strong");
    } else if i == 1 {
      NoBreakAround("Through ", theme, " we find our way");
    } else if i == 2 {
      NoBreakAround("In hearts of heroes, ", theme, " stays");
    } else {
      assert '\n' !in "Victory's song will always play";
    }
  }


  lemma DefaultLinesHaveNoLineBreak(language: string, theme: string)
    requires '\n' !in theme
    ensures forall i :: 0 <= i < 4 ==> '\n' !in DefaultLines(language, theme)[i]
  {
    if language == "bengali" {
      BengaliDefaultLinesHaveNoLineBreak(theme);
    } else {
      EnglishDefaultLinesHaveNoLineBreak(theme);
    }
  }

  lemma BengaliDefaultLinesHaveNoLineBreak(theme: string)
    requires '\n' !in theme
    ensures forall i :: 0 <= i < 4 ==> '\n' !in BengaliDefaultLines(theme)[i]
  {
    BengaliFirstDefaultLineHasNoLineBreak(theme);
    BengaliSecondDefaultLineHasNoLineBreak(theme);
    BengaliThirdDefaultLineHasNoLineBreak(theme);
    BengaliFourthDefaultLineHasNoLineBreak(theme);
  }

  lemma EnglishDefaultLinesHaveNoLineBreak(theme: string)
    requires '\n' !in theme
    ensures forall i :: 0 <= i < 4 ==> '\n' !in EnglishDefaultLines(theme)[i]
  {
  }

  // Each Bengali line is checked chunk by chunk, which keeps the proofs small.

  lemma BengaliFirstFillerHasNoLineBreak()
    ensures '\n' !in BengaliFillers[0]
  {
    assert '\n' !in "à¦¬à¦¾à¦‚à¦²à¦¾à¦° ";
    assert '\n' !in "à¦†à¦•à¦¾à¦¶à§‡ ";
    assert '\n' !in "à¦‰à¦¡à¦¼à§‡ ";
    assert '\n' !in "à¦¸à§à¦¬à¦¾à¦§à§€à¦¨à¦¤à¦¾à¦° ";
    assert '\n' !in "à¦ªà¦¤à¦¾à¦•à¦¾";
  }

  lemma BengaliSecondFillerHasNoLineBreak()
    ensures '\n' !in BengaliFillers[1]
  {
    assert '\n' !in "à¦¬à¦¿à¦œà¦¯à¦¼à§‡à¦° ";
    assert '\n' !in "à¦—à¦¾à¦¨ à¦—à¦¾à¦‡ ";
    assert '\n' !in "à¦†à¦®à¦°à¦¾";
  }

  lemma BengaliThirdFillerHasNoLineBreak()
    ensures '\n' !in BengaliFillers[2]
  {
    assert '\n' !in "à¦¶à¦¹à§€à¦¦à¦¦à§‡à¦° ";
    assert '\n' !in "à¦¸à§à¦®à§ƒà¦¤à¦¿ ";
    assert '\n' !in "à¦…à¦®à¦°";
  }

  lemma BengaliFourthFillerHasNoLineBreak()
    ensures '\n' !in BengaliFillers[3]
  {
    assert '\n' !in "à¦œà¦¯à¦¼ ";
    assert '\n' !in "à¦¬à¦¾à¦‚à¦²à¦¾ ";
    assert '\n' !in "à¦œà¦¯à¦¼ ";
    assert '\n' !in "à¦¬à¦¾à¦‚à¦²à¦¾à¦¦à§‡à¦¶";
  }

  lemma BengaliFirstDefaultLineHasNoLineBreak(theme: string)
    requires '\n' !in theme
    ensures '\n' !in BengaliDefaultLines(theme)[0]
  {
    assert '\n' !in "à¦¬à¦¿à¦œà¦¯à¦¼ ";
    assert '\n' !in "à¦¦à¦¿à¦¬à¦¸à§‡à¦° ";
    assert '\n' !in "à¦¶à§à¦\U{00AD}à§‡à¦šà§à¦›à¦¾";
  }

  lemma BengaliSecondDefaultLineHasNoLineBreak(theme: string)
    requires '\n' !in theme
    ensures '\n' !in BengaliDefaultLines(theme)[1]
  {
    assert '\n' !in " à¦à¦° ";
    assert '\n' !in "à¦®à¦¹à¦¿à¦®à¦¾à¦¯à¦¼ ";
    assert '\n' !in "à¦\U{00AD}à¦°à¦¾";
  }

  lemma BengaliThirdDefaultLineHasNoLineBreak(theme: string)
    requires '\n' !in theme
    ensures '\n' !in BengaliDefaultLines(theme)[2]
  {
    assert '\n' !in "à¦¸à§à¦¬à¦¾à¦§à§€à¦¨à¦¤à¦¾à¦° ";
    assert '\n' !in "à¦¸à§‚à¦°à§à¦¯ ";
    assert '\n' !in "à¦‰à¦\U{00A0}à§‡à¦›à§‡";
  }

  lemma BengaliFourthDefaultLineHasNoLineBreak(theme: string)
    requires '\n' !in theme
    ensures '\n' !in BengaliDefaultLines(theme)[3]
  {
    assert '\n' !in "à¦¬à¦¾à¦‚à¦²à¦¾à¦¦à§‡à¦¶ ";
    assert '\n' !in "à¦†à¦®à¦¾à¦° ";
    assert '\n' !in "à¦ªà§à¦°à¦¿à¦¯à¦¼ ";
    assert '\n' !in "à¦¦à§‡à¦¶";
  }
}
