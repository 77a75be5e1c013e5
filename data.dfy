/** The datasets the generator is built with: the training corpus (one poem
    list per language plus slogans) and the theme metadata. Both are read
    from JSON files at construction; here they are plain values. */
module Data {
  import opened Wrappers

  /** One corpus record `{"text": ..., "theme": ...}`; a record without a
      theme never matches one. */
  datatype PoemRecord = PoemRecord(text: string, theme: Option<string>)

  datatype TrainingData = TrainingData(
    bengaliPoems: seq<PoemRecord>,
    englishPoems: seq<PoemRecord>,
    slogans: seq<string>)

  /** The dataset used when the training file is missing. */
  const EmptyTrainingData := TrainingData([], [], [])

  /** Theme metadata: an optional list of seed prompts. */
  datatype ThemeInfo = ThemeInfo(prompts: Option<seq<string>>)

  /** `themes_data["themes"]`; a missing file or key reads as the empty map. */
  type ThemesData = map<string, ThemeInfo>

  /** The exception a lookup keyed by an unsupported language raises. */
  datatype Error = UnknownLanguage(language: string)

  /** The corpus of the current language: Bengali for "bengali", English otherwise. */
  function LanguagePoems(language: string, data: TrainingData): (poems: seq<PoemRecord>)
    ensures language == "bengali" ==> poems == data.bengaliPoems
    ensures language != "bengali" ==> poems == data.englishPoems
  {
    if language == "bengali" then data.bengaliPoems else data.englishPoems
  }

  /** `[p for p in poems if p.get("theme") == theme]` */
  function WithTheme(poems: seq<PoemRecord>, theme: string): (r: seq<PoemRecord>)
    ensures |r| <= |poems|
    ensures forall p :: p in r <==> p in poems && p.theme == Some(theme)
  {
    if poems == [] then []
    else (if poems[0].theme == Some(theme) then [poems[0]] else []) + WithTheme(poems[1..], theme)
  }

  /** The filter works record by record, so it keeps the corpus order: the
      records kept from a concatenation are those kept from each part. */
  lemma {:induction false} WithThemeAppend(a: seq<PoemRecord>, b: seq<PoemRecord>, theme: string)
    ensures WithTheme(a + b, theme) == WithTheme(a, theme) + WithTheme(b, theme)
    decreases |a|
  {
    if a == [] {
      assert a + b == b;
    } else {
      var head := if a[0].theme == Some(theme) then [a[0]] else [];
      var rest := a[1..] + b;
      assert a + b == [a[0]] + rest;
      WithThemeAppend(a[1..], b, theme);
      WithThemeCons(a[0], rest, theme);
      WithThemeCons(a[0], a[1..], theme);
      assert [a[0]] + a[1..] == a;
      ConcatAssoc(head, WithTheme(a[1..], theme), WithTheme(b, theme));
    }
  }

  lemma ConcatAssoc(x: seq<PoemRecord>, y: seq<PoemRecord>, z: seq<PoemRecord>)
    ensures x + (y + z) == (x + y) + z
  {
  }

  lemma WithThemeCons(p: PoemRecord, rest: seq<PoemRecord>, theme: string)
    ensures WithTheme([p] + rest, theme) ==
            (if p.theme == Some(theme) then [p] else []) + WithTheme(rest, theme)
  {
    assert ([p] + rest)[1..] == rest;
  }

  /** The filter keeps every themed record as often as the corpus holds it,
      and no other record. */
  lemma {:induction false} WithThemeMultiset(poems: seq<PoemRecord>, theme: string)
    ensures forall p :: multiset(WithTheme(poems, theme))[p] ==
                        (if p.theme == Some(theme) then multiset(poems)[p] else 0)
    decreases |poems|
  {
    if poems != [] {
      WithThemeMultiset(poems[1..], theme);
      assert poems == [poems[0]] + poems[1..];
    }
  }

  /** A corpus without a record of the theme gives nothing. */
  lemma {:induction false} WithThemeNone(poems: seq<PoemRecord>, theme: string)
    requires forall p :: p in poems ==> p.theme != Some(theme)
    ensures WithTheme(poems, theme) == []
    decreases |poems|
  {
    if poems != [] {
      assert forall p :: p in poems[1..] ==> p in poems;
      WithThemeNone(poems[1..], theme);
    }
  }

  /** A corpus whose every record has the theme comes back whole, in order. */
  lemma {:induction false} WithThemeKeepsAll(poems: seq<PoemRecord>, theme: string)
    requires forall i :: 0 <= i < |poems| ==> poems[i].theme == Some(theme)
    ensures WithTheme(poems, theme) == poems
    decreases |poems|
  {
    if poems != [] {
      WithThemeKeepsAll(poems[1..], theme);
    }
  }

  /** `[p["text"] for p in poems]` */
  function Texts(poems: seq<PoemRecord>): (r: seq<string>)
    ensures |r| == |poems|
    ensures forall i :: 0 <= i < |poems| ==> r[i] == poems[i].text
  {
    seq(|poems|, i requires 0 <= i < |poems| => poems[i].text)
  }
}
