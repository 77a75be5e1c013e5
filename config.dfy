/** The configuration tables the generator reads: line-length bounds, the
    per-language prompt prefixes and the theme alias table. */
module Config {

  /** Shortest line the 4-line normaliser keeps (`min_line_length`). */
  const MinLineLength: nat := 10

  /** Length to which kept lines are truncated (`max_line_length`). */
  const MaxLineLength: nat := 80

  /** The two languages that have a prompt template (and a model). */
  predicate SupportedLanguage(language: string) {
    language == "bengali" || language == "english"
  }

  /** The language's prompt prefix with `{theme}` replaced by `theme`. */
  function PromptPrefix(language: string, theme: string): (r: string)
    requires SupportedLanguage(language)
    ensures |r| >= |theme| + 2 && r[|r| - 2..] == ":\n"
    ensures language == "english" ==> 35 + |theme| <= |r| && r[35..35 + |theme|] == theme
    ensures language == "bengali" ==> 22 + |theme| <= |r| && r[22..22 + |theme|] == theme
  {
    if language == "bengali" then "বিজয় দিবসের উপর একটি " + theme + " সম্পর্কিত কবিতা:\n"
    else "A patriotic Victory Day poem about " + theme + ":\n"
  }

  /** One entry of the alias table: a canonical theme and its aliases. */
  datatype AliasEntry = AliasEntry(key: string, aliases: seq<string>)

  /** An alias table, in its dictionary (insertion) order. */
  type AliasTable = seq<AliasEntry>

  function Keys(table: AliasTable): (keys: seq<string>)
    ensures |keys| == |table|
    ensures forall i :: 0 <= i < |table| ==> keys[i] == table[i].key
  {
    seq(|table|, i requires 0 <= i < |table| => table[i].key)
  }

  const ThemeAliases: AliasTable := [
    AliasEntry("freedom", ["freedom", "liberty", "independence", "মুক্তি", "স্বাধীনতা"]),
    AliasEntry("sacrifice", ["sacrifice", "martyrs", "ত্যাগ", "শহীদ"]),
    AliasEntry("victory", ["victory", "triumph", "win", "বিজয়", "জয়"]),
    AliasEntry("heroes", ["heroes", "fighters", "warriors", "বীর", "মুক্তিযোদ্ধা"]),
    AliasEntry("future", ["future", "tomorrow", "next generation", "ভবিষ্যৎ", "প্রজন্ম"]),
    AliasEntry("independence", ["independence", "liberation", "স্বাধীনতা", "মুক্তিযুদ্ধ"]),
    AliasEntry("unity", ["unity", "together", "solidarity", "ঐক্য", "একতা"]),
    AliasEntry("courage", ["courage", "bravery", "valor", "সাহস", "বীরত্ব"])
  ]
}
