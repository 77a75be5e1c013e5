/** Theme normalisation: free-text theme input is mapped to a canonical
    theme key through the alias table. */
module Themes {
  import opened Wrappers
  import opened Text
  import opened Config

  /** `[alias.lower() for alias in aliases]` */
  function LowerAll(aliases: seq<string>): (r: seq<string>)
    ensures |r| == |aliases|
    ensures forall i :: 0 <= i < |r| ==> r[i] == Lower(aliases[i])
  {
    seq(|aliases|, i requires 0 <= i < |aliases| => Lower(aliases[i]))
  }

  /** The entry lists `t` among its aliases, compared case-insensitively. */
  predicate Owns(entry: AliasEntry, t: string) {
    t in LowerAll(entry.aliases)
  }

  predicate IsKey(table: AliasTable, t: string) {
    t in Keys(table)
  }

  /** The position of the first entry at or after `i` that owns `t`. */
  function FirstOwnerFrom(table: AliasTable, t: string, i: nat): (r: Option<nat>)
    requires i <= |table|
    ensures r.Some? ==> i <= r.value < |table| && Owns(table[r.value], t)
    ensures r.Some? ==> forall j :: i <= j < r.value ==> !Owns(table[j], t)
    ensures r.None? <==> forall j :: i <= j < |table| ==> !Owns(table[j], t)
    decreases |table| - i
  {
    if i == |table| then None
    else if Owns(table[i], t) then Some(i)
    else FirstOwnerFrom(table, t, i + 1)
  }

  /** What `_normalize_theme` returns for `theme`. The cleaned input is kept
      when it is a canonical key; otherwise the key of the first entry, in
      table order, that lists it as an alias; otherwise the cleaned input. */
  function Normalized(table: AliasTable, theme: string): (r: string)
    ensures IsKey(table, Clean(theme)) ==> r == Clean(theme)
    ensures !IsKey(table, Clean(theme)) && (exists i :: 0 <= i < |table| && Owns(table[i], Clean(theme))) ==>
      exists i :: 0 <= i < |table| && Owns(table[i], Clean(theme)) && r == table[i].key &&
        forall j :: 0 <= j < i ==> !Owns(table[j], Clean(theme))
    ensures !IsKey(table, Clean(theme)) && (forall i :: 0 <= i < |table| ==> !Owns(table[i], Clean(theme))) ==>
      r == Clean(theme)
  {
    var t := Clean(theme);
    if IsKey(table, t) then t
    else match FirstOwnerFrom(table, t, 0)
      case Some(i) => table[i].key
      case None => t
  }

  /** `_normalize_theme`: a key check first, then a scan of the table in
      order that returns at the first entry owning the input. */
  method NormalizeTheme(table: AliasTable, theme: string) returns (r: string)
    ensures r == Normalized(table, theme)
  {
    var themeLower := Clean(theme);
    if themeLower in Keys(table) {
      return themeLower;
    }
    for i := 0 to |table|
      invariant FirstOwnerFrom(table, themeLower, i) == FirstOwnerFrom(table, themeLower, 0)
    {
      if themeLower in LowerAll(table[i].aliases) {
        return table[i].key;
      }
    }
    return themeLower;
  }

  /** Every canonical key is written in its cleaned form. */
  predicate KeysClean(table: AliasTable) {
    forall i :: 0 <= i < |table| ==> Clean(table[i].key) == table[i].key
  }

  /** Normalising twice gives the same theme as normalising once. */
  lemma NormalizeIdempotent(table: AliasTable, theme: string)
    requires KeysClean(table)
    ensures Normalized(table, Normalized(table, theme)) == Normalized(table, theme)
  {
    var t := Clean(theme);
    CleanIdempotent(theme);
    var r := Normalized(table, theme);
    if !IsKey(table, t) && FirstOwnerFrom(table, t, 0).Some? {
      var i := FirstOwnerFrom(table, t, 0).value;
      assert r == table[i].key;
      assert Clean(r) == r;
      assert Keys(table)[i] == r;
    }
  }

  /** Every normalised theme is either a canonical key or the cleaned input. */
  lemma NormalizedIsKeyOrInput(table: AliasTable, theme: string)
    ensures IsKey(table, Normalized(table, theme)) || Normalized(table, theme) == Clean(theme)
  {
    var t := Clean(theme);
    if !IsKey(table, t) && FirstOwnerFrom(table, t, 0).Some? {
      assert Keys(table)[FirstOwnerFrom(table, t, 0).value] == Normalized(table, theme);
    }
  }

  /** A lower-case string without surrounding whitespace is its own cleaned form. */
  lemma CleanOfPlain(s: string)
    requires NoUpper(s)
    requires s == [] || (!IsSpace(s[0]) && !IsSpace(s[|s| - 1]))
    ensures Clean(s) == s
  {
    LowerOfLower(s);
    StripStripped(s);
  }

  /** The canonical theme keys of the configured table, in table order. */
  const CanonicalThemes: seq<string> :=
    ["freedom", "sacrifice", "victory", "heroes", "future", "independence", "unity", "courage"]

  lemma ThemeKeys()
    ensures Keys(ThemeAliases) == CanonicalThemes
  {
  }

  /** A non-empty run of the letters a to z. */
  predicate LowerWord(s: string) {
    |s| > 0 && forall i :: 0 <= i < |s| ==> 'a' <= s[i] <= 'z'
  }

  lemma CleanOfLowerWord(s: string)
    requires LowerWord(s)
    ensures Clean(s) == s
  {
    CleanOfPlain(s);
  }

  lemma CanonicalThemesAreWords(i: nat)
    requires i < |CanonicalThemes|
    ensures LowerWord(CanonicalThemes[i])
  {
  }

  lemma KeyAt(i: nat)
    requires i < |ThemeAliases|
    ensures ThemeAliases[i].key == CanonicalThemes[i]
  {
    ThemeKeys();
    assert Keys(ThemeAliases)[i] == ThemeAliases[i].key;
  }

  lemma EntryKeyClean(i: nat)
    requires i < |ThemeAliases|
    ensures Clean(ThemeAliases[i].key) == ThemeAliases[i].key
  {
    KeyAt(i);
    CanonicalThemesAreWords(i);
    CleanOfLowerWord(CanonicalThemes[i]);
  }

  /** The configured table writes its keys in cleaned form. */
  lemma ThemeAliasesKeysClean()
    ensures KeysClean(ThemeAliases)
  {
    forall i | 0 <= i < |ThemeAliases|
      ensures Clean(ThemeAliases[i].key) == ThemeAliases[i].key
    {
      EntryKeyClean(i);
    }
  }

  /** An input whose cleaned form is listed under "freedom" and is not a key
      resolves to "freedom", whatever later entries say. */
  lemma ResolvesToFreedom(raw: string, j: nat)
    requires j < |ThemeAliases[0].aliases| && Lower(ThemeAliases[0].aliases[j]) == Clean(raw)
    requires Clean(raw) !in Keys(ThemeAliases)
    ensures Normalized(ThemeAliases, raw) == "freedom"
  {
    assert LowerAll(ThemeAliases[0].aliases)[j] == Clean(raw);
    assert FirstOwnerFrom(ThemeAliases, Clean(raw), 0) == Some(0);
  }

  /** "independence" is a canonical key, so it is kept even though the
      "freedom" entry lists it as an alias. */
  lemma IndependenceStaysCanonical()
    ensures Normalized(ThemeAliases, "independence") == "independence"
  {
    CleanOfPlain("independence");
    ThemeKeys();
  }

  lemma FreedomAlias(j: nat, t: string)
    requires j < |ThemeAliases[0].aliases| && ThemeAliases[0].aliases[j] == t && NoUpper(t)
    ensures Lower(ThemeAliases[0].aliases[j]) == t
  {
    LowerOfLower(t);
  }

  lemma SwadhinotaClean()
    ensures Clean("স্বাধীনতা") == "স্বাধীনতা"
  {
    CleanOfPlain("স্বাধীনতা");
  }

  lemma NotAKey(t: string)
    requires t !in CanonicalThemes
    ensures t !in Keys(ThemeAliases)
  {
    ThemeKeys();
  }

  /** "স্বাধীনতা" is an alias of both "freedom" and "independence"; the
      earlier entry wins. */
  lemma SwadhinotaResolvesToFreedom()
    ensures Normalized(ThemeAliases, "স্বাধীনতা") == "freedom"
  {
    SwadhinotaClean();
    NotAKey("স্বাধীনতা");
    FreedomAlias(4, "স্বাধীনতা");
    ResolvesToFreedom("স্বাধীনতা", 4);
  }

  lemma LowerLiberty()
    ensures Lower("  Liberty ") == "  liberty "
  {
    var raw := "  Liberty ";
    assert LowerChar('L') == 'l';
    assert forall i :: 0 <= i < |raw| && i != 2 ==> LowerChar(raw[i]) == raw[i];
  }

  lemma LeadingSpacesOfLiberty()
    ensures LeadingSpaces("  liberty ") == 2
  {
    var low := "  liberty ";
    assert LeadingSpaces(low[2..]) == 0;
    assert low[1..][1..] == low[2..];
  }

  lemma TrailingSpacesOfLiberty()
    ensures TrailingSpaces("liberty ") == 1
  {
    assert "liberty "[..7] == "liberty";
  }

  lemma StripLiberty()
    ensures Strip("  liberty ") == "liberty"
  {
    LeadingSpacesOfLiberty();
    TrailingSpacesOfLiberty();
    assert "  liberty "[2..] == "liberty ";
    assert "liberty "[..7] == "liberty";
  }

  lemma LibertyClean()
    ensures Clean("  Liberty ") == "liberty"
  {
    LowerLiberty();
    StripLiberty();
  }

  /** Input is lower-cased and trimmed before the lookup. */
  lemma LibertyResolvesToFreedom()
    ensures Normalized(ThemeAliases, "  Liberty ") == "freedom"
  {
    LibertyClean();
    NotAKey("liberty");
    FreedomAlias(1, "liberty");
    ResolvesToFreedom("  Liberty ", 1);
  }
}
