/** The 4-line normaliser `_format_as_4_lines`: the boundary that turns any
    text, model output included, into exactly four lines. */
module Formatting {
  import opened Text
  import opened Config
  import opened Sampling
  import opened Templates

  /** `[f(l) for l in lines if keep(l)]` */
  function FilterMap(lines: seq<string>, keep: string -> bool, f: string -> string): (r: seq<string>)
    ensures |r| <= |lines|
  {
    if lines == [] then []
    else (if keep(lines[0]) then [f(lines[0])] else []) + FilterMap(lines[1..], keep, f)
  }

  lemma {:induction false} FilterMapAppend(a: seq<string>, b: seq<string>, keep: string -> bool, f: string -> string)
    ensures FilterMap(a + b, keep, f) == FilterMap(a, keep, f) + FilterMap(b, keep, f)
    decreases |a|
  {
    if a != [] {
      assert (a + b)[1..] == a[1..] + b;
      FilterMapAppend(a[1..], b, keep, f);
    } else {
      assert a + b == b;
    }
  }

  predicate StrictlyIncreasing(ps: seq<nat>) {
    forall a, b :: 0 <= a < b < |ps| ==> ps[a] < ps[b]
  }

  /** The positions at or after `i` of the lines `keep` accepts, in order. */
  function Positions(lines: seq<string>, keep: string -> bool, i: nat): (ps: seq<nat>)
    requires i <= |lines|
    ensures forall k :: 0 <= k < |ps| ==> i <= ps[k] < |lines|
    decreases |lines| - i
  {
    if i == |lines| then []
    else (if keep(lines[i]) then [i] else []) + Positions(lines, keep, i + 1)
  }

  /** The positions are exactly the accepted ones, in increasing order. */
  lemma {:induction false} PositionsExact(lines: seq<string>, keep: string -> bool, i: nat)
    requires i <= |lines|
    ensures var ps := Positions(lines, keep, i);
            && (forall k :: 0 <= k < |ps| ==> keep(lines[ps[k]]))
            && StrictlyIncreasing(ps)
            && (forall j :: i <= j < |lines| && keep(lines[j]) ==> j in ps)
    decreases |lines| - i
  {
    if i < |lines| {
      PositionsExact(lines, keep, i + 1);
      var rest := Positions(lines, keep, i + 1);
      var ps := Positions(lines, keep, i);
      if keep(lines[i]) {
        assert ps == [i] + rest;
        assert forall k :: 0 < k < |ps| ==> ps[k] == rest[k - 1];
      } else {
        assert ps == rest;
      }
    }
  }

  /** `[f(lines[p]) for p in ps]` */
  function Picked(lines: seq<string>, ps: seq<nat>, f: string -> string): (r: seq<string>)
    requires forall k :: 0 <= k < |ps| ==> ps[k] < |lines|
    ensures |r| == |ps|
  {
    seq(|ps|, k requires 0 <= k < |ps| => f(lines[ps[k]]))
  }

  lemma PickedCons(lines: seq<string>, p: nat, ps: seq<nat>, f: string -> string)
    requires p < |lines|
    requires forall k :: 0 <= k < |ps| ==> ps[k] < |lines|
    ensures Picked(lines, [p] + ps, f) == [f(lines[p])] + Picked(lines, ps, f)
  {
  }

  lemma FilterMapCons(lines: seq<string>, keep: string -> bool, f: string -> string, i: nat)
    requires i < |lines|
    ensures FilterMap(lines[i..], keep, f)
            == (if keep(lines[i]) then [f(lines[i])] else []) + FilterMap(lines[i + 1..], keep, f)
  {
    assert lines[i..][1..] == lines[i + 1..];
  }

  /** A filter-map keeps exactly the accepted lines, in their order. */
  lemma {:induction false} FilterMapAtPositions(lines: seq<string>, keep: string -> bool, f: string -> string, i: nat)
    requires i <= |lines|
    ensures FilterMap(lines[i..], keep, f) == Picked(lines, Positions(lines, keep, i), f)
    decreases |lines| - i
  {
    if i < |lines| {
      FilterMapAtPositions(lines, keep, f, i + 1);
      FilterMapCons(lines, keep, f, i);
      var rest := Positions(lines, keep, i + 1);
      if keep(lines[i]) {
        PickedCons(lines, i, rest, f);
        assert Positions(lines, keep, i) == [i] + rest;
      } else {
        assert Positions(lines, keep, i) == rest;
      }
    } else {
      assert lines[i..] == [];
    }
  }

  /** A line with something other than whitespace in it. */
  predicate NonBlank(line: string) {
    Strip(line) != ""
  }

  /** The meaningful lines of `text`: `[line.strip() for line in text.split('\n') if line.strip()]`,
      which are the stripped parts at the positions of the non-blank parts. */
  function MeaningfulLines(text: string): (r: seq<string>)
    ensures var parts := Split(text, '\n');
            r == Picked(parts, Positions(parts, NonBlank, 0), Strip)
  {
    var parts := Split(text, '\n');
    FilterMapAtPositions(parts, NonBlank, Strip, 0);
    assert parts[0..] == parts;
    FilterMap(parts, NonBlank, Strip)
  }

  /** The meaningful lines are, in order, the stripped forms of exactly the
      non-blank lines of the text; none of them is empty. */
  lemma MeaningfulLinesFromSplit(text: string)
    ensures var parts := Split(text, '\n');
            var ps := Positions(parts, NonBlank, 0);
            var lines := MeaningfulLines(text);
            && |lines| == |ps|
            && StrictlyIncreasing(ps)
            && (forall j :: 0 <= j < |parts| && NonBlank(parts[j]) ==> j in ps)
            && forall k :: 0 <= k < |lines| ==> lines[k] == Strip(parts[ps[k]]) && lines[k] != ""
  {
    PositionsExact(Split(text, '\n'), NonBlank, 0);
  }

  /** `line[:max_line_length]` */
  function Truncate(line: string): (r: string)
    ensures |r| == if |line| <= MaxLineLength then |line| else MaxLineLength
    ensures forall i :: 0 <= i < |r| ==> r[i] == line[i]
  {
    if |line| <= MaxLineLength then line else line[..MaxLineLength]
  }

  /** Lines shorter than `min_line_length` are skipped as formatting artifacts. */
  predicate LongEnough(line: string) {
    |line| >= MinLineLength
  }

  /** Every long-enough meaningful line, truncated. */
  function Candidates(lines: seq<string>): seq<string> {
    FilterMap(lines, LongEnough, Truncate)
  }

  function Take4(s: seq<string>): (r: seq<string>)
    ensures |r| == if |s| <= 4 then |s| else 4
    ensures r == s[..|r|]
  {
    if |s| <= 4 then s else s[..4]
  }

  /** The lines `_format_as_4_lines` keeps from the meaningful lines. */
  function Kept(lines: seq<string>): seq<string> {
    Take4(Candidates(lines))
  }


  /** `_generate_additional_lines("victory", 1)[0]` for one draw. */
  function PadLine(language: string, draw: nat): string {
    AdditionalLines(language, "victory", 1, [draw])[0]
  }

  /** Each padding line is one of the "victory" fillers. */
  lemma PadLineIsFiller(language: string, draw: nat)
    ensures PadLine(language, draw) in Fillers(language, "victory")
  {
    AdditionalLinesAreTemplates(language, "victory", 1, [draw]);
  }

  function PadLines(language: string, n: nat, padDraws: seq<nat>): (r: seq<string>)
    ensures |r| == n
  {
    seq(n, j requires 0 <= j < n => PadLine(language, Nth(padDraws, j)))
  }

  /** The four lines `_format_as_4_lines` joins, from the meaningful lines:
      the kept lines, then one filler per missing line, each drawn
      independently. */
  function FormattedFrom(language: string, lines: seq<string>, padDraws: seq<nat>): seq<string> {
    var kept := Kept(lines);
    kept + PadLines(language, 4 - |kept|, padDraws)
  }

  function FormattedLines(language: string, text: string, padDraws: seq<nat>): (r: seq<string>)
    ensures |r| == 4
  {
    FormattedFrom(language, MeaningfulLines(text), padDraws)
  }

  /** One step of the scan: while fewer than four lines are kept, the next
      meaningful line is kept, truncated, exactly when it is long enough. */
  lemma ScanStep(lines: seq<string>, i: nat, kept: seq<string>)
    requires i < |lines|
    requires kept == Kept(lines[..i]) && |kept| < 4
    ensures (if LongEnough(lines[i]) then kept + [Truncate(lines[i])] else kept)
            == Kept(lines[..i + 1])
  {
    assert lines[..i + 1] == lines[..i] + [lines[i]];
    FilterMapAppend(lines[..i], [lines[i]], LongEnough, Truncate);
    assert FilterMap([lines[i]][1..], LongEnough, Truncate) == [];
  }

  /** Once four lines are kept the rest of the input no longer matters. */
  lemma ScanStop(lines: seq<string>, i: nat)
    requires i <= |lines|
    requires |Kept(lines[..i])| >= 4
    ensures Kept(lines[..i]) == Kept(lines)
  {
    var a, b := Candidates(lines[..i]), Candidates(lines[i..]);
    assert lines == lines[..i] + lines[i..];
    FilterMapAppend(lines[..i], lines[i..], LongEnough, Truncate);
    assert (a + b)[..4] == a[..4];
  }

  lemma PadStep(language: string, j: nat, padDraws: seq<nat>)
    ensures PadLines(language, j + 1, padDraws)
            == PadLines(language, j, padDraws) + [PadLine(language, Nth(padDraws, j))]
  {
  }

  /** The first half of `_format_as_4_lines`: scans the meaningful lines,
      keeping the long-enough ones truncated, until four are kept. */
  method KeepLines(lines: seq<string>) returns (resultLines: seq<string>)
    ensures resultLines == Kept(lines)
  {
    resultLines := [];
    var i := 0;
    assert lines[..0] == [];
    while i < |lines|
      invariant 0 <= i <= |lines|
      invariant resultLines == Kept(lines[..i])
    {
      if |resultLines| >= 4 {
        break;
      }
      var line := lines[i];
      ScanStep(lines, i, resultLines);
      if |line| >= MinLineLength {
        resultLines := resultLines + [Truncate(line)];
      }
      i := i + 1;
    }
    if i < |lines| {
      ScanStop(lines, i);
    } else {
      assert lines[..i] == lines;
    }
  }

  /** `_format_as_4_lines(text)`: the kept lines, padded to four by a loop
      that draws one "victory" filler per missing line. */
  method FormatAs4Lines(language: string, text: string, padDraws: seq<nat>) returns (r: string)
    ensures r == Join(FormattedLines(language, text, padDraws), "\n")
  {
    var lines := MeaningfulLines(text);
    var resultLines := KeepLines(lines);
    ghost var kept := resultLines;
    var j := 0;
    while |resultLines| < 4
      invariant |kept| <= |resultLines| <= 4
      invariant j == |resultLines| - |kept|
      invariant resultLines == kept + PadLines(language, j, padDraws)
      decreases 4 - |resultLines|
    {
      PadStep(language, j, padDraws);
      resultLines := resultLines + [PadLine(language, Nth(padDraws, j))];
      j := j + 1;
    }
    assert resultLines[..4] == resultLines == FormattedLines(language, text, padDraws);
    r := Join(resultLines[..4], "\n");
  }

  /** The formatted poem has four lines: the kept lines in front, fillers
      drawn from the "victory" templates after them. */
  lemma FormattedShape(language: string, lines: seq<string>, padDraws: seq<nat>)
    ensures var r := FormattedFrom(language, lines, padDraws);
            var kept := Kept(lines);
            && |r| == 4
            && r[..|kept|] == kept
            && forall k :: |kept| <= k < 4 ==> r[k] in Fillers(language, "victory")
  {
    var kept := Kept(lines);
    var pads := PadLines(language, 4 - |kept|, padDraws);
    var r := kept + pads;
    forall k | |kept| <= k < 4 ensures r[k] in Fillers(language, "victory") {
      assert r[k] == pads[k - |kept|];
      PadLineIsFiller(language, Nth(padDraws, k - |kept|));
    }
    assert r[..|kept|] == kept;
  }

  /** The kept lines are, in order, the first (at most four) meaningful lines
      of at least `min_line_length` characters, each truncated to
      `max_line_length`; fewer than four are kept only when there are no more
      such lines. */
  lemma KeptFromPositions(lines: seq<string>)
    ensures var ps := Positions(lines, LongEnough, 0);
            var kept := Kept(lines);
            && |kept| == (if |ps| <= 4 then |ps| else 4)
            && StrictlyIncreasing(ps)
            && (forall j :: 0 <= j < |lines| && LongEnough(lines[j]) ==> j in ps)
            && forall k :: 0 <= k < |kept| ==>
                 && kept[k] == Truncate(lines[ps[k]])
                 && MinLineLength <= |lines[ps[k]]|
                 && MinLineLength <= |kept[k]| <= MaxLineLength
  {
    FilterMapAtPositions(lines, LongEnough, Truncate, 0);
    PositionsExact(lines, LongEnough, 0);
    assert lines[0..] == lines;
  }

  /** End to end over the raw text: the `k`-th kept line is the truncation of
      the stripped `j`-th part of `text.split('\n')`, where that part is
      non-blank and at least `min_line_length` long once stripped, and the
      parts used occur in increasing order. */
  lemma KeptFromText(text: string)
    ensures var parts := Split(text, '\n');
            var ps := Positions(parts, NonBlank, 0);
            var lines := MeaningfulLines(text);
            var qs := Positions(lines, LongEnough, 0);
            var kept := Kept(lines);
            && |kept| == (if |qs| <= 4 then |qs| else 4)
            && (forall k :: 0 <= k < |kept| ==>
                  && qs[k] < |ps|
                  && NonBlank(parts[ps[qs[k]]])
                  && MinLineLength <= |Strip(parts[ps[qs[k]]])|
                  && kept[k] == Truncate(Strip(parts[ps[qs[k]]])))
            && (forall a, b :: 0 <= a < b < |kept| ==> ps[qs[a]] < ps[qs[b]])
  {
    var parts := Split(text, '\n');
    var ps := Positions(parts, NonBlank, 0);
    var lines := MeaningfulLines(text);
    var qs := Positions(lines, LongEnough, 0);
    MeaningfulLinesFromSplit(text);
    PositionsExact(parts, NonBlank, 0);
    KeptFromPositions(lines);
    PositionsExact(lines, LongEnough, 0);
  }

  lemma {:induction false} FilterMapNoLineBreak(lines: seq<string>, keep: string -> bool, f: string -> string)
    requires forall i :: 0 <= i < |lines| ==> '\n' !in lines[i]
    requires forall l :: '\n' !in l ==> '\n' !in f(l)
    ensures forall i :: 0 <= i < |FilterMap(lines, keep, f)| ==> '\n' !in FilterMap(lines, keep, f)[i]
    decreases |lines|
  {
    if lines != [] {
      FilterMapNoLineBreak(lines[1..], keep, f);
    }
  }

  /** Stripping the parts of a split keeps them free of line breaks. */
  lemma MeaningfulLinesHaveNoLineBreak(text: string)
    ensures forall k :: 0 <= k < |MeaningfulLines(text)| ==> '\n' !in MeaningfulLines(text)[k]
  {
    forall l | '\n' !in l ensures '\n' !in Strip(l) {
      assert forall i :: 0 <= i < |Strip(l)| ==> Strip(l)[i] in l;
    }
    FilterMapNoLineBreak(Split(text, '\n'), NonBlank, Strip);
  }

  /** Four lines without line breaks, whatever the meaningful lines. */
  lemma FormattedFromHasFourLines(language: string, lines: seq<string>, padDraws: seq<nat>)
    requires forall k :: 0 <= k < |lines| ==> '\n' !in lines[k]
    ensures |FormattedFrom(language, lines, padDraws)| == 4
    ensures Split(Join(FormattedFrom(language, lines, padDraws), "\n"), '\n') == FormattedFrom(language, lines, padDraws)
  {
    var r := FormattedFrom(language, lines, padDraws);
    var kept := Kept(lines);
    FormattedShape(language, lines, padDraws);
    forall l | '\n' !in l ensures '\n' !in Truncate(l) {
      assert forall i :: 0 <= i < |Truncate(l)| ==> Truncate(l)[i] == l[i];
    }
    FilterMapNoLineBreak(lines, LongEnough, Truncate);
    FillersHaveNoLineBreak(language, "victory");
    forall k | 0 <= k < 4 ensures '\n' !in r[k] {
      if k < |kept| {
        assert r[k] == r[..|kept|][k];
      } else {
        var i :| 0 <= i < 4 && Fillers(language, "victory")[i] == r[k];
      }
    }
    SplitJoin(r, '\n');
  }

  /** `_format_as_4_lines` always returns exactly four lines joined by "\n". */
  lemma FormatHasFourLines(language: string, text: string, padDraws: seq<nat>)
    ensures |FormattedLines(language, text, padDraws)| == 4
    ensures Split(Join(FormattedLines(language, text, padDraws), "\n"), '\n') == FormattedLines(language, text, padDraws)
  {
    MeaningfulLinesHaveNoLineBreak(text);
    FormattedFromHasFourLines(language, MeaningfulLines(text), padDraws);
  }

  lemma EnglishVictoryFillersInBounds()
    ensures forall i :: 0 <= i < 4 ==>
      MinLineLength <= |Fillers("english", "victory")[i]| <= MaxLineLength
  {
  }

  /** In English every line of the formatted poem, filler or kept, has
      between `min_line_length` and `max_line_length` characters. */
  lemma EnglishLinesInBounds(language: string, lines: seq<string>, padDraws: seq<nat>)
    requires language != "bengali"
    ensures forall k :: 0 <= k < 4 ==>
      MinLineLength <= |FormattedFrom(language, lines, padDraws)[k]| <= MaxLineLength
  {
    var r := FormattedFrom(language, lines, padDraws);
    var kept := Kept(lines);
    FormattedShape(language, lines, padDraws);
    KeptFromPositions(lines);
    EnglishVictoryFillersInBounds();
    forall k | 0 <= k < 4 ensures MinLineLength <= |r[k]| <= MaxLineLength {
      if k < |kept| {
        assert r[k] == r[..|kept|][k];
      } else {
        var i :| 0 <= i < 4 && Fillers(language, "victory")[i] == r[k];
      }
    }
  }
}
