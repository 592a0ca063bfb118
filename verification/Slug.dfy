/**
 * URL slugs (packages/utils/src/slug.ts). Unicode normalisation and lowercasing
 * are parameters; everything after them is the source's chain of rewrites.
 */
module Slug {

  predicate IsAlnum(c: char) {
    'a' <= c <= 'z' || '0' <= c <= '9'
  }

  predicate IsSlugChar(c: char) {
    IsAlnum(c) || c == '-'
  }

  /** JavaScript's \s, which is also what `trim` removes. */
  predicate IsSpace(c: char) {
    '\t' <= c <= '\r' || c == ' ' || c == '\U{A0}' || c == '\U{1680}' || '\U{2000}' <= c <= '\U{200A}'
    || c == '\U{2028}' || c == '\U{2029}' || c == '\U{202F}' || c == '\U{205F}' || c == '\U{3000}' || c == '\U{FEFF}'
  }

  /** The Combining Diacritical Marks block. */
  predicate IsMark(c: char) {
    '\U{300}' <= c <= '\U{36F}'
  }

  predicate IsKept(c: char) {
    IsAlnum(c) || IsSpace(c) || c == '-'
  }

  function Filter(s: string, keep: char -> bool): string {
    if s == "" then ""
    else Filter(s[..|s| - 1], keep) + if keep(s[|s| - 1]) then [s[|s| - 1]] else ""
  }

  function TrimLeft(s: string): string {
    if s != "" && IsSpace(s[0]) then TrimLeft(s[1..]) else s
  }

  function TrimRight(s: string): string {
    if s != "" && IsSpace(s[|s| - 1]) then TrimRight(s[..|s| - 1]) else s
  }

  predicate EndsIn(s: string, p: char -> bool) {
    s != "" && p(s[|s| - 1])
  }

  /** `.replace(/\s+/g, "-")`: one hyphen for each run of spaces. */
  function SpacesToHyphens(s: string): string {
    if s == "" then ""
    else
      var init, c := s[..|s| - 1], s[|s| - 1];
      if !IsSpace(c) then SpacesToHyphens(init) + [c]
      else if EndsIn(init, IsSpace) then SpacesToHyphens(init)
      else SpacesToHyphens(init) + "-"
  }

  predicate IsHyphen(c: char) {
    c == '-'
  }

  /** `.replace(/-+/g, "-")` */
  function CollapseHyphens(s: string): string {
    if s == "" then ""
    else
      var init, c := s[..|s| - 1], s[|s| - 1];
      if c == '-' && EndsIn(init, IsHyphen) then CollapseHyphens(init)
      else CollapseHyphens(init) + [c]
  }

  /** `.replace(/^-|-$/g, "")`: at most one hyphen at each end. */
  function StripEnds(s: string): string {
    var t := if s != "" && s[0] == '-' then s[1..] else s;
    if EndsIn(t, IsHyphen) then t[..|t| - 1] else t
  }

  datatype Unicode = Unicode(nfkd: string -> string, lower: string -> string)

  predicate OverSlugChars(s: string) {
    forall i | 0 <= i < |s| :: IsSlugChar(s[i])
  }

  /** All that is assumed of the Unicode tables: they leave [a-z0-9-] alone. */
  ghost predicate LeavesSlugCharsAlone(u: Unicode) {
    forall s | OverSlugChars(s) :: u.nfkd(s) == s && u.lower(s) == s
  }

  /** The string once normalised, without marks, in lower case. */
  function Folded(u: Unicode, input: string): string {
    u.lower(Filter(u.nfkd(input), (c: char) => !IsMark(c)))
  }

  function Trim(s: string): string {
    TrimRight(TrimLeft(s))
  }

  function Hyphenate(s: string): string {
    StripEnds(CollapseHyphens(SpacesToHyphens(s)))
  }

  function Slugify(u: Unicode, input: string): string {
    Hyphenate(Filter(Trim(Folded(u, input)), IsKept))
  }

  // ---- the normal form ----

  predicate IsSlug(s: string) {
    && OverSlugChars(s)
    && (s != "" ==> s[0] != '-' && s[|s| - 1] != '-')
    && NoDoubleHyphen(s)
  }

  predicate NoDoubleHyphen(s: string) {
    forall i | 0 < i < |s| :: !(s[i - 1] == '-' && s[i] == '-')
  }

  predicate OverKept(s: string) {
    forall i | 0 <= i < |s| :: IsKept(s[i])
  }

  lemma {:induction false} FilterKeeps(s: string)
    ensures OverKept(Filter(s, IsKept))
  {
    if s != "" {
      FilterKeeps(s[..|s| - 1]);
    }
  }

  lemma {:induction false} SpacesGone(s: string)
    requires OverKept(s)
    ensures OverSlugChars(SpacesToHyphens(s))
  {
    if s != "" {
      SpacesGone(s[..|s| - 1]);
    }
  }

  lemma {:induction false} CollapsedHasNoDouble(s: string)
    requires OverSlugChars(s)
    ensures OverSlugChars(CollapseHyphens(s)) && NoDoubleHyphen(CollapseHyphens(s))
    ensures s != "" ==> CollapseHyphens(s) != "" && CollapseHyphens(s)[|CollapseHyphens(s)| - 1] == s[|s| - 1]
  {
    if s != "" {
      CollapsedHasNoDouble(s[..|s| - 1]);
    }
  }

  lemma StrippedIsSlug(s: string)
    requires OverSlugChars(s) && NoDoubleHyphen(s)
    ensures IsSlug(StripEnds(s))
  {
    if |s| >= 2 {
      assert !(s[0] == '-' && s[1] == '-');
      assert !(s[|s| - 2] == '-' && s[|s| - 1] == '-');
    }
  }

  /** Every output is in normal form. */
  lemma SlugifyIsSlug(u: Unicode, input: string)
    ensures IsSlug(Slugify(u, input))
  {
    var kept := Filter(Trim(Folded(u, input)), IsKept);
    FilterKeeps(Trim(Folded(u, input)));
    SpacesGone(kept);
    CollapsedHasNoDouble(SpacesToHyphens(kept));
    StrippedIsSlug(CollapseHyphens(SpacesToHyphens(kept)));
  }

  lemma {:induction false} FilterAll(s: string, keep: char -> bool)
    requires forall i | 0 <= i < |s| :: keep(s[i])
    ensures Filter(s, keep) == s
  {
    if s != "" {
      FilterAll(s[..|s| - 1], keep);
      assert s == s[..|s| - 1] + [s[|s| - 1]];
    }
  }

  lemma {:induction false} NoSpacesNoChange(s: string)
    requires OverSlugChars(s)
    ensures SpacesToHyphens(s) == s
  {
    if s != "" {
      NoSpacesNoChange(s[..|s| - 1]);
      assert s == s[..|s| - 1] + [s[|s| - 1]];
    }
  }

  lemma {:induction false} NoDoubleNoChange(s: string)
    requires NoDoubleHyphen(s)
    ensures CollapseHyphens(s) == s
  {
    if s != "" {
      NoDoubleNoChange(s[..|s| - 1]);
      assert s == s[..|s| - 1] + [s[|s| - 1]];
      if |s| > 1 {
        assert !(s[|s| - 2] == '-' && s[|s| - 1] == '-');
      }
    }
  }

  /** Over slug characters with no doubled hyphen, the last rewrite is the only one that can change anything. */
  lemma SingleHyphensAreOnlyStripped(u: Unicode, s: string)
    requires LeavesSlugCharsAlone(u) && OverSlugChars(s) && NoDoubleHyphen(s)
    ensures Slugify(u, s) == StripEnds(s)
  {
    FilterAll(u.nfkd(s), (c: char) => !IsMark(c));
    assert Folded(u, s) == s;
    assert Trim(s) == s;
    FilterAll(s, IsKept);
    NoSpacesNoChange(s);
    NoDoubleNoChange(s);
  }

  /** `slugify` is the identity on exactly the strings in normal form. */
  lemma SlugifyFixesExactlySlugs(u: Unicode, s: string)
    requires LeavesSlugCharsAlone(u)
    ensures Slugify(u, s) == s <==> IsSlug(s)
  {
    SlugifyIsSlug(u, s);
    if IsSlug(s) {
      SingleHyphensAreOnlyStripped(u, s);
    }
  }

  /** Hence slugifying twice is slugifying once, for every input. */
  lemma SlugifyIdempotent(u: Unicode, input: string)
    requires LeavesSlugCharsAlone(u)
    ensures Slugify(u, Slugify(u, input)) == Slugify(u, input)
  {
    SlugifyIsSlug(u, input);
    SlugifyFixesExactlySlugs(u, Slugify(u, input));
  }

  // ---- what a slug says: the words of the name, joined by hyphens ----

  /** The maximal runs of letters and digits, in order. */
  function Words(s: string): (ws: seq<string>)
    ensures EndsIn(s, IsAlnum) ==> ws != []
  {
    if s == "" then []
    else
      var init, c := s[..|s| - 1], s[|s| - 1];
      var ws := Words(init);
      if !IsAlnum(c) then ws
      else if EndsIn(init, IsAlnum) then ws[..|ws| - 1] + [ws[|ws| - 1] + [c]]
      else ws + [[c]]
  }

  predicate IsWord(w: string) {
    w != "" && forall i | 0 <= i < |w| :: IsAlnum(w[i])
  }

  lemma {:induction false} WordsAreWords(s: string)
    ensures forall k | 0 <= k < |Words(s)| :: IsWord(Words(s)[k])
  {
    if s != "" {
      WordsAreWords(s[..|s| - 1]);
    }
  }

  function Join(ws: seq<string>): string {
    if ws == [] then ""
    else if |ws| == 1 then ws[0]
    else Join(ws[..|ws| - 1]) + "-" + ws[|ws| - 1]
  }

  lemma JoinExtend(ws: seq<string>, c: char)
    requires ws != []
    ensures Join(ws[..|ws| - 1] + [ws[|ws| - 1] + [c]]) == Join(ws) + [c]
  {
    var ws' := ws[..|ws| - 1] + [ws[|ws| - 1] + [c]];
    assert ws'[..|ws'| - 1] == ws[..|ws| - 1];
  }

  lemma JoinSnoc(ws: seq<string>, w: string)
    requires ws != []
    ensures Join(ws + [w]) == Join(ws) + "-" + w
  {
    assert (ws + [w])[..|ws|] == ws;
  }

  lemma {:induction false} JoinEnds(ws: seq<string>)
    requires forall k | 0 <= k < |ws| :: IsWord(ws[k])
    ensures ws == [] <==> Join(ws) == ""
    ensures ws != [] ==> IsAlnum(Join(ws)[0]) && IsAlnum(Join(ws)[|Join(ws)| - 1])
  {
    if |ws| > 1 {
      JoinEnds(ws[..|ws| - 1]);
    }
  }

  predicate IsSeparator(c: char) {
    !IsAlnum(c)
  }

  function HyphenIf(b: bool): string {
    if b then "-" else ""
  }

  /** The joined words between what is left of the separators at the two ends. */
  function Framed(s: string): string {
    var ws := Words(s);
    HyphenIf(s != "" && IsSeparator(s[0])) + Join(ws) + HyphenIf(ws != [] && EndsIn(s, IsSeparator))
  }

  function Collapsed(s: string): string {
    CollapseHyphens(SpacesToHyphens(s))
  }

  lemma {:induction false} CollapsedEnd(s: string)
    requires OverKept(s)
    ensures EndsIn(SpacesToHyphens(s), IsHyphen) <==> EndsIn(s, IsSeparator)
    ensures EndsIn(Collapsed(s), IsHyphen) <==> EndsIn(s, IsSeparator)
  {
    SpacesGone(s);
    CollapsedHasNoDouble(SpacesToHyphens(s));
    if s != "" {
      CollapsedEnd(s[..|s| - 1]);
    }
  }

  /** What one more character does to the collapsed string. */
  lemma CollapsedStep(s: string)
    requires OverKept(s) && s != ""
    ensures var init, c := s[..|s| - 1], s[|s| - 1];
            Collapsed(s) == if IsAlnum(c) then Collapsed(init) + [c]
                            else if EndsIn(init, IsSeparator) then Collapsed(init)
                            else Collapsed(init) + "-"
  {
    var init, c := s[..|s| - 1], s[|s| - 1];
    CollapsedEnd(init);
    if IsSpace(c) && EndsIn(init, IsSpace) {
      assert SpacesToHyphens(s) == SpacesToHyphens(init);
    } else {
      var d := if IsAlnum(c) then c else '-';
      assert SpacesToHyphens(s) == SpacesToHyphens(init) + [d];
      assert SpacesToHyphens(s)[..|SpacesToHyphens(s)| - 1] == SpacesToHyphens(init);
    }
  }

  /** One more letter or digit extends the last word or starts a new one. */
  lemma JoinedByAlnum(s: string)
    requires s != "" && IsAlnum(s[|s| - 1])
    ensures var init := s[..|s| - 1];
            Join(Words(s))
            == Join(Words(init)) + HyphenIf(Words(init) != [] && EndsIn(init, IsSeparator)) + [s[|s| - 1]]
  {
    var init, c := s[..|s| - 1], s[|s| - 1];
    var ws := Words(init);
    if EndsIn(init, IsAlnum) {
      JoinExtend(ws, c);
    } else if ws != [] {
      JoinSnoc(ws, [c]);
    }
  }

  lemma Regroup(a: string, b: string, c: string, d: string)
    ensures a + (b + c + d) + HyphenIf(false) == a + b + c + d
  {
  }

  lemma FramedByAlnum(s: string)
    requires s != "" && IsAlnum(s[|s| - 1])
    ensures Framed(s) == Framed(s[..|s| - 1]) + [s[|s| - 1]]
  {
    var init := s[..|s| - 1];
    var left, j := HyphenIf(s != "" && IsSeparator(s[0])), Join(Words(init));
    var right := HyphenIf(Words(init) != [] && EndsIn(init, IsSeparator));
    JoinedByAlnum(s);
    assert Framed(s) == left + (j + right + [s[|s| - 1]]) + HyphenIf(false);
    assert Framed(init) == HyphenIf(init != "" && IsSeparator(init[0])) + j + right;
    Regroup(left, j, right, [s[|s| - 1]]);
  }

  lemma FramedBySeparator(s: string)
    requires s != "" && IsSeparator(s[|s| - 1])
    ensures Framed(s) == Framed(s[..|s| - 1]) + HyphenIf(!EndsIn(s[..|s| - 1], IsSeparator))
  {
    var init := s[..|s| - 1];
    assert Words(s) == Words(init);
    if init == "" {
      assert Framed(init) == "" && Framed(s) == "-";
    } else if EndsIn(init, IsSeparator) {
      assert Framed(s) == Framed(init);
    }
  }

  lemma {:induction false} CollapsedIsFramed(s: string)
    requires OverKept(s)
    ensures Collapsed(s) == Framed(s)
  {
    if s != "" {
      CollapsedIsFramed(s[..|s| - 1]);
      CollapsedStep(s);
      if IsAlnum(s[|s| - 1]) {
        FramedByAlnum(s);
      } else {
        FramedBySeparator(s);
      }
    }
  }

  lemma StripRight(j: string, right: bool)
    requires if j == "" then !right else IsAlnum(j[|j| - 1])
    ensures var t := j + HyphenIf(right);
            (if EndsIn(t, IsHyphen) then t[..|t| - 1] else t) == j
  {
    if right {
      assert (j + "-")[..|j|] == j;
    } else {
      assert j + "" == j;
    }
  }

  lemma StripAround(j: string, left: bool, right: bool)
    requires if j == "" then !right else IsAlnum(j[0]) && IsAlnum(j[|j| - 1])
    ensures StripEnds(HyphenIf(left) + j + HyphenIf(right)) == j
  {
    var s, t := HyphenIf(left) + j + HyphenIf(right), j + HyphenIf(right);
    StripRight(j, right);
    if left {
      assert s[1..] == t;
    } else {
      assert s == t;
    }
  }

  lemma StripFrame(s: string)
    ensures StripEnds(Framed(s)) == Join(Words(s))
  {
    WordsAreWords(s);
    JoinEnds(Words(s));
    StripAround(Join(Words(s)), s != "" && IsSeparator(s[0]), Words(s) != [] && EndsIn(s, IsSeparator));
  }

  // Trimming changes no word.

  lemma {:induction false} FilterCat(a: string, b: string, keep: char -> bool)
    ensures Filter(a + b, keep) == Filter(a, keep) + Filter(b, keep)
  {
    if b == "" {
      assert a + b == a;
    } else {
      assert (a + b)[..|a + b| - 1] == a + b[..|b| - 1];
      FilterCat(a, b[..|b| - 1], keep);
    }
  }

  lemma {:induction false} LeadingSpaceIsNoWord(c: char, s: string)
    requires IsSpace(c)
    ensures Words([c] + s) == Words(s)
  {
    var t := [c] + s;
    if s == "" {
      assert t[..0] == "";
    } else {
      assert t[..|t| - 1] == [c] + s[..|s| - 1];
      LeadingSpaceIsNoWord(c, s[..|s| - 1]);
      assert EndsIn(t[..|t| - 1], IsAlnum) <==> EndsIn(s[..|s| - 1], IsAlnum);
    }
  }

  lemma {:induction false} TrimLeftKeepsWords(s: string)
    ensures Words(Filter(TrimLeft(s), IsKept)) == Words(Filter(s, IsKept))
  {
    if s != "" && IsSpace(s[0]) {
      TrimLeftKeepsWords(s[1..]);
      assert s == [s[0]] + s[1..];
      FilterCat([s[0]], s[1..], IsKept);
      assert Filter([s[0]], IsKept) == Filter([s[0]][..0], IsKept) + [s[0]];
      assert Filter(s, IsKept) == [s[0]] + Filter(s[1..], IsKept);
      LeadingSpaceIsNoWord(s[0], Filter(s[1..], IsKept));
    }
  }

  lemma {:induction false} TrimRightKeepsWords(s: string)
    ensures Words(Filter(TrimRight(s), IsKept)) == Words(Filter(s, IsKept))
  {
    if s != "" && IsSpace(s[|s| - 1]) {
      TrimRightKeepsWords(s[..|s| - 1]);
      var kept := Filter(s, IsKept);
      assert kept[..|kept| - 1] == Filter(s[..|s| - 1], IsKept);
    }
  }

  /**
   * The slug of a name is its words (runs of letters and digits, once folded and
   * rid of other characters) joined by single hyphens, whatever separated them.
   */
  lemma SlugIsJoinedWords(u: Unicode, input: string)
    ensures Slugify(u, input) == Join(Words(Filter(Folded(u, input), IsKept)))
  {
    var folded := Folded(u, input);
    var kept := Filter(Trim(folded), IsKept);
    FilterKeeps(Trim(folded));
    CollapsedIsFramed(kept);
    StripFrame(kept);
    TrimRightKeepsWords(TrimLeft(folded));
    TrimLeftKeepsWords(folded);
  }
}
