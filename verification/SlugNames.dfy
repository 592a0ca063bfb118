/**
 * What a slug says, for every name, without the rewrites that produce it: a
 * reader that goes through the name once and collects its words
 * (packages/utils/src/slug.ts).
 */
module SlugNames {
  import opened Slug

  datatype Class = Letter | Gap | Ignored

  /** Letters and digits make words; spaces of any kind and hyphens end them; the rest is dropped. */
  function ClassOf(c: char): Class {
    if 'a' <= c <= 'z' || '0' <= c <= '9' then Letter
    else if c == '-' || c == ' ' || c in "\t\n\U{B}\U{C}\r" || '\U{2000}' <= c <= '\U{200A}'
            || c in "\U{A0}\U{1680}\U{2028}\U{2029}\U{202F}\U{205F}\U{3000}\U{FEFF}" then Gap
    else Ignored
  }

  /** The words read so far, and whether the next letter belongs to the last one. */
  datatype Reading = Reading(words: seq<string>, inWord: bool)

  function Read(s: string): (r: Reading)
    ensures r.inWord ==> r.words != []
  {
    if s == "" then Reading([], false)
    else
      var r, c := Read(s[..|s| - 1]), s[|s| - 1];
      match ClassOf(c)
      case Ignored => r
      case Gap => Reading(r.words, false)
      case Letter =>
        if r.inWord then Reading(r.words[..|r.words| - 1] + [r.words[|r.words| - 1] + [c]], true)
        else Reading(r.words + [[c]], true)
  }

  function JoinBy(ws: seq<string>, sep: char): string {
    if ws == [] then ""
    else if |ws| == 1 then ws[0]
    else JoinBy(ws[..|ws| - 1], sep) + [sep] + ws[|ws| - 1]
  }

  lemma {:induction false} JoinIsJoinBy(ws: seq<string>)
    ensures Join(ws) == JoinBy(ws, '-')
  {
    if |ws| > 1 {
      JoinIsJoinBy(ws[..|ws| - 1]);
    }
  }

  lemma ClassesAgree(c: char)
    ensures ClassOf(c) == Letter <==> IsAlnum(c)
    ensures ClassOf(c) == Ignored <==> !IsKept(c)
  {
  }

  lemma OneMore(kept: string, c: char)
    ensures var ws := Words(kept);
            Words(kept + [c]) == if !IsAlnum(c) then ws
                                 else if EndsIn(kept, IsAlnum) then ws[..|ws| - 1] + [ws[|ws| - 1] + [c]]
                                 else ws + [[c]]
  {
    assert (kept + [c])[..|kept|] == kept;
  }

  /** The words between the separators of what the filter keeps are the words read. */
  lemma {:induction false} ReadIsWords(s: string)
    ensures Words(Filter(s, IsKept)) == Read(s).words
    ensures EndsIn(Filter(s, IsKept), IsAlnum) <==> Read(s).inWord
  {
    if s != "" {
      var init, c := s[..|s| - 1], s[|s| - 1];
      ReadIsWords(init);
      ClassesAgree(c);
      var kept := Filter(init, IsKept);
      if IsKept(c) {
        assert Filter(s, IsKept) == kept + [c];
        assert (kept + [c])[..|kept|] == kept;
        OneMore(kept, c);
      } else {
        assert Filter(s, IsKept) == kept;
      }
    }
  }

  /** For every name: its slug is the words read from it, normalised, without marks and in lower case. */
  lemma SlugIsWordsRead(u: Unicode, input: string)
    ensures Slugify(u, input) == JoinBy(Read(u.lower(Filter(u.nfkd(input), (c: char) => !IsMark(c)))).words, '-')
  {
    SlugIsJoinedWords(u, input);
    ReadIsWords(Folded(u, input));
    JoinIsJoinBy(Read(Folded(u, input)).words);
  }

  // ---- names in ASCII ----

  predicate IsAscii(s: string) {
    forall i | 0 <= i < |s| :: s[i] < '\U{80}'
  }

  function LowerAscii(s: string): string {
    seq(|s|, i requires 0 <= i < |s| => if 'A' <= s[i] <= 'Z' then (s[i] as int + 32) as char else s[i])
  }

  /** NFKD leaves ASCII alone, and lowercasing maps A-Z to a-z and nothing else of it. */
  ghost predicate AsciiAsUsual(u: Unicode) {
    forall s | IsAscii(s) :: u.nfkd(s) == s && u.lower(s) == LowerAscii(s)
  }

  /** For every ASCII name nothing is left open: its slug is its words, in lower case, with hyphens between. */
  lemma AsciiSlug(u: Unicode, input: string)
    requires AsciiAsUsual(u) && IsAscii(input)
    ensures Slugify(u, input) == JoinBy(Read(LowerAscii(input)).words, '-')
  {
    FilterAll(u.nfkd(input), (c: char) => !IsMark(c));
    SlugIsWordsRead(u, input);
  }

  // ---- words with spaces between them ----

  predicate IsPlainWord(w: string) {
    w != "" && forall i | 0 <= i < |w| :: 'a' <= w[i] <= 'z' || '0' <= w[i] <= '9'
  }

  predicate ArePlainWords(ws: seq<string>) {
    forall k | 0 <= k < |ws| :: IsPlainWord(ws[k])
  }

  predicate IsPlain(s: string) {
    forall i | 0 <= i < |s| :: 'a' <= s[i] <= 'z' || '0' <= s[i] <= '9' || s[i] == ' '
  }

  ghost predicate LeavesPlainAlone(u: Unicode) {
    forall s | IsPlain(s) :: u.nfkd(s) == s && u.lower(s) == s
  }

  lemma ReadGap(s: string)
    ensures Read(s + " ") == Reading(Read(s).words, false)
  {
    assert (s + " ")[..|s|] == s;
  }

  lemma ReadFirst(s: string, c: char)
    requires !Read(s).inWord && ClassOf(c) == Letter
    ensures Read(s + [c]) == Reading(Read(s).words + [[c]], true)
  {
    assert (s + [c])[..|s|] == s;
  }

  lemma ReadNext(s: string, c: char, ws: seq<string>, w: string)
    requires Read(s) == Reading(ws + [w], true) && ClassOf(c) == Letter
    ensures Read(s + [c]) == Reading(ws + [w + [c]], true)
  {
    assert (s + [c])[..|s|] == s;
    assert (ws + [w])[..|ws|] == ws;
  }

  lemma {:induction false} ReadWord(s: string, w: string)
    requires !Read(s).inWord && IsPlainWord(w)
    ensures Read(s + w) == Reading(Read(s).words + [w], true)
  {
    var init, c := w[..|w| - 1], w[|w| - 1];
    assert s + w == s + init + [c] && w == init + [c];
    if init == "" {
      assert s + init == s && init + [c] == [c];
      ReadFirst(s, c);
    } else {
      ReadWord(s, init);
      ReadNext(s + init, c, Read(s).words, init);
    }
  }

  /** Reading the first n words with spaces between them. */
  lemma {:induction false} ReadSpaced(ws: seq<string>, n: nat)
    requires 0 < n <= |ws| && ArePlainWords(ws)
    ensures Read(JoinBy(ws[..n], ' ')) == Reading(ws[..n], true)
  {
    if n == 1 {
      ReadSingle(ws);
    } else {
      ReadSpaced(ws, n - 1);
      ReadOneMore(ws, n);
    }
  }

  lemma ReadOneMore(ws: seq<string>, n: nat)
    requires 1 < n <= |ws| && ArePlainWords(ws)
    requires Read(JoinBy(ws[..n - 1], ' ')) == Reading(ws[..n - 1], true)
    ensures Read(JoinBy(ws[..n], ' ')) == Reading(ws[..n], true)
  {
    var init, w := ws[..n - 1], ws[n - 1];
    assert ws[..n] == init + [w];
    JoinSnocBy(init, w, ' ');
    ReadAnother(JoinBy(init, ' '), init, w);
  }

  lemma JoinSnocBy(ws: seq<string>, w: string, sep: char)
    requires ws != []
    ensures JoinBy(ws + [w], sep) == JoinBy(ws, sep) + [sep] + w
  {
    assert (ws + [w])[..|ws|] == ws;
  }

  lemma ReadSingle(ws: seq<string>)
    requires ws != [] && IsPlainWord(ws[0])
    ensures Read(JoinBy(ws[..1], ' ')) == Reading(ws[..1], true)
  {
    ReadWord("", ws[0]);
    assert "" + ws[0] == ws[0] && ws[..1] == [ws[0]];
  }

  lemma ReadAnother(s: string, ws: seq<string>, w: string)
    requires Read(s).words == ws && IsPlainWord(w)
    ensures Read(s + [' '] + w) == Reading(ws + [w], true)
  {
    ReadGap(s);
    ReadWord(s + " ", w);
  }

  lemma {:induction false} SpacedIsPlain(ws: seq<string>)
    requires ArePlainWords(ws)
    ensures IsPlain(JoinBy(ws, ' '))
  {
    if |ws| > 1 {
      SpacedIsPlain(ws[..|ws| - 1]);
    }
  }

  /** Words with spaces between them become the same words with hyphens between them. */
  lemma SpacesBecomeHyphens(u: Unicode, ws: seq<string>)
    requires LeavesPlainAlone(u) && ArePlainWords(ws)
    ensures Slugify(u, JoinBy(ws, ' ')) == JoinBy(ws, '-')
  {
    var name := JoinBy(ws, ' ');
    if ws != [] {
      ReadSpaced(ws, |ws|);
      assert ws[..|ws|] == ws;
    }
    SpacedIsPlain(ws);
    FilterAll(u.nfkd(name), (c: char) => !IsMark(c));
    SlugIsWordsRead(u, name);
  }
}
