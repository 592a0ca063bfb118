/**
 * The search for a free startup slug: base, base-2, base-3, …
 * (apps/api/src/modules/startups/startups.service.ts).
 */
module UniqueSlug {
  import opened Slug

  const DIGITS: string := "0123456789"

  /** A number as JavaScript prints it. */
  function Decimal(n: nat): (s: string)
    ensures s != "" && forall i | 0 <= i < |s| :: '0' <= s[i] <= '9'
    ensures n > 0 ==> s[0] != '0'
  {
    if n < 10 then [DIGITS[n]] else Decimal(n / 10) + [DIGITS[n % 10]]
  }

  function Value(s: string): nat
    requires forall i | 0 <= i < |s| :: '0' <= s[i] <= '9'
  {
    if s == "" then 0 else 10 * Value(s[..|s| - 1]) + (s[|s| - 1] as int - '0' as int)
  }

  /** Reading a printed number back gives the number, so no two print alike. */
  lemma {:induction false} DecimalReadsBack(n: nat)
    ensures Value(Decimal(n)) == n
  {
    if n >= 10 {
      DecimalReadsBack(n / 10);
      assert Decimal(n)[..|Decimal(n)| - 1] == Decimal(n / 10);
    }
  }

  /** The k-th name tried. */
  function Candidate(base: string, k: nat): string {
    if k <= 1 then base else base + "-" + Decimal(k)
  }

  lemma CandidatesDiffer(base: string, j: nat, k: nat)
    requires 1 <= j < k
    ensures Candidate(base, j) != Candidate(base, k)
  {
    if j > 1 && Candidate(base, j) == Candidate(base, k) {
      assert Candidate(base, j)[|base| + 1..] == Decimal(j);
      assert Candidate(base, k)[|base| + 1..] == Decimal(k);
      DecimalReadsBack(j);
      DecimalReadsBack(k);
    }
  }

  /** n distinct names can all be taken only if at least n are. */
  lemma {:induction false} TakenNames(base: string, n: nat, taken: set<string>)
    requires forall j | 1 <= j <= n :: Candidate(base, j) in taken
    ensures n <= |taken|
  {
    if n > 0 {
      var rest := taken - {Candidate(base, n)};
      forall j | 1 <= j <= n - 1 ensures Candidate(base, j) in rest {
        CandidatesDiffer(base, j, n);
      }
      TakenNames(base, n - 1, rest);
    }
  }

  /**
   * The first free name, for every finite set of taken ones, after at most one
   * lookup more than there are taken names.
   */
  method GenerateUniqueSlug(u: Unicode, name: string, taken: set<string>) returns (candidate: string, lookups: nat)
    ensures candidate !in taken
    ensures 1 <= lookups <= |taken| + 1
    ensures candidate == Candidate(Slugify(u, name), lookups)
    ensures forall j | 1 <= j < lookups :: Candidate(Slugify(u, name), j) in taken
    ensures IsSlug(candidate) <==> Slugify(u, name) != "" || lookups == 1
  {
    var base := Slugify(u, name);
    candidate := base;
    var suffix := 1;
    while candidate in taken
      invariant suffix >= 1 && candidate == Candidate(base, suffix)
      invariant forall j | 1 <= j < suffix :: Candidate(base, j) in taken
      decreases |taken| + 1 - suffix
    {
      TakenNames(base, suffix, taken);
      suffix := suffix + 1;
      candidate := base + "-" + Decimal(suffix);
    }
    lookups := suffix;
    TakenNames(base, suffix - 1, taken);
    SlugifyIsSlug(u, name);
    CandidateIsSlugIff(base, suffix);
  }

  /** A suffixed name is in normal form unless the name had no letters or digits at all: then it is "-2", "-3", … */
  lemma CandidateIsSlugIff(base: string, k: nat)
    requires IsSlug(base)
    ensures IsSlug(Candidate(base, k)) <==> base != "" || k <= 1
  {
    if k > 1 {
      var d, c := Decimal(k), Candidate(base, k);
      if base == "" {
        assert c[0] == '-';
      } else {
        assert c[|base|] == '-';
        forall i | 0 <= i < |c| ensures IsSlugChar(c[i]) && (i > 0 ==> !(c[i - 1] == '-' && c[i] == '-')) {
          if i > |base| {
            assert c[i] == d[i - |base| - 1];
          } else if i < |base| {
            assert c[i] == base[i];
          }
        }
        assert c[|c| - 1] == d[|d| - 1];
      }
    }
  }

  /** So a startup whose name has a letter or digit gets a slug that `slugify` leaves as it is. */
  lemma UniqueSlugIsFixed(u: Unicode, name: string, k: nat)
    requires LeavesSlugCharsAlone(u) && k >= 1
    ensures Slugify(u, Candidate(Slugify(u, name), k)) == Candidate(Slugify(u, name), k)
            <==> Slugify(u, name) != "" || k == 1
  {
    SlugifyIsSlug(u, name);
    CandidateIsSlugIff(Slugify(u, name), k);
    SlugifyFixesExactlySlugs(u, Candidate(Slugify(u, name), k));
  }

  /** A second startup called "-" gets the slug "-2", which `slugify` would change to "2". */
  lemma HyphenNameGetsMinusTwo(u: Unicode)
    requires LeavesSlugCharsAlone(u)
    ensures Slugify(u, "-") == ""
    ensures Candidate("", 1) == "" && Candidate("", 2) == "-2"
    ensures Slugify(u, "-2") == "2"
  {
    HyphenNames();
    SingleHyphensAreOnlyStripped(u, "-");
    SingleHyphensAreOnlyStripped(u, "-2");
  }

  lemma HyphenNames()
    ensures OverSlugChars("-") && NoDoubleHyphen("-") && StripEnds("-") == ""
    ensures OverSlugChars("-2") && NoDoubleHyphen("-2") && StripEnds("-2") == "2"
    ensures Candidate("", 1) == "" && Candidate("", 2) == "-2"
  {
    assert Decimal(2) == "2";
  }
}
