/**
 * The connection-string normaliser run once at start-up: a URL in the
 * `postgres://` scheme is rewritten to the equivalent `postgresql://` scheme.
 */
module Config {

  const LegacyScheme: string := "postgres://"
  const Scheme: string := "postgresql://"

  /** Python's `s.startswith(p)`: `s` is `p` followed by some string. */
  predicate StartsWith(s: string, p: string)
    ensures StartsWith(s, p) <==> exists rest: string :: s == p + rest
  {
    if |p| <= |s| && s[..|p|] == p then
      assert s == p + s[|p|..];
      true
    else
      false
  }

  /** `pat` occurs in `s` at index `i`. */
  predicate OccursAt(s: string, pat: string, i: nat) {
    i + |pat| <= |s| && s[i..i + |pat|] == pat
  }

  /** `i` is the leftmost index at which `pat` occurs in `s`. */
  predicate FirstOccurrence(s: string, pat: string, i: nat) {
    OccursAt(s, pat, i) && forall j: nat :: j < i ==> !OccursAt(s, pat, j)
  }

  /** An occurrence in `s[1..]` is an occurrence in `s` one place further right. */
  lemma OccursAtTail(s: string, pat: string, i: nat)
    requires s != []
    ensures OccursAt(s[1..], pat, i) <==> OccursAt(s, pat, i + 1)
  {
  }

  /**
   * Python's `s.replace(pat, rep, 1)`: the leftmost occurrence of `pat` is
   * replaced by `rep` (ReplaceFirstAt); without one, `s` comes back
   * unchanged (ReplaceFirstUnchanged).
   */
  function ReplaceFirst(s: string, pat: string, rep: string): string
    decreases |s|
  {
    if StartsWith(s, pat) then rep + s[|pat|..]
    else if s == [] then s
    else [s[0]] + ReplaceFirst(s[1..], pat, rep)
  }

  lemma {:induction false} ReplaceFirstUnchanged(s: string, pat: string, rep: string)
    requires forall i: nat :: !OccursAt(s, pat, i)
    ensures ReplaceFirst(s, pat, rep) == s
    decreases |s|
  {
    assert !OccursAt(s, pat, 0);
    if s != [] {
      forall i: nat ensures !OccursAt(s[1..], pat, i) {
        OccursAtTail(s, pat, i);
      }
      ReplaceFirstUnchanged(s[1..], pat, rep);
    }
  }

  lemma {:induction false} ReplaceFirstAt(s: string, pat: string, rep: string, i: nat)
    requires FirstOccurrence(s, pat, i)
    ensures ReplaceFirst(s, pat, rep) == s[..i] + rep + s[i + |pat|..]
    decreases |s|
  {
    if i == 0 {
      assert StartsWith(s, pat);
    } else {
      assert !OccursAt(s, pat, 0);
      forall j: nat | j <= i - 1 ensures OccursAt(s[1..], pat, j) <==> OccursAt(s, pat, j + 1) {
        OccursAtTail(s, pat, j);
      }
      assert FirstOccurrence(s[1..], pat, i - 1);
      ReplaceFirstAt(s[1..], pat, rep, i - 1);
      assert s[1..][..i - 1] == s[1..i];
      assert s[1..][i - 1 + |pat|..] == s[i + |pat|..];
      assert [s[0]] + s[1..i] == s[..i];
    }
  }

  /** The rewrite applied to the connection string read from the environment. */
  function NormalizeDbUrl(url: string): (r: string)
    ensures StartsWith(url, LegacyScheme) ==> r == Scheme + url[|LegacyScheme|..]
    ensures !StartsWith(url, LegacyScheme) ==> r == url
    ensures !StartsWith(r, LegacyScheme)
  {
    if StartsWith(url, LegacyScheme) then
      assert FirstOccurrence(url, LegacyScheme, 0);
      ReplaceFirstAt(url, LegacyScheme, Scheme, 0);
      var r := ReplaceFirst(url, LegacyScheme, Scheme);
      assert r == Scheme + url[|LegacyScheme|..] by {
        assert url[..0] + Scheme == Scheme;
      }
      assert Scheme[8] == 'q' && LegacyScheme[8] == ':';
      assert r[8] == Scheme[8];
      r
    else
      url
  }

  /** Normalising twice is the same as normalising once. */
  lemma NormalizeIdempotent(url: string)
    ensures NormalizeDbUrl(NormalizeDbUrl(url)) == NormalizeDbUrl(url)
  {
  }

  /** The two schemes name the same database: both forms normalise to the `postgresql://` form. */
  lemma SchemesAreAliases(rest: string)
    ensures NormalizeDbUrl(LegacyScheme + rest) == Scheme + rest
    ensures NormalizeDbUrl(Scheme + rest) == Scheme + rest
  {
  }
}
