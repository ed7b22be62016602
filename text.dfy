/**
 * The three string helpers of Go's standard library that the builder uses to derive
 * a subtitle file name and to finish a trim filter: `filepath.Ext` (with `/` as the
 * only separator), `strings.Replace(s, pat, rep, -1)` and `strings.TrimSuffix`.
 * A Dafny `char` stands for one Go rune.
 */
module Text {

  /** `pat` occurs in `s` starting at position `k`. */
  predicate OccursAt(s: string, pat: string, k: int) {
    0 <= k && k + |pat| <= |s| && s[k..k + |pat|] == pat
  }

  /** No character of `p` after its last `/` is a dot. */
  predicate NoDotInLastElement(p: string) {
    forall k :: 0 <= k < |p| && p[k] == '.' ==> exists j :: k < j < |p| && p[j] == '/'
  }

  /**
   * `filepath.Ext`: the suffix of the last path element that starts at its last dot,
   * or "" when that element has no dot.
   */
  function Ext(p: string): string
    decreases |p|
  {
    if p == [] then ""
    else
      var c := p[|p| - 1];
      if c == '/' then ""
      else if c == '.' then "."
      else
        var e := Ext(p[..|p| - 1]);
        if e == [] then "" else e + [c]
  }

  /**
   * What `Ext` returns is a suffix of the path that starts with its only dot and holds
   * no `/`, and it is empty exactly when the last path element has no dot.
   */
  lemma {:induction false} ExtSuffix(p: string)
    ensures var r := Ext(p);
      |r| <= |p| && r == p[|p| - |r|..] &&
      (r != [] ==> r[0] == '.' && forall k :: 0 < k < |r| ==> r[k] != '.' && r[k] != '/') &&
      (r == [] <==> NoDotInLastElement(p))
    decreases |p|
  {
    if p != [] {
      var c := p[|p| - 1];
      var q := p[..|p| - 1];
      if c != '/' && c != '.' {
        ExtSuffix(q);
        var e := Ext(q);
        if e != [] {
          assert p[|p| - |e| - 1..] == e + [c];
        }
        assert NoDotInLastElement(p) <==> NoDotInLastElement(q) by {
          if NoDotInLastElement(q) {
            forall k | 0 <= k < |p| && p[k] == '.' ensures exists j :: k < j < |p| && p[j] == '/' {
              assert q[k] == '.';
              var j :| k < j < |q| && q[j] == '/';
              assert p[j] == '/';
            }
          }
          if NoDotInLastElement(p) {
            forall k | 0 <= k < |q| && q[k] == '.' ensures exists j :: k < j < |q| && q[j] == '/' {
              assert p[k] == '.';
              var j :| k < j < |p| && p[j] == '/';
              assert j < |q|;
              assert q[j] == '/';
            }
          }
        }
      } else if c == '.' {
        assert !NoDotInLastElement(p) by {
          assert p[|p| - 1] == '.';
        }
      } else {
        assert NoDotInLastElement(p) by {
          forall k | 0 <= k < |p| && p[k] == '.' ensures exists j :: k < j < |p| && p[j] == '/' {
            assert p[|p| - 1] == '/';
          }
        }
      }
    }
  }

  /**
   * `strings.Replace(s, pat, rep, -1)`: every non-overlapping occurrence of `pat`,
   * scanning left to right, is replaced by `rep`; an empty `pat` matches before every
   * character and at the end; `pat == rep` returns `s` at once.
   */
  function ReplaceAll(s: string, pat: string, rep: string): string
    decreases |s|
  {
    if pat == rep then s
    else if pat == [] then
      if s == [] then rep else rep + [s[0]] + ReplaceAll(s[1..], pat, rep)
    else if |s| < |pat| then s
    else if s[..|pat|] == pat then rep + ReplaceAll(s[|pat|..], pat, rep)
    else [s[0]] + ReplaceAll(s[1..], pat, rep)
  }

  /** An occurrence in the tail of `s` is an occurrence in `s`, one position further on. */
  lemma OccursInTail(s: string, pat: string, k: int)
    requires |s| > 0 && k >= 0
    ensures OccursAt(s[1..], pat, k) <==> OccursAt(s, pat, k + 1)
  {
    if k + |pat| <= |s| - 1 {
      assert s[1..][k..k + |pat|] == s[k + 1..k + 1 + |pat|];
    }
  }

  /** With nothing to replace, `ReplaceAll` returns its input. */
  lemma {:induction false} ReplaceAllAbsent(s: string, pat: string, rep: string)
    requires pat != []
    requires forall k :: !OccursAt(s, pat, k)
    ensures ReplaceAll(s, pat, rep) == s
    decreases |s|
  {
    if pat != rep && |s| >= |pat| {
      assert !OccursAt(s, pat, 0);
      forall k ensures !OccursAt(s[1..], pat, k) {
        if k >= 0 {
          OccursInTail(s, pat, k);
        }
      }
      ReplaceAllAbsent(s[1..], pat, rep);
    }
  }

  /**
   * When `pat` is a non-empty suffix of `s` and occurs nowhere else in it, `ReplaceAll`
   * swaps exactly that suffix for `rep`.
   */
  lemma {:induction false} ReplaceAllOnlySuffix(s: string, pat: string, rep: string)
    requires pat != [] && |pat| <= |s| && s[|s| - |pat|..] == pat
    requires forall k :: OccursAt(s, pat, k) ==> k == |s| - |pat|
    ensures ReplaceAll(s, pat, rep) == s[..|s| - |pat|] + rep
    decreases |s|
  {
    if pat == rep {
      assert s == s[..|s| - |pat|] + s[|s| - |pat|..];
    } else if |s| == |pat| {
      assert s[..|pat|] == pat;
      assert ReplaceAll(s[|pat|..], pat, rep) == [];
    } else {
      var t := s[1..];
      ReplaceAllSkipsFirst(s, pat, rep);
      OnlySuffixInTail(s, t, pat);
      ReplaceAllOnlySuffix(t, pat, rep);
      ConsPrefix(s, |s| - |pat|, rep);
    }
  }

  /** Putting back the first character of `s` in front of a prefix of its tail. */
  lemma ConsPrefix(s: string, n: nat, rep: string)
    requires 0 < n <= |s|
    ensures [s[0]] + (s[1..][..n - 1] + rep) == s[..n] + rep
  {
    assert [s[0]] + s[1..][..n - 1] == s[..n];
  }

  /** Where `pat` does not start `s`, `ReplaceAll` keeps the first character. */
  lemma ReplaceAllSkipsFirst(s: string, pat: string, rep: string)
    requires pat != [] && pat != rep && |pat| < |s| && !OccursAt(s, pat, 0)
    ensures ReplaceAll(s, pat, rep) == [s[0]] + ReplaceAll(s[1..], pat, rep)
  {
    assert s[..|pat|] != pat;
  }

  /** A suffix that occurs only at the end of `s` occurs only at the end of its tail. */
  lemma OnlySuffixInTail(s: string, t: string, pat: string)
    requires |pat| < |s| && s[|s| - |pat|..] == pat && t == s[1..]
    requires forall k :: OccursAt(s, pat, k) ==> k == |s| - |pat|
    ensures |pat| <= |t| && t[|t| - |pat|..] == pat
    ensures forall k :: OccursAt(t, pat, k) ==> k == |t| - |pat|
  {
    forall k | OccursAt(t, pat, k) ensures k == |t| - |pat| {
      OccursInTail(s, pat, k);
    }
  }

  /** `strings.TrimSuffix`: drops `suffix` once if `s` ends with it. */
  function TrimSuffix(s: string, suffix: string): (r: string)
    ensures |suffix| <= |s| && s[|s| - |suffix|..] == suffix ==> r + suffix == s
    ensures !(|suffix| <= |s| && s[|s| - |suffix|..] == suffix) ==> r == s
  {
    if |suffix| <= |s| && s[|s| - |suffix|..] == suffix then s[..|s| - |suffix|] else s
  }

  /** Appending a suffix and trimming it again gives back the original text. */
  lemma TrimSuffixAppended(s: string, suffix: string)
    ensures TrimSuffix(s + suffix, suffix) == s
  {
    assert (s + suffix)[|s|..] == suffix;
  }
}
