/** String search and JavaScript's `String.prototype.replace` with a string pattern. */
module Text {
  import opened Wrappers

  /** `p` occurs in `s` starting at index `k`. */
  predicate At(s: string, p: string, k: nat) {
    k + |p| <= |s| && s[k..k + |p|] == p
  }

  /** The first index at or after `k` where `p` occurs in `s`. */
  function IndexFrom(s: string, p: string, k: nat): (r: Option<nat>)
    requires k <= |s|
    ensures r.Some? ==> k <= r.value && At(s, p, r.value)
    ensures r.Some? ==> forall j :: k <= j < r.value ==> !At(s, p, j)
    ensures r.None? ==> forall j :: k <= j <= |s| ==> !At(s, p, j)
    decreases |s| - k
  {
    if k + |p| > |s| then None
    else if s[k..k + |p|] == p then Some(k)
    else if k == |s| then None
    else IndexFrom(s, p, k + 1)
  }

  function IndexOf(s: string, p: string): Option<nat> {
    IndexFrom(s, p, 0)
  }

  /**
   * `s.replace(p, r)`: only the first occurrence of `p` is replaced; without
   * an occurrence the string is returned unchanged.
   */
  function ReplaceFirst(s: string, p: string, r: string): string {
    match IndexOf(s, p)
    case None => s
    case Some(i) => s[..i] + r + s[i + |p|..]
  }

  /** Replacement splices `r` in at the first occurrence of `p` and keeps the rest. */
  lemma ReplaceFirstOccurrence(s: string, p: string, r: string, i: nat)
    requires At(s, p, i)
    requires forall j :: 0 <= j < i ==> !At(s, p, j)
    ensures ReplaceFirst(s, p, r) == s[..i] + r + s[i + |p|..]
  {
    FirstAt(s, p, i);
  }

  /** Without an occurrence the string is returned unchanged. */
  lemma ReplaceFirstAbsent(s: string, p: string, r: string)
    requires forall j :: 0 <= j <= |s| ==> !At(s, p, j)
    ensures ReplaceFirst(s, p, r) == s
  {
  }

  /** If `p` occurs at `k` and nowhere before, the search finds `k`. */
  lemma FirstAt(s: string, p: string, k: nat)
    requires At(s, p, k)
    requires forall j :: 0 <= j < k ==> !At(s, p, j)
    ensures IndexOf(s, p) == Some(k)
  {
  }

  /** A single mismatching character rules out an occurrence. */
  lemma NotAt(s: string, p: string, k: nat, m: nat)
    requires m < |p|
    requires k + |p| <= |s| ==> s[k + m] != p[m]
    ensures !At(s, p, k)
  {
    if k + |p| <= |s| {
      assert s[k..k + |p|][m] == s[k + m];
    }
  }

  /** `s` holds no `/`. */
  predicate NoSlash(s: string) {
    forall i :: 0 <= i < |s| ==> s[i] != '/'
  }
}
