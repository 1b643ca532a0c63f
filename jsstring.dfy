/** The two JavaScript string methods the auth gate relies on: `startsWith` and `replace`. */
module JsString {
  import opened Wrappers

  /** `s.startsWith(p)` */
  predicate StartsWith(s: string, p: string) {
    |p| <= |s| && s[..|p|] == p
  }

  /** `p` occurs in `s` beginning at index `k`. */
  predicate OccursAt(s: string, p: string, k: nat) {
    k + |p| <= |s| && s[k..k + |p|] == p
  }

  /**
   * `s.indexOf(p, from)` for `from <= |s|` (the gate searches from 0): the first
   * index at or after `from` where `p` occurs, or None for -1. JavaScript's
   * clamping of a `from` beyond the end is not modelled.
   */
  function IndexOf(s: string, p: string, from: nat): (r: Option<nat>)
    decreases |s| - from
    ensures r.Some? ==> from <= r.value && OccursAt(s, p, r.value)
    ensures r.Some? ==> forall k :: from <= k < r.value ==> !OccursAt(s, p, k)
    ensures r.None? ==> forall k :: from <= k ==> !OccursAt(s, p, k)
  {
    if OccursAt(s, p, from) then Some(from)
    else if |s| <= from then None
    else IndexOf(s, p, from + 1)
  }

  /**
   * `s.replace(p, r)` with a string pattern and a replacement without `$`
   * patterns (the gate's is ""): only the first occurrence is replaced, and `r`
   * is copied as it is.
   */
  function ReplaceFirst(s: string, p: string, r: string): string {
    match IndexOf(s, p, 0)
    case None => s
    case Some(i) => s[..i] + r + s[i + |p|..]
  }

  /** When `s` starts with `p`, the first occurrence is the prefix itself, so `replace` strips exactly it. */
  lemma ReplacePrefix(s: string, p: string, r: string)
    requires StartsWith(s, p)
    ensures ReplaceFirst(s, p, r) == r + s[|p|..]
  {
    assert OccursAt(s, p, 0);
  }

  /** Prefixing with `p` always produces a string that starts with `p`, and stripping it gives the rest back. */
  lemma StripPrepended(p: string, t: string)
    ensures StartsWith(p + t, p)
    ensures (p + t)[|p|..] == t
  {
    assert (p + t)[..|p|] == p;
  }
}
