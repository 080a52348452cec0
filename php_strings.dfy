/**
 * The three PHP string primitives the classifier is built from, with PHP 8 semantics
 * (on strings of characters; PHP counts bytes, which agrees on the ASCII names used here):
 * `strpos` (position of the first occurrence, `false` when there is none),
 * `substr($s, -$n)` (the last `n` characters, or the whole string when it is shorter or `n` is 0)
 * and `empty()` on a string (true for `""` and for `"0"`).
 */
module PhpStrings {
  import opened Wrappers

  /** `needle` occurs in `haystack` starting at position `at`. */
  predicate OccursAt(haystack: string, needle: string, at: nat)
  {
    at + |needle| <= |haystack| && haystack[at..at + |needle|] == needle
  }

  predicate StartsWith(s: string, prefix: string)
  {
    prefix <= s
  }

  predicate EndsWith(s: string, suffix: string)
  {
    |suffix| <= |s| && s[|s| - |suffix|..] == suffix
  }

  /** `strpos($haystack, $needle, $from)`: the first occurrence at or after `from`, or `None` for PHP's `false`. */
  function StrPosFrom(haystack: string, needle: string, from: nat): (r: Option<nat>)
    ensures r.Some? ==> from <= r.value && OccursAt(haystack, needle, r.value)
    ensures r.Some? ==> forall j :: from <= j < r.value ==> !OccursAt(haystack, needle, j)
    ensures r.None? ==> forall j :: from <= j ==> !OccursAt(haystack, needle, j)
    decreases |haystack| - from
  {
    if from + |needle| > |haystack| then None
    else if haystack[from..from + |needle|] == needle then Some(from)
    else StrPosFrom(haystack, needle, from + 1)
  }

  /** `strpos($haystack, $needle)`. */
  function StrPos(haystack: string, needle: string): (r: Option<nat>)
    ensures r.Some? ==> OccursAt(haystack, needle, r.value)
    ensures r.Some? ==> forall j :: 0 <= j < r.value ==> !OccursAt(haystack, needle, j)
    ensures r.None? ==> forall j :: 0 <= j ==> !OccursAt(haystack, needle, j)
  {
    StrPosFrom(haystack, needle, 0)
  }

  /** The idiom `strpos($s, $prefix) === 0` is exactly a prefix test. */
  lemma StrPosZeroIsPrefix(s: string, prefix: string)
    ensures StrPos(s, prefix) == Some(0) <==> StartsWith(s, prefix)
  {
    if StartsWith(s, prefix) {
      assert s[0..|prefix|] == prefix;
      assert OccursAt(s, prefix, 0);
    }
  }

  /**
   * `substr($s, -$n)` for `n >= 0`: the last `n` characters. PHP clamps a start before the
   * beginning to 0, and `-0` is the start 0, so `n == 0` gives the whole string.
   */
  function SubstrLast(s: string, n: nat): (r: string)
    ensures |r| == if 0 < n <= |s| then n else |s|
    ensures EndsWith(s, r)
  {
    if n == 0 || n > |s| then s else s[|s| - n..]
  }

  /**
   * The idiom `substr($s, -strlen($suffix)) === $suffix` is a suffix test for a non-empty
   * `$suffix`; for `""` it holds only on `""`, since `substr($s, -0)` is all of `$s`.
   */
  lemma SubstrLastIsSuffix(s: string, suffix: string)
    ensures suffix != "" ==> (SubstrLast(s, |suffix|) == suffix <==> EndsWith(s, suffix))
    ensures suffix == "" ==> (SubstrLast(s, |suffix|) == suffix <==> s == "")
  {
  }

  /** PHP's `empty()` applied to a string: `""` and `"0"`, and no longer string. */
  function IsEmpty(s: string): (r: bool)
    ensures s == "" ==> r
    ensures r ==> |s| <= 1
    ensures |s| == 1 ==> (r <==> s[0] == '0')
  {
    s == "" || s == "0"
  }
}
