/** `strings.ToLower`, as the astro cache uses it to fold the location into the cache key. */
module Text {

  /** The lower-case form of an ASCII letter; every other character is left as it is. */
  function LowerChar(c: char): char {
    if 'A' <= c <= 'Z' then (c as int + ('a' as int - 'A' as int)) as char else c
  }

  /** `strings.ToLower`, character by character. */
  function ToLower(s: string): (r: string)
    ensures |r| == |s|
    ensures forall i :: 0 <= i < |s| ==> r[i] == LowerChar(s[i])
  {
    if s == [] then [] else [LowerChar(s[0])] + ToLower(s[1..])
  }

  /** `a` and `b` spell the same letters, ignoring ASCII case. */
  predicate SameUpToCase(a: string, b: string) {
    |a| == |b| && forall i :: 0 <= i < |a| ==> LowerChar(a[i]) == LowerChar(b[i])
  }

  /** Two strings lower-case to the same string exactly when they differ only in letter case. */
  lemma LowerEqualIffSameUpToCase(a: string, b: string)
    ensures ToLower(a) == ToLower(b) <==> SameUpToCase(a, b)
  {
    if SameUpToCase(a, b) {
      assert forall i :: 0 <= i < |a| ==> ToLower(a)[i] == ToLower(b)[i];
    }
    if ToLower(a) == ToLower(b) {
      assert forall i :: 0 <= i < |a| ==> LowerChar(a[i]) == ToLower(a)[i] == ToLower(b)[i] == LowerChar(b[i]);
    }
  }
}
