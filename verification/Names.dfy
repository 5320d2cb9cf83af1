/** C string comparison: strcmp and strcasecmp on request and service names. */
module Names {

  /** The letter in lower case; only ASCII letters have case. */
  function FoldChar(c: char): char {
    if 'A' <= c <= 'Z' then 'a' + (c - 'A') else c
  }

  /** strcasecmp(a, b) == 0 */
  predicate Same(a: string, b: string) {
    |a| == |b| && forall i :: 0 <= i < |a| ==> FoldChar(a[i]) == FoldChar(b[i])
  }

  /** Names are the same if they differ in the case of letters at most. */
  lemma SameMeaning(a: string, b: string)
    ensures Same(a, b) <==>
      |a| == |b| && forall i :: 0 <= i < |a| ==>
        || a[i] == b[i]
        || ('A' <= a[i] <= 'Z' && b[i] as int == a[i] as int + 32)
        || ('A' <= b[i] <= 'Z' && a[i] as int == b[i] as int + 32)
  {
  }

  lemma SameIsAnEquivalence(a: string, b: string, c: string)
    ensures Same(a, a)
    ensures Same(a, b) ==> Same(b, a)
    ensures Same(a, b) && Same(b, c) ==> Same(a, c)
  {
  }
}
