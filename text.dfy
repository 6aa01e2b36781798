// The two string operations the keyword classifiers use: `str.lower()`
// and the substring test `kw in text`.
module Text {
  /** `str.lower()` on ASCII letters; every other character is kept. */
  function Lower(s: string): (r: string)
    ensures |r| == |s|
    ensures forall i :: 0 <= i < |s| ==> r[i] == LowerChar(s[i])
  {
    if s == [] then [] else [LowerChar(s[0])] + Lower(s[1..])
  }

  function LowerChar(c: char): (r: char)
    ensures 'A' <= c <= 'Z' ==> r as int == c as int + 32
    ensures !('A' <= c <= 'Z') ==> r == c
  {
    if 'A' <= c <= 'Z' then (c as int + 32) as char else c
  }

  /** `kw in text`, searched from the left. */
  function Contains(text: string, kw: string): bool
  {
    |kw| <= |text| && (text[..|kw|] == kw || Contains(text[1..], kw))
  }

  /** `kw` sits in `text` starting at position `i`. */
  predicate OccursAt(text: string, kw: string, i: int)
  {
    0 <= i <= |text| - |kw| && text[i..i + |kw|] == kw
  }

  /** The search finds `kw` exactly when it occurs at some position of `text`. */
  lemma {:induction false} ContainsIffOccurs(text: string, kw: string)
    ensures Contains(text, kw) <==> exists i :: OccursAt(text, kw, i)
  {
    if Contains(text, kw) {
      var i := ContainsFindsOccurrence(text, kw);
      assert OccursAt(text, kw, i);
    }
    forall i | OccursAt(text, kw, i)
      ensures Contains(text, kw)
    {
      OccurrenceIsFound(text, kw, i);
    }
  }

  /** A successful search stops at an occurrence. */
  lemma {:induction false} ContainsFindsOccurrence(text: string, kw: string) returns (i: int)
    requires Contains(text, kw)
    ensures OccursAt(text, kw, i)
    decreases |text|
  {
    if text[..|kw|] == kw {
      i := 0;
    } else {
      var j := ContainsFindsOccurrence(text[1..], kw);
      SliceOfTail(text, j + 1, |kw|);
      i := j + 1;
    }
  }

  /** The search does not miss an occurrence. */
  lemma {:induction false} OccurrenceIsFound(text: string, kw: string, i: int)
    requires OccursAt(text, kw, i)
    ensures Contains(text, kw)
    decreases i
  {
    if i > 0 {
      SliceOfTail(text, i, |kw|);
      OccurrenceIsFound(text[1..], kw, i - 1);
    }
  }

  /** A slice of the text starting at i >= 1 is the slice of its tail starting at i - 1. */
  lemma SliceOfTail(text: string, i: int, n: int)
    requires 1 <= i && 0 <= n && i + n <= |text|
    ensures text[i..i + n] == text[1..][i - 1..i - 1 + n]
  {
    var a, b := text[i..i + n], text[1..][i - 1..i - 1 + n];
    assert |a| == |b|;
    forall k | 0 <= k < n ensures a[k] == b[k] {
      assert a[k] == text[i + k];
      assert b[k] == text[1..][i - 1 + k];
    }
  }
}
