/**
 * The byte-array comparison of `ByteArrayExtensions.EqualsEx`: two arrays are
 * equal when their lengths agree and every index holds the same byte.
 */
module ByteArrays {
  import opened ClrTypes

  /**
   * `Enumerable.Range(from, |s1| - from).All(i => s1[i] == s2[i])`: every
   * index from `from` up to the end holds the same byte in both sequences.
   * The source evaluates the range in parallel; the answer does not depend
   * on the order, so it is evaluated here from left to right.
   */
  function AllEqualFrom(s1: seq<byte>, s2: seq<byte>, from: nat): (r: bool)
    requires |s1| == |s2| && from <= |s1|
    decreases |s1| - from
  {
    from == |s1| || (s1[from] == s2[from] && AllEqualFrom(s1, s2, from + 1))
  }

  lemma {:induction false} AllEqualFromMeansSameSuffix(s1: seq<byte>, s2: seq<byte>, from: nat)
    requires |s1| == |s2| && from <= |s1|
    ensures AllEqualFrom(s1, s2, from) <==> s1[from..] == s2[from..]
    decreases |s1| - from
  {
    if from < |s1| {
      AllEqualFromMeansSameSuffix(s1, s2, from + 1);
      assert s1[from..] == [s1[from]] + s1[from + 1..];
      assert s2[from..] == [s2[from]] + s2[from + 1..];
      if s1[from..] == s2[from..] {
        assert s1[from] == s1[from..][0] == s2[from..][0] == s2[from];
        assert s1[from + 1..] == s1[from..][1..] == s2[from..][1..] == s2[from + 1..];
      }
    }
  }

  /**
   * The expression `a1.Length == a2.Length && Range(0, a1.Length).All(...)`
   * on the arrays' contents. It decides sequence equality.
   */
  function BytesEqual(s1: seq<byte>, s2: seq<byte>): (r: bool)
    ensures r <==> s1 == s2
  {
    |s1| == |s2| && (AllEqualFromMeansSameSuffix(s1, s2, 0); AllEqualFrom(s1, s2, 0))
  }

  /**
   * `a1.EqualsEx(a2)`. Both arrays are non-null (the source dereferences
   * both lengths) and neither is modified.
   */
  method EqualsEx(a1: array<byte>, a2: array<byte>) returns (equal: bool)
    ensures equal <==> a1.Length == a2.Length && forall i :: 0 <= i < a1.Length ==> a1[i] == a2[i]
    ensures equal == BytesEqual(a1[..], a2[..])
  {
    if a1.Length != a2.Length {
      return false;
    }
    var i := 0;
    while i < a1.Length
      invariant 0 <= i <= a1.Length
      invariant forall k :: 0 <= k < i ==> a1[k] == a2[k]
    {
      if a1[i] != a2[i] {
        return false;
      }
      i := i + 1;
    }
    assert a1[..] == a2[..];
    return true;
  }

  lemma EqualsExIsReflexive(s: seq<byte>)
    ensures BytesEqual(s, s)
  {}

  lemma EqualsExIsSymmetric(s1: seq<byte>, s2: seq<byte>)
    ensures BytesEqual(s1, s2) == BytesEqual(s2, s1)
  {}

  lemma DifferentLengthsAreNeverEqual(s1: seq<byte>, s2: seq<byte>)
    requires |s1| != |s2|
    ensures !BytesEqual(s1, s2)
  {}

  lemma EmptyArraysAreEqual(s1: seq<byte>, s2: seq<byte>)
    requires |s1| == 0 && |s2| == 0
    ensures BytesEqual(s1, s2)
  {}
}
