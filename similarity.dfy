/**
 * Description similarity of the duplicate detector: the Levenshtein distance,
 * computed with two rolling rows, turned into a percentage of the longer
 * normalised description.
 */
module Similarity {
  import opened Common
  import opened Text

  /** Math.Min */
  function Min(a: int, b: int): int {
    if a <= b then a else b
  }

  /**
   * The unit-cost edit distance (insertions, deletions, substitutions) between s and t,
   * by the recurrence on their last characters that the two-row algorithm follows.
   */
  function EditDistance(s: string, t: string): nat
    decreases |s| + |t|
  {
    if |s| == 0 then |t|
    else if |t| == 0 then |s|
    else
      var cost := if s[|s| - 1] == t[|t| - 1] then 0 else 1;
      Min(Min(EditDistance(s, t[..|t| - 1]) + 1, EditDistance(s[..|s| - 1], t) + 1),
          EditDistance(s[..|s| - 1], t[..|t| - 1]) + cost)
  }

  /** The distance never exceeds the longer length: substitute the overlap, insert or delete the rest. */
  lemma {:induction false} EditDistanceAtMostLonger(s: string, t: string)
    ensures EditDistance(s, t) <= Max(|s|, |t|)
    decreases |s| + |t|
  {
    if |s| > 0 && |t| > 0 {
      EditDistanceAtMostLonger(s[..|s| - 1], t[..|t| - 1]);
    }
  }

  /** The distance is at least the difference of the lengths. */
  lemma {:induction false} EditDistanceAtLeastLengthGap(s: string, t: string)
    ensures EditDistance(s, t) >= |s| - |t| && EditDistance(s, t) >= |t| - |s|
    decreases |s| + |t|
  {
    if |s| > 0 && |t| > 0 {
      EditDistanceAtLeastLengthGap(s, t[..|t| - 1]);
      EditDistanceAtLeastLengthGap(s[..|s| - 1], t);
      EditDistanceAtLeastLengthGap(s[..|s| - 1], t[..|t| - 1]);
    }
  }

  /** The distance is zero exactly for equal strings. */
  lemma {:induction false} EditDistanceZeroIffEqual(s: string, t: string)
    ensures EditDistance(s, t) == 0 <==> s == t
    decreases |s| + |t|
  {
    if |s| > 0 && |t| > 0 {
      var s', t' := s[..|s| - 1], t[..|t| - 1];
      EditDistanceZeroIffEqual(s', t');
      assert s == s' + [s[|s| - 1]] && t == t' + [t[|t| - 1]];
      if s == t {
        assert s' == t';
      }
    }
  }

  /** The distance does not depend on the order of its arguments. */
  lemma {:induction false} EditDistanceSymmetric(s: string, t: string)
    ensures EditDistance(s, t) == EditDistance(t, s)
    decreases |s| + |t|
  {
    if |s| > 0 && |t| > 0 {
      EditDistanceSymmetric(s, t[..|t| - 1]);
      EditDistanceSymmetric(s[..|s| - 1], t);
      EditDistanceSymmetric(s[..|s| - 1], t[..|t| - 1]);
    }
  }

  /** One cell of the distance table, from its left, upper and upper-left neighbours. */
  /** Cell (i, k) of the distance table: the distance between the first i and the first k characters. */
  ghost function TableCell(s1: string, s2: string, i: nat, k: nat): nat
    requires i <= |s1| && k <= |s2|
  {
    EditDistance(s1[..i], s2[..k])
  }

  lemma EditDistanceCell(s1: string, s2: string, i: nat, j: nat)
    requires 1 <= i <= |s1| && 1 <= j <= |s2|
    ensures TableCell(s1, s2, i, j)
      == Min(Min(TableCell(s1, s2, i, j - 1) + 1, TableCell(s1, s2, i - 1, j) + 1),
             TableCell(s1, s2, i - 1, j - 1) + (if s1[i - 1] == s2[j - 1] then 0 else 1))
  {
    assert s1[..i][..i - 1] == s1[..i - 1];
    assert s2[..j][..j - 1] == s2[..j - 1];
  }

  /**
   * CalculateLevenshteinDistance: the classic dynamic programme keeping only the
   * previous and the current row of the distance table.
   */
  method CalculateLevenshteinDistance(s1: string, s2: string) returns (distance: int)
    ensures distance == EditDistance(s1, s2)
  {
    var n := |s1|;
    var m := |s2|;
    if n == 0 {
      return m;
    }
    if m == 0 {
      return n;
    }
    var previousRow := new int[m + 1];
    var j := 0;
    while j <= m
      invariant 0 <= j <= m + 1
      invariant forall k :: 0 <= k < j ==> previousRow[k] == TableCell(s1, s2, 0, k)
    {
      previousRow[j] := j;
      j := j + 1;
    }
    var i := 1;
    while i <= n
      invariant 1 <= i <= n + 1
      invariant previousRow.Length == m + 1
      invariant forall k :: 0 <= k <= m ==> previousRow[k] == TableCell(s1, s2, i - 1, k)
    {
      previousRow := NextRow(s1, s2, i, previousRow);
      i := i + 1;
    }
    distance := previousRow[m];
    assert s1[..n] == s1 && s2[..m] == s2;
  }

  /** Row i of the distance table, computed left to right from row i - 1. */
  method NextRow(s1: string, s2: string, i: nat, previousRow: array<int>) returns (currentRow: array<int>)
    requires 1 <= i <= |s1| && previousRow.Length == |s2| + 1
    requires forall k :: 0 <= k <= |s2| ==> previousRow[k] == TableCell(s1, s2, i - 1, k)
    ensures fresh(currentRow) && currentRow.Length == |s2| + 1
    ensures forall k :: 0 <= k <= |s2| ==> currentRow[k] == TableCell(s1, s2, i, k)
  {
    var m := |s2|;
    currentRow := new int[m + 1];
    currentRow[0] := i;
    var j := 1;
    while j <= m
      invariant 1 <= j <= m + 1
      invariant forall k :: 0 <= k < j ==> currentRow[k] == TableCell(s1, s2, i, k)
    {
      var cost := if s1[i - 1] == s2[j - 1] then 0 else 1;
      EditDistanceCell(s1, s2, i, j);
      currentRow[j] := Min(Min(currentRow[j - 1] + 1, previousRow[j] + 1), previousRow[j - 1] + cost);
      j := j + 1;
    }
  }

  /** A value rounds to at least 80 exactly when it is at least 79.5 (79 being odd, 79.5 goes up). */
  lemma RoundHalfEvenAtLeast80(x: real)
    ensures RoundHalfEven(x) >= 80 <==> x >= 79.5
  {
  }

  /** (1 - distance / maxLength) * 100, the unrounded similarity. */
  function Percent(distance: int, maxLength: int): real
    requires maxLength > 0
  {
    (1.0 - distance as real / maxLength as real) * 100.0
  }

  lemma PercentTimesLength(distance: int, maxLength: int)
    requires maxLength > 0
    ensures Percent(distance, maxLength) * maxLength as real == 100.0 * (maxLength - distance) as real
  {
    var q := distance as real / maxLength as real;
    assert q * maxLength as real == distance as real;
  }

  lemma PercentWithin(distance: int, maxLength: int)
    requires 0 <= distance <= maxLength && maxLength > 0
    ensures 0.0 <= Percent(distance, maxLength) <= 100.0
  {
    PercentTimesLength(distance, maxLength);
    var p, m := Percent(distance, maxLength), maxLength as real;
    assert p * m == 100.0 * (m - distance as real);
  }

  /** The normalised form compared by the detector: trimmed and lower-cased. */
  function Normalize(description: string): string {
    ToLowerInvariant(Trim(description))
  }

  /**
   * CalculateDescriptionSimilarity: 0 when either description is missing, 100 when
   * the normalised descriptions are equal, and otherwise the share of the longer
   * normalised description that needs no edit, as a rounded percentage.
   */
  function DescriptionSimilarity(description1: string, description2: string): (r: int)
    ensures 0 <= r <= 100
  {
    if description1 == [] || description2 == [] then 0
    else
      var s1 := Normalize(description1);
      var s2 := Normalize(description2);
      if s1 == s2 then 100
      else
        var distance := EditDistance(s1, s2);
        var maxLength := Max(|s1|, |s2|);
        if maxLength == 0 then 100
        else
          EditDistanceAtMostLonger(s1, s2);
          PercentWithin(distance, maxLength);
          RoundHalfEvenWithin(Percent(distance, maxLength), 0, 100);
          RoundHalfEven(Percent(distance, maxLength))
  }

  /** The executable form, running the two-row distance computation. */
  method CalculateDescriptionSimilarity(description1: string, description2: string) returns (similarity: int)
    ensures similarity == DescriptionSimilarity(description1, description2)
  {
    if description1 == [] || description2 == [] {
      return 0;
    }
    var s1 := Normalize(description1);
    var s2 := Normalize(description2);
    if s1 == s2 {
      return 100;
    }
    var distance := CalculateLevenshteinDistance(s1, s2);
    var maxLength := Max(|s1|, |s2|);
    if maxLength == 0 {
      return 100;
    }
    similarity := RoundHalfEven(Percent(distance, maxLength));
  }

  /** Similarity is symmetric in the two descriptions. */
  lemma DescriptionSimilaritySymmetric(description1: string, description2: string)
    ensures DescriptionSimilarity(description1, description2) == DescriptionSimilarity(description2, description1)
  {
    EditDistanceSymmetric(Normalize(description1), Normalize(description2));
  }

  /** Two present descriptions that differ only in case and surrounding white space are a full match. */
  lemma FullMatchWhenNormalisedEqual(description1: string, description2: string)
    requires description1 != [] && description2 != []
    requires Normalize(description1) == Normalize(description2)
    ensures DescriptionSimilarity(description1, description2) == 100
  {
  }

  /** Two present descriptions made only of white space are a full match. */
  lemma BlankDescriptionsMatchFully(description1: string, description2: string)
    requires description1 != [] && description2 != []
    requires IsBlank(description1) && IsBlank(description2)
    ensures DescriptionSimilarity(description1, description2) == 100
  {
    TrimEmptyIffBlank(description1);
    TrimEmptyIffBlank(description2);
  }

  /** A missing or empty description scores 0, whatever it is compared with. */
  lemma EmptyDescriptionScoresZero(description: string)
    ensures DescriptionSimilarity([], description) == 0
    ensures DescriptionSimilarity(description, []) == 0
  {
  }

  /** A present description made only of white space shares nothing with one that has text. */
  lemma BlankAgainstTextIsZero(description1: string, description2: string)
    requires description1 != [] && IsBlank(description1) && !IsBlank(description2)
    ensures DescriptionSimilarity(description1, description2) == 0
  {
    TrimEmptyIffBlank(description1);
    TrimEmptyIffBlank(description2);
    var s1, s2 := Normalize(description1), Normalize(description2);
    assert s1 == [] && |s2| > 0;
    assert EditDistance(s1, s2) == |s2|;
    assert Max(|s1|, |s2|) == |s2|;
    NothingInCommon(|s2|);
  }

  /** A distance as long as the longer text leaves no similarity. */
  lemma NothingInCommon(length: int)
    requires length > 0
    ensures RoundHalfEven(Percent(length, length)) == 0
  {
    PercentTimesLength(length, length);
    assert Percent(length, length) == 0.0;
  }

  /**
   * When the normalised descriptions differ, the similarity reaches the detector's
   * threshold of 80 exactly when 200 * distance <= 41 * (longer length), that is when
   * at most 20.5% of the longer description has to be edited.
   */
  lemma SimilarAtThresholdIff(description1: string, description2: string)
    requires description1 != [] && description2 != []
    requires Normalize(description1) != Normalize(description2)
    ensures var s1, s2 := Normalize(description1), Normalize(description2);
      DescriptionSimilarity(description1, description2) >= 80
      <==> 200 * EditDistance(s1, s2) <= 41 * Max(|s1|, |s2|)
  {
    var s1, s2 := Normalize(description1), Normalize(description2);
    var d, m := EditDistance(s1, s2), Max(|s1|, |s2|);
    RoundHalfEvenAtLeast80(Percent(d, m));
    PercentAtLeastThreshold(d, m);
  }

  lemma PercentAtLeastThreshold(distance: int, maxLength: int)
    requires maxLength > 0
    ensures Percent(distance, maxLength) >= 79.5 <==> 200 * distance <= 41 * maxLength
  {
    PercentTimesLength(distance, maxLength);
    var p, m := Percent(distance, maxLength), maxLength as real;
    ScaleByPositive(p, 79.5, m);
    assert p * m == 100.0 * (maxLength - distance) as real;
    assert 79.5 * m == 79.5 * maxLength as real;
  }

  /** Multiplying both sides by a positive number keeps their order. */
  lemma ScaleByPositive(x: real, y: real, m: real)
    requires m > 0.0
    ensures x >= y <==> x * m >= y * m
  {
    if x >= y {
      assert x * m - y * m == (x - y) * m;
    } else {
      assert y * m - x * m == (y - x) * m;
    }
  }

  /**
   * Below 200 characters a single difference is visible: the similarity is 100
   * exactly when the normalised descriptions are equal.
   */
  lemma FullMatchIffEqualWhenShort(description1: string, description2: string)
    requires description1 != [] && description2 != []
    requires |Normalize(description1)| < 200 && |Normalize(description2)| < 200
    ensures DescriptionSimilarity(description1, description2) == 100 <==> Normalize(description1) == Normalize(description2)
  {
    var s1, s2 := Normalize(description1), Normalize(description2);
    if s1 != s2 {
      EditDistanceZeroIffEqual(s1, s2);
      var d, m := EditDistance(s1, s2), Max(|s1|, |s2|);
      PercentBelowFull(d, m);
      assert DescriptionSimilarity(description1, description2) == RoundHalfEven(Percent(d, m));
    }
  }

  lemma PercentBelowFull(distance: int, maxLength: int)
    requires 1 <= distance && 0 < maxLength < 200
    ensures Percent(distance, maxLength) < 99.5
    ensures RoundHalfEven(Percent(distance, maxLength)) < 100
  {
    PercentTimesLength(distance, maxLength);
    var p, m := Percent(distance, maxLength), maxLength as real;
  }
}
