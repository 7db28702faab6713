/**
 * The three fixed tables of the reporting code: the letter-to-score map
 * `grade_map`, the thresholds that turn an average back into a letter, and
 * the bins and labels of the grade distribution.  They are defined
 * independently, as in the source, and the lemmas at the end tie them together.
 */
module GradeScale {
  import opened Wrappers

  /** `grade_map`: letter grade to numeric score. */
  const GradeMap: map<string, int> := map["A" := 95, "B" := 85, "C" := 75, "D" := 65, "F" := 50]

  /** The labels of the distribution, lowest bin first. */
  const Labels: seq<string> := ["F", "D", "C", "B", "A"]

  /** The bin edges of the distribution; bin k is (Bins[k], Bins[k+1]], the first also holds Bins[0]. */
  const Bins: seq<int> := [0, 60, 70, 80, 90, 100]

  /**
   * `df["grade"].map(grade_map)` on one value: the score of a recognised
   * letter, or None (pandas NaN) for any other string.
   */
  function NumericGrade(g: string): (r: Option<int>)
    ensures r.Some? <==> g in Labels
    ensures r.Some? ==> 50 <= r.value <= 95
  {
    if g in GradeMap then Some(GradeMap[g]) else None
  }

  /**
   * The mean of a group of scores, kept exact as the pair (sum, count).
   * A group with no recognised score has count 0: that is pandas' NaN mean.
   */
  datatype Mean = Mean(sum: int, count: nat)
  {
    predicate IsNaN() { count == 0 }

    /** `mean >= t`; false for NaN, as every comparison with NaN is. */
    predicate AtLeast(t: int) { count > 0 && sum >= t * count }

    /** The mean is exactly the number v. */
    predicate Is(v: int) { count > 0 && sum == v * count }
  }

  /**
   * "Ranks at least as high as" for `sort_values(ascending=False)`:
   * a larger mean first, NaN means last (pandas' default na_position).
   */
  predicate Ge(a: Mean, b: Mean): (r: bool)
    ensures !a.IsNaN() && !b.IsNaN() ==> (r <==> a.sum as real / a.count as real >= b.sum as real / b.count as real)
    ensures a.IsNaN() ==> (r <==> b.IsNaN())
  {
    CrossMultiply(a, b);
    if b.IsNaN() then true
    else if a.IsNaN() then false
    else a.sum * b.count >= b.sum * a.count
  }

  /** Comparing two exact means by clearing their denominators. */
  lemma CrossMultiply(a: Mean, b: Mean)
    ensures !a.IsNaN() && !b.IsNaN() ==>
      (a.sum * b.count >= b.sum * a.count <==> a.sum as real / a.count as real >= b.sum as real / b.count as real)
  {
    if !a.IsNaN() && !b.IsNaN() {
      var p, q := a.count as real, b.count as real;
      var x, y := a.sum as real / p, b.sum as real / q;
      assert x * p == a.sum as real && y * q == b.sum as real;
      assert (a.sum * b.count) as real == x * p * q;
      assert (b.sum * a.count) as real == y * q * p;
      assert x * p * q - y * q * p == (x - y) * (p * q);
      assert p * q > 0.0;
    }
  }

  /** The letter lambda of the top-students report: >=90 A, >=80 B, >=70 C, >=60 D, else F. */
  function LetterOf(m: Mean): (r: string)
    ensures r in Labels
    ensures r == "A" <==> m.AtLeast(90)
    ensures r == "B" <==> m.AtLeast(80) && !m.AtLeast(90)
    ensures r == "C" <==> m.AtLeast(70) && !m.AtLeast(80)
    ensures r == "D" <==> m.AtLeast(60) && !m.AtLeast(70)
    ensures r == "F" <==> !m.AtLeast(60)
  {
    if m.AtLeast(90) then "A"
    else if m.AtLeast(80) then "B"
    else if m.AtLeast(70) then "C"
    else if m.AtLeast(60) then "D"
    else "F"
  }

  /** Position of a label in `Labels`: a higher position is a better letter. */
  function LabelRank(l: string): (k: int)
    ensures l in Labels ==> 0 <= k < |Labels| && Labels[k] == l
    ensures l !in Labels ==> k == -1
  {
    if l == "F" then 0 else if l == "D" then 1 else if l == "C" then 2
    else if l == "B" then 3 else if l == "A" then 4 else -1
  }

  /** Whether x falls into bin k of `pd.cut(..., bins=Bins, include_lowest=True)`. */
  predicate InBin(x: int, k: nat)
    requires k + 1 < |Bins|
  {
    (Bins[k] < x || (k == 0 && x == Bins[0])) && x <= Bins[k + 1]
  }

  /** The first bin at or after k that holds x, searched left to right. */
  function FindBin(x: int, k: nat): (r: Option<nat>)
    requires k + 1 <= |Bins|
    ensures r.Some? ==> k <= r.value && r.value + 1 < |Bins| && InBin(x, r.value)
    ensures r.None? <==> forall j: nat :: k <= j && j + 1 < |Bins| ==> !InBin(x, j)
    decreases |Bins| - k
  {
    if k + 1 == |Bins| then None
    else if InBin(x, k) then Some(k)
    else FindBin(x, k + 1)
  }

  /** `pd.cut` on one value: the label of its bin, or None outside [0, 100]. */
  function Category(x: int): (r: Option<string>)
    ensures r.None? <==> x < Bins[0] || Bins[|Bins| - 1] < x
    ensures r.Some? ==> exists k: nat :: k + 1 < |Bins| && InBin(x, k) && r.value == Labels[k]
  {
    match FindBin(x, 0)
    case None => None
    case Some(k) => Some(Labels[k])
  }

  /** The bins written out: [0,60] F, (60,70] D, (70,80] C, (80,90] B, (90,100] A. */
  lemma CategoryIntervals(x: int)
    ensures Category(x) == Some("F") <==> 0 <= x <= 60
    ensures Category(x) == Some("D") <==> 60 < x <= 70
    ensures Category(x) == Some("C") <==> 70 < x <= 80
    ensures Category(x) == Some("B") <==> 80 < x <= 90
    ensures Category(x) == Some("A") <==> 90 < x <= 100
  {
    assert FindBin(x, 4) == (if 90 < x <= 100 then Some(4) else None);
    assert FindBin(x, 3) == (if 80 < x <= 90 then Some(3) else FindBin(x, 4));
    assert FindBin(x, 2) == (if 70 < x <= 80 then Some(2) else FindBin(x, 3));
    assert FindBin(x, 1) == (if 60 < x <= 70 then Some(1) else FindBin(x, 2));
    assert FindBin(x, 0) == (if 0 <= x <= 60 then Some(0) else FindBin(x, 1));
  }

  /** Every mapped score lands in the bin labelled with its own letter. */
  lemma CategoryOfScore(g: string)
    requires g in GradeMap
    ensures NumericGrade(g).Some? && Category(NumericGrade(g).value) == Some(g)
  {
    CategoryIntervals(GradeMap[g]);
  }

  /**
   * The thresholds give back the letter of a uniform group: a student whose
   * n > 0 recognised grades are all g has mean GradeMap[g] and letter g.
   */
  lemma {:induction false} LetterOfUniform(g: string, n: nat)
    requires g in GradeMap && n > 0
    ensures Mean(GradeMap[g] * n, n).Is(GradeMap[g])
    ensures LetterOf(Mean(GradeMap[g] * n, n)) == g
  {
    var v := GradeMap[g];
    var m := Mean(v * n, n);
    ScaledCompare(v, 90, n);
    ScaledCompare(v, 80, n);
    ScaledCompare(v, 70, n);
    ScaledCompare(v, 60, n);
  }

  /** v * n >= t * n exactly when v >= t, for n > 0. */
  lemma ScaledCompare(v: int, t: int, n: nat)
    requires n > 0
    ensures v * n >= t * n <==> v >= t
  {
    if v >= t {
      assert v * n - t * n == (v - t) * n;
    } else {
      assert t * n - v * n == (t - v) * n;
    }
  }

  /** "Ranks at least as high" is total: any two means can be ordered. */
  lemma GeTotal(a: Mean, b: Mean)
    ensures Ge(a, b) || Ge(b, a)
  {
    assert a.sum * b.count == b.count * a.sum;
    assert b.sum * a.count == a.count * b.sum;
  }

  /** "Ranks at least as high" is transitive. */
  lemma GeTransitive(a: Mean, b: Mean, c: Mean)
    requires Ge(a, b) && Ge(b, c)
    ensures Ge(a, c)
  {
    if !c.IsNaN() && !a.IsNaN() {
      assert !b.IsNaN();
      // the exact means as rationals are ordered, and Ge agrees with that order
      var x, y, z := a.sum as real / a.count as real, b.sum as real / b.count as real, c.sum as real / c.count as real;
      assert x >= y && y >= z;
      CrossMultiply(a, c);
    }
  }

  /**
   * The letter is monotone in the ranking: a mean that ranks at least as high
   * never gets a worse letter.
   */
  lemma LetterOfMonotone(a: Mean, b: Mean)
    requires Ge(a, b)
    ensures LabelRank(LetterOf(a)) >= LabelRank(LetterOf(b))
  {
    forall t: int | b.AtLeast(t)
      ensures a.AtLeast(t)
    {
      GeTransitive(a, b, Mean(t, 1));
    }
  }
}
