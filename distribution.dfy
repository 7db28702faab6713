/**
 * The grade-distribution report: every grade is mapped to its score, the
 * scores are binned by `pd.cut` into five labelled buckets and the buckets are
 * counted (`value_counts`).
 */
module Distribution {
  import opened Wrappers
  import opened GradeScale
  import opened Aggregation

  /** How many grades are exactly the string l. */
  function Occurrences(gs: seq<string>, l: string): nat {
    if gs == [] then 0 else (if gs[0] == l then 1 else 0) + Occurrences(gs[1..], l)
  }

  /** How many grades the map recognises (the others are NaN, and value_counts drops NaN). */
  function Recognised(gs: seq<string>): nat {
    if gs == [] then 0 else (if gs[0] in GradeMap then 1 else 0) + Recognised(gs[1..])
  }

  /** The category `pd.cut` gives one grade: the bin of its score, None for NaN. */
  function CategoryOf(g: string): (r: Option<string>)
    ensures r.Some? <==> g in GradeMap
    ensures r.Some? ==> r.value == g
  {
    if g in GradeMap then CategoryOfScore(g); Category(GradeMap[g]) else
    match NumericGrade(g)
    case None => None
    case Some(v) => Category(v)
  }

  /** How many grades `pd.cut` puts into the bucket labelled l. */
  function BucketCount(gs: seq<string>, l: string): (n: nat)
    ensures n <= Recognised(gs)
    ensures l !in Labels ==> n == 0
  {
    if gs == [] then 0 else (if CategoryOf(gs[0]) == Some(l) then 1 else 0) + BucketCount(gs[1..], l)
  }

  /**
   * `grade_distribution`: the message when there are no grades; otherwise a
   * map from bucket label to count.  Each label that is present counts the
   * grades whose letter is that label, and every letter that occurs is present.
   * Whether labels with count 0 are present is left open.
   */
  function GradeDistribution(gs: seq<string>): (r: Report<map<string, nat>>)
    ensures r.NoGrades? <==> gs == []
    ensures r.Data? ==> forall l :: l in r.value ==> l in Labels && r.value[l] == Occurrences(gs, l)
    ensures r.Data? ==> forall l :: l in Labels && Occurrences(gs, l) > 0 ==> l in r.value
  {
    if gs == [] then NoGrades
    else
      BucketCountIsOccurrences(gs);
      Data(map l | l in Labels :: BucketCount(gs, l))
  }

  /** A bucket's count is the number of grades with that bucket's letter. */
  lemma {:induction false} BucketCountIsOccurrences(gs: seq<string>)
    ensures forall l :: l in Labels ==> BucketCount(gs, l) == Occurrences(gs, l)
  {
    if gs != [] {
      BucketCountIsOccurrences(gs[1..]);
      if gs[0] in GradeMap {
        CategoryOfScore(gs[0]);
      }
    }
  }

  /** The count of label l in a distribution, 0 when l is absent. */
  function CountOf(d: map<string, nat>, l: string): nat {
    if l in d then d[l] else 0
  }

  /** The sum of the counts over the five labels. */
  function Total(d: map<string, nat>): nat {
    CountOf(d, "F") + CountOf(d, "D") + CountOf(d, "C") + CountOf(d, "B") + CountOf(d, "A")
  }

  lemma {:induction false} OccurrencesAddUp(gs: seq<string>)
    ensures Occurrences(gs, "F") + Occurrences(gs, "D") + Occurrences(gs, "C")
          + Occurrences(gs, "B") + Occurrences(gs, "A") == Recognised(gs)
  {
    if gs != [] {
      OccurrencesAddUp(gs[1..]);
    }
  }

  /** The counts of a distribution add up to the number of recognised grades. */
  lemma DistributionTotal(gs: seq<string>)
    requires gs != []
    ensures Total(GradeDistribution(gs).value) == Recognised(gs)
  {
    var d := GradeDistribution(gs).value;
    OccurrencesAddUp(gs);
    forall l | l in Labels ensures CountOf(d, l) == Occurrences(gs, l) {
    }
    assert "F" in Labels && "D" in Labels && "C" in Labels && "B" in Labels && "A" in Labels;
  }

  /** Letters A, A, B, F give A:2, B:1, F:1, and no C or D grade. */
  lemma DistributionExample()
    ensures var d := GradeDistribution(["A", "A", "B", "F"]).value;
      CountOf(d, "A") == 2 && CountOf(d, "B") == 1 && CountOf(d, "F") == 1
      && CountOf(d, "C") == 0 && CountOf(d, "D") == 0
  {
    var gs := ["A", "A", "B", "F"];
    assert gs[1..] == ["A", "B", "F"] && gs[2..] == ["B", "F"] && gs[3..] == ["F"];
    assert gs[1..][1..] == gs[2..] && gs[2..][1..] == gs[3..] && gs[3..][1..] == [];
    assert Occurrences(gs[3..], "A") == 0 && Occurrences(gs[3..], "B") == 0 && Occurrences(gs[3..], "F") == 1;
    assert Occurrences(gs[2..], "A") == 0 && Occurrences(gs[2..], "B") == 1 && Occurrences(gs[2..], "F") == 1;
    assert Occurrences(gs[1..], "A") == 1 && Occurrences(gs[1..], "B") == 1 && Occurrences(gs[1..], "F") == 1;
    assert Occurrences(gs, "A") == 2 && Occurrences(gs, "B") == 1 && Occurrences(gs, "F") == 1;
    assert Occurrences(gs[3..], "C") == 0 && Occurrences(gs[3..], "D") == 0;
    assert Occurrences(gs[2..], "C") == 0 && Occurrences(gs[2..], "D") == 0;
    assert Occurrences(gs[1..], "C") == 0 && Occurrences(gs[1..], "D") == 0;
    assert Occurrences(gs, "C") == 0 && Occurrences(gs, "D") == 0;
    assert "F" in Labels && "D" in Labels && "C" in Labels && "B" in Labels && "A" in Labels;
  }
}
