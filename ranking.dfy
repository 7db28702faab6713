/**
 * The top-students report: the per-student means are sorted in descending
 * order (`sort_values(ascending=False)`), cut to the first three (`head(3)`)
 * and each mean is turned back into a letter.
 */
module Ranking {
  import opened GradeScale
  import opened Aggregation

  /** One row of the report: `{"student_id", "numeric_grade", "letter_grade"}`. */
  datatype TopRow = TopRow(studentId: int, mean: Mean, letter: string)

  /** How many rows `head(3)` keeps. */
  const TopCount: nat := 3

  function Min(a: int, b: int): int {
    if a <= b then a else b
  }

  /** Rows in non-increasing order of their means (NaN means last). */
  predicate Descending(s: seq<StudentMean>) {
    forall i, j :: 0 <= i < j < |s| ==> Ge(s[i].mean, s[j].mean)
  }

  /** No student occurs twice. */
  predicate DistinctStudents(s: seq<StudentMean>) {
    forall i, j :: 0 <= i < j < |s| ==> s[i].studentId != s[j].studentId
  }

  /** Inserts x into a descending list before the first row it ranks at least as high as. */
  function Insert(x: StudentMean, s: seq<StudentMean>): (r: seq<StudentMean>)
    ensures |r| == |s| + 1
    ensures multiset(r) == multiset(s) + multiset{x}
  {
    if s == [] then [x]
    else if Ge(x.mean, s[0].mean) then [x] + s
    else
      assert s == [s[0]] + s[1..];
      [s[0]] + Insert(x, s[1..])
  }

  lemma {:induction false} InsertDescending(x: StudentMean, s: seq<StudentMean>)
    requires Descending(s)
    ensures Descending(Insert(x, s))
  {
    if s == [] {
    } else if Ge(x.mean, s[0].mean) {
      forall j | 0 <= j < |s| ensures Ge(x.mean, s[j].mean) {
        if j > 0 { GeTransitive(x.mean, s[0].mean, s[j].mean); }
      }
      assert Insert(x, s) == [x] + s;
    } else {
      var rest := Insert(x, s[1..]);
      InsertDescending(x, s[1..]);
      assert Insert(x, s) == [s[0]] + rest;
      GeTotal(x.mean, s[0].mean);
      forall e | e in rest ensures Ge(s[0].mean, e.mean) {
        assert e in multiset(s[1..]) + multiset{x};
      }
    }
  }

  lemma {:induction false} InsertDistinct(x: StudentMean, s: seq<StudentMean>)
    requires DistinctStudents(s)
    requires forall k :: 0 <= k < |s| ==> s[k].studentId != x.studentId
    ensures DistinctStudents(Insert(x, s))
  {
    if s != [] && !Ge(x.mean, s[0].mean) {
      var rest := Insert(x, s[1..]);
      InsertDistinct(x, s[1..]);
      assert Insert(x, s) == [s[0]] + rest;
      forall e | e in rest ensures e.studentId != s[0].studentId {
        assert e in multiset(s[1..]) + multiset{x};
      }
    }
  }

  /** `sort_values("numeric_grade", ascending=False)` as an insertion sort. */
  function Rank(s: seq<StudentMean>): (r: seq<StudentMean>)
    ensures multiset(r) == multiset(s)
  {
    if s == [] then []
    else
      assert s == [s[0]] + s[1..];
      Insert(s[0], Rank(s[1..]))
  }

  /** The ranking is in non-increasing order of the means. */
  lemma {:induction false} RankDescending(s: seq<StudentMean>)
    ensures Descending(Rank(s))
  {
    if s != [] {
      RankDescending(s[1..]);
      InsertDescending(s[0], Rank(s[1..]));
    }
  }

  /** Ranking keeps the students distinct. */
  lemma {:induction false} RankDistinct(s: seq<StudentMean>)
    requires DistinctStudents(s)
    ensures DistinctStudents(Rank(s))
  {
    if s != [] {
      var rest := Rank(s[1..]);
      RankDistinct(s[1..]);
      forall k | 0 <= k < |rest| ensures rest[k].studentId != s[0].studentId {
        assert rest[k] in multiset(s[1..]);
      }
      InsertDistinct(s[0], rest);
    }
  }

  /** The ids of the rows of a report. */
  function ReportedIds(rows: seq<TopRow>): set<int> {
    set k | 0 <= k < |rows| :: rows[k].studentId
  }

  /**
   * What a top-three report over the means `avgs` must be: min(3, |avgs|)
   * rows of distinct students taken from `avgs`, in non-increasing order of
   * their means, each with the letter of its mean, and no student left out
   * ranks higher than a student returned.
   */
  ghost predicate IsTopReport(rows: seq<TopRow>, avgs: seq<StudentMean>) {
    && |rows| == Min(TopCount, |avgs|)
    && (forall i :: 0 <= i < |rows| ==> StudentMean(rows[i].studentId, rows[i].mean) in avgs)
    && (forall i :: 0 <= i < |rows| ==> rows[i].letter == LetterOf(rows[i].mean))
    && (forall i, j :: 0 <= i < j < |rows| ==> Ge(rows[i].mean, rows[j].mean))
    && (forall i, j :: 0 <= i < j < |rows| ==> rows[i].studentId != rows[j].studentId)
    && (forall a, i :: a in avgs && a.studentId !in ReportedIds(rows) && 0 <= i < |rows| ==> Ge(rows[i].mean, a.mean))
  }

  /** The first (at most) three rows of a ranking, each with its letter. */
  function Head(ranked: seq<StudentMean>): (rows: seq<TopRow>)
    ensures |rows| == Min(TopCount, |ranked|)
    ensures forall i :: 0 <= i < |rows| ==> rows[i] == TopRow(ranked[i].studentId, ranked[i].mean, LetterOf(ranked[i].mean))
  {
    var n := Min(TopCount, |ranked|);
    seq(n, i requires 0 <= i < n => TopRow(ranked[i].studentId, ranked[i].mean, LetterOf(ranked[i].mean)))
  }

  /** `top_students`: the message when there are no grades, otherwise a top-three report. */
  function TopStudents(rs: seq<Record>): (r: Report<seq<TopRow>>)
    ensures r.NoGrades? <==> rs == []
    ensures r.Data? ==> AverageGrades(rs).Data? && IsTopReport(r.value, AverageGrades(rs).value)
  {
    match AverageGrades(rs)
    case NoGrades => NoGrades
    case Data(avgs) =>
      var rows := Head(Rank(avgs));
      AverageRowsDistinct(rs);
      HeadIsTopReport(avgs);
      Data(rows)
  }

  lemma HeadIsTopReport(avgs: seq<StudentMean>)
    requires DistinctStudents(avgs)
    ensures IsTopReport(Head(Rank(avgs)), avgs)
  {
    var ranked := Rank(avgs);
    RankDescending(avgs);
    RankDistinct(avgs);
    HeadRowsFromAverages(ranked, avgs);
    LeftOutRankLower(ranked, avgs);
  }

  /** The head of a reordering of `avgs` has min(3, |avgs|) rows, all taken from `avgs`. */
  lemma HeadRowsFromAverages(ranked: seq<StudentMean>, avgs: seq<StudentMean>)
    requires multiset(ranked) == multiset(avgs)
    ensures |Head(ranked)| == Min(TopCount, |avgs|)
    ensures forall i :: 0 <= i < |Head(ranked)| ==> StudentMean(Head(ranked)[i].studentId, Head(ranked)[i].mean) in avgs
  {
    var rows := Head(ranked);
    assert |ranked| == |avgs| by {
      assert |multiset(ranked)| == |multiset(avgs)|;
    }
    forall i | 0 <= i < |rows|
      ensures StudentMean(rows[i].studentId, rows[i].mean) in avgs
    {
      assert rows[i].studentId == ranked[i].studentId && rows[i].mean == ranked[i].mean;
      assert ranked[i] in multiset(avgs);
    }
  }

  /** In a descending reordering of `avgs`, no row left out of the head ranks above a row in it. */
  lemma LeftOutRankLower(ranked: seq<StudentMean>, avgs: seq<StudentMean>)
    requires multiset(ranked) == multiset(avgs)
    requires Descending(ranked)
    ensures forall a, i :: a in avgs && a.studentId !in ReportedIds(Head(ranked)) && 0 <= i < |Head(ranked)| ==>
      Ge(Head(ranked)[i].mean, a.mean)
  {
    var rows := Head(ranked);
    forall a, i | a in avgs && a.studentId !in ReportedIds(rows) && 0 <= i < |rows|
      ensures Ge(rows[i].mean, a.mean)
    {
      assert a in multiset(ranked);
      var j :| 0 <= j < |ranked| && ranked[j] == a;
      assert j < |rows| ==> a.studentId in ReportedIds(rows);
      assert rows[i].mean == ranked[i].mean;
    }
  }

  lemma AverageRowsDistinct(rs: seq<Record>)
    requires AverageGrades(rs).Data?
    ensures DistinctStudents(AverageGrades(rs).value)
  {
    var avgs := AverageGrades(rs).value;
    assert StrictlyIncreasing(StudentIds(avgs));
  }

  /** The letters of the top report never get better further down the list. */
  lemma TopLettersDescend(rs: seq<Record>)
    requires TopStudents(rs).Data?
    ensures forall i, j :: 0 <= i < j < |TopStudents(rs).value| ==>
      LabelRank(TopStudents(rs).value[i].letter) >= LabelRank(TopStudents(rs).value[j].letter)
  {
    var rows := TopStudents(rs).value;
    forall i, j | 0 <= i < j < |rows|
      ensures LabelRank(rows[i].letter) >= LabelRank(rows[j].letter)
    {
      LetterOfMonotone(rows[i].mean, rows[j].mean);
    }
  }

  /** Four students whose means are 95, 60, 85 and 70. */
  const ExampleMeans: seq<StudentMean> :=
    [StudentMean(1, Mean(95, 1)), StudentMean(2, Mean(180, 3)),
     StudentMean(3, Mean(85, 1)), StudentMean(4, Mean(140, 2))]

  lemma ExampleRankLast()
    ensures Rank([ExampleMeans[2], ExampleMeans[3]]) == [ExampleMeans[2], ExampleMeans[3]]
  {
    var a2, a3 := ExampleMeans[2], ExampleMeans[3];
    assert Ge(a2.mean, a3.mean);
    assert Rank([a3]) == [a3];
    assert Insert(a2, [a3]) == [a2, a3];
    assert [a2, a3][1..] == [a3];
  }

  lemma ExampleRankSecond()
    ensures Insert(ExampleMeans[1], [ExampleMeans[2], ExampleMeans[3]]) == [ExampleMeans[2], ExampleMeans[3], ExampleMeans[1]]
  {
    var a1, a2, a3 := ExampleMeans[1], ExampleMeans[2], ExampleMeans[3];
    assert !Ge(a1.mean, a2.mean) && !Ge(a1.mean, a3.mean);
    assert Insert(a1, []) == [a1];
    assert Insert(a1, [a3]) == [a3, a1] by { assert [a3][1..] == []; }
    assert [a2, a3][1..] == [a3];
  }

  lemma ExampleRank()
    ensures Rank(ExampleMeans) == [ExampleMeans[0], ExampleMeans[2], ExampleMeans[3], ExampleMeans[1]]
  {
    var a0, a1, a2, a3 := ExampleMeans[0], ExampleMeans[1], ExampleMeans[2], ExampleMeans[3];
    ExampleRankLast();
    ExampleRankSecond();
    assert [a1, a2, a3][1..] == [a2, a3];
    assert Rank([a1, a2, a3]) == [a2, a3, a1];
    assert Ge(a0.mean, a2.mean);
    assert Insert(a0, [a2, a3, a1]) == [a0, a2, a3, a1];
    assert ExampleMeans == [a0, a1, a2, a3] && ExampleMeans[1..] == [a1, a2, a3];
  }

  /**
   * Students 1 to 4 with means 95, 60, 85 and 70 are reported as students
   * 1, 3 and 4 with letters A, B and C.
   */
  lemma TopStudentsExample()
    ensures var rows := Head(Rank(ExampleMeans));
      |rows| == 3
      && rows[0].studentId == 1 && rows[0].letter == "A"
      && rows[1].studentId == 3 && rows[1].letter == "B"
      && rows[2].studentId == 4 && rows[2].letter == "C"
  {
    ExampleRank();
    HeadOfExample(Rank(ExampleMeans));
  }

  lemma HeadOfExample(ranked: seq<StudentMean>)
    requires ranked == [StudentMean(1, Mean(95, 1)), StudentMean(3, Mean(85, 1)),
                        StudentMean(4, Mean(140, 2)), StudentMean(2, Mean(180, 3))]
    ensures var rows := Head(ranked);
      |rows| == 3
      && rows[0].studentId == 1 && rows[0].letter == "A"
      && rows[1].studentId == 3 && rows[1].letter == "B"
      && rows[2].studentId == 4 && rows[2].letter == "C"
  {
    assert LetterOf(Mean(95, 1)) == "A";
    assert LetterOf(Mean(85, 1)) == "B";
    assert LetterOf(Mean(140, 2)) == "C";
  }
}
