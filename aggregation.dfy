/**
 * The per-student average report: the grade records are mapped to scores,
 * grouped by student and averaged (`groupby("student_id").mean()`).
 */
module Aggregation {
  import opened GradeScale

  /** One row of the report's input frame: `{"student_id": ..., "grade": ...}`. */
  datatype Record = Record(studentId: int, grade: string)

  /** One row of the report: a student and the mean of their scores. */
  datatype StudentMean = StudentMean(studentId: int, mean: Mean)

  /** A report's answer: the "No grades available" message, or the data. */
  datatype Report<+T> = NoGrades | Data(value: T)

  /** The student ids that occur in the records. */
  function Ids(rs: seq<Record>): set<int> {
    set r | r in rs :: r.studentId
  }

  predicate StrictlyIncreasing(s: seq<int>) {
    forall i, j :: 0 <= i < j < |s| ==> s[i] < s[j]
  }

  function Elements(s: seq<int>): set<int> {
    set x | x in s
  }

  /** Inserts x into an ascending list of distinct ids, keeping it so. */
  function InsertId(x: int, ids: seq<int>): (r: seq<int>)
    requires StrictlyIncreasing(ids)
    ensures StrictlyIncreasing(r)
    ensures Elements(r) == Elements(ids) + {x}
  {
    if ids == [] then [x]
    else if x < ids[0] then [x] + ids
    else if x == ids[0] then ids
    else
      var rest := InsertId(x, ids[1..]);
      assert Elements(ids) == {ids[0]} + Elements(ids[1..]);
      HeadBelowTail(ids);
      ConsIncreasing(ids[0], rest);
      assert Elements([ids[0]] + rest) == {ids[0]} + Elements(rest) by {
        assert forall y :: y in [ids[0]] + rest <==> y == ids[0] || y in rest;
      }
      [ids[0]] + rest
  }

  /** The first of an ascending list of ids is below all the others. */
  lemma HeadBelowTail(ids: seq<int>)
    requires StrictlyIncreasing(ids) && ids != []
    ensures forall y :: y in Elements(ids[1..]) ==> ids[0] < y
  {
    forall y | y in Elements(ids[1..]) ensures ids[0] < y {
      var k :| 0 <= k < |ids[1..]| && ids[1..][k] == y;
      assert ids[k + 1] == y;
    }
  }

  /** Putting an id below all of an ascending list in front keeps it ascending. */
  lemma ConsIncreasing(h: int, rest: seq<int>)
    requires StrictlyIncreasing(rest)
    requires forall y :: y in Elements(rest) ==> h < y
    ensures StrictlyIncreasing([h] + rest)
  {
    forall i, j | 0 <= i < j < |[h] + rest| ensures ([h] + rest)[i] < ([h] + rest)[j] {
      if i == 0 {
        assert ([h] + rest)[j] == rest[j - 1];
        assert rest[j - 1] in Elements(rest);
      } else {
        assert ([h] + rest)[i] == rest[i - 1] && ([h] + rest)[j] == rest[j - 1];
      }
    }
  }

  /** The groups of `groupby("student_id")`: each id once, ascending. */
  function GroupKeys(rs: seq<Record>): (r: seq<int>)
    ensures StrictlyIncreasing(r)
    ensures Elements(r) == Ids(rs)
  {
    if rs == [] then []
    else
      var rest := GroupKeys(rs[1..]);
      assert Ids(rs) == {rs[0].studentId} + Ids(rs[1..]) by {
        assert forall r :: r in rs <==> r == rs[0] || r in rs[1..];
      }
      InsertId(rs[0].studentId, rest)
  }

  /** The `numeric_grade` column of one student's group, NaN values dropped. */
  function Scores(rs: seq<Record>, id: int): (r: seq<int>)
    ensures forall k :: 0 <= k < |r| ==> 50 <= r[k] <= 95
    ensures |r| <= |rs|
  {
    if rs == [] then []
    else
      var here := NumericGrade(rs[0].grade);
      (if rs[0].studentId == id && here.Some? then [here.value] else []) + Scores(rs[1..], id)
  }

  function Sum(s: seq<int>): int {
    if s == [] then 0 else s[0] + Sum(s[1..])
  }

  /** The mean of student id's recognised scores; NaN when they have none. */
  function MeanOf(rs: seq<Record>, id: int): (m: Mean)
    ensures m.count <= |rs|
    ensures 50 * m.count <= m.sum <= 95 * m.count
  {
    var s := Scores(rs, id);
    SumBounds(s);
    Mean(Sum(s), |s|)
  }

  /**
   * `average_grades`: the message when there are no grades, otherwise one row
   * per distinct student id, in ascending id order, holding that student's mean.
   */
  function AverageGrades(rs: seq<Record>): (r: Report<seq<StudentMean>>)
    ensures r.NoGrades? <==> rs == []
    ensures r.Data? ==> StrictlyIncreasing(StudentIds(r.value))
    ensures r.Data? ==> Elements(StudentIds(r.value)) == Ids(rs)
    ensures r.Data? ==> forall k :: 0 <= k < |r.value| ==> r.value[k].mean == MeanOf(rs, r.value[k].studentId)
  {
    if rs == [] then NoGrades
    else
      var keys := GroupKeys(rs);
      var rows := seq(|keys|, k requires 0 <= k < |keys| => StudentMean(keys[k], MeanOf(rs, keys[k])));
      assert StudentIds(rows) == keys;
      Data(rows)
  }

  /** The `student_id` column of a list of rows. */
  function StudentIds(rows: seq<StudentMean>): (r: seq<int>)
    ensures |r| == |rows| && forall k :: 0 <= k < |rows| ==> r[k] == rows[k].studentId
  {
    seq(|rows|, k requires 0 <= k < |rows| => rows[k].studentId)
  }

  lemma {:induction false} SumBounds(s: seq<int>)
    requires forall k :: 0 <= k < |s| ==> 50 <= s[k] <= 95
    ensures 50 * |s| <= Sum(s) <= 95 * |s|
  {
    if s != [] {
      SumBounds(s[1..]);
    }
  }

  /** A student's mean lies between the lowest and the highest score of the map. */
  lemma MeanBounds(rs: seq<Record>, id: int)
    ensures 50 * MeanOf(rs, id).count <= MeanOf(rs, id).sum <= 95 * MeanOf(rs, id).count
  {
    SumBounds(Scores(rs, id));
  }

  /** A student has a (non-NaN) mean exactly when one of their grades is recognised. */
  lemma {:induction false} MeanIsNaNIff(rs: seq<Record>, id: int)
    ensures MeanOf(rs, id).IsNaN() <==> forall k :: 0 <= k < |rs| && rs[k].studentId == id ==> rs[k].grade !in GradeMap
  {
    if rs != [] {
      MeanIsNaNIff(rs[1..], id);
      assert forall k :: 1 <= k < |rs| ==> rs[k] == rs[1..][k - 1];
    }
  }

  lemma {:induction false} ScoresAppend(rs: seq<Record>, x: Record, id: int)
    ensures Scores(rs + [x], id) == Scores(rs, id) + Scores([x], id)
  {
    if rs != [] {
      assert (rs + [x])[1..] == rs[1..] + [x];
      ScoresAppend(rs[1..], x, id);
    } else {
      assert rs + [x] == [x];
    }
  }

  lemma {:induction false} SumAppend(s: seq<int>, t: seq<int>)
    ensures Sum(s + t) == Sum(s) + Sum(t)
  {
    if s != [] {
      assert (s + t)[1..] == s[1..] + t;
      SumAppend(s[1..], t);
    } else {
      assert s + t == t;
    }
  }

  /**
   * Recording one more grade changes only that student's mean: it adds the
   * grade's score to the sum and one to the count when the letter is recognised,
   * and nothing otherwise.
   */
  lemma MeanOfAppend(rs: seq<Record>, x: Record, id: int)
    ensures x.studentId == id && x.grade in GradeMap ==>
      MeanOf(rs + [x], id) == Mean(MeanOf(rs, id).sum + GradeMap[x.grade], MeanOf(rs, id).count + 1)
    ensures x.studentId != id || x.grade !in GradeMap ==> MeanOf(rs + [x], id) == MeanOf(rs, id)
  {
    ScoresAppend(rs, x, id);
    SumAppend(Scores(rs, id), Scores([x], id));
  }

  /** A student whose recognised grades are A and B has mean exactly 90. */
  lemma MeanOfAB()
    ensures MeanOf([Record(1, "A"), Record(1, "B")], 1).Is(90)
  {
    assert Scores([Record(1, "A"), Record(1, "B")], 1) == [95, 85];
  }
}
