/**
 * The student and grade tables and the handlers that run against them:
 * creating a student, recording a grade for an existing student, listing, and
 * the three reports over the current grades.
 */
module GradeBook {
  import opened Wrappers
  import opened Aggregation
  import Ranking
  import Distribution
  import GradeScale

  /** A row of the students table. */
  datatype Student = Student(id: int, name: string)

  /** A row of the grades table; the letter is free text, as in the table. */
  datatype Grade = Grade(id: int, studentId: int, subject: string, grade: string)

  /** The 404 "student not found" answer. */
  datatype Error = StudentNotFound

  /** `query(Student).filter(Student.id == id).first()`. */
  function FindStudent(students: seq<Student>, id: int): (r: Option<Student>)
    ensures r.None? <==> forall k :: 0 <= k < |students| ==> students[k].id != id
    ensures r.Some? ==> r.value in students && r.value.id == id
  {
    if students == [] then None
    else if students[0].id == id then Some(students[0])
    else FindStudent(students[1..], id)
  }

  /** The grades of one student, in table order (the `student.grades` relationship). */
  function GradesOf(grades: seq<Grade>, id: int): (r: seq<Grade>)
    ensures forall g :: g in r <==> g in grades && g.studentId == id
    ensures |r| <= |grades|
  {
    if grades == [] then []
    else (if grades[0].studentId == id then [grades[0]] else []) + GradesOf(grades[1..], id)
  }

  /** The `(student_id, grade)` frame the reports build from the grades. */
  function Records(grades: seq<Grade>): (r: seq<Record>)
    ensures |r| == |grades|
    ensures forall k :: 0 <= k < |grades| ==> r[k] == Record(grades[k].studentId, grades[k].grade)
  {
    seq(|grades|, k requires 0 <= k < |grades| => Record(grades[k].studentId, grades[k].grade))
  }

  /** The `grade` column the distribution report builds from the grades. */
  function Letters(grades: seq<Grade>): (r: seq<string>)
    ensures |r| == |grades|
    ensures forall k :: 0 <= k < |grades| ==> r[k] == grades[k].grade
  {
    seq(|grades|, k requires 0 <= k < |grades| => grades[k].grade)
  }

  class Store {
    var students: seq<Student>
    var grades: seq<Grade>
    /** The next autoincrement ids of the two tables. */
    var nextStudentId: int
    var nextGradeId: int

    /**
     * Ids are positive and increase in table order, so they are unique, and
     * every grade belongs to a student that exists.
     */
    ghost predicate Valid()
      reads this
    {
      && nextStudentId >= 1 && nextGradeId >= 1
      && (forall k :: 0 <= k < |students| ==> 1 <= students[k].id < nextStudentId)
      && (forall i, j :: 0 <= i < j < |students| ==> students[i].id < students[j].id)
      && (forall k :: 0 <= k < |grades| ==> 1 <= grades[k].id < nextGradeId)
      && (forall i, j :: 0 <= i < j < |grades| ==> grades[i].id < grades[j].id)
      && (forall k :: 0 <= k < |grades| ==> FindStudent(students, grades[k].studentId).Some?)
    }

    /** Empty tables, as created at startup. */
    constructor ()
      ensures Valid()
      ensures students == [] && grades == []
    {
      students := [];
      grades := [];
      nextStudentId := 1;
      nextGradeId := 1;
    }

    /** `create_student`: adds one student with a fresh id and the given name. */
    method CreateStudent(name: string) returns (s: Student)
      requires Valid()
      modifies this
      ensures Valid()
      ensures s.name == name
      ensures FindStudent(old(students), s.id).None?
      ensures students == old(students) + [s]
      ensures grades == old(grades)
    {
      s := Student(nextStudentId, name);
      FindAfterAppend(students, s);
      students := students + [s];
      nextStudentId := nextStudentId + 1;
    }

    /**
     * `assign_grade`: "student not found" and no change when no student has
     * the id; otherwise exactly one grade with a fresh id and the given
     * student, subject and letter is added, and nothing else changes.
     */
    method AssignGrade(studentId: int, subject: string, grade: string) returns (r: Result<Grade, Error>)
      requires Valid()
      modifies this
      ensures Valid()
      ensures r.Failure? <==> FindStudent(students, studentId).None?
      ensures r.Failure? ==> grades == old(grades)
      ensures r.Success? ==> r.value.studentId == studentId && r.value.subject == subject && r.value.grade == grade
      ensures r.Success? ==> forall k :: 0 <= k < |old(grades)| ==> old(grades)[k].id != r.value.id
      ensures r.Success? ==> grades == old(grades) + [r.value]
      ensures students == old(students)
    {
      if FindStudent(students, studentId).None? {
        return Failure(StudentNotFound);
      }
      var g := Grade(nextGradeId, studentId, subject, grade);
      grades := grades + [g];
      nextGradeId := nextGradeId + 1;
      r := Success(g);
    }

    /** `get_students`. */
    method GetStudents() returns (r: seq<Student>)
      ensures r == students
    {
      r := students;
    }

    /** `get_grades`. */
    method GetGrades() returns (r: seq<Grade>)
      ensures r == grades
    {
      r := grades;
    }

    /**
     * `get_student_grades`: "student not found" for an unknown id, otherwise
     * exactly the grades that belong to that student.
     */
    method GetStudentGrades(studentId: int) returns (r: Result<seq<Grade>, Error>)
      ensures r.Failure? <==> FindStudent(students, studentId).None?
      ensures r.Success? ==> r.value == GradesOf(grades, studentId)
      ensures r.Success? ==> forall g :: g in r.value <==> g in grades && g.studentId == studentId
    {
      if FindStudent(students, studentId).None? {
        return Failure(StudentNotFound);
      }
      r := Success(GradesOf(grades, studentId));
    }

    /** `average_grades` over the current grades. */
    method AverageGradesReport() returns (r: Report<seq<StudentMean>>)
      ensures r == AverageGrades(Records(grades))
    {
      r := AverageGrades(Records(grades));
    }

    /** `top_students` over the current grades. */
    method TopStudentsReport() returns (r: Report<seq<Ranking.TopRow>>)
      ensures r == Ranking.TopStudents(Records(grades))
    {
      r := Ranking.TopStudents(Records(grades));
    }

    /** `grade_distribution` over the current grades. */
    method GradeDistributionReport() returns (r: Report<map<string, nat>>)
      ensures r == Distribution.GradeDistribution(Letters(grades))
    {
      r := Distribution.GradeDistribution(Letters(grades));
    }
  }

  /** A student appended with a new id is found by that id and nobody else changes. */
  lemma {:induction false} FindAfterAppend(students: seq<Student>, s: Student)
    requires forall k :: 0 <= k < |students| ==> students[k].id != s.id
    ensures FindStudent(students + [s], s.id) == Some(s)
    ensures forall id :: id != s.id ==> FindStudent(students + [s], id) == FindStudent(students, id)
  {
    if students == [] {
      assert students + [s] == [s];
    } else {
      assert (students + [s])[1..] == students[1..] + [s];
      FindAfterAppend(students[1..], s);
    }
  }

  /** Every student in a report over a valid store exists in the students table. */
  lemma ReportedStudentsExist(students: seq<Student>, grades: seq<Grade>, id: int)
    requires forall k :: 0 <= k < |grades| ==> FindStudent(students, grades[k].studentId).Some?
    requires id in Ids(Records(grades))
    ensures FindStudent(students, id).Some?
  {
    var rs := Records(grades);
    var x :| x in rs && x.studentId == id;
    var k :| 0 <= k < |rs| && rs[k] == x;
  }

  /**
   * Recording a grade changes the average report only for its student: that
   * student's mean gains the grade's score when the letter is recognised, and
   * every other student's mean stays as it was.
   */
  lemma RecordedGradeMoves(grades: seq<Grade>, g: Grade, id: int)
    ensures g.studentId == id && g.grade in GradeScale.GradeMap ==>
      MeanOf(Records(grades + [g]), id)
        == GradeScale.Mean(MeanOf(Records(grades), id).sum + GradeScale.GradeMap[g.grade], MeanOf(Records(grades), id).count + 1)
    ensures g.studentId != id || g.grade !in GradeScale.GradeMap ==>
      MeanOf(Records(grades + [g]), id) == MeanOf(Records(grades), id)
  {
    assert Records(grades + [g]) == Records(grades) + [Record(g.studentId, g.grade)];
    MeanOfAppend(Records(grades), Record(g.studentId, g.grade), id);
  }
}
