# Student grade system: a Dafny model of the grade reports and the grade store

The modelled web service records students and letter grades per
student and subject. It computes three reports over all recorded grades:

- the average score of each student;
- the three best students, each with a letter derived back from the average;
- how many grades fall into each of five score buckets.

The reports map letters to scores with a fixed table (A 95, B 85, C 75, D 65, F 50).
The handlers run against two tables, students and grades.

Modules, one per component of `main.py`:

- `GradeScale`: the three fixed tables as separate definitions.
  - `GradeMap` is the letter-to-score map. It is repeated three times in the source and defined once here.
  - `LetterOf` holds the thresholds 90/80/70/60 that turn an average back into a letter.
  - `Bins`, `Labels` and `Category` model the `pd.cut` buckets.
  - The lemmas tie the three tables together and prove that the ranking order is a total preorder.
- `Aggregation`: the average report. An average is kept exact as the pair (sum, count) of the
  recognised scores of a student. A count of 0 is pandas' NaN mean: every grade
  of that student is an unrecognised string.
- `Ranking`: the top-students report, built as an insertion sort by "ranks at least as high", then the first three rows, then the letter.
- `Distribution`: the grade-distribution report.
- `GradeBook`: the `Store` class. It holds the two tables as sequences, plus the two autoincrement counters.
  Its methods model the handlers. "student not found" (HTTP 404) is a `Failure` result.
- `Wrappers`: `Option` and `Result`.

Behaviour taken from the code and from pandas' defaults:

- `Series.map` turns a letter outside the table into NaN.
- `mean` skips NaN, so a student with recognised and unrecognised grades is averaged over the recognised ones only.
- `sort_values` places NaN means last (`na_position='last'`).
- Every comparison with NaN is false, so the letter lambda gives "F" for a NaN mean.
- `value_counts` drops NaN, so unrecognised grades are counted in no bucket.
- `sort_values` defaults to a non-stable sort. The order among equal averages is therefore left open, not taken as insertion order.
- When there are no grades at all, each report returns the message "No grades available" (`NoGrades`). The text of the message is not modelled; `NoGrades` stands for it.

## Model

| member | source | states |
|---|---|---|
| GradeScale.NumericGrade | main.py:69-77 | a grade has a score exactly when it is one of the five labels; every score lies between 50 and 95; any other string is missing (NaN) |
| GradeScale.LetterOf | main.py:115-117 | the derived letter is always one of the five labels; it is "A" exactly when the mean is at least 90, "B" exactly when it is in [80, 90), "C" in [70, 80), "D" in [60, 70), and "F" exactly when it is below 60 or NaN |
| GradeScale.Category | main.py:145-150 | a score gets no bucket exactly when it is outside [0, 100]; otherwise its label is the label of a bin that holds it |
| GradeScale.FindBin | main.py:146-150 | the bin search finds a bin that holds x, and finds none only when no bin from k on holds x |
| GradeScale.CategoryIntervals | main.py:146-150 | the buckets are exactly [0,60] F, (60,70] D, (70,80] C, (80,90] B, (90,100] A |
| GradeScale.CategoryOfScore | main.py:134-150 | the score of every recognised letter falls into the bucket labelled with that same letter |
| GradeScale.LetterOfUniform | main.py:97-117 | a student whose n > 0 recognised grades are all the letter g has mean exactly GradeMap[g], and the thresholds give back g |
| GradeScale.Ge | main.py:112 | the order of `sort_values(ascending=False)`: between two non-NaN means it holds exactly when the first mean, as an exact rational sum/count, is at least the second; a NaN mean ranks at least as high only as another NaN, and every mean ranks at least as high as NaN |
| GradeScale.CrossMultiply | main.py:112 | comparing two non-NaN means by clearing denominators agrees with comparing them as rationals |
| GradeScale.GeTotal | main.py:112 | any two means can be ordered by the descending sort |
| GradeScale.GeTransitive | main.py:112 | the descending order on means, NaN last, is transitive |
| GradeScale.LetterOfMonotone | main.py:112-117 | a mean that ranks at least as high never gets a worse letter |
| Aggregation.InsertId | main.py:79 | inserting an id into an ascending list of distinct ids keeps it ascending and adds exactly that id |
| Aggregation.GroupKeys | main.py:79 | the groups of `groupby("student_id")` are each student id of the records exactly once, in ascending order |
| Aggregation.Scores | main.py:77-79 | a student's scores, NaN dropped, are each between 50 and 95, and there are no more of them than there are records |
| Aggregation.MeanOf | main.py:77-79 | `groupby("student_id")["numeric_grade"].mean()` for one student, as the exact (sum, count) of their recognised scores: the count is at most the number of records and the sum lies between 50 and 95 times the count; Aggregation.MeanOfAppend pins it record by record |
| Aggregation.AverageGrades | main.py:59-80 | no grades gives the message; otherwise one row per distinct student id of the grades, in ascending id order, and each row holds that student's mean |
| Aggregation.MeanBounds | main.py:77-79 | a student's mean lies between 50 and 95 |
| Aggregation.MeanIsNaNIff | main.py:77-79 | a student's mean is NaN exactly when none of their grades is a recognised letter |
| Aggregation.MeanOfAppend | main.py:77-79 | one more record changes only its own student's mean, by its score and one more count, and only when its letter is recognised |
| Aggregation.MeanOfAB | main.py:69-79 | grades A and B give a mean of exactly 90 |
| Ranking.Insert | main.py:112 | inserting into the ranking adds exactly one row and keeps all the others |
| Ranking.InsertDescending | main.py:112 | inserting into a descending ranking keeps it descending |
| Ranking.InsertDistinct | main.py:112 | inserting a new student into a ranking of distinct students keeps them distinct |
| Ranking.Rank | main.py:112 | the sort is a permutation of its input |
| Ranking.RankDescending | main.py:112 | the sorted means are in non-increasing order, NaN last |
| Ranking.RankDistinct | main.py:112 | sorting distinct students keeps them distinct |
| Ranking.Head | main.py:112-117 | `head(3)` keeps min(3, n) rows, the first ones of the ranking, each with its mean's letter |
| Ranking.HeadIsTopReport | main.py:109-117 | the first three of the ranking form a top report: min(3, students) rows of distinct students from the averages, descending, each with its letter, and no student left out ranks above a returned one |
| Ranking.HeadRowsFromAverages | main.py:112 | `head(3)` of a reordering of the averages keeps min(3, students) rows, each a row of the averages |
| Ranking.LeftOutRankLower | main.py:112 | in a descending ranking, no row left out by `head(3)` ranks above a row it keeps |
| Ranking.TopStudents | main.py:85-120 | no grades gives the message; otherwise the answer is a top report over the per-student averages |
| Ranking.AverageRowsDistinct | main.py:109 | the average report names each student once |
| Ranking.TopLettersDescend | main.py:112-117 | down the top report, the letters never get better |
| Ranking.TopStudentsExample | main.py:109-120 | students with means 95, 60, 85 and 70 are reported in the order 1, 3, 4, with letters A, B, C |
| Distribution.CategoryOf | main.py:143-150 | `map` then `pd.cut` on one grade: it has a category exactly when the letter is recognised, and that category is the letter itself |
| Distribution.BucketCount | main.py:150-153 | `value_counts()` for one label: at most the number of recognised grades, and 0 for any string that is not one of the five labels |
| Distribution.GradeDistribution | main.py:124-155 | no grades gives the message; otherwise every key is a label, each present label counts exactly the grades with that letter, and every letter that occurs is present |
| Distribution.BucketCountIsOccurrences | main.py:143-153 | the count of each bucket equals the number of grades whose letter is its label |
| Distribution.OccurrencesAddUp | main.py:143-153 | the five letters' counts add up to the number of recognised grades |
| Distribution.DistributionTotal | main.py:150-153 | the counts of the distribution add up to the number of recognised grades |
| Distribution.DistributionExample | main.py:143-155 | letters A, A, B, F give A 2, B 1, F 1, and no C or D grade |
| GradeBook.FindStudent | main.py:31-33 | the lookup fails exactly when no student has the id; otherwise it returns a student of the table with that id |
| GradeBook.GradesOf | main.py:52-55 | a student's grades are exactly the grades of the table with that student id |
| GradeBook.Records | main.py:61-62 | the report frame has one `(student_id, grade)` row per grade, in table order |
| GradeBook.Letters | main.py:126-127 | the distribution frame has the letter of every grade, in table order |
| GradeBook.Store.constructor | main.py:9 | the tables start empty and the store invariant holds |
| GradeBook.Store.CreateStudent | main.py:13-19 | exactly one student is appended, with the given name and an id no earlier student has; the grades are unchanged; ids stay unique and increasing |
| GradeBook.Store.AssignGrade | main.py:29-40 | an unknown student id gives "student not found" and leaves the grades unchanged; otherwise exactly one grade is appended, with a fresh id and the given student, subject and letter; the students are unchanged; every grade still belongs to an existing student |
| GradeBook.Store.GetStudents | main.py:23-25 | returns the students table |
| GradeBook.Store.GetGrades | main.py:44-46 | returns the grades table |
| GradeBook.Store.GetStudentGrades | main.py:50-55 | an unknown id gives "student not found"; otherwise the answer is exactly the grades that belong to that student |
| GradeBook.Store.AverageGradesReport | main.py:59-62 | the average report is computed from the current grades and changes nothing |
| GradeBook.Store.TopStudentsReport | main.py:85-89 | the top-students report is computed from the current grades and changes nothing |
| GradeBook.Store.GradeDistributionReport | main.py:124-127 | the distribution report is computed from the current grades' letters and changes nothing |
| GradeBook.FindAfterAppend | main.py:13-19 | after a student with a new id is appended, the lookup finds them, and the lookup of any other id is unchanged |
| GradeBook.ReportedStudentsExist | main.py:31-40 | in a store where every grade belongs to an existing student, every student of a report exists |
| GradeBook.RecordedGradeMoves | main.py:36-40 | recording a grade changes only its own student's mean in the average report |

## Left out

- HTTP routing, dependency injection and the exception transport are not modelled. A 404 becomes the `StudentNotFound` failure.
- The ORM session (`add`, `commit`, `refresh`) and the database are not modelled. The tables are two sequences. `database.py` is not part of this model.
- Schema creation at import time (main.py:9) is modelled only as the empty tables of the constructor.
- Floating point is not modelled. A mean is the exact pair (sum, count) and a threshold test `x >= t` is `sum >= t * count`. The float division of pandas is not modelled.
- The serialisation by `to_dict` is not modelled. Rows are datatypes and the distribution is a map.
- The unreachable second `return` at main.py:82 has no counterpart.
- Python's unbounded integers and the database's integer ids are modelled as unbounded `int`.
- Ranking.TopStudents: does not fix the order among students with equal averages, because `sort_values` defaults to a non-stable sort. The model's insertion sort picks one order, and the contract states only what every order satisfies.
- Distribution.GradeDistribution: does not state whether labels with a count of 0 appear. That depends on how pandas' categorical `value_counts` treats empty categories. The model's function lists all five labels, and the contract allows either answer.
- GradeBook.Store.GetStudentGrades, GradeBook.Store.GetStudents, GradeBook.Store.GetGrades: take the `student.grades` relationship and the unordered `query(...).all()` to return rows in table order. Neither the ORM nor the query without ORDER BY promises an order.
- Ranking.TopStudentsExample: starts from the four means rather than from grade records. The step from records to means is the contract of Aggregation.AverageGrades.
