/**
 * client/src/components/student/AcademicProgress.jsx: the screen's initial
 * `progress` state, its own copy of `getGradeColor`, and the current-grade
 * chip of each course row.
 */
module AcademicProgress {
  import opened Js
  import opened Grades
  import ViewCourses

  /** The `progress` state: the GPA, credits, and three lists of rows. */
  datatype Progress = Progress(
    gpa: real, completedCredits: int, totalCredits: int,
    semesterGrades: seq<Object>, courseProgress: seq<Object>, recentGrades: seq<Object>)

  /** What the screen shows before the progress request answers. */
  const InitialProgress: Progress := Progress(0.0, 0, 120, [], [], [])

  /** The initial state has no GPA, no credits of the 120 needed, and no rows. */
  lemma InitialProgressIsEmpty()
    ensures InitialProgress.gpa == 0.0 && InitialProgress.completedCredits == 0
    ensures InitialProgress.totalCredits == 120
    ensures InitialProgress.semesterGrades == [] && InitialProgress.courseProgress == [] && InitialProgress.recentGrades == []
  {
  }

  /** This file's `getGradeColor(grade)`. */
  function GetGradeColor(grade: Value, parseText: string -> Option<real>): (c: Colour)
    ensures c == Default <==> !Truthy(grade)
    ensures Truthy(grade) && ParseFloat(grade, parseText).None? ==> c == Error
    ensures Truthy(grade) && ParseFloat(grade, parseText).Some? ==> c == Band(ParseFloat(grade, parseText).value, Thresholds)
  {
    if !Truthy(grade) then Default
    else
      var numGrade := ParseFloat(grade, parseText);
      BandBoundaries(if numGrade.Some? then numGrade.value else 0.0);
      if numGrade.Some? && numGrade.value >= 90.0 then Success
      else if numGrade.Some? && numGrade.value >= 70.0 then Primary
      else if numGrade.Some? && numGrade.value >= 60.0 then Warning
      else Error
  }

  /** The two copies agree on every grade. */
  lemma AgreesWithViewCourses(grade: Value, parseText: string -> Option<real>)
    ensures GetGradeColor(grade, parseText) == ViewCourses.GetGradeColor(grade, parseText)
  {
  }

  /** The row's chip reads `currentGrade || 'N/A'`, and reads N/A from the
      fallback exactly when its colour is `default`. */
  lemma RowLabelNotAvailableIffDefault(course: Object, parseText: string -> Option<real>)
    ensures var grade := Field(course, "currentGrade");
            LabelOf(grade).NotAvailable? <==> GetGradeColor(grade, parseText) == Default
  {
  }
}
