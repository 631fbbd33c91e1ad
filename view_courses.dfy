/**
 * client/src/components/student/ViewCourses.jsx: the colour of a course's
 * grade chip, and the chip's `Grade: …` text.
 */
module ViewCourses {
  import opened Js
  import opened Grades

  /** `getGradeColor(grade)`: falsy grades are `default`; anything else is
      parsed, and a NaN fails every comparison, landing on `error`. */
  function GetGradeColor(grade: Value, parseText: string -> Option<real>): (c: Colour)
    ensures c == Default <==> !Truthy(grade)
    ensures Truthy(grade) && ParseFloat(grade, parseText).None? ==> c == Error
    ensures Truthy(grade) && ParseFloat(grade, parseText).Some? ==> c == Band(ParseFloat(grade, parseText).value, Thresholds)
  {
    if !Truthy(grade) then Default
    else
      var numGrade := ParseFloat(grade, parseText);
      BandBoundaries(if numGrade.Some? then numGrade.value else 0.0);
      if numGrade.Some? && numGrade.value >= 90.0 then Success
      else if numGrade.Some? && numGrade.value >= 70.0 then Primary
      else if numGrade.Some? && numGrade.value >= 60.0 then Warning
      else Error
  }

  /** The chip reads N/A from the fallback exactly when its colour is `default`. */
  lemma NotAvailableIffDefault(grade: Value, parseText: string -> Option<real>)
    ensures LabelOf(grade).NotAvailable? <==> GetGradeColor(grade, parseText) == Default
  {
  }

  /** A letter grade such as "A" is truthy but not a number: the chip shows
      it in the error colour. */
  lemma LetterGradeIsError(parseText: string -> Option<real>)
    requires parseText("A").None?
    ensures GetGradeColor(Str("A"), parseText) == Error
    ensures LabelOf(Str("A")) == Shown(Str("A"))
  {
  }

  /** The text `N/A` alone does not mean `default`: a grade stored as the
      string "N/A" is truthy and shows the same text, in the error colour. */
  lemma LiteralNotAvailableIsError(parseText: string -> Option<real>)
    requires parseText("N/A").None?
    ensures LabelOf(Str("N/A")) == Shown(Str("N/A")) && Or(Str("N/A"), Str("N/A")) == Str("N/A")
    ensures GetGradeColor(Str("N/A"), parseText) == Error
  {
  }

  /** The numeric `0` is falsy: a zero grade reads N/A in the default colour, not `error`. */
  lemma ZeroGradeIsNotAvailable(parseText: string -> Option<real>)
    ensures GetGradeColor(Num(0.0), parseText) == Default
    ensures LabelOf(Num(0.0)) == NotAvailable
  {
  }

  /** Among numeric grades other than `0`, a higher grade never gets a lower colour. */
  lemma GradeColorMonotone(x: real, y: real, parseText: string -> Option<real>)
    requires x <= y && x != 0.0 && y != 0.0
    ensures Rank(GetGradeColor(Num(x), parseText)) <= Rank(GetGradeColor(Num(y), parseText))
  {
    BandMonotone(x, y);
  }
}
