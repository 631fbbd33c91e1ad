/**
 * The grade colours shared by the student screens: the five MUI chip
 * colours, `parseFloat` on a grade value, and a reference statement of the
 * grade bands as a table of thresholds, highest first.
 */
module Grades {
  import opened Js

  /** The chip colours `getGradeColor` returns. */
  datatype Colour = Default | Success | Primary | Warning | Error

  /** The colour's name as MUI takes it. */
  function Name(c: Colour): (s: string)
    ensures s in ["default", "success", "primary", "warning", "error"]
  {
    match c
    case Default => "default"
    case Success => "success"
    case Primary => "primary"
    case Warning => "warning"
    case Error => "error"
  }

  /** How good a band is, from `error` up to `success`; `default` is no band. */
  function Rank(c: Colour): (k: int)
    ensures -1 <= k <= 3
    ensures k == -1 <==> c == Default
  {
    match c
    case Default => -1
    case Error => 0
    case Warning => 1
    case Primary => 2
    case Success => 3
  }

  /** `parseFloat(v)`: a number parses to itself, a string as its numeric
      prefix (`parseText`, `None` for NaN), anything else to NaN. */
  function ParseFloat(v: Value, parseText: string -> Option<real>): (r: Option<real>)
    ensures v.Num? ==> r == Some(v.n)
    ensures !v.Num? && !v.Str? ==> r.None?
  {
    match v
    case Num(n) => Some(n)
    case Str(s) => parseText(s)
    case _ => None
  }

  /** The bands: a grade takes the colour of the first threshold it reaches. */
  const Thresholds: seq<(real, Colour)> := [(90.0, Success), (70.0, Primary), (60.0, Warning)]

  /** The colour of a parsed grade under `thresholds`; below every threshold is `error`. */
  function Band(x: real, thresholds: seq<(real, Colour)>): (c: Colour)
    ensures c == Error || exists i :: 0 <= i < |thresholds| && c == thresholds[i].1 && x >= thresholds[i].0
    decreases |thresholds|
  {
    if thresholds == [] then Error
    else if x >= thresholds[0].0 then thresholds[0].1
    else
      var c := Band(x, thresholds[1..]);
      assert c != Error ==> exists i :: 0 <= i < |thresholds| && c == thresholds[i].1 && x >= thresholds[i].0 by {
        if c != Error {
          var i :| 0 <= i < |thresholds[1..]| && c == thresholds[1..][i].1 && x >= thresholds[1..][i].0;
          assert thresholds[i + 1] == thresholds[1..][i];
        }
      }
      c
  }

  /** The bands written out: `[90, ∞)` success, `[70, 90)` primary,
      `[60, 70)` warning, below 60 error. */
  lemma {:induction false} BandBoundaries(x: real)
    ensures Band(x, Thresholds) == Success <==> x >= 90.0
    ensures Band(x, Thresholds) == Primary <==> 70.0 <= x < 90.0
    ensures Band(x, Thresholds) == Warning <==> 60.0 <= x < 70.0
    ensures Band(x, Thresholds) == Error <==> x < 60.0
    ensures Band(x, Thresholds) != Default
  {
    var t := Thresholds;
    assert t[1..] == [(70.0, Primary), (60.0, Warning)];
    assert t[1..][1..] == [(60.0, Warning)];
    assert t[1..][1..][1..] == [];
  }

  /** A numerically higher grade never gets a lower band. */
  lemma {:induction false} BandMonotone(x: real, y: real)
    requires x <= y
    ensures Rank(Band(x, Thresholds)) <= Rank(Band(y, Thresholds))
  {
    BandBoundaries(x);
    BandBoundaries(y);
  }

  /** A chip's text source: the grade itself, or the `'N/A'` fallback of `grade || 'N/A'`. */
  datatype Label = Shown(grade: Value) | NotAvailable

  /** `grade || 'N/A'`, keeping apart where the text came from. */
  function LabelOf(grade: Value): (l: Label)
    ensures l.NotAvailable? <==> !Truthy(grade)
    ensures l.Shown? ==> l.grade == grade && Or(grade, Str("N/A")) == grade
    ensures l.NotAvailable? ==> Or(grade, Str("N/A")) == Str("N/A")
  {
    if Truthy(grade) then Shown(grade) else NotAvailable
  }
}
