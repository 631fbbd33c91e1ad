/**
 * The slice of JavaScript semantics the server and client code rely on:
 * dynamically typed values, truthiness, property access on plain objects,
 * the `||` default idiom and `String.prototype.split(' ')`.
 */
module Js {

  datatype Option<+T> = None | Some(value: T)

  /** A JavaScript value as it appears in request bodies, JWT claims and SQL rows.
      Numbers are exact reals: no code modelled here does float arithmetic,
      only comparisons. */
  datatype Value =
    | Undefined
    | Null
    | Bool(b: bool)
    | Num(n: real)
    | NaN
    | Str(s: string)

  /** A plain object (request body, SQL row, JSON reply): property name to value. */
  type Object = map<string, Value>

  /** JavaScript truthiness: `undefined`, `null`, `false`, `0`, `NaN` and `''` are falsy. */
  predicate Truthy(v: Value)
  {
    match v
    case Undefined => false
    case Null => false
    case Bool(b) => b
    case Num(n) => n != 0.0
    case NaN => false
    case Str(s) => s != ""
  }

  /** Property access `o[k]`: a missing property reads as `undefined`. */
  function Field(o: Object, k: string): Value
  {
    if k in o then o[k] else Undefined
  }

  /** `v || fallback`: the left operand when it is truthy, the right one otherwise. */
  function Or(v: Value, fallback: Value): (r: Value)
    ensures Truthy(v) ==> r == v
    ensures !Truthy(v) ==> r == fallback
  {
    if Truthy(v) then v else fallback
  }

  /** `s.split(' ')`: the pieces between single spaces, empty pieces kept,
      so that the result is never empty and "" splits into [""]. */
  function Split(s: string): (pieces: seq<string>)
    ensures |pieces| >= 1
    ensures forall i :: 0 <= i < |pieces| ==> ' ' !in pieces[i]
    decreases |s|
  {
    if |s| == 0 then [""]
    else
      var rest := Split(s[1..]);
      if s[0] == ' ' then [""] + rest
      else [[s[0]] + rest[0]] + rest[1..]
  }

  /** `pieces.join(' ')`. */
  function Join(pieces: seq<string>): string
    requires |pieces| >= 1
  {
    if |pieces| == 1 then pieces[0] else pieces[0] + " " + Join(pieces[1..])
  }

  /** Splitting loses nothing: joining the pieces with single spaces gives the string back. */
  lemma {:induction false} JoinSplit(s: string)
    ensures Join(Split(s)) == s
    decreases |s|
  {
    if |s| > 0 {
      var rest := Split(s[1..]);
      JoinSplit(s[1..]);
      if s[0] == ' ' {
        assert ([""] + rest)[1..] == rest;
      } else if |rest| > 1 {
        var pieces := [[s[0]] + rest[0]] + rest[1..];
        assert pieces[1..] == rest[1..];
        assert Join(rest) == rest[0] + " " + Join(rest[1..]);
        assert s == [s[0]] + s[1..];
      } else {
        assert s == [s[0]] + s[1..];
      }
    }
  }

  /** A space-free word splits into itself alone. */
  lemma {:induction false} SplitWord(w: string)
    requires ' ' !in w
    ensures Split(w) == [w]
    decreases |w|
  {
    if |w| > 0 {
      assert w[0] in w;
      assert forall c :: c in w[1..] ==> c in w;
      SplitWord(w[1..]);
      assert [w[0]] + w[1..] == w;
    }
  }

  /** A leading space-free word followed by one space becomes the first piece on its own. */
  lemma {:induction false} SplitAfterWord(w: string, x: string)
    requires ' ' !in w
    ensures Split(w + " " + x) == [w] + Split(x)
    decreases |w|
  {
    var s := w + " " + x;
    if |w| == 0 {
      assert s == " " + x;
      assert s[1..] == x;
    } else {
      assert w[0] in w;
      assert forall c :: c in w[1..] ==> c in w;
      assert s[0] == w[0];
      assert s[1..] == w[1..] + " " + x;
      SplitAfterWord(w[1..], x);
      assert [w[0]] + w[1..] == w;
    }
  }

  /** The first piece of a string is its longest space-free prefix. */
  lemma {:induction false} SplitFirstPiece(t: string, rest: string)
    requires ' ' !in t
    requires rest == "" || rest[0] == ' '
    ensures Split(t + rest)[0] == t
    decreases |t|
  {
    if |t| == 0 {
      assert t + rest == rest;
    } else {
      var s := t + rest;
      assert t[0] in t;
      assert forall c :: c in t[1..] ==> c in t;
      assert s[0] == t[0];
      assert s[1..] == t[1..] + rest;
      SplitFirstPiece(t[1..], rest);
      assert [t[0]] + t[1..] == t;
    }
  }
}
