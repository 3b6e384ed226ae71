/** The few Python values the ABID backfill handles, and Python's truthiness on them. */
module Values {

  datatype Option<+T> = None | Some(value: T)

  /** A Python value as far as the backfill looks at it: `None`, an integer
      (a legacy auto-increment key), or text (a UUID in its string form). */
  datatype Value = Null | Int(n: int) | Text(s: string)

  /** Python's `bool(v)`: `None`, `0` and `""` are falsy, everything else truthy. */
  predicate Truthy(v: Value) {
    match v
    case Null => false
    case Int(n) => n != 0
    case Text(s) => s != ""
  }

  /** Python's `a or b`: `a` when it is truthy, otherwise `b` (even a falsy `b`). */
  function Or(a: Value, b: Value): Value {
    if Truthy(a) then a else b
  }

  /** `str.lower()` on one character, restricted to ASCII letters. */
  function LowerChar(c: char): char {
    if 'A' <= c <= 'Z' then (c as int + ('a' as int - 'A' as int)) as char else c
  }

  /** `s.lower()`, ASCII only: every upper-case letter is lowered, nothing else changes. */
  function Lower(s: string): (r: string)
    ensures |r| == |s|
    ensures forall i :: 0 <= i < |s| ==> r[i] == LowerChar(s[i])
  {
    if s == [] then [] else [LowerChar(s[0])] + Lower(s[1..])
  }

  /** `s.replace(x, y)` for single characters: every `x` becomes `y`. */
  function ReplaceChar(s: string, x: char, y: char): (r: string)
    ensures |r| == |s|
    ensures forall i :: 0 <= i < |s| ==> r[i] == (if s[i] == x then y else s[i])
  {
    if s == [] then [] else [if s[0] == x then y else s[0]] + ReplaceChar(s[1..], x, y)
  }
}
