/** Small shared vocabulary: optional values, real-number helpers mirroring the
  * JavaScript `Math` calls the app uses, and screen sizes. */
module Common {

  datatype Option<T> = None | Some(value: T)
  {
    /** `x ?? d`. */
    function GetOr(d: T): T
    {
      if Some? then value else d
    }
  }

  /** A width and height in pixels (`app.screen`, `renderer.width/height`, bounds). */
  datatype Size = Size(width: real, height: real)

  /** A layout target in pixels; `angle` is optional, as in `{ x, y, angle? }`. */
  datatype Target = Target(x: real, y: real, angle: Option<real>)

  /** `Math.PI`, as the program uses it to turn a reversed card over. */
  const PI: real := 3.141592653589793

  function MinR(a: real, b: real): real
  {
    if a <= b then a else b
  }

  function MaxR(a: real, b: real): real
  {
    if a >= b then a else b
  }

  function AbsR(a: real): real
  {
    if a < 0.0 then -a else a
  }

  lemma MaxRBounds(a: real, b: real)
    ensures MaxR(a, b) >= a && MaxR(a, b) >= b
    ensures a >= b ==> MaxR(a, b) == a
  {
  }

  /** `x || 1` on a number: zero is falsy and is replaced by 1. */
  function Or1(x: real): real
  {
    if x == 0.0 then 1.0 else x
  }

  /** `toLowerCase` on one character: the ASCII capitals become small letters and every
    * other character is kept (the program's keys and sign names are ASCII). */
  function LowerAscii(c: char): char
  {
    if 'A' <= c <= 'Z' then (c as int + 32) as char else c
  }

  /** `s.toLowerCase()`, character by character. */
  function Lower(s: string): (r: string)
    ensures |r| == |s| && forall i :: 0 <= i < |s| ==> r[i] == LowerAscii(s[i])
  {
    seq(|s|, i requires 0 <= i < |s| => LowerAscii(s[i]))
  }
}
