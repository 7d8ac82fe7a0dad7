/**
 * Loosely typed values as the boards receive them from their callers: action
 * names, action parameters and the items of a serial frame are JavaScript values
 * of any kind, so a parameter list may hold numbers next to strings, objects,
 * arrays or `undefined`.
 */
module Params {

  /** One JavaScript value. Numbers are the integral ones; fractions are not modelled. */
  datatype Param =
    | Num(n: int)
    | Str(s: string)
    | Bool(b: bool)
    | Obj
    | Arr(items: seq<Param>)
    | Undefined

  /** The `i`-th argument of a call spread from `args`: `undefined` past the end. */
  function Arg(args: seq<Param>, i: nat): (r: Param)
    ensures i < |args| ==> r == args[i]
    ensures i >= |args| ==> r == Undefined
  {
    if i < |args| then args[i] else Undefined
  }

  function DigitChar(d: nat): (c: char)
    requires d < 10
    ensures '0' <= c <= '9'
  {
    "0123456789"[d]
  }

  /** Decimal text of a natural number, most significant digit first. */
  function NatToString(n: nat): (s: string)
    ensures |s| >= 1
    ensures forall i :: 0 <= i < |s| ==> '0' <= s[i] <= '9'
    decreases n
  {
    if n < 10 then [DigitChar(n)] else NatToString(n / 10) + [DigitChar(n % 10)]
  }

  /** Decimal text of an integer, with a leading '-' when it is negative. */
  function IntToString(n: int): string
  {
    if n < 0 then "-" + NatToString(-n) else NatToString(n)
  }

  /** The text JavaScript's string conversion gives a value (as in a template literal). */
  function Render(p: Param): string
    decreases p, 0
  {
    match p
    case Num(n) => IntToString(n)
    case Str(s) => s
    case Bool(b) => if b then "true" else "false"
    case Obj => "[object Object]"
    case Undefined => "undefined"
    case Arr(items) => JoinWithCommas(seq(|items|, i requires 0 <= i < |items| => ItemText(items[i])))
  }

  /** An array element's text inside an array's text: `undefined` becomes empty. */
  function ItemText(p: Param): string
    decreases p, 1
  {
    if p.Undefined? then "" else Render(p)
  }

  function JoinWithCommas(parts: seq<string>): string
  {
    if |parts| == 0 then ""
    else if |parts| == 1 then parts[0]
    else parts[0] + "," + JoinWithCommas(parts[1..])
  }
}
