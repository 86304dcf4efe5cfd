/** The few general datatypes and sequence facts the other modules share. */
module Basics {

  datatype Option<+T> = None | Some(value: T)

  function Min(a: nat, b: nat): nat {
    if a < b then a else b
  }

  function Max(a: nat, b: nat): nat {
    if a < b then b else a
  }

  /** `s` without its element at position `i`. */
  function RemoveAt<T>(s: seq<T>, i: nat): seq<T>
    requires i < |s|
  {
    s[..i] + s[i + 1..]
  }

  /** A number in decimal digits. */
  function Decimal(n: nat): string {
    if n < 10 then ["0123456789"[n]] else Decimal(n / 10) + ["0123456789"[n % 10]]
  }

  /** White space as Python's str.strip knows it. */
  predicate IsPySpace(c: char) {
    var n := c as int;
    || 0x09 <= n <= 0x0d || 0x1c <= n <= 0x20 || n == 0x85 || n == 0xa0 || n == 0x1680
    || 0x2000 <= n <= 0x200a || n == 0x2028 || n == 0x2029 || n == 0x202f || n == 0x205f || n == 0x3000
  }

  function StripStart(s: string): (r: string)
    ensures |r| <= |s| && (r != "" ==> !IsPySpace(r[0]))
  {
    if s == "" || !IsPySpace(s[0]) then s else StripStart(s[1..])
  }

  function StripEnd(s: string): (r: string)
    ensures |r| <= |s| && (r != "" ==> !IsPySpace(r[|r| - 1]))
  {
    if s == "" || !IsPySpace(s[|s| - 1]) then s else StripEnd(s[..|s| - 1])
  }

  function Strip(s: string): string {
    StripEnd(StripStart(s))
  }
}
