/** Values and JavaScript built-ins that every part of the marketplace model shares. */
module Common {

  /** A nullable column or an absent value (`null`/`undefined`). */
  datatype Option<+T> = None | Some(value: T)

  /** `x || 0` on a nullable number column: null reads as zero. */
  function OrZero(x: Option<int>): int {
    if x.Some? then x.value else 0
  }

  /** `x || false` on a nullable boolean column. */
  function OrFalse(x: Option<bool>): bool {
    x.Some? && x.value
  }

  /** JavaScript truthiness of an optional string: null and "" are falsy. */
  predicate Truthy(s: Option<string>) {
    s.Some? && s.value != ""
  }

  /**
   * `Math.round(n / d)` for integers and a positive divisor: JavaScript rounds
   * halves toward positive infinity, i.e. floor(n/d + 1/2), which Euclidean
   * division computes exactly as (2n + d) / (2d).
   */
  function JsRound(n: int, d: int): int
    requires d > 0
  {
    (2 * n + d) / (2 * d)
  }

  /** JsRound(n, d) is the integer nearest to n/d, with halves going up. */
  lemma JsRoundIsNearest(n: int, d: int)
    requires d > 0
    ensures 2 * d * JsRound(n, d) <= 2 * n + d < 2 * d * JsRound(n, d) + 2 * d
  {
    var q := JsRound(n, d);
    var m := (2 * n + d) % (2 * d);
    assert 2 * n + d == (2 * d) * q + m;
  }

  /** Multiplying both sides of an inequality by a non-negative factor. */
  lemma MulMonotone(x: int, y: int, q: int)
    requires x <= y && q >= 0
    ensures x * q <= y * q
  {
  }

  /** ... and of a strict one by a positive factor. */
  lemma MulStrict(x: int, y: int, q: int)
    requires x < y && q > 0
    ensures x * q < y * q
  {
  }

  /** `s.slice(0, n)` / `s.substring(0, n)` for n >= 0. */
  function Take(s: string, n: nat): (r: string)
    ensures |r| == if n <= |s| then n else |s|
    ensures r <= s
  {
    if n <= |s| then s[..n] else s
  }

  /** `s.startsWith(p)`. */
  predicate StartsWith(s: string, p: string) {
    |p| <= |s| && s[..|p|] == p
  }

  /** `s.includes(t)`: t occurs in s as a contiguous block. */
  predicate Includes(s: string, t: string) {
    exists i | 0 <= i <= |s| - |t| :: OccursAt(s, t, i)
  }

  /** t occurs in s starting at index i. */
  predicate OccursAt(s: string, t: string, i: int) {
    0 <= i <= |s| - |t| && s[i..i + |t|] == t
  }

  /** Lower-casing restricted to ASCII letters. */
  function LowerChar(c: char): (r: char)
    ensures 'A' <= c <= 'Z' ==> 'a' <= r <= 'z'
    ensures !('A' <= c <= 'Z') ==> r == c
  {
    if 'A' <= c <= 'Z' then (c as int + 32) as char else c
  }

  /** `s.toLowerCase()` on ASCII: same length, each letter lowered in place. */
  function ToLower(s: string): (r: string)
    ensures |r| == |s|
    ensures forall i :: 0 <= i < |s| ==> r[i] == LowerChar(s[i])
  {
    if s == [] then [] else [LowerChar(s[0])] + ToLower(s[1..])
  }

  /** Value of one hexadecimal digit, either case. */
  function HexDigit(c: char): Option<nat> {
    if '0' <= c <= '9' then Some(c as int - '0' as int)
    else if 'a' <= c <= 'f' then Some(c as int - 'a' as int + 10)
    else if 'A' <= c <= 'F' then Some(c as int - 'A' as int + 10)
    else None
  }

  /** Length of the longest prefix of s made of hexadecimal digits. */
  function HexPrefixLength(s: string): (n: nat)
    ensures n <= |s|
    ensures forall i :: 0 <= i < n ==> HexDigit(s[i]).Some?
    ensures n < |s| ==> HexDigit(s[n]).None?
  {
    if s == [] || HexDigit(s[0]).None? then 0 else 1 + HexPrefixLength(s[1..])
  }

  /** Value of a string made only of hexadecimal digits, most significant first. */
  function HexValue(s: string): nat
    requires forall i :: 0 <= i < |s| ==> HexDigit(s[i]).Some?
  {
    if s == [] then 0 else HexValue(s[..|s| - 1]) * 16 + HexDigit(s[|s| - 1]).value
  }

  /**
   * `parseInt(s, 16)` on a string without leading blanks, sign or "0x": the
   * value of the longest hexadecimal prefix, or NaN (None) when there is none.
   */
  function ParseHex(s: string): (r: Option<nat>)
    ensures r.None? <==> (s == [] || HexDigit(s[0]).None?)
  {
    var n := HexPrefixLength(s);
    if n == 0 then None else Some(HexValue(s[..n]))
  }

  /** Decimal digits of a natural number, as a JavaScript template prints it. */
  function NatToString(n: nat): (r: string)
    ensures |r| >= 1
    ensures forall i :: 0 <= i < |r| ==> '0' <= r[i] <= '9'
  {
    var d := [(n % 10 + '0' as int) as char];
    if n < 10 then d else NatToString(n / 10) + d
  }

  /** `${n}` for an integer. */
  function IntToString(n: int): string {
    if n < 0 then "-" + NatToString(-n) else NatToString(n)
  }

  /** The number of true values among b1, b2, b3 (`filter(Boolean).length`). */
  function CountTrue(bs: seq<bool>): (n: nat)
    ensures n <= |bs|
  {
    if bs == [] then 0 else (if bs[0] then 1 else 0) + CountTrue(bs[1..])
  }
}
