/** Small shared vocabulary: optional values, which copy of a flow is
    meant, JavaScript arithmetic and the few string tests the source uses. */
module Common {

  datatype Option<+T> = None | Some(value: T)

  /** The core logic exists twice: once in the hook controllers under
      src/controllers and once inline in the routed pages under src/app.
      Where the two copies differ, operations take the copy as a parameter. */
  datatype Flow = HookController | RoutedPage

  function Max(a: int, b: int): int { if a >= b then a else b }

  function Min(a: int, b: int): int { if a <= b then a else b }

  /** `Math.trunc(a / b)`: the quotient rounded toward zero. */
  function JsTrunc(a: int, b: int): int
    requires b > 0
  {
    if a >= 0 then a / b else -((-a) / b)
  }

  /** JavaScript's `a % b` for a positive divisor: division truncates toward
      zero, so the remainder takes the sign of the dividend, and the dividend
      is the truncated quotient times the divisor plus the remainder. */
  function JsRem(a: int, b: int): (r: int)
    requires b > 0
    ensures a >= 0 ==> 0 <= r < b
    ensures a < 0 ==> -b < r <= 0
    ensures a == JsTrunc(a, b) * b + r
  {
    if a >= 0 then a % b else -((-a) % b)
  }

  /** `prefix` occurs at the start of `s`. */
  predicate StartsWith(s: string, prefix: string) {
    |prefix| <= |s| && s[..|prefix|] == prefix
  }

  /** JavaScript's `s.includes(sub)`. */
  predicate Contains(s: string, sub: string)
    decreases |s|
  {
    StartsWith(s, sub) || (s != [] && Contains(s[1..], sub))
  }

  /** Number of occurrences of `c` in `s`. */
  function Count(s: string, c: char): nat {
    if s == [] then 0 else (if s[0] == c then 1 else 0) + Count(s[1..], c)
  }

  lemma {:induction false} CountPositive(s: string, c: char)
    ensures Count(s, c) > 0 <==> c in s
  {
    if s != [] {
      CountPositive(s[1..], c);
      assert s == [s[0]] + s[1..];
    }
  }
}
