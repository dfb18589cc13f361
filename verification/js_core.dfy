/** JavaScript value conventions the dashboard relies on: optional values,
    truthiness of `a || b || "default"` chains, `Math.round`/`Math.ceil` on the
    numbers the dashboard produces, and decimal rendering of counts. */
module JsCore {

  /** An optional value: `None` is `undefined`/`null`, or a field that is absent. */
  datatype Option<+T> = None | Some(value: T)

  /** JavaScript truthiness of an optional string field: `undefined`, `null`
      and the empty string are falsy, every other string is truthy. */
  predicate Truthy(o: Option<string>)
  {
    o.Some? && o.value != ""
  }

  /** The value of `alts[0] || alts[1] || ... || default`: the first truthy
      alternative, or the default when none is truthy. */
  function FirstTruthy(alts: seq<Option<string>>, default: string): (r: string)
    ensures (forall i | 0 <= i < |alts| :: !Truthy(alts[i])) ==> r == default
    ensures forall i | 0 <= i < |alts| && Truthy(alts[i]) && NoneTruthyBefore(alts, i) ::
              r == alts[i].value
  {
    if alts == [] then default
    else if Truthy(alts[0]) then
      assert forall i | 0 < i < |alts| :: !NoneTruthyBefore(alts, i);
      alts[0].value
    else
      var r := FirstTruthy(alts[1..], default);
      assert forall i | 0 < i < |alts| :: alts[i] == alts[1..][i - 1];
      assert forall i | 0 < i < |alts| && NoneTruthyBefore(alts, i) :: NoneTruthyBefore(alts[1..], i - 1);
      r
  }

  /** No alternative before position `i` is truthy. */
  predicate NoneTruthyBefore(alts: seq<Option<string>>, i: int)
    requires 0 <= i <= |alts|
  {
    forall j | 0 <= j < i :: !Truthy(alts[j])
  }

  /** How a template literal `${x}` renders an optional string. */
  function Display(o: Option<string>): string
  {
    match o
    case Some(s) => s
    case None => "undefined"
  }

  /** `Math.round` on a finite number: halves round towards +infinity. */
  function Round(x: real): (r: int)
    ensures x - 0.5 < r as real <= x + 0.5
  {
    (x + 0.5).Floor
  }

  /** `Math.ceil(a / b)` for a positive integer divisor `b`. Dafny's `/` on a
      positive divisor rounds towards -infinity, so the ceiling is the negated
      floor of the negated numerator. */
  function CeilDiv(a: int, b: int): (r: int)
    requires b > 0
    ensures (r - 1) * b < a <= r * b
  {
    -((-a) / b)
  }

  /** Decimal digits of a natural number, as `String(n)` renders it. */
  function NatToString(n: nat): (s: string)
    ensures |s| >= 1
    ensures forall i | 0 <= i < |s| :: '0' <= s[i] <= '9'
    ensures n > 0 ==> s[0] != '0'
    ensures ValueOf(s) == n
  {
    if n < 10 then [Digit(n)]
    else
      var s := NatToString(n / 10) + [Digit(n % 10)];
      assert s[..|s| - 1] == NatToString(n / 10);
      s
  }

  /** The number a string of decimal digits denotes. */
  function ValueOf(s: string): int
  {
    if s == [] then 0 else ValueOf(s[..|s| - 1]) * 10 + (s[|s| - 1] as int - '0' as int)
  }

  function Digit(d: nat): (c: char)
    requires d < 10
    ensures c as int - '0' as int == d
  {
    (48 + d) as char
  }

  /** `Math.floor` is monotone; the grid labels of the bar chart rely on it. */
  lemma RoundMonotone(x: real, y: real)
    requires x <= y
    ensures Round(x) <= Round(y)
  {
  }
}
