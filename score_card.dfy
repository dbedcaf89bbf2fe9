/**
  The score card of the dashboard (src/components/ScoreCard.jsx): a score, possibly
  missing or not a number, is clamped to [0, 100], shown as a number and drawn as a
  bar of that width whose colour depends on the clamped value.
*/
module ScoreCard {
  import opened Wrappers
  import opened JsValue
  import Normalizer

  /** The value of the JSON number `mantissa / 10^scale`. */
  function NumberValue(mantissa: int, scale: nat): real {
    mantissa as real / Pow10(scale) as real
  }

  /**
    `Number.isFinite(score)`: only a number passes, with no conversion, and only when
    its double is finite (below 2^1024 - 2^970 in magnitude).
  */
  predicate IsFiniteNumber(score: Option<Json>) {
    && score.Some? && score.value.JNumber?
    && -(OverflowBound as real) < NumberValue(score.value.mantissa, score.value.scale) < OverflowBound as real
  }

  function Max(a: real, b: real): real {
    if a >= b then a else b
  }

  function Min(a: real, b: real): real {
    if a <= b then a else b
  }

  /** Line 4: `Math.max(0, Math.min(100, Number.isFinite(score) ? score : 0))`. */
  function Clamped(score: Option<Json>): (r: real)
    ensures 0.0 <= r <= 100.0
    ensures !IsFiniteNumber(score) ==> r == 0.0
    ensures IsFiniteNumber(score) ==>
      var x := NumberValue(score.value.mantissa, score.value.scale);
      && (0.0 <= x <= 100.0 ==> r == x)
      && (x < 0.0 ==> r == 0.0)
      && (x > 100.0 ==> r == 100.0)
  {
    var x := if IsFiniteNumber(score) then NumberValue(score.value.mantissa, score.value.scale) else 0.0;
    Max(0.0, Min(100.0, x))
  }

  /** The three bar colours. */
  datatype Band = Red | Yellow | Green

  /** Lines 5-7: red, turned green from 75 and yellow from 40. */
  function BandOf(clamped: real): (b: Band)
    ensures b == Green <==> clamped >= 75.0
    ensures b == Yellow <==> 40.0 <= clamped < 75.0
    ensures b == Red <==> clamped < 40.0
  {
    if clamped >= 75.0 then Green
    else if clamped >= 40.0 then Yellow
    else Red
  }

  /** The order of the bands, from worst to best. */
  function Rank(b: Band): nat {
    match b
    case Red => 0
    case Yellow => 1
    case Green => 2
  }

  /** A higher score never gets a worse colour. */
  lemma BandMonotone(a: real, b: real)
    requires a <= b
    ensures Rank(BandOf(a)) <= Rank(BandOf(b))
  {
  }

  /** The Tailwind class of each colour. */
  function BarClass(b: Band): (c: string)
    ensures c == "bg-green-500" <==> b == Green
    ensures c == "bg-yellow-500" <==> b == Yellow
    ensures c == "bg-red-600" <==> b == Red
  {
    match b
    case Red => "bg-red-600"
    case Yellow => "bg-yellow-500"
    case Green => "bg-green-500"
  }

  /** What one card shows: the label (`caption`), the number, and the bar's colour class and width in percent. */
  datatype Card = Card(caption: string, shown: real, barClass: string, widthPercent: real)

  /** Lines 9-19: the card of one score. */
  function Render(caption: string, score: Option<Json>): (c: Card)
    ensures c.caption == caption
    ensures c.shown == c.widthPercent && 0.0 <= c.shown <= 100.0
    ensures !IsFiniteNumber(score) ==> c.shown == 0.0
    ensures c.barClass == "bg-green-500" <==> c.shown >= 75.0
    ensures c.barClass == "bg-yellow-500" <==> 40.0 <= c.shown < 75.0
    ensures c.barClass == "bg-red-600" <==> c.shown < 40.0
  {
    var clamped := Clamped(score);
    Card(caption, clamped, BarClass(BandOf(clamped)), clamped)
  }

  /** A whole-number score inside [0, 100] is shown as it is. */
  lemma {:induction false} ClampedScore(n: int)
    requires 0 <= n <= 100
    ensures Clamped(Some(JNumber(n, 0))) == n as real
  {
    assert Pow10(0) == 1;
    assert NumberValue(n, 0) == n as real;
  }

  /** Every score the normaliser writes is shown unchanged: the clamp is the identity on it. */
  lemma NormalizedScoreShownAsIs(reply: Option<string>, parse: string -> Option<Json>, key: string)
    requires Normalizer.Normalize(reply, parse).Success?
    requires key in Normalizer.ScoreKeys
    ensures var record := Normalizer.Normalize(reply, parse).value;
      && key in record.props["scores"].props
      && var score := record.props["scores"].props[key];
      && score.JNumber? && 0 <= score.mantissa <= 100
      && Render(key, Some(score)).shown == score.mantissa as real
  {
    var record := Normalizer.Normalize(reply, parse).value;
    var score := record.props["scores"].props[key];
    ClampedScore(score.mantissa);
  }
}
