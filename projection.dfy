/** `generatePredictions`: ten projected prices extending the last two
    prices of the list it is given. The random noise and the float rounding
    (`toFixed(2)`) are kept out: a projection records what its value is
    computed from, and `Ideal` gives that value in exact arithmetic. */
module Projections {

  const ProjectionCount: nat := 10

  /** One projected point, `i`-th of ten (`step == i + 1`):
      `anchor * (1 + (draw - 0.5) * volatility * 2) * (1 + trend * step)`
      with `volatility == |change / anchor|`, rounded to cents. `draw` is the
      value `Math.random()` returned for it. */
  datatype Projection = Projection(anchor: real, change: real, trend: real, step: nat, draw: real)

  function Abs(x: real): real {
    if x < 0.0 then -x else x
  }

  /** The projected value before rounding, when the anchor is not 0 (a zero
      anchor divides by zero in the source). */
  function Ideal(p: Projection): real
    requires p.anchor != 0.0
  {
    var volatility := Abs(p.change / p.anchor);
    p.anchor * (1.0 + (p.draw - 0.5) * volatility * 2.0) * (1.0 + p.trend * p.step as real)
  }

  /** `generatePredictions(prices)`; `draw(i)` is the `i`-th `Math.random()`. */
  function GeneratePredictions(prices: seq<real>, draw: nat -> real): seq<Projection> {
    if |prices| < 2 then []
    else
      var last := prices[|prices| - 1];
      var change := last - prices[|prices| - 2];
      seq(ProjectionCount, i requires 0 <= i < ProjectionCount =>
        Projection(last, change, if change > 0.0 then 0.001 else -0.001, i + 1, draw(i)))
  }

  /** No projection from fewer than two prices, otherwise exactly ten, all
      anchored on the final price, stepping 1..10, with trend +0.001 exactly
      when the final price rose over the one before (a flat or falling step
      gives -0.001). */
  lemma PredictionsShape(prices: seq<real>, draw: nat -> real)
    ensures var r := GeneratePredictions(prices, draw);
      && (|prices| < 2 ==> r == [])
      && (|prices| >= 2 ==>
            && |r| == ProjectionCount
            && forall i :: 0 <= i < |r| ==>
                 && r[i].anchor == prices[|prices| - 1]
                 && r[i].step == i + 1
                 && r[i].draw == draw(i)
                 && (r[i].trend == 0.001 <==> prices[|prices| - 1] - prices[|prices| - 2] > 0.0)
                 && (r[i].trend == -0.001 <==> prices[|prices| - 1] - prices[|prices| - 2] <= 0.0))
  {
  }

  /** With neutral noise (`draw == 0.5`) and a positive anchor, the projected
      value lies above the anchor exactly when the trend is up, and it moves
      further from the anchor with every step. */
  lemma NeutralProjectionFollowsTrend(p: Projection, q: Projection)
    requires p.anchor > 0.0 && p.draw == 0.5 && p.step >= 1
    requires p.trend == 0.001 || p.trend == -0.001
    requires q == p.(step := p.step + 1)
    ensures Ideal(p) > p.anchor <==> p.trend > 0.0
    ensures p.trend > 0.0 ==> Ideal(q) > Ideal(p)
    ensures p.trend < 0.0 ==> Ideal(q) < Ideal(p)
  {
    var a := p.anchor;
    var s := p.step as real;
    assert Ideal(p) == a * (1.0 + p.trend * s);
    assert Ideal(q) == a * (1.0 + p.trend * (s + 1.0));
    assert Ideal(q) - Ideal(p) == a * p.trend;
    if p.trend > 0.0 {
      assert a * p.trend * s > 0.0;
    } else {
      assert a * p.trend * s < 0.0;
    }
  }
}
