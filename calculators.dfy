/**
 * Price and loyalty credits of a single performance, given its resolved play.
 */
module Calculators {
  import opened Domain

  /** `Math.max` on integers. */
  function Max(a: int, b: int): (m: int)
    ensures m >= a && m >= b
    ensures m == a || m == b
  {
    if a >= b then a else b
  }

  /** Java's `/` on `int` for a positive divisor: the quotient is truncated toward zero. */
  function TruncDiv(a: int, b: int): (q: int)
    requires b > 0
    ensures 0 <= a ==> 0 <= q && q * b <= a < q * b + b
    ensures a < 0 ==> q <= 0 && q * b - b < a <= q * b
  {
    if a >= 0 then a / b else -((-a) / b)
  }

  /** The seats above a threshold, zero when there are none. */
  function Excess(audience: int, threshold: int): (n: int)
    ensures n >= 0
    ensures audience <= threshold ==> n == 0
    ensures audience > threshold ==> n + threshold == audience
  {
    Max(audience - threshold, 0)
  }

  /**
   * The amount owed for one performance, in cents.  Tragedies pay a base plus a
   * per-seat surcharge above their threshold; comedies pay a base, a flat and a
   * per-seat surcharge above their threshold, and a per-seat amount on every seat;
   * any other type tag fails with that tag.
   */
  function Amount(c: Pricing, performance: Performance, play: Play): (r: Result<int>)
    ensures r.Err? <==> play.playType != "tragedy" && play.playType != "comedy"
    ensures r.Err? ==> r.error == UnknownType(play.playType)
    ensures play.playType == "tragedy" ==>
      r == Ok(c.tragedyBaseAmount
              + c.tragedyOverBaseCapacityPerPerson * Excess(performance.audience, c.tragedyAudienceThreshold))
    ensures play.playType == "comedy" ==>
      r == Ok(c.comedyBaseAmount
              + (if performance.audience > c.comedyAudienceThreshold then c.comedyOverBaseCapacityAmount else 0)
              + c.comedyOverBaseCapacityPerPerson * Excess(performance.audience, c.comedyAudienceThreshold)
              + c.comedyAmountPerAudience * performance.audience)
    ensures r.Ok? && performance.audience >= 0 ==>
      r.value >= if play.playType == "tragedy" then c.tragedyBaseAmount else c.comedyBaseAmount
  {
    var audience := performance.audience;
    match Classify(play.playType)
    case Tragedy =>
      var thisAmount := c.tragedyBaseAmount;
      if audience > c.tragedyAudienceThreshold then
        Ok(thisAmount + c.tragedyOverBaseCapacityPerPerson * (audience - c.tragedyAudienceThreshold))
      else
        Ok(thisAmount)
    case Comedy =>
      var thisAmount := c.comedyBaseAmount;
      var surcharged :=
        if audience > c.comedyAudienceThreshold then
          thisAmount + (c.comedyOverBaseCapacityAmount
                        + c.comedyOverBaseCapacityPerPerson * (audience - c.comedyAudienceThreshold))
        else thisAmount;
      Ok(surcharged + c.comedyAmountPerAudience * audience)
    case Other(tag) =>
      Err(UnknownType(tag))
  }

  /**
   * The loyalty credits of one performance: one per seat above the base threshold,
   * plus, for a comedy only, one per whole COMEDY_EXTRA_VOLUME_FACTOR seats.
   * The play type is only compared with "comedy", so an unknown type never fails here.
   */
  function VolumeCredits(c: Pricing, performance: Performance, play: Play): (r: int)
    ensures performance.audience >= 0 ==> r >= 0
    ensures play.playType != "comedy" ==> r == Excess(performance.audience, c.baseVolumeCreditThreshold)
  {
    var volumeCredits := Max(performance.audience - c.baseVolumeCreditThreshold, 0);
    if play.playType == "comedy" then
      volumeCredits + TruncDiv(performance.audience, c.comedyExtraVolumeFactor)
    else
      volumeCredits
  }

  /**
   * A comedy's bonus over the base credits is Java's quotient of the audience by
   * COMEDY_EXTRA_VOLUME_FACTOR: rounded down for a non-negative audience, and
   * toward zero (so up) for a negative one.
   */
  lemma VolumeCreditsComedyBonus(c: Pricing, performance: Performance, play: Play)
    requires play.playType == "comedy"
    ensures var bonus := VolumeCredits(c, performance, play) - Excess(performance.audience, c.baseVolumeCreditThreshold);
      var f, a := c.comedyExtraVolumeFactor, performance.audience;
      && (a >= 0 ==> 0 <= bonus * f <= a < bonus * f + f)
      && (a < 0 ==> bonus <= 0 && bonus * f - f < a <= bonus * f)
  {
    var q := TruncDiv(performance.audience, c.comedyExtraVolumeFactor);
    assert VolumeCredits(c, performance, play) - Excess(performance.audience, c.baseVolumeCreditThreshold) == q;
  }

  /** Multiplying by a non-negative factor keeps the order. */
  lemma MulMonotone(k: int, x: int, y: int)
    requires k >= 0 && x <= y
    ensures k * x <= k * y
  {
  }

  /** A strict inequality between multiples of a positive number carries over to the factors. */
  lemma MulCancel(b: int, x: int, y: int)
    requires b > 0 && x * b < y * b
    ensures x < y
  {
    if x >= y {
      MulMonotone(b, y, x);
    }
  }

  /** Truncating division by a positive divisor is non-decreasing. */
  lemma TruncDivMonotone(a1: int, a2: int, b: int)
    requires b > 0 && a1 <= a2
    ensures TruncDiv(a1, b) <= TruncDiv(a2, b)
  {
    var q1, q2 := TruncDiv(a1, b), TruncDiv(a2, b);
    if a1 < 0 <= a2 {
      assert q1 <= 0 <= q2;
    } else {
      // on one side of zero both quotients bracket their dividends from the same side
      assert (q2 + 1) * b == q2 * b + b;
      assert q1 * b < (q2 + 1) * b;
      MulCancel(b, q1, q2 + 1);
    }
  }

  /** For a recognised type, a larger audience never costs less. */
  lemma AmountMonotone(c: Pricing, p1: Performance, p2: Performance, play: Play)
    requires play.playType == "tragedy" || play.playType == "comedy"
    requires p1.audience <= p2.audience
    ensures Amount(c, p1, play).value <= Amount(c, p2, play).value
  {
    if play.playType == "tragedy" {
      MulMonotone(c.tragedyOverBaseCapacityPerPerson,
                  Excess(p1.audience, c.tragedyAudienceThreshold),
                  Excess(p2.audience, c.tragedyAudienceThreshold));
    } else {
      MulMonotone(c.comedyOverBaseCapacityPerPerson,
                  Excess(p1.audience, c.comedyAudienceThreshold),
                  Excess(p2.audience, c.comedyAudienceThreshold));
      MulMonotone(c.comedyAmountPerAudience, p1.audience, p2.audience);
    }
  }

  /** For a fixed play, a larger audience never earns fewer credits. */
  lemma VolumeCreditsMonotone(c: Pricing, p1: Performance, p2: Performance, play: Play)
    requires p1.audience <= p2.audience
    ensures VolumeCredits(c, p1, play) <= VolumeCredits(c, p2, play)
  {
    TruncDivMonotone(p1.audience, p2.audience, c.comedyExtraVolumeFactor);
  }
}
