/** The markup arithmetic of the FX markup calculator.

    Given what the user paid (in the "from" currency), what they received (in
    the "to" currency) and the interbank mid rate for that pair, the
    calculator derives the user's effective rate, the percentage by which the
    broker marked the rate down, and the hidden cost in the received currency.
    Amounts and rates are mathematical reals here: the rounding and the IEEE
    special values of JavaScript's number type are not modelled.
 */
module Markup {

  /** The record the calculator shows: the rate it compared against, the
      user's effective rate, the markup in percent and the hidden cost. */
  datatype MarkupResult = MarkupResult(
    interbankRate: real,
    userRate: real,
    markup: real,
    hiddenCost: real)

  /** Units of the "to" currency the user got per unit of the "from" currency. */
  function UserRate(paid: real, received: real): (u: real)
    requires paid != 0.0
    ensures u * paid == received
  {
    received / paid
  }

  /** How far, in percent of the interbank rate, the user's rate falls short of it. */
  function MarkupPercent(interbankRate: real, userRate: real): (m: real)
    requires interbankRate != 0.0
    ensures m * interbankRate == 100.0 * (interbankRate - userRate)
  {
    ((interbankRate - userRate) / interbankRate) * 100.0
  }

  /** The amount of the received currency lost to the spread (negative: gained). */
  function HiddenCost(paid: real, interbankRate: real, userRate: real): real
  {
    paid * (interbankRate - userRate)
  }

  /** The three formulas together, as the calculator applies them. */
  function Compute(paid: real, received: real, interbankRate: real): (r: MarkupResult)
    requires paid != 0.0 && interbankRate != 0.0
    ensures r.interbankRate == interbankRate
    ensures r.userRate * paid == received
    ensures r.markup * interbankRate == 100.0 * (interbankRate - r.userRate)
    ensures r.hiddenCost == paid * interbankRate - received
  {
    var u := UserRate(paid, received);
    HiddenCostIsShortfall(paid, received, interbankRate);
    MarkupResult(interbankRate, u, MarkupPercent(interbankRate, u), HiddenCost(paid, interbankRate, u))
  }

  /** The hidden cost is what the user would have received at the interbank
      rate minus what they did receive, both in the received currency:
      paid * rate - received. */
  lemma HiddenCostIsShortfall(paid: real, received: real, interbankRate: real)
    requires paid != 0.0
    ensures HiddenCost(paid, interbankRate, UserRate(paid, received)) == paid * interbankRate - received
  {
  }

  /** The hidden cost is the markup percentage applied to the paid amount
      valued at the interbank rate. */
  lemma HiddenCostFromMarkup(paid: real, interbankRate: real, userRate: real)
    requires interbankRate != 0.0
    ensures HiddenCost(paid, interbankRate, userRate)
         == paid * interbankRate * MarkupPercent(interbankRate, userRate) / 100.0
  {
  }

  /** For a positive interbank rate the markup has the sign of
      rate - userRate: positive exactly when the user got less than the
      market rate, negative exactly when they got more, zero exactly when
      the two agree. */
  lemma MarkupSign(interbankRate: real, userRate: real)
    requires interbankRate > 0.0
    ensures MarkupPercent(interbankRate, userRate) > 0.0 <==> userRate < interbankRate
    ensures MarkupPercent(interbankRate, userRate) < 0.0 <==> userRate > interbankRate
    ensures MarkupPercent(interbankRate, userRate) == 0.0 <==> userRate == interbankRate
  {
  }

  /** The markup is zero exactly when the rates agree, whatever the sign of
      a usable (non-zero) interbank rate. */
  lemma MarkupZeroIffRatesAgree(interbankRate: real, userRate: real)
    requires interbankRate != 0.0
    ensures MarkupPercent(interbankRate, userRate) == 0.0 <==> userRate == interbankRate
  {
  }

  /** For a positive paid amount the hidden cost has the sign of
      rate - userRate, with no condition on the sign of the rate. */
  lemma HiddenCostSign(paid: real, interbankRate: real, userRate: real)
    requires paid > 0.0
    ensures HiddenCost(paid, interbankRate, userRate) > 0.0 <==> userRate < interbankRate
    ensures HiddenCost(paid, interbankRate, userRate) < 0.0 <==> userRate > interbankRate
    ensures HiddenCost(paid, interbankRate, userRate) == 0.0 <==> userRate == interbankRate
  {
  }

  /** The sign law of a computed result: with a positive paid amount and a
      positive interbank rate, markup and hidden cost are both positive when
      the user's rate is below the interbank rate, both negative when it is
      above, and both exactly zero when the two agree. */
  lemma SignLaw(paid: real, received: real, interbankRate: real)
    requires paid > 0.0 && interbankRate > 0.0
    ensures var r := Compute(paid, received, interbankRate);
      (r.userRate < interbankRate ==> r.markup > 0.0 && r.hiddenCost > 0.0) &&
      (r.userRate > interbankRate ==> r.markup < 0.0 && r.hiddenCost < 0.0) &&
      (r.userRate == interbankRate ==> r.markup == 0.0 && r.hiddenCost == 0.0)
  {
  }

  /** The sign law needs a positive interbank rate. The calculator only
      rejects a rate that is zero or missing, so a negative rate is computed
      with: then a user who got more than the quoted rate still shows a
      positive markup, while the hidden cost is negative. */
  lemma NegativeRateBreaksSignLaw()
    ensures var r := Compute(1000.0, 1250.0, -1.3);
      r.userRate > r.interbankRate && r.markup > 0.0 && r.hiddenCost < 0.0
  {
  }

  /** Worked example: 1000 paid, 1250 received against 1.30 gives a rate of
      1.25, a markup of 50/13 % (about 3.846 %) and a hidden cost of 50. */
  lemma ExampleMarkedUp()
    ensures Compute(1000.0, 1250.0, 1.3) == MarkupResult(1.3, 1.25, 50.0 / 13.0, 50.0)
  {
  }

  /** Worked example: 200 paid, 190 received against 0.90 gives a rate of
      0.95, a markup of -50/9 % (about -5.556 %) and a hidden cost of -10. */
  lemma ExampleBetterThanMarket()
    ensures Compute(200.0, 190.0, 0.9) == MarkupResult(0.9, 0.95, -50.0 / 9.0, -10.0)
  {
  }
}
