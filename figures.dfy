/**
 * The figures the dashboard derives from its account constants and the
 * relief flag: current balance, available credit, minimum payment due and
 * the utilisation bar. Currency is exact `real` arithmetic, so the decimal
 * literals of the component mean exactly what they say.
 */
module FinancialState {

  /** The account constants the figures are computed from. */
  datatype Account = Account(
    creditLimit: real,
    baseBalance: real,
    reliefAmount: real,
    minDueBeforeRelief: real)

  /** The constants hard-coded in the component. */
  const Mock := Account(22000.0, 21760.87, 21500.0, 652.0)

  /** The ranges the constants are meant to lie in. */
  predicate WellFormed(a: Account) {
    && a.creditLimit > 0.0
    && a.baseBalance >= 0.0
    && a.reliefAmount >= 0.0
    && a.minDueBeforeRelief >= 0.0
  }

  /** `Math.max(0, x)`: the least value that is at least both 0 and `x`. */
  function ClampAtZero(x: real): (r: real)
    ensures r >= 0.0 && r >= x
    ensures r == x || r == 0.0
  {
    if x < 0.0 then 0.0 else x
  }

  /** `Math.min(100, x)`: the greatest value that is at most both 100 and `x`. */
  function CapAtHundred(x: real): (r: real)
    ensures r <= 100.0 && r <= x
    ensures r == x || r == 100.0
  {
    if x > 100.0 then 100.0 else x
  }

  /** The balance shown: the base balance, lowered by the relief credit once relief is active. */
  function CurrentBalance(a: Account, reliefActive: bool): (r: real)
    ensures !reliefActive ==> r == a.baseBalance
    ensures reliefActive ==> r >= 0.0
    ensures reliefActive && a.reliefAmount <= a.baseBalance ==> r == a.baseBalance - a.reliefAmount
    ensures reliefActive && a.reliefAmount >= a.baseBalance ==> r == 0.0
  {
    if reliefActive then ClampAtZero(a.baseBalance - a.reliefAmount) else a.baseBalance
  }

  /** The credit still available under the limit, never shown as negative. */
  function AvailableCredit(a: Account, reliefActive: bool): (r: real)
    ensures r >= 0.0
    ensures CurrentBalance(a, reliefActive) <= a.creditLimit ==>
              CurrentBalance(a, reliefActive) + r == a.creditLimit
    ensures CurrentBalance(a, reliefActive) >= a.creditLimit ==> r == 0.0
  {
    ClampAtZero(a.creditLimit - CurrentBalance(a, reliefActive))
  }

  /** The minimum payment due: relief discharges it entirely, and never raises it. */
  function MinimumPaymentDue(a: Account, reliefActive: bool): (r: real)
    ensures reliefActive ==> r == 0.0
    ensures a.minDueBeforeRelief >= 0.0 ==> 0.0 <= r <= a.minDueBeforeRelief
  {
    if reliefActive then 0.0 else a.minDueBeforeRelief
  }

  /** Utilisation of a credit line in percent, as the width of the progress bar. */
  function Usage(balance: real, creditLimit: real): (r: real)
    requires creditLimit > 0.0
    ensures r <= 100.0
    ensures balance >= 0.0 ==> r >= 0.0
    ensures balance <= creditLimit ==> r * creditLimit == balance * 100.0
    ensures balance >= creditLimit ==> r == 100.0
  {
    var ratio := balance / creditLimit;
    assert ratio * creditLimit == balance;
    assert balance >= creditLimit ==> ratio >= 1.0;
    CapAtHundred(ratio * 100.0)
  }

  /** The utilisation bar of the dashboard. */
  function UsagePct(a: Account, reliefActive: bool): (r: real)
    requires a.creditLimit > 0.0
    ensures 0.0 <= r <= 100.0 || (!reliefActive && a.baseBalance < 0.0)
  {
    Usage(CurrentBalance(a, reliefActive), a.creditLimit)
  }

  /** Everything the screens display that is computed, recomputed on each render. */
  datatype Snapshot = Snapshot(
    currentBalance: real,
    availableCredit: real,
    usagePct: real,
    minimumPaymentDue: real)

  function Derive(a: Account, reliefActive: bool): (s: Snapshot)
    requires a.creditLimit > 0.0
    ensures WellFormed(a) ==>
              && s.currentBalance >= 0.0
              && s.availableCredit >= 0.0
              && 0.0 <= s.usagePct <= 100.0
              && s.minimumPaymentDue >= 0.0
  {
    Snapshot(
      CurrentBalance(a, reliefActive),
      AvailableCredit(a, reliefActive),
      UsagePct(a, reliefActive),
      MinimumPaymentDue(a, reliefActive))
  }

  /** Relief zeroes the minimum due; without it the pre-relief figure is shown. */
  lemma MinimumDueRule(a: Account)
    ensures MinimumPaymentDue(a, true) == 0.0
    ensures MinimumPaymentDue(a, false) == a.minDueBeforeRelief
  {
  }

  /** The minimum due depends on nothing but the flag and the pre-relief figure: not on the balance clamp. */
  lemma MinimumDueIgnoresBalance(a: Account, b: Account, reliefActive: bool)
    requires a.minDueBeforeRelief == b.minDueBeforeRelief
    ensures MinimumPaymentDue(a, reliefActive) == MinimumPaymentDue(b, reliefActive)
  {
  }

  /** A larger balance never shows a smaller utilisation. */
  lemma UsageMonotone(b1: real, b2: real, creditLimit: real)
    requires creditLimit > 0.0
    requires b1 <= b2
    ensures Usage(b1, creditLimit) <= Usage(b2, creditLimit)
  {
    var q1, q2 := b1 / creditLimit, b2 / creditLimit;
    assert q1 <= q2 by {
      assert q1 * creditLimit == b1 && q2 * creditLimit == b2;
    }
  }

  /** Activating relief never raises the balance or the utilisation, and never lowers the available credit. */
  lemma ReliefOnlyImproves(a: Account)
    requires WellFormed(a)
    ensures CurrentBalance(a, true) <= CurrentBalance(a, false)
    ensures AvailableCredit(a, true) >= AvailableCredit(a, false)
    ensures UsagePct(a, true) <= UsagePct(a, false)
  {
    UsageMonotone(CurrentBalance(a, true), CurrentBalance(a, false), a.creditLimit);
  }

  /**
   * The dashboard's own numbers, before and after relief. The percentages
   * are stated as the intervals that round to the two-decimal figures.
   */
  lemma MockFigures()
    ensures Derive(Mock, false).currentBalance == 21760.87
    ensures Derive(Mock, false).availableCredit == 239.13
    ensures 98.905 <= Derive(Mock, false).usagePct < 98.915
    ensures Derive(Mock, false).minimumPaymentDue == 652.0
    ensures Derive(Mock, true).currentBalance == 260.87
    ensures Derive(Mock, true).availableCredit == 21739.13
    ensures 1.185 <= Derive(Mock, true).usagePct < 1.195
    ensures Derive(Mock, true).minimumPaymentDue == 0.0
  {
  }
}
