/**
 * Metered routing: the price of delivered units, the grace window, and the decision to keep routing.
 * Amounts due are computed in 128 bits and then truncated to 64.
 */
module RoutePricing {
  import opened Base

  datatype Meter = Milliseconds | Bytes | Packets

  datatype Policy = Policy(
    meter: Meter, price: u64, perUnits: u64, maxCapacity: u64, expirySecs: u64, freeProbe: u64, grace: u64)

  datatype AccessState = FreeProbe | Paid | Grace | Suspended

  datatype Decision = Decision(
    state: AccessState, allow: bool, delivered: u64, paid: u64, due: u64, enforcedDue: u64, unpaid: u64,
    freeProbeLeft: u64, graceLeft: u64)

  const WRAP: nat := U64_MAX + 1

  function CeilDiv(a: nat, d: nat): nat
    requires d > 0
  {
    (a + d - 1) / d
  }

  function Per(p: Policy): (d: nat)
    ensures d > 0
  {
    if p.perUnits < 1 then 1 else p.perUnits
  }

  /** The millisats due for `delivered` units, truncated as the cast to 64 bits truncates. */
  function AmountDue(p: Policy, delivered: u64): u64 {
    var billable := SaturatingSub(delivered, p.freeProbe);
    if billable == 0 || p.price == 0 then 0
    else
      assert billable * p.price >= 0;
      CeilDiv(billable * p.price, Per(p)) % WRAP
  }

  function Decide(p: Policy, delivered: u64, paid: u64): Decision {
    var due := AmountDue(p, delivered);
    var limit := SaturatingAdd(p.freeProbe, p.grace);
    var enforcedDue := AmountDue(p, SaturatingSub(delivered, p.grace));
    var allow := delivered <= limit || paid >= enforcedDue;
    var state :=
      if delivered <= p.freeProbe then FreeProbe
      else if paid >= due then Paid
      else if allow then Grace
      else Suspended;
    Decision(state, allow, delivered, paid, due, enforcedDue, SaturatingSub(due, paid),
             SaturatingSub(p.freeProbe, delivered), SaturatingSub(limit, delivered))
  }

  // ---------------------------------------------------------------- the exact price

  /** The price of `units` at the policy's rate, rounded up, with no width limit. */
  function Price(p: Policy, units: nat): nat {
    assert units * p.price >= 0;
    CeilDiv(units * p.price, Per(p))
  }

  function Billable(p: Policy, delivered: nat): nat {
    if delivered > p.freeProbe then delivered - p.freeProbe else 0
  }

  /** What the buyer owes before truncation, and what the gate asks for after the grace window. */
  function Owed(p: Policy, delivered: nat): nat { Price(p, Billable(p, delivered)) }

  function Asked(p: Policy, delivered: nat): nat {
    Owed(p, if delivered > p.grace then delivered - p.grace else 0)
  }

  function GracePrice(p: Policy): nat { Price(p, p.grace) }

  lemma CeilIsLeast(a: nat, d: nat, k: nat)
    requires d > 0
    ensures k * d >= a <==> k >= CeilDiv(a, d)
  {
    var c := CeilDiv(a, d);
    assert c * d <= a + d - 1 < c * d + d;
    if k >= c {
      assert k * d >= c * d;
    } else {
      assert k * d <= (c - 1) * d;
    }
  }

  /** The price is the least whole number of millisats that covers the units at the rate. */
  lemma PriceIsLeast(p: Policy, units: nat, k: nat)
    ensures k * Per(p) >= units * p.price <==> k >= Price(p, units)
  {
    assert units * p.price >= 0;
    CeilIsLeast(units * p.price, Per(p), k);
  }

  lemma PriceSubadditive(p: Policy, m: nat, n: nat)
    ensures Price(p, m + n) <= Price(p, m) + Price(p, n)
  {
    hide Price;
    var a, b, d := Price(p, m), Price(p, n), Per(p);
    PriceIsLeast(p, m, a);
    PriceIsLeast(p, n, b);
    assert (a + b) * d == a * d + b * d;
    assert (m + n) * p.price == m * p.price + n * p.price;
    PriceIsLeast(p, m + n, a + b);
  }

  lemma LessByFactor(x: nat, y: nat, d: nat)
    ensures x * d < y * d ==> x < y
  {
    if x >= y {
      assert x * d >= y * d;
    }
  }

  /** Rounding up separately costs at most one millisat more than rounding up together. */
  lemma PriceAlmostSuperadditive(p: Policy, m: nat, n: nat)
    ensures Price(p, m) + Price(p, n) <= Price(p, m + n) + 1
  {
    hide Price;
    var a, b, c, d := Price(p, m), Price(p, n), Price(p, m + n), Per(p);
    if a > 0 && b > 0 {
      PriceIsLeast(p, m, a - 1);
      PriceIsLeast(p, n, b - 1);
      PriceIsLeast(p, m + n, c);
      assert (m + n) * p.price == m * p.price + n * p.price;
      assert (a - 1) * d + (b - 1) * d == (a - 1 + (b - 1)) * d;
      LessByFactor(a - 1 + (b - 1), c, d);
    } else {
      PriceMonotone(p, m, m + n);
      PriceMonotone(p, n, m + n);
    }
  }

  lemma PriceMonotone(p: Policy, m: nat, n: nat)
    requires m <= n
    ensures Price(p, m) <= Price(p, n)
  {
    hide Price;
    PriceIsLeast(p, n, Price(p, n));
    assert m * p.price <= n * p.price;
    PriceIsLeast(p, m, Price(p, n));
  }

  lemma NothingIsFree(p: Policy)
    ensures Price(p, 0) == 0
  {
    PriceIsLeast(p, 0, 0);
  }

  lemma OneUnitFits(p: Policy)
    ensures Price(p, 1) <= U64_MAX
  {
    assert p.price * Per(p) >= p.price;
    PriceIsLeast(p, 1, p.price);
  }

  /** The computed amount is the exact one, truncated. */
  lemma DueIsTruncated(p: Policy, delivered: u64)
    ensures AmountDue(p, delivered) == Owed(p, delivered) % WRAP
  {
    if Billable(p, delivered) == 0 || p.price == 0 {
      assert Billable(p, delivered) * p.price == 0;
      CeilIsLeast(0, Per(p), 0);
      assert 0 % WRAP == 0;
    } else {
      assert SaturatingSub(delivered, p.freeProbe) == Billable(p, delivered);
    }
  }

  lemma GateIsTruncated(p: Policy, delivered: u64)
    ensures AmountDue(p, SaturatingSub(delivered, p.grace)) == Asked(p, delivered) % WRAP
  {
    DueIsTruncated(p, SaturatingSub(delivered, p.grace));
  }

  /** The decision, in terms of exact prices only. */
  ghost predicate Gate(p: Policy, delivered: u64, paid: u64) {
    delivered <= p.freeProbe + p.grace || paid >= Asked(p, delivered) % WRAP
  }

  lemma AllowIsGate(p: Policy, delivered: u64, paid: u64)
    ensures Decide(p, delivered, paid).allow <==> Gate(p, delivered, paid)
  {
    hide AmountDue, Asked;
    GateIsTruncated(p, delivered);
  }

  /** Every figure of a decision, in terms of exact prices. */
  lemma DecisionIsExact(p: Policy, delivered: u64, paid: u64)
    ensures var d := Decide(p, delivered, paid);
            && d.delivered == delivered && d.paid == paid && (d.allow <==> Gate(p, delivered, paid))
            && d.due == Owed(p, delivered) % WRAP && d.enforcedDue == Asked(p, delivered) % WRAP
            && (if paid < d.due then d.unpaid > 0 && paid + d.unpaid == d.due else d.unpaid == 0)
            && (d.state == FreeProbe <==> delivered <= p.freeProbe)
            && (d.state == Paid <==> delivered > p.freeProbe && d.unpaid == 0)
            && (d.state == Grace <==> delivered > p.freeProbe && d.unpaid > 0 && d.allow)
            && (d.state == Suspended <==> delivered > p.freeProbe && d.unpaid > 0 && !d.allow)
  {
    hide AmountDue, Asked, Owed;
    DueIsTruncated(p, delivered);
    GateIsTruncated(p, delivered);
  }

  /**
   * The two remainders are exactly how much more can be delivered free of charge, and inside the window
   * where no payment is asked for.
   */
  lemma RemaindersAreExact(p: Policy, delivered: u64, paid: u64, more: u64)
    requires 0 < more && delivered + more <= U64_MAX
    ensures more <= Decide(p, delivered, paid).freeProbeLeft
            <==> Decide(p, delivered + more, paid).state == FreeProbe
    ensures more <= Decide(p, delivered, paid).graceLeft
            <==> delivered + more <= p.freeProbe + p.grace
    ensures more <= Decide(p, delivered, paid).graceLeft ==> Decide(p, delivered + more, 0).allow
  {
    hide AmountDue;
  }

  // ---------------------------------------------------------------- the seller's exposure

  lemma AskedPlusGrace(p: Policy, delivered: nat)
    ensures Owed(p, delivered) <= Asked(p, delivered) + GracePrice(p)
    ensures Asked(p, delivered) <= Owed(p, delivered)
    ensures delivered <= p.freeProbe + p.grace ==> Owed(p, delivered) <= GracePrice(p) && Asked(p, delivered) == 0
    ensures delivered > p.freeProbe + p.grace ==> Asked(p, delivered) + GracePrice(p) <= Owed(p, delivered) + 1
  {
    hide Price;
    NothingIsFree(p);
    var b := Billable(p, delivered);
    if delivered <= p.freeProbe + p.grace {
      PriceMonotone(p, b, p.grace);
    } else {
      PriceSubadditive(p, b - p.grace, p.grace);
      PriceAlmostSuperadditive(p, b - p.grace, p.grace);
      PriceMonotone(p, b - p.grace, b);
    }
  }

  /**
   * Whenever routing is allowed, what is owed beyond what was paid is at most the price of the grace
   * units, as long as the amount the gate asks for fits in 64 bits.
   */
  lemma ExposureIsBounded(p: Policy, delivered: u64, paid: u64)
    requires Asked(p, delivered) <= U64_MAX && Decide(p, delivered, paid).allow
    ensures Owed(p, delivered) <= paid + GracePrice(p)
    ensures Decide(p, delivered, paid).unpaid <= GracePrice(p)
  {
    hide Asked, Owed, GracePrice, AmountDue;
    AllowIsGate(p, delivered, paid);
    AskedPlusGrace(p, delivered);
    DueIsTruncated(p, delivered);
  }

  lemma TruncationOnlyLowers(n: nat)
    ensures n % WRAP <= n
    ensures n > U64_MAX ==> n % WRAP + WRAP <= n
  {
  }

  /**
   * For every policy the bound holds for every payment exactly when the amount asked for fits in 64 bits:
   * past that, truncation lets through a balance that is short by 2^64 or more.
   */
  lemma ExposureIsBoundedExactlyWhen(p: Policy, delivered: u64)
    ensures (forall paid: u64 :: Decide(p, delivered, paid).allow ==> Owed(p, delivered) <= paid + GracePrice(p))
            <==> Asked(p, delivered) <= U64_MAX
  {
    hide Asked, Owed, GracePrice, Decide;
    if Asked(p, delivered) <= U64_MAX {
      forall paid: u64 | Decide(p, delivered, paid).allow
        ensures Owed(p, delivered) <= paid + GracePrice(p)
      {
        ExposureIsBounded(p, delivered, paid);
      }
    } else {
      AskedPlusGrace(p, delivered);
      TruncationOnlyLowers(Asked(p, delivered));
      var paid: u64 := Asked(p, delivered) % WRAP;
      AllowIsGate(p, delivered, paid);
      assert Decide(p, delivered, paid).allow;
    }
  }

  // ---------------------------------------------------------------- allowing and suspending

  /** Routing is allowed exactly when the state is not Suspended, provided what is owed fits. */
  lemma AllowedIffNotSuspended(p: Policy, delivered: u64, paid: u64)
    requires Owed(p, delivered) <= U64_MAX
    ensures Decide(p, delivered, paid).allow <==> Decide(p, delivered, paid).state != Suspended
  {
    hide Asked, Owed, AmountDue, GracePrice;
    DueIsTruncated(p, delivered);
    GateIsTruncated(p, delivered);
    AskedPlusGrace(p, delivered);
  }

  /**
   * Without that proviso the two agree for every payment exactly when the truncated price asked for does
   * not exceed the truncated price owed, or the usage is inside the grace window.
   */
  lemma AllowedIffNotSuspendedExactlyWhen(p: Policy, delivered: u64)
    ensures (forall paid: u64 ::
               Decide(p, delivered, paid).allow <==> Decide(p, delivered, paid).state != Suspended)
            <==> (delivered <= p.freeProbe + p.grace
                  || Asked(p, delivered) % WRAP <= Owed(p, delivered) % WRAP)
  {
    hide Asked, Owed, AmountDue;
    DueIsTruncated(p, delivered);
    GateIsTruncated(p, delivered);
    if delivered > p.freeProbe + p.grace && Asked(p, delivered) % WRAP > Owed(p, delivered) % WRAP {
      var paid: u64 := Owed(p, delivered) % WRAP;
      assert !(Decide(p, delivered, paid).allow <==> Decide(p, delivered, paid).state != Suspended);
    }
  }

  /** More paid never closes the gate. */
  lemma PayingMoreNeverSuspends(p: Policy, delivered: u64, paid: u64, more: u64)
    requires paid <= more && Decide(p, delivered, paid).allow
    ensures Decide(p, delivered, more).allow
  {
    hide AmountDue;
  }

  lemma AskedMonotone(p: Policy, m: nat, n: nat)
    requires m <= n
    ensures Asked(p, m) <= Asked(p, n)
  {
    hide Price;
    var i := if m > p.grace then m - p.grace else 0;
    var j := if n > p.grace then n - p.grace else 0;
    PriceMonotone(p, Billable(p, i), Billable(p, j));
  }

  lemma AskedStep(p: Policy, n: nat)
    ensures Asked(p, n + 1) <= Asked(p, n) + U64_MAX
  {
    hide Price;
    OneUnitFits(p);
    var b := Billable(p, if n > p.grace then n - p.grace else 0);
    PriceSubadditive(p, b, 1);
  }

  /** Up to `n` delivered units, the gate never reopens by delivering more. */
  ghost predicate NeverReopens(p: Policy, n: u64) {
    forall i: u64, j: u64, paid: u64 :: i <= j <= n && Decide(p, j, paid).allow ==> Decide(p, i, paid).allow
  }

  /** The last delivery count whose asked price still fits. */
  lemma {:induction false} LastThatFits(p: Policy, n: nat) returns (m: nat)
    requires Asked(p, n) > U64_MAX
    ensures m < n && Asked(p, m) <= U64_MAX < Asked(p, m + 1)
    decreases n
  {
    hide Asked;
    AskedPlusGrace(p, 0);
    if Asked(p, n - 1) <= U64_MAX {
      m := n - 1;
    } else {
      m := LastThatFits(p, n - 1);
    }
  }

  lemma FittingNeverReopens(p: Policy, i: u64, j: u64, paid: u64)
    requires i <= j && Asked(p, j) <= U64_MAX && Decide(p, j, paid).allow
    ensures Decide(p, i, paid).allow
  {
    hide Asked, Decide;
    AllowIsGate(p, j, paid);
    AllowIsGate(p, i, paid);
    AskedMonotone(p, i, j);
    AskedPlusGrace(p, i);
  }

  /** The gate is monotone in usage up to `n` exactly when the amount asked for at `n` fits in 64 bits. */
  lemma NeverReopensExactlyWhen(p: Policy, n: u64)
    ensures NeverReopens(p, n) <==> Asked(p, n) <= U64_MAX
  {
    hide Asked, Decide;
    if Asked(p, n) <= U64_MAX {
      forall i: u64, j: u64, paid: u64 | i <= j <= n && Decide(p, j, paid).allow
        ensures Decide(p, i, paid).allow
      {
        AskedMonotone(p, j, n);
        FittingNeverReopens(p, i, j, paid);
      }
    } else {
      var m := LastThatFits(p, n);
      Reopens(p, m);
    }
  }

  /** Where the asked price wraps, one more delivered unit reopens the gate to some balance. */
  lemma Reopens(p: Policy, m: u64)
    requires m < U64_MAX && Asked(p, m) <= U64_MAX < Asked(p, m + 1)
    ensures exists paid: u64 :: Decide(p, m + 1, paid).allow && !Decide(p, m, paid).allow
  {
    hide Asked, Decide;
    AskedStep(p, m);
    AskedPlusGrace(p, m);
    var paid: u64 := Asked(p, m + 1) % WRAP;
    assert Asked(p, m + 1) < 2 * WRAP;
    assert paid == Asked(p, m + 1) - WRAP < Asked(p, m);
    AllowIsGate(p, m, paid);
    AllowIsGate(p, m + 1, paid);
    assert Decide(p, m + 1, paid).allow && !Decide(p, m, paid).allow;
  }

  /** A concrete policy: two units at the top price are free once truncated to almost nothing. */
  lemma TruncationOpensTheGate()
    ensures var p := Policy(Bytes, U64_MAX, 1, 0, 0, 0, 0);
            && Owed(p, 2) == 2 * U64_MAX && GracePrice(p) == 0
            && !Decide(p, 1, U64_MAX - 1).allow && Decide(p, 2, U64_MAX - 1).allow
  {
  }

  /**
   * A concrete disagreement: with one unit of grace at the top price, the truncated price owed is below
   * the one asked for, and a buyer is reported as paid while routing is refused.
   */
  lemma PaidButRefused()
    ensures var d := Decide(Policy(Bytes, U64_MAX, 1, 0, 0, 0, 1), 2, U64_MAX - 1);
            d.state == Paid && !d.allow
  {
  }
}
