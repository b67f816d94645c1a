/**
 * Signed route payments: the buyer builds one from a request in millisats, the seller checks the claim
 * against the signed balance. The channel may be denominated in whole sats.
 */
module RoutePayments {
  import opened Base

  datatype Unit = Sat | Msat

  datatype Kind = ChannelOpen | BalanceUpdate | CooperativeClose

  datatype Refusal =
    | MissingChannel | UnknownUnit | Regressed | OverCapacity | NotSigned | WrongChannel | WrongBalance
    | MissingFunding | EmptySignature | ClaimMismatch

  datatype Payment = Payment(
    channelId: string, balance: u64, signature: string, hasParams: bool, hasProofs: bool)
  {
    predicate HasFunding() { hasParams && hasProofs }
  }

  datatype Request = Request(
    kind: Kind, channelId: string, unitName: string, paid: u64, previousPaid: u64, capacitySat: u64)

  datatype Built = Built(payment: Payment, unitName: string, balance: u64, paid: u64, includeFunding: bool)

  datatype Claim = Claim(
    channelId: string, unitName: string, balance: u64, paid: u64, capacity: u64, hasFunding: bool)

  datatype Progress = Progress(paid: u64, previousPaid: u64, capacity: u64)

  /** What a signer answers: to a payment, with funding data when asked, and to a cooperative close. */
  datatype Signer = Signer(pay: (string, u64, bool) -> Option<Payment>, close: (string, u64) -> Option<Payment>)

  // ---------------------------------------------------------------- units

  function Lower(s: string): string {
    if s == "" then "" else [if 'A' <= s[0] <= 'Z' then s[0] - 'A' + 'a' else s[0]] + Lower(s[1..])
  }

  function ParseUnit(name: string): Result<Unit, Refusal> {
    var n := Lower(Trim(name));
    if n == "" || n == "sat" || n == "sats" then Ok(Sat)
    else if n == "msat" || n == "msats" then Ok(Msat)
    else Err(UnknownUnit)
  }

  function UnitName(u: Unit): string { if u.Sat? then "sat" else "msat" }

  function ToMsat(u: Unit, balance: u64): u64 {
    if u.Sat? then SaturatingMul(balance, 1000) else balance
  }

  function FromMsat(u: Unit, paid: u64): u64 {
    if u.Sat? then (paid + 999) / 1000 else paid
  }

  lemma TrimKeepsInked(s: string)
    requires s == "" || (!IsWhite(s[0]) && !IsWhite(s[|s| - 1]))
    ensures Trim(s) == s
  {
  }

  lemma LowerSat()
    ensures Lower("sat") == "sat" && Lower("msat") == "msat"
  {
    assert "sat"[1..] == "at" && "at"[1..] == "t" && "t"[1..] == "" && "msat"[1..] == "sat";
    assert Lower("t") == "t";
    assert Lower("at") == "at";
  }

  /** A unit's printed name parses back to it. */
  lemma UnitRoundTrip(u: Unit)
    ensures ParseUnit(UnitName(u)) == Ok(u)
  {
    LowerSat();
    TrimKeepsInked(UnitName(u));
  }

  /** Lowering touches exactly the ASCII capitals. */
  lemma {:induction false} LowerExactly(s: string, k: nat)
    requires k < |s|
    ensures |Lower(s)| == |s|
    ensures Lower(s)[k] == if 'A' <= s[k] <= 'Z' then (s[k] as int + 32) as char else s[k]
  {
    if k > 0 {
      LowerExactly(s[1..], k - 1);
    } else if |s| > 1 {
      LowerExactly(s[1..], 0);
    }
  }

  /** The accepted spellings, whatever their case and the blanks around them; no name means sats. */
  lemma UnitSpellings(name: string)
    ensures ParseUnit(name) == Ok(Sat) <==> Blank(name) || Lower(Trim(name)) == "sat" || Lower(Trim(name)) == "sats"
    ensures ParseUnit(name) == Ok(Msat) <==> Lower(Trim(name)) == "msat" || Lower(Trim(name)) == "msats"
  {
    BlankIsTrimmedAway(name);
    hide Trim, Blank;
  }

  /**
   * The balance for `paid` is the least one worth at least `paid`, even where its value in millisats
   * saturates.
   */
  lemma BalanceIsLeast(u: Unit, paid: u64, balance: u64)
    ensures ToMsat(u, FromMsat(u, paid)) >= paid
    ensures ToMsat(u, balance) >= paid ==> balance >= FromMsat(u, paid)
  {
  }

  // ---------------------------------------------------------------- building and checking

  function CheckProgress(paid: u64, previousPaid: u64, capacitySat: u64): Result<Progress, Refusal> {
    if paid < previousPaid then Err(Regressed)
    else
      var capacity := SaturatingMul(capacitySat, 1000);
      if capacity > 0 && paid > capacity then Err(OverCapacity)
      else Ok(Progress(paid, previousPaid, capacity))
  }

  function Build(sign: Signer, q: Request): Result<Built, Refusal> {
    var channel := Trim(q.channelId);
    if channel == "" then Err(MissingChannel)
    else
      var u :- ParseUnit(q.unitName);
      var _ :- CheckProgress(q.paid, q.previousPaid, q.capacitySat);
      var balance := FromMsat(u, q.paid);
      var includeFunding := q.kind.ChannelOpen?;
      var signed := if q.kind.CooperativeClose? then sign.close(channel, balance)
                    else sign.pay(channel, balance, includeFunding);
      if signed.None? then Err(NotSigned)
      else if Trim(signed.value.channelId) != channel then Err(WrongChannel)
      else if signed.value.balance != balance then Err(WrongBalance)
      else if includeFunding && !signed.value.HasFunding() then Err(MissingFunding)
      else Ok(Built(signed.value, UnitName(u), balance, ToMsat(u, balance), includeFunding))
  }

  function CheckClaim(payment: Payment, expectedChannel: string, unitName: string, claimed: u64,
                      capacitySat: u64, requireFunding: bool): Result<Claim, Refusal>
  {
    var expected := Trim(expectedChannel);
    if expected == "" then Err(MissingChannel)
    else
      var channel := Trim(payment.channelId);
      if channel != expected then Err(WrongChannel)
      else if Blank(payment.signature) then Err(EmptySignature)
      else if requireFunding && !payment.HasFunding() then Err(MissingFunding)
      else
        var u :- ParseUnit(unitName);
        var paid := ToMsat(u, payment.balance);
        if paid != claimed then Err(ClaimMismatch)
        else
          var capacity := SaturatingMul(capacitySat, 1000);
          if capacity > 0 && paid > capacity then Err(OverCapacity)
          else Ok(Claim(channel, UnitName(u), payment.balance, paid, capacity, payment.HasFunding()))
  }

  // ---------------------------------------------------------------- exactly what passes

  /**
   * The seller passes a claim exactly when the signed payment is on the expected channel, signed, funded if
   * it has to be, in a known unit, worth exactly the claim, and within a positive capacity.
   */
  lemma ClaimPassesExactlyWhen(payment: Payment, channel: string, unitName: string, claimed: u64,
                               capacitySat: u64, requireFunding: bool)
    ensures CheckClaim(payment, channel, unitName, claimed, capacitySat, requireFunding).Ok? <==>
              && !Blank(channel) && Trim(payment.channelId) == Trim(channel) && !Blank(payment.signature)
              && (requireFunding ==> payment.HasFunding())
              && ParseUnit(unitName).Ok? && ToMsat(ParseUnit(unitName).value, payment.balance) == claimed
              && (capacitySat > 0 ==> claimed <= capacitySat * 1000)
    ensures CheckClaim(payment, channel, unitName, claimed, capacitySat, requireFunding).Ok? ==>
              CheckClaim(payment, channel, unitName, claimed, capacitySat, requireFunding).value
              == Claim(Trim(channel), UnitName(ParseUnit(unitName).value), payment.balance, claimed,
                       SaturatingMul(capacitySat, 1000), payment.HasFunding())
  {
    BlankIsTrimmedAway(channel);
    hide Trim, Blank, ParseUnit, ToMsat, UnitName;
    assert capacitySat > 0 ==> (claimed <= SaturatingMul(capacitySat, 1000) <==> claimed <= capacitySat * 1000);
    assert SaturatingMul(capacitySat, 1000) > 0 <==> capacitySat > 0;
  }

  /** What the signer is asked for. */
  function Signed(sign: Signer, q: Request, u: Unit): Option<Payment> {
    if q.kind.CooperativeClose? then sign.close(Trim(q.channelId), FromMsat(u, q.paid))
    else sign.pay(Trim(q.channelId), FromMsat(u, q.paid), q.kind.ChannelOpen?)
  }

  /**
   * The buyer builds a payment exactly when the channel and unit are named, the amount neither goes back
   * nor exceeds a positive capacity, and the signer signed what it was asked for, with funding to open.
   */
  lemma BuildsExactlyWhen(sign: Signer, q: Request)
    ensures Build(sign, q).Ok? <==>
              && !Blank(q.channelId) && ParseUnit(q.unitName).Ok?
              && q.previousPaid <= q.paid && (q.capacitySat > 0 ==> q.paid <= q.capacitySat * 1000)
              && var u := ParseUnit(q.unitName).value;
              && Signed(sign, q, u).Some?
              && var p := Signed(sign, q, u).value;
              && Trim(p.channelId) == Trim(q.channelId) && p.balance == FromMsat(u, q.paid)
              && (q.kind.ChannelOpen? ==> p.HasFunding())
    ensures Build(sign, q).Ok? ==>
              var u := ParseUnit(q.unitName).value;
              Build(sign, q).value
              == Built(Signed(sign, q, u).value, UnitName(u), FromMsat(u, q.paid),
                       ToMsat(u, FromMsat(u, q.paid)), q.kind.ChannelOpen?)
  {
    BlankIsTrimmedAway(q.channelId);
    hide Trim, Blank, ParseUnit, ToMsat, UnitName, FromMsat;
    assert q.capacitySat > 0 ==> (q.paid <= SaturatingMul(q.capacitySat, 1000) <==> q.paid <= q.capacitySat * 1000);
    assert SaturatingMul(q.capacitySat, 1000) > 0 <==> q.capacitySat > 0;
  }

  // ---------------------------------------------------------------- agreement

  /** Rounding up to whole sats never leaves the capacity that the requested amount respected. */
  lemma RoundingStaysWithinCapacity(u: Unit, paid: u64, capacitySat: u64)
    requires capacitySat > 0 ==> paid <= SaturatingMul(capacitySat, 1000)
    ensures capacitySat > 0 ==> ToMsat(u, FromMsat(u, paid)) <= SaturatingMul(capacitySat, 1000)
  {
  }

  lemma BuiltUnit(sign: Signer, q: Request)
    requires Build(sign, q).Ok?
    ensures ParseUnit(q.unitName).Ok?
    ensures var b, u := Build(sign, q).value, ParseUnit(q.unitName).value;
            && b.unitName == UnitName(u) && b.balance == b.payment.balance == FromMsat(u, q.paid)
            && b.paid == ToMsat(u, b.balance) && b.includeFunding == q.kind.ChannelOpen?
            && (b.includeFunding ==> b.payment.HasFunding())
            && Trim(b.payment.channelId) == Trim(q.channelId) != ""
            && q.previousPaid <= q.paid
            && (q.capacitySat > 0 ==> q.paid <= SaturatingMul(q.capacitySat, 1000))
  {
    hide Trim, ParseUnit, FromMsat, UnitName;
  }

  /**
   * Every payment the buyer builds with a non-blank signature passes the seller's check under either
   * spelling of the unit, with the buyer's own figures; it never underpays the request.
   */
  lemma BuyerAndSellerAgree(sign: Signer, q: Request)
    requires Build(sign, q).Ok?
    ensures var b := Build(sign, q).value;
            && b.paid >= q.paid
            && (!Blank(b.payment.signature) ==>
                  var claim := Claim(Trim(q.channelId), b.unitName, b.balance, b.paid,
                                     SaturatingMul(q.capacitySat, 1000), b.payment.HasFunding());
                  && CheckClaim(b.payment, q.channelId, b.unitName, b.paid, q.capacitySat, b.includeFunding)
                     == Ok(claim)
                  && CheckClaim(b.payment, q.channelId, q.unitName, b.paid, q.capacitySat, b.includeFunding)
                     == Ok(claim))
  {
    BuiltUnit(sign, q);
    var u := ParseUnit(q.unitName).value;
    UnitRoundTrip(u);
    hide Trim, ParseUnit, FromMsat, UnitName, ToMsat, Build, Blank;
    BalanceIsLeast(u, q.paid, 0);
    RoundingStaysWithinCapacity(u, q.paid, q.capacitySat);
    var b := Build(sign, q).value;
    assert SaturatingMul(q.capacitySat, 1000) > 0 <==> q.capacitySat > 0;
  }

  /** The seller's check passes only a claim that is exactly what the signed balance is worth. */
  lemma ClaimIsWorthItsBalance(payment: Payment, channel: string, unitName: string, claimed: u64,
                               capacitySat: u64, requireFunding: bool)
    requires CheckClaim(payment, channel, unitName, claimed, capacitySat, requireFunding).Ok?
    ensures var c := CheckClaim(payment, channel, unitName, claimed, capacitySat, requireFunding).value;
            && c.paid == claimed && c.balance == payment.balance
            && FromMsat(ParseUnit(unitName).value, claimed) <= c.balance
            && (claimed < U64_MAX ==> FromMsat(ParseUnit(unitName).value, claimed) == c.balance)
            && (capacitySat > 0 ==> claimed <= capacitySat * 1000)
  {
    hide Trim, ParseUnit, Blank;
  }

  // ---------------------------------------------------------------- chained payments

  /**
   * Each request continues from what the payment before it was worth, in the same unit. The signer's
   * state may change between calls, so every request comes with the signer as it then answers.
   */
  ghost predicate Chained(steps: seq<(Signer, Request)>) {
    && (forall i :: 0 <= i < |steps| ==> Build(steps[i].0, steps[i].1).Ok?)
    && (forall i :: 0 < i < |steps| ==>
          && ParseUnit(steps[i].1.unitName) == ParseUnit(steps[i - 1].1.unitName)
          && steps[i].1.previousPaid == Build(steps[i - 1].0, steps[i - 1].1).value.paid)
  }

  lemma NextBalance(sign: Signer, q: Request, sign': Signer, next: Request)
    requires Build(sign, q).Ok? && Build(sign', next).Ok? && ParseUnit(next.unitName) == ParseUnit(q.unitName)
    requires next.previousPaid == Build(sign, q).value.paid
    ensures Build(sign, q).value.balance <= Build(sign', next).value.balance
    ensures Build(sign, q).value.paid <= Build(sign', next).value.paid
  {
    BuiltUnit(sign, q);
    BuiltUnit(sign', next);
    hide Build, ParseUnit, Trim;
    var u := ParseUnit(q.unitName).value;
    BalanceIsLeast(u, q.paid, Build(sign', next).value.balance);
    BalanceIsLeast(u, next.paid, 0);
  }

  /** Along any chain of payments neither the signed balance nor its worth ever goes down. */
  lemma {:induction false} ChainNeverDecreases(steps: seq<(Signer, Request)>, i: nat, j: nat)
    requires Chained(steps) && i <= j < |steps|
    ensures Build(steps[i].0, steps[i].1).value.balance <= Build(steps[j].0, steps[j].1).value.balance
    ensures Build(steps[i].0, steps[i].1).value.paid <= Build(steps[j].0, steps[j].1).value.paid
    decreases j
  {
    hide Build, ParseUnit;
    if i < j {
      ChainNeverDecreases(steps, i, j - 1);
      assert steps[j].1.previousPaid == Build(steps[j - 1].0, steps[j - 1].1).value.paid;
      NextBalance(steps[j - 1].0, steps[j - 1].1, steps[j].0, steps[j].1);
    }
  }
}
