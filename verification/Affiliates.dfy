/**
 Affiliate commissions: created from paid invoices, released after a hold, reversed by refunds and
 disputes.

 Stored amounts are whole cents, rates hundredths of a percent.  Amounts in billing events are
 decimals.  Divisions and products of decimals go through the decimal context, which rounds to 28
 significant digits: it appears as a parameter `dec`, of which only monotonicity and exactness on
 0, 1 and storable amounts are used.
 */
module Affiliates {
  import opened Prelude

  type User = nat

  // ---------------------------------------------------------------- rounding

  /** To the nearest integer, ties away from zero. */
  function HalfUp(x: real): int {
    if x >= 0.0 then (x + 0.5).Floor else -((-x + 0.5).Floor)
  }

  /** Amounts are stored with fourteen digits. */
  const Limit := 100_000_000_000_000

  predicate Storable(x: real) {
    x == x.Floor as real && 0.0 <= x < Limit as real
  }

  ghost predicate DecimalContext(dec: real -> real) {
    && (forall x, y :: x <= y ==> dec(x) <= dec(y))
    && dec(0.0) == 0.0
    && dec(1.0) == 1.0
    && (forall x :: Storable(x) ==> dec(x) == x)
  }

  /** Exact arithmetic is such a context. */
  lemma ExactArithmeticQualifies()
    ensures DecimalContext((x: real) => x)
  {
  }

  lemma HalfUpNearest(x: real)
    ensures -0.5 <= HalfUp(x) as real - x <= 0.5
    ensures HalfUp(x) as real - x == 0.5 ==> x >= 0.0
    ensures HalfUp(x) as real - x == -0.5 ==> x < 0.0
  {
  }

  lemma HalfUpMonotone(x: real, y: real)
    requires x <= y
    ensures HalfUp(x) <= HalfUp(y)
  {
  }

  lemma HalfUpWhole(n: int)
    ensures HalfUp(n as real) == n
  {
  }

  // ---------------------------------------------------------------- amounts of events

  /** A JSON amount; `Absent` is missing, null or empty text. Zero counts as no amount when it is a
      number and as an amount when it is text. */
  datatype Amount = Absent | Num(value: real) | Str(value: real) | Garbage

  predicate Truthy(a: Amount) {
    a.Str? || a.Garbage? || (a.Num? && a.value != 0.0)
  }

  function Or(a: Amount, b: Amount): Amount {
    if Truthy(a) then a else b
  }

  /** Cents, or none for an amount that is no number. */
  function Money(a: Amount): Option<int> {
    match a
    case Absent => Some(0)
    case Num(v) => Some(HalfUp(v * 100.0))
    case Str(v) => Some(HalfUp(v * 100.0))
    case Garbage => None
  }

  // ---------------------------------------------------------------- commissions

  datatype Status = Pending | Available | Paid | Reversed

  datatype Commission = Commission(
    affiliate: User, referred: User, invoice: string, payment: Option<string>,
    base: int, rate: nat, amount: int, reversed: int, status: Status, releaseAt: int,
    reversedAt: Option<int>, reason: string)

  datatype Profile = Profile(active: bool, rate: Option<nat>)

  /** Who referred whom, and on which terms. Rates are hundredths of a percent. */
  datatype Program = Program(
    referrers: map<User, User>, profiles: map<User, Profile>, defaultRate: nat, recurringMonths: nat, holdTime: nat)

  predicate RatesOk(p: Program) {
    p.defaultRate <= 10000 && forall u :: u in p.profiles && p.profiles[u].rate.Some? ==> p.profiles[u].rate.value <= 10000
  }

  datatype Invoice = Invoice(
    id: Option<string>, subscription: Option<string>, payment: Option<string>,
    collected: Amount, paid: Amount, total: Amount, amount: Amount)

  datatype Refund = Refund(invoice: Option<string>, payment: Option<string>, amount: Amount, refundAmount: Amount)

  function CommissionAmount(base: int, rate: nat): int {
    HalfUp(base as real * rate as real / 10000.0)
  }

  function FindInvoice(items: seq<Commission>, invoice: string): Option<nat> {
    if items == [] then None
    else if items[|items| - 1].invoice == invoice then Some(|items| - 1)
    else FindInvoice(items[..|items| - 1], invoice)
  }

  /** The most recent commission for a payment. */
  function FindPayment(items: seq<Commission>, payment: string): Option<nat> {
    if items == [] then None
    else if items[|items| - 1].payment == Some(payment) then Some(|items| - 1)
    else FindPayment(items[..|items| - 1], payment)
  }

  function FindForReversal(items: seq<Commission>, r: Refund): Option<nat> {
    var byInvoice := if r.invoice.Some? then FindInvoice(items, r.invoice.value) else None;
    if byInvoice.Some? then byInvoice
    else if r.payment.Some? then FindPayment(items, r.payment.value)
    else None
  }

  /** Commissions for a referred user that are not reversed. */
  function Qualifying(items: seq<Commission>, user: User): nat {
    if items == [] then 0
    else
      var last := items[|items| - 1];
      Qualifying(items[..|items| - 1], user) + if last.referred == user && !last.status.Reversed? then 1 else 0
  }

  function EffectiveRate(p: Program, affiliate: User): nat
    requires affiliate in p.profiles
  {
    if p.profiles[affiliate].rate.Some? then p.profiles[affiliate].rate.value else p.defaultRate
  }

  /** None when the event raises. `user` is the owner of the invoice's subscription, if it is linked. */
  function Create(items: seq<Commission>, p: Program, user: Option<User>, i: Invoice, now: int): Option<seq<Commission>> {
    if i.id.None? || i.subscription.None? || FindInvoice(items, i.id.value).Some? || user.None? then Some(items)
    else if user.value !in p.referrers then Some(items)
    else
      var affiliate := p.referrers[user.value];
      if affiliate !in p.profiles || !p.profiles[affiliate].active then Some(items)
      else if Qualifying(items, user.value) >= p.recurringMonths then Some(items)
      else
        var base := Money(Or(i.collected, Or(i.paid, Or(i.total, i.amount))));
        if base.None? then None
        else if base.value <= 0 then Some(items)
        else
          var rate := EffectiveRate(p, affiliate);
          var amount := CommissionAmount(base.value, rate);
          if base.value >= Limit || amount >= Limit then None
          else Some(items + [Commission(affiliate, user.value, i.id.value, i.payment, base.value, rate, amount,
                                        0, Pending, now + p.holdTime, None, "")])
  }

  /** The part of the commission that a refund of `refund` cents takes back. */
  function Taken(dec: real -> real, base: int, amount: int, refund: int): int {
    Rounded(dec, amount, Ratio(dec, base, refund))
  }

  function Rounded(dec: real -> real, amount: int, ratio: real): int {
    HalfUp(dec(amount as real * ratio))
  }

  function Ratio(dec: real -> real, base: int, refund: int): real {
    if base == 0 then 1.0 else Min(1.0, dec(refund as real / base as real))
  }

  function Min(x: real, y: real): real {
    if x <= y then x else y
  }

  function Max(x: int, y: int): int {
    if x >= y then x else y
  }

  predicate Settled(c: Commission) {
    c.status.Reversed? || c.status.Paid?
  }

  function ReverseItem(dec: real -> real, c: Commission, refund: int, reason: string, now: int): Commission {
    if Settled(c) then c
    else
      var reversed := Max(c.reversed, Taken(dec, c.base, c.amount, refund));
      c.(reversed := reversed,
         status := if reversed >= c.amount then Reversed else c.status,
         reversedAt := Some(now), reason := reason)
  }

  /** The refunded cents: the event's amount, or else the whole base. */
  function RefundBase(c: Commission, r: Refund): Option<int> {
    Money(Or(r.amount, Or(r.refundAmount, Str(c.base as real / 100.0))))
  }

  function Reverse(dec: real -> real, items: seq<Commission>, r: Refund, reason: string, now: int): Option<seq<Commission>> {
    var k := FindForReversal(items, r);
    if k.None? || k.value >= |items| || Settled(items[k.value]) then Some(items)
    else
      var refund := RefundBase(items[k.value], r);
      if refund.None? then None
      else Some(items[k.value := ReverseItem(dec, items[k.value], refund.value, reason, now)])
  }

  function ReleaseItem(c: Commission, affiliate: User, now: int): Commission {
    if c.affiliate == affiliate && c.status.Pending? && c.releaseAt <= now then c.(status := Available) else c
  }

  function Release(items: seq<Commission>, affiliate: User, now: int): seq<Commission> {
    seq(|items|, i requires 0 <= i < |items| => ReleaseItem(items[i], affiliate, now))
  }

  /** How many commissions become available. */
  function Due(items: seq<Commission>, affiliate: User, now: int): nat {
    if items == [] then 0
    else
      var c := items[|items| - 1];
      Due(items[..|items| - 1], affiliate, now) + if ReleaseItem(c, affiliate, now) != c then 1 else 0
  }

  // ---------------------------------------------------------------- one commission

  ghost predicate ItemOk(c: Commission) {
    && 0 <= c.reversed <= c.amount <= c.base < Limit
    && 0 < c.base
    && (c.status.Reversed? ==> c.reversed == c.amount)
  }

  lemma ProductWithin(b: real, r: real)
    requires 0.0 <= b && 0.0 <= r <= 10000.0
    ensures 0.0 <= b * r <= b * 10000.0
  {
  }

  lemma RateShare(b: real, r: real, exact: real)
    requires 0.0 <= b && 0.0 <= r <= 10000.0 && exact == b * r / 10000.0
    ensures 0.0 <= exact <= b
  {
    ProductWithin(b, r);
  }

  lemma RoundedBelow(base: int, exact: real)
    requires 0.0 <= exact <= base as real
    ensures 0 <= HalfUp(exact) <= base
  {
    HalfUpMonotone(exact, base as real);
    HalfUpWhole(base);
  }

  lemma AmountWithinBase(base: int, rate: nat)
    requires 0 < base && rate <= 10000
    ensures 0 <= CommissionAmount(base, rate) <= base
  {
    var exact :| exact == base as real * rate as real / 10000.0;
    RateShare(base as real, rate as real, exact);
    RoundedBelow(base, exact);
  }

  lemma QuotientMonotone(x: real, y: real, b: real)
    requires b > 0.0 && x <= y
    ensures x / b <= y / b
  {
  }

  lemma QuotientAtLeastOne(x: real, b: real)
    requires x >= b > 0.0
    ensures x / b >= 1.0
  {
  }

  lemma RatioMonotone(dec: real -> real, base: int, r: int, s: int)
    requires DecimalContext(dec) && base > 0 && r <= s
    ensures Ratio(dec, base, r) <= Ratio(dec, base, s) <= 1.0
  {
    var x, y := r as real / base as real, s as real / base as real;
    QuotientMonotone(r as real, s as real, base as real);
    assert dec(x) <= dec(y);
  }

  lemma ScaleMonotone(a: real, x: real, y: real)
    requires a >= 0.0 && x <= y
    ensures a * x <= a * y
  {
  }

  lemma RoundedWithin(dec: real -> real, amount: int, u: real, v: real)
    requires DecimalContext(dec) && 0 <= amount < Limit && u <= v <= amount as real
    ensures HalfUp(dec(u)) <= HalfUp(dec(v)) <= amount
  {
    var a := amount as real;
    assert Storable(a);
    assert dec(u) <= dec(v) <= dec(a) == a;
    HalfUpMonotone(dec(u), dec(v));
    HalfUpMonotone(dec(v), a);
    HalfUpWhole(amount);
  }

  lemma ShareWithin(a: real, x: real, y: real)
    requires a >= 0.0 && x <= y <= 1.0
    ensures a * x <= a * y <= a
  {
    ScaleMonotone(a, x, y);
    ScaleMonotone(a, y, 1.0);
  }

  lemma RoundedShares(dec: real -> real, amount: int, x: real, y: real, u: real, v: real)
    requires DecimalContext(dec) && 0 <= amount < Limit
    requires u == amount as real * x && v == amount as real * y
    requires u <= v <= amount as real
    ensures Rounded(dec, amount, x) <= Rounded(dec, amount, y) <= amount
  {
    RoundedWithin(dec, amount, u, v);
  }

  lemma TakenOfRatios(dec: real -> real, amount: int, x: real, y: real)
    requires DecimalContext(dec) && 0 <= amount < Limit && x <= y <= 1.0
    ensures Rounded(dec, amount, x) <= Rounded(dec, amount, y) <= amount
  {
    var u, v :| u == amount as real * x && v == amount as real * y;
    ShareWithin(amount as real, x, y);
    RoundedShares(dec, amount, x, y, u, v);
  }

  /** A larger refund takes back at least as much, and no refund more than the commission. */
  lemma TakenMonotone(dec: real -> real, base: int, amount: int, r: int, s: int)
    requires DecimalContext(dec) && 0 < base && 0 <= amount < Limit && r <= s
    ensures Taken(dec, base, amount, r) <= Taken(dec, base, amount, s) <= amount
  {
    RatioMonotone(dec, base, r, s);
    TakenOfRatios(dec, amount, Ratio(dec, base, r), Ratio(dec, base, s));
  }

  /** A refund of the base or more takes back the whole commission. */
  lemma FullRefundTakesAll(dec: real -> real, base: int, amount: int, r: int)
    requires DecimalContext(dec) && 0 < base && 0 <= amount < Limit && r >= base
    ensures Taken(dec, base, amount, r) == amount
  {
    var x := r as real / base as real;
    QuotientAtLeastOne(r as real, base as real);
    assert dec(x) >= dec(1.0);
    assert Ratio(dec, base, r) == 1.0;
    var a := amount as real;
    assert a * 1.0 == a;
    assert Storable(a);
    HalfUpWhole(amount);
  }

  lemma ScaledError(amount: real, q: real, d: real, eps: real, share: real, p: real)
    requires amount >= 0.0 && -eps <= d - q <= eps && share == amount * q && p == amount * d
    ensures -(amount * eps) <= p - share <= amount * eps
  {
    assert p - share == amount * (d - q);
    ScaleMonotone(amount, d - q, eps);
    ScaleMonotone(amount, -eps, d - q);
  }

  lemma QuotientAtMostOne(x: real, b: real, q: real)
    requires x <= b && 0.0 < b && q == x / b
    ensures q <= 1.0
  {
  }

  lemma RatioBelowOne(dec: real -> real, base: int, refund: int, q: real)
    requires DecimalContext(dec) && 0 < base && refund <= base && q == refund as real / base as real
    ensures Ratio(dec, base, refund) == dec(q)
  {
    QuotientAtMostOne(refund as real, base as real, q);
    assert dec(q) <= dec(1.0);
  }

  lemma NearestWithin(t: int, y: real, p: real, share: real, eps: real, w: real)
    requires t == HalfUp(y) && -eps <= y - p <= eps && -w <= p - share <= w
    ensures -(0.5 + eps + w) <= t as real - share <= 0.5 + eps + w
  {
    HalfUpNearest(y);
  }

  lemma ShareError(dec: real -> real, amount: int, eps: real, q: real, share: real, p: real, w: real)
    requires 0 <= amount && share == amount as real * q && p == amount as real * dec(q)
    requires -eps <= dec(q) - q <= eps && w == amount as real * eps
    ensures -w <= p - share <= w
  {
    ScaledError(amount as real, q, dec(q), eps, share, p);
  }

  lemma TakenIsRounded(dec: real -> real, base: int, amount: int, refund: int, q: real, p: real)
    requires DecimalContext(dec) && 0 < base && refund <= base
    requires q == refund as real / base as real && p == amount as real * dec(q)
    ensures Taken(dec, base, amount, refund) == HalfUp(dec(p))
  {
    RatioBelowOne(dec, base, refund, q);
  }

  /** The context rounds off at most `eps` of `x`. */
  ghost predicate Within(dec: real -> real, x: real, eps: real) {
    -eps <= dec(x) - x <= eps
  }

  /** A partial refund takes back its share to the nearest cent, up to what the context rounds off: at
      most `eps` of the ratio `q` and `eps` of the product `p`. */
  lemma TakenProportional(dec: real -> real, base: int, amount: int, refund: int, eps: real, q: real, share: real, p: real, w: real)
    requires DecimalContext(dec) && 0 < base && 0 <= amount && refund <= base
    requires q == refund as real / base as real && share == amount as real * q && p == amount as real * dec(q)
    requires Within(dec, q, eps) && Within(dec, p, eps) && w == amount as real * eps
    ensures -(0.5 + eps + w) <= Taken(dec, base, amount, refund) as real - share <= 0.5 + eps + w
  {
    ShareError(dec, amount, eps, q, share, p, w);
    TakenIsRounded(dec, base, amount, refund, q, p);
    NearestWithin(Taken(dec, base, amount, refund), dec(p), p, share, eps, w);
  }

  /** An event without an amount of its own refunds the whole base. */
  lemma AmountlessRefundsBase(c: Commission, r: Refund)
    requires !Truthy(r.amount) && !Truthy(r.refundAmount)
    ensures RefundBase(c, r) == Some(c.base)
  {
    assert c.base as real / 100.0 * 100.0 == c.base as real;
    HalfUpWhole(c.base);
  }

  lemma ReverseItemKeeps(dec: real -> real, c: Commission, refund: int, reason: string, now: int)
    requires DecimalContext(dec) && ItemOk(c)
    ensures ItemOk(ReverseItem(dec, c, refund, reason, now))
    ensures c.reversed <= ReverseItem(dec, c, refund, reason, now).reversed
  {
    TakenMonotone(dec, c.base, c.amount, refund, refund);
  }

  /** A refund with its reason and time, in cents. */
  datatype Hit = Hit(refund: int, reason: string, at: int)

  function ReverseAll(dec: real -> real, c: Commission, hits: seq<Hit>): Commission {
    if hits == [] then c
    else
      var h := hits[|hits| - 1];
      ReverseItem(dec, ReverseAll(dec, c, hits[..|hits| - 1]), h.refund, h.reason, h.at)
  }

  predicate Largest(hits: seq<Hit>, m: Hit) {
    m in hits && forall h :: h in hits ==> h.refund <= m.refund
  }

  lemma {:induction false} ReverseAllFrame(dec: real -> real, c: Commission, hits: seq<Hit>)
    requires DecimalContext(dec) && ItemOk(c)
    ensures ItemOk(ReverseAll(dec, c, hits))
    ensures ReverseAll(dec, c, hits).base == c.base && ReverseAll(dec, c, hits).amount == c.amount
    ensures c.reversed <= ReverseAll(dec, c, hits).reversed
    ensures c.status.Paid? ==> ReverseAll(dec, c, hits) == c
    ensures !c.status.Paid? ==> !ReverseAll(dec, c, hits).status.Paid?
  {
    if hits != [] {
      var h := hits[|hits| - 1];
      ReverseAllFrame(dec, c, hits[..|hits| - 1]);
      ReverseItemKeeps(dec, ReverseAll(dec, c, hits[..|hits| - 1]), h.refund, h.reason, h.at);
    }
  }

  lemma ReverseItemIsMax(dec: real -> real, c: Commission, h: Hit)
    requires DecimalContext(dec) && ItemOk(c) && !c.status.Paid?
    ensures ReverseItem(dec, c, h.refund, h.reason, h.at).reversed == Max(c.reversed, Taken(dec, c.base, c.amount, h.refund))
    ensures ReverseItem(dec, c, h.refund, h.reason, h.at).status.Reversed? <==>
            ReverseItem(dec, c, h.refund, h.reason, h.at).reversed == c.amount
  {
    TakenMonotone(dec, c.base, c.amount, h.refund, h.refund);
  }

  lemma {:induction false} ReverseAllIsMax(dec: real -> real, c: Commission, hits: seq<Hit>, m: Hit)
    requires DecimalContext(dec) && ItemOk(c) && !c.status.Paid? && Largest(hits, m)
    ensures ReverseAll(dec, c, hits).reversed == Max(c.reversed, Taken(dec, c.base, c.amount, m.refund))
    ensures ReverseAll(dec, c, hits).status.Reversed? <==> ReverseAll(dec, c, hits).reversed == c.amount
    decreases |hits|
  {
    var before, h := hits[..|hits| - 1], hits[|hits| - 1];
    assert hits == before + [h];
    ReverseAllFrame(dec, c, before);
    ReverseItemIsMax(dec, ReverseAll(dec, c, before), h);
    TakenMonotone(dec, c.base, c.amount, h.refund, m.refund);
    if before != [] {
      var n := LargestOf(before);
      ReverseAllIsMax(dec, c, before, n);
      assert n in hits;
      TakenMonotone(dec, c.base, c.amount, n.refund, m.refund);
      if m in before {
        assert n.refund == m.refund;
      }
    }
  }

  lemma {:induction false} LargestOf(hits: seq<Hit>) returns (m: Hit)
    requires hits != []
    ensures Largest(hits, m)
  {
    m := hits[0];
    if |hits| > 1 {
      var n := LargestOf(hits[1..]);
      assert hits == [hits[0]] + hits[1..];
      if n.refund > m.refund {
        m := n;
      }
    }
  }

  /** The reversed amount and whether the commission is reversed depend only on the largest refund:
      neither on the order nor on the number of the events. */
  lemma LargestRefundDecides(dec: real -> real, c: Commission, hits: seq<Hit>, m: Hit)
    requires DecimalContext(dec) && ItemOk(c) && !c.status.Paid? && Largest(hits, m)
    ensures 0 <= ReverseAll(dec, c, hits).reversed <= c.amount <= c.base
    ensures ReverseAll(dec, c, hits).reversed == ReverseAll(dec, c, [m]).reversed == Max(c.reversed, Taken(dec, c.base, c.amount, m.refund))
    ensures ReverseAll(dec, c, hits).status.Reversed? == ReverseAll(dec, c, [m]).status.Reversed?
  {
    ReverseAllFrame(dec, c, hits);
    ReverseAllFrame(dec, c, [m]);
    ReverseAllIsMax(dec, c, hits, m);
    ReverseAllIsMax(dec, c, [m], m);
  }

  /** Among any events one refund of the base or more reverses the commission for good. */
  lemma FullRefundReverses(dec: real -> real, c: Commission, hits: seq<Hit>, m: Hit)
    requires DecimalContext(dec) && ItemOk(c) && !c.status.Paid? && m in hits && m.refund >= c.base
    ensures ReverseAll(dec, c, hits).status.Reversed? && ReverseAll(dec, c, hits).reversed == c.amount
  {
    var n := LargestOf(hits);
    ReverseAllIsMax(dec, c, hits, n);
    FullRefundTakesAll(dec, c.base, c.amount, n.refund);
  }

  /** So does a refund or dispute that names no amount, or the number zero. */
  lemma AmountlessReverses(dec: real -> real, items: seq<Commission>, r: Refund, reason: string, now: int, k: nat)
    requires DecimalContext(dec) && k < |items| && ItemOk(items[k]) && !Settled(items[k])
    requires FindForReversal(items, r) == Some(k)
    requires (r.amount == Absent || r.amount == Num(0.0)) && (r.refundAmount == Absent || r.refundAmount == Num(0.0))
    ensures Reverse(dec, items, r, reason, now).Some?
    ensures |Reverse(dec, items, r, reason, now).value| == |items|
    ensures Reverse(dec, items, r, reason, now).value[k].status.Reversed?
    ensures Reverse(dec, items, r, reason, now).value[k].reversed == items[k].amount
  {
    var c := items[k];
    AmountlessRefundsBase(c, r);
    FullRefundTakesAll(dec, c.base, c.amount, c.base);
  }

  // ---------------------------------------------------------------- the ledger over whole runs

  datatype Step =
    | PaidInvoice(user: Option<User>, invoice: Invoice, now: int)
    | Refunded(refund: Refund, reason: string, now: int)
    | Released(affiliate: User, now: int)

  /** A step that raises changes nothing. */
  function Apply(dec: real -> real, p: Program, items: seq<Commission>, step: Step): seq<Commission> {
    match step
    case PaidInvoice(user, invoice, now) =>
      var r := Create(items, p, user, invoice, now);
      if r.Some? then r.value else items
    case Refunded(refund, reason, now) =>
      var r := Reverse(dec, items, refund, reason, now);
      if r.Some? then r.value else items
    case Released(affiliate, now) => Release(items, affiliate, now)
  }

  function Run(dec: real -> real, p: Program, items: seq<Commission>, steps: seq<Step>): seq<Commission> {
    if steps == [] then items
    else Apply(dec, p, Run(dec, p, items, steps[..|steps| - 1]), steps[|steps| - 1])
  }

  ghost predicate OnePerInvoice(items: seq<Commission>) {
    forall i, j :: 0 <= i < j < |items| ==> items[i].invoice != items[j].invoice
  }

  ghost predicate Capped(items: seq<Commission>, months: nat) {
    forall u :: Qualifying(items, u) <= months
  }

  ghost predicate LedgerOk(items: seq<Commission>, p: Program) {
    && (forall i :: 0 <= i < |items| ==> ItemOk(items[i]))
    && OnePerInvoice(items)
    && Capped(items, p.recurringMonths)
  }

  lemma FindInvoiceFinds(items: seq<Commission>, invoice: string)
    ensures FindInvoice(items, invoice).Some? ==>
              FindInvoice(items, invoice).value < |items| && items[FindInvoice(items, invoice).value].invoice == invoice
    ensures FindInvoice(items, invoice).None? ==> forall i :: 0 <= i < |items| ==> items[i].invoice != invoice
  {
    if items != [] {
      FindInvoiceFinds(items[..|items| - 1], invoice);
      forall i | 0 <= i < |items| && FindInvoice(items, invoice).None?
        ensures items[i].invoice != invoice
      {
        if i < |items| - 1 {
          assert items[i] == items[..|items| - 1][i];
        }
      }
    }
  }

  /** Changing commissions in place without reviving a reversed one adds no qualifying one. */
  lemma {:induction false} QualifyingShrinks(items: seq<Commission>, next: seq<Commission>, u: User)
    requires |items| == |next|
    requires forall i :: 0 <= i < |items| ==>
               next[i].referred == items[i].referred && (items[i].status.Reversed? ==> next[i].status.Reversed?)
    ensures Qualifying(next, u) <= Qualifying(items, u)
  {
    if items != [] {
      QualifyingShrinks(items[..|items| - 1], next[..|next| - 1], u);
    }
  }

  /** How a step may change a commission that is already there. */
  ghost predicate Evolves(c: Commission, d: Commission) {
    && d.(reversed := c.reversed, status := c.status, reversedAt := c.reversedAt, reason := c.reason) == c
    && c.reversed <= d.reversed
    && (c.status.Reversed? ==> d == c)
  }

  lemma InPlaceKeeps(items: seq<Commission>, next: seq<Commission>, p: Program)
    requires LedgerOk(items, p) && |next| == |items|
    requires forall i :: 0 <= i < |items| ==> Evolves(items[i], next[i]) && ItemOk(next[i])
    ensures LedgerOk(next, p)
  {
    forall i | 0 <= i < |items|
      ensures next[i].invoice == items[i].invoice && next[i].referred == items[i].referred
    {
      assert Evolves(items[i], next[i]);
    }
    forall u
      ensures Qualifying(next, u) <= p.recurringMonths
    {
      QualifyingShrinks(items, next, u);
    }
  }

  lemma CreateKeeps(items: seq<Commission>, p: Program, user: Option<User>, i: Invoice, now: int)
    requires LedgerOk(items, p) && RatesOk(p)
    ensures Create(items, p, user, i, now).Some? ==> LedgerOk(Create(items, p, user, i, now).value, p)
    ensures Create(items, p, user, i, now).Some? ==>
              Create(items, p, user, i, now).value == items ||
              (|Create(items, p, user, i, now).value| == |items| + 1 && Create(items, p, user, i, now).value[..|items|] == items)
  {
    var r := Create(items, p, user, i, now);
    if r.Some? && r.value != items {
      var c := r.value[|items|];
      assert r.value == items + [c];
      FindInvoiceFinds(items, i.id.value);
      AmountWithinBase(c.base, c.rate);
      DropAppended(items, c);
      forall u
        ensures Qualifying(r.value, u) <= p.recurringMonths
      {
        assert Qualifying(items, u) <= p.recurringMonths;
      }
    }
  }

  /** Whatever happens, existing commissions stay in place and only their reversal advances. */
  lemma StepKeeps(dec: real -> real, p: Program, items: seq<Commission>, step: Step)
    requires DecimalContext(dec) && RatesOk(p) && LedgerOk(items, p)
    ensures LedgerOk(Apply(dec, p, items, step), p)
    ensures |items| <= |Apply(dec, p, items, step)|
    ensures forall i :: 0 <= i < |items| ==> Evolves(items[i], Apply(dec, p, items, step)[i])
  {
    var next := Apply(dec, p, items, step);
    match step {
      case PaidInvoice(user, invoice, now) =>
        CreateKeeps(items, p, user, invoice, now);
        forall i | 0 <= i < |items|
          ensures next[i] == items[i]
        {
          assert next[..|items|][i] == next[i];
        }
      case Refunded(refund, reason, now) =>
        forall i | 0 <= i < |items|
          ensures Evolves(items[i], next[i]) && ItemOk(next[i])
        {
          var k := FindForReversal(items, refund);
          if k == Some(i) && RefundBase(items[i], refund).Some? {
            ReverseItemKeeps(dec, items[i], RefundBase(items[i], refund).value, reason, now);
          }
        }
        InPlaceKeeps(items, next, p);
      case Released(affiliate, now) =>
        InPlaceKeeps(items, next, p);
    }
  }

  /** Over any run: at most one commission per invoice, at most the agreed months of unreversed
      commissions per referred user, 0 <= reversed <= amount <= base, and reversals never shrink. */
  lemma {:induction false} LedgerTheorem(dec: real -> real, p: Program, steps: seq<Step>)
    requires DecimalContext(dec) && RatesOk(p)
    ensures LedgerOk(Run(dec, p, [], steps), p)
  {
    if steps == [] {
      assert LedgerOk([], p);
    } else {
      LedgerTheorem(dec, p, steps[..|steps| - 1]);
      StepKeeps(dec, p, Run(dec, p, [], steps[..|steps| - 1]), steps[|steps| - 1]);
    }
  }

  // ---------------------------------------------------------------- what a paid invoice creates

  /** The invoice's amount in cents: the first amount it carries, in the order of preference. */
  function InvoiceBase(i: Invoice): Option<int> {
    Money(if Truthy(i.collected) then i.collected
          else if Truthy(i.paid) then i.paid
          else if Truthy(i.total) then i.total
          else i.amount)
  }

  /** Nobody is owed anything for the invoice: it or its subscription is unnamed, it was paid out before, its
      user is unknown or was not referred, the affiliate is not active, or the months are used up. */
  ghost predicate Unearned(items: seq<Commission>, p: Program, user: Option<User>, i: Invoice) {
    || i.id.None? || i.subscription.None? || user.None?
    || (exists k :: 0 <= k < |items| && items[k].invoice == i.id.value)
    || user.value !in p.referrers
    || p.referrers[user.value] !in p.profiles || !p.profiles[p.referrers[user.value]].active
    || Qualifying(items, user.value) >= p.recurringMonths
  }

  lemma UnearnedCreatesNothing(items: seq<Commission>, p: Program, user: Option<User>, i: Invoice, now: int)
    requires Unearned(items, p, user, i)
    ensures Create(items, p, user, i, now) == Some(items)
  {
    if i.id.Some? {
      FindInvoiceFinds(items, i.id.value);
    }
  }

  /** The commission is the rate's share of the base to the nearest cent. */
  lemma AmountIsShare(base: int, rate: nat)
    ensures -5000 <= CommissionAmount(base, rate) * 10000 - base * rate <= 5000
  {
    var exact :| exact == base as real * rate as real / 10000.0;
    HalfUpNearest(exact);
    SharesAlike(base, rate, exact, CommissionAmount(base, rate));
  }

  lemma SharesAlike(base: int, rate: nat, exact: real, amount: int)
    requires exact == base as real * rate as real / 10000.0 && -0.5 <= amount as real - exact <= 0.5
    ensures -5000 <= amount * 10000 - base * rate <= 5000
  {
    var product := base * rate;
    assert product as real == base as real * rate as real;
    LinearShare(product, exact, amount);
  }

  lemma LinearShare(product: int, exact: real, amount: int)
    requires exact == product as real / 10000.0 && -0.5 <= amount as real - exact <= 0.5
    ensures -5000 <= amount * 10000 - product <= 5000
  {
  }

  /** The commission of an invoice: for the referrer, at the referrer's own rate or else the general one, on the
      invoice's amount, pending until the hold time is over. */
  ghost predicate IsCommission(c: Commission, p: Program, user: User, i: Invoice, now: int)
    requires user in p.referrers && p.referrers[user] in p.profiles
  {
    && c.affiliate == p.referrers[user] && c.referred == user && Some(c.invoice) == i.id && c.payment == i.payment
    && Some(c.base) == InvoiceBase(i)
    && c.rate == (if p.profiles[c.affiliate].rate.Some? then p.profiles[c.affiliate].rate.value else p.defaultRate)
    && -5000 <= c.amount * 10000 - c.base * c.rate <= 5000
    && c.reversed == 0 && c.status.Pending? && c.releaseAt == now + p.holdTime
  }

  /** A paid invoice that earns adds exactly one commission, the invoice's; it adds none when its amount is not
      positive, and raises when the amount is no number or too large to store. */
  lemma CreationOutcome(items: seq<Commission>, p: Program, user: Option<User>, i: Invoice, now: int)
    requires !Unearned(items, p, user, i)
    ensures InvoiceBase(i).None? ==> Create(items, p, user, i, now).None?
    ensures InvoiceBase(i).Some? && InvoiceBase(i).value <= 0 ==> Create(items, p, user, i, now) == Some(items)
    ensures InvoiceBase(i).Some? && InvoiceBase(i).value >= Limit ==> Create(items, p, user, i, now).None?
    ensures RatesOk(p) && InvoiceBase(i).Some? && 0 < InvoiceBase(i).value < Limit ==>
              (var r := Create(items, p, user, i, now);
               r.Some? && |r.value| == |items| + 1 && r.value[..|items|] == items
               && IsCommission(r.value[|items|], p, user.value, i, now))
  {
    FindInvoiceFinds(items, i.id.value);
    if RatesOk(p) && InvoiceBase(i).Some? && 0 < InvoiceBase(i).value < Limit {
      var rate := EffectiveRate(p, p.referrers[user.value]);
      AmountIsShare(InvoiceBase(i).value, rate);
      AmountWithinBase(InvoiceBase(i).value, rate);
      DropAppended(items, Create(items, p, user, i, now).value[|items|]);
    }
  }

  // ---------------------------------------------------------------- releases and the target of a reversal

  /** A release makes exactly the affiliate's pending commissions whose hold time is over available, and changes
      nothing else about them or any other. */
  lemma ReleaseOutcome(items: seq<Commission>, affiliate: User, now: int, k: nat)
    requires k < |items|
    ensures |Release(items, affiliate, now)| == |items|
    ensures Release(items, affiliate, now)[k].(status := items[k].status) == items[k]
    ensures Release(items, affiliate, now)[k].status ==
            if items[k].affiliate == affiliate && items[k].status == Pending && items[k].releaseAt <= now
            then Available else items[k].status
  {
  }

  lemma {:induction false} FindPaymentExactly(items: seq<Commission>, payment: string, k: nat)
    ensures FindPayment(items, payment) == Some(k) <==>
            k < |items| && items[k].payment == Some(payment) && forall j :: k < j < |items| ==> items[j].payment != Some(payment)
    ensures FindPayment(items, payment) == None <==> forall j :: 0 <= j < |items| ==> items[j].payment != Some(payment)
  {
    if items != [] {
      var n := |items| - 1;
      FindPaymentExactly(items[..n], payment, k);
      assert forall j :: 0 <= j < n ==> items[..n][j] == items[j];
    }
  }

  /** A refund or dispute reaches the commission of its invoice, or where it names none or an unknown one the
      latest commission of its payment, and no other. */
  lemma ReversalTargetExactly(items: seq<Commission>, r: Refund, k: nat)
    requires OnePerInvoice(items) && k < |items|
    ensures FindForReversal(items, r) == Some(k) <==>
            if r.invoice.Some? && exists j :: 0 <= j < |items| && items[j].invoice == r.invoice.value
            then items[k].invoice == r.invoice.value
            else r.payment.Some? && items[k].payment == r.payment
                 && forall j :: k < j < |items| ==> items[j].payment != r.payment
  {
    if r.invoice.Some? {
      FindInvoiceFinds(items, r.invoice.value);
    }
    if r.payment.Some? {
      FindPaymentExactly(items, r.payment.value, k);
    }
  }

  /** An amount that counts: text, garbage, or a number other than zero. */
  ghost predicate Counts(a: Amount) {
    match a
    case Absent => false
    case Num(v) => v != 0.0
    case Str(_) => true
    case Garbage => true
  }

  /** The refunded cents are the event's own amount to the nearest cent, or else its refund amount, if either
      counts; the event raises when that is no number. */
  lemma RefundedCents(c: Commission, r: Refund, a: Amount)
    requires a == (if Counts(r.amount) then r.amount else r.refundAmount) && Counts(a)
    ensures a.Garbage? <==> RefundBase(c, r).None?
    ensures !a.Garbage? ==> -0.5 <= RefundBase(c, r).value as real - a.value * 100.0 <= 0.5
  {
    if !a.Garbage? {
      HalfUpNearest(a.value * 100.0);
    }
  }

  /** The invoice's cents are, to the nearest cent, the first of its amounts that counts. */
  lemma InvoicedCents(i: Invoice, a: Amount)
    requires a == (if Counts(i.collected) then i.collected else if Counts(i.paid) then i.paid else if Counts(i.total) then i.total else i.amount)
    ensures a.Garbage? <==> InvoiceBase(i).None?
    ensures a.Absent? ==> InvoiceBase(i) == Some(0)
    ensures a.Num? || a.Str? ==> -0.5 <= InvoiceBase(i).value as real - a.value * 100.0 <= 0.5
  {
    if a.Num? || a.Str? {
      HalfUpNearest(a.value * 100.0);
    }
  }

  /** A reversal of a commission that is neither reversed nor paid out takes the larger of what was taken before
      and what the refund takes, marks it reversed when that is everything, and notes reason and time. */
  lemma ReversalOutcome(dec: real -> real, items: seq<Commission>, r: Refund, reason: string, now: int, k: nat)
    requires DecimalContext(dec) && k < |items| && ItemOk(items[k]) && FindForReversal(items, r) == Some(k)
    ensures Settled(items[k]) ==> Reverse(dec, items, r, reason, now) == Some(items)
    ensures !Settled(items[k]) && RefundBase(items[k], r).None? ==> Reverse(dec, items, r, reason, now).None?
    ensures !Settled(items[k]) && RefundBase(items[k], r).Some? ==>
              (var c := items[k];
               var taken := Taken(dec, c.base, c.amount, RefundBase(c, r).value);
               var total := if taken > c.reversed then taken else c.reversed;
               Reverse(dec, items, r, reason, now) ==
               Some(items[k := c.(reversed := total, status := if total == c.amount then Reversed else c.status,
                                  reversedAt := Some(now), reason := reason)]))
  {
    if RefundBase(items[k], r).Some? {
      TakenMonotone(dec, items[k].base, items[k].amount, RefundBase(items[k], r).value, RefundBase(items[k], r).value);
    }
  }

  // ---------------------------------------------------------------- which refunds reach a commission

  /** The refund that a step makes of commission `k`. */
  function HitOf(items: seq<Commission>, step: Step, k: nat): seq<Hit>
    requires k < |items|
  {
    if step.Refunded? && FindForReversal(items, step.refund) == Some(k) && RefundBase(items[k], step.refund).Some?
    then [Hit(RefundBase(items[k], step.refund).value, step.reason, step.now)]
    else []
  }

  /** The refunds that a run makes of commission `k`. */
  ghost function Hits(dec: real -> real, p: Program, items: seq<Commission>, steps: seq<Step>, k: nat): seq<Hit> {
    if steps == [] then []
    else
      var before := Run(dec, p, items, steps[..|steps| - 1]);
      Hits(dec, p, items, steps[..|steps| - 1], k) + if k < |before| then HitOf(before, steps[|steps| - 1], k) else []
  }

  lemma {:induction false} RunKeeps(dec: real -> real, p: Program, items: seq<Commission>, steps: seq<Step>, k: nat)
    requires DecimalContext(dec) && RatesOk(p) && LedgerOk(items, p) && k < |items|
    ensures LedgerOk(Run(dec, p, items, steps), p)
    ensures k < |Run(dec, p, items, steps)| && Evolves(items[k], Run(dec, p, items, steps)[k])
  {
    if steps != [] {
      var before := Run(dec, p, items, steps[..|steps| - 1]);
      RunKeeps(dec, p, items, steps[..|steps| - 1], k);
      StepKeeps(dec, p, before, steps[|steps| - 1]);
      assert Evolves(before[k], Run(dec, p, items, steps)[k]);
    }
  }

  /** Two commissions with the same reversal, though one may be released. */
  ghost predicate SameReversal(c: Commission, d: Commission) {
    && c.base == d.base && c.amount == d.amount && c.reversed == d.reversed
    && c.status.Reversed? == d.status.Reversed? && c.status.Paid? == d.status.Paid?
  }

  lemma StepReverses(dec: real -> real, p: Program, items: seq<Commission>, step: Step, k: nat, c: Commission)
    requires DecimalContext(dec) && RatesOk(p) && LedgerOk(items, p) && k < |items| && SameReversal(items[k], c)
    ensures k < |Apply(dec, p, items, step)|
    ensures HitOf(items, step, k) == [] ==> SameReversal(Apply(dec, p, items, step)[k], c)
    ensures HitOf(items, step, k) != [] ==>
              (var h := HitOf(items, step, k)[0]; SameReversal(Apply(dec, p, items, step)[k], ReverseItem(dec, c, h.refund, h.reason, h.at)))
  {
    StepKeeps(dec, p, items, step);
    if step.PaidInvoice? {
      CreateKeeps(items, p, step.user, step.invoice, step.now);
      var next := Apply(dec, p, items, step);
      assert next[..|items|][k] == items[k];
    }
  }

  /** What a run of paid invoices, refunds, disputes and releases leaves of a commission is what its
      refunds alone leave. */
  lemma {:induction false} RunReverses(dec: real -> real, p: Program, items: seq<Commission>, steps: seq<Step>, k: nat)
    requires DecimalContext(dec) && RatesOk(p) && LedgerOk(items, p) && k < |items|
    ensures k < |Run(dec, p, items, steps)|
    ensures SameReversal(Run(dec, p, items, steps)[k], ReverseAll(dec, items[k], Hits(dec, p, items, steps, k)))
  {
    if steps != [] {
      var before, step := Run(dec, p, items, steps[..|steps| - 1]), steps[|steps| - 1];
      RunReverses(dec, p, items, steps[..|steps| - 1], k);
      RunKeeps(dec, p, items, steps[..|steps| - 1], k);
      var hits := Hits(dec, p, items, steps[..|steps| - 1], k);
      StepReverses(dec, p, before, step, k, ReverseAll(dec, items[k], hits));
      if HitOf(before, step, k) == [] {
        assert Hits(dec, p, items, steps, k) == hits;
      } else {
        var h := HitOf(before, step, k)[0];
        assert Hits(dec, p, items, steps, k) == hits + [h];
        assert (hits + [h])[..|hits|] == hits;
      }
    }
  }

  /** In any run the reversed amount and the reversed status of an unpaid commission are decided by the
      largest refund that reached it. */
  lemma RunDecidedByLargest(dec: real -> real, p: Program, items: seq<Commission>, steps: seq<Step>, k: nat, m: Hit)
    requires DecimalContext(dec) && RatesOk(p) && LedgerOk(items, p) && k < |items| && !items[k].status.Paid?
    requires Largest(Hits(dec, p, items, steps, k), m)
    ensures k < |Run(dec, p, items, steps)|
    ensures Run(dec, p, items, steps)[k].reversed == Max(items[k].reversed, Taken(dec, items[k].base, items[k].amount, m.refund))
    ensures Run(dec, p, items, steps)[k].status.Reversed? <==> Run(dec, p, items, steps)[k].reversed == items[k].amount
  {
    RunReverses(dec, p, items, steps, k);
    ReverseAllIsMax(dec, items[k], Hits(dec, p, items, steps, k), m);
  }

  // ---------------------------------------------------------------- the stored rows

  class CommissionTable {
    var items: seq<Commission>

    constructor ()
      ensures items == []
    {
      items := [];
    }

    /** The count behind the cap of recurring commissions. */
    method CountQualifying(user: User) returns (n: nat)
      ensures n == Qualifying(items, user)
    {
      n := 0;
      for i := 0 to |items|
        invariant n == Qualifying(items[..i], user)
      {
        assert items[..i + 1][..i] == items[..i];
        if items[i].referred == user && !items[i].status.Reversed? {
          n := n + 1;
        }
      }
      assert items[..|items|] == items;
    }

    /** False when the event raises; the rows are then as they were. */
    method CreateFromInvoice(p: Program, user: Option<User>, i: Invoice, now: int) returns (ok: bool)
      modifies this
      ensures ok == Create(old(items), p, user, i, now).Some?
      ensures items == if ok then Create(old(items), p, user, i, now).value else old(items)
    {
      ok := true;
      if i.id.None? || i.subscription.None? || FindInvoice(items, i.id.value).Some? || user.None? {
        return;
      }
      if user.value !in p.referrers || p.referrers[user.value] !in p.profiles || !p.profiles[p.referrers[user.value]].active {
        return;
      }
      var count := CountQualifying(user.value);
      if count >= p.recurringMonths {
        return;
      }
      var base := Money(Or(i.collected, Or(i.paid, Or(i.total, i.amount))));
      if base.None? {
        return false;
      }
      if base.value <= 0 {
        return;
      }
      var affiliate := p.referrers[user.value];
      var rate := EffectiveRate(p, affiliate);
      var amount := CommissionAmount(base.value, rate);
      if base.value >= Limit || amount >= Limit {
        return false;
      }
      items := items + [Commission(affiliate, user.value, i.id.value, i.payment, base.value, rate, amount,
                                   0, Pending, now + p.holdTime, None, "")];
    }

    method ReverseCommission(dec: real -> real, r: Refund, reason: string, now: int) returns (ok: bool)
      modifies this
      ensures ok == Reverse(dec, old(items), r, reason, now).Some?
      ensures items == if ok then Reverse(dec, old(items), r, reason, now).value else old(items)
    {
      ok := true;
      var k := FindForReversal(items, r);
      if k.None? || k.value >= |items| || Settled(items[k.value]) {
        return;
      }
      var c := items[k.value];
      var refund := RefundBase(c, r);
      if refund.None? {
        return false;
      }
      var reversed := Max(c.reversed, Taken(dec, c.base, c.amount, refund.value));
      c := c.(reversed := reversed);
      if c.reversed >= c.amount {
        c := c.(status := Reversed);
      }
      items := items[k.value := c.(reversedAt := Some(now), reason := reason)];
    }

    /** The update of all due rows of an affiliate, and their number. */
    method ReleaseDue(affiliate: User, now: int) returns (count: nat)
      modifies this
      ensures items == Release(old(items), affiliate, now)
      ensures count == Due(old(items), affiliate, now)
    {
      count := 0;
      var rows: seq<Commission> := [];
      for k := 0 to |items|
        invariant items == old(items)
        invariant rows == Release(items[..k], affiliate, now)
        invariant count == Due(items[..k], affiliate, now)
      {
        assert items[..k + 1][..k] == items[..k];
        var row := ReleaseItem(items[k], affiliate, now);
        if row != items[k] {
          count := count + 1;
        }
        rows := rows + [row];
      }
      assert items[..|items|] == items;
      items := rows;
    }
  }
}
