/**
  amount.go: integers of any size that are changed in place, and the floor of a
  product with a fraction. Fractions follow the rules of big.Rat: positive
  denominator, lowest terms.
 */
module Amounts {

  datatype Rat = Rat(num: int, den: int)

  lemma ScaleMonotone(x: int, y: int, q: int)
    requires x <= y && 0 <= q
    ensures x * q <= y * q
  {
    assert 0 <= (y - x) * q;
    assert (y - x) * q == y * q - x * q;
  }

  lemma Multiple(a: int, b: int, q: int)
    requires b > 0 && a == q * b
    ensures a % b == 0 && a / b == q
  {
    FloorUnique(a, b, q);
  }

  // q is the quotient exactly when a lies between q * b and (q + 1) * b.
  lemma FloorUnique(a: int, b: int, q: int)
    requires b > 0 && q * b <= a < (q + 1) * b
    ensures a / b == q
  {
    var d := a / b;
    assert d * b <= a < (d + 1) * b by {
      assert a == b * d + a % b;
    }
    if d < q {
      ScaleMonotone(d + 1, q, b);
    } else if d > q {
      ScaleMonotone(q + 1, d, b);
    }
  }

  lemma FloorBounds(a: int, b: int)
    requires b > 0
    ensures (a / b) * b <= a < (a / b + 1) * b
  {
    assert a == b * (a / b) + a % b;
  }

  lemma CommonDivisor(a: nat, b: nat, g: nat)
    requires b > 0 && g > 0 && b % g == 0 && (a % b) % g == 0
    ensures a % g == 0
  {
    var q, s, t := a / b, b / g, (a % b) / g;
    assert b == g * s && a % b == g * t && a == b * q + a % b;
    assert b * q == (s * q) * g by {
      assert (g * s) * q == (s * q) * g;
    }
    assert g * t == t * g && (s * q) * g + t * g == (s * q + t) * g;
    Multiple(a, g, s * q + t);
  }

  predicate Divides(d: nat, n: nat)
    requires d > 0
  {
    n % d == 0
  }

  function Gcd(a: nat, b: nat): (g: nat)
    requires a > 0 || b > 0
    ensures g > 0 && a % g == 0 && b % g == 0
    decreases b
  {
    if b == 0 then a
    else
      var g := Gcd(b, a % b);
      CommonDivisor(a, b, g);
      g
  }

  lemma DividesRemainder(a: nat, b: nat, d: nat)
    requires b > 0 && d > 0 && a % d == 0 && b % d == 0
    ensures (a % b) % d == 0
  {
    var q, s, t := a / b, a / d, b / d;
    assert a == s * d && b == t * d;
    assert b * q == (t * q) * d by {
      assert (t * d) * q == (t * q) * d;
    }
    assert a % b == s * d - (t * q) * d == (s - t * q) * d;
    Multiple(a % b, d, s - t * q);
  }

  // No common divisor is greater.
  lemma {:induction false} GcdIsGreatest(a: nat, b: nat, d: nat)
    requires (a > 0 || b > 0) && d > 0 && a % d == 0 && b % d == 0
    ensures d <= Gcd(a, b)
    decreases b
  {
    if b == 0 {
      AtMostMultiple(a, d);
    } else {
      DividesRemainder(a, b, d);
      GcdIsGreatest(b, a % b, d);
    }
  }

  lemma AtMostMultiple(a: nat, d: nat)
    requires a > 0 && d > 0 && a % d == 0
    ensures d <= a
  {
    if a < d {
      Multiple(0, d, 0);
      FloorUnique(a, d, 0);
    }
  }

  function Abs(x: int): nat {
    if x < 0 then -x else x
  }

  lemma LowestTerms(a: nat, b: nat, g: nat)
    requires g > 0 && b > 0 && a % g == 0 && b % g == 0
    ensures b / g > 0 && (a / g) * b == a * (b / g)
  {
    var p, q := a / g, b / g;
    assert a == g * p && b == g * q;
    assert p * (g * q) == (g * p) * q;
  }

  // Nothing above one divides both.
  ghost predicate Coprime(p: nat, q: nat) {
    forall d: nat :: d > 1 ==> !(Divides(d, p) && Divides(d, q))
  }

  lemma QuotientsCoprime(a: nat, b: nat)
    requires b > 0
    ensures Coprime(a / Gcd(a, b), b / Gcd(a, b))
  {
    var g := Gcd(a, b);
    var p, q := a / g, b / g;
    forall d: nat | d > 1 && Divides(d, p) && Divides(d, q) ensures false {
      ScaledDivides(a, g, d);
      ScaledDivides(b, g, d);
      GcdIsGreatest(a, b, d * g);
      ScaleMonotone(2, d, g);
    }
  }

  lemma ScaledDivides(a: nat, g: nat, d: nat)
    requires g > 0 && d > 0 && a % g == 0 && (a / g) % d == 0
    ensures d * g > 0 && a % (d * g) == 0
  {
    var p := a / g;
    var t := p / d;
    assert a == p * g && p == t * d;
    assert (t * d) * g == t * (d * g);
    ScaleMonotone(1, d, g);
    Multiple(a, d * g, t);
  }

  // big.Rat.SetFrac panics on a zero denominator; its result is in lowest terms.
  function SetFrac(a: int, b: int): (r: Rat)
    requires b != 0
    ensures r.den > 0 && r.num * b == a * r.den
    ensures Coprime(Abs(r.num), r.den)
  {
    var g := Gcd(Abs(a), Abs(b));
    var p, q := Abs(a) / g, Abs(b) / g;
    LowestTerms(Abs(a), Abs(b), g);
    QuotientsCoprime(Abs(a), Abs(b));
    Rat(if (a < 0) != (b < 0) then -p else p, q)
  }

  // Two ways of writing one fraction give the same floor.
  lemma FloorOfEqualFractions(x: int, p: int, q: int, a: int, b: int)
    requires q > 0 && b > 0 && p * b == a * q
    ensures (x * p) / q == (x * a) / b
  {
    var d := (x * p) / q;
    FloorBounds(x * p, q);
    assert (d * b) * q <= (x * a) * q by {
      assert (d * q) * b <= (x * p) * b;
      assert (x * p) * b == x * (p * b) == (x * a) * q;
    }
    assert (x * a) * q < ((d + 1) * b) * q by {
      assert (x * p) * b < ((d + 1) * q) * b;
      assert (x * p) * b == x * (p * b) == (x * a) * q;
    }
    CancelFactor(d * b, x * a, q);
    CancelFactorStrict(x * a, (d + 1) * b, q);
    FloorUnique(x * a, b, d);
  }

  lemma CancelFactor(x: int, y: int, q: int)
    requires q > 0 && x * q <= y * q
    ensures x <= y
  {
    if x > y {
      ScaleMonotone(y + 1, x, q);
    }
  }

  lemma CancelFactorStrict(x: int, y: int, q: int)
    requires q > 0 && x * q < y * q
    ensures x < y
  {
    if x >= y {
      ScaleMonotone(y, x, q);
    }
  }

  /** The mutable amount of the ledger: Add, Neg and MulRat overwrite the receiver. */
  class Amount {
    var v: int

    constructor (v: int)
      ensures this.v == v
    {
      this.v := v;
    }

    method Add(x: Amount)
      modifies this
      ensures v == old(v) + old(x.v)
    {
      v := v + x.v;
    }

    method Neg()
      modifies this
      ensures v == -old(v)
    {
      v := -v;
    }

    function Cmp(x: Amount): (r: int)
      reads this, x
      ensures (r < 0 <==> v < x.v) && (r == 0 <==> v == x.v) && (r > 0 <==> v > x.v)
    {
      if v < x.v then -1 else if v > x.v then 1 else 0
    }

    method Copy() returns (n: Amount)
      ensures fresh(n) && n.v == v
    {
      n := new Amount(0);
      n.Add(this);
    }

    // Rounds towards minus infinity: the largest integer not above v * r.
    method MulRat(r: Rat)
      requires r.den > 0
      modifies this
      ensures v * r.den <= old(v) * r.num < (v + 1) * r.den
      ensures v == (old(v) * r.num) / r.den
    {
      v := v * r.num;
      FloorBounds(v, r.den);
      v := v / r.den;
    }
  }
}

/** The two fee formulas: the rate of the policy, and the share of a fee given back by a refund. */
module FeeFormulas {
  import opened Sums
  import opened Amounts

  datatype FeeRate = FeeRate(rate: Rat, maxAmount: int)
  // A rate that big.Rat could parse.
  type ValidRate = r: FeeRate | r.rate.den > 0 witness FeeRate(Rat(0, 1), 0)

  // fee_stub.go CalcFee, once the rate has been found.
  function RatedFee(r: FeeRate, amount: int): (fee: int)
    requires r.rate.den > 0
    ensures 0 <= fee
  {
    var f := (amount * r.rate.num) / r.rate.den;
    if f < 0 then 0
    else if r.maxAmount > 0 && f > r.maxAmount then r.maxAmount
    else f
  }

  predicate AtMostOne(r: FeeRate) {
    0 < r.rate.den && r.rate.num <= r.rate.den
  }

  // The fee is the amount times the rate, rounded down, then moved into [0, max].
  lemma RatedFeeIsClampedFloor(r: FeeRate, amount: int, q: int)
    requires r.rate.den > 0
    requires q * r.rate.den <= amount * r.rate.num < (q + 1) * r.rate.den
    ensures RatedFee(r, amount) ==
            if q < 0 then 0 else if 0 < r.maxAmount < q then r.maxAmount else q
  {
    FloorUnique(amount * r.rate.num, r.rate.den, q);
  }

  lemma FloorMonotone(a: int, b: int, d: int)
    requires d > 0 && a <= b
    ensures a / d <= b / d
  {
    FloorBounds(a, d);
    FloorBounds(b, d);
    if b / d < a / d {
      ScaleMonotone(b / d + 1, a / d, d);
    }
  }

  lemma RatedFeeMonotone(r: FeeRate, a: int, b: int)
    requires r.rate.den > 0 && r.rate.num >= 0 && a <= b
    ensures RatedFee(r, a) <= RatedFee(r, b)
  {
    ScaleMonotone(a, b, r.rate.num);
    FloorMonotone(a * r.rate.num, b * r.rate.num, r.rate.den);
  }

  lemma RatedFeeAtMostAmount(r: FeeRate, amount: int)
    requires AtMostOne(r) && amount >= 0
    ensures RatedFee(r, amount) <= amount
  {
    assert amount * r.rate.num <= amount * r.rate.den;
    FloorMonotone(amount * r.rate.num, amount * r.rate.den, r.rate.den);
    Multiple(amount * r.rate.den, r.rate.den, amount);
  }

  // A fee exceeds the amount exactly when the part of the rate above one is worth a whole
  // unit on it, and no maximum cuts the fee down to the amount.
  predicate Overcharges(r: FeeRate, amount: int) {
    amount * (r.rate.num - r.rate.den) >= r.rate.den && (r.maxAmount <= 0 || amount < r.maxAmount)
  }

  lemma OverchargesIff(r: FeeRate, amount: int)
    requires r.rate.den > 0 && amount >= 0
    ensures RatedFee(r, amount) > amount <==> Overcharges(r, amount)
  {
    var n, d := r.rate.num, r.rate.den;
    var q := (amount * n) / d;
    assert amount * (n - d) == amount * n - amount * d && (amount + 1) * d == amount * d + d;
    FloorBounds(amount * n, d);
    if amount * n >= (amount + 1) * d {
      FloorMonotone((amount + 1) * d, amount * n, d);
      Multiple((amount + 1) * d, d, amount + 1);
    } else if q > amount {
      ScaleMonotone(amount + 1, q, d);
    }
  }

  // A rate of 2 with a maximum of 100 charges 20 on 10; a rate of 5/2 charges 2 on 1.
  lemma OverchargedAmounts()
    ensures RatedFee(FeeRate(Rat(2, 1), 100), 10) == 20
    ensures RatedFee(FeeRate(Rat(5, 2), 0), 1) == 2
  {
  }

  // Splitting a payment in two loses at most one unit of fee, and never gains.
  lemma RatedFeeSplit(r: FeeRate, a: int, b: int)
    requires r.rate.den > 0 && r.rate.num >= 0 && r.maxAmount <= 0 && a >= 0 && b >= 0
    ensures RatedFee(r, a) + RatedFee(r, b) <= RatedFee(r, a + b) <= RatedFee(r, a) + RatedFee(r, b) + 1
  {
    var n, d := r.rate.num, r.rate.den;
    ScaleMonotone(0, a, n);
    ScaleMonotone(0, b, n);
    assert (a + b) * n == a * n + b * n;
    FloorSum(a * n, b * n, d);
    FloorMonotone(0, a * n, d);
    FloorMonotone(0, b * n, d);
  }

  lemma FloorSum(p: int, q: int, d: int)
    requires d > 0
    ensures p / d + q / d <= (p + q) / d <= p / d + q / d + 1
  {
    var x, y, z := p / d, q / d, (p + q) / d;
    FloorBounds(p, d);
    FloorBounds(q, d);
    FloorBounds(p + q, d);
    assert (x + y) * d == x * d + y * d && (x + 1) * d + (y + 1) * d == (x + y + 2) * d;
    CancelFactorStrict(x + y, z + 1, d);
    CancelFactorStrict(z, x + y + 2, d);
  }

  // pay_tx.go: a full refund gives the fee back, a partial one its share rounded down.
  function RefundFee(amount: int, payAmount: int, payFee: int): int
    requires payAmount != 0
  {
    if amount != payAmount then FloorDiv(amount * payFee, payAmount) else payFee
  }

  function FloorDiv(x: int, y: int): int
    requires y != 0
  {
    if y > 0 then x / y else (-x) / (-y)
  }

  lemma RefundFeeIsFloor(amount: int, payAmount: int, payFee: int)
    requires payAmount > 0
    ensures RefundFee(amount, payAmount, payFee) == (amount * payFee) / payAmount
  {
    if amount == payAmount {
      Multiple(amount * payFee, payAmount, payFee);
    }
  }

  // The source reduces fee/amount to lowest terms first; that changes no floor.
  lemma ReducedRefundFee(amount: int, payAmount: int, payFee: int)
    requires payAmount != 0
    ensures var r := SetFrac(payFee, payAmount);
            (amount * r.num) / r.den == FloorDiv(amount * payFee, payAmount)
  {
    var r := SetFrac(payFee, payAmount);
    if payAmount > 0 {
      FloorOfEqualFractions(amount, r.num, r.den, payFee, payAmount);
    } else {
      FloorOfEqualFractions(amount, r.num, r.den, -payFee, -payAmount);
      assert amount * -payFee == -(amount * payFee);
    }
  }

  lemma RefundFeeInRange(amount: int, payAmount: int, payFee: int)
    requires payAmount > 0 && payFee >= 0 && 0 <= amount
    ensures 0 <= RefundFee(amount, payAmount, payFee)
    ensures payFee <= payAmount ==> RefundFee(amount, payAmount, payFee) <= amount
  {
    RefundFeeIsFloor(amount, payAmount, payFee);
    assert 0 <= amount * payFee;
    FloorMonotone(0, amount * payFee, payAmount);
    if payFee <= payAmount {
      assert amount * payFee <= amount * payAmount;
      FloorMonotone(amount * payFee, amount * payAmount, payAmount);
      Multiple(amount * payAmount, payAmount, amount);
    }
  }

  lemma OneMoreRefund(x: int, A: int, F: int, refunded: int, fees: int, n: nat)
    requires A > 0 && A * fees <= F * refunded <= A * (fees + n)
    ensures var y := RefundFee(x, A, F);
            A * (fees + y) <= F * (refunded + x) < A * (fees + y + n + 1)
  {
    var y := RefundFee(x, A, F);
    RefundFeeIsFloor(x, A, F);
    FloorBounds(x * F, A);
    assert A * y == y * A && F * x == x * F && A * (y + 1) == (y + 1) * A;
    assert A * (fees + y) == A * fees + A * y;
    assert F * (refunded + x) == F * refunded + F * x;
    assert A * (fees + y + n + 1) == A * (fees + n) + A * (y + 1);
  }

  // Any number of refunds, in any order: each rounds down, so n of them lose less than n units.
  lemma {:induction false} RefundFeesOfMany<K>(refunds: map<K, int>, fees: map<K, int>, A: int, F: int)
    requires A > 0 && refunds.Keys == fees.Keys
    requires forall k :: k in refunds ==> fees[k] == RefundFee(refunds[k], A, F)
    ensures A * Sum(fees) <= F * Sum(refunds)
    ensures F * Sum(refunds) <= A * (Sum(fees) + |refunds|)
    ensures |refunds| > 0 ==> F * Sum(refunds) < A * (Sum(fees) + |refunds|)
    decreases |refunds|
  {
    if refunds == map[] {
      assert fees == map[];
    } else {
      var k :| k in refunds;
      var r, f := refunds - {k}, fees - {k};
      assert r.Keys == refunds.Keys - {k} == f.Keys;
      RefundFeesOfMany(r, f, A, F);
      SumRemove(refunds, k);
      SumRemove(fees, k);
      OneMoreRefund(refunds[k], A, F, Sum(r), Sum(f), |r|);
    }
  }
}
