/** fee_stub.go: what a payer is charged, and the sum of the fees a prune collects. */
module FeeStub {
  import opened Sums
  import opened Addresses
  import opened Amounts
  import opened FeeFormulas
  import opened Pruning
  import opened Ledger
  import opened Shim

  method CalcFee(s: Stub, payer: Address, fn: string, amount: int) returns (fee: Option<int>)
    ensures fee == Rules.CalcFee(s.state, payer, fn, amount)
  {
    if payer.code !in s.state.tokens {
      return None;
    }
    var token := s.state.tokens[payer.code];
    if token.policy.Some? && fn in token.policy.value.rates {
      var rate := token.policy.value.rates[fn];
      // the issuer and the collector of fees pay none
      if token.genesis != payer && token.policy.value.target != payer {
        var feeAmount := new Amount(amount);
        feeAmount.MulRat(rate.rate);
        if feeAmount.v < 0 {
          return Some(0);
        }
        if rate.maxAmount > 0 {
          var maxAmount := new Amount(rate.maxAmount);
          if feeAmount.Cmp(maxAmount) > 0 {
            return Some(maxAmount.v);
          }
        }
        return Some(feeAmount.v);
      }
    }
    return Some(0);
  }

  // Who pays no fee at all: the genesis account, the fee target, and everyone where
  // the function has no rate.
  ghost predicate Free(w: World, payer: Address, fn: string)
    requires payer.code in w.tokens
  {
    var t := w.tokens[payer.code];
    t.policy.None? || fn !in t.policy.value.rates || payer == t.genesis || payer == t.policy.value.target
  }

  // Any other payer is charged the rate of the amount, rounded down, not below zero
  // and not above a positive maximum; q is that rounded product.
  lemma ChargeIsClampedFloor(w: World, payer: Address, fn: string, amount: int, q: int)
    requires payer.code in w.tokens && !Free(w, payer, fn)
    requires var r := w.tokens[payer.code].policy.value.rates[fn].rate;
      q * r.den <= amount * r.num < (q + 1) * r.den
    ensures var max := w.tokens[payer.code].policy.value.rates[fn].maxAmount;
      Rules.CalcFee(w, payer, fn, amount) == Some(if q < 0 then 0 else if 0 < max < q then max else q)
  {
    RatedFeeIsClampedFloor(w.tokens[payer.code].policy.value.rates[fn], amount, q);
  }

  // With a rate in [0, 1] a fee grows with the amount, stays within it, and splitting a
  // payment saves at most one unit when there is no maximum.
  lemma ChargeIsFair(w: World, payer: Address, fn: string, a: int, b: int)
    requires payer.code in w.tokens && 0 <= a && 0 <= b
    requires !Free(w, payer, fn) ==>
      var r := w.tokens[payer.code].policy.value.rates[fn]; 0 <= r.rate.num && AtMostOne(r)
    ensures var x, y, z := Rules.CalcFee(w, payer, fn, a), Rules.CalcFee(w, payer, fn, b), Rules.CalcFee(w, payer, fn, a + b);
      && x.Some? && y.Some? && z.Some?
      && 0 <= x.value <= a && x.value <= z.value
      && (Free(w, payer, fn) ==> x.value == 0)
      && (!Free(w, payer, fn) && w.tokens[payer.code].policy.value.rates[fn].maxAmount <= 0 ==>
            x.value + y.value <= z.value <= x.value + y.value + 1)
  {
    if !Free(w, payer, fn) {
      var r := w.tokens[payer.code].policy.value.rates[fn];
      RatedFeeAtMostAmount(r, a);
      RatedFeeMonotone(r, a, a + b);
      if r.maxAmount <= 0 {
        RatedFeeSplit(r, a, b);
      }
    }
  }

  // On the ledger: a payer is charged more than the amount if and only if it is not free
  // and the rate overcharges.
  lemma ChargedMoreIff(w: World, payer: Address, fn: string, amount: int)
    requires payer.code in w.tokens && amount >= 0
    ensures Rules.CalcFee(w, payer, fn, amount).Some?
    ensures Rules.CalcFee(w, payer, fn, amount).value > amount <==>
      !Free(w, payer, fn) && Overcharges(w.tokens[payer.code].policy.value.rates[fn], amount)
  {
    if !Free(w, payer, fn) {
      hide RatedFee, Overcharges;
      OverchargesIff(w.tokens[payer.code].policy.value.rates[fn], amount);
    }
  }

  datatype FeeSum = FeeSum(sum: int, count: nat, hasMore: bool, start: string, end: string)

  // The prune loop: at most 900 records of the answer, and whether there are more.
  method GetFeeSumByTime(s: Stub, order: seq<string>) returns (r: FeeSum)
    requires forall id :: id in order ==> id in s.state.fees
    ensures r.count == |Batch(order)| && (r.hasMore <==> |order| > PRUNE_SIZE)
    ensures r.sum == SeqSum(AmountsOf(FeeRecs(s.state.fees)), Batch(order))
    ensures order != [] ==> r.start == order[0] && r.end == Last(Batch(order))
  {
    var cnt, hasMore, start, end := 0, false, "", "";
    var sum := new Amount(0);
    var i := 0;
    ghost var amounts := AmountsOf(FeeRecs(s.state.fees));
    while i < |order|
      invariant 0 <= i <= |order| && cnt == i <= PRUNE_SIZE && !hasMore
      invariant sum.v == SeqSum(amounts, order[..i])
      invariant i > 0 ==> start == order[0] && end == order[i - 1]
    {
      cnt := cnt + 1;
      var fee := s.state.fees[order[i]];
      if cnt == 1 {
        start := order[i];
      }
      if cnt > PRUNE_SIZE {
        hasMore := true;
        cnt := cnt - 1;
        break;
      }
      var x := new Amount(fee.amount);
      sum.Add(x);
      end := order[i];
      assert order[..i + 1][..i] == order[..i];
      i := i + 1;
    }
    assert Batch(order) == order[..i];
    r := FeeSum(sum.v, cnt, hasMore, start, end);
  }
}
