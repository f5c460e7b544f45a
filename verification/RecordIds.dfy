/**
  Ids of pay and fee records, and the prune watermark read back from them.
  An id is the decimal nanosecond timestamp followed by the transaction id
  (pay_stub.go:119, fee_stub.go:52); the watermark is recovered by cutting the
  id at digits 10 and 19 (pay_tx.go:364-374, fee_tx.go:185-197).
 */
module RecordIds {
  import opened Sums
  import opened Amounts

  const NANOS := 1_000_000_000
  const MIN_STAMP := 1_000_000_000_000_000_000
  const MAX_STAMP := 0x7FFF_FFFF_FFFF_FFFF

  predicate InRange(ts: int) {
    MIN_STAMP <= ts <= MAX_STAMP
  }

  predicate IsDigit(c: char) {
    '0' <= c <= '9'
  }

  predicate Digits(s: string) {
    forall i :: 0 <= i < |s| ==> IsDigit(s[i])
  }

  function Decimal(n: nat): (s: string)
    ensures |s| > 0 && Digits(s)
  {
    if n < 10 then [('0' as int + n) as char]
    else Decimal(n / 10) + [('0' as int + n % 10) as char]
  }

  function DigitsValue(s: string): nat
    requires Digits(s)
  {
    if s == [] then 0
    else DigitsValue(s[..|s| - 1]) * 10 + (s[|s| - 1] as int - '0' as int)
  }

  // strconv.ParseInt on the slices of an id; signs never occur there.
  function ParseDigits(s: string): Option<int> {
    if s != [] && Digits(s) then Some(DigitsValue(s)) else None
  }

  // strconv.ParseInt of 64 bits on any text.
  function ParseInt(s: string): Option<int> {
    var signed := s != "" && (s[0] == '-' || s[0] == '+');
    match ParseDigits(if signed then s[1..] else s)
    case None => None
    case Some(n) =>
      var v := if signed && s[0] == '-' then -n else n;
      if -MAX_STAMP - 1 <= v <= MAX_STAMP then Some(v) else None
  }

  function PrintId(ts: nat, tx: string): string {
    Decimal(ts) + tx
  }

  // None where the source fails: too short to slice, or not a number.
  function SplitTime(id: string): Option<int> {
    if |id| < 19 then None
    else
      match ParseDigits(id[0..10])
      case None => None
      case Some(seconds) =>
        match ParseDigits(id[10..19])
        case None => None
        case Some(nanos) => Some(seconds * NANOS + nanos)
  }

  function Pow10(k: nat): (p: nat)
    ensures p > 0
  {
    if k == 0 then 1 else 10 * Pow10(k - 1)
  }

  lemma {:induction false} DecimalValue(n: nat)
    ensures DigitsValue(Decimal(n)) == n
  {
    if n >= 10 {
      DecimalValue(n / 10);
      assert Decimal(n)[..|Decimal(n)| - 1] == Decimal(n / 10);
    }
  }

  lemma {:induction false} DecimalLength(n: nat)
    requires n > 0
    ensures Pow10(|Decimal(n)| - 1) <= n < Pow10(|Decimal(n)|)
  {
    if n >= 10 {
      DecimalLength(n / 10);
    }
  }

  lemma {:induction false} ValueBelowPower(s: string)
    requires Digits(s)
    ensures DigitsValue(s) < Pow10(|s|)
  {
    if s != [] {
      ValueBelowPower(s[..|s| - 1]);
    }
  }

  lemma {:induction false} ValueOfConcat(s: string, t: string)
    requires Digits(s) && Digits(t)
    ensures Digits(s + t) && DigitsValue(s + t) == DigitsValue(s) * Pow10(|t|) + DigitsValue(t)
  {
    if t == [] {
      assert s + t == s;
    } else {
      var u := t[..|t| - 1];
      ValueOfConcat(s, u);
      assert (s + t)[..|s + t| - 1] == s + u;
      TimesTen(DigitsValue(s), Pow10(|u|));
    }
  }

  lemma TimesTen(x: int, p: int)
    ensures x * (10 * p) == 10 * (x * p)
  {
  }

  lemma DigitsOfConcat(s: string, t: string)
    ensures Digits(s + t) <==> Digits(s) && Digits(t)
  {
    assert forall i :: 0 <= i < |s| ==> (s + t)[i] == s[i];
    assert forall i :: 0 <= i < |t| ==> (s + t)[|s| + i] == t[i];
  }

  lemma {:induction false} PowMonotone(i: nat, j: nat)
    requires i <= j
    ensures Pow10(i) <= Pow10(j)
  {
    if i < j {
      PowMonotone(i, j - 1);
    }
  }

  lemma SmallPowers()
    ensures Pow10(9) == NANOS && Pow10(18) == MIN_STAMP && Pow10(19) == 10 * MIN_STAMP
  {
    assert Pow10(3) == 1000;
    assert Pow10(6) == 1_000_000;
    assert Pow10(9) == NANOS;
    assert Pow10(12) == 1_000_000_000_000;
    assert Pow10(15) == 1_000_000_000_000_000;
    assert Pow10(18) == MIN_STAMP;
  }

  // Cutting at 10 and 19 reads the first nineteen characters as one number.
  lemma SplitReadsNineteen(id: string)
    ensures SplitTime(id).Some? <==> |id| >= 19 && Digits(id[..19])
    ensures SplitTime(id).Some? ==> SplitTime(id).value == DigitsValue(id[..19])
  {
    if |id| >= 19 {
      var a, b := id[0..10], id[10..19];
      assert id[..19] == a + b;
      DigitsOfConcat(a, b);
      if Digits(a) && Digits(b) {
        ValueOfConcat(a, b);
        SmallPowers();
      }
    }
  }

  // The watermark read back from an id is the time of its record exactly for
  // timestamps of nineteen digits, whatever the transaction id.
  lemma RoundTripExactly(ts: nat, tx: string)
    requires ts > 0
    ensures SplitTime(PrintId(ts, tx)) == Some(ts) <==> MIN_STAMP <= ts < 10 * MIN_STAMP
  {
    SmallPowers();
    DecimalLength(ts);
    SplitReadsNineteen(PrintId(ts, tx));
    var k := |Decimal(ts)|;
    if k < 19 {
      ShortStamp(ts, tx);
    } else if k == 19 {
      DecimalValue(ts);
      assert PrintId(ts, tx)[..19] == Decimal(ts);
    } else {
      LongStamp(ts, tx);
    }
  }

  // Too few digits: what is read starts with them and goes on into the transaction id.
  lemma ShortStamp(ts: nat, tx: string)
    requires ts > 0 && |Decimal(ts)| < 19
    ensures ts < MIN_STAMP && SplitTime(PrintId(ts, tx)) != Some(ts)
  {
    var id, d := PrintId(ts, tx), Decimal(ts);
    var k := |d|;
    SmallPowers();
    DecimalLength(ts);
    PowMonotone(k, 18);
    SplitReadsNineteen(id);
    if SplitTime(id).Some? {
      DecimalValue(ts);
      var rest := id[k..19];
      assert id[..19] == d + rest;
      DigitsOfConcat(d, rest);
      ValueOfConcat(d, rest);
      PowMonotone(1, 19 - k);
      ScaleMonotone(10, Pow10(19 - k), ts);
      assert ts * Pow10(19 - k) == Pow10(19 - k) * ts;
    }
  }

  // Too many digits: only the first nineteen are read.
  lemma LongStamp(ts: nat, tx: string)
    requires ts > 0 && |Decimal(ts)| > 19
    ensures ts >= 10 * MIN_STAMP && SplitTime(PrintId(ts, tx)) != Some(ts)
  {
    var d := Decimal(ts);
    SmallPowers();
    DecimalLength(ts);
    PowMonotone(19, |d| - 1);
    SplitReadsNineteen(PrintId(ts, tx));
    assert PrintId(ts, tx)[..19] == d[..19];
    if Digits(d[..19]) {
      ValueBelowPower(d[..19]);
    }
  }

  // The digits of a number are read as that number.
  lemma ParseIntOfDecimal(n: nat)
    ensures ParseInt(Decimal(n)) == if n <= MAX_STAMP then Some(n) else None
  {
    DecimalValue(n);
    assert IsDigit(Decimal(n)[0]);
  }

  lemma RoundTrip(ts: nat, tx: string)
    requires InRange(ts)
    ensures SplitTime(PrintId(ts, tx)) == Some(ts)
  {
    RoundTripExactly(ts, tx);
  }

  // Ids of different timestamps or different transactions never clash.
  lemma IdsInjective(ts: nat, tx: string, ts': nat, tx': string)
    requires InRange(ts) && InRange(ts') && PrintId(ts, tx) == PrintId(ts', tx')
    ensures ts == ts' && tx == tx'
  {
    RoundTrip(ts, tx);
    RoundTrip(ts', tx');
    assert tx == PrintId(ts, tx)[|Decimal(ts)|..];
    assert tx' == PrintId(ts', tx')[|Decimal(ts')|..];
  }

  lemma IdNotEmpty(ts: nat, tx: string)
    ensures PrintId(ts, tx) != ""
  {
    assert |PrintId(ts, tx)| > 0;
  }
}
