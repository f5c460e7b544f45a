/**
  Batched pruning driven by a time watermark, as pays and fees share it
  (queries.go:159-181 and 244-260, pay_stub.go:179-224, fee_stub.go:100-138).
  A record belongs to an owner: a merchant for pays, a token for fees.
 */
module Pruning {
  import opened Sums

  const PRUNE_SIZE := 900

  datatype Rec<O> = Rec(owner: O, created: int, amount: int, fee: int)

  // The selector of the prune queries: strictly after the start, up to the end.
  ghost predicate Due<O>(recs: map<string, Rec<O>>, owner: O, start: int, end: int, id: string) {
    id in recs && recs[id].owner == owner && start < recs[id].created <= end
  }

  // What the query iterator yields: every due record once, in ascending
  // created_time; records of one instant come in any order.
  ghost predicate Listing<O>(recs: map<string, Rec<O>>, owner: O, start: int, end: int, order: seq<string>) {
    && NoRepeats(order)
    && (forall i :: 0 <= i < |order| ==> Due(recs, owner, start, end, order[i]))
    && (forall id :: Due(recs, owner, start, end, id) ==> id in order)
    && (forall i, j :: 0 <= i < j < |order| ==> recs[order[i]].created <= recs[order[j]].created)
  }

  function Batch(order: seq<string>): seq<string> {
    if |order| <= PRUNE_SIZE then order else order[..PRUNE_SIZE]
  }

  function Last(ids: seq<string>): string
    requires ids != []
  {
    ids[|ids| - 1]
  }

  function AmountsOf<O>(recs: map<string, Rec<O>>): map<string, int> {
    map id | id in recs :: recs[id].amount
  }

  function FeesOf<O>(recs: map<string, Rec<O>>): map<string, int> {
    map id | id in recs :: recs[id].fee
  }

  ghost predicate DistinctTimes<O>(recs: map<string, Rec<O>>, owner: O) {
    forall x, y :: x in recs && y in recs && x != y && recs[x].owner == owner && recs[y].owner == owner
      ==> recs[x].created != recs[y].created
  }

  // Every record of the owner already counted lies at or below the watermark t.
  ghost predicate CountedBelow<O>(recs: map<string, Rec<O>>, counted: set<string>, owner: O, t: int) {
    forall id :: id in counted && id in recs && recs[id].owner == owner ==> recs[id].created <= t
  }

  // The counted records of the owner are exactly those at or below the watermark.
  ghost predicate CountedExactly<O>(recs: map<string, Rec<O>>, counted: set<string>, owner: O, t: int) {
    forall id :: id in recs && recs[id].owner == owner ==> (id in counted <==> recs[id].created <= t)
  }

  // No timing hypothesis: a batch never holds a counted record, and moves the watermark up.
  lemma BatchIsNew<O>(recs: map<string, Rec<O>>, counted: set<string>, owner: O, start: int, end: int, order: seq<string>)
    requires Listing(recs, owner, start, end, order) && order != []
    requires CountedBelow(recs, counted, owner, start)
    ensures var b := Batch(order);
      && b != [] && NoRepeats(b)
      && (forall id :: id in b ==> id in recs && id !in counted && recs[id].owner == owner)
      && start < recs[Last(b)].created <= end
      && CountedBelow(recs, counted + Elements(b), owner, recs[Last(b)].created)
  {
    var b := Batch(order);
    assert Last(b) == order[|b| - 1];
    var t := recs[Last(b)].created;
    forall id | id in b
      ensures id in recs && id !in counted && recs[id].owner == owner && recs[id].created <= t
    {
      var i :| 0 <= i < |b| && b[i] == id;
      assert Due(recs, owner, start, end, order[i]);
    }
  }

  // With distinct times the last record of the batch separates it from the rest.
  lemma BatchSplits<O>(recs: map<string, Rec<O>>, owner: O, start: int, end: int, order: seq<string>, i: nat)
    requires Listing(recs, owner, start, end, order) && DistinctTimes(recs, owner) && i < |order|
    ensures var b := Batch(order);
      && Last(b) in recs && order[i] in recs && recs[order[i]].owner == owner
      && (recs[order[i]].created <= recs[Last(b)].created <==> i < |b|)
  {
    var b := Batch(order);
    assert Last(b) == order[|b| - 1];
    assert Due(recs, owner, start, end, order[i]);
    assert Due(recs, owner, start, end, order[|b| - 1]);
  }

  // Whether a full batch ends between two instants, or in the middle of one.
  ghost predicate CutsCleanly<O>(recs: map<string, Rec<O>>, order: seq<string>)
    requires forall id :: id in order ==> id in recs
  {
    |order| > PRUNE_SIZE ==> recs[order[PRUNE_SIZE - 1]].created < recs[order[PRUNE_SIZE]].created
  }

  lemma ListedAreRecords<O>(recs: map<string, Rec<O>>, owner: O, start: int, end: int, order: seq<string>)
    requires Listing(recs, owner, start, end, order)
    ensures forall id :: id in order ==> id in recs
    ensures order != [] ==> Batch(order) != [] && Last(Batch(order)) in recs
    ensures DistinctTimes(recs, owner) ==> CutsCleanly(recs, order)
  {
    forall id | id in order ensures id in recs {
      var i :| 0 <= i < |order| && order[i] == id;
      assert Due(recs, owner, start, end, order[i]);
    }
    assert order != [] ==> Last(Batch(order)) == order[|Batch(order)| - 1];
    if DistinctTimes(recs, owner) && |order| > PRUNE_SIZE {
      assert Due(recs, owner, start, end, order[PRUNE_SIZE - 1]);
      assert Due(recs, owner, start, end, order[PRUNE_SIZE]);
    }
  }

  // The records at or below the new watermark are all counted exactly when the batch
  // cuts cleanly; otherwise the rest of the cut instant is lost to every later prune.
  lemma BatchCountsExactly<O>(recs: map<string, Rec<O>>, counted: set<string>, owner: O, start: int, end: int, order: seq<string>)
    requires Listing(recs, owner, start, end, order) && order != []
    requires forall id :: id in order ==> id in recs
    requires CountedExactly(recs, counted, owner, start)
    ensures CountedExactly(recs, counted + Elements(Batch(order)), owner, recs[Last(Batch(order))].created) <==> CutsCleanly(recs, order)
  {
    var b := Batch(order);
    BatchIsNew(recs, counted, owner, start, end, order);
    var t := recs[Last(b)].created;
    if CutsCleanly(recs, order) {
      forall id | id in recs && recs[id].owner == owner && start < recs[id].created
        ensures id in b <==> recs[id].created <= t
      {
        if recs[id].created <= end {
          assert Due(recs, owner, start, end, id);
          var i :| 0 <= i < |order| && order[i] == id;
          assert i < |b| ==> b[i] == id;
        }
      }
    } else {
      var id := order[PRUNE_SIZE];
      assert Due(recs, owner, start, end, id);
      assert id !in b && id !in counted && recs[id].created <= t;
    }
  }

  // The next query yields exactly the rest of this one.
  lemma BatchLeavesRest<O>(recs: map<string, Rec<O>>, owner: O, start: int, end: int, order: seq<string>)
    requires Listing(recs, owner, start, end, order) && order != [] && DistinctTimes(recs, owner)
    ensures var b := Batch(order);
      Last(b) in recs && Listing(recs, owner, recs[Last(b)].created, end, order[|b|..])
  {
    var b := Batch(order);
    var rest := order[|b|..];
    BatchSplits(recs, owner, start, end, order, |b| - 1);
    var t := recs[Last(b)].created;
    forall k | 0 <= k < |rest| ensures Due(recs, owner, t, end, rest[k]) {
      assert Due(recs, owner, start, end, order[k + |b|]);
      BatchSplits(recs, owner, start, end, order, k + |b|);
    }
    forall id | Due(recs, owner, t, end, id) ensures id in rest {
      assert Due(recs, owner, start, end, order[|b| - 1]);
      assert Due(recs, owner, start, end, id);
      var i :| 0 <= i < |order| && order[i] == id;
      BatchSplits(recs, owner, start, end, order, i);
      assert rest[i - |b|] == id;
    }
  }

  // With distinct times the query result is determined.
  lemma {:induction false} ListingUnique<O>(recs: map<string, Rec<O>>, owner: O, start: int, end: int, x: seq<string>, y: seq<string>)
    requires Listing(recs, owner, start, end, x) && Listing(recs, owner, start, end, y) && DistinctTimes(recs, owner)
    ensures x == y
    decreases |x|
  {
    assert x != [] ==> Due(recs, owner, start, end, x[0]);
    assert y != [] ==> Due(recs, owner, start, end, y[0]);
    if x != [] && y != [] {
      var i :| 0 <= i < |x| && x[i] == y[0];
      var j :| 0 <= j < |y| && y[j] == x[0];
      assert x[0] == y[0];
      TailListing(recs, owner, start, end, x);
      TailListing(recs, owner, start, end, y);
      ListingUnique(recs, owner, recs[x[0]].created, end, x[1..], y[1..]);
    }
  }

  lemma TailListing<O>(recs: map<string, Rec<O>>, owner: O, start: int, end: int, x: seq<string>)
    requires Listing(recs, owner, start, end, x) && DistinctTimes(recs, owner) && x != []
    ensures x[0] in recs && Listing(recs, owner, recs[x[0]].created, end, x[1..])
  {
    assert Due(recs, owner, start, end, x[0]);
    var t := recs[x[0]].created;
    forall k | 0 <= k < |x[1..]| ensures Due(recs, owner, t, end, x[1..][k]) {
      assert Due(recs, owner, start, end, x[k + 1]);
      assert recs[x[0]].created <= recs[x[k + 1]].created;
    }
    forall id | Due(recs, owner, t, end, id) ensures id in x[1..] {
      assert Due(recs, owner, start, end, id);
      var k :| 0 <= k < |x| && x[k] == id;
      assert x[1..][k - 1] == id;
    }
  }
}
