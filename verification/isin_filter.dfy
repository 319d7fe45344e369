/** The `filter_transactions_by_isin` tool: keeps the ledger rows of one ISIN. */
module IsinFilter {
  import opened Ledger

  /** The rows of `txns` whose ISIN is `isin`, in ledger order. */
  function FilterByIsin(txns: seq<Txn>, isin: string): (r: seq<Txn>)
    ensures |r| <= |txns|
    ensures forall j :: 0 <= j < |r| ==> r[j].isin == isin
    decreases |txns|
  {
    if |txns| == 0 then []
    else
      var init := txns[..|txns| - 1];
      var last := txns[|txns| - 1];
      var kept := FilterByIsin(init, isin);
      if last.isin == isin then kept + [last] else kept
  }

  /** The positions of the rows whose ISIN is `isin`, in increasing order. */
  function MatchingIndices(txns: seq<Txn>, isin: string): (idx: seq<nat>)
    ensures forall j :: 0 <= j < |idx| ==> idx[j] < |txns| && txns[idx[j]].isin == isin
    ensures forall i :: 0 <= i < |txns| && txns[i].isin == isin ==> i in idx
    ensures forall j, k :: 0 <= j < k < |idx| ==> idx[j] < idx[k]
    decreases |txns|
  {
    if |txns| == 0 then []
    else
      var init := MatchingIndices(txns[..|txns| - 1], isin);
      if txns[|txns| - 1].isin == isin then init + [|txns| - 1] else init
  }

  /** The filter returns exactly the matching rows, in their original order:
      its `j`-th row is the row at the `j`-th matching position, so it has as
      many rows as there are matching positions. */
  lemma {:induction false} FilterSelectsMatchingRows(txns: seq<Txn>, isin: string)
    ensures var r := FilterByIsin(txns, isin);
            var idx := MatchingIndices(txns, isin);
            |r| == |idx| && forall j :: 0 <= j < |r| ==> r[j] == txns[idx[j]]
    decreases |txns|
  {
    if |txns| > 0 {
      var init := txns[..|txns| - 1];
      FilterSelectsMatchingRows(init, isin);
      var ri := FilterByIsin(init, isin);
      var ii := MatchingIndices(init, isin);
      forall j | 0 <= j < |ri|
        ensures ri[j] == txns[ii[j]]
      {
        assert ri[j] == init[ii[j]];
      }
    }
  }

  /** A row is returned exactly when it is a row of the ledger with the
      requested ISIN. */
  lemma FilterMembership(txns: seq<Txn>, isin: string)
    ensures forall t :: t in FilterByIsin(txns, isin) <==> t in txns && t.isin == isin
  {
    FilterSelectsMatchingRows(txns, isin);
    var r := FilterByIsin(txns, isin);
    var idx := MatchingIndices(txns, isin);
    forall t | t in txns && t.isin == isin
      ensures t in r
    {
      var i :| 0 <= i < |txns| && txns[i] == t;
      assert i in idx;
      var j :| 0 <= j < |idx| && idx[j] == i;
      assert r[j] == t;
    }
  }

  /** The first row the filter returns is the first row of the ledger with
      that ISIN. */
  lemma FirstRowIsFirstSeen(txns: seq<Txn>, isin: string)
    requires isin in IsinSet(txns)
    ensures |FilterByIsin(txns, isin)| > 0
    ensures exists p :: 0 <= p < |txns| && txns[p].isin == isin
              && FilterByIsin(txns, isin)[0] == txns[p]
              && forall q :: 0 <= q < p ==> txns[q].isin != isin
  {
    FilterEmptyIff(txns, isin);
    FilterSelectsMatchingRows(txns, isin);
    var idx := MatchingIndices(txns, isin);
    assert txns[idx[0]].isin == isin;
  }

  /** Filtering distributes over concatenation: the filter is determined by
      what it does to single rows. */
  lemma {:induction false} FilterAppend(a: seq<Txn>, b: seq<Txn>, isin: string)
    ensures FilterByIsin(a + b, isin) == FilterByIsin(a, isin) + FilterByIsin(b, isin)
    decreases |b|
  {
    if |b| == 0 {
      assert a + b == a;
    } else {
      var b' := b[..|b| - 1];
      FilterAppend(a, b', isin);
      assert (a + b)[..|a + b| - 1] == a + b';
    }
  }

  /** Filtering a filtered ledger by the same ISIN returns it unchanged. */
  lemma {:induction false} FilterIdempotent(txns: seq<Txn>, isin: string)
    ensures FilterByIsin(FilterByIsin(txns, isin), isin) == FilterByIsin(txns, isin)
    decreases |txns|
  {
    if |txns| > 0 {
      var init := txns[..|txns| - 1];
      var last := txns[|txns| - 1];
      FilterIdempotent(init, isin);
      if last.isin == isin {
        var kept := FilterByIsin(init, isin);
        FilterAppend(kept, [last], isin);
        assert FilterByIsin([last], isin) == FilterByIsin([], isin) + [last] by {
          assert [last][..0] == [];
        }
      }
    }
  }

  /** The filter returns no row exactly when no row carries the ISIN; in
      particular an empty ledger gives an empty result. */
  lemma {:induction false} FilterEmptyIff(txns: seq<Txn>, isin: string)
    ensures FilterByIsin(txns, isin) == [] <==> isin !in IsinSet(txns)
    decreases |txns|
  {
    if |txns| > 0 {
      var init := txns[..|txns| - 1];
      FilterEmptyIff(init, isin);
      assert txns == init + [txns[|txns| - 1]];
      IsinSetAppend(init, txns[|txns| - 1]);
    }
  }
}
