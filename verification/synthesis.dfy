/** `_merge_curr_holdings_to_txns`: appends one synthetic cashflow per current
    holding, its market value received "today", so that the ledger can be fed
    to a return computation. The date is a parameter here; the model does not
    read the clock. */
module Synthesis {
  import opened Wrappers
  import opened Ledger
  import opened Holdings
  import opened IsinFilter
  import opened StringOrder
  import opened NavLookup
  import Cashflow

  const HoldingsDescription: string := "Current holdings"

  /** The synthetic row of one current holding. The statement has no units
      cell for it, so `units` is missing. */
  function HoldingsRow(h: CurrentHolding, today: string): (t: Txn)
    ensures t.isin == h.isin && t.scheme == h.scheme && t.date == Some(today)
    ensures t.kind == HoldingsKind && !Cashflow.InVocabulary(t.kind)
    ensures t.units == None && t.amount == Some(h.marketValue)
    ensures t.description == Some(HoldingsDescription)
    ensures OrZero(t.units) == 0.0 && OrZero(t.amount) == h.marketValue
  {
    Txn(Some(today), Some(h.marketValue), None, h.isin, h.scheme, HoldingsKind, Some(HoldingsDescription))
  }

  /** The synthetic rows of all current holdings, in holdings order. */
  function HoldingsRows(cur: seq<CurrentHolding>, today: string): (rows: seq<Txn>)
    ensures |rows| == |cur|
    ensures forall i :: 0 <= i < |cur| ==> rows[i] == HoldingsRow(cur[i], today)
    decreases |cur|
  {
    if |cur| == 0 then []
    else HoldingsRows(cur[..|cur| - 1], today) + [HoldingsRow(cur[|cur| - 1], today)]
  }

  /** `pd.concat([txns, holdings rows], ignore_index=True)`: the ledger is kept
      unchanged as a prefix and each current holding contributes one
      `HOLDINGS` row worth its market value. */
  function MergeCurrentHoldings(txns: seq<Txn>, cur: seq<CurrentHolding>, today: string): (merged: seq<Txn>)
    ensures |merged| == |txns| + |cur|
    ensures merged[..|txns|] == txns
    ensures forall i :: 0 <= i < |cur| ==>
              && merged[|txns| + i].kind == HoldingsKind
              && merged[|txns| + i].isin == cur[i].isin
              && merged[|txns| + i].scheme == cur[i].scheme
              && merged[|txns| + i].amount == Some(cur[i].marketValue)
              && merged[|txns| + i].units == None
              && merged[|txns| + i].date == Some(today)
  {
    txns + HoldingsRows(cur, today)
  }

  /** The appended row at offset `i` is the synthetic row of the `i`-th
      holding. */
  lemma MergedRowIsHolding(txns: seq<Txn>, cur: seq<CurrentHolding>, today: string, i: int)
    requires 0 <= i < |cur|
    ensures MergeCurrentHoldings(txns, cur, today)[|txns| + i] == HoldingsRow(cur[i], today)
  {
  }

  /** With positive NAVs every `HOLDINGS` row appended to the ledger is an
      inflow: its amount is present and positive. */
  lemma MergedHoldingsAreInflows(txns: seq<Txn>, table: seq<NavRow>, today: string)
    ensures PositiveNavs(table) && CurrentAndPastHoldings(txns, table).Success? ==>
              var cur := CurrentAndPastHoldings(txns, table).value.0;
              var held := MergeCurrentHoldings(txns, cur, today)[|txns|..];
              forall i :: 0 <= i < |held| ==> held[i].amount.Some? && held[i].amount.value > 0.0
  {
    CurrentHoldingsArePositive(txns, table);
    if CurrentAndPastHoldings(txns, table).Success? {
      var cur := CurrentAndPastHoldings(txns, table).value.0;
      assert MergeCurrentHoldings(txns, cur, today)[|txns|..] == HoldingsRows(cur, today);
    }
  }

  /** Holdings in ascending ISIN order give synthetic rows in ascending ISIN
      order after the ledger. */
  lemma MergedHoldingsInOrder(txns: seq<Txn>, cur: seq<CurrentHolding>, today: string)
    ensures StrictlySorted(CurrentKeys(cur)) ==>
              var held := MergeCurrentHoldings(txns, cur, today)[|txns|..];
              forall i, j :: 0 <= i < j < |held| ==> Less(held[i].isin, held[j].isin)
  {
    var held := MergeCurrentHoldings(txns, cur, today)[|txns|..];
    assert held == HoldingsRows(cur, today);
    if StrictlySorted(CurrentKeys(cur)) {
      forall i, j | 0 <= i < j < |held|
        ensures Less(held[i].isin, held[j].isin)
      {
        assert CurrentKeys(cur)[i] == held[i].isin && CurrentKeys(cur)[j] == held[j].isin;
      }
    }
  }

  /** Sum of the market values of the current holdings. */
  function TotalMarketValue(cur: seq<CurrentHolding>): real
    decreases |cur|
  {
    if |cur| == 0 then 0.0 else TotalMarketValue(cur[..|cur| - 1]) + cur[|cur| - 1].marketValue
  }

  lemma {:induction false} HoldingsRowsTotals(cur: seq<CurrentHolding>, today: string)
    ensures AmountTotal(HoldingsRows(cur, today)) == TotalMarketValue(cur)
    ensures UnitsTotal(HoldingsRows(cur, today)) == 0.0
    decreases |cur|
  {
    if |cur| > 0 {
      var init := cur[..|cur| - 1];
      HoldingsRowsTotals(init, today);
      var rows := HoldingsRows(cur, today);
      assert rows[..|rows| - 1] == HoldingsRows(init, today);
    }
  }

  /** The net cashflow of the merged ledger is the net of the statement rows
      plus the market value of every current holding, and the synthetic rows
      add no units. */
  lemma MergedLedgerTotals(txns: seq<Txn>, cur: seq<CurrentHolding>, today: string)
    ensures AmountTotal(MergeCurrentHoldings(txns, cur, today)) == AmountTotal(txns) + TotalMarketValue(cur)
    ensures UnitsTotal(MergeCurrentHoldings(txns, cur, today)) == UnitsTotal(txns)
  {
    TotalsAppend(txns, HoldingsRows(cur, today));
    HoldingsRowsTotals(cur, today);
  }

  /** A ledger whose rows all lack units sums to zero units. */
  lemma {:induction false} NoUnitsSumToZero(rows: seq<Txn>)
    requires forall i :: 0 <= i < |rows| ==> rows[i].units == None
    ensures UnitsTotal(rows) == 0.0
    decreases |rows|
  {
    if |rows| > 0 {
      NoUnitsSumToZero(rows[..|rows| - 1]);
    }
  }

  /** Filtering the merged ledger by an ISIN gives that ISIN's statement rows
      followed by its synthetic rows, and the synthetic rows do not change the
      ISIN's net units: grouping the merged ledger again yields the same units. */
  lemma MergedFilterKeepsUnits(txns: seq<Txn>, cur: seq<CurrentHolding>, today: string, isin: string)
    ensures FilterByIsin(MergeCurrentHoldings(txns, cur, today), isin)
              == FilterByIsin(txns, isin) + FilterByIsin(HoldingsRows(cur, today), isin)
    ensures UnitsTotal(FilterByIsin(MergeCurrentHoldings(txns, cur, today), isin))
              == UnitsTotal(FilterByIsin(txns, isin))
  {
    var rows := HoldingsRows(cur, today);
    FilterAppend(txns, rows, isin);
    FilteredHoldingsRowsHaveNoUnits(cur, today, isin);
    TotalsAppend(FilterByIsin(txns, isin), FilterByIsin(rows, isin));
  }

  /** Whatever ISIN they are filtered by, synthetic rows carry no units, so
      they sum to zero units. */
  lemma FilteredHoldingsRowsHaveNoUnits(cur: seq<CurrentHolding>, today: string, isin: string)
    ensures var f := FilterByIsin(HoldingsRows(cur, today), isin);
            && (forall i :: 0 <= i < |f| ==> f[i].units == None)
            && UnitsTotal(f) == 0.0
  {
    var rows := HoldingsRows(cur, today);
    var f := FilterByIsin(rows, isin);
    FilterMembership(rows, isin);
    forall i | 0 <= i < |f|
      ensures f[i].units == None
    {
      assert f[i] in f;
      var j :| 0 <= j < |rows| && rows[j] == f[i];
    }
    NoUnitsSumToZero(f);
  }

  /** Classifying the merged ledger again leaves every synthetic row
      unclassified: the marker is outside the classifier's vocabulary. */
  lemma SyntheticRowsAreUnclassified(txns: seq<Txn>, cur: seq<CurrentHolding>, today: string, amount: real)
    ensures forall i :: |txns| <= i < |txns| + |cur| ==>
              Cashflow.SignedAmount(MergeCurrentHoldings(txns, cur, today)[i].kind, amount) == None
  {
    Cashflow.HoldingsMarkerIsUnclassified(amount);
  }
}
