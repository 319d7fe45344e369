/** The post-decode part of `CasParser.parse`: the decoded statement table is
    classified, projected onto the kept columns, grouped into current and past
    holdings, and extended with one synthetic row per current holding.
    Decoding the PDF into a table happens before this and is not modelled: the
    statement arrives as a list of column names and a list of rows. */
module Parser {
  import opened Wrappers
  import opened Ledger
  import opened NavLookup
  import opened Holdings
  import opened Synthesis
  import opened IsinFilter
  import opened StringOrder
  import Cashflow

  /** The columns the ledger keeps, in the order the source lists them. */
  const RequiredColumns: seq<string> :=
    ["amount", "date", "units", "isin", "scheme", "type", "description"]

  predicate Distinct(xs: seq<string>) {
    forall i, j :: 0 <= i < j < |xs| ==> xs[i] != xs[j]
  }

  /** `r` is `xs` with some elements left out, the rest in their order. */
  predicate IsSubsequence(r: seq<string>, xs: seq<string>)
    decreases |xs|
  {
    if |r| == 0 then true
    else if |xs| == 0 then false
    else if r[0] == xs[0] then IsSubsequence(r[1..], xs[1..])
    else IsSubsequence(r, xs[1..])
  }

  /** `[col for col in wanted if col in header]`: the wanted columns the
      header has, each once. */
  function KeepPresent(wanted: seq<string>, header: seq<string>): (r: seq<string>)
    requires Distinct(wanted)
    ensures |r| <= |wanted|
    ensures forall c :: c in r <==> c in wanted && c in header
    ensures Distinct(r)
    decreases |wanted|
  {
    if |wanted| == 0 then []
    else
      var rest := KeepPresent(wanted[1..], header);
      assert forall c :: c in rest ==> c in wanted[1..] && c != wanted[0];
      if wanted[0] in header then [wanted[0]] + rest else rest
  }

  /** The kept columns appear in the order `wanted` lists them. */
  lemma {:induction false} KeepPresentInOrder(wanted: seq<string>, header: seq<string>)
    requires Distinct(wanted)
    ensures IsSubsequence(KeepPresent(wanted, header), wanted)
    decreases |wanted|
  {
    if |wanted| > 0 {
      var rest := KeepPresent(wanted[1..], header);
      KeepPresentInOrder(wanted[1..], header);
      if wanted[0] in header {
        assert ([wanted[0]] + rest)[1..] == rest;
      } else if |rest| > 0 {
        assert rest[0] in rest;
      }
    }
  }

  /** The kept columns of a statement: the required columns it has, each once.
      The source projects the classified frame, which always has an `amount`
      column after classification; taking the statement's header instead
      changes nothing, because every ledger row has an `amount` field. */
  function AvailableColumns(header: seq<string>): (r: seq<string>)
    ensures |r| <= |RequiredColumns|
    ensures forall c :: c in r <==> c in RequiredColumns && c in header
    ensures Distinct(r)
  {
    KeepPresent(RequiredColumns, header)
  }

  /** The kept columns keep the order of the required list. */
  lemma AvailableColumnsInOrder(header: seq<string>)
    ensures IsSubsequence(AvailableColumns(header), RequiredColumns)
  {
    KeepPresentInOrder(RequiredColumns, header);
  }

  /** One decoded statement row. A cell of a column the statement lacks is
      never read; `units` is missing on rows that move no units. */
  datatype RawRow = RawRow(
    date: string,
    amount: real,
    units: Option<real>,
    isin: string,
    scheme: string,
    kind: string,
    description: string)

  datatype Statement = Statement(columns: seq<string>, rows: seq<RawRow>)

  /** The three record lists `parse` returns. */
  datatype Parsed = Parsed(
    transactions: seq<Txn>,
    current: seq<CurrentHolding>,
    past: seq<PastHolding>)

  /** A type whose classification reads the row's amount cell. */
  predicate ReadsAmount(kind: string) {
    kind in Cashflow.PositiveTypes || kind in Cashflow.NegativeTypes
  }

  /** Whether some row has a signed type, so the classifier reads its amount. */
  predicate SomeRowReadsAmount(st: Statement) {
    exists i :: 0 <= i < |st.rows| && ReadsAmount(st.rows[i].kind)
  }

  /** Every column the pipeline reads is there: the classifier reads `type`
      on every row and `amount` on rows of a signed type; the grouping reads
      `isin`, `scheme` and `units`. */
  predicate HasKeyColumns(st: Statement) {
    && "type" in st.columns
    && ("amount" in st.columns || !SomeRowReadsAmount(st))
    && "isin" in st.columns
    && "scheme" in st.columns
    && "units" in st.columns
  }

  /** The columns the pipeline looks up, in the order it looks them up: the
      classifier reads `type` on the first row and `amount` on the first row
      of a signed type (domain/cas_parser.py:39-42); the group-by then reads
      `isin` (line 47) and the aggregation `scheme` and `units` (lines 48-52). */
  function ReadOrder(st: Statement): seq<string> {
    ["type"] + (if SomeRowReadsAmount(st) then ["amount"] else []) + ["isin", "scheme", "units"]
  }

  /** Where each column sits in the read order. */
  lemma ReadOrderShape(st: Statement)
    ensures var a := if SomeRowReadsAmount(st) then 1 else 0;
            && |ReadOrder(st)| == a + 4
            && ReadOrder(st)[0] == "type"
            && (a == 1 ==> ReadOrder(st)[1] == "amount")
            && ReadOrder(st)[a + 1] == "isin"
            && ReadOrder(st)[a + 2] == "scheme"
            && ReadOrder(st)[a + 3] == "units"
  {
  }

  /** `c` is the first column of `order` that `columns` lacks. */
  predicate FirstAbsent(order: seq<string>, columns: seq<string>, c: string) {
    exists k :: 0 <= k < |order| && order[k] == c && c !in columns
                && forall j :: 0 <= j < k ==> order[j] in columns
  }

  /** The first column whose lookup fails, in pipeline order. */
  function MissingKey(st: Statement): (r: Option<string>)
    ensures r.None? <==> HasKeyColumns(st)
    ensures r.Some? ==> r.value in ["type", "amount", "isin", "scheme", "units"]
    ensures r == Some("amount") ==> SomeRowReadsAmount(st)
    ensures r.Some? ==> FirstAbsent(ReadOrder(st), st.columns, r.value)
  {
    ReadOrderShape(st);
    if "type" !in st.columns then Some("type")
    else if "amount" !in st.columns && SomeRowReadsAmount(st) then Some("amount")
    else if "isin" !in st.columns then Some("isin")
    else if "scheme" !in st.columns then Some("scheme")
    else if "units" !in st.columns then Some("units")
    else None
  }

  /** A classified, projected ledger row. `date` and `description` survive
      only when the statement has those columns. */
  function ClassifyRow(kept: seq<string>, row: RawRow): (t: Txn)
    ensures t.isin == row.isin && t.scheme == row.scheme && t.kind == row.kind && t.units == row.units
    ensures t.amount.Some? <==> Cashflow.InVocabulary(row.kind)
    ensures ReadsAmount(row.kind) ==> Cashflow.Abs(t.amount.value) == Cashflow.Abs(row.amount)
    ensures (t.date.Some? <==> "date" in kept) && (t.description.Some? <==> "description" in kept)
  {
    Txn(
      if "date" in kept then Some(row.date) else None,
      Cashflow.SignedAmount(row.kind, row.amount),
      row.units,
      row.isin,
      row.scheme,
      row.kind,
      if "description" in kept then Some(row.description) else None)
  }

  /** Lines 82-95: classify every row and keep the available columns. */
  function Classify(st: Statement): (txns: seq<Txn>)
    ensures |txns| == |st.rows|
    ensures forall i :: 0 <= i < |st.rows| ==> txns[i].isin == st.rows[i].isin && txns[i].kind == st.rows[i].kind
  {
    var kept := AvailableColumns(st.columns);
    seq(|st.rows|, i requires 0 <= i < |st.rows| => ClassifyRow(kept, st.rows[i]))
  }

  function RawIsins(st: Statement): set<string> {
    set i | 0 <= i < |st.rows| :: st.rows[i].isin
  }

  /** `parse` after decoding. The NAV table and today's date are parameters. */
  function Parse(st: Statement, table: seq<NavRow>, today: string): (r: Result<Parsed, ParseError>)
    ensures r.Failure? && r.error.MissingColumn? ==> r.error.column !in st.columns
    ensures r.Failure? && r.error.NavNotFound? ==> r.error.isin in RawIsins(st) && LatestNav(table, r.error.isin).None?
    ensures r.Success? ==> HasKeyColumns(st) && |r.value.transactions| == |st.rows| + |r.value.current|
  {
    match MissingKey(st)
    case Some(c) => Failure(MissingColumn(c))
    case None =>
      var txns := Classify(st);
      var split := CurrentAndPastHoldings(txns, table);
      if split.Failure? then
        HoldingsFailureNamesUnpricedIsin(txns, table);
        ClassifyKeepsIsins(st);
        Failure(split.error)
      else
        Success(Parsed(MergeCurrentHoldings(txns, split.value.0, today), split.value.0, split.value.1))
  }

  /** The shape of a successful parse, for the lemmas below. */
  lemma ParseSuccessShape(st: Statement, table: seq<NavRow>, today: string)
    ensures Parse(st, table, today).Success? ==>
              && HasKeyColumns(st)
              && CurrentAndPastHoldings(Classify(st), table).Success?
              && var split := CurrentAndPastHoldings(Classify(st), table).value;
                 Parse(st, table, today).value
                   == Parsed(MergeCurrentHoldings(Classify(st), split.0, today), split.0, split.1)
  {
  }

  lemma ClassifyKeepsIsins(st: Statement)
    ensures IsinSet(Classify(st)) == RawIsins(st)
  {
    var txns := Classify(st);
    forall k | k in RawIsins(st) ensures k in IsinSet(txns) {
      var i :| 0 <= i < |st.rows| && st.rows[i].isin == k;
      assert txns[i].isin == k;
    }
  }

  /** Parsing succeeds exactly when the key columns are there and every ISIN
      whose net units reach the threshold has a NAV row. */
  lemma ParseSucceedsIff(st: Statement, table: seq<NavRow>, today: string)
    ensures Parse(st, table, today).Success? <==>
              HasKeyColumns(st) && OpenPositionsPriced(Classify(st), table)
  {
    if HasKeyColumns(st) {
      HoldingsSucceedIffPriced(Classify(st), table);
    }
  }

  /** A classified row keeps the raw row's fields, signs its amount and keeps
      `date` and `description` exactly when the statement has those columns. */
  lemma ClassifyRowFacts(st: Statement, i: int)
    requires 0 <= i < |st.rows|
    ensures var t := Classify(st)[i];
            && t.isin == st.rows[i].isin
            && t.scheme == st.rows[i].scheme
            && t.kind == st.rows[i].kind
            && t.units == st.rows[i].units
            && t.amount == Cashflow.SignedAmount(st.rows[i].kind, st.rows[i].amount)
            && t.date == (if "date" in st.columns then Some(st.rows[i].date) else None)
            && t.description == (if "description" in st.columns then Some(st.rows[i].description) else None)
  {
    var kept := AvailableColumns(st.columns);
    assert "date" in RequiredColumns && "description" in RequiredColumns;
    assert Classify(st)[i] == ClassifyRow(kept, st.rows[i]);
  }

  /** The statement rows come first in the returned ledger, one per row in
      statement order, signed by the classifier and otherwise unchanged. */
  lemma ParsedLedgerKeepsRows(st: Statement, table: seq<NavRow>, today: string)
    ensures Parse(st, table, today).Success? ==>
              var out := Parse(st, table, today).value.transactions;
              forall i :: 0 <= i < |st.rows| ==>
                && out[i].isin == st.rows[i].isin
                && out[i].scheme == st.rows[i].scheme
                && out[i].kind == st.rows[i].kind
                && out[i].units == st.rows[i].units
                && out[i].amount == Cashflow.SignedAmount(st.rows[i].kind, st.rows[i].amount)
                && out[i].date == (if "date" in st.columns then Some(st.rows[i].date) else None)
                && out[i].description == (if "description" in st.columns then Some(st.rows[i].description) else None)
  {
    ParseSuccessShape(st, table, today);
    if Parse(st, table, today).Success? {
      var txns := Classify(st);
      var out := Parse(st, table, today).value.transactions;
      assert out[..|txns|] == txns;
      forall i | 0 <= i < |st.rows|
        ensures out[i] == txns[i]
      {
        assert out[..|txns|][i] == out[i];
      }
      forall i | 0 <= i < |st.rows|
        ensures out[i].isin == st.rows[i].isin
        ensures out[i].scheme == st.rows[i].scheme
        ensures out[i].kind == st.rows[i].kind
        ensures out[i].units == st.rows[i].units
        ensures out[i].amount == Cashflow.SignedAmount(st.rows[i].kind, st.rows[i].amount)
        ensures out[i].date == (if "date" in st.columns then Some(st.rows[i].date) else None)
        ensures out[i].description == (if "description" in st.columns then Some(st.rows[i].description) else None)
      {
        ClassifyRowFacts(st, i);
      }
    }
  }

  /** In a merged result, the row `i` places past the ledger is the
      synthetic row of the `i`-th current holding. */
  lemma MergedResultRow(txns: seq<Txn>, p: Parsed, past: seq<PastHolding>, today: string, i: int)
    ensures p == Parsed(MergeCurrentHoldings(txns, p.current, today), p.current, past) && 0 <= i < |p.current| ==>
              p.transactions[|txns| + i] == HoldingsRow(p.current[i], today)
  {
    if 0 <= i < |p.current| {
      MergedRowIsHolding(txns, p.current, today, i);
    }
  }

  /** After the statement rows comes one `HOLDINGS` row per current holding,
      in holdings order: the synthetic row of that holding, dated today and
      worth its market value. */
  lemma ParsedLedgerAppendsHoldings(st: Statement, table: seq<NavRow>, today: string, i: int)
    ensures Parse(st, table, today).Success? && 0 <= i < |Parse(st, table, today).value.current| ==>
              var p := Parse(st, table, today).value;
              p.transactions[|st.rows| + i] == HoldingsRow(p.current[i], today)
  {
    ParseSuccessShape(st, table, today);
    assert |Classify(st)| == |st.rows|;
    if Parse(st, table, today).Success? {
      var p := Parse(st, table, today).value;
      MergedResultRow(Classify(st), p, p.past, today, i);
    }
  }

  /** The returned ledger's net cashflow is the statement's plus the market
      value of the open positions. */
  lemma ParsedNetCashflow(st: Statement, table: seq<NavRow>, today: string)
    ensures Parse(st, table, today).Success? ==>
              var p := Parse(st, table, today).value;
              AmountTotal(p.transactions) == AmountTotal(Classify(st)) + TotalMarketValue(p.current)
  {
    ParseSuccessShape(st, table, today);
    if Parse(st, table, today).Success? {
      var p := Parse(st, table, today).value;
      MergedLedgerTotals(Classify(st), p.current, today);
    }
  }

  /** The current and past holdings partition the statement's ISINs: one
      holding per ISIN, current ones at or above the unit threshold. */
  lemma ParsedHoldingsPartition(st: Statement, table: seq<NavRow>, today: string)
    ensures Parse(st, table, today).Success? ==>
              var p := Parse(st, table, today).value;
              && CurrentIsins(p.current) + PastIsins(p.past) == RawIsins(st)
              && CurrentIsins(p.current) !! PastIsins(p.past)
              && |p.current| + |p.past| == |RawIsins(st)|
              && forall i :: 0 <= i < |p.current| ==> p.current[i].units >= Threshold
  {
    ParseSuccessShape(st, table, today);
    if Parse(st, table, today).Success? {
      HoldingsPartition(Classify(st), table);
      ClassifyKeepsIsins(st);
    }
  }

  /** The current and past holdings come in ascending ISIN order, and so do
      the `HOLDINGS` rows appended after the statement rows. */
  lemma ParsedHoldingsInIsinOrder(st: Statement, table: seq<NavRow>, today: string)
    ensures Parse(st, table, today).Success? ==>
              var p := Parse(st, table, today).value;
              var held := p.transactions[|st.rows|..];
              && StrictlySorted(CurrentKeys(p.current))
              && StrictlySorted(PastKeys(p.past))
              && forall i, j :: 0 <= i < j < |held| ==> Less(held[i].isin, held[j].isin)
  {
    ParseSuccessShape(st, table, today);
    HoldingsInIsinOrder(Classify(st), table);
    if Parse(st, table, today).Success? {
      var p := Parse(st, table, today).value;
      MergedHoldingsInOrder(Classify(st), p.current, today);
    }
  }

  /** A parse fails on a column exactly when some column the pipeline reads
      is absent, and the column it reports is the first absent one in read
      order. */
  lemma MissingColumnIsFirstRead(st: Statement, table: seq<NavRow>, today: string)
    ensures (Parse(st, table, today).Failure? && Parse(st, table, today).error.MissingColumn?)
            <==> exists j :: 0 <= j < |ReadOrder(st)| && ReadOrder(st)[j] !in st.columns
    ensures Parse(st, table, today).Failure? && Parse(st, table, today).error.MissingColumn? ==>
              FirstAbsent(ReadOrder(st), st.columns, Parse(st, table, today).error.column)
  {
    var order := ReadOrder(st);
    var a := if SomeRowReadsAmount(st) then 1 else 0;
    assert order[0] == "type" && order[a + 1] == "isin" && order[a + 2] == "scheme" && order[a + 3] == "units";
    if a == 1 {
      assert order[1] == "amount";
    }
    if exists j :: 0 <= j < |order| && order[j] !in st.columns {
      var j :| 0 <= j < |order| && order[j] !in st.columns;
      assert !HasKeyColumns(st);
    }
  }

  /** A failed valuation names an ISIN of the statement whose net units reach
      the threshold and for which the NAV table has no row. */
  lemma ParseFailureNamesUnpricedIsin(st: Statement, table: seq<NavRow>, today: string)
    ensures Parse(st, table, today).Failure? && Parse(st, table, today).error.NavNotFound? ==>
              var k := Parse(st, table, today).error.isin;
              && k in RawIsins(st)
              && UnitsTotal(FilterByIsin(Classify(st), k)) >= Threshold
              && LatestNav(table, k).None?
  {
    if Parse(st, table, today).Failure? && Parse(st, table, today).error.NavNotFound? {
      var txns := Classify(st);
      assert MissingKey(st).None?;
      assert CurrentAndPastHoldings(txns, table).Failure?;
      HoldingsFailureNamesUnpricedIsin(txns, table);
      ClassifyKeepsIsins(st);
    }
  }

  // ---------------------------------------------------------------------
  // A worked example: two purchases of one fund, valued at a NAV of 150

  const ExampleStatement: Statement := Statement(RequiredColumns, [
    RawRow("2024-01-10", 1000.0, Some(10.0), "INF1", "Fund A", "PURCHASE", "Purchase"),
    RawRow("2024-02-10", 2000.0, Some(20.0), "INF1", "Fund A", "PURCHASE", "Purchase")])

  const ExampleTable: seq<NavRow> := [NavRow(Some("INF1"), None, 150.0)]

  const ExampleLedger: seq<Txn> := [
    Txn(Some("2024-01-10"), Some(-1000.0), Some(10.0), "INF1", "Fund A", "PURCHASE", Some("Purchase")),
    Txn(Some("2024-02-10"), Some(-2000.0), Some(20.0), "INF1", "Fund A", "PURCHASE", Some("Purchase"))]

  const ExampleHolding: CurrentHolding := CurrentHolding("INF1", "Fund A", 30.0, -3000.0, 150.0, 4500.0)

  /** Both purchases become outflows and keep their other cells. */
  lemma ExampleClassification()
    ensures Classify(ExampleStatement) == ExampleLedger
  {
    ClassifyCompleteStatement(ExampleStatement, ExampleLedger);
  }

  /** With both optional columns present, the ledger is the row-by-row
      classification of the statement. */
  lemma ClassifyCompleteStatement(st: Statement, txns: seq<Txn>)
    requires "date" in st.columns && "description" in st.columns
    requires |txns| == |st.rows|
    requires forall i :: 0 <= i < |txns| ==>
               txns[i] == Txn(Some(st.rows[i].date), Cashflow.SignedAmount(st.rows[i].kind, st.rows[i].amount),
                              st.rows[i].units, st.rows[i].isin, st.rows[i].scheme, st.rows[i].kind,
                              Some(st.rows[i].description))
    ensures Classify(st) == txns
  {
    forall i | 0 <= i < |txns|
      ensures Classify(st)[i] == txns[i]
    {
      ClassifyRowFacts(st, i);
    }
  }

  /** The example has every column. */
  lemma ExampleColumns()
    ensures MissingKey(ExampleStatement).None?
  {
    assert "type" in RequiredColumns && "isin" in RequiredColumns;
  }

  /** The two rows form one group of 30 units and net amount -3000. */
  lemma ExampleGrouping()
    ensures Aggregate(ExampleLedger) == [Group("INF1", "Fund A", 30.0, -3000.0)]
  {
    var txns := ExampleLedger;
    var t1 := txns[0];
    assert txns[..1] == [t1];
    assert [t1][..0] == [];
    assert SortedKeys([t1]) == ["INF1"];
    assert SortedKeys(txns) == ["INF1"];
    assert FilterByIsin([t1], "INF1") == [t1];
    assert FilterByIsin(txns, "INF1") == txns;
    assert UnitsTotal([t1]) == 10.0;
    assert UnitsTotal(txns) == 30.0;
    assert AmountTotal([t1]) == -1000.0;
    assert AmountTotal(txns) == -3000.0;
    assert GroupOf(txns, "INF1") == Group("INF1", "Fund A", 30.0, -3000.0);
  }

  /** The group is current and is valued at 30 * 150 = 4500. */
  lemma ExampleValuation()
    ensures CurrentAndPastHoldings(ExampleLedger, ExampleTable) == Success(([ExampleHolding], []))
  {
    var g := Group("INF1", "Fund A", 30.0, -3000.0);
    ExampleGrouping();
    assert [g][1..] == [];
    assert CurrentGroups([g]) == [g];
    assert PastHoldings([g]) == [];
    assert FirstMatchFrom(ExampleTable, "INF1", 0) == Some(0);
    assert LatestNav(ExampleTable, "INF1") == Some(150.0);
    assert MarketValue(30.0, 150.0) == 4500.0;
    assert PriceHoldings([g][1..], ExampleTable) == Success([]);
    assert PriceHoldings([g], ExampleTable)
        == Success([CurrentHolding(g.isin, g.scheme, g.units, g.amount, 150.0, MarketValue(g.units, 150.0))] + []);
    assert [ExampleHolding] + [] == [ExampleHolding];
  }

  /** Parsing the example yields the two signed purchases followed by one
      `HOLDINGS` row worth 4500, one current holding of 30 units with net
      amount -3000 and market value 4500, and no past holdings. */
  lemma TwoPurchasesExample()
    ensures Parse(ExampleStatement, ExampleTable, "2024-03-01") == Success(Parsed(
              ExampleLedger
                + [Txn(Some("2024-03-01"), Some(4500.0), None, "INF1", "Fund A", HoldingsKind, Some(HoldingsDescription))],
              [ExampleHolding],
              []))
  {
    ExampleColumns();
    ExampleClassification();
    ExampleValuation();
    assert HoldingsRows([ExampleHolding], "2024-03-01") == [HoldingsRow(ExampleHolding, "2024-03-01")];
  }
}
