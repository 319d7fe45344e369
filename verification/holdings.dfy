/** `_get_current_and_past_holdings`: groups the classified ledger by ISIN and
    splits the groups into open positions, valued at the latest NAV, and
    closed ones. */
module Holdings {
  import opened Wrappers
  import opened Ledger
  import opened StringOrder
  import opened IsinFilter
  import opened NavLookup

  /** One row of `groupby("isin").agg(...)`. */
  datatype Group = Group(isin: string, scheme: string, units: real, amount: real)

  /** An open position with its valuation. */
  datatype CurrentHolding = CurrentHolding(
    isin: string,
    scheme: string,
    units: real,
    amount: real,
    latestNav: real,
    marketValue: real)

  /** A closed position: only the ISIN and the scheme name survive. */
  datatype PastHolding = PastHolding(isin: string, scheme: string)

  /** `market_value = units * latest_nav`. */
  function MarketValue(units: real, nav: real): (v: real)
    ensures units >= 0.0 && nav >= 0.0 ==> v >= 0.0
    ensures units == 0.0 || nav == 0.0 ==> v == 0.0
    ensures nav > 0.0 ==> (v > 0.0 <==> units > 0.0)
  {
    units * nav
  }

  /** Net units at or above which a position counts as still held. */
  const Threshold: real := 0.001

  predicate IsCurrent(g: Group) {
    g.units >= Threshold
  }

  /** `scheme` is the scheme name of the first ledger row with ISIN `k`. */
  predicate FirstSeenScheme(txns: seq<Txn>, k: string, scheme: string) {
    exists p :: 0 <= p < |txns| && txns[p].isin == k && txns[p].scheme == scheme
                && forall q :: 0 <= q < p ==> txns[q].isin != k
  }

  // ---------------------------------------------------------------------
  // Grouping

  /** The group keys in the order pandas' `groupby` yields them: sorted. */
  function SortedKeys(txns: seq<Txn>): (keys: seq<string>)
    ensures StrictlySorted(keys)
    ensures forall k :: k in keys <==> k in IsinSet(txns)
    decreases |txns|
  {
    if |txns| == 0 then []
    else
      var init := txns[..|txns| - 1];
      var last := txns[|txns| - 1];
      assert txns == init + [last];
      IsinSetAppend(init, last);
      InsertSorted(SortedKeys(init), last.isin)
  }

  /** The aggregate of the rows with ISIN `k`: the first scheme name and the
      sums of units and amount, each sum skipping missing cells. */
  function GroupOf(txns: seq<Txn>, k: string): (g: Group)
    requires k in IsinSet(txns)
    ensures g.isin == k
    ensures FirstSeenScheme(txns, k, g.scheme)
  {
    FirstRowIsFirstSeen(txns, k);
    var rows := FilterByIsin(txns, k);
    Group(k, rows[0].scheme, UnitsTotal(rows), AmountTotal(rows))
  }

  /** The ISINs of a group list, in list order. */
  function GroupKeys(gs: seq<Group>): seq<string> {
    seq(|gs|, i requires 0 <= i < |gs| => gs[i].isin)
  }

  /** `txns.groupby("isin", as_index=False).agg(first scheme, sum units,
      sum amount)`. */
  function Aggregate(txns: seq<Txn>): (groups: seq<Group>)
    ensures GroupKeys(groups) == SortedKeys(txns)
  {
    var keys := SortedKeys(txns);
    seq(|keys|, i requires 0 <= i < |keys| => GroupOf(txns, keys[i]))
  }

  /** The set of ISINs of a group list. */
  function GroupIsins(gs: seq<Group>): set<string> {
    set i | 0 <= i < |gs| :: gs[i].isin
  }

  /** Aggregation yields exactly one group per distinct ISIN of the ledger, in
      increasing ISIN order. */
  lemma AggregateKeys(txns: seq<Txn>)
    ensures var gs := Aggregate(txns);
            && (forall i, j :: 0 <= i < j < |gs| ==> Less(gs[i].isin, gs[j].isin))
            && GroupIsins(gs) == IsinSet(txns)
            && |gs| == |IsinSet(txns)|
  {
    var gs := Aggregate(txns);
    var keys := SortedKeys(txns);
    assert forall i :: 0 <= i < |gs| ==> gs[i].isin == keys[i];
    SortedDistinctCardinality(keys);
    assert GroupIsins(gs) == (set i | 0 <= i < |keys| :: keys[i]);
    assert (set i | 0 <= i < |keys| :: keys[i]) == IsinSet(txns) by {
      forall k | k in IsinSet(txns)
        ensures k in (set i | 0 <= i < |keys| :: keys[i])
      {
        var i :| 0 <= i < |keys| && keys[i] == k;
      }
    }
  }

  /** A group's units and amount are the sums over the ledger rows with its
      ISIN, and its scheme is the scheme of the first such row. */
  lemma AggregateContents(txns: seq<Txn>)
    ensures var gs := Aggregate(txns);
            forall i :: 0 <= i < |gs| ==>
              && gs[i].isin in IsinSet(txns)
              && gs[i].units == UnitsTotal(FilterByIsin(txns, gs[i].isin))
              && gs[i].amount == AmountTotal(FilterByIsin(txns, gs[i].isin))
              && FirstSeenScheme(txns, gs[i].isin, gs[i].scheme)
  {
    var gs := Aggregate(txns);
    var keys := SortedKeys(txns);
    forall i | 0 <= i < |gs|
      ensures gs[i].isin in IsinSet(txns)
      ensures gs[i].units == UnitsTotal(FilterByIsin(txns, gs[i].isin))
      ensures gs[i].amount == AmountTotal(FilterByIsin(txns, gs[i].isin))
      ensures FirstSeenScheme(txns, gs[i].isin, gs[i].scheme)
    {
      assert gs[i] == GroupOf(txns, keys[i]);
      GroupOfRows(txns, keys[i], FilterByIsin(txns, keys[i]));
      FirstRowIsFirstSeen(txns, keys[i]);
    }
  }

  /** Reading one more row extends the ISIN set and the sorted keys. */
  lemma KeysStep(p: seq<Txn>, t: Txn)
    ensures IsinSet(p + [t]) == IsinSet(p) + {t.isin}
    ensures SortedKeys(p + [t]) == InsertSorted(SortedKeys(p), t.isin)
  {
    assert (p + [t])[..|p|] == p;
    IsinSetAppend(p, t);
  }

  /** Reading one more row leaves the rows of every other ISIN unchanged and
      appends the row to its own ISIN's rows. */
  lemma FilterStep(p: seq<Txn>, t: Txn, k: string)
    ensures FilterByIsin(p + [t], k) == FilterByIsin(p, k) + (if t.isin == k then [t] else [])
  {
    assert (p + [t])[..|p|] == p;
  }

  /** A single row sums to its own cells. */
  lemma TotalsSingleton(t: Txn)
    ensures UnitsTotal([t]) == OrZero(t.units)
    ensures AmountTotal([t]) == OrZero(t.amount)
  {
    assert [t][..0] == [];
  }

  /** A group built from its rows: the first row's scheme and the sums. */
  lemma GroupOfRows(txns: seq<Txn>, k: string, rows: seq<Txn>)
    requires k in IsinSet(txns)
    requires rows == FilterByIsin(txns, k)
    ensures |rows| > 0
    ensures GroupOf(txns, k) == Group(k, rows[0].scheme, UnitsTotal(rows), AmountTotal(rows))
  {
    FilterEmptyIff(txns, k);
  }

  /** Reading another row of a known ISIN adds its cells to the sums. */
  lemma GroupStepKnown(p: seq<Txn>, t: Txn)
    requires t.isin in IsinSet(p)
    ensures t.isin in IsinSet(p + [t])
    ensures var g := GroupOf(p, t.isin);
            GroupOf(p + [t], t.isin)
              == g.(units := g.units + OrZero(t.units), amount := g.amount + OrZero(t.amount))
  {
    KeysStep(p, t);
    FilterStep(p, t, t.isin);
    var f := FilterByIsin(p, t.isin);
    GroupOfRows(p + [t], t.isin, f + [t]);
    GroupOfRows(p, t.isin, f);
    TotalsAppend(f, [t]);
    TotalsSingleton(t);
  }

  /** The first row of a new ISIN starts its group. */
  lemma GroupStepNew(p: seq<Txn>, t: Txn)
    requires t.isin !in IsinSet(p)
    ensures t.isin in IsinSet(p + [t])
    ensures GroupOf(p + [t], t.isin) == Group(t.isin, t.scheme, OrZero(t.units), OrZero(t.amount))
  {
    KeysStep(p, t);
    FilterStep(p, t, t.isin);
    FilterEmptyIff(p, t.isin);
    GroupOfRows(p + [t], t.isin, [t]);
    TotalsSingleton(t);
  }

  /** Folds one ledger row into a map from ISIN to running group. */
  function Accumulate(acc: map<string, Group>, t: Txn): map<string, Group> {
    if t.isin in acc then
      var g := acc[t.isin];
      acc[t.isin := g.(units := g.units + OrZero(t.units), amount := g.amount + OrZero(t.amount))]
    else
      acc[t.isin := Group(t.isin, t.scheme, OrZero(t.units), OrZero(t.amount))]
  }

  /** The running map holds the aggregate of the rows read so far. */
  predicate Accumulates(acc: map<string, Group>, txns: seq<Txn>) {
    && acc.Keys == IsinSet(txns)
    && forall k :: k in acc ==> acc[k] == GroupOf(txns, k)
  }

  /** Folding a row in keeps the groups of the other ISINs right. */
  lemma AccumulateOthers(p: seq<Txn>, t: Txn, acc: map<string, Group>)
    requires Accumulates(acc, p)
    ensures Accumulate(acc, t).Keys == IsinSet(p + [t])
    ensures forall k :: k in acc && k != t.isin ==> Accumulate(acc, t)[k] == GroupOf(p + [t], k)
  {
    KeysStep(p, t);
    forall k | k in acc && k != t.isin
      ensures Accumulate(acc, t)[k] == GroupOf(p + [t], k)
    {
      FilterStep(p, t, k);
      var f := FilterByIsin(p, k);
      GroupOfRows(p, k, f);
      GroupOfRows(p + [t], k, f);
    }
  }

  /** Folding a row in brings the group of its own ISIN up to date. */
  lemma AccumulateOwn(p: seq<Txn>, t: Txn, acc: map<string, Group>)
    requires Accumulates(acc, p)
    ensures t.isin in IsinSet(p + [t])
    ensures Accumulate(acc, t)[t.isin] == GroupOf(p + [t], t.isin)
  {
    if t.isin in acc {
      GroupStepKnown(p, t);
    } else {
      GroupStepNew(p, t);
    }
  }

  lemma AccumulateStep(p: seq<Txn>, t: Txn, acc: map<string, Group>)
    requires Accumulates(acc, p)
    ensures Accumulates(Accumulate(acc, t), p + [t])
  {
    AccumulateOthers(p, t, acc);
    AccumulateOwn(p, t, acc);
  }

  /** The accumulation pass of the group-by: one hash-map update per row. */
  method AccumulateRows(txns: seq<Txn>) returns (acc: map<string, Group>, keys: seq<string>)
    ensures Accumulates(acc, txns)
    ensures keys == SortedKeys(txns)
  {
    acc := map[];
    keys := [];
    var i := 0;
    while i < |txns|
      invariant 0 <= i <= |txns|
      invariant keys == SortedKeys(txns[..i])
      invariant Accumulates(acc, txns[..i])
    {
      assert txns[..i + 1] == txns[..i] + [txns[i]];
      KeysStep(txns[..i], txns[i]);
      AccumulateStep(txns[..i], txns[i], acc);
      acc := Accumulate(acc, txns[i]);
      keys := InsertSorted(keys, txns[i].isin);
      i := i + 1;
    }
    assert txns[..i] == txns;
  }

  /** An alternative formulation of the group-by: one pass over the rows into a
      map of running groups, then a walk over the sorted keys. pandas instead
      factorises the keys and aggregates column arrays; both give the groups
      of `Aggregate`. */
  method GroupByIsin(txns: seq<Txn>) returns (groups: seq<Group>)
    ensures groups == Aggregate(txns)
  {
    var acc, keys := AccumulateRows(txns);
    assert forall n :: 0 <= n < |keys| ==> keys[n] in acc;
    groups := seq(|keys|, n requires 0 <= n < |keys| => acc[keys[n]]);
  }

  // ---------------------------------------------------------------------
  // Splitting and valuation

  /** The ISINs of a list of past holdings, in list order. */
  function PastKeys(past: seq<PastHolding>): seq<string> {
    seq(|past|, i requires 0 <= i < |past| => past[i].isin)
  }

  /** In a list with ascending ISINs, the rest of the list is ascending and
      every later group's ISIN is above the first one's. */
  lemma AscendingTail(gs: seq<Group>)
    requires |gs| > 0 && StrictlySorted(GroupKeys(gs))
    ensures StrictlySorted(GroupKeys(gs[1..]))
    ensures forall g :: g in gs[1..] ==> Less(gs[0].isin, g.isin)
  {
    var tail := gs[1..];
    forall i, j | 0 <= i < j < |tail|
      ensures Less(GroupKeys(tail)[i], GroupKeys(tail)[j])
    {
      assert GroupKeys(gs)[i + 1] == tail[i].isin;
      assert GroupKeys(gs)[j + 1] == tail[j].isin;
    }
    forall g | g in tail
      ensures Less(gs[0].isin, g.isin)
    {
      var k :| 0 <= k < |tail| && tail[k] == g;
      assert GroupKeys(gs)[0] == gs[0].isin && GroupKeys(gs)[k + 1] == g.isin;
      assert Less(GroupKeys(gs)[0], GroupKeys(gs)[k + 1]);
    }
  }

  /** A key below every key of an ascending list can be put in front of it. */
  lemma AscendingCons(x: string, ks: seq<string>)
    requires StrictlySorted(ks)
    requires forall j :: 0 <= j < |ks| ==> Less(x, ks[j])
    ensures StrictlySorted([x] + ks)
  {
    var r := [x] + ks;
    forall i, j | 0 <= i < j < |r|
      ensures Less(r[i], r[j])
    {
      assert r[j] == ks[j - 1];
      if i > 0 {
        assert r[i] == ks[i - 1];
      }
    }
  }

  /** `grouped[grouped["units"] >= 0.001]`. */
  function CurrentGroups(groups: seq<Group>): (r: seq<Group>)
    ensures |r| <= |groups|
    ensures forall g :: g in r <==> g in groups && IsCurrent(g)
    decreases |groups|
  {
    if |groups| == 0 then []
    else (if IsCurrent(groups[0]) then [groups[0]] else []) + CurrentGroups(groups[1..])
  }

  /** `grouped[grouped["units"] < 0.001]` with the units and amount columns
      dropped. */
  function PastHoldings(groups: seq<Group>): (r: seq<PastHolding>)
    ensures |CurrentGroups(groups)| + |r| == |groups|
    ensures forall p :: p in r <==> exists g :: g in groups && !IsCurrent(g) && p == PastHolding(g.isin, g.scheme)
    decreases |groups|
  {
    if |groups| == 0 then []
    else
      var rest := PastHoldings(groups[1..]);
      assert forall g :: g in groups <==> g == groups[0] || g in groups[1..];
      (if IsCurrent(groups[0]) then [] else [PastHolding(groups[0].isin, groups[0].scheme)]) + rest
  }

  /** In an ascending group list, every current group among the later groups
      has an ISIN above the first group's. */
  lemma CurrentGroupsAboveHead(groups: seq<Group>)
    requires |groups| > 0 && StrictlySorted(GroupKeys(groups))
    ensures forall j :: 0 <= j < |CurrentGroups(groups[1..])| ==>
              Less(groups[0].isin, GroupKeys(CurrentGroups(groups[1..]))[j])
  {
    AscendingTail(groups);
    var rest := CurrentGroups(groups[1..]);
    forall j | 0 <= j < |rest|
      ensures Less(groups[0].isin, GroupKeys(rest)[j])
    {
      assert rest[j] in rest;
    }
  }

  /** The boolean mask keeps the groups it selects in their order, so
      ascending ISINs stay ascending. */
  lemma {:induction false} CurrentGroupsInOrder(groups: seq<Group>)
    ensures StrictlySorted(GroupKeys(groups)) ==> StrictlySorted(GroupKeys(CurrentGroups(groups)))
    decreases |groups|
  {
    if |groups| > 0 && StrictlySorted(GroupKeys(groups)) {
      AscendingTail(groups);
      CurrentGroupsInOrder(groups[1..]);
      var rest := CurrentGroups(groups[1..]);
      if IsCurrent(groups[0]) {
        CurrentGroupsAboveHead(groups);
        AscendingCons(groups[0].isin, GroupKeys(rest));
        assert GroupKeys(CurrentGroups(groups)) == [groups[0].isin] + GroupKeys(rest);
      } else {
        assert CurrentGroups(groups) == rest;
      }
    }
  }

  /** In an ascending group list, every past holding of the later groups has
      an ISIN above the first group's. */
  lemma PastHoldingsAboveHead(groups: seq<Group>)
    requires |groups| > 0 && StrictlySorted(GroupKeys(groups))
    ensures forall j :: 0 <= j < |PastHoldings(groups[1..])| ==>
              Less(groups[0].isin, PastKeys(PastHoldings(groups[1..]))[j])
  {
    AscendingTail(groups);
    var rest := PastHoldings(groups[1..]);
    forall j | 0 <= j < |rest|
      ensures Less(groups[0].isin, PastKeys(rest)[j])
    {
      assert rest[j] in rest;
      var g :| g in groups[1..] && !IsCurrent(g) && rest[j] == PastHolding(g.isin, g.scheme);
    }
  }

  lemma PastKeysCons(h: PastHolding, rest: seq<PastHolding>)
    ensures PastKeys([h] + rest) == [h.isin] + PastKeys(rest)
  {
    assert forall j :: 1 <= j < |rest| + 1 ==> PastKeys([h] + rest)[j] == PastKeys(rest)[j - 1];
  }

  /** The past holdings, too, keep the groups' ascending ISIN order. */
  lemma {:induction false} PastHoldingsInOrder(groups: seq<Group>)
    ensures StrictlySorted(GroupKeys(groups)) ==> StrictlySorted(PastKeys(PastHoldings(groups)))
    decreases |groups|
  {
    if |groups| > 0 && StrictlySorted(GroupKeys(groups)) {
      AscendingTail(groups);
      PastHoldingsInOrder(groups[1..]);
      var rest := PastHoldings(groups[1..]);
      if IsCurrent(groups[0]) {
        assert PastHoldings(groups) == rest;
      } else {
        PastHoldingsAboveHead(groups);
        AscendingCons(groups[0].isin, PastKeys(rest));
        PastKeysCons(PastHolding(groups[0].isin, groups[0].scheme), rest);
      }
    }
  }

  /** Every group's ISIN has a row in the NAV table. */
  predicate AllPriced(groups: seq<Group>, table: seq<NavRow>) {
    forall i :: 0 <= i < |groups| ==> LatestNav(table, groups[i].isin).Some?
  }

  /** `curr_holdings["isin"].map(get_latest_nav)` followed by
      `market_value = units * latest_nav`. The lookups run in order, and the
      first ISIN without a NAV row stops the whole computation. */
  function PriceHoldings(groups: seq<Group>, table: seq<NavRow>): (r: Result<seq<CurrentHolding>, ParseError>)
    ensures r.Success? <==> AllPriced(groups, table)
    ensures r.Success? ==>
              && |r.value| == |groups|
              && forall i :: 0 <= i < |groups| ==>
                   var h := r.value[i];
                   && h.isin == groups[i].isin && h.scheme == groups[i].scheme
                   && h.units == groups[i].units && h.amount == groups[i].amount
                   && LatestNav(table, h.isin) == Some(h.latestNav)
                   && h.marketValue == MarketValue(h.units, h.latestNav)
    ensures r.Failure? ==> r.error.NavNotFound? && LatestNav(table, r.error.isin).None?
    decreases |groups|
  {
    if |groups| == 0 then Success([])
    else
      var g := groups[0];
      match LatestNav(table, g.isin)
      case None => Failure(NavNotFound(g.isin))
      case Some(nav) =>
        match PriceHoldings(groups[1..], table)
        case Failure(e) => Failure(e)
        case Success(rest) =>
          Success([CurrentHolding(g.isin, g.scheme, g.units, g.amount, nav, MarketValue(g.units, nav))] + rest)
  }

  /** A failed valuation names the first group, in order, whose ISIN has no
      NAV row. */
  lemma {:induction false} PriceHoldingsReportsFirstUnpriced(groups: seq<Group>, table: seq<NavRow>)
    requires PriceHoldings(groups, table).Failure?
    ensures exists i :: 0 <= i < |groups|
                        && PriceHoldings(groups, table).error == NavNotFound(groups[i].isin)
                        && LatestNav(table, groups[i].isin).None?
                        && AllPriced(groups[..i], table)
    decreases |groups|
  {
    var e := PriceHoldings(groups, table).error;
    if LatestNav(table, groups[0].isin).None? {
      assert e == NavNotFound(groups[0].isin) && AllPriced(groups[..0], table);
    } else {
      var tail := groups[1..];
      PriceHoldingsReportsFirstUnpriced(tail, table);
      var i :| 0 <= i < |tail| && PriceHoldings(tail, table).error == NavNotFound(tail[i].isin)
               && LatestNav(table, tail[i].isin).None? && AllPriced(tail[..i], table);
      assert groups[..i + 1] == [groups[0]] + tail[..i];
      assert AllPriced(groups[..i + 1], table);
      assert e == NavNotFound(groups[i + 1].isin);
    }
  }

  /** The ISINs of a list of current holdings, in list order. */
  function CurrentKeys(cur: seq<CurrentHolding>): seq<string> {
    seq(|cur|, i requires 0 <= i < |cur| => cur[i].isin)
  }

  /** The current and past holdings of a group list: valuation succeeds
      exactly when every current group is priced, every group lands in one
      of the two lists, and both lists keep the groups' ISIN order. */
  function Split(groups: seq<Group>, table: seq<NavRow>): (r: Result<(seq<CurrentHolding>, seq<PastHolding>), ParseError>)
    ensures r.Success? <==> AllPriced(CurrentGroups(groups), table)
    ensures r.Failure? ==> r.error.NavNotFound? && LatestNav(table, r.error.isin).None?
    ensures r.Success? ==> |r.value.0| + |r.value.1| == |groups|
  {
    match PriceHoldings(CurrentGroups(groups), table)
    case Failure(e) => Failure(e)
    case Success(current) => Success((current, PastHoldings(groups)))
  }

  /** `_get_current_and_past_holdings`, with the NAV table as a parameter. */
  function CurrentAndPastHoldings(txns: seq<Txn>, table: seq<NavRow>): (r: Result<(seq<CurrentHolding>, seq<PastHolding>), ParseError>)
    ensures r.Failure? ==> r.error.NavNotFound? && LatestNav(table, r.error.isin).None?
  {
    Split(Aggregate(txns), table)
  }

  /** Both returned lists come in ascending ISIN order: the groups are sorted
      by `groupby`, and the two masks keep that order. */
  lemma HoldingsInIsinOrder(txns: seq<Txn>, table: seq<NavRow>)
    ensures var r := CurrentAndPastHoldings(txns, table);
            r.Success? ==> StrictlySorted(CurrentKeys(r.value.0)) && StrictlySorted(PastKeys(r.value.1))
  {
    var gs := Aggregate(txns);
    assert GroupKeys(gs) == SortedKeys(txns);
    CurrentGroupsInOrder(gs);
    PastHoldingsInOrder(gs);
    var r := CurrentAndPastHoldings(txns, table);
    if r.Success? {
      assert CurrentKeys(r.value.0) == GroupKeys(CurrentGroups(gs));
    }
  }

  // ---------------------------------------------------------------------
  // Properties of the split

  function CurrentIsins(cur: seq<CurrentHolding>): set<string> {
    set i | 0 <= i < |cur| :: cur[i].isin
  }

  function PastIsins(past: seq<PastHolding>): set<string> {
    set i | 0 <= i < |past| :: past[i].isin
  }

  /** Every ISIN whose net units reach the threshold has a NAV row. */
  predicate OpenPositionsPriced(txns: seq<Txn>, table: seq<NavRow>) {
    forall k :: k in IsinSet(txns) && UnitsTotal(FilterByIsin(txns, k)) >= Threshold ==>
      LatestNav(table, k).Some?
  }

  /** The per-group facts of `AggregateContents`, by membership. */
  lemma GroupFacts(txns: seq<Txn>, g: Group)
    requires g in Aggregate(txns)
    ensures g.isin in IsinSet(txns)
    ensures g.units == UnitsTotal(FilterByIsin(txns, g.isin))
    ensures g.amount == AmountTotal(FilterByIsin(txns, g.isin))
    ensures FirstSeenScheme(txns, g.isin, g.scheme)
  {
    AggregateContents(txns);
  }

  /** The valuation of the current groups succeeds exactly when every ISIN
      whose net units reach the threshold has a NAV row. */
  lemma HoldingsSucceedIffPriced(txns: seq<Txn>, table: seq<NavRow>)
    ensures CurrentAndPastHoldings(txns, table).Success? <==> OpenPositionsPriced(txns, table)
  {
    var gs := Aggregate(txns);
    var cg := CurrentGroups(gs);
    if AllPriced(cg, table) {
      AggregateKeys(txns);
      forall k | k in IsinSet(txns) && UnitsTotal(FilterByIsin(txns, k)) >= Threshold
        ensures LatestNav(table, k).Some?
      {
        assert k in GroupIsins(gs);
        var i :| 0 <= i < |gs| && gs[i].isin == k;
        GroupFacts(txns, gs[i]);
        assert gs[i] in cg;
        var j :| 0 <= j < |cg| && cg[j] == gs[i];
      }
    } else {
      var j :| 0 <= j < |cg| && LatestNav(table, cg[j].isin).None?;
      GroupFacts(txns, cg[j]);
    }
  }

  /** A failed derivation names an ISIN whose net units reach the threshold
      and which has no NAV row. */
  lemma HoldingsFailureNamesUnpricedIsin(txns: seq<Txn>, table: seq<NavRow>)
    requires CurrentAndPastHoldings(txns, table).Failure?
    ensures var e := CurrentAndPastHoldings(txns, table).error;
            && e.NavNotFound?
            && e.isin in IsinSet(txns)
            && UnitsTotal(FilterByIsin(txns, e.isin)) >= Threshold
            && LatestNav(table, e.isin).None?
  {
    var cg := CurrentGroups(Aggregate(txns));
    PriceHoldingsReportsFirstUnpriced(cg, table);
    var i :| 0 <= i < |cg| && PriceHoldings(cg, table).error == NavNotFound(cg[i].isin)
             && LatestNav(table, cg[i].isin).None?;
    GroupFacts(txns, cg[i]);
  }

  /** ISINs of the groups at or above the threshold. */
  function OpenGroupIsins(gs: seq<Group>): set<string> {
    set i | 0 <= i < |gs| && IsCurrent(gs[i]) :: gs[i].isin
  }

  /** ISINs of the groups below the threshold. */
  function ClosedGroupIsins(gs: seq<Group>): set<string> {
    set i | 0 <= i < |gs| && !IsCurrent(gs[i]) :: gs[i].isin
  }

  /** ISINs of the ledger whose net units reach the threshold. */
  function OpenIsins(txns: seq<Txn>): set<string> {
    set k | k in IsinSet(txns) && UnitsTotal(FilterByIsin(txns, k)) >= Threshold
  }

  /** ISINs of the ledger whose net units fall below the threshold. */
  function ClosedIsins(txns: seq<Txn>): set<string> {
    set k | k in IsinSet(txns) && UnitsTotal(FilterByIsin(txns, k)) < Threshold
  }

  /** On any group list the split puts the groups at or above the threshold
      into the current holdings and the rest into the past holdings, one
      holding per group. */
  lemma SplitByThreshold(gs: seq<Group>, table: seq<NavRow>)
    requires Split(gs, table).Success?
    ensures var cur := Split(gs, table).value.0;
            var past := Split(gs, table).value.1;
            && CurrentIsins(cur) == OpenGroupIsins(gs)
            && PastIsins(past) == ClosedGroupIsins(gs)
            && |cur| + |past| == |gs|
            && forall i :: 0 <= i < |cur| ==> cur[i].units >= Threshold
  {
    SplitCurrentByThreshold(gs, table);
    PastHoldingsAreClosed(gs);
  }

  /** The current half of SplitByThreshold. */
  lemma SplitCurrentByThreshold(gs: seq<Group>, table: seq<NavRow>)
    requires Split(gs, table).Success?
    ensures var cur := Split(gs, table).value.0;
            && CurrentIsins(cur) == OpenGroupIsins(gs)
            && forall i :: 0 <= i < |cur| ==> cur[i].units >= Threshold
  {
    var cg := CurrentGroups(gs);
    var cur := Split(gs, table).value.0;
    assert cur == PriceHoldings(cg, table).value;
    assert forall i :: 0 <= i < |cur| ==> cur[i].isin == cg[i].isin && cur[i].units == cg[i].units;
    PricedGroupsAreOpen(gs, cur);
  }

  /** Holdings that copy the current groups one for one name exactly the
      groups at or above the threshold. */
  lemma PricedGroupsAreOpen(gs: seq<Group>, cur: seq<CurrentHolding>)
    requires |cur| == |CurrentGroups(gs)|
    requires forall i :: 0 <= i < |cur| ==>
               cur[i].isin == CurrentGroups(gs)[i].isin && cur[i].units == CurrentGroups(gs)[i].units
    ensures CurrentIsins(cur) == OpenGroupIsins(gs)
    ensures forall i :: 0 <= i < |cur| ==> cur[i].units >= Threshold
  {
    var cg := CurrentGroups(gs);
    forall k | k in CurrentIsins(cur)
      ensures k in OpenGroupIsins(gs)
    {
      var i :| 0 <= i < |cur| && cur[i].isin == k;
      assert cg[i] in cg;
      var j :| 0 <= j < |gs| && gs[j] == cg[i];
    }
    forall k | k in OpenGroupIsins(gs)
      ensures k in CurrentIsins(cur)
    {
      var i :| 0 <= i < |gs| && IsCurrent(gs[i]) && gs[i].isin == k;
      assert gs[i] in cg;
      var j :| 0 <= j < |cg| && cg[j] == gs[i];
      assert cur[j].isin == k;
    }
    forall i | 0 <= i < |cur|
      ensures cur[i].units >= Threshold
    {
      assert cg[i] in cg;
    }
  }

  /** The past holdings name exactly the groups below the threshold. */
  lemma PastHoldingsAreClosed(gs: seq<Group>)
    ensures PastIsins(PastHoldings(gs)) == ClosedGroupIsins(gs)
  {
    var past := PastHoldings(gs);
    forall k | k in PastIsins(past)
      ensures k in ClosedGroupIsins(gs)
    {
      var i :| 0 <= i < |past| && past[i].isin == k;
      assert past[i] in past;
      var g :| g in gs && !IsCurrent(g) && past[i] == PastHolding(g.isin, g.scheme);
      var j :| 0 <= j < |gs| && gs[j] == g;
    }
    forall k | k in ClosedGroupIsins(gs)
      ensures k in PastIsins(past)
    {
      var i :| 0 <= i < |gs| && !IsCurrent(gs[i]) && gs[i].isin == k;
      var p := PastHolding(k, gs[i].scheme);
      assert gs[i] in gs;
      assert p in past;
      var j :| 0 <= j < |past| && past[j] == p;
      assert past[j].isin == k;
    }
  }

  /** On the aggregate of a ledger the open and closed group ISINs are the
      ledger's ISINs at or above and below the threshold. */
  lemma AggregateOpenClosed(txns: seq<Txn>)
    ensures OpenGroupIsins(Aggregate(txns)) == OpenIsins(txns)
    ensures ClosedGroupIsins(Aggregate(txns)) == ClosedIsins(txns)
    ensures |Aggregate(txns)| == |IsinSet(txns)|
  {
    var gs := Aggregate(txns);
    AggregateKeys(txns);
    AggregateContents(txns);
    forall k | k in OpenIsins(txns)
      ensures k in OpenGroupIsins(gs)
    {
      assert k in GroupIsins(gs);
      var i :| 0 <= i < |gs| && gs[i].isin == k;
    }
    forall k | k in ClosedIsins(txns)
      ensures k in ClosedGroupIsins(gs)
    {
      assert k in GroupIsins(gs);
      var i :| 0 <= i < |gs| && gs[i].isin == k;
    }
  }

  /** Current and past holdings partition the ledger's ISINs: one holding per
      ISIN, current ones at or above the threshold, past ones below it. */
  lemma HoldingsPartition(txns: seq<Txn>, table: seq<NavRow>)
    requires CurrentAndPastHoldings(txns, table).Success?
    ensures var cur := CurrentAndPastHoldings(txns, table).value.0;
            var past := CurrentAndPastHoldings(txns, table).value.1;
            && CurrentIsins(cur) == OpenIsins(txns)
            && PastIsins(past) == ClosedIsins(txns)
            && CurrentIsins(cur) + PastIsins(past) == IsinSet(txns)
            && CurrentIsins(cur) !! PastIsins(past)
            && |cur| + |past| == |IsinSet(txns)|
            && forall i :: 0 <= i < |cur| ==> cur[i].units >= Threshold
  {
    SplitByThreshold(Aggregate(txns), table);
    AggregateOpenClosed(txns);
  }

  /** The group a current holding was valued from. */
  function HoldingGroup(h: CurrentHolding): Group {
    Group(h.isin, h.scheme, h.units, h.amount)
  }

  /** Each current holding is a group of the list, valued at its NAV. */
  lemma SplitValuesGroups(gs: seq<Group>, table: seq<NavRow>)
    requires Split(gs, table).Success?
    ensures var cur := Split(gs, table).value.0;
            forall i :: 0 <= i < |cur| ==>
              && HoldingGroup(cur[i]) in gs
              && LatestNav(table, cur[i].isin) == Some(cur[i].latestNav)
              && cur[i].marketValue == MarketValue(cur[i].units, cur[i].latestNav)
  {
    var cg := CurrentGroups(gs);
    var cur := Split(gs, table).value.0;
    assert cur == PriceHoldings(cg, table).value;
    forall i | 0 <= i < |cur|
      ensures HoldingGroup(cur[i]) in gs
      ensures LatestNav(table, cur[i].isin) == Some(cur[i].latestNav)
      ensures cur[i].marketValue == MarketValue(cur[i].units, cur[i].latestNav)
    {
      assert HoldingGroup(cur[i]) == cg[i];
      assert cg[i] in cg;
    }
  }

  /** With positive NAVs every current holding is worth a positive amount: its
      units reach the threshold and its NAV is one of the table's. */
  lemma CurrentHoldingsArePositive(txns: seq<Txn>, table: seq<NavRow>)
    ensures PositiveNavs(table) && CurrentAndPastHoldings(txns, table).Success? ==>
              var cur := CurrentAndPastHoldings(txns, table).value.0;
              forall i :: 0 <= i < |cur| ==> cur[i].latestNav > 0.0 && cur[i].marketValue > 0.0
  {
    if PositiveNavs(table) && CurrentAndPastHoldings(txns, table).Success? {
      var cur := CurrentAndPastHoldings(txns, table).value.0;
      CurrentHoldingsContents(txns, table);
      HoldingsPartition(txns, table);
      forall i | 0 <= i < |cur|
        ensures cur[i].latestNav > 0.0 && cur[i].marketValue > 0.0
      {
        var j :| 0 <= j < |table| && Matches(table[j], cur[i].isin) && LatestNav(table, cur[i].isin).value == table[j].nav;
        assert cur[i].units > 0.0;
      }
    }
  }

  /** A current holding carries the sums of its ledger rows, the first-seen
      scheme name, the first matching NAV and `market_value = units * NAV`. */
  lemma CurrentHoldingsContents(txns: seq<Txn>, table: seq<NavRow>)
    requires CurrentAndPastHoldings(txns, table).Success?
    ensures var cur := CurrentAndPastHoldings(txns, table).value.0;
            forall i :: 0 <= i < |cur| ==>
              && cur[i].units == UnitsTotal(FilterByIsin(txns, cur[i].isin))
              && cur[i].amount == AmountTotal(FilterByIsin(txns, cur[i].isin))
              && FirstSeenScheme(txns, cur[i].isin, cur[i].scheme)
              && LatestNav(table, cur[i].isin) == Some(cur[i].latestNav)
              && cur[i].marketValue == MarketValue(cur[i].units, cur[i].latestNav)
  {
    var cur := CurrentAndPastHoldings(txns, table).value.0;
    SplitValuesGroups(Aggregate(txns), table);
    forall i | 0 <= i < |cur|
      ensures cur[i].units == UnitsTotal(FilterByIsin(txns, cur[i].isin))
      ensures cur[i].amount == AmountTotal(FilterByIsin(txns, cur[i].isin))
      ensures FirstSeenScheme(txns, cur[i].isin, cur[i].scheme)
      ensures LatestNav(table, cur[i].isin) == Some(cur[i].latestNav)
      ensures cur[i].marketValue == MarketValue(cur[i].units, cur[i].latestNav)
    {
      GroupFacts(txns, HoldingGroup(cur[i]));
    }
  }

  /** A past holding carries only its ISIN and the first-seen scheme name. */
  lemma PastHoldingsContents(txns: seq<Txn>, table: seq<NavRow>)
    requires CurrentAndPastHoldings(txns, table).Success?
    ensures var past := CurrentAndPastHoldings(txns, table).value.1;
            forall i :: 0 <= i < |past| ==> FirstSeenScheme(txns, past[i].isin, past[i].scheme)
  {
    var gs := Aggregate(txns);
    var past := CurrentAndPastHoldings(txns, table).value.1;
    assert past == PastHoldings(gs);
    forall i | 0 <= i < |past|
      ensures FirstSeenScheme(txns, past[i].isin, past[i].scheme)
    {
      assert past[i] in past;
      var g :| g in gs && !IsCurrent(g) && past[i] == PastHolding(g.isin, g.scheme);
      GroupFacts(txns, g);
    }
  }
}
