/** `get_latest_nav`: the price of a fund from the reference NAV table. The
    table is a parameter here; the model does not read the file. */
module NavLookup {
  import opened Wrappers

  /** One row of the reference table: the growth (or dividend payout) plan
      ISIN, the dividend reinvestment plan ISIN (either cell may be empty) and
      the net asset value. */
  datatype NavRow = NavRow(growthIsin: Option<string>, reinvestIsin: Option<string>, nav: real)

  predicate Matches(row: NavRow, isin: string) {
    row.growthIsin == Some(isin) || row.reinvestIsin == Some(isin)
  }

  /** Every NAV in the table is positive, as published NAVs are. */
  predicate PositiveNavs(table: seq<NavRow>) {
    forall j :: 0 <= j < |table| ==> table[j].nav > 0.0
  }

  /** The position of the first matching row at or after `from`. */
  function FirstMatchFrom(table: seq<NavRow>, isin: string, from: nat): (r: Option<nat>)
    requires from <= |table|
    ensures r.Some? ==> from <= r.value < |table| && Matches(table[r.value], isin)
                        && forall j :: from <= j < r.value ==> !Matches(table[j], isin)
    ensures r.None? ==> forall j :: from <= j < |table| ==> !Matches(table[j], isin)
    decreases |table| - from
  {
    if from == |table| then None
    else if Matches(table[from], isin) then Some(from)
    else FirstMatchFrom(table, isin, from + 1)
  }

  /** The NAV of the first row listing `isin` in either ISIN column, or
      `None` where the source's `iloc[0]` raises because no row matches. */
  function LatestNav(table: seq<NavRow>, isin: string): (r: Option<real>)
    ensures r.None? <==> forall j :: 0 <= j < |table| ==> !Matches(table[j], isin)
    ensures r.Some? ==> exists i :: 0 <= i < |table| && Matches(table[i], isin) && r.value == table[i].nav
  {
    match FirstMatchFrom(table, isin, 0)
    case Some(i) => Some(table[i].nav)
    case None => None
  }

  /** The lookup fails exactly when no row lists the ISIN, and otherwise
      returns the NAV of the first row that does. */
  lemma LatestNavIsFirstMatch(table: seq<NavRow>, isin: string)
    ensures LatestNav(table, isin).None? <==> forall j :: 0 <= j < |table| ==> !Matches(table[j], isin)
    ensures LatestNav(table, isin).Some? ==>
              exists i :: 0 <= i < |table| && Matches(table[i], isin) && LatestNav(table, isin).value == table[i].nav
                          && forall j :: 0 <= j < i ==> !Matches(table[j], isin)
  {
  }
}
