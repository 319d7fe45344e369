# CAS portfolio derivation, modelled in Dafny

This project models the deterministic core of a mutual-fund portfolio
analyser. The analyser reads a consolidated account statement (CAS), turns its
transaction table into a signed cashflow ledger, and derives the investor's
current and past holdings. Each current holding is valued at the latest NAV
from a reference table. The ledger is then extended with one synthetic
`HOLDINGS` cashflow per open position, so that a return computation can treat
unrealised value like a final redemption.

Beside that pipeline the project models two small services:

- the tool that filters the ledger by ISIN;
- the in-memory session store that keeps each user's parsed data.

Modules, one per file, leaf first:

| module | file | models |
|---|---|---|
| `Wrappers` | wrappers.dfy | `Option` and `Result` |
| `Ledger` | ledger.dfy | the ledger row, parse errors, missing-value sums |
| `StringOrder` | string_order.dfy | Python's code-point order on strings, which sorts the keys of pandas' `groupby` |
| `Cashflow` | cashflow.dfy | `_get_cashflow_sign` |
| `IsinFilter` | isin_filter.dfy | `filter_transactions_by_isin` |
| `NavLookup` | nav_lookup.dfy | `get_latest_nav`, with the NAV table as a parameter |
| `Holdings` | holdings.dfy | `_get_current_and_past_holdings` |
| `Synthesis` | synthesis.dfy | `_merge_curr_holdings_to_txns`, with today's date as a parameter |
| `Parser` | parser.dfy | the body of `parse` after the statement is decoded |
| `Session` | session.dfy | `SessionService` |

Modelling choices:

- **Numbers.** Amounts, units and NAVs are `real`.
- **Missing cells.** A missing pandas cell is `None`. This covers the classifier's implicit `None` and an empty units cell. Column sums skip missing cells, as pandas' `sum` does (`Ledger.OrZero`).
- **Failures.**
  - A column the pipeline indexes but the statement lacks is `Failure(MissingColumn(name))`.
  - A current holding whose ISIN has no NAV row is `Failure(NavNotFound(isin))`. The source raises `IndexError` from `iloc[0]` at that point; the error value and its ISIN are this model's way of saying which lookup failed.
  - The lookups run in group order and the first failing one stops the parse, so the model reports the first unpriced group.
- **Group order.** pandas' `groupby` sorts its keys, so groups come in lexicographic code-point order of their ISINs (`StringOrder.Less`).
- **Session store.** The store is a value, and `set` returns the new store.

The accumulating method `Holdings.GroupByIsin` is an alternative, equivalent
formulation of the grouping: one pass over the rows into a map of running
totals, then a walk over the sorted keys. pandas itself factorises the keys
and aggregates column arrays. The method is proved equal to the declarative
`Holdings.Aggregate`, whose groups are defined by filtering the ledger once
per ISIN.

Two edge cases follow the code exactly:

- **Unknown types.** A type outside the three lists yields no value, because the classifier's `if`/`elif` chain has no `else` branch (domain/cas_parser.py:39-44). That row then adds nothing to its group's amount sum.
- **Threshold.** A position is current when its net units are at least 0.001 (`>=`, domain/cas_parser.py:55), and past when they are below it (`<`, domain/cas_parser.py:61).

## Model

| member | source | states |
|---|---|---|
| `Cashflow.SignedAmount` | domain/cas_parser.py:13-44 | a value exists exactly for the 16 listed types; positive types give a non-negative amount of the raw magnitude, negative types a non-positive one, the three ignored types exactly zero |
| `Cashflow.VocabulariesDisjoint` | domain/cas_parser.py:14-37 | no type is in two of the three lists, so the order of the tests cannot change a result |
| `Cashflow.SignIgnoresRawSign` | domain/cas_parser.py:39-42 | the classified amount depends only on the raw amount's magnitude, which a signed type preserves |
| `Cashflow.ReclassificationIsStable` | domain/cas_parser.py:39-44 | classifying an already classified amount again gives the same amount |
| `Cashflow.HoldingsMarkerIsUnclassified` | domain/cas_parser.py:73 | the `HOLDINGS` marker of synthetic rows is outside the classifier's vocabulary |
| `IsinFilter.FilterByIsin` | tools/filter_transactions_tool.py:12 | the result is no longer than the input and every returned row carries the requested ISIN |
| `IsinFilter.MatchingIndices` | tools/filter_transactions_tool.py:12 | the strictly increasing list of every position whose row has the ISIN |
| `IsinFilter.FilterSelectsMatchingRows` | tools/filter_transactions_tool.py:12 | the j-th returned row is the row at the j-th matching position, so the result is the matching rows in original order and has one row per match |
| `IsinFilter.FilterMembership` | tools/filter_transactions_tool.py:12 | a row is returned if and only if it is in the input with the requested ISIN |
| `IsinFilter.FilterAppend` | tools/filter_transactions_tool.py:12 | filtering a concatenation is concatenating the filtered parts |
| `IsinFilter.FilterIdempotent` | tools/filter_transactions_tool.py:12 | filtering the result again by the same ISIN returns it unchanged |
| `IsinFilter.FilterEmptyIff` | tools/filter_transactions_tool.py:12 | the result is empty exactly when no input row has the ISIN, including the empty input |
| `IsinFilter.FirstRowIsFirstSeen` | domain/cas_parser.py:49 | for an ISIN of the ledger, the first filtered row is the ledger's first row with that ISIN (the row `"first"` takes the scheme from) |
| `NavLookup.FirstMatchFrom` | domain/cas_parser.py:108-112 | the first position at or after `from` whose growth or reinvestment ISIN matches, with no match before it; `None` when no later row matches |
| `NavLookup.LatestNavIsFirstMatch` | domain/cas_parser.py:106-114 | the lookup fails exactly when no row matches either ISIN column, and otherwise returns the NAV of the first matching row |
| `NavLookup.LatestNav` | domain/cas_parser.py:106-114 | no NAV exactly when no row matches the ISIN in either ISIN column; a returned NAV is the NAV of some matching row |
| `StringOrder.LessIsStrictTotalOrder` | domain/cas_parser.py:47 | the key order `groupby` sorts by is irreflexive, transitive and total |
| `StringOrder.InsertSorted` | domain/cas_parser.py:47 | inserting a key into a strictly sorted key list keeps it strictly sorted and adds exactly that key |
| `StringOrder.SortedDistinctCardinality` | domain/cas_parser.py:47 | a strictly sorted key list has no repeats, so it has as many keys as distinct values |
| `Holdings.SortedKeys` | domain/cas_parser.py:47 | the group keys are strictly sorted and are exactly the ISINs of the ledger |
| `Holdings.MarketValue` | domain/cas_parser.py:57-59 | the market value of non-negative units at a non-negative NAV is non-negative, zero when either factor is zero, and at a positive NAV positive exactly when the units are |
| `Holdings.GroupOf` | domain/cas_parser.py:47-53 | the group of a ledger ISIN is keyed by that ISIN and takes its scheme from the first ledger row with that ISIN |
| `Holdings.Aggregate` | domain/cas_parser.py:47-53 | the groups are keyed, in order, by the strictly sorted distinct ISINs of the ledger |
| `Holdings.AggregateKeys` | domain/cas_parser.py:47-53 | one group per distinct ISIN, in sorted ISIN order, and no other groups |
| `Holdings.AggregateContents` | domain/cas_parser.py:47-53 | each group's units and amount are the sums over the ledger rows with its ISIN, and its scheme is that of the first such row |
| `Holdings.AccumulateRows` | domain/cas_parser.py:47-53 | a single pass over the rows yields the sorted keys and a running-total map whose entry for each ISIN is its group |
| `Holdings.GroupByIsin` | domain/cas_parser.py:47-53 | the one-pass grouping yields exactly the declarative groups, in key order |
| `Holdings.CurrentGroups` | domain/cas_parser.py:55 | keeps exactly the groups with net units of at least 0.001; `Holdings.CurrentGroupsInOrder` adds that it keeps their order |
| `Holdings.PastHoldings` | domain/cas_parser.py:61-62 | one `(isin, scheme)` record for each group below 0.001, so current and past together account for every group; `Holdings.PastHoldingsInOrder` adds that they keep the groups' order |
| `Holdings.CurrentGroupsInOrder` | domain/cas_parser.py:55 | the mask keeps ascending ISIN order: on ISIN-sorted groups the kept groups are ISIN-sorted |
| `Holdings.PastHoldingsInOrder` | domain/cas_parser.py:61-62 | the past holdings of ISIN-sorted groups are in ascending ISIN order |
| `Holdings.PriceHoldings` | domain/cas_parser.py:56-59 | succeeds exactly when every current group has a NAV row; each holding keeps its group's fields, carries the first matching NAV and is worth units times NAV; a failure names an ISIN without a NAV row |
| `Holdings.PriceHoldingsReportsFirstUnpriced` | domain/cas_parser.py:56 | a failure names the first group, in order, whose ISIN has no NAV row |
| `Holdings.HoldingsSucceedIffPriced` | domain/cas_parser.py:55-59 | the derivation succeeds exactly when every ISIN with net units of at least 0.001 has a NAV row |
| `Holdings.HoldingsFailureNamesUnpricedIsin` | domain/cas_parser.py:55-59 | a failed derivation names a ledger ISIN with net units of at least 0.001 and no NAV row |
| `Holdings.Split` | domain/cas_parser.py:55-62 | succeeds exactly when every group at or above the threshold has a NAV row; a failure names an ISIN without a NAV row; a success has one holding per group |
| `Holdings.CurrentAndPastHoldings` | domain/cas_parser.py:46-64 | a failure is a missing NAV, and the ISIN it names has no NAV row |
| `Holdings.HoldingsInIsinOrder` | domain/cas_parser.py:46-64 | both returned lists are in strictly ascending ISIN order |
| `Holdings.SplitByThreshold` | domain/cas_parser.py:55-62 | on any group list the current holdings are the groups at or above the threshold and the past holdings the rest, one holding per group |
| `Holdings.AggregateOpenClosed` | domain/cas_parser.py:47-62 | the groups at or above the threshold are exactly the ledger ISINs whose summed units reach it, and likewise below |
| `Holdings.HoldingsPartition` | domain/cas_parser.py:46-64 | current and past ISINs partition the ledger's ISINs by summed units (at least 0.001 current, below it past), with one holding per ISIN |
| `Holdings.SplitValuesGroups` | domain/cas_parser.py:56-59 | each current holding is one of the groups, valued at its first matching NAV |
| `Holdings.CurrentHoldingsContents` | domain/cas_parser.py:47-59 | a current holding carries its ISIN's unit and amount sums, the first-seen scheme, the first matching NAV and market value = units times NAV |
| `Holdings.CurrentHoldingsArePositive` | domain/cas_parser.py:55-59 | when every NAV in the table is positive, every current holding has a positive NAV and a positive market value |
| `Holdings.PastHoldingsContents` | domain/cas_parser.py:47-62 | a past holding carries only its ISIN and the first-seen scheme |
| `Synthesis.HoldingsRows` | domain/cas_parser.py:67-76 | one synthetic row per current holding, in holdings order |
| `Synthesis.HoldingsRow` | domain/cas_parser.py:67-76 | the synthetic row of a holding has its ISIN and scheme, today's date, the unclassified `HOLDINGS` type, no units cell, the market value as amount and the description "Current holdings" |
| `Synthesis.MergeCurrentHoldings` | domain/cas_parser.py:66-77 | the ledger is an unchanged prefix of the result, followed by one `HOLDINGS` row per current holding with its ISIN, scheme, market value as amount, no units and today's date |
| `Synthesis.MergedRowIsHolding` | domain/cas_parser.py:66-77 | the i-th appended row is the synthetic row of the i-th current holding |
| `Synthesis.MergedHoldingsInOrder` | domain/cas_parser.py:66-77 | when the current holdings are in ascending ISIN order, so are the appended `HOLDINGS` rows |
| `Synthesis.MergedHoldingsAreInflows` | domain/cas_parser.py:66-77 | when every NAV in the table is positive, every `HOLDINGS` row appended after the ledger has a present, positive amount: the current holdings come back as inflows |
| `Synthesis.HoldingsRowsTotals` | domain/cas_parser.py:67-76 | the synthetic rows sum to the total market value and add no units |
| `Synthesis.MergedLedgerTotals` | domain/cas_parser.py:66-77 | the merged ledger's net cashflow is the statement's net plus the total market value, and its unit sum is unchanged |
| `Synthesis.MergedFilterKeepsUnits` | domain/cas_parser.py:66-77 | filtering the merged ledger by an ISIN gives its statement rows then its synthetic rows, with the same net units as before the merge |
| `Synthesis.SyntheticRowsAreUnclassified` | domain/cas_parser.py:73 | classifying the merged ledger again leaves every synthetic row without a value |
| `Parser.KeepPresent` | domain/cas_parser.py:94 | keeps exactly the wanted columns the header has, each once |
| `Parser.KeepPresentInOrder` | domain/cas_parser.py:94 | the kept columns are a subsequence of the wanted list, so they keep its order |
| `Parser.AvailableColumns` | domain/cas_parser.py:85-95 | the kept columns are exactly the required columns present, without repeats; all other columns are dropped |
| `Parser.AvailableColumnsInOrder` | domain/cas_parser.py:85-95 | the kept columns appear in the order of the required list |
| `Parser.MissingKey` | domain/cas_parser.py:82-97 | no column is reported exactly when `type`, `isin`, `scheme` and `units` are present and `amount` is present or never read; a reported column is one of the five the pipeline reads, `amount` only when some row has a signed type, and it is the first absent column in the read order `type`, `amount`, `isin`, `scheme`, `units` |
| `Parser.ClassifyRow` | domain/cas_parser.py:39-95 | a ledger row keeps its statement row's ISIN, scheme, type and units; it has an amount exactly when the type is classified (lines 39-44), of the raw magnitude for a signed type; it has a date and description exactly when the projection of lines 94-95 keeps those columns |
| `Parser.Classify` | domain/cas_parser.py:82-95 | one ledger row per statement row, each with that row's ISIN and type |
| `Parser.ClassifyRowFacts` | domain/cas_parser.py:82-95 | a ledger row keeps its statement row's cells, signs the amount, and keeps `date` and `description` exactly when the statement has those columns |
| `Parser.ClassifyCompleteStatement` | domain/cas_parser.py:82-95 | with both optional columns present, the ledger is the row-by-row classification of the statement |
| `Parser.ClassifyKeepsIsins` | domain/cas_parser.py:82-95 | the ledger has the same ISINs as the statement |
| `Parser.Parse` | domain/cas_parser.py:82-104 | a reported missing column is absent from the statement; a reported unpriced ISIN is a statement ISIN without a NAV row; a success has every key column and returns one ledger row per statement row plus one per current holding |
| `Parser.ParseSucceedsIff` | domain/cas_parser.py:82-104 | parsing succeeds exactly when the key columns are present and every ISIN with net units of at least 0.001 has a NAV row |
| `Parser.ParsedLedgerKeepsRows` | domain/cas_parser.py:82-98 | the returned ledger starts with the statement rows in order, each signed by the classifier with its ISIN, scheme, type and units unchanged, and its date and description cells copied when the statement has those columns and missing otherwise |
| `Parser.ParsedLedgerAppendsHoldings` | domain/cas_parser.py:98 | after the statement rows, the i-th row is the synthetic `HOLDINGS` row of the i-th current holding, dated today and worth its market value |
| `Parser.ParsedNetCashflow` | domain/cas_parser.py:98 | the returned ledger's net cashflow is the statement's plus the total market value of the current holdings |
| `Parser.ParsedHoldingsPartition` | domain/cas_parser.py:97 | current and past holdings partition the statement's ISINs, one holding each, current ones with at least 0.001 units |
| `Parser.ParsedHoldingsInIsinOrder` | domain/cas_parser.py:82-104 | the current holdings, the past holdings and the appended `HOLDINGS` rows are each in strictly ascending ISIN order |
| `Parser.ParseFailureNamesUnpricedIsin` | domain/cas_parser.py:97 | a valuation failure names a statement ISIN whose net units reach 0.001 and which has no NAV row |
| `Parser.MissingColumnIsFirstRead` | domain/cas_parser.py:82-97 | the parse fails on a missing column exactly when some column of the read order is absent, and it reports the first absent column in that order (every earlier column is present) |
| `Parser.TwoPurchasesExample` | domain/cas_parser.py:82-104 | two purchases of 10 and 20 units for 1000 and 2000 at NAV 150 give one current holding of 30 units, net amount -3000, market value 4500, and a ledger ending in a 4500 `HOLDINGS` row |
| `Session.NewStore` | services/session_service.py:2-3 | a fresh store holds no sessions and answers every lookup with the empty dictionary |
| `Session.ReadsLastWrite` | services/session_service.py:2-9 | after any sequence of writes to a fresh service, reading a session gives the last value written to it, or `{}` if it was never written |
| `Session.SetSessionData` | services/session_service.py:5-6 | afterwards the session reads back the written value, every other session reads as before, and exactly that id is added |
| `Session.SetOverwrites` | services/session_service.py:5-6 | a second write to the same session replaces the first |
| `Session.SetsCommute` | services/session_service.py:5-6 | writes to different sessions commute |
| `Session.SetWhatIsThere` | services/session_service.py:5-9 | writing back a stored session's data changes nothing; writing back an unknown session's `{}` creates it |

## Left out

- Decoding the PDF and reading the CSV back (domain/cas_parser.py:80-81). The library is a black box, so the model starts from the decoded table.
- Reading the NAV reference file on every lookup (domain/cas_parser.py:107). The table is a parameter.
- The NAV file's text: the `;` delimiter, thousands separators and the `float(nav)` conversion. NAVs are already `real`.
- The clock read in the merge (domain/cas_parser.py:69). Today's date is a parameter, and its `%Y-%m-%d` format is not modelled.
- Floating point. Amounts, units and NAVs are exact reals, so rounding near the 0.001 threshold and in `units * latest_nav` is not modelled.
- NaN raw amounts. A raw amount is a number; an empty amount cell of a signed type (where `abs(NaN)` gives NaN) is not modelled.
- Null ISINs and schemes. Every row has an ISIN and a scheme, so `groupby` dropping null keys and `"first"` skipping null schemes do not arise.
- Empty `type` cells. pandas reads one as NaN, which the classifier leaves without a value and the output row keeps as its type; the model's `kind` is always a string, so NaN types do not arise.
- Rows without an `isin` key in the filter tool, which `txn.get("isin")` would treat as `None`. Every ledger row has an ISIN.
- Parser.MissingKey: pandas reports every missing aggregation column at once; the model reports `scheme` before `units`.
- Statements with no rows and no `type` column. pandas' `apply` on an empty frame has its own behaviour there, which is not modelled; the model reports the missing column.
- Ledger.NavNotFound: the source's `IndexError` names no ISIN. The ISIN in the error, and the promise that it is the first unpriced group in ISIN order, are this model's additions; the source only stops with an exception.
- Parser.Parse: the output is three sequences of records, not `to_dict(orient="records")` dictionaries. Dictionary keys are the record fields.
- Session: session values are plain data (null, booleans, numbers, strings, lists and dictionaries) held by value. Python shares the stored object by reference, so later mutation through another reference is not modelled.
- XIRR (tools/xirr_tool.py) is not part of this model. It is floating-point root finding. Two things in it are worth noting: it requires at least two transactions, and it returns a percentage (times 100) while its docstring promises a decimal.
- The cap-composition tool, the agents, the web API, the UI, wiring and database utilities are not part of this model.
