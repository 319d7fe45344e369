/** The transaction ledger shared by the parser, the holdings aggregator and
    the ISIN filter tool. */
module Ledger {
  import opened Wrappers

  /** One ledger row after classification and column projection.
      `kind` holds the statement's `type` column (`type` is reserved in Dafny).
      `date` and `description` are `None` when the statement has no such
      column; `amount` is `None` when the classifier returned no value, and
      `units` is `None` when the statement left the cell empty. */
  datatype Txn = Txn(
    date: Option<string>,
    amount: Option<real>,
    units: Option<real>,
    isin: string,
    scheme: string,
    kind: string,
    description: Option<string>)

  /** Why a parse stops: a column the pipeline indexes is absent from the
      statement (where pandas raises `KeyError`), or a current holding's ISIN
      has no row in the NAV reference table (where `iloc[0]` on the empty
      selection raises `IndexError`). The ISIN carried by `NavNotFound` is an
      addition of this model: the source's exception does not name it. */
  datatype ParseError = MissingColumn(column: string) | NavNotFound(isin: string)

  /** Marker type of the synthetic rows appended for current holdings. */
  const HoldingsKind: string := "HOLDINGS"

  /** A missing value contributes nothing to a pandas sum. */
  function OrZero(x: Option<real>): real {
    match x
    case Some(v) => v
    case None => 0.0
  }

  /** The ISINs that occur in a ledger. */
  function IsinSet(txns: seq<Txn>): set<string> {
    set i | 0 <= i < |txns| :: txns[i].isin
  }

  /** Appending a row adds its ISIN. */
  lemma IsinSetAppend(p: seq<Txn>, t: Txn)
    ensures IsinSet(p + [t]) == IsinSet(p) + {t.isin}
  {
    var q := p + [t];
    assert forall i :: 0 <= i < |p| ==> q[i] == p[i];
    assert q[|p|] == t;
    forall k | k in IsinSet(q)
      ensures k in IsinSet(p) + {t.isin}
    {
      var i :| 0 <= i < |q| && q[i].isin == k;
      if i < |p| {
        assert p[i].isin == k;
      }
    }
  }

  /** Sum of the units column, skipping missing cells. */
  function UnitsTotal(txns: seq<Txn>): real
    decreases |txns|
  {
    if |txns| == 0 then 0.0 else UnitsTotal(txns[..|txns| - 1]) + OrZero(txns[|txns| - 1].units)
  }

  /** Sum of the amount column, skipping missing cells. */
  function AmountTotal(txns: seq<Txn>): real
    decreases |txns|
  {
    if |txns| == 0 then 0.0 else AmountTotal(txns[..|txns| - 1]) + OrZero(txns[|txns| - 1].amount)
  }

  /** Both column sums distribute over concatenation of ledgers. */
  lemma {:induction false} TotalsAppend(a: seq<Txn>, b: seq<Txn>)
    ensures UnitsTotal(a + b) == UnitsTotal(a) + UnitsTotal(b)
    ensures AmountTotal(a + b) == AmountTotal(a) + AmountTotal(b)
    decreases |b|
  {
    if |b| == 0 {
      assert a + b == a;
    } else {
      var b' := b[..|b| - 1];
      TotalsAppend(a, b');
      assert (a + b)[..|a + b| - 1] == a + b';
    }
  }
}
