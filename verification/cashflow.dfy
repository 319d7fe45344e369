/** The cashflow sign classifier: turns the unsigned amount of a statement row
    into a signed cashflow from the investor's point of view. */
module Cashflow {
  import opened Wrappers
  import Ledger

  /** Types whose amount is money received by the investor. */
  const PositiveTypes: seq<string> :=
    ["REDEMPTION", "DIVIDEND_PAYOUT", "SWITCH_OUT", "SWITCH_OUT_MERGER", "REVERSAL"]

  /** Types whose amount is money paid by the investor. The three tax types
      are counted as outflows on the assumption that the statement has not
      already netted them into a redemption amount. */
  const NegativeTypes: seq<string> :=
    ["PURCHASE", "PURCHASE_SIP", "DIVIDEND_REINVEST", "SWITCH_IN", "SWITCH_IN_MERGER",
     "STT_TAX", "STAMP_DUTY_TAX", "TDS_TAX"]

  /** Types that move no money. */
  const IgnoreTypes: seq<string> := ["SEGREGATION", "MISC", "UNKNOWN"]

  predicate InVocabulary(kind: string) {
    kind in PositiveTypes || kind in NegativeTypes || kind in IgnoreTypes
  }

  function Abs(x: real): real {
    if x < 0.0 then -x else x
  }

  /** The signed cashflow of one row, or `None` (Python's implicit `None`)
      for a type outside the three lists. */
  function SignedAmount(kind: string, amount: real): (r: Option<real>)
    ensures r.Some? <==> InVocabulary(kind)
    ensures kind in PositiveTypes ==> r.Some? && r.value >= 0.0 && (r.value == amount || r.value == -amount)
    ensures kind in NegativeTypes ==> r.Some? && r.value <= 0.0 && (r.value == amount || r.value == -amount)
    ensures kind in IgnoreTypes ==> r == Some(0.0)
  {
    if kind in PositiveTypes then Some(Abs(amount))
    else if kind in NegativeTypes then Some(-Abs(amount))
    else if kind in IgnoreTypes then Some(0.0)
    else None
  }

  /** No type is in two lists, so the order of the tests in `SignedAmount`
      does not matter and each type has exactly one direction. */
  lemma VocabulariesDisjoint(kind: string)
    ensures !(kind in PositiveTypes && kind in NegativeTypes)
    ensures !(kind in PositiveTypes && kind in IgnoreTypes)
    ensures !(kind in NegativeTypes && kind in IgnoreTypes)
  {
  }

  /** A classified amount depends on the raw amount only through its magnitude,
      and a signed type keeps that magnitude. */
  lemma SignIgnoresRawSign(kind: string, amount: real)
    ensures SignedAmount(kind, -amount) == SignedAmount(kind, amount)
    ensures kind in PositiveTypes || kind in NegativeTypes ==> Abs(SignedAmount(kind, amount).value) == Abs(amount)
  {
  }

  /** Classifying an already classified amount again changes nothing. */
  lemma ReclassificationIsStable(kind: string, amount: real)
    requires InVocabulary(kind)
    ensures SignedAmount(kind, SignedAmount(kind, amount).value) == SignedAmount(kind, amount)
  {
  }

  /** The marker of the synthetic holdings rows is outside the vocabulary, so
      a consumer that classifies the merged ledger again leaves those rows
      unsigned. */
  lemma HoldingsMarkerIsUnclassified(amount: real)
    ensures SignedAmount(Ledger.HoldingsKind, amount) == None
  {
  }
}
