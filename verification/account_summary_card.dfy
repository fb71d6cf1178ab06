/** The account summary card: how the account number is masked and which
    currency symbol precedes the balance. */
module AccountSummaryCard {
  import opened Wrappers
  import opened JsSemantics

  /** Four bullets and a space. */
  const MaskPrefix := "\U{2022}\U{2022}\U{2022}\U{2022} "
  const NotAvailable := "N/A"
  const VisibleDigits: nat := 4

  /** The masked account number: "N/A" for an empty number, otherwise the
      bullet prefix followed by the last four characters (all of them when
      there are fewer). */
  function MaskAccountNumber(accountNumber: string): (r: string)
    ensures accountNumber == "" ==> r == "N/A"
    ensures accountNumber != "" ==>
      var shown := Min(4, |accountNumber|);
      r == "\U{2022}\U{2022}\U{2022}\U{2022} " + accountNumber[|accountNumber| - shown..]
    ensures |r| <= 9
  {
    if |accountNumber| > 0 then MaskPrefix + Slice(accountNumber, -(VisibleDigits as int), None)
    else NotAvailable
  }

  /** The mask reveals nothing but a suffix of at most four characters. */
  lemma MaskRevealsAtMostFour(accountNumber: string)
    requires accountNumber != ""
    ensures var r := MaskAccountNumber(accountNumber);
            var tail := r[|MaskPrefix|..];
            && r[..|MaskPrefix|] == MaskPrefix
            && |tail| <= 4
            && tail == accountNumber[|accountNumber| - |tail|..]
  {
  }

  /** Numbers that share their last four characters look the same once masked. */
  lemma MaskDependsOnlyOnLastFour(a: string, b: string)
    requires |a| >= 4 && |b| >= 4
    requires a[|a| - 4..] == b[|b| - 4..]
    ensures MaskAccountNumber(a) == MaskAccountNumber(b)
  {
  }

  /** The symbol before the balance: "$" unless one is passed in. */
  function CurrencySymbol(currencySymbol: Option<string>): (s: string)
    ensures currencySymbol.None? ==> s == "$"
    ensures currencySymbol.Some? ==> s == currencySymbol.value
  {
    currencySymbol.GetOr("$")
  }
}
