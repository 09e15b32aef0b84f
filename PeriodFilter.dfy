/** The scholarship-period selector shared by both applicant pages: its
    value is `selectedPeriodId?.toString() || "all"`, and choosing a value
    maps "all" to no period and anything else through `parseInt`. */
module PeriodFilter {
  import opened Wrappers
  import opened JsStrings

  /** The period id a selector value stands for (`handlePeriodChange`). */
  function PeriodIdOf(value: string): (p: Option<JsNumber>)
    ensures value == "all" <==> p.None?
  {
    if value == "all" then None else Some(ParseInt(value))
  }

  /** The selector's displayed value for a stored period id. */
  function SelectValue(p: Option<JsNumber>): (v: string)
    ensures v != ""
  {
    match p
    case None => "all"
    case Some(Num(i)) => IntToString(i)
    case Some(NaN) => "NaN"
  }

  /** Choosing the value the selector shows for a period selects that period
      again, and "all" round-trips to no period. */
  lemma SelectRoundTrip(i: int)
    ensures PeriodIdOf(SelectValue(Some(Num(i)))) == Some(Num(i))
    ensures SelectValue(PeriodIdOf("all")) == "all"
  {
    var v := IntToString(i);
    ParseIntOfIntToString(i);
    if v == "all" {
      assert IsDigit(v[0]) || v[0] == '-' by {
        if i >= 0 { assert v == NatToDecimal(i); } else { assert v[0] == '-'; }
      }
    }
  }
}
