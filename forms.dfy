/**
 * Values held by the admin forms. A form starts with literals (strings, and numbers such as
 * `correctAnswerIndex: 0` or `duration: 900`); every change event stores `e.target.value`,
 * which is always a string.
 */
module Forms {
  import opened Decimal

  datatype FormValue = Text(s: string) | Num(n: int)

  /** A JavaScript number as far as the model needs one. */
  datatype JsNumber = Finite(n: int) | NaN

  /**
   * `Number(v)`: numbers stay as they are, the empty string reads as 0, a string of
   * decimal digits reads as its value, and anything else is NaN.
   */
  function ToNumber(v: FormValue): (r: JsNumber)
    ensures v.Num? ==> r == Finite(v.n)
    ensures v == Text("") ==> r == Finite(0)
    ensures r.Finite? && v.Text? ==> AllDigits(v.s) && r.n >= 0
  {
    match v
    case Num(n) => Finite(n)
    case Text(s) => if AllDigits(s) then Finite(ParseDigits(s)) else NaN
  }

  /** A number typed into a number input and read back with `Number` keeps its value. */
  lemma ToNumberOfPrinted(n: nat)
    ensures ToNumber(Text(NatToString(n))) == Finite(n)
  {
    ParseNatToString(n);
  }
}
