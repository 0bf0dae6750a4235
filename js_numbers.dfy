/** JavaScript numbers as the backend uses them. */
module JsNumbers {

  /**
   * A JavaScript number: a finite value, `NaN` or an infinity. An absent number
   * (`undefined`) behaves as `NaN` everywhere the backend uses one.
   */
  datatype JsNumber = Finite(value: real) | NaN | PositiveInfinity | NegativeInfinity {

    /** JavaScript truthiness: everything except `0` and `NaN`. */
    predicate Truthy() {
      (Finite? && value != 0.0) || PositiveInfinity? || NegativeInfinity?
    }

    /** `Number.isInteger`. */
    predicate IsInteger() {
      Finite? && value == value.Floor as real
    }

    /** `n || 0`: the number itself when truthy, zero otherwise. */
    function OrZero(): (r: JsNumber)
      ensures r.Truthy() || r == Finite(0.0)
      ensures Truthy() ==> r == this
    {
      if Truthy() then this else Finite(0.0)
    }
  }
}
