/** Small vocabulary shared by every module: optional values, form fields and
    the JavaScript arithmetic the estimate relies on. */
module Common {

  /** A value that may be unset (`null` in the application's state). */
  datatype Option<T> = None | Some(value: T)

  /** One free-text form field. `text` is the string as typed (the empty string
      when nothing was entered); `value` is the number the application draws from
      it, `parseFloat(text) || 0` or `parseInt(text) || 0`. Text that is not a
      number has value zero. */
  datatype Input<T> = Input(text: string, value: T)

  /** A field nobody has typed into yet. */
  const BlankAmount: Input<real> := Input("", 0.0)
  const BlankCount: Input<int> := Input("", 0)

  /** JavaScript truthiness of the field's string: anything but "" is truthy. */
  predicate Entered<T>(f: Input<T>) {
    f.text != ""
  }

  function Max(a: real, b: real): (m: real)
    ensures m >= a && m >= b && (m == a || m == b)
  {
    if a >= b then a else b
  }

  function Min(a: real, b: real): (m: real)
    ensures m <= a && m <= b && (m == a || m == b)
  {
    if a <= b then a else b
  }

  /** `Math.round`: the nearest integer, halves going toward +infinity. */
  function Round(x: real): (r: int)
    ensures x - 0.5 < r as real <= x + 0.5
  {
    (x + 0.5).Floor
  }

  /** `Math.ceil(n / d)` for integers, d positive. */
  function CeilDiv(n: int, d: int): (q: int)
    requires d > 0
    ensures (q - 1) * d < n <= q * d
  {
    (n + d - 1) / d
  }
}
