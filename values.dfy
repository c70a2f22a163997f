/** Values shared by the three modelled components. */
module Values {

  /** A Java `double` as the modelled code sees it: a number or NaN.
      Rounding and infinities are not modelled. */
  datatype Double = Num(value: real) | NaN

  /** An optional value; `None` stands for Java's `null` or an absent result. */
  datatype Option<T> = None | Some(value: T)
}
