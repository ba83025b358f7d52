/** Values that travel between the spreadsheet and the core logic. */
module Sheet {

  /** The usual Some/None wrapper, for Python's `None`. */
  datatype Option<T> = None | Some(value: T)

  /** One cell of a spreadsheet column as pandas hands it over: either a
      Python `str`, or anything else (an empty cell read as NaN, a number). */
  datatype Cell = Text(value: string) | NonText
}
