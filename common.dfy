/** Shared vocabulary of the model: optional values and the JavaScript values
    that signals hold. */
module Common {

  datatype Option<T> = None | Some(value: T)

  /** A JavaScript value as far as the signal engine cares: it is stored and
      handed back, never inspected. Numbers are modelled as integers. */
  datatype Value =
    | Undefined
    | Null
    | Bool(b: bool)
    | Num(n: int)
    | Str(s: string)
}
