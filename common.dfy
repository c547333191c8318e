/** Values shared by the pages: optional values, error returns and the
    numeric form inputs that the pages coerce with `Number(x || 0)`. */
module Common {

  datatype Option<+T> = None | Some(value: T)

  datatype Result<+T, +E> = Ok(value: T) | Err(error: E)

  /** A numeric form value as the pages hold it. `Blank` stands for every
      falsy value a field can hold (undefined, null, the empty string);
      `Num(n)` is a value that was entered or received, in the smallest unit
      (paise for money, units for quantities). */
  datatype Entry = Blank | Num(n: int)

  /** `Number(x || 0)`: a blank field counts as zero. */
  function Coerce(e: Entry): (r: int)
    ensures e.Blank? ==> r == 0
    ensures e.Num? ==> r == e.n
  {
    match e
    case Blank => 0
    case Num(n) => n
  }

  /** `Number(x || 0 || 1)`: a blank field counts as one. */
  function CoerceOrOne(e: Entry): (r: int)
    ensures e.Blank? ==> r == 1
    ensures e.Num? ==> r == Coerce(e)
  {
    match e
    case Blank => 1
    case Num(n) => n
  }

  function Max(a: int, b: int): (r: int)
    ensures r >= a && r >= b
    ensures r == a || r == b
  {
    if a >= b then a else b
  }

  /** A text field whose key is written only when the value is non-empty
      (`if (x) obj.key = x`). */
  function IfPresent(s: string): (r: Option<string>)
    ensures r.None? <==> s == ""
    ensures r.Some? ==> r.value == s
  {
    if s == "" then None else Some(s)
  }
}
