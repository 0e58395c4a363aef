/** Shared datatypes: optional values, results carrying an error, and the
    "one array or a list of arrays" arguments the plotting helpers accept. */
module Common {

  /** Python's `None` versus a present value. */
  datatype Option<+T> = None | Some(value: T)

  /** A computed value, or the `ValueError` the helper raises instead. */
  datatype Result<+T, +E> = Ok(value: T) | Err(error: E)

  /** An argument that is either a single array or a list/tuple of arrays.
      Only Python `list` and `tuple` count as "many"; anything else (a NumPy
      array included) is a single array. */
  datatype OneOrMany<+T> = Single(item: T) | Many(items: seq<T>)

  /** The list form of an argument: a single array becomes a one-element list. */
  function AsList<T>(a: OneOrMany<T>): (xs: seq<T>)
    ensures a.Many? ==> xs == a.items
    ensures a.Single? ==> |xs| == 1 && xs[0] == a.item
  {
    match a
    case Single(x) => [x]
    case Many(xs) => xs
  }

  function Min(a: nat, b: nat): (m: nat)
    ensures m <= a && m <= b && (m == a || m == b)
  {
    if a <= b then a else b
  }

  function Max(a: nat, b: nat): (m: nat)
    ensures m >= a && m >= b && (m == a || m == b)
  {
    if a >= b then a else b
  }

  /** A figure size in inches, (width, height). */
  datatype Figsize = Figsize(width: real, height: real)
}
