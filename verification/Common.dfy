/** What several modules share: optional values, the ends of a sequence, and the order of texts. */
module Common {
  datatype Option<+T> = None | Some(value: T)

  function Init<T>(s: seq<T>): seq<T>
    requires s != []
  {
    s[..|s| - 1]
  }

  function Last<T>(s: seq<T>): T
    requires s != []
  {
    s[|s| - 1]
  }

  /** Lexicographic order on code points, as Python compares strings. */
  predicate Le(a: string, b: string) {
    if a == [] then true
    else if b == [] then false
    else if a[0] != b[0] then a[0] < b[0]
    else Le(a[1..], b[1..])
  }
}
