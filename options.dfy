/** Kotlin's nullable types (`T?`), as an explicit option. */
module Options {

  datatype Option<+T> = None | Some(value: T)

  /** Kotlin's `x?.let(f)`: applies `f` to a present value, keeps null as null. */
  function MapOption<T, U>(o: Option<T>, f: T -> U): (r: Option<U>)
    ensures r.Some? <==> o.Some?
    ensures o.Some? ==> r.value == f(o.value)
  {
    match o
    case None => None
    case Some(v) => Some(f(v))
  }
}
