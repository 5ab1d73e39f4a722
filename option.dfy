/** An optional value: JavaScript's `undefined`, a request that threw, a reply still pending. */
module Options {
  datatype Option<+T> = None | Some(value: T)
}
