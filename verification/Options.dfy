/** The optional value used for "absent" results: a missing record, an empty pool, no parse. */
module Options {

  datatype Option<+T> = None | Some(value: T)
}
