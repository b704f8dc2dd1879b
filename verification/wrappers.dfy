/** The optional value used by the syntax tree (Rust's `Option`) and by the symbol decoders. */
module Wrappers {

  datatype Option<+T> = None | Some(value: T)
}
