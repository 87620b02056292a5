/** The optional value the TypeScript source writes as `T | null`. */
module Wrappers {

  datatype Option<+T> = None | Some(value: T)
}
