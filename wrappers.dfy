/** Optional values shared by the lexer, the parser and the runtime values. */
module Wrappers {

  /** `None` stands for a value the source leaves undefined or unset. */
  datatype Option<+T> = None | Some(value: T)
}
