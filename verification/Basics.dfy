/** Types that several modules share. */
module Basics {

  datatype Option<+T> = None | Some(value: T)

  type Byte = bv8

  /** `GIOStatus`: how a read from or a write to a socket went. */
  datatype Status = Normal | Again | Eof | Error
}
