/** What several parts of the stack use. */
module Common {

  /** The range of the boards' 32 bit counters. */
  const UINT32: nat := 0x1_0000_0000

  datatype Option<+T> = None | Some(value: T)
}
