/** Vocabulary shared by the models of the control plane. */
module Ids {

  /** An opaque identifier; only equality is used, and `NO_ID` stands for the empty string. */
  type Id = nat

  const NO_ID: Id := 0

  /** The largest value of the unsigned 64-bit counters (epochs, generations). */
  const MAX_UINT64: nat := 0xFFFF_FFFF_FFFF_FFFF

  datatype Option<+T> = None | Some(value: T)
}
