/**
  Types shared by the contracts: the 32-byte account identity of the ink!
  environment, and Rust's optional value (used for event topics).
 */
module Env {

  /** An account identity: an opaque, fixed-size (32-byte) key. */
  type AccountId = s: seq<bv8> | |s| == 32 witness seq(32, _ => 0)

  datatype Option<+T> = None | Some(value: T)
}
