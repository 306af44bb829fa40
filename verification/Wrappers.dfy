/** The shapes shared by every module: absence, failure, identifiers and RPC failure classes. */
module Wrappers {
  /** Identifiers are only ever compared; the empty one is `NO_NAME`. */
  type Name = nat

  const NO_NAME: Name := 0

  /** Why a native call did not succeed (claude-monitor-codex/src/client.rs, `Failure`). */
  datatype Failure = Rejected | RpcRejected(archived: bool, busy: bool) | Unavailable | Uncertain

  datatype Option<+T> = None | Some(value: T)

  datatype Result<+T, +E> = Ok(value: T) | Err(error: E)
}
