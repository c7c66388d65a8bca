/** Shared by every module. */
module Basics {
  datatype Option<+T> = None | Some(value: T)

  /** A log sequence number: compared, copied, never computed with. */
  type Lsn = nat

  function Max(a: Lsn, b: Lsn): (m: Lsn)
    ensures a <= m && b <= m && (m == a || m == b)
  {
    if a < b then b else a
  }
}
