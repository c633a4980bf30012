/** What the ledger says of a group. */
module Ledger {
  /** A committed group: its producer lifetime (epoch), where it stands on the lifetime's timeline, and its wall clock in nanoseconds. */
  datatype Group = Group(epoch: nat, mediaTime: int, duration: int, wallclock: int)
}
