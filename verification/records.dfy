/**
  The rows the gift monitor reads and the configuration it runs with.

  The store holds two tables: the gift events collected for the team and the
  users table that assigns each creator handle to a group. Both are modelled
  as sequences of immutable records, in the order the store happens to scan
  them; nothing the monitor does depends on that order except the order of
  rows whose ids tie.
 */
module GiftRecords {
  import opened Wrappers

  /** The `received_at` column. Its rendering is left abstract, so only its identity matters. */
  datatype Timestamp = Timestamp(micros: int)

  /** One row of the gift table, with the nine columns the query selects, in select order. */
  datatype Gift = Gift(
    id: int,
    creatorUsername: string,
    senderUsername: string,
    senderDisplayName: string,
    giftName: string,
    diamondsPerItem: int,
    repeatCount: int,
    totalDiamonds: int,
    receivedAt: Timestamp
  )

  /** One row of the users table; both columns may be NULL. */
  datatype User = User(tiktokUsername: Option<string>, assignedGroup: Option<string>)

  /** A snapshot of the two tables as one query sees them. */
  datatype Tables = Tables(gifts: seq<Gift>, users: seq<User>)

  /** The query parameters that do not change between polls: the group label
      (an unset environment variable gives `None`) and the alert threshold. */
  datatype Config = Config(group: Option<string>, threshold: int)

  /** Gifts below this total (in diamonds) are never alerted. */
  const AlertThreshold: int := 1000

  /** The watermark a freshly started monitor holds: every positive id is new. */
  const InitialLastId: int := 0

  /** The configuration the monitor runs with for a given group label. */
  function MonitorConfig(group: Option<string>): Config {
    Config(group, AlertThreshold)
  }
}
