/** The records that travel from a watcher to the server, and the scan state a
    watcher keeps per file.

    `Backfill` and the server's `received_at` depend on the clock at scan or
    insert time and are kept out of record equality; so is the fallback of an
    unreadable timestamp to the scan time. Token counts are unbounded integers. */
module Types {

  datatype Option<+T> = None | Some(value: T)

  /** One assistant message. `timestamp` is in microseconds since the epoch. */
  datatype UsageRecord = UsageRecord(
    messageId: string, requestId: string, sessionId: string,
    tool: string, model: string, timestamp: int,
    inputTokens: int, outputTokens: int,
    cacheCreationTokens: int, cacheCreation1hTokens: int, cacheReadTokens: int,
    projectPath: string)

  /** One file-modification event. */
  datatype EditRecord = EditRecord(
    eventId: string, sessionId: string, tool: string, timestamp: int, lang: string,
    linesAdded: int, linesRemoved: int, projectPath: string)

  /** Everything one pass over a transcript extracted. */
  datatype ScanResult = ScanResult(usage: seq<UsageRecord>, edits: seq<EditRecord>) {
    function Then(next: ScanResult): ScanResult {
      ScanResult(usage + next.usage, edits + next.edits)
    }
  }

  const NOTHING := ScanResult([], [])

  /** Per-file progress: a byte offset for tailed files, the last seen size for
      re-parsed ones. The zero value stands for a file never seen. */
  datatype FileState = FileState(inode: nat, offset: nat)

  const UNSEEN := FileState(0, 0)

  function Min(a: int, b: int): int { if a <= b then a else b }

  function Max(a: int, b: int): int { if a >= b then a else b }

  function Last<T>(s: seq<T>): T
    requires s != []
  {
    s[|s| - 1]
  }
}
