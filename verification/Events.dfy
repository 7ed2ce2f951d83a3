/** Token events, the rows the server stores for them, and UTC-day arithmetic. */
module Events {
  import opened Options

  const DAY_MS: int := 86_400_000

  datatype Source = ClaudeCode | ClaudeCowork | Codex | Cursor | CursorLocal

  datatype MessageType = User | Assistant

  /** An event as a daemon or the team mirror posts it. Old daemons omit `messageType`. */
  datatype TokenEvent = TokenEvent(
    user: string,
    source: Source,
    sessionId: string,
    messageId: string,
    requestId: Option<string>,
    timestamp: int,
    model: string,
    messageType: Option<MessageType>,
    inputTokens: int,
    outputTokens: int,
    cacheCreationTokens: int,
    cacheReadTokens: int,
    reasoningTokens: Option<int>,
    costUsdMicros: Option<int>)

  /** A row of the events table, without its id and arrival time. */
  datatype Row = Row(
    user: string,
    source: Source,
    sessionId: string,
    messageId: string,
    requestId: Option<string>,
    timestamp: int,
    model: string,
    messageType: MessageType,
    inputTokens: int,
    outputTokens: int,
    cacheCreationTokens: int,
    cacheReadTokens: int,
    reasoningTokens: Option<int>,
    costUsdMicros: Option<int>)

  /** The columns of the unique index events_dedup: a NULL request id counts as the empty string. */
  datatype DedupKey = DedupKey(
    user: string, source: Source, messageId: string, requestId: string, messageType: MessageType)

  function RowOf(e: TokenEvent): Row {
    Row(e.user, e.source, e.sessionId, e.messageId, e.requestId, e.timestamp, e.model,
        e.messageType.GetOr(Assistant), e.inputTokens, e.outputTokens, e.cacheCreationTokens,
        e.cacheReadTokens, e.reasoningTokens, e.costUsdMicros)
  }

  function KeyOf(r: Row): DedupKey {
    DedupKey(r.user, r.source, r.messageId, r.requestId.GetOr(""), r.messageType)
  }

  /** Day index as the server's JavaScript computes it: floor division. */
  function RollDayOf(tsMs: int): int {
    tsMs / DAY_MS
  }

  /** SQLite's `/`, which truncates toward zero. */
  function TruncDiv(a: int, b: int): int
    requires b > 0
  {
    if a >= 0 then a / b else -((-a) / b)
  }

  /** SQLite's `%`, whose result takes the sign of the dividend. */
  function TruncMod(a: int, b: int): int
    requires b > 0
  {
    a - b * TruncDiv(a, b)
  }

  /** Day index as the server's SQL computes it. */
  function RollDaySql(ts: int): int {
    TruncDiv(ts - TruncMod(TruncMod(ts, DAY_MS) + DAY_MS, DAY_MS), DAY_MS)
  }

  /** The two day expressions agree on every integer, negative timestamps included. */
  lemma DayExpressionsAgree(ts: int)
    ensures RollDaySql(ts) == RollDayOf(ts)
  {
    var d := DAY_MS;
    if ts >= 0 {
      assert TruncMod(ts, d) == ts % d;
    } else {
      assert TruncDiv(ts, d) == -((-ts) / d);
      assert TruncMod(ts, d) == -((-ts) % d);
    }
  }

  /** A timestamp lies in the millisecond range of its day and of no other. */
  lemma DayRange(ts: int, day: int)
    ensures day * DAY_MS <= ts < (day + 1) * DAY_MS <==> RollDayOf(ts) == day
  {
  }
}
