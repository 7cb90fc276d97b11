/** The diagnostics logger of the chat (src/utils/logger.ts): an in-memory list of typed entries
    with statistics, recent entries and a text search, plus the global instance. Console output,
    `localStorage` and `window` are left out; the clock is a parameter (`timestamp`). */
module ChatLog {
  import opened Wrappers
  import opened Seqs
  import opened Text

  /** The seven entry types. */
  datatype LogType = UserMessage | AiResponse | ApiRequest | ApiResponse | Error | CacheHit | Fallback

  /** The `data` of an entry as `JSON.stringify` sees it: falsy (`undefined`, `null`, `0`, `''`,
      `false`), a value whose JSON text is `json`, a value on which `JSON.stringify` throws (a cycle
      or a `BigInt`), or a value it turns into `undefined` rather than text (a function, say). */
  datatype LogData = NoData | Data(json: string) | Cyclic | NoJson

  /** A value the search cannot turn into text: the stringify throws, or lower-casing its
      `undefined` throws. */
  predicate Unserialisable(d: LogData) {
    d.Cyclic? || d.NoJson?
  }

  /** One entry. `duration` is `None` when the caller gave none. */
  datatype LogEntry = LogEntry(timestamp: string, logType: LogType, sessionId: string, data: LogData,
                               duration: Option<int>)

  datatype Stats = Stats(totalMessages: nat, aiResponses: nat, apiCalls: nat, cacheHits: nat,
                         errors: nat, fallbacks: nat, avgResponseTime: int)

  function OfType(t: LogType): LogEntry -> bool {
    (e: LogEntry) => e.logType == t
  }

  /** The number of entries of type `t`. */
  function TypeCount(logs: seq<LogEntry>, t: LogType): nat {
    Count(logs, OfType(t))
  }

  /** An entry whose duration takes part in the average: present and truthy, so 0 is left out. */
  predicate Timed(e: LogEntry) {
    e.duration.Some? && e.duration.value != 0
  }

  /** The durations the average is taken over, in log order. */
  function Durations(logs: seq<LogEntry>): seq<int> {
    if logs == [] then []
    else
      var e := logs[|logs| - 1];
      Durations(logs[..|logs| - 1]) + (if Timed(e) then [e.duration.value] else [])
  }

  function SumOf(xs: seq<int>): int {
    if xs == [] then 0 else SumOf(xs[..|xs| - 1]) + xs[|xs| - 1]
  }

  /** `Math.round(sum / n)`: the integer nearest to the mean, a tie going up. */
  function RoundedMean(sum: int, n: int): (r: int)
    requires n > 0
    ensures n * (2 * r - 1) <= 2 * sum < n * (2 * r + 1)
  {
    var r := (2 * sum + n) / (2 * n);
    var m := (2 * sum + n) % (2 * n);
    assert 2 * sum + n == 2 * n * r + m && 0 <= m < 2 * n;
    assert n * (2 * r - 1) == 2 * n * r - n;
    assert n * (2 * r + 1) == 2 * n * r + n;
    r
  }

  /** Only one integer is that close to the mean. */
  lemma RoundedMeanUnique(sum: int, n: int, r': int)
    requires n > 0
    requires n * (2 * r' - 1) <= 2 * sum < n * (2 * r' + 1)
    ensures r' == RoundedMean(sum, n)
  {
    var r := RoundedMean(sum, n);
    if r' < r {
      assert n * (2 * r' + 1) <= n * (2 * r - 1) by { MulMonotone(n, 2 * r' + 1, 2 * r - 1); }
    } else if r' > r {
      assert n * (2 * r + 1) <= n * (2 * r' - 1) by { MulMonotone(n, 2 * r + 1, 2 * r' - 1); }
    }
  }

  lemma MulMonotone(n: int, a: int, b: int)
    requires n > 0 && a <= b
    ensures n * a <= n * b
  {
  }

  /** The average response time: 0 without timed entries. */
  function AverageDuration(logs: seq<LogEntry>): int {
    var d := Durations(logs);
    if |d| > 0 then RoundedMean(SumOf(d), |d|) else 0
  }

  /** Whether the entry's serialised data, lower-cased, includes `lowerQuery`. */
  predicate DataMatches(e: LogEntry, lowerQuery: string) {
    match e.data
    case NoData => Contains(Lower("{}"), lowerQuery)
    case Data(json) => Contains(Lower(json), lowerQuery)
    case Cyclic => false
    case NoJson => false
  }

  function MatchesQuery(lowerQuery: string): LogEntry -> bool {
    (e: LogEntry) => DataMatches(e, lowerQuery)
  }

  /** Whether serialising some entry's data throws, which makes the whole search answer `[]`. */
  predicate AnyUnserialisable(logs: seq<LogEntry>) {
    exists i | 0 <= i < |logs| :: Unserialisable(logs[i].data)
  }

  class ChatLogger {
    var logs: seq<LogEntry>
    const sessionId: string

    constructor(sessionId: string)
      ensures this.sessionId == sessionId && logs == []
    {
      this.sessionId := sessionId;
      logs := [];
    }

    /** `log(type, data, duration)` at the time `timestamp`. The entry is pushed first; the
        console line then stringifies `data` outside any `try`, so `threw` reports that `log`
        ends by throwing to its caller, with the entry already kept. */
    method Log(timestamp: string, logType: LogType, data: LogData, duration: Option<int>)
      returns (threw: bool)
      modifies this
      ensures logs == old(logs) + [LogEntry(timestamp, logType, sessionId, data, duration)]
      ensures threw <==> data.Cyclic?
    {
      var entry := LogEntry(timestamp, logType, sessionId, data, duration);
      logs := logs + [entry];
      threw := data.Cyclic?;
    }

    /** `getStats()`. */
    function GetStats(): (s: Stats)
      reads this
      ensures s.totalMessages == TypeCount(logs, UserMessage) && s.aiResponses == TypeCount(logs, AiResponse)
      ensures s.apiCalls == TypeCount(logs, ApiRequest) && s.cacheHits == TypeCount(logs, CacheHit)
      ensures s.errors == TypeCount(logs, Error) && s.fallbacks == TypeCount(logs, Fallback)
      ensures Durations(logs) == [] ==> s.avgResponseTime == 0
      ensures var d := Durations(logs);
        d != [] ==> |d| * (2 * s.avgResponseTime - 1) <= 2 * SumOf(d) < |d| * (2 * s.avgResponseTime + 1)
    {
      var responseTimes := Durations(logs);
      Stats(
        |Filter(logs, OfType(UserMessage))|,
        |Filter(logs, OfType(AiResponse))|,
        |Filter(logs, OfType(ApiRequest))|,
        |Filter(logs, OfType(CacheHit))|,
        |Filter(logs, OfType(Error))|,
        |Filter(logs, OfType(Fallback))|,
        if |responseTimes| > 0 then RoundedMean(SumOf(responseTimes), |responseTimes|) else 0)
    }

    /** `clearLogs()`. */
    method ClearLogs()
      modifies this
      ensures logs == []
    {
      logs := [];
    }

    /** `getRecentLogs(count = 10)`, which is `slice(-count)`. */
    function GetRecentLogs(count: int := 10): (r: seq<LogEntry>)
      reads this
      ensures count > 0 ==> r == logs[|logs| - Min(count, |logs|)..]
      ensures count == 0 ==> r == logs
      ensures count < 0 ==> r == logs[Min(-count, |logs|)..]
    {
      SliceLast(logs, count)
    }

    /** `searchLogs(query)`. */
    function SearchLogs(query: string): (r: seq<LogEntry>)
      reads this
      ensures AnyUnserialisable(logs) ==> r == []
      ensures !AnyUnserialisable(logs) ==>
        forall e :: e in r <==> e in logs && DataMatches(e, Lower(query))
      ensures IsSubsequence(r, logs)
    {
      FilterIsSubsequence(logs, MatchesQuery(Lower(query)));
      if AnyUnserialisable(logs) then [] else Filter(logs, MatchesQuery(Lower(query)))
    }
  }

  /** Logging one entry raises the counter of its type by one and leaves the other counters. */
  lemma StatsAfterLog(logs: seq<LogEntry>, e: LogEntry, t: LogType)
    ensures TypeCount(logs + [e], t) == TypeCount(logs, t) + (if e.logType == t then 1 else 0)
  {
    CountAppendOne(logs, e, OfType(t));
  }

  /** An entry without a truthy duration (none, or 0) leaves the average as it was. */
  lemma UntimedKeepsAverage(logs: seq<LogEntry>, e: LogEntry)
    requires !Timed(e)
    ensures AverageDuration(logs + [e]) == AverageDuration(logs)
  {
    DurationsSnoc(logs, e);
    assert Durations(logs + [e]) == Durations(logs);
  }

  /** Logging one entry adds its duration at the end of the list, when it is timed. */
  lemma DurationsSnoc(logs: seq<LogEntry>, e: LogEntry)
    ensures Durations(logs + [e]) == Durations(logs) + (if Timed(e) then [e.duration.value] else [])
  {
    assert (logs + [e])[..|logs|] == logs;
  }

  /** The first timed entry sets the average to its own duration. */
  lemma FirstTimedIsAverage(logs: seq<LogEntry>, e: LogEntry)
    requires Durations(logs) == [] && Timed(e)
    ensures AverageDuration(logs + [e]) == e.duration.value
  {
    var d := e.duration.value;
    DurationsSnoc(logs, e);
    assert Durations(logs + [e]) == [d];
    assert SumOf([d]) == d by { assert [d][..0] == []; }
    RoundedMeanUnique(d, 1, d);
  }

  /** Every entry is counted by exactly one of the seven types. */
  lemma {:induction false} TypeCountsAddUp(logs: seq<LogEntry>)
    ensures TypeCount(logs, UserMessage) + TypeCount(logs, AiResponse) + TypeCount(logs, ApiRequest)
          + TypeCount(logs, ApiResponse) + TypeCount(logs, Error) + TypeCount(logs, CacheHit)
          + TypeCount(logs, Fallback) == |logs|
  {
    if logs != [] {
      var init, e := logs[..|logs| - 1], logs[|logs| - 1];
      assert logs == init + [e];
      TypeCountsAddUp(init);
      StatsAfterLog(init, e, UserMessage);
      StatsAfterLog(init, e, AiResponse);
      StatsAfterLog(init, e, ApiRequest);
      StatsAfterLog(init, e, ApiResponse);
      StatsAfterLog(init, e, Error);
      StatsAfterLog(init, e, CacheHit);
      StatsAfterLog(init, e, Fallback);
    }
  }

  /** Where `createLogger` keeps the instance it made, and `getLogger` finds it. */
  class LoggerRegistry {
    var globalLogger: ChatLogger?

    constructor()
      ensures GetLogger() == null
    {
      globalLogger := null;
    }

    /** `createLogger(sessionId)`: a new, empty logger that replaces the global one. */
    method CreateLogger(sessionId: string) returns (logger: ChatLogger)
      modifies this
      ensures fresh(logger) && logger.sessionId == sessionId && logger.logs == []
      ensures GetLogger() == logger
    {
      logger := new ChatLogger(sessionId);
      globalLogger := logger;
    }

    /** `getLogger()`: the most recently created logger, or `null` before any. */
    function GetLogger(): ChatLogger?
      reads this
    {
      globalLogger
    }
  }
}
