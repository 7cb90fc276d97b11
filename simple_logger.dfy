/** The simplified logger the chat actually uses (src/utils/simpleLogger.ts): entry types are free
    strings, the statistics count five of them and never compute an average, and there is no
    search. Console output, `localStorage` and `window` are left out. */
module SimpleLog {
  import opened Wrappers
  import opened Seqs
  import ChatLog

  /** One entry; `data` is as in the full logger. */
  datatype SimpleEntry = SimpleEntry(timestamp: string, logType: string, sessionId: string,
                                     data: ChatLog.LogData, duration: Option<int>)

  /** No fallback counter, and an average that is always 0. */
  datatype SimpleStats = SimpleStats(totalMessages: nat, aiResponses: nat, apiCalls: nat, cacheHits: nat,
                                     errors: nat, avgResponseTime: int)

  function OfType(t: string): SimpleEntry -> bool {
    (e: SimpleEntry) => e.logType == t
  }

  /** The number of entries whose type is exactly `t`. */
  function TypeCount(logs: seq<SimpleEntry>, t: string): nat {
    Count(logs, OfType(t))
  }

  /** The five types the statistics count. */
  predicate Counted(t: string) {
    t == "user_message" || t == "ai_response" || t == "api_request" || t == "cache_hit" || t == "error"
  }

  class SimpleLogger {
    var logs: seq<SimpleEntry>
    const sessionId: string

    constructor(sessionId: string)
      ensures this.sessionId == sessionId && logs == []
    {
      this.sessionId := sessionId;
      logs := [];
    }

    /** `log(type, data, duration)` at the time `timestamp`. */
    method Log(timestamp: string, logType: string, data: ChatLog.LogData, duration: Option<int>)
      modifies this
      ensures logs == old(logs) + [SimpleEntry(timestamp, logType, sessionId, data, duration)]
    {
      var entry := SimpleEntry(timestamp, logType, sessionId, data, duration);
      logs := logs + [entry];
    }

    /** `getStats()`. */
    function GetStats(): (s: SimpleStats)
      reads this
      ensures s.totalMessages == TypeCount(logs, "user_message") && s.aiResponses == TypeCount(logs, "ai_response")
      ensures s.apiCalls == TypeCount(logs, "api_request") && s.cacheHits == TypeCount(logs, "cache_hit")
      ensures s.errors == TypeCount(logs, "error")
      ensures s.avgResponseTime == 0
    {
      SimpleStats(
        |Filter(logs, OfType("user_message"))|,
        |Filter(logs, OfType("ai_response"))|,
        |Filter(logs, OfType("api_request"))|,
        |Filter(logs, OfType("cache_hit"))|,
        |Filter(logs, OfType("error"))|,
        0)
    }

    /** `clearLogs()`. */
    method ClearLogs()
      modifies this
      ensures logs == []
    {
      logs := [];
    }

    /** `getRecentLogs(count = 10)`, which is `slice(-count)`. */
    function GetRecentLogs(count: int := 10): (r: seq<SimpleEntry>)
      reads this
      ensures count > 0 ==> r == logs[|logs| - Min(count, |logs|)..]
      ensures count == 0 ==> r == logs
      ensures count < 0 ==> r == logs[Min(-count, |logs|)..]
    {
      SliceLast(logs, count)
    }
  }

  /** The statistics of a list of entries, as `getStats` computes them. */
  function StatsOf(logs: seq<SimpleEntry>): SimpleStats {
    SimpleStats(TypeCount(logs, "user_message"), TypeCount(logs, "ai_response"), TypeCount(logs, "api_request"),
                TypeCount(logs, "cache_hit"), TypeCount(logs, "error"), 0)
  }

  /** Logging an entry of an uncounted type ('semantic_search', 'fallback', 'api_response', …)
      leaves the statistics unchanged; a counted type raises its own counter by one. */
  lemma StatsAfterLog(logs: seq<SimpleEntry>, e: SimpleEntry)
    ensures !Counted(e.logType) ==> StatsOf(logs + [e]) == StatsOf(logs)
    ensures Counted(e.logType) ==> TypeCount(logs + [e], e.logType) == TypeCount(logs, e.logType) + 1
  {
    CountAppendOne(logs, e, OfType("user_message"));
    CountAppendOne(logs, e, OfType("ai_response"));
    CountAppendOne(logs, e, OfType("api_request"));
    CountAppendOne(logs, e, OfType("cache_hit"));
    CountAppendOne(logs, e, OfType("error"));
  }

  /** Where `createSimpleLogger` keeps the instance it made, and `getSimpleLogger` finds it. */
  class SimpleLoggerRegistry {
    var globalLogger: SimpleLogger?

    constructor()
      ensures GetSimpleLogger() == null
    {
      globalLogger := null;
    }

    /** `createSimpleLogger(sessionId)`: a new, empty logger that replaces the global one. */
    method CreateSimpleLogger(sessionId: string) returns (logger: SimpleLogger)
      modifies this
      ensures fresh(logger) && logger.sessionId == sessionId && logger.logs == []
      ensures GetSimpleLogger() == logger
    {
      logger := new SimpleLogger(sessionId);
      globalLogger := logger;
    }

    /** `getSimpleLogger()`: the most recently created logger, or `null` before any. */
    function GetSimpleLogger(): SimpleLogger?
      reads this
    {
      globalLogger
    }
  }
}
