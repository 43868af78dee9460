/** The log sink: a list of structured entries, capped at 1000 by evicting the
    oldest, and a tail query. The module-level `log` and `get_all_logs` helpers
    work on one shared manager, passed in here explicitly. */
module Logs {
  import opened Common

  datatype LogEntry = LogEntry(timestamp: string, source: string, level: string, message: string)

  const Capacity: nat := 1000
  const DefaultLimit: int := 100

  /** Python's `s[start:]` for an integer `start` that may be negative or past the end. */
  function PySliceFrom<T>(s: seq<T>, start: int): (r: seq<T>)
  {
    var k := if start < 0 then Max(0, |s| + start) else Min(start, |s|);
    s[k..]
  }

  /** The list after appending `e` and, if it then holds more than `Capacity`
      entries, dropping the one at index 0. */
  function Appended(logs: seq<LogEntry>, e: LogEntry): (r: seq<LogEntry>)
  {
    var grown := logs + [e];
    if |grown| > Capacity then grown[1..] else grown
  }

  /** `get_logs(limit)`: the slice `logs[-limit:]`. */
  function Tail(logs: seq<LogEntry>, limit: int): (r: seq<LogEntry>)
  {
    PySliceFrom(logs, -limit)
  }

  /** Within capacity, appending keeps the list within capacity, puts `e` last
      and keeps the most recent entries: the result is the newest
      `min(|logs| + 1, Capacity)` entries of `logs + [e]`, in their order. */
  lemma AppendedBounded(logs: seq<LogEntry>, e: LogEntry)
    requires |logs| <= Capacity
    ensures |Appended(logs, e)| == Min(|logs| + 1, Capacity)
    ensures Appended(logs, e)[|Appended(logs, e)| - 1] == e
    ensures Appended(logs, e) == (logs + [e])[|logs| + 1 - |Appended(logs, e)|..]
  {
  }

  /** Eviction removes only the oldest entry: every surviving old entry keeps
      its relative position behind the ones before it. */
  lemma AppendedEvictsOldestOnly(logs: seq<LogEntry>, e: LogEntry)
    requires |logs| == Capacity
    ensures Appended(logs, e) == logs[1..] + [e]
  {
  }

  /** For a positive limit the tail is the newest `min(limit, |logs|)` entries, newest last. */
  lemma TailPositive(logs: seq<LogEntry>, limit: int)
    requires limit >= 1
    ensures |Tail(logs, limit)| == Min(limit, |logs|)
    ensures Tail(logs, limit) == logs[|logs| - Min(limit, |logs|)..]
  {
  }

  /** `logs[-0:]` is `logs[0:]`: a limit of zero returns the whole list. */
  lemma TailZero(logs: seq<LogEntry>)
    ensures Tail(logs, 0) == logs
  {
  }

  /** A negative limit drops the first `-limit` entries instead. */
  lemma TailNegative(logs: seq<LogEntry>, limit: int)
    requires limit < 0
    ensures Tail(logs, limit) == logs[Min(-limit, |logs|)..]
  {
  }

  class LogManager {
    var logs: seq<LogEntry>

    ghost predicate Valid()
      reads this
    {
      |logs| <= Capacity
    }

    constructor ()
      ensures Valid() && logs == []
    {
      logs := [];
    }

    /** Appends one entry stamped `timestamp` (the clock reading is a parameter)
        and returns it; evicts the oldest entry when the list outgrows `Capacity`. */
    method AddLog(source: string, message: string, timestamp: string, level: string := "INFO")
      returns (entry: LogEntry)
      requires Valid()
      modifies this
      ensures Valid()
      ensures entry == LogEntry(timestamp, source, level, message)
      ensures logs == Appended(old(logs), entry)
      ensures logs[|logs| - 1] == entry
    {
      entry := LogEntry(timestamp, source, level, message);
      logs := logs + [entry];
      if |logs| > Capacity {
        logs := logs[1..];
      }
      AppendedBounded(old(logs), entry);
    }

    /** The last `limit` entries, by Python slice rules; the list is not changed. */
    method GetLogs(limit: int := DefaultLimit) returns (r: seq<LogEntry>)
      ensures r == Tail(logs, limit)
      ensures limit >= 1 ==> r == logs[|logs| - Min(limit, |logs|)..]
      ensures limit == 0 ==> r == logs
    {
      var start := -limit;
      if start < 0 {
        start := Max(0, |logs| + start);
      } else if start > |logs| {
        start := |logs|;
      }
      r := logs[start..];
    }

    method ClearLogs()
      modifies this
      ensures Valid() && logs == []
    {
      logs := [];
    }
  }

  /** `log(source, message, level)`: prints (left out) and adds exactly one entry. */
  method Log(logger: LogManager, source: string, message: string, timestamp: string, level: string := "INFO")
    requires logger.Valid()
    modifies logger
    ensures logger.Valid()
    ensures logger.logs == Appended(old(logger.logs), LogEntry(timestamp, source, level, message))
  {
    var _ := logger.AddLog(source, message, timestamp, level);
  }

  /** `get_all_logs()`: the default tail of the shared manager. */
  method GetAllLogs(logger: LogManager) returns (r: seq<LogEntry>)
    ensures r == logger.logs[|logger.logs| - Min(DefaultLimit, |logger.logs|)..]
  {
    r := logger.GetLogs();
  }
}
