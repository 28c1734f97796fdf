/** The application log (src/services/logService.ts): entries are kept newest
    first under one storage key, at most 1000 of them. Storage holds the parsed
    list; the clock is passed in as milliseconds and as its ISO rendering. */
module LogService {
  import opened Prelude
  import Text

  datatype LogType = Info | Success | Error
  datatype LogCategory = Sync | ProductLog | PriceLog | Stock | SystemLog

  /** What a caller hands to `addLogEntry`; `details` is optional. */
  datatype LogEntry = LogEntry(kind: LogType, category: LogCategory, message: string, details: Option<string>)

  /** The stored form: the entry plus the id and timestamp added on insertion. */
  datatype StoredLog = StoredLog(entry: LogEntry, id: string, timestamp: string)

  const MaxLogs: nat := 1000

  /** The record `addLogEntry` builds: `Date.now().toString()` as id. */
  function Stamp(entry: LogEntry, nowMs: nat, iso: string): (r: StoredLog)
    ensures r.entry == entry && r.timestamp == iso
  {
    StoredLog(entry, Text.NatStr(nowMs), iso)
  }

  /** The list after `unshift(newLog)` and the guarded `pop()`. */
  function Inserted(logs: seq<StoredLog>, newLog: StoredLog): (r: seq<StoredLog>)
    ensures |r| > 0 && r[0] == newLog
    ensures |r| == if |logs| + 1 > MaxLogs then |logs| else |logs| + 1
    ensures r[1..] == logs[..|r| - 1]
  {
    var l := [newLog] + logs;
    if |l| > MaxLogs then l[..|l| - 1] else l
  }

  /** A list that respects the bound keeps respecting it, and grows by one until
      it reaches 1000. */
  lemma InsertedLength(logs: seq<StoredLog>, newLog: StoredLog)
    requires |logs| <= MaxLogs
    ensures |Inserted(logs, newLog)| == Min(|logs| + 1, MaxLogs)
  {
  }

  /** At most one old entry is dropped, and only the oldest (the last one). */
  lemma InsertedDropsOnlyOldest(logs: seq<StoredLog>, newLog: StoredLog)
    ensures var r := Inserted(logs, newLog);
      (|r| == |logs| + 1 && r[1..] == logs)
      || (|logs| > 0 && |r| == |logs| && r[1..] == logs[..|logs| - 1])
  {
  }

  /** Two entries written in the same millisecond get the same id, also when
      the store is full and each write drops the oldest entry. */
  lemma SameMillisecondSameId(logs: seq<StoredLog>, a: LogEntry, b: LogEntry, nowMs: nat, iso: string)
    ensures var r := Inserted(Inserted(logs, Stamp(a, nowMs, iso)), Stamp(b, nowMs, iso));
      r[0].id == r[1].id && r[0].entry == b && r[1].entry == a
  {
  }

  /** The `system_logs` storage slot. `None` is a missing key. */
  class LogStore {
    var stored: Option<seq<StoredLog>>

    constructor ()
      ensures stored == None
    {
      stored := None;
    }

    /** `JSON.parse(localStorage.getItem('system_logs') || '[]')`. */
    function Logs(): (r: seq<StoredLog>)
      reads this
      ensures stored.None? ==> r == []
    {
      stored.GetOr([])
    }

    /** `addLogEntry(entry)`; the clock reading is a parameter. */
    method AddLogEntry(entry: LogEntry, nowMs: nat, iso: string)
      modifies this
      ensures stored == Some(Inserted(old(Logs()), Stamp(entry, nowMs, iso)))
      ensures Logs()[0] == StoredLog(entry, Text.NatStr(nowMs), iso)
    {
      var logs := Logs();
      var newLog := StoredLog(entry, Text.NatStr(nowMs), iso);
      logs := [newLog] + logs;
      if |logs| > MaxLogs {
        logs := logs[..|logs| - 1];
      }
      stored := Some(logs);
    }
  }
}
