/** The application log: a bounded list of time-stamped entries, newest
    last, that drops its oldest entry once it holds more than 200. */
module Logs {

  const MaxLogs: nat := 200

  /** One log line; `id` stands for the entry's UUID. */
  datatype LogEntry = LogEntry(id: nat, message: string)

  /** The stored text of an entry: the formatted timestamp, a space, the message. */
  function Stamped(timestamp: string, message: string): string {
    timestamp + " " + message
  }

  /** The log after one `add`: append, then drop the oldest entry if over capacity. */
  function Appended(logs: seq<LogEntry>, entry: LogEntry): seq<LogEntry> {
    var grown := logs + [entry];
    if |grown| > MaxLogs then grown[1..] else grown
  }

  /** The log after a series of `add`s, oldest first. */
  function AppendedAll(logs: seq<LogEntry>, entries: seq<LogEntry>): seq<LogEntry>
    decreases |entries|
  {
    if entries == [] then logs else AppendedAll(Appended(logs, entries[0]), entries[1..])
  }

  /** After `add` the log stays within capacity and ends with the new entry. */
  lemma AppendedBoundedEndsWithEntry(logs: seq<LogEntry>, entry: LogEntry)
    requires |logs| <= MaxLogs
    ensures |Appended(logs, entry)| <= MaxLogs
    ensures |Appended(logs, entry)| > 0 && Appended(logs, entry)[|Appended(logs, entry)| - 1] == entry
  {
  }

  /** Below capacity `add` is a pure append: one more entry, the rest unchanged. */
  lemma AppendedBelowCapacity(logs: seq<LogEntry>, entry: LogEntry)
    requires |logs| < MaxLogs
    ensures Appended(logs, entry) == logs + [entry]
    ensures |Appended(logs, entry)| == |logs| + 1 && Appended(logs, entry)[..|logs|] == logs
  {
  }

  /** At capacity `add` evicts exactly the single oldest entry and keeps the
      order of the others. */
  lemma AppendedAtCapacity(logs: seq<LogEntry>, entry: LogEntry)
    requires |logs| == MaxLogs
    ensures Appended(logs, entry) == logs[1..] + [entry]
    ensures |Appended(logs, entry)| == MaxLogs
  {
    assert (logs + [entry])[1..] == logs[1..] + [entry];
  }

  /** The newest (at most) `n` elements of `s`. */
  function Window<T>(s: seq<T>, n: nat): seq<T> {
    if |s| > n then s[|s| - n..] else s
  }

  /** The log is always the newest (at most) 200 of everything added: a sliding window. */
  lemma {:induction false} AppendedAllIsWindow(logs: seq<LogEntry>, entries: seq<LogEntry>)
    requires |logs| <= MaxLogs
    ensures AppendedAll(logs, entries) == Window(logs + entries, MaxLogs)
    decreases |entries|
  {
    var all := logs + entries;
    if entries == [] {
      assert all == logs;
      assert Window(logs, MaxLogs) == logs;
    } else {
      var next := Appended(logs, entries[0]);
      var rest := entries[1..];
      assert AppendedAll(logs, entries) == AppendedAll(next, rest);
      AppendedAllIsWindow(next, rest);
      var grown := logs + [entries[0]];
      if |grown| > MaxLogs {
        assert next + rest == all[1..] by {
          assert all == grown + rest;
          assert next == grown[1..];
        }
        WindowOfTail(all, MaxLogs);
      } else {
        assert next + rest == all by {
          assert next == grown;
          assert all == grown + rest;
        }
      }
    }
  }

  /** Dropping the oldest entry first does not change a window that already
      excludes it. */
  lemma WindowOfTail<T>(all: seq<T>, n: nat)
    requires n < |all|
    ensures Window(all[1..], n) == Window(all, n)
  {
    var tail := all[1..];
    if |tail| > n {
      assert tail[|tail| - n..] == all[|all| - n..];
    } else {
      assert tail == all[|all| - n..];
    }
  }

  class LogStore {
    var logs: seq<LogEntry>

    ghost predicate Valid()
      reads this
    {
      |logs| <= MaxLogs
    }

    constructor ()
      ensures Valid() && logs == []
    {
      logs := [];
    }

    /** `add(log:)`: the entry is stamped, appended, and the oldest entry is
        removed once the count exceeds the capacity. `add` is the only
        operation of the store that changes `logs`. */
    method Add(message: string, timestamp: string, id: nat)
      requires Valid()
      modifies this
      ensures Valid()
      ensures logs == Appended(old(logs), LogEntry(id, Stamped(timestamp, message)))
    {
      var newLog := LogEntry(id, timestamp + " " + message);
      logs := logs + [newLog];
      if |logs| > MaxLogs {
        logs := logs[1..];
      }
    }
  }
}
