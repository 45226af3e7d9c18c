/// The terminal UI's in-memory log: a bounded buffer of log entries that
/// drops the oldest entry when full, and the logger that feeds it.
module Logger {

  /// `MAX_LOG_LINES`.
  const MaxLogLines: nat := 50_000

  datatype LogEntry = LogEntry(timestamp: string, level: string, target: string, message: string)

  /// `LogEntry::format`: "[timestamp] level target: message".
  function Format(e: LogEntry): (r: string)
    ensures |r| == |e.timestamp| + |e.level| + |e.target| + |e.message| + 6
    ensures r[..|e.timestamp| + 2] == "[" + e.timestamp + "]"
    ensures r[|r| - |e.message| - 2..] == ": " + e.message
  {
    "[" + e.timestamp + "] " + e.level + " " + e.target + ": " + e.message
  }

  /// Every entry formatted, in order.
  function FormatAll(es: seq<LogEntry>): (r: seq<string>)
    ensures |r| == |es| && forall i :: 0 <= i < |es| ==> r[i] == Format(es[i])
  {
    seq(|es|, i requires 0 <= i < |es| => Format(es[i]))
  }

  /// The last `n` entries of `s` (all of them when there are fewer).
  function Last<T>(s: seq<T>, n: nat): (r: seq<T>)
    ensures |r| == if |s| < n then |s| else n
  {
    if |s| <= n then s else s[|s| - n..]
  }

  /// What the buffer holds after one entry is added: the oldest entry goes
  /// first when the buffer is full.
  function Added(logs: seq<LogEntry>, e: LogEntry): seq<LogEntry> {
    (if |logs| >= MaxLogLines then logs[1..] else logs) + [e]
  }

  /// Adding to a buffer within the bound keeps exactly the newest
  /// `MaxLogLines` entries.
  lemma AddedKeepsNewest(logs: seq<LogEntry>, e: LogEntry)
    requires |logs| <= MaxLogLines
    ensures Added(logs, e) == Last(logs + [e], MaxLogLines)
    ensures |Added(logs, e)| <= MaxLogLines
  {
    if |logs| >= MaxLogLines {
      assert logs[1..] + [e] == (logs + [e])[|logs + [e]| - MaxLogLines..];
    }
  }

  /// Entries added one after the other.
  function AddedAll(logs: seq<LogEntry>, es: seq<LogEntry>): seq<LogEntry>
    decreases |es|
  {
    if es == [] then logs else AddedAll(Added(logs, es[0]), es[1..])
  }

  /// However many entries are logged, the buffer holds the newest
  /// `MaxLogLines` of everything logged, oldest first.
  lemma {:induction false} AddedAllKeepsNewest(logs: seq<LogEntry>, es: seq<LogEntry>)
    requires |logs| <= MaxLogLines
    ensures AddedAll(logs, es) == Last(logs + es, MaxLogLines)
    ensures |AddedAll(logs, es)| <= MaxLogLines
    decreases |es|
  {
    if es == [] {
      assert logs + es == logs;
    } else {
      AddedKeepsNewest(logs, es[0]);
      AddedAllKeepsNewest(Added(logs, es[0]), es[1..]);
      var rest := es[1..];
      assert logs + es == (logs + [es[0]]) + rest;
      LastConcat(logs + [es[0]], rest, MaxLogLines);
    }
  }

  /// Only the newest `n` entries of a prefix can survive in the newest `n`
  /// of the whole.
  lemma {:induction false} LastConcat<T>(s: seq<T>, t: seq<T>, n: nat)
    ensures Last(Last(s, n) + t, n) == Last(s + t, n)
  {
    if |s| > n {
      var k := |s| - n;
      assert s + t == s[..k] + (s[k..] + t);
    }
  }

  datatype Level = Error | Warn | Info | Debug | Trace

  /// The level's display text.
  function LevelName(l: Level): string {
    match l
    case Error => "ERROR"
    case Warn => "WARN"
    case Info => "INFO"
    case Debug => "DEBUG"
    case Trace => "TRACE"
  }

  /// The severity rank behind the level order: smaller is more severe.
  function Rank(l: Level): nat {
    match l
    case Error => 1
    case Warn => 2
    case Info => 3
    case Debug => 4
    case Trace => 5
  }

  /// `BufferedLogger::enabled`: the level is at most `Debug` in the
  /// severity order, so only trace records are dropped.
  function Enabled(l: Level): (r: bool)
    ensures r <==> l != Trace
  {
    Rank(l) <= Rank(Debug)
  }

  /// `LogBuffer`: the entries, oldest first.
  class LogBuffer {
    var logs: seq<LogEntry>

    ghost predicate Valid()
      reads this
    {
      |logs| <= MaxLogLines
    }

    constructor ()
      ensures Valid() && logs == []
    {
      logs := [];
    }

    /// `add_log`: drop the oldest entry when full, then append.
    method AddLog(entry: LogEntry)
      requires Valid()
      modifies this
      ensures Valid()
      ensures logs == Added(old(logs), entry)
    {
      if |logs| >= MaxLogLines {
        logs := logs[1..];
      }
      logs := logs + [entry];
    }

    /// `get_logs`: every entry formatted, oldest first.
    method GetLogs() returns (r: seq<string>)
      ensures r == FormatAll(logs)
    {
      r := [];
      for i := 0 to |logs|
        invariant r == FormatAll(logs[..i])
      {
        assert logs[..i + 1] == logs[..i] + [logs[i]];
        r := r + [Format(logs[i])];
      }
      assert logs[..|logs|] == logs;
    }

    /// `get_recent_logs`: the newest `count` entries formatted, oldest first.
    method GetRecentLogs(count: nat) returns (r: seq<string>)
      ensures r == FormatAll(Last(logs, count))
    {
      var start := if |logs| >= count then |logs| - count else 0;
      r := [];
      for i := start to |logs|
        invariant r == FormatAll(logs[start..i])
      {
        assert logs[start..i + 1] == logs[start..i] + [logs[i]];
        r := r + [Format(logs[i])];
      }
      assert logs[start..|logs|] == Last(logs, count);
    }
  }

  /// `BufferedLogger::log`: an enabled record becomes an entry stamped with
  /// the given local time text; a trace record is dropped.
  method Log(buffer: LogBuffer, level: Level, target: string, message: string, timestamp: string)
    requires buffer.Valid()
    modifies buffer
    ensures buffer.Valid()
    ensures Enabled(level) ==> buffer.logs == Added(old(buffer.logs), LogEntry(timestamp, LevelName(level), target, message))
    ensures !Enabled(level) ==> buffer.logs == old(buffer.logs)
  {
    if Enabled(level) {
      buffer.AddLog(LogEntry(timestamp, LevelName(level), target, message));
    }
  }
}
