/**
 * The enum-singleton `Logger`: an append-only list of formatted entries
 * that can be counted, cleared, filtered by level and exported as text.
 * The formatted clock reading is a parameter of every call that reads it.
 */
module Logging {
  import opened Numbers
  import Text

  const EXPORT_HEADER := "=== FINTECH TRANSACTION LOG EXPORT ===\n"

  /** One entry, "[timestamp] [LEVEL] message". */
  function Entry(timestamp: string, level: string, message: string): (e: string)
    ensures |e| > |message| && e[0] == '['
    ensures e[|e| - |message|..] == message
  {
    "[" + timestamp + "] " + Tag(level) + " " + message
  }

  /** The marker `getLogsByLevel` searches for, "[LEVEL]". */
  function Tag(level: string): (t: string)
    ensures |t| == |level| + 2 && t[0] == '[' && t[|t| - 1] == ']'
  {
    "[" + level + "]"
  }

  /** The message `logTransaction` logs. */
  function TransactionMessage(transactionId: string, kind: string, amount: real, status: string): (m: string)
    ensures "Transaction[ID=" <= m && m[|m| - 1] == ']'
  {
    "Transaction[ID=" + transactionId + ", Type=" + kind + ", Amount=₹" + Fmt2(amount)
      + ", Status=" + status + "]"
  }

  /** The entries of `entries` that contain `marker`, in their original order. */
  function Matching(entries: seq<string>, marker: string): (r: seq<string>)
    ensures |r| <= |entries|
    decreases |entries|
  {
    if entries == [] then []
    else
      var rest := Matching(entries[..|entries| - 1], marker);
      if Text.Contains(entries[|entries| - 1], marker) then rest + [entries[|entries| - 1]] else rest
  }

  /** Filtering one log then another is filtering both together: the order of entries is kept. */
  lemma {:induction false} MatchingAppend(a: seq<string>, b: seq<string>, marker: string)
    ensures Matching(a + b, marker) == Matching(a, marker) + Matching(b, marker)
    decreases |b|
  {
    if b == [] {
      assert a + b == a;
    } else {
      var b' := b[..|b| - 1];
      assert (a + b)[..|a + b| - 1] == a + b';
      MatchingAppend(a, b', marker);
    }
  }

  /** An entry is kept exactly when it is in the log and contains the marker. */
  lemma {:induction false} MatchingMembers(entries: seq<string>, marker: string, e: string)
    ensures e in Matching(entries, marker) <==> e in entries && Text.Contains(e, marker)
    decreases |entries|
  {
    if entries != [] {
      var init := entries[..|entries| - 1];
      MatchingMembers(init, marker, e);
      assert entries == init + [entries[|entries| - 1]];
    }
  }

  /** Each entry followed by a newline, in order. */
  function Lines(entries: seq<string>): string
    decreases |entries|
  {
    if entries == [] then ""
    else Lines(entries[..|entries| - 1]) + entries[|entries| - 1] + "\n"
  }

  /** The lines of a log split anywhere are the lines of the two parts, one after the other. */
  lemma {:induction false} LinesAppend(a: seq<string>, b: seq<string>)
    ensures Lines(a + b) == Lines(a) + Lines(b)
    decreases |b|
  {
    if b == [] {
      assert a + b == a;
    } else {
      var b' := b[..|b| - 1];
      assert (a + b)[..|a + b| - 1] == a + b';
      LinesAppend(a, b');
    }
  }

  /** Every entry appears in the export as a line of its own, between the lines before and after it. */
  lemma EntryIsALine(before: seq<string>, e: string, after: seq<string>)
    ensures Lines(before + [e] + after) == Lines(before) + e + "\n" + Lines(after)
  {
    LinesAppend(before + [e], after);
    assert (before + [e])[..|before + [e]| - 1] == before;
  }

  /** `exportLogs()`: header, export time, entry count, a blank line, then one line per entry. */
  function ExportText(exportTime: string, entries: seq<string>): (r: string)
    ensures EXPORT_HEADER <= r
    ensures |Lines(entries)| <= |r| && r[|r| - |Lines(entries)|..] == Lines(entries)
  {
    EXPORT_HEADER + "Export Time: " + exportTime + "\n"
      + "Total Entries: " + NatToString(|entries|) + "\n\n" + Lines(entries)
  }

  /** `Logger`. */
  class Logger {
    var logEntries: seq<string>

    constructor()
      ensures logEntries == []
    {
      logEntries := [];
    }

    /** `log`: one formatted entry appended at the end. */
    method Log(timestamp: string, level: string, message: string)
      modifies this
      ensures logEntries == old(logEntries) + [Entry(timestamp, level, message)]
    {
      logEntries := logEntries + [Entry(timestamp, level, message)];
    }

    method Info(timestamp: string, message: string)
      modifies this
      ensures logEntries == old(logEntries) + [Entry(timestamp, "INFO", message)]
    {
      Log(timestamp, "INFO", message);
    }

    method Warn(timestamp: string, message: string)
      modifies this
      ensures logEntries == old(logEntries) + [Entry(timestamp, "WARN", message)]
    {
      Log(timestamp, "WARN", message);
    }

    method Error(timestamp: string, message: string)
      modifies this
      ensures logEntries == old(logEntries) + [Entry(timestamp, "ERROR", message)]
    {
      Log(timestamp, "ERROR", message);
    }

    method LogTransaction(timestamp: string, transactionId: string, kind: string, amount: real, status: string)
      modifies this
      ensures logEntries == old(logEntries)
                            + [Entry(timestamp, "TRANSACTION", TransactionMessage(transactionId, kind, amount, status))]
    {
      Log(timestamp, "TRANSACTION", TransactionMessage(transactionId, kind, amount, status));
    }

    /** `getLogCount()`. */
    function GetLogCount(): (n: nat)
      reads this
      ensures n == |logEntries|
    {
      |logEntries|
    }

    /** `clearLogs()`: the log is empty afterwards; the count it reports is the number removed. */
    method ClearLogs() returns (cleared: nat)
      modifies this
      ensures logEntries == []
      ensures cleared == |old(logEntries)|
    {
      cleared := |logEntries|;
      logEntries := [];
    }

    /** `getLogsByLevel(level)`: a scan that keeps every entry containing "[level]". */
    method GetLogsByLevel(level: string) returns (filtered: seq<string>)
      ensures filtered == Matching(logEntries, Tag(level))
    {
      filtered := [];
      var i := 0;
      while i < |logEntries|
        invariant 0 <= i <= |logEntries|
        invariant filtered == Matching(logEntries[..i], Tag(level))
      {
        assert logEntries[..i + 1][..i] == logEntries[..i];
        if Text.Contains(logEntries[i], Tag(level)) {
          filtered := filtered + [logEntries[i]];
        }
        i := i + 1;
      }
      assert logEntries[..i] == logEntries;
    }

    /** `exportLogs()`, with the formatted export time as a parameter. */
    method ExportLogs(exportTime: string) returns (text: string)
      ensures text == ExportText(exportTime, logEntries)
    {
      var sb := EXPORT_HEADER + "Export Time: " + exportTime + "\n";
      sb := sb + "Total Entries: " + NatToString(|logEntries|) + "\n\n";
      var prefix := sb;
      var i := 0;
      while i < |logEntries|
        invariant 0 <= i <= |logEntries|
        invariant sb == prefix + Lines(logEntries[..i])
      {
        assert logEntries[..i + 1][..i] == logEntries[..i];
        sb := sb + logEntries[i] + "\n";
        i := i + 1;
      }
      assert logEntries[..i] == logEntries;
      text := sb;
    }
  }

  /** An entry logged at a level is found when filtering by that level. */
  lemma LoggedEntryMatchesOwnLevel(timestamp: string, level: string, message: string)
    ensures Text.Contains(Entry(timestamp, level, message), Tag(level))
  {
    Text.ContainsInfix("[" + timestamp + "] ", Tag(level), " " + message);
    assert "[" + timestamp + "] " + Tag(level) + " " + message
        == ("[" + timestamp + "] ") + Tag(level) + (" " + message);
  }

  /**
   * The filter is a substring match: an entry of any level whose message
   * mentions "[LEVEL]" is returned for that level as well.
   */
  lemma MessageMentionMatches(timestamp: string, level: string, message: string, other: string)
    requires Text.Contains(message, Tag(other))
    ensures Text.Contains(Entry(timestamp, level, message), Tag(other))
  {
    Text.ContainsWithin("[" + timestamp + "] " + Tag(level) + " ", message, "", Tag(other));
    assert "[" + timestamp + "] " + Tag(level) + " " + message + "" == Entry(timestamp, level, message);
  }

  /** Logging then filtering by the same level yields the earlier matches followed by the new entry. */
  method LogThenFilter(logger: Logger, timestamp: string, level: string, message: string)
      returns (filtered: seq<string>)
    modifies logger
    ensures logger.logEntries == old(logger.logEntries) + [Entry(timestamp, level, message)]
    ensures filtered == Matching(old(logger.logEntries), Tag(level)) + [Entry(timestamp, level, message)]
  {
    logger.Log(timestamp, level, message);
    LoggedEntryMatchesOwnLevel(timestamp, level, message);
    filtered := logger.GetLogsByLevel(level);
  }
}
