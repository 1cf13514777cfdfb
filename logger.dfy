/**
 * The frontend's logging utility: an in-memory buffer of the most recent log
 * entries, capped at 1000, fed by one method per level. Console output, the
 * development/production switch and the analytics hook only print or do
 * nothing, so the model keeps the buffer alone. The clock reading
 * (`new Date().toISOString()`) is a parameter.
 */
module FrontendLogger {
  import opened Wrappers

  datatype LogLevel = Debug | Info | Warn | Error

  /** A log record. The optional `data` payload is kept as its printed form. */
  datatype LogEntry = LogEntry(timestamp: string, level: LogLevel, component: string, message: string,
                               data: Option<string>)

  /** `maxLogs`: how many entries the buffer keeps. */
  const MaxLogs: nat := 1000

  /** The buffer after `push(entry)` followed, when it has grown past `cap`, by one
      `shift()`. */
  function Pushed(logs: seq<LogEntry>, entry: LogEntry, cap: nat): seq<LogEntry> {
    var grown := logs + [entry];
    if |grown| > cap then grown[1..] else grown
  }

  /** A push keeps the buffer within the cap, the new entry last. Below the cap it only
      appends; at the cap it drops exactly the oldest entry and keeps the rest in order. */
  lemma PushedSpec(logs: seq<LogEntry>, entry: LogEntry, cap: nat)
    requires 0 < cap && |logs| <= cap
    ensures var r := Pushed(logs, entry, cap);
      && |r| <= cap && |r| > 0 && r[|r| - 1] == entry
      && (|logs| < cap ==> r == logs + [entry])
      && (|logs| == cap ==> r == logs[1..] + [entry])
  {
    if |logs| == cap {
      assert (logs + [entry])[1..] == logs[1..] + [entry];
    }
  }

  /** The last `MaxLogs` entries of `all`, or all of them when there are fewer. */
  function Recent(all: seq<LogEntry>): (r: seq<LogEntry>)
    ensures |r| <= MaxLogs
  {
    if |all| <= MaxLogs then all else all[|all| - MaxLogs..]
  }

  /** Pushing onto the recent entries of a history gives the recent entries of the longer
      history: the buffer always holds the newest entries logged, oldest first. */
  lemma PushedKeepsRecent(all: seq<LogEntry>, entry: LogEntry)
    ensures Pushed(Recent(all), entry, MaxLogs) == Recent(all + [entry])
  {
    var longer := all + [entry];
    if |all| >= MaxLogs {
      var kept := all[|all| - MaxLogs..];
      assert (kept + [entry])[1..] == longer[|longer| - MaxLogs..];
    }
  }

  /** `getEmoji`: the console marker of each level. The `default` branch of the switch
      cannot be reached by a typed level. */
  function Emoji(level: LogLevel): string {
    match level
    case Debug => "\U{1F50D}"
    case Info => "\U{2139}\U{FE0F}"
    case Warn => "\U{26A0}\U{FE0F}"
    case Error => "\U{274C}"
  }

  /** Every level has its own marker. */
  lemma EmojiDistinct(a: LogLevel, b: LogLevel)
    requires a != b
    ensures Emoji(a) != Emoji(b)
  {
    assert Emoji(a)[0] != Emoji(b)[0];
  }

  class Logger {
    /** The buffer, oldest entry first. */
    var logs: seq<LogEntry>
    const maxLogs: nat
    /** Every entry logged since the logger was created or last cleared. */
    ghost var history: seq<LogEntry>

    ghost predicate Valid()
      reads this
    {
      maxLogs == MaxLogs && logs == Recent(history)
    }

    constructor()
      ensures Valid() && logs == [] && history == []
    {
      logs := [];
      maxLogs := MaxLogs;
      history := [];
    }

    /** `log`: builds the entry, pushes it, and shifts out the oldest entry once the buffer
        is over the cap. */
    method Log(level: LogLevel, component: string, message: string, data: Option<string>, now: string)
      requires Valid()
      modifies this
      ensures Valid()
      ensures var entry := LogEntry(now, level, component, message, data);
        && logs == Pushed(old(logs), entry, maxLogs)
        && history == old(history) + [entry]
      ensures |logs| <= maxLogs && |logs| > 0
      ensures logs[|logs| - 1] == LogEntry(now, level, component, message, data)
    {
      var entry := LogEntry(now, level, component, message, data);
      PushedKeepsRecent(history, entry);
      PushedSpec(logs, entry, maxLogs);
      logs := logs + [entry];
      if |logs| > maxLogs {
        logs := logs[1..];
      }
      history := history + [entry];
    }

    method LogDebug(component: string, message: string, data: Option<string>, now: string)
      requires Valid()
      modifies this
      ensures Valid()
      ensures logs == Pushed(old(logs), LogEntry(now, Debug, component, message, data), maxLogs)
    {
      Log(Debug, component, message, data, now);
    }

    method LogInfo(component: string, message: string, data: Option<string>, now: string)
      requires Valid()
      modifies this
      ensures Valid()
      ensures logs == Pushed(old(logs), LogEntry(now, Info, component, message, data), maxLogs)
    {
      Log(Info, component, message, data, now);
    }

    method LogWarn(component: string, message: string, data: Option<string>, now: string)
      requires Valid()
      modifies this
      ensures Valid()
      ensures logs == Pushed(old(logs), LogEntry(now, Warn, component, message, data), maxLogs)
    {
      Log(Warn, component, message, data, now);
    }

    method LogError(component: string, message: string, data: Option<string>, now: string)
      requires Valid()
      modifies this
      ensures Valid()
      ensures logs == Pushed(old(logs), LogEntry(now, Error, component, message, data), maxLogs)
    {
      Log(Error, component, message, data, now);
    }

    /** `getLogs`: a new array holding the buffer; writing to it cannot reach the logger. */
    method GetLogs() returns (copy: array<LogEntry>)
      ensures fresh(copy) && copy[..] == logs
    {
      copy := new LogEntry[|logs|](i requires 0 <= i < |logs| reads this => logs[i]);
    }

    /** `clearLogs`. */
    method ClearLogs()
      requires Valid()
      modifies this
      ensures Valid() && logs == [] && history == []
    {
      logs := [];
      history := [];
    }
  }
}
