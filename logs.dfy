/**
 * The logs page: splitting the log list into the server and client panes,
 * the per-entry and per-terminal-line styling, the text export, and the
 * page's toggles and polling interval. The DOM, the AJAX calls and the
 * HTML escaping are left out; timestamps are rendered by parameters.
 */
module Logs {
  import opened Wrappers
  import opened Text

  /** A log entry as `/api/logs` returns it. */
  datatype LogEntry = LogEntry(timestamp: string, level: string, source: string, message: string, testId: Option<string>)

  /** `log.test_id` is truthy. */
  predicate HasTestId(log: LogEntry) {
    log.testId.Some? && log.testId.value != ""
  }

  // ---------------------------------------------------------------------------
  // displayLogs

  predicate IsServerLog(log: LogEntry) { log.source == "SERVER" || log.source == "SYSTEM" }

  predicate IsClientLog(log: LogEntry) { log.source == "CLIENT" || log.source == "TEST" }

  /** `logs.filter(keep)`. */
  function Filter(logs: seq<LogEntry>, keep: LogEntry -> bool): (r: seq<LogEntry>)
    ensures |r| <= |logs|
    ensures forall i :: 0 <= i < |r| ==> keep(r[i]) && r[i] in logs
    decreases |logs|
  {
    if logs == [] then []
    else Filter(logs[..|logs| - 1], keep) + (if keep(logs[|logs| - 1]) then [logs[|logs| - 1]] else [])
  }

  /** Filtering a concatenation filters each part in turn: the kept entries stay in their order. */
  lemma {:induction false} FilterAppend(a: seq<LogEntry>, b: seq<LogEntry>, keep: LogEntry -> bool)
    ensures Filter(a + b, keep) == Filter(a, keep) + Filter(b, keep)
    decreases |b|
  {
    if b == [] {
      assert a + b == a;
    } else {
      var init := b[..|b| - 1];
      assert (a + b)[..|a + b| - 1] == a + init;
      assert (a + b)[|a + b| - 1] == b[|b| - 1];
      FilterAppend(a, init, keep);
    }
  }

  /** Every entry that passes is kept. */
  lemma {:induction false} FilterKeepsAll(logs: seq<LogEntry>, keep: LogEntry -> bool, i: nat)
    requires i < |logs| && keep(logs[i])
    ensures logs[i] in Filter(logs, keep)
    decreases |logs|
  {
    if i < |logs| - 1 {
      FilterKeepsAll(logs[..|logs| - 1], keep, i);
    }
  }

  /** The three panes `displayLogs` fills: server and client entries, and every entry for the terminal. */
  datatype Panes = Panes(serverLogs: seq<LogEntry>, clientLogs: seq<LogEntry>, terminalLogs: seq<LogEntry>)

  function DisplayLogs(logs: seq<LogEntry>): Panes {
    Panes(Filter(logs, IsServerLog), Filter(logs, IsClientLog), logs)
  }

  /**
   * An entry reaches the server pane exactly when its source is SERVER or
   * SYSTEM and the client pane exactly when it is CLIENT or TEST, so no entry
   * is in both; the terminal gets the whole list.
   */
  lemma PanesMeaning(logs: seq<LogEntry>, log: LogEntry)
    requires log in logs
    ensures log in DisplayLogs(logs).serverLogs <==> IsServerLog(log)
    ensures log in DisplayLogs(logs).clientLogs <==> IsClientLog(log)
    ensures !(log in DisplayLogs(logs).serverLogs && log in DisplayLogs(logs).clientLogs)
    ensures DisplayLogs(logs).terminalLogs == logs
  {
    var i :| 0 <= i < |logs| && logs[i] == log;
    if IsServerLog(log) {
      FilterKeepsAll(logs, IsServerLog, i);
    }
    if IsClientLog(log) {
      FilterKeepsAll(logs, IsClientLog, i);
    }
  }

  // ---------------------------------------------------------------------------
  // createLogEntry

  /** The colour class and icon of a level. */
  datatype LevelStyle = LevelStyle(colour: string, icon: string)

  const DefaultStyle := LevelStyle("text-gray-300", "•")

  function StyleOf(level: string): (s: LevelStyle)
    ensures s == DefaultStyle <==> level != "ERROR" && level != "SUCCESS" && level != "INFO"
  {
    if level == "ERROR" then LevelStyle("text-red-400", "✗")
    else if level == "SUCCESS" then LevelStyle("text-green-400", "✓")
    else if level == "INFO" then LevelStyle("text-blue-400", "ℹ")
    else DefaultStyle
  }

  /** What one entry of a pane shows. */
  datatype EntryView = EntryView(style: LevelStyle, time: string, level: string, source: string, testTag: Option<string>, message: string)

  /** `test_id.slice(-8)`: the last eight characters, or all of a shorter id. */
  function LastEight(s: string): (r: string)
    ensures |r| == if |s| < 8 then |s| else 8
    ensures EndsWith(s, r)
  {
    if |s| < 8 then s else s[|s| - 8..]
  }

  /** `createLogEntry`; `timeLabel` stands for `toLocaleTimeString` of the timestamp. */
  function EntryViewOf(log: LogEntry, timeLabel: string -> string): (v: EntryView)
    ensures v.testTag.Some? <==> HasTestId(log)
    ensures v.testTag.Some? ==> EndsWith(log.testId.value, v.testTag.value)
    ensures v.style == StyleOf(log.level)
  {
    EntryView(StyleOf(log.level), timeLabel(log.timestamp), log.level, log.source,
      if HasTestId(log) then Some(LastEight(log.testId.value)) else None, log.message)
  }

  // ---------------------------------------------------------------------------
  // updateTerminalLogContainer

  const TerminalBase := "whitespace-pre-wrap break-all mb-1"

  /** The class of a terminal line: API markers in the message first, then the banner, then the level. */
  function TerminalClass(log: LogEntry): string {
    TerminalBase + (
      if Contains(log.message, "[API CALL]") then " text-blue-400 font-bold"
      else if Contains(log.message, "[API PAYLOAD]") then " text-purple-400 pl-4"
      else if Contains(log.message, "[API RESPONSE]") then " text-green-400 pl-4"
      else if Contains(log.message, "============") then " text-gray-500"
      else if log.level == "ERROR" then " text-red-400"
      else if log.level == "SUCCESS" then " text-green-400"
      else " text-gray-300")
  }

  /** The message with the JSON after `marker` re-indented; unchanged when there is none or it does not parse. */
  function Reindented(message: string, marker: string, reindent: string -> Option<string>): (r: string)
    requires |marker| > 0
    ensures r == message || StartsWith(r, marker)
  {
    var parts := Split(message, marker);
    if |parts| < 2 then message
    else match reindent(parts[1])
      case Some(text) =>
        assert (marker + text)[..|marker|] == marker;
        marker + text
      case None => message
  }

  /**
   * The text of a terminal line. A payload line, and a response line carrying
   * "JSON Response:", has its JSON re-indented (the source rewrites the
   * entry's message in place); `reindent` stands for parse-then-stringify.
   */
  function TerminalText(log: LogEntry, reindent: string -> Option<string>): (r: string)
    ensures !Contains(log.message, "[API PAYLOAD]") && !Contains(log.message, "[API RESPONSE]") ==> r == log.message
  {
    if Contains(log.message, "[API CALL]") then log.message
    else if Contains(log.message, "[API PAYLOAD]") then Reindented(log.message, "[API PAYLOAD] ", reindent)
    else if Contains(log.message, "[API RESPONSE]") && Contains(log.message, "JSON Response:") then
      Reindented(log.message, "[API RESPONSE] ", reindent)
    else log.message
  }

  /** An API call line is always blue and bold, whatever else its message says. */
  lemma ApiCallWins(log: LogEntry)
    requires Contains(log.message, "[API CALL]")
    ensures TerminalClass(log) == TerminalBase + " text-blue-400 font-bold"
    ensures TerminalText(log, _ => None) == log.message
  {
  }

  /** The level colours a terminal line only when its message carries no marker. */
  lemma LevelColoursPlainLines(log: LogEntry)
    requires !Contains(log.message, "[API CALL]") && !Contains(log.message, "[API PAYLOAD]")
    requires !Contains(log.message, "[API RESPONSE]") && !Contains(log.message, "============")
    ensures log.level == "ERROR" ==> TerminalClass(log) == TerminalBase + " text-red-400"
    ensures log.level == "SUCCESS" ==> TerminalClass(log) == TerminalBase + " text-green-400"
    ensures log.level != "ERROR" && log.level != "SUCCESS" ==> TerminalClass(log) == TerminalBase + " text-gray-300"
  {
  }

  // ---------------------------------------------------------------------------
  // exportLogs

  /** One line of the export; `iso` stands for `new Date(ts).toISOString()`. */
  function ExportLine(log: LogEntry, iso: string -> string): string {
    LineHead(log, iso) + (if HasTestId(log) then " [TEST: " + log.testId.value + "]" else "") + " " + log.message + "\n"
  }

  /** "[timestamp] [LEVEL] [SOURCE]". */
  function LineHead(log: LogEntry, iso: string -> string): string {
    "[" + iso(log.timestamp) + "] [" + log.level + "] [" + log.source + "]"
  }

  /**
   * A line starts with the timestamp, level and source in brackets and ends
   * with a space, the message and a newline; the test tag sits between them
   * exactly when the entry has a test id.
   */
  lemma ExportLineShape(log: LogEntry, iso: string -> string)
    ensures var line := ExportLine(log, iso);
      && StartsWith(line, LineHead(log, iso))
      && EndsWith(line, " " + log.message + "\n")
      && (HasTestId(log) ==> line == LineHead(log, iso) + " [TEST: " + log.testId.value + "]" + " " + log.message + "\n")
      && (!HasTestId(log) ==> line == LineHead(log, iso) + " " + log.message + "\n")
  {
    var head := LineHead(log, iso);
    var tag := if HasTestId(log) then " [TEST: " + log.testId.value + "]" else "";
    var tail := " " + log.message + "\n";
    assert ExportLine(log, iso) == head + tag + tail;
    assert (head + tag + tail)[..|head|] == head;
    assert (head + tag + tail)[|head + tag + tail| - |tail|..] == tail;
  }

  /** The lines of the export, one per entry in list order. */
  function ExportBody(logs: seq<LogEntry>, iso: string -> string): string
    decreases |logs|
  {
    if logs == [] then "" else ExportBody(logs[..|logs| - 1], iso) + ExportLine(logs[|logs| - 1], iso)
  }

  /** The export lists two runs of entries one after the other. */
  lemma {:induction false} ExportBodyAppend(a: seq<LogEntry>, b: seq<LogEntry>, iso: string -> string)
    ensures ExportBody(a + b, iso) == ExportBody(a, iso) + ExportBody(b, iso)
    decreases |b|
  {
    if b == [] {
      assert a + b == a;
    } else {
      var init := b[..|b| - 1];
      var last := ExportLine(b[|b| - 1], iso);
      assert (a + b)[..|a + b| - 1] == a + init;
      assert (a + b)[|a + b| - 1] == b[|b| - 1];
      assert ExportBody(a + b, iso) == ExportBody(a + init, iso) + last;
      ExportBodyAppend(a, init, iso);
      Associative(ExportBody(a, iso), ExportBody(init, iso), last);
    }
  }

  /** The header: title, rule and export time, then the count line. */
  function ExportHeader(count: nat, exportedAt: string): string {
    "cyperf-ce Test Logs Export\n" + "================================\n"
      + "Exported at: " + exportedAt + "\n" + CountLine(count)
  }

  /** The last header line and the blank line after it. */
  function CountLine(count: nat): string {
    "Total logs: " + NatToString(count) + "\n\n"
  }

  /** `exportLogs`: the header, then one line per entry appended with `+=`. */
  method ExportLogs(logs: seq<LogEntry>, exportedAt: string, iso: string -> string) returns (text: string)
    ensures text == ExportHeader(|logs|, exportedAt) + ExportBody(logs, iso)
  {
    var header := ExportHeader(|logs|, exportedAt);
    text := header;
    for i := 0 to |logs|
      invariant text == header + ExportBody(logs[..i], iso)
    {
      TextGrows(header, logs, i, iso);
      text := text + ExportLine(logs[i], iso);
    }
    assert logs[..|logs|] == logs;
  }

  /** Appending the next line to the text extends the exported prefix by one entry. */
  lemma TextGrows(header: string, logs: seq<LogEntry>, i: nat, iso: string -> string)
    requires i < |logs|
    ensures header + ExportBody(logs[..i + 1], iso) == header + ExportBody(logs[..i], iso) + ExportLine(logs[i], iso)
  {
    assert logs[..i + 1][..i] == logs[..i];
    Associative(header, ExportBody(logs[..i], iso), ExportLine(logs[i], iso));
  }

  /** The count line reads back as the number of entries exported: the digits between its label and the blank line. */
  lemma ExportCountReadsBack(count: nat)
    ensures var line := CountLine(count);
      && StartsWith(line, "Total logs: ") && EndsWith(line, "\n\n")
      && AllDigits(line[12..|line| - 2])
      && DigitsValue(line[12..|line| - 2]) == count
  {
    var digits := NatToString(count);
    var line := CountLine(count);
    assert line[12..|line| - 2] == digits;
    NatToStringValue(count);
  }

  // ---------------------------------------------------------------------------
  // The page's state

  /** `autoScroll`, `liveUpdates`, `logUpdateInterval` and the auto-scroll button label. */
  class LogsPage {
    var autoScroll: bool
    var liveUpdates: bool
    var logUpdateInterval: Option<nat>
    var autoScrollText: string
    /** The log intervals the browser is running. */
    var running: set<nat>
    /** The next handle `setInterval` gives out. */
    var nextHandle: nat

    /** Every running interval is the one held in `logUpdateInterval`; handles are never reused. */
    ghost predicate Valid()
      reads this
    {
      && (forall h :: h in running ==> logUpdateInterval == Some(h))
      && (forall h :: h in running ==> h < nextHandle)
      && (logUpdateInterval.Some? ==> logUpdateInterval.value < nextHandle)
    }

    constructor ()
      ensures Valid() && autoScroll && liveUpdates && logUpdateInterval.None? && running == {}
    {
      autoScroll := true;
      liveUpdates := true;
      logUpdateInterval := None;
      autoScrollText := "";
      running := {};
      nextHandle := 1;
    }

    /** `startLogUpdates`: the previous interval is cleared before the new one is installed. */
    method StartLogUpdates()
      requires Valid()
      modifies this`logUpdateInterval, this`running, this`nextHandle
      ensures Valid()
      ensures logUpdateInterval.Some? && logUpdateInterval.value !in old(running)
      ensures running == {logUpdateInterval.value}
    {
      if logUpdateInterval.Some? {
        running := running - {logUpdateInterval.value};
      }
      assert running == {};
      var handle := nextHandle;
      nextHandle := nextHandle + 1;
      running := running + {handle};
      logUpdateInterval := Some(handle);
    }

    /** The page's load handler: `initializeLogs` starts the updates and the handler starts them again; one interval runs. */
    method OnLoad()
      requires Valid()
      modifies this`logUpdateInterval, this`running, this`nextHandle
      ensures Valid()
      ensures liveUpdates == old(liveUpdates)
      ensures logUpdateInterval.Some? && running == {logUpdateInterval.value}
    {
      if liveUpdates {
        StartLogUpdates();
      }
      StartLogUpdates();
    }

    /** `toggleAutoScroll`: the flag flips and the label shows its new value. */
    method ToggleAutoScroll()
      modifies this`autoScroll, this`autoScrollText
      ensures autoScroll == !old(autoScroll)
      ensures autoScrollText == "Auto Scroll: " + (if autoScroll then "ON" else "OFF")
    {
      autoScroll := !autoScroll;
      autoScrollText := "Auto Scroll: " + (if autoScroll then "ON" else "OFF");
    }

    /** `toggleLiveUpdates`: turning on restarts the updates; turning off clears the interval and its handle. */
    method ToggleLiveUpdates()
      requires Valid()
      modifies this`liveUpdates, this`logUpdateInterval, this`running, this`nextHandle
      ensures Valid()
      ensures liveUpdates == !old(liveUpdates)
      ensures liveUpdates ==> logUpdateInterval.Some? && running == {logUpdateInterval.value}
      ensures !liveUpdates ==> logUpdateInterval.None? && running == {}
    {
      liveUpdates := !liveUpdates;
      if liveUpdates {
        StartLogUpdates();
      } else {
        if logUpdateInterval.Some? {
          running := running - {logUpdateInterval.value};
          logUpdateInterval := None;
        }
        assert running == {};
      }
    }
  }

  /** The toggle label names the state it shows: ON exactly when auto-scroll is on. */
  lemma AutoScrollLabel(on: bool)
    ensures ("Auto Scroll: " + (if on then "ON" else "OFF") == "Auto Scroll: ON") <==> on
  {
    if !on {
      assert ("Auto Scroll: " + "OFF")[14] == 'F';
    }
  }
}
