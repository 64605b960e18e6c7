/**
 * The FastAPI service that drives the cyperf binary over SSH: the shell
 * commands `start_server` and `start_client` assemble from their parameters,
 * the `active_tests` registry and its "not found" errors, the PID read back
 * from a `ps` listing, and the `ALLOWED_KEYS` column filter applied before a
 * stats table is drawn. The SSH connection is a sink that records each
 * command with its host; the `ps` output and the CSV files read over SFTP
 * are parameters.
 */
module CyperfService {
  import opened Wrappers
  import opened Text
  import opened Values

  /** A request's `params.dict()`: pydantic fields, all scalars. */
  type Params = map<string, Scalar>

  /** `params.get(key)` is truthy. */
  predicate Given(params: Params, key: string) {
    key in params && PyTruthy(params[key])
  }

  // ---------------------------------------------------------------------------
  // Command-line options

  /** A command-line option: a bare switch, or a flag followed by the parameter's `str()`. */
  datatype Flag = Switch(name: string, key: string) | Valued(name: string, key: string)

  /** What a command says about one option. */
  datatype Setting = Off | On | Value(v: string)

  /** The options of the server command, in the order they are appended. */
  const ServerFlags: seq<Flag> := [
    Switch("--cps", "cps"),
    Valued("--port", "port"),
    Valued("--length", "length"),
    Switch("--csv-stats", "csv_stats")]

  /** The options of the client command, in the order they are appended; `bidi` is spelt "--bidir". */
  const ClientFlags: seq<Flag> := [
    Switch("--cps", "cps"),
    Valued("--port", "port"),
    Valued("--length", "length"),
    Valued("--time", "time"),
    Valued("--bitrate", "bitrate"),
    Valued("--parallel", "parallel"),
    Switch("--reverse", "reverse"),
    Switch("--bidir", "bidi"),
    Valued("--interval", "interval"),
    Switch("--csv-stats", "csv_stats")]

  /** The option is present exactly when its parameter is truthy. */
  function SettingOf(flag: Flag, params: Params): Setting {
    if !Given(params, flag.key) then Off
    else if flag.Switch? then On
    else Value(PyStr(params[flag.key]))
  }

  function SettingsOf(flags: seq<Flag>, params: Params): (r: seq<Setting>)
    ensures |r| == |flags|
    ensures forall i :: 0 <= i < |flags| ==> r[i] == SettingOf(flags[i], params)
  {
    seq(|flags|, i requires 0 <= i < |flags| => SettingOf(flags[i], params))
  }

  /** A switch carries no value, a valued flag carries one. */
  predicate Fits(flags: seq<Flag>, settings: seq<Setting>) {
    && |flags| == |settings|
    && forall i :: 0 <= i < |flags| ==> (settings[i].On? ==> flags[i].Switch?) && (settings[i].Value? ==> flags[i].Valued?)
  }

  /** The shell words one option contributes. */
  function FlagWords(flag: Flag, setting: Setting): seq<string> {
    match setting
    case Off => []
    case On => [flag.name]
    case Value(v) => [flag.name, v]
  }

  /** The shell words of all options, in order. */
  function AllFlagWords(flags: seq<Flag>, settings: seq<Setting>): seq<string>
    requires |flags| == |settings|
    decreases |flags|
  {
    if |flags| == 0 then [] else FlagWords(flags[0], settings[0]) + AllFlagWords(flags[1..], settings[1..])
  }

  lemma {:induction false} AllFlagWordsAppend(f1: seq<Flag>, s1: seq<Setting>, f2: seq<Flag>, s2: seq<Setting>)
    requires |f1| == |s1| && |f2| == |s2|
    ensures AllFlagWords(f1 + f2, s1 + s2) == AllFlagWords(f1, s1) + AllFlagWords(f2, s2)
    decreases |f1|
  {
    if |f1| == 0 {
      assert f1 + f2 == f2 && s1 + s2 == s2;
    } else {
      assert (f1 + f2)[1..] == f1[1..] + f2;
      assert (s1 + s2)[1..] == s1[1..] + s2;
      AllFlagWordsAppend(f1[1..], s1[1..], f2, s2);
    }
  }

  /** One more option extends the words of the ones before it. */
  lemma AllFlagWordsStep(flags: seq<Flag>, settings: seq<Setting>, k: nat)
    requires |flags| == |settings| && k < |flags|
    ensures AllFlagWords(flags[..k + 1], settings[..k + 1])
      == AllFlagWords(flags[..k], settings[..k]) + FlagWords(flags[k], settings[k])
  {
    assert flags[..k + 1] == flags[..k] + [flags[k]];
    assert settings[..k + 1] == settings[..k] + [settings[k]];
    AllFlagWordsAppend(flags[..k], settings[..k], [flags[k]], [settings[k]]);
    assert AllFlagWords([flags[k]], [settings[k]]) == FlagWords(flags[k], settings[k]) + AllFlagWords([], []);
  }

  /**
   * Reads the options back from shell words, in the given order: a flag's
   * name marks it present, and a valued flag takes the next word. Returns
   * the settings and the words after the options.
   */
  function ReadFlags(flags: seq<Flag>, words: seq<string>): (r: (seq<Setting>, seq<string>))
    ensures |r.0| == |flags|
    decreases |flags|
  {
    if |flags| == 0 then ([], words)
    else
      var f := flags[0];
      if f.Switch? && |words| > 0 && words[0] == f.name then
        var rest := ReadFlags(flags[1..], words[1..]);
        ([On] + rest.0, rest.1)
      else if f.Valued? && |words| > 1 && words[0] == f.name then
        var rest := ReadFlags(flags[1..], words[2..]);
        ([Value(words[1])] + rest.0, rest.1)
      else
        var rest := ReadFlags(flags[1..], words);
        ([Off] + rest.0, rest.1)
  }

  /** Option names are pairwise distinct and differ from the word that follows the options. */
  predicate Unambiguous(flags: seq<Flag>, next: string) {
    && (forall i, j :: 0 <= i < j < |flags| ==> flags[i].name != flags[j].name)
    && (forall i :: 0 <= i < |flags| ==> flags[i].name != next)
  }

  /** When an option is absent, the word in its place is not its name. */
  lemma {:induction false} FirstWordNot(flags: seq<Flag>, settings: seq<Setting>, tail: seq<string>, name: string)
    requires |flags| == |settings| && |tail| >= 1 && tail[0] != name
    requires forall j :: 0 <= j < |flags| ==> flags[j].name != name
    ensures |AllFlagWords(flags, settings) + tail| >= 1
    ensures (AllFlagWords(flags, settings) + tail)[0] != name
    decreases |flags|
  {
    if |flags| > 0 && settings[0].Off? {
      FirstWordNot(flags[1..], settings[1..], tail, name);
    }
  }

  lemma UnambiguousRest(flags: seq<Flag>, next: string)
    requires |flags| >= 1 && Unambiguous(flags, next)
    ensures Unambiguous(flags[1..], next)
    ensures forall j :: 0 <= j < |flags[1..]| ==> flags[1..][j].name != flags[0].name
  {
    forall j | 0 <= j < |flags[1..]|
      ensures flags[1..][j].name != flags[0].name
    {
      assert flags[1..][j] == flags[j + 1];
    }
  }

  /** One step of `ReadFlags`: the first option's words, then whatever the rest reads back. */
  lemma ReadFlagsFirst(flags: seq<Flag>, s0: Setting, later: seq<string>, rest: seq<Setting>, tail: seq<string>)
    requires |flags| >= 1 && Fits([flags[0]], [s0])
    requires ReadFlags(flags[1..], later) == (rest, tail)
    requires s0.Off? ==> |later| >= 1 && later[0] != flags[0].name
    ensures ReadFlags(flags, FlagWords(flags[0], s0) + later) == ([s0] + rest, tail)
  {
    assert [s0][0] == s0;
    var words := FlagWords(flags[0], s0) + later;
    match s0
    case Off =>
      assert words == later;
    case On =>
      assert words[1..] == later;
    case Value(v) =>
      assert words[2..] == later;
  }

  /** Reading the words of the options gives back every setting and leaves the rest of the words. */
  lemma {:induction false} ReadFlagsRoundTrip(flags: seq<Flag>, settings: seq<Setting>, tail: seq<string>)
    requires Fits(flags, settings) && |tail| >= 1
    requires Unambiguous(flags, tail[0])
    ensures ReadFlags(flags, AllFlagWords(flags, settings) + tail) == (settings, tail)
    decreases |flags|
  {
    if |flags| == 0 {
      assert AllFlagWords(flags, settings) + tail == tail;
    } else {
      var first := FlagWords(flags[0], settings[0]);
      var later := AllFlagWords(flags[1..], settings[1..]) + tail;
      UnambiguousRest(flags, tail[0]);
      assert Fits(flags[1..], settings[1..]);
      assert Fits([flags[0]], [settings[0]]);
      ReadFlagsRoundTrip(flags[1..], settings[1..], tail);
      if settings[0].Off? {
        FirstWordNot(flags[1..], settings[1..], tail, flags[0].name);
      }
      ReadFlagsFirst(flags, settings[0], later, settings[1..], tail);
      Associative(first, AllFlagWords(flags[1..], settings[1..]), tail);
      assert [settings[0]] + settings[1..] == settings;
    }
  }

  // ---------------------------------------------------------------------------
  // The two commands

  /** "nohup sudo cyperf -s" as shell words. */
  const ServerHead: seq<string> := ["nohup", "sudo", "cyperf", "-s"]

  /** "nohup sudo cyperf -c" as shell words. */
  const ClientPrefix: seq<string> := ["nohup", "sudo", "cyperf", "-c"]

  /** "nohup sudo cyperf -c {server_ip}" as shell words. */
  function ClientHead(serverIp: string): seq<string> {
    ClientPrefix + [serverIp]
  }

  function ServerCsv(testId: string): string { testId + "_server.csv" }
  function ServerLog(testId: string): string { testId + "_server.log" }
  function ClientCsv(testId: string): string { testId + "_client.csv" }
  function ClientLog(testId: string): string { testId + "_client.log" }

  /** The end of both commands: the CSV file argument, the log redirect and the background `&`. */
  function OutputWords(csv: string, log: string): seq<string> {
    [csv, ">", log, "2>&1", "&"]
  }

  /** The words of the server command. */
  function ServerWords(testId: string, params: Params): seq<string> {
    ServerHead + AllFlagWords(ServerFlags, SettingsOf(ServerFlags, params)) + OutputWords(ServerCsv(testId), ServerLog(testId))
  }

  /** The words of the client command. */
  function ClientWords(testId: string, serverIp: string, params: Params): seq<string> {
    ClientHead(serverIp) + AllFlagWords(ClientFlags, SettingsOf(ClientFlags, params)) + OutputWords(ClientCsv(testId), ClientLog(testId))
  }

  /** The server command line: its words separated by single spaces. */
  function ServerCommand(testId: string, params: Params): string {
    Join(ServerWords(testId, params), " ")
  }

  /** The client command line: its words separated by single spaces. */
  function ClientCommand(testId: string, serverIp: string, params: Params): string {
    Join(ClientWords(testId, serverIp, params), " ")
  }

  /** The text one option appends to the command line. */
  function OptionText(flag: Flag, setting: Setting): string {
    match setting
    case Off => ""
    case On => " " + flag.name
    case Value(v) => " " + flag.name + " " + v
  }

  /** Appending an option's text to the line extends its words by the option's words. */
  lemma JoinOption(words: seq<string>, flag: Flag, setting: Setting)
    requires |words| >= 1
    ensures Join(words + FlagWords(flag, setting), " ") == Join(words, " ") + OptionText(flag, setting)
  {
    match setting
    case Off =>
      assert words + [] == words;
    case On =>
      JoinSwitch(words, flag.name);
    case Value(v) =>
      JoinValued(words, flag.name, v);
  }

  lemma JoinSwitch(words: seq<string>, name: string)
    requires |words| >= 1
    ensures Join(words + [name], " ") == Join(words, " ") + (" " + name)
  {
    JoinSnoc(words, name, " ");
    Associative(Join(words, " "), " ", name);
  }

  lemma JoinValued(words: seq<string>, name: string, v: string)
    requires |words| >= 1
    ensures Join(words + [name, v], " ") == Join(words, " ") + (" " + name + " " + v)
  {
    var j := Join(words, " ");
    JoinSwitch(words, name);
    JoinSwitch(words + [name], v);
    assert words + [name] + [v] == words + [name, v];
    Associative(j, " " + name, " " + v);
    Associative(" " + name, " ", v);
  }

  /** The text of the output words. */
  lemma OutputText(csv: string, log: string)
    ensures Join(OutputWords(csv, log), " ") == csv + " > " + log + " 2>&1 &"
  {
    var w := OutputWords(csv, log);
    assert w[1..] == [">", log, "2>&1", "&"];
    assert w[1..][1..] == [log, "2>&1", "&"];
    assert w[1..][1..][1..] == ["2>&1", "&"];
    assert w[1..][1..][1..][1..] == ["&"];
    var redirect := "2>&1" + " " + "&";
    assert Join(w[1..][1..][1..], " ") == redirect;
    assert redirect == "2>&1 &";
    var afterLog := log + " " + redirect;
    assert Join(w[1..][1..], " ") == afterLog;
    assert Join(w, " ") == csv + " " + (">" + " " + afterLog);
    assert " " + (">" + " " + afterLog) == " > " + afterLog;
    assert " > " + (log + " " + redirect) == " > " + log + " 2>&1 &";
  }

  /** Appending the output part to the line extends its words by the output words. */
  lemma Finish(words: seq<string>, csv: string, log: string)
    requires |words| >= 1
    ensures Join(words + OutputWords(csv, log), " ") == Join(words, " ") + " " + csv + " > " + log + " 2>&1 &"
  {
    JoinAppend(words, OutputWords(csv, log), " ");
    OutputText(csv, log);
    var j := Join(words, " ");
    Associative(j + " ", csv + " > " + log, " 2>&1 &");
    Associative(j + " ", csv + " > ", log);
    Associative(j + " ", csv, " > ");
  }

  lemma ServerHeadText()
    ensures Join(ServerHead, " ") == "nohup sudo cyperf -s"
  {
    var h := ServerHead;
    assert h[1..] == ["sudo", "cyperf", "-s"] && h[1..][1..] == ["cyperf", "-s"] && h[1..][1..][1..] == ["-s"];
    assert Join(h[1..][1..], " ") == "cyperf" + " " + "-s";
    assert Join(h[1..], " ") == "sudo" + " " + ("cyperf" + " " + "-s");
  }

  lemma ClientHeadText(serverIp: string)
    ensures Join(ClientHead(serverIp), " ") == "nohup sudo cyperf -c " + serverIp
  {
    var h := ClientHead(serverIp);
    assert h[1..] == ["sudo", "cyperf", "-c", serverIp] && h[1..][1..] == ["cyperf", "-c", serverIp];
    assert h[1..][1..][1..] == ["-c", serverIp] && h[1..][1..][1..][1..] == [serverIp];
    var t := "-c" + " " + serverIp;
    assert Join(h[1..][1..][1..], " ") == t;
    assert Join(h[1..][1..], " ") == "cyperf" + " " + t;
    assert Join(h[1..], " ") == "sudo" + " " + ("cyperf" + " " + t);
    assert Join(h, " ") == "nohup" + " " + ("sudo" + " " + ("cyperf" + " " + t));
    assert "nohup" + " " + ("sudo" + " " + ("cyperf" + " " + t)) == "nohup sudo cyperf " + t;
    assert "-c" + " " == "-c ";
    Associative("nohup sudo cyperf ", "-c ", serverIp);
  }

  /** The words of the first `k` options, built up one option at a time. */
  function WordsUpTo(flags: seq<Flag>, settings: seq<Setting>, k: nat): seq<string>
    requires |flags| == |settings| && k <= |flags|
    decreases k
  {
    if k == 0 then [] else WordsUpTo(flags, settings, k - 1) + FlagWords(flags[k - 1], settings[k - 1])
  }

  lemma {:induction false} WordsUpToAll(flags: seq<Flag>, settings: seq<Setting>, k: nat)
    requires |flags| == |settings| && k <= |flags|
    ensures WordsUpTo(flags, settings, k) == AllFlagWords(flags[..k], settings[..k])
    decreases k
  {
    if k > 0 {
      WordsUpToAll(flags, settings, k - 1);
      AllFlagWordsStep(flags, settings, k - 1);
    }
  }

  /** The line so far is the head and the words of the first `k` options, joined. */
  ghost predicate Built(flags: seq<Flag>, settings: seq<Setting>, head: seq<string>, k: nat, command: string) {
    && |flags| == |settings| && k <= |flags| && |head| >= 1
    && command == Join(head + WordsUpTo(flags, settings, k), " ")
  }

  lemma BuiltStep(flags: seq<Flag>, settings: seq<Setting>, head: seq<string>, k: nat, command: string)
    requires Built(flags, settings, head, k, command) && k < |flags|
    ensures Built(flags, settings, head, k + 1, command + OptionText(flags[k], settings[k]))
  {
    var words := head + WordsUpTo(flags, settings, k);
    Associative(head, WordsUpTo(flags, settings, k), FlagWords(flags[k], settings[k]));
    JoinOption(words, flags[k], settings[k]);
  }

  lemma BuiltDone(flags: seq<Flag>, settings: seq<Setting>, head: seq<string>, command: string, csv: string, log: string)
    requires Built(flags, settings, head, |flags|, command)
    ensures command + " " + csv + " > " + log + " 2>&1 &" == Join(head + AllFlagWords(flags, settings) + OutputWords(csv, log), " ")
  {
    WordsUpToAll(flags, settings, |flags|);
    assert flags[..|flags|] == flags && settings[..|settings|] == settings;
    Finish(head + AllFlagWords(flags, settings), csv, log);
  }

  lemma BuiltStart(flags: seq<Flag>, settings: seq<Setting>, head: seq<string>, command: string)
    requires |flags| == |settings| && |head| >= 1 && command == Join(head, " ")
    ensures Built(flags, settings, head, 0, command)
  {
    assert head + WordsUpTo(flags, settings, 0) == head;
  }

  /** `if params.get(key): command += ...` for the `k`-th option. */
  method AddOption(command: string, flags: seq<Flag>, k: nat, params: Params, ghost head: seq<string>) returns (r: string)
    requires k < |flags| && Built(flags, SettingsOf(flags, params), head, k, command)
    ensures Built(flags, SettingsOf(flags, params), head, k + 1, r)
  {
    BuiltStep(flags, SettingsOf(flags, params), head, k, command);
    var flag := flags[k];
    r := command;
    if Given(params, flag.key) {
      if flag.Switch? {
        r := r + (" " + flag.name);
      } else {
        r := r + (" " + flag.name + " " + PyStr(params[flag.key]));
      }
    }
  }

  /**
   * `start_server`'s command: "nohup sudo cyperf -s", then each option whose
   * parameter is truthy, in a fixed order, then the CSV file and the log redirect.
   */
  method BuildServerCommand(testId: string, params: Params) returns (command: string)
    ensures command == ServerCommand(testId, params)
  {
    ghost var settings := SettingsOf(ServerFlags, params);
    ghost var head := ServerHead;
    command := "nohup sudo cyperf -s";
    ServerHeadText();
    BuiltStart(ServerFlags, settings, head, command);
    command := AddOption(command, ServerFlags, 0, params, head);
    command := AddOption(command, ServerFlags, 1, params, head);
    command := AddOption(command, ServerFlags, 2, params, head);
    command := AddOption(command, ServerFlags, 3, params, head);
    BuiltDone(ServerFlags, settings, head, command, ServerCsv(testId), ServerLog(testId));
    command := command + " " + ServerCsv(testId) + " > " + ServerLog(testId) + " 2>&1 &";
  }

  /**
   * `start_client`'s command: "nohup sudo cyperf -c" and the server address,
   * then each option whose parameter is truthy, in a fixed order, then the
   * CSV file and the log redirect.
   */
  method BuildClientCommand(testId: string, serverIp: string, params: Params) returns (command: string)
    ensures command == ClientCommand(testId, serverIp, params)
  {
    ghost var settings := SettingsOf(ClientFlags, params);
    ghost var head := ClientHead(serverIp);
    command := "nohup sudo cyperf -c " + serverIp;
    ClientHeadText(serverIp);
    BuiltStart(ClientFlags, settings, head, command);
    command := AddOption(command, ClientFlags, 0, params, head);
    command := AddOption(command, ClientFlags, 1, params, head);
    command := AddOption(command, ClientFlags, 2, params, head);
    command := AddOption(command, ClientFlags, 3, params, head);
    command := AddOption(command, ClientFlags, 4, params, head);
    command := AddOption(command, ClientFlags, 5, params, head);
    command := AddOption(command, ClientFlags, 6, params, head);
    command := AddOption(command, ClientFlags, 7, params, head);
    command := AddOption(command, ClientFlags, 8, params, head);
    command := AddOption(command, ClientFlags, 9, params, head);
    BuiltDone(ClientFlags, settings, head, command, ClientCsv(testId), ClientLog(testId));
    command := command + " " + ClientCsv(testId) + " > " + ClientLog(testId) + " 2>&1 &";
  }

  // ---------------------------------------------------------------------------
  // Reading a command back

  /**
   * Reads the options and the output part: the settings, then "<id><csv>",
   * ">", "<id><log>", "2>&1", "&" and nothing more. Returns the test id and
   * the settings.
   */
  function ReadTail(flags: seq<Flag>, csvSuffix: string, logSuffix: string, words: seq<string>): Option<(string, seq<Setting>)> {
    var (settings, rest) := ReadFlags(flags, words);
    if |rest| == 5 && EndsWith(rest[0], csvSuffix) then
      var id := rest[0][..|rest[0]| - |csvSuffix|];
      if rest == OutputWords(id + csvSuffix, id + logSuffix) then Some((id, settings)) else None
    else None
  }

  /** Reads a server command's words: the test id and the option settings. */
  function ReadServerCommand(words: seq<string>): Option<(string, seq<Setting>)> {
    if |words| >= 4 && words[..4] == ServerHead then ReadTail(ServerFlags, "_server.csv", "_server.log", words[4..])
    else None
  }

  /** Reads a client command's words: the test id, the server address and the option settings. */
  function ReadClientCommand(words: seq<string>): Option<(string, string, seq<Setting>)> {
    if |words| >= 5 && words[..4] == ClientPrefix then
      var tail := ReadTail(ClientFlags, "_client.csv", "_client.log", words[5..]);
      if tail.Some? then Some((tail.value.0, words[4], tail.value.1)) else None
    else None
  }

  /** An option name: it starts with '-', has at most eleven characters and no space. */
  predicate DashName(name: string) {
    1 <= |name| <= 11 && name[0] == '-' && ' ' !in name
  }

  predicate DashNames(flags: seq<Flag>) {
    forall i :: 0 <= i < |flags| ==> DashName(flags[i].name)
  }

  /** The first five option names are option names; split from `LaterNames` to keep each case analysis small. */
  lemma FirstNames(name: string)
    requires name in ["--cps", "--port", "--length", "--time", "--bitrate"]
    ensures DashName(name)
  {
  }

  /** The other five option names are option names. */
  lemma LaterNames(name: string)
    requires name in ["--parallel", "--reverse", "--bidir", "--interval", "--csv-stats"]
    ensures DashName(name)
  {
  }

  /** Option names are pairwise distinct. */
  predicate DistinctNames(flags: seq<Flag>) {
    forall i, j :: 0 <= i < j < |flags| ==> flags[i].name != flags[j].name
  }

  lemma ServerFlagsNames()
    ensures DashNames(ServerFlags) && DistinctNames(ServerFlags)
  {
    forall i | 0 <= i < |ServerFlags|
      ensures DashName(ServerFlags[i].name)
    {
      if i < 3 {
        FirstNames(ServerFlags[i].name);
      } else {
        LaterNames(ServerFlags[i].name);
      }
    }
    // The four names have four different lengths.
    assert |ServerFlags[0].name| != |ServerFlags[1].name|;
    assert |ServerFlags[0].name| != |ServerFlags[2].name|;
    assert |ServerFlags[0].name| != |ServerFlags[3].name|;
    assert |ServerFlags[1].name| != |ServerFlags[2].name|;
    assert |ServerFlags[1].name| != |ServerFlags[3].name|;
    assert |ServerFlags[2].name| != |ServerFlags[3].name|;
  }

  lemma ClientFlagsNames()
    ensures DashNames(ClientFlags) && DistinctNames(ClientFlags)
  {
    ClientFlagsDash();
    // Each pair differs in length or in one character.
    assert |ClientFlags[0].name| != |ClientFlags[1].name|;
    assert |ClientFlags[0].name| != |ClientFlags[2].name|;
    assert |ClientFlags[0].name| != |ClientFlags[3].name|;
    assert |ClientFlags[0].name| != |ClientFlags[4].name|;
    assert |ClientFlags[0].name| != |ClientFlags[5].name|;
    assert |ClientFlags[0].name| != |ClientFlags[6].name|;
    assert |ClientFlags[0].name| != |ClientFlags[7].name|;
    assert |ClientFlags[0].name| != |ClientFlags[8].name|;
    assert |ClientFlags[0].name| != |ClientFlags[9].name|;
    assert |ClientFlags[1].name| != |ClientFlags[2].name|;
    assert ClientFlags[1].name[2] != ClientFlags[3].name[2];
    assert |ClientFlags[1].name| != |ClientFlags[4].name|;
    assert |ClientFlags[1].name| != |ClientFlags[5].name|;
    assert |ClientFlags[1].name| != |ClientFlags[6].name|;
    assert |ClientFlags[1].name| != |ClientFlags[7].name|;
    assert |ClientFlags[1].name| != |ClientFlags[8].name|;
    assert |ClientFlags[1].name| != |ClientFlags[9].name|;
    assert |ClientFlags[2].name| != |ClientFlags[3].name|;
    assert |ClientFlags[2].name| != |ClientFlags[4].name|;
    assert |ClientFlags[2].name| != |ClientFlags[5].name|;
    assert |ClientFlags[2].name| != |ClientFlags[6].name|;
    assert |ClientFlags[2].name| != |ClientFlags[7].name|;
    assert |ClientFlags[2].name| != |ClientFlags[8].name|;
    assert |ClientFlags[2].name| != |ClientFlags[9].name|;
    assert |ClientFlags[3].name| != |ClientFlags[4].name|;
    assert |ClientFlags[3].name| != |ClientFlags[5].name|;
    assert |ClientFlags[3].name| != |ClientFlags[6].name|;
    assert |ClientFlags[3].name| != |ClientFlags[7].name|;
    assert |ClientFlags[3].name| != |ClientFlags[8].name|;
    assert |ClientFlags[3].name| != |ClientFlags[9].name|;
    assert |ClientFlags[4].name| != |ClientFlags[5].name|;
    assert ClientFlags[4].name[2] != ClientFlags[6].name[2];
    assert |ClientFlags[4].name| != |ClientFlags[7].name|;
    assert |ClientFlags[4].name| != |ClientFlags[8].name|;
    assert |ClientFlags[4].name| != |ClientFlags[9].name|;
    assert |ClientFlags[5].name| != |ClientFlags[6].name|;
    assert |ClientFlags[5].name| != |ClientFlags[7].name|;
    assert ClientFlags[5].name[2] != ClientFlags[8].name[2];
    assert |ClientFlags[5].name| != |ClientFlags[9].name|;
    assert |ClientFlags[6].name| != |ClientFlags[7].name|;
    assert |ClientFlags[6].name| != |ClientFlags[8].name|;
    assert |ClientFlags[6].name| != |ClientFlags[9].name|;
    assert |ClientFlags[7].name| != |ClientFlags[8].name|;
    assert |ClientFlags[7].name| != |ClientFlags[9].name|;
    assert |ClientFlags[8].name| != |ClientFlags[9].name|;
  }

  lemma ClientFlagsDash()
    ensures DashNames(ClientFlags)
  {
    forall i | 0 <= i < |ClientFlags|
      ensures DashName(ClientFlags[i].name)
    {
      if i < 5 {
        FirstNames(ClientFlags[i].name);
      } else {
        LaterNames(ClientFlags[i].name);
      }
    }
  }

  /** A file name "<id>_xxxxxx.csv" is never an option name. */
  lemma FileNameNotFlag(flags: seq<Flag>, testId: string, suffix: string)
    requires DashNames(flags) && |suffix| == 11 && suffix[0] == '_'
    ensures forall i :: 0 <= i < |flags| ==> flags[i].name != testId + suffix
  {
    forall i | 0 <= i < |flags|
      ensures flags[i].name != testId + suffix
    {
      if testId == "" {
        assert (testId + suffix)[0] == '_';
      }
    }
  }

  /** The settings a parameter map gives always fit the options. */
  lemma SettingsFit(flags: seq<Flag>, params: Params)
    ensures Fits(flags, SettingsOf(flags, params))
  {
  }

  /** Reading the options and the output part of a command gives back the test id and the settings. */
  lemma ReadTailRoundTrip(flags: seq<Flag>, settings: seq<Setting>, testId: string, csvSuffix: string, logSuffix: string)
    requires Fits(flags, settings) && DashNames(flags) && DistinctNames(flags)
    requires |csvSuffix| == 11 && csvSuffix[0] == '_'
    ensures ReadTail(flags, csvSuffix, logSuffix, AllFlagWords(flags, settings) + OutputWords(testId + csvSuffix, testId + logSuffix))
      == Some((testId, settings))
  {
    var tail := OutputWords(testId + csvSuffix, testId + logSuffix);
    FileNameNotFlag(flags, testId, csvSuffix);
    ReadFlagsRoundTrip(flags, settings, tail);
    var csv := testId + csvSuffix;
    EndsWithAppend(testId, csvSuffix);
    assert csv[..|csv| - |csvSuffix|] == testId;
  }

  /** No parameter renders with a space, so every option value is a single shell word. */
  predicate SpaceFree(params: Params) {
    forall key :: key in params ==> ' ' !in PyStr(params[key])
  }

  /** Words with no space in them: joining them with spaces and splitting again gives them back. */
  predicate Words(words: seq<string>) {
    forall i :: 0 <= i < |words| ==> ' ' !in words[i]
  }

  lemma {:induction false} AllFlagWordsSpaceFree(flags: seq<Flag>, params: Params)
    requires DashNames(flags) && SpaceFree(params)
    ensures Words(AllFlagWords(flags, SettingsOf(flags, params)))
    decreases |flags|
  {
    if |flags| > 0 {
      var settings := SettingsOf(flags, params);
      assert settings[1..] == SettingsOf(flags[1..], params);
      AllFlagWordsSpaceFree(flags[1..], params);
      assert flags[0].name == flags[0].name;
    }
  }

  lemma WordsAppend(a: seq<string>, b: seq<string>)
    requires Words(a) && Words(b)
    ensures Words(a + b)
  {
    forall i | 0 <= i < |a + b|
      ensures ' ' !in (a + b)[i]
    {
      if i >= |a| {
        assert (a + b)[i] == b[i - |a|];
      }
    }
  }

  lemma OutputWordsFree(testId: string, csvSuffix: string, logSuffix: string)
    requires ' ' !in testId && ' ' !in csvSuffix && ' ' !in logSuffix
    ensures Words(OutputWords(testId + csvSuffix, testId + logSuffix))
  {
    assert ' ' !in testId + csvSuffix;
    assert ' ' !in testId + logSuffix;
  }

  lemma ServerHeadWords()
    ensures Words(ServerHead)
  {
    assert ' ' !in "nohup" && ' ' !in "sudo" && ' ' !in "cyperf" && ' ' !in "-s";
  }

  lemma ClientHeadWords(serverIp: string)
    requires ' ' !in serverIp
    ensures Words(ClientHead(serverIp))
  {
    var head := ClientHead(serverIp);
    assert ' ' !in "nohup" && ' ' !in "sudo" && ' ' !in "cyperf" && ' ' !in "-c";
    forall i | 0 <= i < |head|
      ensures ' ' !in head[i]
    {
      assert i == 0 || i == 1 || i == 2 || i == 3 || i == 4;
    }
  }

  /** Splitting a command of space-free words gives the words back, and they read back as the test id and the settings. */
  lemma CommandRoundTrip(head: seq<string>, flags: seq<Flag>, params: Params, testId: string, csvSuffix: string, logSuffix: string)
    requires |head| >= 1 && Words(head) && DashNames(flags) && DistinctNames(flags) && SpaceFree(params)
    requires ' ' !in testId && ' ' !in csvSuffix && ' ' !in logSuffix && |csvSuffix| == 11 && csvSuffix[0] == '_'
    ensures var words := head + AllFlagWords(flags, SettingsOf(flags, params)) + OutputWords(testId + csvSuffix, testId + logSuffix);
      && Split(Join(words, " "), " ") == words
      && words[..|head|] == head
      && ReadTail(flags, csvSuffix, logSuffix, words[|head|..]) == Some((testId, SettingsOf(flags, params)))
  {
    var settings := SettingsOf(flags, params);
    var options := AllFlagWords(flags, settings);
    var tail := OutputWords(testId + csvSuffix, testId + logSuffix);
    var words := head + options + tail;
    AllFlagWordsSpaceFree(flags, params);
    OutputWordsFree(testId, csvSuffix, logSuffix);
    WordsAppend(head, options);
    WordsAppend(head + options, tail);
    SplitJoin(words, ' ');
    SettingsFit(flags, params);
    ReadTailRoundTrip(flags, settings, testId, csvSuffix, logSuffix);
    Associative(head, options, tail);
    assert words[..|head|] == head && words[|head|..] == options + tail;
  }

  /**
   * The server command, split at spaces, reads back as the test id and
   * exactly the options whose parameters are truthy, each with its value.
   */
  lemma ServerCommandRoundTrip(testId: string, params: Params)
    requires ' ' !in testId && SpaceFree(params)
    ensures Split(ServerCommand(testId, params), " ") == ServerWords(testId, params)
    ensures ReadServerCommand(Split(ServerCommand(testId, params), " ")) == Some((testId, SettingsOf(ServerFlags, params)))
  {
    ServerFlagsNames();
    ServerHeadWords();
    CommandRoundTrip(ServerHead, ServerFlags, params, testId, "_server.csv", "_server.log");
  }

  /**
   * The client command, split at spaces, reads back as the test id, the
   * server address and exactly the options whose parameters are truthy.
   */
  lemma ClientCommandRoundTrip(testId: string, serverIp: string, params: Params)
    requires ' ' !in testId && ' ' !in serverIp && SpaceFree(params)
    ensures Split(ClientCommand(testId, serverIp, params), " ") == ClientWords(testId, serverIp, params)
    ensures ReadClientCommand(Split(ClientCommand(testId, serverIp, params), " "))
      == Some((testId, serverIp, SettingsOf(ClientFlags, params)))
  {
    ClientHeadWords(serverIp);
    ClientOptionsRoundTrip(ClientHead(serverIp), testId, params);
    ClientWordsRead(testId, serverIp, params);
  }

  lemma ClientWordsRead(testId: string, serverIp: string, params: Params)
    requires ' ' !in testId && ' ' !in serverIp && SpaceFree(params)
    ensures ReadClientCommand(ClientWords(testId, serverIp, params)) == Some((testId, serverIp, SettingsOf(ClientFlags, params)))
  {
    var head := ClientHead(serverIp);
    var options := AllFlagWords(ClientFlags, SettingsOf(ClientFlags, params));
    var tail := OutputWords(ClientCsv(testId), ClientLog(testId));
    ClientHeadWords(serverIp);
    ClientOptionsRoundTrip(head, testId, params);
    Associative(head, options, tail);
    assert (head + options + tail)[|head|..] == options + tail;
    ReadAfterClientHead(serverIp, options + tail);
  }

  /** A client command's words read back as the server address and what follows it. */
  lemma ReadAfterClientHead(serverIp: string, rest: seq<string>)
    ensures ReadClientCommand(ClientHead(serverIp) + rest)
      == match ReadTail(ClientFlags, "_client.csv", "_client.log", rest)
         case Some(t) => Some((t.0, serverIp, t.1))
         case None => None
  {
    var words := ClientHead(serverIp) + rest;
    assert words[..4] == ClientPrefix && words[4] == serverIp && words[5..] == rest;
  }

  lemma ClientOptionsRoundTrip(head: seq<string>, testId: string, params: Params)
    requires |head| >= 1 && Words(head) && ' ' !in testId && SpaceFree(params)
    ensures var words := head + AllFlagWords(ClientFlags, SettingsOf(ClientFlags, params)) + OutputWords(ClientCsv(testId), ClientLog(testId));
      && Split(Join(words, " "), " ") == words
      && words[..|head|] == head
      && ReadTail(ClientFlags, "_client.csv", "_client.log", words[|head|..]) == Some((testId, SettingsOf(ClientFlags, params)))
  {
    ClientFlagsNames();
    CommandRoundTrip(head, ClientFlags, params, testId, "_client.csv", "_client.log");
  }

  // ---------------------------------------------------------------------------
  // The PID read back from `ps`

  /**
   * `int(pids[0]) if pids and pids[0] else None` on the stripped output split
   * at line feeds: no PID when the output is blank, otherwise the first line
   * as an integer. `Err` carries the first line when `int()` rejects it.
   */
  function PidOf(output: string): (r: Result<Option<int>, string>)
    ensures r == Ok(None) <==> Strip(output) == ""
    ensures r.Err? ==> PyParseInt(r.error) == None
  {
    var stripped := Strip(output);
    var lines := Split(stripped, "\n");
    FirstLineEmpty(stripped);
    if lines[0] == "" then Ok(None)
    else match PyParseInt(lines[0])
      case Some(n) => Ok(Some(n))
      case None => Err(lines[0])
  }

  /** The first line of a stripped text is empty only when the text is. */
  lemma FirstLineEmpty(stripped: string)
    requires stripped == "" || !IsSpace(stripped[0])
    ensures Split(stripped, "\n")[0] == "" <==> stripped == ""
  {
    if stripped != "" {
      assert !StartsWith(stripped, "\n");
    }
  }

  /** The decimal forms of some numbers. */
  function Decimals(pids: seq<nat>): (r: seq<string>)
    ensures |r| == |pids| && forall i :: 0 <= i < |pids| ==> r[i] == NatToString(pids[i])
  {
    seq(|pids|, i requires 0 <= i < |pids| => NatToString(pids[i]))
  }

  /** Decimal numbers joined by line feeds start and end with a digit. */
  lemma {:induction false} ListingEnds(ds: seq<string>)
    requires |ds| >= 1 && forall i :: 0 <= i < |ds| ==> |ds[i]| >= 1 && AllDigits(ds[i])
    ensures var j := Join(ds, "\n"); |j| >= 1 && IsDigit(j[0]) && IsDigit(j[|j| - 1])
    decreases |ds|
  {
    if |ds| > 1 {
      ListingEnds(ds[1..]);
      var rest := Join(ds[1..], "\n");
      assert Join(ds, "\n") == ds[0] + "\n" + rest;
      assert (ds[0] + "\n" + rest)[0] == ds[0][0];
      assert IsDigit(ds[0][0]);
    } else {
      assert IsDigit(ds[0][0]) && IsDigit(ds[0][|ds[0]| - 1]);
    }
  }

  /**
   * A `ps | awk '{print $2}'` listing, one PID per line, gives the first PID.
   */
  lemma PidOfListing(pids: seq<nat>)
    requires |pids| >= 1
    ensures PidOf(Join(Decimals(pids), "\n") + "\n") == Ok(Some(pids[0]))
  {
    var ds := Decimals(pids);
    var j := Join(ds, "\n");
    ListingEnds(ds);
    StripListing(j);
    FirstLineOfListing(ds);
    PyParseIntOfNat(pids[0]);
  }

  /** Stripping the final line feed of a listing that starts and ends with a digit. */
  lemma StripListing(j: string)
    requires |j| >= 1 && IsDigit(j[0]) && IsDigit(j[|j| - 1])
    ensures Strip(j + "\n") == j
  {
    var out := j + "\n";
    assert TrimStart(out) == out by { assert out[0] == j[0]; }
    assert out[..|out| - 1] == j;
    assert TrimEnd(out) == TrimEnd(j);
  }

  /** The first line of numbers joined by line feeds is the first number. */
  lemma FirstLineOfListing(ds: seq<string>)
    requires |ds| >= 1 && AllDigits(ds[0])
    ensures Split(Join(ds, "\n"), "\n")[0] == ds[0]
  {
    DigitsFree(ds[0], '\n');
    if |ds| == 1 {
      SplitNoSeparator(ds[0], '\n');
    } else {
      assert Join(ds, "\n") == ds[0] + ['\n'] + Join(ds[1..], "\n");
      SplitAfterPiece(ds[0], '\n', Join(ds[1..], "\n"));
    }
  }

  // ---------------------------------------------------------------------------
  // The service and its registry of tests

  /** What `start_client` adds to a test's entry. */
  datatype ClientInfo = ClientInfo(clientPid: Option<int>, clientLogPath: string, clientCsvPath: string, clientIp: string)

  /** An entry of `active_tests`. */
  datatype TestRecord = TestRecord(
    serverPid: Option<int>,
    command: string,
    serverCsvPath: string,
    serverIp: string,
    client: Option<ClientInfo>)

  /** A command run over SSH on a host. */
  datatype Exec = Exec(host: string, command: string)

  /** `start_client`'s reply. */
  datatype ClientStarted = ClientStarted(clientPid: Option<int>, command: string, clientCsvPath: string)

  const ServerFind := "ps -ef | grep 'cyperf -s' | grep root | awk '{print $2}'"
  const ClientFind := "ps -ef | grep 'cyperf -c' | grep root | awk '{print $2}'"
  const ListCyperf := "sudo ps aux | grep -i \"[c]yperf\\|[s]erver\" | awk '{print $2}'"
  const KillCyperf := "sudo ps aux | grep -i \"[c]yperf\\|[s]erver\" | awk '{print $2}' | sudo xargs kill -9"

  /** A row of a cyperf CSV file as `csv.DictReader` yields it. */
  type Row = map<string, string>

  class Service {
    /** `active_tests`. */
    var activeTests: map<string, TestRecord>
    /** The commands run over SSH so far, in order. */
    var executed: seq<Exec>

    constructor ()
      ensures activeTests == map[] && executed == []
    {
      activeTests := map[];
      executed := [];
    }

    /**
     * `start_server`: runs the server command and the PID lookup on the
     * server, then records the test, replacing any earlier entry for the id.
     */
    method StartServer(testId: string, serverIp: string, params: Params, listing: string) returns (r: Result<Option<int>, string>)
      modifies this
      ensures executed == old(executed) + [Exec(serverIp, ServerCommand(testId, params)), Exec(serverIp, ServerFind)]
      ensures r == PidOf(listing)
      ensures r.Ok? ==> activeTests == old(activeTests)[testId := TestRecord(r.value, ServerCommand(testId, params), ServerCsv(testId), serverIp, None)]
      ensures r.Err? ==> activeTests == old(activeTests)
    {
      var command := BuildServerCommand(testId, params);
      executed := executed + [Exec(serverIp, command), Exec(serverIp, ServerFind)];
      r := PidOf(listing);
      if r.Ok? {
        activeTests := activeTests[testId := TestRecord(r.value, command, ServerCsv(testId), serverIp, None)];
      }
    }

    /**
     * `start_client`: refuses a test whose server was not started; otherwise
     * runs the client command and the PID lookup on the client and adds the
     * client's details to the entry.
     */
    method StartClient(testId: string, serverIp: string, clientIp: string, params: Params, listing: string)
      returns (r: Result<ClientStarted, string>)
      modifies this
      ensures testId !in old(activeTests) ==>
        && r == Err("Server not started for this test_id")
        && activeTests == old(activeTests) && executed == old(executed)
      ensures testId in old(activeTests) ==>
        executed == old(executed) + [Exec(clientIp, ClientCommand(testId, serverIp, params)), Exec(clientIp, ClientFind)]
      ensures testId in old(activeTests) && PidOf(listing).Err? ==>
        r == Err(PidOf(listing).error) && activeTests == old(activeTests)
      ensures testId in old(activeTests) && PidOf(listing).Ok? ==>
        && r == Ok(ClientStarted(PidOf(listing).value, ClientCommand(testId, serverIp, params), ClientCsv(testId)))
        && activeTests == old(activeTests)[testId := old(activeTests)[testId].(
             client := Some(ClientInfo(PidOf(listing).value, ClientLog(testId), ClientCsv(testId), clientIp)))]
    {
      if testId !in activeTests {
        r := Err("Server not started for this test_id");
      } else {
        var command := BuildClientCommand(testId, serverIp, params);
        executed := executed + [Exec(clientIp, command), Exec(clientIp, ClientFind)];
        RecordClient(testId, clientIp, listing);
        r := if PidOf(listing).Ok? then Ok(ClientStarted(PidOf(listing).value, command, ClientCsv(testId))) else Err(PidOf(listing).error);
      }
    }

    /**
     * The registry half of `start_client`: when the client's PID was read,
     * the test's record gains the client's PID, log path, CSV path and host.
     */
    method RecordClient(testId: string, clientIp: string, listing: string)
      requires testId in activeTests
      modifies this`activeTests
      ensures PidOf(listing).Err? ==> activeTests == old(activeTests)
      ensures PidOf(listing).Ok? ==> activeTests == old(activeTests)[testId := old(activeTests)[testId].(
             client := Some(ClientInfo(PidOf(listing).value, ClientLog(testId), ClientCsv(testId), clientIp)))]
    {
      var pid := PidOf(listing);
      if pid.Ok? {
        var entry := activeTests[testId];
        activeTests := activeTests[testId := entry.(client := Some(ClientInfo(pid.value, ClientLog(testId), ClientCsv(testId), clientIp)))];
      }
    }

    /**
     * `stop_server`: lists and kills every cyperf or server process on the
     * host. The registry is left as it is.
     */
    method StopServer(serverIp: string) returns (reply: map<string, string>)
      modifies this`executed
      ensures executed == old(executed) + [Exec(serverIp, ListCyperf), Exec(serverIp, KillCyperf)]
      ensures reply == map["cyperf_server_pids_killed" := "true", "server_ip" := serverIp]
    {
      executed := executed + [Exec(serverIp, ListCyperf), Exec(serverIp, KillCyperf)];
      reply := map["cyperf_server_pids_killed" := "true", "server_ip" := serverIp];
    }

    /**
     * `get_server_stats`: the rows of "<id>_server.csv" on the test's server;
     * `read(host, path)` stands for the file read over SFTP.
     */
    function ServerStats(testId: string, read: (string, string) -> seq<Row>): (r: Result<seq<Row>, string>)
      reads this
      ensures r.Err? <==> testId !in activeTests
      ensures r.Err? ==> r.error == "Test not found"
      ensures r.Ok? ==> r.value == read(activeTests[testId].serverIp, ServerCsv(testId))
    {
      if testId !in activeTests then Err("Test not found")
      else Ok(read(activeTests[testId].serverIp, ServerCsv(testId)))
    }

    /**
     * `get_client_stats`: the rows of "<id>_client.csv" on the client, or on
     * the configured client host when the client was never started.
     */
    function ClientStats(testId: string, defaultClientIp: string, read: (string, string) -> seq<Row>): (r: Result<seq<Row>, string>)
      reads this
      ensures r.Err? <==> testId !in activeTests
      ensures r.Err? ==> r.error == "Test not found"
      ensures r.Ok? && activeTests[testId].client.Some? ==> r.value == read(activeTests[testId].client.value.clientIp, ClientCsv(testId))
      ensures r.Ok? && activeTests[testId].client.None? ==> r.value == read(defaultClientIp, ClientCsv(testId))
    {
      if testId !in activeTests then Err("Test not found")
      else
        var host := match activeTests[testId].client case Some(c) => c.clientIp case None => defaultClientIp;
        Ok(read(host, ClientCsv(testId)))
    }
  }

  /** The CSV file the stats are read from is the one the command names as its output. */
  lemma CsvArgument(testId: string, serverIp: string, params: Params)
    ensures var w := ServerWords(testId, params); |w| >= 5 && w[|w| - 5] == ServerCsv(testId)
    ensures var w := ClientWords(testId, serverIp, params); |w| >= 5 && w[|w| - 5] == ClientCsv(testId)
  {
  }

  // ---------------------------------------------------------------------------
  // The columns kept for the stats table

  const AllowedKeys: seq<string> := [
    "Timestamp",
    "Throughput",
    "ThroughputTX",
    "ThroughputRX",
    "TCPDataThroughput",
    "TCPDataThroughputTX",
    "TCPDataThroughputRX",
    "ParallelClientSessions",
    "ActiveConnections",
    "ConnectionsSucceeded",
    "ConnectionsFailed",
    "ConnectionsAccepted",
    "ConnectionRate",
    "AverageConnectionLatency"]

  /** `{k: d.get(k, "") for k in ALLOWED_KEYS}`, its columns in that order. */
  function FilterRow(d: Row): (r: seq<(string, string)>)
    ensures |r| == |AllowedKeys|
    ensures forall i :: 0 <= i < |r| ==> r[i].0 == AllowedKeys[i]
    ensures forall i :: 0 <= i < |r| ==> (AllowedKeys[i] in d ==> r[i].1 == d[AllowedKeys[i]]) && (AllowedKeys[i] !in d ==> r[i].1 == "")
  {
    seq(|AllowedKeys|, i requires 0 <= i < |AllowedKeys| => (AllowedKeys[i], if AllowedKeys[i] in d then d[AllowedKeys[i]] else ""))
  }

  /** The dictionary an ordered list of columns stands for (a later column wins). */
  function AsRow(cols: seq<(string, string)>): (r: Row)
    ensures r.Keys == set i | 0 <= i < |cols| :: cols[i].0
    decreases |cols|
  {
    if |cols| == 0 then map[]
    else AsRow(cols[..|cols| - 1])[cols[|cols| - 1].0 := cols[|cols| - 1].1]
  }

  /** The list comprehension over the rows read from the file. */
  function FilteredStats(stats: seq<Row>): (r: seq<seq<(string, string)>>)
    ensures |r| == |stats| && forall i :: 0 <= i < |stats| ==> r[i] == FilterRow(stats[i])
  {
    seq(|stats|, i requires 0 <= i < |stats| => FilterRow(stats[i]))
  }

  /** A column list whose repeated names agree on their values: each name maps to its value. */
  lemma {:induction false} AsRowLookup(cols: seq<(string, string)>, i: nat)
    requires i < |cols|
    requires forall j :: 0 <= j < |cols| && cols[j].0 == cols[i].0 ==> cols[j].1 == cols[i].1
    ensures cols[i].0 in AsRow(cols) && AsRow(cols)[cols[i].0] == cols[i].1
    decreases |cols|
  {
    var last := |cols| - 1;
    if i < last && cols[last].0 != cols[i].0 {
      var init := cols[..last];
      assert init[i] == cols[i];
      forall j | 0 <= j < |init| && init[j].0 == init[i].0
        ensures init[j].1 == init[i].1
      {
        assert init[j] == cols[j];
      }
      AsRowLookup(init, i);
    }
  }

  /** Every filtered row has exactly the allowed columns. */
  lemma FilterColumns(d: Row)
    ensures AsRow(FilterRow(d)).Keys == set k | k in AllowedKeys
  {
    var r := FilterRow(d);
    assert (set i | 0 <= i < |r| :: r[i].0) == set k | k in AllowedKeys by {
      forall k | k in AllowedKeys
        ensures k in set i | 0 <= i < |r| :: r[i].0
      {
        var i :| 0 <= i < |AllowedKeys| && AllowedKeys[i] == k;
        assert r[i].0 == k;
      }
    }
  }

  /** Filtering a filtered row changes nothing. */
  lemma FilterIdempotent(d: Row)
    ensures FilterRow(AsRow(FilterRow(d))) == FilterRow(d)
  {
    var r := FilterRow(d);
    var m := AsRow(r);
    forall i | 0 <= i < |r|
      ensures FilterRow(m)[i] == r[i]
    {
      forall j | 0 <= j < |r| && r[j].0 == r[i].0
        ensures r[j].1 == r[i].1
      {
        assert AllowedKeys[j] == AllowedKeys[i];
      }
      AsRowLookup(r, i);
    }
  }
}
