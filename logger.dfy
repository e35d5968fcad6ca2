/** The console logger: four ordered levels, a threshold and a console switch
    fixed when the logger is built, and a one-line format. The timestamp and
    the serialised form of the optional data argument are inputs. */
module Log {
  import opened Wrappers

  datatype LogLevel = Debug | Info | Warn | Error

  /** The level list `shouldLog` searches. */
  const Levels: seq<LogLevel> := [Debug, Info, Warn, Error]

  /** `levels.indexOf(l)`: the first position holding l, or -1. */
  function IndexOf(s: seq<LogLevel>, l: LogLevel): (k: int)
    ensures -1 <= k < |s|
    ensures k >= 0 ==> s[k] == l && forall j :: 0 <= j < k ==> s[j] != l
    ensures k == -1 ==> l !in s
  {
    if s == [] then -1
    else if s[0] == l then 0
    else
      var k := IndexOf(s[1..], l);
      if k == -1 then -1 else k + 1
  }

  /** A level's position in the list of levels. */
  function Rank(l: LogLevel): (k: nat)
    ensures k < |Levels| && Levels[k] == l
  {
    IndexOf(Levels, l)
  }

  /** The lower-case name the source uses for a level. */
  function Name(l: LogLevel): (s: string)
    ensures |s| >= 4
    ensures forall i :: 0 <= i < |s| ==> 'a' <= s[i] <= 'z'
  {
    match l
    case Debug => "debug"
    case Info => "info"
    case Warn => "warn"
    case Error => "error"
  }

  /** ASCII upper-casing, which is all `toUpperCase` does to level names. */
  function ToUpper(s: string): (r: string)
    ensures |r| == |s|
    ensures forall i :: 0 <= i < |s| ==> r[i] == if 'a' <= s[i] <= 'z' then (s[i] as int - 32) as char else s[i]
  {
    if s == [] then [] else
      [if 'a' <= s[0] <= 'z' then (s[0] as int - 32) as char else s[0]] + ToUpper(s[1..])
  }

  datatype LoggerConfig = LoggerConfig(level: LogLevel, enableConsole: bool, enableRemote: bool)

  /** The constructor's argument: each field may be left out. */
  datatype PartialConfig = PartialConfig(level: Option<LogLevel>, enableConsole: Option<bool>, enableRemote: Option<bool>)

  /** Filling in the defaults: level 'info', console on, remote off. A level
      name is never empty, so `||` falls back only when the level is absent. */
  function WithDefaults(c: PartialConfig): (r: LoggerConfig)
    ensures c.level.Some? ==> r.level == c.level.value
    ensures c.level.None? ==> r.level == Info
    ensures c.enableConsole.Some? ==> r.enableConsole == c.enableConsole.value
    ensures c.enableConsole.None? ==> r.enableConsole
    ensures c.enableRemote.Some? ==> r.enableRemote == c.enableRemote.value
    ensures c.enableRemote.None? ==> !r.enableRemote
  {
    LoggerConfig(
      match c.level case Some(l) => l case None => Info,
      match c.enableConsole case Some(b) => b case None => true,
      match c.enableRemote case Some(b) => b case None => false)
  }

  /** `shouldLog`: the message's level is at or above the configured one. */
  function ShouldLog(config: LoggerConfig, level: LogLevel): (pass: bool)
    ensures pass <==> Rank(level) >= Rank(config.level)
    ensures level == config.level ==> pass
  {
    IndexOf(Levels, level) >= IndexOf(Levels, config.level)
  }

  /** `formatMessage`; `data` is None when the argument is absent or falsy,
      otherwise its `JSON.stringify(data, null, 2)` text. */
  function FormatMessage(timestamp: string, level: LogLevel, message: string, data: Option<string>): (line: string)
    ensures |line| == |timestamp| + |Name(level)| + |message| + 6 + (if data.Some? then 1 + |data.value| else 0)
    ensures data.Some? ==> line[|line| - |data.value|..] == data.value && line[|line| - |data.value| - 1] == '\n'
    ensures data.None? ==> line[|line| - |message|..] == message
  {
    var dataStr := match data case Some(json) => "\n" + json case None => "";
    "[" + timestamp + "] [" + ToUpper(Name(level)) + "] " + message + dataStr
  }

  /** The levels are totally ordered debug < info < warn < error, and the
      filter admits exactly the levels ranked at or above the threshold. */
  lemma LevelOrder()
    ensures Rank(Debug) == 0 && Rank(Info) == 1 && Rank(Warn) == 2 && Rank(Error) == 3
    ensures forall a: LogLevel, b: LogLevel :: Rank(a) == Rank(b) ==> a == b
    ensures forall c: LoggerConfig, l: LogLevel :: ShouldLog(c, l) <==> Rank(l) >= Rank(c.level)
  {
  }

  /** A message at the configured level always passes, and errors pass
      under every configuration. */
  lemma FilterBasics(c: LoggerConfig)
    ensures ShouldLog(c, c.level)
    ensures ShouldLog(c, Error)
  {
    assert Rank(Error) == 3;
  }

  /** Raising the threshold never admits more messages. */
  lemma FilterMonotone(c: LoggerConfig, d: LoggerConfig, l: LogLevel)
    requires Rank(c.level) <= Rank(d.level)
    ensures ShouldLog(d, l) ==> ShouldLog(c, l)
  {
  }

  /** The line starts with the bracketed timestamp and upper-case level, then
      the message; the data text follows on a new line only when present. */
  lemma FormatShape(timestamp: string, level: LogLevel, message: string, data: Option<string>)
    ensures var line := FormatMessage(timestamp, level, message, data);
      var head := "[" + timestamp + "] [" + ToUpper(Name(level)) + "] " + message;
      && line[..|head|] == head
      && (data.None? ==> line == head)
      && (data.Some? ==> line[|head|..] == "\n" + data.value)
  {
  }

  /** The level tags the lines carry. */
  lemma UpperNames()
    ensures ToUpper(Name(Debug)) == "DEBUG" && ToUpper(Name(Info)) == "INFO"
    ensures ToUpper(Name(Warn)) == "WARN" && ToUpper(Name(Error)) == "ERROR"
  {
    assert ToUpper("debug") == "DEBUG";
    assert ToUpper("info") == "INFO";
    assert ToUpper("warn") == "WARN";
    assert ToUpper("error") == "ERROR";
  }

  class Logger {
    const config: LoggerConfig

    /** `new Logger(config)`: the given fields, defaults for the others. */
    constructor (c: PartialConfig)
      ensures config == WithDefaults(c)
    {
      config := WithDefaults(c);
    }

    /** The common body of the four level methods: the line written, if any. */
    method Write(level: LogLevel, timestamp: string, message: string, data: Option<string>) returns (written: Option<string>)
      ensures written.Some? <==> ShouldLog(config, level) && config.enableConsole
      ensures written.Some? ==> written.value == FormatMessage(timestamp, level, message, data)
    {
      if ShouldLog(config, level) && config.enableConsole {
        written := Some(FormatMessage(timestamp, level, message, data));
      } else {
        written := None;
      }
    }

    method LogDebug(timestamp: string, message: string, data: Option<string>) returns (written: Option<string>)
      ensures written.Some? <==> ShouldLog(config, Debug) && config.enableConsole
      ensures written.Some? ==> written.value == FormatMessage(timestamp, Debug, message, data)
    {
      written := Write(Debug, timestamp, message, data);
    }

    method LogInfo(timestamp: string, message: string, data: Option<string>) returns (written: Option<string>)
      ensures written.Some? <==> ShouldLog(config, Info) && config.enableConsole
      ensures written.Some? ==> written.value == FormatMessage(timestamp, Info, message, data)
    {
      written := Write(Info, timestamp, message, data);
    }

    method LogWarn(timestamp: string, message: string, data: Option<string>) returns (written: Option<string>)
      ensures written.Some? <==> ShouldLog(config, Warn) && config.enableConsole
      ensures written.Some? ==> written.value == FormatMessage(timestamp, Warn, message, data)
    {
      written := Write(Warn, timestamp, message, data);
    }

    method LogError(timestamp: string, message: string, data: Option<string>) returns (written: Option<string>)
      ensures written.Some? <==> ShouldLog(config, Error) && config.enableConsole
      ensures written.Some? ==> written.value == FormatMessage(timestamp, Error, message, data)
    {
      written := Write(Error, timestamp, message, data);
    }
  }

  /** The configuration of the exported instance. */
  function ExportedConfig(production: bool): (c: LoggerConfig)
    ensures c.level == (if production then Warn else Debug)
    ensures c.enableConsole && !c.enableRemote
  {
    WithDefaults(PartialConfig(Some(if production then Warn else Debug), Some(true), None))
  }

  /** The exported instance: in production only warnings and errors reach the
      console; otherwise every level does. */
  lemma ExportedFilter(production: bool, l: LogLevel)
    ensures production ==> (ShouldLog(ExportedConfig(production), l) <==> l == Warn || l == Error)
    ensures !production ==> ShouldLog(ExportedConfig(production), l)
  {
  }

  /** Builds the exported instance for the given `NODE_ENV === 'production'`. */
  method ExportedLogger(production: bool) returns (logger: Logger)
    ensures logger.config == ExportedConfig(production)
  {
    logger := new Logger(PartialConfig(Some(if production then Warn else Debug), Some(true), None));
  }
}
