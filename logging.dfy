/** internal/logging.go: where the process logs to and from which level on.
    The global logrus logger is a `Logger` object; dialling the syslog daemon
    and opening a log file are collaborators passed in as functions. */
module Logging {
  import opened Common

  /** logrus levels, most severe first. */
  datatype Level = PanicLevel | FatalLevel | ErrorLevel | WarnLevel | InfoLevel | DebugLevel | TraceLevel
  {
    function Rank(): nat
    {
      match this
      case PanicLevel => 0
      case FatalLevel => 1
      case ErrorLevel => 2
      case WarnLevel => 3
      case InfoLevel => 4
      case DebugLevel => 5
      case TraceLevel => 6
    }
  }

  /** An entry at `entry` is written when the logger's level is at least as
      verbose. */
  predicate Enabled(current: Level, entry: Level) { entry.Rank() <= current.Rank() }

  datatype Writer = Stdout | Stderr | File(path: string)

  /** A syslog hook, by network and `host:port`. */
  datatype Hook = SyslogHook(network: string, host: string)

  /** `prefixed.TextFormatter` with the two settings SetLogging makes. */
  datatype Formatter = DefaultFormatter | TextFormatter(fullTimestamp: bool, timestampFormat: string)

  /** Go's `time.Stamp` layout. */
  const Stamp: string := "Jan _2 15:04:05"
  const DefaultSyslogHost: string := "localhost:514"
  const SyslogFallbackMessage: string := "Unable to connect to syslog daemon. Falling back to stderr"

  datatype Entry = Entry(level: Level, writer: Writer, message: string)

  /** Where a log path sends output, before anything is opened or dialled. */
  datatype Destination = ToStdout | ToStderr | ToSyslog(host: string) | ToFile(path: string)

  /** Everything after the first `:` of `s`, when it has one. */
  function AfterFirstColon(s: string): (r: Option<string>)
    ensures r.None? <==> ':' !in s
    ensures r.Some? ==> exists i :: 0 <= i < |s| && s[i] == ':' && ':' !in s[..i] && r.value == s[i + 1..]
  {
    if s == [] then None
    else if s[0] == ':' then
      assert ':' !in s[..0];
      Some(s[1..])
    else
      match AfterFirstColon(s[1..])
      case None => None
      case Some(rest) =>
        assert exists i :: 0 <= i < |s| && s[i] == ':' && ':' !in s[..i] && rest == s[i + 1..] by {
          var i :| 0 <= i < |s[1..]| && s[1..][i] == ':' && ':' !in s[1..][..i] && rest == s[1..][i + 1..];
          assert s[..i + 1] == [s[0]] + s[1..][..i];
          assert s[i + 2..] == s[1..][i + 1..];
        }
        Some(rest)
  }

  /** The syslog host of a `syslog...` path: what follows the first `:`, or
      `localhost:514` when there is none (`strings.SplitN(path, ":", 2)`). */
  function SyslogHost(path: string): (host: string)
    ensures ':' !in path ==> host == DefaultSyslogHost
    ensures ':' in path ==>
      exists i :: 0 <= i < |path| && path[i] == ':' && ':' !in path[..i] && host == path[i + 1..]
  {
    match AfterFirstColon(path)
    case None => DefaultSyslogHost
    case Some(h) => h
  }

  /** The destination branch SetLogging takes for `path`. */
  function DestinationFor(path: string): (d: Destination)
    ensures d == ToStdout <==> path == "stdout"
    ensures d == ToStderr <==> path == "stderr"
    ensures d.ToSyslog? <==> HasPrefix(path, "syslog")
    ensures d.ToSyslog? ==> d.host == SyslogHost(path)
    ensures d.ToFile? <==> path != "stdout" && path != "stderr" && !HasPrefix(path, "syslog")
    ensures d.ToFile? ==> d.path == path
  {
    if path == "stdout" then ToStdout
    else if path == "stderr" then ToStderr
    else if HasPrefix(path, "syslog") then ToSyslog(SyslogHost(path))
    else ToFile(path)
  }

  /** The level SetLogging sets for a level string. The `"error"` case has
      an empty body and Go does not fall through, so it sets none. */
  function LevelFor(level: string): (r: Option<Level>)
    ensures level == "error" <==> r.None?
    ensures level == "trace" ==> r == Some(TraceLevel)
    ensures level == "debug" ==> r == Some(DebugLevel)
    ensures level == "info" ==> r == Some(InfoLevel)
    ensures level == "warning" ==> r == Some(WarnLevel)
    ensures level !in {"trace", "debug", "info", "warning", "error"} ==> r == Some(ErrorLevel)
  {
    match level
    case "trace" => Some(TraceLevel)
    case "debug" => Some(DebugLevel)
    case "info" => Some(InfoLevel)
    case "warning" => Some(WarnLevel)
    case "error" => None
    case _ => Some(ErrorLevel)
  }

  /** The host is what follows the first `:`. */
  lemma SyslogHostAt(path: string, i: nat)
    requires i < |path| && path[i] == ':' && ':' !in path[..i]
    ensures SyslogHost(path) == path[i + 1..]
  {
    var j :| 0 <= j < |path| && path[j] == ':' && ':' !in path[..j] && SyslogHost(path) == path[j + 1..];
  }

  /** A bare `syslog` path dials the local daemon. */
  lemma SyslogDefault()
    ensures DestinationFor("syslog") == ToSyslog("localhost:514")
  {
    var p := "syslog";
    assert p[..6] == "syslog";
    assert ':' !in p;
  }

  /** So does any path that merely starts with `syslog`. */
  lemma SyslogPrefixOnly()
    ensures DestinationFor("syslogd") == ToSyslog("localhost:514")
  {
    var p := "syslogd";
    assert p[..6] == "syslog";
    assert ':' !in p;
  }

  /** The host is whatever follows the first `:`, later colons included. */
  lemma SyslogExplicitHost()
    ensures DestinationFor("syslog:h:1514") == ToSyslog("h:1514")
  {
    var p := "syslog:h:1514";
    assert p[..6] == "syslog";
    assert ':' !in p[..6];
    SyslogHostAt(p, 6);
    assert p[7..] == "h:1514";
  }

  /** A path ending in its first `:` names the empty host. */
  lemma SyslogEmptyHost()
    ensures DestinationFor("syslog:") == ToSyslog("")
  {
    var p := "syslog:";
    assert p[..6] == "syslog";
    assert ':' !in p[..6];
    SyslogHostAt(p, 6);
  }

  /** The process-wide logrus logger. */
  class Logger {
    var formatter: Formatter
    var output: Writer
    var hooks: seq<Hook>
    var level: Level
    var entries: seq<Entry>

    /** logrus' standard logger: text to stderr from the info level on. */
    constructor ()
      ensures formatter == DefaultFormatter && output == Stderr && hooks == [] && level == InfoLevel
      ensures entries == []
    {
      formatter := DefaultFormatter;
      output := Stderr;
      hooks := [];
      level := InfoLevel;
      entries := [];
    }

    /** logrus.Error / logrus.Tracef: the entry is written to the current
        output when the level lets it through. */
    method Log(at: Level, message: string)
      modifies this
      ensures Enabled(level, at) ==> entries == old(entries) + [Entry(at, output, message)]
      ensures !Enabled(level, at) ==> entries == old(entries)
      ensures formatter == old(formatter) && output == old(output) && hooks == old(hooks) && level == old(level)
    {
      if Enabled(level, at) {
        entries := entries + [Entry(at, output, message)];
      }
    }

    /** SetLogging(level, path). `dialSyslog(network, host)` and `openFile`
        give the outcomes of `setupSyslogHook` and `os.OpenFile`;
        `configuredLevel` is the configuration value the final trace line
        prints. */
    method SetLogging(levelName: string, path: string, dialSyslog: (string, string) -> Option<Error>,
                      openFile: string -> Option<Error>, configuredLevel: string)
      modifies this
      ensures formatter == TextFormatter(true, Stamp)
      ensures path == "stdout" ==> output == Stdout
      ensures path == "stderr" ==> output == Stderr
      ensures HasPrefix(path, "syslog") ==> output == Stderr
      ensures HasPrefix(path, "syslog") && dialSyslog("udp", SyslogHost(path)).None? ==>
        hooks == old(hooks) + [SyslogHook("udp", SyslogHost(path))]
      ensures DestinationFor(path).ToFile? ==> output == (if openFile(path).None? then File(path) else Stderr)
      ensures !(HasPrefix(path, "syslog") && dialSyslog("udp", SyslogHost(path)).None?) ==> hooks == old(hooks)
      ensures LevelFor(levelName).Some? ==> level == LevelFor(levelName).value
      ensures LevelFor(levelName).None? ==> level == old(level)
      ensures entries == old(entries)
        + (if HasPrefix(path, "syslog") && dialSyslog("udp", SyslogHost(path)).Some? && Enabled(old(level), ErrorLevel)
           then [Entry(ErrorLevel, Stderr, SyslogFallbackMessage)] else [])
        + (if level == TraceLevel then [Entry(TraceLevel, output, "setting loglevel to '" + configuredLevel + "'")] else [])
    {
      formatter := TextFormatter(true, Stamp);
      output := Stderr;
      match DestinationFor(path) {
        case ToStdout =>
          output := Stdout;
        case ToStderr =>
          output := Stderr;
        case ToSyslog(host) =>
          var err := dialSyslog("udp", host);
          if err.Some? {
            Log(ErrorLevel, SyslogFallbackMessage);
            output := Stderr;
          } else {
            hooks := hooks + [SyslogHook("udp", host)];
          }
        case ToFile(p) =>
          var err := openFile(p);
          var w := if err.None? then File(p) else Stderr;
          output := w;
      }
      match LevelFor(levelName) {
        case Some(l) => level := l;
        case None =>
      }
      Log(TraceLevel, "setting loglevel to '" + configuredLevel + "'");
    }
  }

  /** `"error"` keeps whatever level was in force; a level string logrus
      does not know selects the error level. */
  lemma ErrorCaseSetsNothing()
    ensures LevelFor("error") == None
    ensures LevelFor("Error") == Some(ErrorLevel)
    ensures LevelFor("verbose") == Some(ErrorLevel)
  {
  }
}
