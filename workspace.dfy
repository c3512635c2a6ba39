/**
 * The process record and the fixed layout of the files a managed member uses
 * under the Hazelcast home directory (ProcessStore.java, constructor and create).
 * The platform's path separator is a parameter `sep`.
 */
module Workspace {
  import opened Wrappers

  /** One managed member: its name, the two files of its workspace and, once spawned, its OS pid. */
  datatype HazelcastProcess = HazelcastProcess(
    name: string,
    loggingPropertiesPath: string,
    logFilePath: string,
    pid: Option<int>)

  const InstancesFileName := "instances.dat"
  const LogsDir := "logs"
  const LogsFileName := "hazelcast.log"
  const LoggingPropertiesFileName := "logging.properties"

  /** The registry file: home, separator, "instances.dat". */
  function InstancesFilePath(home: string, sep: string): string
  {
    home + sep + InstancesFileName
  }

  /** The workspace directory of the member called `name`. */
  function ProcessDir(home: string, sep: string, name: string): string
  {
    home + sep + name
  }

  /** The directory created recursively for a new member. */
  function LogDir(home: string, sep: string, name: string): string
  {
    ProcessDir(home, sep, name) + sep + LogsDir
  }

  function LogFilePath(home: string, sep: string, name: string): string
  {
    ProcessDir(home, sep, name) + sep + LogsDir + sep + LogsFileName
  }

  function LoggingPropertiesPath(home: string, sep: string, name: string): string
  {
    ProcessDir(home, sep, name) + sep + LoggingPropertiesFileName
  }

  /** The two lines written before the FileHandler pattern line. */
  const PropertiesHeader :=
    "handlers= java.util.logging.FileHandler, java.util.logging.ConsoleHandler\n" + ".level= INFO\n"

  const PatternKey := "java.util.logging.FileHandler.pattern = "

  /** The lines written after the FileHandler pattern line (without the final line break). */
  const PropertiesTrailer :=
    "java.util.logging.FileHandler.limit = 50000\n" + "java.util.logging.FileHandler.count = 1\n"
    + "java.util.logging.FileHandler.maxLocks = 100\n"
    + "java.util.logging.FileHandler.formatter = java.util.logging.SimpleFormatter\n"
    + "java.util.logging.FileHandler.append=true\n"
    + "java.util.logging.ConsoleHandler.formatter = java.util.logging.SimpleFormatter"

  /** The text written to logging.properties; `println` ends it with a line break. */
  function LoggingProperties(logFilePath: string): string
  {
    PropertiesHeader + PatternKey + logFilePath + "\n" + PropertiesTrailer + "\n"
  }

  /** `line` occurs in `text` at position `i`, with a line break on each side. */
  predicate LineAt(text: string, line: string, i: int)
  {
    0 < i && i + |line| < |text| && text[i - 1] == '\n'
    && text[i..i + |line|] == line && text[i + |line|] == '\n'
  }

  /** `line` occurs in `text` as a whole line. */
  predicate HasLine(text: string, line: string)
  {
    exists i :: 0 < i < |text| && LineAt(text, line, i)
  }

  predicate IsPrefix(p: string, s: string)
  {
    |p| <= |s| && s[..|p|] == p
  }

  /** Cancelling a common prefix and suffix: `a + x + t` determines `x`. */
  lemma MiddleDetermined(a: string, x: string, y: string, t: string)
    requires a + x + t == a + y + t
    ensures x == y
  {
    var s := a + x + t;
    assert |x| == |y|;
    assert s[|a|..|a| + |x|] == x;
    assert (a + y + t)[|a|..|a| + |y|] == y;
  }

  /** Distinct names never share a log file path. */
  lemma LogFilePathInjective(home: string, sep: string, n1: string, n2: string)
    ensures LogFilePath(home, sep, n1) == LogFilePath(home, sep, n2) <==> n1 == n2
  {
    if LogFilePath(home, sep, n1) == LogFilePath(home, sep, n2) {
      var t := sep + LogsDir + sep + LogsFileName;
      assert LogFilePath(home, sep, n1) == home + sep + n1 + t;
      assert LogFilePath(home, sep, n2) == home + sep + n2 + t;
      MiddleDetermined(home + sep, n1, n2, t);
    }
  }

  /** Distinct names never share a logging configuration path. */
  lemma LoggingPropertiesPathInjective(home: string, sep: string, n1: string, n2: string)
    ensures LoggingPropertiesPath(home, sep, n1) == LoggingPropertiesPath(home, sep, n2) <==> n1 == n2
  {
    if LoggingPropertiesPath(home, sep, n1) == LoggingPropertiesPath(home, sep, n2) {
      var t := sep + LoggingPropertiesFileName;
      assert LoggingPropertiesPath(home, sep, n1) == home + sep + n1 + t;
      assert LoggingPropertiesPath(home, sep, n2) == home + sep + n2 + t;
      MiddleDetermined(home + sep, n1, n2, t);
    }
  }

  /**
   * The registry file path, every log file path and every logging configuration
   * path are pairwise different strings, whatever the home directory, separator and names:
   * they end in different characters ('t', 'g' and 's').
   */
  lemma StoreFilesDistinct(home: string, sep: string, n1: string, n2: string)
    ensures InstancesFilePath(home, sep) != LogFilePath(home, sep, n1)
    ensures InstancesFilePath(home, sep) != LoggingPropertiesPath(home, sep, n2)
    ensures LogFilePath(home, sep, n1) != LoggingPropertiesPath(home, sep, n2)
  {
    var a, b, c := InstancesFilePath(home, sep), LogFilePath(home, sep, n1), LoggingPropertiesPath(home, sep, n2);
    assert a[|a| - 1] == 't';
    assert b[|b| - 1] == 'g';
    assert c[|c| - 1] == 's';
  }

  /**
   * Both files of a member lie inside its workspace directory, which lies in the
   * home directory; the log file lies in the logs directory created for it.
   */
  lemma WorkspaceLayout(home: string, sep: string, name: string)
    ensures IsPrefix(home + sep, ProcessDir(home, sep, name))
    ensures IsPrefix(ProcessDir(home, sep, name) + sep, LoggingPropertiesPath(home, sep, name))
    ensures IsPrefix(LogDir(home, sep, name) + sep, LogFilePath(home, sep, name))
    ensures LogFilePath(home, sep, name) == LogDir(home, sep, name) + sep + LogsFileName
  {
  }

  /** With "/" as separator the log file is <home>/<name>/logs/hazelcast.log. */
  lemma LogFileLocationWithSlash(home: string, name: string)
    ensures LogFilePath(home, "/", name) == home + "/" + name + "/logs/hazelcast.log"
  {
  }

  /** A line placed after a text that ends with a line break, and followed by one, is a whole line. */
  lemma LineAfterBreak(head: string, line: string, rest: string)
    requires |head| > 0 && head[|head| - 1] == '\n'
    ensures LineAt(head + line + "\n" + rest, line, |head|)
  {
  }

  /** The generated configuration has a pattern line, on a line of its own, whose value is `logFilePath`. */
  lemma LoggingPropertiesNameLogFile(logFilePath: string)
    ensures HasLine(LoggingProperties(logFilePath), PatternKey + logFilePath)
  {
    var line := PatternKey + logFilePath;
    assert LoggingProperties(logFilePath) == PropertiesHeader + line + "\n" + (PropertiesTrailer + "\n");
    assert PropertiesHeader[|PropertiesHeader| - 1] == '\n';
    LineAfterBreak(PropertiesHeader, line, PropertiesTrailer + "\n");
  }
}
