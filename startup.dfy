/** The startup script of Program.cs: the configuration diagnostics written
    while the host is built (lines 11-35), the one connectivity probe and its
    three outcomes (lines 40-59), then the run phase (line 61). */
module Startup {
  import opened Strings
  import opened Redaction

  /** A value that may be null, as the nullable result of GetConnectionString. */
  datatype Option<T> = None | Some(value: T)

  /** What the connectivity probe did: returned a boolean, or threw an
      exception carrying a message. */
  datatype ProbeResult = Returned(canConnect: bool) | Threw(message: string)

  /** Where the process is: the host being built, the probe under way, the
      host running. */
  datatype Phase = Building | Probing | Running

  /** The database registration: the connection string handed to the driver
      and the migrations-history table with its schema. */
  datatype DbRegistration = DbRegistration(connectionString: Option<string>, historyTable: string, historySchema: string)

  const HistoryTable: string := "__EFMigrationsHistory"
  const Schema: string := "ManagementApp"

  const WarningLine: string := "⚠️ CẢNH BÁO: Connection string trống!"
  const SuccessLine: string := "✅ Kết nối database PostgreSQL thành công!"
  const FailureLine: string := "❌ Không thể kết nối database."
  const ErrorPrefix: string := "❌ Lỗi kết nối database: "
  const ConnectionPrefix: string := "🔗 Connection String: "
  const SourcesLead: string := "📁 Đang đọc từ: "
  const BaseFile: string := "appsettings.json"

  function EnvironmentLine(env: string): string {
    "🔧 Environment: " + env
  }

  /** The override file of an environment. */
  function EnvironmentFile(env: string): string {
    "appsettings." + env + ".json"
  }

  function SourcesLine(env: string): string {
    SourcesLead + BaseFile + " và " + EnvironmentFile(env)
  }

  function ConnectionLine(shown: string): string {
    ConnectionPrefix + shown
  }

  function ErrorLine(message: string): string {
    ErrorPrefix + message
  }

  /** string.IsNullOrEmpty: false exactly for a string that exists and has
      at least one character. */
  predicate IsNullOrEmpty(cs: Option<string>)
    ensures !IsNullOrEmpty(cs) <==> cs.Some? && |cs.value| > 0
  {
    cs.None? || cs.value == ""
  }

  /** A line that reports a connection string. */
  predicate IsConnectionLine(line: string) {
    |ConnectionPrefix| <= |line| && line[..|ConnectionPrefix|] == ConnectionPrefix
  }

  /** A line that reports the outcome of the probe: it carries the success or
      the failure marker. */
  predicate IsOutcomeLine(line: string) {
    |line| > 0 && (line[0] == '✅' || line[0] == '❌')
  }

  /** The lines written while the services are configured: the environment,
      the file note, then the warning for a null or empty connection string
      or else a connection line showing the redacted string. */
  function ConfigureLog(env: string, cs: Option<string>): (log: seq<string>)
    ensures |log| == 3 && log[0] == EnvironmentLine(env) && log[1] == SourcesLine(env)
    ensures IsNullOrEmpty(cs) ==> log[2] == WarningLine
    ensures !IsNullOrEmpty(cs) ==>
      IsConnectionLine(log[2]) && log[2][|ConnectionPrefix|..] == Redact(cs.value)
  {
    [EnvironmentLine(env), SourcesLine(env)]
    + if IsNullOrEmpty(cs) then [WarningLine] else [ConnectionLine(Redact(cs.value))]
  }

  /** The line written for a probe result: always an outcome line, and for a
      thrown exception one that ends in its message. */
  function ProbeLine(probe: ProbeResult): (line: string)
    ensures IsOutcomeLine(line)
    ensures probe.Threw? ==>
      |ErrorPrefix| <= |line| && line[..|ErrorPrefix|] == ErrorPrefix
      && line[|ErrorPrefix|..] == probe.message
  {
    match probe
    case Returned(true) => SuccessLine
    case Returned(false) => FailureLine
    case Threw(message) => ErrorLine(message)
  }

  /** Everything the process writes before it starts running: the
      configuration lines, then one outcome line. */
  function StartupLog(env: string, cs: Option<string>, probe: ProbeResult): (log: seq<string>)
    ensures |log| == 4 && log[..3] == ConfigureLog(env, cs) && IsOutcomeLine(log[3])
  {
    ConfigureLog(env, cs) + [ProbeLine(probe)]
  }

  /** The program's own writes to the console: the values Program.cs passes
      to Console.WriteLine, one element per call. Output of the host's logger
      and line breaks inside a written value are not modelled. */
  class Console {
    var lines: seq<string>

    constructor ()
      ensures lines == []
    {
      lines := [];
    }

    method WriteLine(line: string)
      modifies this
      ensures lines == old(lines) + [line]
    {
      lines := lines + [line];
    }
  }

  /** The ConfigureServices callback: report the environment and the sources,
      warn about a missing connection string or show it redacted, and register
      the database whatever the branch. */
  method ConfigureServices(console: Console, env: string, cs: Option<string>) returns (reg: DbRegistration)
    modifies console
    ensures console.lines == old(console.lines) + ConfigureLog(env, cs)
    ensures reg == DbRegistration(cs, HistoryTable, Schema)
  {
    console.WriteLine(EnvironmentLine(env));
    console.WriteLine(SourcesLine(env));
    if IsNullOrEmpty(cs) {
      console.WriteLine(WarningLine);
    } else {
      var safe := Redact(cs.value);
      console.WriteLine(ConnectionLine(safe));
    }
    reg := DbRegistration(cs, HistoryTable, Schema);
  }

  /** The connectivity check: one probe, one line, every exception caught. */
  method ProbeConnection(console: Console, probe: ProbeResult)
    modifies console
    ensures console.lines == old(console.lines) + [ProbeLine(probe)]
  {
    match probe {
      case Threw(message) =>
        console.WriteLine(ErrorLine(message));
      case Returned(canConnect) =>
        if canConnect {
          console.WriteLine(SuccessLine);
        } else {
          console.WriteLine(FailureLine);
        }
    }
  }

  /** The whole script: build the host, probe once, run. Whatever the
      connection string, the database is registered with the raw connection
      string; whatever the probe does, its exception is caught and the process
      reaches the run phase. `phase` marks how far the script got: `Running`
      is the call to RunAsync. Exceptions raised outside the probe's try block
      (resolving the database context, the redaction expression) are not
      modelled. */
  method Program(env: string, cs: Option<string>, probe: ProbeResult)
    returns (log: seq<string>, reg: DbRegistration, phase: Phase)
    ensures log == StartupLog(env, cs, probe)
    ensures reg.connectionString == cs && reg.historyTable == "__EFMigrationsHistory"
      && reg.historySchema == "ManagementApp"
    ensures phase == Running
  {
    var console := new Console();
    phase := Building;
    reg := ConfigureServices(console, env, cs);
    phase := Probing;
    ProbeConnection(console, probe);
    phase := Running;
    log := console.lines;
  }

  /** The first character of each configuration line: the lines carry
      distinct markers. */
  lemma ConfigureMarkers(env: string, shown: string)
    ensures EnvironmentLine(env)[0] == '🔧'
    ensures SourcesLine(env)[0] == '📁'
    ensures WarningLine[0] == '⚠'
    ensures ConnectionLine(shown)[0] == '🔗'
  {
    assert SourcesLine(env)[0] == SourcesLead[0];
  }

  /** Every connection line carries the connection marker. */
  lemma ConnectionLineMarker(line: string)
    ensures IsConnectionLine(line) ==> line[0] == '🔗'
  {
    if IsConnectionLine(line) {
      assert line[0] == line[..|ConnectionPrefix|][0] == ConnectionPrefix[0];
    }
  }

  /** The log opens with the environment line and the note naming both
      configuration files, the second one named after the environment. */
  lemma LogOpensWithEnvironmentAndSources(env: string, cs: Option<string>, probe: ProbeResult)
    ensures |StartupLog(env, cs, probe)| == 4
    ensures StartupLog(env, cs, probe)[0] == EnvironmentLine(env)
    ensures StartupLog(env, cs, probe)[1] == SourcesLine(env)
    ensures Contains(SourcesLine(env), "appsettings.json")
    ensures Contains(SourcesLine(env), "appsettings." + env + ".json")
  {
    var line := SourcesLine(env);
    assert line == SourcesLead + BaseFile + (" và " + EnvironmentFile(env));
    OccursBetween(SourcesLead, BaseFile, " và " + EnvironmentFile(env));
    assert line == SourcesLead + BaseFile + " và " + EnvironmentFile(env) + "";
    OccursBetween(SourcesLead + BaseFile + " và ", EnvironmentFile(env), "");
    assert OccursAt(line, BaseFile, |SourcesLead|);
    assert OccursAt(line, EnvironmentFile(env), |SourcesLead + BaseFile + " và "|);
  }

  /** The third line is the warning exactly when the connection string is
      null or empty, and a connection line exactly when it is not; the
      connection line shows the redacted string. */
  lemma WarningOrConnectionLine(env: string, cs: Option<string>)
    ensures WarningLine in ConfigureLog(env, cs) <==> IsNullOrEmpty(cs)
    ensures (exists i :: 0 <= i < |ConfigureLog(env, cs)| && IsConnectionLine(ConfigureLog(env, cs)[i]))
      <==> !IsNullOrEmpty(cs)
    ensures !IsNullOrEmpty(cs) ==> ConfigureLog(env, cs)[2] == ConnectionLine(Redact(cs.value))
  {
    var log := ConfigureLog(env, cs);
    ConfigureMarkers(env, if cs.Some? then Redact(cs.value) else "");
    if IsNullOrEmpty(cs) {
      forall i | 0 <= i < |log|
        ensures !IsConnectionLine(log[i])
      {
        ConnectionLineMarker(log[i]);
      }
    } else {
      assert IsConnectionLine(log[2]);
      assert log[0] != WarningLine && log[1] != WarningLine;
    }
  }

  /** The probe line says which of the three outcomes happened: the success
      line for true, the failure line for false, the error line ending in the
      exception's message for a throw. */
  lemma ProbeLineTellsOutcome(probe: ProbeResult)
    ensures ProbeLine(probe) == SuccessLine <==> probe == Returned(true)
    ensures ProbeLine(probe) == FailureLine <==> probe == Returned(false)
    ensures probe.Threw? <==> (ProbeLine(probe) != SuccessLine && ProbeLine(probe) != FailureLine)
    ensures probe.Threw? ==> OccursAt(ProbeLine(probe), probe.message, |ErrorPrefix|)
    ensures IsOutcomeLine(ProbeLine(probe))
  {
    assert SuccessLine[0] == '✅' && FailureLine[0] == '❌';
    assert FailureLine[2] == 'K';
    if probe.Threw? {
      var line := ErrorLine(probe.message);
      assert line[0] == '❌';
      assert line[2] == 'L';
      assert line[|ErrorPrefix|..] == probe.message;
    }
  }

  /** Of the program's own writes before the run phase, exactly one reports
      the probe, and it is the last. */
  lemma ExactlyOneOutcomeLine(env: string, cs: Option<string>, probe: ProbeResult)
    ensures forall i :: 0 <= i < |StartupLog(env, cs, probe)| ==>
      (IsOutcomeLine(StartupLog(env, cs, probe)[i]) <==> i == |StartupLog(env, cs, probe)| - 1)
  {
    var log := StartupLog(env, cs, probe);
    ProbeLineTellsOutcome(probe);
    ConfigureMarkers(env, if cs.Some? then Redact(cs.value) else "");
    assert |log| == 4;
  }

  /** The text after the first password token never reaches the log: for
      the same environment and the same probe result, two connection strings
      that differ only after their first password token produce the same log.
      The probe result itself may still depend on the password (the probe
      connects with the raw string), so the outcome line can show whether the
      password worked. */
  lemma SecretNeverLogged(env: string, p: string, secret1: string, secret2: string, probe: ProbeResult)
    requires !Contains(p, Token)
    ensures StartupLog(env, Some(p + Token + secret1), probe) == StartupLog(env, Some(p + Token + secret2), probe)
  {
    HidesSecret(p, secret1);
    HidesSecret(p, secret2);
    assert !IsNullOrEmpty(Some(p + Token + secret1)) by { assert |p + Token + secret1| >= |Token|; }
    assert !IsNullOrEmpty(Some(p + Token + secret2)) by { assert |p + Token + secret2| >= |Token|; }
  }
}
