# Startup diagnostics of the management app

A model of the top-level program of the management app (`Program.cs`). While
the generic host is built, its `ConfigureServices` callback reads the
`DefaultConnection` connection string, writes a line naming the hosting
environment and a line naming the two configuration files
(`appsettings.json` and `appsettings.{environment}.json`), then either a
warning (null or empty connection string) or the connection string with its
password masked, and registers the PostgreSQL database context with the
migrations-history table `__EFMigrationsHistory` in schema `ManagementApp`.
After the build, one connectivity probe writes exactly one of three lines
(success, failure, or the message of the exception it threw), and the host
then runs whatever the outcome.

Modules:

- `Strings` (`strings.dfy`): ordinal substring search, the model of
  `String.Contains` and `String.IndexOf`.
- `Redaction` (`redaction.dfy`): the password mask, a pure function, with
  lemmas about where it cuts, what it keeps and that it is idempotent.
- `Startup` (`startup.dfy`): the console as a class holding the lines written
  so far, the configuration callback and the probe as methods that append to
  it, the whole script as `Program`, and specification functions
  (`ConfigureLog`, `ProbeLine`, `StartupLog`) with lemmas about the order and
  the content of the log.

Idempotence of the mask rests on a property of the token itself:
`Password=` cannot overlap a copy of itself (its `P` occurs only at index 0),
so in `prefix + "Password=***"` with a token-free prefix the first token is
the one the mask begins with (`Redaction.TokenDoesNotOverlapItself`).

When the connection string is null or empty, `Program.cs:18-21` writes the
warning in place of the connection line.

The mask hides only what follows the exact, case-sensitive key `Password=`.
A connection string whose password is given under another spelling
(`password=`, `PWD=`) contains no such key and is written unchanged, as
`Program.cs:25-27` does; `Startup.SecretNeverLogged` is about the
`Password=` key alone.

## Model

| member | source | states |
|---|---|---|
| `Strings.IndexFrom` | Program.cs:26 | the result is -1 or an index at or after the start where the pattern occurs, and the pattern occurs nowhere between the start and the result |
| `Strings.IndexOf` | Program.cs:26 | -1 exactly when the pattern does not occur; otherwise the first index at which it occurs |
| `Strings.IndexOfIsFirst` | Program.cs:26 | any first occurrence is the one IndexOf returns |
| `Strings.PrefixBeforeFirstIsClean` | Program.cs:26 | the part of a string before the first occurrence of a non-empty pattern does not contain it |
| `Redaction.Redact` | Program.cs:25-27 | a string without `Password=` is returned unchanged; otherwise the result is the input up to the first `Password=` followed by exactly `Password=***`, and the cut is at the first occurrence |
| `Redaction.RedactCutsAtFirstToken` | Program.cs:25-26 | with k the first index of `Password=`, the display string is the first k characters plus `Password=***`, its length is k + 12, and its kept prefix holds no `Password=` |
| `Redaction.TokenDoesNotOverlapItself` | Program.cs:26 | no proper suffix of `Password=` is a prefix of it |
| `Redaction.FirstTokenAfterCleanPrefix` | Program.cs:26 | in `p + "Password=" + rest` with `p` free of the token, the first token starts right after `p`, for every `rest` |
| `Redaction.HidesSecret` | Program.cs:24-27 | everything after the first `Password=` is replaced: `p + "Password=" + secret` displays as `p + "Password=***"` whatever the secret |
| `Redaction.RedactIdempotent` | Program.cs:25-27 | redacting a redacted string returns it unchanged |
| `Redaction.RedactExample` | Program.cs:25-27 | `Host=h;Password=secret123;Other=x` displays as `Host=h;Password=***` |
| `Startup.IsNullOrEmpty` | Program.cs:18 | a connection string counts as present exactly when it is non-null and has at least one character |
| `Startup.ConfigureLog` | Program.cs:14-29 | three lines: the environment line, the file note, then the warning for a null or empty connection string or else a connection line whose text after the prefix is the redacted string |
| `Startup.ProbeLine` | Program.cs:45-57 | the probe always yields an outcome line (success or failure marker), and for a thrown exception the error prefix followed by exactly its message |
| `Startup.StartupLog` | Program.cs:14-58 | four lines: the three configuration lines followed by one outcome line |
| `Startup.Console.WriteLine` | Program.cs:15-57 | each diagnostic write appends its argument as one element to the sequence of values Program.cs passes to Console.WriteLine (one element per call) and leaves the earlier elements as they were |
| `Startup.ConfigureServices` | Program.cs:11-35 | appends the environment line, the file note, then the warning for a null or empty connection string or else the redacted connection line; registers the database with the raw connection string, `__EFMigrationsHistory` and `ManagementApp` in both branches |
| `Startup.ProbeConnection` | Program.cs:43-58 | appends exactly one line for the probe result: success for true, failure for false, the error line with the message for a throw; no exception leaves it |
| `Startup.Program` | Program.cs:7-61 | the whole log is the configuration lines followed by the one probe line, the database is registered with the raw connection string and the fixed history table and schema, and, for every probe result, the run phase is reached: the probe's exception is caught; exceptions outside the probe's try block are not modelled |
| `Startup.ConfigureMarkers` | Program.cs:15-28 | the environment, file-note, warning and connection lines start with distinct markers |
| `Startup.LogOpensWithEnvironmentAndSources` | Program.cs:14-16 | the log has four lines, opens with the environment line, then the file note, which names `appsettings.json` and `appsettings.{environment}.json` |
| `Startup.WarningOrConnectionLine` | Program.cs:18-29 | the warning is written exactly when the connection string is null or empty, a connection line exactly when it is not, and that line shows the redacted string |
| `Startup.ProbeLineTellsOutcome` | Program.cs:45-57 | the success line exactly for true, the failure line exactly for false, the error line (neither of those, ending in the exception's message) exactly for a throw |
| `Startup.ExactlyOneOutcomeLine` | Program.cs:15-58 | of the program's own Console.WriteLine calls before the run phase, exactly one reports the probe, and it is the last |
| `Startup.SecretNeverLogged` | Program.cs:24-28 | the text after the first `Password=` never reaches the log: for the same environment and the same probe result, two connection strings that differ only after their first `Password=` produce the same log (the probe result itself may depend on the password, so the outcome line can show whether it worked) |

## Left out

- Host building and service registration (`Host.CreateDefaultBuilder`, `AddDbContext`, `UseNpgsql`, `Program.cs:7-8, 31-37`): library wiring; the registration is modelled as a record of the connection string, history table and schema handed to it.
- Configuration layering and `GetConnectionString` (`Program.cs:11`): the resolved value is an input, null modelled as `None`.
- The real `CanConnectAsync` network probe (`Program.cs:45`): its outcome (a boolean or an exception message) is an input.
- Startup.Program: exceptions outside the probe's try block are not modelled, so reaching the run phase is promised only when neither of these throws: resolving the database context (`Program.cs:42`, which runs the `UseNpgsql` options callback and, with some provider versions, rejects a null or empty connection string) and the redaction expression (`Program.cs:25-26`, where a culture-sensitive `IndexOf` returning -1 after an ordinal `Contains` match would make `Substring` throw out of `Build()`).
- `host.RunAsync` (`Program.cs:61`): the long-running host is modelled only as reaching the `Running` phase.
- The `using` scope and the disposal of the database context (`Program.cs:40-42`): resource release is not modelled.
- `String.IndexOf(string)` is culture-sensitive in .NET while `String.Contains(string)` is ordinal; both are modelled as ordinal search, so culture-specific matches of `Password=` are not captured.
- The console is modelled as the values Program.cs passes to `Console.WriteLine`, one element per call. Output of the console logger that `Host.CreateDefaultBuilder` (`Program.cs:7`) registers, such as what the database provider logs during the probe at `Program.cs:45`, is not modelled, and neither are line breaks inside a written value (the environment name, the connection string, the exception message), which would split one call into several lines of standard output.
- Message texts are opaque constants with the source's characters; no encoding or console rendering is modelled.
- `src/Infrastructure/DependencyInjection.cs` (the registration helper that throws on a null or empty connection string) and `src/Infrastructure/Data/ApplicationDbContext.cs` (default schema `ManagementApp`) are not part of this model: both are library registration with no logic beyond one guard.
