# gdp release workflow, modelled in Dafny

`gdp` is a small command-line tool for releasing from git. `gdp deploy`
works out the next release tag, checks that the current branch is master
and that the tag is new, shows a release note built from the merge commits
since the previous tag, asks for confirmation outside office hours, and then
pushes the tag. `gdp publish` checks that the tag is already in the remote
repository and creates a GitHub release carrying the same note. `-d` is a
dry run, `-f` skips the repository checks, `-t` names the tag explicitly,
and `-v` prints the version.

The model is split into these modules:

- `Format` (format.dfy) covers the next-tag computation and the release-note text.
  - Tags follow one of two schemes. A semantic tag such as `v1.2.3` has its last segment counted up.
  - A dated tag such as `release_20180525.3` restarts at `.1` on a new day, or counts up its minor part on the same day.
  - The empty tag becomes `v1.0.0`.
- `Strings` (strings.dfy) models the parts of Go's `strings.Split` and `strings.Join` these computations use, with their round trips.
- `Strconv` (strconv.dfy) models Go's `strconv.Atoi` and `strconv.Itoa` on 64-bit `int`, with their error values and their round trip.
- `Gdp` (gdp.dfy) is the `Gdp` interface the workflow reaches git and hub through.
  - A `Gateway` is the record of the answers one implementation gives.
  - A `Call` records one call in the log.
- `Cli` (cli.dfy) covers `CLI.Run` and its helpers `validate`, `isSafetyHour` and `yesOrNo`.
  - `Run` is an imperative method with the source's early returns. It produces:
    - the exit code;
    - the gateway call log;
    - the lines written to standard output and standard error.
  - For the proof, the single pass is cut into five consecutive methods, each handing over to the next: `Run`, then `ResolveTag`, `Release`, `ShowNote` and `Execute`.
  - The reference functions are defined stage by stage through the predicates `Proceeds`, `TagResolved`, `Validated`, `NoteBuilt`, `AsksConfirmation`, `Executes` and `Succeeds`.
  - `Run` and `ResolveTag` are proved equal to the whole-run functions `ExitCode`, `CallLog`, `Stdout` and `Stderr`.
  - The later stages are proved equal to `ExitCode` and to the tails of the logs from their stage on:
    - `Release`: `ReleaseCalls`, `Stdout` and `ReleaseErrors`;
    - `ShowNote`: `NoteCalls`, `Stdout` and `NoteErrors`;
    - `Execute`: `ExecutionCalls`, `ExecutionOut` and `ExecutionErrors`.
- `CliProperties` (cli_properties.dfy) proves the workflow's promises about those functions. Examples:
  - No gateway call happens before the argument checks pass.
  - `-f` skips every check.
  - A deploy outside 9:00–19:00 is pushed only after `y` or `Y`.
  - `Publish` receives exactly the note that was displayed.

The process's surroundings are inputs (`Cli.Env`):

- the flag parser's answer;
- the hour of the local clock;
- the byte read from standard input (or a failed read);
- today's date as `YYYYMMDD`.

## Model

| member | source | states |
|---|---|---|
| Strings.Split | format.go:16 | splitting on `.` gives at least one piece, and no piece contains the separator |
| Strings.Join | format.go:27 | joining the segments with `.`; its contract is carried by the round trips `JoinSplit` and `SplitJoin` and by `JoinAvoids` |
| Strings.JoinSplit | format.go:16-27 | joining the pieces of a split with the same separator gives back the original string |
| Strings.SplitJoin | format.go:26-27 | splitting a join of separator-free pieces gives back exactly those pieces |
| Strings.SplitNoSeparator | format.go:16-17 | a string without the separator splits into itself alone |
| Strings.SplitHead | format.go:16-17 | a separator-free head followed by the separator splits off as the first piece |
| Strings.SplitAvoids | format.go:16 | a character absent from the string is absent from every piece |
| Strings.JoinAvoids | format.go:27 | a character other than the separator that is absent from every piece is absent from the join |
| Strconv.DigitValue | format.go:21 | the value of a decimal digit is below ten |
| Strconv.DigitChar | format.go:26 | the digit written for a value below ten is a decimal digit with that value |
| Strconv.NatToDecimal | format.go:26 | the decimal writing of a natural number is a non-empty digit string without leading zero whose value is the number |
| Strconv.Atoi | format.go:21-24 | succeeds exactly on an optional sign followed by decimal digits whose value fits in 64 bits, and then yields that value; a failure names the input and reports out-of-range exactly for well-formed literals |
| Strconv.Itoa | format.go:26 | the decimal form of an integer is non-empty, all digits except a leading minus sign, which appears exactly for negative numbers, and has no leading zero (after the sign) unless it is `0` itself |
| Strconv.AtoiDigit | format.go:21 | a single decimal digit parses to its value |
| Strconv.NumError.Message | cli.go:96-99 | the text of an Atoi error begins `strconv.Atoi: parsing `, then the input between quotes, and ends in `invalid syntax` for a syntax error or `value out of range` for a range error |
| Strconv.AtoiItoa | format.go:21-26 | every 64-bit integer written by Itoa parses back to itself |
| Strconv.ItoaAvoids | format.go:26-27 | the decimal form of an integer never contains a `.` or any other character that is neither a digit nor `-` |
| Format.Increment | format.go:26 | `n + 1` on 64-bit `int`: stays in range, equals `n + 1` below the maximum and wraps around modulo 2^64 at it |
| Format.MatchDated | format.go:34-35 | a match of the dated pattern on a tag with at most one dot splits the tag into a dot-free prefix, eight ASCII digits, a dot and a non-empty dot-free minor that concatenate to the tag |
| Format.MatchDatedComplete | format.go:34-35 | every tag of the dated shape matches, with exactly its prefix, date and minor |
| Format.SplitPair | format.go:16-17 | two dot-free strings joined by one dot split into exactly those two |
| Format.GetNextVersion | format.go:11-48 | the empty tag gives `v1.0.0`; a failure is the Atoi error of the last segment of a semantic tag, or of the minor of a tag dated today |
| Format.SemanticBump | format.go:16-27 | for more than two dot-free segments with an integer last segment, the next version is the join with only the last segment replaced by the decimal of its value plus one |
| Format.SemanticNext | format.go:16-27 | for a semantic tag with an integer last segment, the next version has the same number of segments, all but the last unchanged, the last the decimal of its value plus one |
| Format.SemanticBadPatch | format.go:20-24 | a semantic tag whose last segment is not an integer gives exactly that segment's Atoi error and no tag |
| Format.DatedSameDay | format.go:34-43 | a tag dated today with an integer minor becomes prefix, today, `.` and the minor plus one; the prefix is kept |
| Format.DatedSameDayBadMinor | format.go:36-40 | a tag dated today with a non-integer minor gives exactly the Atoi error of the minor |
| Format.DatedStale | format.go:34-45 | a tag dated another day becomes prefix, today and `.1`; the old minor is dropped |
| Format.UndatedNoDot | format.go:47 | a non-empty tag without a dot becomes today and `.1` |
| Format.UndatedOneDot | format.go:47 | a one-dot tag without eight digits before the dot or without a minor becomes today and `.1`, losing any prefix |
| Format.PrefixAvoids | format.go:35-43 | the prefix of a dated match contains no character the tag did not |
| Format.FirstVersionIsBumpable | format.go:12-14 | the first version `v1.0.0` is a semantic tag with an integer last segment |
| Format.SemanticNextIsBumpable | format.go:20-27 | the next version of a bumpable semantic tag is again a bumpable semantic tag |
| Format.TodayDatedIsBumpable | format.go:34-43 | a tag dated today with an integer minor is in the shape that counts up |
| Format.DatedNextIsBumpable | format.go:30-47 | the next version of any non-empty non-semantic tag is dated today with an integer minor |
| Format.NextKeepsScheme | format.go:11-48 | a successful next version of the empty or a semantic tag is a bumpable semantic tag, and of any other tag a bumpable tag dated today |
| Format.NextIsIterable | format.go:11-48 | a successful next version is again on one line and has a next version itself |
| Format.ExampleEmpty | format.go:12-14 | `""` gives `v1.0.0` |
| Format.ThreePartBumpJoined | format.go:16-27 | three dot-free segments joined by `.`, the last an integer, give the join with the last replaced by the decimal of its value plus one |
| Format.ThreePartBump | format.go:16-27 | the same for a three-segment tag written out as `major.minor.patch` |
| Format.JoinThree | format.go:27 | joining three segments with `.` puts one dot between each pair |
| Format.ExampleSemanticWithPrefix | format.go:16-27 | `v3.1.5` gives `v3.1.6` |
| Format.ExampleSemanticPlain | format.go:16-27 | `4.2.6` gives `4.2.7` |
| Format.ExampleSemanticSigned | format.go:21-27 | `1.2.-1` gives `1.2.0`, since Atoi accepts a sign |
| Format.ExampleSemanticError | format.go:21-24 | `4.2.semantic` gives an invalid-syntax error for `semantic` |
| Format.ExampleDatedStale | format.go:45 | `20180525.1` gives today and `.1` on any other day |
| Format.ExampleDatedStaleWithPrefix | format.go:45 | `release_20180525.1` gives `release_`, today and `.1` on any other day |
| Format.ExampleDatedSameDay | format.go:36-43 | today and `.1` gives today and `.2` |
| Format.ExampleDatedSameDayWithPrefix | format.go:36-43 | `release_`, today and `.1` gives `release_`, today and `.2` |
| Format.ExampleDatedError | format.go:37-40 | today and `.date` gives an invalid-syntax error for `date` |
| Format.ExampleUndated | format.go:47 | `v1.2` and `release` both give today and `.1` |
| Format.GetReleaseNote | format.go:51-53 | the note starts with `Release ` and the tag, ends with the merge-commit list as an exact suffix, and is twice the tag plus the list plus 14 characters long |
| Format.ReleaseNoteLayout | format.go:52 | the note is `Release `, the tag, a blank line, a `## ` heading with the tag, a newline and the list |
| Format.IndexOf | format.go:52 | the first position of a character in a string, or its length when absent |
| Format.ParseReleaseNote | format.go:52 | a note read back into a one-line tag and a list is exactly the note of that tag and list |
| Format.ReleaseNoteRoundTrip | format.go:51-53 | the note of a one-line tag reads back to that tag and list |
| Format.ReleaseNoteInjective | format.go:51-53 | two one-line tags and lists with the same note are equal |
| Cli.IsSafetyHour | cli.go:192-199 | the hour is safe exactly when it is from 9 up to, not including, 19 |
| Cli.YesOrNo | cli.go:201-218 | the answer is yes exactly for the bytes `Y` and `y`; a failed read prints nothing; any byte prints exactly one message, on standard output for yes and on standard error otherwise |
| Cli.Validate | cli.go:172-190 | passes exactly when a deploy is on master with a tag new to the local repository, or a publish has its tag in the remote; a deploy asks for the branch first and for the local tag only on master; a publish asks only for the remote tag; there is one error message exactly on failure |
| Cli.ParseIndex | cli.go:65-68 | flags start at index 2 exactly when `args[1]` is `deploy` or `publish`, and at index 1 otherwise |
| Cli.Run | cli.go:38-104 | the exit code, call log, standard output and standard error are those of the stage-by-stage reference definition; the argument checks are here, the rest is handed to `ResolveTag` |
| Cli.ResolveTag | cli.go:93-104 | from the tag resolution on, the run produces the reference exit code, calls, output and errors; a failed next version is reported as `Getting release tag error: ` and the Atoi error text |
| Cli.Release | cli.go:106-109 | from validation on, the run produces the reference exit code, calls, output and errors |
| Cli.ShowNote | cli.go:111-132 | from the merge-commit query to the dry-run exit, the run produces the reference exit code, calls, output and errors |
| Cli.Execute | cli.go:134-159 | from the confirmation to the report, the run produces the reference exit code, calls, output and errors |
| CliProperties.QueriesChangeNothing | cli.go:93-121 | the calls before the execution never push or publish |
| CliProperties.CallLogSplit | cli.go:93-153 | the call log is the queries followed by at most one execution, and any execution in it is the one the run reaches, with its arguments |
| CliProperties.ArgumentChecksComeFirst | cli.go:59-91 | a run stopped by too few or too many arguments, an unknown sub-command, a flag error or `-v` makes no gateway call; it succeeds exactly for `-v`, which prints `gdp version v0.2.3` and nothing on standard error; too few arguments print the message and the usage |
| CliProperties.ExplicitTagIsVerbatim | cli.go:93-104 | a `-t` tag is used verbatim and the latest tag is never asked for |
| CliProperties.LatestTagAskedFirst | cli.go:93-94 | without `-t`, the latest tag is the first gateway call |
| CliProperties.DeployTagIsNextVersion | cli.go:93-101 | without `-t`, a deploy uses the next version after the latest tag; if that fails, the run fails after that one call and prints nothing on standard output |
| CliProperties.PublishTagIsLatest | cli.go:93-104 | without `-t`, a publish uses the latest tag unchanged |
| CliProperties.ForceSkipsValidation | cli.go:107 | with `-f`, neither the branch nor the local or remote tag is checked |
| CliProperties.DeployValidationOrder | cli.go:172-181 | without `-f`, a deploy goes ahead exactly on master with a tag new to the local repository; the branch is always checked, and off master the local tag never is |
| CliProperties.PublishValidation | cli.go:182-187 | without `-f`, a publish goes ahead exactly when the tag is in the remote, which is always checked |
| CliProperties.ValidationFailureStops | cli.go:107-109 | a failed validation exits with an error and one message, before the merge-commit query and without any execution |
| CliProperties.MergeCommitRange | cli.go:111-121 | the merge commits are asked for exactly once validation passes, up to `HEAD` for a deploy and up to the tag for a publish |
| CliProperties.MergeFailureStops | cli.go:117-121 | a failed merge-commit query exits with an error, prints no note and executes nothing |
| CliProperties.DryRunChangesNothing | cli.go:123-132 | a dry run shows the note and succeeds, without the prompt and without any execution |
| CliProperties.PromptOnlyOutsideSafetyHours | cli.go:135-139 | the prompt appears exactly when a real deploy runs outside 9–19, together with the hot-fix question; a publish never asks |
| CliProperties.NoUnconfirmedDeploy | cli.go:135-147 | a deploy is pushed outside the safety window only after `y` or `Y`; any other answer or a failed read exits with an error and executes nothing |
| CliProperties.ExecutionIsLast | cli.go:135-153 | the log holds at most one execution, as its last call, and holds one exactly when the run reaches it |
| CliProperties.ExecutionArguments | cli.go:123-153 | `Deploy` receives the resolved tag; `Publish` receives the resolved tag and exactly the release note built from the merge commits up to it, which is the note displayed |
| CliProperties.ExecutionDecidesExitCode | cli.go:144-159 | once the execution is reached, the run succeeds exactly when the gateway reports no error; otherwise the last line on standard error is `Deploy execution error: ` or `Publish execution error: ` followed by the gateway's error text and `.` |
| CliProperties.SuccessIsQuiet | cli.go:38-160 | a run that exits successfully writes nothing to standard error |
| CliProperties.DeployPushesNextVersion | cli.go:93-147 | a successful deploy without `-t` pushes the next version after the latest tag |

## Left out

- The implementation of the `Gdp` interface in command.go is not part of this model: it runs `git` and `hub` and looks up files and the user's home directory. The answers it would give are the fields of a `Gateway`.
- main.go is not part of this model: it wires the standard streams and calls `os.Exit`. Only its constants `Version` and `Usage` are used.
- time.go's replaceable clock is not part of this model. The hour (cli.go:193) and today's date (format.go:31-32) are inputs.
- Flag parsing by Go's `flag` package is not modelled. This covers unknown flags, `-h` and the parser's own messages. `Env.parseFlags` stands for the parser's answer on `args[parseIndex:]`.
- `printSuccess` and `printError` are left out: colouring and re-formatting. They wrap a message in colour codes and pass it through `fmt.Sprintf` a second time. A `%` inside an error text would then be rewritten. The model writes messages verbatim, and each write is one element of `Stdout`/`Stderr` (the multi-line release note is one element); a line written without a newline, such as the `> ` prompt, is an element too.
- The `%q` quoting in Atoi's error message is left out: `NumError.Message` quotes the input with plain `"` and does not escape.
- Strconv.Atoi: for malformed inputs longer than 18 characters, Go may report "value out of range" instead of "invalid syntax". The model reports invalid syntax for every malformed input. Which inputs fail is the same.
- Format.GetNextVersion: tags containing a newline are excluded by precondition, because git tag names cannot contain control characters and the pattern's `.` does not match a newline.
- Format.MatchDated: the pattern `(.*)(\d{8})(\.)(.+)` is modelled only where the source applies it, on tags with at most one dot. No general regular-expression engine is modelled.
- Format.Increment: Go's `int` is taken to be 64 bits wide.
- Reading standard input is not modelled in full: only the first byte is an input.
- Concurrency and the time between displaying the note and calling the gateway are not modelled.
