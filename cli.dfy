/**
 * The release workflow behind `gdp deploy` and `gdp publish`: argument
 * checks, tag resolution, validation, the release note, the dry-run exit,
 * the out-of-hours confirmation, and the call that pushes the tag or
 * publishes the release.
 */
module Cli {
  import opened Wrappers
  import opened Strconv
  import opened Format
  import opened Gdp

  /** Exit codes. */
  const ExitSuccess: int := 0
  const ExitError: int := 1

  /** Sub-command names. */
  const CommandDeploy: string := "deploy"
  const CommandPublish: string := "publish"

  /** The safety window: deploys from SafetyHourStart:00 up to, not including, SafetyHourEnd:00. */
  const SafetyHourStart: int := 9
  const SafetyHourEnd: int := 19

  /** The program's version and usage line. */
  const Version: string := "v0.2.3"
  const Usage: string := "usage: gdp deploy|publish [options]"

  /** Messages the workflow writes. */
  const TooFewArguments: string := "Too few argument."
  const TooManyArguments: string := "Too many argument."
  const InvalidSubCommand: string := "Invalid sub command."
  const NoteHeading: string := "The release note is as follows."
  const NoteRule: string := "===================================="
  const PastRegularTime: string := "It's past the regular time. Is this a hot-fix release?"
  const PromptMark: string := "> "
  const Feedback: string := "Do not be satisfied with 'released', let's face user's feedback in sincerity!"

  /** An hour of the local clock, as `time.Time.Hour` gives it. */
  type Hour = h: int | 0 <= h < 24

  /** One byte read from standard input. */
  type Byte = b: int | 0 <= b < 256

  /** The bytes of `Y`, `y`, `N` and `n`. */
  const UpperY: Byte := 89
  const LowerY: Byte := 121
  const UpperN: Byte := 78
  const LowerN: Byte := 110

  /** The flags after parsing (`-v`, `-d`, `-f`, `-t`) and the arguments left over. */
  datatype FlagSet = FlagSet(version: bool, dryRun: bool, force: bool, tag: string, args: seq<string>)

  /**
   * What an invocation sees of its process: the flag parser's answer for an
   * argument list (None when it reports an error or help was asked for), the
   * hour of the local clock, the byte read from standard input (None when the
   * read fails), and today's date in the `YYYYMMDD` layout.
   */
  datatype Env = Env(
    parseFlags: seq<string> -> Option<FlagSet>,
    hour: Hour,
    stdin: Option<Byte>,
    today: string)

  predicate IsSubCommand(s: string) {
    s == CommandDeploy || s == CommandPublish
  }

  /** `isSafetyHour`: whether the hour lies inside the safety window. */
  function IsSafetyHour(hour: Hour): (safe: bool)
    ensures safe <==> 9 <= hour < 19
  {
    hour >= SafetyHourStart && hour < SafetyHourEnd
  }

  /** The answer to the confirmation prompt and the messages it prints. */
  datatype Reply = Reply(yes: bool, out: seq<string>, err: seq<string>)

  /** Whether a read byte confirms: `y` or `Y`. */
  predicate IsYes(input: Option<Byte>) {
    input == Some(UpperY) || input == Some(LowerY)
  }

  /** `yesOrNo` on the byte standard input gave (None for a failed read). */
  function YesOrNo(input: Option<Byte>): (r: Reply)
    ensures r.yes <==> IsYes(input)
    ensures input.None? ==> r.out == [] && r.err == []
    ensures input.Some? ==> |r.out| + |r.err| == 1
    ensures r.yes ==> r.err == []
    ensures !r.yes ==> r.out == []
  {
    match input
    case None => Reply(false, [], [])
    case Some(s) =>
      if s == UpperY || s == LowerY then Reply(true, ["OK. Take time."], [])
      else if s == UpperN || s == LowerN then Reply(false, [], ["Good choice."])
      else Reply(false, [], ["Please enter y or n."])
  }

  /** The verdict of `validate`, the calls it made, and the error it printed. */
  datatype Validation = Validation(ok: bool, calls: seq<Call>, errors: seq<string>)

  /**
   * When a release may go ahead: a deploy needs the master branch and a tag
   * not yet in the local repository; a publish needs the tag in the remote.
   */
  predicate ValidationPasses(gdp: Gateway, subCommand: string, tag: string) {
    if subCommand == CommandDeploy then gdp.isMasterBranch && tag !in gdp.tagsInLocal
    else tag in gdp.tagsInRemote
  }

  /** `validate(cli, subCommand, tag)`. */
  function Validate(gdp: Gateway, subCommand: string, tag: string): (v: Validation)
    ensures v.ok <==> ValidationPasses(gdp, subCommand, tag)
    ensures subCommand == CommandDeploy ==>
              && |v.calls| >= 1 && v.calls[0] == IsMasterBranch
              && (IsExistTagInLocal(tag) in v.calls <==> gdp.isMasterBranch)
    ensures subCommand != CommandDeploy ==> v.calls == [IsExistTagInRemote(tag)]
    ensures forall c | c in v.calls :: c.IsValidationQuery()
    ensures |v.errors| == if v.ok then 0 else 1
  {
    if subCommand == CommandDeploy then
      if !gdp.isMasterBranch then
        Validation(false, [IsMasterBranch], ["Branch is not master."])
      else if tag in gdp.tagsInLocal then
        Validation(false, [IsMasterBranch, IsExistTagInLocal(tag)], ["Tag is already exist in local."])
      else
        Validation(true, [IsMasterBranch, IsExistTagInLocal(tag)], [])
    else if tag !in gdp.tagsInRemote then
      Validation(false, [IsExistTagInRemote(tag)], ["Tag is not exist in remote."])
    else
      Validation(true, [IsExistTagInRemote(tag)], [])
  }

  // The stages of one invocation, each defined by the stage before it and
  // the answers of the environment and the gateway.

  /** What `Run` assumes of its collaborators: a date for today and a latest tag on one line. */
  predicate WellFormed(gdp: Gateway, env: Env) {
    IsDateStamp(env.today) && '\n' !in gdp.latestTag
  }

  /** Flags are parsed after the sub-command when `args[1]` names one, else from `args[1]` on. */
  function ParseIndex(args: seq<string>): (i: nat)
    requires |args| >= 2
    ensures 1 <= i <= 2 && i <= |args|
    ensures i == 2 <==> IsSubCommand(args[1])
  {
    if IsSubCommand(args[1]) then 2 else 1
  }

  /** The parsed flags, when there are at least two arguments and parsing succeeds. */
  function ParsedFlags(env: Env, args: seq<string>): Option<FlagSet> {
    if |args| < 2 then None else env.parseFlags(args[ParseIndex(args)..])
  }

  /** The invocation passes the argument checks and gets past the version flag. */
  predicate Proceeds(env: Env, args: seq<string>) {
    && |args| >= 2
    && ParsedFlags(env, args).Some?
    && !ParsedFlags(env, args).value.version
    && |ParsedFlags(env, args).value.args| <= 1
    && IsSubCommand(args[1])
  }

  function FlagsOf(env: Env, args: seq<string>): FlagSet
    requires Proceeds(env, args)
  {
    ParsedFlags(env, args).value
  }

  /**
   * The release tag: the `-t` flag verbatim if given; otherwise the next
   * version after the latest tag for a deploy, and the latest tag itself
   * for a publish.
   */
  function ResolvedTag(gdp: Gateway, env: Env, args: seq<string>): Result<string, NumError>
    requires WellFormed(gdp, env) && Proceeds(env, args)
  {
    var f := FlagsOf(env, args);
    if f.tag != "" then Success(f.tag)
    else if args[1] == CommandDeploy then GetNextVersion(gdp.latestTag, env.today)
    else Success(gdp.latestTag)
  }

  predicate TagResolved(gdp: Gateway, env: Env, args: seq<string>)
    requires WellFormed(gdp, env)
  {
    Proceeds(env, args) && ResolvedTag(gdp, env, args).Success?
  }

  function Tag(gdp: Gateway, env: Env, args: seq<string>): string
    requires WellFormed(gdp, env) && TagResolved(gdp, env, args)
  {
    ResolvedTag(gdp, env, args).value
  }

  /** Validation is skipped with `-f`, and passes otherwise. */
  predicate Validated(gdp: Gateway, env: Env, args: seq<string>)
    requires WellFormed(gdp, env)
  {
    && TagResolved(gdp, env, args)
    && (FlagsOf(env, args).force || ValidationPasses(gdp, args[1], Tag(gdp, env, args)))
  }

  /** The upper end of the merge-commit range: HEAD for a deploy, the tag for a publish. */
  function ToTag(subCommand: string, tag: string): string {
    if subCommand == CommandPublish then tag else "HEAD"
  }

  predicate NoteBuilt(gdp: Gateway, env: Env, args: seq<string>)
    requires WellFormed(gdp, env)
  {
    && Validated(gdp, env, args)
    && gdp.mergeCommitList(ToTag(args[1], Tag(gdp, env, args))).Success?
  }

  function Note(gdp: Gateway, env: Env, args: seq<string>): string
    requires WellFormed(gdp, env) && NoteBuilt(gdp, env, args)
  {
    var tag := Tag(gdp, env, args);
    GetReleaseNote(tag, gdp.mergeCommitList(ToTag(args[1], tag)).value)
  }

  /** A real (not dry-run) deploy outside the safety window asks for confirmation. */
  predicate AsksConfirmation(gdp: Gateway, env: Env, args: seq<string>)
    requires WellFormed(gdp, env)
  {
    && NoteBuilt(gdp, env, args)
    && !FlagsOf(env, args).dryRun
    && args[1] == CommandDeploy
    && !IsSafetyHour(env.hour)
  }

  /** The workflow reaches the call that pushes the tag or publishes the release. */
  predicate Executes(gdp: Gateway, env: Env, args: seq<string>)
    requires WellFormed(gdp, env)
  {
    && NoteBuilt(gdp, env, args)
    && !FlagsOf(env, args).dryRun
    && (AsksConfirmation(gdp, env, args) ==> IsYes(env.stdin))
  }

  /** That call: `Deploy` with the tag, or `Publish` with the tag and the displayed note. */
  function Execution(gdp: Gateway, env: Env, args: seq<string>): Call
    requires WellFormed(gdp, env) && Executes(gdp, env, args)
  {
    if args[1] == CommandDeploy then Deploy(Tag(gdp, env, args))
    else Publish(Tag(gdp, env, args), Note(gdp, env, args))
  }

  /** The gateway carries the execution out without error. */
  predicate Succeeds(gdp: Gateway, env: Env, args: seq<string>)
    requires WellFormed(gdp, env)
  {
    && Executes(gdp, env, args)
    && match Execution(gdp, env, args)
       case Deploy(tag) => gdp.deploy(tag).Pass?
       case Publish(tag, note) => gdp.publish(tag, note).Pass?
       case _ => false
  }

  // What one invocation does, stage by stage: the exit code, the calls on
  // the gateway in order, and the lines written to standard output and to
  // standard error. Each log is split at the stage where the method that
  // produces it hands over to the next.

  /** The version flag was given (and the argument checks before it passed). */
  predicate VersionAsked(env: Env, args: seq<string>) {
    ParsedFlags(env, args).Some? && ParsedFlags(env, args).value.version
  }

  /** The exit code: success for the version flag, a dry run, or an execution that succeeds. */
  function ExitCode(gdp: Gateway, env: Env, args: seq<string>): int
    requires WellFormed(gdp, env)
  {
    if || VersionAsked(env, args)
       || (NoteBuilt(gdp, env, args) && FlagsOf(env, args).dryRun)
       || Succeeds(gdp, env, args)
    then ExitSuccess
    else ExitError
  }

  /** The calls one invocation makes on the gateway, in order. */
  function CallLog(gdp: Gateway, env: Env, args: seq<string>): seq<Call>
    requires WellFormed(gdp, env)
  {
    if !Proceeds(env, args) then []
    else
      (if FlagsOf(env, args).tag == "" then [GetLatestTag] else []) +
      if TagResolved(gdp, env, args) then ReleaseCalls(gdp, env, args) else []
  }

  /** The calls from validation on. */
  function ReleaseCalls(gdp: Gateway, env: Env, args: seq<string>): seq<Call>
    requires WellFormed(gdp, env) && TagResolved(gdp, env, args)
  {
    (if FlagsOf(env, args).force then [] else Validate(gdp, args[1], Tag(gdp, env, args)).calls) +
    if Validated(gdp, env, args) then NoteCalls(gdp, env, args) else []
  }

  /** The calls from the merge-commit query on. */
  function NoteCalls(gdp: Gateway, env: Env, args: seq<string>): seq<Call>
    requires WellFormed(gdp, env) && Validated(gdp, env, args)
  {
    [GetMergeCommitList(ToTag(args[1], Tag(gdp, env, args)))] + ExecutionCalls(gdp, env, args)
  }

  /** The call that pushes the tag or publishes the release, when it is reached. */
  function ExecutionCalls(gdp: Gateway, env: Env, args: seq<string>): seq<Call>
    requires WellFormed(gdp, env)
  {
    if Executes(gdp, env, args) then [Execution(gdp, env, args)] else []
  }

  /** The note as displayed: a heading, then the note between two rules. */
  function NoteBlock(note: string): seq<string> {
    [NoteHeading, NoteRule, note, NoteRule]
  }

  /** The lines written to standard output. */
  function Stdout(gdp: Gateway, env: Env, args: seq<string>): seq<string>
    requires WellFormed(gdp, env)
  {
    if VersionAsked(env, args) then ["gdp version " + Version]
    else if !NoteBuilt(gdp, env, args) then []
    else
      NoteBlock(Note(gdp, env, args)) +
      if FlagsOf(env, args).dryRun then ["gdp " + args[1] + " done(dry-run mode)."]
      else ExecutionOut(gdp, env, args)
  }

  /** Standard output after the note of a real run: the confirmation dialogue and the report. */
  function ExecutionOut(gdp: Gateway, env: Env, args: seq<string>): seq<string>
    requires WellFormed(gdp, env) && NoteBuilt(gdp, env, args)
  {
    (if AsksConfirmation(gdp, env, args) then [PastRegularTime, PromptMark] + YesOrNo(env.stdin).out
     else []) +
    if Succeeds(gdp, env, args) then ["gdp " + args[1] + " done.", Feedback] else []
  }

  /** The lines written to standard error (the flag parser's own messages aside). */
  function Stderr(gdp: Gateway, env: Env, args: seq<string>): seq<string>
    requires WellFormed(gdp, env)
  {
    if |args| < 2 then [TooFewArguments, Usage]
    else if ParsedFlags(env, args).None? || VersionAsked(env, args) then []
    else if |ParsedFlags(env, args).value.args| > 1 then [TooManyArguments, Usage]
    else if !IsSubCommand(args[1]) then [InvalidSubCommand, Usage]
    else if !TagResolved(gdp, env, args) then
      ["Getting release tag error: " + ResolvedTag(gdp, env, args).error.Message() + "."]
    else ReleaseErrors(gdp, env, args)
  }

  /** Standard error from validation on. */
  function ReleaseErrors(gdp: Gateway, env: Env, args: seq<string>): seq<string>
    requires WellFormed(gdp, env) && TagResolved(gdp, env, args)
  {
    (if FlagsOf(env, args).force then [] else Validate(gdp, args[1], Tag(gdp, env, args)).errors) +
    if Validated(gdp, env, args) then NoteErrors(gdp, env, args) else []
  }

  /** Standard error from the merge-commit query on. */
  function NoteErrors(gdp: Gateway, env: Env, args: seq<string>): seq<string>
    requires WellFormed(gdp, env) && Validated(gdp, env, args)
  {
    if !NoteBuilt(gdp, env, args) then
      ["Getting merge commit error: " + gdp.mergeCommitList(ToTag(args[1], Tag(gdp, env, args))).error + "."]
    else if FlagsOf(env, args).dryRun then []
    else ExecutionErrors(gdp, env, args)
  }

  /** Standard error after the note of a real run: the refused confirmation, or the gateway's error. */
  function ExecutionErrors(gdp: Gateway, env: Env, args: seq<string>): seq<string>
    requires WellFormed(gdp, env) && NoteBuilt(gdp, env, args) && !FlagsOf(env, args).dryRun
  {
    (if AsksConfirmation(gdp, env, args) then YesOrNo(env.stdin).err else []) +
    if !Executes(gdp, env, args) then []
    else if args[1] == CommandDeploy then
      var r := gdp.deploy(Tag(gdp, env, args));
      if r.Fail? then ["Deploy execution error: " + r.error + "."] else []
    else
      var r := gdp.publish(Tag(gdp, env, args), Note(gdp, env, args));
      if r.Fail? then ["Publish execution error: " + r.error + "."] else []
  }

  /**
   * `CLI.Run(args)`: returns the exit code, the calls made on the gateway in
   * order, and the lines written to standard output and standard error. The
   * argument checks are here; the rest of the pass continues in
   * `ResolveTag`, `Release`, `ShowNote` and `Execute`.
   */
  method Run(gdp: Gateway, env: Env, args: seq<string>)
    returns (code: int, calls: seq<Call>, out: seq<string>, err: seq<string>)
    requires WellFormed(gdp, env)
    ensures code == ExitCode(gdp, env, args)
    ensures calls == CallLog(gdp, env, args)
    ensures out == Stdout(gdp, env, args)
    ensures err == Stderr(gdp, env, args)
  {
    calls, out, err := [], [], [];
    if |args| < 2 {
      err := err + [TooFewArguments, Usage];
      return ExitError, calls, out, err;
    }

    var parseIndex := 1;
    if args[1] == CommandDeploy || args[1] == CommandPublish {
      parseIndex := parseIndex + 1;
    }
    var parsed := env.parseFlags(args[parseIndex..]);
    if parsed.None? {
      return ExitError, calls, out, err;
    }
    var flags := parsed.value;

    if flags.version {
      out := out + ["gdp version " + Version];
      return ExitSuccess, calls, out, err;
    }

    if |flags.args| > 1 {
      err := err + [TooManyArguments, Usage];
      return ExitError, calls, out, err;
    }

    var subCommand := args[1];
    if subCommand != CommandDeploy && subCommand != CommandPublish {
      err := err + [InvalidSubCommand, Usage];
      return ExitError, calls, out, err;
    }
    assert Proceeds(env, args) && FlagsOf(env, args) == flags;
    code, calls, out, err := ResolveTag(gdp, env, args, flags);
  }

  /** `CLI.Run` at the tag step: the `-t` flag, or the next or latest tag from the gateway. */
  method ResolveTag(gdp: Gateway, env: Env, args: seq<string>, flags: FlagSet)
    returns (code: int, calls: seq<Call>, out: seq<string>, err: seq<string>)
    requires WellFormed(gdp, env) && Proceeds(env, args) && flags == FlagsOf(env, args)
    ensures code == ExitCode(gdp, env, args)
    ensures calls == CallLog(gdp, env, args)
    ensures out == Stdout(gdp, env, args)
    ensures err == Stderr(gdp, env, args)
  {
    calls, out, err := [], [], [];
    var tag := flags.tag;
    if tag == "" {
      calls := calls + [GetLatestTag];
      var latestTag := gdp.latestTag;
      if args[1] == CommandDeploy {
        var next := GetNextVersion(latestTag, env.today);
        if next.Failure? {
          err := err + ["Getting release tag error: " + next.error.Message() + "."];
          return ExitError, calls, out, err;
        }
        latestTag := next.value;
      }
      tag := latestTag;
    }

    var rest;
    code, rest, out, err := Release(gdp, env, args, tag);
    calls := calls + rest;
  }

  /** `CLI.Run` at the validation step: validate unless forced. */
  method Release(gdp: Gateway, env: Env, args: seq<string>, tag: string)
    returns (code: int, calls: seq<Call>, out: seq<string>, err: seq<string>)
    requires WellFormed(gdp, env) && TagResolved(gdp, env, args) && tag == Tag(gdp, env, args)
    ensures code == ExitCode(gdp, env, args)
    ensures calls == ReleaseCalls(gdp, env, args)
    ensures out == Stdout(gdp, env, args)
    ensures err == ReleaseErrors(gdp, env, args)
  {
    calls, out, err := [], [], [];
    if !FlagsOf(env, args).force {
      var v := Validate(gdp, args[1], tag);
      calls := calls + v.calls;
      err := err + v.errors;
      if !v.ok {
        assert !Validated(gdp, env, args) && !NoteBuilt(gdp, env, args);
        return ExitError, calls, out, err;
      }
    }

    var rest, errs;
    code, rest, out, errs := ShowNote(gdp, env, args, tag);
    calls, err := calls + rest, err + errs;
  }

  /**
   * `CLI.Run` from the merge-commit query to the dry-run exit: fetch the
   * merge commits, build and show the note.
   */
  method ShowNote(gdp: Gateway, env: Env, args: seq<string>, tag: string)
    returns (code: int, calls: seq<Call>, out: seq<string>, err: seq<string>)
    requires WellFormed(gdp, env) && Validated(gdp, env, args) && tag == Tag(gdp, env, args)
    ensures code == ExitCode(gdp, env, args)
    ensures calls == NoteCalls(gdp, env, args)
    ensures out == Stdout(gdp, env, args)
    ensures err == NoteErrors(gdp, env, args)
  {
    calls, out, err := [], [], [];
    var subCommand := args[1];
    var toTag := "HEAD";
    if subCommand == CommandPublish {
      toTag := tag;
    }

    calls := calls + [GetMergeCommitList(toTag)];
    var list := gdp.mergeCommitList(toTag);
    if list.Failure? {
      assert !NoteBuilt(gdp, env, args) && !Executes(gdp, env, args);
      err := err + ["Getting merge commit error: " + list.error + "."];
      return ExitError, calls, out, err;
    }

    var note := GetReleaseNote(tag, list.value);
    assert NoteBuilt(gdp, env, args) && note == Note(gdp, env, args);
    out := out + NoteBlock(note);

    if FlagsOf(env, args).dryRun {
      assert !Executes(gdp, env, args);
      out := out + ["gdp " + subCommand + " done(dry-run mode)."];
      return ExitSuccess, calls, out, err;
    }

    var rest, more, errs;
    code, rest, more, errs := Execute(gdp, env, args, tag, note);
    calls, out, err := calls + rest, out + more, err + errs;
  }

  /**
   * `CLI.Run` from the execution on: confirm a deploy outside the safety
   * window, then push the tag or publish the release, and report.
   */
  method Execute(gdp: Gateway, env: Env, args: seq<string>, tag: string, note: string)
    returns (code: int, calls: seq<Call>, out: seq<string>, err: seq<string>)
    requires WellFormed(gdp, env) && NoteBuilt(gdp, env, args) && !FlagsOf(env, args).dryRun
    requires tag == Tag(gdp, env, args) && note == Note(gdp, env, args)
    ensures code == ExitCode(gdp, env, args)
    ensures calls == ExecutionCalls(gdp, env, args)
    ensures out == ExecutionOut(gdp, env, args)
    ensures err == ExecutionErrors(gdp, env, args)
  {
    calls, out, err := [], [], [];
    var subCommand := args[1];
    if subCommand == CommandDeploy {
      if !IsSafetyHour(env.hour) {
        out := out + [PastRegularTime, PromptMark];
        var reply := YesOrNo(env.stdin);
        out := out + reply.out;
        err := err + reply.err;
        if !reply.yes {
          return ExitError, calls, out, err;
        }
      }
      calls := calls + [Deploy(tag)];
      var result := gdp.deploy(tag);
      if result.Fail? {
        err := err + ["Deploy execution error: " + result.error + "."];
        return ExitError, calls, out, err;
      }
    } else {
      calls := calls + [Publish(tag, note)];
      var result := gdp.publish(tag, note);
      if result.Fail? {
        err := err + ["Publish execution error: " + result.error + "."];
        return ExitError, calls, out, err;
      }
    }

    out := out + ["gdp " + subCommand + " done.", Feedback];
    return ExitSuccess, calls, out, err;
  }
}
