/**
 * Properties of one `gdp` invocation, stated on the exit code, call log and
 * output lines that `Cli.Run` is proved to produce.
 */
module CliProperties {
  import opened Wrappers
  import opened Format
  import opened Gdp
  import opened Cli

  /** The queries a run makes before the execution, in order. */
  function Queries(gdp: Gateway, env: Env, args: seq<string>): seq<Call>
    requires WellFormed(gdp, env)
  {
    if !Proceeds(env, args) then []
    else
      (if FlagsOf(env, args).tag == "" then [GetLatestTag] else []) +
      if !TagResolved(gdp, env, args) then []
      else
        (if FlagsOf(env, args).force then [] else Validate(gdp, args[1], Tag(gdp, env, args)).calls) +
        if Validated(gdp, env, args) then [GetMergeCommitList(ToTag(args[1], Tag(gdp, env, args)))] else []
  }

  /** No query changes a repository. */
  lemma QueriesChangeNothing(gdp: Gateway, env: Env, args: seq<string>)
    requires WellFormed(gdp, env)
    ensures forall c | c in Queries(gdp, env, args) :: !c.IsExecution()
  {
  }

  /** The call log is the queries followed by the execution, if there is one. */
  lemma CallLogSplit(gdp: Gateway, env: Env, args: seq<string>)
    requires WellFormed(gdp, env)
    ensures CallLog(gdp, env, args) == Queries(gdp, env, args) + ExecutionCalls(gdp, env, args)
    ensures forall c | c in Queries(gdp, env, args) :: !c.IsExecution()
    ensures forall c | c in CallLog(gdp, env, args) && c.IsExecution() ::
              Executes(gdp, env, args) && c == Execution(gdp, env, args)
  {
    QueriesChangeNothing(gdp, env, args);
    if Proceeds(env, args) && TagResolved(gdp, env, args) && Validated(gdp, env, args) {
      var first := if FlagsOf(env, args).tag == "" then [GetLatestTag] else [];
      var checks := if FlagsOf(env, args).force then [] else Validate(gdp, args[1], Tag(gdp, env, args)).calls;
      var merge := [GetMergeCommitList(ToTag(args[1], Tag(gdp, env, args)))];
      assert CallLog(gdp, env, args) == first + (checks + (merge + ExecutionCalls(gdp, env, args)));
      assert Queries(gdp, env, args) == first + (checks + merge);
    }
  }

  /** The argument checks and the version flag end the run before any gateway call. */
  lemma ArgumentChecksComeFirst(gdp: Gateway, env: Env, args: seq<string>)
    requires WellFormed(gdp, env) && !Proceeds(env, args)
    ensures CallLog(gdp, env, args) == []
    ensures ExitCode(gdp, env, args) == ExitSuccess <==> VersionAsked(env, args)
    ensures VersionAsked(env, args) ==>
              Stdout(gdp, env, args) == ["gdp version v0.2.3"] && Stderr(gdp, env, args) == []
    ensures |args| < 2 ==> Stderr(gdp, env, args) == [TooFewArguments, Usage]
  {
    assert "gdp version " + Version == "gdp version v0.2.3";
  }

  /** An explicit tag is used verbatim, and the latest tag is not asked for. */
  lemma ExplicitTagIsVerbatim(gdp: Gateway, env: Env, args: seq<string>)
    requires WellFormed(gdp, env) && Proceeds(env, args) && FlagsOf(env, args).tag != ""
    ensures TagResolved(gdp, env, args) && Tag(gdp, env, args) == FlagsOf(env, args).tag
    ensures GetLatestTag !in CallLog(gdp, env, args)
  {
    var log := CallLog(gdp, env, args);
    forall c | c in log ensures c != GetLatestTag {
      assert c in ReleaseCalls(gdp, env, args);
    }
  }

  /** Without `-t`, the latest tag is the first thing asked of the gateway. */
  lemma LatestTagAskedFirst(gdp: Gateway, env: Env, args: seq<string>)
    requires WellFormed(gdp, env) && Proceeds(env, args) && FlagsOf(env, args).tag == ""
    ensures |CallLog(gdp, env, args)| > 0 && CallLog(gdp, env, args)[0] == GetLatestTag
  {
  }

  /**
   * Without `-t`, a deploy releases the next version after the latest tag;
   * when that cannot be computed the run fails with no further gateway call.
   */
  lemma DeployTagIsNextVersion(gdp: Gateway, env: Env, args: seq<string>)
    requires WellFormed(gdp, env) && Proceeds(env, args)
    requires FlagsOf(env, args).tag == "" && args[1] == CommandDeploy
    ensures TagResolved(gdp, env, args) <==> GetNextVersion(gdp.latestTag, env.today).Success?
    ensures TagResolved(gdp, env, args) ==>
              Tag(gdp, env, args) == GetNextVersion(gdp.latestTag, env.today).value
    ensures !TagResolved(gdp, env, args) ==>
              && CallLog(gdp, env, args) == [GetLatestTag]
              && ExitCode(gdp, env, args) == ExitError
              && Stdout(gdp, env, args) == []
  {
  }

  /** Without `-t`, a publish releases the latest tag unchanged. */
  lemma PublishTagIsLatest(gdp: Gateway, env: Env, args: seq<string>)
    requires WellFormed(gdp, env) && Proceeds(env, args)
    requires FlagsOf(env, args).tag == "" && args[1] == CommandPublish
    ensures TagResolved(gdp, env, args) && Tag(gdp, env, args) == gdp.latestTag
  {
  }

  /** `-f` skips every repository check. */
  lemma ForceSkipsValidation(gdp: Gateway, env: Env, args: seq<string>)
    requires WellFormed(gdp, env) && Proceeds(env, args) && FlagsOf(env, args).force
    ensures forall c | c in CallLog(gdp, env, args) :: !c.IsValidationQuery()
  {
    if TagResolved(gdp, env, args) {
      var rest := ReleaseCalls(gdp, env, args);
      assert rest == if Validated(gdp, env, args) then NoteCalls(gdp, env, args) else [];
    }
  }

  /** Without `-f`, a deploy checks the branch first, and the tag only on master. */
  lemma DeployValidationOrder(gdp: Gateway, env: Env, args: seq<string>)
    requires WellFormed(gdp, env) && TagResolved(gdp, env, args)
    requires args[1] == CommandDeploy && !FlagsOf(env, args).force
    ensures Validated(gdp, env, args) <==>
              gdp.isMasterBranch && Tag(gdp, env, args) !in gdp.tagsInLocal
    ensures IsMasterBranch in CallLog(gdp, env, args)
    ensures !gdp.isMasterBranch ==> forall c | c in CallLog(gdp, env, args) :: !c.IsExistTagInLocal?
  {
    var v := Validate(gdp, args[1], Tag(gdp, env, args));
    assert v.calls[0] in ReleaseCalls(gdp, env, args);
  }

  /** Without `-f`, a publish goes ahead exactly when the tag is in the remote. */
  lemma PublishValidation(gdp: Gateway, env: Env, args: seq<string>)
    requires WellFormed(gdp, env) && TagResolved(gdp, env, args)
    requires args[1] == CommandPublish && !FlagsOf(env, args).force
    ensures Validated(gdp, env, args) <==> Tag(gdp, env, args) in gdp.tagsInRemote
    ensures IsExistTagInRemote(Tag(gdp, env, args)) in CallLog(gdp, env, args)
  {
    assert IsExistTagInRemote(Tag(gdp, env, args)) in ReleaseCalls(gdp, env, args);
  }

  /** A failed validation ends the run before the merge-commit query. */
  lemma ValidationFailureStops(gdp: Gateway, env: Env, args: seq<string>)
    requires WellFormed(gdp, env) && TagResolved(gdp, env, args) && !Validated(gdp, env, args)
    ensures ExitCode(gdp, env, args) == ExitError
    ensures forall c | c in CallLog(gdp, env, args) :: !c.GetMergeCommitList? && !c.IsExecution()
    ensures |Stderr(gdp, env, args)| == 1
  {
  }

  /** The merge commits are asked for once validation passes, up to HEAD for a deploy and up to the tag for a publish. */
  lemma MergeCommitRange(gdp: Gateway, env: Env, args: seq<string>)
    requires WellFormed(gdp, env)
    ensures Validated(gdp, env, args) ==>
              GetMergeCommitList(ToTag(args[1], Tag(gdp, env, args))) in CallLog(gdp, env, args)
    ensures forall c | c in CallLog(gdp, env, args) && c.GetMergeCommitList? ::
              && Validated(gdp, env, args)
              && c.toTag == if args[1] == CommandDeploy then "HEAD" else Tag(gdp, env, args)
  {
  }

  /** A failed merge-commit query ends the run before the execution. */
  lemma MergeFailureStops(gdp: Gateway, env: Env, args: seq<string>)
    requires WellFormed(gdp, env) && Validated(gdp, env, args) && !NoteBuilt(gdp, env, args)
    ensures ExitCode(gdp, env, args) == ExitError
    ensures forall c | c in CallLog(gdp, env, args) :: !c.IsExecution()
    ensures Stdout(gdp, env, args) == []
  {
  }

  /** A dry run shows the note and succeeds without asking anything or changing any repository. */
  lemma DryRunChangesNothing(gdp: Gateway, env: Env, args: seq<string>)
    requires WellFormed(gdp, env) && NoteBuilt(gdp, env, args) && FlagsOf(env, args).dryRun
    ensures ExitCode(gdp, env, args) == ExitSuccess
    ensures forall c | c in CallLog(gdp, env, args) :: !c.IsExecution()
    ensures Note(gdp, env, args) in Stdout(gdp, env, args)
    ensures PromptMark !in Stdout(gdp, env, args)
  {
  }

  /** The prompt appears exactly when a real deploy runs outside the safety window. */
  lemma PromptOnlyOutsideSafetyHours(gdp: Gateway, env: Env, args: seq<string>)
    requires WellFormed(gdp, env)
    ensures PromptMark in Stdout(gdp, env, args) <==> AsksConfirmation(gdp, env, args)
    ensures AsksConfirmation(gdp, env, args) ==>
              args[1] == CommandDeploy && !(9 <= env.hour < 19) && PastRegularTime in Stdout(gdp, env, args)
  {
  }

  /** A deploy outside the safety window is pushed only after an explicit `y` or `Y`. */
  lemma NoUnconfirmedDeploy(gdp: Gateway, env: Env, args: seq<string>)
    requires WellFormed(gdp, env)
    ensures forall c | c in CallLog(gdp, env, args) && c.Deploy? ::
              IsSafetyHour(env.hour) || IsYes(env.stdin)
    ensures AsksConfirmation(gdp, env, args) && !IsYes(env.stdin) ==>
              && ExitCode(gdp, env, args) == ExitError
              && forall c | c in CallLog(gdp, env, args) :: !c.IsExecution()
  {
    CallLogSplit(gdp, env, args);
  }

  /** At most one execution, always the last call, and it happens exactly when the run reaches it. */
  lemma ExecutionIsLast(gdp: Gateway, env: Env, args: seq<string>)
    requires WellFormed(gdp, env)
    ensures forall i | 0 <= i < |CallLog(gdp, env, args)| - 1 :: !CallLog(gdp, env, args)[i].IsExecution()
    ensures Executes(gdp, env, args) <==> exists c | c in CallLog(gdp, env, args) :: c.IsExecution()
    ensures Executes(gdp, env, args) ==>
              CallLog(gdp, env, args)[|CallLog(gdp, env, args)| - 1] == Execution(gdp, env, args)
  {
    CallLogSplit(gdp, env, args);
    var log, queries := CallLog(gdp, env, args), Queries(gdp, env, args);
    forall i | 0 <= i < |log| - 1 ensures !log[i].IsExecution() {
      assert log[i] == queries[i];
    }
    if Executes(gdp, env, args) {
      assert log[|log| - 1] in log;
    }
  }

  /** `Deploy` pushes the resolved tag; `Publish` publishes it with exactly the note displayed. */
  lemma ExecutionArguments(gdp: Gateway, env: Env, args: seq<string>)
    requires WellFormed(gdp, env)
    ensures forall c | c in CallLog(gdp, env, args) && c.Deploy? ::
              Executes(gdp, env, args) && args[1] == CommandDeploy && c.tag == Tag(gdp, env, args)
    ensures forall c | c in CallLog(gdp, env, args) && c.Publish? ::
              && Executes(gdp, env, args) && args[1] == CommandPublish
              && c.tag == Tag(gdp, env, args)
              && c.commits == GetReleaseNote(c.tag, gdp.mergeCommitList(c.tag).value)
              && c.commits in Stdout(gdp, env, args)
  {
    CallLogSplit(gdp, env, args);
  }

  /** Once the execution is reached, the exit code is the gateway's verdict. */
  lemma ExecutionDecidesExitCode(gdp: Gateway, env: Env, args: seq<string>)
    requires WellFormed(gdp, env) && Executes(gdp, env, args)
    ensures ExitCode(gdp, env, args) == ExitSuccess <==> Succeeds(gdp, env, args)
    ensures !Succeeds(gdp, env, args) && args[1] == CommandDeploy ==>
              && gdp.deploy(Tag(gdp, env, args)).Fail?
              && |Stderr(gdp, env, args)| >= 1
              && Stderr(gdp, env, args)[|Stderr(gdp, env, args)| - 1]
                 == "Deploy execution error: " + gdp.deploy(Tag(gdp, env, args)).error + "."
    ensures !Succeeds(gdp, env, args) && args[1] != CommandDeploy ==>
              && gdp.publish(Tag(gdp, env, args), Note(gdp, env, args)).Fail?
              && |Stderr(gdp, env, args)| >= 1
              && Stderr(gdp, env, args)[|Stderr(gdp, env, args)| - 1]
                 == "Publish execution error: " + gdp.publish(Tag(gdp, env, args), Note(gdp, env, args)).error + "."
  {
  }

  /** A successful run writes nothing to standard error. */
  lemma SuccessIsQuiet(gdp: Gateway, env: Env, args: seq<string>)
    requires WellFormed(gdp, env) && ExitCode(gdp, env, args) == ExitSuccess
    ensures Stderr(gdp, env, args) == []
  {
  }

  /** A successful deploy without `-t` pushes the next version after the latest tag. */
  lemma DeployPushesNextVersion(gdp: Gateway, env: Env, args: seq<string>)
    requires WellFormed(gdp, env) && Succeeds(gdp, env, args)
    requires args[1] == CommandDeploy && FlagsOf(env, args).tag == ""
    ensures Deploy(GetNextVersion(gdp.latestTag, env.today).value) in CallLog(gdp, env, args)
  {
  }
}
