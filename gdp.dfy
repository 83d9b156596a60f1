/**
 * The `Gdp` interface through which the workflow reaches git and hub. The
 * implementation that shells out to those tools is not modelled: a gateway
 * here is the record of the answers an implementation gives, and every call
 * the workflow makes is recorded as a `Call`.
 */
module Gdp {
  import opened Wrappers

  /** One call on the `Gdp` interface, with its arguments. */
  datatype Call =
    | IsMasterBranch
    | IsExistTagInLocal(tag: string)
    | IsExistTagInRemote(tag: string)
    | GetMergeCommitList(toTag: string)
    | GetLatestTag
    | Deploy(tag: string)
    | Publish(tag: string, commits: string)
  {
    /** The read-only repository checks the validation step performs. */
    predicate IsValidationQuery() {
      IsMasterBranch? || IsExistTagInLocal? || IsExistTagInRemote?
    }

    /** The two calls that change a repository: push a tag, or create a release. */
    predicate IsExecution() {
      Deploy? || Publish?
    }
  }

  /**
   * The answers of one `Gdp` implementation: whether the current branch is
   * master, the tags in the local and in the remote repository, the latest
   * tag ("" when there is none), the merge commits up to a ref (or the
   * tool's error text), and the error, if any, of `Deploy` and `Publish`.
   */
  datatype Gateway = Gateway(
    isMasterBranch: bool,
    tagsInLocal: set<string>,
    tagsInRemote: set<string>,
    latestTag: string,
    mergeCommitList: string -> Result<string, string>,
    deploy: string -> Outcome<string>,
    publish: (string, string) -> Outcome<string>)
}
