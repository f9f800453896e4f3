/**
 * The value types the notifications store works with: repositories, the
 * GitHub API records it receives, the reference checks built from them, and
 * the collaborators it calls (the API, the local git repository and the
 * `ci-checks` helpers), which this model takes as inputs.
 */
module Models {
  import opened Wrappers

  /** The GitHub side of a repository: who owns it, its name, and the API endpoint it lives on. */
  datatype GitHubRepository = GitHubRepository(ownerLogin: string, name: string, endpoint: string)

  /** A local repository; `gitHubRepository` is absent when it has no GitHub remote. */
  datatype Repository = Repository(path: string, alias: Option<string>, gitHubRepository: Option<GitHubRepository>)

  predicate IsRepositoryWithGitHubRepository(repository: Repository)
  {
    repository.gitHubRepository.Some?
  }

  /** The repositories the store can subscribe to. */
  type RepositoryWithGitHubRepository = r: Repository | IsRepositoryWithGitHubRepository(r)
    witness Repository("", None, Some(GitHubRepository("", "", "")))

  /** A signed-in account of the accounts store. */
  datatype Account = Account(login: string, endpoint: string)

  /** One end (head or base) of a pull request as the API reports it. */
  datatype ApiRef = ApiRef(ref: string, sha: string)

  /** An open pull request as the API reports it; only what the store reads is kept. */
  datatype ApiPullRequest = ApiPullRequest(number: int, title: string, head: ApiRef, base: ApiRef)

  datatype APICheckStatus = Queued | InProgress | Completed

  datatype APICheckConclusion =
    | ActionRequired | Canceled | TimedOut | Failure | Neutral | Success | Skipped | Stale

  /** One legacy commit status. */
  datatype ApiStatus = ApiStatus(context: string, state: string, targetUrl: string)

  /** The combined legacy status of a ref: the commit it resolved to and its statuses. */
  datatype ApiCombinedStatus = ApiCombinedStatus(sha: string, statuses: seq<ApiStatus>)

  /** One check run; the same name can appear several times when a workflow is re-run. */
  datatype ApiCheckRun = ApiCheckRun(
    name: string, status: APICheckStatus, conclusion: Option<APICheckConclusion>,
    startedAt: int, completedAt: Option<int>)

  datatype ApiCheckRuns = ApiCheckRuns(checkRuns: seq<ApiCheckRun>)

  /** A commit fetched from the API, and one read from the local repository. */
  datatype ApiCommit = ApiCommit(sha: string, message: string)
  datatype Commit = Commit(sha: string, summary: string)

  /** A check of a ref, built from either a legacy status or a check run. */
  datatype RefCheck = RefCheck(name: string, status: APICheckStatus, conclusion: Option<APICheckConclusion>)

  /** The combined view of a ref's checks. */
  datatype CombinedCheck = CombinedCheck(
    status: APICheckStatus, conclusion: Option<APICheckConclusion>, checks: seq<RefCheck>)

  /**
   * The `ci-checks` helpers the store imports. Their bodies are not part of
   * this model, so each one is an arbitrary function supplied by the caller.
   */
  datatype CiHelpers = CiHelpers(
    apiStatusToRefCheck: ApiStatus -> RefCheck,
    apiCheckRunToRefCheck: ApiCheckRun -> RefCheck,
    getLatestCheckRunsByName: seq<ApiCheckRun> -> seq<ApiCheckRun>,
    createCombinedCheckFromChecks: seq<RefCheck> -> Option<CombinedCheck>,
    isSuccess: RefCheck -> bool)

  /**
   * What the outside world answers while one timer body runs: the accounts
   * store's accounts, the API's answers (null answers are `None`) and the
   * local git repository's commits.
   */
  datatype Remote = Remote(
    accounts: seq<Account>,
    fetchUpdatedOpenPullRequestsWithHeadFromUser: (string, string, int, string, nat) -> seq<ApiPullRequest>,
    fetchCombinedRefStatus: (string, string, string) -> Option<ApiCombinedStatus>,
    fetchRefCheckRuns: (string, string, string) -> Option<ApiCheckRuns>,
    fetchCommit: (string, string, string) -> Option<ApiCommit>,
    getCommit: (Repository, string) -> Option<Commit>)

  /** Registered by the UI; invoked when a posted notification is clicked. */
  datatype Callback = Callback(id: nat)
}
