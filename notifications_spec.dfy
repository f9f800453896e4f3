/**
 * The reference behaviour of one poll of the notifications store, as pure
 * functions: which account serves a repository, what checks a ref has, what
 * the store decides for one pull request, and the map and notifications one
 * `checkPullRequests` call produces.
 */
module NotificationsSpec {
  import opened Wrappers
  import opened Models

  /** What the store remembers about a pull request between polls. */
  datatype PrEntry = PrEntry(headSha: string, checkStatus: APICheckStatus, checkConclusion: Option<APICheckConclusion>)

  /** The checks of a ref, with the commit they ran on and that commit's message. */
  datatype RefChecks = RefChecks(checks: seq<RefCheck>, commitMessage: string, sha: string)

  /** A "checks failed" notification: what its click handler passes to the registered callback. */
  datatype Notification = Notification(
    repository: RepositoryWithGitHubRepository, pullRequest: ApiPullRequest,
    checks: seq<RefCheck>, sha: string, commitMessage: string)

  /** The accounts store's first account on the given endpoint (the lookup behind both the account and the API client). */
  function FindAccount(accounts: seq<Account>, endpoint: string): (r: Option<Account>)
    ensures r.Some? <==> exists i :: 0 <= i < |accounts| && accounts[i].endpoint == endpoint
    ensures r.Some? ==> exists i :: 0 <= i < |accounts| && accounts[i] == r.value && accounts[i].endpoint == endpoint
                                  && forall j :: 0 <= j < i ==> accounts[j].endpoint != endpoint
  {
    if accounts == [] then None
    else if accounts[0].endpoint == endpoint then Some(accounts[0])
    else
      var r := FindAccount(accounts[1..], endpoint);
      assert forall i :: 0 < i < |accounts| ==> accounts[i] == accounts[1..][i - 1];
      r
  }

  function MapSeq<A, B>(f: A -> B, s: seq<A>): (r: seq<B>)
    ensures |r| == |s| && forall i :: 0 <= i < |s| ==> r[i] == f(s[i])
  {
    seq(|s|, i requires 0 <= i < |s| => f(s[i]))
  }

  /** The checks handed to `createCombinedCheckFromChecks`: the statuses, then the latest check run of each name. */
  function AssembledChecks(ci: CiHelpers, statuses: ApiCombinedStatus, checkRuns: ApiCheckRuns): seq<RefCheck>
  {
    MapSeq(ci.apiStatusToRefCheck, statuses.statuses)
      + MapSeq(ci.apiCheckRunToRefCheck, ci.getLatestCheckRunsByName(checkRuns.checkRuns))
  }

  /** The message of commit `sha`: the local commit's summary, else the API commit's message. */
  function CommitMessage(remote: Remote, repository: RepositoryWithGitHubRepository, sha: string): Option<string>
  {
    var gh := repository.gitHubRepository.value;
    match remote.getCommit(repository, sha)
    case Some(commit) => Some(commit.summary)
    case None =>
      match remote.fetchCommit(gh.ownerLogin, gh.name, sha)
      case Some(apiCommit) => Some(apiCommit.message)
      case None => None
  }

  /** The result of `getChecksForRef(repository, ref)`; `None` is its null. */
  function ChecksForRef(remote: Remote, ci: CiHelpers, repository: RepositoryWithGitHubRepository, ref: string): Option<RefChecks>
  {
    var gh := repository.gitHubRepository.value;
    if FindAccount(remote.accounts, gh.endpoint).None? then None
    else
      var statuses := remote.fetchCombinedRefStatus(gh.ownerLogin, gh.name, ref);
      var checkRuns := remote.fetchRefCheckRuns(gh.ownerLogin, gh.name, ref);
      if statuses.None? || checkRuns.None? then None
      else
        match CommitMessage(remote, repository, statuses.value.sha)
        case None => None
        case Some(message) =>
          var check := ci.createCombinedCheckFromChecks(AssembledChecks(ci, statuses.value, checkRuns.value));
          if check.None? || |check.value.checks| == 0 then None
          else Some(RefChecks(check.value.checks, message, statuses.value.sha))
  }

  /** `checks.every(check => check.status === Completed)`. */
  function AllCompleted(checks: seq<RefCheck>): (b: bool)
    ensures b <==> forall i :: 0 <= i < |checks| ==> checks[i].status == Completed
  {
    if checks == [] then true
    else
      var rest := AllCompleted(checks[1..]);
      assert forall i :: 0 < i < |checks| ==> checks[i] == checks[1..][i - 1];
      checks[0].status == Completed && rest
  }

  /** A check that makes a completed pull request fail: it has a conclusion and `isSuccess` rejects it. */
  predicate FailsCheck(check: RefCheck, isSuccess: RefCheck -> bool)
  {
    check.conclusion.Some? && !isSuccess(check)
  }

  /** The conclusion recorded for a pull request whose checks have all completed. */
  function PrConclusion(checks: seq<RefCheck>, isSuccess: RefCheck -> bool): APICheckConclusion
  {
    if exists i :: 0 <= i < |checks| && FailsCheck(checks[i], isSuccess) then Failure else Success
  }

  /** Whether the previous poll recorded the pull request as completed at its current head. */
  predicate AlreadyCompleted(last: map<int, PrEntry>, pr: ApiPullRequest)
  {
    pr.number in last && last[pr.number].checkStatus == Completed && last[pr.number].headSha == pr.head.sha
  }

  /** `getChecksForRef` of the selected repository, as a function of the ref. */
  function ChecksLookup(remote: Remote, ci: CiHelpers, repository: RepositoryWithGitHubRepository): string -> Option<RefChecks>
  {
    ref => ChecksForRef(remote, ci, repository, ref)
  }

  /** What one iteration of `checkPullRequests` does with a pull request. */
  datatype Decision =
    | Skip                                          // completed at this head last time: not looked at
    | NoChecks                                      // `getChecksForRef` gave null: not recorded
    | Evaluated(entry: PrEntry, refChecks: RefChecks) // recorded as `entry`

  /** The decision for `pr`, given what was recorded last time and the checks `getChecksForRef` gives for its head ref. */
  function Decide(last: map<int, PrEntry>, pr: ApiPullRequest, checks: Option<RefChecks>, isSuccess: RefCheck -> bool): Decision
  {
    if AlreadyCompleted(last, pr) then Skip
    else
      match checks
      case None => NoChecks
      case Some(refChecks) =>
        if !AllCompleted(refChecks.checks) then Evaluated(PrEntry(pr.head.sha, InProgress, None), refChecks)
        else Evaluated(PrEntry(pr.head.sha, Completed, Some(PrConclusion(refChecks.checks, isSuccess))), refChecks)
  }

  /**
   * A pull request is skipped exactly when it was recorded as completed at
   * its current head; otherwise it is not recorded when its checks are null,
   * and else recorded at its head sha: in progress (without a conclusion)
   * exactly when some check has not completed, completed otherwise, with
   * `Failure` exactly when some check has a conclusion `isSuccess` rejects.
   */
  lemma DecideOutcome(last: map<int, PrEntry>, pr: ApiPullRequest, checks: Option<RefChecks>, isSuccess: RefCheck -> bool)
    ensures var d := Decide(last, pr, checks, isSuccess);
      && (d.Skip? <==> AlreadyCompleted(last, pr))
      && (d.NoChecks? <==> !AlreadyCompleted(last, pr) && checks.None?)
      && (d.Evaluated? ==> checks == Some(d.refChecks) && d.entry.headSha == pr.head.sha)
      && (d.Evaluated? ==>
            (d.entry.checkStatus == InProgress <==>
               exists i :: 0 <= i < |d.refChecks.checks| && d.refChecks.checks[i].status != Completed))
      && (d.Evaluated? && d.entry.checkStatus == InProgress ==> d.entry.checkConclusion.None?)
      && (d.Evaluated? && d.entry.checkStatus != InProgress ==>
            && d.entry.checkStatus == Completed
            && (d.entry.checkConclusion == Some(Failure) <==>
                  exists i :: 0 <= i < |d.refChecks.checks| && FailsCheck(d.refChecks.checks[i], isSuccess))
            && (d.entry.checkConclusion == Some(Failure) || d.entry.checkConclusion == Some(Success)))
  {
  }

  /** The notification posted for a pull request whose checks failed. */
  function ChecksFailed(repository: RepositoryWithGitHubRepository, pr: ApiPullRequest, refChecks: RefChecks): Notification
  {
    Notification(repository, pr, refChecks.checks, refChecks.sha, refChecks.commitMessage)
  }

  /** The map a `checkPullRequests` call builds, and the notifications it asks to post. */
  datatype PollResult = PollResult(checked: map<int, PrEntry>, failures: seq<Notification>)

  /**
   * Fold of `Decide` over `prs` from the first to the last, as the `for` loop
   * of `checkPullRequests` runs; `lookup` answers `getChecksForRef`.
   */
  function Poll(last: map<int, PrEntry>, prs: seq<ApiPullRequest>, lookup: string -> Option<RefChecks>,
                isSuccess: RefCheck -> bool, repository: RepositoryWithGitHubRepository): (r: PollResult)
    ensures |r.failures| <= |prs|
    ensures forall k :: 0 <= k < |r.failures| ==> r.failures[k].pullRequest in prs && r.failures[k].repository == repository
    decreases |prs|
  {
    if prs == [] then PollResult(map[], [])
    else
      var previous := Poll(last, prs[..|prs| - 1], lookup, isSuccess, repository);
      var pr := prs[|prs| - 1];
      assert forall p :: p in prs[..|prs| - 1] ==> p in prs;
      PollStep(previous, pr, Decide(last, pr, lookup(pr.head.ref), isSuccess), repository)
  }

  /** The notification one decision asks for: one when the pull request was evaluated as failed, else none. */
  function DecisionFailures(pr: ApiPullRequest, decision: Decision, repository: RepositoryWithGitHubRepository): seq<Notification>
  {
    if decision.Evaluated? && decision.entry.checkConclusion == Some(Failure) then [ChecksFailed(repository, pr, decision.refChecks)]
    else []
  }

  /** The effect of one decision: an evaluated pull request is (re)set in the map, and notified when it failed. */
  function PollStep(previous: PollResult, pr: ApiPullRequest, decision: Decision,
                    repository: RepositoryWithGitHubRepository): PollResult
  {
    PollResult(if decision.Evaluated? then previous.checked[pr.number := decision.entry] else previous.checked,
               previous.failures + DecisionFailures(pr, decision, repository))
  }

  /** One more iteration of the loop: `Poll` over `prs[..i + 1]` from `Poll` over `prs[..i]`. */
  lemma PollAppend(last: map<int, PrEntry>, prs: seq<ApiPullRequest>, i: nat, lookup: string -> Option<RefChecks>,
                   isSuccess: RefCheck -> bool, repository: RepositoryWithGitHubRepository)
    requires i < |prs|
    ensures var previous := Poll(last, prs[..i], lookup, isSuccess, repository);
            var pr := prs[i];
            Poll(last, prs[..i + 1], lookup, isSuccess, repository) ==
              PollStep(previous, pr, Decide(last, pr, lookup(pr.head.ref), isSuccess), repository)
  {
    assert prs[..i + 1][..i] == prs[..i];
  }

  /** `postChecksFailedNotification` shows a notification only for the repository aliased `desktop-2`. */
  predicate MayPostNotification(repository: Option<RepositoryWithGitHubRepository>)
  {
    repository.Some? && repository.value.alias == Some("desktop-2")
  }

  /** The notifications that actually get shown, of those a poll asks to post. */
  function Gate(repository: Option<RepositoryWithGitHubRepository>, failures: seq<Notification>): seq<Notification>
  {
    if MayPostNotification(repository) then failures else []
  }

  /** The `since` date of the pull request query: the last check date, else the epoch. */
  function Since(lastCheckDate: Option<int>): int
  {
    match lastCheckDate
    case Some(date) => date
    case None => 0
  }
}
