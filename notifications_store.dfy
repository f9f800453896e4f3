/**
 * The notifications store: it subscribes to the selected GitHub repository,
 * and when its timer fires polls the repository's recently updated pull
 * requests, records each one's check state and shows a notification for a
 * pull request whose checks failed.
 */
module NotificationsStore {
  import opened Wrappers
  import opened Models
  import opened NotificationsSpec

  /**
   * `getChecksForRef`: the checks of `ref` in `repository`, or `None` when the
   * API client, the statuses, the check runs or the commit message is
   * missing, or when nothing is left to evaluate.
   */
  method GetChecksForRef(remote: Remote, ci: CiHelpers, repository: RepositoryWithGitHubRepository, ref: string)
    returns (r: Option<RefChecks>)
    ensures r == ChecksForRef(remote, ci, repository, ref)
  {
    var gh := repository.gitHubRepository.value;
    var api := FindAccount(remote.accounts, gh.endpoint);
    if api.None? {
      return None;
    }
    var statuses := remote.fetchCombinedRefStatus(gh.ownerLogin, gh.name, ref);
    var checkRuns := remote.fetchRefCheckRuns(gh.ownerLogin, gh.name, ref);
    var checks: seq<RefCheck> := [];
    if statuses.None? || checkRuns.None? {
      return None;
    }
    var commitMessage: string;
    var commit := remote.getCommit(repository, statuses.value.sha);
    if commit.Some? {
      commitMessage := commit.value.summary;
    } else {
      var apiCommit := remote.fetchCommit(gh.ownerLogin, gh.name, statuses.value.sha);
      if apiCommit.None? {
        return None;
      }
      commitMessage := apiCommit.value.message;
    }
    checks := checks + MapSeq(ci.apiStatusToRefCheck, statuses.value.statuses);
    var latestCheckRunsByName := ci.getLatestCheckRunsByName(checkRuns.value.checkRuns);
    checks := checks + MapSeq(ci.apiCheckRunToRefCheck, latestCheckRunsByName);
    assert checks == AssembledChecks(ci, statuses.value, checkRuns.value);
    var check := ci.createCombinedCheckFromChecks(checks);
    if check.None? || |check.value.checks| == 0 {
      return None;
    }
    return Some(RefChecks(check.value.checks, commitMessage, statuses.value.sha));
  }

  /**
   * The inner loop of `checkPullRequests` over a completed pull request's
   * checks: `Failure` at the first check with a conclusion that `isSuccess`
   * rejects, `Success` when there is none (a check without a conclusion passes).
   */
  method PrCheckConclusion(checks: seq<RefCheck>, isSuccess: RefCheck -> bool) returns (c: APICheckConclusion)
    ensures c == Failure <==> exists i :: 0 <= i < |checks| && FailsCheck(checks[i], isSuccess)
    ensures c == Success <==> forall i :: 0 <= i < |checks| ==> !FailsCheck(checks[i], isSuccess)
    ensures c == PrConclusion(checks, isSuccess)
  {
    c := Success;
    for i := 0 to |checks|
      invariant c == Success
      invariant forall j :: 0 <= j < i ==> !FailsCheck(checks[j], isSuccess)
    {
      if checks[i].conclusion.None? || isSuccess(checks[i]) {
        continue;
      }
      c := Failure;
      break;
    }
  }

  class NotificationsStore {
    var fakePollingTimeoutId: Option<nat>
    var repository: Option<RepositoryWithGitHubRepository>
    var onChecksFailedCallback: Option<Callback>
    var lastCheckDate: Option<int>
    var lastCheckedPullRequests: map<int, PrEntry>

    // The window's side of the timer: the timeout still queued (with the
    // repository its closure captured), and how many timeouts were created,
    // which gives each new one its id.
    var pendingTimer: Option<RepositoryWithGitHubRepository>
    var timersCreated: nat

    // The notifications shown so far.
    ghost var posted: seq<Notification>

    ghost predicate Valid()
      reads this
    {
      pendingTimer.Some? ==> fakePollingTimeoutId == Some(timersCreated)
    }

    constructor ()
      ensures Valid()
      ensures fakePollingTimeoutId.None? && repository.None? && onChecksFailedCallback.None?
      ensures lastCheckDate.None? && lastCheckedPullRequests == map[]
      ensures pendingTimer.None? && posted == []
    {
      fakePollingTimeoutId := None;
      repository := None;
      onChecksFailedCallback := None;
      lastCheckDate := None;
      lastCheckedPullRequests := map[];
      pendingTimer := None;
      timersCreated := 0;
      posted := [];
    }

    /** Cancels the queued timeout; the stored id is kept. */
    method Unsubscribe()
      requires Valid()
      modifies this`pendingTimer
      ensures Valid() && pendingTimer.None?
    {
      if fakePollingTimeoutId.Some? {
        pendingTimer := None;
      }
    }

    /** Selects `repository` and queues one timeout that will poll it. */
    method Subscribe(repository: RepositoryWithGitHubRepository)
      requires Valid()
      modifies this`pendingTimer, this`repository, this`fakePollingTimeoutId, this`timersCreated
      ensures Valid()
      ensures this.repository == Some(repository) && pendingTimer == Some(repository)
      ensures fakePollingTimeoutId == Some(timersCreated) && timersCreated == old(timersCreated) + 1
    {
      Unsubscribe();
      this.repository := Some(repository);
      timersCreated := timersCreated + 1;
      fakePollingTimeoutId := Some(timersCreated);
      pendingTimer := Some(repository);
    }

    /**
     * Always cancels the queued timeout; a repository with a GitHub remote
     * becomes the selected one and gets exactly one new timeout, any other
     * leaves the selection as it was with no timeout queued.
     */
    method SelectRepository(repository: Repository)
      requires Valid()
      modifies this`pendingTimer, this`repository, this`fakePollingTimeoutId, this`timersCreated
      ensures Valid()
      ensures !IsRepositoryWithGitHubRepository(repository) ==>
        pendingTimer.None? && this.repository == old(this.repository)
        && fakePollingTimeoutId == old(fakePollingTimeoutId) && timersCreated == old(timersCreated)
      ensures IsRepositoryWithGitHubRepository(repository) ==>
        && this.repository.Some? && this.repository.value == repository
        && pendingTimer.Some? && pendingTimer.value == repository
        && fakePollingTimeoutId == Some(timersCreated) && timersCreated == old(timersCreated) + 1
    {
      Unsubscribe();
      if !IsRepositoryWithGitHubRepository(repository) {
        return;
      }
      Subscribe(repository);
    }

    /**
     * The queued timeout's body, run once: it looks up the account and the
     * API client, fetches at most 3 pull requests updated since the last
     * check date, stamps `now` as the new check date and checks the pull
     * requests. It does not queue another timeout.
     */
    method Fire(remote: Remote, ci: CiHelpers, now: int)
      requires Valid() && pendingTimer.Some?
      modifies this`pendingTimer, this`lastCheckDate, this`lastCheckedPullRequests, this`posted
      ensures Valid() && pendingTimer.None?
      ensures var captured := old(pendingTimer).value.gitHubRepository.value;
              var account := FindAccount(remote.accounts, captured.endpoint);
              if repository.None? || account.None?
                 || FindAccount(remote.accounts, repository.value.gitHubRepository.value.endpoint).None?
              then
                lastCheckDate == old(lastCheckDate) && lastCheckedPullRequests == old(lastCheckedPullRequests)
                && posted == old(posted)
              else
                var prs := remote.fetchUpdatedOpenPullRequestsWithHeadFromUser(
                             captured.ownerLogin, captured.name, Since(old(lastCheckDate)), account.value.login, 3);
                var result := Poll(old(lastCheckedPullRequests), prs, ChecksLookup(remote, ci, repository.value), ci.isSuccess, repository.value);
                lastCheckDate == Some(now) && lastCheckedPullRequests == result.checked
                && posted == old(posted) + Gate(repository, result.failures)
    {
      var gitHubRepository := pendingTimer.value.gitHubRepository.value;
      pendingTimer := None;
      if repository.None? {
        return;
      }
      var account := FindAccount(remote.accounts, gitHubRepository.endpoint);
      var api := FindAccount(remote.accounts, repository.value.gitHubRepository.value.endpoint);
      if account.None? || api.None? {
        return;
      }
      var pullRequests := remote.fetchUpdatedOpenPullRequestsWithHeadFromUser(
        gitHubRepository.ownerLogin, gitHubRepository.name, Since(lastCheckDate), account.value.login, 3);
      lastCheckDate := Some(now);
      CheckPullRequests(remote, ci, pullRequests);
    }

    /**
     * Rebuilds `lastCheckedPullRequests` from this poll's pull requests and
     * posts a notification for each one whose completed checks failed.
     * Without a selected repository it does nothing.
     */
    method CheckPullRequests(remote: Remote, ci: CiHelpers, pullRequests: seq<ApiPullRequest>)
      modifies this`lastCheckedPullRequests, this`posted
      ensures repository.None? ==>
        lastCheckedPullRequests == old(lastCheckedPullRequests) && posted == old(posted)
      ensures repository.Some? ==>
        var result := Poll(old(lastCheckedPullRequests), pullRequests, ChecksLookup(remote, ci, repository.value), ci.isSuccess, repository.value);
        lastCheckedPullRequests == result.checked && posted == old(posted) + Gate(repository, result.failures)
    {
      var repository := this.repository;
      if repository.None? {
        return;
      }
      var checkedPullRequests: map<int, PrEntry> := map[];
      ghost var lookup := ChecksLookup(remote, ci, repository.value);
      ghost var result := PollResult(map[], []);
      ghost var shown: seq<Notification> := [];
      for i := 0 to |pullRequests|
        invariant this.repository == repository && lastCheckedPullRequests == old(lastCheckedPullRequests)
        invariant result == Poll(lastCheckedPullRequests, pullRequests[..i], lookup, ci.isSuccess, repository.value)
        invariant checkedPullRequests == result.checked
        invariant shown == Gate(repository, result.failures)
        invariant posted == old(posted) + shown
      {
        var pr := pullRequests[i];
        PollAppend(lastCheckedPullRequests, pullRequests, i, lookup, ci.isSuccess, repository.value);
        ghost var decision := Decide(lastCheckedPullRequests, pr, lookup(pr.head.ref), ci.isSuccess);
        var entry := CheckPullRequest(remote, ci, repository.value, pr, decision);
        ghost var failures := DecisionFailures(pr, decision, repository.value);
        shown := shown + Gate(repository, failures);
        result := PollStep(result, pr, decision, repository.value);
        if entry.Some? {
          checkedPullRequests := checkedPullRequests[pr.number := entry.value];
        }
      }
      assert pullRequests[..|pullRequests|] == pullRequests;
      lastCheckedPullRequests := checkedPullRequests;
    }

    /**
     * One iteration of the loop of `checkPullRequests`: the entry to record
     * for `pr` (`None` when it is skipped or its checks are null), after
     * posting the notification when its completed checks failed.
     */
    method CheckPullRequest(remote: Remote, ci: CiHelpers, repository: RepositoryWithGitHubRepository, pr: ApiPullRequest,
                            ghost decision: Decision)
      returns (entry: Option<PrEntry>)
      requires this.repository == Some(repository)
      requires decision == Decide(lastCheckedPullRequests, pr, ChecksForRef(remote, ci, repository, pr.head.ref), ci.isSuccess)
      modifies this`posted
      ensures entry == (if decision.Evaluated? then Some(decision.entry) else None)
      ensures posted == old(posted) + Gate(this.repository, DecisionFailures(pr, decision, repository))
    {
      var previousCheckedPR := if pr.number in lastCheckedPullRequests then Some(lastCheckedPullRequests[pr.number]) else None;
      if previousCheckedPR.Some? && previousCheckedPR.value.checkStatus == Completed
         && previousCheckedPR.value.headSha == pr.head.sha {
        return None;
      }
      var checks := GetChecksForRef(remote, ci, repository, pr.head.ref);
      if checks.None? {
        return None;
      }
      var allPRChecksCompleted := AllCompleted(checks.value.checks);
      if !allPRChecksCompleted {
        return Some(PrEntry(pr.head.sha, InProgress, None));
      }
      var prCheckConclusion := PrCheckConclusion(checks.value.checks, ci.isSuccess);
      if prCheckConclusion == Failure {
        PostChecksFailedNotification(pr, checks.value.checks, checks.value.sha, checks.value.commitMessage);
      }
      return Some(PrEntry(pr.head.sha, Completed, Some(prCheckConclusion)));
    }

    /** Shows the notification, unless no repository is selected or the selected one is not aliased `desktop-2`. */
    method PostChecksFailedNotification(pr: ApiPullRequest, checks: seq<RefCheck>, sha: string, commitMessage: string)
      modifies this`posted
      ensures posted == old(posted) +
        if MayPostNotification(repository) then [Notification(repository.value, pr, checks, sha, commitMessage)] else []
    {
      if repository.None? {
        return;
      }
      var repository := this.repository.value;
      if repository.alias != Some("desktop-2") {
        return;
      }
      posted := posted + [Notification(repository, pr, checks, sha, commitMessage)];
    }

    /** Registers the single callback invoked when a shown notification is clicked, replacing any earlier one. */
    method OnChecksFailedNotification(callback: Callback)
      modifies this`onChecksFailedCallback
      ensures onChecksFailedCallback == Some(callback)
    {
      onChecksFailedCallback := Some(callback);
    }
  }
}
