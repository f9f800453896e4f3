/**
 * What one poll of the notifications store guarantees, and what repeated
 * polls over the same pull requests do.
 */
module PollProperties {
  import opened Wrappers
  import opened Models
  import opened NotificationsSpec

  /** The API lists each pull request once. */
  predicate DistinctNumbers(prs: seq<ApiPullRequest>)
  {
    forall i, j :: 0 <= i < j < |prs| ==> prs[i].number != prs[j].number
  }

  /** A number has an entry after the poll exactly when some pull request of that number was evaluated (not skipped, checks present). */
  lemma {:induction false} PollKeys(last: map<int, PrEntry>, prs: seq<ApiPullRequest>, lookup: string -> Option<RefChecks>,
                                    isSuccess: RefCheck -> bool, repository: RepositoryWithGitHubRepository, n: int)
    ensures n in Poll(last, prs, lookup, isSuccess, repository).checked <==>
      exists i :: 0 <= i < |prs| && prs[i].number == n && Decide(last, prs[i], lookup(prs[i].head.ref), isSuccess).Evaluated?
  {
    if prs != [] {
      var init := prs[..|prs| - 1];
      PollKeys(last, init, lookup, isSuccess, repository, n);
      assert forall i :: 0 <= i < |init| ==> init[i] == prs[i];
    }
  }

  /** With distinct numbers, each pull request's entry is exactly what `Decide` records for it, and none when it was skipped or had no checks. */
  lemma {:induction false} PollEntry(last: map<int, PrEntry>, prs: seq<ApiPullRequest>, lookup: string -> Option<RefChecks>,
                                     isSuccess: RefCheck -> bool, repository: RepositoryWithGitHubRepository, i: nat)
    requires DistinctNumbers(prs) && i < |prs|
    ensures var d := Decide(last, prs[i], lookup(prs[i].head.ref), isSuccess);
            var checked := Poll(last, prs, lookup, isSuccess, repository).checked;
            if d.Evaluated? then prs[i].number in checked && checked[prs[i].number] == d.entry
            else prs[i].number !in checked
  {
    var init := prs[..|prs| - 1];
    assert forall j :: 0 <= j < |init| ==> init[j] == prs[j];
    if i == |prs| - 1 {
      PollKeys(last, init, lookup, isSuccess, repository, prs[i].number);
    } else {
      PollEntry(last, init, lookup, isSuccess, repository, i);
    }
  }

  /** Every requested notification is for an input pull request whose checks were evaluated as failed. */
  lemma {:induction false} PollFailureSource(last: map<int, PrEntry>, prs: seq<ApiPullRequest>, lookup: string -> Option<RefChecks>,
                                             isSuccess: RefCheck -> bool, repository: RepositoryWithGitHubRepository, k: nat)
    requires k < |Poll(last, prs, lookup, isSuccess, repository).failures|
    ensures exists i :: 0 <= i < |prs| && (
              var d := Decide(last, prs[i], lookup(prs[i].head.ref), isSuccess);
              d.Evaluated? && d.entry.checkConclusion == Some(Failure)
              && Poll(last, prs, lookup, isSuccess, repository).failures[k] == ChecksFailed(repository, prs[i], d.refChecks))
  {
    var init := prs[..|prs| - 1];
    assert forall j :: 0 <= j < |init| ==> init[j] == prs[j];
    if k < |Poll(last, init, lookup, isSuccess, repository).failures| {
      PollFailureSource(last, init, lookup, isSuccess, repository, k);
    } else {
      assert Decide(last, prs[|prs| - 1], lookup(prs[|prs| - 1].head.ref), isSuccess).Evaluated?;
    }
  }

  /** Conversely, every input pull request evaluated as failed has its notification requested. */
  lemma {:induction false} PollFailureReported(last: map<int, PrEntry>, prs: seq<ApiPullRequest>, lookup: string -> Option<RefChecks>,
                                               isSuccess: RefCheck -> bool, repository: RepositoryWithGitHubRepository, i: nat)
    requires i < |prs|
    requires var d := Decide(last, prs[i], lookup(prs[i].head.ref), isSuccess);
             d.Evaluated? && d.entry.checkConclusion == Some(Failure)
    ensures ChecksFailed(repository, prs[i], Decide(last, prs[i], lookup(prs[i].head.ref), isSuccess).refChecks)
              in Poll(last, prs, lookup, isSuccess, repository).failures
  {
    var init := prs[..|prs| - 1];
    if i < |prs| - 1 {
      assert init[i] == prs[i];
      PollFailureReported(last, init, lookup, isSuccess, repository, i);
    }
  }

  /** No two notifications are for the same pull request number. */
  predicate OnePerPr(notifications: seq<Notification>)
  {
    forall a, b :: 0 <= a < b < |notifications| ==> notifications[a].pullRequest.number != notifications[b].pullRequest.number
  }

  /** A notification requested before the last pull request is looked at is for another pull request. */
  lemma {:induction false} FailureFromPrefix(last: map<int, PrEntry>, prs: seq<ApiPullRequest>, lookup: string -> Option<RefChecks>,
                                             isSuccess: RefCheck -> bool, repository: RepositoryWithGitHubRepository, a: nat)
    requires DistinctNumbers(prs) && prs != []
    requires a < |Poll(last, prs[..|prs| - 1], lookup, isSuccess, repository).failures|
    ensures Poll(last, prs[..|prs| - 1], lookup, isSuccess, repository).failures[a].pullRequest.number != prs[|prs| - 1].number
  {
  }

  /** At most one notification per pull request per poll. */
  lemma {:induction false} AtMostOneNotificationPerPr(last: map<int, PrEntry>, prs: seq<ApiPullRequest>, lookup: string -> Option<RefChecks>,
                                                      isSuccess: RefCheck -> bool, repository: RepositoryWithGitHubRepository)
    requires DistinctNumbers(prs)
    ensures OnePerPr(Poll(last, prs, lookup, isSuccess, repository).failures)
  {
    if prs != [] {
      var init := prs[..|prs| - 1];
      var pr := prs[|prs| - 1];
      assert DistinctNumbers(init) by {
        assert forall j :: 0 <= j < |init| ==> init[j] == prs[j];
      }
      AtMostOneNotificationPerPr(last, init, lookup, isSuccess, repository);
      var earlier := Poll(last, init, lookup, isSuccess, repository).failures;
      assert OnePerPr(earlier);
      var failures := Poll(last, prs, lookup, isSuccess, repository).failures;
      var d := Decide(last, pr, lookup(pr.head.ref), isSuccess);
      if d.Evaluated? && d.entry.checkConclusion == Some(Failure) {
        assert failures == earlier + [ChecksFailed(repository, pr, d.refChecks)];
        forall a, b | 0 <= a < b < |failures|
          ensures failures[a].pullRequest.number != failures[b].pullRequest.number
        {
          assert failures[a] == earlier[a];
          if b < |earlier| {
            assert failures[b] == earlier[b];
          } else {
            FailureFromPrefix(last, prs, lookup, isSuccess, repository, a);
          }
        }
      } else {
        assert failures == earlier;
        forall a, b | 0 <= a < b < |failures|
          ensures failures[a].pullRequest.number != failures[b].pullRequest.number
        {
          assert failures[a] == earlier[a] && failures[b] == earlier[b];
        }
      }
    }
  }

  /** A pull request gets a notification exactly when its new entry records a failure. */
  lemma NotifiedIffFailureRecorded(last: map<int, PrEntry>, prs: seq<ApiPullRequest>, lookup: string -> Option<RefChecks>,
                                   isSuccess: RefCheck -> bool, repository: RepositoryWithGitHubRepository, n: int)
    requires DistinctNumbers(prs)
    ensures var r := Poll(last, prs, lookup, isSuccess, repository);
            (exists k :: 0 <= k < |r.failures| && r.failures[k].pullRequest.number == n) <==>
            (n in r.checked && r.checked[n].checkConclusion == Some(Failure))
  {
    var r := Poll(last, prs, lookup, isSuccess, repository);
    if k :| 0 <= k < |r.failures| && r.failures[k].pullRequest.number == n {
      PollFailureSource(last, prs, lookup, isSuccess, repository, k);
      var i :| 0 <= i < |prs| &&
        var d := Decide(last, prs[i], lookup(prs[i].head.ref), isSuccess);
        d.Evaluated? && d.entry.checkConclusion == Some(Failure) && r.failures[k] == ChecksFailed(repository, prs[i], d.refChecks);
      PollEntry(last, prs, lookup, isSuccess, repository, i);
    }
    if n in r.checked && r.checked[n].checkConclusion == Some(Failure) {
      PollKeys(last, prs, lookup, isSuccess, repository, n);
      var i :| 0 <= i < |prs| && prs[i].number == n && Decide(last, prs[i], lookup(prs[i].head.ref), isSuccess).Evaluated?;
      PollEntry(last, prs, lookup, isSuccess, repository, i);
      PollFailureReported(last, prs, lookup, isSuccess, repository, i);
      var f := ChecksFailed(repository, prs[i], Decide(last, prs[i], lookup(prs[i].head.ref), isSuccess).refChecks);
      var k :| 0 <= k < |r.failures| && r.failures[k] == f;
      assert r.failures[k].pullRequest.number == n;
    }
  }

  /**
   * A pull request recorded as completed at its current head last time is not
   * looked at: it gets no entry in the new map and no notification.
   */
  lemma CompletedPrSkipped(last: map<int, PrEntry>, prs: seq<ApiPullRequest>, lookup: string -> Option<RefChecks>,
                           isSuccess: RefCheck -> bool, repository: RepositoryWithGitHubRepository, i: nat)
    requires DistinctNumbers(prs) && i < |prs| && AlreadyCompleted(last, prs[i])
    ensures var r := Poll(last, prs, lookup, isSuccess, repository);
            prs[i].number !in r.checked
            && forall k :: 0 <= k < |r.failures| ==> r.failures[k].pullRequest.number != prs[i].number
  {
    PollEntry(last, prs, lookup, isSuccess, repository, i);
    NotifiedIffFailureRecorded(last, prs, lookup, isSuccess, repository, prs[i].number);
  }

  /**
   * A pull request whose ref has no statuses or no check runs is neither
   * recorded nor notified, whatever was recorded for it before.
   */
  lemma NoDataNoEntry(last: map<int, PrEntry>, prs: seq<ApiPullRequest>, remote: Remote, ci: CiHelpers,
                      repository: RepositoryWithGitHubRepository, i: nat)
    requires DistinctNumbers(prs) && i < |prs|
    requires var gh := repository.gitHubRepository.value;
             remote.fetchCombinedRefStatus(gh.ownerLogin, gh.name, prs[i].head.ref).None?
             || remote.fetchRefCheckRuns(gh.ownerLogin, gh.name, prs[i].head.ref).None?
    ensures var r := Poll(last, prs, ChecksLookup(remote, ci, repository), ci.isSuccess, repository);
            prs[i].number !in r.checked
            && forall k :: 0 <= k < |r.failures| ==> r.failures[k].pullRequest.number != prs[i].number
  {
    var lookup := ChecksLookup(remote, ci, repository);
    assert lookup(prs[i].head.ref).None?;
    PollEntry(last, prs, lookup, ci.isSuccess, repository, i);
    NotifiedIffFailureRecorded(last, prs, lookup, ci.isSuccess, repository, prs[i].number);
  }

  /**
   * Three polls over the same pull requests and the same answers. A pull
   * request evaluated as completed in the first poll is skipped in the
   * second, which sends no notification for it but also drops its entry; so
   * the third poll evaluates it again exactly as the first did, notification
   * included.
   */
  lemma RepeatedPolls(last: map<int, PrEntry>, prs: seq<ApiPullRequest>, lookup: string -> Option<RefChecks>,
                      isSuccess: RefCheck -> bool, repository: RepositoryWithGitHubRepository, i: nat)
    requires DistinctNumbers(prs) && i < |prs|
    requires var d := Decide(last, prs[i], lookup(prs[i].head.ref), isSuccess);
             d.Evaluated? && d.entry.checkStatus == Completed
    ensures var d := Decide(last, prs[i], lookup(prs[i].head.ref), isSuccess);
            var n := prs[i].number;
            var first := Poll(last, prs, lookup, isSuccess, repository);
            var second := Poll(first.checked, prs, lookup, isSuccess, repository);
            var third := Poll(second.checked, prs, lookup, isSuccess, repository);
            && n in first.checked && first.checked[n] == d.entry
            && n !in second.checked
            && (forall k :: 0 <= k < |second.failures| ==> second.failures[k].pullRequest.number != n)
            && n in third.checked && third.checked[n] == d.entry
            && (d.entry.checkConclusion == Some(Failure) ==>
                  ChecksFailed(repository, prs[i], d.refChecks) in first.failures
                  && ChecksFailed(repository, prs[i], d.refChecks) in third.failures)
  {
    var d := Decide(last, prs[i], lookup(prs[i].head.ref), isSuccess);
    var first := Poll(last, prs, lookup, isSuccess, repository);
    PollEntry(last, prs, lookup, isSuccess, repository, i);
    assert AlreadyCompleted(first.checked, prs[i]);
    CompletedPrSkipped(first.checked, prs, lookup, isSuccess, repository, i);
    var second := Poll(first.checked, prs, lookup, isSuccess, repository);
    assert Decide(second.checked, prs[i], lookup(prs[i].head.ref), isSuccess) == d;
    PollEntry(second.checked, prs, lookup, isSuccess, repository, i);
    if d.entry.checkConclusion == Some(Failure) {
      PollFailureReported(last, prs, lookup, isSuccess, repository, i);
      PollFailureReported(second.checked, prs, lookup, isSuccess, repository, i);
    }
  }

  /**
   * `getChecksForRef` is null exactly when the API client, the statuses, the
   * check runs, or both the local and the API commit are missing, or when the
   * combined checks are null or empty.
   */
  lemma ChecksForRefNull(remote: Remote, ci: CiHelpers, repository: RepositoryWithGitHubRepository, ref: string)
    ensures var gh := repository.gitHubRepository.value;
            var statuses := remote.fetchCombinedRefStatus(gh.ownerLogin, gh.name, ref);
            var checkRuns := remote.fetchRefCheckRuns(gh.ownerLogin, gh.name, ref);
            ChecksForRef(remote, ci, repository, ref).None? <==>
              || FindAccount(remote.accounts, gh.endpoint).None?
              || statuses.None? || checkRuns.None?
              || (remote.getCommit(repository, statuses.value.sha).None?
                  && remote.fetchCommit(gh.ownerLogin, gh.name, statuses.value.sha).None?)
              || var check := ci.createCombinedCheckFromChecks(AssembledChecks(ci, statuses.value, checkRuns.value));
                 check.None? || check.value.checks == []
  {
  }

  /**
   * When `getChecksForRef` gives checks, they are the non-empty combined
   * checks, the sha is the statuses' sha, and the message is the local
   * commit's summary when there is a local commit, else the API commit's.
   */
  lemma ChecksForRefResult(remote: Remote, ci: CiHelpers, repository: RepositoryWithGitHubRepository, ref: string)
    requires ChecksForRef(remote, ci, repository, ref).Some?
    ensures var gh := repository.gitHubRepository.value;
            var statuses := remote.fetchCombinedRefStatus(gh.ownerLogin, gh.name, ref);
            var checkRuns := remote.fetchRefCheckRuns(gh.ownerLogin, gh.name, ref);
            var r := ChecksForRef(remote, ci, repository, ref).value;
            && statuses.Some? && checkRuns.Some?
            && r.sha == statuses.value.sha
            && r.checks != []
            && r.checks == ci.createCombinedCheckFromChecks(AssembledChecks(ci, statuses.value, checkRuns.value)).value.checks
            && r.commitMessage ==
                 match remote.getCommit(repository, statuses.value.sha)
                 case Some(commit) => commit.summary
                 case None => remote.fetchCommit(gh.ownerLogin, gh.name, statuses.value.sha).value.message
  {
  }

  /**
   * When `createCombinedCheckFromChecks` keeps the checks it is given, a
   * ref's checks are its statuses first, then the latest check run of each
   * name, in that order.
   */
  lemma ChecksInOrder(remote: Remote, ci: CiHelpers, repository: RepositoryWithGitHubRepository, ref: string)
    requires forall cs :: ci.createCombinedCheckFromChecks(cs).Some? ==> ci.createCombinedCheckFromChecks(cs).value.checks == cs
    requires ChecksForRef(remote, ci, repository, ref).Some?
    ensures var gh := repository.gitHubRepository.value;
            var statuses := remote.fetchCombinedRefStatus(gh.ownerLogin, gh.name, ref).value.statuses;
            var latest := ci.getLatestCheckRunsByName(remote.fetchRefCheckRuns(gh.ownerLogin, gh.name, ref).value.checkRuns);
            var checks := ChecksForRef(remote, ci, repository, ref).value.checks;
            && |checks| == |statuses| + |latest|
            && (forall k :: 0 <= k < |statuses| ==> checks[k] == ci.apiStatusToRefCheck(statuses[k]))
            && (forall k :: 0 <= k < |latest| ==> checks[|statuses| + k] == ci.apiCheckRunToRefCheck(latest[k]))
  {
  }
}
