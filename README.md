# Notifications store: check-failure polling and notification gating

This project models the `NotificationsStore` of a GitHub desktop client
(`app/src/lib/stores/notifications-store.ts`). The store subscribes to the
selected repository when it has a GitHub remote, and arms a timeout. When
the timeout fires, it fetches the recently updated open pull requests. For
each pull request it decides whether to look at the checks again. It
records a per-pull-request check state (head sha, status, conclusion) in a
map that it rebuilds on every poll, and it shows at most one "checks failed"
notification per pull request per poll.

Files:

- `wrappers.dfy`: `Option`, standing for the source's `T | null`.
- `models.dfy`: repositories, accounts, the API records, reference checks.
  It also holds `Remote`, the answers of the API, the accounts store and the
  local git repository during one poll. `CiHelpers` bundles the `ci-checks`
  helpers. Their bodies are not part of this model, so each helper is an
  arbitrary function value.
- `notifications_spec.dfy`: the reference behaviour as pure functions.
  `ChecksForRef` is `getChecksForRef`. `Decide` is one iteration of the
  `checkPullRequests` loop. `Poll` is the whole loop, which yields the new
  map and the notifications requested.
- `notifications_store.dfy`: the class `NotificationsStore` with the
  source's fields. Its methods are proved against the functions above.
  `GetChecksForRef` and `PrCheckConclusion` are the store's two read-only
  steps.
- `poll_properties.dfy`: lemmas about one poll and about repeated polls.

Shown notifications go to a ghost log, `posted`. The window's timer is the
field `pendingTimer`: the timeout still queued, with the repository its
closure captured. `Fire` runs the timeout body once.

Behaviour of the code that a reader might not expect, which the model keeps
as written:

- The comment at lines 114-117 says a pull request is checked again only
  when it was never checked, was not completed last time, or its head
  changed. But a skipped pull request is not copied into the rebuilt map
  (lines 118-124 and 169), so the next poll evaluates it again.
  `PollProperties.RepeatedPolls` proves the outcome: when polls repeat with
  the same answers, a failed pull request is notified on the first poll,
  skipped on the second, and notified again on the third.
- The re-arm at line 97 is commented out, so each subscription polls once.
- A completed check whose conclusion is null passes (line 147), whatever
  `isSuccess` would say of it.

## Model

| member | source | states |
|---|---|---|
| `NotificationsSpec.FindAccount` | app/src/lib/stores/notifications-store.ts:182-198 | An account is found exactly when some account has the repository's endpoint, and it is the first such account; the API client exists exactly then |
| `NotificationsSpec.AllCompleted` | app/src/lib/stores/notifications-store.ts:131-133 | True exactly when every check's status is `Completed` |
| `NotificationsSpec.PrConclusion` | app/src/lib/stores/notifications-store.ts:144-160 | The conclusion of a completed pull request's checks; no contract of its own, `PrCheckConclusion` and `DecideOutcome` state it: `Failure` iff some check has a non-null conclusion that `isSuccess` rejects |
| `NotificationsSpec.Decide` | app/src/lib/stores/notifications-store.ts:110-166 | One iteration of the loop on a pull request, given the previous map and the answer of `getChecksForRef`; no contract of its own, `DecideOutcome` states what it decides |
| `NotificationsSpec.DecideOutcome` | app/src/lib/stores/notifications-store.ts:110-166 | Skips exactly the pull requests recorded as completed at the same head sha. Records nothing when the checks are null. Otherwise records the `head.sha`: `InProgress` with no conclusion iff some check is not completed, else `Completed` with `Failure` iff some check has a conclusion that `isSuccess` rejects, and `Success` otherwise |
| `NotificationsSpec.Poll` | app/src/lib/stores/notifications-store.ts:108-169 | There are at most as many notifications as input pull requests, each for an input pull request of the selected repository |
| `NotificationsSpec.PollAppend` | app/src/lib/stores/notifications-store.ts:110-167 | The loop's step equation, the invariant step of `CheckPullRequests`: the poll of a prefix extended by one pull request is the poll of the prefix followed by that pull request's `Decide` step |
| `NotificationsSpec.ChecksForRef` | app/src/lib/stores/notifications-store.ts:259-322 | The result of `getChecksForRef`; no contract of its own, `ChecksForRefNull`, `ChecksForRefResult` and `ChecksInOrder` state its null cases, its sha, its message and its check order |
| `NotificationsSpec.MayPostNotification` | app/src/lib/stores/notifications-store.ts:206-214 | The guards of `postChecksFailedNotification`: a repository is selected and its alias is `desktop-2`; no contract of its own, `PostChecksFailedNotification` states the effect |
| `NotificationsSpec.Gate` | app/src/lib/stores/notifications-store.ts:200-214 | The notifications actually shown out of those a poll requests: all of them when `MayPostNotification` holds, none otherwise; no contract of its own, `CheckPullRequests` and `CheckPullRequest` state the effect |
| `NotificationsSpec.Since` | app/src/lib/stores/notifications-store.ts:85 | The last check date, or the epoch (0) when there is none; no contract of its own, `Fire` states its use |
| `NotificationsStore.GetChecksForRef` | app/src/lib/stores/notifications-store.ts:259-322 | Returns exactly the reference result `ChecksForRef`, whose properties `ChecksForRefNull`, `ChecksForRefResult` and `ChecksInOrder` state |
| `NotificationsStore.PrCheckConclusion` | app/src/lib/stores/notifications-store.ts:144-160 | `Failure` iff some check has a non-null conclusion that `isSuccess` rejects; `Success` iff none does (a null conclusion passes) |
| `NotificationsStore.NotificationsStore.constructor` | app/src/lib/stores/notifications-store.ts:43-52 | No repository, no timeout, no callback, no check date, an empty map, nothing shown |
| `NotificationsStore.NotificationsStore.Unsubscribe` | app/src/lib/stores/notifications-store.ts:54-58 | The queued timeout is cancelled; the stored timeout id is left as it was |
| `NotificationsStore.NotificationsStore.Subscribe` | app/src/lib/stores/notifications-store.ts:60-65 | The repository becomes the selected one, and exactly one new timeout, capturing it, is queued under a fresh id |
| `NotificationsStore.NotificationsStore.SelectRepository` | app/src/lib/stores/notifications-store.ts:172-180 | Always cancels the queued timeout. Without a GitHub remote, no timeout remains and the selection is unchanged. Otherwise the repository is selected with exactly one timeout queued for it |
| `NotificationsStore.NotificationsStore.Fire` | app/src/lib/stores/notifications-store.ts:65-99 | The timeout is gone afterwards and not re-queued. With no repository, account or API client, nothing else changes. Otherwise the pull requests updated since the last check date (epoch when none), by the account's user, limit 3, are polled; the check date becomes `now`; the map and the shown notifications are those of the poll |
| `NotificationsStore.NotificationsStore.CheckPullRequests` | app/src/lib/stores/notifications-store.ts:102-170 | With no repository, nothing changes. Otherwise the map is replaced by exactly the one `Poll` builds, and its failure notifications are shown when the gate allows |
| `NotificationsStore.NotificationsStore.CheckPullRequest` | app/src/lib/stores/notifications-store.ts:110-166 | One iteration of the loop: the entry recorded for a pull request is the one `Decide` records (none when skipped or when its checks are null), and the failure notification is shown exactly when `Decide` evaluates its checks as failed and the gate allows |
| `NotificationsStore.NotificationsStore.PostChecksFailedNotification` | app/src/lib/stores/notifications-store.ts:200-214 | Shows the notification only when a repository is selected and its alias is `desktop-2`; otherwise nothing is shown |
| `NotificationsStore.NotificationsStore.OnChecksFailedNotification` | app/src/lib/stores/notifications-store.ts:324-326 | The single callback slot holds the new callback, replacing any earlier one |
| `PollProperties.PollKeys` | app/src/lib/stores/notifications-store.ts:110-169 | A number has an entry after the poll iff some input pull request with that number was neither skipped nor without checks |
| `PollProperties.PollEntry` | app/src/lib/stores/notifications-store.ts:110-169 | With distinct numbers, each pull request's new entry is exactly what `Decide` records for it, and none when it was skipped or had null checks |
| `PollProperties.PollFailureSource` | app/src/lib/stores/notifications-store.ts:146-160 | Every notification is for an input pull request whose checks were evaluated as failed, and it carries that pull request's checks, sha and commit message |
| `PollProperties.PollFailureReported` | app/src/lib/stores/notifications-store.ts:146-160 | Every input pull request evaluated as failed has its notification requested |
| `PollProperties.AtMostOneNotificationPerPr` | app/src/lib/stores/notifications-store.ts:146-160 | With distinct numbers, no two notifications of a poll are for the same pull request |
| `PollProperties.NotifiedIffFailureRecorded` | app/src/lib/stores/notifications-store.ts:144-166 | With distinct numbers, a pull request is notified iff its new entry records the `Failure` conclusion |
| `PollProperties.CompletedPrSkipped` | app/src/lib/stores/notifications-store.ts:112-124 | A pull request recorded as completed at its current head gets no new entry and no notification |
| `PollProperties.NoDataNoEntry` | app/src/lib/stores/notifications-store.ts:126-129 | A pull request whose ref has no statuses or no check runs gets no entry and no notification |
| `PollProperties.RepeatedPolls` | app/src/lib/stores/notifications-store.ts:118-169 | Across three polls with the same answers, a pull request evaluated as completed is recorded in the first, skipped and dropped (and not notified) in the second, and recorded, and notified if failed, again in the third |
| `PollProperties.ChecksForRefNull` | app/src/lib/stores/notifications-store.ts:259-322 | Null exactly when there is no API client, no statuses, no check runs, neither a local nor an API commit, or no combined checks or an empty list |
| `PollProperties.ChecksForRefResult` | app/src/lib/stores/notifications-store.ts:284-321 | Otherwise the sha is the statuses' sha; the checks are the non-empty combined checks of the statuses followed by the latest check runs; the message is the local commit's summary if there is one, else the API commit's message |
| `PollProperties.ChecksInOrder` | app/src/lib/stores/notifications-store.ts:300-309 | When the combining helper keeps its input, a ref's checks are its statuses in order, then the latest check run of each name in order |

## Left out

- The Electron notification (lines 216-256) is not modelled: its title and body strings, the `PullRequest` object it builds, `show()` and the click handler. Showing a notification is an append to the ghost log `posted`. The click that would invoke the registered callback is not modelled.
- Network, accounts store and git (lines 82-88, 185-186, 266-298, the `getCommit` call at 287) are not called. Their answers come from a `Remote` value: the accounts store's list is `Remote.accounts`, and the endpoint lookup of line 187 is `FindAccount`. Each answer is fixed for one poll, so the interleaving of `await`s is not modelled, nor a selection change while a poll is suspended.
- `window.setTimeout`/`clearTimeout` are modelled as the field `pendingTimer`. The 1000 ms delay, the `debugger` statement and real time are not modelled. `new Date()` is the parameter `now`, and dates are integers with the epoch as 0.
- The `ci-checks` helpers `isSuccess`, `getLatestCheckRunsByName`, `createCombinedCheckFromChecks`, `apiStatusToRefCheck` and `apiCheckRunToRefCheck` are not part of this model. They are arbitrary functions. Their own behaviour (keep the latest run per name, combined conclusion precedence) is not stated here.
- `app/src/ui/notifications/pull-request-checks-failed.tsx` is the dialog opened from the callback: rendering only, not modelled.
- `CheckPullRequests`: the body of the loop over the pull requests is the method `CheckPullRequest`, where the source's `continue`s are early returns. The source posts from inside the loop over the checks, then breaks. Here that loop is `PrCheckConclusion`, and the notification is posted right after it returns `Failure`. The checks, their order and the single post are the same.
- `GetChecksForRef`: the `statuses !== null` and `checkRuns !== null` guards at lines 300 and 304 always hold at that point, so the pushes are unconditional.
- `ChecksInOrder` assumes that `createCombinedCheckFromChecks` returns the checks it is given, because its body is not part of this model. Without that assumption, `GetChecksForRef` only states that the checks are the helper's output for that ordered input.
- Lemmas stated "with distinct numbers" assume the API lists each pull request once. Without that, `PollKeys` still holds, and a later duplicate's entry overwrites an earlier one's.
