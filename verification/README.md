# Plane: notification inbox, board-card optimistic patch, attachment upload

A Dafny model of three small pieces of logic in the Plane issue tracker:

- **Notification inbox** (API server, `NotificationViewSet`). `list` scopes a
  user's notifications to a workspace and filters them by the `snoozed`,
  `read`, `archived` and `type` query flags. `mark_read`, `mark_unread`,
  `archive`, `unarchive` and `partial_update` each write one nullable
  timestamp (`read_at`, `archived_at`, `snoozed_till`) of one notification
  the user owns.
- **Board issue card** (`SingleBoardIssue`). `partialUpdateIssue` picks the
  board's fetch key (cycle, then module, then view, then project). It patches
  one cache speculatively: the parent's sub-issue list for a sub-issue, the
  board's list otherwise. It sends the patch and revalidates the board's
  list, plus the cycle and module details, when the server accepts. The file
  also holds the drag style (`getStyle`) and the permission gate of the
  card's menus (`isNotAllowed`).
- **Attachment upload** (`IssueAttachmentUpload`). `onDrop` refuses to act
  without an accepted file or a workspace. Otherwise it sends the first file
  with its name and size, raises the loading flag, prepends the new
  attachment to the issue's cached list on success, and lowers the flag in
  both outcomes. The file also holds the 5 MiB limit, the rejection message
  and the status line.

Everything is modelled with immutable datatypes and pure functions. Rows of
the notification table are records with `Option<int>` timestamps. "Now" is a
parameter. The fetch cache is a `map` from a key datatype to cached values.
Route query values are `Option<string>`, and JavaScript truthiness (`undefined`
and `""` are falsy) is `Js.Truthy`. Network calls are replaced by their
outcome (`PatchOutcome`, `UploadOutcome`).

Files: `wrappers.dfy` (Option/Result), `js.dfy` (truthiness, number
rendering), `seqs.dfy` (order-preserving filter, subsequence),
`notification.dfy`, `board_issue.dfy`, `attachment_upload.dfy`.

Notes on behaviour the model makes explicit:

- `list` is modelled exactly as written: a scope filter, then nine
  conditional filter blocks in source order (`Notifications.List`). It is
  proved equal to a single filter by the conjunction `Notifications.Selected`.
- The default `snoozed=false` filter keeps `snoozed_till >= now OR
  snoozed_till IS NULL`. A notification snoozed until a later time is
  therefore listed in the default inbox, and one whose snooze has ended is
  hidden (`Notifications.DefaultInboxSnoozeWindow`). The model keeps the
  comparison as written.
- The `snoozed=true` filter `snoozed_till < now OR snoozed_till IS NOT NULL`
  reduces to `snoozed_till IS NOT NULL`. Snoozes that end in the future are
  therefore listed too.
- `Notification.objects.get` raises `MultipleObjectsReturned` when several
  rows match. The generic handler catches it, so the answer is "Something went
  wrong" with status 400. `Notifications.Get` models this case next to
  "does not exist".
- In `partial_update` the comment says `read_at` may be updated, but the code
  only takes `snoozed_till`. The model follows the code.
- After a sub-issue edit, the parent's sub-issue cache is patched but never
  revalidated. A rejected patch triggers no revalidation at all, so the
  speculative value stays in the cache (`BoardIssue.SubIssueCacheNotRevalidated`).

## Model

| member | source | states |
|---|---|---|
| `Notifications.ListIsSelection` | apiserver/plane/api/views/notification.py:31-87 | the scope filter followed by the nine conditional blocks equals one order-preserving filter by the conjunction of scope, snooze, read, archived and type conditions |
| `Notifications.ListMembership` | apiserver/plane/api/views/notification.py:41-87 | a notification is listed if and only if it is in the table and meets every active condition |
| `Notifications.List` | apiserver/plane/api/views/notification.py:31-87 | the listed notifications are rows of the table, no more of them than the table holds, each in the requested workspace and addressed to the requesting user |
| `Notifications.ListHidesExpiredSnoozes` | apiserver/plane/api/views/notification.py:34-49 | with `snoozed` absent or "false", every listed notification has `snoozed_till` null or at or after now, so one whose snooze has ended is not listed |
| `Notifications.DefaultInboxSnoozeWindow` | apiserver/plane/api/views/notification.py:34-49 | with no query flags, an in-scope unread unarchived notification with a `snoozed_till` is listed if and only if that time is now or later |
| `Notifications.SnoozedTrueIsNotNull` | apiserver/plane/api/views/notification.py:51-54 | the as-written "snoozed=true" condition holds exactly when `snoozed_till` is set, so future snoozes pass it |
| `Notifications.ListSnoozedTrue` | apiserver/plane/api/views/notification.py:51-54 | with `snoozed=true` every listed row has `snoozed_till` set, and a selected row snoozed into the future is listed |
| `Notifications.ListTriStateFlags` | apiserver/plane/api/views/notification.py:56-66 | `read`/`archived` act as tri-state flags: "true" keeps set timestamps, "false" (the default) keeps null ones; any other value of either flag, whatever the other flags, lists exactly the rows that "true" or "false" would list; with both flags other values the result is the scoped filter by the snooze and type conditions alone |
| `Notifications.FlagOtherValue` | apiserver/plane/api/views/notification.py:56-66 | for `read` or `archived` with a value other than "true"/"false", a row is listed iff it is listed with that flag set to "true" or to "false" |
| `Notifications.ListKindFilter` | apiserver/plane/api/views/notification.py:69-87 | `type` watching/assigned/created restricts `entity_identifier` to the user's subscribed/assigned/created issues in the workspace; any other value lists the same as "all" |
| `Notifications.ListIsSubsequence` | apiserver/plane/api/views/notification.py:41-87 | `list` only removes rows: its result is a subsequence of the ordered table |
| `Notifications.DefaultInbox` | apiserver/plane/api/views/notification.py:33-66 | with no query flags the result is the user's unread, unarchived notifications in the workspace that were never snoozed or whose `snoozed_till` is now or later, in table order |
| `Notifications.Get` | apiserver/plane/api/views/notification.py:129-146 | the lookup yields the only row owned by (slug, user, pk); no owned row gives "does not exist"; two or more give the generic error; no other error arises |
| `Notifications.MarkRead` | apiserver/plane/api/views/notification.py:127-146 | it succeeds if and only if the lookup finds the one owned row, and otherwise answers with the lookup's error; on success only the owned row changes, `read_at` becomes now and no other column changes; on failure the table is untouched, and "does not exist" means no owned row |
| `Notifications.MarkUnread` | apiserver/plane/api/views/notification.py:148-167 | it succeeds if and only if the lookup finds the one owned row, and otherwise answers with the lookup's error; on success only the owned row changes, `read_at` becomes null and no other column changes; on failure the table is untouched |
| `Notifications.Archive` | apiserver/plane/api/views/notification.py:170-189 | it succeeds if and only if the lookup finds the one owned row, and otherwise answers with the lookup's error; on success only the owned row changes, `archived_at` becomes now and no other column changes; on failure the table is untouched |
| `Notifications.Unarchive` | apiserver/plane/api/views/notification.py:191-210 | it succeeds if and only if the lookup finds the one owned row, and otherwise answers with the lookup's error; on success only the owned row changes, `archived_at` becomes null and no other column changes; on failure the table is untouched |
| `Notifications.PartialUpdate` | apiserver/plane/api/views/notification.py:98-125 | it succeeds if and only if the lookup succeeds and the value is null, missing or a timestamp; only `snoozed_till` is written; a missing or null value clears it; a non-timestamp value for an owned row is rejected without saving; a failed lookup answers with its error; a pk the user does not own in the workspace gives "does not exist" with no state change |
| `Notifications.MarkUnreadIdempotent` | apiserver/plane/api/views/notification.py:148-156 | `mark_unread` twice leaves the same table and response as once |
| `Notifications.UnarchiveIdempotent` | apiserver/plane/api/views/notification.py:191-199 | `unarchive` twice leaves the same table and response as once |
| `Notifications.PartialUpdateIdempotent` | apiserver/plane/api/views/notification.py:98-125 | `partial_update` twice with the same body leaves the same table and response as once |
| `Notifications.MarkUnreadAfterMarkRead` | apiserver/plane/api/views/notification.py:127-156 | `mark_unread` after `mark_read` has the same effect as `mark_unread` alone |
| `Notifications.MarkReadLeavesInbox` | apiserver/plane/api/views/notification.py:127-135 | the row saved by `mark_read` is not listed by any later query whose `read` flag is the default "false" |
| `Notifications.ArchiveLeavesInbox` | apiserver/plane/api/views/notification.py:170-178 | the row saved by `archive` is not listed by any later query whose `archived` flag is the default "false" |
| `BoardIssue.PartialUpdateIssue` | apps/app/components/core/board-view/single-issue.tsx:118-180 | nothing happens without a truthy workspace slug and project id; otherwise the patch request carries them with the issue id, form data and current user; only the sub-issue key (for an issue with a truthy parent) or the fetch key (otherwise) may change in the cache; after acceptance exactly the fetch key, plus cycle details if a cycle and module details if a module, are revalidated; a rejected patch revalidates nothing |
| `BoardIssue.FetchKey` | apps/app/components/core/board-view/single-issue.tsx:122-128 | the key names a cycle iff the cycle id is truthy, a module iff no cycle but a module, a view iff neither but a view, the project list otherwise; it carries that id and the view params |
| `BoardIssue.Merge` | apps/app/components/core/board-view/single-issue.tsx:139-144 | the merged issue keeps id and parent, has the union of fields, takes every `formData` field and keeps every other old field |
| `BoardIssue.PatchSubIssues` | apps/app/components/core/board-view/single-issue.tsx:138-146 | the patched list has the same length and ids; elements with another id are unchanged, the element with the edited id is merged with `formData` |
| `BoardIssue.PatchSubIssueData` | apps/app/components/core/board-view/single-issue.tsx:133-148 | nothing cached stays nothing; otherwise the body keeps its other fields and its `sub_issues` list becomes the patched old list, a missing list counting as empty |
| `BoardIssue.ExactlyOneCachePatched` | apps/app/components/core/board-view/single-issue.tsx:130-170 | a sub-issue edit leaves the board's fetch-key cache as it was; a top-level edit leaves every sub-issue cache as it was |
| `BoardIssue.SubIssueCacheNotRevalidated` | apps/app/components/core/board-view/single-issue.tsx:172-179 | no sub-issue key is ever among the revalidated keys |
| `BoardIssue.SubIssuePatchShape` | apps/app/components/core/board-view/single-issue.tsx:136-146 | only elements whose id is the edited id may differ; in those, `formData` fields override and all other fields are kept |
| `BoardIssue.PatchSubIssuesIdempotent` | apps/app/components/core/board-view/single-issue.tsx:136-146 | applying the same sub-issue patch twice equals applying it once |
| `BoardIssue.GetStyle` | apps/app/components/core/board-view/single-issue.tsx:196-208 | with `sort_order` the style passes through; not dragging gives an empty style; dragging without drop animation passes the style through; during the drop animation the style gains `transitionDuration` "0.001s" and keeps every other entry |
| `BoardIssue.StyleRewrittenOnlyWhileDropAnimating` | apps/app/components/core/board-view/single-issue.tsx:200-207 | a result that is neither the given style nor empty only arises while dragging and drop-animating outside `sort_order`, and sets the duration to "0.001s" |
| `BoardIssue.ContextMenuItems` | apps/app/components/core/board-view/single-issue.tsx:241-265 | edit, copy and delete appear iff allowed, first and in that order; copy-link and open-in-new-tab always appear, last; "Remove from" never appears; the menu has 5 items when allowed and 2 otherwise |
| `BoardIssue.QuickActionItems` | apps/app/components/core/board-view/single-issue.tsx:282-327 | the hover menu is non-empty iff allowed and a container type is given; it then starts with edit and ends with delete and copy-link, with 4 items when "Remove from" is present and 3 otherwise; "Remove from" appears iff the type is not "issue" and a remove handler exists |
| `AttachmentUpload.StartUpload` | apps/app/components/issues/attachment-upload.tsx:32-44 | no upload without an accepted file and a truthy workspace slug; otherwise the form carries the first accepted file and exactly its name and size, and the loading flag is raised with the cache untouched |
| `AttachmentUpload.Prepend` | apps/app/components/issues/attachment-upload.tsx:56 | the new list is one longer, starts with the new attachment and continues with the previous list, an absent list counting as empty |
| `AttachmentUpload.FinishUpload` | apps/app/components/issues/attachment-upload.tsx:53-73 | the loading flag comes down in both outcomes; a failure leaves the cache alone; a success puts the attachment in front of the issue's list; other issues' lists never change |
| `AttachmentUpload.OnDrop` | apps/app/components/issues/attachment-upload.tsx:32-75 | a refused drop changes nothing; otherwise the flag is up while the request is in flight (with the cache untouched) and down afterwards; on success the issue's cached list is `[res] ++ prev`; on failure the cache is unchanged; other issues' lists never change |
| `AttachmentUpload.DropzoneLockedDuringUpload` | apps/app/components/issues/attachment-upload.tsx:44-81 | while a request is in flight the dropzone is disabled; after it settles the dropzone is disabled only if the parent disables it |
| `AttachmentUpload.UploadKeepsEarlierAttachments` | apps/app/components/issues/attachment-upload.tsx:54-57 | after a successful upload the issue's list is one longer and the earlier attachments follow the new one in their old order |
| `AttachmentUpload.FileError` | apps/app/components/issues/attachment-upload.tsx:84-87 | a message exists iff at least one file was rejected, and it reads "Invalid file type or size (max 5 MB)", the limit being 5·1024·1024 bytes shown in MiB |
| `Js.NatToString` | apps/app/components/issues/attachment-upload.tsx:86 | the rendering is a non-empty string of decimal digits that reads back as the number, with a leading zero only for 0 |
| `AttachmentUpload.Status` | apps/app/components/issues/attachment-upload.tsx:98-106 | the status line shows drag-over first, then the rejection message, then "Uploading...", then the idle prompt |

## Left out

- `order_by`: the notification table is taken as already sorted in the requested order; `list` is modelled as preserving that order.
- The Django ORM, serializer output, Sentry reporting and exceptions other than `DoesNotExist`/`MultipleObjectsReturned`; `timezone.now()` is the `now` parameter.
- Notifications.PartialUpdate: serializer validation is reduced to "a timestamp or null is valid, anything else is not"; datetime parsing and time zones are not modelled.
- `handleIssuesMutation` and the fetch-key builders live in files outside this model: keys are constructors, and the board-list patch is the uninterpreted `viewPatch` parameter.
- The fetch-cache library: `mutate(key, updater, false)` is `BoardIssue.Mutate`, and a revalidating `mutate(key)` is only recorded as a key in `Effects.revalidated`; refetching is not modelled.
- The `user` passed to `patchIssue` is an uninterpreted optional value: the model records it in the request and nothing depends on it.
- BoardIssue.Merge: `formData` is taken to carry neither `id` nor `parent`, so merging never changes an issue's id or parent.
- BoardIssue.PatchSubIssueData: a value of another shape cached under a sub-issue key is left as is; the typed source never stores one there.
- Rendering, CSS classes, tooltips, toasts, context-menu positioning, the outside-click detector, the clipboard and `window.location` (`handleCopyText`), and the `handleTrashBox` drag effect: presentation and browser I/O.
- The property selects (priority, state, due date, labels, assignee, estimate) that receive `isNotAllowed`: only the gate itself is modelled.
- The dropzone library: its split of dropped files into accepted and rejected (driven by `maxSize` and `multiple: false`) is an input, and `isDragActive` is a parameter.
- `onDrop` is memoised with an empty dependency list, so at run time it reads the route values of the component's first render; the model takes the route values of the drop as parameters.
- The network calls `patchIssue` and `uploadIssueAttachment`: only their outcome is modelled; the unhandled rejection of a failed patch has no effect in the model.
- `apps/app/components/project/single-integration-card.tsx` and the archived-issue pages: provider branding, labels and page wiring with no logic beyond the cache pattern above.
