/** The notification inbox of the API server: the `list` query with its
    snoozed / read / archived / type filters, and the per-notification
    actions `partial_update`, `mark_read`, `mark_unread`, `archive` and
    `unarchive` over three nullable timestamps.

    Rows are immutable records, the table is a sequence (already in the
    order the request asked for), and "now" is a parameter. */
module Notifications {
  import opened Wrappers
  import opened Seqs

  type Id = int
  type Time = int

  /** One row of the notification table. */
  datatype Notification = Notification(
    id: Id,
    workspaceSlug: string,
    receiver: Id,
    sender: string,
    title: string,
    entityIdentifier: Option<Id>,
    createdAt: Time,
    readAt: Option<Time>,
    archivedAt: Option<Time>,
    snoozedTill: Option<Time>)

  /** A user watching an issue. */
  datatype IssueSubscriber = IssueSubscriber(workspaceSlug: string, subscriber: Id, issue: Id)

  /** A user assigned to an issue. */
  datatype IssueAssignee = IssueAssignee(workspaceSlug: string, assignee: Id, issue: Id)

  /** An issue, with its creator. */
  datatype Issue = Issue(id: Id, workspaceSlug: string, createdBy: Id)

  /** The tables the inbox reads. */
  datatype Db = Db(
    notifications: seq<Notification>,
    subscribers: seq<IssueSubscriber>,
    assignees: seq<IssueAssignee>,
    issues: seq<Issue>)

  /** The query string of a request, `request.GET`. */
  type QueryParams = map<string, string>

  /** `request.GET.get(key, default)`. */
  function Param(q: QueryParams, key: string, default: string): string {
    if key in q then q[key] else default
  }

  /** The filter flags of a `list` request, after defaults are applied. */
  datatype ListFilters = ListFilters(snoozed: string, archived: string, read: string, kind: string)

  function ParseFilters(q: QueryParams): ListFilters {
    ListFilters(
      Param(q, "snoozed", "false"),
      Param(q, "archived", "false"),
      Param(q, "read", "false"),
      Param(q, "type", "all"))
  }

  // ---------------------------------------------------------------------
  // The filter predicates, one per `.filter(...)` of the query pipeline.
  // A comparison with SQL NULL is false, so `snoozed_till >= now` only
  // holds of a non-null timestamp.
  // ---------------------------------------------------------------------

  /** Receiver/workspace scoping, shared by `get_queryset` and `list`. */
  predicate InScope(n: Notification, slug: string, user: Id) {
    n.workspaceSlug == slug && n.receiver == user
  }

  /** `Q(snoozed_till__gte=now) | Q(snoozed_till__isnull=True)`: never
      snoozed, or snoozed until now or later. A snooze that has run out
      fails this test; one still ahead passes it. */
  predicate SnoozeNullOrPending(n: Notification, now: Time) {
    (n.snoozedTill.Some? && n.snoozedTill.value >= now) || n.snoozedTill.None?
  }

  /** `Q(snoozed_till__lt=now) | Q(snoozed_till__isnull=False)`, as written. */
  predicate SnoozedAsWritten(n: Notification, now: Time) {
    (n.snoozedTill.Some? && n.snoozedTill.value < now) || n.snoozedTill.Some?
  }

  /** `entity_identifier__in=ids`; a NULL identifier is in no set. */
  predicate EntityIn(n: Notification, ids: set<Id>) {
    n.entityIdentifier.Some? && n.entityIdentifier.value in ids
  }

  /** Issues the user subscribes to in the workspace. */
  function WatchedIssues(db: Db, slug: string, user: Id): set<Id> {
    set s | s in db.subscribers && s.workspaceSlug == slug && s.subscriber == user :: s.issue
  }

  /** Issues the user is assigned to in the workspace. */
  function AssignedIssues(db: Db, slug: string, user: Id): set<Id> {
    set a | a in db.assignees && a.workspaceSlug == slug && a.assignee == user :: a.issue
  }

  /** Issues the user created in the workspace. */
  function CreatedIssues(db: Db, slug: string, user: Id): set<Id> {
    set i | i in db.issues && i.workspaceSlug == slug && i.createdBy == user :: i.id
  }

  /** One `.filter(...)` of the `list` pipeline. */
  datatype Stage =
    | InWorkspaceOf(slug: string, user: Id) // workspace__slug=slug, receiver_id=user
    | SnoozeNotPassed(now: Time)           // snoozed == "false"
    | SnoozeAsWritten(now: Time)           // snoozed == "true"
    | ReadAtSet                            // read_at__isnull=False
    | ReadAtNull                           // read_at__isnull=True
    | ArchivedAtSet                        // archived_at__isnull=False
    | ArchivedAtNull                       // archived_at__isnull=True
    | EntityAmong(ids: set<Id>)            // entity_identifier__in=ids

  predicate Passes(st: Stage, n: Notification) {
    match st
    case InWorkspaceOf(slug, user) => InScope(n, slug, user)
    case SnoozeNotPassed(now) => SnoozeNullOrPending(n, now)
    case SnoozeAsWritten(now) => SnoozedAsWritten(n, now)
    case ReadAtSet => n.readAt.Some?
    case ReadAtNull => n.readAt.None?
    case ArchivedAtSet => n.archivedAt.Some?
    case ArchivedAtNull => n.archivedAt.None?
    case EntityAmong(ids) => EntityIn(n, ids)
  }

  /** An `if <flag test>: notifications = notifications.filter(...)` block. */
  datatype Step = Step(applies: bool, stage: Stage)

  /** Keeps, in order, the rows passing one stage. */
  function Keep(s: seq<Notification>, st: Stage): seq<Notification> {
    Filter(s, (n: Notification) => Passes(st, n))
  }

  /** Runs the conditional blocks in order. */
  function Pipeline(s: seq<Notification>, steps: seq<Step>): (r: seq<Notification>)
    ensures |r| <= |s|
    ensures forall n :: n in r ==> n in s
    decreases |steps|
  {
    if |steps| == 0 then s
    else
      var s' := if steps[0].applies then Keep(s, steps[0].stage) else s;
      Pipeline(s', steps[1..])
  }

  /** The conditional blocks of `list`, in source order. */
  function ListSteps(db: Db, slug: string, user: Id, f: ListFilters, now: Time): seq<Step> {
    [ Step(f.snoozed == "false", SnoozeNotPassed(now)),
      Step(f.snoozed == "true", SnoozeAsWritten(now)),
      Step(f.read == "true", ReadAtSet),
      Step(f.read == "false", ReadAtNull),
      Step(f.archived == "false", ArchivedAtNull),
      Step(f.archived == "true", ArchivedAtSet),
      Step(f.kind == "watching", EntityAmong(WatchedIssues(db, slug, user))),
      Step(f.kind == "assigned", EntityAmong(AssignedIssues(db, slug, user))),
      Step(f.kind == "created", EntityAmong(CreatedIssues(db, slug, user))) ]
  }

  /** The `list` action as the source writes it: scope by workspace and
      receiver, then apply each conditional filter in turn. Every listed
      notification is a row of the table, belongs to the requested
      workspace and is addressed to the requesting user. */
  function List(db: Db, slug: string, user: Id, q: QueryParams, now: Time): (r: seq<Notification>)
    ensures |r| <= |db.notifications|
    ensures forall n :: n in r ==> n in db.notifications && n.workspaceSlug == slug && n.receiver == user
  {
    var scoped := Keep(db.notifications, InWorkspaceOf(slug, user));
    Pipeline(scoped, ListSteps(db, slug, user, ParseFilters(q), now))
  }

  // ---------------------------------------------------------------------
  // Stages composed: filtering by several stages in turn.
  // ---------------------------------------------------------------------

  predicate PassesAll(sts: seq<Stage>, n: Notification) {
    forall i :: 0 <= i < |sts| ==> Passes(sts[i], n)
  }

  /** Keeps the rows passing every stage of `sts`. */
  function KeepAll(s: seq<Notification>, sts: seq<Stage>): seq<Notification> {
    Filter(s, (n: Notification) => PassesAll(sts, n))
  }

  /** The stages whose blocks fire. */
  function Active(steps: seq<Step>): (sts: seq<Stage>)
    ensures forall n :: PassesAll(sts, n) <==>
      (forall i :: 0 <= i < |steps| && steps[i].applies ==> Passes(steps[i].stage, n))
    decreases |steps|
  {
    if |steps| == 0 then []
    else
      var rest := Active(steps[1..]);
      PassesAllCons(steps[0].stage, rest);
      assert forall n :: PassesAll(rest, n) <==>
        (forall i :: 1 <= i < |steps| && steps[i].applies ==> Passes(steps[i].stage, n)) by {
        assert forall i :: 1 <= i < |steps| ==> steps[i] == steps[1..][i - 1];
      }
      if steps[0].applies then [steps[0].stage] + rest else rest
  }

  lemma PassesAllCons(st: Stage, sts: seq<Stage>)
    ensures forall n :: PassesAll([st] + sts, n) <==> Passes(st, n) && PassesAll(sts, n)
  {
    assert ([st] + sts)[0] == st;
    assert forall i :: 0 <= i < |sts| ==> ([st] + sts)[i + 1] == sts[i];
    forall n | Passes(st, n) && PassesAll(sts, n)
      ensures PassesAll([st] + sts, n)
    {
      forall i | 0 <= i < |sts| + 1
        ensures Passes(([st] + sts)[i], n)
      {
        if i > 0 {
          assert ([st] + sts)[i] == sts[i - 1];
        }
      }
    }
  }

  lemma KeepAfterKeepAll(s: seq<Notification>, sts: seq<Stage>, st: Stage)
    ensures Keep(KeepAll(s, sts), st) == KeepAll(s, sts + [st])
  {
    forall n
      ensures PassesAll(sts + [st], n) == (PassesAll(sts, n) && Passes(st, n))
    {
      assert (sts + [st])[|sts|] == st;
      assert forall i :: 0 <= i < |sts| ==> (sts + [st])[i] == sts[i];
    }
    FilterFilter(s, (n: Notification) => PassesAll(sts, n), (n: Notification) => Passes(st, n),
      (n: Notification) => PassesAll(sts + [st], n));
  }

  /** Running the blocks after a multi-stage filter is one filter by the
      stages that fire, appended. */
  lemma {:induction false} PipelineIsKeepAll(s: seq<Notification>, acc: seq<Stage>, steps: seq<Step>)
    ensures Pipeline(KeepAll(s, acc), steps) == KeepAll(s, acc + Active(steps))
    decreases |steps|
  {
    if |steps| == 0 {
      assert acc + Active(steps) == acc;
    } else if steps[0].applies {
      KeepAfterKeepAll(s, acc, steps[0].stage);
      PipelineIsKeepAll(s, acc + [steps[0].stage], steps[1..]);
      assert acc + [steps[0].stage] + Active(steps[1..]) == acc + Active(steps);
    } else {
      PipelineIsKeepAll(s, acc, steps[1..]);
    }
  }

  /** A tri-state flag over a nullable timestamp: "true" keeps the set
      ones, "false" keeps the null ones, any other value keeps everything. */
  predicate TriState(flag: string, t: Option<Time>) {
    (flag == "true" ==> t.Some?) && (flag == "false" ==> t.None?)
  }

  /** The `type` flag: "watching", "assigned" and "created" restrict the
      referenced issue; any other value restricts nothing. */
  predicate KindMatches(db: Db, slug: string, user: Id, kind: string, n: Notification) {
    && (kind == "watching" ==> EntityIn(n, WatchedIssues(db, slug, user)))
    && (kind == "assigned" ==> EntityIn(n, AssignedIssues(db, slug, user)))
    && (kind == "created" ==> EntityIn(n, CreatedIssues(db, slug, user)))
  }

  /** A notification the inbox shows for these filters: the conjunction of
      all stages, with the "snoozed" stage in its simplified form. */
  predicate Selected(db: Db, slug: string, user: Id, f: ListFilters, now: Time, n: Notification) {
    && InScope(n, slug, user)
    && (f.snoozed == "false" ==> SnoozeNullOrPending(n, now))
    && (f.snoozed == "true" ==> n.snoozedTill.Some?)
    && TriState(f.read, n.readAt)
    && TriState(f.archived, n.archivedAt)
    && KindMatches(db, slug, user, f.kind, n)
  }

  /** The rows `Selected` keeps, in table order. */
  function Select(db: Db, slug: string, user: Id, f: ListFilters, now: Time): seq<Notification> {
    Filter(db.notifications, (n: Notification) => Selected(db, slug, user, f, now, n))
  }

  /** The "snoozed=true" filter `snoozed_till < now OR snoozed_till IS NOT
      NULL` is just `snoozed_till IS NOT NULL`: snoozes that end in the
      future are returned as well. */
  lemma SnoozedTrueIsNotNull(n: Notification, now: Time)
    ensures SnoozedAsWritten(n, now) <==> n.snoozedTill.Some?
    ensures n.snoozedTill.Some? && n.snoozedTill.value >= now ==> SnoozedAsWritten(n, now)
  {
  }

  /** The stages that fire for these filters accept exactly the rows
      `Selected` accepts. */
  lemma StagesAreSelection(db: Db, slug: string, user: Id, f: ListFilters, now: Time, n: Notification)
    ensures PassesAll([InWorkspaceOf(slug, user)] + Active(ListSteps(db, slug, user, f, now)), n)
        <==> Selected(db, slug, user, f, now, n)
  {
    var steps := ListSteps(db, slug, user, f, now);
    var sts := [InWorkspaceOf(slug, user)] + Active(steps);
    SnoozedTrueIsNotNull(n, now);
    PassesAllCons(InWorkspaceOf(slug, user), Active(steps));
    NineSteps(steps, n);
  }

  /** The steps that fire, for a nine-step pipeline, one by one. */
  lemma NineSteps(steps: seq<Step>, n: Notification)
    requires |steps| == 9
    ensures (forall i :: 0 <= i < |steps| && steps[i].applies ==> Passes(steps[i].stage, n)) <==>
      && (steps[0].applies ==> Passes(steps[0].stage, n))
      && (steps[1].applies ==> Passes(steps[1].stage, n))
      && (steps[2].applies ==> Passes(steps[2].stage, n))
      && (steps[3].applies ==> Passes(steps[3].stage, n))
      && (steps[4].applies ==> Passes(steps[4].stage, n))
      && (steps[5].applies ==> Passes(steps[5].stage, n))
      && (steps[6].applies ==> Passes(steps[6].stage, n))
      && (steps[7].applies ==> Passes(steps[7].stage, n))
      && (steps[8].applies ==> Passes(steps[8].stage, n))
  {
  }

  /** The staged pipeline is one filter by `Selected`, in the table's order. */
  lemma ListIsSelection(db: Db, slug: string, user: Id, q: QueryParams, now: Time)
    ensures List(db, slug, user, q, now) == Select(db, slug, user, ParseFilters(q), now)
  {
    var f := ParseFilters(q);
    var t := db.notifications;
    var scope := InWorkspaceOf(slug, user);
    var steps := ListSteps(db, slug, user, f, now);
    PassesAllCons(scope, []);
    assert [scope] + [] == [scope];
    FilterExt(t, (n: Notification) => Passes(scope, n), (n: Notification) => PassesAll([scope], n));
    PipelineIsKeepAll(t, [scope], steps);
    forall n
      ensures PassesAll([scope] + Active(steps), n) == Selected(db, slug, user, f, now, n)
    {
      StagesAreSelection(db, slug, user, f, now, n);
    }
    FilterExt(t, (n: Notification) => PassesAll([scope] + Active(steps), n),
      (n: Notification) => Selected(db, slug, user, f, now, n));
  }

  /** Membership in the inbox, both directions. */
  lemma ListMembership(db: Db, slug: string, user: Id, q: QueryParams, now: Time, n: Notification)
    ensures n in List(db, slug, user, q, now)
        <==> n in db.notifications && Selected(db, slug, user, ParseFilters(q), now, n)
  {
    ListIsSelection(db, slug, user, q, now);
  }

  /** Without `snoozed` (or with "false"), a listed notification has a
      null `snoozed_till` or one not before now: a snooze that has run out
      keeps the notification off the list. */
  lemma ListHidesExpiredSnoozes(db: Db, slug: string, user: Id, q: QueryParams, now: Time)
    requires Param(q, "snoozed", "false") == "false"
    ensures forall n :: n in List(db, slug, user, q, now) ==>
      n.snoozedTill.None? || n.snoozedTill.value >= now
  {
    forall n | n in List(db, slug, user, q, now) {
      ListMembership(db, slug, user, q, now, n);
    }
  }

  /** With `snoozed=true` exactly the in-scope notifications carrying any
      `snoozed_till` pass that stage, future ones included. */
  lemma ListSnoozedTrue(db: Db, slug: string, user: Id, q: QueryParams, now: Time)
    requires Param(q, "snoozed", "false") == "true"
    ensures forall n :: n in List(db, slug, user, q, now) ==> n.snoozedTill.Some?
    ensures forall n ::
      (n in db.notifications && n.snoozedTill.Some? && n.snoozedTill.value >= now &&
       Selected(db, slug, user, ParseFilters(q), now, n)) ==> n in List(db, slug, user, q, now)
  {
    ListIsSelection(db, slug, user, q, now);
  }

  /** `read` and `archived` are tri-state filters over their timestamps: a
      value other than "true" or "false" lists both the rows "true" lists
      and the rows "false" lists, whatever the other flags say. */
  lemma ListTriStateFlags(db: Db, slug: string, user: Id, q: QueryParams, now: Time)
    ensures forall n :: n in List(db, slug, user, q, now) ==>
      TriState(Param(q, "read", "false"), n.readAt) &&
      TriState(Param(q, "archived", "false"), n.archivedAt)
    ensures Param(q, "read", "false") !in {"true", "false"} &&
            Param(q, "archived", "false") !in {"true", "false"} ==>
      List(db, slug, user, q, now)
        == Filter(db.notifications, (n: Notification) =>
             && InScope(n, slug, user)
             && (Param(q, "snoozed", "false") == "false" ==> SnoozeNullOrPending(n, now))
             && (Param(q, "snoozed", "false") == "true" ==> n.snoozedTill.Some?)
             && KindMatches(db, slug, user, Param(q, "type", "all"), n))
    ensures Param(q, "read", "false") !in {"true", "false"} ==> forall n ::
      n in List(db, slug, user, q, now) <==>
        n in List(db, slug, user, q["read" := "true"], now) || n in List(db, slug, user, q["read" := "false"], now)
    ensures Param(q, "archived", "false") !in {"true", "false"} ==> forall n ::
      n in List(db, slug, user, q, now) <==>
        n in List(db, slug, user, q["archived" := "true"], now) || n in List(db, slug, user, q["archived" := "false"], now)
  {
    if Param(q, "read", "false") !in {"true", "false"} {
      forall n {
        FlagOtherValue(db, slug, user, q, now, "read", n);
      }
    }
    if Param(q, "archived", "false") !in {"true", "false"} {
      forall n {
        FlagOtherValue(db, slug, user, q, now, "archived", n);
      }
    }
    ListIsSelection(db, slug, user, q, now);
    var f := ParseFilters(q);
    if f.read !in {"true", "false"} && f.archived !in {"true", "false"} {
      FilterExt(db.notifications,
        (n: Notification) => Selected(db, slug, user, f, now, n),
        (n: Notification) => && InScope(n, slug, user)
             && (f.snoozed == "false" ==> SnoozeNullOrPending(n, now))
             && (f.snoozed == "true" ==> n.snoozedTill.Some?)
             && KindMatches(db, slug, user, f.kind, n));
    }
  }

  /** A `read` or `archived` value other than "true" or "false" lists a row
      exactly when one of those two values would. */
  lemma FlagOtherValue(db: Db, slug: string, user: Id, q: QueryParams, now: Time, key: string, n: Notification)
    requires key == "read" || key == "archived"
    requires Param(q, key, "false") !in {"true", "false"}
    ensures n in List(db, slug, user, q, now) <==>
      n in List(db, slug, user, q[key := "true"], now) || n in List(db, slug, user, q[key := "false"], now)
  {
    ListMembership(db, slug, user, q, now, n);
    ListMembership(db, slug, user, q[key := "true"], now, n);
    ListMembership(db, slug, user, q[key := "false"], now, n);
  }

  /** The `type` filter: each listed notification refers to an issue of the
      matching set; "all" and unknown kinds restrict nothing. */
  lemma ListKindFilter(db: Db, slug: string, user: Id, q: QueryParams, now: Time)
    ensures Param(q, "type", "all") == "watching" ==> forall n :: n in List(db, slug, user, q, now) ==>
      n.entityIdentifier.Some? && n.entityIdentifier.value in WatchedIssues(db, slug, user)
    ensures Param(q, "type", "all") == "assigned" ==> forall n :: n in List(db, slug, user, q, now) ==>
      n.entityIdentifier.Some? && n.entityIdentifier.value in AssignedIssues(db, slug, user)
    ensures Param(q, "type", "all") == "created" ==> forall n :: n in List(db, slug, user, q, now) ==>
      n.entityIdentifier.Some? && n.entityIdentifier.value in CreatedIssues(db, slug, user)
    ensures Param(q, "type", "all") !in {"watching", "assigned", "created"} ==>
      List(db, slug, user, q, now) == List(db, slug, user, q["type" := "all"], now)
  {
    ListIsSelection(db, slug, user, q, now);
    ListIsSelection(db, slug, user, q["type" := "all"], now);
    var f, g := ParseFilters(q), ParseFilters(q["type" := "all"]);
    if f.kind !in {"watching", "assigned", "created"} {
      FilterExt(db.notifications,
        (n: Notification) => Selected(db, slug, user, f, now, n),
        (n: Notification) => Selected(db, slug, user, g, now, n));
    }
  }

  /** `list` only removes rows: its result keeps the table's order. */
  lemma ListIsSubsequence(db: Db, slug: string, user: Id, q: QueryParams, now: Time)
    ensures IsSubsequence(List(db, slug, user, q, now), db.notifications)
  {
    ListIsSelection(db, slug, user, q, now);
    FilterIsSubsequence(db.notifications, (n: Notification) => Selected(db, slug, user, ParseFilters(q), now, n));
  }

  /** With no query flags the inbox shows the user's unread, unarchived
      notifications of the workspace that were never snoozed or whose
      `snoozed_till` is now or later. */
  lemma DefaultInbox(db: Db, slug: string, user: Id, now: Time)
    ensures List(db, slug, user, map[], now)
         == Filter(db.notifications, (n: Notification) =>
              InScope(n, slug, user) && SnoozeNullOrPending(n, now) && n.readAt.None? && n.archivedAt.None?)
  {
    ListIsSelection(db, slug, user, map[], now);
    FilterExt(db.notifications,
      (n: Notification) => Selected(db, slug, user, ParseFilters(map[]), now, n),
      (n: Notification) => InScope(n, slug, user) && SnoozeNullOrPending(n, now) && n.readAt.None? && n.archivedAt.None?);
  }

  /** The default inbox keeps an unread, unarchived notification whose
      snooze lies ahead and drops one whose snooze has run out. The filter
      for `snoozed=false` compares `snoozed_till >= now`, so a notification
      is hidden from the inbox only once its snooze is over. */
  lemma DefaultInboxSnoozeWindow(db: Db, slug: string, user: Id, now: Time, n: Notification)
    requires n in db.notifications && InScope(n, slug, user)
    requires n.readAt.None? && n.archivedAt.None? && n.snoozedTill.Some?
    ensures n in List(db, slug, user, map[], now) <==> n.snoozedTill.value >= now
  {
    ListMembership(db, slug, user, map[], now, n);
  }

  // ---------------------------------------------------------------------
  // Per-notification actions.
  // ---------------------------------------------------------------------

  /** The row an action addresses: `pk` in `slug`, received by `user`. */
  datatype Target = Target(slug: string, user: Id, pk: Id)

  predicate Owns(n: Notification, k: Target) {
    n.id == k.pk && n.workspaceSlug == k.slug && n.receiver == k.user
  }

  /** The error bodies of the actions; each is sent with status 400. */
  datatype ApiError =
    | NotificationDoesNotExist   // "Notification does not exists"
    | SomethingWentWrong         // any other exception
    | InvalidField(name: string) // serializer validation errors

  /** What an action leaves behind: the table and the response body. */
  datatype Response = Response(table: seq<Notification>, body: Result<Notification, ApiError>)

  /** Indices of the rows the target addresses, in increasing order. */
  function OwnedRows(t: seq<Notification>, k: Target): (r: seq<nat>)
    ensures forall j :: 0 <= j < |r| ==> r[j] < |t| && Owns(t[r[j]], k)
    ensures forall i :: 0 <= i < |t| && Owns(t[i], k) ==> i in r
    ensures forall a, b :: 0 <= a < b < |r| ==> r[a] < r[b]
    decreases |t|
  {
    if |t| == 0 then []
    else
      var front := OwnedRows(t[..|t| - 1], k);
      if Owns(t[|t| - 1], k) then front + [|t| - 1] else front
  }

  /** `Notification.objects.get(...)`: no match raises `DoesNotExist`, more
      than one raises `MultipleObjectsReturned`, caught by the generic
      handler. */
  function Get(t: seq<Notification>, k: Target): (r: Result<nat, ApiError>)
    ensures r.Success? ==> r.value < |t| && Owns(t[r.value], k)
    ensures r.Success? ==> forall i :: 0 <= i < |t| && Owns(t[i], k) ==> i == r.value
    ensures r == Failure(NotificationDoesNotExist) <==> forall i :: 0 <= i < |t| ==> !Owns(t[i], k)
    ensures r == Failure(SomethingWentWrong) <==>
      exists i, j :: 0 <= i < j < |t| && Owns(t[i], k) && Owns(t[j], k)
    ensures r.Failure? ==> r.error == NotificationDoesNotExist || r.error == SomethingWentWrong
  {
    var rows := OwnedRows(t, k);
    if |rows| == 0 then Failure(NotificationDoesNotExist)
    else if |rows| == 1 then Success(rows[0])
    else
      assert Owns(t[rows[0]], k) && Owns(t[rows[1]], k) && rows[0] < rows[1];
      Failure(SomethingWentWrong)
  }

  /** The nullable timestamps an action may write. */
  datatype Field = ReadAt | ArchivedAt | SnoozedTill

  /** `a` and `b` agree on every column except possibly `f`. */
  predicate SameExcept(a: Notification, b: Notification, f: Field) {
    && a.id == b.id
    && a.workspaceSlug == b.workspaceSlug
    && a.receiver == b.receiver
    && a.sender == b.sender
    && a.title == b.title
    && a.entityIdentifier == b.entityIdentifier
    && a.createdAt == b.createdAt
    && (f != ReadAt ==> a.readAt == b.readAt)
    && (f != ArchivedAt ==> a.archivedAt == b.archivedAt)
    && (f != SnoozedTill ==> a.snoozedTill == b.snoozedTill)
  }

  /** Outcome of a successful action that rewrote row `i` as `n`: the saved
      row is the response body and nothing else in the table changed. */
  predicate RewroteRow(t: seq<Notification>, k: Target, r: Response, f: Field) {
    && r.body.Success?
    && |r.table| == |t|
    && exists i :: 0 <= i < |t| && Owns(t[i], k)
         && r.table == t[i := r.body.value]
         && SameExcept(t[i], r.body.value, f)
  }

  /** Shared shape of the four timestamp actions: look the row up, write
      one timestamp, save, and echo the row. */
  function Write(t: seq<Notification>, k: Target, f: Field, v: Option<Time>): (r: Response)
    ensures r.body.Failure? ==> r.table == t
    ensures r.body == Failure(NotificationDoesNotExist) <==> forall i :: 0 <= i < |t| ==> !Owns(t[i], k)
    ensures r.body.Success? <==> Get(t, k).Success?
    ensures Get(t, k).Failure? ==> r.body == Failure(Get(t, k).error)
    ensures r.body.Success? ==> RewroteRow(t, k, r, f)
  {
    match Get(t, k)
    case Failure(e) => Response(t, Failure(e))
    case Success(i) =>
      var n := Set(t[i], f, v);
      Response(t[i := n], Success(n))
  }

  function Set(n: Notification, f: Field, v: Option<Time>): (m: Notification)
    ensures SameExcept(n, m, f)
  {
    match f
    case ReadAt => n.(readAt := v)
    case ArchivedAt => n.(archivedAt := v)
    case SnoozedTill => n.(snoozedTill := v)
  }

  /** `mark_read`: stamps `read_at` with now. */
  function MarkRead(t: seq<Notification>, k: Target, now: Time): (r: Response)
    ensures r.body.Failure? ==> r.table == t
    ensures r.body == Failure(NotificationDoesNotExist) <==> forall i :: 0 <= i < |t| ==> !Owns(t[i], k)
    ensures r.body.Success? <==> Get(t, k).Success?
    ensures Get(t, k).Failure? ==> r.body == Failure(Get(t, k).error)
    ensures r.body.Success? ==> RewroteRow(t, k, r, ReadAt) && r.body.value.readAt == Some(now)
  {
    Write(t, k, ReadAt, Some(now))
  }

  /** `mark_unread`: clears `read_at`. */
  function MarkUnread(t: seq<Notification>, k: Target): (r: Response)
    ensures r.body.Failure? ==> r.table == t
    ensures r.body == Failure(NotificationDoesNotExist) <==> forall i :: 0 <= i < |t| ==> !Owns(t[i], k)
    ensures r.body.Success? <==> Get(t, k).Success?
    ensures Get(t, k).Failure? ==> r.body == Failure(Get(t, k).error)
    ensures r.body.Success? ==> RewroteRow(t, k, r, ReadAt) && r.body.value.readAt.None?
  {
    Write(t, k, ReadAt, None)
  }

  /** `archive`: stamps `archived_at` with now. */
  function Archive(t: seq<Notification>, k: Target, now: Time): (r: Response)
    ensures r.body.Failure? ==> r.table == t
    ensures r.body == Failure(NotificationDoesNotExist) <==> forall i :: 0 <= i < |t| ==> !Owns(t[i], k)
    ensures r.body.Success? <==> Get(t, k).Success?
    ensures Get(t, k).Failure? ==> r.body == Failure(Get(t, k).error)
    ensures r.body.Success? ==> RewroteRow(t, k, r, ArchivedAt) && r.body.value.archivedAt == Some(now)
  {
    Write(t, k, ArchivedAt, Some(now))
  }

  /** `unarchive`: clears `archived_at`. */
  function Unarchive(t: seq<Notification>, k: Target): (r: Response)
    ensures r.body.Failure? ==> r.table == t
    ensures r.body == Failure(NotificationDoesNotExist) <==> forall i :: 0 <= i < |t| ==> !Owns(t[i], k)
    ensures r.body.Success? <==> Get(t, k).Success?
    ensures Get(t, k).Failure? ==> r.body == Failure(Get(t, k).error)
    ensures r.body.Success? ==> RewroteRow(t, k, r, ArchivedAt) && r.body.value.archivedAt.None?
  {
    Write(t, k, ArchivedAt, None)
  }

  /** A JSON value of the request body, as far as the serializer's
      datetime field sees it. */
  datatype Json = Null | Timestamp(at: Time) | Other(text: string)

  /** `request.data.get("snoozed_till", None)`. */
  function SnoozeParam(data: map<string, Json>): Json {
    if "snoozed_till" in data then data["snoozed_till"] else Null
  }

  /** `partial_update`: only `snoozed_till` is taken from the request; a
      missing or null value clears it, a value that is not a timestamp is
      rejected by the serializer without saving. */
  function PartialUpdate(t: seq<Notification>, k: Target, data: map<string, Json>): (r: Response)
    ensures r.body.Failure? ==> r.table == t
    ensures r.body == Failure(NotificationDoesNotExist) <==> forall i :: 0 <= i < |t| ==> !Owns(t[i], k)
    ensures r.body == Failure(InvalidField("snoozed_till")) <==>
      SnoozeParam(data).Other? && Get(t, k).Success?
    ensures r.body.Success? <==> Get(t, k).Success? && !SnoozeParam(data).Other?
    ensures Get(t, k).Failure? ==> r.body == Failure(Get(t, k).error)
    ensures r.body.Success? ==> RewroteRow(t, k, r, SnoozedTill)
    ensures r.body.Success? && SnoozeParam(data).Null? ==> r.body.value.snoozedTill.None?
    ensures SnoozeParam(data).Timestamp? && r.body.Success? ==>
      r.body.value.snoozedTill == Some(SnoozeParam(data).at)
  {
    match SnoozeParam(data)
    case Null => Write(t, k, SnoozedTill, None)
    case Timestamp(at) => Write(t, k, SnoozedTill, Some(at))
    case Other(_) =>
      match Get(t, k)
      case Failure(e) => Response(t, Failure(e))
      case Success(_) => Response(t, Failure(InvalidField("snoozed_till")))
  }

  // ---------------------------------------------------------------------
  // Lemmas relating actions to each other and to the inbox.
  // ---------------------------------------------------------------------

  /** Which rows a target addresses depends only on ownership. */
  lemma {:induction false} OwnedRowsByOwnership(t: seq<Notification>, u: seq<Notification>, k: Target)
    requires |t| == |u|
    requires forall i :: 0 <= i < |t| ==> Owns(t[i], k) == Owns(u[i], k)
    ensures OwnedRows(t, k) == OwnedRows(u, k)
    decreases |t|
  {
    if |t| > 0 {
      OwnedRowsByOwnership(t[..|t| - 1], u[..|u| - 1], k);
    }
  }

  /** A write keeps the same row addressed by the same target. */
  lemma GetAfterWrite(t: seq<Notification>, k: Target, f: Field, v: Option<Time>)
    requires Write(t, k, f, v).body.Success?
    ensures Get(Write(t, k, f, v).table, k) == Get(t, k)
  {
    OwnedRowsByOwnership(t, Write(t, k, f, v).table, k);
  }

  /** Writing the same value twice is writing it once. */
  lemma WriteIdempotent(t: seq<Notification>, k: Target, f: Field, v: Option<Time>)
    ensures Write(Write(t, k, f, v).table, k, f, v) == Write(t, k, f, v)
  {
    if Write(t, k, f, v).body.Success? {
      GetAfterWrite(t, k, f, v);
    }
  }

  /** `mark_unread` is idempotent. */
  lemma MarkUnreadIdempotent(t: seq<Notification>, k: Target)
    ensures MarkUnread(MarkUnread(t, k).table, k) == MarkUnread(t, k)
  {
    WriteIdempotent(t, k, ReadAt, None);
  }

  /** `unarchive` is idempotent. */
  lemma UnarchiveIdempotent(t: seq<Notification>, k: Target)
    ensures Unarchive(Unarchive(t, k).table, k) == Unarchive(t, k)
  {
    WriteIdempotent(t, k, ArchivedAt, None);
  }

  /** `partial_update` with the same body twice leaves the same table and
      response as once: a rejected value changes nothing, a valid one is
      written again over itself. */
  lemma PartialUpdateIdempotent(t: seq<Notification>, k: Target, data: map<string, Json>)
    ensures PartialUpdate(PartialUpdate(t, k, data).table, k, data) == PartialUpdate(t, k, data)
  {
    match SnoozeParam(data)
    case Null => WriteIdempotent(t, k, SnoozedTill, None);
    case Timestamp(at) => WriteIdempotent(t, k, SnoozedTill, Some(at));
    case Other(_) =>
  }

  /** Whatever `mark_read` did, a following `mark_unread` leaves the table
      as `mark_unread` alone would. */
  lemma MarkUnreadAfterMarkRead(t: seq<Notification>, k: Target, now: Time)
    ensures MarkUnread(MarkRead(t, k, now).table, k) == MarkUnread(t, k)
  {
    if MarkRead(t, k, now).body.Success? {
      GetAfterWrite(t, k, ReadAt, Some(now));
    }
  }

  /** Once marked read, the notification leaves the default (unread) inbox. */
  lemma MarkReadLeavesInbox(db: Db, k: Target, now: Time, later: Time, q: QueryParams)
    requires Param(q, "read", "false") == "false"
    requires MarkRead(db.notifications, k, now).body.Success?
    ensures MarkRead(db.notifications, k, now).body.value
      !in List(db.(notifications := MarkRead(db.notifications, k, now).table), k.slug, k.user, q, later)
  {
    var r := MarkRead(db.notifications, k, now);
    ListMembership(db.(notifications := r.table), k.slug, k.user, q, later, r.body.value);
  }

  /** Once archived, the notification leaves the default (unarchived) inbox. */
  lemma ArchiveLeavesInbox(db: Db, k: Target, now: Time, later: Time, q: QueryParams)
    requires Param(q, "archived", "false") == "false"
    requires Archive(db.notifications, k, now).body.Success?
    ensures Archive(db.notifications, k, now).body.value
      !in List(db.(notifications := Archive(db.notifications, k, now).table), k.slug, k.user, q, later)
  {
    var r := Archive(db.notifications, k, now);
    ListMembership(db.(notifications := r.table), k.slug, k.user, q, later, r.body.value);
  }
}
