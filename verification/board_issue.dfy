/** The issue card of the board view: the optimistic `partialUpdateIssue`
    (fetch-key choice, speculative cache patch, revalidation after the
    server accepts the patch), the drag style, and the permission gate of
    the card's menus.

    The fetch cache is a map from keys to cached values; route query values
    are optional strings; the network call is replaced by its outcome. */
module BoardIssue {
  import opened Wrappers
  import opened Js

  type IssueId = string

  /** A JSON field value of an issue. */
  datatype Value = Null | Bool(b: bool) | Int(i: int) | Str(s: string) | Strs(items: seq<string>)

  /** Named fields of a record; a `Partial<IIssue>` is such a map too. */
  type Fields = map<string, Value>

  /** An issue as the card sees it: its id, its parent, and its other fields. */
  datatype Issue = Issue(id: IssueId, parent: Option<IssueId>, fields: Fields)

  /** The body cached under a sub-issue key: `sub_issues` may be missing,
      and the remaining fields are carried along untouched. */
  datatype SubIssueResponse = SubIssueResponse(subIssues: Option<seq<Issue>>, rest: Fields)

  /** Query parameters of the current issue view, passed through to keys. */
  type ViewParams = map<string, string>

  /** Keys of the fetch cache, one constructor per key builder. */
  datatype Key =
    | CycleIssuesWithParams(cycle: string, params: ViewParams)
    | ModuleIssuesWithParams(moduleId: string, params: ViewParams)
    | ViewIssues(view: string, params: ViewParams)
    | ProjectIssuesListWithParams(project: string, params: ViewParams)
    | SubIssues(parent: IssueId)
    | CycleDetails(cycle: string)
    | ModuleDetails(moduleId: string)

  /** Values of the fetch cache: a sub-issue body, or the issue list of a
      view (grouped or flat), whose shape only the view mutation knows. */
  datatype CacheValue =
    | SubIssueData(resp: SubIssueResponse)
    | IssueLists(groups: map<string, seq<Issue>>)
    | IssueList(issues: seq<Issue>)

  type Cache = map<Key, CacheValue>

  /** The board page's route query. */
  datatype Route = Route(
    workspaceSlug: Option<string>,
    projectId: Option<string>,
    cycleId: Option<string>,
    moduleId: Option<string>,
    viewId: Option<string>)

  /** The cached value under `k`, if any. */
  function Entry(c: Cache, k: Key): Option<CacheValue> {
    if k in c then Some(c[k]) else None
  }

  /** `c'` differs from `c` at most under `k`. */
  ghost predicate UnchangedExcept(c: Cache, c': Cache, k: Key) {
    forall j :: j != k ==> Entry(c', j) == Entry(c, j)
  }

  /** A speculative cache write (`mutate(key, updater, false)`): the
      updater sees the cached value or nothing, and what it returns becomes
      the cached value (nothing stays nothing). */
  function Mutate(c: Cache, k: Key, update: Option<CacheValue> -> Option<CacheValue>): (c': Cache)
    ensures UnchangedExcept(c, c', k)
    ensures Entry(c', k) == update(Entry(c, k))
  {
    var v := update(Entry(c, k));
    var c' := if v.Some? then c[k := v.value] else c - {k};
    assert forall j :: j != k ==> Entry(c', j) == Entry(c, j);
    c'
  }

  // ---------------------------------------------------------------------
  // partialUpdateIssue
  // ---------------------------------------------------------------------

  /** The key of the issue list the board shows: a cycle's issues, else a
      module's, else a saved view's, else the project's. */
  function FetchKey(route: Route, params: ViewParams): (k: Key)
    requires Truthy(route.projectId)
    ensures k.CycleIssuesWithParams? <==> Truthy(route.cycleId)
    ensures k.ModuleIssuesWithParams? <==> !Truthy(route.cycleId) && Truthy(route.moduleId)
    ensures k.ViewIssues? <==> !Truthy(route.cycleId) && !Truthy(route.moduleId) && Truthy(route.viewId)
    ensures k.ProjectIssuesListWithParams? <==>
      !Truthy(route.cycleId) && !Truthy(route.moduleId) && !Truthy(route.viewId)
    ensures k.CycleIssuesWithParams? ==> k.cycle == route.cycleId.value
    ensures k.ModuleIssuesWithParams? ==> k.moduleId == route.moduleId.value
    ensures k.ViewIssues? ==> k.view == route.viewId.value
    ensures k.ProjectIssuesListWithParams? ==> k.project == route.projectId.value
    ensures k.params == params
  {
    if Truthy(route.cycleId) then CycleIssuesWithParams(route.cycleId.value, params)
    else if Truthy(route.moduleId) then ModuleIssuesWithParams(route.moduleId.value, params)
    else if Truthy(route.viewId) then ViewIssues(route.viewId.value, params)
    else ProjectIssuesListWithParams(route.projectId.value, params)
  }

  /** `{ ...i, ...formData }` for an issue whose id and parent `formData`
      does not carry. */
  function Merge(i: Issue, formData: Fields): (m: Issue)
    ensures m.id == i.id && m.parent == i.parent
    ensures m.fields.Keys == i.fields.Keys + formData.Keys
    ensures forall f :: f in formData ==> m.fields[f] == formData[f]
    ensures forall f :: f in i.fields && f !in formData ==> m.fields[f] == i.fields[f]
  {
    i.(fields := i.fields + formData)
  }

  /** The `sub_issues.map(...)` of the speculative patch: the element whose
      id matches gets `formData` merged in, every other element is kept. */
  function PatchSubIssues(s: seq<Issue>, id: IssueId, formData: Fields): (r: seq<Issue>)
    ensures |r| == |s|
    ensures forall j :: 0 <= j < |s| && s[j].id != id ==> r[j] == s[j]
    ensures forall j :: 0 <= j < |s| && s[j].id == id ==> r[j] == Merge(s[j], formData)
    ensures forall j :: 0 <= j < |s| ==> r[j].id == s[j].id
    decreases |s|
  {
    if |s| == 0 then []
    else
      var head := if s[0].id == id then Merge(s[0], formData) else s[0];
      var tail := PatchSubIssues(s[1..], id, formData);
      assert forall j :: 1 <= j < |s| ==> s[j] == s[1..][j - 1];
      [head] + tail
  }

  /** The updater given for the parent's sub-issue key: nothing cached
      stays nothing; a missing `sub_issues` list counts as empty; other
      fields of the body are kept. A value of another shape is left alone. */
  function PatchSubIssueData(prev: Option<CacheValue>, id: IssueId, formData: Fields): (next: Option<CacheValue>)
    ensures prev.None? <==> next.None?
    ensures prev.Some? && !prev.value.SubIssueData? ==> next == prev
    ensures prev.Some? && prev.value.SubIssueData? ==>
      && next.value.SubIssueData?
      && next.value.resp.rest == prev.value.resp.rest
      && next.value.resp.subIssues.Some?
      && next.value.resp.subIssues.value == PatchSubIssues(prev.value.resp.subIssues.GetOr([]), id, formData)
  {
    match prev
    case None => None
    case Some(SubIssueData(resp)) =>
      Some(SubIssueData(resp.(subIssues := Some(PatchSubIssues(resp.subIssues.GetOr([]), id, formData)))))
    case Some(other) => Some(other)
  }

  /** The current user handed down to the card, `undefined` until loaded;
      the service only forwards it. */
  type UserRef = Option<string>

  /** The call `patchIssue(workspaceSlug, projectId, issue.id, formData, user)`. */
  datatype PatchRequest = PatchRequest(
    workspaceSlug: string, projectId: string, issue: IssueId, formData: Fields, user: UserRef)

  /** Whether the server accepted the patch. */
  datatype PatchOutcome = Accepted | Rejected

  /** What one `partialUpdateIssue` call does: the cache after the
      speculative patch, the request sent, and the keys revalidated once
      the request resolves. */
  datatype Effects = Effects(cache: Cache, request: PatchRequest, revalidated: set<Key>)

  /** `partialUpdateIssue(formData, issue)`. `viewPatch` stands for the
      board's list mutation, which this model does not interpret. */
  function PartialUpdateIssue(
    route: Route, params: ViewParams, formData: Fields, issue: Issue, user: UserRef, cache: Cache,
    viewPatch: Option<CacheValue> -> Option<CacheValue>, outcome: PatchOutcome): (r: Option<Effects>)
    ensures r.None? <==> !Truthy(route.workspaceSlug) || !Truthy(route.projectId)
    ensures r.Some? ==>
      r.value.request == PatchRequest(route.workspaceSlug.value, route.projectId.value, issue.id, formData, user)
    ensures r.Some? && Truthy(issue.parent) ==>
      var k := SubIssues(issue.parent.value);
      UnchangedExcept(cache, r.value.cache, k) &&
      Entry(r.value.cache, k) == PatchSubIssueData(Entry(cache, k), issue.id, formData)
    ensures r.Some? && !Truthy(issue.parent) ==>
      var k := FetchKey(route, params);
      UnchangedExcept(cache, r.value.cache, k) &&
      Entry(r.value.cache, k) == viewPatch(Entry(cache, k))
    ensures r.Some? && outcome == Rejected ==> r.value.revalidated == {}
    ensures r.Some? && outcome == Accepted ==> forall k ::
      k in r.value.revalidated <==>
        || k == FetchKey(route, params)
        || (Truthy(route.cycleId) && k == CycleDetails(route.cycleId.value))
        || (Truthy(route.moduleId) && k == ModuleDetails(route.moduleId.value))
  {
    if !Truthy(route.workspaceSlug) || !Truthy(route.projectId) then None
    else
      var fetchKey := FetchKey(route, params);
      var speculative :=
        if Truthy(issue.parent) then
          Mutate(cache, SubIssues(issue.parent.value),
            (prev: Option<CacheValue>) => PatchSubIssueData(prev, issue.id, formData))
        else
          Mutate(cache, fetchKey, viewPatch);
      var revalidated :=
        if outcome == Rejected then {}
        else
          {fetchKey}
          + (if Truthy(route.cycleId) then {CycleDetails(route.cycleId.value)} else {})
          + (if Truthy(route.moduleId) then {ModuleDetails(route.moduleId.value)} else {});
      Some(Effects(
        speculative,
        PatchRequest(route.workspaceSlug.value, route.projectId.value, issue.id, formData, user),
        revalidated))
  }

  /** Exactly one cache is patched speculatively: the parent's sub-issue
      list for a sub-issue, the view's list otherwise, never both. */
  lemma ExactlyOneCachePatched(
    route: Route, params: ViewParams, formData: Fields, issue: Issue, user: UserRef, cache: Cache,
    viewPatch: Option<CacheValue> -> Option<CacheValue>, outcome: PatchOutcome)
    requires Truthy(route.workspaceSlug) && Truthy(route.projectId)
    ensures var r := PartialUpdateIssue(route, params, formData, issue, user, cache, viewPatch, outcome).value;
      && (Truthy(issue.parent) ==> Entry(r.cache, FetchKey(route, params)) == Entry(cache, FetchKey(route, params)))
      && (!Truthy(issue.parent) ==> forall p :: Entry(r.cache, SubIssues(p)) == Entry(cache, SubIssues(p)))
  {
  }

  /** The sub-issue cache is never revalidated: after a sub-issue edit it
      keeps the speculative value whatever the server answers. */
  lemma SubIssueCacheNotRevalidated(
    route: Route, params: ViewParams, formData: Fields, issue: Issue, user: UserRef, cache: Cache,
    viewPatch: Option<CacheValue> -> Option<CacheValue>, outcome: PatchOutcome)
    requires Truthy(route.workspaceSlug) && Truthy(route.projectId)
    ensures forall p ::
      (SubIssues(p) !in PartialUpdateIssue(route, params, formData, issue, user, cache, viewPatch, outcome).value.revalidated)
  {
  }

  /** A patched sub-issue list: same length and order, only the elements
      with the edited id change, and in them `formData` wins while every
      other field is kept. */
  lemma SubIssuePatchShape(s: seq<Issue>, id: IssueId, formData: Fields)
    ensures var r := PatchSubIssues(s, id, formData);
      && |r| == |s|
      && (forall j :: 0 <= j < |s| && r[j] != s[j] ==> s[j].id == id)
      && (forall j, f :: 0 <= j < |s| && s[j].id == id && f in formData ==> f in r[j].fields && r[j].fields[f] == formData[f])
      && (forall j, f :: 0 <= j < |s| && s[j].id == id && f in s[j].fields && f !in formData ==>
            f in r[j].fields && r[j].fields[f] == s[j].fields[f])
  {
  }

  /** Applying the same sub-issue patch twice is applying it once. */
  lemma {:induction false} PatchSubIssuesIdempotent(s: seq<Issue>, id: IssueId, formData: Fields)
    ensures PatchSubIssues(PatchSubIssues(s, id, formData), id, formData) == PatchSubIssues(s, id, formData)
    decreases |s|
  {
    if |s| > 0 {
      PatchSubIssuesIdempotent(s[1..], id, formData);
      var once := PatchSubIssues(s, id, formData);
      assert once[1..] == PatchSubIssues(s[1..], id, formData);
      if s[0].id == id {
        assert Merge(Merge(s[0], formData), formData) == Merge(s[0], formData);
      }
    }
  }

  // ---------------------------------------------------------------------
  // getStyle
  // ---------------------------------------------------------------------

  /** An inline style object. */
  type Style = map<string, string>

  /** The drag library's snapshot of the card. */
  datatype DragSnapshot = DragSnapshot(isDragging: bool, isDropAnimating: bool)

  /** The style given to the dragged card; a missing style spreads as `{}`. */
  function GetStyle(orderBy: Option<string>, style: Option<Style>, snapshot: DragSnapshot): (r: Option<Style>)
    ensures orderBy == Some("sort_order") ==> r == style
    ensures orderBy != Some("sort_order") && !snapshot.isDragging ==> r == Some(map[])
    ensures orderBy != Some("sort_order") && snapshot.isDragging && !snapshot.isDropAnimating ==> r == style
    ensures orderBy != Some("sort_order") && snapshot.isDragging && snapshot.isDropAnimating ==>
      && r.Some?
      && r.value.Keys == style.GetOr(map[]).Keys + {"transitionDuration"}
      && r.value["transitionDuration"] == "0.001s"
      && forall p :: p in style.GetOr(map[]) && p != "transitionDuration" ==> r.value[p] == style.GetOr(map[])[p]
  {
    if orderBy == Some("sort_order") then style
    else if !snapshot.isDragging then Some(map[])
    else if !snapshot.isDropAnimating then style
    else Some(style.GetOr(map[])["transitionDuration" := "0.001s"])
  }

  /** The drop animation is the only time a style is rewritten rather than
      passed through or emptied. */
  lemma StyleRewrittenOnlyWhileDropAnimating(orderBy: Option<string>, style: Option<Style>, snapshot: DragSnapshot)
    ensures var r := GetStyle(orderBy, style, snapshot);
      r != style && r != Some(map[]) ==>
        orderBy != Some("sort_order") && snapshot.isDragging && snapshot.isDropAnimating &&
        r.value["transitionDuration"] == "0.001s"
  {
  }

  // ---------------------------------------------------------------------
  // Menu gating
  // ---------------------------------------------------------------------

  /** The current user's role in the project. */
  datatype UserAuth = UserAuth(isOwner: bool, isMember: bool, isViewer: bool, isGuest: bool)

  /** Guests, viewers, and anyone on a completed cycle or module may not edit. */
  predicate IsNotAllowed(auth: UserAuth, isCompleted: bool) {
    auth.isGuest || auth.isViewer || isCompleted
  }

  datatype MenuItem = EditIssue | MakeCopy | DeleteIssue | CopyIssueLink | OpenInNewTab | RemoveFrom(container: string)

  /** The right-click menu of the card, top to bottom. */
  function ContextMenuItems(auth: UserAuth, isCompleted: bool): (items: seq<MenuItem>)
    ensures EditIssue in items <==> !IsNotAllowed(auth, isCompleted)
    ensures MakeCopy in items <==> !IsNotAllowed(auth, isCompleted)
    ensures DeleteIssue in items <==> !IsNotAllowed(auth, isCompleted)
    ensures CopyIssueLink in items && OpenInNewTab in items
    ensures forall c :: RemoveFrom(c) !in items
    ensures |items| == if IsNotAllowed(auth, isCompleted) then 2 else 5
    ensures !IsNotAllowed(auth, isCompleted) ==> items[..3] == [EditIssue, MakeCopy, DeleteIssue]
    ensures items[|items| - 2..] == [CopyIssueLink, OpenInNewTab]
  {
    (if !IsNotAllowed(auth, isCompleted) then [EditIssue, MakeCopy, DeleteIssue] else [])
    + [CopyIssueLink, OpenInNewTab]
  }

  /** The card's hover menu: shown only to users allowed to edit and only
      when the board passes a container `type`; "Remove from" appears for
      containers other than "issue" when a remove handler is given. */
  function QuickActionItems(kind: Option<string>, hasRemoveIssue: bool, auth: UserAuth, isCompleted: bool): (items: seq<MenuItem>)
    ensures |items| > 0 <==> !IsNotAllowed(auth, isCompleted) && Truthy(kind)
    ensures |items| > 0 ==> EditIssue in items && DeleteIssue in items && CopyIssueLink in items
    ensures |items| > 0 ==>
      && |items| == (if kind.value != "issue" && hasRemoveIssue then 4 else 3)
      && items[0] == EditIssue
      && items[|items| - 2..] == [DeleteIssue, CopyIssueLink]
    ensures MakeCopy !in items && OpenInNewTab !in items
    ensures forall c :: RemoveFrom(c) in items <==>
      |items| > 0 && kind == Some(c) && c != "issue" && hasRemoveIssue
  {
    if IsNotAllowed(auth, isCompleted) || !Truthy(kind) then []
    else
      [EditIssue]
      + (if kind.value != "issue" && hasRemoveIssue then [RemoveFrom(kind.value)] else [])
      + [DeleteIssue, CopyIssueLink]
  }
}
