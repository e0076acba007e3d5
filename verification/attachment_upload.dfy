/** The attachment dropzone of an issue: the guard on dropped files, the
    upload form, the loading flag around the request, the cache prepend on
    success, and the status line under the dropzone.

    The dropzone's split into accepted and rejected files is an input; the
    upload request is replaced by its outcome. */
module AttachmentUpload {
  import opened Wrappers
  import opened Js

  /** The dropzone's size limit: 5 MiB. */
  const MaxFileSize: nat := 5 * 1024 * 1024

  /** A file picked or dropped by the user. */
  datatype File = File(name: string, size: nat, mimeType: string)

  /** The `attributes` part of the upload form, `{ name, size }`. */
  datatype Attributes = Attributes(name: string, size: nat)

  /** The multipart form: the file under `asset`, its attributes under
      `attributes`. */
  datatype UploadForm = UploadForm(asset: File, attributes: Attributes)

  /** An attachment as the server returns it. */
  datatype Attachment = Attachment(id: string, asset: string, attributes: Attributes)

  /** The issue page's route query. */
  datatype Route = Route(workspaceSlug: Option<string>, projectId: Option<string>, issueId: Option<string>)

  /** The call `uploadIssueAttachment(workspaceSlug, projectId, issueId, form)`. */
  datatype UploadRequest = UploadRequest(
    workspaceSlug: string, projectId: Option<string>, issueId: Option<string>, form: UploadForm)

  /** How the upload request ended. */
  datatype UploadOutcome = Uploaded(res: Attachment) | UploadFailed

  /** The attachment cache: keyed by issue id (`ISSUE_ATTACHMENTS(issueId)`). */
  type AttachmentCache = map<Option<string>, seq<Attachment>>

  /** The component's state: the loading flag and the attachment cache. */
  datatype State = State(isLoading: bool, cache: AttachmentCache)

  /** The dropzone is disabled while uploading or when the parent disables it. */
  predicate DropzoneDisabled(s: State, disabled: bool) {
    s.isLoading || disabled
  }

  // ---------------------------------------------------------------------
  // onDrop
  // ---------------------------------------------------------------------

  /** The first half of `onDrop`: nothing happens without an accepted file
      or a workspace; otherwise the form carries the first accepted file and
      its name and size, and the loading flag goes up. */
  function StartUpload(s: State, accepted: seq<File>, route: Route): (r: Option<(State, UploadRequest)>)
    ensures r.None? <==> |accepted| == 0 || !Truthy(route.workspaceSlug)
    ensures r.Some? ==> r.value.0 == s.(isLoading := true)
    ensures r.Some? ==> var req := r.value.1;
      && req.workspaceSlug == route.workspaceSlug.value
      && req.projectId == route.projectId
      && req.issueId == route.issueId
      && req.form.asset == accepted[0]
      && req.form.attributes.name == accepted[0].name
      && req.form.attributes.size == accepted[0].size
  {
    if |accepted| == 0 || !Truthy(route.workspaceSlug) then None
    else
      var file := accepted[0];
      var form := UploadForm(file, Attributes(file.name, file.size));
      Some((s.(isLoading := true),
            UploadRequest(route.workspaceSlug.value, route.projectId, route.issueId, form)))
  }

  /** `[res, ...(prevData ?? [])]`. */
  function Prepend(res: Attachment, prev: Option<seq<Attachment>>): (l: seq<Attachment>)
    ensures |l| == |prev.GetOr([])| + 1
    ensures l[0] == res
    ensures l[1..] == prev.GetOr([])
  {
    [res] + prev.GetOr([])
  }

  /** The cached list of an issue, if any. */
  function Cached(c: AttachmentCache, issueId: Option<string>): Option<seq<Attachment>> {
    if issueId in c then Some(c[issueId]) else None
  }

  /** The second half of `onDrop`, when the request settles: on success the
      new attachment goes to the front of the issue's cached list; in both
      cases the loading flag comes down. */
  function FinishUpload(s: State, issueId: Option<string>, outcome: UploadOutcome): (s': State)
    ensures !s'.isLoading
    ensures outcome.UploadFailed? ==> s'.cache == s.cache
    ensures outcome.Uploaded? ==>
      && issueId in s'.cache
      && |s'.cache[issueId]| == |Cached(s.cache, issueId).GetOr([])| + 1
      && s'.cache[issueId][0] == outcome.res
      && s'.cache[issueId][1..] == Cached(s.cache, issueId).GetOr([])
    ensures forall i :: i != issueId ==> Cached(s'.cache, i) == Cached(s.cache, i)
  {
    match outcome
    case Uploaded(res) =>
      State(false, s.cache[issueId := Prepend(res, Cached(s.cache, issueId))])
    case UploadFailed =>
      s.(isLoading := false)
  }

  /** One drop, start to finish. */
  datatype Drop = Drop(during: State, request: Option<UploadRequest>, after: State)

  /** `onDrop(acceptedFiles)` with the request ending as `outcome`. */
  function OnDrop(s: State, accepted: seq<File>, route: Route, outcome: UploadOutcome): (d: Drop)
    ensures d.request.None? <==> |accepted| == 0 || !Truthy(route.workspaceSlug)
    ensures d.request.None? ==> d.during == s && d.after == s
    ensures d.request.Some? ==> d.during.isLoading && !d.after.isLoading
    ensures d.request.Some? ==> d.during.cache == s.cache
    ensures d.request.Some? ==> forall i :: i != route.issueId ==> Cached(d.after.cache, i) == Cached(s.cache, i)
    ensures d.request.Some? ==> d.request.value.form.asset == accepted[0]
    ensures d.request.Some? && outcome.Uploaded? ==>
      Cached(d.after.cache, route.issueId) == Some([outcome.res] + Cached(s.cache, route.issueId).GetOr([]))
    ensures d.request.Some? && outcome.UploadFailed? ==> d.after.cache == s.cache
  {
    match StartUpload(s, accepted, route)
    case None => Drop(s, None, s)
    case Some((during, req)) =>
      Drop(during, Some(req), FinishUpload(during, route.issueId, outcome))
  }

  /** While a request is in flight the dropzone accepts no further drop;
      once it settles the dropzone is enabled again unless the parent
      disabled it. */
  lemma DropzoneLockedDuringUpload(s: State, accepted: seq<File>, route: Route, outcome: UploadOutcome, disabled: bool)
    requires OnDrop(s, accepted, route, outcome).request.Some?
    ensures DropzoneDisabled(OnDrop(s, accepted, route, outcome).during, disabled)
    ensures DropzoneDisabled(OnDrop(s, accepted, route, outcome).after, disabled) == disabled
  {
  }

  /** A successful upload grows the issue's cached list by one and keeps
      the earlier attachments, in order, behind the new one. */
  lemma UploadKeepsEarlierAttachments(s: State, accepted: seq<File>, route: Route, res: Attachment)
    requires |accepted| > 0 && Truthy(route.workspaceSlug)
    ensures var after := OnDrop(s, accepted, route, Uploaded(res)).after;
      && Cached(after.cache, route.issueId).Some?
      && |Cached(after.cache, route.issueId).value| == |Cached(s.cache, route.issueId).GetOr([])| + 1
      && forall j :: 0 <= j < |Cached(s.cache, route.issueId).GetOr([])| ==>
           Cached(after.cache, route.issueId).value[j + 1] == Cached(s.cache, route.issueId).GetOr([])[j]
  {
  }

  // ---------------------------------------------------------------------
  // Status line
  // ---------------------------------------------------------------------

  /** The rejection message, when the dropzone rejected at least one file;
      the limit is shown in MiB, `maxFileSize / 1024 / 1024`. */
  function FileError(rejections: nat): (e: Option<string>)
    ensures e.Some? <==> rejections > 0
    ensures e.Some? ==> e.value == "Invalid file type or size (max 5 MB)"
  {
    if rejections > 0 then
      Some("Invalid file type or size (max " + NatToString(MaxFileSize / 1024 / 1024) + " MB)")
    else None
  }

  /** The text under the dropzone. */
  datatype StatusText = DropHere | Rejected(message: string) | Uploading | Prompt

  /** Drag-over beats a rejection message, which beats "Uploading...",
      which beats the idle prompt. */
  function Status(isDragActive: bool, rejections: nat, isLoading: bool): (t: StatusText)
    ensures isDragActive <==> t == DropHere
    ensures t.Rejected? <==> !isDragActive && rejections > 0
    ensures t.Rejected? ==> t.message == FileError(rejections).value
    ensures t == Uploading <==> !isDragActive && rejections == 0 && isLoading
    ensures t == Prompt <==> !isDragActive && rejections == 0 && !isLoading
  {
    if isDragActive then DropHere
    else match FileError(rejections)
      case Some(msg) => Rejected(msg)
      case None => if isLoading then Uploading else Prompt
  }
}
