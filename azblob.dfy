/** The azblob adapter: Init, Metadata, String, the marker-driven List loop
    and Stat. The blob service is an oracle: List is given the sequence of
    responses its successive requests receive, Stat the properties response. */
module Azblob {
  import opened Wrappers
  import opened Errors
  import opened StorageClasses
  import opened Metadata
  import opened Types
  import opened Paths
  import opened Listing

  /** azblob.Marker: Val is nil for the zero marker of the first request. */
  datatype Marker = Marker(val: Option<string>)

  /** Marker.NotDone: listing has not started, or the service returned a
      non-empty continuation. */
  predicate NotDone(m: Marker): (r: bool)
    ensures m.val.None? ==> r
    ensures m.val == Some("") ==> !r
    ensures m.val.Some? && m.val.value != "" ==> r
  {
    m.val.None? || m.val.value != ""
  }

  /** The fields of a listed blob that the adapter reads. */
  datatype BlobItem = BlobItem(
    name: string, contentLength: int, lastModified: Time,
    contentType: string, contentMD5: string, accessTier: string)

  /** One ListBlobsFlatSegment response. */
  datatype BlobPage = BlobPage(items: seq<BlobItem>, nextMarker: Marker)

  /** What each ListBlobsFlatSegment request carries. */
  datatype ListRequest = ListRequest(marker: Marker, prefix: string)

  /** The GetProperties response fields that Stat reads. */
  datatype BlobProperties = BlobProperties(contentLength: int, lastModified: Time, accessTier: string)

  /** What Stat does: GetProperties on the blob at `key`, and its outcome. */
  datatype StatCall = StatCall(key: string, result: Result<Object>)

  /** The parsed Init pairs: the work directory, when one was given. */
  datatype InitOptions = InitOptions(workDir: Option<string>)

  /** The Object built for one listed blob; it fails when the access tier is
      not a known storage class. The type is Dir, as the adapter writes it. */
  function BlobObject(workDir: string, v: BlobItem): (r: Result<Object>)
    ensures r.Err? <==> v.accessTier !in AzblobClasses
    ensures r.Err? ==> r.error == StorageClassNotSupported
    ensures r.Ok? ==> && r.value.id == v.name
                      && r.value.name == RelPath(workDir, v.name)
                      && r.value.otype == Dir
                      && r.value.size == v.contentLength
                      && r.value.updatedAt == v.lastModified
                      && r.value.meta.Keys == {ContentTypeKey, ContentMD5Key, StorageClassKey}
                      && HoldsText(r.value.meta, ContentTypeKey) && GetText(r.value.meta, ContentTypeKey) == Some(v.contentType)
                      && HoldsText(r.value.meta, ContentMD5Key) && GetText(r.value.meta, ContentMD5Key) == Some(v.contentMD5)
                      && HoldsClass(r.value.meta) && GetStorageClass(r.value.meta) == Some(AzblobClasses[v.accessTier])
  {
    var meta := Store(Store(map[], ContentTypeKey, Text(v.contentType)), ContentMD5Key, Text(v.contentMD5));
    match Normalize(AzblobClasses, v.accessTier)
    case Err(e) => Err(e)
    case Ok(c) =>
      Ok(Object(v.name, RelPath(workDir, v.name), Dir, v.contentLength, v.lastModified,
                Store(meta, StorageClassKey, Class(c))))
  }

  /** The converted blobs of one page, in backend order. */
  function PageObjects(workDir: string, items: seq<BlobItem>): (r: seq<Result<Object>>)
    ensures |r| == |items| && forall i :: 0 <= i < |items| ==> r[i] == BlobObject(workDir, items[i])
  {
    seq(|items|, i requires 0 <= i < |items| => BlobObject(workDir, items[i]))
  }

  /** A response as the traversal sees it: a failed request, or the page's
      converted blobs and whether its next marker is done. */
  function PageReply(workDir: string, resp: Result<BlobPage>): Reply<Object>
  {
    match resp
    case Err(e) => Failed(e)
    case Ok(p) =>
      Page(PageObjects(workDir, p.items), !NotDone(p.nextMarker))
  }

  /** The marker of the k-th request: the zero marker first, then the
      NextMarker of the page before. */
  function MarkerOf(responses: seq<Result<BlobPage>>, k: nat): Marker
    requires k <= |responses|
  {
    if k == 0 || responses[k - 1].Err? then Marker(None) else responses[k - 1].value.nextMarker
  }

  /** The first n requests of a listing under prefix rp. */
  function RequestsFor(responses: seq<Result<BlobPage>>, rp: string, n: nat): (qs: seq<ListRequest>)
    requires n <= |responses|
    ensures |qs| == n && forall k :: 0 <= k < n ==> qs[k] == ListRequest(MarkerOf(responses, k), rp)
  {
    seq(n, k requires 0 <= k < n => ListRequest(MarkerOf(responses, k), rp))
  }

  /** The responses of a listing, as the traversal sees them. */
  function Replies(workDir: string, responses: seq<Result<BlobPage>>): seq<Reply<Object>>
  {
    seq(|responses|, i requires 0 <= i < |responses| => PageReply(workDir, responses[i]))
  }

  /** After i requests under rp, `marker` is the one the next request
      carries and every page so far was answered. */
  ghost predicate Requested(responses: seq<Result<BlobPage>>, rp: string, i: nat, requests: seq<ListRequest>, marker: Marker)
  {
    && i < |responses|
    && requests == RequestsFor(responses, rp, i)
    && (forall k :: 0 <= k < i ==> responses[k].Ok?)
    && marker == MarkerOf(responses, i)
  }

  /** A page that does not end the listing: the next request carries its NextMarker. */
  lemma RequestedStep(responses: seq<Result<BlobPage>>, rp: string, i: nat, requests: seq<ListRequest>, marker: Marker)
    requires Requested(responses, rp, i, requests, marker) && responses[i].Ok? && i + 1 < |responses|
    ensures Requested(responses, rp, i + 1, requests + [ListRequest(marker, rp)], responses[i].value.nextMarker)
  {
    assert RequestsFor(responses, rp, i + 1) == RequestsFor(responses, rp, i) + [ListRequest(MarkerOf(responses, i), rp)];
  }

  /** The request that ends a listing. */
  lemma RequestedLast(responses: seq<Result<BlobPage>>, rp: string, i: nat, requests: seq<ListRequest>, marker: Marker)
    requires Requested(responses, rp, i, requests, marker)
    ensures var rs := requests + [ListRequest(marker, rp)];
            && rs == RequestsFor(responses, rp, |rs|)
            && forall k :: 0 <= k < |rs| - 1 ==> responses[k].Ok?
  {
    assert RequestsFor(responses, rp, i + 1) == RequestsFor(responses, rp, i) + [ListRequest(MarkerOf(responses, i), rp)];
  }

  class Storage {
    var name: string
    var workDir: string

    /** newStorage: a client for the named container, with an empty work directory. */
    constructor (name: string)
      ensures this.name == name && workDir == ""
    {
      this.name := name;
      workDir := "";
    }

    /** String: the service, the name and the work directory rooted by '/'. */
    function String(): (s: string)
      reads this
      ensures |s| >= 15 + |workDir| + 2 && s[..15] == "Storager azblob"
      ensures |s| >= 23 + |name| && s[15..23 + |name|] == " {Name: " + name
      ensures s[|s| - |workDir| - 2..] == Rooted(workDir) + "}"
    {
      Describe("azblob", name, workDir)
    }

    /** Init: a parse error is returned; a WorkDir option sets the work
        directory with every leading '/' removed; otherwise nothing changes. */
    method Init(opt: Result<InitOptions>) returns (err: Option<Error>)
      modifies this`workDir
      ensures opt.Err? ==> err == Some(opt.error) && workDir == old(workDir)
      ensures opt.Ok? && opt.value.workDir.Some? ==>
                err.None? && workDir == TrimLeftSlashes(opt.value.workDir.value)
      ensures opt.Ok? && opt.value.workDir.None? ==> err.None? && workDir == old(workDir)
    {
      if opt.Err? {
        return Some(opt.error);
      }
      if opt.value.workDir.Some? {
        workDir := TrimLeftSlashes(opt.value.workDir.value);
      }
      return None;
    }

    /** Metadata: never fails; a fresh StorageMeta with the client's name and
        work directory and no attributes. */
    method Metadata() returns (m: StorageMeta, err: Option<Error>)
      ensures err.None?
      ensures fresh(m.bag) && m.bag.m == map[]
      ensures m.name == name && m.workDir == workDir
    {
      m := NewStorageMeta();
      m := m.(name := name, workDir := workDir);
      err := None;
    }

    /** List: the first request carries the zero marker, each later one the
        previous page's NextMarker, all under the absolute path; blobs reach
        the callback (`delivered`) in backend order; a request error or an
        unknown access tier ends the call with that error. `responses[i]` is
        the answer to the i-th request; the last one ends the listing. */
    method List(path: string, responses: seq<Result<BlobPage>>)
      returns (delivered: seq<Object>, requests: seq<ListRequest>, err: Option<Error>)
      requires |responses| > 0 && Stops(PageReply(workDir, responses[|responses| - 1]))
      ensures var o := Traverse(Replies(workDir, responses));
              delivered == o.delivered && err == o.err && |requests| == o.requests
      ensures requests == RequestsFor(responses, AbsPath(workDir, path), |requests|)
      ensures forall k :: 0 <= k < |requests| - 1 ==> responses[k].Ok?
    {
      var wd := workDir;
      var rp := AbsPath(wd, path);
      ghost var replies := Replies(wd, responses);
      ProgressStart(replies);
      var marker := Marker(None);
      delivered, requests, err := [], [], None;
      var i := 0;
      while true
        invariant Requested(responses, rp, i, requests, marker)
        invariant Progress(replies, i, delivered)
        decreases |responses| - i
      {
        var request := ListRequest(marker, rp);
        RequestedLast(responses, rp, i, requests, marker);
        assert replies[i] == PageReply(wd, responses[i]);
        if responses[i].Err? {
          StepFailed(replies, i, delivered);
          requests, err := requests + [request], Some(responses[i].error);
          return;
        }
        var page := responses[i].value;
        var objs, e := ListPage(replies, i, delivered, page);
        if e.Some? {
          requests, delivered, err := requests + [request], delivered + objs, e;
          return;
        }
        if !NotDone(page.nextMarker) {
          requests, delivered := requests + [request], delivered + objs;
          return;
        }
        RequestedStep(responses, rp, i, requests, marker);
        requests, delivered, marker := requests + [request], delivered + objs, page.nextMarker;
        i := i + 1;
      }
    }

    /** One page of List: its blobs are delivered and the traversal ends
        there or goes on with the next request. */
    method ListPage(ghost replies: seq<Reply<Object>>, i: nat, ghost delivered: seq<Object>, page: BlobPage)
      returns (objs: seq<Object>, e: Option<Error>)
      requires i < |replies| && Progress(replies, i, delivered)
      requires replies[i] == PageReply(workDir, Ok(page))
      ensures e.Some? || !NotDone(page.nextMarker) ==> Traverse(replies) == Outcome(delivered + objs, e, i + 1)
      ensures e.None? && NotDone(page.nextMarker) && i + 1 < |replies| ==> Progress(replies, i + 1, delivered + objs)
    {
      objs, e := DeliverBlobs(page.items);
      StepPage(replies, i, delivered, objs, e);
    }

    /** The loop over one page's blobs: each is converted and handed to the
        callback in order, until one fails to convert. */
    method DeliverBlobs(items: seq<BlobItem>) returns (delivered: seq<Object>, err: Option<Error>)
      ensures (delivered, err) == DeliverPage(PageObjects(workDir, items))
    {
      ghost var converted := PageObjects(workDir, items);
      DeliverStart(converted);
      delivered, err := [], None;
      var j := 0;
      while j < |items|
        invariant Delivered(converted, j, delivered)
      {
        var o := BlobObject(workDir, items[j]);
        DeliverNext(converted, j, delivered);
        if o.Err? {
          err := Some(o.error);
          return;
        }
        delivered := delivered + [o.value];
        j := j + 1;
      }
      DeliverDone(converted, delivered);
    }

    /** Stat: GetProperties on the blob at the path's absolute key; the Object
        is addressed by that key and named by the path as given; no Object when the request fails or the access tier
        is not a known storage class. */
    function Stat(path: string, props: Result<BlobProperties>): (c: StatCall)
      reads this
      ensures c.key == AbsPath(workDir, path)
      ensures props.Err? ==> c.result == Err(props.error)
      ensures props.Ok? && props.value.accessTier !in AzblobClasses ==>
                c.result == Err(StorageClassNotSupported)
      ensures c.result.Ok? <==> props.Ok? && props.value.accessTier in AzblobClasses
      ensures c.result.Ok? ==> && props.Ok? && props.value.accessTier in AzblobClasses
                               && c.result.value.id == AbsPath(workDir, path)
                               && c.result.value.name == path
                               && c.result.value.otype == File
                               && c.result.value.size == props.value.contentLength
                               && c.result.value.updatedAt == props.value.lastModified
                               && c.result.value.meta.Keys == {StorageClassKey}
                               && HoldsClass(c.result.value.meta) && GetStorageClass(c.result.value.meta) == Some(AzblobClasses[props.value.accessTier])
    {
      StatCall(AbsPath(workDir, path),
        match props
        case Err(e) => Err(e)
        case Ok(p) =>
          match Normalize(AzblobClasses, p.accessTier)
          case Err(e) => Err(e)
          case Ok(cls) =>
            Ok(Object(AbsPath(workDir, path), path, File, p.contentLength, p.lastModified,
                      Store(map[], StorageClassKey, Class(cls)))))
    }

    /** Stat's Object and the listed blob of the same key agree on the key:
        the name maps back to the ID through the work directory. */
    lemma StatNameMapsToId(path: string, props: Result<BlobProperties>)
      requires Stat(path, props).result.Ok?
      ensures var o := Stat(path, props).result.value;
              AbsPath(workDir, o.name) == o.id && RelPath(workDir, o.id) == o.name
    {
      RelOfAbs(workDir, path);
    }
  }
}
