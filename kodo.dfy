/** The kodo adapter: newStorage's domain choice, Init, Metadata, String, the
    marker-driven List loop and Stat. The bucket manager is an oracle: List is
    given the responses its successive ListFiles calls receive, Stat the Stat
    response, newStorage the ListBucketDomains response. */
module Kodo {
  import opened Wrappers
  import opened Errors
  import opened StorageClasses
  import opened Metadata
  import opened Types
  import opened Paths
  import opened Listing

  /** The page size of every ListFiles request. */
  const ListLimit: int := 1000

  /** The fields of a listed entry that the adapter reads. */
  datatype ListItem = ListItem(
    key: string, fsize: int, putTime: int, mimeType: string, hash: string, fileType: int)

  /** One ListFiles response: the entries and the next marker ("" when done). */
  datatype FilesPage = FilesPage(entries: seq<ListItem>, nextMarker: string)

  /** What each ListFiles request carries. */
  datatype ListRequest = ListRequest(bucket: string, prefix: string, delimiter: string, marker: string, limit: int)

  /** The Stat response fields that Stat reads. */
  datatype FileInfo = FileInfo(fsize: int, hash: string, putTime: int, fileType: int)

  /** What Stat does: the Stat request for `key` in `bucket`, and its outcome. */
  datatype StatCall = StatCall(bucket: string, key: string, result: Result<Object>)

  /** The parsed Init pairs: the work directory, when one was given. */
  datatype InitOptions = InitOptions(workDir: Option<string>)

  /** convertUnixTimestampToTime: the backend's put time as a timestamp, kept
      in kodo's own unit (100-nanosecond intervals); a reported put time is
      never read as the zero time. */
  function PutTime(t: int): (r: Time)
    ensures r != ZeroTime
  {
    Instant(t)
  }

  /** newStorage's choice: the first domain the bucket lists; an error when
      listing fails or the list is empty. */
  function SelectDomain(domains: Result<seq<string>>): (r: Result<string>)
    ensures domains.Err? ==> r == Err(domains.error)
    ensures domains.Ok? && |domains.value| == 0 ==> r == Err(NoAvailableDomains)
    ensures r.Ok? <==> domains.Ok? && |domains.value| > 0
    ensures r.Ok? ==> r.value == domains.value[0]
  {
    match domains
    case Err(e) => Err(e)
    case Ok(ds) => if |ds| == 0 then Err(NoAvailableDomains) else Ok(ds[0])
  }

  /** The Object built for one listed entry; it fails when the file type is not
      a known storage class. The ID is left empty and the type is Dir, as the
      adapter writes them. */
  function EntryObject(workDir: string, v: ListItem): (r: Result<Object>)
    ensures r.Err? <==> v.fileType !in KodoClasses
    ensures r.Err? ==> r.error == StorageClassNotSupported
    ensures r.Ok? ==> && r.value.id == ""
                      && r.value.name == RelPath(workDir, v.key)
                      && r.value.otype == Dir
                      && r.value.size == v.fsize
                      && r.value.updatedAt == PutTime(v.putTime)
                      && r.value.meta.Keys == {ContentTypeKey, ETagKey, StorageClassKey}
                      && HoldsText(r.value.meta, ContentTypeKey) && GetText(r.value.meta, ContentTypeKey) == Some(v.mimeType)
                      && HoldsText(r.value.meta, ETagKey) && GetText(r.value.meta, ETagKey) == Some(v.hash)
                      && HoldsClass(r.value.meta) && GetStorageClass(r.value.meta) == Some(KodoClasses[v.fileType])
  {
    var meta := Store(Store(map[], ContentTypeKey, Text(v.mimeType)), ETagKey, Text(v.hash));
    match Normalize(KodoClasses, v.fileType)
    case Err(e) => Err(e)
    case Ok(c) =>
      Ok(Object("", RelPath(workDir, v.key), Dir, v.fsize, PutTime(v.putTime),
                Store(meta, StorageClassKey, Class(c))))
  }

  /** The converted entries of one page, in backend order. */
  function PageObjects(workDir: string, entries: seq<ListItem>): (r: seq<Result<Object>>)
    ensures |r| == |entries| && forall i :: 0 <= i < |entries| ==> r[i] == EntryObject(workDir, entries[i])
  {
    seq(|entries|, i requires 0 <= i < |entries| => EntryObject(workDir, entries[i]))
  }

  /** A response as the traversal sees it: the page ends the listing when its
      next marker is empty. */
  function PageReply(workDir: string, resp: Result<FilesPage>): Reply<Object>
  {
    match resp
    case Err(e) => Failed(e)
    case Ok(p) => Page(PageObjects(workDir, p.entries), p.nextMarker == "")
  }

  /** The responses of a listing, as the traversal sees them. */
  function Replies(workDir: string, responses: seq<Result<FilesPage>>): seq<Reply<Object>>
  {
    seq(|responses|, i requires 0 <= i < |responses| => PageReply(workDir, responses[i]))
  }

  /** The marker of the k-th request: "" first, then the previous page's nextMarker. */
  function MarkerOf(responses: seq<Result<FilesPage>>, k: nat): string
    requires k <= |responses|
  {
    if k == 0 || responses[k - 1].Err? then "" else responses[k - 1].value.nextMarker
  }

  /** The first n ListFiles requests of a listing of bucket under prefix rp. */
  function RequestsFor(responses: seq<Result<FilesPage>>, bucket: string, rp: string, n: nat): (qs: seq<ListRequest>)
    requires n <= |responses|
    ensures |qs| == n
    ensures forall k :: 0 <= k < n ==> qs[k] == ListRequest(bucket, rp, "", MarkerOf(responses, k), ListLimit)
  {
    seq(n, k requires 0 <= k < n => ListRequest(bucket, rp, "", MarkerOf(responses, k), ListLimit))
  }

  /** After i requests for bucket under rp, `marker` is the one the next
      request carries and every page so far was answered. */
  ghost predicate Requested(responses: seq<Result<FilesPage>>, bucket: string, rp: string, i: nat,
                            requests: seq<ListRequest>, marker: string)
  {
    && i < |responses|
    && requests == RequestsFor(responses, bucket, rp, i)
    && (forall k :: 0 <= k < i ==> responses[k].Ok?)
    && marker == MarkerOf(responses, i)
  }

  /** A page that does not end the listing: the next request carries its nextMarker. */
  lemma RequestedStep(responses: seq<Result<FilesPage>>, bucket: string, rp: string, i: nat,
                      requests: seq<ListRequest>, marker: string)
    requires Requested(responses, bucket, rp, i, requests, marker) && responses[i].Ok? && i + 1 < |responses|
    ensures Requested(responses, bucket, rp, i + 1, requests + [ListRequest(bucket, rp, "", marker, ListLimit)],
                      responses[i].value.nextMarker)
  {
    assert RequestsFor(responses, bucket, rp, i + 1) ==
           RequestsFor(responses, bucket, rp, i) + [ListRequest(bucket, rp, "", MarkerOf(responses, i), ListLimit)];
  }

  /** The request that ends a listing. */
  lemma RequestedLast(responses: seq<Result<FilesPage>>, bucket: string, rp: string, i: nat,
                      requests: seq<ListRequest>, marker: string)
    requires Requested(responses, bucket, rp, i, requests, marker)
    ensures var rs := requests + [ListRequest(bucket, rp, "", marker, ListLimit)];
            && rs == RequestsFor(responses, bucket, rp, |rs|)
            && forall k :: 0 <= k < |rs| - 1 ==> responses[k].Ok?
  {
    assert RequestsFor(responses, bucket, rp, i + 1) ==
           RequestsFor(responses, bucket, rp, i) + [ListRequest(bucket, rp, "", MarkerOf(responses, i), ListLimit)];
  }

  class Storage {
    var domain: string
    var putPolicyScope: string
    var name: string
    var workDir: string

    /** The client newStorage builds once a domain is chosen. */
    constructor (name: string, domain: string)
      ensures this.name == name && this.domain == domain
      ensures putPolicyScope == name && workDir == ""
    {
      this.domain := domain;
      putPolicyScope := name;
      this.name := name;
      workDir := "";
    }

    /** String: the service, the name and the work directory rooted by '/'. */
    function String(): (s: string)
      reads this
      ensures |s| >= 13 + |workDir| + 2 && s[..13] == "Storager kodo"
      ensures |s| >= 21 + |name| && s[13..21 + |name|] == " {Name: " + name
      ensures s[|s| - |workDir| - 2..] == Rooted(workDir) + "}"
    {
      Describe("kodo", name, workDir)
    }

    /** Init: a parse error is returned; a WorkDir option sets the work
        directory with every leading '/' removed; otherwise nothing changes. */
    method Init(opt: Result<InitOptions>) returns (err: Option<Error>)
      modifies this`workDir
      ensures opt.Err? ==> err == Some(opt.error) && workDir == old(workDir)
      ensures opt.Ok? && opt.value.workDir.Some? ==>
                err.None? && workDir == TrimLeftSlashes(opt.value.workDir.value)
      ensures opt.Ok? && opt.value.workDir.None? ==> err.None? && workDir == old(workDir)
    {
      if opt.Err? {
        return Some(opt.error);
      }
      if opt.value.workDir.Some? {
        workDir := TrimLeftSlashes(opt.value.workDir.value);
      }
      return None;
    }

    /** Metadata: never fails; a fresh StorageMeta with the client's name and
        work directory and no attributes. */
    method Metadata() returns (m: StorageMeta, err: Option<Error>)
      ensures err.None?
      ensures fresh(m.bag) && m.bag.m == map[]
      ensures m.name == name && m.workDir == workDir
    {
      m := NewStorageMeta();
      m := m.(name := name, workDir := workDir);
      err := None;
    }

    /** List: requests of 1000 entries under the absolute path, the first with
        marker "", each later one with the previous page's nextMarker; entries
        reach the callback (`delivered`) in backend order; a request error or an
        unknown file type ends the call with that error; an empty nextMarker
        ends it with nil. `responses[i]` answers the i-th request; the last one
        ends the listing. */
    method List(path: string, responses: seq<Result<FilesPage>>)
      returns (delivered: seq<Object>, requests: seq<ListRequest>, err: Option<Error>)
      requires |responses| > 0 && Stops(PageReply(workDir, responses[|responses| - 1]))
      ensures var o := Traverse(Replies(workDir, responses));
              delivered == o.delivered && err == o.err && |requests| == o.requests
      ensures requests == RequestsFor(responses, name, AbsPath(workDir, path), |requests|)
      ensures forall k :: 0 <= k < |requests| - 1 ==> responses[k].Ok?
    {
      var wd, bucket := workDir, name;
      var marker := "";
      var rp := AbsPath(wd, path);
      ghost var replies := Replies(wd, responses);
      ProgressStart(replies);
      delivered, requests, err := [], [], None;
      var i := 0;
      while true
        invariant Requested(responses, bucket, rp, i, requests, marker)
        invariant Progress(replies, i, delivered)
        decreases |responses| - i
      {
        var request := ListRequest(bucket, rp, "", marker, ListLimit);
        RequestedLast(responses, bucket, rp, i, requests, marker);
        assert replies[i] == PageReply(wd, responses[i]);
        if responses[i].Err? {
          StepFailed(replies, i, delivered);
          requests, err := requests + [request], Some(responses[i].error);
          return;
        }
        var page := responses[i].value;
        var objs, e := ListPage(replies, i, delivered, page);
        if e.Some? {
          requests, delivered, err := requests + [request], delivered + objs, e;
          return;
        }
        if page.nextMarker == "" {
          requests, delivered := requests + [request], delivered + objs;
          return;
        }
        RequestedStep(responses, bucket, rp, i, requests, marker);
        requests, delivered, marker := requests + [request], delivered + objs, page.nextMarker;
        i := i + 1;
      }
    }

    /** One page of List: its entries are delivered and the traversal ends
        there or goes on with the next request. */
    method ListPage(ghost replies: seq<Reply<Object>>, i: nat, ghost delivered: seq<Object>, page: FilesPage)
      returns (objs: seq<Object>, e: Option<Error>)
      requires i < |replies| && Progress(replies, i, delivered)
      requires replies[i] == PageReply(workDir, Ok(page))
      ensures e.Some? || page.nextMarker == "" ==> Traverse(replies) == Outcome(delivered + objs, e, i + 1)
      ensures e.None? && page.nextMarker != "" && i + 1 < |replies| ==> Progress(replies, i + 1, delivered + objs)
    {
      objs, e := DeliverEntries(page.entries);
      StepPage(replies, i, delivered, objs, e);
    }

    /** The loop over one page's entries: each is converted and handed to the
        callback in order, until one fails to convert. */
    method DeliverEntries(entries: seq<ListItem>) returns (delivered: seq<Object>, err: Option<Error>)
      ensures (delivered, err) == DeliverPage(PageObjects(workDir, entries))
    {
      ghost var converted := PageObjects(workDir, entries);
      DeliverStart(converted);
      delivered, err := [], None;
      var j := 0;
      while j < |entries|
        invariant Delivered(converted, j, delivered)
      {
        var o := EntryObject(workDir, entries[j]);
        DeliverNext(converted, j, delivered);
        if o.Err? {
          err := Some(o.error);
          return;
        }
        delivered := delivered + [o.value];
        j := j + 1;
      }
      DeliverDone(converted, delivered);
    }

    /** Stat: a Stat request for the path's absolute key in the bucket; the
        Object is addressed by that key, named by the path as given, with the
        ETag; no Object when the request fails or
        the file type is not a known storage class. */
    function Stat(path: string, info: Result<FileInfo>): (c: StatCall)
      reads this
      ensures c.bucket == name && c.key == AbsPath(workDir, path)
      ensures info.Err? ==> c.result == Err(info.error)
      ensures info.Ok? && info.value.fileType !in KodoClasses ==> c.result == Err(StorageClassNotSupported)
      ensures c.result.Ok? <==> info.Ok? && info.value.fileType in KodoClasses
      ensures c.result.Ok? ==> && info.Ok? && info.value.fileType in KodoClasses
                               && c.result.value.id == AbsPath(workDir, path)
                               && c.result.value.name == path
                               && c.result.value.otype == File
                               && c.result.value.size == info.value.fsize
                               && c.result.value.updatedAt == PutTime(info.value.putTime)
                               && c.result.value.meta.Keys == {ETagKey, StorageClassKey}
                               && HoldsText(c.result.value.meta, ETagKey) && GetText(c.result.value.meta, ETagKey) == Some(info.value.hash)
                               && HoldsClass(c.result.value.meta) && GetStorageClass(c.result.value.meta) == Some(KodoClasses[info.value.fileType])
    {
      StatCall(name, AbsPath(workDir, path),
        match info
        case Err(e) => Err(e)
        case Ok(fi) =>
          var meta := Store(map[], ETagKey, Text(fi.hash));
          match Normalize(KodoClasses, fi.fileType)
          case Err(e) => Err(e)
          case Ok(cls) =>
            Ok(Object(AbsPath(workDir, path), path, File, fi.fsize, PutTime(fi.putTime),
                      Store(meta, StorageClassKey, Class(cls)))))
    }
  }

  /** newStorage: the bucket's first domain, a put policy scoped to the bucket
      name; fails with "no available domains" when the bucket lists none. */
  method NewStorage(name: string, domains: Result<seq<string>>) returns (s: Storage?, err: Option<Error>)
    ensures SelectDomain(domains).Err? ==> s == null && err == Some(SelectDomain(domains).error)
    ensures SelectDomain(domains).Ok? ==>
              && err.None? && s != null && fresh(s)
              && s.name == name && s.domain == SelectDomain(domains).value
              && s.putPolicyScope == name && s.workDir == ""
  {
    match SelectDomain(domains)
    case Err(e) =>
      s, err := null, Some(e);
    case Ok(d) =>
      s := new Storage(name, d);
      err := None;
  }
}
