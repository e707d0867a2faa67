/** The qingstor adapter: the in-memory table of multipart uploads
    ("segments") with InitSegment, WriteSegment, CompleteSegment and
    AbortSegment; ListSegments; List with directory prefixes and keys; Stat;
    Metadata and String. The bucket is an oracle: each operation is given the
    replies its backend calls receive and returns the calls it issues. */
module Qingstor {
  import opened Wrappers
  import opened Errors
  import opened StorageClasses
  import opened Metadata
  import opened Types
  import opened Paths
  import opened Listing
  import opened Segments

  /** The page size of every ListObjects and ListMultipartUploads request. */
  const ListLimit: int := 200

  /** The content type that marks a key as a directory. */
  const DirectoryContentType: string := "application/x-directory"

  // ---- The segment table.

  /** Tracked uploads, keyed by upload ID. */
  type Table = map<string, Segment>

  /** Every tracked segment keeps each part under its own offset. */
  predicate TableValid(t: Table)
  {
    forall id :: id in t ==> WellKeyed(t[id].parts)
  }

  /** The multipart calls the segment operations issue to the bucket. */
  datatype Call =
    | InitiateMultipartUpload(key: string)
    | UploadMultipart(key: string, uploadId: string, offset: int, size: int)
    | CompleteMultipartUpload(key: string, uploadId: string, parts: seq<Part>)
    | AbortMultipartUpload(key: string, uploadId: string)

  /** What one segment operation does: the new table, the backend call it
      issued (None when it failed before calling), and what it returns. */
  datatype Effect<R> = Effect(table: Table, call: Option<Call>, out: R)

  /** Adding or replacing a well-keyed entry keeps the table valid. */
  lemma PutValid(t: Table, id: string, s: Segment)
    ensures TableValid(t) && WellKeyed(s.parts) ==> TableValid(t[id := s])
  {
  }

  /** Dropping a tracked entry keeps the table valid and shrinks it by one. */
  lemma DropValid(t: Table, id: string)
    requires id in t
    ensures (t - {id}).Keys == t.Keys - {id} && |t - {id}| == |t| - 1
    ensures TableValid(t) ==> TableValid(t - {id})
  {
    assert (t - {id}).Keys == t.Keys - {id};
  }

  /** InitSegment at absolute key `key`: one initiate call; on success the
      backend's upload ID is returned and tracked with no parts; an entry
      already tracked under that ID is kept as it is. */
  function InitStep(t: Table, key: string, partSize: int, reply: Result<string>): (e: Effect<Result<string>>)
    ensures e.call == Some(InitiateMultipartUpload(key))
    ensures e.out == reply
    ensures reply.Err? || reply.value in t ==> e.table == t
    ensures reply.Ok? && reply.value !in t ==> e.table == t[reply.value := NewSegment(key, reply.value, partSize)]
    ensures reply.Ok? ==> e.table.Keys == t.Keys + {reply.value}
    ensures TableValid(t) ==> TableValid(e.table)
  {
    var call := Some(InitiateMultipartUpload(key));
    match reply
    case Err(_) => Effect(t, call, reply)
    case Ok(id) =>
      if id in t then Effect(t, call, reply)
      else
        PutValid(t, id, NewSegment(key, id, partSize));
        Effect(t[id := NewSegment(key, id, partSize)], call, reply)
  }

  /** WriteSegment: an unknown ID fails with SegmentNotInitiated and calls
      nothing; otherwise the part is uploaded to the segment's key and upload
      ID and, when the upload succeeds, recorded at its offset. */
  function WriteStep(t: Table, id: string, offset: int, size: int, reply: Option<Error>): (e: Effect<Option<Error>>)
    ensures id !in t ==> e == Effect(t, None, Some(SegmentNotInitiated))
    ensures id in t ==> && e.call == Some(UploadMultipart(t[id].path, t[id].id, offset, size))
                        && e.out == reply
    ensures id in t && reply.Some? ==> e.table == t
    ensures id in t && reply.None? ==> && e.table == t[id := InsertPart(t[id], offset, size)]
                                       && e.table.Keys == t.Keys
    ensures TableValid(t) ==> TableValid(e.table)
  {
    if id !in t then Effect(t, None, Some(SegmentNotInitiated))
    else
      var s := t[id];
      var call := Some(UploadMultipart(s.path, s.id, offset, size));
      if reply.Some? then Effect(t, call, reply)
      else
        PutValid(t, id, InsertPart(s, offset, size));
        Effect(t[id := InsertPart(s, offset, size)], call, None)
  }

  /** CompleteSegment: an unknown ID fails with SegmentNotInitiated, a segment
      with no parts with SegmentPartsEmpty, neither calling the backend;
      otherwise the parts go to the backend in ascending offset order, and the
      segment is dropped when completion succeeds and kept when it fails. */
  function CompleteStep(t: Table, id: string, reply: Option<Error>): (e: Effect<Option<Error>>)
    requires TableValid(t)
    ensures id !in t ==> e == Effect(t, None, Some(SegmentNotInitiated))
    ensures id in t && |t[id].parts| == 0 ==> e == Effect(t, None, Some(SegmentPartsEmpty))
    ensures id in t && |t[id].parts| > 0 ==>
              && e.call.Some? && e.call.value.CompleteMultipartUpload?
              && e.call.value.key == t[id].path && e.call.value.uploadId == t[id].id
              && Ascending(e.call.value.parts) && Enumerates(e.call.value.parts, t[id].parts)
              && e.out == reply
    ensures id in t && |t[id].parts| > 0 && reply.None? ==>
              e.table == t - {id} && |e.table| == |t| - 1
    ensures id in t && |t[id].parts| > 0 && reply.Some? ==> e.table == t
    ensures TableValid(e.table)
  {
    if id !in t then Effect(t, None, Some(SegmentNotInitiated))
    else
      var s := t[id];
      if |s.parts| == 0 then Effect(t, None, Some(SegmentPartsEmpty))
      else
        var call := Some(CompleteMultipartUpload(s.path, s.id, SortedParts(s.parts)));
        if reply.Some? then Effect(t, call, reply)
        else
          DropValid(t, id);
          Effect(t - {id}, call, None)
  }

  /** AbortSegment: an unknown ID fails with SegmentNotInitiated and calls
      nothing; otherwise the abort is sent with the segment's key and upload
      ID and the segment is dropped whatever the backend answers. */
  function AbortStep(t: Table, id: string, reply: Option<Error>): (e: Effect<Option<Error>>)
    ensures id !in t ==> e == Effect(t, None, Some(SegmentNotInitiated))
    ensures id in t ==> && e.call == Some(AbortMultipartUpload(t[id].path, t[id].id))
                        && e.out == reply
                        && e.table == t - {id} && |e.table| == |t| - 1
    ensures TableValid(t) ==> TableValid(e.table)
  {
    if id !in t then Effect(t, None, Some(SegmentNotInitiated))
    else
      DropValid(t, id);
      Effect(t - {id}, Some(AbortMultipartUpload(t[id].path, t[id].id)), reply)
  }

  /** Parts written one after another, every upload succeeding. */
  function WriteAll(t: Table, id: string, writes: seq<Part>): (r: Table)
    decreases |writes|
  {
    if writes == [] then t
    else WriteAll(WriteStep(t, id, writes[0].offset, writes[0].size, None).table, id, writes[1..])
  }

  /** The part map after a run of writes: at each offset, the last part written there. */
  function Recorded(parts: map<int, Part>, writes: seq<Part>): (r: map<int, Part>)
    ensures WellKeyed(parts) ==> WellKeyed(r)
    decreases |writes|
  {
    if writes == [] then parts
    else Recorded(parts[writes[0].offset := Part(writes[0].offset, writes[0].size)], writes[1..])
  }

  /** The offsets a run of writes names. */
  function Offsets(writes: seq<Part>): (r: set<int>)
    ensures forall i :: 0 <= i < |writes| ==> writes[i].offset in r
    decreases |writes|
  {
    if writes == [] then {} else {writes[0].offset} + Offsets(writes[1..])
  }

  /** A run of writes records the offsets already there and every offset written. */
  lemma {:induction false} RecordedKeys(parts: map<int, Part>, writes: seq<Part>)
    ensures Recorded(parts, writes).Keys == parts.Keys + Offsets(writes)
    decreases |writes|
  {
    if writes != [] {
      var w := writes[0];
      RecordedKeys(parts[w.offset := Part(w.offset, w.size)], writes[1..]);
    }
  }

  /** At an offset, the part recorded is the last one written there. */
  lemma {:induction false} RecordedLast(parts: map<int, Part>, writes: seq<Part>, i: nat)
    requires i < |writes|
    requires forall j :: i < j < |writes| ==> writes[j].offset != writes[i].offset
    ensures writes[i].offset in Recorded(parts, writes)
    ensures Recorded(parts, writes)[writes[i].offset] == writes[i]
    decreases |writes|
  {
    var w := writes[0];
    var p1 := parts[w.offset := Part(w.offset, w.size)];
    if i == 0 {
      forall j | 0 <= j < |writes[1..]|
        ensures writes[1..][j].offset != w.offset
      {
        assert writes[1..][j] == writes[j + 1];
      }
      RecordedUntouched(p1, writes[1..], w.offset);
    } else {
      forall j | i - 1 < j < |writes[1..]|
        ensures writes[1..][j].offset != writes[1..][i - 1].offset
      {
        assert writes[1..][j] == writes[j + 1];
      }
      RecordedLast(p1, writes[1..], i - 1);
    }
  }

  /** An offset no later write names keeps its part. */
  lemma {:induction false} RecordedUntouched(parts: map<int, Part>, writes: seq<Part>, k: int)
    requires k in parts
    requires forall j :: 0 <= j < |writes| ==> writes[j].offset != k
    ensures k in Recorded(parts, writes) && Recorded(parts, writes)[k] == parts[k]
    decreases |writes|
  {
    if writes != [] {
      var w := writes[0];
      RecordedUntouched(parts[w.offset := Part(w.offset, w.size)], writes[1..], k);
    }
  }

  /** Later writes never remove an offset. */
  lemma {:induction false} RecordedKeeps(parts: map<int, Part>, writes: seq<Part>)
    ensures parts.Keys <= Recorded(parts, writes).Keys
    decreases |writes|
  {
    if writes != [] {
      var w := writes[0];
      RecordedKeeps(parts[w.offset := Part(w.offset, w.size)], writes[1..]);
    }
  }

  /** A second update of the same entry replaces the first. */
  lemma Overwrite(t: Table, id: string, a: Segment, b: Segment)
    ensures t[id := a][id := b] == t[id := b]
  {
  }

  /** Writing to a tracked segment changes only that segment: it keeps its key
      and upload ID and its parts become the recorded ones; every other entry
      is untouched. */
  lemma {:induction false} WriteAllTouchesOnly(t: Table, id: string, writes: seq<Part>)
    requires id in t
    ensures WriteAll(t, id, writes) == t[id := t[id].(parts := Recorded(t[id].parts, writes))]
    decreases |writes|
  {
    if writes != [] {
      var w := writes[0];
      var s1 := InsertPart(t[id], w.offset, w.size);
      var t1 := WriteStep(t, id, w.offset, w.size, None).table;
      assert t1 == t[id := s1];
      WriteAllTouchesOnly(t1, id, writes[1..]);
      Overwrite(t, id, s1, s1.(parts := Recorded(s1.parts, writes[1..])));
    }
  }

  /** Completing a segment added to a table under a fresh ID gives back
      that table, and the ID is then unknown. */
  lemma CompleteFresh(t: Table, id: string, s: Segment)
    requires TableValid(t) && id !in t && WellKeyed(s.parts) && |s.parts| > 0
    ensures TableValid(t[id := s])
    ensures CompleteStep(t[id := s], id, None) ==
              Effect(t, Some(CompleteMultipartUpload(s.path, s.id, SortedParts(s.parts))), None)
  {
    assert t[id := s] - {id} == t;
  }

  /** Writes to a segment just added under a fresh ID. */
  lemma WriteAllFresh(t: Table, id: string, s0: Segment, writes: seq<Part>)
    requires id !in t
    ensures WriteAll(t[id := s0], id, writes) == t[id := s0.(parts := Recorded(s0.parts, writes))]
  {
    WriteAllTouchesOnly(t[id := s0], id, writes);
    Overwrite(t, id, s0, s0.(parts := Recorded(s0.parts, writes)));
  }

  /** The whole lifecycle of one upload: InitSegment under a fresh ID, a
      non-empty run of successful writes, then a successful CompleteSegment,
      leaves the table exactly as it was and finalises, in ascending offset
      order, the last part written at each offset; a second CompleteSegment
      then fails with SegmentNotInitiated. */
  lemma LifecycleRestoresTable(t: Table, key: string, partSize: int, id: string, writes: seq<Part>)
    requires TableValid(t) && id !in t && |writes| > 0
    ensures var t2 := WriteAll(InitStep(t, key, partSize, Ok(id)).table, id, writes);
            && TableValid(t2)
            && CompleteStep(t2, id, None) ==
                 Effect(t, Some(CompleteMultipartUpload(key, id, SortedParts(Recorded(map[], writes)))), None)
            && CompleteStep(t, id, None).out == Some(SegmentNotInitiated)
  {
    var s0 := NewSegment(key, id, partSize);
    assert InitStep(t, key, partSize, Ok(id)).table == t[id := s0];
    WriteAllFresh(t, id, s0, writes);
    var w := writes[0];
    RecordedKeeps(map[w.offset := Part(w.offset, w.size)], writes[1..]);
    CompleteFresh(t, id, Segment(key, id, partSize, Recorded(map[], writes)));
  }

  /** Writing the same offset twice leaves one part there, the later one. */
  lemma WriteTwiceLastWins(t: Table, id: string, offset: int, size1: int, size2: int)
    requires id in t
    ensures WriteStep(WriteStep(t, id, offset, size1, None).table, id, offset, size2, None).table ==
            WriteStep(t, id, offset, size2, None).table
  {
    InsertPartTwice(t[id], offset, size1, size2);
    var t1 := WriteStep(t, id, offset, size1, None).table;
    assert t1[id := InsertPart(t1[id], offset, size2)] == t[id := InsertPart(t[id], offset, size2)];
  }

  // ---- Listing objects.

  /** The fields of a listed key that the adapter reads; a field the backend
      leaves out is None. */
  datatype KeyEntry = KeyEntry(
    key: string, mimeType: Option<string>, storageClass: Option<string>,
    etag: Option<string>, size: Option<int>, modified: Option<int>)

  /** One ListObjects response. */
  datatype ObjectsPage = ObjectsPage(commonPrefixes: seq<string>, keys: seq<KeyEntry>, nextMarker: string, hasMore: bool)

  /** What each ListObjects request carries. */
  datatype ObjectsRequest = ObjectsRequest(prefix: string, marker: string, limit: int)

  /** Set a text attribute only when the backend reported it. */
  function StoreText(b: Bag, key: string, v: Option<string>): (r: Bag)
    ensures v.None? ==> r == b
    ensures v.Some? ==> r == Store(b, key, Text(v.value))
  {
    if v.Some? then Store(b, key, Text(v.value)) else b
  }

  /** The attributes of a key or of a Stat: content type and ETag when
      reported, and the storage class when reported and known. */
  function KeyMeta(mimeType: Option<string>, etag: Option<string>, tier: Option<StorageClass>): (b: Bag)
    ensures b.Keys <= {ContentTypeKey, ETagKey, StorageClassKey}
    ensures HoldsText(b, ContentTypeKey) && GetText(b, ContentTypeKey) == mimeType
    ensures HoldsText(b, ETagKey) && GetText(b, ETagKey) == etag
    ensures HoldsClass(b) && GetStorageClass(b) == tier
  {
    var b := StoreText(StoreText(map[], ContentTypeKey, mimeType), ETagKey, etag);
    if tier.Some? then Store(b, StorageClassKey, Class(tier.value)) else b
  }

  /** A common prefix: a directory, addressed by the prefix, with no attributes. */
  function PrefixObject(workDir: string, p: string): (o: Object)
    ensures o.id == p && o.name == RelPath(workDir, p) && o.otype == Dir
    ensures o.size == 0 && o.updatedAt == ZeroTime && o.meta == map[]
  {
    Object(p, RelPath(workDir, p), Dir, 0, ZeroTime, map[])
  }

  /** A listed key: a directory when its content type is the directory type,
      a file otherwise; size 0 and the zero time when not reported; content
      type, ETag and storage class only when reported; it fails when the
      reported storage class is not a known one. */
  function KeyObject(workDir: string, v: KeyEntry): (r: Result<Object>)
    ensures r.Err? <==> v.storageClass.Some? && v.storageClass.value !in QingstorClasses
    ensures r.Err? ==> r.error == StorageClassNotSupported
    ensures r.Ok? ==> && r.value.id == v.key
                      && r.value.name == RelPath(workDir, v.key)
                      && (r.value.otype == Dir <==> v.mimeType == Some(DirectoryContentType))
                      && (r.value.otype == File <==> v.mimeType != Some(DirectoryContentType))
                      && r.value.size == (if v.size.Some? then v.size.value else 0)
                      && r.value.updatedAt == (if v.modified.Some? then Instant(v.modified.value) else ZeroTime)
                      && r.value.meta == KeyMeta(v.mimeType, v.etag, ReportedClass(v.storageClass).value)
  {
    var otype := if v.mimeType == Some(DirectoryContentType) then Dir else File;
    var size := if v.size.Some? then v.size.value else 0;
    var updated := if v.modified.Some? then Instant(v.modified.value) else ZeroTime;
    match ReportedClass(v.storageClass)
    case Err(e) => Err(e)
    case Ok(tier) => Ok(Object(v.key, RelPath(workDir, v.key), otype, size, updated, KeyMeta(v.mimeType, v.etag, tier)))
  }

  /** A reported storage class, normalised: none when the backend reports
      none, an error when it reports one outside the table. */
  function ReportedClass(id: Option<string>): (r: Result<Option<StorageClass>>)
    ensures r.Err? <==> id.Some? && id.value !in QingstorClasses
    ensures r.Err? ==> r.error == StorageClassNotSupported
    ensures r.Ok? ==> r.value == if id.Some? then Some(QingstorClasses[id.value]) else None
  {
    if id.None? then Ok(None)
    else
      match Normalize(QingstorClasses, id.value)
      case Err(e) => Err(e)
      case Ok(c) => Ok(Some(c))
  }

  /** The common prefixes of a page, as directories. */
  function PrefixObjects(workDir: string, prefixes: seq<string>): (r: seq<Result<Object>>)
    ensures |r| == |prefixes| && forall i :: 0 <= i < |prefixes| ==> r[i] == Ok(PrefixObject(workDir, prefixes[i]))
  {
    seq(|prefixes|, i requires 0 <= i < |prefixes| => Ok(PrefixObject(workDir, prefixes[i])))
  }

  /** The keys of a page, converted. */
  function KeyObjects(workDir: string, keys: seq<KeyEntry>): (r: seq<Result<Object>>)
    ensures |r| == |keys| && forall i :: 0 <= i < |keys| ==> r[i] == KeyObject(workDir, keys[i])
  {
    seq(|keys|, i requires 0 <= i < |keys| => KeyObject(workDir, keys[i]))
  }

  /** The objects of one page, in the order they reach the callbacks: the
      common prefixes, then the keys. */
  function PageObjects(workDir: string, p: ObjectsPage): seq<Result<Object>>
  {
    PrefixObjects(workDir, p.commonPrefixes) + KeyObjects(workDir, p.keys)
  }

  /** Common prefixes always convert. */
  lemma PrefixesConvert(workDir: string, prefixes: seq<string>)
    ensures FirstErr(PrefixObjects(workDir, prefixes)) == |prefixes|
  {
  }

  /** A page ends the listing when its next marker is empty, when it says
      there is no more, or when it holds no keys. */
  predicate LastPage(p: ObjectsPage): (r: bool)
    ensures !p.hasMore ==> r
    ensures |p.keys| == 0 ==> r
    ensures p.nextMarker == "" ==> r
    ensures p.hasMore && p.nextMarker != "" && |p.keys| > 0 ==> !r
  {
    p.nextMarker == "" || !p.hasMore || |p.keys| == 0
  }

  function PageReply(workDir: string, resp: Result<ObjectsPage>): Reply<Object>
  {
    match resp
    case Err(e) => Failed(e)
    case Ok(p) => Page(PageObjects(workDir, p), LastPage(p))
  }

  /** The responses of a listing, as the traversal sees them. */
  function Replies(workDir: string, responses: seq<Result<ObjectsPage>>): seq<Reply<Object>>
  {
    seq(|responses|, i requires 0 <= i < |responses| => PageReply(workDir, responses[i]))
  }

  /** The marker of the k-th request: "" first, then the previous page's NextMarker. */
  function MarkerOf(responses: seq<Result<ObjectsPage>>, k: nat): string
    requires k <= |responses|
  {
    if k == 0 || responses[k - 1].Err? then "" else responses[k - 1].value.nextMarker
  }

  /** The first n ListObjects requests of a listing under prefix rp. */
  function RequestsFor(responses: seq<Result<ObjectsPage>>, rp: string, n: nat): (qs: seq<ObjectsRequest>)
    requires n <= |responses|
    ensures |qs| == n
    ensures forall k :: 0 <= k < n ==> qs[k] == ObjectsRequest(rp, MarkerOf(responses, k), ListLimit)
  {
    seq(n, k requires 0 <= k < n => ObjectsRequest(rp, MarkerOf(responses, k), ListLimit))
  }

  /** After i requests under rp, `marker` is the one the next request
      carries and every page so far was answered. */
  ghost predicate Requested(responses: seq<Result<ObjectsPage>>, rp: string, i: nat, requests: seq<ObjectsRequest>, marker: string)
  {
    && i < |responses|
    && requests == RequestsFor(responses, rp, i)
    && (forall k :: 0 <= k < i ==> responses[k].Ok?)
    && marker == MarkerOf(responses, i)
  }

  /** A page that does not end the listing: the next request carries its NextMarker. */
  lemma RequestedStep(responses: seq<Result<ObjectsPage>>, rp: string, i: nat, requests: seq<ObjectsRequest>, marker: string)
    requires Requested(responses, rp, i, requests, marker) && responses[i].Ok? && i + 1 < |responses|
    ensures Requested(responses, rp, i + 1, requests + [ObjectsRequest(rp, marker, ListLimit)], responses[i].value.nextMarker)
  {
    assert RequestsFor(responses, rp, i + 1) == RequestsFor(responses, rp, i) + [ObjectsRequest(rp, MarkerOf(responses, i), ListLimit)];
  }

  /** The request that ends a listing. */
  lemma RequestedLast(responses: seq<Result<ObjectsPage>>, rp: string, i: nat, requests: seq<ObjectsRequest>, marker: string)
    requires Requested(responses, rp, i, requests, marker)
    ensures var rs := requests + [ObjectsRequest(rp, marker, ListLimit)];
            && rs == RequestsFor(responses, rp, |rs|)
            && forall k :: 0 <= k < |rs| - 1 ==> responses[k].Ok?
  {
    assert RequestsFor(responses, rp, i + 1) == RequestsFor(responses, rp, i) + [ObjectsRequest(rp, MarkerOf(responses, i), ListLimit)];
  }

  // ---- Listing in-progress uploads.

  /** One in-progress upload as ListMultipartUploads reports it. */
  datatype Upload = Upload(key: string, uploadId: string)

  /** One ListMultipartUploads response. */
  datatype UploadsPage = UploadsPage(uploads: seq<Upload>, nextKeyMarker: string, nextUploadIdMarker: string, hasMore: bool)

  /** What each ListMultipartUploads request carries. */
  datatype UploadsRequest = UploadsRequest(prefix: string, keyMarker: string, uploadIdMarker: string, limit: int)

  /** Each upload is reported as a segment with its key as path, its upload
      ID and no parts. */
  function UploadSegments(p: UploadsPage): (r: seq<Result<Segment>>)
    ensures |r| == |p.uploads|
    ensures forall i :: 0 <= i < |p.uploads| ==> r[i] == Ok(NewSegment(p.uploads[i].key, p.uploads[i].uploadId, 0))
  {
    seq(|p.uploads|, i requires 0 <= i < |p.uploads| => Ok(NewSegment(p.uploads[i].key, p.uploads[i].uploadId, 0)))
  }

  /** An uploads page ends the listing when both next markers are empty or
      when it says there is no more. */
  predicate LastUploadsPage(p: UploadsPage): (r: bool)
    ensures !p.hasMore ==> r
    ensures p.nextKeyMarker == "" && p.nextUploadIdMarker == "" ==> r
    ensures p.hasMore && (p.nextKeyMarker != "" || p.nextUploadIdMarker != "") ==> !r
  {
    (p.nextKeyMarker == "" && p.nextUploadIdMarker == "") || !p.hasMore
  }

  function UploadsReply(resp: Result<UploadsPage>): Reply<Segment>
  {
    match resp
    case Err(e) => Failed(e)
    case Ok(p) => Page(UploadSegments(p), LastUploadsPage(p))
  }

  function UploadsReplies(responses: seq<Result<UploadsPage>>): seq<Reply<Segment>>
  {
    seq(|responses|, i requires 0 <= i < |responses| => UploadsReply(responses[i]))
  }

  /** The k-th ListMultipartUploads request: empty markers first, then the
      previous page's next markers. */
  function UploadsRequestAt(responses: seq<Result<UploadsPage>>, rp: string, k: nat): UploadsRequest
    requires k <= |responses|
  {
    if k == 0 || responses[k - 1].Err? then UploadsRequest(rp, "", "", ListLimit)
    else UploadsRequest(rp, responses[k - 1].value.nextKeyMarker, responses[k - 1].value.nextUploadIdMarker, ListLimit)
  }

  function UploadsRequestsFor(responses: seq<Result<UploadsPage>>, rp: string, n: nat): (qs: seq<UploadsRequest>)
    requires n <= |responses|
    ensures |qs| == n && forall k :: 0 <= k < n ==> qs[k] == UploadsRequestAt(responses, rp, k)
  {
    seq(n, k requires 0 <= k < n => UploadsRequestAt(responses, rp, k))
  }

  lemma UploadsRequestsStep(responses: seq<Result<UploadsPage>>, rp: string, i: nat)
    requires i < |responses|
    ensures UploadsRequestsFor(responses, rp, i + 1) ==
            UploadsRequestsFor(responses, rp, i) + [UploadsRequestAt(responses, rp, i)]
  {
  }

  // ---- Stat.

  /** The HeadObject response fields that Stat reads; None when absent. */
  datatype HeadOutput = HeadOutput(
    contentLength: Option<int>, contentType: Option<string>, etag: Option<string>,
    storageClass: Option<string>, lastModified: Option<int>)

  /** What Stat does: HeadObject on `key`, and its outcome. */
  datatype StatCall = StatCall(key: string, result: Result<Object>)

  class Storage {
    var bucketName: string
    var zone: string
    var workDir: string
    var segments: Table

    ghost predicate Valid()
      reads this
    {
      TableValid(segments)
    }

    /** A client for a bucket in a zone: empty work directory, no segments. */
    constructor (bucketName: string, zone: string)
      ensures this.bucketName == bucketName && this.zone == zone
      ensures workDir == "" && segments == map[] && Valid()
    {
      this.bucketName := bucketName;
      this.zone := zone;
      workDir := "";
      segments := map[];
    }

    /** String: never empty; rendered in the same form as the other adapters. */
    function String(): (s: string)
      reads this
      ensures |s| > 0
      ensures |s| >= 17 + |workDir| + 2 && s[..17] == "Storager qingstor"
      ensures |s| >= 25 + |bucketName| && s[17..25 + |bucketName|] == " {Name: " + bucketName
      ensures s[|s| - |workDir| - 2..] == Rooted(workDir) + "}"
    {
      Describe("qingstor", bucketName, workDir)
    }

    /** Metadata: never fails; the bucket name, the work directory and the
        zone as location. */
    method Metadata() returns (m: StorageMeta, err: Option<Error>)
      ensures err.None? && fresh(m.bag)
      ensures m.name == bucketName && m.workDir == workDir
      ensures m.bag.m == map[LocationKey := Text(zone)]
      ensures LocationKey in m.bag.m && m.bag.m[LocationKey].Text? && MustGetLocation(m) == zone
    {
      m := NewStorageMeta();
      m := m.(name := bucketName, workDir := workDir);
      m := SetLocation(m, zone);
      err := None;
    }

    /** InitSegment: `reply` is the initiate call's answer. */
    method InitSegment(path: string, partSize: int, reply: Result<string>) returns (id: Result<string>, call: Call)
      requires Valid()
      modifies this`segments
      ensures Valid()
      ensures var e := InitStep(old(segments), AbsPath(workDir, path), partSize, reply);
              segments == e.table && Some(call) == e.call && id == e.out
    {
      var key := AbsPath(workDir, path);
      call := InitiateMultipartUpload(key);
      id := reply;
      if reply.Ok? && reply.value !in segments {
        segments := segments[reply.value := NewSegment(key, reply.value, partSize)];
      }
    }

    /** WriteSegment: `reply` is the upload call's answer. */
    method WriteSegment(id: string, offset: int, size: int, reply: Option<Error>)
      returns (err: Option<Error>, call: Option<Call>)
      requires Valid()
      modifies this`segments
      ensures Valid()
      ensures var e := WriteStep(old(segments), id, offset, size, reply);
              segments == e.table && call == e.call && err == e.out
    {
      if id !in segments {
        return Some(SegmentNotInitiated), None;
      }
      var s := segments[id];
      call := Some(UploadMultipart(s.path, s.id, offset, size));
      err := reply;
      if reply.None? {
        segments := segments[id := InsertPart(s, offset, size)];
      }
    }

    /** CompleteSegment: `reply` is the completion call's answer. */
    method CompleteSegment(id: string, reply: Option<Error>) returns (err: Option<Error>, call: Option<Call>)
      requires Valid()
      modifies this`segments
      ensures Valid()
      ensures var e := CompleteStep(old(segments), id, reply);
              segments == e.table && call == e.call && err == e.out
    {
      if id !in segments {
        return Some(SegmentNotInitiated), None;
      }
      var s := segments[id];
      if |s.parts| == 0 {
        return Some(SegmentPartsEmpty), None;
      }
      call := Some(CompleteMultipartUpload(s.path, s.id, SortedParts(s.parts)));
      err := reply;
      if reply.None? {
        segments := segments - {id};
      }
    }

    /** AbortSegment: `reply` is the abort call's answer. */
    method AbortSegment(id: string, reply: Option<Error>) returns (err: Option<Error>, call: Option<Call>)
      requires Valid()
      modifies this`segments
      ensures Valid()
      ensures var e := AbortStep(old(segments), id, reply);
              segments == e.table && call == e.call && err == e.out
    {
      if id !in segments {
        return Some(SegmentNotInitiated), None;
      }
      var s := segments[id];
      call := Some(AbortMultipartUpload(s.path, s.id));
      err := reply;
      segments := segments - {id};
    }

    /** ListSegments: requests of 200 uploads under the absolute path, the
        first with empty markers, each later one with the previous page's
        next markers; every upload reaches the callback (`delivered`) as a
        segment with no parts, in backend order; a request error ends the call
        with that error. The segment table is not read or changed. */
    method ListSegments(path: string, responses: seq<Result<UploadsPage>>)
      returns (delivered: seq<Segment>, requests: seq<UploadsRequest>, err: Option<Error>)
      requires |responses| > 0 && Stops(UploadsReply(responses[|responses| - 1]))
      ensures var o := Traverse(UploadsReplies(responses));
              delivered == o.delivered && err == o.err && |requests| == o.requests
      ensures requests == UploadsRequestsFor(responses, AbsPath(workDir, path), |requests|)
      ensures forall k :: 0 <= k < |requests| - 1 ==> responses[k].Ok?
    {
      var rp := AbsPath(workDir, path);
      ghost var replies := UploadsReplies(responses);
      ProgressStart(replies);
      var keyMarker, uploadIdMarker := "", "";
      delivered, requests, err := [], [], None;
      var i := 0;
      while true
        invariant 0 <= i < |responses|
        invariant Progress(replies, i, delivered)
        invariant requests == UploadsRequestsFor(responses, rp, i)
        invariant forall k :: 0 <= k < i ==> responses[k].Ok?
        invariant UploadsRequestAt(responses, rp, i) == UploadsRequest(rp, keyMarker, uploadIdMarker, ListLimit)
        decreases |responses| - i
      {
        var request := UploadsRequest(rp, keyMarker, uploadIdMarker, ListLimit);
        UploadsRequestsStep(responses, rp, i);
        requests := requests + [request];
        if responses[i].Err? {
          StepFailed(replies, i, delivered);
          err := Some(responses[i].error);
          return;
        }
        var page := responses[i].value;
        assert replies[i] == Page(UploadSegments(page), LastUploadsPage(page));
        var segs := DeliverUploads(page);
        StepPage(replies, i, delivered, segs, None);
        delivered := delivered + segs;
        keyMarker, uploadIdMarker := page.nextKeyMarker, page.nextUploadIdMarker;
        if (keyMarker == "" && uploadIdMarker == "") || !page.hasMore {
          return;
        }
        i := i + 1;
      }
    }

    /** The loop over one page's uploads. */
    method DeliverUploads(p: UploadsPage) returns (delivered: seq<Segment>)
      ensures (delivered, None) == DeliverPage(UploadSegments(p))
    {
      ghost var converted := UploadSegments(p);
      DeliverStart(converted);
      delivered := [];
      var j := 0;
      while j < |p.uploads|
        invariant j <= |p.uploads| && Delivered(converted, j, delivered)
      {
        DeliverNext(converted, j, delivered);
        delivered := delivered + [NewSegment(p.uploads[j].key, p.uploads[j].uploadId, 0)];
        j := j + 1;
      }
      DeliverDone(converted, delivered);
    }

    /** List: requests of 200 objects under the absolute path, the first with
        marker "", each later one with the previous page's NextMarker; common
        prefixes and then keys reach the callbacks (`delivered`) in backend
        order; a request error or an unknown storage class ends the call with
        that error. */
    method List(path: string, responses: seq<Result<ObjectsPage>>)
      returns (delivered: seq<Object>, requests: seq<ObjectsRequest>, err: Option<Error>)
      requires |responses| > 0 && Stops(PageReply(workDir, responses[|responses| - 1]))
      ensures var o := Traverse(Replies(workDir, responses));
              delivered == o.delivered && err == o.err && |requests| == o.requests
      ensures requests == RequestsFor(responses, AbsPath(workDir, path), |requests|)
      ensures forall k :: 0 <= k < |requests| - 1 ==> responses[k].Ok?
    {
      var wd := workDir;
      var rp := AbsPath(wd, path);
      ghost var replies := Replies(wd, responses);
      ProgressStart(replies);
      var marker := "";
      delivered, requests, err := [], [], None;
      var i := 0;
      while true
        invariant Requested(responses, rp, i, requests, marker)
        invariant Progress(replies, i, delivered)
        decreases |responses| - i
      {
        var request := ObjectsRequest(rp, marker, ListLimit);
        RequestedLast(responses, rp, i, requests, marker);
        assert replies[i] == PageReply(wd, responses[i]);
        if responses[i].Err? {
          StepFailed(replies, i, delivered);
          requests, err := requests + [request], Some(responses[i].error);
          return;
        }
        var page := responses[i].value;
        var objs, e := ListPage(replies, i, delivered, page);
        if e.Some? {
          requests, delivered, err := requests + [request], delivered + objs, e;
          return;
        }
        if page.nextMarker == "" || !page.hasMore || |page.keys| == 0 {
          requests, delivered := requests + [request], delivered + objs;
          return;
        }
        RequestedStep(responses, rp, i, requests, marker);
        requests, delivered, marker := requests + [request], delivered + objs, page.nextMarker;
        i := i + 1;
      }
    }

    /** One page of List: its objects are delivered and the traversal ends
        there or goes on with the next request. */
    method ListPage(ghost replies: seq<Reply<Object>>, i: nat, ghost delivered: seq<Object>, page: ObjectsPage)
      returns (objs: seq<Object>, e: Option<Error>)
      requires i < |replies| && Progress(replies, i, delivered)
      requires replies[i] == PageReply(workDir, Ok(page))
      ensures e.Some? || LastPage(page) ==> Traverse(replies) == Outcome(delivered + objs, e, i + 1)
      ensures e.None? && !LastPage(page) && i + 1 < |replies| ==> Progress(replies, i + 1, delivered + objs)
    {
      objs, e := DeliverObjects(page);
      StepPage(replies, i, delivered, objs, e);
    }

    /** The loops over one page: every common prefix to the directory
        callback, then every key to the callback its type selects, until a key
        fails to convert. */
    method DeliverObjects(p: ObjectsPage) returns (delivered: seq<Object>, err: Option<Error>)
      ensures (delivered, err) == DeliverPage(PageObjects(workDir, p))
    {
      var dirs := DeliverPrefixes(p.commonPrefixes);
      var files, e := DeliverKeys(p.keys);
      PrefixesConvert(workDir, p.commonPrefixes);
      DeliverPageAll(PrefixObjects(workDir, p.commonPrefixes));
      DeliverPageAfter(PrefixObjects(workDir, p.commonPrefixes), KeyObjects(workDir, p.keys));
      delivered, err := dirs + files, e;
    }

    /** The loop over a page's common prefixes. */
    method DeliverPrefixes(prefixes: seq<string>) returns (delivered: seq<Object>)
      ensures (delivered, None) == DeliverPage(PrefixObjects(workDir, prefixes))
    {
      ghost var converted := PrefixObjects(workDir, prefixes);
      DeliverStart(converted);
      delivered := [];
      var j := 0;
      while j < |prefixes|
        invariant j <= |prefixes| && Delivered(converted, j, delivered)
      {
        DeliverNext(converted, j, delivered);
        delivered := delivered + [PrefixObject(workDir, prefixes[j])];
        j := j + 1;
      }
      DeliverDone(converted, delivered);
    }

    /** The loop over a page's keys, until one fails to convert. */
    method DeliverKeys(keys: seq<KeyEntry>) returns (delivered: seq<Object>, err: Option<Error>)
      ensures (delivered, err) == DeliverPage(KeyObjects(workDir, keys))
    {
      ghost var converted := KeyObjects(workDir, keys);
      DeliverStart(converted);
      delivered, err := [], None;
      var j := 0;
      while j < |keys|
        invariant j <= |keys| && Delivered(converted, j, delivered)
      {
        var o := KeyObject(workDir, keys[j]);
        DeliverNext(converted, j, delivered);
        if o.Err? {
          err := Some(o.error);
          return;
        }
        delivered := delivered + [o.value];
        j := j + 1;
      }
      DeliverDone(converted, delivered);
    }

    /** Stat: HeadObject on the path's absolute key; the Object is addressed
        by that key, named by the path as given, always a file; size 0 when not reported; content
        type, ETag and storage class only when reported; no Object when the
        request fails or the storage class is not a known one. */
    function Stat(path: string, head: Result<HeadOutput>): (c: StatCall)
      reads this
      ensures c.key == AbsPath(workDir, path)
      ensures head.Err? ==> c.result == Err(head.error)
      ensures head.Ok? && head.value.storageClass.Some? && head.value.storageClass.value !in QingstorClasses ==>
                c.result == Err(StorageClassNotSupported)
      ensures c.result.Ok? <==> head.Ok? && ReportedClass(head.value.storageClass).Ok?
      ensures c.result.Ok? ==> var h := head.value;
                               && head.Ok?
                               && c.result.value.id == AbsPath(workDir, path)
                               && c.result.value.name == path
                               && c.result.value.otype == File
                               && c.result.value.size == (if h.contentLength.Some? then h.contentLength.value else 0)
                               && c.result.value.updatedAt == (if h.lastModified.Some? then Instant(h.lastModified.value) else ZeroTime)
                               && c.result.value.meta == KeyMeta(h.contentType, h.etag, ReportedClass(h.storageClass).value)
    {
      StatCall(AbsPath(workDir, path),
        match head
        case Err(e) => Err(e)
        case Ok(h) =>
          var size := if h.contentLength.Some? then h.contentLength.value else 0;
          var updated := if h.lastModified.Some? then Instant(h.lastModified.value) else ZeroTime;
          match ReportedClass(h.storageClass)
          case Err(e) => Err(e)
          case Ok(tier) => Ok(Object(AbsPath(workDir, path), path, File, size, updated, KeyMeta(h.contentType, h.etag, tier))))
    }
  }
}
