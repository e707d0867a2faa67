# A verified model of the storage adapters' core

The storage library puts one `Storager` interface in front of several object
stores. This project models the part of it that holds state or follows a
protocol.

- **Canonical data model.** The four `ObjectType` spellings, the `Object` record with its optional metadata bag, and the `StorageMeta` location accessors. `StorageMeta` wraps a shared Go map.
- **azblob adapter.** `Init` trims leading `/` from the work directory. Also modelled: `Metadata`, `String`, `Stat`, and the marker-driven `List` loop that converts every blob into an `Object` for the file callback.
- **kodo adapter.** `newStorage` picks a domain. Also modelled: `Init`, `Metadata`, `String`, `Stat`, and the `List` loop over `ListFiles` pages.
- **qingstor adapter.**
  - The in-memory table of multipart uploads ("segments"), driven by `InitSegment`, `WriteSegment`, `CompleteSegment` and `AbortSegment`.
  - `ListSegments`, plus `List` with directory prefixes and keys.
  - `Stat`, `Metadata` and `String`.

**How the backends are modelled.** Every vendor SDK is an oracle.

- A list method receives `responses`. `responses[i]` is the answer its i-th request gets.
- A list method returns three things:
  - the requests it issued;
  - the objects it handed to its callbacks, in order (`delivered`);
  - the error it returned.
- A segment operation receives the reply of its backend call and returns the call it issued.

**The shared listing specification.** Module `Listing` defines `Traverse`, the traversal all four list loops perform:

- request a page;
- convert its entries in order and deliver them;
- abort on the first error;
- stop on the page that ends the listing.

What `Traverse` delivers and the error it returns are proved equal to a reference definition. That definition reads the pages as one list and delivers the prefix before the first failed conversion. The number of requests is proved separately: exactly one per reply up to and including the first reply that fails, ends the listing or holds an entry that fails to convert. Each list method is proved to compute `Traverse` of its responses.

**Helpers from the adapters.** These helpers are not part of this model; each is given a definition:

| helper | modelled as |
|---|---|
| `getAbsPath` | concatenation, an assumed definition (see "## Left out") |
| `getRelPath` | `strings.TrimPrefix`, an assumed definition (see "## Left out") |
| `formatStorageClass` | one injective table per backend, with assumed entries (see "## Left out") |
| `convertUnixTimestampToTime` | a timestamp value |

## Model

| member | source | states |
|---|---|---|
| Types.ParseType | types/struct.go:13-18 | a string is read back only when it is the spelling of that kind; any other string names no kind |
| Types.TypeNameRoundTrip | types/struct.go:26-27 | the four kinds have pairwise distinct spellings: reading back a kind's spelling gives the kind |
| Metadata.Lookup | types/metadata/storage_meta.go:17-20 | presence is reported instead of a zero value; the value is the one stored |
| Metadata.Store | types/metadata/storage_meta.go:31 | a write makes the attribute read back as written and leaves every other attribute as it was |
| Metadata.StoreLastWriteWins | types/metadata/storage_meta.go:31 | a second write of the same attribute replaces the first |
| Metadata.StoreCommutes | types/metadata/storage_meta.go:31 | writes of different attributes can be done in either order |
| Metadata.GetText | types/struct.go:36-48 | callable only when the value under the key, if any, is text (the getter's type assertion); the attribute is present exactly when the backend reported it, with the stored text |
| Metadata.GetStorageClass | types/struct.go:36-48 | callable only when the stored storage class, if any, is a class; present exactly when the backend reported one, with that class |
| Metadata.GetLocation | types/metadata/storage_meta.go:16-22 | the flag is true exactly when "location" is in the bag, the value is the stored text then, and ("", false) otherwise |
| Metadata.MustGetLocation | types/metadata/storage_meta.go:25-27 | callable only when the location is present; then it equals GetLocation's value |
| Metadata.SetLocation | types/metadata/storage_meta.go:30-33 | writes only "location" in the shared bag, GetLocation then gives (v, true), and the same meta is returned for chaining |
| Metadata.SetLocationThroughCopy | types/metadata/storage_meta.go:30-33 | two copies of a StorageMeta share one bag: a location set through one is read through the other, last write wins |
| Metadata.NewStorageMeta | services/azblob/storager.go:61-63 | a fresh empty bag with empty name and work directory |
| StorageClasses.Normalize | services/azblob/storager.go:100-104 | an identifier in the backend's table gives its canonical class, any other gives StorageClassNotSupported |
| StorageClasses.Denormalize | services/azblob/storager.go:100-104 | for a class in an injective table, an identifier the table maps to that class |
| StorageClasses.NormalizeRoundTrip | services/kodo/storager.go:114-118 | on a supported identifier normalisation can be undone: the class names that identifier back |
| StorageClasses.DenormalizeRoundTrip | services/kodo/storager.go:189-193 | every class in a table has one identifier that normalises to it |
| StorageClasses.TablesInjective | services/azblob/storager.go:181-185 | no backend table gives two identifiers the same class |
| StorageClasses.QingstorFixedByTests | services/qingstor/storager_test.go:443-490 | "STANDARD" is Hot and "xxxx" is rejected with StorageClassNotSupported |
| Paths.TrimLeftSlashes | services/azblob/storager.go:51-54 | the result is a suffix of the input, everything removed was '/', and it does not start with '/' |
| Paths.TrimLeftSlashesUnique | services/kodo/storager.go:69-72 | those three facts determine the trimmed string: nothing else satisfies them |
| Paths.TrimLeftSlashesIdempotent | services/kodo/storager.go:69-72 | trimming an already trimmed work directory changes nothing |
| Paths.AbsPath | services/kodo/storager.go:95 | the key is the work directory followed by the path |
| Paths.RelPath | services/kodo/storager.go:105 | a key under the work directory loses that prefix; any other key is kept |
| Paths.RelOfAbs | services/azblob/storager.go:76-91 | the relative path of a path's absolute key is the path again |
| Paths.AbsOfRel | services/azblob/storager.go:90-91 | a key under the work directory is the absolute key of its relative path |
| Paths.EmptyWorkDir | services/kodo/storager.go:39-47 | with the zero work directory both mappings are the identity |
| Paths.Rooted | services/azblob/storager.go:38 | the work directory is shown after exactly one added '/' |
| Paths.Describe | services/kodo/storager.go:53-58 | the rendering starts with "Storager " and the service, then " {Name: " and the name, and ends with the rooted work directory and "}" |
| Paths.RootedTrimmedOnce | services/azblob/storager.go:35-54 | after Init, String shows the work directory rooted by exactly one '/' |
| Listing.FirstErr | services/azblob/storager.go:88-103 | the position of the first entry that failed to convert: every entry before it converted |
| Listing.Values | services/azblob/storager.go:88-106 | the converted values of entries that all converted, in order |
| Listing.Traverse | services/azblob/storager.go:78-113 | one request per page at most, and at least one |
| Listing.TraverseDelivers | services/azblob/storager.go:78-113 | the traversal delivers exactly the converted entries before the first failed conversion, in backend order. It returns that conversion's error, or else the first failed request's error, or nil |
| Listing.TraverseSucceeds | services/kodo/storager.go:97-127 | a listing returns nil exactly when no request fails and every entry converts, and then every entry is delivered |
| Listing.TraverseRequests | services/azblob/storager.go:80-113 | the listing makes one request per page up to and including the first reply that fails, ends the listing or holds an entry that fails to convert, and no more |
| Listing.DeliverPage | services/azblob/storager.go:88-107 | one page's loop delivers the entries before the first that fails to convert, each as converted, and returns that entry's error; nil exactly when every entry converts |
| Listing.TraverseIgnoresRest | services/kodo/storager.go:123-126 | once a page ends the listing, no later response is requested or affects the outcome |
| Listing.DeliverPageAfter | services/qingstor/storager_test.go:407-424 | delivering entries that all convert and then more entries delivers both in that order, with the second part's error |
| Listing.ValuesAppend | services/kodo/storager.go:103-121 | the values of two converted runs are the values of each, in order |
| Segments.NewSegment | services/qingstor/storager_test.go:774 | a segment with the given path, ID and part size and no parts |
| Segments.InsertPart | services/qingstor/storager_test.go:747-805 | the part is recorded at its offset; other offsets, the path and the ID are kept |
| Segments.InsertPartTwice | services/qingstor/storager_test.go:747-805 | writing one offset twice leaves the later part |
| Segments.MinOffset | services/qingstor/storager_test.go:174-191 | the least offset of a non-empty set of offsets |
| Segments.SortedParts | services/qingstor/storager_test.go:174-191 | the parts in strictly ascending offset order, each recorded part exactly once |
| Segments.SortedPartsUnique | services/qingstor/storager_test.go:174-191 | that order is the only ascending enumeration of the parts |
| Qingstor.InitStep | services/qingstor/storager_test.go:299-367 | one initiate call at the absolute key. The backend's answer is returned. A new upload ID is tracked with no parts; a failure leaves the table as it was |
| Qingstor.WriteStep | services/qingstor/storager_test.go:765-784 | an unknown ID fails with SegmentNotInitiated and calls nothing. A known one uploads to the segment's path and ID, and a successful upload records the part. No entry is added or removed |
| Qingstor.CompleteStep | services/qingstor/storager_test.go:139-215 | an unknown ID gives SegmentNotInitiated and an empty segment gives SegmentPartsEmpty, neither calling the backend. Otherwise completion is sent with the segment's path, ID and its parts in ascending order, and success removes the entry |
| Qingstor.AbortStep | services/qingstor/storager_test.go:106-137 | an unknown ID gives SegmentNotInitiated and calls nothing. A known one sends the abort with the segment's path and ID and removes the entry |
| Qingstor.Recorded | services/qingstor/storager_test.go:747-805 | a run of writes keeps every part at its own offset |
| Qingstor.RecordedKeys | services/qingstor/storager_test.go:747-805 | after a run of writes the offsets are the old ones plus every one written |
| Qingstor.RecordedLast | services/qingstor/storager_test.go:747-805 | at each offset the part kept is the last one written there |
| Qingstor.RecordedUntouched | services/qingstor/storager_test.go:747-805 | an offset no write names keeps its part |
| Qingstor.WriteAllTouchesOnly | services/qingstor/storager_test.go:747-805 | writes to one segment change only that segment's parts; every other entry is untouched |
| Qingstor.LifecycleRestoresTable | services/qingstor/storager_test.go:174-211 | init under a fresh ID, then writes, then a successful complete leave the table as before. The last part written at each offset is finalised in ascending order, and a second complete gives SegmentNotInitiated |
| Qingstor.WriteTwiceLastWins | services/qingstor/storager_test.go:747-805 | two successful writes at one offset leave the table as the second alone would |
| Qingstor.Storage.InitSegment | services/qingstor/storager_test.go:299-367 | the table, the call and the result are those of InitStep, and the table stays valid |
| Qingstor.Storage.WriteSegment | services/qingstor/storager_test.go:747-805 | the table, the call and the error are those of WriteStep, and the table stays valid |
| Qingstor.Storage.CompleteSegment | services/qingstor/storager_test.go:139-215 | the table, the call and the error are those of CompleteStep, and the table stays valid |
| Qingstor.Storage.AbortSegment | services/qingstor/storager_test.go:106-137 | the table, the call and the error are those of AbortStep, and the table stays valid |
| Qingstor.UploadSegments | services/qingstor/storager_test.go:825-858 | each upload is reported as NewSegment(key, upload ID, 0), in backend order |
| Qingstor.Storage.ListSegments | services/qingstor/storager_test.go:807-893 | delivers and returns what Traverse gives on the uploads pages. Requests carry the absolute path, a limit of 200 and the previous page's markers (empty first). Every response before the last request succeeded |
| Qingstor.Storage.DeliverUploads | services/qingstor/storager_test.go:825-858 | one page's uploads are delivered as segments, in order |
| Qingstor.PrefixObject | services/qingstor/storager_test.go:407-424 | a common prefix is a Dir addressed by the prefix, with size 0, the zero time and no attributes |
| Qingstor.KeyObject | services/qingstor/storager_test.go:443-510 | a key is a Dir exactly when its content type is the directory type and a File otherwise. Size and time default to 0 and the zero time. Only reported attributes are set, and an unknown class fails |
| Qingstor.ReportedClass | services/qingstor/storager_test.go:443-490 | no reported class gives none, a known one its canonical class, and an unknown one StorageClassNotSupported |
| Qingstor.KeyMeta | services/qingstor/storager_test.go:458-468 | content type, ETag and storage class are present exactly when reported |
| Qingstor.PrefixesConvert | services/qingstor/storager_test.go:407-424 | common prefixes never fail to convert |
| Qingstor.LastPage | services/qingstor/storager_test.go:407-433 | a page ends the listing when HasMore is false (even with a NextMarker), when it holds no keys, or when its NextMarker is empty; otherwise the next page is requested |
| Qingstor.LastUploadsPage | services/qingstor/storager_test.go:840-858 | an uploads page ends the listing when HasMore is false (even with a next key marker) or both next markers are empty; otherwise the next page is requested |
| Qingstor.Storage.DeliverPrefixes | services/qingstor/storager_test.go:407-424 | every common prefix of a page is delivered as a Dir object, in order, with no error |
| Qingstor.Storage.List | services/qingstor/storager_test.go:369-539 | delivers and returns what Traverse gives on the object pages, with prefixes before keys. Requests carry the absolute path, a limit of 200 and the previous page's NextMarker ("" first) |
| Qingstor.Storage.DeliverObjects | services/qingstor/storager_test.go:407-424 | a page delivers its prefixes and then its keys up to the first key that fails to convert |
| Qingstor.Storage.DeliverKeys | services/qingstor/storager_test.go:443-510 | the keys are delivered in order up to the first that fails to convert, whose error is returned |
| Qingstor.Storage.Stat | services/qingstor/storager_test.go:630-702 | HeadObject is called on the absolute key of the path. The Object is a File at the absolute key named by the path. Size and reported attributes are kept. It succeeds exactly when the request succeeds and the class is absent or known; otherwise there is no Object and the error |
| Qingstor.Storage.Metadata | services/qingstor/storager_test.go:37-61 | never fails: the bucket name, the work directory, and the zone as the location MustGetLocation returns |
| Qingstor.Storage.String | services/qingstor/storager_test.go:24-35 | never empty; "Storager qingstor" first, then " {Name: " and the bucket name, and the rooted work directory last |
| Qingstor.Storage.constructor | services/qingstor/storager_test.go:112-115 | a client with empty work directory and no tracked segments |
| Azblob.NotDone | services/azblob/storager.go:109-112 | the zero marker of the first request is not done, an empty continuation is done, and any non-empty continuation is not done |
| Azblob.BlobObject | services/azblob/storager.go:88-106 | a blob becomes a Dir with ID = name, Name = relative path, its length, time, content type and MD5. It fails with StorageClassNotSupported exactly when the tier is unknown |
| Azblob.Storage.String | services/azblob/storager.go:35-39 | "Storager azblob" followed by " {Name: " and the name and, at the end, the rooted work directory |
| Azblob.Storage.Init | services/azblob/storager.go:43-57 | a parse error is returned and changes nothing. A WorkDir option sets the work directory trimmed of leading '/'. No option changes nothing |
| Azblob.Storage.Metadata | services/azblob/storager.go:60-65 | never fails: a fresh empty bag with the client's name and work directory |
| Azblob.Storage.List | services/azblob/storager.go:68-116 | delivers and returns what Traverse gives. The first request carries the zero marker and each later one the previous NextMarker, all under the absolute path. Every response before the last request succeeded |
| Azblob.Storage.DeliverBlobs | services/azblob/storager.go:88-107 | a page's blobs are delivered in order up to the first with an unknown tier, whose error is returned |
| Azblob.Storage.Stat | services/azblob/storager.go:157-187 | GetProperties is called on the blob at the absolute key of the path. The result is a File at the absolute key named by the path, with its length, time and class. It succeeds exactly when the request succeeds and the tier is known; otherwise there is no Object and the error |
| Azblob.Storage.StatNameMapsToId | services/azblob/storager.go:172-175 | Stat's name maps to its ID through the work directory and back |
| Azblob.Storage.constructor | services/azblob/storager.go:26-32 | a client with the given name and empty work directory |
| Kodo.PutTime | services/kodo/storager.go:108 | a put time always gives a timestamp, never the zero time |
| Kodo.SelectDomain | services/kodo/storager.go:30-41 | a failed listing is passed on and an empty list is NoAvailableDomains; otherwise the first domain is chosen |
| Kodo.NewStorage | services/kodo/storager.go:28-50 | on error no client is built. Otherwise a fresh client with the first domain, a put policy scoped to the bucket name and an empty work directory |
| Kodo.EntryObject | services/kodo/storager.go:103-121 | an entry becomes a Dir with an empty ID, the relative name, its size and put time, content type and ETag. It fails with StorageClassNotSupported exactly when the file type is unknown |
| Kodo.Storage.String | services/kodo/storager.go:53-58 | "Storager kodo" followed by " {Name: " and the name and, at the end, the rooted work directory |
| Kodo.Storage.Init | services/kodo/storager.go:61-75 | a parse error is returned and changes nothing. A WorkDir option sets the work directory trimmed of leading '/'. No option changes nothing |
| Kodo.Storage.Metadata | services/kodo/storager.go:78-83 | never fails: a fresh empty bag with the client's name and work directory |
| Kodo.Storage.List | services/kodo/storager.go:86-128 | delivers and returns what Traverse gives. Requests go to the bucket under the absolute path, 1000 at a time, with marker "" first and then the previous nextMarker; an empty nextMarker ends with nil |
| Kodo.Storage.DeliverEntries | services/kodo/storager.go:103-121 | a page's entries are delivered in order up to the first with an unknown file type, whose error is returned |
| Kodo.Storage.Stat | services/kodo/storager.go:169-196 | the Stat request names the bucket and the absolute key of the path. The result is a File at the absolute key named by the path, with size, put time, ETag and class. It succeeds exactly when the request succeeds and the type is known; otherwise there is no Object and the error |
| Kodo.Storage.constructor | services/kodo/storager.go:39-47 | the client holds the domain, a put policy scoped to the bucket and the name |

## Left out

- Vendor SDK wire behaviour is not modelled. This covers azblob `ListBlobsFlatSegment`/`GetProperties`, qiniu `ListFiles`/`Stat`/`ListBucketDomains`, and the qingstor bucket calls. Each is an oracle parameter: a list of responses, or one reply.
- Read, Write, Delete, Copy, Move and Statistical are not modelled. They are single SDK calls or stream bodies (`io.Reader`), with no state or protocol of their own.
- Option parsing is left out. The generated `parseStoragePair*` functions are not part of this model. `Init` receives their outcome as a `Result`, so `types.Pair`, the option record they read, is not modelled either. For List and Stat the parse error would be returned before any request; it is not modelled, and a failed request and an unknown class are their error paths.
- StorageClasses.AzblobClasses, StorageClasses.KodoClasses and StorageClasses.QingstorClasses are assumed tables: `formatStorageClass` is not part of this model. Only "STANDARD" as Hot and "xxxx" as unsupported are fixed by the qingstor tests. The other entries are assumed, and each backend's table is taken to be one-to-one, since storage classes are meant to map back to a single backend name. TablesInjective is a fact about those assumed tables.
- Paths.AbsPath and Paths.RelPath are assumed definitions: `getAbsPath` and `getRelPath` are not part of this model. AbsPath is taken as concatenation of the work directory and the path, and RelPath as removal of the work-directory prefix. The tests fix only the zero work directory, where the key equals the path. Paths.RelOfAbs and Paths.AbsOfRel are facts about these assumed definitions.
- Error values are an error-kind datatype, not the `fmt.Errorf` message text. A backend error is passed on unchanged.
- Concurrency and locking are not modelled; no locking appears in the shown code, so operations are sequential.
- The qingstor adapter source is not part of this model. Its behaviour is taken from its tests, and where they leave a choice the model takes the reading the tests agree with:
  - List ends on a page whose NextMarker is empty, whose HasMore is false, or that has no keys.
  - ListSegments ends when both next markers are empty or HasMore is false.
  - Common prefixes reach the callbacks before keys.
  - The ETag is stored as reported.
  - InitSegment keeps an entry already tracked under the returned ID.
  - AbortSegment removes the entry whatever the backend answers.
  - CompleteSegment keeps the entry when the backend's completion fails.
  - WriteSegment records a part only when its upload succeeds.
- Qingstor.Storage.String: the tests only require a non-empty rendering. The model renders it like the other adapters.
- The qingstor part number of an upload is not modelled; parts are keyed by offset only.
- Nil fields in SDK responses are modelled as absent (`None`) where the qingstor tests leave them out. Azblob and kodo fields are taken as always present, as their code dereferences them.
- Azblob.Storage.List, Kodo.Storage.List, Qingstor.Storage.List and Qingstor.Storage.ListSegments require the last response to end the listing. The Go loops only terminate when the backend eventually does so; a backend that never ends the listing is not modelled.
- Go map aliasing is modelled only for `StorageMeta`, whose bag is a shared `MetaMap` object. The object metadata bag is a value, since the adapters only build it.
- `time.Time` is a timestamp value (`Instant`) or the zero time; time zones and arithmetic are left out.
- Azblob and kodo `List` give each listed entry type Dir, as the code writes it, and kodo leaves the ID empty. The model keeps both as written.
