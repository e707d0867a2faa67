/** The presence-flagged metadata bags: an object's optional attributes and the
    storage container's StorageMeta. Both keep their attributes in one map from
    attribute name to an untyped value; a missing key means "not reported". */
module Metadata {
  import opened Wrappers
  import opened StorageClasses

  /** The values the generated setters store: text, or a canonical storage class. */
  datatype Value = Text(text: string) | Class(tier: StorageClass)

  /** The underlying `map[string]interface{}`. */
  type Bag = map<string, Value>

  const ContentTypeKey: string := "content-type"
  const ETagKey: string := "etag"
  const ContentMD5Key: string := "content-md5"
  const StorageClassKey: string := "storage-class"
  const LocationKey: string := "location"

  /** A lookup that reports presence instead of a zero value. */
  function Lookup(b: Bag, key: string): (r: Option<Value>)
    ensures r.Some? <==> key in b
    ensures r.Some? ==> r.value == b[key]
  {
    if key in b then Some(b[key]) else None
  }

  /** A write of one attribute: last write wins, every other attribute is kept. */
  function Store(b: Bag, key: string, v: Value): (r: Bag)
    ensures Lookup(r, key) == Some(v)
    ensures forall k :: k != key ==> Lookup(r, k) == Lookup(b, k)
    ensures r.Keys == b.Keys + {key}
  {
    b[key := v]
  }

  /** A second write of the same attribute replaces the first. */
  lemma StoreLastWriteWins(b: Bag, key: string, v1: Value, v2: Value)
    ensures Store(Store(b, key, v1), key, v2) == Store(b, key, v2)
  {
  }

  /** Writes of different attributes commute. */
  lemma StoreCommutes(b: Bag, k1: string, v1: Value, k2: string, v2: Value)
    requires k1 != k2
    ensures Store(Store(b, k1, v1), k2, v2) == Store(Store(b, k2, v2), k1, v1)
  {
  }

  /** The getters' type assertion `v.(string)` succeeds: the value under
      `key`, when present, is text (otherwise the Go getter panics). */
  predicate HoldsText(b: Bag, key: string)
  {
    key in b ==> b[key].Text?
  }

  /** The storage class getter's type assertion succeeds. */
  predicate HoldsClass(b: Bag)
  {
    StorageClassKey in b ==> b[StorageClassKey].Class?
  }

  /** A text attribute of an object: its value and whether it is present;
      None exactly when the backend did not report it. */
  function GetText(b: Bag, key: string): (r: Option<string>)
    requires HoldsText(b, key)
    ensures r.Some? <==> key in b
    ensures r.Some? ==> b[key] == Text(r.value)
  {
    match Lookup(b, key)
    case Some(v) => Some(v.text)
    case None => None
  }

  /** The storage class attribute of an object, when present. */
  function GetStorageClass(b: Bag): (r: Option<StorageClass>)
    requires HoldsClass(b)
    ensures r.Some? <==> StorageClassKey in b
    ensures r.Some? ==> b[StorageClassKey] == Class(r.value)
  {
    match Lookup(b, StorageClassKey)
    case Some(v) => Some(v.tier)
    case None => None
  }

  /** The Go map behind a StorageMeta. It is a reference: every copy of a
      StorageMeta shares it, so a write through one copy is seen by all. */
  class MetaMap {
    var m: Bag

    constructor ()
      ensures m == map[]
    {
      m := map[];
    }
  }

  /** StorageMeta: the container's name and work directory, plus the bag. */
  datatype StorageMeta = StorageMeta(name: string, workDir: string, bag: MetaMap)

  /** NewStorageMeta: empty name and work directory over a fresh, empty bag. */
  method NewStorageMeta() returns (sm: StorageMeta)
    ensures fresh(sm.bag) && sm.bag.m == map[]
    ensures sm.name == "" && sm.workDir == ""
  {
    var bag := new MetaMap();
    sm := StorageMeta("", "", bag);
  }

  /** GetLocation: the location and whether it is present; ("", false) when absent. */
  function GetLocation(sm: StorageMeta): (r: (string, bool))
    reads sm.bag
    requires HoldsText(sm.bag.m, LocationKey)
    ensures r.1 <==> LocationKey in sm.bag.m
    ensures r.1 ==> sm.bag.m[LocationKey] == Text(r.0)
    ensures !r.1 ==> r.0 == ""
  {
    match Lookup(sm.bag.m, LocationKey)
    case Some(v) => (v.text, true)
    case None => ("", false)
  }

  /** MustGetLocation: only for a bag where the location is known to be present. */
  function MustGetLocation(sm: StorageMeta): (v: string)
    reads sm.bag
    requires LocationKey in sm.bag.m && sm.bag.m[LocationKey].Text?
    ensures GetLocation(sm) == (v, true)
  {
    sm.bag.m[LocationKey].text
  }

  /** SetLocation: writes the location into the shared bag and returns the
      same meta, so calls can be chained. */
  method SetLocation(sm: StorageMeta, v: string) returns (r: StorageMeta)
    modifies sm.bag
    ensures r == sm
    ensures sm.bag.m == Store(old(sm.bag.m), LocationKey, Text(v))
    ensures HoldsText(sm.bag.m, LocationKey) && GetLocation(r) == (v, true)
    ensures forall k :: k != LocationKey ==> Lookup(sm.bag.m, k) == Lookup(old(sm.bag.m), k)
  {
    sm.bag.m := sm.bag.m[LocationKey := Text(v)];
    r := sm;
  }

  /** Because the bag is shared, a location set through one copy of a
      StorageMeta is read back through any other copy, and the last write wins. */
  method SetLocationThroughCopy(a: StorageMeta, b: StorageMeta, v1: string, v2: string)
    requires a.bag == b.bag
    modifies a.bag
    ensures HoldsText(b.bag.m, LocationKey) && GetLocation(b) == (v2, true)
  {
    var a1 := SetLocation(a, v1);
    var a2 := SetLocation(a1, v2);
  }
}
