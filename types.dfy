/** The canonical data model: object types and the Object record. */
module Types {
  import opened Wrappers
  import opened Metadata

  /** An object is exactly one of these four kinds. */
  datatype ObjectType = File | Stream | Dir | Invalid

  /** The string each kind is spelled as. */
  function TypeName(t: ObjectType): (s: string)
  {
    match t
    case File => "file"
    case Stream => "stream"
    case Dir => "dir"
    case Invalid => "invalid"
  }

  /** Reads a spelling back; any other string names no kind. */
  function ParseType(s: string): (r: Option<ObjectType>)
    ensures r.Some? ==> TypeName(r.value) == s
    ensures r.None? ==> s !in {"file", "stream", "dir", "invalid"}
  {
    if s == "file" then Some(File)
    else if s == "stream" then Some(Stream)
    else if s == "dir" then Some(Dir)
    else if s == "invalid" then Some(Invalid)
    else None
  }

  /** The four spellings are pairwise distinct, so the spelling determines the kind. */
  lemma TypeNameRoundTrip(t: ObjectType)
    ensures ParseType(TypeName(t)) == Some(t)
  {
  }

  /** A timestamp; ZeroTime is Go's zero `time.Time`, used when no time is known.
      The unit of `stamp` is the backend's own (kodo's put time counts
      100-nanosecond intervals, qingstor's modified time seconds); stamps of
      different backends are never compared. */
  datatype Time = ZeroTime | Instant(stamp: int)

  /** The canonical Object. The struct fields are always set by an adapter;
      the optional attributes live in `meta` and must be looked up. */
  datatype Object = Object(
    id: string,        // the backend's key
    name: string,      // the path relative to the work directory
    otype: ObjectType,
    size: int,         // 0 when the backend reports no size
    updatedAt: Time,   // ZeroTime when the backend reports no time
    meta: Bag)
}
