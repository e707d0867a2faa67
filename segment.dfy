/** A multipart upload ("segment") and its parts. */
module Segments {

  /** One uploaded byte range, identified by its starting offset. */
  datatype Part = Part(offset: int, size: int)

  /** An in-flight upload: backend key, backend upload ID, the part size it was
      started with, and the parts written so far, keyed by offset. A Go nil
      part map is the empty map here: both have no entries. */
  datatype Segment = Segment(path: string, id: string, partSize: int, parts: map<int, Part>)

  /** Every part sits under its own offset. */
  predicate WellKeyed(parts: map<int, Part>)
  {
    forall k :: k in parts ==> parts[k].offset == k
  }

  /** NewSegment(path, id, partSize): an upload with no parts yet. */
  function NewSegment(path: string, id: string, partSize: int): (s: Segment)
    ensures s.path == path && s.id == id && s.partSize == partSize
    ensures |s.parts| == 0 && WellKeyed(s.parts)
  {
    Segment(path, id, partSize, map[])
  }

  /** Record a written part: it is inserted at its offset, replacing any part
      already there; every other part is kept. */
  function InsertPart(s: Segment, offset: int, size: int): (r: Segment)
    ensures r.path == s.path && r.id == s.id && r.partSize == s.partSize
    ensures r.parts.Keys == s.parts.Keys + {offset}
    ensures r.parts[offset] == Part(offset, size)
    ensures forall k :: k in s.parts && k != offset ==> r.parts[k] == s.parts[k]
    ensures WellKeyed(s.parts) ==> WellKeyed(r.parts)
  {
    s.(parts := s.parts[offset := Part(offset, size)])
  }

  /** Writing the same offset twice leaves one part there, the later one. */
  lemma InsertPartTwice(s: Segment, offset: int, size1: int, size2: int)
    ensures InsertPart(InsertPart(s, offset, size1), offset, size2) == InsertPart(s, offset, size2)
  {
  }

  /** Every finite non-empty set of offsets has a least element. */
  lemma {:induction false} HasMinimum(ks: set<int>)
    requires |ks| > 0
    ensures exists m :: m in ks && forall k :: k in ks ==> m <= k
    decreases |ks|
  {
    if forall y :: y !in ks {
      assert false;
    }
    var x :| x in ks;
    var rest := ks - {x};
    if |rest| == 0 {
      assert forall k :: k in ks ==> k == x;
      assert forall k :: k in ks ==> x <= k;
    } else {
      HasMinimum(rest);
      var m :| m in rest && forall k :: k in rest ==> m <= k;
      assert forall k :: k in ks ==> k == x || k in rest;
      var least := if x < m then x else m;
      assert least in ks && forall k :: k in ks ==> least <= k;
    }
  }

  /** The least offset. */
  function MinOffset(ks: set<int>): (m: int)
    requires |ks| > 0
    ensures m in ks && forall k :: k in ks ==> m <= k
  {
    HasMinimum(ks);
    var m :| m in ks && forall k :: k in ks ==> m <= k; m
  }

  /** Strictly increasing offsets. */
  predicate Ascending(ps: seq<Part>)
  {
    forall i, j :: 0 <= i < j < |ps| ==> ps[i].offset < ps[j].offset
  }

  /** The sequence lists exactly the parts of the map, each once. */
  predicate Enumerates(ps: seq<Part>, parts: map<int, Part>)
  {
    && |ps| == |parts|
    && (forall i :: 0 <= i < |ps| ==> ps[i].offset in parts && parts[ps[i].offset] == ps[i])
    && (forall k :: k in parts ==> parts[k] in ps)
  }

  /** Putting the least part in front of an enumeration of the others. */
  lemma SortedStep(parts: map<int, Part>, m: int, tail: seq<Part>)
    requires WellKeyed(parts)
    requires m in parts && forall k :: k in parts ==> m <= k
    requires Ascending(tail) && Enumerates(tail, parts - {m})
    ensures Ascending([parts[m]] + tail) && Enumerates([parts[m]] + tail, parts)
  {
    LeastInFront(parts, m, tail);
    EnumeratesCons(parts, m, tail);
  }

  /** Any part in front of an enumeration of the others enumerates them all. */
  lemma EnumeratesCons(parts: map<int, Part>, m: int, tail: seq<Part>)
    requires WellKeyed(parts) && m in parts && Enumerates(tail, parts - {m})
    ensures Enumerates([parts[m]] + tail, parts)
  {
    var rest := parts - {m};
    var r := [parts[m]] + tail;
    assert rest.Keys == parts.Keys - {m};
    assert |rest.Keys| == |parts.Keys| - 1;
    forall i | 0 <= i < |r|
      ensures r[i].offset in parts && parts[r[i].offset] == r[i]
    {
      if i > 0 {
        assert r[i] == tail[i - 1];
        assert tail[i - 1].offset in rest;
      } else {
        assert r[0] == parts[m];
      }
    }
    forall k | k in parts
      ensures parts[k] in r
    {
      if k != m {
        assert k in rest;
        var i :| 0 <= i < |tail| && tail[i] == rest[k];
        assert r[i + 1] == tail[i];
      }
    }
  }

  /** The least part in front keeps the offsets strictly increasing. */
  lemma LeastInFront(parts: map<int, Part>, m: int, tail: seq<Part>)
    requires WellKeyed(parts)
    requires m in parts && forall k :: k in parts ==> m <= k
    requires Ascending(tail) && Enumerates(tail, parts - {m})
    ensures Ascending([parts[m]] + tail)
  {
    var r := [parts[m]] + tail;
    forall i | 0 <= i < |tail|
      ensures m < tail[i].offset
    {
      assert tail[i].offset in parts - {m};
    }
    forall i, j | 0 <= i < j < |r|
      ensures r[i].offset < r[j].offset
    {
      assert r[j] == tail[j - 1];
      if i > 0 {
        assert r[i] == tail[i - 1];
      }
    }
  }

  /** The parts ordered ascending by offset, as completion hands them to the
      backend: strictly increasing offsets, and exactly the parts of the map. */
  function SortedParts(parts: map<int, Part>): (r: seq<Part>)
    requires WellKeyed(parts)
    ensures Ascending(r) && Enumerates(r, parts)
    decreases |parts|
  {
    if |parts| == 0 then []
    else
      var m := MinOffset(parts.Keys);
      var rest := parts - {m};
      assert rest.Keys == parts.Keys - {m};
      var tail := SortedParts(rest);
      SortedStep(parts, m, tail);
      [parts[m]] + tail
  }

  /** An ascending enumeration starts with the least part; what follows
      enumerates the others. */
  lemma DropLeast(parts: map<int, Part>, ps: seq<Part>, m: int)
    requires WellKeyed(parts)
    requires m in parts && forall k :: k in parts ==> m <= k
    requires Ascending(ps) && Enumerates(ps, parts)
    ensures ps != [] && ps[0] == parts[m]
    ensures Ascending(ps[1..]) && Enumerates(ps[1..], parts - {m})
  {
    var rest := parts - {m};
    assert rest.Keys == parts.Keys - {m};
    assert parts[m] in ps;
    var j :| 0 <= j < |ps| && ps[j] == parts[m];
    assert ps[0].offset in parts;
    assert j == 0;
    var tail := ps[1..];
    forall i | 0 <= i < |tail|
      ensures tail[i].offset in rest && rest[tail[i].offset] == tail[i]
    {
      assert tail[i] == ps[i + 1];
      assert ps[0].offset < ps[i + 1].offset;
    }
    forall k | k in rest
      ensures rest[k] in tail
    {
      assert parts[k] in ps;
      var i :| 0 <= i < |ps| && ps[i] == parts[k];
      assert i != 0;
      assert tail[i - 1] == ps[i];
    }
  }

  lemma HeadTail(ps: seq<Part>)
    requires ps != []
    ensures ps == [ps[0]] + ps[1..]
  {
  }

  /** One step of SortedParts: the least part, then the others sorted. */
  lemma SortedPartsUnfold(parts: map<int, Part>)
    requires WellKeyed(parts) && |parts| > 0
    ensures var m := MinOffset(parts.Keys);
            WellKeyed(parts - {m}) && SortedParts(parts) == [parts[m]] + SortedParts(parts - {m})
  {
  }

  /** Ascending by offset and listing the same parts determines the list:
      the order completion uses is the only possible one. */
  lemma {:induction false} SortedPartsUnique(parts: map<int, Part>, ps: seq<Part>)
    requires WellKeyed(parts)
    requires Ascending(ps) && Enumerates(ps, parts)
    ensures ps == SortedParts(parts)
    decreases |parts|
  {
    if |parts| > 0 {
      var m := MinOffset(parts.Keys);
      var rest := parts - {m};
      assert rest.Keys == parts.Keys - {m};
      DropLeast(parts, ps, m);
      SortedPartsUnique(rest, ps[1..]);
      SortedPartsUnfold(parts);
      HeadTail(ps);
    }
  }
}
