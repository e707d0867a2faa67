/** The traversal every adapter's List (and qingstor's ListSegments) performs:
    request a page, convert its entries in backend order, hand each to the
    callback, abort on the first error, stop when the page ends the listing.
    Each adapter turns its backend pages into Replies; this module says what
    any such traversal delivers, and proves it against a reference definition. */
module Listing {
  import opened Wrappers
  import opened Errors

  /** One backend answer: either the page's entries, each already converted
      (or the error its conversion raised), and whether the page ends the
      listing; or the error of the page request itself. */
  datatype Reply<T> = Page(items: seq<Result<T>>, last: bool) | Failed(cause: Error)

  /** What a traversal produced: the values handed to the callback in order,
      the error it returned (None for nil) and how many pages it requested. */
  datatype Outcome<T> = Outcome(delivered: seq<T>, err: Option<Error>, requests: nat)

  /** The position of the first entry that failed to convert, or |items|. */
  function FirstErr<T>(items: seq<Result<T>>): (k: nat)
    ensures k <= |items|
    ensures forall i :: 0 <= i < k ==> items[i].Ok?
    ensures k < |items| ==> items[k].Err?
  {
    if items == [] then 0
    else if items[0].Err? then 0
    else 1 + FirstErr(items[1..])
  }

  /** The values of entries that all converted. */
  function Values<T>(items: seq<Result<T>>): (vs: seq<T>)
    requires forall i :: 0 <= i < |items| ==> items[i].Ok?
    ensures |vs| == |items|
    ensures forall i :: 0 <= i < |items| ==> items[i] == Ok(vs[i])
  {
    seq(|items|, i requires 0 <= i < |items| => items[i].value)
  }

  /** The inner loop over one page: the entries before the first failure are
      delivered, and that failure (if any) is returned. */
  function DeliverPage<T>(items: seq<Result<T>>): (r: (seq<T>, Option<Error>))
    ensures |r.0| == FirstErr(items) <= |items|
    ensures forall i :: 0 <= i < |r.0| ==> items[i] == Ok(r.0[i])
    ensures r.1.None? <==> |r.0| == |items|
    ensures r.1.Some? ==> items[|r.0|] == Err(r.1.value)
  {
    var k := FirstErr(items);
    (Values(items[..k]), if k < |items| then Some(items[k].error) else None)
  }

  /** The outer loop: one request per reply until a reply fails, an entry
      fails, or a page ends the listing. */
  function Traverse<T>(replies: seq<Reply<T>>): (r: Outcome<T>)
    ensures r.requests <= |replies|
    ensures replies != [] ==> r.requests >= 1
  {
    if replies == [] then Outcome([], None, 0)
    else
      match replies[0]
      case Failed(cause) => Outcome([], Some(cause), 1)
      case Page(items, last) =>
        var page := DeliverPage(items);
        if page.1.Some? || last then Outcome(page.0, page.1, 1)
        else
          var rest := Traverse(replies[1..]);
          Outcome(page.0 + rest.delivered, rest.err, 1 + rest.requests)
  }

  /** A reply that ends the traversal by itself. */
  predicate Stops<T>(reply: Reply<T>)
  {
    reply.Failed? || reply.last
  }

  // ---- The reference definition: what the backend reports, read as one list.

  /** Every entry the backend reports, in backend order, across the pages up
      to the one that ends the listing (a failed request reports none). */
  function Visible<T>(replies: seq<Reply<T>>): seq<Result<T>>
  {
    if replies == [] then []
    else
      match replies[0]
      case Failed(_) => []
      case Page(items, last) => if last then items else items + Visible(replies[1..])
  }

  /** The error of the first failed request before the listing ends, if any. */
  function RequestFailure<T>(replies: seq<Reply<T>>): Option<Error>
  {
    if replies == [] then None
    else
      match replies[0]
      case Failed(cause) => Some(cause)
      case Page(_, last) => if last then None else RequestFailure(replies[1..])
  }

  lemma {:induction false} FirstErrAppend<T>(a: seq<Result<T>>, b: seq<Result<T>>)
    requires FirstErr(a) == |a|
    ensures FirstErr(a + b) == |a| + FirstErr(b)
  {
    if a != [] {
      assert (a + b)[1..] == a[1..] + b;
      FirstErrAppend(a[1..], b);
    } else {
      assert a + b == b;
    }
  }

  lemma {:induction false} FirstErrPrefix<T>(a: seq<Result<T>>, b: seq<Result<T>>)
    requires FirstErr(a) < |a|
    ensures FirstErr(a + b) == FirstErr(a)
  {
    if a[0].Ok? {
      assert (a + b)[1..] == a[1..] + b;
      FirstErrPrefix(a[1..], b);
    }
  }

  /** What a traversal does, stated against the reference list: it delivers
      exactly the converted entries that precede the first entry that fails
      to convert, in backend order; it returns that entry's error, or else the
      error of a failed request, or nil. */
  lemma {:induction false} TraverseDelivers<T>(replies: seq<Reply<T>>)
    ensures var v := Visible(replies);
            var k := FirstErr(v);
            var r := Traverse(replies);
            && r.delivered == Values(v[..k])
            && (k < |v| ==> r.err == Some(v[k].error))
            && (k == |v| ==> r.err == RequestFailure(replies))
  {
    if replies != [] && replies[0].Page? && !replies[0].last {
      if FirstErr(replies[0].items) < |replies[0].items| {
        DeliversWhenPageFails(replies);
      } else {
        TraverseDelivers(replies[1..]);
        DeliversAfterPage(replies);
      }
    }
  }

  /** TraverseDelivers' statement, for one sequence of replies. */
  ghost predicate DeliversReference<T>(replies: seq<Reply<T>>)
  {
    var v := Visible(replies);
    var k := FirstErr(v);
    var r := Traverse(replies);
    && r.delivered == Values(v[..k])
    && (k < |v| ==> r.err == Some(v[k].error))
    && (k == |v| ==> r.err == RequestFailure(replies))
  }

  /** The first page goes on but one of its entries fails to convert. */
  lemma DeliversWhenPageFails<T>(replies: seq<Reply<T>>)
    requires replies != [] && replies[0].Page? && !replies[0].last
    requires FirstErr(replies[0].items) < |replies[0].items|
    ensures DeliversReference(replies)
  {
    Unfold(replies);
    FailsInFirst(replies[0].items, Visible(replies[1..]));
  }

  /** The first page goes on and converts entirely: what holds of the later
      replies holds of all of them. */
  lemma DeliversAfterPage<T>(replies: seq<Reply<T>>)
    requires replies != [] && replies[0].Page? && !replies[0].last
    requires FirstErr(replies[0].items) == |replies[0].items|
    requires DeliversReference(replies[1..])
    ensures DeliversReference(replies)
  {
    Unfold(replies);
    AllOkThen(replies[0].items, Visible(replies[1..]));
  }

  /** A page that does not end the listing: the reference list goes on with
      the later replies, and so does the traversal when the page converts. */
  lemma Unfold<T>(replies: seq<Reply<T>>)
    requires replies != [] && replies[0].Page? && !replies[0].last
    ensures var items := replies[0].items;
            && Visible(replies) == items + Visible(replies[1..])
            && RequestFailure(replies) == RequestFailure(replies[1..])
            && (FirstErr(items) < |items| ==>
                  Traverse(replies) == Outcome(Values(items[..FirstErr(items)]), Some(items[FirstErr(items)].error), 1))
            && (FirstErr(items) == |items| ==>
                  var rest := Traverse(replies[1..]);
                  Traverse(replies) == Outcome(Values(items) + rest.delivered, rest.err, 1 + rest.requests))
  {
    var items := replies[0].items;
    if FirstErr(items) == |items| {
      DeliverPageAll(items);
    }
  }

  /** An entry of the first run fails: the second run is never reached. */
  lemma FailsInFirst<T>(a: seq<Result<T>>, b: seq<Result<T>>)
    requires FirstErr(a) < |a|
    ensures var j := FirstErr(a);
            FirstErr(a + b) == j && (a + b)[..j] == a[..j] && (a + b)[j] == a[j]
  {
    FirstErrPrefix(a, b);
  }

  /** The first run converts entirely: what is delivered of the two runs is
      the first run, then what is delivered of the second. */
  lemma AllOkThen<T>(a: seq<Result<T>>, b: seq<Result<T>>)
    requires FirstErr(a) == |a|
    ensures var k := FirstErr(b);
            && FirstErr(a + b) == |a| + k
            && Values((a + b)[..|a| + k]) == Values(a) + Values(b[..k])
            && (k < |b| ==> (a + b)[|a| + k] == b[k])
  {
    FirstErrAppend(a, b);
    var k := FirstErr(b);
    assert (a + b)[..|a| + k] == a + b[..k];
    ValuesAppend(a, b[..k]);
    assert a[..|a|] == a;
  }

  /** A page whose leading entries all convert: they are delivered, then
      what the rest of the page delivers. */
  lemma DeliverPageAfter<T>(a: seq<Result<T>>, b: seq<Result<T>>)
    requires FirstErr(a) == |a|
    ensures DeliverPage(a + b) == (Values(a) + DeliverPage(b).0, DeliverPage(b).1)
  {
    var k := FirstErr(b);
    AllOkThen(a, b);
    assert DeliverPage(b).0 == Values(b[..k]);
    assert DeliverPage(a + b).0 == Values((a + b)[..|a| + k]);
    if k < |b| {
      assert DeliverPage(a + b).1 == Some(b[k].error) == DeliverPage(b).1;
    } else {
      assert DeliverPage(a + b).1 == None == DeliverPage(b).1;
    }
  }

  /** Hence: the traversal succeeds exactly when no request fails and every
      reported entry converts, and then every entry is delivered once, in order. */
  lemma TraverseSucceeds<T>(replies: seq<Reply<T>>)
    ensures Traverse(replies).err.None? <==>
            RequestFailure(replies).None? && FirstErr(Visible(replies)) == |Visible(replies)|
    ensures Traverse(replies).err.None? ==>
            Traverse(replies).delivered == Values(Visible(replies))
  {
    TraverseDelivers(replies);
    var v := Visible(replies);
    assert v[..|v|] == v;
  }

  /** Replies after the one that ends the listing are never requested. */
  lemma {:induction false} TraverseIgnoresRest<T>(replies: seq<Reply<T>>, n: nat, more: seq<Reply<T>>)
    requires n < |replies| && Stops(replies[n])
    ensures Traverse(replies[..n + 1] + more) == Traverse(replies[..n + 1])
  {
    var a := replies[..n + 1];
    assert (a + more)[0] == a[0];
    if n > 0 && a[0].Page? && !a[0].last && DeliverPage(a[0].items).1.None? {
      assert (a + more)[1..] == replies[1..][..n] + more;
      assert a[1..] == replies[1..][..n];
      TraverseIgnoresRest(replies[1..], n - 1, more);
    }
  }

  /** A reply that ends the traversal by itself or through its entries: a
      failed request, the last page, or a page with an entry that fails to
      convert. */
  predicate Ends<T>(reply: Reply<T>)
  {
    reply.Failed? || reply.last || FirstErr(reply.items) < |reply.items|
  }

  /** The traversal requests every page up to and including the first reply
      that ends it, and no more. */
  lemma {:induction false} TraverseRequests<T>(replies: seq<Reply<T>>, n: nat)
    requires n < |replies| && Ends(replies[n])
    requires forall k :: 0 <= k < n ==> !Ends(replies[k])
    ensures Traverse(replies).requests == n + 1
  {
    if n > 0 {
      assert !Ends(replies[0]);
      forall k | 0 <= k < n - 1
        ensures !Ends(replies[1..][k])
      {
        assert replies[1..][k] == replies[k + 1];
      }
      TraverseRequests(replies[1..], n - 1);
    }
  }

  // ---- Steps of the loops that implement a traversal.

  /** One step of the outer loop: what the traversal from reply i on does
      with reply i. */
  lemma TraverseAt<T>(replies: seq<Reply<T>>, i: nat)
    requires i < |replies|
    ensures replies[i].Failed? ==> Traverse(replies[i..]) == Outcome([], Some(replies[i].cause), 1)
    ensures replies[i].Page? ==>
              var page := DeliverPage(replies[i].items);
              Traverse(replies[i..]) ==
                if page.1.Some? || replies[i].last then Outcome(page.0, page.1, 1)
                else
                  var rest := Traverse(replies[i + 1..]);
                  Outcome(page.0 + rest.delivered, rest.err, 1 + rest.requests)
  {
    assert replies[i..][0] == replies[i];
    assert replies[i..][1..] == replies[i + 1..];
  }

  /** The inner loop stops at entry j, the first that fails to convert. */
  lemma DeliverPageFailsAt<T>(items: seq<Result<T>>, j: nat)
    requires j < |items| && j <= FirstErr(items) && items[j].Err?
    ensures DeliverPage(items) == (Values(items[..j]), Some(items[j].error))
  {
  }

  /** The inner loop converted every entry. */
  lemma DeliverPageAll<T>(items: seq<Result<T>>)
    requires FirstErr(items) == |items|
    ensures DeliverPage(items) == (Values(items), None)
  {
    assert items[..|items|] == items;
  }

  /** Appending the next converted entry to those already delivered. */
  lemma ValuesSnoc<T>(items: seq<Result<T>>, j: nat)
    requires j < |items| && forall i :: 0 <= i <= j ==> items[i].Ok?
    ensures Values(items[..j + 1]) == Values(items[..j]) + [items[j].value]
  {
    var l, r := Values(items[..j + 1]), Values(items[..j]) + [items[j].value];
    forall k | 0 <= k < |l|
      ensures l[k] == r[k]
    {
      assert items[..j + 1][k] == items[k];
      if k < j {
        assert items[..j][k] == items[k];
      }
    }
  }

  /** Values of two runs of converted entries, one after the other. */
  lemma ValuesAppend<T>(a: seq<Result<T>>, b: seq<Result<T>>)
    requires forall i :: 0 <= i < |a| ==> a[i].Ok?
    requires forall i :: 0 <= i < |b| ==> b[i].Ok?
    ensures Values(a + b) == Values(a) + Values(b)
  {
    var l, r := Values(a + b), Values(a) + Values(b);
    forall i | 0 <= i < |l|
      ensures l[i] == r[i]
    {
      if i < |a| {
        assert (a + b)[i] == a[i];
      } else {
        assert (a + b)[i] == b[i - |a|];
      }
    }
  }

  // ---- The outer loop's invariant and its steps.

  /** After i requests that delivered `delivered`, the rest of the traversal
      is what the replies from i on produce. */
  ghost predicate Progress<T>(replies: seq<Reply<T>>, i: nat, delivered: seq<T>)
    requires i <= |replies|
  {
    var o := Traverse(replies[i..]);
    Traverse(replies) == Outcome(delivered + o.delivered, o.err, i + o.requests)
  }

  lemma ProgressStart<T>(replies: seq<Reply<T>>)
    ensures Progress(replies, 0, [])
  {
    assert replies[0..] == replies;
  }

  /** The i-th request failed: the traversal ends with its error. */
  lemma StepFailed<T>(replies: seq<Reply<T>>, i: nat, delivered: seq<T>)
    requires i < |replies| && Progress(replies, i, delivered) && replies[i].Failed?
    ensures Traverse(replies) == Outcome(delivered, Some(replies[i].cause), i + 1)
  {
    TraverseAt(replies, i);
  }

  /** The i-th page was delivered as DeliverPage says: the traversal ends
      there when an entry failed or the page is the last; otherwise it goes
      on with the next request. */
  lemma StepPage<T>(replies: seq<Reply<T>>, i: nat, delivered: seq<T>, got: seq<T>, e: Option<Error>)
    requires i < |replies| && Progress(replies, i, delivered) && replies[i].Page?
    requires (got, e) == DeliverPage(replies[i].items)
    ensures e.Some? || replies[i].last ==> Traverse(replies) == Outcome(delivered + got, e, i + 1)
    ensures e.None? && !replies[i].last && i + 1 < |replies| ==> Progress(replies, i + 1, delivered + got)
  {
    TraverseAt(replies, i);
  }

  // ---- The inner loop's invariant and its steps.

  /** The first j entries of a page were converted and handed over, in order. */
  ghost predicate Delivered<T>(items: seq<Result<T>>, j: nat, delivered: seq<T>)
  {
    j <= |items| && j <= FirstErr(items) && delivered == Values(items[..j])
  }

  lemma DeliverStart<T>(items: seq<Result<T>>)
    ensures Delivered(items, 0, [])
  {
  }

  /** Entry j fails, ending the page with its error, or is handed over too. */
  lemma DeliverNext<T>(items: seq<Result<T>>, j: nat, delivered: seq<T>)
    requires j < |items| && Delivered(items, j, delivered)
    ensures items[j].Err? ==> DeliverPage(items) == (delivered, Some(items[j].error))
    ensures items[j].Ok? ==> Delivered(items, j + 1, delivered + [items[j].value])
  {
    if items[j].Err? {
      DeliverPageFailsAt(items, j);
    } else {
      ValuesSnoc(items, j);
    }
  }

  /** Every entry was handed over. */
  lemma DeliverDone<T>(items: seq<Result<T>>, delivered: seq<T>)
    requires Delivered(items, |items|, delivered)
    ensures DeliverPage(items) == (delivered, None)
  {
    DeliverPageAll(items);
  }
}
