/** The pagination drain shared by every list operation: GET a path, append
    the decoded page to an accumulator, and follow the response's `next`
    cursor until it is empty; any failure aborts the whole drain.

    The server is represented by the replies it gives: `replies[k]` is the
    client's answer to the k-th request of the drain. The only thing asked
    of those replies is that one of them stops the drain (`Ends`), so every
    property below holds for every server that eventually stops it. */
module Pagination {
  import opened Okta

  /** The request a drain issues for one page. */
  function Get(category: Category, path: string): Req {
    Req(GET, path, NoBody, category)
  }

  /** A reply after which the drain issues no further request: a failure,
      or a page whose cursor is empty. */
  predicate Stops<T>(r: Reply<seq<T>>) {
    !r.Done? || |r.resp.next| == 0
  }

  /** Some reply in the script stops the drain; without this the drain, like
      the recursion it models, would run forever. */
  predicate Ends<T>(replies: seq<Reply<seq<T>>>)
    decreases |replies|
  {
    |replies| > 0 && (Stops(replies[0]) || Ends(replies[1..]))
  }

  /** The index of the reply that stops the drain. */
  function StopIndex<T>(replies: seq<Reply<seq<T>>>): (k: nat)
    requires Ends(replies)
    ensures k < |replies| && Stops(replies[k])
    ensures forall j :: 0 <= j < k ==> !Stops(replies[j])
    decreases |replies|
  {
    if Stops(replies[0]) then 0 else 1 + StopIndex(replies[1..])
  }

  /** The items a reply contributes to the accumulator. */
  function Items<T>(r: Reply<seq<T>>): seq<T> {
    if r.Done? then r.value else []
  }

  /** The items of several replies, concatenated in server order. */
  function Flatten<T>(replies: seq<Reply<seq<T>>>): seq<T>
    decreases |replies|
  {
    if |replies| == 0 then [] else Flatten(replies[..|replies| - 1]) + Items(replies[|replies| - 1])
  }

  /** The result of a failed drain: no items, no response, the error. */
  function Abort<T>(e: Error): Outcome<seq<T>> {
    Outcome(None, None, Some(e))
  }

  function Then<R>(earlier: seq<Req>, x: Exchange<R>): Exchange<R> {
    Exchange(earlier + x.requests, x.result)
  }

  /** What a drain from `path` with accumulator `acc` does, stated
      recursively as the source states it. */
  function Collect<T>(category: Category, path: string, acc: seq<T>, replies: seq<Reply<seq<T>>>): Exchange<Outcome<seq<T>>>
    requires Ends(replies)
    decreases |replies|
  {
    var req := Get(category, path);
    match replies[0]
    case BuildFailed(e) => Exchange([req], Abort(e))
    case DoFailed(e, _) => Exchange([req], Abort(e))
    case Done(items, resp) =>
      if |resp.next| == 0 then Exchange([req], Outcome(Some(acc + items), Some(resp), None))
      else Then([req], Collect(category, resp.next, acc + items, replies[1..]))
  }

  /** One page that does not stop the drain: its request, then the drain
      from its cursor with its items appended. */
  lemma CollectStep<T>(category: Category, path: string, acc: seq<T>, rest: seq<Reply<seq<T>>>)
    requires Ends(rest) && !Stops(rest[0])
    ensures Ends(rest[1..])
    ensures Collect(category, path, acc, rest)
      == Then([Get(category, path)], Collect(category, rest[0].resp.next, acc + rest[0].value, rest[1..]))
  {
  }

  /** The page that stops the drain: its request, then the result. */
  lemma CollectLast<T>(category: Category, path: string, acc: seq<T>, rest: seq<Reply<seq<T>>>)
    requires |rest| > 0 && Stops(rest[0])
    ensures Ends(rest)
    ensures Collect(category, path, acc, rest) == Exchange([Get(category, path)],
      if rest[0].Done? then Outcome(Some(acc + rest[0].value), Some(rest[0].resp), None) else Abort(rest[0].err))
  {
  }

  lemma ThenThen<R>(a: seq<Req>, b: seq<Req>, x: Exchange<R>)
    ensures Then(a, Then(b, x)) == Then(a + b, x)
  {
    assert a + (b + x.requests) == (a + b) + x.requests;
  }

  /** One turn of the drain loop: the page at `i` does not stop it, so its
      request joins those already sent and the drain goes on from its cursor. */
  lemma DrainStep<T>(category: Category, p: string, a: seq<T>, sent: seq<Req>, replies: seq<Reply<seq<T>>>, i: nat)
    requires i < |replies| && Ends(replies[i..]) && !Stops(replies[i])
    ensures i + 1 < |replies| && Ends(replies[i + 1..])
    ensures Then(sent, Collect(category, p, a, replies[i..]))
      == Then(sent + [Get(category, p)], Collect(category, replies[i].resp.next, a + replies[i].value, replies[i + 1..]))
  {
    var rest := replies[i..];
    assert rest[0] == replies[i] && rest[1..] == replies[i + 1..];
    CollectStep(category, p, a, rest);
    ThenThen(sent, [Get(category, p)], Collect(category, replies[i].resp.next, a + replies[i].value, rest[1..]));
  }

  /** The drain as a loop over the pages, holding a growing accumulator. */
  method Drain<T>(category: Category, path: string, acc: seq<T>, replies: seq<Reply<seq<T>>>)
    returns (x: Exchange<Outcome<seq<T>>>)
    requires Ends(replies)
    ensures x == Collect(category, path, acc, replies)
    ensures x.result.value.Some? ==>
      |x.requests| <= |replies| && x.result.value.value == acc + Flatten(replies[..|x.requests|])
  {
    var i: nat, p, a, sent := 0, path, acc, [];
    while !Stops(replies[i])
      invariant i < |replies| && Ends(replies[i..])
      invariant |sent| == i
      invariant a == acc + Flatten(replies[..i])
      invariant Collect(category, path, acc, replies) == Then(sent, Collect(category, p, a, replies[i..]))
      decreases |replies| - i
    {
      var page := replies[i];
      DrainStep(category, p, a, sent, replies, i);
      FlattenPrefix(replies, i);
      assert a + page.value == acc + (Flatten(replies[..i]) + Items(page));
      sent := sent + [Get(category, p)];
      a := a + page.value;
      p := page.resp.next;
      i := i + 1;
    }
    var page := replies[i];
    DrainLast(category, p, a, sent, replies, i);
    x := Exchange(sent + [Get(category, p)], Finish(a, page));
    assert |x.requests| == i + 1;
    if page.Done? {
      FlattenPrefix(replies, i);
      assert a + page.value == acc + (Flatten(replies[..i]) + Items(page));
    }
  }

  /** What the page that stops the drain makes of the accumulator. */
  function Finish<T>(a: seq<T>, page: Reply<seq<T>>): Outcome<seq<T>> {
    if page.Done? then Outcome(Some(a + page.value), Some(page.resp), None) else Abort(page.err)
  }

  /** The last turn: the page at `i` stops the drain. */
  lemma DrainLast<T>(category: Category, p: string, a: seq<T>, sent: seq<Req>, replies: seq<Reply<seq<T>>>, i: nat)
    requires i < |replies| && Stops(replies[i])
    ensures Ends(replies[i..])
    ensures Then(sent, Collect(category, p, a, replies[i..])) == Exchange(sent + [Get(category, p)], Finish(a, replies[i]))
  {
    assert replies[i..][0] == replies[i];
    CollectLast(category, p, a, replies[i..]);
  }

  /** Extending a prefix of the replies by one appends that reply's items. */
  lemma FlattenPrefix<T>(replies: seq<Reply<seq<T>>>, i: nat)
    requires i < |replies|
    ensures Flatten(replies[..i + 1]) == Flatten(replies[..i]) + Items(replies[i])
  {
    assert replies[..i + 1][..i] == replies[..i] && replies[..i + 1][i] == replies[i];
  }

  lemma {:induction false} FlattenAppend<T>(s: seq<Reply<seq<T>>>, t: seq<Reply<seq<T>>>)
    ensures Flatten(s + t) == Flatten(s) + Flatten(t)
    decreases |t|
  {
    if |t| == 0 {
      assert s + t == s;
    } else {
      var t' := t[..|t| - 1];
      var u := s + t;
      assert u[..|u| - 1] == s + t';
      assert u[|u| - 1] == t[|t| - 1];
      FlattenAppend(s, t');
      assert Flatten(u) == Flatten(u[..|u| - 1]) + Items(u[|u| - 1]);
      assert Flatten(t) == Flatten(t') + Items(t[|t| - 1]);
    }
  }

  lemma {:induction false} FlattenFirst<T>(s: seq<Reply<seq<T>>>)
    requires |s| > 0
    ensures Flatten(s) == Items(s[0]) + Flatten(s[1..])
  {
    var one := [s[0]];
    FlattenAppend(one, s[1..]);
    assert one + s[1..] == s;
    assert one[..0] == [] && Flatten(one[..0]) == [];
    assert Flatten(one) == Flatten(one[..0]) + Items(one[0]);
  }

  /** Exactly one request per page up to and including the page that stops
      the drain, none after it; the first goes to `path`, every later one to
      the previous response's cursor, and all are bodiless GETs in the
      caller's category. */
  lemma {:induction false} CollectRequests<T>(category: Category, path: string, acc: seq<T>, replies: seq<Reply<seq<T>>>)
    requires Ends(replies)
    ensures var x := Collect(category, path, acc, replies);
      && |x.requests| == StopIndex(replies) + 1
      && x.requests[0] == Get(category, path)
      && (forall j :: 0 <= j < StopIndex(replies) ==> x.requests[j + 1] == Get(category, replies[j].resp.next))
      && (forall j :: 0 <= j < |x.requests| ==> x.requests[j].verb == GET && x.requests[j].body == NoBody && x.requests[j].category == category)
    decreases |replies|
  {
    if !Stops(replies[0]) {
      var r := replies[0];
      var tail := replies[1..];
      var rest := Collect(category, r.resp.next, acc + r.value, tail);
      CollectRequests(category, r.resp.next, acc + r.value, tail);
      var x := Collect(category, path, acc, replies);
      assert x.requests == [Get(category, path)] + rest.requests;
      forall j | 0 <= j < StopIndex(replies)
        ensures x.requests[j + 1] == Get(category, replies[j].resp.next)
      {
        if j > 0 {
          assert tail[j - 1] == replies[j];
        }
      }
    }
  }

  /** The drain succeeds exactly when the page that stops it was fetched;
      it then returns the accumulator followed by every page's items in
      server order, with the last response. Otherwise it returns that page's
      error and neither items nor a response: what was gathered is dropped. */
  lemma {:induction false} CollectResult<T>(category: Category, path: string, acc: seq<T>, replies: seq<Reply<seq<T>>>)
    requires Ends(replies)
    ensures var k := StopIndex(replies);
      var o := Collect(category, path, acc, replies).result;
      if replies[k].Done?
      then o == Outcome(Some(acc + Flatten(replies[..k + 1])), Some(replies[k].resp), None)
      else o == Abort(replies[k].err)
    decreases |replies|
  {
    var k := StopIndex(replies);
    var r := replies[0];
    if Stops(r) {
      CollectLast(category, path, acc, replies);
      var first := replies[..1];
      assert first[..0] == [] && Flatten(first[..0]) == [] && first[0] == r;
      assert Flatten(first) == Flatten(first[..0]) + Items(first[0]);
      assert k == 0 && Flatten(first) == Items(r);
    } else {
      var tail := replies[1..];
      CollectStep(category, path, acc, replies);
      CollectResult(category, r.resp.next, acc + r.value, tail);
      FlattenShift(replies, k);
      assert tail[k - 1] == replies[k];
      assert acc + r.value + Flatten(tail[..k]) == acc + (r.value + Flatten(tail[..k]));
    }
  }

  lemma FlattenShift<T>(replies: seq<Reply<seq<T>>>, k: nat)
    requires 0 < k < |replies| && replies[0].Done?
    ensures Flatten(replies[..k + 1]) == replies[0].value + Flatten(replies[1..][..k])
  {
    var prefix := replies[..k + 1];
    FlattenFirst(prefix);
    assert prefix[0] == replies[0] && prefix[1..] == replies[1..][..k];
  }

  /** Replies after the one that stops the drain are never looked at. */
  lemma {:induction false} CollectIgnoresLaterReplies<T>(category: Category, path: string, acc: seq<T>, replies: seq<Reply<seq<T>>>)
    requires Ends(replies)
    ensures Ends(replies[..StopIndex(replies) + 1])
    ensures Collect(category, path, acc, replies[..StopIndex(replies) + 1]) == Collect(category, path, acc, replies)
    decreases |replies|
  {
    var k := StopIndex(replies);
    var short := replies[..k + 1];
    assert short[0] == replies[0];
    if !Stops(replies[0]) {
      var r := replies[0];
      var tail := replies[1..];
      CollectIgnoresLaterReplies(category, r.resp.next, acc + r.value, tail);
      assert short[1..] == tail[..StopIndex(tail) + 1];
    }
  }

  /** A successful drain returns the initial accumulator as a prefix. */
  lemma CollectKeepsAccumulator<T>(category: Category, path: string, acc: seq<T>, replies: seq<Reply<seq<T>>>)
    requires Ends(replies)
    ensures var o := Collect(category, path, acc, replies).result;
      o.value.Some? ==> |acc| <= |o.value.value| && acc == o.value.value[..|acc|]
  {
    CollectResult(category, path, acc, replies);
  }

  /** One page with an empty cursor: one request, that page's items. */
  lemma CollectSinglePage<T>(category: Category, path: string, acc: seq<T>, replies: seq<Reply<seq<T>>>)
    requires |replies| > 0 && replies[0].Done? && replies[0].resp.next == ""
    ensures Ends(replies)
    ensures Collect(category, path, acc, replies)
      == Exchange([Get(category, path)], Outcome(Some(acc + replies[0].value), Some(replies[0].resp), None))
  {
  }

  /** A well-behaved server: every page succeeds and carries a cursor
      exactly when another page follows it. */
  predicate WellFormed<T>(pages: seq<Reply<seq<T>>>) {
    && |pages| > 0
    && (forall j :: 0 <= j < |pages| ==> pages[j].Done?)
    && (forall j :: 0 <= j < |pages| ==> (|pages[j].resp.next| == 0 <==> j == |pages| - 1))
  }

  lemma {:induction false} EndsAt<T>(replies: seq<Reply<seq<T>>>, k: nat)
    requires k < |replies| && Stops(replies[k])
    ensures Ends(replies)
    decreases k
  {
    if k > 0 && !Stops(replies[0]) {
      assert replies[1..][k - 1] == replies[k];
      EndsAt(replies[1..], k - 1);
    }
  }

  /** Against a well-behaved server of N pages the drain issues N requests
      and returns every page's items in order. */
  lemma CollectAllPages<T>(category: Category, path: string, acc: seq<T>, pages: seq<Reply<seq<T>>>)
    requires WellFormed(pages)
    ensures Ends(pages)
    ensures var x := Collect(category, path, acc, pages);
      && |x.requests| == |pages|
      && x.result == Outcome(Some(acc + Flatten(pages)), Some(pages[|pages| - 1].resp), None)
  {
    var n := |pages|;
    EndsAt(pages, n - 1);
    assert StopIndex(pages) == n - 1;
    assert pages[..n] == pages;
    CollectRequests(category, path, acc, pages);
    CollectResult(category, path, acc, pages);
  }

  lemma {:induction false} FlattenUniform<T>(pages: seq<Reply<seq<T>>>, size: nat)
    requires forall j :: 0 <= j < |pages| ==> |Items(pages[j])| == size
    ensures |Flatten(pages)| == |pages| * size
    decreases |pages|
  {
    if |pages| > 0 {
      FlattenUniform(pages[..|pages| - 1], size);
    }
  }

  /** N well-formed pages of `size` items each yield N * size items. */
  lemma CollectCountsItems<T>(category: Category, path: string, pages: seq<Reply<seq<T>>>, size: nat)
    requires WellFormed(pages)
    requires forall j :: 0 <= j < |pages| ==> |Items(pages[j])| == size
    ensures Ends(pages)
    ensures var o := Collect(category, path, [], pages).result;
      o.value.Some? && |o.value.value| == |pages| * size
  {
    CollectAllPages(category, path, [], pages);
    FlattenUniform(pages, size);
  }

  /** If page m fails after m good pages, the drain fails with page m's
      error after exactly m + 1 requests. */
  lemma CollectFailsAtPage<T>(category: Category, path: string, acc: seq<T>, replies: seq<Reply<seq<T>>>, m: nat)
    requires m < |replies| && !replies[m].Done?
    requires forall j :: 0 <= j < m ==> replies[j].Done? && |replies[j].resp.next| > 0
    ensures Ends(replies)
    ensures var x := Collect(category, path, acc, replies);
      |x.requests| == m + 1 && x.result == Abort(replies[m].err)
  {
    EndsAt(replies, m);
    assert StopIndex(replies) == m;
    CollectRequests(category, path, acc, replies);
    CollectResult(category, path, acc, replies);
  }
}
