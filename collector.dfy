/** The paginated collector of mf.py: `_get_mf_chunk` turns one page of a
    resource class's listing into metafield records, and `get_mf_for` walks
    the listing page by page until a page says there is no next one.

    The remote API is a listing, a sequence of pages. `cls.find` yields page
    0 and `next_page` on page k yields page k + 1. Every remote call goes
    through the retry wrapper, and the attempts of all calls come, in call
    order, from one stream `net` of attempt outcomes. Each method returns the
    remote calls it issued (one entry per logical call, however often it was
    retried), the pauses it asked for, and how many attempts it consumed. */
module Collector {
  import opened Retry

  datatype Option<T> = None | Some(value: T)

  /** One attribute of a metafield's dictionary form, its value as text. */
  datatype Field = Field(name: string, value: string)

  /** A metafield's dictionary form, attributes in their iteration order. */
  type Record = seq<Field>

  /** A store object (a product, a variant, a collection), by its metafields. */
  datatype StoreObject = StoreObject(metafields: seq<Record>)

  /** One page of a listing: its objects, in order, and whether the API
      reports a next page. */
  datatype Page = Page(objects: seq<StoreObject>, hasNext: bool)

  /** A logical remote call: the first page of the listing, the page after
      page `after`, or the metafields of object `obj` of page `page`. */
  datatype Call = Find | NextPage(after: nat) | Metafields(page: nat, obj: nat)

  /** How a collection ends: with its records, with a propagated error (any
      records collected so far are lost with the exception), or still
      retrying when the attempt stream runs out. */
  datatype Outcome<T> = Done(value: T) | Failed | Stalled

  /** How the wrapped calls behind an outcome ended. */
  function StatusOf<T>(out: Outcome<T>): Status {
    match out
    case Done(_) => Returned
    case Failed => Raised
    case Stalled => Pending
  }

  /** Some page of the listing reports no next page, so walking it ends. */
  predicate Ends(listing: seq<Page>) {
    exists i | 0 <= i < |listing| :: !listing[i].hasNext
  }

  /** The first page without a next page: where the walk stops. */
  function LastPage(listing: seq<Page>): (k: nat)
    requires Ends(listing)
    ensures k < |listing| && !listing[k].hasNext
    ensures forall i | 0 <= i < k :: listing[i].hasNext
  {
    if !listing[0].hasNext then 0
    else
      assert Ends(listing[1..]) by {
        var w :| 0 <= w < |listing| && !listing[w].hasNext;
        assert !listing[1..][w - 1].hasNext;
      }
      var k := LastPage(listing[1..]);
      assert forall i | 1 <= i <= k :: listing[i] == listing[1..][i - 1];
      1 + k
  }

  // ---------------------------------------------------------------------
  // Records of one page

  /** The records of a run of objects: every metafield of every object,
      objects in order, metafields in object order. */
  function Records(objs: seq<StoreObject>): seq<Record> {
    if objs == [] then []
    else Records(objs[..|objs| - 1]) + objs[|objs| - 1].metafields
  }

  /** The sum of the objects' metafield counts. */
  function MetafieldTotal(objs: seq<StoreObject>): nat {
    if objs == [] then 0 else |objs[0].metafields| + MetafieldTotal(objs[1..])
  }

  lemma {:induction false} RecordsAppend(a: seq<StoreObject>, b: seq<StoreObject>)
    ensures Records(a + b) == Records(a) + Records(b)
  {
    if b == [] {
      assert a + b == a;
    } else {
      assert (a + b)[..|a + b| - 1] == a + b[..|b| - 1];
      RecordsAppend(a, b[..|b| - 1]);
    }
  }

  /** A page yields exactly as many records as its objects have metafields. */
  lemma {:induction false} RecordsCount(objs: seq<StoreObject>)
    ensures |Records(objs)| == MetafieldTotal(objs)
  {
    if objs != [] {
      assert objs == [objs[0]] + objs[1..];
      RecordsAppend([objs[0]], objs[1..]);
      assert Records([objs[0]]) == Records([]) + objs[0].metafields;
      RecordsCount(objs[1..]);
    }
  }

  /** Record order: metafield j of object i comes after all the records of
      the objects before it, at offset j. */
  lemma RecordAt(objs: seq<StoreObject>, i: nat, j: nat)
    requires i < |objs| && j < |objs[i].metafields|
    ensures MetafieldTotal(objs[..i]) + j < |Records(objs)|
    ensures Records(objs)[MetafieldTotal(objs[..i]) + j] == objs[i].metafields[j]
  {
    assert objs == objs[..i] + [objs[i]] + objs[i + 1..];
    RecordsAppend(objs[..i] + [objs[i]], objs[i + 1..]);
    RecordsAppend(objs[..i], [objs[i]]);
    assert Records([objs[i]]) == Records([]) + objs[i].metafields;
    RecordsCount(objs[..i]);
  }

  /** The records of one more object are appended after the earlier ones. */
  lemma RecordsSnoc(objs: seq<StoreObject>, i: nat)
    requires i < |objs|
    ensures Records(objs[..i + 1]) == Records(objs[..i]) + objs[i].metafields
  {
    assert objs[..i + 1][..i] == objs[..i];
  }

  /** An object without metafields contributes no record. */
  lemma EmptyObjectContributesNothing(before: seq<StoreObject>, after: seq<StoreObject>)
    ensures Records(before + [StoreObject([])] + after) == Records(before + after)
  {
    RecordsAppend(before + [StoreObject([])], after);
    RecordsAppend(before, [StoreObject([])]);
    RecordsAppend(before, after);
    assert Records([StoreObject([])]) == [];
  }

  // ---------------------------------------------------------------------
  // The whole walk, as specification

  /** The records of pages 0 .. n - 1, page by page. */
  function Collected(listing: seq<Page>, n: nat): seq<Record>
    requires n <= |listing|
  {
    if n == 0 then [] else Collected(listing, n - 1) + Records(listing[n - 1].objects)
  }

  /** The running record counts logged after each of pages 0 .. n - 1. */
  function Progress(listing: seq<Page>, n: nat): (counts: seq<nat>)
    requires n <= |listing|
    ensures |counts| == n
  {
    if n == 0 then [] else Progress(listing, n - 1) + [|Collected(listing, n)|]
  }

  /** After page i the logged count is the number of records of pages 0 .. i. */
  lemma {:induction false} ProgressCounts(listing: seq<Page>, n: nat)
    requires n <= |listing|
    ensures forall i | 0 <= i < n :: Progress(listing, n)[i] == |Collected(listing, i + 1)|
  {
    if n > 0 {
      ProgressCounts(listing, n - 1);
    }
  }

  /** The logged counts of a shorter walk are a prefix of those of a longer one. */
  lemma {:induction false} ProgressPrefix(listing: seq<Page>, m: nat, n: nat)
    requires m <= n <= |listing|
    ensures Progress(listing, m) <= Progress(listing, n)
  {
    if m < n {
      ProgressPrefix(listing, m, n - 1);
      assert Progress(listing, n - 1) <= Progress(listing, n);
    }
  }

  /** The running record counts logged over the whole walk, one per page. */
  function ProgressLog(listing: seq<Page>): seq<nat>
    requires Ends(listing)
  {
    Progress(listing, LastPage(listing) + 1)
  }

  /** What walking the whole listing collects. */
  function Collect(listing: seq<Page>): seq<Record>
    requires Ends(listing)
  {
    Collected(listing, LastPage(listing) + 1)
  }

  /** The call that fetches page k. */
  function PageCall(k: nat): Call {
    if k == 0 then Find else NextPage(k - 1)
  }

  /** The metafield calls for the first `count` objects of page k. */
  function ObjectCalls(k: nat, count: nat): seq<Call> {
    seq(count, j requires 0 <= j < count => Metafields(k, j))
  }

  lemma ObjectCallsPrefix(k: nat, m: nat, n: nat)
    requires m <= n
    ensures ObjectCalls(k, m) == ObjectCalls(k, n)[..m]
  {
  }

  /** The calls that collecting page k issues: the page, then each object. */
  function ChunkCalls(listing: seq<Page>, k: nat): seq<Call>
    requires k < |listing|
  {
    [PageCall(k)] + ObjectCalls(k, |listing[k].objects|)
  }

  /** The calls that collecting pages 0 .. n - 1 issues. */
  function CallsUpTo(listing: seq<Page>, n: nat): seq<Call>
    requires n <= |listing|
  {
    if n == 0 then [] else CallsUpTo(listing, n - 1) + ChunkCalls(listing, n - 1)
  }

  /** The calls that walking the whole listing issues. */
  function AllCalls(listing: seq<Page>): seq<Call>
    requires Ends(listing)
  {
    CallsUpTo(listing, LastPage(listing) + 1)
  }

  lemma {:induction false} CallsUpToPrefix(listing: seq<Page>, m: nat, n: nat)
    requires m <= n <= |listing|
    ensures CallsUpTo(listing, m) <= CallsUpTo(listing, n)
  {
    if m < n {
      CallsUpToPrefix(listing, m, n - 1);
      assert CallsUpTo(listing, n - 1) <= CallsUpTo(listing, n);
    }
  }

  /** The page-listing calls of a call sequence, in order. */
  function PageFetches(calls: seq<Call>): seq<Call> {
    if calls == [] then []
    else PageFetches(calls[..|calls| - 1]) +
         (if calls[|calls| - 1].Metafields? then [] else [calls[|calls| - 1]])
  }

  lemma {:induction false} PageFetchesAppend(a: seq<Call>, b: seq<Call>)
    ensures PageFetches(a + b) == PageFetches(a) + PageFetches(b)
  {
    if b == [] {
      assert a + b == a;
    } else {
      assert (a + b)[..|a + b| - 1] == a + b[..|b| - 1];
      PageFetchesAppend(a, b[..|b| - 1]);
    }
  }

  lemma {:induction false} NoPageFetchesAmongObjectCalls(k: nat, count: nat)
    ensures PageFetches(ObjectCalls(k, count)) == []
  {
    if count > 0 {
      assert ObjectCalls(k, count)[..count - 1] == ObjectCalls(k, count - 1);
      NoPageFetchesAmongObjectCalls(k, count - 1);
    }
  }

  /** Pages are fetched in order, each once: `cls.find` for page 0, then
      `next_page` after each page in turn. */
  lemma {:induction false} EachPageFetchedOnceInOrder(listing: seq<Page>, n: nat)
    requires n <= |listing|
    ensures PageFetches(CallsUpTo(listing, n)) == seq(n, k requires 0 <= k < n => PageCall(k))
  {
    if n > 0 {
      EachPageFetchedOnceInOrder(listing, n - 1);
      PageFetchesAppend(CallsUpTo(listing, n - 1), ChunkCalls(listing, n - 1));
      PageFetchesAppend([PageCall(n - 1)], ObjectCalls(n - 1, |listing[n - 1].objects|));
      NoPageFetchesAmongObjectCalls(n - 1, |listing[n - 1].objects|);
      assert PageFetches([PageCall(n - 1)]) == PageFetches([]) + [PageCall(n - 1)];
    }
  }

  // ---------------------------------------------------------------------
  // The collector

  /** The page `_get_mf_chunk` fetches: the first page when no previous page
      is given, otherwise the page after the previous one. */
  function ChunkPage(prev: Option<nat>): nat {
    if prev.Some? then prev.value + 1 else 0
  }

  /** What `k` wrapped calls that used the attempts from `pos` to `end`
      tell: a raise ended on a fatal attempt, a batch still retrying used the
      whole stream, and on a stream of successes each call took one attempt. */
  lemma BatchAt(net: seq<Attempt>, pos: nat, k: nat, end: nat, status: Status)
    requires pos <= end <= |net|
    requires RunCalls(net[pos..], k) == Batch(status, end - pos, k)
    ensures status == Raised ==> pos < end && Fatal(net[end - 1])
    ensures status == Pending ==> end == |net|
    ensures status == Returned && 0 < k ==> pos < end && net[end - 1] == Success
    ensures AllSucceed(net) ==> end <= pos + k && (status == Returned <==> pos + k <= |net|)
    ensures AllSucceed(net) && status == Returned ==> end == pos + k
  {
    RunCallsConsumed(net[pos..], k);
    if status != Pending && 0 < end - pos {
      assert net[pos..][end - pos - 1] == net[end - 1];
    }
    if AllSucceed(net) {
      assert AllSucceed(net[pos..]);
      RunCallsAllSucceed(net[pos..], k);
    }
  }

  /** `BatchAt` for calls from the start of the stream. */
  lemma BatchFromStart(net: seq<Attempt>, k: nat, end: nat, status: Status)
    requires end <= |net| && RunCalls(net, k) == Batch(status, end, k)
    ensures status == Raised ==> 0 < end && Fatal(net[end - 1])
    ensures status == Pending ==> end == |net|
    ensures AllSucceed(net) ==> end <= k && (status == Returned <==> k <= |net|)
    ensures AllSucceed(net) && status == Returned ==> end == k
  {
    assert net[0..] == net;
    BatchAt(net, 0, k, end, status);
  }

  /** Calls from the start of the stream that all returned, followed by
      more calls: together they end as the later ones do. */
  lemma ThenFromStart(net: seq<Attempt>, k: nat, mid: nat, n: nat, end: nat, status: Status)
    requires mid <= end <= |net|
    requires RunCalls(net, k) == Batch(Returned, mid, k)
    requires RunCalls(net[mid..], n) == Batch(status, end - mid, n)
    ensures RunCalls(net, k + n) == Batch(status, end, k + n)
  {
    assert net[0..] == net;
    RunCallsThen(net, 0, k, mid, n, end, status);
  }

  /** One remote call through the retry wrapper: one run of `ftcall` on the
      part of the stream from `pos` on. Its pauses are added to `sleeps` and
      `pos` moves past the attempts it made. */
  method CallThrough(net: seq<Attempt>, pos: nat, sleeps: seq<Seconds>)
    returns (status: Status, pos': nat, sleeps': seq<Seconds>)
    requires pos <= |net| && sleeps == RetryDelays(net[..pos])
    ensures pos < pos' <= |net| || (pos' == pos == |net| && status == Pending)
    ensures sleeps' == RetryDelays(net[..pos'])
    ensures RunCalls(net[pos..], 1) == Batch(status, pos' - pos, 1)
  {
    var s, u;
    status, s, u := FtCall(net[pos..]);
    FtCharacterised(net[pos..]);
    RunCallsOne(net[pos..]);
    RetryDelaysSplit(net, pos, u);
    pos', sleeps' := pos + u, sleeps + s;
  }

  /** The inner loop of `_get_mf_chunk`: append an object's metafield
      records one by one, in order. */
  method AppendRecords(mfs: seq<Record>, fields: seq<Record>) returns (mfs': seq<Record>)
    ensures mfs' == mfs + fields
  {
    mfs' := mfs;
    for j := 0 to |fields|
      invariant mfs' == mfs + fields[..j]
    {
      mfs' := mfs' + [fields[j]];
    }
    assert fields[..|fields|] == fields;
  }

  /** The loop of `_get_mf_chunk` over the objects of page `page`: fetch
      each object's metafields through the retry wrapper and append their
      records, objects in order, metafields in object order. */
  method CollectObjects(objs: seq<StoreObject>, page: nat, net: seq<Attempt>,
                        pos: nat, sleeps: seq<Seconds>)
    returns (status: Status, mfs: seq<Record>, calls: seq<Call>, pos': nat, sleeps': seq<Seconds>)
    requires pos <= |net| && sleeps == RetryDelays(net[..pos])
    ensures pos <= pos' <= |net| && sleeps' == RetryDelays(net[..pos'])
    ensures calls <= ObjectCalls(page, |objs|)
    ensures status == Returned ==> mfs == Records(objs) && calls == ObjectCalls(page, |objs|)
    ensures status == Raised ==> pos < pos' && Fatal(net[pos' - 1])
    ensures status == Pending ==> pos' == |net|
    ensures AllSucceed(net) ==> pos' <= pos + |calls| && (status == Returned ==> pos' == pos + |calls|)
    ensures AllSucceed(net) && |net| >= pos + |objs| ==> status == Returned && pos' == pos + |objs|
    ensures RunCalls(net[pos..], |calls|) == Batch(status, pos' - pos, |calls|)
  {
    mfs, calls, pos', sleeps' := [], [], pos, sleeps;
    status := Returned;
    assert RunCalls(net[pos..], 0) == Batch(Returned, 0, 0);
    var i := 0;
    // an exception from a call ends the loop (mf.py:58-60)
    while i < |objs| && status == Returned
      invariant i <= |objs|
      invariant status == Returned ==> mfs == Records(objs[..i])
      invariant calls == ObjectCalls(page, i)
      invariant pos <= pos' <= |net| && sleeps' == RetryDelays(net[..pos'])
      invariant RunCalls(net[pos..], i) == Batch(status, pos' - pos, i)
    {
      // the metafields of object i, through the retry wrapper (mf.py:59)
      var mid := pos';
      status, pos', sleeps' := CallThrough(net, pos', sleeps');
      RunCallsThen(net, pos, i, mid, 1, pos', status);
      if status == Returned {
        mfs := AppendRecords(mfs, objs[i].metafields);
        RecordsSnoc(objs, i);
      }
      calls := calls + [Metafields(page, i)];
      i := i + 1;
    }
    ObjectCallsPrefix(page, i, |objs|);
    assert status == Returned ==> objs[..i] == objs;
    BatchAt(net, pos, i, pos', status);
  }

  /** `_get_mf_chunk`: fetch one page (the first, or the one after `prev`),
      then the metafields of each of its objects, and return the records in
      object order, then metafield order, with the page fetched. Its calls
      take their attempts from the stream `net` from position `pos` on. */
  method GetMfChunk(listing: seq<Page>, prev: Option<nat>, net: seq<Attempt>,
                    pos: nat, sleeps: seq<Seconds>)
    returns (out: Outcome<seq<Record>>, page: nat, calls: seq<Call>, pos': nat, sleeps': seq<Seconds>)
    requires ChunkPage(prev) < |listing|
    requires pos <= |net| && sleeps == RetryDelays(net[..pos])
    ensures page == ChunkPage(prev)
    ensures calls != [] && calls[0] == (if prev.None? then Find else NextPage(prev.value))
    ensures calls <= ChunkCalls(listing, page)
    ensures pos <= pos' <= |net| && sleeps' == RetryDelays(net[..pos'])
    ensures out.Done? ==> out.value == Records(listing[page].objects) && calls == ChunkCalls(listing, page)
    ensures out.Failed? ==> pos < pos' && Fatal(net[pos' - 1])
    ensures out.Stalled? ==> pos' == |net|
    ensures AllSucceed(net) ==> pos' <= pos + |calls| && (out.Done? ==> pos' == pos + |calls|)
    ensures AllSucceed(net) && |net| >= pos + |ChunkCalls(listing, page)| ==>
              out.Done? && pos' == pos + |calls|
    ensures RunCalls(net[pos..], |calls|) == Batch(StatusOf(out), pos' - pos, |calls|)
  {
    page := ChunkPage(prev);
    // the next page after the previous one, or the first page (mf.py:54-57)
    var status, mfs := Returned, [];
    status, pos', sleeps' := CallThrough(net, pos, sleeps);
    calls := [PageCall(page)];
    if status == Returned {
      var mid := pos';
      var objectCalls;
      status, mfs, objectCalls, pos', sleeps' := CollectObjects(listing[page].objects, page, net, pos', sleeps');
      RunCallsThen(net, pos, 1, mid, |objectCalls|, pos', status);
      calls := calls + objectCalls;
    }
    out := if status == Returned then Done(mfs) else if status == Raised then Failed else Stalled;
    BatchAt(net, pos, |calls|, pos', status);
  }

  /** The page a call belongs to: the page it fetches, or the page of the
      object whose metafields it fetches. */
  function CallPage(c: Call): nat {
    match c
    case Find => 0
    case NextPage(after) => after + 1
    case Metafields(page, _) => page
  }

  /** Every call that collecting page p issues belongs to page p. */
  lemma ChunkCallsOnPage(listing: seq<Page>, p: nat, more: seq<Call>)
    requires p < |listing| && more != [] && more <= ChunkCalls(listing, p)
    ensures CallPage(more[|more| - 1]) == p
  {
    assert more[|more| - 1] == ChunkCalls(listing, p)[|more| - 1];
  }

  /** Appending what extends one prefix keeps a prefix. */
  lemma PrefixExtend(a: seq<Call>, b: seq<Call>, c: seq<Call>, d: seq<Call>)
    requires b <= c && a + c <= d
    ensures a + b <= d
  {
    assert (a + b) == (a + c)[..|a + b|];
  }

  /** The calls of the pages up to `page` and then of the page after it are
      a prefix of the calls of the whole walk, when the walk goes on. */
  lemma NextChunkWithinAll(listing: seq<Page>, page: nat, calls: seq<Call>, more: seq<Call>)
    requires Ends(listing) && page < LastPage(listing)
    requires calls == CallsUpTo(listing, page + 1) && more <= ChunkCalls(listing, page + 1)
    ensures calls + more <= AllCalls(listing)
  {
    CallsUpToPrefix(listing, page + 2, LastPage(listing) + 1);
    PrefixExtend(calls, more, ChunkCalls(listing, page + 1), AllCalls(listing));
  }

  /** The state of `get_mf_for` after pages 0 .. page: the records, calls
      and logged counts of those pages, and the attempts they consumed. */
  ghost predicate WalkedTo(listing: seq<Page>, net: seq<Attempt>, page: nat, mfs: seq<Record>,
                           calls: seq<Call>, progress: seq<nat>, used: nat, sleeps: seq<Seconds>)
    requires Ends(listing)
  {
    && page <= LastPage(listing)
    && mfs == Collected(listing, page + 1)
    && calls == CallsUpTo(listing, page + 1)
    && progress == Progress(listing, page + 1)
    && used <= |net| && sleeps == RetryDelays(net[..used])
    && RunCalls(net, |calls|) == Batch(Returned, used, |calls|)
  }

  /** Collecting the page after `page` in full extends the walk by that page. */
  lemma WalkedStep(listing: seq<Page>, net: seq<Attempt>, page: nat, mfs: seq<Record>,
                   calls: seq<Call>, progress: seq<nat>, used: nat, sleeps: seq<Seconds>,
                   recs: seq<Record>, more: seq<Call>, used': nat, sleeps': seq<Seconds>)
    requires Ends(listing) && WalkedTo(listing, net, page, mfs, calls, progress, used, sleeps)
    requires page < LastPage(listing)
    requires recs == Records(listing[page + 1].objects) && more == ChunkCalls(listing, page + 1)
    requires used' <= |net| && sleeps' == RetryDelays(net[..used'])
    requires RunCalls(net, |calls + more|) == Batch(Returned, used', |calls + more|)
    ensures WalkedTo(listing, net, page + 1, mfs + recs, calls + more, progress + [|mfs + recs|], used', sleeps')
  {
  }

  /** A walk that reached a page without a next page has walked the whole
      listing. */
  lemma WalkedToEnd(listing: seq<Page>, net: seq<Attempt>, page: nat, mfs: seq<Record>,
                    calls: seq<Call>, progress: seq<nat>, used: nat, sleeps: seq<Seconds>)
    requires Ends(listing) && WalkedTo(listing, net, page, mfs, calls, progress, used, sleeps)
    requires !listing[page].hasNext
    ensures mfs == Collect(listing) && calls == AllCalls(listing) && progress == ProgressLog(listing)
  {
  }

  /** Counts logged that are a prefix of the full log are the counts of the
      first pages, one per page. With `GetMfFor`'s contract this gives what a
      walk that failed has logged: the counts of the pages before the page
      of its last call, `Progress(listing, CallPage(calls[|calls| - 1]))`. */
  lemma ProgressLogPrefix(listing: seq<Page>, progress: seq<nat>)
    requires Ends(listing) && progress <= ProgressLog(listing)
    ensures progress == Progress(listing, |progress|)
  {
    ProgressPrefix(listing, |progress|, LastPage(listing) + 1);
  }

  /** One round of the loop of `get_mf_for`: collect the page after `page`
      and append its records, calls and logged count. */
  method CollectNextPage(listing: seq<Page>, net: seq<Attempt>, page: nat, mfs: seq<Record>,
                         calls: seq<Call>, progress: seq<nat>, used: nat, sleeps: seq<Seconds>)
    returns (out: Outcome<seq<Record>>, calls': seq<Call>, progress': seq<nat>,
             used': nat, sleeps': seq<Seconds>)
    requires Ends(listing) && WalkedTo(listing, net, page, mfs, calls, progress, used, sleeps)
    requires listing[page].hasNext
    ensures out.Done? ==> WalkedTo(listing, net, page + 1, out.value, calls', progress', used', sleeps')
    ensures !out.Done? ==> used' <= |net| && sleeps' == RetryDelays(net[..used']) && progress' == progress
    ensures calls' <= AllCalls(listing)
    ensures out.Failed? ==> 0 < used' && Fatal(net[used' - 1])
    ensures out.Stalled? ==> used' == |net|
    ensures AllSucceed(net) ==> used' <= |calls'|
    ensures AllSucceed(net) && |net| >= |AllCalls(listing)| ==> out.Done?
    ensures RunCalls(net, |calls'|) == Batch(StatusOf(out), used', |calls'|)
    ensures !out.Done? ==> calls' != [] && |progress'| == CallPage(calls'[|calls'| - 1])
  {
    assert page < LastPage(listing);
    var chunk, next, more;
    // the page after `page` (mf.py:47)
    chunk, next, more, used', sleeps' := GetMfChunk(listing, Some(page), net, used, sleeps);
    calls' := calls + more;
    ThenFromStart(net, |calls|, used, |more|, used', StatusOf(chunk));
    assert |calls'| == |calls| + |more|;
    BatchFromStart(net, |calls'|, used', StatusOf(chunk));
    NextChunkWithinAll(listing, page, calls, more);
    progress', out := progress, chunk;
    if !chunk.Done? {
      ChunkCallsOnPage(listing, page + 1, more);
      assert calls'[|calls'| - 1] == more[|more| - 1];
    } else {
      // append the page's records and log the running count (mf.py:48-49)
      out := Done(mfs + chunk.value);
      var count: nat := |mfs + chunk.value|;
      progress' := progress + [count];
      WalkedStep(listing, net, page, mfs, calls, progress, used, sleeps, chunk.value, more, used', sleeps');
    }
  }

  /** The start of `get_mf_for`: collect the first page and log its count. */
  method CollectFirstPage(listing: seq<Page>, net: seq<Attempt>)
    returns (out: Outcome<seq<Record>>, calls: seq<Call>, progress: seq<nat>,
             used: nat, sleeps: seq<Seconds>)
    requires Ends(listing)
    ensures out.Done? ==> WalkedTo(listing, net, 0, out.value, calls, progress, used, sleeps)
    ensures !out.Done? ==> used <= |net| && sleeps == RetryDelays(net[..used]) && progress == []
    ensures calls <= AllCalls(listing)
    ensures out.Failed? ==> 0 < used && Fatal(net[used - 1])
    ensures out.Stalled? ==> used == |net|
    ensures AllSucceed(net) ==> used <= |calls|
    ensures AllSucceed(net) && |net| >= |AllCalls(listing)| ==> out.Done?
    ensures RunCalls(net, |calls|) == Batch(StatusOf(out), used, |calls|)
    ensures !out.Done? ==> calls != [] && |progress| == CallPage(calls[|calls| - 1])
  {
    CallsUpToPrefix(listing, 1, LastPage(listing) + 1);
    var page;
    // the first page (mf.py:42)
    out, page, calls, used, sleeps := GetMfChunk(listing, None, net, 0, []);
    assert net[0..] == net;
    assert CallsUpTo(listing, 1) == ChunkCalls(listing, 0);
    progress := [];
    if out.Done? {
      // log the first count (mf.py:45)
      progress := [|out.value|];
    } else {
      ChunkCallsOnPage(listing, 0, calls);
    }
    BatchAt(net, 0, |calls|, used, StatusOf(out));
  }

  /** `get_mf_for`: collect the first page, then, while the current page
      reports a next page, collect the next one and append its records.
      After each page it logs the running record count, kept in `progress`. */
  method GetMfFor(listing: seq<Page>, net: seq<Attempt>)
    returns (out: Outcome<seq<Record>>, calls: seq<Call>, sleeps: seq<Seconds>,
             progress: seq<nat>, used: nat)
    requires Ends(listing)
    ensures used <= |net| && sleeps == RetryDelays(net[..used])
    ensures calls <= AllCalls(listing)
    ensures progress <= ProgressLog(listing)
    ensures out.Done? ==> out.value == Collect(listing) && calls == AllCalls(listing) &&
                          progress == ProgressLog(listing)
    ensures out.Failed? ==> 0 < used && Fatal(net[used - 1])
    ensures out.Stalled? ==> used == |net|
    ensures AllSucceed(net) ==> used <= |calls|
    ensures AllSucceed(net) && |net| >= |AllCalls(listing)| ==> out.Done? && used == |calls|
    ensures RunCalls(net, |calls|) == Batch(StatusOf(out), used, |calls|)
    ensures !out.Done? ==> calls != [] && |progress| == CallPage(calls[|calls| - 1])
  {
    out, calls, progress, used, sleeps := CollectFirstPage(listing, net);
    if !out.Done? {
      return;
    }
    var mfs, page := out.value, 0;
    while listing[page].hasNext
      invariant WalkedTo(listing, net, page, mfs, calls, progress, used, sleeps)
      decreases LastPage(listing) - page
    {
      ProgressPrefix(listing, page + 1, LastPage(listing) + 1);
      out, calls, progress, used, sleeps := CollectNextPage(listing, net, page, mfs, calls, progress, used, sleeps);
      if !out.Done? {
        return;
      }
      mfs, page := out.value, page + 1;
    }
    WalkedToEnd(listing, net, page, mfs, calls, progress, used, sleeps);
    out := Done(mfs);
    BatchFromStart(net, |calls|, used, Returned);
  }

  // ---------------------------------------------------------------------
  // The page test as written

  /** The page `_get_mf_chunk` fetches as the code is written: `if
      objs_chunk:` tests the truth of the previous page, and a page with no
      objects is false, so after an empty page the listing starts again. */
  function ChunkPageAsWritten(listing: seq<Page>, prev: Option<nat>): nat
    requires prev.Some? ==> prev.value < |listing|
  {
    if prev.Some? && listing[prev.value].objects != [] then prev.value + 1 else 0
  }

  /** The pages `get_mf_for` as written visits in its first `steps` rounds,
      starting from page k. */
  function VisitsAsWritten(listing: seq<Page>, k: nat, steps: nat): seq<nat>
    requires Ends(listing) && k <= LastPage(listing)
    decreases steps
  {
    if steps == 0 || !listing[k].hasNext then [k]
    else [k] + VisitsAsWritten(listing, ChunkPageAsWritten(listing, Some(k)), steps - 1)
  }

  /** As written, a listing whose first page is empty but reports a next page
      fetches the first page over and over: the walk never ends. */
  lemma {:induction false} EmptyFirstPageRepeatsAsWritten(listing: seq<Page>, steps: nat)
    requires Ends(listing) && listing[0].objects == [] && listing[0].hasNext
    ensures VisitsAsWritten(listing, 0, steps) == seq(steps + 1, _ => 0)
  {
    if steps > 0 {
      EmptyFirstPageRepeatsAsWritten(listing, steps - 1);
    }
  }

  /** A two-page listing whose first page is empty: walking it should collect
      the one record of the second page, but as written no number of rounds
      ever reaches the second page. */
  lemma EmptyFirstPageCounterexample(rec: Record)
    ensures var listing := [Page([], true), Page([StoreObject([rec])], false)];
            && Ends(listing)
            && Collect(listing) == [rec]
            && forall steps: nat :: 1 !in VisitsAsWritten(listing, 0, steps)
  {
    var listing := [Page([], true), Page([StoreObject([rec])], false)];
    assert !listing[1].hasNext;
    assert LastPage(listing) == 1;
    assert Records([StoreObject([rec])]) == Records([]) + [rec];
    assert Collected(listing, 1) == Collected(listing, 0) + Records([]);
    forall steps: nat ensures 1 !in VisitsAsWritten(listing, 0, steps) {
      EmptyFirstPageRepeatsAsWritten(listing, steps);
    }
  }
}
