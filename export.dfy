/** The export step of `metafields_csv` in mf.py: collect every requested
    resource class in turn into one record list, open the output file, and
    take the CSV header from the attribute names of the first record. With no
    record at all, taking the first record fails after the file was opened
    for writing (and so emptied). The CSV serialisation itself is not part of
    this model: `Written` stands for a file whose header and rows are given. */
module Export {
  import opened Retry
  import opened Collector

  /** What a run of `metafields_csv` leaves behind. */
  datatype CsvOutcome =
    | Written(header: seq<string>, rows: seq<Record>)  // header row, then one row per record
    | EmptiedThenIndexError                            // no record: the file was opened, then indexing the first record raised
    | FetchFailed                                      // a collection raised; the file was never opened
    | FetchStalled                                     // still retrying when the attempt stream ran out

  /** The attribute names of a record, in order. */
  function FieldNames(r: Record): seq<string> {
    seq(|r|, i requires 0 <= i < |r| => r[i].name)
  }

  /** The CSV header: the attribute names of the first record, and nothing
      when there is no first record. */
  function Header(mfs: seq<Record>): Option<seq<string>> {
    if mfs == [] then None else Some(FieldNames(mfs[0]))
  }

  /** Every requested class has a listing whose walk ends. */
  predicate AllEnd(listings: seq<seq<Page>>) {
    forall c | 0 <= c < |listings| :: Ends(listings[c])
  }

  /** The records of all classes, class after class in the order requested. */
  function AllRecords(listings: seq<seq<Page>>): seq<Record>
    requires AllEnd(listings)
  {
    if listings == [] then []
    else AllRecords(listings[..|listings| - 1]) + Collect(listings[|listings| - 1])
  }

  /** The number of remote calls collecting all classes issues. */
  function TotalCalls(listings: seq<seq<Page>>): nat
    requires AllEnd(listings)
  {
    if listings == [] then 0
    else TotalCalls(listings[..|listings| - 1]) + |AllCalls(listings[|listings| - 1])|
  }

  lemma {:induction false} TotalCallsGrow(listings: seq<seq<Page>>, n: nat)
    requires AllEnd(listings) && n <= |listings|
    ensures TotalCalls(listings[..n]) <= TotalCalls(listings)
  {
    if n < |listings| {
      assert listings[..|listings| - 1][..n] == listings[..n];
      TotalCallsGrow(listings[..|listings| - 1], n);
    } else {
      assert listings[..n] == listings;
    }
  }

  lemma {:induction false} AllRecordsEmpty(listings: seq<seq<Page>>)
    requires AllEnd(listings)
    ensures AllRecords(listings) == [] <==> forall c | 0 <= c < |listings| :: Collect(listings[c]) == []
  {
    if listings != [] {
      var init := listings[..|listings| - 1];
      AllRecordsEmpty(init);
      if forall c | 0 <= c < |listings| :: Collect(listings[c]) == [] {
        forall c | 0 <= c < |init| ensures Collect(init[c]) == [] {
          assert init[c] == listings[c];
        }
      } else {
        var c :| 0 <= c < |listings| && Collect(listings[c]) != [];
        if c < |init| {
          assert init[c] == listings[c];
        }
      }
    }
  }

  /** No header can be taken exactly when no class has any record. */
  lemma {:induction false} NoHeaderIffNoRecords(listings: seq<seq<Page>>)
    requires AllEnd(listings)
    ensures Header(AllRecords(listings)).None? <==>
              forall c | 0 <= c < |listings| :: Collect(listings[c]) == []
  {
    AllRecordsEmpty(listings);
  }

  /** The header is the attribute names of the first record of the first
      class, in request order, that has any record. */
  lemma {:induction false} HeaderFromFirstClassWithRecords(listings: seq<seq<Page>>, c: nat)
    requires AllEnd(listings) && c < |listings|
    requires Collect(listings[c]) != []
    requires forall d | 0 <= d < c :: Collect(listings[d]) == []
    ensures Header(AllRecords(listings)) == Some(FieldNames(Collect(listings[c])[0]))
  {
    var init := listings[..|listings| - 1];
    assert forall d | 0 <= d < |init| :: listings[d] == init[d];
    if c == |listings| - 1 {
      AllRecordsEmpty(init);
    } else {
      HeaderFromFirstClassWithRecords(init, c);
    }
  }

  /** How the wrapped calls behind a run of `metafields_csv` ended. */
  function CsvStatus(out: CsvOutcome): Status {
    match out
    case Written(_, _) => Returned
    case EmptiedThenIndexError => Returned
    case FetchFailed => Raised
    case FetchStalled => Pending
  }

  /** `get_mf_for` for one class, its attempts taken from the stream `net`
      from position `pos` on. */
  method CollectClass(listing: seq<Page>, net: seq<Attempt>, pos: nat, sleeps: seq<Seconds>)
    returns (out: Outcome<seq<Record>>, calls: seq<Call>, pos': nat, sleeps': seq<Seconds>)
    requires Ends(listing)
    requires pos <= |net| && sleeps == RetryDelays(net[..pos])
    ensures pos <= pos' <= |net| && sleeps' == RetryDelays(net[..pos'])
    ensures calls <= AllCalls(listing)
    ensures out.Done? ==> out.value == Collect(listing) && calls == AllCalls(listing)
    ensures out.Failed? ==> pos < pos' && Fatal(net[pos' - 1])
    ensures out.Stalled? ==> pos' == |net|
    ensures AllSucceed(net) && |net| >= pos + |AllCalls(listing)| ==>
              out.Done? && pos' == pos + |AllCalls(listing)|
    ensures RunCalls(net[pos..], |calls|) == Batch(StatusOf(out), pos' - pos, |calls|)
  {
    var s, progress, u;
    out, calls, s, progress, u := GetMfFor(listing, net[pos..]);
    RetryDelaysExtend(net, pos, u, sleeps, s);
    pos', sleeps' := pos + u, sleeps + s;
    BatchAt(net, pos, |calls|, pos', StatusOf(out));
  }

  /** Collecting class c after the classes before it: its records follow
      theirs, and its calls so far fit within what the classes up to and
      including it issue. */
  lemma ClassStep(listings: seq<seq<Page>>, c: nat, calls: seq<Call>)
    requires AllEnd(listings) && c < |listings| && calls <= AllCalls(listings[c])
    ensures AllRecords(listings[..c + 1]) == AllRecords(listings[..c]) + Collect(listings[c])
    ensures TotalCalls(listings[..c]) + |calls| <= TotalCalls(listings)
    ensures calls == AllCalls(listings[c]) ==>
              TotalCalls(listings[..c]) + |calls| == TotalCalls(listings[..c + 1])
  {
    assert listings[..c + 1][..c] == listings[..c];
    TotalCallsGrow(listings, c + 1);
  }

  /** Class c returned after the classes before it all returned: the calls
      of classes 0 .. c all returned, and its records follow theirs. */
  lemma ClassReturned(listings: seq<seq<Page>>, net: seq<Attempt>, c: nat, issued: nat,
                      mid: nat, calls: seq<Call>, used: nat)
    requires AllEnd(listings) && c < |listings| && calls == AllCalls(listings[c])
    requires issued == TotalCalls(listings[..c])
    requires mid <= used <= |net| && RunCalls(net, issued) == Batch(Returned, mid, issued)
    requires RunCalls(net[mid..], |calls|) == Batch(Returned, used - mid, |calls|)
    ensures RunCalls(net, issued + |calls|) == Batch(Returned, used, issued + |calls|)
    ensures issued + |calls| == TotalCalls(listings[..c + 1]) <= TotalCalls(listings)
    ensures AllRecords(listings[..c + 1]) == AllRecords(listings[..c]) + Collect(listings[c])
  {
    ThenFromStart(net, issued, mid, |calls|, used, Returned);
    ClassStep(listings, c, calls);
  }

  /** Class c failed after the classes before it all returned: the failing
      call is the last one issued, and with a stream of successes that
      happens only when the stream is shorter than all the calls. */
  lemma ClassFailed(listings: seq<seq<Page>>, net: seq<Attempt>, c: nat, issued: nat,
                    mid: nat, calls: seq<Call>, used: nat, status: Status)
    requires AllEnd(listings) && c < |listings| && calls <= AllCalls(listings[c])
    requires issued == TotalCalls(listings[..c])
    requires mid <= used <= |net| && RunCalls(net, issued) == Batch(Returned, mid, issued)
    requires status != Returned && RunCalls(net[mid..], |calls|) == Batch(status, used - mid, |calls|)
    ensures RunCalls(net, issued + |calls|) == Batch(status, used, issued + |calls|)
    ensures issued + |calls| <= TotalCalls(listings)
    ensures status == Raised ==> 0 < used && Fatal(net[used - 1])
    ensures status == Pending ==> used == |net|
    ensures AllSucceed(net) ==> |net| < TotalCalls(listings)
  {
    ThenFromStart(net, issued, mid, |calls|, used, status);
    ClassStep(listings, c, calls);
    BatchFromStart(net, issued + |calls|, used, status);
  }

  /** One round of the loop of `metafields_csv`: collect class c, whose
      calls follow those of the classes before it, and append its records. */
  method CollectNextClass(listings: seq<seq<Page>>, c: nat, net: seq<Attempt>, mfs: seq<Record>,
                          issued: nat, used: nat, sleeps: seq<Seconds>)
    returns (out: Outcome<seq<Record>>, issued': nat, used': nat, sleeps': seq<Seconds>)
    requires AllEnd(listings) && c < |listings|
    requires mfs == AllRecords(listings[..c]) && issued == TotalCalls(listings[..c])
    requires used <= |net| && sleeps == RetryDelays(net[..used])
    requires RunCalls(net, issued) == Batch(Returned, used, issued)
    ensures used' <= |net| && sleeps' == RetryDelays(net[..used'])
    ensures RunCalls(net, issued') == Batch(StatusOf(out), used', issued')
    ensures issued' <= TotalCalls(listings)
    ensures out.Done? ==> out.value == AllRecords(listings[..c + 1]) && issued' == TotalCalls(listings[..c + 1])
    ensures out.Failed? ==> 0 < used' && Fatal(net[used' - 1])
    ensures out.Stalled? ==> used' == |net|
    ensures !out.Done? && AllSucceed(net) ==> |net| < TotalCalls(listings)
  {
    var collected, calls;
    // collect class c and append its records (mf.py:91-92)
    collected, calls, used', sleeps' := CollectClass(listings[c], net, used, sleeps);
    var status := StatusOf(collected);
    if status != Returned {
      ClassFailed(listings, net, c, issued, used, calls, used', status);
      out := if status == Raised then Failed else Stalled;
    } else {
      ClassReturned(listings, net, c, issued, used, calls, used');
      out := Done(mfs + collected.value);
    }
    issued' := issued + |calls|;
  }

  /** `metafields_csv`: collect the classes in the order requested,
      appending each class's records, then open the file and write the
      header taken from the first record and one row per record. */
  method MetafieldsCsv(listings: seq<seq<Page>>, net: seq<Attempt>)
    returns (out: CsvOutcome, sleeps: seq<Seconds>, issued: nat, used: nat)
    requires AllEnd(listings)
    ensures used <= |net| && sleeps == RetryDelays(net[..used])
    ensures out.Written? ==> out.rows == AllRecords(listings) && Header(out.rows) == Some(out.header)
    ensures out.EmptiedThenIndexError? ==> AllRecords(listings) == []
    ensures issued <= TotalCalls(listings)
    ensures out.Written? || out.EmptiedThenIndexError? ==> issued == TotalCalls(listings)
    ensures out.FetchFailed? ==> 0 < used && Fatal(net[used - 1])
    ensures out.FetchStalled? ==> used == |net|
    ensures AllSucceed(net) && |net| >= TotalCalls(listings) ==>
              out.Written? || out.EmptiedThenIndexError?
    ensures RunCalls(net, issued) == Batch(CsvStatus(out), used, issued)
  {
    var mfs: seq<Record> := [];
    sleeps, issued, used := [], 0, 0;
    for c := 0 to |listings|
      invariant mfs == AllRecords(listings[..c])
      invariant used <= |net| && sleeps == RetryDelays(net[..used])
      invariant issued == TotalCalls(listings[..c])
      invariant RunCalls(net, issued) == Batch(Returned, used, issued)
    {
      var collected;
      collected, issued, used, sleeps := CollectNextClass(listings, c, net, mfs, issued, used, sleeps);
      if !collected.Done? {
        out := if collected.Failed? then FetchFailed else FetchStalled;
        return;
      }
      mfs := collected.value;
    }
    assert listings[..|listings|] == listings;
    // the file is opened for writing before the first record is indexed
    if mfs == [] {
      out := EmptiedThenIndexError;
    } else {
      out := Written(FieldNames(mfs[0]), mfs);
    }
  }
}
