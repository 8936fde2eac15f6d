/** The one-pass scan of the audit log into its indexes, and its agreement with the plain definitions. */
module AuditScan {
  import opened Common
  import opened AuditIndexes
  import opened AuditRequests
  import opened TopK

  datatype Kind = Sql | RequestSummary | OtherKind(name: Name)

  /** A parsed log record with the scan's defaults already applied. */
  datatype Record = Record(
    when: int, kind: Kind, role: Name, commit: Name, day: Name, hour: Name,
    operation: Name, fingerprint: Name, digest: Name, duration: real, rowcount: Option<int>,
    request: Option<Name>, route: Name)

  datatype Line = Unreadable | Undated | Dated(rec: Record)

  /** What the SQL records are grouped by. */
  datatype Axis = Roles | Commits | Days | Hours | Fingerprints

  function Key(r: Record, axis: Axis): Name {
    match axis
    case Roles => r.role
    case Commits => r.commit
    case Days => r.day
    case Hours => r.hour
    case Fingerprints => r.fingerprint
  }

  datatype Fingerprint = Fingerprint(durations: seq<real>, total: real, peak: real)

  datatype Day = Day(durations: seq<real>, operations: multiset<Name>)

  /** The keyed indexes. */
  datatype Files = Files(
    roles: Index, hours: Index, commits: Index, fingerprints: map<Name, Fingerprint>, days: map<Name, Day>)

  /** The flat lists and the bounded heaps. */
  datatype Lists = Lists(
    durations: seq<real>, operations: multiset<Name>, seqNo: nat, slowest: seq<Entry>, largest: seq<Entry>)

  /** The pending requests and what the closed ones reported. */
  datatype Requests = Requests(pending: map<Name, Request>, repeated: seq<Finding>, duplicates: seq<Duplicate>)

  const SLOWEST: nat := 30
  const LARGEST: nat := 100
  const LARGE_ROWS: int := 100

  // ---- Plain definitions -----------------------------------------------------------------------

  function InWindow(lines: seq<Line>, start: int, end: int): seq<Record> {
    if lines == [] then [] else
      var rest := InWindow(Init(lines), start, end);
      var line := Last(lines);
      if line.Dated? && start <= line.rec.when <= end then rest + [line.rec] else rest
  }

  function Sqls(recs: seq<Record>): seq<Record> {
    if recs == [] then [] else if Last(recs).kind == Sql then Sqls(Init(recs)) + [Last(recs)] else Sqls(Init(recs))
  }

  function Calls(sqls: seq<Record>, axis: Axis): (r: seq<Call>)
    ensures |r| == |sqls|
  {
    if sqls == [] then [] else Calls(Init(sqls), axis) + [Call(Key(Last(sqls), axis), Last(sqls).duration)]
  }

  function Durations(sqls: seq<Record>): seq<real> {
    if sqls == [] then [] else Durations(Init(sqls)) + [Last(sqls).duration]
  }

  function DurationsAt(calls: seq<Call>, key: Name): seq<real> {
    if calls == [] then []
    else if Last(calls).key == key then DurationsAt(Init(calls), key) + [Last(calls).duration]
    else DurationsAt(Init(calls), key)
  }

  function Peak(durations: seq<real>): real {
    if durations == [] then 0.0
    else if Last(durations) > Peak(Init(durations)) then Last(durations)
    else Peak(Init(durations))
  }

  function Operations(sqls: seq<Record>): multiset<Name> {
    if sqls == [] then multiset{} else Operations(Init(sqls)) + multiset{Last(sqls).operation}
  }

  function OperationsOn(sqls: seq<Record>, day: Name): multiset<Name> {
    if sqls == [] then multiset{}
    else if Last(sqls).day == day then OperationsOn(Init(sqls), day) + multiset{Last(sqls).operation}
    else OperationsOn(Init(sqls), day)
  }

  function EventOf(r: Record): seq<Event> {
    if r.request.None? then []
    else if r.kind == Sql then [Asked(r.request.value, Query(r.fingerprint, r.digest, r.duration))]
    else if r.kind == RequestSummary then [Closed(r.request.value, r.route)]
    else []
  }

  function Events(recs: seq<Record>): seq<Event> {
    if recs == [] then [] else Events(Init(recs)) + EventOf(Last(recs))
  }

  predicate IsLarge(r: Record) {
    r.rowcount.Some? && r.rowcount.value >= LARGE_ROWS
  }

  /** The heap entries offered so far: numbered from one, `row` indexing the SQL records. */
  function SlowStream(sqls: seq<Record>): seq<Entry> {
    if sqls == [] then [] else SlowStream(Init(sqls)) + [Entry(Last(sqls).duration, |sqls|, |sqls| - 1)]
  }

  function LargeStream(sqls: seq<Record>): seq<Entry> {
    if sqls == [] then []
    else if IsLarge(Last(sqls)) then
      LargeStream(Init(sqls)) + [Entry(Last(sqls).rowcount.value as real, |sqls|, |sqls| - 1)]
    else LargeStream(Init(sqls))
  }

  lemma {:induction false} SlowNumbered(sqls: seq<Record>)
    ensures |SlowStream(sqls)| == |sqls|
    ensures Numbered(SlowStream(sqls)) && forall e | e in SlowStream(sqls) :: e.order <= |sqls|
  {
    if sqls != [] {
      SlowNumbered(Init(sqls));
    }
  }

  lemma {:induction false} LargeNumbered(sqls: seq<Record>)
    ensures Numbered(LargeStream(sqls)) && forall e | e in LargeStream(sqls) :: e.order <= |sqls|
  {
    if sqls != [] {
      LargeNumbered(Init(sqls));
    }
  }

  // ---- Agreement -------------------------------------------------------------------------------

  ghost predicate FingerprintAt(m: map<Name, Fingerprint>, calls: seq<Call>, k: Name) {
    && (k in m <==> k in Keys(calls))
    && (k in m ==> m[k] == Fingerprint(DurationsAt(calls, k), Group(calls, k).ms, Peak(DurationsAt(calls, k))))
  }

  ghost predicate DayAt(m: map<Name, Day>, sqls: seq<Record>, k: Name) {
    && (k in m <==> k in Keys(Calls(sqls, Days)))
    && (k in m ==> m[k] == Day(DurationsAt(Calls(sqls, Days), k), OperationsOn(sqls, k)))
  }

  function AddToFingerprint(m: map<Name, Fingerprint>, k: Name, d: real): map<Name, Fingerprint> {
    var f := if k in m then m[k] else Fingerprint([], 0.0, 0.0);
    m[k := Fingerprint(f.durations + [d], f.total + d, if d > f.peak then d else f.peak)]
  }

  function AddToDay(m: map<Name, Day>, k: Name, d: real, operation: Name): map<Name, Day> {
    var day := if k in m then m[k] else Day([], multiset{});
    m[k := Day(day.durations + [d], day.operations + multiset{operation})]
  }

  lemma {:induction false} AbsentKey(calls: seq<Call>, k: Name)
    ensures |DurationsAt(calls, k)| == Group(calls, k).calls
    ensures k !in Keys(calls) ==> DurationsAt(calls, k) == [] && Group(calls, k) == NOTHING
  {
    if calls != [] {
      AbsentKey(Init(calls), k);
    }
  }

  lemma {:induction false} AbsentDay(sqls: seq<Record>, k: Name)
    ensures |OperationsOn(sqls, k)| == |DurationsAt(Calls(sqls, Days), k)|
    ensures k !in Keys(Calls(sqls, Days)) ==> OperationsOn(sqls, k) == multiset{}
  {
    if sqls != [] {
      AbsentDay(Init(sqls), k);
      var calls, c := Calls(Init(sqls), Days), Call(Last(sqls).day, Last(sqls).duration);
      assert Init(calls + [c]) == calls;
    }
  }

  lemma {:induction false} FingerprintGrows(m: map<Name, Fingerprint>, calls: seq<Call>, c: Call, k: Name)
    requires FingerprintAt(m, calls, k)
    ensures FingerprintAt(AddToFingerprint(m, c.key, c.duration), calls + [c], k)
  {
    assert Init(calls + [c]) == calls;
    AbsentKey(calls, k);
    assert Init(DurationsAt(calls, k) + [c.duration]) == DurationsAt(calls, k);
  }

  lemma {:induction false} DayGrows(m: map<Name, Day>, sqls: seq<Record>, r: Record, k: Name)
    requires DayAt(m, sqls, k)
    ensures DayAt(AddToDay(m, r.day, r.duration, r.operation), sqls + [r], k)
  {
    assert Init(sqls + [r]) == sqls;
    var calls, c := Calls(sqls, Days), Call(r.day, r.duration);
    assert Init(calls + [c]) == calls;
    AbsentKey(calls, k);
    AbsentDay(sqls, k);
  }

  /** The keyed indexes hold exactly the groups of the SQL records. */
  ghost predicate Filed(f: Files, sqls: seq<Record>) {
    && Indexes(f.roles, Calls(sqls, Roles)) && Indexes(f.hours, Calls(sqls, Hours)) && Indexes(f.commits, Calls(sqls, Commits))
    && (forall k :: FingerprintAt(f.fingerprints, Calls(sqls, Fingerprints), k))
    && (forall k :: DayAt(f.days, sqls, k))
  }

  /** The flat lists hold every SQL record, the heaps the top of the stream. */
  ghost predicate Listed(l: Lists, sqls: seq<Record>) {
    && l.durations == Durations(sqls) && l.operations == Operations(sqls) && l.seqNo == |sqls|
    && TopHeap(l.slowest, SlowStream(sqls), SLOWEST) && TopHeap(l.largest, LargeStream(sqls), LARGEST)
  }

  /** The pending requests are the open ones, and the findings are exactly those of the closed ones. */
  ghost predicate Requested(q: Requests, events: seq<Event>) {
    && PendingAgrees(q.pending, events)
    && (forall f :: f in q.repeated <==> Repeated(events, f))
    && (forall d :: d in q.duplicates <==> Duplicated(events, d))
  }

  // ---- One SQL record --------------------------------------------------------------------------

  function File(f: Files, r: Record): Files {
    Files(Put(f.roles, r.role, r.duration), Put(f.hours, r.hour, r.duration), Put(f.commits, r.commit, r.duration),
          AddToFingerprint(f.fingerprints, r.fingerprint, r.duration), AddToDay(f.days, r.day, r.duration, r.operation))
  }

  lemma {:induction false} PutAxis(m: Index, sqls: seq<Record>, r: Record, axis: Axis)
    requires Indexes(m, Calls(sqls, axis))
    ensures Indexes(Put(m, Key(r, axis), r.duration), Calls(sqls + [r], axis))
  {
    assert Init(sqls + [r]) == sqls;
    PutIndexes(m, Calls(sqls, axis), Call(Key(r, axis), r.duration));
  }

  lemma {:induction false} FingerprintsGrow(m: map<Name, Fingerprint>, sqls: seq<Record>, r: Record, k: Name)
    requires FingerprintAt(m, Calls(sqls, Fingerprints), k)
    ensures FingerprintAt(AddToFingerprint(m, r.fingerprint, r.duration), Calls(sqls + [r], Fingerprints), k)
  {
    assert Init(sqls + [r]) == sqls;
    FingerprintGrows(m, Calls(sqls, Fingerprints), Call(r.fingerprint, r.duration), k);
  }

  lemma {:induction false} FileAgrees(f: Files, sqls: seq<Record>, r: Record)
    requires Filed(f, sqls)
    ensures Filed(File(f, r), sqls + [r])
  {
    PutAxis(f.roles, sqls, r, Roles);
    PutAxis(f.hours, sqls, r, Hours);
    PutAxis(f.commits, sqls, r, Commits);
    forall k { FingerprintsGrow(f.fingerprints, sqls, r, k); }
    forall k { DayGrows(f.days, sqls, r, k); }
  }

  /** What the next heap entries are, and that they carry new sequence numbers. */
  lemma {:induction false} StreamsGrow(sqls: seq<Record>, r: Record)
    ensures var n := |sqls|;
            && SlowStream(sqls + [r]) == SlowStream(sqls) + [Entry(r.duration, n + 1, n)]
            && LargeStream(sqls + [r])
               == (if IsLarge(r) then LargeStream(sqls) + [Entry(r.rowcount.value as real, n + 1, n)] else LargeStream(sqls))
            && Numbered(SlowStream(sqls + [r])) && Numbered(LargeStream(sqls + [r]))
  {
    assert Init(sqls + [r]) == sqls;
    SlowNumbered(sqls + [r]);
    LargeNumbered(sqls + [r]);
  }

  method List(l: Lists, r: Record, ghost sqls: seq<Record>) returns (next: Lists)
    requires Listed(l, sqls)
    ensures Listed(next, sqls + [r])
  {
    StreamsGrow(sqls, r);
    var n := l.seqNo + 1;
    var slowest := Offer(l.slowest, SLOWEST, Entry(r.duration, n, n - 1), SlowStream(sqls));
    var largest := l.largest;
    if IsLarge(r) {
      largest := Offer(largest, LARGEST, Entry(r.rowcount.value as real, n, n - 1), LargeStream(sqls));
    }
    next := Lists(l.durations + [r.duration], l.operations + multiset{r.operation}, n, slowest, largest);
    assert Init(sqls + [r]) == sqls;
  }

  method Absorb(f: Files, l: Lists, r: Record, ghost recs: seq<Record>) returns (files: Files, lists: Lists)
    requires Filed(f, Sqls(recs)) && Listed(l, Sqls(recs))
    ensures Filed(files, Sqls(recs + [r])) && Listed(lists, Sqls(recs + [r]))
  {
    assert Init(recs + [r]) == recs;
    files, lists := f, l;
    if r.kind == Sql {
      FileAgrees(f, Sqls(recs), r);
      files := File(f, r);
      lists := List(l, r, Sqls(recs));
    }
  }

  // ---- One request event -----------------------------------------------------------------------

  lemma {:induction false} AskedKeeps(q: Requests, events: seq<Event>, id: Name, query: Query)
    requires Requested(q, events)
    ensures Requested(q.(pending := Ask(q.pending, id, query)), events + [Asked(id, query)])
  {
    assert Init(events + [Asked(id, query)]) == events;
    AskedAgrees(q.pending, events, id, query);
  }

  lemma {:induction false} ClosedRepeated(pending: map<Name, Request>, events: seq<Event>, id: Name, route: Name, f: Finding)
    requires PendingAgrees(pending, events)
    ensures Repeated(events + [Closed(id, route)], f) <==>
            Repeated(events, f) || (id in pending && IsRepeat(pending[id], id, route, f))
  {
    var queries := Open(events, id);
    assert Init(events + [Closed(id, route)]) == events;
    assert PendingAt(pending, queries, id);
    NoGroup(ByPrint(queries), f.fingerprint);
  }

  lemma {:induction false} ClosedDuplicated(pending: map<Name, Request>, events: seq<Event>, id: Name, route: Name, d: Duplicate)
    requires PendingAgrees(pending, events)
    ensures Duplicated(events + [Closed(id, route)], d) <==>
            Duplicated(events, d) || (id in pending && IsDuplicate(pending[id], id, route, d))
  {
    var queries := Open(events, id);
    var calls := ByDigest(queries, d.fingerprint);
    assert Init(events + [Closed(id, route)]) == events;
    assert PendingAt(pending, queries, id);
    NoGroup(calls, d.digest);
    if id in pending {
      assert ExactAt(pending[id].exact, calls, d.fingerprint, d.digest);
    }
  }

  /** A request summary: the request leaves the pending index, and exactly its repeats are reported. */
  method Close(q: Requests, id: Name, route: Name, ghost events: seq<Event>) returns (next: Requests)
    requires Requested(q, events)
    ensures Requested(next, events + [Closed(id, route)])
  {
    var more, exact := [], [];
    if id in q.pending {
      more := ListRepeated(q.pending[id], id, route);
      exact := ListDuplicates(q.pending[id], id, route);
    }
    next := Requests(q.pending - {id}, q.repeated + more, q.duplicates + exact);
    ClosedAgrees(q.pending, events, id, route);
    forall f { ClosedRepeated(q.pending, events, id, route, f); }
    forall d { ClosedDuplicated(q.pending, events, id, route, d); }
  }

  method Follow(q: Requests, r: Record, ghost events: seq<Event>) returns (next: Requests)
    requires Requested(q, events)
    ensures Requested(next, events + EventOf(r))
  {
    next := q;
    if r.request.None? || (r.kind != Sql && r.kind != RequestSummary) {
      assert events + EventOf(r) == events;
    } else if r.kind == Sql {
      var query := Query(r.fingerprint, r.digest, r.duration);
      AskedKeeps(q, events, r.request.value, query);
      next := q.(pending := Ask(q.pending, r.request.value, query));
    } else {
      next := Close(q, r.request.value, r.route, events);
    }
  }

  /** All three agree with their plain definitions over the records of the window. */
  ghost predicate Agree(f: Files, l: Lists, q: Requests, recs: seq<Record>) {
    Filed(f, Sqls(recs)) && Listed(l, Sqls(recs)) && Requested(q, Events(recs))
  }

  const NO_FILES: Files := Files(map[], map[], map[], map[], map[])
  const NO_LISTS: Lists := Lists([], multiset{}, 0, [], [])
  const NO_REQUESTS: Requests := Requests(map[], [], [])

  lemma {:induction false} EmptyAgrees()
    ensures Agree(NO_FILES, NO_LISTS, NO_REQUESTS, [])
  {
  }

  // ---- The scan ----------------------------------------------------------------------------------

  /** One record of the window. */
  method Take(f: Files, l: Lists, q: Requests, r: Record, ghost recs: seq<Record>)
    returns (files: Files, lists: Lists, requests: Requests)
    requires Agree(f, l, q, recs)
    ensures Agree(files, lists, requests, recs + [r])
  {
    assert Init(recs + [r]) == recs;
    requests := Follow(q, r, Events(recs));
    files, lists := Absorb(f, l, r, recs);
  }

  /** The scan: every index agrees with its plain definition over the records of the window. */
  method Run(lines: seq<Line>, start: int, end: int)
    returns (files: Files, lists: Lists, requests: Requests)
    ensures Agree(files, lists, requests, InWindow(lines, start, end))
  {
    files, lists, requests := NO_FILES, NO_LISTS, NO_REQUESTS;
    EmptyAgrees();
    ghost var recs := [];
    for i := 0 to |lines|
      invariant recs == InWindow(lines[..i], start, end)
      invariant Agree(files, lists, requests, recs)
    {
      assert Init(lines[..i + 1]) == lines[..i];
      if lines[i].Dated? && start <= lines[i].rec.when <= end {
        files, lists, requests := Take(files, lists, requests, lines[i].rec, recs);
        recs := recs + [lines[i].rec];
      }
    }
    assert lines[..|lines|] == lines;
  }

  // ---- What the report says --------------------------------------------------------------------

  /** The in-window SQL records: how many, and their total duration. */
  function Whole(sqls: seq<Record>): (r: Stat)
    ensures r.calls == |sqls|
  {
    if sqls == [] then NOTHING else Plus(Whole(Init(sqls)), Stat(1, Last(sqls).duration))
  }

  function Sum(durations: seq<real>): real {
    if durations == [] then 0.0 else Sum(Init(durations)) + Last(durations)
  }

  lemma {:induction false} CallsWhole(sqls: seq<Record>, axis: Axis)
    ensures StatOf(Calls(sqls, axis)) == Whole(sqls)
  {
    if sqls != [] {
      CallsWhole(Init(sqls), axis);
      var calls, c := Calls(Init(sqls), axis), Call(Key(Last(sqls), axis), Last(sqls).duration);
      assert Init(calls + [c]) == calls;
    }
  }

  lemma {:induction false} DurationsSum(calls: seq<Call>, k: Name)
    ensures Stat(|DurationsAt(calls, k)|, Sum(DurationsAt(calls, k))) == Group(calls, k)
  {
    if calls != [] {
      DurationsSum(Init(calls), k);
      var front := DurationsAt(Init(calls), k);
      assert Init(front + [Last(calls).duration]) == front;
    }
  }

  lemma {:induction false} FlatLists(sqls: seq<Record>)
    ensures |Durations(sqls)| == |sqls| && |Operations(sqls)| == |sqls| && Sum(Durations(sqls)) == Whole(sqls).ms
  {
    if sqls != [] {
      FlatLists(Init(sqls));
      var front := Durations(Init(sqls));
      assert Init(front + [Last(sqls).duration]) == front;
    }
  }

  ghost function FingerprintTotal(m: map<Name, Fingerprint>): Stat {
    SumOver(m.Keys, k => if k in m then Stat(|m[k].durations|, m[k].total) else NOTHING)
  }

  ghost function DayTotal(m: map<Name, Day>): Stat {
    SumOver(m.Keys, k => if k in m then Stat(|m[k].operations|, Sum(m[k].durations)) else NOTHING)
  }

  lemma {:induction false} FingerprintsAddUp(m: map<Name, Fingerprint>, sqls: seq<Record>)
    requires forall k :: FingerprintAt(m, Calls(sqls, Fingerprints), k)
    ensures FingerprintTotal(m) == Whole(sqls)
  {
    var calls := Calls(sqls, Fingerprints);
    forall k { AbsentKey(calls, k); }
    assert forall k | k in m :: FingerprintAt(m, calls, k);
    assert m.Keys == Keys(calls) by {
      forall k ensures k in m.Keys <==> k in Keys(calls) {
        assert FingerprintAt(m, calls, k);
      }
    }
    SumSame(m.Keys, k => if k in m then Stat(|m[k].durations|, m[k].total) else NOTHING, k => Group(calls, k));
    GroupsPartition(calls);
    CallsWhole(sqls, Fingerprints);
  }

  lemma {:induction false} DaysAddUp(m: map<Name, Day>, sqls: seq<Record>)
    requires forall k :: DayAt(m, sqls, k)
    ensures DayTotal(m) == Whole(sqls)
  {
    var calls := Calls(sqls, Days);
    forall k ensures Group(calls, k) == Stat(|OperationsOn(sqls, k)|, Sum(DurationsAt(calls, k))) {
      DurationsSum(calls, k);
      AbsentDay(sqls, k);
    }
    assert forall k | k in m :: DayAt(m, sqls, k);
    assert m.Keys == Keys(calls) by {
      forall k ensures k in m.Keys <==> k in Keys(calls) {
        assert DayAt(m, sqls, k);
      }
    }
    SumSame(m.Keys, k => if k in m then Stat(|m[k].operations|, Sum(m[k].durations)) else NOTHING, k => Group(calls, k));
    GroupsPartition(calls);
    CallsWhole(sqls, Days);
  }

  /** Every index counts every in-window SQL record once, and they all add up to the same time. */
  lemma {:induction false} IndexesAgree(f: Files, l: Lists, sqls: seq<Record>)
    requires Filed(f, sqls) && Listed(l, sqls)
    ensures |l.durations| == |l.operations| == |sqls| && Sum(l.durations) == Whole(sqls).ms
    ensures Total(f.roles) == Total(f.hours) == Total(f.commits) == Whole(sqls)
    ensures FingerprintTotal(f.fingerprints) == DayTotal(f.days) == Whole(sqls)
  {
    FlatLists(sqls);
    IndexTotal(f.roles, Calls(sqls, Roles));
    IndexTotal(f.hours, Calls(sqls, Hours));
    IndexTotal(f.commits, Calls(sqls, Commits));
    CallsWhole(sqls, Roles);
    CallsWhole(sqls, Hours);
    CallsWhole(sqls, Commits);
    FingerprintsAddUp(f.fingerprints, sqls);
    DaysAddUp(f.days, sqls);
  }

  /** The row counts of at least a hundred rows. */
  function LargeRows(sqls: seq<Record>): seq<real> {
    if sqls == [] then []
    else if IsLarge(Last(sqls)) then LargeRows(Init(sqls)) + [Last(sqls).rowcount.value as real]
    else LargeRows(Init(sqls))
  }

  lemma {:induction false} StreamValues(sqls: seq<Record>)
    ensures Values(SlowStream(sqls)) == Durations(sqls) && Values(LargeStream(sqls)) == LargeRows(sqls)
  {
    if sqls != [] {
      StreamValues(Init(sqls));
    }
  }

  /** The reported slowest calls and largest results are the heads of the full lists, sorted down. */
  lemma {:induction false} ReportShowsLargest(l: Lists, sqls: seq<Record>, slow: seq<real>, large: seq<real>, byTime: seq<real>, byRows: seq<real>)
    requires Listed(l, sqls)
    requires SortedDown(slow, Values(l.slowest)) && SortedDown(byTime, Durations(sqls))
    requires SortedDown(large, Values(l.largest)) && SortedDown(byRows, LargeRows(sqls))
    ensures slow == if |byTime| < SLOWEST then byTime else byTime[..SLOWEST]
    ensures large == if |byRows| < LARGEST then byRows else byRows[..LARGEST]
  {
    StreamValues(sqls);
    HeapShows(l.slowest, SlowStream(sqls), SLOWEST, slow, byTime);
    HeapShows(l.largest, LargeStream(sqls), LARGEST, large, byRows);
  }

  lemma {:induction false} HeapShows(h: seq<Entry>, stream: seq<Entry>, k: nat, shown: seq<real>, all: seq<real>)
    requires Keeps(h, stream, k) && SortedDown(shown, Values(h)) && SortedDown(all, Values(stream))
    ensures shown == if |all| < k then all else all[..k]
  {
    StreamingSorts(h, stream, k, shown, all);
    SameLength(all, Values(stream));
  }
}
