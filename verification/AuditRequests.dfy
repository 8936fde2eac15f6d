/** Repeated queries per request: the pending index, and the findings reported when a request ends. */
module AuditRequests {
  import opened Common
  import opened AuditIndexes

  datatype Query = Query(fingerprint: Name, digest: Name, duration: real)

  /** The part of the log that concerns requests. */
  datatype Event = Asked(request: Name, query: Query) | Closed(request: Name, route: Name)

  const NO_DIGEST: Name := Name(0)

  datatype Request = Request(fps: Index, exact: map<(Name, Name), Stat>)

  const NEW_REQUEST: Request := Request(map[], map[])

  datatype Finding = Finding(request: Name, route: Name, fingerprint: Name, stat: Stat)

  datatype Duplicate = Duplicate(request: Name, route: Name, fingerprint: Name, digest: Name, stat: Stat)

  // ---- Plain definitions -----------------------------------------------------------------------

  /** The queries of a request since its last summary. */
  function Open(events: seq<Event>, request: Name): seq<Query> {
    if events == [] then [] else
      var e := Last(events);
      if e.request != request then Open(Init(events), request)
      else if e.Closed? then []
      else Open(Init(events), request) + [e.query]
  }

  function ByPrint(queries: seq<Query>): seq<Call> {
    if queries == [] then [] else ByPrint(Init(queries)) + [Call(Last(queries).fingerprint, Last(queries).duration)]
  }

  /** The calls of one fingerprint, filed under their parameter digest. */
  function ByDigest(queries: seq<Query>, fingerprint: Name): seq<Call> {
    if queries == [] then [] else
      var q := Last(queries);
      if q.fingerprint == fingerprint then ByDigest(Init(queries), fingerprint) + [Call(q.digest, q.duration)]
      else ByDigest(Init(queries), fingerprint)
  }

  lemma {:induction false} PrintIsItsDigests(queries: seq<Query>, fingerprint: Name)
    ensures Group(ByPrint(queries), fingerprint) == StatOf(ByDigest(queries, fingerprint))
  {
    if queries != [] {
      var front, q := Init(queries), Last(queries);
      PrintIsItsDigests(front, fingerprint);
      assert Init(ByPrint(front) + [Call(q.fingerprint, q.duration)]) == ByPrint(front);
      assert Init(ByDigest(front, fingerprint) + [Call(q.digest, q.duration)]) == ByDigest(front, fingerprint);
    }
  }

  // ---- The pending index -----------------------------------------------------------------------

  ghost predicate ExactAt(exact: map<(Name, Name), Stat>, calls: seq<Call>, fp: Name, d: Name) {
    && ((fp, d) in exact <==> d in Keys(calls))
    && ((fp, d) in exact ==> exact[(fp, d)] == Group(calls, d))
  }

  ghost predicate ExactAgrees(exact: map<(Name, Name), Stat>, queries: seq<Query>) {
    forall fp, d :: ExactAt(exact, ByDigest(queries, fp), fp, d)
  }

  ghost predicate RequestAgrees(r: Request, queries: seq<Query>) {
    Indexes(r.fps, ByPrint(queries)) && ExactAgrees(r.exact, queries)
  }

  ghost predicate PendingAt(pending: map<Name, Request>, queries: seq<Query>, id: Name) {
    && (id in pending <==> queries != [])
    && (id in pending ==> RequestAgrees(pending[id], queries))
  }

  ghost predicate PendingAgrees(pending: map<Name, Request>, events: seq<Event>) {
    forall id :: PendingAt(pending, Open(events, id), id)
  }

  function PutExact(m: map<(Name, Name), Stat>, q: Query): map<(Name, Name), Stat> {
    var key := (q.fingerprint, q.digest);
    m[key := Plus(if key in m then m[key] else NOTHING, Stat(1, q.duration))]
  }

  function AddQuery(r: Request, q: Query): Request {
    Request(Put(r.fps, q.fingerprint, q.duration), PutExact(r.exact, q))
  }

  lemma {:induction false} PutExactAt(m: map<(Name, Name), Stat>, calls: seq<Call>, q: Query, fp: Name, d: Name)
    requires ExactAt(m, calls, fp, d)
    ensures ExactAt(PutExact(m, q), if fp == q.fingerprint then calls + [Call(q.digest, q.duration)] else calls, fp, d)
  {
    assert Init(calls + [Call(q.digest, q.duration)]) == calls;
    NoGroup(calls, d);
  }

  lemma {:induction false} PutExactAgrees(m: map<(Name, Name), Stat>, queries: seq<Query>, q: Query)
    requires ExactAgrees(m, queries)
    ensures ExactAgrees(PutExact(m, q), queries + [q])
  {
    assert Init(queries + [q]) == queries;
    forall fp, d ensures ExactAt(PutExact(m, q), ByDigest(queries + [q], fp), fp, d) {
      PutExactAt(m, ByDigest(queries, fp), q, fp, d);
    }
  }

  lemma {:induction false} AddQueryAgrees(r: Request, queries: seq<Query>, q: Query)
    requires RequestAgrees(r, queries)
    ensures RequestAgrees(AddQuery(r, q), queries + [q])
  {
    assert Init(queries + [q]) == queries;
    PutIndexes(r.fps, ByPrint(queries), Call(q.fingerprint, q.duration));
    PutExactAgrees(r.exact, queries, q);
  }

  lemma {:induction false} NewRequestAgrees()
    ensures RequestAgrees(NEW_REQUEST, [])
  {
  }

  /** The index after one more query of request `id`. */
  function Ask(pending: map<Name, Request>, id: Name, q: Query): map<Name, Request> {
    pending[id := AddQuery(if id in pending then pending[id] else NEW_REQUEST, q)]
  }

  lemma {:induction false} AskedOne(pending: map<Name, Request>, queries: seq<Query>, id: Name, q: Query)
    requires PendingAt(pending, queries, id)
    ensures PendingAt(Ask(pending, id, q), queries + [q], id)
  {
    NewRequestAgrees();
    AddQueryAgrees(if id in pending then pending[id] else NEW_REQUEST, queries, q);
  }

  lemma {:induction false} AskedAgrees(pending: map<Name, Request>, events: seq<Event>, id: Name, q: Query)
    requires PendingAgrees(pending, events)
    ensures PendingAgrees(Ask(pending, id, q), events + [Asked(id, q)])
  {
    assert Init(events + [Asked(id, q)]) == events;
    AskedOne(pending, Open(events, id), id, q) by {
      assert PendingAt(pending, Open(events, id), id);
    }
    forall other ensures PendingAt(Ask(pending, id, q), Open(events + [Asked(id, q)], other), other) {
      assert PendingAt(pending, Open(events, other), other);
    }
  }

  lemma {:induction false} ClosedAgrees(pending: map<Name, Request>, events: seq<Event>, id: Name, route: Name)
    requires PendingAgrees(pending, events)
    ensures PendingAgrees(pending - {id}, events + [Closed(id, route)])
  {
    assert Init(events + [Closed(id, route)]) == events;
    forall other ensures PendingAt(pending - {id}, Open(events + [Closed(id, route)], other), other) {
      assert PendingAt(pending, Open(events, other), other);
    }
  }

  /** Per pending request, each fingerprint's calls and time are the sum over its parameter digests. */
  lemma {:induction false} DigestsAddUp(r: Request, queries: seq<Query>, fingerprint: Name)
    requires RequestAgrees(r, queries) && fingerprint in r.fps
    ensures r.fps[fingerprint] == SumOver(set key | key in r.exact && key.0 == fingerprint :: key.1,
                                          d => if (fingerprint, d) in r.exact then r.exact[(fingerprint, d)] else NOTHING)
  {
    var calls := ByDigest(queries, fingerprint);
    var digests := set key | key in r.exact && key.0 == fingerprint :: key.1;
    assert digests == Keys(calls) by {
      forall d ensures d in digests <==> d in Keys(calls) {
        assert ExactAt(r.exact, calls, fingerprint, d);
        assert (fingerprint, d) in r.exact ==> (fingerprint, d).1 in digests;
      }
    }
    assert forall d | d in digests :: ExactAt(r.exact, calls, fingerprint, d);
    SumSame(digests, d => if (fingerprint, d) in r.exact then r.exact[(fingerprint, d)] else NOTHING, d => Group(calls, d));
    GroupsPartition(calls);
    PrintIsItsDigests(queries, fingerprint);
  }

  // ---- Findings --------------------------------------------------------------------------------

  /** Some request summary reported this fingerprint as repeated. */
  ghost predicate Repeated(events: seq<Event>, f: Finding) {
    events != [] &&
    (|| Repeated(Init(events), f)
     || (&& Last(events) == Closed(f.request, f.route)
         && f.stat == Group(ByPrint(Open(Init(events), f.request)), f.fingerprint) && f.stat.calls >= 2))
  }

  /** Some request summary reported this fingerprint as repeated with the same parameters. */
  ghost predicate Duplicated(events: seq<Event>, d: Duplicate) {
    events != [] &&
    (|| Duplicated(Init(events), d)
     || (&& Last(events) == Closed(d.request, d.route) && d.digest != NO_DIGEST
         && d.stat == Group(ByDigest(Open(Init(events), d.request), d.fingerprint), d.digest) && d.stat.calls >= 2))
  }

  lemma {:induction false} GroupWithin(calls: seq<Call>, key: Name)
    ensures Group(calls, key).calls <= StatOf(calls).calls
    ensures (forall c | c in calls :: c.duration >= 0.0) ==> 0.0 <= Group(calls, key).ms <= StatOf(calls).ms
  {
    if calls != [] {
      GroupWithin(Init(calls), key);
      assert forall c | c in Init(calls) :: c in calls;
    }
  }

  predicate NonNegative(queries: seq<Query>) {
    forall q | q in queries :: q.duration >= 0.0
  }

  lemma {:induction false} DigestDurations(queries: seq<Query>, fingerprint: Name)
    requires NonNegative(queries)
    ensures forall c | c in ByDigest(queries, fingerprint) :: c.duration >= 0.0
  {
    if queries != [] {
      assert forall q | q in Init(queries) :: q in queries;
      DigestDurations(Init(queries), fingerprint);
    }
  }

  lemma {:induction false} OpenDurations(events: seq<Event>, request: Name)
    requires forall e | e in events && e.Asked? :: e.query.duration >= 0.0
    ensures NonNegative(Open(events, request))
  {
    if events != [] {
      assert forall e | e in Init(events) :: e in events;
      OpenDurations(Init(events), request);
    }
  }

  /** Every exact duplicate has a repeated-query finding of the same request, with at least as many calls. */
  lemma {:induction false} DuplicatesAreRepeated(events: seq<Event>, d: Duplicate) returns (f: Finding)
    requires Duplicated(events, d)
    ensures Repeated(events, f)
    ensures f.request == d.request && f.route == d.route && f.fingerprint == d.fingerprint
    ensures f.stat.calls >= d.stat.calls
    ensures (forall e | e in events && e.Asked? :: e.query.duration >= 0.0) ==> f.stat.ms >= d.stat.ms
  {
    var front := Init(events);
    assert forall e | e in front :: e in events;
    if Duplicated(front, d) {
      f := DuplicatesAreRepeated(front, d);
    } else {
      var queries := Open(front, d.request);
      f := Finding(d.request, d.route, d.fingerprint, Group(ByPrint(queries), d.fingerprint));
      PrintIsItsDigests(queries, d.fingerprint);
      GroupWithin(ByDigest(queries, d.fingerprint), d.digest);
      if forall e | e in events && e.Asked? :: e.query.duration >= 0.0 {
        OpenDurations(front, d.request);
        DigestDurations(queries, d.fingerprint);
      }
    }
  }

  // ---- The summary loops -----------------------------------------------------------------------

  /** An entry of a request's fingerprint index that was called at least twice. */
  predicate IsRepeat(r: Request, request: Name, route: Name, f: Finding) {
    && f.request == request && f.route == route && f.fingerprint in r.fps
    && f.stat == r.fps[f.fingerprint] && f.stat.calls >= 2
  }

  predicate IsDuplicate(r: Request, request: Name, route: Name, d: Duplicate) {
    && d.request == request && d.route == route && (d.fingerprint, d.digest) in r.exact && d.digest != NO_DIGEST
    && d.stat == r.exact[(d.fingerprint, d.digest)] && d.stat.calls >= 2
  }

  /** The repeated queries of a closed request. */
  method ListRepeated(r: Request, request: Name, route: Name) returns (found: seq<Finding>)
    ensures forall f :: f in found <==> IsRepeat(r, request, route, f)
  {
    found := [];
    var left := r.fps.Keys;
    while left != {}
      invariant left <= r.fps.Keys
      invariant forall f :: f in found <==> IsRepeat(r, request, route, f) && f.fingerprint !in left
      decreases |left|
    {
      var fp :| fp in left;
      if r.fps[fp].calls >= 2 {
        found := found + [Finding(request, route, fp, r.fps[fp])];
      }
      left := left - {fp};
    }
  }

  method ListDuplicates(r: Request, request: Name, route: Name) returns (found: seq<Duplicate>)
    ensures forall d :: d in found <==> IsDuplicate(r, request, route, d)
  {
    found := [];
    var left := r.exact.Keys;
    while left != {}
      invariant left <= r.exact.Keys
      invariant forall d :: d in found <==> IsDuplicate(r, request, route, d) && (d.fingerprint, d.digest) !in left
      decreases |left|
    {
      var key :| key in left;
      if key.1 != NO_DIGEST && r.exact[key].calls >= 2 {
        found := found + [Duplicate(request, route, key.0, key.1, r.exact[key])];
      }
      left := left - {key};
    }
  }
}
