/** Every job table in order has a history: job transactions that hand out its tokens and end what no longer runs. */
module JobHistory {
  import opened Common
  import opened Timeline
  import opened JobTable
  import opened Runtime

  /** What the columns of a table say by themselves: tokens are where they belong, issued, and not shared. */
  ghost predicate InOrder(jobs: map<JobId, Job>, next: Token) {
    && (forall id | id in jobs :: RowOk(jobs[id]) && (jobs[id].token.Some? ==> jobs[id].token.value < next))
    && (forall a, b | a in jobs && b in jobs && a != b && jobs[a].token.Some? :: jobs[a].token != jobs[b].token)
  }

  function Holders(jobs: map<JobId, Job>): set<JobId> {
    set id | id in jobs && jobs[id].token.Some?
  }

  /** The holder of the latest token. */
  lemma {:induction false} Latest(jobs: map<JobId, Job>, among: set<JobId>) returns (id: JobId)
    requires among != {} && among <= Holders(jobs)
    ensures id in among && forall x | x in among :: jobs[x].token.value <= jobs[id].token.value
    decreases among
  {
    var one :| one in among;
    var rest := among - {one};
    if rest == {} {
      assert among == {one};
      id := one;
    } else {
      var other := Latest(jobs, rest);
      id := if jobs[other].token.value > jobs[one].token.value then other else one;
      assert forall x | x in among :: x == one || x in rest;
    }
  }

  lemma {:induction false} MoreTokens(s: Store, next: Token)
    requires Ledger(s) && s.next <= next
    ensures Ledger(s.(next := next))
  {
    var t := s.(next := next);
    assert forall id: JobId, k: Token :: LiveUnder(t, id, k) == LiveUnder(s, id, k);
    assert forall id: JobId :: IsRunning(t, id) == IsRunning(s, id);
  }

  lemma {:induction false} Untouched(jobs: map<JobId, Job>, next: Token)
    requires InOrder(jobs, next) && Holders(jobs) == {}
    ensures Ledger(Store(jobs, next, []))
  {
    assert forall id | id in jobs :: id !in Holders(jobs);
  }

  /** One more token is handed out. */
  lemma {:induction false} Issued(jobs: map<JobId, Job>, id: JobId, log: seq<Event>) returns (s: Store)
    requires id in jobs && jobs[id].token.Some?
    requires Ledger(Store(jobs[id := Unowned(jobs[id], Queued)], jobs[id].token.value, log))
    ensures Ledger(s) && s.next == jobs[id].token.value + 1 && id in s.jobs && s.jobs[id := jobs[id]] == jobs
    ensures s.jobs[id].status == Running && s.jobs[id].token == jobs[id].token
    ensures s.log == log + [Claimed(id, jobs[id].token.value, jobs[id].instance)]
  {
    var s0 := Store(jobs[id := Unowned(jobs[id], Queued)], jobs[id].token.value, log);
    ClaimKeeps(s0, id, "", jobs[id].instance, 0);
    s := Claim(s0, id, "", jobs[id].instance, 0);
  }

  /** Its execution still runs, or is ended again. */
  lemma {:induction false} Handed(jobs: map<JobId, Job>, id: JobId, log: seq<Event>) returns (longer: seq<Event>)
    requires id in jobs && jobs[id].token.Some? && RowOk(jobs[id])
    requires Ledger(Store(jobs[id := Unowned(jobs[id], Queued)], jobs[id].token.value, log))
    requires forall k | 0 <= k < |log| :: Outside(log[k])
    ensures Ledger(Store(jobs, jobs[id].token.value + 1, longer)) && forall k | 0 <= k < |longer| :: Outside(longer[k])
  {
    var s := Issued(jobs, id, log);
    if jobs[id].status == Running {
      Refreshed(s, id, jobs);
      longer := s.log;
    } else {
      RevokeKeeps(s, id, jobs[id]);
      longer := Revoke(s, id, jobs[id]).log;
    }
  }

  lemma {:induction false} Refreshed(s: Store, id: JobId, jobs: map<JobId, Job>)
    requires Ledger(s) && id in s.jobs && id in jobs && s.jobs[id := jobs[id]] == jobs && RowOk(jobs[id])
    requires s.jobs[id].status == jobs[id].status == Running && s.jobs[id].token == jobs[id].token
    ensures Ledger(Store(jobs, s.next, s.log))
  {
    NeutralKeeps(s, s.(jobs := jobs));
  }

  /** So whatever rows a dead worker left behind, the table has a history with the ledger. */
  lemma {:induction false} HistoryOf(jobs: map<JobId, Job>, next: Token) returns (log: seq<Event>)
    requires InOrder(jobs, next)
    ensures Ledger(Store(jobs, next, log)) && forall k | 0 <= k < |log| :: Outside(log[k])
    decreases Holders(jobs)
  {
    if Holders(jobs) == {} {
      Untouched(jobs, next);
      log := [];
    } else {
      var id := Latest(jobs, Holders(jobs));
      var rest := jobs[id := Unowned(jobs[id], Queued)];
      assert Holders(rest) == Holders(jobs) - {id};
      forall x | x in rest && rest[x].token.Some? ensures rest[x].token.value < jobs[id].token.value {
        assert x in Holders(jobs) && x != id;
      }
      var before := HistoryOf(rest, jobs[id].token.value);
      log := Handed(jobs, id, before);
      MoreTokens(Store(jobs, jobs[id].token.value + 1, log), next);
    }
  }
}
