/**
 * The read-only counters of src/mongodb-queue.js (`total`, `waiting`,
 * `inFlight`, `succeeded`, `failed`, `cancelled`): each is a `count` over the
 * collection with one filter. They never change the table; the lemmas say
 * how each operation moves them.
 */
module Census {
  import opened Jobs
  import opened Table

  /** The filters the counters pass to `count`. */
  datatype Query = All | ReadyAt(now: int) | InStatus(status: Status)

  predicate Matches<P>(j: Job<P>, q: Query) {
    match q
    case All => true
    case ReadyAt(now) => IsEligible(j, now)
    case InStatus(s) => j.status == s
  }

  function Matching<P>(jobs: Collection<P>, q: Query): set<nat> {
    set id | id in jobs && Matches(jobs[id], q)
  }

  lemma SubsetSize<T>(a: set<T>, b: set<T>)
    requires a <= b
    ensures |a| <= |b|
  {
    assert b == a + (b - a);
    DisjointUnionSize(a, b - a);
  }

  lemma DisjointUnionSize<T>(a: set<T>, b: set<T>)
    requires a !! b
    ensures |a + b| == |a| + |b|
  {
    assert a * b == {};
  }

  /** `count(query)`: how many documents match. */
  function Count<P>(jobs: Collection<P>, q: Query): (n: nat)
    ensures n <= |jobs|
  {
    SubsetSize(Matching(jobs, q), jobs.Keys);
    |Matching(jobs, q)|
  }

  /** `total`. */
  function TotalCount<P>(jobs: Collection<P>): (n: nat)
    ensures n == |jobs|
  {
    assert Matching(jobs, All) == jobs.Keys;
    Count(jobs, All)
  }

  /** `waiting`: only the waiting jobs already visible at `now` are counted. */
  function WaitingCount<P>(jobs: Collection<P>, now: int): (n: nat)
    ensures n <= Count(jobs, InStatus(Waiting))
    ensures n == 0 <==> forall id :: id in jobs ==> !IsEligible(jobs[id], now)
  {
    SubsetSize(Matching(jobs, ReadyAt(now)), Matching(jobs, InStatus(Waiting)));
    assert forall id :: id in jobs && IsEligible(jobs[id], now) ==> id in Matching(jobs, ReadyAt(now));
    Count(jobs, ReadyAt(now))
  }

  /** `inFlight`. */
  function InFlightCount<P>(jobs: Collection<P>): (n: nat)
    ensures n <= TotalCount(jobs)
  {
    Count(jobs, InStatus(Running))
  }

  /** `succeeded`. */
  function SucceededCount<P>(jobs: Collection<P>): (n: nat)
    ensures n <= TotalCount(jobs)
  {
    Count(jobs, InStatus(Success))
  }

  /** `failed`. */
  function FailedCount<P>(jobs: Collection<P>): (n: nat)
    ensures n <= TotalCount(jobs)
  {
    Count(jobs, InStatus(Failed))
  }

  /** `cancelled`. */
  function CancelledCount<P>(jobs: Collection<P>): (n: nat)
    ensures n <= TotalCount(jobs)
  {
    Count(jobs, InStatus(Cancelled))
  }

  /** Every job has exactly one status, so the per-status counts add up to `total`. */
  lemma StatusPartition<P>(jobs: Collection<P>)
    ensures Count(jobs, InStatus(Waiting)) + InFlightCount(jobs) + SucceededCount(jobs)
            + FailedCount(jobs) + CancelledCount(jobs) == TotalCount(jobs)
  {
    var w, r, s := Matching(jobs, InStatus(Waiting)), Matching(jobs, InStatus(Running)), Matching(jobs, InStatus(Success));
    var f, c := Matching(jobs, InStatus(Failed)), Matching(jobs, InStatus(Cancelled));
    forall id | id in jobs
      ensures id in w + r + s + f + c
    {
      match jobs[id].status
      case Waiting => assert id in w;
      case Running => assert id in r;
      case Success => assert id in s;
      case Failed => assert id in f;
      case Cancelled => assert id in c;
    }
    assert jobs.Keys == w + r + s + f + c;
    DisjointUnionSize(w, r);
    DisjointUnionSize(w + r, s);
    DisjointUnionSize(w + r + s, f);
    DisjointUnionSize(w + r + s + f, c);
    assert Matching(jobs, All) == jobs.Keys;
  }

  /** The documents matching `q` are those other than `id` that match, plus `id` when it matches. */
  lemma MatchingSplit<P>(jobs: Collection<P>, id: nat, q: Query)
    requires id in jobs
    ensures Matching(jobs, q) == Matching(jobs - {id}, q) + (if Matches(jobs[id], q) then {id} else {})
    ensures id !in Matching(jobs - {id}, q)
  {
  }

  /** Replacing one document moves a count by what the old and the new document contribute. */
  lemma CountAfterUpdate<P>(jobs: Collection<P>, id: nat, j: Job<P>, q: Query)
    requires id in jobs
    ensures Count(jobs[id := j], q) ==
            Count(jobs, q) - (if Matches(jobs[id], q) then 1 else 0) + (if Matches(j, q) then 1 else 0)
  {
    var updated := jobs[id := j];
    assert updated - {id} == jobs - {id};
    var rest := Matching(jobs - {id}, q);
    MatchingSplit(jobs, id, q);
    MatchingSplit(updated, id, q);
    DisjointUnionSize(rest, if Matches(jobs[id], q) then {id} else {});
    DisjointUnionSize(rest, if Matches(j, q) then {id} else {});
  }

  /** `get` moves the job it takes from `waiting` to `inFlight`; the total is unchanged. */
  lemma GetCensus<P>(jobs: Collection<P>, now: int, id: nat, until: int, worker: string)
    requires IsNext(jobs, now, id)
    ensures var leased := jobs[id := Lease(jobs[id], now, until, worker)];
      && WaitingCount(leased, now) == WaitingCount(jobs, now) - 1
      && InFlightCount(leased) == InFlightCount(jobs) + 1
      && TotalCount(leased) == TotalCount(jobs)
  {
    var leased := Lease(jobs[id], now, until, worker);
    CountAfterUpdate(jobs, id, leased, ReadyAt(now));
    CountAfterUpdate(jobs, id, leased, InStatus(Running));
  }

  /** `touch` and `progress` leave every count as it was. */
  lemma TouchProgressKeepCensus<P>(jobs: Collection<P>, id: nat, now: int, until: int, p: int)
    requires Leased(jobs, id, now)
    ensures forall q :: Count(jobs[id := Renew(jobs[id], until)], q) == Count(jobs, q)
    ensures forall q :: Count(jobs[id := WithProgress(jobs[id], p)], q) == Count(jobs, q)
  {
    forall q ensures Count(jobs[id := Renew(jobs[id], until)], q) == Count(jobs, q) {
      CountAfterUpdate(jobs, id, Renew(jobs[id], until), q);
    }
    forall q ensures Count(jobs[id := WithProgress(jobs[id], p)], q) == Count(jobs, q) {
      CountAfterUpdate(jobs, id, WithProgress(jobs[id], p), q);
    }
  }

  /** `done` moves one job from `inFlight` to `succeeded`. */
  lemma DoneCensus<P>(jobs: Collection<P>, id: nat, now: int)
    requires Leased(jobs, id, now)
    ensures var finished := jobs[id := Complete(jobs[id])];
      && SucceededCount(finished) == SucceededCount(jobs) + 1
      && InFlightCount(finished) == InFlightCount(jobs) - 1
      && TotalCount(finished) == TotalCount(jobs)
  {
    CountAfterUpdate(jobs, id, Complete(jobs[id]), InStatus(Success));
    CountAfterUpdate(jobs, id, Complete(jobs[id]), InStatus(Running));
  }

  /** `fail` moves one job out of `inFlight`: into `failed` once its tries exceed maxRetries, else back into `waiting`. */
  lemma FailCensus<P>(jobs: Collection<P>, id: nat, now: int, reason: string)
    requires Leased(jobs, id, now)
    ensures var failed := jobs[id := FailJob(jobs[id], now, reason)];
      && InFlightCount(failed) == InFlightCount(jobs) - 1
      && TotalCount(failed) == TotalCount(jobs)
      && (jobs[id].tries > jobs[id].maxRetries ==>
            FailedCount(failed) == FailedCount(jobs) + 1 && WaitingCount(failed, now) == WaitingCount(jobs, now))
      && (jobs[id].tries <= jobs[id].maxRetries ==>
            FailedCount(failed) == FailedCount(jobs) && WaitingCount(failed, now) == WaitingCount(jobs, now) + 1)
  {
    var j := FailJob(jobs[id], now, reason);
    CountAfterUpdate(jobs, id, j, InStatus(Running));
    CountAfterUpdate(jobs, id, j, InStatus(Failed));
    CountAfterUpdate(jobs, id, j, ReadyAt(now));
  }

  /** After `clean` every remaining job is in flight, and none that was in flight is lost. */
  lemma CleanCensus<P>(jobs: Collection<P>)
    ensures TotalCount(KeepRunning(jobs)) == InFlightCount(KeepRunning(jobs)) == InFlightCount(jobs)
    ensures TotalCount(jobs) - TotalCount(KeepRunning(jobs)) ==
            Count(jobs, InStatus(Waiting)) + SucceededCount(jobs) + FailedCount(jobs) + CancelledCount(jobs)
  {
    var kept := KeepRunning(jobs);
    assert Matching(kept, InStatus(Running)) == kept.Keys;
    assert Matching(jobs, InStatus(Running)) == kept.Keys;
    StatusPartition(jobs);
  }

  /** `add` raises `total` by the number of documents it inserts. */
  lemma AddCensus<P>(jobs: Collection<P>, start: nat, msgs: seq<Job<P>>)
    requires forall id :: id in jobs ==> id < start
    ensures TotalCount(jobs + Inserted(start, msgs)) == TotalCount(jobs) + |msgs|
  {
    InsertKeepsExisting(jobs, start, msgs);
  }
}
