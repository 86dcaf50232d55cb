/**
 * The job collection as a table keyed by id, with the parts of
 * src/mongodb-queue.js that look at more than one document: the sort by which
 * `get` picks a job, the documents `insertMany` adds for `add`, and the
 * filter of `clean`. Ids are naturals handed out in increasing order, which is
 * what the ObjectID order used by `get`'s sort amounts to for one producer.
 */
module Table {
  import opened Jobs

  type Collection<P> = map<nat, Job<P>>

  /** The guard of `touch`, `progress`, `done` and `fail`: `id` names a job whose lease is live. */
  predicate Leased<P>(jobs: Collection<P>, id: nat, now: int) {
    id in jobs && HoldsLease(jobs[id], now)
  }

  /** The sort of `get`: priority descending, then id ascending. */
  predicate Precedes<P>(a: nat, ja: Job<P>, b: nat, jb: Job<P>) {
    ja.priority > jb.priority || (ja.priority == jb.priority && a <= b)
  }

  /** `id` is the job `get` must take at `now`: eligible, and first in sort order among the eligible. */
  predicate IsNext<P>(jobs: Collection<P>, now: int, id: nat) {
    && id in jobs
    && IsEligible(jobs[id], now)
    && forall other :: other in jobs && IsEligible(jobs[other], now) ==> Precedes(id, jobs[id], other, jobs[other])
  }

  /** The first eligible job in sort order among the ids below `n`, if there is one. */
  function FirstEligible<P>(jobs: Collection<P>, now: int, n: nat): (r: Option<nat>)
    ensures r.Some? ==> r.value < n && r.value in jobs && IsEligible(jobs[r.value], now)
    ensures r.Some? ==> forall id :: id in jobs && id < n && IsEligible(jobs[id], now) ==>
                          Precedes(r.value, jobs[r.value], id, jobs[id])
    ensures r.None? <==> forall id :: id in jobs && id < n ==> !IsEligible(jobs[id], now)
  {
    if n == 0 then None
    else
      var prev := FirstEligible(jobs, now, n - 1);
      var id := n - 1;
      if id in jobs && IsEligible(jobs[id], now) && (prev.None? || jobs[id].priority > jobs[prev.value].priority)
      then Some(id)
      else prev
  }

  /** Once every id is below `n`, FirstEligible finds exactly the job `get` must take. */
  lemma FirstEligibleIsNext<P>(jobs: Collection<P>, now: int, n: nat)
    requires forall id :: id in jobs ==> id < n
    ensures FirstEligible(jobs, now, n).Some? ==> IsNext(jobs, now, FirstEligible(jobs, now, n).value)
    ensures FirstEligible(jobs, now, n).None? <==> forall id :: id in jobs ==> !IsEligible(jobs[id], now)
  {
  }

  /** The sort order is total, so `get` has no choice to make. */
  lemma NextIsUnique<P>(jobs: Collection<P>, now: int, a: nat, b: nat)
    requires IsNext(jobs, now, a) && IsNext(jobs, now, b)
    ensures a == b
  {
  }

  /**
   * Two `get`s at the same instant hand out jobs in sort order: the second
   * job has no higher priority than the first, and comes later on a tie.
   */
  lemma SuccessiveGetsInOrder<P>(jobs: Collection<P>, now: int, a: nat, until: int, worker: string, b: nat)
    requires IsNext(jobs, now, a)
    requires IsNext(jobs[a := Lease(jobs[a], now, until, worker)], now, b)
    ensures a != b && b in jobs
    ensures jobs[a].priority > jobs[b].priority || (jobs[a].priority == jobs[b].priority && a < b)
  {
    var leased := jobs[a := Lease(jobs[a], now, until, worker)];
    assert leased[b] == jobs[b];
  }

  /** After `get` leased the only eligible job, the next `get` finds nothing. */
  lemma OnlyJobLeased<P>(jobs: Collection<P>, now: int, a: nat, until: int, worker: string, n: nat)
    requires IsNext(jobs, now, a)
    requires forall id :: id in jobs && IsEligible(jobs[id], now) ==> id == a
    ensures FirstEligible(jobs[a := Lease(jobs[a], now, until, worker)], now, n).None?
  {
    var leased := jobs[a := Lease(jobs[a], now, until, worker)];
    forall id | id in leased && id < n
      ensures !IsEligible(leased[id], now)
    {
      if id != a {
        assert leased[id] == jobs[id];
      }
    }
  }

  /**
   * Three waiting jobs of priorities 3, 5 and 1, stored in that order, are
   * taken by successive `get`s as 5, then 3, then 1.
   */
  lemma PriorityExample<P>(j0: Job<P>, j1: Job<P>, j2: Job<P>, now: int, until: int, worker: string)
    requires IsEligible(j0, now) && IsEligible(j1, now) && IsEligible(j2, now)
    requires j0.priority == 3 && j1.priority == 5 && j2.priority == 1
    ensures var jobs := map[0 := j0, 1 := j1, 2 := j2];
      && IsNext(jobs, now, 1)
      && var jobs' := jobs[1 := Lease(j1, now, until, worker)];
      && IsNext(jobs', now, 0)
      && IsNext(jobs'[0 := Lease(j0, now, until, worker)], now, 2)
  {
  }

  /** The set of ids start, start+1, ..., start+n-1. */
  function IdRange(start: nat, n: nat): (ids: set<nat>)
    ensures forall id :: id in ids <==> start <= id < start + n
    ensures |ids| == n
  {
    if n == 0 then {}
    else
      var rest := IdRange(start, n - 1);
      assert start + n - 1 !in rest;
      rest + {start + n - 1}
  }

  /** The ids `add` reports, in input order. */
  function IdSeq(start: nat, n: nat): (ids: seq<nat>)
    ensures |ids| == n
    ensures forall i :: 0 <= i < n ==> ids[i] == start + i
    ensures forall i, k :: 0 <= i < k < n ==> ids[i] < ids[k]
  {
    seq(n, i => start + i)
  }

  /** The documents `insertMany` stores for `msgs`: the i-th one under id start + i. */
  function Inserted<P>(start: nat, msgs: seq<Job<P>>): (m: Collection<P>)
    ensures m.Keys == IdRange(start, |msgs|)
    ensures |m| == |msgs|
    ensures forall i :: 0 <= i < |msgs| ==> m[start + i] == msgs[i]
  {
    var m := map id | id in IdRange(start, |msgs|) :: msgs[id - start];
    assert m.Keys == IdRange(start, |msgs|);
    m
  }

  /**
   * Inserting above every existing id adds exactly |msgs| documents, the i-th
   * new id holds the i-th message, and no existing document changes.
   */
  lemma InsertKeepsExisting<P>(jobs: Collection<P>, start: nat, msgs: seq<Job<P>>)
    requires forall id :: id in jobs ==> id < start
    ensures |jobs + Inserted(start, msgs)| == |jobs| + |msgs|
    ensures forall i :: 0 <= i < |msgs| ==> start + i !in jobs && (jobs + Inserted(start, msgs))[start + i] == msgs[i]
    ensures forall id :: id in jobs ==> (jobs + Inserted(start, msgs))[id] == jobs[id]
  {
    var added := Inserted(start, msgs);
    assert jobs.Keys !! added.Keys;
    assert (jobs + added).Keys == jobs.Keys + added.Keys;
  }

  /** Inserting well-formed documents above every existing id keeps the table well-formed and its ids below the new bound. */
  lemma InsertWellFormed<P>(jobs: Collection<P>, start: nat, msgs: seq<Job<P>>)
    requires forall id :: id in jobs ==> id < start && WellFormed(jobs[id])
    requires forall k :: 0 <= k < |msgs| ==> WellFormed(msgs[k])
    ensures forall id :: id in jobs + Inserted(start, msgs) ==>
              id < start + |msgs| && WellFormed((jobs + Inserted(start, msgs))[id])
  {
    var added := Inserted(start, msgs);
    forall id | id in jobs + added
      ensures id < start + |msgs| && WellFormed((jobs + added)[id])
    {
      if id in added {
        assert added[start + (id - start)] == msgs[id - start];
      }
    }
  }

  /** What `clean` keeps: the running jobs, as they were; every other job is deleted. */
  function KeepRunning<P>(jobs: Collection<P>): (r: Collection<P>)
    ensures forall id :: id in r <==> id in jobs && jobs[id].status == Running
    ensures forall id :: id in r ==> r[id] == jobs[id]
    ensures forall id, t :: id in r ==> !IsEligible(r[id], t)
  {
    map id | id in jobs && jobs[id].status == Running :: jobs[id]
  }

  /** The operand of `$not` in a filter `{ status: { $not: operand } }`: an operator document `{ $eq: s }`, or a plain string. */
  datatype NotOperand = OperatorDoc(eq: Status) | PlainString(value: Status)

  /**
   * `deleteMany({ status: { $not: operand } })`: the store refuses `$not`
   * over a plain string ("$not needs a regex or a document") and deletes
   * nothing; over `{ $eq: s }` it deletes every job whose status is not `s`.
   */
  function DeleteNot<P>(jobs: Collection<P>, operand: NotOperand): Result<Collection<P>> {
    match operand
    case PlainString(_) => Err(BadQuery)
    case OperatorDoc(s) => Ok(map id | id in jobs && jobs[id].status == s :: jobs[id])
  }

  /** `clean` as written passes the string 'running' to `$not`. */
  function CleanAsWritten<P>(jobs: Collection<P>): Result<Collection<P>> {
    DeleteNot(jobs, PlainString(Running))
  }

  /** With `$not: { $eq: 'running' }` the delete leaves exactly what KeepRunning describes. */
  lemma CleanIntendedKeepsRunning<P>(jobs: Collection<P>)
    ensures DeleteNot(jobs, OperatorDoc(Running)) == Ok(KeepRunning(jobs))
  {
  }

  /**
   * `clean` as written is refused for every collection and deletes nothing,
   * so a finished job survives it; the intended filter deletes that job.
   */
  lemma CleanAsWrittenKeepsFinished<P>(jobs: Collection<P>, id: nat)
    requires id in jobs && jobs[id].status == Success
    ensures CleanAsWritten(jobs) == Err(BadQuery)
    ensures id !in KeepRunning(jobs)
  {
  }

  /**
   * What a driver call hands its callback: `findOneAndUpdate` wraps the
   * document as `{ value: doc }`, a plain `findOne` hands over the document
   * itself (or null).
   */
  datatype Reply<P> = Wrapped(value: Option<Job<P>>) | Bare(doc: Option<Job<P>>)

  /**
   * Reading `msg.value` from a reply. A bare document stores no `value`
   * field, so the read is undefined (None); on a bare null it throws, which
   * the model reports the same way.
   */
  function ValueOf<P>(msg: Reply<P>): Option<Job<P>> {
    match msg
    case Wrapped(v) => v
    case Bare(_) => None
  }

  /**
   * `fail` as written: `findOne` (line 284) with the lease query, the guard
   * `!msg.value` (line 286), then the update of lines 293-298.
   */
  function FailAsWritten<P>(jobs: Collection<P>, id: nat, now: int, reason: string): (Result<nat>, Collection<P>) {
    var msg := Bare(if Leased(jobs, id, now) then Some(jobs[id]) else None);
    match ValueOf(msg)
    case None => (Err(NotFound), jobs)
    case Some(doc) =>
      match FailJobAsWritten(doc, now, reason)
      case Err(e) => (Err(e), jobs)
      case Ok(updated) => (Ok(id), jobs[id := updated])
  }

  /** `fail` as written answers an error for every table and id, and changes nothing. */
  lemma FailAsWrittenChangesNothing<P>(jobs: Collection<P>, id: nat, now: int, reason: string)
    ensures FailAsWritten(jobs, id, now, reason).0.Err?
    ensures FailAsWritten(jobs, id, now, reason).1 == jobs
  {
  }

  /**
   * A job holding a live lease stays running under `fail` as written; were
   * the guard to read the document itself, the update of line 298 would
   * still be refused; the intended update moves it out of `running`.
   */
  lemma FailAsWrittenRejectsLease<P>(jobs: Collection<P>, id: nat, now: int, reason: string)
    requires Leased(jobs, id, now)
    ensures FailAsWritten(jobs, id, now, reason).1[id].status == Running
    ensures ValueOf(Wrapped(Some(jobs[id]))) == Some(jobs[id]) && FailJobAsWritten(jobs[id], now, reason).Err?
    ensures FailJob(jobs[id], now, reason).status != Running
  {
    FailUpdateRefusedAsWritten(jobs[id], now, reason);
  }
}
