/**
 * The `Queue` object of src/mongodb-queue.js: its configured defaults, and the
 * job collection it changes through `insertMany`, `findOneAndUpdate` and
 * `deleteMany`. Each store call is one atomic step on the `jobs` table; the
 * id counter `nextId` plays the part of the ObjectID generator; `now` (integer
 * milliseconds) is passed to each operation in place of the wall clock.
 */
module MongoQueue {
  import opened Jobs
  import opened Table
  import opened Census

  /** Constructor options; 0 stands for an option that is absent. */
  datatype QueueOptions = QueueOptions(lockDuration: nat, delay: nat, maxRetries: nat, defaultPriority: int)

  /** Options of `add`; 0 stands for an option that is absent. */
  datatype AddOptions = AddOptions(delay: nat, maxRetries: nat, priority: int)

  /** Options of `get` and `touch`; 0 stands for an option that is absent. */
  datatype LockOptions = LockOptions(lockDuration: nat)

  /** What `add` is given: one payload, or an array of them. */
  datatype Payload<P> = One(payload: P) | Many(payloads: seq<P>)

  /** What `add` answers: the id of the one job, or the ids of the array's jobs in input order. */
  datatype Added = AddedId(id: nat) | AddedIds(ids: seq<nat>)

  /** The external representation `get` hands to the worker. */
  datatype Message<P> = Message(
    id: nat, created: int, status: Status, lockedUntil: int,
    payload: P, tries: nat, maxRetries: nat, progress: int)

  function Project<P>(id: nat, j: Job<P>): Message<P> {
    Message(id, j.created, j.status, j.visible, j.payload, j.tries, j.maxRetries, j.progress)
  }

  function PayloadList<P>(batch: Payload<P>): seq<P> {
    match batch
    case One(p) => [p]
    case Many(ps) => ps
  }

  /** The documents `add` builds for `ps`, one per payload, all sharing the call's settings. */
  function NewJobs<P>(ps: seq<P>, now: int, priority: int, visible: int, retries: nat): (msgs: seq<Job<P>>)
    ensures |msgs| == |ps|
    ensures forall k :: 0 <= k < |ps| ==> msgs[k] == Enqueued(ps[k], now, priority, visible, retries)
  {
    seq(|ps|, k requires 0 <= k < |ps| => Enqueued(ps[k], now, priority, visible, retries))
  }

  /** The `forEach` of `add` that pushes one new document per payload. */
  method BuildMessages<P>(ps: seq<P>, now: int, priority: int, visible: int, retries: nat)
    returns (msgs: seq<Job<P>>)
    ensures msgs == NewJobs(ps, now, priority, visible, retries)
  {
    msgs := [];
    var i := 0;
    while i < |ps|
      invariant 0 <= i <= |ps|
      invariant msgs == NewJobs(ps[..i], now, priority, visible, retries)
    {
      msgs := msgs + [Enqueued(ps[i], now, priority, visible, retries)];
      i := i + 1;
    }
    assert ps[..i] == ps;
  }

  class Queue<P> {
    const name: string
    const queueId: string           // host and process identity of this worker
    const lockDuration: nat         // seconds
    const delay: nat                // seconds
    const maxRetries: nat
    const defaultPriority: int

    var jobs: Collection<P>
    var nextId: nat

    ghost predicate Valid()
      reads this
    {
      && lockDuration > 0 && maxRetries > 0 && defaultPriority != 0
      && (forall id :: id in jobs ==> id < nextId)
      && (forall id :: id in jobs ==> WellFormed(jobs[id]))
    }

    /**
     * Attaches to the collection `stored` (documents this queue wrote
     * earlier, all with ids below `firstId`) and fixes the defaults: a zero
     * option falls back to 10 s lock, no delay, 5 retries, priority 5.
     */
    constructor (name: string, queueId: string, opts: QueueOptions, stored: Collection<P>, firstId: nat)
      requires name != ""
      requires forall id :: id in stored ==> id < firstId && WellFormed(stored[id])
      ensures Valid()
      ensures this.name == name && this.queueId == queueId
      ensures lockDuration == OrDefault(opts.lockDuration, 10)
      ensures delay == opts.delay
      ensures maxRetries == OrDefault(opts.maxRetries, 5)
      ensures defaultPriority == OrDefault(opts.defaultPriority, 5)
      ensures jobs == stored && nextId == firstId
    {
      this.name := name;
      this.queueId := queueId;
      lockDuration := OrDefault(opts.lockDuration, 10);
      delay := OrDefault(opts.delay, 0);
      maxRetries := OrDefault(opts.maxRetries, 5);
      defaultPriority := OrDefault(opts.defaultPriority, 5);
      jobs := stored;
      nextId := firstId;
    }

    /** The lease length, in seconds, that `get` and `touch` grant. */
    function LockFor(opts: LockOptions): (secs: nat)
      requires Valid()
      reads this
      ensures secs > 0
    {
      OrDefault(opts.lockDuration, lockDuration)
    }

    /**
     * `add`: every payload becomes a waiting document with the same
     * priority, visibility and retry ceiling, stored under the next ids in
     * input order; an empty array is refused and nothing is stored.
     */
    method Add(batch: Payload<P>, opts: AddOptions, now: int) returns (r: Result<Added>)
      requires Valid()
      modifies this
      ensures Valid()
      ensures batch.Many? && batch.payloads == [] ==>
        r == Err(EmptyBatch) && jobs == old(jobs) && nextId == old(nextId)
      ensures !(batch.Many? && batch.payloads == []) ==>
        var ps := PayloadList(batch);
        var visible := VisibleAfter(now, OrDefault(opts.delay, delay));
        var priority := OrDefault(opts.priority, defaultPriority);
        var retries := OrDefault(opts.maxRetries, maxRetries);
        && nextId == old(nextId) + |ps|
        && jobs == old(jobs) + Inserted(old(nextId), NewJobs(ps, now, priority, visible, retries))
        && r == Ok(if batch.One? then AddedId(old(nextId)) else AddedIds(IdSeq(old(nextId), |ps|)))
    {
      var effectiveDelay := OrDefault(opts.delay, delay);
      var visible := VisibleAfter(now, effectiveDelay);
      var retries := OrDefault(opts.maxRetries, maxRetries);
      var priority := OrDefault(opts.priority, defaultPriority);

      if batch.Many? && |batch.payloads| == 0 {
        return Err(EmptyBatch);
      }
      var ps := PayloadList(batch);
      var msgs := BuildMessages(ps, now, priority, visible, retries);

      var start := InsertMany(msgs);
      if batch.One? {
        r := Ok(AddedId(start));
      } else {
        r := Ok(AddedIds(IdSeq(start, |msgs|)));
      }
    }

    /** `insertMany`: store `msgs` under the next free ids, in order, and answer the first of them. */
    method InsertMany(msgs: seq<Job<P>>) returns (start: nat)
      requires Valid()
      requires forall k :: 0 <= k < |msgs| ==> WellFormed(msgs[k])
      modifies this
      ensures Valid()
      ensures start == old(nextId) && nextId == start + |msgs|
      ensures jobs == old(jobs) + Inserted(start, msgs)
    {
      start := nextId;
      InsertWellFormed(jobs, start, msgs);
      jobs := jobs + Inserted(start, msgs);
      nextId := start + |msgs|;
    }

    /**
     * `get`: lease the first eligible job in the order priority descending,
     * id ascending; when none is eligible, answer nothing and change nothing.
     */
    method Get(opts: LockOptions, now: int) returns (r: Option<Message<P>>)
      requires Valid()
      modifies this
      ensures Valid() && nextId == old(nextId)
      ensures r.None? <==> forall id :: id in old(jobs) ==> !IsEligible(old(jobs)[id], now)
      ensures r.None? ==> jobs == old(jobs)
      ensures r.Some? ==>
        var id := r.value.id;
        && IsNext(old(jobs), now, id)
        && jobs == old(jobs)[id := Lease(old(jobs)[id], now, NowPlusSecs(now, LockFor(opts)), queueId)]
        && r.value == Project(id, jobs[id])
        && r.value.status == Running && r.value.tries == old(jobs)[id].tries + 1
        && r.value.lockedUntil == NowPlusSecs(now, LockFor(opts)) > now
    {
      FirstEligibleIsNext(jobs, now, nextId);
      var chosen := FirstEligible(jobs, now, nextId);
      match chosen
      case None =>
        r := None;
      case Some(id) =>
        var until := NowPlusSecs(now, LockFor(opts));
        jobs := jobs[id := Lease(jobs[id], now, until, queueId)];
        r := Some(Project(id, jobs[id]));
    }

    /** `touch`: extend a live lease to now + lockDuration; anything else is NotFound. */
    method Touch(id: nat, opts: LockOptions, now: int) returns (r: Result<nat>)
      requires Valid()
      modifies this
      ensures Valid() && nextId == old(nextId)
      ensures Leased(old(jobs), id, now) ==>
        r == Ok(id) && jobs == old(jobs)[id := Renew(old(jobs)[id], NowPlusSecs(now, LockFor(opts)))]
      ensures !Leased(old(jobs), id, now) ==> r == Err(NotFound) && jobs == old(jobs)
    {
      if Leased(jobs, id, now) {
        jobs := jobs[id := Renew(jobs[id], NowPlusSecs(now, LockFor(opts)))];
        r := Ok(id);
      } else {
        r := Err(NotFound);
      }
    }

    /** `progress`: store the value clamped to [0, 100] on a job with a live lease. */
    method Progress(id: nat, value: int, now: int) returns (r: Result<nat>)
      requires Valid()
      modifies this
      ensures Valid() && nextId == old(nextId)
      ensures Leased(old(jobs), id, now) ==>
        r == Ok(id) && jobs == old(jobs)[id := WithProgress(old(jobs)[id], value)]
      ensures !Leased(old(jobs), id, now) ==> r == Err(NotFound) && jobs == old(jobs)
    {
      if Leased(jobs, id, now) {
        jobs := jobs[id := WithProgress(jobs[id], value)];
        r := Ok(id);
      } else {
        r := Err(NotFound);
      }
    }

    /** `done`: a job with a live lease succeeds; anything else, a second `done` included, is NotFound. */
    method Done(id: nat, now: int) returns (r: Result<nat>)
      requires Valid()
      modifies this
      ensures Valid() && nextId == old(nextId)
      ensures Leased(old(jobs), id, now) ==> r == Ok(id) && jobs == old(jobs)[id := Complete(old(jobs)[id])]
      ensures !Leased(old(jobs), id, now) ==> r == Err(NotFound) && jobs == old(jobs)
    {
      if Leased(jobs, id, now) {
        jobs := jobs[id := Complete(jobs[id])];
        r := Ok(id);
      } else {
        r := Err(NotFound);
      }
    }

    /**
     * `fail`, as lines 272-313 evidently intend, in one atomic step: a job
     * with a live lease records the failure and is either requeued at once or,
     * past its retry ceiling, failed for good. See FailAsWritten for what the
     * code as written does.
     */
    method Fail(id: nat, reason: string, now: int) returns (r: Result<nat>)
      requires Valid()
      modifies this
      ensures Valid() && nextId == old(nextId)
      ensures Leased(old(jobs), id, now) ==> r == Ok(id) && jobs == old(jobs)[id := FailJob(old(jobs)[id], now, reason)]
      ensures !Leased(old(jobs), id, now) ==> r == Err(NotFound) && jobs == old(jobs)
    {
      if Leased(jobs, id, now) {
        jobs := jobs[id := FailJob(jobs[id], now, reason)];
        r := Ok(id);
      } else {
        r := Err(NotFound);
      }
    }

    /** `clean`: delete every job that is not running, and report how many went. */
    method Clean() returns (deleted: nat)
      requires Valid()
      modifies this
      ensures Valid() && nextId == old(nextId)
      ensures jobs == KeepRunning(old(jobs))
      ensures deleted + |jobs| == |old(jobs)|
    {
      CleanCensus(jobs);
      deleted := TotalCount(jobs) - InFlightCount(jobs);
      jobs := KeepRunning(jobs);
    }
  }

  /**
   * The round trip of test/default.js:56-102 on a fresh queue with default
   * options: `add` one payload, `get` it back (running, first try, same
   * payload), `done` succeeds, and a second `done` is refused.
   */
  method SingleRoundTrip<P>(payload: P, now: int)
    returns (added: Result<Added>, got: Option<Message<P>>, acked: Result<nat>, again: Result<nat>)
    ensures added.Ok? && added.value.AddedId?
    ensures got.Some? && got.value.id == added.value.id
    ensures got.value.status == Running && got.value.tries == 1 && got.value.payload == payload
    ensures got.value.lockedUntil == now + 10000
    ensures acked == Ok(got.value.id) && again == Err(NotFound)
  {
    var q := new Queue<P>("default", "host-1", QueueOptions(0, 0, 0, 0), map[], 0);
    added := q.Add(One(payload), AddOptions(0, 0, 0), now);
    assert q.jobs[0].payload == payload && IsEligible(q.jobs[0], now);
    got := q.Get(LockOptions(0), now);
    acked := q.Done(got.value.id, now);
    again := q.Done(got.value.id, now);
  }
}
