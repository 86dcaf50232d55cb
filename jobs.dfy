/**
 * One job document of a mongodb-queue collection, and the single-document
 * updates that `get`, `touch`, `progress`, `done` and `fail` apply to it
 * (src/mongodb-queue.js). Times are integer milliseconds; `now` is passed in
 * where the source reads the wall clock.
 */
module Jobs {

  datatype Option<+T> = None | Some(value: T)

  /** What a queue operation reports instead of a result. */
  datatype Error =
    | EmptyBatch   // `add` was given an empty array
    | NotFound     // no running job with that id whose lease is still live
    | BadQuery     // the store refused the filter or update document

  datatype Result<+T> = Ok(value: T) | Err(error: Error)

  datatype Status = Waiting | Running | Success | Failed | Cancelled

  datatype Job<P> = Job(
    created: int,
    status: Status,
    priority: int,
    visible: int,           // waiting: not before; running: lease expiry
    payload: P,
    tries: nat,
    maxRetries: nat,
    progress: int,
    lastStarted: Option<int>,
    lastFailed: Option<int>,
    lastFailReason: Option<string>,
    worker: Option<string>)

  /** `nowPlusSecs`: the instant `secs` whole seconds after `now`. */
  function NowPlusSecs(now: int, secs: nat): (t: int)
    ensures t >= now
    ensures t > now <==> secs > 0
    ensures (t - now) % 1000 == 0 && (t - now) / 1000 == secs
  {
    now + secs * 1000
  }

  /** JavaScript's `opt || dflt` on numbers: a zero option falls back to the default. */
  function OrDefault(opt: int, dflt: int): (r: int)
    ensures opt != 0 ==> r == opt
    ensures opt == 0 ==> r == dflt
    ensures r == 0 <==> opt == 0 && dflt == 0
    ensures opt >= 0 && dflt >= 0 ==> r >= 0
  {
    if opt != 0 then opt else dflt
  }

  /** `visible` of the jobs `add` creates: `delay` seconds from now, or now itself. */
  function VisibleAfter(now: int, delay: nat): (t: int)
    ensures t >= now
    ensures t == now <==> delay == 0
    ensures delay != 0 ==> t == NowPlusSecs(now, delay) && (t - now) / 1000 == delay
  {
    if delay != 0 then NowPlusSecs(now, delay) else now
  }

  function Dist(a: int, b: int): nat {
    if a <= b then b - a else a - b
  }

  /** The clamping `progress` applies before it stores a value. */
  function Clamp(p: int): (r: int)
    ensures 0 <= r <= 100
    ensures 0 <= p <= 100 ==> r == p
    ensures forall q :: 0 <= q <= 100 ==> Dist(r, p) <= Dist(q, p)
  {
    if p < 0 then 0 else if p > 100 then 100 else p
  }

  /** The query of `get`: a waiting job whose visibility time has come. */
  predicate IsEligible<P>(j: Job<P>, now: int) {
    j.status == Waiting && j.visible <= now
  }

  /** The query of `touch`, `progress`, `done` and `fail`: a running job whose lease has not expired. */
  predicate HoldsLease<P>(j: Job<P>, now: int) {
    j.status == Running && j.visible > now
  }

  /**
   * As time passes an eligible job stays eligible and a lease only lapses;
   * no job matches both queries at once.
   */
  lemma QueriesOverTime<P>(j: Job<P>, t: int, later: int)
    requires t <= later
    ensures IsEligible(j, t) ==> IsEligible(j, later)
    ensures HoldsLease(j, later) ==> HoldsLease(j, t)
    ensures !(IsEligible(j, t) && HoldsLease(j, t))
  {
  }

  /** What every document written by this queue satisfies; every update below preserves it. */
  predicate WellFormed<P>(j: Job<P>) {
    && 0 <= j.progress <= 100
    && j.maxRetries > 0
    && (j.status == Running ==> j.tries >= 1 && j.lastStarted.Some? && j.worker.Some?)
    && (j.status == Success ==> j.progress == 100)
    && (j.status == Failed ==> j.lastFailed.Some? && j.tries > j.maxRetries)
    && (j.lastFailed.Some? <==> j.lastFailReason.Some?)
  }

  /** The document `add` builds for one payload. */
  function Enqueued<P>(payload: P, now: int, priority: int, visible: int, maxRetries: nat): (j: Job<P>)
    ensures maxRetries > 0 ==> WellFormed(j)
    ensures j.payload == payload && j.created == now && j.tries == 0 && j.progress == 0
    ensures j.priority == priority && j.maxRetries == maxRetries
    ensures j.lastStarted.None? && j.lastFailed.None? && j.lastFailReason.None? && j.worker.None?
    ensures forall t :: IsEligible(j, t) <==> visible <= t
    ensures forall t :: !HoldsLease(j, t)
  {
    Job(now, Waiting, priority, visible, payload, 0, maxRetries, 0, None, None, None, None)
  }

  /** The update of `get`: one more try, running, leased until `until` by `worker`. */
  function Lease<P>(j: Job<P>, now: int, until: int, worker: string): (r: Job<P>)
    ensures r.tries == j.tries + 1
    ensures forall t :: HoldsLease(r, t) <==> t < until
    ensures forall t :: !IsEligible(r, t)
    ensures r.lastStarted == Some(now) && r.worker == Some(worker)
    ensures r.(status := j.status, visible := j.visible, tries := j.tries,
               lastStarted := j.lastStarted, worker := j.worker) == j
    ensures WellFormed(j) ==> WellFormed(r)
  {
    j.(status := Running, visible := until, tries := j.tries + 1,
       lastStarted := Some(now), worker := Some(worker))
  }

  /** The update of `touch`: a running job keeps its lease until `until`. */
  function Renew<P>(j: Job<P>, until: int): (r: Job<P>)
    ensures j.status == Running ==> forall t :: HoldsLease(r, t) <==> t < until
    ensures r.(visible := j.visible) == j
    ensures WellFormed(j) ==> WellFormed(r)
  {
    j.(visible := until)
  }

  /** The update of `progress`: the clamped value is stored. */
  function WithProgress<P>(j: Job<P>, p: int): (r: Job<P>)
    ensures 0 <= r.progress <= 100
    ensures 0 <= p <= 100 ==> r.progress == p
    ensures p < 0 ==> r.progress == 0
    ensures p > 100 ==> r.progress == 100
    ensures r.(progress := j.progress) == j
    ensures WellFormed(j) && j.status == Running ==> WellFormed(r)
  {
    j.(progress := Clamp(p))
  }

  /** The update of `done`: the job succeeds, fully progressed, and can never be leased or acked again. */
  function Complete<P>(j: Job<P>): (r: Job<P>)
    ensures r.status == Success && r.progress == 100
    ensures forall t :: !HoldsLease(r, t) && !IsEligible(r, t)
    ensures r.(status := j.status, progress := j.progress) == j
    ensures WellFormed(j) ==> WellFormed(r)
  {
    j.(status := Success, progress := 100)
  }

  /**
   * The update of `fail`, as lines 277-297 evidently intend: record the
   * failure, then give up for good once the tries exceed maxRetries, and
   * otherwise make the job visible again at once. As written, line 293 reads
   * the misspelt field `maxRetires` and lines 294-296 put `status` and
   * `visible` beside `$set` instead of inside it; see FailJobAsWritten.
   */
  function FailJob<P>(j: Job<P>, now: int, reason: string): (r: Job<P>)
    ensures r.lastFailed == Some(now) && r.lastFailReason == Some(reason)
    ensures r.status == Failed <==> j.tries > j.maxRetries
    ensures r.status != Failed ==> r.status == Waiting && r.visible == now && IsEligible(r, now)
    ensures r.status == Failed ==> r.visible == j.visible
    ensures r.status == Failed ==> forall t :: !IsEligible(r, t) && !HoldsLease(r, t)
    ensures r.(status := j.status, visible := j.visible,
               lastFailed := j.lastFailed, lastFailReason := j.lastFailReason) == j
    ensures WellFormed(j) ==> WellFormed(r)
  {
    var recorded := j.(lastFailed := Some(now), lastFailReason := Some(reason));
    if j.tries > j.maxRetries then recorded.(status := Failed)
    else recorded.(status := Waiting, visible := now)
  }

  /** JavaScript's `a > b` when `b` may be undefined (None): a comparison with undefined is false. */
  predicate JsGreater(a: int, b: Option<int>) {
    b.Some? && a > b.value
  }

  /** Reading a numeric field of a stored job by name; a name the document does not store reads as undefined. */
  function NumberField<P>(j: Job<P>, name: string): Option<int> {
    if name == "tries" then Some(j.tries)
    else if name == "maxRetries" then Some(j.maxRetries)
    else if name == "priority" then Some(j.priority)
    else if name == "progress" then Some(j.progress)
    else None
  }

  /** The branch of line 293, reading the ceiling from the field `ceiling`: failed once the tries exceed it, else waiting. */
  function FailDecision<P>(j: Job<P>, ceiling: string): Status {
    if JsGreater(j.tries, NumberField(j, ceiling)) then Failed else Waiting
  }

  /**
   * Line 293 reads the misspelt field `maxRetires`, which no document
   * stores, so the decision is always to requeue; reading `maxRetries` it is
   * the decision FailJob makes.
   */
  lemma RetryCeilingIgnoredAsWritten<P>(j: Job<P>, now: int, reason: string)
    ensures FailDecision(j, "maxRetires") == Waiting
    ensures FailDecision(j, "maxRetries") == FailJob(j, now, reason).status
    ensures j.tries > j.maxRetries ==> FailDecision(j, "maxRetires") != FailJob(j, now, reason).status
  {
    assert "maxRetires"[0] != "tries"[0] && "maxRetires"[0] != "priority"[0] && "maxRetires"[0] != "progress"[0];
    assert "maxRetires"[6] != "maxRetries"[6];
  }

  /** A top-level key of an update document that names an update operator (`$set`, `$inc`). */
  predicate IsOperator(key: string) {
    |key| > 0 && key[0] == '$'
  }

  /** MongoDB applies an update document only when its top-level keys are all operators, or (a replacement) none is. */
  predicate AcceptedUpdate(keys: set<string>) {
    (forall k :: k in keys ==> IsOperator(k)) || (forall k :: k in keys ==> !IsOperator(k))
  }

  /** The top-level keys of the update line 298 sends: `$set`, with `status` beside it, and `visible` too on the requeue branch. */
  function FailUpdateKeysAsWritten(decision: Status): set<string> {
    {"$set", "status"} + (if decision == Waiting then {"visible"} else {})
  }

  /**
   * The update of lines 293-298 as written, applied to the job it matched:
   * the decision reads `maxRetires`, and `status` and `visible` are put
   * beside `$set` instead of inside it; the store refuses an update whose keys
   * mix operators and plain fields.
   */
  function FailJobAsWritten<P>(j: Job<P>, now: int, reason: string): Result<Job<P>> {
    var decision := FailDecision(j, "maxRetires");
    if AcceptedUpdate(FailUpdateKeysAsWritten(decision)) then
      Ok(j.(status := decision, visible := if decision == Waiting then now else j.visible,
            lastFailed := Some(now), lastFailReason := Some(reason)))
    else
      Err(BadQuery)
  }

  /** The update of line 298 as written is refused whatever the job; the intended update always records the failure. */
  lemma FailUpdateRefusedAsWritten<P>(j: Job<P>, now: int, reason: string)
    ensures FailJobAsWritten(j, now, reason) == Err(BadQuery)
    ensures FailJob(j, now, reason).lastFailed == Some(now)
  {
    var keys := FailUpdateKeysAsWritten(FailDecision(j, "maxRetires"));
    assert "$set" in keys && IsOperator("$set");
    assert "status" in keys && !IsOperator("status");
  }

  /**
   * A terminal job matches neither query, so no operation of the queue
   * changes it again; only `clean` may still delete it.
   */
  lemma TerminalIsFinal<P>(j: Job<P>, t: int)
    requires j.status in {Success, Failed, Cancelled}
    ensures !IsEligible(j, t) && !HoldsLease(j, t)
  {
  }

  /**
   * A running job whose lease has run out matches neither query, so nothing
   * in the queue returns it to `waiting`: stale jobs stay stranded.
   */
  lemma StaleJobIsStranded<P>(j: Job<P>, now: int, t: int)
    requires j.status == Running && j.visible <= now <= t
    ensures !IsEligible(j, t) && !HoldsLease(j, t)
  {
  }

  /** One round at instant `now`: `get` leases the job until `until`, then its worker reports `fail`. */
  function Round<P>(j: Job<P>, now: int, until: int, worker: string, reason: string): Job<P> {
    FailJob(Lease(j, now, until, worker), now, reason)
  }

  /** `k` rounds one after another. */
  function Rounds<P>(j: Job<P>, k: nat, now: int, until: int, worker: string, reason: string): Job<P> {
    if k == 0 then j else Round(Rounds(j, k - 1, now, until, worker, reason), now, until, worker, reason)
  }

  /**
   * A fresh job that fails on every try is offered again after each of its
   * first maxRetries failures (each round's `get` finds it eligible and each
   * round's `fail` finds it leased), and the (maxRetries+1)-th failure makes
   * it `failed` for good.
   */
  lemma {:induction false} RetriesExhaust<P>(j: Job<P>, k: nat, now: int, until: int, worker: string, reason: string)
    requires IsEligible(j, now) && j.tries == 0 && now < until
    requires k <= j.maxRetries + 1
    ensures Rounds(j, k, now, until, worker, reason).tries == k
    ensures Rounds(j, k, now, until, worker, reason).maxRetries == j.maxRetries
    ensures Rounds(j, k, now, until, worker, reason).payload == j.payload
    ensures k <= j.maxRetries ==> IsEligible(Rounds(j, k, now, until, worker, reason), now)
    ensures k == j.maxRetries + 1 ==> Rounds(j, k, now, until, worker, reason).status == Failed
    ensures 0 < k ==> HoldsLease(Lease(Rounds(j, k - 1, now, until, worker, reason), now, until, worker), now)
  {
    if k > 0 {
      RetriesExhaust(j, k - 1, now, until, worker, reason);
    }
  }
}
