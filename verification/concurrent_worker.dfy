/** The bounded consumer (`ConcurrentWorker.run` with the lifecycle of `Worker`). The environment (which attempts
    complete when, how they end, what the clock shows, when a stop is requested) is a parameter. */
module ConcurrentWorkers {
  import opened Types
  import opened TaskQueues

  datatype WorkerStatus = CreatedWorker | RunningWorker | StoppedWorker

  /** What an executor answers: the task after one attempt; or, when the store refuses the claim because of a hold,
      another owner or a budget that must wait, a copy of the stored task; or an exception. */
  datatype Executed = Attempt(job: Job) | Refused(stored: Job) | Raises

  datatype Flight = Flight(number: nat, job: Job)

  /** The answers of the outside world at its `n`-th consultation. */
  datatype World = World(
    stop: nat -> bool,
    clock: nat -> Time,
    completes: (nat, set<nat>) -> set<nat>,
    execute: (nat, Job) -> Executed,
    permits: (nat, Job) -> bool,
    delay: (nat, Job) -> nat)

  function Limit(job: Job, default: nat): nat {
    if job.maxRetries.Some? then job.maxRetries.value else default
  }

  /** One attempt changes the status and the counters of its task; an executor that schedules the retry
      itself stays within the limit. */
  predicate Attempted(job: Job, after: Job, default: nat) {
    && after.id == job.id && after.priority == job.priority && after.maxRetries == job.maxRetries
    && after.attempts == job.attempts + 1
    && after.status in {Success, Failed, Retrying}
    && (after.status == Retrying ==> job.retries < Limit(job, default))
    && after.retries == job.retries + (if after.status == Retrying then 1 else 0)
  }

  /** A refused claim hands back a copy of the same task. Only if the worker itself retries failures does it matter
      how many attempts the copy has left: not more than the task in flight. */
  predicate Copied(job: Job, stored: Job, default: nat, policy: bool) {
    stored.id == job.id && (policy && stored.status == Failed ==> Remaining(stored, default) <= Remaining(job, default))
  }

  /** A stop is never taken back, a wait returns when something completed, and executors answer for their task. */
  ghost predicate Possible(world: World, default: nat, policy: bool) {
    && (forall n, m | n <= m && world.stop(n) :: world.stop(m))
    && (forall n, s | s != {} :: world.completes(n, s) != {} && world.completes(n, s) <= s)
    && forall n, job ::
         match world.execute(n, job)
         case Attempt(after) => Attempted(job, after, default)
         case Refused(stored) => Copied(job, stored, default, policy)
         case Raises => true
  }

  // ---------------------------------------------------------------- remaining attempts

  function Remaining(job: Job, default: nat): nat {
    1 + (if job.retries < Limit(job, default) then Limit(job, default) - job.retries else 0)
  }

  ghost function QueueTotal(entries: Entries, next: nat, default: nat): nat {
    if next == 0 then 0
    else QueueTotal(entries, next - 1, default) + (if next - 1 in entries then Remaining(entries[next - 1].job, default) else 0)
  }

  ghost function FlightTotal(flights: seq<Flight>, default: nat): nat {
    if flights == [] then 0 else Remaining(flights[0].job, default) + FlightTotal(flights[1..], default)
  }

  lemma {:induction false} TotalSame(a: Entries, b: Entries, next: nat, default: nat)
    requires forall n | n < next :: (n in a <==> n in b) && (n in a ==> a[n] == b[n])
    ensures QueueTotal(a, next, default) == QueueTotal(b, next, default)
  {
    if next > 0 { TotalSame(a, b, next - 1, default); }
  }

  lemma {:induction false} TotalWithout(entries: Entries, next: nat, n: nat, default: nat)
    requires n in entries && n < next
    ensures QueueTotal(entries, next, default) == QueueTotal(entries - {n}, next, default) + Remaining(entries[n].job, default)
  {
    if n == next - 1 { TotalSame(entries, entries - {n}, n, default); } else { TotalWithout(entries, next - 1, n, default); }
  }

  lemma TotalWith(entries: Entries, next: nat, e: Entry, default: nat)
    requires next !in entries
    ensures QueueTotal(entries[next := e], next + 1, default) == QueueTotal(entries, next, default) + Remaining(e.job, default)
  {
    TotalSame(entries[next := e], entries, next, default);
  }

  lemma {:induction false} FlightsJoined(a: seq<Flight>, b: seq<Flight>, default: nat)
    ensures FlightTotal(a + b, default) == FlightTotal(a, default) + FlightTotal(b, default)
  {
    if a == [] {
      assert a + b == b;
    } else {
      assert (a + b)[1..] == a[1..] + b;
      FlightsJoined(a[1..], b, default);
    }
  }

  // ---------------------------------------------------------------- where the tasks are

  ghost function FlightIds(flights: seq<Flight>): set<string> { set f | f in flights :: f.job.id }

  ghost predicate DistinctFlights(flights: seq<Flight>) {
    && (forall i, j | 0 <= i < j < |flights| :: flights[i].job.id != flights[j].job.id && flights[i].number < flights[j].number)
  }

  /** Every accepted task is waiting, in flight, finished or handed back to the store, and only one of these. */
  ghost predicate Partition(accepted: set<string>, queued: set<string>, flights: seq<Flight>,
                            finished: map<string, Job>,
                            released: map<string, Job>)
  {
    && accepted == queued + FlightIds(flights) + finished.Keys + released.Keys
    && queued !! FlightIds(flights) && queued !! finished.Keys && FlightIds(flights) !! finished.Keys
    && queued !! released.Keys && FlightIds(flights) !! released.Keys && finished.Keys !! released.Keys
    && DistinctFlights(flights)
    && forall id | id in finished :: finished[id].id == id && finished[id].status in {Success, Failed}
  }

  /** Without refusals nothing is handed back; a refusal hands a task back unless the worker retries it itself. */
  ghost predicate Accounted(policy: bool, refusals: nat, released: map<string, Job>) {
    (refusals == 0 ==> released == map[]) && (!policy && refusals > 0 ==> released != map[])
  }

  lemma RefusalsMean(policy: bool, refusals: nat, released: map<string, Job>)
    requires Accounted(policy, refusals, released)
    ensures !policy ==> (released == map[] <==> refusals == 0)
  {
  }

  lemma FlightAdded(flights: seq<Flight>, f: Flight)
    ensures FlightIds(flights + [f]) == FlightIds(flights) + {f.job.id}
  {
  }

  /** A task leaves the queue for a free slot. */
  lemma TakesOff(accepted: set<string>, queued: set<string>, flights: seq<Flight>, finished: map<string, Job>,
                 released: map<string, Job>,
                 f: Flight)
    requires Partition(accepted, queued, flights, finished, released) && f.job.id in queued
    requires forall g | g in flights :: g.number < f.number
    ensures Partition(accepted, queued - {f.job.id}, flights + [f], finished, released)
  {
    FlightAdded(flights, f);
    assert forall g | g in flights :: g.job.id in FlightIds(flights);
  }

  /** A task comes back from its slot: to the queue, to an end or to the store. */
  lemma Lands(accepted: set<string>, queued: set<string>, before: seq<Flight>, f: Flight, after: seq<Flight>,
              finished: map<string, Job>, released: map<string, Job>, job: Job)
    requires Partition(accepted, queued, before + [f] + after, finished, released) && job.id == f.job.id
    ensures f.job.id !in queued && f.job.id !in finished && f.job.id !in released
    ensures Partition(accepted, queued + {f.job.id}, before + after, finished, released)
    ensures job.status in {Success, Failed} ==> Partition(accepted, queued, before + after, finished[job.id := job], released)
    ensures Partition(accepted, queued, before + after, finished, released[job.id := job])
  {
    hide DistinctFlights, FlightIds, Partition;
    TakesDown(accepted, queued, before, f, after, finished, released);
    PutBack(accepted, f.job.id, queued, before + after, finished, released, job);
  }

  /** Without the task of one slot the others are where they were. */
  lemma TakesDown(accepted: set<string>, queued: set<string>, before: seq<Flight>, f: Flight, after: seq<Flight>,
                  finished: map<string, Job>, released: map<string, Job>)
    requires Partition(accepted, queued, before + [f] + after, finished, released)
    ensures Partition(accepted - {f.job.id}, queued, before + after, finished, released)
    ensures f.job.id in accepted && f.job.id !in queued && f.job.id !in finished && f.job.id !in released
  {
    IdsWithout(before, f, after);
    NotElsewhere(before, f, after);
    StillDistinct(before, f, after);
    hide DistinctFlights, FlightIds;
  }

  lemma PutBack(accepted: set<string>, id: string, queued: set<string>, flights: seq<Flight>,
                finished: map<string, Job>,
                released: map<string, Job>, job: Job)
    requires Partition(accepted - {id}, queued, flights, finished, released) && id in accepted && job.id == id
    ensures Partition(accepted, queued + {id}, flights, finished, released)
    ensures job.status in {Success, Failed} ==> Partition(accepted, queued, flights, finished[job.id := job], released)
    ensures Partition(accepted, queued, flights, finished, released[job.id := job])
  {
    hide DistinctFlights, FlightIds;
    assert id !in queued && id !in FlightIds(flights) && id !in finished && id !in released by {
      assert id !in accepted - {id};
    }
    assert finished[job.id := job].Keys == finished.Keys + {id};
    assert released[job.id := job].Keys == released.Keys + {id};
  }

  lemma IdsWithout(before: seq<Flight>, f: Flight, after: seq<Flight>)
    ensures FlightIds(before + [f] + after) == FlightIds(before + after) + {f.job.id}
  {
    FlightAdded(before, f);
    IdsJoined(before + [f], after);
    IdsJoined(before, after);
  }

  lemma IdsJoined(a: seq<Flight>, b: seq<Flight>)
    ensures FlightIds(a + b) == FlightIds(a) + FlightIds(b)
  {
    forall x ensures x in FlightIds(a + b) <==> x in FlightIds(a) || x in FlightIds(b) {
      if x in FlightIds(a + b) { var g :| g in a + b && g.job.id == x; assert g in a || g in b; }
      if x in FlightIds(a) { var g :| g in a && g.job.id == x; assert g in a + b; }
      if x in FlightIds(b) { var g :| g in b && g.job.id == x; assert g in a + b; }
    }
  }

  lemma NotElsewhere(before: seq<Flight>, f: Flight, after: seq<Flight>)
    requires DistinctFlights(before + [f] + after)
    ensures f.job.id !in FlightIds(before + after)
  {
    var flights := before + [f] + after;
    assert flights[|before|] == f;
    forall g | g in before + after ensures g.job.id != f.job.id {
      if g in before {
        var i :| 0 <= i < |before| && before[i] == g;
        assert flights[i] == g;
      } else {
        var i :| 0 <= i < |after| && after[i] == g;
        assert flights[|before| + 1 + i] == g;
      }
    }
  }

  lemma StillDistinct(before: seq<Flight>, f: Flight, after: seq<Flight>)
    requires DistinctFlights(before + [f] + after)
    ensures DistinctFlights(before + after)
  {
    var flights, rest := before + [f] + after, before + after;
    forall i, j | 0 <= i < j < |rest| ensures rest[i].job.id != rest[j].job.id && rest[i].number < rest[j].number {
      var a := if i < |before| then i else i + 1;
      var b := if j < |before| then j else j + 1;
      assert flights[a] == rest[i] && flights[b] == rest[j];
    }
  }

  // ---------------------------------------------------------------- the worker

  class ConcurrentWorker {
    const queue: TaskQueue
    const maxWorkers: nat
    const default: nat
    const policy: bool
    var status: WorkerStatus
    var inFlight: seq<Flight>
    var processed: seq<string>
    var looks: nat
    var time: Time
    ghost var accepted: set<string>
    ghost var finished: map<string, Job>
    /** The tasks handed back to the store, and how many claims were refused. */
    ghost var released: map<string, Job>
    ghost var refusals: nat

    constructor (queue: TaskQueue, maxWorkers: nat, default: nat, policy: bool, time: Time)
      requires queue.Valid() && maxWorkers > 0 && queue.clock <= time
      ensures Valid() && this.queue == queue && this.maxWorkers == maxWorkers && this.default == default && this.policy == policy
      ensures status == CreatedWorker && Fresh() && accepted == queue.ids
    {
      this.queue, this.maxWorkers, this.default, this.policy := queue, maxWorkers, default, policy;
      status, inFlight, processed, looks, this.time := CreatedWorker, [], [], 0, time;
      accepted, finished, released, refusals := queue.ids, map[], map[], 0;
    }

    ghost predicate Valid()
      reads this, queue
    {
      && queue.Valid() && queue.clock <= time && 0 < maxWorkers
      && |inFlight| <= maxWorkers
      && Partition(accepted, queue.ids, inFlight, finished, released)
      && (forall f | f in inFlight :: f.number < |processed|)
      && Accounted(policy, refusals, released)
    }

    /** The worker has not run yet. */
    ghost predicate Fresh()
      reads this
    {
      inFlight == [] && processed == [] && finished == map[] && released == map[] && refusals == 0
    }

    /** An upper bound on the attempts that are still to come. */
    ghost function Left(): nat
      reads this, queue
    {
      QueueTotal(queue.entries, queue.next, default) + FlightTotal(inFlight, default)
    }

    /** `_should_stop`. */
    method ShouldStop(world: World) returns (stop: bool)
      requires Valid()
      modifies this`looks, this`time
      ensures Valid() && Left() == old(Left())
      ensures looks == old(looks) + 1 && stop == world.stop(old(looks)) && time >= old(time)
    {
      hide Partition, Held, LeftOnce, QueueTotal, FlightTotal, Accounted, Ids, DistinctIds, Queueable;
      stop := world.stop(looks);
      time := Max(time, world.clock(looks));
      looks := looks + 1;
    }

    /** Hands a task that was taken from the queue to the pool. */
    method SubmitTask(job: Job, ghost queued: set<string>)
      requires Partition(accepted, queued, inFlight, finished, released) && job.id in queued && queue.ids == queued - {job.id}
      requires queue.Valid() && queue.clock <= time && |inFlight| < maxWorkers && Accounted(policy, refusals, released)
      requires forall f | f in inFlight :: f.number < |processed|
      modifies this`inFlight, this`processed
      ensures Valid() && inFlight == old(inFlight) + [Flight(|old(processed)|, job)] && processed == old(processed) + [job.id]
    {
      var flight := Flight(|processed|, job);
      TakesOff(accepted, queued, inFlight, finished, released, flight);
      inFlight := inFlight + [flight];
      processed := processed + [job.id];
    }

    /** The task that is first in line now is in flight. */
    ghost predicate Takes(entries: Entries, flights: seq<Flight>, before: seq<string>)
      reads this, queue
    {
      exists n | LeavesFirst(entries, n, time) ::
        && inFlight == flights + [Flight(|before|, entries[n].job)] && queue.entries == entries - {n}
        && processed == before + [entries[n].job.id]
    }

    /** Takes the first due task, if any, and submits it. */
    method StartNext() returns (started: bool)
      requires Valid() && |inFlight| < maxWorkers
      modifies this`inFlight, this`processed, queue
      ensures Valid() && Left() == old(Left()) && accepted == old(accepted) && finished == old(finished) && status == old(status)
      ensures started <==> exists n :: IsDue(old(queue.entries), n, time)
      ensures started ==> |inFlight| == |old(inFlight)| + 1 && Takes(old(queue.entries), old(inFlight), old(processed))
      ensures !started ==> inFlight == old(inFlight) && queue.entries == old(queue.entries) && processed == old(processed)
    {
      hide Partition, Held, LeftOnce, First, LeavesFirst;
      ghost var queued, entries := queue.ids, queue.entries;
      var job := queue.Dequeue(time);
      if job.None? { return false; }
      ghost var n := queue.left[|queue.left| - 1];
      WasDue(entries, n, time);
      LeftQueue(entries, queue.entries, queue.ids, queued, n);
      NumberUsed(queue.left, queue.entries, queue.next, n);
      TotalWithout(entries, queue.next, n, default);
      FlightsJoined(inFlight, [Flight(|processed|, job.value)], default);
      SubmitTask(job.value, queued);
      return true;
    }

    /** All slots are taken, or no task in the queue is due. */
    ghost predicate Saturated()
      reads this, queue
    {
      maxWorkers <= |inFlight| || forall n | n in queue.entries :: time < queue.entries[n].due
    }

    /** The inner loop of `run`: it fills the free slots until a stop is seen or nothing is due. Before each start it has
        looked for a stop and seen none. */
    method Fill(world: World) returns (stopped: bool)
      requires Valid() && Possible(world, default, policy)
      modifies this`inFlight, this`processed, this`looks, this`time, queue
      ensures Valid() && Left() == old(Left()) && accepted == old(accepted) && finished == old(finished) && status == old(status)
      ensures looks >= old(looks) && |inFlight| >= |old(inFlight)|
      ensures stopped ==> looks > 0 && world.stop(looks - 1)
      ensures !stopped ==> Saturated()
      ensures |processed| - |old(processed)| == |inFlight| - |old(inFlight)| <= looks - old(looks)
      ensures forall k | old(looks) <= k < old(looks) + |inFlight| - |old(inFlight)| :: !world.stop(k)
    {
      hide Valid, Left, Possible, IsDue;
      while |inFlight| < maxWorkers
        invariant Valid() && Left() == old(Left()) && accepted == old(accepted) && finished == old(finished) && status == old(status)
        invariant looks >= old(looks) && |inFlight| >= |old(inFlight)|
        invariant |processed| - |old(processed)| == |inFlight| - |old(inFlight)| == looks - old(looks)
        invariant forall k | old(looks) <= k < looks :: !world.stop(k)
        decreases maxWorkers - |inFlight|
      {
        stopped := ShouldStop(world);
        if stopped { return; }
        var started := StartNext();
        if !started {
          NothingDueNow(queue.entries, time);
          return false;
        }
      }
      return false;
    }

    method EarliestDelay() returns (delay: Option<Time>)
      requires Valid()
      modifies queue`ready, queue`delayed, queue`promoted, queue`clock
      ensures Valid() && Left() == old(Left()) && 0 < maxWorkers
      ensures delay.None? <==> queue.entries == map[]
      ensures delay == Some(0) <==> exists n :: IsDue(queue.entries, n, time)
      ensures delay.Some? && delay.value != 0 ==>
                delay.value > 0 && exists n | n in queue.entries :: queue.entries[n].due == time + delay.value
    {
      hide Partition, Held, LeftOnce, QueueTotal, FlightTotal, Accounted, Ids, DistinctIds, Queueable;
      delay := queue.NextReadyDelay(time);
    }

    method Sleep(delay: Time)
      requires Valid() && 0 <= delay
      modifies this`time
      ensures Valid() && Left() == old(Left()) && time == old(time) + delay
    {
      hide Partition, Held, LeftOnce, QueueTotal, FlightTotal, Accounted, Ids, DistinctIds, Queueable;
      time := time + delay;
    }

    /** `dequeue_wait` when nothing is in flight: it sleeps until the earliest task is due, unless a stop
        is seen, and submits it; a task that meets a stop stays in the queue. */
    method WaitAndStart(world: World) returns (stopped: bool)
      requires Valid() && Possible(world, default, policy) && inFlight == [] && queue.entries != map[]
      modifies this`inFlight, this`processed, this`looks, this`time, queue
      ensures Valid() && Left() == old(Left()) && accepted == old(accepted) && finished == old(finished) && status == old(status)
      ensures looks > old(looks)
      ensures if stopped then inFlight == [] && world.stop(looks - 1) && queue.entries == old(queue.entries) else |inFlight| == 1
      ensures !stopped ==> Takes(old(queue.entries), [], old(processed)) && !world.stop(looks - 1)
      ensures stopped ==> processed == old(processed)
    {
      hide Valid, Left, Possible, Takes;
      var delay := EarliestDelay();
      ghost var n: nat;
      if delay.value != 0 {
        n :| n in queue.entries && queue.entries[n].due == time + delay.value;
        stopped := ShouldStop(world);
        if stopped { return; }
        Sleep(delay.value);
      } else {
        n :| IsDue(queue.entries, n, time);
      }
      stopped := ShouldStop(world);
      if stopped { return; }
      ghost var entries := queue.entries;
      var started := StartNext();
      assert IsDue(entries, n, time);
    }

    /** The slot of `f` has just been emptied; everything else is in its place. */
    ghost predicate Emptied(before: seq<Flight>, f: Flight, after: seq<Flight>)
      reads this, queue
    {
      && queue.Valid() && queue.clock <= time && 0 < maxWorkers
      && inFlight == before + after && |before + [f] + after| <= maxWorkers
      && Partition(accepted, queue.ids, before + [f] + after, finished, released)
      && forall g | g in inFlight :: g.number < |processed|
    }

    /** The task is behind all others in the queue, from the time of its retry on. */
    ghost predicate Queued(entries: Entries, next: nat, job: Job)
      reads this, queue
    {
      && next in queue.entries && queue.entries == entries[next := queue.entries[next]]
      && queue.entries[next].job == job && DueAt(job, time, time, queue.entries[next].due)
    }

    /** Puts a task whose attempt has ended back into the queue. */
    method Requeue(job: Job, ghost before: seq<Flight>, ghost f: Flight, ghost after: seq<Flight>)
      requires Emptied(before, f, after) && Accounted(policy, refusals, released) && job.id == f.job.id && job.status == Retrying
      modifies queue
      ensures Valid() && Queued(old(queue.entries), old(queue.next), job)
      ensures QueueTotal(queue.entries, queue.next, default)
           == old(QueueTotal(queue.entries, queue.next, default)) + Remaining(job, default)
    {
      Lands(accepted, queue.ids, before, f, after, finished, released, job);
      ghost var entries, next, ids := queue.entries, queue.next, queue.ids;
      hide Partition, Held, First, LeftOnce, DueAt;
      Unused(queue.left, queue.entries, queue.next);
      var queued := queue.Enqueue(job, time, time);
      TotalWith(entries, next, queue.entries[next], default);
      JoinedQueue(entries, queue.entries, next, queue.ids, ids);
    }

    /** A worker with a policy repeats a failure that the policy permits while retries are left. */
    ghost predicate Grants(world: World, look: nat, job: Job)
      reads this
    {
      && policy && job.status == Failed && world.permits(look, job)
      && job.retries < if job.maxRetries.Some? then job.maxRetries.value else default
    }

    ghost function Repeated(world: World, look: nat, job: Job): Job
      reads this
    {
      var delay := world.delay(look, job);
      job.(status := Retrying, retries := job.retries + 1, retryAt := if delay == 0 then None else Some(time + delay))
    }

    /** `_handle_failure`: the failed task, if the policy grants it another attempt. */
    method HandleFailure(world: World, job: Job) returns (retry: Option<Job>)
      modifies this`looks
      ensures looks == old(looks) + 1
      ensures retry.Some? ==> policy && job.status == Failed && job.retries < Limit(job, default)
      ensures retry.Some? <==> old(Grants(world, looks, job))
      ensures retry.Some? ==> retry.value == Repeated(world, old(looks), job)
    {
      retry := None;
      if job.status == Failed && policy && world.permits(looks, job) && job.retries < Limit(job, default) {
        var delay := world.delay(looks, job);
        retry := Some(job.(status := Retrying, retries := job.retries + 1, retryAt := if delay == 0 then None else Some(time + delay)));
      }
      looks := looks + 1;
    }

    /** The task waits again if its executor or the policy of the worker schedules a retry; otherwise it has ended. */
    ghost predicate Landed(world: World, look: nat, job: Job, entries: Entries, next: nat, ended: map<string, Job>)
      reads this, queue
    {
      if job.status == Retrying then Queued(entries, next, job) && finished == ended
      else if Grants(world, look, job) then Queued(entries, next, Repeated(world, look, job)) && finished == ended
      else queue.entries == entries && finished == ended[job.id := job]
    }

    /** A copy from the store is repeated only by the policy of the worker; otherwise the store has its task back. */
    ghost predicate HandedBack(world: World, look: nat, stored: Job, entries: Entries, next: nat,
                               returned: map<string, Job>)
      reads this, queue
    {
      if Grants(world, look, stored) then Queued(entries, next, Repeated(world, look, stored)) && released == returned
      else queue.entries == entries && released == returned[stored.id := stored]
    }

    /** After an attempt: an executor's own retry goes back to the queue, a failure may be retried by the policy,
        and everything else is an end. */
    method Finish(world: World, job: Job, ghost before: seq<Flight>, ghost f: Flight, ghost after: seq<Flight>)
      requires Emptied(before, f, after) && Accounted(policy, refusals, released) && Attempted(f.job, job, default)
      modifies this`finished, this`looks, queue
      ensures Valid() && looks >= old(looks)
      ensures Landed(world, old(looks), job, old(queue.entries), old(queue.next), old(finished))
      ensures QueueTotal(queue.entries, queue.next, default)
            < old(QueueTotal(queue.entries, queue.next, default)) + Remaining(f.job, default)
    {
      hide DueAt;
      if job.status == Retrying {
        Requeue(job, before, f, after);
        return;
      }
      var retry := HandleFailure(world, job);
      if retry.Some? {
        Requeue(retry.value, before, f, after);
      } else {
        Lands(accepted, queue.ids, before, f, after, finished, released, job);
        finished := finished[job.id := job];
      }
    }

    /** After a refused claim the executor hands back another object, so the task in flight is not queued again; only
        a failure of the copy may be retried, by a policy of the worker. */
    method Release(world: World, stored: Job, ghost before: seq<Flight>, ghost f: Flight, ghost after: seq<Flight>)
      requires Emptied(before, f, after) && Accounted(policy, refusals, released) && Copied(f.job, stored, default, policy)
      modifies this`released, this`refusals, this`looks, queue
      ensures Valid() && looks >= old(looks) && refusals == old(refusals) + 1
      ensures HandedBack(world, old(looks), stored, old(queue.entries), old(queue.next), old(released))
      ensures QueueTotal(queue.entries, queue.next, default)
            < old(QueueTotal(queue.entries, queue.next, default)) + Remaining(f.job, default)
    {
      hide Partition, Held, LeftOnce, QueueTotal, DueAt;
      Lands(accepted, queue.ids, before, f, after, finished, released, stored);
      var retry := HandleFailure(world, stored);
      if retry.Some? {
        refusals := refusals + 1;
        Requeue(retry.value, before, f, after);
      } else {
        refusals := refusals + 1;
        released := released[stored.id := stored];
      }
    }

    /** One completed attempt leaves its slot, unless its executor raised. */
    method Complete(world: World, before: seq<Flight>, f: Flight, after: seq<Flight>) returns (raised: bool)
      requires Valid() && Possible(world, default, policy) && inFlight == before + [f] + after
      modifies this`inFlight, this`finished, this`released, this`refusals, this`looks, queue
      ensures Valid() && looks >= old(looks)
      ensures if raised then inFlight == old(inFlight) && Left() == old(Left())
              else inFlight == before + after && Left() < old(Left())
      ensures raised <==> world.execute(old(looks), f.job).Raises?
      ensures world.execute(old(looks), f.job).Attempt? ==> refusals == old(refusals)
      ensures world.execute(old(looks), f.job).Refused? ==> finished == old(finished)
      ensures match world.execute(old(looks), f.job)
              case Attempt(job) => Landed(world, old(looks) + 1, job, old(queue.entries), old(queue.next), old(finished))
              case Refused(stored) => HandedBack(world, old(looks) + 1, stored, old(queue.entries), old(queue.next), old(released))
              case Raises => queue.entries == old(queue.entries) && finished == old(finished) && released == old(released)
    {
      hide Partition, Held, LeftOnce, QueueTotal, FlightTotal, Attempted, Copied, Remaining, Landed, HandedBack;
      JoinThree(before, f, after, default);
      FlightNumbers(before, f, after);
      var answer := world.execute(looks, f.job);
      looks := looks + 1;
      match answer {
        case Raises => return true;
        case Attempt(job) =>
          inFlight := before + after;
          Finish(world, job, before, f, after);
        case Refused(stored) =>
          inFlight := before + after;
          Release(world, stored, before, f, after);
      }
      return false;
    }

    /** One turn of that loop. */
    method CollectOne(world: World, completed: set<nat>, flights: seq<Flight>, i: nat, kept: seq<Flight>)
      returns (raised: bool, kept': seq<Flight>)
      requires Valid() && Possible(world, default, policy) && i < |flights|
      requires inFlight == kept + flights[i..] && kept == Without(flights[..i], completed)
      modifies this`inFlight, this`finished, this`released, this`refusals, this`looks, queue
      ensures Valid() && looks >= old(looks) && Left() <= old(Left())
      ensures raised ==> inFlight != [] && |inFlight| == |old(inFlight)|
      ensures !raised ==> inFlight == kept' + flights[i + 1..] && kept' == Without(flights[..i + 1], completed)
      ensures !raised && flights[i].number in completed ==> Left() < old(Left())
      ensures Answers(world, raised, old(refusals), refusals, old(finished), finished)
    {
      hide Partition, Held, LeftOnce, QueueTotal, FlightTotal, Attempted, Copied, Possible, Answers, Landed, HandedBack, Without;
      FlightInMiddle(kept, flights, i);
      WithoutNext(flights, completed, i);
      raised, kept' := false, kept;
      if flights[i].number !in completed {
        kept' := kept + [flights[i]];
        AnswersNone(world, refusals, finished);
      } else {
        ghost var refused, ended, look := refusals, finished, looks;
        raised := Complete(world, kept, flights[i], flights[i + 1..]);
        AnswersOne(world, look, flights[i].job, raised, refused, refusals, ended, finished);
      }
    }

    /** The loop over the attempts that completed, in the order of their submission; an exception leaves it. */
    method Collect(world: World, completed: set<nat>) returns (raised: bool)
      requires Valid() && Possible(world, default, policy) && completed != {}
      requires completed <= Numbers(inFlight)
      modifies this`inFlight, this`finished, this`released, this`refusals, this`looks, queue
      ensures Valid() && looks >= old(looks)
      ensures if raised then inFlight != [] else Left() < old(Left())
      ensures !raised ==> inFlight == Without(old(inFlight), completed)
      ensures Answers(world, raised, old(refusals), refusals, old(finished), finished)
    {
      hide Valid, Left, Possible, Answers, Without;
      var flights := inFlight;
      var kept: seq<Flight> := [];
      ghost var left := Left();
      ghost var place := PlaceOfSome(flights, completed);
      WithoutEnds(flights, completed);
      AnswersNone(world, refusals, finished);
      for i := 0 to |flights|
        invariant Valid() && inFlight == kept + flights[i..] && looks >= old(looks) && kept == Without(flights[..i], completed)
        invariant Left() <= left && (i > place ==> Left() < left)
        invariant Answers(world, false, old(refusals), refusals, old(finished), finished)
      {
        ghost var refusals', finished' := refusals, finished;
        raised, kept := CollectOne(world, completed, flights, i, kept);
        AnswersJoin(world, raised, old(refusals), refusals', refusals, old(finished), finished', finished);
        if raised { return; }
      }
      return false;
    }

    /** The wait for the first completion, and what follows it. The worker waits only when it can fill no slot: because
        it was stopped, because all are taken, or because no task is due. */
    method AwaitSome(world: World, ghost stopped: bool) returns (raised: bool)
      requires Valid() && Possible(world, default, policy) && inFlight != []
      requires if stopped then looks > 0 && world.stop(looks - 1) else Saturated()
      modifies this`inFlight, this`finished, this`released, this`refusals, this`looks, queue
      ensures Valid() && (if raised then inFlight != [] else Left() < old(Left()))
      ensures !raised ==> inFlight == Without(old(inFlight), world.completes(old(looks), Numbers(old(inFlight))))
      ensures Answers(world, raised, old(refusals), refusals, old(finished), finished)
    {
      hide Partition, Held, LeftOnce, QueueTotal, FlightTotal, Attempted, Copied, Answers, Without;
      SomeNumber(inFlight);
      var completed := world.completes(looks, Numbers(inFlight));
      looks := looks + 1;
      raised := Collect(world, completed);
    }

    /** `run`. It ends, by the measure of remaining attempts; it keeps at most `maxWorkers` attempts in flight and
        loses and duplicates no task. When it returns without having been stopped the queue is empty, and then every
        accepted task has ended in SUCCESS or FAILED exactly if none was handed back to the store, which for a worker
        without a policy of its own means exactly if no claim was refused. An exception of an executor leaves the run
        with attempts still in flight. */
    method Run(world: World) returns (end: RunEnd)
      requires Valid() && Possible(world, default, policy) && (status == CreatedWorker ==> Fresh())
      modifies this, queue
      ensures end == NotStarted <==> old(status) != CreatedWorker
      ensures Valid() && accepted == old(accepted) && (end != NotStarted ==> status == StoppedWorker)
      ensures end == Returned ==> inFlight == [] && (queue.entries == map[] || exists n :: world.stop(n))
      ensures end == Returned && queue.entries == map[] ==>
                && (finished.Keys == accepted <==> released == map[])
                && (!policy ==> (finished.Keys == accepted <==> refusals == 0))
      ensures end == Raised ==> inFlight != []
      ensures end != NotStarted ==> forall id | id in finished :: finished[id].status in {Success, Failed}
      ensures end != NotStarted && (forall n, job :: world.execute(n, job).Attempt?) ==> end == Returned && refusals == 0
      ensures end != NotStarted && (forall n, job :: world.execute(n, job).Refused?) ==> end == Returned && finished == map[]
    {
      hide Partition, Held, LeftOnce, QueueTotal, FlightTotal, Possible, Answers, Ids, DistinctIds, Queueable, Left, Accounted;
      if status != CreatedWorker { return NotStarted; }
      status := RunningWorker;
      var turn := Serve(world);
      status := StoppedWorker;
      Ended(accepted, queue.ids, inFlight, finished, released);
      EmptyQueue(queue.entries, queue.ids);
      AnswersMean(world, turn == Broken, refusals, finished);
      RefusalsMean(policy, refusals, released);
      return if turn == Broken then Raised else Returned;
    }

    /** The outer loop of `run`. */
    method Serve(world: World) returns (turn: Round)
      requires Valid() && Possible(world, default, policy) && refusals == 0 && finished == map[]
      modifies this`inFlight, this`processed, this`finished, this`released, this`refusals, this`looks, this`time, queue
      ensures Valid() && turn != Again
      ensures turn == Empty ==> inFlight == [] && (queue.ids == {} || exists n :: world.stop(n))
      ensures turn == Broken ==> inFlight != []
      ensures Answers(world, turn == Broken, 0, refusals, map[], finished)
    {
      hide Partition, Held, LeftOnce, QueueTotal, FlightTotal, Possible, Answers, Ids, DistinctIds, Queueable, Left, Accounted;
      turn := Again;
      AnswersNone(world, 0, map[]);
      while turn == Again
        invariant Valid()
        invariant turn == Empty ==> inFlight == [] && (queue.ids == {} || exists n :: world.stop(n))
        invariant turn == Broken ==> inFlight != []
        invariant Answers(world, turn == Broken, 0, refusals, map[], finished)
        decreases turn == Again, Left(), inFlight == [], !world.stop(looks)
      {
        ghost var refusals', finished' := refusals, finished;
        turn := Turn(world);
        AnswersJoin(world, turn == Broken, 0, refusals', refusals, map[], finished', finished);
      }
    }

    lemma QueueNotEmpty()
      requires Valid()
      ensures queue.ids != {} ==> queue.entries != map[]
    {
      hide Partition, Held, LeftOnce, Accounted, DistinctIds, Queueable;
      if queue.ids != {} { NotEmpty(queue.entries, queue.ids); }
    }

    /** Fewer attempts are left; or one is in flight for the first time; or a stop has come. */
    ghost predicate Closer(world: World, left: nat, idle: bool, looks: nat)
      reads this, queue
    {
      Left() < left || (Left() == left && idle && (inFlight != [] || (world.stop(this.looks) && !world.stop(looks))))
    }

    /** One round of the outer loop. After a stop it starts nothing. Either it comes closer to the end of the run or it ends the run. */
    method Turn(world: World) returns (turn: Round)
      requires Valid() && Possible(world, default, policy)
      modifies this`inFlight, this`processed, this`finished, this`released, this`refusals, this`looks, this`time, queue
      ensures Valid()
      ensures turn == Again ==> Closer(world, old(Left()), old(inFlight) == [], old(looks))
      ensures turn == Empty ==> inFlight == [] && (queue.ids == {} || exists n :: world.stop(n))
      ensures turn == Broken ==> inFlight != []
      ensures world.stop(old(looks)) ==> |processed| == |old(processed)|
      ensures Answers(world, turn == Broken, old(refusals), refusals, old(finished), finished)
    {
      hide Valid, Left, Possible, Answers, Saturated, Without, Numbers, Takes;
      ghost var first := looks;
      var stopped := Fill(world);
      if inFlight == [] {
        AnswersNone(world, refusals, finished);
        stopped := ShouldStop(world);
        if stopped || queue.ids == {} { return Empty; }
        StopLasts(world, default, policy, first, looks - 1);
        QueueNotEmpty();
        stopped := WaitAndStart(world);
        if stopped { StopLasts(world, default, policy, looks - 1, looks); }
        return Again;
      }
      var raised := AwaitSome(world, stopped);
      return if raised then Broken else Again;
    }
  }

  datatype Round = Again | Empty | Broken

  lemma StopLasts(world: World, default: nat, policy: bool, n: nat, m: nat)
    requires Possible(world, default, policy) && n <= m
    ensures world.stop(n) ==> world.stop(m)
  {
  }

  datatype RunEnd = NotStarted | Returned | Raised

  /** What the kinds of answers that a world gives mean for a stretch of the run. */
  ghost predicate Answers(world: World, raised: bool, refusals: nat, refusals': nat, finished: map<string, Job>,
                          finished': map<string, Job>)
  {
    && ((forall n, job :: world.execute(n, job).Attempt?) ==> !raised && refusals' == refusals)
    && ((forall n, job :: world.execute(n, job).Refused?) ==> !raised && finished' == finished)
  }

  lemma FlightInMiddle(kept: seq<Flight>, flights: seq<Flight>, i: nat)
    requires i < |flights|
    ensures kept + flights[i..] == kept + [flights[i]] + flights[i + 1..]
  {
  }

  /** One more answer of the executor. */
  lemma AnswersOne(world: World, look: nat, job: Job, raised: bool, refusals: nat, refusals': nat,
                   finished: map<string, Job>, finished': map<string, Job>)
    requires raised <==> world.execute(look, job).Raises?
    requires world.execute(look, job).Attempt? ==> refusals' == refusals
    requires world.execute(look, job).Refused? ==> finished' == finished
    ensures Answers(world, raised, refusals, refusals', finished, finished')
  {
  }

  lemma AnswersNone(world: World, refusals: nat, finished: map<string, Job>)
    ensures Answers(world, false, refusals, refusals, finished, finished)
  {
  }

  lemma AnswersJoin(world: World, raised: bool, first: nat, refusals: nat, refusals': nat, begun: map<string, Job>,
                    finished: map<string, Job>, finished': map<string, Job>)
    requires Answers(world, false, first, refusals, begun, finished) && Answers(world, raised, refusals, refusals', finished, finished')
    ensures Answers(world, raised, first, refusals', begun, finished')
  {
  }

  lemma AnswersMean(world: World, raised: bool, refusals: nat, finished: map<string, Job>)
    requires Answers(world, raised, 0, refusals, map[], finished)
    ensures (forall n, job :: world.execute(n, job).Attempt?) ==> !raised && refusals == 0
    ensures (forall n, job :: world.execute(n, job).Refused?) ==> !raised && finished == map[]
  {
  }

  /** The executor refuses every claim: a run with one waiting task returns with an empty queue and without a stop,
      and the task is neither finished nor queued; it is PENDING in the store. */
  method EveryClaimRefused(job: Job) returns (worker: ConcurrentWorker, end: RunEnd)
    requires job.status == Pending && job.attempts == 0 && job.scheduledAt.None?
    ensures end == Returned && worker.queue.entries == map[] && worker.inFlight == [] && worker.finished == map[]
    ensures worker.accepted == {job.id} && worker.released.Keys == {job.id}
  {
    var queue := new TaskQueue();
    var queued := queue.Enqueue(job, 0, 0);
    worker := new ConcurrentWorker(queue, 2, 0, false, 0);
    OneId(queue.entries, job);
    assert worker.accepted == {job.id};
    var world := World(n => false, n => 0, (n, s) => s, (n, j) => Refused(j), (n, j) => false, (n, j) => 0);
    end := worker.Run(world);
    AllReleased(worker.accepted, worker.queue.entries, worker.queue.ids, worker.finished, worker.released);
  }

  lemma OneId(entries: Entries, job: Job)
    requires exists e: Entry :: e.job == job && entries == map[0 := e]
    ensures Ids(entries) == {job.id}
  {
    assert entries[0].job == job;
  }

  lemma AllReleased(accepted: set<string>, entries: Entries, queued: set<string>, finished: map<string, Job>,
                    released: map<string, Job>)
    requires Partition(accepted, queued, [], finished, released) && queued == Ids(entries) && entries == map[] && finished == map[]
    ensures released.Keys == accepted
  {
  }

  /** The attempts that have not completed, in their order. */
  function Without(flights: seq<Flight>, completed: set<nat>): seq<Flight> {
    if flights == [] then []
    else
      var rest, last := Without(flights[..|flights| - 1], completed), flights[|flights| - 1];
      if last.number in completed then rest else rest + [last]
  }

  lemma WithoutNext(flights: seq<Flight>, completed: set<nat>, i: nat)
    requires i < |flights|
    ensures Without(flights[..i + 1], completed) ==
              if flights[i].number in completed then Without(flights[..i], completed) else Without(flights[..i], completed) + [flights[i]]
  {
    assert flights[..i + 1][..i] == flights[..i];
  }

  lemma WithoutEnds(flights: seq<Flight>, completed: set<nat>)
    ensures Without(flights[..0], completed) == [] && [] + flights[0..] == flights
    ensures flights[..|flights|] == flights && forall kept: seq<Flight> :: kept + flights[|flights|..] == kept
  {
  }

  function Numbers(flights: seq<Flight>): set<nat> { set f | f in flights :: f.number }

  lemma SomeNumber(flights: seq<Flight>)
    requires flights != []
    ensures Numbers(flights) != {}
  {
    assert flights[0].number in Numbers(flights);
  }

  lemma NotEmpty(entries: Entries, ids: set<string>)
    requires ids == Ids(entries) && ids != {}
    ensures entries != map[]
  {
  }

  lemma EmptyQueue(entries: Entries, ids: set<string>)
    requires ids == Ids(entries)
    ensures ids == {} <==> entries == map[]
  {
    if entries != map[] {
      var n :| n in entries;
      assert entries[n].job.id in ids;
    }
  }

  lemma Ended(accepted: set<string>, queued: set<string>, flights: seq<Flight>, finished: map<string, Job>,
              released: map<string, Job>)
    requires Partition(accepted, queued, flights, finished, released)
    ensures queued == {} && flights == [] ==> (finished.Keys == accepted <==> released == map[])
    ensures forall id | id in finished :: finished[id].status in {Success, Failed}
  {
    if queued == {} && flights == [] {
      assert FlightIds(flights) == {};
      assert accepted == finished.Keys + released.Keys;
      if released != map[] {
        var id :| id in released;
        assert id in accepted && id !in finished.Keys;
      }
    }
  }

  lemma FlightNumbers(before: seq<Flight>, f: Flight, after: seq<Flight>)
    ensures forall g | g in before + after :: g in before + [f] + after
  {
  }

  lemma PlaceOfSome(flights: seq<Flight>, completed: set<nat>) returns (place: nat)
    requires completed != {} && completed <= Numbers(flights)
    ensures place < |flights| && flights[place].number in completed
  {
    var number :| number in completed;
    place :| 0 <= place < |flights| && flights[place].number == number;
  }

  lemma JoinThree(a: seq<Flight>, f: Flight, b: seq<Flight>, default: nat)
    ensures FlightTotal(a + [f] + b, default) == FlightTotal(a + b, default) + Remaining(f.job, default)
  {
    FlightsJoined(a + [f], b, default);
    FlightsJoined(a, [f], default);
    FlightsJoined(a, b, default);
  }

  lemma JoinedQueue(entries: Entries, entries': Entries, n: nat, ids': set<string>, ids: set<string>)
    requires n !in entries && n in entries' && entries' == entries[n := entries'[n]] && ids == Ids(entries) && ids' == Ids(entries')
    ensures ids' == ids + {entries'[n].job.id}
  {
    forall x ensures x in ids' <==> x in ids || x == entries'[n].job.id {
      if x in ids { var m :| m in entries && entries[m].job.id == x; assert entries'[m].job.id == x; }
      if x == entries'[n].job.id { assert entries'[n].job.id == x; }
    }
  }

  lemma NothingDueNow(entries: Entries, now: Time)
    requires !exists n :: IsDue(entries, n, now)
    ensures forall n | n in entries :: now < entries[n].due
  {
    forall n | n in entries ensures now < entries[n].due { assert !IsDue(entries, n, now); }
  }

  lemma WasDue(entries: Entries, n: nat, now: Time)
    requires First(entries, n, now)
    ensures n in entries && IsDue(entries, n, now)
  {
  }

  lemma LeftQueue(entries: Entries, entries': Entries, ids': set<string>, ids: set<string>, n: nat)
    requires n in entries && entries' == entries - {n} && ids == Ids(entries) && ids' == Ids(entries') && DistinctIds(entries)
    ensures entries[n].job.id in ids && ids' == ids - {entries[n].job.id}
  {
    RemovedId(entries, n);
  }

  lemma NumberUsed(left: seq<nat>, entries: Entries, next: nat, n: nat)
    requires LeftOnce(left, entries, next) && n in left
    ensures n < next
  {
  }
}
