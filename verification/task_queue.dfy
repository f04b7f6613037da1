/** The in-process queue (`queue.py`): two heaps and an id set that together behave like one collection of
    entries, each numbered by its arrival. */
module TaskQueues {
  import opened Types
  import opened Heap

  /** The fields of a task object that the scheduler uses. */
  datatype Job = Job(
    id: string,
    priority: int,
    status: Status,
    attempts: nat,
    retries: nat,
    maxRetries: Option<nat>,
    scheduledAt: Option<Time>,
    retryAt: Option<Time>)

  /** What waits in the queue: a task and the moment from which it may leave. */
  datatype Entry = Entry(job: Job, due: Time)

  type Entries = map<nat, Entry>

  // ---------------------------------------------------------------- the simple collection

  predicate Queueable(job: Job) {
    (job.status == Pending && job.attempts == 0) || job.status == Retrying
  }

  function Delay(job: Job, wall: Time): nat {
    var dueAt := if job.status == Pending then job.scheduledAt else job.retryAt;
    if dueAt.Some? && dueAt.value > wall then dueAt.value - wall else 0
  }

  predicate IsDue(entries: Entries, n: nat, now: Time) { n in entries && entries[n].due <= now }

  predicate Ahead(entries: Entries, n: nat, m: nat)
    requires n in entries && m in entries
  {
    entries[n].job.priority > entries[m].job.priority || (entries[n].job.priority == entries[m].job.priority && n < m)
  }

  /** The due entry that leaves next: the highest priority, and among equals the first to arrive. */
  ghost predicate First(entries: Entries, n: nat, now: Time) {
    IsDue(entries, n, now) && forall m | IsDue(entries, m, now) :: m == n || Ahead(entries, n, m)
  }

  /** The entry is due, and every other due entry has a lower priority or came later with the same. */
  ghost predicate LeavesFirst(entries: Entries, n: nat, now: Time) {
    && n in entries && entries[n].due <= now
    && forall m | m in entries && entries[m].due <= now && m != n ::
         || entries[m].job.priority < entries[n].job.priority
         || (entries[m].job.priority == entries[n].job.priority && n < m)
  }

  lemma FirstLeaves(entries: Entries, n: nat, now: Time)
    ensures First(entries, n, now) <==> LeavesFirst(entries, n, now)
  {
    if First(entries, n, now) {
      forall m | m in entries && entries[m].due <= now && m != n
        ensures entries[m].job.priority < entries[n].job.priority || (entries[m].job.priority == entries[n].job.priority && n < m)
      {
        assert IsDue(entries, m, now);
      }
    }
  }

  ghost function Ids(entries: Entries): set<string> { set n | n in entries :: entries[n].job.id }

  ghost predicate DistinctIds(entries: Entries) {
    forall n, m | n in entries && m in entries && entries[n].job.id == entries[m].job.id :: n == m
  }

  /** The moment from which a task that arrives now may leave: at its scheduled time, or the time of its retry if it
      retries, told on the monotonic clock; at once if that time has passed or there is none. */
  predicate DueAt(job: Job, wall: Time, now: Time, due: Time) {
    && now <= due
    && (job.status == Pending ==>
          if job.scheduledAt.Some? && wall < job.scheduledAt.value then due - now == job.scheduledAt.value - wall else due == now)
    && (job.status != Pending ==>
          if job.retryAt.Some? && wall < job.retryAt.value then due - now == job.retryAt.value - wall else due == now)
  }

  // ---------------------------------------------------------------- how the heaps hold it

  function ReadyItem(entries: Entries, n: nat): Item<Job>
    requires n in entries
  {
    Item(-entries[n].job.priority, n, entries[n].job)
  }

  function DelayedItem(entries: Entries, n: nat): Item<Item<Job>>
    requires n in entries
  {
    Item(entries[n].due, n, ReadyItem(entries, n))
  }

  ghost predicate ReadyHolds(ready: seq<Item<Job>>, entries: Entries, numbers: set<nat>) {
    && numbers <= entries.Keys
    && forall x :: multiset(ready)[x] == if x.sequence in numbers && x == ReadyItem(entries, x.sequence) then 1 else 0
  }

  ghost predicate DelayedHolds(delayed: seq<Item<Item<Job>>>, entries: Entries, numbers: set<nat>) {
    && numbers <= entries.Keys
    && forall x :: multiset(delayed)[x] == if x.sequence in numbers && x == DelayedItem(entries, x.sequence) then 1 else 0
  }

  lemma ReadyMembers(ready: seq<Item<Job>>, entries: Entries, numbers: set<nat>)
    requires ReadyHolds(ready, entries, numbers)
    ensures forall x | x in ready :: x.sequence in numbers && x == ReadyItem(entries, x.sequence)
    ensures forall n | n in numbers :: ReadyItem(entries, n) in ready
  {
    forall x | x in ready ensures x.sequence in numbers && x == ReadyItem(entries, x.sequence) {
      assert multiset(ready)[x] > 0;
    }
    forall n | n in numbers ensures ReadyItem(entries, n) in ready { assert multiset(ready)[ReadyItem(entries, n)] == 1; }
  }

  lemma DelayedMembers(delayed: seq<Item<Item<Job>>>, entries: Entries, numbers: set<nat>)
    requires DelayedHolds(delayed, entries, numbers)
    ensures forall x | x in delayed :: x.sequence in numbers && x == DelayedItem(entries, x.sequence)
    ensures forall n | n in numbers :: DelayedItem(entries, n) in delayed
  {
    forall x | x in delayed ensures x.sequence in numbers && x == DelayedItem(entries, x.sequence) {
      assert multiset(delayed)[x] > 0;
    }
    forall n | n in numbers ensures DelayedItem(entries, n) in delayed { assert multiset(delayed)[DelayedItem(entries, n)] == 1; }
  }

  /** A new entry goes to one of the heaps. */
  lemma ReadyPushed(before: seq<Item<Job>>, ready: seq<Item<Job>>, entries: Entries, entries': Entries,
                    numbers: set<nat>, n: nat)
    requires ReadyHolds(before, entries, numbers) && n !in numbers && n in entries'
    requires forall m | m in numbers :: m in entries' && entries'[m] == entries[m]
    requires multiset(ready) == multiset(before) + multiset{ReadyItem(entries', n)}
    ensures ReadyHolds(ready, entries', numbers + {n})
  {
  }

  lemma DelayedPushed(before: seq<Item<Item<Job>>>, delayed: seq<Item<Item<Job>>>, entries: Entries, entries': Entries,
                      numbers: set<nat>, n: nat)
    requires DelayedHolds(before, entries, numbers) && n !in numbers && n in entries'
    requires forall m | m in numbers :: m in entries' && entries'[m] == entries[m]
    requires multiset(delayed) == multiset(before) + multiset{DelayedItem(entries', n)}
    ensures DelayedHolds(delayed, entries', numbers + {n})
  {
  }

  lemma ReadyPopped(before: seq<Item<Job>>, ready: seq<Item<Job>>, entries: Entries, numbers: set<nat>,
                    first: Item<Job>)
    requires ReadyHolds(before, entries, numbers) && multiset(before) == multiset(ready) + multiset{first}
    ensures first.sequence in numbers && first == ReadyItem(entries, first.sequence)
    ensures ReadyHolds(ready, entries, numbers - {first.sequence})
  {
    assert multiset(before)[first] > 0;
  }

  lemma DelayedPopped(before: seq<Item<Item<Job>>>, delayed: seq<Item<Item<Job>>>, entries: Entries, numbers: set<nat>,
                      first: Item<Item<Job>>)
    requires DelayedHolds(before, entries, numbers) && multiset(before) == multiset(delayed) + multiset{first}
    ensures first.sequence in numbers && first == DelayedItem(entries, first.sequence)
    ensures DelayedHolds(delayed, entries, numbers - {first.sequence})
  {
    assert multiset(before)[first] > 0;
  }

  lemma ReadyShrinks(ready: seq<Item<Job>>, entries: Entries, entries': Entries, numbers: set<nat>)
    requires ReadyHolds(ready, entries, numbers) && forall m | m in numbers :: m in entries' && entries'[m] == entries[m]
    ensures ReadyHolds(ready, entries', numbers)
  {
  }

  lemma DelayedShrinks(delayed: seq<Item<Item<Job>>>, entries: Entries, entries': Entries, numbers: set<nat>)
    requires DelayedHolds(delayed, entries, numbers) && forall m | m in numbers :: m in entries' && entries'[m] == entries[m]
    ensures DelayedHolds(delayed, entries', numbers)
  {
  }

  /** The ready heap holds the numbers in `promoted`, the delayed heap all the others. */
  ghost predicate Held(ready: seq<Item<Job>>, delayed: seq<Item<Item<Job>>>, entries: Entries, promoted: set<nat>) {
    && IsHeap(ready) && IsHeap(delayed)
    && ReadyHolds(ready, entries, promoted) && DelayedHolds(delayed, entries, entries.Keys - promoted)
  }

  /** `heappush` of a new entry on the heap where it belongs. */
  method PushEntry(ready: seq<Item<Job>>, delayed: seq<Item<Item<Job>>>, ghost entries: Entries,
                   ghost promoted: set<nat>,
                   n: nat, job: Job, due: Time, later: bool)
    returns (ready': seq<Item<Job>>, delayed': seq<Item<Item<Job>>>)
    requires Held(ready, delayed, entries, promoted) && n !in entries
    ensures Held(ready', delayed', entries[n := Entry(job, due)], if later then promoted else promoted + {n})
  {
    hide IsHeap, ReadyHolds, DelayedHolds;
    var entry := Item(-job.priority, n, job);
    ghost var entries' := entries[n := Entry(job, due)];
    ready', delayed' := ready, delayed;
    HeldKeys(ready, delayed, entries, promoted);
    if later {
      delayed' := Push(delayed, Item(due, n, entry));
      DelayedPushed(delayed, delayed', entries, entries', entries.Keys - promoted, n);
      ReadyShrinks(ready, entries, entries', promoted);
      assert entries'.Keys - promoted == entries.Keys - promoted + {n};
    } else {
      ready' := Push(ready, entry);
      ReadyPushed(ready, ready', entries, entries', promoted, n);
      DelayedShrinks(delayed, entries, entries', entries.Keys - promoted);
      assert entries'.Keys - (promoted + {n}) == entries.Keys - promoted;
    }
  }

  lemma HeldKeys(ready: seq<Item<Job>>, delayed: seq<Item<Item<Job>>>, entries: Entries, promoted: set<nat>)
    requires Held(ready, delayed, entries, promoted)
    ensures promoted <= entries.Keys
  {
  }

  /** One entry moves from the delayed heap to the ready heap. */
  method PromoteOne(ready: seq<Item<Job>>, delayed: seq<Item<Item<Job>>>, ghost entries: Entries,
                    ghost promoted: set<nat>)
    returns (ready': seq<Item<Job>>, delayed': seq<Item<Item<Job>>>, ghost n: nat)
    requires Held(ready, delayed, entries, promoted) && delayed != []
    ensures n in entries && n !in promoted && entries[n].due <= delayed[0].key
    ensures Held(ready', delayed', entries, promoted + {n}) && |delayed'| < |delayed|
  {
    hide IsHeap, ReadyHolds, DelayedHolds;
    var first;
    HeldKeys(ready, delayed, entries, promoted);
    first, delayed' := Pop(delayed);
    n := first.sequence;
    PoppedSize(delayed, delayed', first);
    DelayedPopped(delayed, delayed', entries, entries.Keys - promoted, first);
    RootPopped(delayed, delayed', first);
    ready' := Push(ready, first.value);
    ReadyPushed(ready, ready', entries, entries, promoted, n);
    assert entries.Keys - (promoted + {n}) == entries.Keys - promoted - {n};
  }

  /** The loop of `_promote_due_locked`. */
  method PromoteDue(ready: seq<Item<Job>>, delayed: seq<Item<Item<Job>>>, ghost entries: Entries,
                    ghost promoted: set<nat>, now: Time)
    returns (ready': seq<Item<Job>>, delayed': seq<Item<Item<Job>>>, ghost promoted': set<nat>)
    requires Held(ready, delayed, entries, promoted) && forall n | n in promoted :: n in entries && entries[n].due <= now
    ensures Held(ready', delayed', entries, promoted') && promoted' == set n | n in entries && entries[n].due <= now
  {
    hide Held;
    ready', delayed', promoted' := ready, delayed, promoted;
    while delayed' != [] && delayed'[0].key <= now
      invariant Held(ready', delayed', entries, promoted')
      invariant forall n | n in promoted' :: n in entries && entries[n].due <= now
      decreases |delayed'|
    {
      ghost var n;
      ready', delayed', n := PromoteOne(ready', delayed', entries, promoted');
      promoted' := promoted' + {n};
    }
    NothingDue(ready', delayed', entries, promoted', now);
  }

  // ---------------------------------------------------------------- the queue

  class TaskQueue {
    var ready: seq<Item<Job>>
    var delayed: seq<Item<Item<Job>>>
    var next: nat
    var ids: set<string>
    /** What is in the queue, what has left it, the part that is in the ready heap and the last time seen. */
    ghost var entries: Entries
    ghost var left: seq<nat>
    ghost var promoted: set<nat>
    ghost var clock: Time

    ghost predicate Valid()
      reads this
    {
      && Held(ready, delayed, entries, promoted)
      && (forall n | n in promoted :: n in entries && entries[n].due <= clock)
      && ids == Ids(entries) && DistinctIds(entries)
      && (forall n | n in entries :: Queueable(entries[n].job))
      && LeftOnce(left, entries, next)
    }

    constructor ()
      ensures Valid() && entries == map[] && left == [] && next == 0 && clock == 0
    {
      ready, delayed, next, ids := [], [], 0, {};
      entries, left, promoted, clock := map[], [], {}, 0;
    }

    /** `enqueue`; `wall` is the wall clock that due times refer to, `now` the monotonic clock. */
    method Enqueue(job: Job, wall: Time, now: Time) returns (ok: bool)
      requires Valid() && clock <= now
      modifies this
      ensures Valid() && clock == now && left == old(left)
      ensures ok <==> Queueable(job) && job.id !in old(ids)
      ensures if ok then entries == old(entries)[old(next) := Entry(job, now + Delay(job, wall))] && next == old(next) + 1
              else entries == old(entries) && next == old(next)
      ensures ok <==> ((job.status == Pending && job.attempts == 0) || job.status == Retrying) &&
                      forall n | n in old(entries) :: old(entries)[n].job.id != job.id
      ensures ok ==> old(next) in entries && DueAt(job, wall, now, entries[old(next)].due)
    {
      AcceptedExactly(entries, job);
      hide Held, Queueable, Ids, DistinctIds, LeftOnce;
      clock := now;
      if !Queueable(job) || job.id in ids { return false; }
      var sequence := next;
      var delay := Delay(job, wall);
      Unused(left, entries, next);
      HeldKeys(ready, delayed, entries, promoted);
      AddedId(entries, sequence, Entry(job, now + delay));
      StillOnce(left, entries, sequence, Entry(job, now + delay));
      ready, delayed := PushEntry(ready, delayed, entries, promoted, sequence, job, now + delay, delay > 0);
      next := next + 1;
      ids := ids + {job.id};
      DelayExactly(job, wall, now);
      entries := entries[sequence := Entry(job, now + delay)];
      if delay == 0 { promoted := promoted + {sequence}; }
      return true;
    }

    /** `_promote_due_locked`: every entry that is due is in the ready heap now. */
    method Promote(now: Time)
      requires Valid() && clock <= now
      modifies this`ready, this`delayed, this`promoted, this`clock
      ensures Valid() && clock == now
      ensures promoted == set n | n in entries && entries[n].due <= now
    {
      hide Held, Queueable, Ids, DistinctIds, LeftOnce;
      ready, delayed, promoted := PromoteDue(ready, delayed, entries, promoted, now);
      clock := now;
    }

    /** `_dequeue_locked`: the first due entry leaves; nothing leaves exactly when nothing is due. */
    method Dequeue(now: Time) returns (job: Option<Job>)
      requires Valid() && clock <= now
      modifies this
      ensures Valid() && clock == now && next == old(next)
      ensures job.None? ==> entries == old(entries) && left == old(left) && forall n :: !IsDue(entries, n, now)
      ensures job.Some? ==> left != [] && left[..|left| - 1] == old(left) && First(old(entries), left[|left| - 1], now)
      ensures job.Some? ==> job.value == old(entries)[left[|left| - 1]].job && entries == old(entries) - {left[|left| - 1]}
      ensures job.None? ==> forall n | n in entries :: now < entries[n].due
      ensures job.Some? ==> left != [] && LeavesFirst(old(entries), left[|left| - 1], now)
    {
      hide Held, Queueable, Ids, DistinctIds, LeftOnce, First, LeavesFirst;
      Promote(now);
      if ready == [] {
        NoneReady(delayed, entries, promoted);
        forall n | n in entries ensures now < entries[n].due { assert n !in promoted; }
        return None;
      }
      ghost var old_ready := ready;
      var first;
      PoppableReady(ready, delayed, entries, promoted);
      first, ready := Pop(ready);
      ghost var n := first.sequence;
      PoppedReady(old_ready, ready, delayed, first, entries, promoted, now);
      FirstLeaves(entries, n, now);
      RemovedId(entries, n);
      OnceMore(left, entries, next, n);
      ids := ids - {first.value.id};
      entries := entries - {n};
      promoted := promoted - {n};
      left := left + [n];
      return Some(first.value);
    }

    /** `next_ready_delay`: 0 when something is due, the time to the earliest entry when nothing is, and
        `None` for an empty queue. */
    method NextReadyDelay(now: Time) returns (delay: Option<Time>)
      requires Valid() && clock <= now
      modifies this`ready, this`delayed, this`promoted, this`clock
      ensures Valid() && clock == now
      ensures delay.None? <==> entries == map[]
      ensures delay == Some(0) <==> exists n :: IsDue(entries, n, now)
      ensures delay.Some? && delay.value != 0 ==>
        && delay.value > 0 && (forall n | n in entries :: entries[n].due >= now + delay.value)
        && (exists n | n in entries :: entries[n].due == now + delay.value)
    {
      hide Held, Queueable, Ids, DistinctIds, LeftOnce;
      Promote(now);
      WhatIsReady(ready, delayed, entries, promoted);
      if ready != [] {
        ghost var n :| n in promoted;
        assert IsDue(entries, n, now);
        return Some(0);
      }
      if delayed == [] { return None; }
      return Some(Max(0, delayed[0].key - now));
    }

    method Size() returns (size: nat)
      requires Valid()
      ensures size == |entries|
    {
      SizeOfIds(entries);
      size := |ids|;
    }

    method Contains(id: string) returns (found: bool)
      requires Valid()
      ensures found <==> exists n | n in entries :: entries[n].job.id == id
    {
      found := id in ids;
    }
  }

  lemma DelayExactly(job: Job, wall: Time, now: Time)
    ensures DueAt(job, wall, now, now + Delay(job, wall))
  {
  }

  lemma AcceptedExactly(entries: Entries, job: Job)
    ensures Queueable(job) && job.id !in Ids(entries) <==>
              && ((job.status == Pending && job.attempts == 0) || job.status == Retrying)
              && forall n | n in entries :: entries[n].job.id != job.id
  {
  }

  /** Conservation: every number that was given out is in the queue or has left it, exactly once. */
  ghost predicate LeftOnce(left: seq<nat>, entries: Entries, next: nat) {
    && (forall i, j | 0 <= i < j < |left| :: left[i] != left[j])
    && (forall n: nat :: n < next <==> n in entries || n in left)
    && (forall n | n in left :: n !in entries)
  }

  lemma Unused(left: seq<nat>, entries: Entries, next: nat)
    requires LeftOnce(left, entries, next)
    ensures next !in entries && forall n | n in entries :: n < next
  {
  }

  lemma OnceMore(left: seq<nat>, entries: Entries, next: nat, n: nat)
    requires LeftOnce(left, entries, next) && n in entries
    ensures LeftOnce(left + [n], entries - {n}, next)
  {
  }

  lemma AddedId(entries: Entries, n: nat, e: Entry)
    requires n !in entries && e.job.id !in Ids(entries) && DistinctIds(entries)
    ensures Ids(entries[n := e]) == Ids(entries) + {e.job.id} && DistinctIds(entries[n := e])
  {
    var entries' := entries[n := e];
    forall m | m in entries ensures entries[m].job.id in Ids(entries) {}
    forall x ensures x in Ids(entries') <==> x in Ids(entries) || x == e.job.id {
      if x in Ids(entries) { var m :| m in entries && entries[m].job.id == x; assert entries'[m].job.id == x; }
      if x == e.job.id { assert entries'[n].job.id == x; }
    }
  }

  lemma RemovedId(entries: Entries, n: nat)
    requires n in entries && DistinctIds(entries)
    ensures Ids(entries - {n}) == Ids(entries) - {entries[n].job.id} && DistinctIds(entries - {n})
  {
    var entries' := entries - {n};
    forall x ensures x in Ids(entries') <==> x in Ids(entries) && x != entries[n].job.id {
      if x in Ids(entries') { var m :| m in entries' && entries'[m].job.id == x; assert entries[m].job.id == x; }
      if x in Ids(entries) && x != entries[n].job.id { var m :| m in entries && entries[m].job.id == x; assert entries'[m].job.id == x; }
    }
  }

  lemma StillOnce(left: seq<nat>, entries: Entries, n: nat, e: Entry)
    requires LeftOnce(left, entries, n)
    ensures LeftOnce(left, entries[n := e], n + 1)
  {
    assert n !in entries && n !in left;
  }

  lemma PoppedSize<T>(before: seq<Item<T>>, s: seq<Item<T>>, first: Item<T>)
    requires multiset(before) == multiset(s) + multiset{first}
    ensures |s| < |before|
  {
    assert |multiset(before)| == |before| && |multiset(s)| == |s|;
  }

  /** What was popped is the root that was looked at. */
  lemma RootPopped(before: seq<Item<Item<Job>>>, s: seq<Item<Item<Job>>>, first: Item<Item<Job>>)
    requires before != [] && multiset(before) == multiset(s) + multiset{first}
    requires forall x | x in s :: !Less(x, first)
    ensures first.key <= before[0].key
  {
    assert before[0] in multiset(before);
    assert before[0] in s || before[0] == first;
  }

  /** The root of the delayed heap has the earliest due time. */
  lemma EarliestAtRoot(delayed: seq<Item<Item<Job>>>, entries: Entries, numbers: set<nat>)
    requires IsHeap(delayed) && DelayedHolds(delayed, entries, numbers)
    ensures delayed == [] <==> numbers == {}
    ensures forall n | n in numbers :: delayed != [] && delayed[0].key <= entries[n].due
    ensures delayed != [] ==> delayed[0].sequence in numbers && entries[delayed[0].sequence].due == delayed[0].key
  {
    DelayedMembers(delayed, entries, numbers);
    forall n | n in numbers ensures delayed != [] && delayed[0].key <= entries[n].due {
      var x := DelayedItem(entries, n);
      var i :| 0 <= i < |delayed| && delayed[i] == x;
      RootIsFirst(delayed, i);
    }
    if delayed != [] { assert delayed[0] in delayed; }
  }

  lemma NothingDue(ready: seq<Item<Job>>, delayed: seq<Item<Item<Job>>>, entries: Entries, promoted: set<nat>,
                   now: Time)
    requires Held(ready, delayed, entries, promoted) && (delayed == [] || delayed[0].key > now)
    ensures forall n | n in entries && n !in promoted :: entries[n].due > now
  {
    EarliestAtRoot(delayed, entries, entries.Keys - promoted);
    forall n | n in entries && n !in promoted ensures entries[n].due > now { assert n in entries.Keys - promoted; }
  }

  lemma NoneReady(delayed: seq<Item<Item<Job>>>, entries: Entries, promoted: set<nat>)
    requires Held([], delayed, entries, promoted)
    ensures promoted == {}
  {
    ReadyMembers([], entries, promoted);
  }

  lemma PoppableReady(ready: seq<Item<Job>>, delayed: seq<Item<Item<Job>>>, entries: Entries, promoted: set<nat>)
    requires Held(ready, delayed, entries, promoted)
    ensures IsHeap(ready)
  {
  }

  lemma WhatIsReady(ready: seq<Item<Job>>, delayed: seq<Item<Item<Job>>>, entries: Entries, promoted: set<nat>)
    requires Held(ready, delayed, entries, promoted)
    ensures ready == [] <==> promoted == {}
    ensures ready == [] && delayed == [] <==> entries == map[]
    ensures ready == [] && delayed != [] ==>
      && (forall n | n in entries :: delayed[0].key <= entries[n].due)
      && delayed[0].sequence in entries && entries[delayed[0].sequence].due == delayed[0].key
  {
    ReadyMembers(ready, entries, promoted);
    EarliestAtRoot(delayed, entries, entries.Keys - promoted);
    if ready != [] { assert ready[0] in ready; }
    if ready == [] { assert entries.Keys - promoted == entries.Keys; }
  }

  /** The popped entry is the first one due, and the rest is held as before. */
  lemma PoppedReady(before: seq<Item<Job>>, ready: seq<Item<Job>>, delayed: seq<Item<Item<Job>>>, first: Item<Job>,
                    entries: Entries, promoted: set<nat>, now: Time)
    requires Held(before, delayed, entries, promoted) && IsHeap(ready) && multiset(before) == multiset(ready) + multiset{first}
    requires forall x | x in ready :: !Less(x, first)
    requires promoted == set n | n in entries && entries[n].due <= now
    ensures first.sequence in entries && first.value == entries[first.sequence].job && First(entries, first.sequence, now)
    ensures Held(ready, delayed, entries - {first.sequence}, promoted - {first.sequence})
  {
    hide IsHeap, DelayedHolds, ReadyHolds, First;
    var n := first.sequence;
    PoppedIsFirst(before, ready, first, entries, promoted, now);
    ReadyPopped(before, ready, entries, promoted, first);
    ReadyShrinks(ready, entries, entries - {n}, promoted - {n});
    DelayedShrinks(delayed, entries, entries - {n}, entries.Keys - promoted);
    assert (entries - {n}).Keys - (promoted - {n}) == entries.Keys - promoted;
  }

  lemma PoppedIsFirst(before: seq<Item<Job>>, s: seq<Item<Job>>, first: Item<Job>, entries: Entries,
                      promoted: set<nat>, now: Time)
    requires ReadyHolds(before, entries, promoted) && multiset(before) == multiset(s) + multiset{first}
    requires forall x | x in s :: !Less(x, first)
    requires promoted == set n | n in entries && entries[n].due <= now
    ensures first.sequence in entries && first.value == entries[first.sequence].job && First(entries, first.sequence, now)
  {
    ReadyMembers(before, entries, promoted);
    assert first in multiset(before);
    assert first in before;
    forall m | IsDue(entries, m, now) ensures m == first.sequence || Ahead(entries, first.sequence, m) {
      var x := ReadyItem(entries, m);
      assert x in before && x in multiset(before);
      assert x in s || x == first;
    }
  }

  lemma {:induction false} SizeOfIds(entries: Entries)
    requires DistinctIds(entries)
    ensures |Ids(entries)| == |entries|
    decreases |entries|
  {
    if entries != map[] {
      var n :| n in entries;
      RemovedId(entries, n);
      assert |entries - {n}| == |entries| - 1 by { assert (entries - {n}).Keys == entries.Keys - {n}; }
      SizeOfIds(entries - {n});
      assert entries[n].job.id in Ids(entries);
    } else {
      assert Ids(entries) == {};
    }
  }
}
