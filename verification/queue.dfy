/** What the queue guarantees over whole runs: nothing is lost, repeated or overtaken. */
module QueueBooks {
  import opened Outcomes
  import opened Text
  import opened Turns
  import opened Machines

  // ---- Identifiers are never reused ----

  /** The IDs a session hands out, in order. */
  predicate Issued(ids: seq<string>, session: string) {
    forall i :: 0 <= i < |ids| ==> ids[i] == QueueID(session, i + 1)
  }

  predicate Issues(m: Machine) {
    |m.ledger.enqueued| == m.s.nextQueueSeq && Issued(m.ledger.enqueued, m.s.id)
  }

  lemma IssuedOneMore(ids: seq<string>, session: string)
    requires Issued(ids, session)
    ensures Issued(ids + [QueueID(session, |ids| + 1)], session)
  {
  }

  predicate Distinct(ids: seq<string>) {
    forall i, j :: 0 <= i < j < |ids| ==> ids[i] != ids[j]
  }

  lemma QueueIDsDiffer(session: string, i: nat, j: nat)
    requires i != j
    ensures QueueID(session, i) != QueueID(session, j)
  {
    if QueueID(session, i) == QueueID(session, j) {
      NumberedIDsAreInjective(session + ":q", i, session + ":q", j);
    }
  }

  lemma FreshIDsAreDistinct(m: Machine)
    requires Issues(m)
    ensures Distinct(m.ledger.enqueued)
    ensures QueueID(m.s.id, m.s.nextQueueSeq + 1) !in m.ledger.enqueued
  {
    var ids := m.ledger.enqueued;
    forall i, j | 0 <= i < j < |ids| ensures ids[i] != ids[j] {
      QueueIDsDiffer(m.s.id, i + 1, j + 1);
    }
    forall i | 0 <= i < |ids| ensures ids[i] != QueueID(m.s.id, m.s.nextQueueSeq + 1) {
      QueueIDsDiffer(m.s.id, i + 1, m.s.nextQueueSeq + 1);
    }
  }

  // ---- Conservation ----

  /** Every ID ever enqueued is accounted for, as often as it was enqueued. */
  predicate Balance(enqueued: seq<string>, queue: seq<Entry>, dispatched: seq<Entry>, removed: seq<Entry>,
                    cleared: seq<Entry>)
  {
    multiset(enqueued)
    == multiset(IDs(queue)) + multiset(IDs(dispatched)) + multiset(IDs(removed)) + multiset(IDs(cleared))
  }

  predicate Booked(m: Machine) {
    && Balance(m.ledger.enqueued, m.s.queue, m.ledger.dispatched, m.ledger.removed, m.ledger.cleared)
    && Issues(m) && |m.s.queue| <= m.s.limit
  }

  function Without(ids: seq<string>, i: nat): seq<string>
    requires i < |ids|
  {
    ids[..i] + ids[i + 1..]
  }

  lemma BalanceEnqueued(enqueued: seq<string>, queue: seq<Entry>, d: seq<Entry>, r: seq<Entry>, c: seq<Entry>, e: Entry)
    requires Balance(enqueued, queue, d, r, c)
    ensures Balance(enqueued + [e.id], [e] + queue, d, r, c) && Balance(enqueued + [e.id], queue + [e], d, r, c)
  {
    IDsOfFront(e, queue);
    IDsOfBack(queue, e);
  }

  lemma BalanceTaken(enqueued: seq<string>, queue: seq<Entry>, d: seq<Entry>, r: seq<Entry>, c: seq<Entry>, i: nat)
    requires Balance(enqueued, queue, d, r, c) && i < |queue|
    ensures Balance(enqueued, queue[..i] + queue[i + 1..], d + [queue[i]], r, c)
    ensures Balance(enqueued, queue[..i] + queue[i + 1..], d, r + [queue[i]], c)
  {
    var ids := IDs(queue);
    IDsWithout(queue, i);
    IDsOfBack(d, queue[i]);
    IDsOfBack(r, queue[i]);
    assert ids == (ids[..i] + [ids[i]]) + ids[i + 1..];
  }

  lemma BalanceCleared(enqueued: seq<string>, queue: seq<Entry>, d: seq<Entry>, r: seq<Entry>, c: seq<Entry>)
    requires Balance(enqueued, queue, d, r, c)
    ensures Balance(enqueued, [], d, r, c + queue)
  {
    assert IDs(c + queue) == IDs(c) + IDs(queue);
    assert IDs([]) == [];
  }

  lemma BalanceRenamed(enqueued: seq<string>, queue: seq<Entry>, queue': seq<Entry>, d: seq<Entry>, r: seq<Entry>,
                       c: seq<Entry>)
    requires Balance(enqueued, queue, d, r, c) && IDs(queue') == IDs(queue)
    ensures Balance(enqueued, queue', d, r, c)
  {
  }

  lemma IDsOfFront(e: Entry, queue: seq<Entry>)
    ensures IDs([e] + queue) == [e.id] + IDs(queue)
  {
  }

  lemma IDsOfBack(queue: seq<Entry>, e: Entry)
    ensures IDs(queue + [e]) == IDs(queue) + [e.id]
  {
  }

  lemma IDsWithout(queue: seq<Entry>, i: nat)
    requires i < |queue|
    ensures IDs(queue[..i] + queue[i + 1..]) == Without(IDs(queue), i)
    ensures i == 0 ==> queue[..i] + queue[i + 1..] == queue[1..]
  {
  }

  /** The same session, with its books in order. */
  predicate StaysBooked(m: Machine, m': Machine) {
    Booked(m') && m'.s.limit == m.s.limit && m'.s.id == m.s.id
  }

  /** What queueing a request does to the queue and the books: Send goes behind, SendNext in front. */
  lemma SentQueue(m: Machine, request: Request, next: bool)
    requires Turns.Send(m.s, request, next).1.Queued?
    ensures var m', e := Sent(m, request, next), Entry(QueueID(m.s.id, m.s.nextQueueSeq + 1), request);
            && Turns.Send(m.s, request, next).1 == Queued(e, |m'.s.queue|)
            && m'.s.queue == (if next then [e] + m.s.queue else m.s.queue + [e])
            && |m'.s.queue| <= m'.s.limit
            && m'.s.limit == m.s.limit && m'.s.id == m.s.id && m'.s.nextQueueSeq == m.s.nextQueueSeq + 1
            && m'.ledger == m.ledger.(enqueued := m.ledger.enqueued + [e.id], asked := m.ledger.asked[e.id := request])
  {
  }

  lemma SendBooks(m: Machine, request: Request, next: bool)
    requires Booked(m)
    ensures StaysBooked(m, Sent(m, request, next))
  {
    if Turns.Send(m.s, request, next).1.Queued? {
      SentQueue(m, request, next);
      IssuedOneMore(m.ledger.enqueued, m.s.id);
      BalanceEnqueued(m.ledger.enqueued, m.s.queue, m.ledger.dispatched, m.ledger.removed, m.ledger.cleared,
                      Entry(QueueID(m.s.id, m.s.nextQueueSeq + 1), request));
    }
  }

  /** A dispatch takes the head of the queue. */
  lemma DispatchedQueue(m: Machine)
    requires m.scheduled > 0 && Ready(m.s)
    ensures var m' := DispatchRan(m);
            && m'.s.queue == m.s.queue[..0] + m.s.queue[1..]
            && m'.s.limit == m.s.limit && m'.s.id == m.s.id && m'.s.nextQueueSeq == m.s.nextQueueSeq
            && m'.ledger == m.ledger.(dispatched := m.ledger.dispatched + [m.s.queue[0]])
  {
  }

  lemma DispatchBooks(m: Machine)
    requires Booked(m)
    ensures StaysBooked(m, DispatchRan(m))
  {
    if m.scheduled > 0 && Ready(m.s) {
      DispatchedQueue(m);
      BalanceTaken(m.ledger.enqueued, m.s.queue, m.ledger.dispatched, m.ledger.removed, m.ledger.cleared, 0);
    } else {
      NothingDispatched(m);
    }
  }

  lemma NothingDispatched(m: Machine)
    requires !(m.scheduled > 0 && Ready(m.s))
    ensures SameQueue(m, DispatchRan(m)) && DispatchRan(m).s == m.s
  {
  }

  /** Removing takes out one entry and keeps the order of the rest. */
  lemma RemovedQueue(m: Machine, entry: string, k: nat)
    requires Find(m.s.queue, entry) == Some(k)
    ensures var m' := Removed(m, entry);
            && m'.s.queue == m.s.queue[..k] + m.s.queue[k + 1..] && m.s.queue[k].id == entry
            && m'.s.limit == m.s.limit && m'.s.id == m.s.id && m'.s.nextQueueSeq == m.s.nextQueueSeq
            && m'.ledger == m.ledger.(removed := m.ledger.removed + [m.s.queue[k]])
  {
  }

  lemma RemoveBooks(m: Machine, entry: string)
    requires Booked(m)
    ensures StaysBooked(m, Removed(m, entry))
  {
    var found := Find(m.s.queue, entry);
    if found.Some? {
      RemovedQueue(m, entry, found.value);
      BalanceTaken(m.ledger.enqueued, m.s.queue, m.ledger.dispatched, m.ledger.removed, m.ledger.cleared, found.value);
    }
  }

  /** Replacing changes the request of one entry, and neither IDs nor positions. */
  lemma ReplacedQueue(m: Machine, entry: string, with: Request)
    ensures var m' := Replaced(m, entry, with);
            && IDs(m'.s.queue) == IDs(m.s.queue)
            && m'.s.limit == m.s.limit && m'.s.id == m.s.id && m'.s.nextQueueSeq == m.s.nextQueueSeq
            && (if EmptyRequest(with) || Find(m.s.queue, entry) == None then m' == m
                else
                  var k := Find(m.s.queue, entry).value;
                  && m'.s.queue == m.s.queue[k := Entry(entry, with)]
                  && m'.ledger == m.ledger.(asked := m.ledger.asked[entry := with]))
  {
  }

  lemma ReplaceBooks(m: Machine, entry: string, with: Request)
    requires Booked(m)
    ensures StaysBooked(m, Replaced(m, entry, with))
  {
    ReplacedQueue(m, entry, with);
    var m' := Replaced(m, entry, with);
    assert |m'.s.queue| == |IDs(m'.s.queue)|;
    BalanceRenamed(m.ledger.enqueued, m.s.queue, m'.s.queue, m.ledger.dispatched, m.ledger.removed, m.ledger.cleared);
  }

  lemma DiscardBooks(m: Machine, s: State)
    requires Booked(m) && s.queue == [] && s.limit == m.s.limit && s.id == m.s.id && s.nextQueueSeq == m.s.nextQueueSeq
    ensures StaysBooked(m, Discarded(m, s))
  {
    BalanceCleared(m.ledger.enqueued, m.s.queue, m.ledger.dispatched, m.ledger.removed, m.ledger.cleared);
  }

  /** Steps that leave the queue and its books alone. */
  predicate LeavesQueue(step: Step) {
    !(step.Send? || step.Dispatch? || step.Remove? || step.Replace? || step.ClearQueue? || step.Close?)
  }

  predicate SameQueue(m: Machine, m': Machine) {
    && m'.s.queue == m.s.queue && m'.ledger == m.ledger && m'.s.nextQueueSeq == m.s.nextQueueSeq
    && m'.s.id == m.s.id && m'.s.limit == m.s.limit
  }

  lemma OtherStepsLeaveQueue(m: Machine, step: Step)
    requires LeavesQueue(step)
    ensures SameQueue(m, Apply(m, step))
  {
  }

  lemma DiscardingSteps(m: Machine, step: Step)
    requires step.ClearQueue? || step.Close?
    ensures Apply(m, step) == m || exists s: State ::
              s.queue == [] && s.limit == m.s.limit && s.id == m.s.id && s.nextQueueSeq == m.s.nextQueueSeq
              && Apply(m, step) == Discarded(m, s)
  {
    var s := if step.Close? then Turns.Close(m.s) else Turns.ClearQueue(m.s);
    assert Apply(m, step) == m || (s.queue == [] && Apply(m, step) == Discarded(m, s));
  }

  lemma StepBooks(m: Machine, step: Step)
    requires Booked(m)
    ensures StaysBooked(m, Apply(m, step))
  {
    if step.Send? {
      SendBooks(m, step.request, step.next);
    } else if step.Dispatch? {
      DispatchBooks(m);
    } else if step.Remove? {
      RemoveBooks(m, step.entry);
    } else if step.Replace? {
      ReplaceBooks(m, step.entry, step.with);
    } else if step.ClearQueue? || step.Close? {
      DiscardingSteps(m, step);
      if Apply(m, step) != m {
        var s: State :| s.queue == [] && s.limit == m.s.limit && s.id == m.s.id
                        && s.nextQueueSeq == m.s.nextQueueSeq && Apply(m, step) == Discarded(m, s);
        DiscardBooks(m, s);
      }
    } else {
      OtherStepsLeaveQueue(m, step);
    }
  }

  lemma {:induction false} RunBooks(m: Machine, steps: seq<Step>)
    requires Booked(m)
    ensures StaysBooked(m, Run(m, steps))
    decreases |steps|
  {
    if steps != [] {
      StepBooks(m, steps[0]);
      RunBooks(Apply(m, steps[0]), steps[1..]);
    }
  }

  lemma CreatedIsBooked(id: string, backend: string, limit: nat)
    ensures Booked(Created(id, backend, limit))
  {
    assert IDs([]) == [];
  }

  /** How often an ID appears among the queued, dispatched, removed and cleared ones. */
  function Places(m: Machine, id: string): nat {
    multiset(IDs(m.s.queue))[id] + multiset(IDs(m.ledger.dispatched))[id] + multiset(IDs(m.ledger.removed))[id]
    + multiset(IDs(m.ledger.cleared))[id]
  }

  lemma {:induction false} DistinctOccurOnce(ids: seq<string>, id: string)
    requires Distinct(ids)
    ensures multiset(ids)[id] == if id in ids then 1 else 0
  {
    if ids != [] {
      var init, last := ids[..|ids| - 1], ids[|ids| - 1];
      assert ids == init + [last];
      DistinctOccurOnce(init, id);
      assert forall i :: 0 <= i < |init| ==> init[i] == ids[i];
      if id == last {
        assert id !in init;
      }
    }
  }

  /**
   Conservation: in every run the queue stays within its limit, IDs are never reused, and every ID
   ever enqueued is exactly one of still queued, dispatched once, removed or cleared.
   */
  lemma EveryEntryHasOnePlace(id: string, backend: string, limit: nat, steps: seq<Step>)
    ensures var m := Run(Created(id, backend, limit), steps);
            && |m.s.queue| <= limit && Distinct(m.ledger.enqueued)
            && forall entry :: Places(m, entry) == if entry in m.ledger.enqueued then 1 else 0
  {
    CreatedIsBooked(id, backend, limit);
    RunBooks(Created(id, backend, limit), steps);
    var m := Run(Created(id, backend, limit), steps);
    FreshIDsAreDistinct(m);
    forall entry
      ensures Places(m, entry) == if entry in m.ledger.enqueued then 1 else 0
    {
      DistinctOccurOnce(m.ledger.enqueued, entry);
    }
  }

  // ---- Order ----

  predicate Ahead(queue: seq<string>, a: string, b: string) {
    exists i, j :: 0 <= i < j < |queue| && queue[i] == a && queue[j] == b
  }

  lemma PlaceOf(m: Machine, id: string)
    requires Booked(m)
    ensures Places(m, id) == if id in m.ledger.enqueued then 1 else 0
  {
    FreshIDsAreDistinct(m);
    DistinctOccurOnce(m.ledger.enqueued, id);
  }

  lemma RepeatedOccurTwice(ids: seq<string>, i: nat, j: nat)
    requires i < j < |ids|
    ensures ids[i] == ids[j] ==> multiset(ids)[ids[i]] >= 2
  {
    assert ids == ids[..j] + ids[j..];
    assert ids[i] in ids[..j] && ids[j] in ids[j..];
    assert multiset(ids) == multiset(ids[..j]) + multiset(ids[j..]);
    assert multiset(ids[..j])[ids[i]] >= 1 && multiset(ids[j..])[ids[j]] >= 1;
  }

  lemma QueueIsDistinct(m: Machine)
    requires Booked(m)
    ensures Distinct(IDs(m.s.queue))
    ensures forall id :: id in IDs(m.s.queue) ==>
              && id in m.ledger.enqueued && id !in IDs(m.ledger.dispatched)
              && id !in IDs(m.ledger.removed) && id !in IDs(m.ledger.cleared)
  {
    var ids := IDs(m.s.queue);
    forall i, j | 0 <= i < j < |ids| ensures ids[i] != ids[j] {
      PlaceOf(m, ids[i]);
      RepeatedOccurTwice(ids, i, j);
    }
    forall id | id in ids
      ensures id in m.ledger.enqueued && id !in IDs(m.ledger.dispatched)
              && id !in IDs(m.ledger.removed) && id !in IDs(m.ledger.cleared)
    {
      PlaceOf(m, id);
      assert multiset(ids)[id] >= 1;
      assert id in IDs(m.ledger.dispatched) ==> multiset(IDs(m.ledger.dispatched))[id] >= 1;
      assert id in IDs(m.ledger.removed) ==> multiset(IDs(m.ledger.removed))[id] >= 1;
      assert id in IDs(m.ledger.cleared) ==> multiset(IDs(m.ledger.cleared))[id] >= 1;
    }
  }

  /** The books that order is about: what was enqueued, waits, and was dispatched. */
  predicate Queueing(enqueued: seq<string>, queue: seq<string>, dispatched: seq<string>, a: string, b: string) {
    && a in enqueued && b in enqueued
    && (a in queue ==> b !in dispatched && (Ahead(queue, a, b) || b !in queue))
  }

  lemma QueueingBehindNew(enqueued: seq<string>, queue: seq<string>, dispatched: seq<string>, a: string, b: string,
                          id: string, next: bool)
    requires Queueing(enqueued, queue, dispatched, a, b) && id !in enqueued
    ensures Queueing(enqueued + [id], if next then [id] + queue else queue + [id], dispatched, a, b)
  {
    var queue' := if next then [id] + queue else queue + [id];
    var shift := if next then 1 else 0;
    assert forall i :: 0 <= i < |queue| ==> queue'[i + shift] == queue[i];
    if Ahead(queue, a, b) {
      var i, j :| 0 <= i < j < |queue| && queue[i] == a && queue[j] == b;
      assert queue'[i + shift] == a && queue'[j + shift] == b;
    }
  }

  lemma WithoutIsRest(queue: seq<string>, k: nat)
    requires Distinct(queue) && k < |queue|
    ensures forall id :: id in Without(queue, k) <==> id in queue && id != queue[k]
  {
    var rest := Without(queue, k);
    assert forall i :: 0 <= i < |rest| ==> rest[i] == queue[if i < k then i else i + 1];
    assert forall i :: 0 <= i < |queue| && i != k ==> queue[i] == rest[if i < k then i else i - 1];
  }

  lemma AheadWithout(queue: seq<string>, a: string, b: string, k: nat)
    requires Ahead(queue, a, b) && k < |queue| && queue[k] != a && queue[k] != b
    ensures Ahead(Without(queue, k), a, b)
  {
    var i, j :| 0 <= i < j < |queue| && queue[i] == a && queue[j] == b;
    var rest := Without(queue, k);
    assert rest[if i < k then i else i - 1] == a && rest[if j < k then j else j - 1] == b;
  }

  /** Taking one ID out keeps the order of the others. */
  lemma QueueingWithout(enqueued: seq<string>, queue: seq<string>, dispatched: seq<string>, a: string, b: string, k: nat)
    requires Queueing(enqueued, queue, dispatched, a, b) && Distinct(queue) && k < |queue|
    ensures Queueing(enqueued, Without(queue, k), dispatched, a, b)
    ensures k == 0 ==> Queueing(enqueued, Without(queue, k), dispatched + [queue[0]], a, b)
  {
    WithoutIsRest(queue, k);
    if a in Without(queue, k) && Ahead(queue, a, b) {
      if queue[k] != b {
        AheadWithout(queue, a, b, k);
      } else {
        assert k != 0;
      }
    }
  }

  /** While a is queued, b waits behind it or has left the queue without being dispatched. */
  predicate Waits(m: Machine, a: string, b: string) {
    Queueing(m.ledger.enqueued, IDs(m.s.queue), IDs(m.ledger.dispatched), a, b)
  }

  lemma SendWaits(m: Machine, request: Request, next: bool, a: string, b: string)
    requires Booked(m) && Waits(m, a, b)
    ensures Waits(Sent(m, request, next), a, b)
  {
    if Turns.Send(m.s, request, next).1.Queued? {
      var e := Entry(QueueID(m.s.id, m.s.nextQueueSeq + 1), request);
      SentQueue(m, request, next);
      FreshIDsAreDistinct(m);
      IDsOfFront(e, m.s.queue);
      IDsOfBack(m.s.queue, e);
      QueueingBehindNew(m.ledger.enqueued, IDs(m.s.queue), IDs(m.ledger.dispatched), a, b, e.id, next);
    }
  }

  lemma DispatchWaits(m: Machine, a: string, b: string)
    requires Booked(m) && Waits(m, a, b)
    ensures Waits(DispatchRan(m), a, b)
  {
    if m.scheduled > 0 && Ready(m.s) {
      DispatchedQueue(m);
      QueueIsDistinct(m);
      IDsWithout(m.s.queue, 0);
      IDsOfBack(m.ledger.dispatched, m.s.queue[0]);
      QueueingWithout(m.ledger.enqueued, IDs(m.s.queue), IDs(m.ledger.dispatched), a, b, 0);
    }
  }

  lemma RemoveWaits(m: Machine, entry: string, a: string, b: string)
    requires Booked(m) && Waits(m, a, b)
    ensures Waits(Removed(m, entry), a, b)
  {
    var found := Find(m.s.queue, entry);
    if found.Some? {
      QueueIsDistinct(m);
      RemovedQueue(m, entry, found.value);
      IDsWithout(m.s.queue, found.value);
      QueueingWithout(m.ledger.enqueued, IDs(m.s.queue), IDs(m.ledger.dispatched), a, b, found.value);
    }
  }

  lemma StepWaits(m: Machine, step: Step, a: string, b: string)
    requires Booked(m) && Waits(m, a, b)
    ensures Waits(Apply(m, step), a, b)
  {
    if step.Send? {
      SendWaits(m, step.request, step.next, a, b);
    } else if step.Dispatch? {
      DispatchWaits(m, a, b);
    } else if step.Remove? {
      RemoveWaits(m, step.entry, a, b);
    } else if step.Replace? {
      ReplacedQueue(m, step.entry, step.with);
    } else if step.ClearQueue? || step.Close? {
      assert IDs([]) == [];
    } else {
      OtherStepsLeaveQueue(m, step);
    }
  }

  lemma {:induction false} RunWaits(m: Machine, steps: seq<Step>, a: string, b: string)
    requires Booked(m) && Waits(m, a, b)
    ensures Waits(Run(m, steps), a, b)
    decreases |steps|
  {
    if steps != [] {
      StepBooks(m, steps[0]);
      StepWaits(m, steps[0], a, b);
      RunWaits(Apply(m, steps[0]), steps[1..], a, b);
    }
  }

  /**
   No overtaking: once a is ahead of b in the queue, b is not dispatched for as long as a is queued,
   whatever is sent next, replaced or removed in between.
   */
  lemma NoOvertaking(id: string, backend: string, limit: nat, before: seq<Step>, after: seq<Step>, a: string, b: string)
    requires Ahead(IDs(Run(Created(id, backend, limit), before).s.queue), a, b)
    ensures var m := Run(Run(Created(id, backend, limit), before), after);
            a in IDs(m.s.queue) ==> b !in IDs(m.ledger.dispatched)
  {
    CreatedIsBooked(id, backend, limit);
    RunBooks(Created(id, backend, limit), before);
    var m := Run(Created(id, backend, limit), before);
    QueueIsDistinct(m);
    RunWaits(m, after, a, b);
  }
}
