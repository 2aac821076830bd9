/** multi_agent/goal_queue.py: a queue of goal identifiers with lazy deletion, against a plain FIFO. */
module GoalQueue {
  import opened Wrappers

  datatype GoalStatus = Queued | Running | Completed | Failed

  datatype GoalEntry = GoalEntry(
    id: string,
    goal: string,
    status: GoalStatus,
    submittedAt: real,
    completedAt: Option<real>,
    runId: Option<string>,
    metadata: string
  )

  /** `goals` is the dictionary in insertion order; `pops` counts the identifiers taken off the queue. */
  datatype State = State(queue: seq<string>, goals: seq<GoalEntry>, submits: nat, pops: nat)

  const EMPTY := State([], [], 0, 0)

  /** The position of an identifier, or the number of goals if it is not there. */
  function Lookup(goals: seq<GoalEntry>, id: string): (i: nat)
    ensures i <= |goals|
    ensures i < |goals| ==> goals[i].id == id
    ensures forall j :: 0 <= j < i ==> goals[j].id != id
  {
    if goals == [] || goals[0].id == id then 0 else 1 + Lookup(goals[1..], id)
  }

  predicate Known(goals: seq<GoalEntry>, id: string) {
    Lookup(goals, id) < |goals|
  }

  /** `dict[entry.id] = entry` */
  function Put(goals: seq<GoalEntry>, entry: GoalEntry): seq<GoalEntry> {
    var i := Lookup(goals, entry.id);
    if i < |goals| then goals[i := entry] else goals + [entry]
  }

  predicate IsQueued(goals: seq<GoalEntry>, id: string) {
    Known(goals, id) && goals[Lookup(goals, id)].status == Queued
  }

  // ----- the operations -----

  datatype Answer = Submitted(entry: GoalEntry) | Goal(found: Option<GoalEntry>) | Done | KeyError

  datatype Event =
    | EvSubmit(id: string, goal: string, at: real, metadata: string)
    | EvPeek
    | EvDequeue
    | EvFinish(id: string, status: GoalStatus, at: real, runId: Option<string>)

  function SubmitGoal(s: State, entry: GoalEntry): State {
    s.(queue := s.queue + [entry.id], goals := Put(s.goals, entry), submits := s.submits + 1)
  }

  /** Drops identifiers from the front until one is still queued. */
  function SkipStale(s: State): State
    decreases |s.queue|
  {
    if s.queue == [] || IsQueued(s.goals, s.queue[0]) then s
    else SkipStale(s.(queue := s.queue[1..], pops := s.pops + 1))
  }

  function FrontGoal(s: State): Option<GoalEntry> {
    if s.queue == [] || !Known(s.goals, s.queue[0]) then None else Some(s.goals[Lookup(s.goals, s.queue[0])])
  }

  function Dequeue(s: State): (State, Option<GoalEntry>) {
    var skipped := SkipStale(s);
    if skipped.queue == [] || FrontGoal(skipped).None? then (skipped, None)
    else
      var running := FrontGoal(skipped).value.(status := Running);
      (skipped.(queue := skipped.queue[1..], goals := Put(s.goals, running), pops := skipped.pops + 1), Some(running))
  }

  function Step(s: State, e: Event): (State, Answer) {
    match e
    case EvSubmit(id, goal, at, metadata) =>
      var entry := GoalEntry(id, goal, Queued, at, None, None, metadata);
      (SubmitGoal(s, entry), Submitted(entry))
    case EvPeek => (SkipStale(s), Goal(FrontGoal(SkipStale(s))))
    case EvDequeue =>
      var (s', found) := Dequeue(s);
      (s', Goal(found))
    case EvFinish(id, status, at, runId) =>
      if !Known(s.goals, id) then (s, KeyError)
      else
        var entry := s.goals[Lookup(s.goals, id)];
        (s.(goals := Put(s.goals, entry.(status := status, completedAt := Some(at), runId := runId))), Done)
  }

  // ----- the reference: a dictionary alone, scanned for the first queued goal -----

  /** The position of the first queued goal, or the number of goals. */
  function FirstQueued(goals: seq<GoalEntry>): (i: nat)
    ensures i <= |goals|
    ensures i < |goals| ==> goals[i].status == Queued
    ensures forall j :: 0 <= j < i ==> goals[j].status != Queued
  {
    if goals == [] || goals[0].status == Queued then 0 else 1 + FirstQueued(goals[1..])
  }

  function Pending(goals: seq<GoalEntry>): seq<GoalEntry> {
    if goals == [] then [] else (if goals[0].status == Queued then [goals[0]] else []) + Pending(goals[1..])
  }

  function RefStep(goals: seq<GoalEntry>, e: Event): (seq<GoalEntry>, Answer) {
    match e
    case EvSubmit(id, goal, at, metadata) =>
      var entry := GoalEntry(id, goal, Queued, at, None, None, metadata);
      (goals + [entry], Submitted(entry))
    case EvPeek =>
      var pending := Pending(goals);
      (goals, Goal(if pending == [] then None else Some(pending[0])))
    case EvDequeue =>
      var i := FirstQueued(goals);
      if i == |goals| then (goals, Goal(None))
      else
        var running := goals[i].(status := Running);
        (goals[i := running], Goal(Some(running)))
    case EvFinish(id, status, at, runId) =>
      var i := Lookup(goals, id);
      if i == |goals| then (goals, KeyError)
      else (goals[i := goals[i].(status := status, completedAt := Some(at), runId := runId)], Done)
  }

  // ----- the queue object -----

  class GoalQueue {
    var queue: seq<string>
    var goals: seq<GoalEntry>
    ghost var submits: nat
    ghost var pops: nat

    ghost function Abs(): State
      reads this
    {
      State(queue, goals, submits, pops)
    }

    constructor ()
      ensures Abs() == EMPTY
    {
      queue, goals, submits, pops := [], [], 0, 0;
    }

    /** `id` and `now` are the fresh identifier and the clock reading. */
    method Submit(id: string, goal: string, metadata: string, now: real) returns (entry: GoalEntry)
      modifies this
      ensures (Abs(), Submitted(entry)) == Step(old(Abs()), EvSubmit(id, goal, now, metadata))
    {
      entry := GoalEntry(id, goal, Queued, now, None, None, metadata);
      goals := Put(goals, entry);
      queue := queue + [id];
      submits := submits + 1;
    }

    method Peek() returns (found: Option<GoalEntry>)
      modifies this`queue, this`pops
      ensures (Abs(), Goal(found)) == Step(old(Abs()), EvPeek)
      ensures found.Some? ==> queue != [] && found.value.status == Queued
      ensures found.None? ==> queue == []
    {
      while queue != []
        invariant goals == old(goals) && submits == old(submits)
        invariant SkipStale(Abs()) == SkipStale(old(Abs()))
        decreases |queue|
      {
        var i := Lookup(goals, queue[0]);
        if i < |goals| && goals[i].status == Queued {
          return Some(goals[i]);
        }
        queue := queue[1..];
        pops := pops + 1;
      }
      found := None;
    }

    method DequeueGoal() returns (found: Option<GoalEntry>)
      modifies this
      ensures (Abs(), Goal(found)) == Step(old(Abs()), EvDequeue)
    {
      found := Peek();
      if found.None? {
        return;
      }
      queue := queue[1..];
      pops := pops + 1;
      var updated := found.value.(status := Running);
      goals := Put(goals, updated);
      found := Some(updated);
    }

    /** `mark_complete` and `mark_failed` differ only in the status that they set. */
    method Mark(id: string, status: GoalStatus, runId: Option<string>, now: real) returns (answer: Answer)
      requires status == Completed || status == Failed
      modifies this`goals
      ensures (Abs(), answer) == Step(old(Abs()), EvFinish(id, status, now, runId))
    {
      var i := Lookup(goals, id);
      if i == |goals| {
        return KeyError;
      }
      goals := Put(goals, goals[i].(status := status, completedAt := Some(now), runId := runId));
      return Done;
    }

    method ListPending() returns (pending: seq<GoalEntry>)
      ensures pending == Pending(goals)
    {
      pending := [];
      for i := 0 to |goals|
        invariant pending + Pending(goals[i..]) == Pending(goals)
      {
        if goals[i].status == Queued {
          pending := pending + [goals[i]];
        }
      }
    }
  }

  // ----- the invariant -----

  predicate DistinctIds(goals: seq<GoalEntry>) {
    forall i, j :: 0 <= i < j < |goals| ==> goals[i].id != goals[j].id
  }

  /** The queue is the tail of the identifiers in submission order, from some point on. */
  ghost predicate Inv(s: State) {
    && DistinctIds(s.goals)
    && s.submits == |s.goals|
    && s.pops + |s.queue| == s.submits
    && (forall k :: 0 <= k < |s.queue| ==> s.queue[k] == s.goals[s.pops + k].id)
    && (forall k :: 0 <= k < s.pops ==> s.goals[k].status != Queued)
  }

  /** The identifier of a submission is new. */
  predicate FreshFor(goals: seq<GoalEntry>, e: Event) {
    e.EvSubmit? ==> !Known(goals, e.id)
  }

  /** A goal is never put back into the queue. */
  predicate Proper(e: Event) {
    e.EvFinish? ==> e.status == Completed || e.status == Failed
  }

  lemma LookupAt(goals: seq<GoalEntry>, i: nat)
    requires DistinctIds(goals) && i < |goals|
    ensures Lookup(goals, goals[i].id) == i
  {
  }

  lemma {:induction false} SkipStaleFinds(s: State)
    requires Inv(s)
    ensures
      var s', i := SkipStale(s), FirstQueued(s.goals);
      && Inv(s') && s'.goals == s.goals
      && s'.pops == i
      && FrontGoal(s') == (if i < |s.goals| then Some(s.goals[i]) else None)
      && (s'.queue == [] <==> i == |s.goals|)
    decreases |s.queue|
  {
    if s.queue != [] {
      assert s.queue[0] == s.goals[s.pops].id;
      LookupAt(s.goals, s.pops);
      if !IsQueued(s.goals, s.queue[0]) {
        var next := s.(queue := s.queue[1..], pops := s.pops + 1);
        assert forall k :: 0 <= k < |next.queue| ==> next.queue[k] == s.queue[k + 1];
        SkipStaleFinds(next);
      }
    }
  }

  lemma {:induction false} PendingHead(goals: seq<GoalEntry>)
    ensures Pending(goals) == [] <==> FirstQueued(goals) == |goals|
    ensures FirstQueued(goals) < |goals| ==> Pending(goals)[0] == goals[FirstQueued(goals)]
  {
    if goals != [] {
      PendingHead(goals[1..]);
    }
  }

  lemma UpdateKeepsInv(s: State, i: nat, entry: GoalEntry)
    requires Inv(s) && i < |s.goals| && entry.id == s.goals[i].id && entry.status != Queued
    ensures Inv(s.(goals := s.goals[i := entry])) && Put(s.goals, entry) == s.goals[i := entry]
  {
    LookupAt(s.goals, i);
    var after := s.goals[i := entry];
    assert forall k :: 0 <= k < |after| ==> after[k].id == s.goals[k].id;
  }

  lemma SubmitRefines(s: State, entry: GoalEntry)
    requires Inv(s) && !Known(s.goals, entry.id) && entry.status == Queued
    ensures Inv(SubmitGoal(s, entry)) && SubmitGoal(s, entry).goals == s.goals + [entry]
  {
  }

  /** Taking the goal at the front of a queue without stale entries. */
  lemma TakeFront(s: State)
    requires Inv(s) && s.queue != [] && s.pops < |s.goals|
    ensures
      var running := s.goals[s.pops].(status := Running);
      var s' := s.(queue := s.queue[1..], goals := s.goals[s.pops := running], pops := s.pops + 1);
      Inv(s') && Put(s.goals, running) == s'.goals
  {
    var running := s.goals[s.pops].(status := Running);
    UpdateKeepsInv(s, s.pops, running);
    var rest := s.queue[1..];
    assert forall k :: 0 <= k < |rest| ==> rest[k] == s.queue[k + 1];
  }

  lemma DequeueRefines(s: State)
    requires Inv(s)
    ensures
      var (s', found) := Dequeue(s);
      var (goals', expected) := RefStep(s.goals, EvDequeue);
      Inv(s') && s'.goals == goals' && Goal(found) == expected
  {
    SkipStaleFinds(s);
    var skipped, i := SkipStale(s), FirstQueued(s.goals);
    if i < |s.goals| {
      TakeFront(skipped);
      assert FrontGoal(skipped) == Some(s.goals[i]);
      assert Dequeue(s).0.goals == s.goals[i := s.goals[i].(status := Running)];
    }
  }

  /** One step of the queue is one step of the reference, with the same answer. */
  lemma StepRefines(s: State, e: Event)
    requires Inv(s) && FreshFor(s.goals, e) && Proper(e)
    ensures
      var (s', answer) := Step(s, e);
      var (goals', expected) := RefStep(s.goals, e);
      Inv(s') && s'.goals == goals' && answer == expected
  {
    match e {
      case EvSubmit(id, goal, at, metadata) =>
        SubmitRefines(s, GoalEntry(id, goal, Queued, at, None, None, metadata));
      case EvPeek =>
        SkipStaleFinds(s);
        PendingHead(s.goals);
      case EvDequeue =>
        DequeueRefines(s);
      case EvFinish(id, status, at, runId) =>
        if Known(s.goals, id) {
          var i := Lookup(s.goals, id);
          UpdateKeepsInv(s, i, s.goals[i].(status := status, completedAt := Some(at), runId := runId));
        }
    }
  }

  // ----- the pending goals as a plain list -----

  lemma {:induction false} PendingConcat(a: seq<GoalEntry>, b: seq<GoalEntry>)
    ensures Pending(a + b) == Pending(a) + Pending(b)
  {
    if a == [] {
      assert a + b == b;
    } else {
      assert (a + b)[1..] == a[1..] + b;
      PendingConcat(a[1..], b);
    }
  }

  lemma {:induction false} PendingMembers(goals: seq<GoalEntry>)
    ensures forall g :: g in Pending(goals) <==> g in goals && g.status == Queued
  {
    if goals != [] {
      assert goals == [goals[0]] + goals[1..];
      PendingMembers(goals[1..]);
    }
  }

  lemma PendingOne(g: GoalEntry)
    ensures Pending([g]) == if g.status == Queued then [g] else []
  {
    assert [g][1..] == [];
  }

  /** The pending goals around one position. */
  lemma PendingAround(goals: seq<GoalEntry>, i: nat, here: GoalEntry, rest: seq<GoalEntry>)
    requires i < |goals| && here == goals[i] && rest == goals[i + 1..]
    ensures Pending(goals) == Pending(goals[..i]) + (Pending([here]) + Pending(rest))
  {
    assert goals == goals[..i] + ([here] + rest);
    PendingConcat(goals[..i], [here] + rest);
    PendingConcat([here], rest);
  }

  /** A goal that leaves the queued status leaves the pending goals, and no other one does. */
  lemma PendingDrops(goals: seq<GoalEntry>, i: nat, entry: GoalEntry)
    requires i < |goals| && entry.status != Queued
    ensures Pending(goals[i := entry]) == Pending(goals[..i]) + Pending(goals[i + 1..])
  {
    var after := goals[i := entry];
    PendingAround(after, i, entry, goals[i + 1..]);
    PendingOne(entry);
    assert after[..i] == goals[..i];
  }

  lemma {:induction false} NonePending(goals: seq<GoalEntry>)
    requires forall i :: 0 <= i < |goals| ==> goals[i].status != Queued
    ensures Pending(goals) == []
  {
    if goals != [] {
      NonePending(goals[1..]);
    }
  }

  /** What each operation does to the pending goals: a submission goes to their end, a peek answers the first
      one, a dequeue takes it away and answers it as running, and finishing a goal takes it out. */
  lemma StepOnPending(s: State, e: Event)
    requires Inv(s) && FreshFor(s.goals, e) && Proper(e)
    ensures
      var (s', answer) := Step(s, e);
      var before, after := Pending(s.goals), Pending(s'.goals);
      match e
      case EvSubmit(id, goal, at, metadata) =>
        && answer == Submitted(GoalEntry(id, goal, Queued, at, None, None, metadata))
        && after == before + [answer.entry]
      case EvPeek => after == before && answer == Goal(if before == [] then None else Some(before[0]))
      case EvDequeue =>
        if before == [] then after == [] && answer == Goal(None)
        else after == before[1..] && answer == Goal(Some(before[0].(status := Running)))
      case EvFinish(id, _, _, _) =>
        var i := Lookup(s.goals, id);
        if forall g :: g in s.goals ==> g.id != id then after == before && answer == KeyError
        else
          && i < |s.goals| && answer == Done
          && after == Pending(s.goals[..i]) + Pending(s.goals[i + 1..])
          && before == Pending(s.goals[..i]) + (Pending([s.goals[i]]) + Pending(s.goals[i + 1..]))
  {
    StepRefines(s, e);
    match e {
      case EvSubmit(id, goal, at, metadata) =>
        var entry := GoalEntry(id, goal, Queued, at, None, None, metadata);
        PendingConcat(s.goals, [entry]);
        PendingOne(entry);
      case EvPeek =>
      case EvDequeue =>
        DequeueTakesFirst(s.goals);
      case EvFinish(id, status, at, runId) =>
        var i := Lookup(s.goals, id);
        if i < |s.goals| {
          PendingAround(s.goals, i, s.goals[i], s.goals[i + 1..]);
          PendingDrops(s.goals, i, s.goals[i].(status := status, completedAt := Some(at), runId := runId));
          assert s.goals[i] in s.goals;
        }
    }
  }

  lemma DequeueTakesFirst(goals: seq<GoalEntry>)
    ensures
      var (goals', answer) := RefStep(goals, EvDequeue);
      var before, after := Pending(goals), Pending(goals');
      if before == [] then after == [] && answer == Goal(None)
      else after == before[1..] && answer == Goal(Some(before[0].(status := Running)))
  {
    PendingHead(goals);
    var i := FirstQueued(goals);
    if i < |goals| {
      PendingAround(goals, i, goals[i], goals[i + 1..]);
      PendingOne(goals[i]);
      NonePending(goals[..i]);
      PendingDrops(goals, i, goals[i].(status := Running));
    }
  }

  // ----- runs -----

  function Run(s: State, events: seq<Event>): (State, seq<Answer>)
    decreases |events|
  {
    if events == [] then (s, [])
    else
      var (next, answer) := Step(s, events[0]);
      var (last, answers) := Run(next, events[1..]);
      (last, [answer] + answers)
  }

  function RefRun(goals: seq<GoalEntry>, events: seq<Event>): (seq<GoalEntry>, seq<Answer>)
    decreases |events|
  {
    if events == [] then (goals, [])
    else
      var (next, answer) := RefStep(goals, events[0]);
      var (last, answers) := RefRun(next, events[1..]);
      (last, [answer] + answers)
  }

  /** Every submission of the run brings a new identifier, and finishing never sets QUEUED or RUNNING. */
  predicate ProperRun(goals: seq<GoalEntry>, events: seq<Event>)
    decreases |events|
  {
    events != [] ==>
      && FreshFor(goals, events[0]) && Proper(events[0])
      && ProperRun(RefStep(goals, events[0]).0, events[1..])
  }

  lemma {:induction false} RunRefines(s: State, events: seq<Event>)
    requires Inv(s) && ProperRun(s.goals, events)
    ensures
      var (s', answers) := Run(s, events);
      Inv(s') && (s'.goals, answers) == RefRun(s.goals, events)
    decreases |events|
  {
    if events != [] {
      StepRefines(s, events[0]);
      RunRefines(Step(s, events[0]).0, events[1..]);
    }
  }

  /** Lazy deletion is invisible: in every run with fresh identifiers the queue gives the answers of a
      dictionary that is scanned for its first queued goal, and ends with the same goals; and it takes no
      more identifiers off the queue than were submitted. */
  lemma QueueIsFifo(events: seq<Event>)
    requires ProperRun([], events)
    ensures
      var (s, answers) := Run(EMPTY, events);
      && (s.goals, answers) == RefRun([], events)
      && s.pops + |s.queue| == s.submits
  {
    RunRefines(EMPTY, events);
  }

  /** The positions, in submission order, of the goals that the dequeues of a run return. */
  function DequeuedPositions(goals: seq<GoalEntry>, events: seq<Event>): seq<nat>
    decreases |events|
  {
    if events == [] then []
    else
      (if events[0].EvDequeue? && FirstQueued(goals) < |goals| then [FirstQueued(goals)] else [])
      + DequeuedPositions(RefStep(goals, events[0]).0, events[1..])
  }

  /** Positions keep their identifier, and a goal that is not queued is never queued again. */
  lemma StepNeverRequeues(goals: seq<GoalEntry>, e: Event)
    requires Proper(e)
    ensures |goals| <= |RefStep(goals, e).0|
    ensures forall i :: 0 <= i < |goals| ==>
              && RefStep(goals, e).0[i].id == goals[i].id
              && (goals[i].status != Queued ==> RefStep(goals, e).0[i].status != Queued)
  {
  }

  /** Strictly increasing numbers, none below `n`. */
  predicate IncreasingFrom(d: seq<nat>, n: nat) {
    d == [] || (n <= d[0] && IncreasingFrom(d[1..], d[0] + 1))
  }

  lemma {:induction false} IncreasingPairs(d: seq<nat>, n: nat, i: nat, j: nat)
    requires IncreasingFrom(d, n) && i < j < |d|
    ensures d[i] < d[j]
  {
    if i > 0 {
      IncreasingPairs(d[1..], d[0] + 1, i - 1, j - 1);
    } else {
      IncreasingBound(d[1..], d[0] + 1, j - 1);
    }
  }

  lemma {:induction false} IncreasingBound(d: seq<nat>, n: nat, j: nat)
    requires IncreasingFrom(d, n) && j < |d|
    ensures n <= d[j]
  {
    if j > 0 {
      IncreasingBound(d[1..], d[0] + 1, j - 1);
    }
  }

  lemma {:induction false} DequeuesIncreaseFrom(goals: seq<GoalEntry>, events: seq<Event>, n: nat)
    requires ProperRun(goals, events)
    requires n <= |goals| && forall i :: 0 <= i < n ==> goals[i].status != Queued
    ensures IncreasingFrom(DequeuedPositions(goals, events), n)
    decreases |events|
  {
    if events != [] {
      var next := RefStep(goals, events[0]).0;
      var rest := DequeuedPositions(next, events[1..]);
      StepNeverRequeues(goals, events[0]);
      if events[0].EvDequeue? && FirstQueued(goals) < |goals| {
        var i := FirstQueued(goals);
        assert n <= i;
        DequeuesIncreaseFrom(next, events[1..], i + 1);
        assert DequeuedPositions(goals, events) == [i] + rest;
        assert ([i] + rest)[1..] == rest;
      } else {
        DequeuesIncreaseFrom(next, events[1..], n);
        assert DequeuedPositions(goals, events) == rest;
      }
    }
  }

  lemma {:induction false} RunNeverRequeues(goals: seq<GoalEntry>, events: seq<Event>)
    requires ProperRun(goals, events)
    ensures |goals| <= |RefRun(goals, events).0|
    ensures forall i :: 0 <= i < |goals| ==>
              && RefRun(goals, events).0[i].id == goals[i].id
              && (goals[i].status != Queued ==> RefRun(goals, events).0[i].status != Queued)
    decreases |events|
  {
    if events != [] {
      StepNeverRequeues(goals, events[0]);
      RunNeverRequeues(RefStep(goals, events[0]).0, events[1..]);
    }
  }

  /** What was submitted stays as it was submitted. */
  predicate SameContents(a: GoalEntry, b: GoalEntry) {
    a.id == b.id && a.goal == b.goal && a.submittedAt == b.submittedAt && a.metadata == b.metadata
  }

  lemma {:induction false} RunKeepsContents(goals: seq<GoalEntry>, events: seq<Event>)
    ensures |goals| <= |RefRun(goals, events).0|
    ensures forall i :: 0 <= i < |goals| ==> SameContents(RefRun(goals, events).0[i], goals[i])
    decreases |events|
  {
    if events != [] {
      var next := RefStep(goals, events[0]).0;
      assert forall i :: 0 <= i < |goals| ==> SameContents(next[i], goals[i]);
      RunKeepsContents(next, events[1..]);
    }
  }

  predicate Finishes(e: Event, id: string) {
    e.EvFinish? && e.id == id
  }

  /** A goal that is not queued changes only by being finished. */
  lemma {:induction false} OnlyFinishingChanges(goals: seq<GoalEntry>, events: seq<Event>, i: nat)
    requires i < |goals| && goals[i].status != Queued
    requires forall e :: e in events ==> !Finishes(e, goals[i].id)
    ensures i < |RefRun(goals, events).0| && RefRun(goals, events).0[i] == goals[i]
    decreases |events|
  {
    if events != [] {
      assert !Finishes(events[0], goals[i].id);
      OnlyFinishingChanges(RefStep(goals, events[0]).0, events[1..], i);
    }
  }

  /** The last time that a goal is finished decides on its final status, time and run, whatever happens
      before and after. */
  lemma LastFinishStands(s: State, id: string, status: GoalStatus, at: real, runId: Option<string>, later: seq<Event>)
    requires Inv(s) && Known(s.goals, id) && (status == Completed || status == Failed)
    requires ProperRun(RefStep(s.goals, EvFinish(id, status, at, runId)).0, later)
    requires forall e :: e in later ==> !Finishes(e, id)
    ensures
      var last := Run(Step(s, EvFinish(id, status, at, runId)).0, later).0.goals;
      && Known(last, id)
      && var g := last[Lookup(last, id)];
      && g.status == status && g.completedAt == Some(at) && g.runId == runId
      && SameContents(g, s.goals[Lookup(s.goals, id)])
  {
    var e := EvFinish(id, status, at, runId);
    var i := Lookup(s.goals, id);
    StepRefines(s, e);
    var next := Step(s, e).0;
    RunRefines(next, later);
    OnlyFinishingChanges(next.goals, later, i);
    LookupAt(RefRun(next.goals, later).0, i);
  }

  /** The goals that the dequeues of a run answer. */
  function DequeuedGoals(events: seq<Event>, answers: seq<Answer>): seq<GoalEntry>
    requires |events| == |answers|
  {
    if events == [] then []
    else
      (if events[0].EvDequeue? && answers[0].Goal? && answers[0].found.Some? then [answers[0].found.value] else [])
      + DequeuedGoals(events[1..], answers[1..])
  }

  /** The identifiers in submission order. */
  function SubmittedIds(events: seq<Event>): seq<string> {
    if events == [] then []
    else (if events[0].EvSubmit? then [events[0].id] else []) + SubmittedIds(events[1..])
  }

  function Ids(goals: seq<GoalEntry>): seq<string> {
    seq(|goals|, i requires 0 <= i < |goals| => goals[i].id)
  }

  lemma {:induction false} RefRunAnswers(goals: seq<GoalEntry>, events: seq<Event>)
    ensures |RefRun(goals, events).1| == |events|
    decreases |events|
  {
    if events != [] {
      RefRunAnswers(RefStep(goals, events[0]).0, events[1..]);
    }
  }

  lemma StepIds(goals: seq<GoalEntry>, e: Event)
    ensures Ids(RefStep(goals, e).0) == Ids(goals) + if e.EvSubmit? then [e.id] else []
  {
  }

  lemma {:induction false} RunIds(goals: seq<GoalEntry>, events: seq<Event>)
    ensures Ids(RefRun(goals, events).0) == Ids(goals) + SubmittedIds(events)
    decreases |events|
  {
    if events != [] {
      StepIds(goals, events[0]);
      RunIds(RefStep(goals, events[0]).0, events[1..]);
    }
  }

  /** The positions are those of the dequeued goals in the final dictionary. */
  ghost predicate Locates(out: seq<GoalEntry>, positions: seq<nat>, final: seq<GoalEntry>) {
    && |out| == |positions|
    && forall i :: 0 <= i < |out| ==> positions[i] < |final| && final[positions[i]].id == out[i].id
  }

  lemma {:induction false} DequeuedAreLocated(goals: seq<GoalEntry>, events: seq<Event>)
    requires ProperRun(goals, events)
    ensures |RefRun(goals, events).1| == |events|
    ensures Locates(DequeuedGoals(events, RefRun(goals, events).1), DequeuedPositions(goals, events),
                    RefRun(goals, events).0)
    decreases |events|
  {
    RefRunAnswers(goals, events);
    if events != [] {
      var next := RefStep(goals, events[0]).0;
      DequeuedAreLocated(next, events[1..]);
      RunNeverRequeues(next, events[1..]);
      var answers := RefRun(goals, events).1;
      assert answers[1..] == RefRun(next, events[1..]).1;
    }
  }

  /** The goals that the queue hands out, over any run with fresh identifiers, are submitted goals in
      submission order, none of them twice. */
  lemma DequeuesFollowSubmissionOrder(events: seq<Event>)
    requires ProperRun([], events)
    ensures
      var answers := Run(EMPTY, events).1;
      && |answers| == |events|
      && var out, d, submitted := DequeuedGoals(events, answers), DequeuedPositions([], events), SubmittedIds(events);
      && |out| == |d|
      && (forall i :: 0 <= i < |out| ==> d[i] < |submitted| && submitted[d[i]] == out[i].id)
      && (forall i, j :: 0 <= i < j < |out| ==> d[i] < d[j])
      && (forall i, j :: 0 <= i < j < |out| ==> out[i].id != out[j].id)
  {
    RunRefines(EMPTY, events);
    DequeuedAreLocated([], events);
    RunIds([], events);
    DequeuesIncreaseFrom([], events, 0);
    assert Ids([]) + SubmittedIds(events) == SubmittedIds(events);
    LocatedInOrder(DequeuedGoals(events, RefRun([], events).1), DequeuedPositions([], events), RefRun([], events).0);
  }

  lemma LocatedInOrder(out: seq<GoalEntry>, d: seq<nat>, final: seq<GoalEntry>)
    requires Locates(out, d, final) && IncreasingFrom(d, 0) && DistinctIds(final)
    ensures forall i :: 0 <= i < |out| ==> d[i] < |Ids(final)| && Ids(final)[d[i]] == out[i].id
    ensures forall i, j :: 0 <= i < j < |out| ==> d[i] < d[j]
    ensures forall i, j :: 0 <= i < j < |out| ==> out[i].id != out[j].id
  {
    forall i, j | 0 <= i < j < |d| ensures d[i] < d[j] {
      IncreasingPairs(d, 0, i, j);
    }
  }
}
