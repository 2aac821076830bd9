/** daemon/scheduler.py: the periodic task scheduler as a state machine. */
module Scheduler {
  import opened Wrappers

  /** A task record. `reg` numbers the registrations, so that a name that is registered again is told apart. */
  datatype Task = Task(
    reg: nat,
    name: string,
    interval: Option<real>,
    nextRun: real,
    lastRun: Option<real>,
    runCount: nat,
    active: bool
  )

  /** What was asked for: periodic with an interval, or one-shot, and when it is first due. */
  datatype Registration = Registration(interval: Option<real>, at: real, due: real)

  datatype Launch = Launch(reg: nat, at: real)

  /** `tasks` is the dictionary of tasks in insertion order. Launches are numbered by their position in
      `log`; each is pending, finished, or cancelled at shutdown. */
  datatype State = State(
    maxConcurrent: int,
    tasks: seq<Task>,
    paused: bool,
    clock: real,
    log: seq<Launch>,
    regs: seq<Registration>,
    pending: set<nat>,
    finished: set<nat>,
    cancelled: set<nat>
  )

  function Init(maxConcurrent: int, clock: real): State {
    State(maxConcurrent, [], false, clock, [], [], {}, {}, {})
  }

  // ----- the operations -----

  /** `dict[name] = task`: an existing name keeps its place. */
  function Put(tasks: seq<Task>, task: Task): seq<Task> {
    if tasks == [] then [task]
    else if tasks[0].name == task.name then [task] + tasks[1..]
    else [tasks[0]] + Put(tasks[1..], task)
  }

  /** `dict.pop(name, None)` */
  function Pop(tasks: seq<Task>, name: string): seq<Task> {
    if tasks == [] then []
    else if tasks[0].name == name then tasks[1..]
    else [tasks[0]] + Pop(tasks[1..], name)
  }

  function Register(s: State, name: string, interval: Option<real>, due: real): State {
    s.(tasks := Put(s.tasks, Task(|s.regs|, name, interval, due, None, 0, true)),
       regs := s.regs + [Registration(interval, s.clock, due)])
  }

  /** A non-positive interval raises and changes nothing. */
  function Every(s: State, seconds: real, name: string): State {
    if seconds <= 0.0 then s else Register(s, name, Some(seconds), s.clock + seconds)
  }

  function OnceAt(s: State, timestamp: real, wallClock: real, name: string): State {
    var offset := timestamp - wallClock;
    Register(s, name, None, s.clock + if offset > 0.0 then offset else 0.0)
  }

  predicate Saturated(s: State) {
    s.maxConcurrent > 0 && |s.pending| >= s.maxConcurrent
  }

  predicate IsDue(t: Task, now: real) {
    t.active && t.nextRun <= now
  }

  function Rearmed(t: Task, now: real): Task
    requires t.interval.Some?
  {
    t.(lastRun := Some(now), runCount := t.runCount + 1, nextRun := now + t.interval.value)
  }

  /** Launches task `i`; a periodic task is armed again, a one-shot task is gone. */
  function Fire(s: State, i: nat): State
    requires i < |s.tasks|
  {
    var t := s.tasks[i];
    s.(tasks := if t.interval.Some? then s.tasks[i := Rearmed(t, s.clock)] else s.tasks[..i] + s.tasks[i + 1..],
       log := s.log + [Launch(t.reg, s.clock)],
       pending := s.pending + {|s.log|})
  }

  /** One pass over the tasks from position `i` on, in dictionary order, until saturation. */
  function TickFrom(s: State, i: nat): State
    requires i <= |s.tasks|
    decreases |s.tasks| - i
  {
    if i == |s.tasks| || Saturated(s) then s
    else if !IsDue(s.tasks[i], s.clock) then TickFrom(s, i + 1)
    else TickFrom(Fire(s, i), if s.tasks[i].interval.Some? then i + 1 else i)
  }

  function Tick(s: State): State {
    TickFrom(s, 0)
  }

  function Complete(s: State, launch: nat): State {
    if launch in s.pending
    then s.(pending := s.pending - {launch}, finished := s.finished + {launch})
    else s
  }

  /** The end of `run_until`: launches that end within the grace period are finished, the others cancelled. */
  function Shutdown(s: State, inTime: set<nat>): State {
    s.(pending := {},
       finished := s.finished + s.pending * inTime,
       cancelled := s.cancelled + (s.pending - inTime))
  }

  /** What can happen. `Pass` is one round of the loop in `run_until`. */
  datatype Event =
    | EvEvery(seconds: real, name: string)
    | EvOnceAt(timestamp: real, wallClock: real, name: string)
    | EvCancel(name: string)
    | EvPause
    | EvResume
    | EvPass
    | EvComplete(launch: nat)
    | EvAdvance(dt: real)
    | EvShutdown(inTime: set<nat>)

  function Step(s: State, e: Event): State {
    match e
    case EvEvery(seconds, name) => Every(s, seconds, name)
    case EvOnceAt(timestamp, wallClock, name) => OnceAt(s, timestamp, wallClock, name)
    case EvCancel(name) => s.(tasks := Pop(s.tasks, name))
    case EvPause => s.(paused := true)
    case EvResume => s.(paused := false)
    case EvPass => if s.paused then s else Tick(s)
    case EvComplete(launch) => Complete(s, launch)
    case EvAdvance(dt) => if dt > 0.0 then s.(clock := s.clock + dt) else s
    case EvShutdown(inTime) => Shutdown(s, inTime)
  }

  function Run(s: State, events: seq<Event>): State
    decreases |events|
  {
    if events == [] then s else Run(Step(s, events[0]), events[1..])
  }

  // ----- the history of one registration -----

  function Count(log: seq<Launch>, reg: nat): nat {
    if log == [] then 0
    else Count(log[..|log| - 1], reg) + if log[|log| - 1].reg == reg then 1 else 0
  }

  function LastLaunch(log: seq<Launch>, reg: nat): Option<real> {
    if log == [] then None
    else if log[|log| - 1].reg == reg then Some(log[|log| - 1].at)
    else LastLaunch(log[..|log| - 1], reg)
  }

  ghost predicate NotEarly(log: seq<Launch>, reg: nat, due: real) {
    forall i :: 0 <= i < |log| && log[i].reg == reg ==> due <= log[i].at
  }

  /** Any two launches of the registration are an interval or more apart. */
  ghost predicate Spaced(log: seq<Launch>, reg: nat, interval: real) {
    forall i, j :: 0 <= i < j < |log| && log[i].reg == reg && log[j].reg == reg ==> log[i].at + interval <= log[j].at
  }

  /** The time that `n` launches at full rate take. */
  function Span(n: nat, interval: real): real {
    if n == 0 then 0.0 else Span(n - 1, interval) + interval
  }

  /** The launches up to the last one took no less than their intervals. */
  ghost predicate Paced(log: seq<Launch>, reg: nat, interval: real, at: real) {
    LastLaunch(log, reg).Some? ==> Span(Count(log, reg), interval) <= LastLaunch(log, reg).value - at
  }

  /** The launches of one registration are as the registration asks for. */
  ghost predicate Honoured(log: seq<Launch>, reg: nat, r: Registration) {
    && NotEarly(log, reg, r.due)
    && (r.interval.None? ==> Count(log, reg) <= 1)
    && (r.interval.Some? ==>
          r.interval.value > 0.0 && Spaced(log, reg, r.interval.value) && Paced(log, reg, r.interval.value, r.at))
  }

  /** The record of a task agrees with its registration and with its launches so far. */
  ghost predicate Agrees(s: State, t: Task) {
    && t.active
    && t.reg < |s.regs|
    && s.regs[t.reg].interval == t.interval
    && t.runCount == Count(s.log, t.reg)
    && t.lastRun == LastLaunch(s.log, t.reg)
    && (t.interval.None? ==> t.runCount == 0 && t.nextRun == s.regs[t.reg].due)
    && (t.interval.Some? ==>
          && s.regs[t.reg].due == s.regs[t.reg].at + t.interval.value
          && t.nextRun == (if t.lastRun.Some? then t.lastRun.value else s.regs[t.reg].at) + t.interval.value)
  }

  predicate DistinctTasks(tasks: seq<Task>) {
    forall i, j :: 0 <= i < j < |tasks| ==> tasks[i].name != tasks[j].name && tasks[i].reg != tasks[j].reg
  }

  ghost predicate LogInOrder(s: State) {
    && (forall i :: 0 <= i < |s.log| ==> s.log[i].reg < |s.regs| && s.log[i].at <= s.clock)
    && (forall i, j :: 0 <= i < j < |s.log| ==> s.log[i].at <= s.log[j].at)
    && (forall r :: 0 <= r < |s.regs| ==> s.regs[r].at <= s.clock)
  }

  /** Every launch is accounted for once, and the cap holds. */
  ghost predicate Accounted(s: State) {
    && (forall k :: k in s.pending + s.finished + s.cancelled <==> 0 <= k < |s.log|)
    && s.pending !! s.finished && s.pending !! s.cancelled && s.finished !! s.cancelled
    && (s.maxConcurrent > 0 ==> |s.pending| <= s.maxConcurrent)
  }

  ghost predicate Inv(s: State) {
    && DistinctTasks(s.tasks)
    && (forall t :: t in s.tasks ==> Agrees(s, t))
    && (forall r :: 0 <= r < |s.regs| ==> Honoured(s.log, r, s.regs[r]))
    && LogInOrder(s)
    && Accounted(s)
  }

  // ----- preservation -----

  lemma {:induction false} LastLaunchIsLatest(log: seq<Launch>, reg: nat)
    requires forall i, j :: 0 <= i < j < |log| ==> log[i].at <= log[j].at
    ensures LastLaunch(log, reg).None? <==> Count(log, reg) == 0
    ensures forall i :: 0 <= i < |log| && log[i].reg == reg ==>
              LastLaunch(log, reg).Some? && log[i].at <= LastLaunch(log, reg).value
    ensures LastLaunch(log, reg).Some? ==> exists i :: 0 <= i < |log| && log[i] == Launch(reg, LastLaunch(log, reg).value)
  {
    if log != [] && log[|log| - 1].reg != reg {
      var init := log[..|log| - 1];
      LastLaunchIsLatest(init, reg);
      if LastLaunch(init, reg).Some? {
        var i :| 0 <= i < |init| && init[i] == Launch(reg, LastLaunch(init, reg).value);
        assert log[i] == init[i];
      }
    } else if log != [] {
      assert log[|log| - 1] == Launch(reg, log[|log| - 1].at);
    }
  }

  /** A registration that nothing refers to yet has no launches. */
  lemma {:induction false} NoLaunches(log: seq<Launch>, reg: nat)
    requires forall i :: 0 <= i < |log| ==> log[i].reg != reg
    ensures Count(log, reg) == 0 && LastLaunch(log, reg) == None
  {
    if log != [] {
      NoLaunches(log[..|log| - 1], reg);
    }
  }

  lemma LogExtended(log: seq<Launch>, l: Launch, reg: nat)
    ensures Count(log + [l], reg) == Count(log, reg) + if l.reg == reg then 1 else 0
    ensures LastLaunch(log + [l], reg) == if l.reg == reg then Some(l.at) else LastLaunch(log, reg)
  {
    assert (log + [l])[..|log|] == log;
  }

  /** A launch of a periodic task, one interval or more after the last one, keeps its registration honoured. */
  lemma PeriodicHonoured(log: seq<Launch>, reg: nat, r: Registration, now: real)
    requires Honoured(log, reg, r) && r.interval.Some? && r.due == r.at + r.interval.value
    requires forall i, j :: 0 <= i < j < |log| ==> log[i].at <= log[j].at
    requires now >= (if LastLaunch(log, reg).Some? then LastLaunch(log, reg).value else r.at) + r.interval.value
    ensures Honoured(log + [Launch(reg, now)], reg, r)
  {
    var interval := r.interval.value;
    LastLaunchIsLatest(log, reg);
    if LastLaunch(log, reg).Some? {
      var i :| 0 <= i < |log| && log[i] == Launch(reg, LastLaunch(log, reg).value);
      assert r.due <= log[i].at;
    }
    SpacedExtended(log, reg, interval, now);
    PacedExtended(log, reg, interval, r.at, now);
  }

  lemma SpacedExtended(log: seq<Launch>, reg: nat, interval: real, now: real)
    requires Spaced(log, reg, interval)
    requires forall i :: 0 <= i < |log| && log[i].reg == reg ==> log[i].at + interval <= now
    ensures Spaced(log + [Launch(reg, now)], reg, interval)
  {
  }

  lemma PacedExtended(log: seq<Launch>, reg: nat, interval: real, at: real, now: real)
    requires Paced(log, reg, interval, at)
    requires LastLaunch(log, reg).None? ==> Count(log, reg) == 0
    requires now >= (if LastLaunch(log, reg).Some? then LastLaunch(log, reg).value else at) + interval
    ensures Paced(log + [Launch(reg, now)], reg, interval, at)
  {
    LogExtended(log, Launch(reg, now), reg);
    assert Span(Count(log, reg) + 1, interval) == Span(Count(log, reg), interval) + interval;
  }

  lemma OneShotHonoured(log: seq<Launch>, reg: nat, r: Registration, now: real)
    requires Honoured(log, reg, r) && r.interval.None? && Count(log, reg) == 0 && r.due <= now
    ensures Honoured(log + [Launch(reg, now)], reg, r)
  {
    LogExtended(log, Launch(reg, now), reg);
  }

  lemma HonouredByOther(log: seq<Launch>, l: Launch, reg: nat, r: Registration)
    requires Honoured(log, reg, r) && l.reg != reg
    ensures Honoured(log + [l], reg, r)
  {
    LogExtended(log, l, reg);
  }

  lemma FireKeepsTasks(s: State, i: nat)
    requires Inv(s) && i < |s.tasks| && IsDue(s.tasks[i], s.clock)
    ensures DistinctTasks(Fire(s, i).tasks)
    ensures forall t :: t in Fire(s, i).tasks ==> Agrees(Fire(s, i), t)
  {
    var s' := Fire(s, i);
    var fired := s.tasks[i];
    assert Agrees(s, fired);
    forall t | t in s'.tasks ensures Agrees(s', t) {
      LogExtended(s.log, Launch(fired.reg, s.clock), t.reg);
      if t in s.tasks && t.reg != fired.reg {
        assert Agrees(s, t);
      } else {
        var k :| 0 <= k < |s'.tasks| && s'.tasks[k] == t;
        assert t.interval.Some? ==> t == Rearmed(fired, s.clock);
      }
    }
  }

  lemma FireKeepsAccounts(s: State, i: nat)
    requires Accounted(s) && i < |s.tasks| && !Saturated(s)
    ensures Accounted(Fire(s, i))
  {
    assert |s.log| !in s.pending + s.finished + s.cancelled;
  }

  lemma FireKeepsInv(s: State, i: nat)
    requires Inv(s) && i < |s.tasks| && IsDue(s.tasks[i], s.clock) && !Saturated(s)
    ensures Inv(Fire(s, i))
  {
    var s' := Fire(s, i);
    var t := s.tasks[i];
    assert Agrees(s, t);
    FireKeepsTasks(s, i);
    FireKeepsAccounts(s, i);
    forall r | 0 <= r < |s.regs| ensures Honoured(s'.log, r, s.regs[r]) {
      if r == t.reg {
        if t.interval.Some? {
          PeriodicHonoured(s.log, r, s.regs[r], s.clock);
        } else {
          OneShotHonoured(s.log, r, s.regs[r], s.clock);
        }
      } else {
        HonouredByOther(s.log, Launch(t.reg, s.clock), r, s.regs[r]);
      }
    }
  }

  lemma {:induction false} TickKeepsInv(s: State, i: nat)
    requires Inv(s) && i <= |s.tasks|
    ensures Inv(TickFrom(s, i)) && TickFrom(s, i).maxConcurrent == s.maxConcurrent
    decreases |s.tasks| - i
  {
    if i == |s.tasks| || Saturated(s) {
    } else if !IsDue(s.tasks[i], s.clock) {
      TickKeepsInv(s, i + 1);
    } else {
      FireKeepsInv(s, i);
      TickKeepsInv(Fire(s, i), if s.tasks[i].interval.Some? then i + 1 else i);
    }
  }

  lemma {:induction false} PutMembers(tasks: seq<Task>, task: Task)
    requires DistinctTasks(tasks) && forall t :: t in tasks ==> t.reg != task.reg
    ensures DistinctTasks(Put(tasks, task))
    ensures forall t :: t in Put(tasks, task) <==> t == task || (t in tasks && t.name != task.name)
  {
    if tasks != [] {
      assert tasks == [tasks[0]] + tasks[1..];
      PutMembers(tasks[1..], task);
      var rest := Put(tasks[1..], task);
      forall j | 0 <= j < |rest| && tasks[0].name != task.name
        ensures rest[j].name != tasks[0].name && rest[j].reg != tasks[0].reg
      {
        assert rest[j] in rest;
      }
      forall t | t in tasks[1..] ensures t.name != tasks[0].name {
      }
    }
  }

  lemma {:induction false} PopMembers(tasks: seq<Task>, name: string)
    requires DistinctTasks(tasks)
    ensures DistinctTasks(Pop(tasks, name))
    ensures forall t :: t in Pop(tasks, name) <==> t in tasks && t.name != name
  {
    if tasks != [] {
      assert tasks == [tasks[0]] + tasks[1..];
      PopMembers(tasks[1..], name);
      var rest := Pop(tasks[1..], name);
      forall j | 0 <= j < |rest| ensures rest[j].name != tasks[0].name && rest[j].reg != tasks[0].reg {
        assert rest[j] in rest;
      }
      forall t | t in tasks[1..] ensures t.name != tasks[0].name {
      }
    }
  }

  lemma RegisterKeepsInv(s: State, name: string, interval: Option<real>, due: real)
    requires Inv(s)
    requires s.clock <= due
    requires interval.Some? ==> interval.value > 0.0 && due == s.clock + interval.value
    ensures Inv(Register(s, name, interval, due))
  {
    var s' := Register(s, name, interval, due);
    var task := Task(|s.regs|, name, interval, due, None, 0, true);
    forall t | t in s.tasks ensures t.reg != task.reg {
      assert Agrees(s, t);
    }
    PutMembers(s.tasks, task);
    NoLaunches(s.log, |s.regs|);
    forall t | t in s'.tasks ensures Agrees(s', t) {
      if t != task {
        assert Agrees(s, t);
      }
    }
  }

  lemma ShutdownKeepsInv(s: State, inTime: set<nat>)
    requires Inv(s)
    ensures Inv(Shutdown(s, inTime))
  {
    var s' := Shutdown(s, inTime);
    ShutdownAccounts(s, inTime);
    forall t | t in s'.tasks ensures Agrees(s', t) {
      assert Agrees(s, t);
    }
  }

  lemma ShutdownAccounts(s: State, inTime: set<nat>)
    requires Accounted(s)
    ensures Accounted(Shutdown(s, inTime))
  {
    var s' := Shutdown(s, inTime);
    assert s'.pending + s'.finished + s'.cancelled == s.pending + s.finished + s.cancelled;
  }

  lemma AdvanceKeepsInv(s: State, clock: real)
    requires Inv(s) && s.clock <= clock
    ensures Inv(s.(clock := clock))
  {
    forall t | t in s.tasks ensures Agrees(s.(clock := clock), t) {
      assert Agrees(s, t);
    }
  }

  lemma StepKeepsInv(s: State, e: Event)
    requires Inv(s)
    ensures Inv(Step(s, e)) && Step(s, e).maxConcurrent == s.maxConcurrent
  {
    match e {
      case EvEvery(seconds, name) => EveryKeepsInv(s, seconds, name);
      case EvOnceAt(timestamp, wallClock, name) => OnceAtKeepsInv(s, timestamp, wallClock, name);
      case EvCancel(name) => CancelKeepsInv(s, name);
      case EvPause => PauseKeepsInv(s, true);
      case EvResume => PauseKeepsInv(s, false);
      case EvPass => TickKeepsInv(s, 0);
      case EvComplete(launch) => CompleteKeepsInv(s, launch);
      case EvAdvance(dt) =>
        if dt > 0.0 {
          AdvanceKeepsInv(s, s.clock + dt);
        }
      case EvShutdown(inTime) => ShutdownKeepsInv(s, inTime);
    }
  }

  lemma EveryKeepsInv(s: State, seconds: real, name: string)
    requires Inv(s)
    ensures Inv(Every(s, seconds, name)) && Every(s, seconds, name).maxConcurrent == s.maxConcurrent
  {
    if seconds > 0.0 {
      RegisterKeepsInv(s, name, Some(seconds), s.clock + seconds);
    }
  }

  lemma OnceAtKeepsInv(s: State, timestamp: real, wallClock: real, name: string)
    requires Inv(s)
    ensures Inv(OnceAt(s, timestamp, wallClock, name))
    ensures OnceAt(s, timestamp, wallClock, name).maxConcurrent == s.maxConcurrent
  {
    var offset := timestamp - wallClock;
    RegisterKeepsInv(s, name, None, s.clock + if offset > 0.0 then offset else 0.0);
  }

  lemma CancelKeepsInv(s: State, name: string)
    requires Inv(s)
    ensures Inv(s.(tasks := Pop(s.tasks, name)))
  {
    var s' := s.(tasks := Pop(s.tasks, name));
    PopMembers(s.tasks, name);
    forall t | t in s'.tasks ensures Agrees(s', t) {
      assert Agrees(s, t);
    }
  }

  lemma PauseKeepsInv(s: State, paused: bool)
    requires Inv(s)
    ensures Inv(s.(paused := paused))
  {
    forall t | t in s.tasks ensures Agrees(s.(paused := paused), t) {
      assert Agrees(s, t);
    }
  }

  lemma CompleteKeepsInv(s: State, launch: nat)
    requires Inv(s)
    ensures Inv(Complete(s, launch))
  {
    var s' := Complete(s, launch);
    forall t | t in s'.tasks ensures Agrees(s', t) {
      assert Agrees(s, t);
    }
    if launch in s.pending {
      assert s'.pending + s'.finished == s.pending + s.finished;
    }
  }

  lemma {:induction false} RunKeepsInv(s: State, events: seq<Event>)
    requires Inv(s)
    ensures Inv(Run(s, events)) && Run(s, events).maxConcurrent == s.maxConcurrent
    decreases |events|
  {
    if events != [] {
      StepKeepsInv(s, events[0]);
      RunKeepsInv(Step(s, events[0]), events[1..]);
    }
  }

  // ----- the main results -----

  /** In every reachable state: launches never exceed the cap and each is pending, finished or cancelled;
      a one-shot registration has launched at most once and not early; the launches of a periodic one are
      an interval or more apart; and run counts never run ahead of the time since registration. */
  lemma RunsAreSafe(maxConcurrent: int, clock: real, events: seq<Event>)
    ensures
      var s := Run(Init(maxConcurrent, clock), events);
      && (maxConcurrent > 0 ==> |s.pending| <= maxConcurrent)
      && (forall k :: k in s.pending + s.finished + s.cancelled <==> 0 <= k < |s.log|)
      && s.pending !! s.finished && s.pending !! s.cancelled && s.finished !! s.cancelled
      && (forall r :: 0 <= r < |s.regs| ==> Honoured(s.log, r, s.regs[r]))
      && (forall t :: t in s.tasks && t.interval.Some? ==>
            && t.reg < |s.regs|
            && t.runCount == Count(s.log, t.reg)
            && t.runCount as real * t.interval.value <= s.clock - s.regs[t.reg].at)
      && (forall r :: 0 <= r < |s.regs| && s.regs[r].interval.None? ==>
            forall i, j :: 0 <= i < j < |s.log| ==> s.log[i].reg != r || s.log[j].reg != r)
  {
    RunKeepsInv(Init(maxConcurrent, clock), events);
    var s := Run(Init(maxConcurrent, clock), events);
    forall t | t in s.tasks && t.interval.Some?
      ensures t.reg < |s.regs| && t.runCount as real * t.interval.value <= s.clock - s.regs[t.reg].at
    {
      RunCountBound(s, t);
    }
    forall r, i, j | 0 <= r < |s.regs| && s.regs[r].interval.None? && 0 <= i < j < |s.log|
      ensures s.log[i].reg != r || s.log[j].reg != r
    {
      assert Honoured(s.log, r, s.regs[r]);
      if s.log[i].reg == r && s.log[j].reg == r {
        TwoLaunchesCount(s.log, r, i, j);
      }
    }
  }

  lemma {:induction false} TwoLaunchesCount(log: seq<Launch>, reg: nat, i: nat, j: nat)
    requires i < j < |log| && log[i].reg == reg && log[j].reg == reg
    ensures Count(log, reg) >= 2
  {
    var init := log[..|log| - 1];
    if j < |log| - 1 {
      TwoLaunchesCount(init, reg, i, j);
    } else {
      OneLaunchCounts(init, reg, i);
    }
  }

  lemma {:induction false} OneLaunchCounts(log: seq<Launch>, reg: nat, i: nat)
    requires i < |log| && log[i].reg == reg
    ensures Count(log, reg) >= 1
  {
    if i < |log| - 1 {
      OneLaunchCounts(log[..|log| - 1], reg, i);
    }
  }

  lemma {:induction false} SpanIsProduct(n: nat, interval: real)
    ensures Span(n, interval) == n as real * interval
  {
    if n > 0 {
      SpanIsProduct(n - 1, interval);
      assert n as real * interval == (n - 1) as real * interval + interval;
    }
  }

  lemma RunCountBound(s: State, t: Task)
    requires Inv(s) && t in s.tasks && t.interval.Some?
    ensures t.reg < |s.regs|
    ensures t.runCount == Count(s.log, t.reg)
    ensures t.runCount as real * t.interval.value <= s.clock - s.regs[t.reg].at
  {
    assert Agrees(s, t) && Honoured(s.log, t.reg, s.regs[t.reg]);
    PacedBound(s.log, t.reg, t.interval.value, s.regs[t.reg].at, s.clock);
  }

  lemma PacedBound(log: seq<Launch>, reg: nat, interval: real, at: real, clock: real)
    requires Paced(log, reg, interval, at) && at <= clock
    requires forall i :: 0 <= i < |log| ==> log[i].at <= clock
    requires forall i, j :: 0 <= i < j < |log| ==> log[i].at <= log[j].at
    ensures Count(log, reg) as real * interval <= clock - at
  {
    var n := Count(log, reg);
    PacedSpan(log, reg, interval, at, clock);
    SpanIsProduct(n, interval);
    calc {
      n as real * interval;
    ==
      Span(n, interval);
    <=
      clock - at;
    }
  }

  /** The launches took no less than their intervals, and no longer than the time that went by. */
  lemma PacedSpan(log: seq<Launch>, reg: nat, interval: real, at: real, clock: real)
    requires Paced(log, reg, interval, at) && at <= clock
    requires forall i :: 0 <= i < |log| ==> log[i].at <= clock
    requires forall i, j :: 0 <= i < j < |log| ==> log[i].at <= log[j].at
    ensures Span(Count(log, reg), interval) <= clock - at
  {
    LastLaunchWithin(log, reg, clock);
    if LastLaunch(log, reg).None? {
      assert Span(0, interval) == 0.0;
    }
  }

  lemma LastLaunchWithin(log: seq<Launch>, reg: nat, clock: real)
    requires forall i :: 0 <= i < |log| ==> log[i].at <= clock
    requires forall i, j :: 0 <= i < j < |log| ==> log[i].at <= log[j].at
    ensures LastLaunch(log, reg).None? <==> Count(log, reg) == 0
    ensures LastLaunch(log, reg).Some? ==> LastLaunch(log, reg).value <= clock
  {
    LastLaunchIsLatest(log, reg);
    if LastLaunch(log, reg).Some? {
      var i :| 0 <= i < |log| && log[i] == Launch(reg, LastLaunch(log, reg).value);
      assert log[i].at <= clock;
    }
  }

  // ----- what one tick launches -----

  function DueTasks(tasks: seq<Task>, now: real): seq<Task> {
    if tasks == [] then []
    else (if IsDue(tasks[0], now) then [tasks[0]] else []) + DueTasks(tasks[1..], now)
  }

  /** How many of `due` tasks the cap still admits. */
  function Admitted(s: State, due: nat): nat
    requires s.maxConcurrent > 0 ==> |s.pending| <= s.maxConcurrent
  {
    if s.maxConcurrent > 0 && s.maxConcurrent - |s.pending| < due then s.maxConcurrent - |s.pending| else due
  }

  function LaunchAll(tasks: seq<Task>, now: real): seq<Launch> {
    if tasks == [] then [] else [Launch(tasks[0].reg, now)] + LaunchAll(tasks[1..], now)
  }

  /** The dictionary after its first `k` due tasks have been launched. */
  function AfterLaunching(tasks: seq<Task>, now: real, k: nat): seq<Task> {
    if tasks == [] || k == 0 then tasks
    else if !IsDue(tasks[0], now) then [tasks[0]] + AfterLaunching(tasks[1..], now, k)
    else if tasks[0].interval.Some? then [Rearmed(tasks[0], now)] + AfterLaunching(tasks[1..], now, k - 1)
    else AfterLaunching(tasks[1..], now, k - 1)
  }

  lemma DueTasksSplit(tasks: seq<Task>, i: nat, now: real)
    requires i < |tasks|
    ensures DueTasks(tasks[i..], now)
         == (if IsDue(tasks[i], now) then [tasks[i]] else []) + DueTasks(tasks[i + 1..], now)
  {
    assert tasks[i..][1..] == tasks[i + 1..];
  }

  /** What a pass from position `i` on adds to the log and makes of the tasks. */
  predicate LaunchesFrom(s: State, i: nat, due: seq<Task>, s': State)
    requires i <= |s.tasks|
    requires s.maxConcurrent > 0 ==> |s.pending| <= s.maxConcurrent
  {
    var k := Admitted(s, |due|);
    && s'.log == s.log + LaunchAll(due[..k], s.clock)
    && s'.tasks == s.tasks[..i] + AfterLaunching(s.tasks[i..], s.clock, k)
  }

  lemma {:induction false} TickFromLaunches(s: State, i: nat)
    requires Accounted(s) && i <= |s.tasks|
    ensures LaunchesFrom(s, i, DueTasks(s.tasks[i..], s.clock), TickFrom(s, i))
    decreases |s.tasks| - i
  {
    var due := DueTasks(s.tasks[i..], s.clock);
    if i == |s.tasks| || Saturated(s) {
      assert due[..Admitted(s, |due|)] == [];
      assert s.tasks == s.tasks[..i] + s.tasks[i..];
    } else if !IsDue(s.tasks[i], s.clock) {
      DueTasksSplit(s.tasks, i, s.clock);
      assert due == DueTasks(s.tasks[i + 1..], s.clock);
      TickFromLaunches(s, i + 1);
      SkipStep(s, i, Admitted(s, |due|));
    } else {
      FireLaunches(s, i);
      var next := if s.tasks[i].interval.Some? then i + 1 else i;
      TickFromLaunches(Fire(s, i), next);
      FireExtends(s, i, TickFrom(Fire(s, i), next));
    }
  }

  /** A launch followed by what a pass does from there is what a pass does from here. */
  lemma FireExtends(s: State, i: nat, s': State)
    requires Accounted(s) && i < |s.tasks| && !Saturated(s) && IsDue(s.tasks[i], s.clock)
    requires
      var next := if s.tasks[i].interval.Some? then i + 1 else i;
      && Accounted(Fire(s, i)) && next <= |Fire(s, i).tasks|
      && Fire(s, i).tasks[next..] == s.tasks[i + 1..]
      && (forall n: nat :: Admitted(Fire(s, i), n) + 1 == Admitted(s, n + 1))
      && LaunchesFrom(Fire(s, i), next, DueTasks(s.tasks[i + 1..], s.clock), s')
    ensures LaunchesFrom(s, i, DueTasks(s.tasks[i..], s.clock), s')
  {
    var due := DueTasks(s.tasks[i..], s.clock);
    DueTasksSplit(s.tasks, i, s.clock);
    assert due[1..] == DueTasks(s.tasks[i + 1..], s.clock);
    assert Admitted(Fire(s, i), |due| - 1) + 1 == Admitted(s, |due|);
    FireStep(s, i, due, Admitted(s, |due|));
  }

  /** The state after one launch: the tasks that come next are the same, and one fewer launch is admitted. */
  lemma FireLaunches(s: State, i: nat)
    requires Accounted(s) && i < |s.tasks| && !Saturated(s) && IsDue(s.tasks[i], s.clock)
    ensures
      var s', next := Fire(s, i), if s.tasks[i].interval.Some? then i + 1 else i;
      && Accounted(s') && next <= |s'.tasks|
      && s'.tasks[next..] == s.tasks[i + 1..]
      && forall n: nat :: Admitted(s', n) + 1 == Admitted(s, n + 1)
  {
    FireKeepsAccounts(s, i);
    assert |s.log| !in s.pending + s.finished + s.cancelled;
  }

  lemma SkipStep(s: State, i: nat, k: nat)
    requires i < |s.tasks| && !IsDue(s.tasks[i], s.clock)
    ensures s.tasks[..i + 1] + AfterLaunching(s.tasks[i + 1..], s.clock, k)
         == s.tasks[..i] + AfterLaunching(s.tasks[i..], s.clock, k)
  {
    assert s.tasks[i..][1..] == s.tasks[i + 1..];
    assert s.tasks[i..] == [s.tasks[i]] + s.tasks[i + 1..];
  }

  lemma FireStep(s: State, i: nat, due: seq<Task>, k: nat)
    requires i < |s.tasks| && IsDue(s.tasks[i], s.clock)
    requires 0 < k <= |due| && due[0] == s.tasks[i]
    ensures
      var next := if s.tasks[i].interval.Some? then i + 1 else i;
      && Fire(s, i).tasks[..next] + AfterLaunching(s.tasks[i + 1..], s.clock, k - 1)
         == s.tasks[..i] + AfterLaunching(s.tasks[i..], s.clock, k)
      && Fire(s, i).log + LaunchAll(due[1..][..k - 1], s.clock) == s.log + LaunchAll(due[..k], s.clock)
  {
    assert s.tasks[i..][1..] == s.tasks[i + 1..];
    assert due[..k][1..] == due[1..][..k - 1];
  }

  /** One pass launches the first due tasks in dictionary order, as many as the cap admits, each once and
      now; the launched periodic tasks are armed again, the launched one-shot tasks are gone, and every
      other task, due or not, is left as it was. */
  lemma TickLaunchesFirstDue(maxConcurrent: int, clock: real, events: seq<Event>)
    ensures
      var s := Run(Init(maxConcurrent, clock), events);
      var due := DueTasks(s.tasks, s.clock);
      && (s.maxConcurrent > 0 ==> |s.pending| <= s.maxConcurrent)
      && var k := Admitted(s, |due|);
      && Tick(s).log == s.log + LaunchAll(due[..k], s.clock)
      && Tick(s).tasks == AfterLaunching(s.tasks, s.clock, k)
  {
    RunKeepsInv(Init(maxConcurrent, clock), events);
    var s := Run(Init(maxConcurrent, clock), events);
    TickFromLaunches(s, 0);
    assert s.tasks[0..] == s.tasks && s.tasks[..0] == [];
  }

  lemma {:induction false} SkippedStaysDue(tasks: seq<Task>, now: real, k: nat, t: Task)
    requires DistinctTasks(tasks) && k <= |DueTasks(tasks, now)|
    requires t in tasks && t !in DueTasks(tasks, now)[..k]
    ensures t in AfterLaunching(tasks, now, k)
  {
    if k > 0 {
      assert tasks == [tasks[0]] + tasks[1..];
      if t == tasks[0] {
        assert DueTasks(tasks, now)[0] == t || !IsDue(t, now);
      } else {
        var rest := DueTasks(tasks[1..], now);
        if IsDue(tasks[0], now) {
          assert DueTasks(tasks, now)[..k][1..] == rest[..k - 1];
          SkippedStaysDue(tasks[1..], now, k - 1, t);
        } else {
          assert DueTasks(tasks, now) == rest;
          SkippedStaysDue(tasks[1..], now, k, t);
        }
      }
    }
  }

  lemma {:induction false} TickFromExhausts(s: State, i: nat)
    requires Inv(s) && i <= |s.tasks|
    requires forall j :: 0 <= j < i ==> !IsDue(s.tasks[j], s.clock)
    ensures Saturated(TickFrom(s, i)) || forall t :: t in TickFrom(s, i).tasks ==> !IsDue(t, s.clock)
    decreases |s.tasks| - i
  {
    if i == |s.tasks| || Saturated(s) {
    } else if !IsDue(s.tasks[i], s.clock) {
      TickFromExhausts(s, i + 1);
    } else {
      FireKeepsInv(s, i);
      assert Agrees(s, s.tasks[i]) && Honoured(s.log, s.tasks[i].reg, s.regs[s.tasks[i].reg]);
      TickFromExhausts(Fire(s, i), if s.tasks[i].interval.Some? then i + 1 else i);
    }
  }

  /** After a pass the scheduler is at its cap or no task is due; and a task that was due and that the pass
      did not launch is still there, unchanged and due. */
  lemma NothingDueIsLost(maxConcurrent: int, clock: real, events: seq<Event>, t: Task)
    requires var s := Run(Init(maxConcurrent, clock), events); t in s.tasks && IsDue(t, s.clock)
    ensures
      var s := Run(Init(maxConcurrent, clock), events);
      var s' := Tick(s);
      && (Saturated(s') || forall u :: u in s'.tasks ==> !IsDue(u, s'.clock))
      && s.log <= s'.log
      && (Launch(t.reg, s.clock) in s'.log[|s.log|..] || t in s'.tasks)
  {
    var s := Run(Init(maxConcurrent, clock), events);
    RunKeepsInv(Init(maxConcurrent, clock), events);
    TickFromExhausts(s, 0);
    TickKeepsClock(s, 0);
    TickLaunchesFirstDue(maxConcurrent, clock, events);
    var due := DueTasks(s.tasks, s.clock);
    var k := Admitted(s, |due|);
    if t in due[..k] {
      LaunchAllMembers(due[..k], s.clock, t);
    } else {
      SkippedStaysDue(s.tasks, s.clock, k, t);
    }
  }

  /** A pass that is not paused leaves the scheduler at its cap or no task due, in every reachable state. */
  lemma PassExhausts(maxConcurrent: int, clock: real, events: seq<Event>)
    ensures
      var s := Run(Init(maxConcurrent, clock), events);
      var s' := Step(s, EvPass);
      !s.paused ==>
        || (maxConcurrent > 0 && |s'.pending| == maxConcurrent)
        || forall t :: t in s'.tasks ==> !(t.active && t.nextRun <= s'.clock)
  {
    var s := Run(Init(maxConcurrent, clock), events);
    RunKeepsInv(Init(maxConcurrent, clock), events);
    TickKeepsInv(s, 0);
    TickFromExhausts(s, 0);
    TickKeepsClock(s, 0);
  }

  /** After any run the scheduler is paused exactly if it was paused and not resumed since, or was paused from
      the start and never resumed. */
  lemma {:induction false} PausedIff(s: State, events: seq<Event>)
    ensures Run(s, events).paused
       <==> || (exists i :: 0 <= i < |events| && events[i] == EvPause && EvResume !in events[i + 1..])
            || (s.paused && EvResume !in events)
    decreases |events|
  {
    if events != [] {
      var rest := events[1..];
      PausedIff(Step(s, events[0]), rest);
      PauseStep(s, events[0]);
      assert events == [events[0]] + rest;
      forall i | 0 <= i < |rest| ensures rest[i] == events[i + 1] && rest[i + 1..] == events[i + 2..] {
      }
      if i :| 0 <= i < |events| && events[i] == EvPause && EvResume !in events[i + 1..] {
        assert i > 0 ==> rest[i - 1] == EvPause && rest[i..] == events[i + 1..];
      }
      if i :| 0 <= i < |rest| && rest[i] == EvPause && EvResume !in rest[i + 1..] {
        assert events[i + 1] == EvPause && events[i + 2..] == rest[i + 1..];
      }
    }
  }

  lemma PauseStep(s: State, e: Event)
    ensures Step(s, e).paused == if e.EvPause? then true else if e.EvResume? then false else s.paused
  {
    TickSettlesNothing(s, 0);
  }

  /** A paused scheduler launches nothing until it is resumed, whatever happens to it. */
  lemma {:induction false} PausedLaunchesNothing(s: State, events: seq<Event>)
    requires s.paused && EvResume !in events
    ensures Run(s, events).log == s.log && Run(s, events).paused
    decreases |events|
  {
    if events != [] {
      assert Step(s, events[0]).log == s.log && Step(s, events[0]).paused;
      PausedLaunchesNothing(Step(s, events[0]), events[1..]);
    }
  }

  /** When one registration is launched by the first pass after it: a periodic one if its interval is
      positive and has gone by, a one-shot one if the wall clock has reached its time. */
  lemma FirstPassLaunchesIff(maxConcurrent: int, clock: real, name: string, dt: real, seconds: real,
                             timestamp: real, wallClock: real)
    requires dt >= 0.0
    ensures
      var s := Init(maxConcurrent, clock);
      var launched := [Launch(0, clock + dt)];
      && Run(s, [EvEvery(seconds, name), EvAdvance(dt), EvPass]).log
         == (if 0.0 < seconds <= dt then launched else [])
      && Run(s, [EvOnceAt(timestamp, wallClock, name), EvAdvance(dt), EvPass]).log
         == (if timestamp <= wallClock + dt then launched else [])
      && Run(s, [EvEvery(seconds, name), EvCancel(name), EvAdvance(dt), EvPass]).log == []
  {
    var s := Init(maxConcurrent, clock);
    var every, onceAt := Step(s, EvEvery(seconds, name)), Step(s, EvOnceAt(timestamp, wallClock, name));
    ThreeSteps(s, EvEvery(seconds, name), EvAdvance(dt), EvPass);
    ThreeSteps(s, EvOnceAt(timestamp, wallClock, name), EvAdvance(dt), EvPass);
    ThreeSteps(every, EvCancel(name), EvAdvance(dt), EvPass);
    assert [EvEvery(seconds, name), EvCancel(name), EvAdvance(dt), EvPass][1..]
        == [EvCancel(name), EvAdvance(dt), EvPass];
    if |every.tasks| == 1 {
      TickOfOne(Step(every, EvAdvance(dt)));
    }
    TickOfOne(Step(onceAt, EvAdvance(dt)));
  }

  lemma ThreeSteps(s: State, a: Event, b: Event, c: Event)
    ensures Run(s, [a, b, c]) == Step(Step(Step(s, a), b), c)
  {
    assert [a, b, c][1..] == [b, c] && [b, c][1..] == [c] && [c][1..] == [];
    var s3 := Step(Step(Step(s, a), b), c);
    assert Run(Step(Step(s, a), b), [c]) == Run(s3, []) == s3;
  }

  lemma TickOfOne(s: State)
    requires |s.tasks| == 1 && s.pending == {}
    ensures Tick(s).log == s.log + if IsDue(s.tasks[0], s.clock) then [Launch(s.tasks[0].reg, s.clock)] else []
  {
    if IsDue(s.tasks[0], s.clock) {
      var fired := Fire(s, 0);
      assert TickFrom(fired, |fired.tasks|) == fired;
    } else {
      assert TickFrom(s, 1) == s;
    }
  }

  /** A registration under a name that is taken keeps its place; another one comes last. */
  lemma {:induction false} PutKeepsPlace(tasks: seq<Task>, task: Task)
    requires DistinctNames(tasks)
    ensures
      var after := Put(tasks, task);
      && |after| == |tasks| + (if exists i :: 0 <= i < |tasks| && tasks[i].name == task.name then 0 else 1)
      && (forall i :: 0 <= i < |tasks| ==> after[i] == if tasks[i].name == task.name then task else tasks[i])
      && (|after| > |tasks| ==> after[|tasks|] == task)
  {
    if tasks != [] && tasks[0].name != task.name {
      PutKeepsPlace(tasks[1..], task);
      if i :| 0 <= i < |tasks| && tasks[i].name == task.name {
        assert tasks[1..][i - 1].name == task.name;
      }
      if i :| 0 <= i < |tasks[1..]| && tasks[1..][i].name == task.name {
        assert tasks[i + 1].name == task.name;
      }
    }
  }

  /** Cancelling takes one task out and leaves the others in their order. */
  lemma {:induction false} PopKeepsOrder(tasks: seq<Task>, name: string) returns (i: nat)
    ensures i <= |tasks| && forall j :: 0 <= j < i ==> tasks[j].name != name
    ensures if i == |tasks| then Pop(tasks, name) == tasks
            else tasks[i].name == name && Pop(tasks, name) == tasks[..i] + tasks[i + 1..]
  {
    i := 0;
    if tasks != [] && tasks[0].name != name {
      var rest := PopKeepsOrder(tasks[1..], name);
      i := rest + 1;
    }
  }

  lemma {:induction false} TickSettlesNothing(s: State, i: nat)
    requires i <= |s.tasks|
    ensures TickFrom(s, i).finished == s.finished && TickFrom(s, i).cancelled == s.cancelled
    ensures s.pending <= TickFrom(s, i).pending && s.log <= TickFrom(s, i).log
    ensures TickFrom(s, i).paused == s.paused
    decreases |s.tasks| - i
  {
    if i == |s.tasks| || Saturated(s) {
    } else if !IsDue(s.tasks[i], s.clock) {
      TickSettlesNothing(s, i + 1);
    } else {
      TickSettlesNothing(Fire(s, i), if s.tasks[i].interval.Some? then i + 1 else i);
    }
  }

  /** A launch is finished by its completion, or at shutdown if it ends in time, and cancelled at shutdown if
      it does not; nothing else settles a launch, and a settled one stays settled. */
  lemma SettledIff(s: State, e: Event, k: nat)
    ensures k in Step(s, e).finished
       <==> k in s.finished || (k in s.pending && (e == EvComplete(k) || (e.EvShutdown? && k in e.inTime)))
    ensures k in Step(s, e).cancelled
       <==> k in s.cancelled || (k in s.pending && e.EvShutdown? && k !in e.inTime)
    ensures k in s.pending ==>
              (k in Step(s, e).pending <==> e != EvComplete(k) && !e.EvShutdown?)
  {
    TickSettlesNothing(s, 0);
  }

  lemma {:induction false} LaunchAllMembers(tasks: seq<Task>, now: real, t: Task)
    requires t in tasks
    ensures Launch(t.reg, now) in LaunchAll(tasks, now)
  {
    if t != tasks[0] {
      LaunchAllMembers(tasks[1..], now, t);
    }
  }

  lemma {:induction false} TickKeepsClock(s: State, i: nat)
    requires i <= |s.tasks|
    ensures TickFrom(s, i).clock == s.clock
    decreases |s.tasks| - i
  {
    if i == |s.tasks| || Saturated(s) {
    } else if !IsDue(s.tasks[i], s.clock) {
      TickKeepsClock(s, i + 1);
    } else {
      TickKeepsClock(Fire(s, i), if s.tasks[i].interval.Some? then i + 1 else i);
    }
  }

  // ----- the scheduler object -----

  function Active(tasks: seq<Task>): seq<Task> {
    if tasks == [] then []
    else if tasks[0].active then [tasks[0]] + Active(tasks[1..])
    else Active(tasks[1..])
  }

  function InactiveNames(tasks: seq<Task>): seq<string> {
    if tasks == [] then []
    else if tasks[0].active then InactiveNames(tasks[1..])
    else [tasks[0].name] + InactiveNames(tasks[1..])
  }

  function PopAll(tasks: seq<Task>, names: seq<string>): seq<Task>
    decreases |names|
  {
    if names == [] then tasks else PopAll(Pop(tasks, names[0]), names[1..])
  }

  predicate DistinctNames(tasks: seq<Task>) {
    forall i, j :: 0 <= i < j < |tasks| ==> tasks[i].name != tasks[j].name
  }

  lemma {:induction false} ActiveConcat(a: seq<Task>, b: seq<Task>)
    ensures Active(a + b) == Active(a) + Active(b)
  {
    if a == [] {
      assert a + b == b;
    } else {
      assert (a + b)[1..] == a[1..] + b;
      ActiveConcat(a[1..], b);
    }
  }

  lemma {:induction false} InactiveNamesConcat(a: seq<Task>, b: seq<Task>)
    ensures InactiveNames(a + b) == InactiveNames(a) + InactiveNames(b)
  {
    if a == [] {
      assert a + b == b;
    } else {
      assert (a + b)[1..] == a[1..] + b;
      InactiveNamesConcat(a[1..], b);
    }
  }

  lemma {:induction false} AllActive(tasks: seq<Task>)
    requires forall i :: 0 <= i < |tasks| ==> tasks[i].active
    ensures Active(tasks) == tasks && InactiveNames(tasks) == []
  {
    if tasks != [] {
      AllActive(tasks[1..]);
    }
  }

  lemma {:induction false} NotInactive(tasks: seq<Task>, name: string)
    requires forall i :: 0 <= i < |tasks| ==> tasks[i].name != name
    ensures name !in InactiveNames(tasks)
  {
    if tasks != [] {
      NotInactive(tasks[1..], name);
    }
  }

  lemma {:induction false} PopAllSkips(t: Task, tasks: seq<Task>, names: seq<string>)
    requires t.name !in names
    ensures PopAll([t] + tasks, names) == [t] + PopAll(tasks, names)
    decreases |names|
  {
    if names != [] {
      assert ([t] + tasks)[1..] == tasks;
      PopAllSkips(t, Pop(tasks, names[0]), names[1..]);
    }
  }

  /** Popping the names of the inactive tasks leaves the active ones. */
  lemma {:induction false} PopAllInactive(tasks: seq<Task>)
    requires DistinctNames(tasks)
    ensures PopAll(tasks, InactiveNames(tasks)) == Active(tasks)
  {
    if tasks != [] {
      var t, rest := tasks[0], tasks[1..];
      PopAllInactive(rest);
      if t.active {
        NotInactive(rest, t.name);
        assert tasks == [t] + rest && InactiveNames(tasks) == InactiveNames(rest);
        PopAllSkips(t, rest, InactiveNames(rest));
      } else {
        assert InactiveNames(tasks)[1..] == InactiveNames(rest);
      }
    }
  }

  /** The record after a launch: a periodic task is armed again, a one-shot task becomes inactive. */
  function Marked(t: Task, now: real): Task {
    if t.interval.Some? then Rearmed(t, now)
    else t.(lastRun := Some(now), runCount := t.runCount + 1, active := false)
  }

  /** The whole state after a launch of `task`, which stands between `live` and `rest`. */
  function Launched(s: State, task: Task, live: seq<Task>, rest: seq<Task>): State {
    s.(tasks := live + Active([Marked(task, s.clock)]) + rest,
       log := s.log + [Launch(task.reg, s.clock)],
       pending := s.pending + {|s.log|})
  }

  /** Marking a task in place is firing it, once the inactive tasks are left out. */
  lemma MarkIsFire(s: State, task: Task, live: seq<Task>, rest: seq<Task>)
    requires IsDue(task, s.clock)
    ensures Fire(s.(tasks := live + [task] + rest), |live|) == Launched(s, task, live, rest)
  {
    var s' := s.(tasks := live + [task] + rest);
    assert s'.tasks[|live|] == task;
    var marked := Marked(task, s.clock);
    assert Active([marked]) == (if marked.active then [marked] else []);
    if task.interval.Some? {
      assert s'.tasks[|live| := Marked(task, s.clock)] == live + [Marked(task, s.clock)] + rest;
    } else {
      assert s'.tasks[..|live|] + s'.tasks[|live| + 1..] == live + [] + rest;
    }
  }

  lemma StepMatches(s: State, task: Task, live: seq<Task>, rest: seq<Task>)
    requires task.active && !Saturated(s)
    ensures TickFrom(s.(tasks := live + [task] + rest), |live|)
         == if IsDue(task, s.clock)
            then TickFrom(Launched(s, task, live, rest), |live + Active([Marked(task, s.clock)])|)
            else TickFrom(s.(tasks := live + [task] + rest), |live| + 1)
  {
    var s' := s.(tasks := live + [task] + rest);
    assert s'.tasks[|live|] == task;
    if IsDue(task, s.clock) {
      MarkIsFire(s, task, live, rest);
    }
  }

  /** The list with position `i` replaced, taken apart around it, without the inactive tasks before `i`. */
  lemma VisitedPrefix(tasks: seq<Task>, i: nat, updated: Task)
    requires i < |tasks|
    ensures
      var after := tasks[i := updated];
      && after[..i] == tasks[..i]
      && after[i + 1..] == tasks[i + 1..]
      && Active(after[..i + 1]) == Active(tasks[..i]) + Active([updated])
      && InactiveNames(after[..i + 1]) == InactiveNames(tasks[..i]) + InactiveNames([updated])
      && Active(tasks[..i]) + tasks[i..] == Active(tasks[..i]) + [tasks[i]] + tasks[i + 1..]
    ensures Active([updated]) == (if updated.active then [updated] else [])
    ensures InactiveNames([updated]) == (if updated.active then [] else [updated.name])
  {
    var after := tasks[i := updated];
    assert after[..i + 1] == tasks[..i] + [updated];
    ActiveConcat(tasks[..i], [updated]);
    InactiveNamesConcat(tasks[..i], [updated]);
    assert tasks[i..] == [tasks[i]] + tasks[i + 1..];
    assert [updated][1..] == [];
  }

  /** The state with the inactive ones among the first `i` tasks left out. */
  function Live(s: State, i: nat): State
    requires i <= |s.tasks|
  {
    s.(tasks := Active(s.tasks[..i]) + s.tasks[i..])
  }

  /** The state after the loop has seen task `i`: if it is due, its record is marked in place. */
  function Visited(s: State, i: nat): State
    requires i < |s.tasks|
  {
    var task := s.tasks[i];
    if IsDue(task, s.clock) then
      s.(tasks := s.tasks[i := Marked(task, s.clock)],
         log := s.log + [Launch(task.reg, s.clock)],
         pending := s.pending + {|s.log|})
    else s
  }

  lemma LiveAround(s: State, i: nat)
    requires i < |s.tasks| && s.tasks[i].active
    ensures
      var task, live, rest := s.tasks[i], Active(s.tasks[..i]), s.tasks[i + 1..];
      && Live(s, i) == s.(tasks := live + [task] + rest)
      && Live(Visited(s, i), i + 1)
         == (if IsDue(task, s.clock) then Launched(s, task, live, rest) else s.(tasks := live + [task] + rest))
      && Active(Visited(s, i).tasks[..i + 1])
         == live + if IsDue(task, s.clock) then Active([Marked(task, s.clock)]) else [task]
  {
    var task := s.tasks[i];
    var updated := if IsDue(task, s.clock) then Marked(task, s.clock) else task;
    VisitedPrefix(s.tasks, i, updated);
    assert Visited(s, i).tasks == s.tasks[i := updated];
  }

  /** Visiting a task in place is one step of the tick on the live tasks. */
  lemma VisitStep(s: State, i: nat)
    requires i < |s.tasks| && s.tasks[i].active && !Saturated(s)
    ensures TickFrom(Live(s, i), |Active(s.tasks[..i])|)
         == TickFrom(Live(Visited(s, i), i + 1), |Active(Visited(s, i).tasks[..i + 1])|)
  {
    LiveAround(s, i);
    StepMatches(s, s.tasks[i], Active(s.tasks[..i]), s.tasks[i + 1..]);
  }

  lemma VisitedRest(s: State, i: nat)
    requires i < |s.tasks|
    ensures |Visited(s, i).tasks| == |s.tasks|
    ensures DistinctNames(s.tasks) ==> DistinctNames(Visited(s, i).tasks)
    ensures forall k :: i < k < |s.tasks| ==> Visited(s, i).tasks[k] == s.tasks[k]
  {
    assert forall k :: 0 <= k < |s.tasks| ==> Visited(s, i).tasks[k].name == s.tasks[k].name;
  }

  /** The name that the loop notes for removal. */
  function RemovedBy(s: State, i: nat): seq<string>
    requires i < |s.tasks|
  {
    if IsDue(s.tasks[i], s.clock) && s.tasks[i].interval.None? then [s.tasks[i].name] else []
  }

  lemma VisitedNames(s: State, i: nat)
    requires i < |s.tasks| && s.tasks[i].active
    ensures InactiveNames(Visited(s, i).tasks[..i + 1])
         == InactiveNames(s.tasks[..i]) + RemovedBy(s, i)
  {
    var task := s.tasks[i];
    var updated := if IsDue(task, s.clock) then Marked(task, s.clock) else task;
    VisitedPrefix(s.tasks, i, updated);
    assert Visited(s, i).tasks == s.tasks[i := updated];
  }

  /** The loop has seen the first `i` tasks: what a tick does from here on the live tasks is `result`. */
  ghost predicate Scanned(s: State, i: nat, toRemove: seq<string>, result: State) {
    && i <= |s.tasks|
    && DistinctNames(s.tasks)
    && (forall k :: i <= k < |s.tasks| ==> s.tasks[k].active)
    && toRemove == InactiveNames(s.tasks[..i])
    && result == TickFrom(Live(s, i), |Active(s.tasks[..i])|)
  }

  lemma ScanStep(s: State, i: nat, toRemove: seq<string>, result: State)
    requires Scanned(s, i, toRemove, result) && i < |s.tasks| && !Saturated(s)
    ensures |Visited(s, i).tasks| == |s.tasks|
    ensures Scanned(Visited(s, i), i + 1, toRemove + RemovedBy(s, i), result)
  {
    VisitStep(s, i);
    VisitedNames(s, i);
    VisitedRest(s, i);
  }

  /** Once nothing more can fire, the state without the inactive tasks is the result of the tick. */
  lemma ScanEnds(s: State, i: nat, toRemove: seq<string>, result: State)
    requires Scanned(s, i, toRemove, result) && (i == |s.tasks| || Saturated(s))
    ensures toRemove == InactiveNames(s.tasks) && result == s.(tasks := Active(s.tasks))
  {
    AllActive(s.tasks[i..]);
    ActiveConcat(s.tasks[..i], s.tasks[i..]);
    InactiveNamesConcat(s.tasks[..i], s.tasks[i..]);
    assert s.tasks == s.tasks[..i] + s.tasks[i..];
  }

  class Scheduler {
    const maxConcurrent: int
    var tasks: seq<Task>
    var paused: bool
    var pending: set<nat>
    var launches: nat
    var registrations: nat
    ghost var clock: real
    ghost var log: seq<Launch>
    ghost var regs: seq<Registration>
    ghost var finished: set<nat>
    ghost var cancelled: set<nat>

    ghost function Abs(): State
      reads this
    {
      State(maxConcurrent, tasks, paused, clock, log, regs, pending, finished, cancelled)
    }

    ghost predicate Valid()
      reads this
    {
      Inv(Abs()) && launches == |log| && registrations == |regs|
    }

    constructor (maxConcurrent: int, ghost clock: real)
      ensures Valid() && Abs() == Init(maxConcurrent, clock)
    {
      this.maxConcurrent := maxConcurrent;
      this.clock := clock;
      tasks, paused, pending, launches, registrations := [], false, {}, 0, 0;
      log, regs, finished, cancelled := [], [], {}, {};
    }

    /** `now` is the reading of the monotonic clock. */
    method Every(seconds: real, name: string, now: real) returns (result: Result<string, string>)
      requires Valid() && clock <= now
      modifies this
      ensures Valid()
      ensures Abs() == Step(old(Abs()).(clock := now), EvEvery(seconds, name))
      ensures result == if seconds <= 0.0 then Failure("Interval must be positive") else Success(name)
    {
      AdvanceKeepsInv(Abs(), now);
      clock := now;
      EveryKeepsInv(Abs(), seconds, name);
      if seconds <= 0.0 {
        return Failure("Interval must be positive");
      }
      PutTask(name, Some(seconds), now + seconds);
      return Success(name);
    }

    method OnceAt(timestamp: real, wallClock: real, name: string, now: real)
      requires Valid() && clock <= now
      modifies this
      ensures Valid()
      ensures Abs() == Step(old(Abs()).(clock := now), EvOnceAt(timestamp, wallClock, name))
    {
      AdvanceKeepsInv(Abs(), now);
      clock := now;
      OnceAtKeepsInv(Abs(), timestamp, wallClock, name);
      var offset := timestamp - wallClock;
      var due := now + if offset > 0.0 then offset else 0.0;
      PutTask(name, None, due);
    }

    /** `self._tasks[task_name] = _Task(...)` */
    method PutTask(name: string, interval: Option<real>, due: real)
      requires Inv(Register(Abs(), name, interval, due)) && launches == |log| && registrations == |regs|
      modifies this`tasks, this`registrations, this`regs
      ensures Valid()
      ensures Abs() == Register(old(Abs()), name, interval, due)
    {
      tasks := Put(tasks, Task(registrations, name, interval, due, None, 0, true));
      registrations := registrations + 1;
      regs := regs + [Registration(interval, clock, due)];
    }

    method Cancel(name: string) returns (found: bool)
      requires Valid()
      modifies this
      ensures Valid()
      ensures Abs() == Step(old(Abs()), EvCancel(name))
      ensures found <==> exists t :: t in old(tasks) && t.name == name
    {
      StepKeepsInv(Abs(), EvCancel(name));
      found := false;
      for i := 0 to |tasks|
        invariant found <==> exists j :: 0 <= j < i && tasks[j].name == name
      {
        found := found || tasks[i].name == name;
      }
      if found {
        var j :| 0 <= j < |tasks| && tasks[j].name == name;
        assert tasks[j] in tasks;
      }
      tasks := Pop(tasks, name);
    }

    method Pause()
      requires Valid()
      modifies this
      ensures Valid()
      ensures Abs() == Step(old(Abs()), EvPause)
    {
      StepKeepsInv(Abs(), EvPause);
      paused := true;
    }

    method Resume()
      requires Valid()
      modifies this
      ensures Valid()
      ensures Abs() == Step(old(Abs()), EvResume)
    {
      StepKeepsInv(Abs(), EvResume);
      paused := false;
    }

    /** One round of the loop in `run_until`. */
    method Pass(now: real)
      requires Valid() && clock <= now
      modifies this
      ensures Valid()
      ensures Abs() == Step(old(Abs()).(clock := now), EvPass)
    {
      AdvanceKeepsInv(Abs(), now);
      clock := now;
      if !paused {
        TickOnce(now);
      }
    }

    /** Fires what is due, then removes the one-shot tasks that fired. */
    method TickOnce(now: real)
      requires Valid() && clock == now
      modifies this
      ensures Valid()
      ensures Abs() == Tick(old(Abs()))
    {
      TickKeepsInv(Abs(), 0);
      ghost var result := Tick(Abs());
      assert forall i :: 0 <= i < |tasks| ==> Agrees(Abs(), tasks[i]);
      var toRemove := FireDue(now);
      PopAllInactive(tasks);
      ghost var marked := tasks;
      for j := 0 to |toRemove|
        invariant launches == |log| && registrations == |regs|
        invariant PopAll(tasks, toRemove[j..]) == Active(marked)
        invariant result == Abs().(tasks := Active(marked))
      {
        tasks := Pop(tasks, toRemove[j]);
      }
    }

    /** The loop over the tasks; a one-shot task that fires is only marked inactive. No task is inactive when
        the loop begins, so that its test for inactive tasks has nothing to do. */
    method FireDue(now: real) returns (toRemove: seq<string>)
      requires clock == now && launches == |log|
      requires DistinctNames(tasks) && forall i :: 0 <= i < |tasks| ==> tasks[i].active
      modifies this
      ensures Abs().(tasks := Active(tasks)) == Tick(old(Abs()))
      ensures toRemove == InactiveNames(tasks) && DistinctNames(tasks)
      ensures launches == |log| && registrations == old(registrations) && regs == old(regs)
    {
      ghost var result := Tick(Abs());
      toRemove := [];
      var i := 0;
      assert Active(tasks[..0]) + tasks[0..] == tasks;
      while i < |tasks|
        invariant Scanned(Abs(), i, toRemove, result)
        invariant launches == |log| && registrations == old(registrations) && regs == old(regs) && clock == now
        decreases |tasks| - i
      {
        if maxConcurrent > 0 && |pending| >= maxConcurrent {
          break;
        }
        ScanStep(Abs(), i, toRemove, result);
        var removed := FireIfDue(i, now);
        toRemove := toRemove + removed;
        i := i + 1;
      }
      ScanEnds(Abs(), i, toRemove, result);
    }

    /** One task of the loop: creates the asyncio task and updates the record in place if it is due. */
    method FireIfDue(i: nat, now: real) returns (removed: seq<string>)
      requires i < |tasks| && clock == now && launches == |log| && tasks[i].active
      modifies this`tasks, this`pending, this`log, this`launches
      ensures launches == |log|
      ensures Abs() == Visited(old(Abs()), i)
      ensures removed == RemovedBy(old(Abs()), i)
    {
      var task := tasks[i];
      removed := [];
      if task.nextRun <= now {
        pending := pending + {launches};
        log := log + [Launch(task.reg, now)];
        launches := launches + 1;
        tasks := tasks[i := Marked(task, now)];
        if task.interval.None? {
          removed := [task.name];
        }
      }
    }

    method CompleteLaunch(launch: nat)
      requires Valid()
      modifies this
      ensures Valid()
      ensures Abs() == Step(old(Abs()), EvComplete(launch))
    {
      StepKeepsInv(Abs(), EvComplete(launch));
      if launch in pending {
        pending := pending - {launch};
        finished := finished + {launch};
      }
    }

    /** The end of `run_until`: what is still running after the grace period is cancelled. */
    method Drain(inTime: set<nat>)
      requires Valid()
      modifies this
      ensures Valid()
      ensures Abs() == Step(old(Abs()), EvShutdown(inTime))
    {
      StepKeepsInv(Abs(), EvShutdown(inTime));
      finished := finished + pending * inTime;
      cancelled := cancelled + (pending - inTime);
      pending := {};
    }
  }
}
