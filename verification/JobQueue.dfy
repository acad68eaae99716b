/**
 The keyed in-memory job queue of packages/adapters/src/wakeup.ts on an event loop: timers fire at
 or after their time and in any order, and a keyed enqueue gives up control between cancelling the
 old timer and scheduling the new one, so several enqueues of one key may interleave.
 */
module JobQueue {
  import opened Wrappers

  type Key = string

  const MAX_TIMEOUT_MS: nat := 2_147_483_647

  datatype Stage = InAwait | Scheduled

  datatype Job = Job(key: Option<Key>, availableAt: Option<nat>, stage: Stage)

  datatype Timer = Timer(job: nat, armedAt: nat, fireAt: nat)

  datatype Dispatch = Dispatch(job: nat, at: nat)

  // `handlers`, `closed`, `timers` and `keyed` are the queue's fields; `armed` is what the event loop
  // holds; `jobs` are the enqueue calls so far. `dispatched` and `dropped` are history: what was handed
  // to the handlers, and the jobs that were replaced, cancelled or cleared by a stop.
  datatype Queue = Queue(handlers: bool, closed: bool, timers: set<nat>, keyed: map<Key, nat>,
                         armed: map<nat, Timer>, nextTimer: nat, now: nat, jobs: seq<Job>,
                         dispatched: seq<Dispatch>, dropped: set<nat>)

  datatype Action =
    | Enqueue(key: Option<Key>, availableAt: Option<nat>)
    | Resume(resumed: nat)
    | Cancel(cancelled: Key)
    | Start
    | Stop
    | Close
    | Fire(fired: nat)
    | Tick(ms: nat)

  function Remaining(availableAt: Option<nat>, now: nat): nat {
    if availableAt.Some? && availableAt.value > now then availableAt.value - now else 0
  }

  function Delay(remaining: nat): nat {
    if remaining < MAX_TIMEOUT_MS then remaining else MAX_TIMEOUT_MS
  }

  predicate Known(s: Queue, timer: nat) {
    timer in s.armed && s.armed[timer].job < |s.jobs|
  }

  predicate KeyOf(s: Queue, timer: nat, key: Key) {
    Known(s, timer) && s.jobs[s.armed[timer].job].key == Some(key)
  }

  // The timer is the one its job's key points at, or its job has no key.
  predicate Current(s: Queue, timer: nat)
    requires Known(s, timer)
  {
    var key := s.jobs[s.armed[timer].job].key;
    key.None? || (key.value in s.keyed && s.keyed[key.value] == timer)
  }

  // clearTimeout and both deletes of `cancel`.
  function CancelKey(s: Queue, key: Key): Queue {
    if key !in s.keyed then s
    else
      var timer := s.keyed[key];
      s.(armed := s.armed - {timer}, keyed := s.keyed - {key}, timers := s.timers - {timer},
         dropped := s.dropped + (if timer in s.armed then {s.armed[timer].job} else {}))
  }

  // Arming a timer for the job; under a key it takes the place of whatever is there.
  function Schedule(s: Queue, job: nat): Queue
    requires job < |s.jobs|
  {
    var me, timer := s.jobs[job], s.nextTimer;
    var replaced := if me.key.Some? && me.key.value in s.keyed && s.keyed[me.key.value] in s.armed
                    then {s.armed[s.keyed[me.key.value]].job} else {};
    s.(armed := s.armed[timer := Timer(job, s.now, s.now + Delay(Remaining(me.availableAt, s.now)))],
       nextTimer := timer + 1,
       timers := s.timers + {timer},
       keyed := if me.key.Some? then s.keyed[me.key.value := timer] else s.keyed,
       jobs := s.jobs[job := me.(stage := Scheduled)],
       dropped := s.dropped + replaced)
  }

  function ClearAll(s: Queue): Queue {
    s.(handlers := false, armed := s.armed - s.timers, timers := {}, keyed := map[],
       dropped := s.dropped + set t | t in s.armed && t in s.timers :: s.armed[t].job)
  }

  function StepEnqueue(s: Queue, key: Option<Key>, availableAt: Option<nat>): Queue {
    if s.closed then s
    else
      var job := |s.jobs|;
      var added := s.(jobs := s.jobs + [Job(key, availableAt, InAwait)]);
      if key.Some? then CancelKey(added, key.value) else Schedule(added, job)
  }

  function StepFire(s: Queue, timer: nat): Queue
    requires Known(s, timer)
  {
    var job := s.armed[timer].job;
    var me := s.jobs[job];
    var fired := s.(armed := s.armed - {timer}, timers := s.timers - {timer});
    if !Current(s, timer) then fired
    else if Remaining(me.availableAt, s.now) > 0 then Schedule(fired, job)
    else
      var done := fired.(keyed := if me.key.Some? then s.keyed - {me.key.value} else s.keyed);
      if s.handlers then done.(dispatched := s.dispatched + [Dispatch(job, s.now)]) else done
  }

  predicate Enabled(s: Queue, a: Action) {
    match a
    case Resume(job) => job < |s.jobs| && s.jobs[job].stage == InAwait
    case Fire(timer) => Known(s, timer) && s.armed[timer].fireAt <= s.now
    case _ => true
  }

  function Step(s: Queue, a: Action): Queue
    requires Enabled(s, a)
  {
    match a
    case Enqueue(key, availableAt) => StepEnqueue(s, key, availableAt)
    case Resume(job) => Schedule(s, job)
    case Cancel(key) => CancelKey(s, key)
    case Start => s.(handlers := true)
    case Stop => ClearAll(s)
    case Close => if s.closed then s else ClearAll(s.(closed := true))
    case Fire(timer) => StepFire(s, timer)
    case Tick(ms) => s.(now := s.now + ms)
  }

  /** The queue changed in place; the event loop's own state sits beside the four fields of the
      source, so that arming and clearing a timer are assignments too. */
  class InMemoryJobQueue {
    var handlers: bool
    var closed: bool
    var timers: set<nat>
    var keyed: map<Key, nat>
    var armed: map<nat, Timer>
    var nextTimer: nat
    var now: nat
    var jobs: seq<Job>
    var dispatched: seq<Dispatch>
    var dropped: set<nat>

    function Contents(): Queue
      reads this
    {
      Queue(handlers, closed, timers, keyed, armed, nextTimer, now, jobs, dispatched, dropped)
    }

    constructor (now: nat)
      ensures Contents() == Queue(false, false, {}, map[], map[], 0, now, [], [], {})
    {
      handlers, closed, timers, keyed := false, false, {}, map[];
      armed, nextTimer, this.now, jobs, dispatched, dropped := map[], 0, now, [], [], {};
    }

    method CancelTimer(key: Key)
      modifies this
      ensures Contents() == CancelKey(old(Contents()), key)
    {
      if key in keyed {
        var timer := keyed[key];
        if timer in armed {
          dropped := dropped + {armed[timer].job};
        }
        armed := armed - {timer};
        keyed := keyed - {key};
        timers := timers - {timer};
      }
    }

    method Arm(job: nat)
      requires job < |jobs|
      modifies this
      ensures Contents() == Schedule(old(Contents()), job)
    {
      var remaining := Remaining(jobs[job].availableAt, now);
      var timer, before := nextTimer, armed;
      nextTimer := nextTimer + 1;
      armed := armed[timer := Timer(job, now, now + Delay(remaining))];
      timers := timers + {timer};
      var key := jobs[job].key;
      if key.Some? {
        if key.value in keyed && keyed[key.value] in before {
          dropped := dropped + {before[keyed[key.value]].job};
        }
        keyed := keyed[key.value := timer];
      }
      jobs := jobs[job := jobs[job].(stage := Scheduled)];
    }

    /** Up to the await. A closed queue refuses. */
    method BeginEnqueue(key: Option<Key>, availableAt: Option<nat>) returns (refused: bool)
      modifies this
      ensures refused == old(closed)
      ensures Contents() == Step(old(Contents()), Enqueue(key, availableAt))
    {
      refused := closed;
      if !refused {
        jobs := jobs + [Job(key, availableAt, InAwait)];
        if key.Some? {
          CancelTimer(key.value);
        } else {
          Arm(|jobs| - 1);
        }
      }
    }

    method StopQueue()
      modifies this
      ensures Contents() == Step(old(Contents()), Stop)
    {
      handlers := false;
      dropped := dropped + set t | t in armed && t in timers :: armed[t].job;
      armed := armed - timers;
      timers := {};
      keyed := map[];
    }

    method CloseQueue()
      modifies this
      ensures Contents() == Step(old(Contents()), Close)
    {
      if !closed {
        closed := true;
        StopQueue();
      }
    }

    /** The timer's callback. */
    method OnTimer(timer: nat)
      requires Enabled(Contents(), Fire(timer))
      modifies this
      ensures Contents() == Step(old(Contents()), Fire(timer))
    {
      var job := armed[timer].job;
      var key := jobs[job].key;
      armed := armed - {timer};
      timers := timers - {timer};
      if key.Some? && !(key.value in keyed && keyed[key.value] == timer) {
        return;
      }
      if Remaining(jobs[job].availableAt, now) > 0 {
        Arm(job);
        return;
      }
      if key.Some? {
        keyed := keyed - {key.value};
      }
      if handlers {
        dispatched := dispatched + [Dispatch(job, now)];
      }
    }
  }

  predicate Init(s: Queue) {
    s == Queue(false, false, {}, map[], map[], 0, s.now, [], [], {})
  }

  ghost predicate Behaviour(ss: seq<Queue>, acts: seq<Action>) {
    && |ss| == |acts| + 1
    && Init(ss[0])
    && (forall k | 0 <= k < |acts| :: Enabled(ss[k], acts[k]) && ss[k + 1] == Step(ss[k], acts[k]))
  }

  // ----- invariant ----------------------------------------------------------------------------------

  ghost predicate TimersOk(s: Queue) {
    && s.timers == s.armed.Keys
    && (forall t | t in s.armed :: t < s.nextTimer && Known(s, t) && s.jobs[s.armed[t].job].stage == Scheduled)
    && (forall t, u | t in s.armed && u in s.armed && t != u :: s.armed[t].job != s.armed[u].job)
    && (forall key | key in s.keyed :: KeyOf(s, s.keyed[key], key))
    && (forall t | t in s.armed ::
          s.armed[t].fireAt == s.armed[t].armedAt +
              Delay(Remaining(s.jobs[s.armed[t].job].availableAt, s.armed[t].armedAt)))
  }

  // A dropped job is scheduled, and a timer it may still have is not current.
  ghost predicate DroppedOk(s: Queue) {
    && (forall j | j in s.dropped :: j < |s.jobs| && s.jobs[j].stage == Scheduled)
    && (forall t | t in s.armed && Known(s, t) :: Current(s, t) <==> s.armed[t].job !in s.dropped)
  }

  ghost predicate DispatchedOk(s: Queue) {
    && (forall p | 0 <= p < |s.dispatched| ::
          && s.dispatched[p].job < |s.jobs| && s.jobs[s.dispatched[p].job].stage == Scheduled
          && s.dispatched[p].job !in s.dropped
          && Remaining(s.jobs[s.dispatched[p].job].availableAt, s.dispatched[p].at) == 0)
    && (forall p, t | 0 <= p < |s.dispatched| && t in s.armed :: s.dispatched[p].job != s.armed[t].job)
    && (forall p, q | 0 <= p < q < |s.dispatched| :: s.dispatched[p].job != s.dispatched[q].job)
  }

  ghost predicate Inv(s: Queue) {
    TimersOk(s) && DroppedOk(s) && DispatchedOk(s)
  }

  lemma AddKeepsInv(s: Queue, job: Job)
    requires Inv(s) && job.stage == InAwait
    ensures Inv(s.(jobs := s.jobs + [job]))
  {
  }

  // Nothing else is armed for the job, and it has been neither dropped nor dispatched.
  ghost predicate Idle(s: Queue, job: nat) {
    && job !in s.dropped
    && (forall t | t in s.armed :: s.armed[t].job != job)
    && (forall p | 0 <= p < |s.dispatched| :: s.dispatched[p].job != job)
  }

  lemma DropKeepsInv(s: Queue, job: nat)
    requires Inv(s) && job < |s.jobs| && Idle(s, job) && s.jobs[job].stage == Scheduled
    ensures Inv(s.(dropped := s.dropped + {job}))
  {
  }

  // A timer leaves the queue together with the key that points at it.
  function Taken(s: Queue, timer: nat): Queue
    requires Known(s, timer)
  {
    var key := s.jobs[s.armed[timer].job].key;
    s.(armed := s.armed - {timer}, timers := s.timers - {timer},
       keyed := if key.Some? && Current(s, timer) then s.keyed - {key.value} else s.keyed)
  }

  lemma TakenKeepsTimers(s: Queue, timer: nat)
    requires TimersOk(s) && Known(s, timer)
    ensures TimersOk(Taken(s, timer))
  {
  }

  lemma TakenKeepsInv(s: Queue, timer: nat)
    requires Inv(s) && Known(s, timer)
    ensures Inv(Taken(s, timer))
    ensures Current(s, timer) ==> Idle(Taken(s, timer), s.armed[timer].job)
  {
    TakenKeepsTimers(s, timer);
    var t := Taken(s, timer);
    forall u | u in t.armed && Known(t, u) ensures Current(t, u) <==> t.armed[u].job !in t.dropped {
      assert Known(s, u) && t.armed[u] == s.armed[u];
    }
  }

  lemma CancelKeepsInv(s: Queue, key: Key)
    requires Inv(s)
    ensures Inv(CancelKey(s, key))
  {
    if key in s.keyed {
      var timer := s.keyed[key];
      assert KeyOf(s, timer, key);
      TakenKeepsInv(s, timer);
      DropKeepsInv(Taken(s, timer), s.armed[timer].job);
      assert CancelKey(s, key) == Taken(s, timer).(dropped := s.dropped + {s.armed[timer].job});
    }
  }

  lemma ResumeIsNew(s: Queue, job: nat)
    requires Inv(s) && job < |s.jobs| && s.jobs[job].stage == InAwait
    ensures Idle(s, job)
  {
  }

  lemma ScheduleKeepsTimers(s: Queue, job: nat)
    requires TimersOk(s) && job < |s.jobs| && Idle(s, job)
    ensures TimersOk(Schedule(s, job))
  {
    var t := Schedule(s, job);
    forall key | key in t.keyed ensures KeyOf(t, t.keyed[key], key) {
      if s.jobs[job].key != Some(key) {
        assert KeyOf(s, s.keyed[key], key);
      }
    }
  }

  lemma ScheduleKeepsDropped(s: Queue, job: nat)
    requires TimersOk(s) && DroppedOk(s) && job < |s.jobs| && Idle(s, job)
    ensures DroppedOk(Schedule(s, job))
  {
  }

  lemma ScheduleKeepsDispatched(s: Queue, job: nat)
    requires TimersOk(s) && DispatchedOk(s) && job < |s.jobs| && Idle(s, job)
    ensures DispatchedOk(Schedule(s, job))
  {
  }

  lemma ScheduleKeepsInv(s: Queue, job: nat)
    requires Inv(s) && job < |s.jobs| && Idle(s, job)
    ensures Inv(Schedule(s, job))
  {
    ScheduleKeepsTimers(s, job);
    ScheduleKeepsDropped(s, job);
    ScheduleKeepsDispatched(s, job);
  }

  lemma EnqueueKeepsInv(s: Queue, key: Option<Key>, availableAt: Option<nat>)
    requires Inv(s)
    ensures Inv(StepEnqueue(s, key, availableAt))
  {
    if !s.closed {
      var added := s.(jobs := s.jobs + [Job(key, availableAt, InAwait)]);
      AddKeepsInv(s, Job(key, availableAt, InAwait));
      if key.Some? {
        CancelKeepsInv(added, key.value);
      } else {
        ResumeIsNew(added, |s.jobs|);
        ScheduleKeepsInv(added, |s.jobs|);
      }
    }
  }

  lemma CloseKeepsInv(s: Queue)
    requires Inv(s)
    ensures Inv(ClearAll(s.(closed := true)))
  {
  }

  lemma ClearKeepsInv(s: Queue)
    requires Inv(s)
    ensures Inv(ClearAll(s))
  {
  }

  lemma DispatchKeepsInv(s: Queue, job: nat)
    requires Inv(s) && job < |s.jobs| && Idle(s, job) && s.jobs[job].stage == Scheduled
    requires Remaining(s.jobs[job].availableAt, s.now) == 0
    ensures Inv(s.(dispatched := s.dispatched + [Dispatch(job, s.now)]))
  {
  }

  // The entry of the fired timer is overwritten, so it does not matter that it is still there.
  lemma SameSchedule(fired: Queue, taken: Queue, job: nat)
    requires job < |fired.jobs|
    requires fired.jobs[job].key.Some? ==> taken == fired.(keyed := fired.keyed - {fired.jobs[job].key.value})
    requires fired.jobs[job].key.Some? && fired.jobs[job].key.value in fired.keyed ==>
               fired.keyed[fired.jobs[job].key.value] !in fired.armed
    requires fired.jobs[job].key.None? ==> taken == fired
    ensures Schedule(fired, job) == Schedule(taken, job)
  {
  }

  lemma FireKeepsInv(s: Queue, timer: nat)
    requires Inv(s) && Enabled(s, Fire(timer))
    ensures Inv(StepFire(s, timer))
  {
    TakenKeepsInv(s, timer);
    var job, taken := s.armed[timer].job, Taken(s, timer);
    if !Current(s, timer) {
      assert StepFire(s, timer) == taken;
    } else if Remaining(s.jobs[job].availableAt, s.now) > 0 {
      ScheduleKeepsInv(taken, job);
      SameSchedule(s.(armed := s.armed - {timer}, timers := s.timers - {timer}), taken, job);
    } else if s.handlers {
      DispatchKeepsInv(taken, job);
    } else {
      assert StepFire(s, timer) == taken;
    }
  }

  lemma QuietKeepsInv(s: Queue, a: Action)
    requires Inv(s) && Enabled(s, a) && (a.Start? || a.Tick?)
    ensures Inv(Step(s, a))
  {
  }

  lemma StepKeepsInv(s: Queue, a: Action)
    requires Inv(s) && Enabled(s, a)
    ensures Inv(Step(s, a))
  {
    match a
    case Enqueue(key, availableAt) => EnqueueKeepsInv(s, key, availableAt);
    case Resume(job) => ResumeIsNew(s, job); ScheduleKeepsInv(s, job);
    case Cancel(key) => CancelKeepsInv(s, key);
    case Stop => ClearKeepsInv(s);
    case Close => if !s.closed { CloseKeepsInv(s); }
    case Fire(timer) => FireKeepsInv(s, timer);
    case Start => QuietKeepsInv(s, a);
    case Tick(_) => QuietKeepsInv(s, a);
  }

  lemma {:induction false} AlwaysInv(ss: seq<Queue>, acts: seq<Action>, k: nat)
    requires Behaviour(ss, acts) && k < |ss|
    ensures Inv(ss[k])
  {
    if k == 0 {
    } else {
      AlwaysInv(ss, acts, k - 1);
      StepKeepsInv(ss[k - 1], acts[k - 1]);
    }
  }

  // ----- main results -----------------------------------------------------------------------------------

  /** Every job is dispatched at most once and never before its time. */
  lemma DispatchedOnceAndOnTime(ss: seq<Queue>, acts: seq<Action>, k: nat, p: nat)
    requires Behaviour(ss, acts) && k < |ss| && p < |ss[k].dispatched|
    ensures var d := ss[k].dispatched[p];
            && d.job < |ss[k].jobs|
            && (ss[k].jobs[d.job].availableAt.Some? ==> ss[k].jobs[d.job].availableAt.value <= d.at)
            && (forall q | 0 <= q < |ss[k].dispatched| && q != p :: ss[k].dispatched[q].job != d.job)
  {
    AlwaysInv(ss, acts, k);
  }

  lemma HistoryGrows(s: Queue, a: Action)
    requires Enabled(s, a)
    ensures s.dropped <= Step(s, a).dropped && s.dispatched <= Step(s, a).dispatched
    ensures a.Close? ==> Step(s, a).closed
    ensures s.closed ==> Step(s, a).closed
  {
  }

  // Everything noted by one state is still noted by the other.
  ghost predicate Remembers(s: Queue, t: Queue) {
    s.dropped <= t.dropped && s.dispatched <= t.dispatched
  }

  lemma {:induction false} RemembersAlong(ss: seq<Queue>, j: nat, k: nat)
    requires j <= k < |ss| && forall i | j <= i < k :: Remembers(ss[i], ss[i + 1])
    ensures Remembers(ss[j], ss[k])
    decreases k
  {
    if j == k {
    } else {
      RemembersAlong(ss, j, k - 1);
      assert Remembers(ss[k - 1], ss[k - 1 + 1]);
    }
  }

  lemma OneStepRemembers(ss: seq<Queue>, acts: seq<Action>, k: nat)
    requires Behaviour(ss, acts) && k < |acts|
    ensures Remembers(ss[k], ss[k + 1])
  {
    assert ss[k + 1] == Step(ss[k], acts[k]);
    HistoryGrows(ss[k], acts[k]);
  }

  lemma DroppedForever(ss: seq<Queue>, acts: seq<Action>, j: nat, k: nat)
    requires Behaviour(ss, acts) && j <= k < |ss|
    ensures Remembers(ss[j], ss[k])
  {
    forall i | j <= i < k
      ensures Remembers(ss[i], ss[i + 1])
    {
      OneStepRemembers(ss, acts, i);
    }
    RemembersAlong(ss, j, k);
  }

  /** A job that was replaced, cancelled or cleared is never dispatched, before or after. */
  lemma DroppedNeverDispatched(ss: seq<Queue>, acts: seq<Action>, j: nat, k: nat, job: nat, p: nat)
    requires Behaviour(ss, acts) && j < |ss| && k < |ss| && job in ss[j].dropped
    requires p < |ss[k].dispatched|
    ensures ss[k].dispatched[p].job != job
  {
    var last := if j <= k then k else j;
    DroppedForever(ss, acts, j, last);
    DroppedForever(ss, acts, k, last);
    AlwaysInv(ss, acts, last);
  }

  /** A cancel drops the job its key stands for, and so does the scheduling of another job under
      the same key. */
  lemma CancelAndReplaceDrop(ss: seq<Queue>, acts: seq<Action>, k: nat, key: Key)
    requires Behaviour(ss, acts) && k < |acts| && key in ss[k].keyed
    ensures var s := ss[k]; s.keyed[key] in s.armed
    ensures var s := ss[k];
            acts[k] == Cancel(key) ==> key !in ss[k + 1].keyed && s.armed[s.keyed[key]].job in ss[k + 1].dropped
    ensures var s := ss[k];
            acts[k].Resume? && s.jobs[acts[k].resumed].key == Some(key) ==>
                s.armed[s.keyed[key]].job in ss[k + 1].dropped
  {
    AlwaysInv(ss, acts, k);
    assert KeyOf(ss[k], ss[k].keyed[key], key);
    assert ss[k + 1] == Step(ss[k], acts[k]);
  }

  /** A stop leaves nothing armed, and drops every job that was. */
  lemma StopDropsEverything(ss: seq<Queue>, acts: seq<Action>, k: nat)
    requires Behaviour(ss, acts) && k < |acts| && (acts[k].Stop? || (acts[k].Close? && !ss[k].closed))
    ensures ss[k + 1].armed == map[]
    ensures forall t | t in ss[k].armed :: ss[k].armed[t].job in ss[k + 1].dropped
  {
    AlwaysInv(ss, acts, k);
    assert ss[k + 1] == Step(ss[k], acts[k]);
  }

  // ----- after close ---------------------------------------------------------------------------------------

  ghost predicate NoStart(acts: seq<Action>, from: nat, to: nat) {
    forall i | from <= i < to && i < |acts| :: !acts[i].Start?
  }

  lemma {:induction false} QuietWithoutHandlers(ss: seq<Queue>, acts: seq<Action>, j: nat, k: nat)
    requires Behaviour(ss, acts) && j <= k < |ss| && !ss[j].handlers && NoStart(acts, j, k)
    ensures !ss[k].handlers && ss[k].dispatched == ss[j].dispatched
  {
    if j == k {
    } else {
      QuietWithoutHandlers(ss, acts, j, k - 1);
      assert ss[k] == Step(ss[k - 1], acts[k - 1]);
      assert !acts[k - 1].Start?;
    }
  }

  /** Nothing is dispatched after close, as long as the queue is not started again. */
  lemma NothingAfterClose(ss: seq<Queue>, acts: seq<Action>, j: nat, k: nat)
    requires Behaviour(ss, acts) && j < k < |ss|
    requires acts[j].Close? && !ss[j].closed && NoStart(acts, j + 1, k)
    ensures ss[k].dispatched == ss[j].dispatched
  {
    assert ss[j + 1] == Step(ss[j], acts[j]);
    QuietWithoutHandlers(ss, acts, j + 1, k);
  }

  /** The proviso is needed: an enqueue caught in its await by the close still schedules its job,
      and a later start, which does not look at `closed`, dispatches it. */
  lemma RestartAfterCloseDispatches(key: Key) returns (ss: seq<Queue>, acts: seq<Action>)
    ensures Behaviour(ss, acts) && |acts| == 5
    ensures acts[1] == Close && !ss[1].closed && ss[2].closed && acts[2] == Start
    ensures ss[2].dispatched == [] && |ss[5].dispatched| == 1
  {
    var s0 := Queue(false, false, {}, map[], map[], 0, 0, [], [], {});
    acts := [Enqueue(Some(key), None), Close, Start, Resume(0), Fire(0)];
    var s1 := s0.(jobs := [Job(Some(key), None, InAwait)]);
    var s2 := s1.(closed := true);
    var s3 := s2.(handlers := true);
    var s4 := s3.(jobs := [Job(Some(key), None, Scheduled)], timers := {0}, keyed := map[key := 0],
                  armed := map[0 := Timer(0, 0, 0)], nextTimer := 1);
    var s5 := s4.(timers := {}, keyed := map[], armed := map[], dispatched := [Dispatch(0, 0)]);
    assert Step(s0, acts[0]) == s1;
    assert Step(s1, acts[1]) == s2;
    assert Step(s2, acts[2]) == s3;
    assert Step(s3, acts[3]) == s4;
    assert Step(s4, acts[4]) == s5;
    ss := [s0, s1, s2, s3, s4, s5];
  }

  // ----- exactly when something can still be dispatched ------------------------------------------------------

  // Some way for the queue to go on from `s`.
  ghost predicate Continues(s: Queue, ss: seq<Queue>, acts: seq<Action>) {
    && |ss| == |acts| + 1 && ss[0] == s
    && (forall k | 0 <= k < |acts| :: Enabled(ss[k], acts[k]) && ss[k + 1] == Step(ss[k], acts[k]))
  }

  ghost predicate CanDispatch(s: Queue) {
    exists ss: seq<Queue>, acts: seq<Action> :: Continues(s, ss, acts) && ss[|acts|].dispatched != s.dispatched
  }

  ghost predicate SomeoneWaits(s: Queue) {
    exists j :: 0 <= j < |s.jobs| && s.jobs[j].stage == InAwait
  }

  // Closed, nothing armed and no enqueue in its await: this is the end.
  ghost predicate Over(s: Queue) {
    s.closed && s.armed == map[] && s.timers == {} && !SomeoneWaits(s)
  }

  lemma StepKeepsOver(s: Queue, a: Action)
    requires Over(s) && Enabled(s, a)
    ensures Over(Step(s, a)) && Step(s, a).dispatched == s.dispatched
  {
  }

  lemma {:induction false} OverForever(s: Queue, ss: seq<Queue>, acts: seq<Action>, k: nat)
    requires Over(s) && Continues(s, ss, acts) && k < |ss|
    ensures Over(ss[k]) && ss[k].dispatched == s.dispatched
  {
    if k == 0 {
    } else {
      OverForever(s, ss, acts, k - 1);
      StepKeepsOver(ss[k - 1], acts[k - 1]);
      assert ss[k] == Step(ss[k - 1], acts[k - 1]);
    }
  }

  // Start, resume the waiting enqueue, let its time come, fire.
  function Wakening(s: Queue, job: nat): seq<Action>
    requires job < |s.jobs|
  {
    [Start, Resume(job), Tick(Remaining(s.jobs[job].availableAt, s.now)), Fire(s.nextTimer)]
  }

  lemma ResumedFires(s: Queue, job: nat)
    requires job < |s.jobs| && s.jobs[job].stage == InAwait && s.handlers
    ensures
      var t := Step(Schedule(s, job), Tick(Remaining(s.jobs[job].availableAt, s.now)));
      Enabled(t, Fire(s.nextTimer)) && Step(t, Fire(s.nextTimer)).dispatched == s.dispatched + [Dispatch(job, t.now)]
  {
  }

  lemma WaitingCanDispatch(s: Queue, job: nat)
    requires job < |s.jobs| && s.jobs[job].stage == InAwait
    ensures CanDispatch(s)
  {
    var started := Step(s, Start);
    var t := Step(Schedule(started, job), Tick(Remaining(s.jobs[job].availableAt, s.now)));
    ResumedFires(started, job);
    var acts := Wakening(s, job);
    var ss := [s, started, Schedule(started, job), t, Step(t, Fire(s.nextTimer))];
    assert Continues(s, ss, acts);
  }

  /** A queue that is just being closed can still dispatch something, by whatever comes, if and only if
      an enqueue is waiting in it. */
  lemma AfterCloseDispatchesIff(s: Queue)
    requires Inv(s) && !s.closed
    ensures CanDispatch(Step(s, Close)) <==> SomeoneWaits(s)
  {
    var t := Step(s, Close);
    assert t.jobs == s.jobs;
    if SomeoneWaits(s) {
      var job: nat :| job < |s.jobs| && s.jobs[job].stage == InAwait;
      WaitingCanDispatch(t, job);
    } else if CanDispatch(t) {
      var ss: seq<Queue>, acts: seq<Action> :| Continues(t, ss, acts) && ss[|acts|].dispatched != t.dispatched;
      OverForever(t, ss, acts, |acts|);
    }
  }

  // ----- long delays -----------------------------------------------------------------------------------------

  /** A timer that fires too early is one whose delay was cut to the maximum: re-arming then leaves
      at least that much less to wait, so a delay takes at most delay / MAX_TIMEOUT_MS re-arms. */
  lemma RearmsShrink(ss: seq<Queue>, acts: seq<Action>, k: nat)
    requires Behaviour(ss, acts) && k < |acts| && acts[k].Fire?
    ensures var s := ss[k]; var timer := s.armed[acts[k].fired]; var job := s.jobs[timer.job];
            && ss[k].now == ss[k + 1].now
            && (Remaining(job.availableAt, s.now) > 0 ==>
                  Remaining(job.availableAt, s.now) + MAX_TIMEOUT_MS <= Remaining(job.availableAt, timer.armedAt))
            && (Remaining(job.availableAt, timer.armedAt) <= MAX_TIMEOUT_MS ==> Remaining(job.availableAt, s.now) == 0)
  {
    AlwaysInv(ss, acts, k);
    assert ss[k + 1] == Step(ss[k], acts[k]);
  }
}
