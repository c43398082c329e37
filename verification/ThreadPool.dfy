/**
 The server's thread pool as a machine that interleaves its threads at every point where the
 program can be interrupted: between critical sections, between a critical section and the
 notification that follows it, while a task runs, and while a thread waits on the condition.
 A critical section is one step because all it touches is guarded by the pool's mutex.
 Tasks return normally.
 */
module ThreadPool {
  import opened Wrappers

  type Task = nat

  /**
   Where a worker thread is. Ready: about to lock the mutex and evaluate the wait condition, at
   the start, after a task, or after being woken. Asleep: blocked in the condition variable.
   */
  datatype Worker = Ready | Asleep | Running(task: Task) | Exited

  /**
   The pool and what a bystander would have recorded. pendingOne counts the threads that have
   pushed a task and not yet called notify_one; pendingAll says that the destructor has raised
   stop and not yet called notify_all. pushed and taken list the tasks in those orders, finished
   the tasks that returned, and pushedAtStop is the length of pushed when stop was raised.
   */
  datatype Pool = Pool(
    workers: seq<Worker>, queue: seq<Task>, stop: bool, pendingOne: nat, pendingAll: bool,
    pushed: seq<Task>, taken: seq<Task>, finished: multiset<Task>, pushedAtStop: nat)

  datatype Event =
    | Push(task: Task)                  // enqueue, up to the end of its critical section
    | NotifyOne(target: Option<nat>)    // the rest of enqueue
    | Spurious(worker: nat)             // a wake-up without a notification
    | Check(worker: nat)                // a worker's critical section
    | Finish(worker: nat)               // a task returns
    | RaiseStop                         // the destructor's critical section
    | NotifyAll                         // the destructor's notification

  function Init(n: nat): Pool {
    Pool(seq(n, _ => Ready), [], false, 0, false, [], [], multiset{}, 0)
  }

  predicate NoneAsleep(ws: seq<Worker>) {
    forall i :: 0 <= i < |ws| ==> !ws[i].Asleep?
  }

  predicate AllExited(ws: seq<Worker>) {
    forall i :: 0 <= i < |ws| ==> ws[i].Exited?
  }

  /** Whether the step can happen. notify_one wakes a sleeper whenever there is one. */
  predicate Enabled(s: Pool, e: Event) {
    match e
    case Push(_) => true
    case NotifyOne(None) => 0 < s.pendingOne && NoneAsleep(s.workers)
    case NotifyOne(Some(w)) => 0 < s.pendingOne && w < |s.workers| && s.workers[w].Asleep?
    case Spurious(w) => w < |s.workers| && s.workers[w].Asleep?
    case Check(w) => w < |s.workers| && s.workers[w].Ready?
    case Finish(w) => w < |s.workers| && s.workers[w].Running?
    case RaiseStop => !s.stop
    case NotifyAll => s.pendingAll
  }

  function WakeAll(ws: seq<Worker>): (r: seq<Worker>)
    ensures |r| == |ws|
  {
    seq(|ws|, i requires 0 <= i < |ws| => if ws[i].Asleep? then Ready else ws[i])
  }

  /** The worker loop between taking the mutex and releasing it. */
  function CheckWorker(s: Pool, w: nat): Pool
    requires w < |s.workers|
  {
    if !s.stop && s.queue == [] then
      s.(workers := s.workers[w := Asleep])
    else if s.stop && s.queue == [] then
      s.(workers := s.workers[w := Exited])
    else
      s.(workers := s.workers[w := Running(s.queue[0])], queue := s.queue[1..],
         taken := s.taken + [s.queue[0]])
  }

  function Apply(s: Pool, e: Event): Pool
    requires Enabled(s, e)
  {
    match e
    case Push(t) =>
      s.(queue := s.queue + [t], pushed := s.pushed + [t], pendingOne := s.pendingOne + 1)
    case NotifyOne(None) => s.(pendingOne := s.pendingOne - 1)
    case NotifyOne(Some(w)) =>
      s.(pendingOne := s.pendingOne - 1, workers := s.workers[w := Ready])
    case Spurious(w) => s.(workers := s.workers[w := Ready])
    case Check(w) => CheckWorker(s, w)
    case Finish(w) =>
      s.(workers := s.workers[w := Ready], finished := s.finished + multiset{s.workers[w].task})
    case RaiseStop => s.(stop := true, pendingAll := true, pushedAtStop := |s.pushed|)
    case NotifyAll => s.(pendingAll := false, workers := WakeAll(s.workers))
  }

  // ---------------------------------------------------------------- runs

  /** The events can happen one after the other. */
  predicate Feasible(s: Pool, es: seq<Event>)
    decreases |es|
  {
    es == [] || (Enabled(s, es[0]) && Feasible(Apply(s, es[0]), es[1..]))
  }

  function After(s: Pool, es: seq<Event>): Pool
    requires Feasible(s, es)
    decreases |es|
  {
    if es == [] then s else After(Apply(s, es[0]), es[1..])
  }

  // ---------------------------------------------------------------- sums over the workers

  function Sum(ws: seq<Worker>, f: Worker -> nat): nat {
    if ws == [] then 0 else Sum(ws[..|ws| - 1], f) + f(ws[|ws| - 1])
  }

  lemma {:induction false} SumUpdate(ws: seq<Worker>, f: Worker -> nat, i: nat, w: Worker)
    requires i < |ws|
    ensures Sum(ws[i := w], f) + f(ws[i]) == Sum(ws, f) + f(w)
  {
    var front := ws[..|ws| - 1];
    if i < |front| {
      SumUpdate(front, f, i, w);
      assert ws[i := w][..|ws| - 1] == front[i := w];
    } else {
      assert ws[i := w][..|ws| - 1] == front;
    }
  }

  /** The workers that will evaluate the wait condition without further help. */
  function ReadyWeight(w: Worker): nat {
    if w.Ready? then 1 else 0
  }

  function ReadyCount(ws: seq<Worker>): nat {
    Sum(ws, ReadyWeight)
  }

  lemma {:induction false} SumWakeAll(ws: seq<Worker>, f: Worker -> nat)
    ensures f(Asleep) <= f(Ready) ==> Sum(ws, f) <= Sum(WakeAll(ws), f)
    ensures f(Ready) <= f(Asleep) ==> Sum(WakeAll(ws), f) <= Sum(ws, f)
  {
    if ws != [] {
      SumWakeAll(ws[..|ws| - 1], f);
      assert WakeAll(ws)[..|ws| - 1] == WakeAll(ws[..|ws| - 1]);
    }
  }

  function Held(w: Worker): multiset<Task> {
    if w.Running? then multiset{w.task} else multiset{}
  }

  /** The tasks being run. */
  function RunningTasks(ws: seq<Worker>): multiset<Task> {
    if ws == [] then multiset{} else RunningTasks(ws[..|ws| - 1]) + Held(ws[|ws| - 1])
  }

  lemma AddToBoth(a: multiset<Task>, b: multiset<Task>, c: multiset<Task>, d: multiset<Task>, x: multiset<Task>)
    requires a + b == c + d
    ensures (a + x) + b == (c + x) + d
  {
    assert (a + x) + b == (a + b) + x;
  }

  lemma {:induction false} RunningUpdate(ws: seq<Worker>, i: nat, w: Worker)
    requires i < |ws|
    ensures RunningTasks(ws[i := w]) + Held(ws[i]) == RunningTasks(ws) + Held(w)
  {
    hide Held;
    var front := ws[..|ws| - 1];
    if i < |front| {
      RunningUpdate(front, i, w);
      assert ws[i := w][..|ws| - 1] == front[i := w];
      AddToBoth(RunningTasks(front[i := w]), Held(ws[i]), RunningTasks(front), Held(w), Held(ws[|ws| - 1]));
    } else {
      assert ws[i := w][..|ws| - 1] == front;
    }
  }

  lemma StartTask(ws: seq<Worker>, i: nat, w: Worker)
    requires i < |ws| && !ws[i].Running?
    ensures RunningTasks(ws[i := w]) == RunningTasks(ws) + Held(w)
  {
    RunningUpdate(ws, i, w);
  }

  lemma EndTask(ws: seq<Worker>, i: nat, w: Worker)
    requires i < |ws| && ws[i].Running? && !w.Running?
    ensures RunningTasks(ws) == RunningTasks(ws[i := w]) + multiset{ws[i].task}
  {
    RunningUpdate(ws, i, w);
  }

  lemma {:induction false} RunningWakeAll(ws: seq<Worker>)
    ensures RunningTasks(WakeAll(ws)) == RunningTasks(ws)
  {
    if ws != [] {
      RunningWakeAll(ws[..|ws| - 1]);
      assert WakeAll(ws)[..|ws| - 1] == WakeAll(ws[..|ws| - 1]);
    }
  }

  /** A worker's share of the tasks being run is part of them, and they are at most one each. */
  lemma {:induction false} RunningBound(ws: seq<Worker>)
    ensures |RunningTasks(ws)| <= |ws|
    ensures (forall i :: 0 <= i < |ws| ==> !ws[i].Running?) ==> RunningTasks(ws) == multiset{}
  {
    if ws != [] {
      RunningBound(ws[..|ws| - 1]);
    }
  }

  // ---------------------------------------------------------------- the invariant

  /** A sleeper can rely on somebody else for every task in the queue, and for the stop flag. */
  predicate Wakeful(s: Pool) {
    || NoneAsleep(s.workers)
    || (&& |s.queue| <= s.pendingOne + ReadyCount(s.workers)
        && (s.stop ==> s.pendingAll))
  }

  /** Every pushed task is in the queue, running or finished, and was taken in the order pushed. */
  predicate Conserved(s: Pool) {
    && s.taken + s.queue == s.pushed
    && s.finished + RunningTasks(s.workers) == multiset(s.taken)
  }

  /** A worker only exits once everything pushed before stop has been taken. */
  predicate Drained(s: Pool) {
    && s.pushedAtStop <= |s.pushed|
    && (s.pendingAll ==> s.stop)
    && ((exists i :: 0 <= i < |s.workers| && s.workers[i].Exited?) ==> s.stop && s.pushedAtStop <= |s.taken|)
  }

  predicate Inv(s: Pool) {
    Wakeful(s) && Conserved(s) && Drained(s)
  }

  lemma {:induction false} InitFacts(n: nat)
    ensures RunningTasks(seq(n, _ => Ready)) == multiset{}
  {
    RunningBound(seq(n, _ => Ready));
  }

  lemma WakefulStep(s: Pool, e: Event)
    requires Wakeful(s) && Enabled(s, e)
    ensures Wakeful(Apply(s, e))
  {
    var s' := Apply(s, e);
    match e {
      case Push(_) =>
      case NotifyOne(None) =>
      case NotifyOne(Some(w)) => SumUpdate(s.workers, ReadyWeight, w, Ready);
      case Spurious(w) => SumUpdate(s.workers, ReadyWeight, w, Ready);
      case Check(w) => SumUpdate(s.workers, ReadyWeight, w, s'.workers[w]);
      case Finish(w) => SumUpdate(s.workers, ReadyWeight, w, Ready);
      case RaiseStop =>
      case NotifyAll =>
    }
  }

  lemma ConservedCheck(s: Pool, w: nat)
    requires Conserved(s) && w < |s.workers| && s.workers[w].Ready?
    ensures Conserved(CheckWorker(s, w))
  {
    hide RunningTasks;
    var s' := CheckWorker(s, w);
    StartTask(s.workers, w, s'.workers[w]);
    if s.queue != [] {
      assert s'.taken + s'.queue == s.taken + s.queue;
    }
  }

  lemma ConservedFinish(s: Pool, w: nat)
    requires Conserved(s) && w < |s.workers| && s.workers[w].Running?
    ensures Conserved(Apply(s, Finish(w)))
  {
    hide RunningTasks;
    EndTask(s.workers, w, Ready);
  }

  lemma ConservedStep(s: Pool, e: Event)
    requires Conserved(s) && Enabled(s, e)
    ensures Conserved(Apply(s, e))
  {
    hide RunningTasks, CheckWorker;
    match e {
      case Push(t) => assert s.taken + (s.queue + [t]) == (s.taken + s.queue) + [t];
      case NotifyOne(None) =>
      case NotifyOne(Some(w)) => StartTask(s.workers, w, Ready);
      case Spurious(w) => StartTask(s.workers, w, Ready);
      case Check(w) => ConservedCheck(s, w);
      case Finish(w) => ConservedFinish(s, w);
      case RaiseStop =>
      case NotifyAll => RunningWakeAll(s.workers);
    }
  }

  lemma DrainedStep(s: Pool, e: Event)
    requires Drained(s) && Conserved(s) && Enabled(s, e)
    ensures Drained(Apply(s, e))
  {
  }

  /** Every step from every state keeps the invariant. */
  lemma InvStep(s: Pool, e: Event)
    requires Inv(s) && Enabled(s, e)
    ensures Inv(Apply(s, e))
  {
    WakefulStep(s, e);
    ConservedStep(s, e);
    DrainedStep(s, e);
  }

  lemma {:induction false} InvRun(s: Pool, es: seq<Event>)
    requires Inv(s) && Feasible(s, es)
    ensures Inv(After(s, es)) && |After(s, es).workers| == |s.workers|
    decreases |es|
  {
    hide Inv;
    if es != [] {
      InvStep(s, es[0]);
      InvRun(Apply(s, es[0]), es[1..]);
    }
  }

  /** Every state of every run of a pool of any size satisfies the invariant. */
  lemma InvReachable(n: nat, es: seq<Event>)
    requires Feasible(Init(n), es)
    ensures Inv(After(Init(n), es)) && |After(Init(n), es).workers| == n
  {
    InitFacts(n);
    InvRun(Init(n), es);
  }

  // ---------------------------------------------------------------- what was enqueued

  /** The tasks of a run's calls to enqueue, in order, told from its events alone. */
  function Enqueued(es: seq<Event>): seq<Task>
    decreases |es|
  {
    if es == [] then [] else (if es[0].Push? then [es[0].task] else []) + Enqueued(es[1..])
  }

  /** The record of pushed tasks is the tasks enqueued. */
  lemma {:induction false} PushedIsEnqueued(s: Pool, es: seq<Event>)
    requires Feasible(s, es)
    ensures After(s, es).pushed == s.pushed + Enqueued(es)
    decreases |es|
  {
    hide Enabled, Apply;
    if es != [] {
      PushedByOne(s, es[0]);
      PushedIsEnqueued(Apply(s, es[0]), es[1..]);
      var first := if es[0].Push? then [es[0].task] else [];
      assert (s.pushed + first) + Enqueued(es[1..]) == s.pushed + (first + Enqueued(es[1..]));
    } else {
      assert s.pushed + Enqueued(es) == s.pushed;
    }
  }

  lemma PushedByOne(s: Pool, e: Event)
    requires Enabled(s, e)
    ensures Apply(s, e).pushed == s.pushed + (if e.Push? then [e.task] else [])
  {
  }

  /** The tasks that returned along a run: those its workers were running where they finished one. */
  function Returned(s: Pool, es: seq<Event>): multiset<Task>
    requires Feasible(s, es)
    decreases |es|
  {
    if es == [] then multiset{}
    else
      (if es[0].Finish? then multiset{s.workers[es[0].worker].task} else multiset{})
      + Returned(Apply(s, es[0]), es[1..])
  }

  lemma FinishedByOne(s: Pool, e: Event)
    requires Enabled(s, e)
    ensures Apply(s, e).finished
         == s.finished + (if e.Finish? then multiset{s.workers[e.worker].task} else multiset{})
  {
  }

  /** The record of finished tasks is the tasks that returned. */
  lemma {:induction false} FinishedIsReturned(s: Pool, es: seq<Event>)
    requires Feasible(s, es)
    ensures After(s, es).finished == s.finished + Returned(s, es)
    decreases |es|
  {
    hide Apply;
    if es != [] {
      FinishedByOne(s, es[0]);
      FinishedIsReturned(Apply(s, es[0]), es[1..]);
    }
  }

  // ---------------------------------------------------------------- no lost wake-up, order, conservation

  /** While a worker sleeps, every queued task has a notification or an awake worker coming for it. */
  lemma NoLostWakeup(n: nat, es: seq<Event>, w: nat)
    requires Feasible(Init(n), es)
    requires var s := After(Init(n), es); w < |s.workers| && s.workers[w].Asleep?
    ensures var s := After(Init(n), es);
            && |s.queue| <= s.pendingOne + ReadyCount(s.workers)
            && (s.stop ==> s.pendingAll)
  {
    InvReachable(n, es);
  }

  /**
   Tasks leave the queue in the order they were enqueued; every task enqueued is queued, being run or
   has returned, none twice; and no more run at once than there are workers.
   */
  lemma FirstInFirstOut(n: nat, es: seq<Event>)
    requires Feasible(Init(n), es)
    ensures var s := After(Init(n), es);
            && s.taken + s.queue == Enqueued(es)
            && Returned(Init(n), es) + RunningTasks(s.workers) + multiset(s.queue) == multiset(Enqueued(es))
            && |RunningTasks(s.workers)| <= n
  {
    InvReachable(n, es);
    PushedIsEnqueued(Init(n), es);
    FinishedIsReturned(Init(n), es);
    var s := After(Init(n), es);
    RunningBound(s.workers);
    assert s.finished == Returned(Init(n), es);
    assert multiset(s.taken + s.queue) == multiset(s.taken) + multiset(s.queue);
  }

  // ---------------------------------------------------------------- progress

  /** A step the pool takes by itself: not a new task, a stray wake-up or the start of shutdown. */
  predicate Own(e: Event) {
    !e.Push? && !e.Spurious? && !e.RaiseStop?
  }

  ghost predicate Quiescent(s: Pool) {
    forall e :: Enabled(s, e) ==> !Own(e)
  }

  /** A pool at rest, told from its fields. */
  predicate AtRest(s: Pool) {
    && s.pendingOne == 0 && !s.pendingAll
    && (if s.stop then AllExited(s.workers)
        else s.queue == [] && forall i :: 0 <= i < |s.workers| ==> s.workers[i].Asleep?)
  }

  lemma NotQuiescent(s: Pool, e: Event)
    requires Enabled(s, e) && Own(e)
    ensures !Quiescent(s)
  {
  }

  lemma {:induction false} ReadyExists(ws: seq<Worker>) returns (i: nat)
    requires 0 < ReadyCount(ws)
    ensures i < |ws| && ws[i].Ready?
  {
    if ws[|ws| - 1].Ready? {
      i := |ws| - 1;
    } else {
      i := ReadyExists(ws[..|ws| - 1]);
    }
  }

  /** A pool with workers has nothing left to do exactly when it is at rest. */
  lemma QuiescentIsAtRest(s: Pool)
    requires Inv(s) && 0 < |s.workers|
    ensures Quiescent(s) <==> AtRest(s)
  {
    hide Conserved;
    if Quiescent(s) {
      if 0 < s.pendingOne {
        PendingIsEnabled(s);
      }
      if s.pendingAll {
        NotQuiescent(s, NotifyAll);
      }
      forall i | 0 <= i < |s.workers|
        ensures s.workers[i].Asleep? || s.workers[i].Exited?
      {
        if s.workers[i].Ready? {
          NotQuiescent(s, Check(i));
        } else if s.workers[i].Running? {
          NotQuiescent(s, Finish(i));
        }
      }
      if 0 < ReadyCount(s.workers) {
        var i := ReadyExists(s.workers);
      }
    }
  }

  lemma PendingIsEnabled(s: Pool)
    requires 0 < s.pendingOne
    ensures !Quiescent(s)
  {
    if NoneAsleep(s.workers) {
      NotQuiescent(s, NotifyOne(None));
    } else {
      var w :| 0 <= w < |s.workers| && s.workers[w].Asleep?;
      NotQuiescent(s, NotifyOne(Some(w)));
    }
  }

  /** A pool with workers that has come to rest before shutdown has finished every task. */
  lemma RestMeansFinished(s: Pool)
    requires Inv(s) && 0 < |s.workers| && Quiescent(s) && !s.stop
    ensures s.finished == multiset(s.pushed)
  {
    QuiescentIsAtRest(s);
    RunningBound(s.workers);
    assert s.taken == s.pushed;
  }

  /** A run that comes to rest, before shutdown, with a task not finished. */
  ghost predicate LeavesWork(n: nat, es: seq<Event>) {
    && Feasible(Init(n), es)
    && var s := After(Init(n), es);
    && Quiescent(s) && !s.stop && s.finished != multiset(Enqueued(es))
  }

  /** Without workers a task can be left for ever; with them it never is. */
  lemma CompletesExactlyWithWorkers(n: nat)
    ensures 0 < n <==> forall es :: !LeavesWork(n, es)
  {
    if 0 < n {
      forall es | Feasible(Init(n), es)
        ensures !LeavesWork(n, es)
      {
        InvReachable(n, es);
        PushedIsEnqueued(Init(n), es);
        var s := After(Init(n), es);
        if Quiescent(s) && !s.stop {
          RestMeansFinished(s);
        }
      }
    } else {
      WorkLeftWithoutWorkers(7);
    }
  }

  lemma WorkLeftWithoutWorkers(t: Task)
    ensures LeavesWork(0, [Push(t), NotifyOne(None)])
  {
    var es := [Push(t), NotifyOne(None)];
    var s1 := Apply(Init(0), Push(t));
    var s2 := Apply(s1, NotifyOne(None));
    assert es[1..] == [NotifyOne(None)] && es[1..][1..] == [];
    assert Feasible(s2, []) && Feasible(s1, es[1..]) && Feasible(Init(0), es);
    assert After(s1, es[1..]) == s2;
    forall e | Enabled(s2, e)
      ensures !Own(e)
    {
    }
    assert Enqueued(es[1..][1..]) == [] && Enqueued(es[1..]) == [] && Enqueued(es) == [t];
    assert t in multiset(Enqueued(es));
  }

  // ---------------------------------------------------------------- before shutdown: work runs out

  function CalmWeight(w: Worker): nat {
    match w
    case Asleep => 0
    case Ready => 1
    case Running(_) => 2
    case Exited => 0
  }

  function CalmMeasure(s: Pool): nat {
    Sum(s.workers, CalmWeight) + 2 * |s.queue| + 2 * s.pendingOne
  }

  /** Left alone, the pool can only take finitely many steps before it rests. */
  lemma CalmDecreases(s: Pool, e: Event)
    requires !s.stop && !s.pendingAll && Enabled(s, e) && Own(e)
    ensures CalmMeasure(Apply(s, e)) < CalmMeasure(s)
  {
    match e {
      case NotifyOne(None) =>
      case NotifyOne(Some(w)) => SumUpdate(s.workers, CalmWeight, w, Ready);
      case Check(w) => SumUpdate(s.workers, CalmWeight, w, Apply(s, e).workers[w]);
      case Finish(w) => SumUpdate(s.workers, CalmWeight, w, Ready);
    }
  }

  predicate AllOwn(es: seq<Event>) {
    forall i :: 0 <= i < |es| ==> Own(es[i])
  }

  lemma {:induction false} CalmRunBounded(s: Pool, es: seq<Event>)
    requires !s.stop && !s.pendingAll && Feasible(s, es) && AllOwn(es)
    ensures |es| + CalmMeasure(After(s, es)) <= CalmMeasure(s) && !After(s, es).stop
    decreases |es|
  {
    if es != [] {
      CalmDecreases(s, es[0]);
      CalmRunBounded(Apply(s, es[0]), es[1..]);
    }
  }

  lemma {:induction false} NothingEnqueued(es: seq<Event>)
    requires forall i :: 0 <= i < |es| ==> !es[i].Push?
    ensures Enqueued(es) == []
    decreases |es|
  {
    if es != [] {
      NothingEnqueued(es[1..]);
    }
  }

  /**
   Left alone before shutdown, a pool with workers can take only so many steps, and wherever it
   can take no more, every task ever enqueued has finished.
   */
  lemma LeftAloneFinishes(n: nat, es: seq<Event>, more: seq<Event>)
    requires 0 < n && Feasible(Init(n), es)
    requires var s := After(Init(n), es); !s.stop && Feasible(s, more) && AllOwn(more)
    ensures var s := After(Init(n), es);
            var t := After(s, more);
            && |more| <= CalmMeasure(s)
            && ((exists e :: Enabled(t, e) && Own(e)) || t.finished == multiset(Enqueued(es)))
  {
    var s := After(Init(n), es);
    InvReachable(n, es);
    CalmRunBounded(s, more);
    InvRun(s, more);
    PushedIsEnqueued(Init(n), es);
    PushedIsEnqueued(s, more);
    NothingEnqueued(more);
    if Quiescent(After(s, more)) {
      RestMeansFinished(After(s, more));
    }
  }

  // ---------------------------------------------------------------- shutdown

  function StopWeight(w: Worker): nat {
    match w
    case Asleep => 3
    case Ready => 2
    case Running(_) => 3
    case Exited => 0
  }

  function StopMeasure(s: Pool): nat {
    Sum(s.workers, StopWeight) + 2 * |s.queue| + s.pendingOne + (if s.pendingAll then 1 else 0)
  }

  /** After stop, every step but a new task brings the end nearer, stray wake-ups included. */
  lemma StopDecreases(s: Pool, e: Event)
    requires s.stop && Enabled(s, e) && !e.Push?
    ensures StopMeasure(Apply(s, e)) < StopMeasure(s) && Apply(s, e).stop
  {
    match e {
      case NotifyOne(None) =>
      case NotifyOne(Some(w)) => SumUpdate(s.workers, StopWeight, w, Ready);
      case Spurious(w) => SumUpdate(s.workers, StopWeight, w, Ready);
      case Check(w) => SumUpdate(s.workers, StopWeight, w, Apply(s, e).workers[w]);
      case Finish(w) => SumUpdate(s.workers, StopWeight, w, Ready);
      case NotifyAll => SumWakeAll(s.workers, StopWeight);
    }
  }

  predicate NoPush(es: seq<Event>) {
    forall i :: 0 <= i < |es| ==> !es[i].Push?
  }

  lemma {:induction false} StopRunBounded(s: Pool, es: seq<Event>)
    requires s.stop && Feasible(s, es) && NoPush(es)
    ensures |es| + StopMeasure(After(s, es)) <= StopMeasure(s) && After(s, es).stop
    decreases |es|
  {
    if es != [] {
      StopDecreases(s, es[0]);
      StopRunBounded(Apply(s, es[0]), es[1..]);
    }
  }

  /** As long as a worker has not exited, a stopped pool has a step to take. */
  lemma StoppedPoolMoves(s: Pool)
    requires Inv(s) && s.stop && !AllExited(s.workers)
    ensures exists e :: Enabled(s, e) && Own(e)
  {
    QuiescentIsAtRest(s);
  }

  lemma ExitMeansDrained(t: Pool)
    requires Inv(t) && 0 < |t.workers| && AllExited(t.workers)
    ensures t.pushedAtStop <= |t.pushed| && multiset(t.pushed[..t.pushedAtStop]) <= t.finished
  {
    assert t.workers[0].Exited?;
    RunningBound(t.workers);
    assert t.pushed[..t.pushedAtStop] == t.taken[..t.pushedAtStop];
    assert t.finished == multiset(t.taken) by {
      assert RunningTasks(t.workers) == multiset{};
    }
    var first, rest := multiset(t.taken[..t.pushedAtStop]), multiset(t.taken[t.pushedAtStop..]);
    assert t.taken == t.taken[..t.pushedAtStop] + t.taken[t.pushedAtStop..];
    assert multiset(t.taken) == first + rest && first <= first + rest;
  }

  /** Once stop is raised it stays, and so does the record of what was pushed by then. */
  lemma {:induction false} StopStays(s: Pool, es: seq<Event>)
    requires s.stop && s.pushedAtStop <= |s.pushed| && Feasible(s, es)
    ensures var t := After(s, es);
            && t.stop && t.pushedAtStop == s.pushedAtStop <= |t.pushed|
            && t.pushed[..s.pushedAtStop] == s.pushed[..s.pushedAtStop]
    decreases |es|
  {
    if es != [] {
      StopStays(Apply(s, es[0]), es[1..]);
    }
  }

  /**
   The destructor's joins return. Let stop be raised after any run, and let anything happen then,
   calls of enqueue still under way included. From there the pool can take only so many steps before
   the workers have all exited, unless it is given new tasks, and it cannot get stuck earlier. When
   they have exited, every task enqueued before stop has finished.
   */
  lemma ShutdownDrains(n: nat, before: seq<Event>, after: seq<Event>, more: seq<Event>)
    requires Feasible(Init(n), before + [RaiseStop])
    requires Feasible(After(Init(n), before + [RaiseStop]), after)
    requires var s := After(After(Init(n), before + [RaiseStop]), after); Feasible(s, more) && NoPush(more)
    ensures var s := After(After(Init(n), before + [RaiseStop]), after);
            var t := After(s, more);
            && |more| <= StopMeasure(s)
            && (AllExited(t.workers) || exists e :: Enabled(t, e) && Own(e))
            && (0 < n && AllExited(t.workers) ==> multiset(Enqueued(before)) <= t.finished)
  {
    hide Inv, Enabled, Apply, Own;
    var s1 := After(Init(n), before + [RaiseStop]);
    var s := After(s1, after);
    var t := After(s, more);
    InvReachable(n, before + [RaiseStop]);
    RaisedAfter(n, before);
    InvRun(s1, after);
    InvRun(s, more);
    StopStays(s1, after);
    StopStays(s, more);
    StopRunBounded(s, more);
    if !AllExited(t.workers) {
      StoppedPoolMoves(t);
    } else if 0 < n {
      ExitMeansDrained(t);
      assert t.pushed[..t.pushedAtStop] == Enqueued(before);
    }
  }

  /** What raising stop records. */
  lemma RaisedAfter(n: nat, before: seq<Event>)
    requires Feasible(Init(n), before + [RaiseStop])
    ensures var s := After(Init(n), before + [RaiseStop]);
            s.stop && s.pushedAtStop == |s.pushed| && s.pushed == Enqueued(before)
  {
    hide Enabled;
    AfterAppend(Init(n), before, RaiseStop);
    PushedIsEnqueued(Init(n), before);
  }

  lemma {:induction false} AfterAppend(s: Pool, es: seq<Event>, e: Event)
    requires Feasible(s, es + [e])
    ensures Feasible(s, es) && Enabled(After(s, es), e) && After(s, es + [e]) == Apply(After(s, es), e)
    decreases |es|
  {
    hide Enabled, Apply;
    if es == [] {
      assert es + [e] == [e] && [e][1..] == [];
    } else {
      assert (es + [e])[0] == es[0] && (es + [e])[1..] == es[1..] + [e];
      AfterAppend(Apply(s, es[0]), es[1..], e);
    }
  }

  // ---------------------------------------------------------------- the program's critical sections

  /**
   The pool object. tasks and stop are its fields; the thread positions and pending notifications
   are what the operating system keeps for it, and the rest is the record of what happened.
   */
  class ThreadPool {
    var workers: seq<Worker>
    var tasks: seq<Task>
    var stop: bool
    var pendingOne: nat
    var pendingAll: bool
    ghost var pushed: seq<Task>
    ghost var taken: seq<Task>
    ghost var finished: multiset<Task>
    ghost var pushedAtStop: nat

    ghost function View(): Pool
      reads this
    {
      Pool(workers, tasks, stop, pendingOne, pendingAll, pushed, taken, finished, pushedAtStop)
    }

    constructor (n: nat)
      ensures View() == Init(n)
    {
      workers := seq(n, _ => Ready);
      tasks, stop, pendingOne, pendingAll := [], false, 0, false;
      pushed, taken, finished, pushedAtStop := [], [], multiset{}, 0;
    }

    /** enqueue: the part under the mutex. */
    method PushTask(task: Task)
      modifies this
      ensures View() == Apply(old(View()), Push(task))
    {
      tasks := tasks + [task];
      pushed := pushed + [task];
      pendingOne := pendingOne + 1;
    }

    /** notify_one: wakes some sleeper if there is one. */
    method Notify() returns (target: Option<nat>)
      requires 0 < pendingOne
      modifies this
      ensures Enabled(old(View()), NotifyOne(target))
      ensures View() == Apply(old(View()), NotifyOne(target))
    {
      pendingOne := pendingOne - 1;
      target := None;
      var i := 0;
      while i < |workers|
        invariant 0 <= i <= |workers|
        invariant forall k :: 0 <= k < i ==> !workers[k].Asleep?
        invariant View() == old(View()).(pendingOne := pendingOne)
        invariant pendingOne == old(pendingOne) - 1
      {
        if workers[i].Asleep? {
          target := Some(i);
          workers := workers[i := Ready];
          return;
        }
        i := i + 1;
      }
    }

    /**
     One pass of the worker loop under the mutex: sleep while there is nothing to do, return when
     there never will be, take the oldest task otherwise.
     */
    method WaitAndTake(w: nat) returns (task: Option<Task>)
      requires w < |workers| && workers[w].Ready?
      modifies this
      ensures View() == Apply(old(View()), Check(w))
      ensures task == (if old(tasks) == [] then None else Some(old(tasks)[0]))
    {
      task := None;
      if !(stop || tasks != []) {
        workers := workers[w := Asleep];
        return;
      }
      if stop && tasks == [] {
        workers := workers[w := Exited];
        return;
      }
      task := Some(tasks[0]);
      taken := taken + [tasks[0]];
      workers := workers[w := Running(tasks[0])];
      tasks := tasks[1..];
    }

    /** The task returns and the worker goes round its loop. */
    method TaskReturns(w: nat)
      requires w < |workers| && workers[w].Running?
      modifies this
      ensures View() == Apply(old(View()), Finish(w))
    {
      finished := finished + multiset{workers[w].task};
      workers := workers[w := Ready];
    }

    /** The destructor: the part under the mutex. */
    method BeginShutdown()
      requires !stop
      modifies this
      ensures View() == Apply(old(View()), RaiseStop)
    {
      stop := true;
      pendingAll := true;
      pushedAtStop := |pushed|;
    }

    /** notify_all. */
    method NotifyEveryone()
      requires pendingAll
      modifies this
      ensures View() == Apply(old(View()), NotifyAll)
    {
      pendingAll := false;
      workers := WakeAll(workers);
    }
  }
}
