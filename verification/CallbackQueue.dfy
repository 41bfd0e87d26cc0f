/**
 * The callback queue: any number of workers and adding threads around one mutex and one condition
 * variable, as a transition system. A step is the code between two points where another thread may
 * run: each test of `_quit`, each lock, wait and wake, and each critical section.
 */
module CallbackQueue {
  import opened Wrappers

  type Callback = nat

  /** Where a worker stands in `doWork`. */
  datatype Worker =
    | AtTop                // about to test the loop condition
    | Locking              // wants the mutex, on entry or on being woken
    | Testing              // holds the mutex, about to evaluate the wait condition
    | Parking              // holds the mutex, found the wait condition false
    | Blocked              // waits on the condition variable, mutex released
    | Leaving              // holds the mutex, its wait has returned
    | Running(cb: Callback)
    | Done

  datatype LogEntry = Start(worker: nat, cb: Callback) | Finish(worker: nat, cb: Callback)

  datatype State = State(
    quit: bool,
    owner: Option<nat>,        // the worker holding the mutex
    workers: seq<Worker>,
    adding: seq<Callback>,     // calls of addCallback past their test of _quit
    queue: seq<Callback>,
    // observers
    accepted: seq<Callback>,
    dequeued: seq<Callback>,
    log: seq<LogEntry>)

  datatype Event =
    | Add(cb: Callback)
    | Push(call: nat, woken: Option<nat>)
    | SetQuit
    | NotifyAll
    | Wake(worker: nat)        // a spurious wake-up
    | Turn(worker: nat)

  function Init(numThreads: nat): State {
    State(false, None, seq(numThreads, _ => AtTop), [], [], [], [], [])
  }

  predicate HoldsMutex(w: Worker) {
    w.Testing? || w.Parking? || w.Leaving?
  }

  predicate Enabled(s: State, e: Event) {
    match e
    case Add(_) => true
    case Push(call, woken) =>
      && s.owner.None? && call < |s.adding|
      && (if woken.Some? then woken.value < |s.workers| && s.workers[woken.value].Blocked?
          else forall w :: 0 <= w < |s.workers| ==> !s.workers[w].Blocked?)
    case SetQuit => true
    case NotifyAll => s.quit
    case Wake(w) => w < |s.workers| && s.workers[w].Blocked?
    case Turn(w) =>
      && w < |s.workers| && !s.workers[w].Blocked? && !s.workers[w].Done?
      && (s.workers[w].Locking? ==> s.owner.None?)
  }

  function Move(s: State, w: nat, to: Worker): State
    requires w < |s.workers|
  {
    s.(workers := s.workers[w := to])
  }

  function Release(s: State): State {
    s.(owner := None)
  }

  function TurnStep(s: State, w: nat): State
    requires w < |s.workers|
  {
    match s.workers[w]
    case AtTop => Move(s, w, if s.quit then Done else Locking)
    case Locking => Move(s, w, Testing).(owner := Some(w))
    case Testing => Move(s, w, if s.quit || s.queue != [] then Leaving else Parking)
    case Parking => Move(Release(s), w, Blocked)
    case Leaving =>
      if s.quit then Move(Release(s), w, Done)
      else if s.queue != [] then
        var cb := s.queue[0];
        Move(Release(s), w, Running(cb)).(
          queue := s.queue[1..], dequeued := s.dequeued + [cb], log := s.log + [Start(w, cb)])
      else Move(Release(s), w, AtTop)
    case Running(cb) => Move(s, w, AtTop).(log := s.log + [Finish(w, cb)])
    case _ => s
  }

  function Step(s: State, e: Event): State
    requires Enabled(s, e)
  {
    match e
    case Add(cb) => if s.quit then s else s.(adding := s.adding + [cb])
    case Push(call, woken) =>
      var cb := s.adding[call];
      var pushed := s.(adding := s.adding[..call] + s.adding[call + 1..],
                       queue := s.queue + [cb], accepted := s.accepted + [cb]);
      if woken.Some? then Move(pushed, woken.value, Locking) else pushed
    case SetQuit => s.(quit := true)
    case NotifyAll => s.(workers := AllWoken(s.workers))
    case Wake(w) => Move(s, w, Locking)
    case Turn(w) => TurnStep(s, w)
  }

  function AllWoken(ws: seq<Worker>): seq<Worker> {
    seq(|ws|, i requires 0 <= i < |ws| => if ws[i].Blocked? then Locking else ws[i])
  }

  /** `t` is reached from `s` by the events, each enabled in its turn. */
  predicate Runs(s: State, events: seq<Event>, t: State)
    decreases |events|
  {
    if events == [] then s == t
    else Enabled(s, events[0]) && Runs(Step(s, events[0]), events[1..], t)
  }

  // ----- The invariant

  function Awake(ws: seq<Worker>): nat {
    if ws == [] then 0 else Awake(ws[..|ws| - 1]) + if ws[|ws| - 1].Blocked? then 0 else 1
  }

  function Min(a: nat, b: nat): nat {
    if a < b then a else b
  }

  /** Exactly the worker that owns the mutex stands inside a critical section. */
  ghost predicate Exclusion(s: State) {
    && (s.owner.Some? ==> s.owner.value < |s.workers|)
    && forall w :: 0 <= w < |s.workers| ==> (HoldsMutex(s.workers[w]) <==> s.owner == Some(w))
  }

  /** A worker parks only on an empty queue, leaves only for a reason and stops only on quitting. */
  ghost predicate Reasoned(s: State, w: Worker) {
    && (w.Parking? ==> s.queue == [])
    && (w.Leaving? ==> s.quit || s.queue != [])
    && (w.Done? ==> s.quit)
  }

  ghost predicate Inv(s: State) {
    && s.accepted == s.dequeued + s.queue
    && Exclusion(s)
    && (forall w :: 0 <= w < |s.workers| ==> Reasoned(s, s.workers[w]))
    && Awake(s.workers) >= Min(|s.workers|, |s.queue|)
  }

  lemma {:induction false} AwakeUpdate(ws: seq<Worker>, w: nat, to: Worker)
    requires w < |ws|
    ensures Awake(ws[w := to]) == Awake(ws) - (if ws[w].Blocked? then 0 else 1) + (if to.Blocked? then 0 else 1)
  {
    var last := |ws| - 1;
    if w < last {
      AwakeUpdate(ws[..last], w, to);
      assert ws[w := to][..last] == ws[..last][w := to];
    } else {
      assert ws[w := to][..last] == ws[..last];
    }
  }

  lemma {:induction false} AwakeAll(ws: seq<Worker>)
    ensures Awake(ws) <= |ws|
    ensures Awake(ws) == |ws| <==> forall w :: 0 <= w < |ws| ==> !ws[w].Blocked?
  {
    if ws != [] {
      AwakeAll(ws[..|ws| - 1]);
    }
  }

  lemma InitInv(numThreads: nat)
    ensures Inv(Init(numThreads))
  {
    AwakeAll(Init(numThreads).workers);
  }

  lemma StepInv(s: State, e: Event)
    requires Inv(s) && Enabled(s, e)
    ensures Inv(Step(s, e)) && |Step(s, e).workers| == |s.workers|
  {
    match e
    case Add(_) =>
    case SetQuit =>
    case NotifyAll =>
      AwakeAll(AllWoken(s.workers));
    case Wake(w) =>
      AwakeUpdate(s.workers, w, Locking);
    case Push(call, woken) =>
      PushInv(s, call, woken);
    case Turn(w) =>
      TurnInv(s, w);
  }

  lemma PushInv(s: State, call: nat, woken: Option<nat>)
    requires Inv(s) && Enabled(s, Push(call, woken))
    ensures Inv(Step(s, Push(call, woken))) && |Step(s, Push(call, woken)).workers| == |s.workers|
  {
    hide Awake;
    AwakeAll(s.workers);
    assert s.accepted + [s.adding[call]] == s.dequeued + (s.queue + [s.adding[call]]);
    if woken.Some? {
      AwakeUpdate(s.workers, woken.value, Locking);
    }
  }

  lemma TurnExclusion(s: State, w: nat)
    requires Inv(s) && Enabled(s, Turn(w))
    ensures Exclusion(TurnStep(s, w))
  {
    hide Awake, Reasoned;
  }

  lemma TurnReasoned(s: State, w: nat)
    requires Inv(s) && Enabled(s, Turn(w))
    ensures forall v :: 0 <= v < |TurnStep(s, w).workers| ==> Reasoned(TurnStep(s, w), TurnStep(s, w).workers[v])
  {
    hide Awake;
  }

  lemma TurnInv(s: State, w: nat)
    requires Inv(s) && Enabled(s, Turn(w))
    ensures Inv(TurnStep(s, w)) && |TurnStep(s, w).workers| == |s.workers|
  {
    TurnExclusion(s, w);
    TurnReasoned(s, w);
    hide Awake, Exclusion;
    AwakeUpdate(s.workers, w, TurnStep(s, w).workers[w]);
    if s.workers[w].Leaving? && !s.quit {
      assert s.dequeued + s.queue == s.dequeued + [s.queue[0]] + s.queue[1..];
    }
  }

  lemma {:induction false} RunInv(s: State, events: seq<Event>, t: State)
    requires Inv(s) && Runs(s, events, t)
    ensures Inv(t) && |t.workers| == |s.workers|
    decreases |events|
  {
    if events != [] {
      StepInv(s, events[0]);
      RunInv(Step(s, events[0]), events[1..], t);
    }
  }

  // ----- Theorems

  /**
   * In every run of any number of workers, what was accepted is, in order, what was dequeued and
   * then what is queued: nothing is lost, run twice or overtaken, before or after quitting.
   */
  lemma Conservation(numThreads: nat, events: seq<Event>, s: State)
    requires Runs(Init(numThreads), events, s)
    ensures s.accepted == s.dequeued + s.queue
  {
    InitInv(numThreads);
    RunInv(Init(numThreads), events, s);
  }

  // ----- What is submitted, from the events alone

  /** The callbacks of the addCallback calls that came before anybody set `_quit`. */
  function Submitted(events: seq<Event>): multiset<Callback> {
    if events == [] || events[0].SetQuit? then multiset{}
    else (if events[0].Add? then multiset{events[0].cb} else multiset{}) + Submitted(events[1..])
  }

  /** Where they are: on their way in, queued or dequeued. */
  function Held(s: State): multiset<Callback> {
    multiset(s.adding) + multiset(s.queue) + multiset(s.dequeued)
  }

  lemma StepHolds(s: State, e: Event)
    requires Enabled(s, e)
    ensures Held(Step(s, e)) == Held(s) + if e.Add? && !s.quit then multiset{e.cb} else multiset{}
    ensures Step(s, e).quit == (s.quit || e.SetQuit?)
  {
    hide TurnStep, Held;
    match e
    case Push(call, woken) =>
      PushHolds(s, call, woken);
    case Turn(w) =>
      TurnHolds(s, w);
    case Add(cb) =>
      AddHolds(s, cb);
    case _ =>
      SameHolds(s, Step(s, e));
  }

  lemma SameHolds(s: State, t: State)
    requires t.adding == s.adding && t.queue == s.queue && t.dequeued == s.dequeued
    ensures Held(t) == Held(s)
  {
  }

  lemma AddHolds(s: State, cb: Callback)
    ensures Held(s.(adding := s.adding + [cb])) == Held(s) + multiset{cb}
  {
  }

  lemma PushHolds(s: State, call: nat, woken: Option<nat>)
    requires Enabled(s, Push(call, woken))
    ensures Held(Step(s, Push(call, woken))) == Held(s)
  {
    var t := Step(s, Push(call, woken));
    Without(s.adding, call);
    assert multiset(t.queue) == multiset(s.queue) + multiset{s.adding[call]};
  }

  lemma Without(cbs: seq<Callback>, i: nat)
    requires i < |cbs|
    ensures multiset(cbs) == multiset(cbs[..i] + cbs[i + 1..]) + multiset{cbs[i]}
  {
    assert cbs == cbs[..i] + [cbs[i]] + cbs[i + 1..];
  }

  lemma TurnHolds(s: State, w: nat)
    requires w < |s.workers|
    ensures Held(TurnStep(s, w)) == Held(s) && TurnStep(s, w).quit == s.quit
  {
    hide Held;
    var t := TurnStep(s, w);
    if s.workers[w].Leaving? && !s.quit && s.queue != [] {
      TakeHolds(s, t);
    } else {
      SameHolds(s, t);
    }
  }

  lemma TakeHolds(s: State, t: State)
    requires s.queue != [] && t.adding == s.adding
    requires t.queue == s.queue[1..] && t.dequeued == s.dequeued + [s.queue[0]]
    ensures Held(t) == Held(s)
  {
    assert s.queue == [s.queue[0]] + t.queue;
  }

  lemma {:induction false} RunHolds(s: State, events: seq<Event>, t: State)
    requires Runs(s, events, t)
    ensures Held(t) == Held(s) + if s.quit then multiset{} else Submitted(events)
    decreases |events|
  {
    hide Enabled, Step, Held;
    if events != [] {
      StepHolds(s, events[0]);
      RunHolds(Step(s, events[0]), events[1..], t);
    }
  }

  /** In every run nothing submitted before quitting is lost, and nothing else is ever held. */
  lemma NothingIsLost(numThreads: nat, events: seq<Event>, s: State)
    requires Runs(Init(numThreads), events, s)
    ensures multiset(s.adding) + multiset(s.queue) + multiset(s.dequeued) == Submitted(events)
  {
    RunHolds(Init(numThreads), events, s);
  }

  /** A push completes one call of addCallback and puts its callback last, behind all that are queued. */
  lemma PushGoesLast(s: State, call: nat, woken: Option<nat>)
    requires Enabled(s, Push(call, woken))
    ensures var t := Step(s, Push(call, woken));
            && |t.queue| == |s.queue| + 1 && t.queue[|s.queue|] == s.adding[call]
            && (forall i :: 0 <= i < |s.queue| ==> t.queue[i] == s.queue[i])
            && multiset(s.adding) == multiset(t.adding) + multiset{s.adding[call]}
  {
    Without(s.adding, call);
  }

  // ----- What is run

  function Starts(log: seq<LogEntry>): seq<Callback> {
    if log == [] then []
    else
      var last := log[|log| - 1];
      Starts(log[..|log| - 1]) + if last.Start? then [last.cb] else []
  }

  /** The callbacks of a worker that it has started and not finished. */
  function Underway(log: seq<LogEntry>, w: nat): seq<Callback> {
    if log == [] then []
    else
      var last, before := log[|log| - 1], Underway(log[..|log| - 1], w);
      if last.worker != w then before
      else if last.Start? then before + [last.cb]
      else if before == [last.cb] then []
      else before + [last.cb]
  }

  ghost predicate Logged(s: State) {
    && Starts(s.log) == s.dequeued
    && (forall i :: 0 <= i < |s.log| ==> s.log[i].worker < |s.workers|)
    && forall w :: 0 <= w < |s.workers| ==>
         Underway(s.log, w) == if s.workers[w].Running? then [s.workers[w].cb] else []
  }

  lemma OneMoreEntry(log: seq<LogEntry>, entry: LogEntry, w: nat)
    ensures Starts(log + [entry]) == Starts(log) + if entry.Start? then [entry.cb] else []
    ensures var before := Underway(log, w);
            Underway(log + [entry], w) ==
              if entry.worker != w then before
              else if entry.Finish? && before == [entry.cb] then [] else before + [entry.cb]
  {
    assert (log + [entry])[..|log|] == log;
  }

  lemma StepLogged(s: State, e: Event)
    requires Logged(s) && Enabled(s, e)
    ensures Logged(Step(s, e))
  {
    hide Starts, Underway;
    var t := Step(s, e);
    if e.Turn? && t.log != s.log {
      var entry := t.log[|s.log|];
      assert t.log == s.log + [entry];
      forall w | 0 <= w < |t.workers|
        ensures Underway(t.log, w) == if t.workers[w].Running? then [t.workers[w].cb] else []
      {
        OneMoreEntry(s.log, entry, w);
      }
      OneMoreEntry(s.log, entry, 0);
    } else {
      assert t.log == s.log && t.dequeued == s.dequeued && |t.workers| == |s.workers|;
    }
  }

  lemma {:induction false} RunLogged(s: State, events: seq<Event>, t: State)
    requires Logged(s) && Runs(s, events, t)
    ensures Logged(t)
    decreases |events|
  {
    hide Logged, Enabled, Step;
    if events != [] {
      StepLogged(s, events[0]);
      RunLogged(Step(s, events[0]), events[1..], t);
    }
  }

  /**
   * With any number of workers, the callbacks dequeued are started, each once and in that order, and
   * each worker finishes what it started before it starts another.
   */
  lemma EveryCallbackRuns(numThreads: nat, events: seq<Event>, s: State)
    requires Runs(Init(numThreads), events, s)
    ensures Starts(s.log) == s.dequeued
    ensures forall w :: 0 <= w < |s.workers| ==>
              Underway(s.log, w) == if s.workers[w].Running? then [s.workers[w].cb] else []
  {
    RunLogged(Init(numThreads), events, s);
  }

  /** No stranded work: with `k` callbacks queued, `k` workers or all of them are not waiting. */
  lemma NoStrandedWork(numThreads: nat, events: seq<Event>, s: State)
    requires Runs(Init(numThreads), events, s)
    ensures Awake(s.workers) >= Min(numThreads, |s.queue|)
    ensures numThreads >= 1 && s.queue != [] ==>
              exists w :: 0 <= w < |s.workers| && !s.workers[w].Blocked?
  {
    InitInv(numThreads);
    RunInv(Init(numThreads), events, s);
    AwakeSome(s.workers);
  }

  lemma {:induction false} AwakeSome(ws: seq<Worker>)
    ensures Awake(ws) > 0 ==> exists w :: 0 <= w < |ws| && !ws[w].Blocked?
  {
    if ws != [] && ws[|ws| - 1].Blocked? {
      AwakeSome(ws[..|ws| - 1]);
    }
  }

  function Turns(w: nat, n: nat): seq<Event> {
    seq(n, _ => Turn(w))
  }

  /**
   * Queued work can always be started: unless quitting, some worker takes the front callback
   * within five turns of its own, whatever the others are doing.
   */
  lemma WorkCanStart(numThreads: nat, events: seq<Event>, s: State) returns (w: nat, n: nat, t: State)
    requires numThreads >= 1 && Runs(Init(numThreads), events, s)
    requires !s.quit && s.queue != []
    ensures n <= 5 && Runs(s, Turns(w, n), t)
    ensures t.dequeued == s.dequeued + [s.queue[0]]
  {
    InitInv(numThreads);
    RunInv(Init(numThreads), events, s);
    if s.owner.Some? {
      w := s.owner.value;
    } else {
      NoStrandedWork(numThreads, events, s);
      w :| 0 <= w < |s.workers| && !s.workers[w].Blocked?;
    }
    n, t := WorkerCanStart(s, w);
  }

  function TurnsToStart(w: Worker): nat {
    match w
    case Leaving => 1
    case Testing => 2
    case Locking => 3
    case AtTop => 4
    case _ => 5
  }

  lemma WorkerCanStart(s: State, w: nat) returns (n: nat, t: State)
    requires !s.quit && s.queue != [] && w < |s.workers|
    requires s.workers[w].Leaving? || s.workers[w].Testing? || (s.owner.None? && !HoldsMutex(s.workers[w]))
    requires !s.workers[w].Blocked? && !s.workers[w].Done?
    ensures n <= TurnsToStart(s.workers[w])
    ensures Runs(s, Turns(w, n), t) && t.dequeued == s.dequeued + [s.queue[0]]
    decreases TurnsToStart(s.workers[w])
  {
    var next := Step(s, Turn(w));
    if s.workers[w].Leaving? {
      n, t := 1, next;
      assert Turns(w, 1) == [Turn(w)];
      assert Runs(next, [], next);
    } else {
      n, t := WorkerCanStart(next, w);
      assert Turns(w, n + 1)[1..] == Turns(w, n);
      n := n + 1;
    }
  }

  /** The run of callbacks one after the other: each starts once the one before has finished. */
  function OneByOne(cbs: seq<Callback>): seq<LogEntry> {
    if cbs == [] then [] else OneByOne(cbs[..|cbs| - 1]) + [Start(0, cbs[|cbs| - 1]), Finish(0, cbs[|cbs| - 1])]
  }

  ghost predicate SingleInv(s: State) {
    && |s.workers| == 1
    && match s.workers[0]
       case Running(cb) =>
         && s.dequeued != [] && s.dequeued[|s.dequeued| - 1] == cb
         && s.log == OneByOne(s.dequeued[..|s.dequeued| - 1]) + [Start(0, cb)]
       case _ => s.log == OneByOne(s.dequeued)
  }

  lemma {:induction false} SingleRun(s: State, events: seq<Event>, t: State)
    requires SingleInv(s) && Runs(s, events, t)
    ensures SingleInv(t)
    decreases |events|
  {
    hide SingleInv, Step;
    if events != [] {
      SingleStep(s, events[0]);
      SingleRun(Step(s, events[0]), events[1..], t);
    }
  }

  /** Only the worker's own turns start and finish callbacks. */
  lemma OthersKeepSingle(s: State, e: Event)
    requires SingleInv(s) && Enabled(s, e) && !e.Turn?
    ensures SingleInv(Step(s, e))
  {
    hide OneByOne, TurnStep;
    var next := Step(s, e);
    assert next.log == s.log && next.dequeued == s.dequeued && |next.workers| == 1;
    assert next.workers[0] == s.workers[0] || (s.workers[0].Blocked? && next.workers[0].Locking?);
  }

  lemma StartSingle(s: State)
    requires SingleInv(s) && s.workers[0].Leaving? && !s.quit && s.queue != []
    ensures SingleInv(TurnStep(s, 0))
  {
    hide OneByOne;
    var next := TurnStep(s, 0);
    assert next.dequeued[..|next.dequeued| - 1] == s.dequeued;
  }

  lemma FinishSingle(s: State)
    requires SingleInv(s) && s.workers[0].Running?
    ensures SingleInv(TurnStep(s, 0))
  {
    var cb, before := s.workers[0].cb, OneByOne(s.dequeued[..|s.dequeued| - 1]);
    assert TurnStep(s, 0).log == before + [Start(0, cb)] + [Finish(0, cb)] == before + [Start(0, cb), Finish(0, cb)];
  }

  lemma SingleStep(s: State, e: Event)
    requires SingleInv(s) && Enabled(s, e)
    ensures SingleInv(Step(s, e))
  {
    hide OneByOne, SingleInv;
    assert |s.workers| == 1 by { OneWorker(s); }
    if !e.Turn? {
      hide Step;
      OthersKeepSingle(s, e);
    } else if s.workers[0].Running? {
      hide TurnStep;
      FinishSingle(s);
    } else if s.workers[0].Leaving? && !s.quit && s.queue != [] {
      hide TurnStep;
      StartSingle(s);
    } else {
      IdleSingle(s);
    }
  }

  lemma OneWorker(s: State)
    requires SingleInv(s)
    ensures |s.workers| == 1
  {
  }

  lemma IdleSingle(s: State)
    requires SingleInv(s) && !s.workers[0].Running? && !(s.workers[0].Leaving? && !s.quit && s.queue != [])
    ensures SingleInv(TurnStep(s, 0))
  {
    hide OneByOne;
    var next := TurnStep(s, 0);
    assert next.log == s.log && next.dequeued == s.dequeued && !next.workers[0].Running?;
  }

  /**
   * With one worker, as the server has, callbacks run one at a time and in the order of
   * acceptance; those started form a prefix of those accepted, also after quitting.
   */
  lemma SingleWorkerOrder(events: seq<Event>, s: State)
    requires Runs(Init(1), events, s)
    ensures s.dequeued <= s.accepted
    ensures s.log == OneByOne(s.dequeued) ||
            (s.dequeued != [] && s.log + [Finish(0, s.dequeued[|s.dequeued| - 1])] == OneByOne(s.dequeued))
  {
    Conservation(1, events, s);
    SingleRun(Init(1), events, s);
    if s.workers[0].Running? {
      var cb := s.workers[0].cb;
      assert [Start(0, cb)] + [Finish(0, cb)] == [Start(0, cb), Finish(0, cb)];
    }
  }

  // ----- Stopping

  ghost predicate NobodyBlocked(s: State) {
    forall w :: 0 <= w < |s.workers| ==> !s.workers[w].Blocked?
  }

  ghost predicate NobodyParking(s: State) {
    forall w :: 0 <= w < |s.workers| ==> !s.workers[w].Parking?
  }

  /** Quitting, and no worker waits or is about to: all that is left of each is a few turns. */
  ghost predicate Winding(s: State) {
    s.quit && NobodyBlocked(s) && NobodyParking(s)
  }

  /** The turns after which a worker that never waits again is done. */
  function TurnsToStop(w: Worker): nat {
    match w
    case Done => 0
    case AtTop => 1
    case Leaving => 1
    case Running(_) => 2
    case Testing => 2
    case Locking => 3
    case Parking => 4
    case Blocked => 4
  }

  lemma StepWinds(s: State, e: Event, w: nat)
    requires Winding(s) && Enabled(s, e) && w < |s.workers|
    ensures var t := Step(s, e);
            && Winding(t) && |t.workers| == |s.workers|
            && TurnsToStop(t.workers[w]) + (if e == Turn(w) then 1 else 0) == TurnsToStop(s.workers[w])
  {
  }

  /** Every turn of a worker brings it one nearer to its end; nothing takes it further away. */
  lemma {:induction false} RunWinds(s: State, events: seq<Event>, t: State, w: nat)
    requires Winding(s) && Runs(s, events, t) && w < |s.workers|
    ensures Winding(t) && |t.workers| == |s.workers|
    ensures TurnsToStop(t.workers[w]) + multiset(events)[Turn(w)] == TurnsToStop(s.workers[w])
    decreases |events|
  {
    hide Step, Winding;
    if events != [] {
      StepWinds(s, events[0], w);
      RunWinds(Step(s, events[0]), events[1..], t, w);
      assert events == [events[0]] + events[1..];
    }
  }

  lemma NobodyWaitsAgain(s: State, events: seq<Event>, t: State)
    requires Winding(s) && Runs(s, events, t)
    ensures NobodyBlocked(t)
  {
    if s.workers != [] {
      RunWinds(s, events, t, 0);
    } else {
      NobodyThere(s, events, t);
    }
  }

  lemma {:induction false} NobodyThere(s: State, events: seq<Event>, t: State)
    requires s.workers == [] && Runs(s, events, t)
    ensures t.workers == []
    decreases |events|
  {
    if events != [] {
      NobodyThere(Step(s, events[0]), events[1..], t);
    }
  }

  /** No run from here leads to a state in which a worker waits. */
  ghost predicate NeverBlockedAfter(s: State) {
    forall events, t :: Runs(s, events, t) ==> NobodyBlocked(t)
  }

  /**
   * `stop` sets `_quit` and notifies without the mutex. Its notification reaches every worker for
   * good exactly if none stands between its test of the wait condition and its wait.
   */
  lemma StopReachesAllExactly(s: State)
    requires s.quit
    ensures NeverBlockedAfter(Step(s, NotifyAll)) <==> NobodyParking(s)
  {
    var s1 := Step(s, NotifyAll);
    if NobodyParking(s) {
      forall events, t | Runs(s1, events, t)
        ensures NobodyBlocked(t)
      {
        NobodyWaitsAgain(s1, events, t);
      }
    } else {
      var events, t := ParkingIsMissed(s);
      assert Runs(s1, events, t) && !NobodyBlocked(t);
    }
  }

  lemma ParkingIsMissed(s: State) returns (events: seq<Event>, t: State)
    requires s.quit && !NobodyParking(s)
    ensures Runs(Step(s, NotifyAll), events, t) && !NobodyBlocked(t)
  {
    var w :| 0 <= w < |s.workers| && s.workers[w].Parking?;
    var s1 := Step(s, NotifyAll);
    assert s1.workers[w].Parking?;
    events, t := [Turn(w)], Step(s1, Turn(w));
    assert events[1..] == [] && Runs(t, [], t);
    assert t.workers[w].Blocked?;
  }

  /**
   * If the notification finds no worker about to wait, each worker is done after at most three turns
   * of its own, a number fixed by where it stood; and until all are done, some worker can take one.
   */
  lemma StopEndsEveryWorker(numThreads: nat, before: seq<Event>, s: State, events: seq<Event>, t: State)
    requires Runs(Init(numThreads), before, s) && s.quit && NobodyParking(s)
    requires Runs(Step(s, NotifyAll), events, t)
    ensures |s.workers| == |t.workers| == numThreads
    ensures forall w :: 0 <= w < numThreads ==>
              var needed := TurnsToStop(Step(s, NotifyAll).workers[w]);
              && multiset(events)[Turn(w)] <= needed <= 3
              && (t.workers[w].Done? <==> multiset(events)[Turn(w)] == needed)
    ensures (forall w :: 0 <= w < numThreads ==> t.workers[w].Done?)
            || (exists w :: 0 <= w < numThreads && Enabled(t, Turn(w)))
  {
    var s1 := Step(s, NotifyAll);
    InitInv(numThreads);
    RunInv(Init(numThreads), before, s);
    StepInv(s, NotifyAll);
    RunInv(s1, events, t);
    assert Winding(s1);
    forall w | 0 <= w < numThreads
      ensures var needed := TurnsToStop(s1.workers[w]);
              && multiset(events)[Turn(w)] <= needed <= 3
              && (t.workers[w].Done? <==> multiset(events)[Turn(w)] == needed)
      ensures !t.workers[w].Blocked?
    {
      RunWinds(s1, events, t, w);
    }
    SomeoneCanGoOn(t);
  }

  lemma SomeoneCanGoOn(s: State)
    requires Exclusion(s) && NobodyBlocked(s)
    ensures (forall w :: 0 <= w < |s.workers| ==> s.workers[w].Done?)
            || (exists w :: 0 <= w < |s.workers| && Enabled(s, Turn(w)))
  {
    if s.owner.Some? {
      assert Enabled(s, Turn(s.owner.value));
    } else if w :| 0 <= w < |s.workers| && !s.workers[w].Done? {
      assert Enabled(s, Turn(w));
    }
  }

  /** The exception happens: the notification falls between a worker's test of the condition and its wait. */
  lemma StopCanMissAWorker() returns (events: seq<Event>, s: State)
    ensures Runs(Init(1), events, s) && s.quit && s.workers == [Blocked] && s.adding == []
    ensures |events| >= 2 && events[|events| - 2..] == [NotifyAll, Turn(0)]
  {
    var s0 := Init(1);
    var s1 := Step(s0, Turn(0));
    var s2 := Step(s1, Turn(0));
    var s3 := Step(s2, Turn(0));
    var s4 := Step(s3, SetQuit);
    var s5 := Step(s4, NotifyAll);
    s := Step(s5, Turn(0));
    events := [Turn(0), Turn(0), Turn(0), SetQuit, NotifyAll, Turn(0)];
    assert s3.workers == [Parking] && s5.workers == [Parking] && s.workers == [Blocked];
    assert Runs(s, [], s);
    assert Runs(s5, events[5..], s);
    assert Runs(s4, events[4..], s) by { assert events[4..][1..] == events[5..]; }
    assert Runs(s3, events[3..], s) by { assert events[3..][1..] == events[4..]; }
    assert Runs(s2, events[2..], s) by { assert events[2..][1..] == events[3..]; }
    assert Runs(s1, events[1..], s) by { assert events[1..][1..] == events[2..]; }
  }

  /** A worker missed like that stays so, whatever happens, until it wakes up spuriously or is notified again. */
  lemma {:induction false} MissedWorkerStays(s: State, w: nat, events: seq<Event>, t: State)
    requires s.quit && s.adding == [] && w < |s.workers| && s.workers[w].Blocked?
    requires Runs(s, events, t) && Wake(w) !in events && NotifyAll !in events
    ensures w < |t.workers| && t.workers[w].Blocked?
    decreases |events|
  {
    hide TurnStep;
    if events != [] {
      var e, next := events[0], Step(s, events[0]);
      if e.Turn? {
        TurnKeepsOthers(s, e.worker, w);
      }
      MissedWorkerStays(next, w, events[1..], t);
    }
  }

  lemma TurnKeepsOthers(s: State, w: nat, other: nat)
    requires w < |s.workers| && other < |s.workers| && other != w
    ensures var t := TurnStep(s, w);
            && t.quit == s.quit && t.adding == s.adding
            && |t.workers| == |s.workers| && t.workers[other] == s.workers[other]
  {
  }

  // ----- The object

  /**
   * The queue as its threads change it: each method is the code one thread runs before another may,
   * and does the step of the transition system. Only the flag and the deque are data; the threads'
   * positions, the mutex and the records are ghost.
   */
  class Queue {
    var quit: bool
    var callbacks: seq<Callback>
    ghost var owner: Option<nat>
    ghost var workers: seq<Worker>
    ghost var adding: seq<Callback>
    ghost var accepted: seq<Callback>
    ghost var dequeued: seq<Callback>
    ghost var log: seq<LogEntry>

    ghost function Now(): State
      reads this
    {
      State(quit, owner, workers, adding, callbacks, accepted, dequeued, log)
    }

    constructor (numThreads: nat)
      ensures Now() == Init(numThreads)
    {
      quit, callbacks := false, [];
      owner, workers, adding := None, seq(numThreads, _ => AtTop), [];
      accepted, dequeued, log := [], [], [];
    }

    /** The test at the head of addCallback. */
    method StartAdding(cb: Callback) returns (goesOn: bool)
      modifies `adding
      ensures Now() == Step(old(Now()), Add(cb)) && goesOn == !quit
    {
      goesOn := !quit;
      if goesOn {
        adding := adding + [cb];
      }
    }

    /** The rest of addCallback, under the mutex; the notification wakes a waiting worker, if there is one. */
    method PushBack(cb: Callback, ghost call: nat, ghost woken: Option<nat>)
      requires Enabled(Now(), Push(call, woken)) && adding[call] == cb
      modifies this
      ensures Now() == Step(old(Now()), Push(call, woken))
    {
      callbacks := callbacks + [cb];
      accepted := accepted + [cb];
      adding := adding[..call] + adding[call + 1..];
      if woken.Some? {
        workers := workers[woken.value := Locking];
      }
    }

    /** The loop condition of doWork. */
    method TestTop(ghost w: nat) returns (goesOn: bool)
      requires Enabled(Now(), Turn(w)) && workers[w].AtTop?
      modifies `workers
      ensures Now() == Step(old(Now()), Turn(w)) && goesOn == workers[w].Locking?
    {
      goesOn := !quit;
      workers := workers[w := if goesOn then Locking else Done];
    }

    /** The wait condition, evaluated under the mutex. */
    method TestWait(ghost w: nat) returns (ready: bool)
      requires Enabled(Now(), Turn(w)) && workers[w].Testing?
      modifies `workers
      ensures Now() == Step(old(Now()), Turn(w)) && ready == workers[w].Leaving?
    {
      ready := quit || callbacks != [];
      workers := workers[w := if ready then Leaving else Parking];
    }

    /** What a worker does once its wait has returned: it stops, or takes the front callback to run it. */
    method Take(ghost w: nat) returns (cb: Option<Callback>, stops: bool)
      requires Enabled(Now(), Turn(w)) && workers[w].Leaving?
      modifies this
      ensures Now() == Step(old(Now()), Turn(w))
      ensures stops == workers[w].Done? && cb == if workers[w].Running? then Some(workers[w].cb) else None
    {
      owner := None;
      cb, stops := None, quit;
      if quit {
        workers := workers[w := Done];
      } else if callbacks != [] {
        cb := Some(callbacks[0]);
        dequeued, log := dequeued + [callbacks[0]], log + [Start(w, callbacks[0])];
        workers := workers[w := Running(callbacks[0])];
        callbacks := callbacks[1..];
      } else {
        workers := workers[w := AtTop];
      }
    }

    /** stop sets the flag, without the mutex. */
    method SetQuit()
      modifies `quit
      ensures Now() == Step(old(Now()), Event.SetQuit)
    {
      quit := true;
    }

    /** And then wakes whoever waits, still without it. */
    method NotifyAll()
      requires quit
      modifies `workers
      ensures Now() == Step(old(Now()), Event.NotifyAll)
    {
      workers := AllWoken(workers);
    }
  }
}
