/** src/event_loop.cc and the start/quit handshake of src/event_loop_thread.cc: one loop thread and
    any number of foreign threads that push tasks, quit and wake the loop. Every shared access is
    an event of its own, so a run is an arbitrary interleaving. */
module EventLoops {

  type Task = nat
  type Tid = nat

  /** Where the loop thread is. `Ready` is published but not yet in loop(); `Polling` is inside
      poll; `Marked` is between setting `doingFuncQueue_` and the swap. */
  datatype Pc = Created | Ready | Head | Polling | Dispatching | Marked | Running | Exited | Gone

  datatype State = State(
    pc: Pc,
    quit: bool,
    doing: bool,           // doingFuncQueue_
    counter: nat,          // the eventfd
    woken: bool,           // poll reported the eventfd and it has not been read yet
    owes: bool,            // the loop thread has pushed and not yet tested whether to wake itself
    inTask: bool,          // a task of the batch is executing
    early: bool,           // the loop thread pushed before loop(), and nothing was swapped since
    waking: set<Tid>,      // foreign threads between their push or quit and their write
    queue: seq<Task>,      // funcQueue_
    batch: seq<Task>,      // the swapped tasks not yet run
    pushed: seq<Task>,     // every task ever pushed, in order
    executed: seq<Task>)   // every task ever run, in order

  datatype Event =
    // the loop thread
    | Publish | Enter | TestQuit | PollReturns | ReadWake | EndDispatch | Swap | RunNext | EndBatch
    | Unpublish
    | LocalPush(task: Task) | LocalSettle | LocalQuit
    // any other thread
    | Push(tid: Tid, task: Task) | Quit(tid: Tid) | Wake(tid: Tid)

  const INIT := State(Created, false, false, 0, false, false, false, false, {}, [], [], [], [])

  /** The loop thread runs user code: before loop(), in a channel callback or in a task. */
  predicate InUserCode(s: State) {
    s.pc in {Created, Ready, Dispatching} || (s.pc == Running && s.inTask)
  }

  /** Other threads hold the loop's address from its publication to its end. */
  predicate Shared(s: State) {
    s.pc !in {Created, Gone}
  }

  predicate Enabled(s: State, e: Event) {
    match e
    case Publish => s.pc == Created && !s.owes
    case Enter => s.pc == Ready && !s.owes
    case TestQuit => s.pc == Head
    case PollReturns => s.pc == Polling
    case ReadWake => s.pc == Dispatching && s.woken && !s.owes
    case EndDispatch => s.pc == Dispatching && !s.woken && !s.owes
    case Swap => s.pc == Marked
    case RunNext => s.pc == Running && !s.owes && s.batch != []
    case EndBatch => s.pc == Running && !s.owes && s.batch == []
    case Unpublish => s.pc == Exited
    case LocalPush(_) => InUserCode(s) && !s.owes
    case LocalSettle => s.owes
    case LocalQuit => InUserCode(s) && !s.owes
    case Push(tid, _) => Shared(s) && tid !in s.waking
    case Quit(tid) => Shared(s) && tid !in s.waking
    case Wake(tid) => Shared(s) && tid in s.waking
  }

  function Step(s: State, e: Event): State
    requires Enabled(s, e)
  {
    match e
    case Publish => s.(pc := Ready)
    case Enter => s.(pc := Head, quit := false)
    case TestQuit => s.(pc := if s.quit then Exited else Polling)
    case PollReturns => s.(pc := Dispatching, woken := s.counter > 0)
    case ReadWake => s.(counter := 0, woken := false)
    case EndDispatch => s.(pc := Marked, doing := true)
    case Swap => s.(pc := Running, batch := s.queue, queue := [], inTask := false, early := false)
    case RunNext => s.(executed := s.executed + [s.batch[0]], batch := s.batch[1..], inTask := true)
    case EndBatch => s.(pc := Head, doing := false, inTask := false)
    case Unpublish => s.(pc := Gone)
    case LocalPush(task) =>
      s.(queue := s.queue + [task], pushed := s.pushed + [task], owes := true,
         early := s.early || s.pc in {Created, Ready})
    case LocalSettle => s.(owes := false, counter := if s.doing then s.counter + 1 else s.counter)
    case LocalQuit => s.(quit := true)
    case Push(tid, task) =>
      s.(queue := s.queue + [task], pushed := s.pushed + [task], waking := s.waking + {tid})
    case Quit(tid) => s.(quit := true, waking := s.waking + {tid})
    case Wake(tid) => s.(counter := s.counter + 1, waking := s.waking - {tid})
  }

  ghost predicate Legal(s: State, es: seq<Event>)
    decreases es
  {
    es == [] || (Enabled(s, es[0]) && Legal(Step(s, es[0]), es[1..]))
  }

  ghost function Run(s: State, es: seq<Event>): State
    requires Legal(s, es)
    decreases es
  {
    if es == [] then s else Run(Step(s, es[0]), es[1..])
  }

  lemma {:induction false} RunAppend(s: State, es: seq<Event>, fs: seq<Event>)
    requires Legal(s, es + fs) || (Legal(s, es) && Legal(Run(s, es), fs))
    ensures Legal(s, es + fs) && Legal(s, es) && Legal(Run(s, es), fs)
    ensures Run(s, es + fs) == Run(Run(s, es), fs)
    decreases es
  {
    if es == [] {
      assert es + fs == fs;
    } else {
      assert (es + fs)[0] == es[0] && (es + fs)[1..] == es[1..] + fs;
      RunAppend(Step(s, es[0]), es[1..], fs);
    }
  }

  lemma RunOne(s: State, e: Event)
    requires Enabled(s, e)
    ensures Legal(s, [e]) && Run(s, [e]) == Step(s, e)
  {
  }

  lemma RunCons(s: State, e: Event, es: seq<Event>)
    requires Enabled(s, e) && Legal(Step(s, e), es)
    ensures Legal(s, [e] + es) && Run(s, [e] + es) == Run(Step(s, e), es)
  {
  }

  lemma Extend(s: State, trace: seq<Event>, e: Event) returns (longer: seq<Event>)
    requires Legal(s, trace) && Enabled(Run(s, trace), e)
    ensures longer == trace + [e] && Legal(s, longer)
    ensures Run(s, longer) == Step(Run(s, trace), e)
  {
    longer := trace + [e];
    RunOne(Run(s, trace), e);
    RunAppend(s, trace, [e]);
  }

  /** A run of five events, one at a time. */
  lemma FiveSteps(s: State, a: Event, b: Event, c: Event, d: Event, e: Event)
    requires Enabled(s, a) && Enabled(Step(s, a), b) && Enabled(Step(Step(s, a), b), c)
    requires var u := Step(Step(Step(s, a), b), c); Enabled(u, d) && Enabled(Step(u, d), e)
    ensures Legal(s, [a, b, c, d, e])
    ensures Run(s, [a, b, c, d, e]) == Step(Step(Step(Step(Step(s, a), b), c), d), e)
  {
    var trace := Extend(s, [], a);
    trace := Extend(s, trace, b);
    trace := Extend(s, trace, c);
    trace := Extend(s, trace, d);
    trace := Extend(s, trace, e);
    assert trace == [a, b, c, d, e];
  }

  // The invariant of every interleaving

  /** Something will make poll return: the eventfd is readable, or a thread has yet to write it. */
  predicate WakeupComing(s: State) {
    s.counter > 0 || s.waking != {}
  }

  /** Every pushed task is run, in the batch or queued, in this order. */
  ghost predicate Accounted(s: State) {
    s.pushed == s.executed + s.batch + s.queue && (s.batch != [] ==> s.pc == Running)
  }

  /** Waiting tasks and a set flag do not leave the loop asleep. */
  predicate Wakeful(s: State) {
    && (s.doing <==> s.pc in {Marked, Running})
    && (s.woken ==> s.pc == Dispatching)
    && (s.owes ==> InUserCode(s) && (s.pc in {Created, Ready} ==> s.early))
    && (s.pc !in {Dispatching, Marked} && s.queue != [] ==> WakeupComing(s) || s.owes || s.early)
    && (s.pc == Polling && s.quit ==> WakeupComing(s))
    && (s.pc in {Exited, Gone} ==> s.quit)
  }

  ghost predicate Inv(s: State) {
    Accounted(s) && Wakeful(s)
  }

  lemma StepAccounted(s: State, e: Event)
    requires Accounted(s) && Enabled(s, e)
    ensures Accounted(Step(s, e))
  {
  }

  lemma StepWakeful(s: State, e: Event)
    requires Wakeful(s) && Enabled(s, e)
    ensures Wakeful(Step(s, e))
  {
  }

  lemma StepInv(s: State, e: Event)
    requires Inv(s) && Enabled(s, e)
    ensures Inv(Step(s, e))
  {
    StepAccounted(s, e);
    StepWakeful(s, e);
  }

  lemma {:induction false} RunInv(s: State, es: seq<Event>)
    requires Inv(s) && Legal(s, es)
    ensures Inv(Run(s, es))
    decreases es
  {
    if es != [] {
      StepInv(s, es[0]);
      RunInv(Step(s, es[0]), es[1..]);
    }
  }

  // No lost wakeup

  /** Tasks wait, and nothing but another descriptor or the timeout will end this poll. */
  predicate Stuck(s: State) {
    s.pc == Polling && s.queue != [] && !WakeupComing(s)
  }

  predicate PushesBeforeLoop(es: seq<Event>) {
    es != [] && !es[0].Enter? && (es[0].LocalPush? || PushesBeforeLoop(es[1..]))
  }

  lemma EarlyStep(s: State, e: Event)
    requires Enabled(s, e)
    ensures Step(s, e).early ==> s.early || (e.LocalPush? && s.pc in {Created, Ready})
    ensures s.pc in {Created, Ready} && !e.Enter? ==> Step(s, e).pc in {Created, Ready}
    ensures s.pc !in {Created, Ready} ==> Step(s, e).pc !in {Created, Ready}
    ensures e.Enter? ==> s.pc == Ready && Step(s, e).pc == Head
  {
  }

  lemma {:induction false} EarlyMeansPushedBeforeLoop(s: State, es: seq<Event>)
    requires Legal(s, es) && !s.early
    requires s.pc in {Created, Ready} ==> !PushesBeforeLoop(es)
    ensures !Run(s, es).early
    decreases es
  {
    if es != [] {
      EarlyStep(s, es[0]);
      EarlyMeansPushedBeforeLoop(Step(s, es[0]), es[1..]);
    }
  }

  /** In every interleaving in which the loop thread itself pushed nothing before loop(), a loop in
      poll with tasks waiting has its eventfd readable or some thread about to write it. */
  lemma NoLostWakeup(es: seq<Event>)
    requires Legal(INIT, es) && !PushesBeforeLoop(es)
    ensures !Stuck(Run(INIT, es))
  {
    RunInv(INIT, es);
    EarlyMeansPushedBeforeLoop(INIT, es);
  }

  predicate FromOutside(e: Event) { e.Push? || e.Quit? }

  predicate IsPollReturn(e: Event) { e.PollReturns? }

  predicate IsLocalPush(e: Event) { e.LocalPush? }

  ghost predicate Has(es: seq<Event>, p: Event -> bool) {
    exists e :: e in es && p(e)
  }

  /** What a run so far says about its first poll: whether that has returned, whether a foreign
      thread has pushed or quit, and whether the loop thread has pushed. */
  ghost predicate FirstPoll(s: State, returned: bool, outside: bool, pushed: bool) {
    if returned
    then s.pc !in {Created, Ready} && (s.early ==> s.pc in {Dispatching, Marked})
    else s.pc !in {Dispatching, Marked, Running} && !s.doing
         && (WakeupComing(s) <==> outside)
         && (!outside ==> (s.queue != [] <==> pushed))
  }

  lemma StepFirstPoll(s: State, e: Event, returned: bool, outside: bool, pushed: bool)
    requires Enabled(s, e) && FirstPoll(s, returned, outside, pushed)
    ensures FirstPoll(Step(s, e), returned || e.PollReturns?, outside || FromOutside(e), pushed || e.LocalPush?)
  {
  }

  lemma HasFirst(es: seq<Event>, p: Event -> bool)
    requires es != []
    ensures Has(es, p) <==> p(es[0]) || Has(es[1..], p)
  {
    if Has(es[1..], p) {
      var e :| e in es[1..] && p(e);
      assert e in es;
    }
    if p(es[0]) {
      assert es[0] in es;
    }
  }

  lemma {:induction false} RunFirstPoll(s: State, es: seq<Event>, returned: bool, outside: bool, pushed: bool)
    requires Legal(s, es) && FirstPoll(s, returned, outside, pushed)
    ensures FirstPoll(Run(s, es), returned || Has(es, IsPollReturn),
                      outside || Has(es, FromOutside), pushed || Has(es, IsLocalPush))
    decreases es
  {
    if es != [] {
      var e := es[0];
      StepFirstPoll(s, e, returned, outside, pushed);
      HasFirst(es, IsPollReturn);
      HasFirst(es, FromOutside);
      HasFirst(es, IsLocalPush);
      RunFirstPoll(Step(s, e), es[1..], returned || e.PollReturns?, outside || FromOutside(e),
                   pushed || e.LocalPush?);
    }
  }

  /** The proviso is exact, for every run: the loop is stuck if and only if it is in its very first
      poll, the loop thread has pushed, and no other thread has pushed or quit. */
  lemma EarlyPushGetsStuck(es: seq<Event>)
    requires Legal(INIT, es)
    ensures Stuck(Run(INIT, es)) <==>
            Run(INIT, es).pc == Polling && Has(es, IsLocalPush)
            && !Has(es, IsPollReturn) && !Has(es, FromOutside)
  {
    RunInv(INIT, es);
    RunFirstPoll(INIT, es, false, false, false);
  }

  /** The shortest such run. */
  lemma EarlyPushExample()
    ensures var es := [LocalPush(7), LocalSettle, Publish, Enter, TestQuit];
            Legal(INIT, es) && Stuck(Run(INIT, es))
  {
    FiveSteps(INIT, LocalPush(7), LocalSettle, Publish, Enter, TestQuit);
  }

  // The wakeup descriptor

  function Number(es: seq<Event>, p: Event -> bool): nat {
    if es == [] then 0 else (if p(es[0]) then 1 else 0) + Number(es[1..], p)
  }

  /** What a run writes to the wakeup descriptor: wakeup() of another thread, or of the loop thread when
      it pushes while a batch runs. */
  ghost function Writes(s: State, es: seq<Event>): nat
    requires Legal(s, es)
    decreases es
  {
    if es == [] then 0
    else (if es[0].Wake? || (es[0].LocalSettle? && s.doing) then 1 else 0) + Writes(Step(s, es[0]), es[1..])
  }

  lemma CounterStep(s: State, e: Event)
    requires Enabled(s, e)
    ensures Step(s, e).counter
         == if e.ReadWake? then 0 else s.counter + if e.Wake? || (e.LocalSettle? && s.doing) then 1 else 0
  {
  }

  lemma {:induction false} CounterGrows(s: State, es: seq<Event>)
    requires Legal(s, es) && ReadWake !in es
    ensures Run(s, es).counter == s.counter + Writes(s, es)
    decreases es
  {
    if es != [] {
      assert es[0] in es;
      CounterStep(s, es[0]);
      CounterGrows(Step(s, es[0]), es[1..]);
    }
  }

  /** Reading the descriptor drains it: its counter is exactly the number of writes since the last read,
      or since the start if it was never read. */
  lemma CounterExact(es: seq<Event>, fs: seq<Event>)
    requires Legal(INIT, es) && Legal(Run(INIT, es), fs) && ReadWake !in fs
    requires es == [] || es[|es| - 1] == ReadWake
    ensures Legal(INIT, es + fs) && Run(INIT, es + fs).counter == Writes(Run(INIT, es), fs)
  {
    RunAppend(INIT, es, fs);
    if es != [] {
      var last := |es| - 1;
      assert es == es[..last] + [ReadWake];
      RunAppend(INIT, es[..last], [ReadWake]);
      RunOne(Run(INIT, es[..last]), ReadWake);
      CounterStep(Run(INIT, es[..last]), ReadWake);
    }
    CounterGrows(Run(INIT, es), fs);
  }

  predicate IsReadWake(e: Event) { e.ReadWake? }

  lemma {:induction false} DispatchReads(s: State, es: seq<Event>)
    requires s.pc == Dispatching && Legal(s, es) && EndDispatch !in es
    ensures var t := Run(s, es);
            t.pc == Dispatching && Number(es, IsReadWake) + (if t.woken then 1 else 0) == if s.woken then 1 else 0
    decreases es
  {
    if es != [] {
      assert es[0] in es;
      DispatchReads(Step(s, es[0]), es[1..]);
    }
  }

  /** And it is read in time: between the return of poll and the end of the dispatch it is read once if
      poll found it readable, and otherwise not at all, so that no wakeup ends more than one poll. */
  lemma DispatchDrains(s: State, es: seq<Event>)
    requires Legal(s, [PollReturns] + es + [EndDispatch]) && EndDispatch !in es
    ensures Number(es, IsReadWake) == if s.counter > 0 then 1 else 0
  {
    RunAppend(s, [PollReturns] + es, [EndDispatch]);
    RunAppend(s, [PollReturns], es);
    RunOne(s, PollReturns);
    DispatchReads(Step(s, PollReturns), es);
  }

  // Exactly once, in order, one snapshot at a time

  function TaskOf(e: Event): seq<Task> {
    match e
    case LocalPush(task) => [task]
    case Push(_, task) => [task]
    case _ => []
  }

  /** The tasks that the pushes of a run bring, whoever makes them. */
  function Tasks(es: seq<Event>): seq<Task> {
    if es == [] then [] else TaskOf(es[0]) + Tasks(es[1..])
  }

  lemma PushedStep(s: State, e: Event)
    requires Enabled(s, e)
    ensures Step(s, e).pushed == s.pushed + TaskOf(e)
  {
    if TaskOf(e) == [] {
      assert Step(s, e).pushed == s.pushed;
    } else {
      assert Step(s, e).pushed == s.pushed + [e.task];
    }
  }

  lemma {:induction false} PushedExactly(s: State, es: seq<Event>)
    requires Legal(s, es)
    ensures Run(s, es).pushed == s.pushed + Tasks(es)
    decreases es
  {
    if es != [] {
      PushedStep(s, es[0]);
      PushedExactly(Step(s, es[0]), es[1..]);
    }
  }

  /** At every moment the tasks run so far, the rest of the batch and the queue are together all tasks
      that have been pushed, in push order: nothing is lost, duplicated or reordered. */
  lemma ExactlyOnceInOrder(es: seq<Event>)
    requires Legal(INIT, es)
    ensures var s := Run(INIT, es);
            s.executed + s.batch + s.queue == Tasks(es) == s.pushed
            && (s.pc != Running ==> s.batch == [])
  {
    RunInv(INIT, es);
    PushedExactly(INIT, es);
  }

  lemma StepConsumes(s: State, e: Event)
    requires Inv(s) && Enabled(s, e)
    ensures s.pushed <= Step(s, e).pushed
    ensures s.executed + s.batch <= Step(s, e).executed + Step(s, e).batch
    ensures s.pc == Running && e != EndBatch ==>
              Step(s, e).pc == Running && Step(s, e).executed + Step(s, e).batch == s.executed + s.batch
  {
    if e == RunNext {
      assert s.batch == [s.batch[0]] + s.batch[1..];
      assert Step(s, e).executed + Step(s, e).batch == s.executed + s.batch;
    }
  }

  /** While a batch runs, whatever is pushed by its own tasks or by other threads, the batch is
      only consumed. */
  lemma {:induction false} BatchOnlyShrinks(s: State, es: seq<Event>)
    requires Inv(s) && s.pc == Running && Legal(s, es) && EndBatch !in es
    ensures var t := Run(s, es);
            t.pc == Running && t.executed + t.batch == s.executed + s.batch
    decreases es
  {
    if es != [] {
      assert es[0] in es;
      StepInv(s, es[0]);
      StepConsumes(s, es[0]);
      BatchOnlyShrinks(Step(s, es[0]), es[1..]);
    }
  }

  /** One doFuncQueue runs exactly the queue as it was at its swap. */
  lemma BatchIsSnapshot(s: State, es: seq<Event>)
    requires Inv(s) && s.pc == Marked
    requires Legal(s, [Swap] + es + [EndBatch]) && EndBatch !in es
    ensures Run(s, [Swap] + es + [EndBatch]).executed == s.executed + s.queue
  {
    RunAppend(s, [Swap] + es, [EndBatch]);
    RunAppend(s, [Swap], es);
    RunOne(s, Swap);
    StepInv(s, Swap);
    BatchOnlyShrinks(Step(s, Swap), es);
    RunOne(Run(s, [Swap] + es), EndBatch);
  }

  lemma {:induction false} ProgressIsMonotone(s: State, es: seq<Event>)
    requires Inv(s) && Legal(s, es)
    ensures s.pushed <= Run(s, es).pushed
    ensures s.executed + s.batch <= Run(s, es).executed + Run(s, es).batch
    decreases es
  {
    if es != [] {
      StepInv(s, es[0]);
      StepConsumes(s, es[0]);
      ProgressIsMonotone(Step(s, es[0]), es[1..]);
    }
  }

  /** Every task pushed by some moment has run once the next batch swapped after it is finished. */
  lemma RunByNextBatch(s: State, es: seq<Event>, fs: seq<Event>)
    requires Inv(s) && Legal(s, es + [Swap] + fs + [EndBatch])
    ensures s.pushed <= Run(s, es + [Swap] + fs + [EndBatch]).executed
  {
    RunAppend(s, es + [Swap] + fs, [EndBatch]);
    RunAppend(s, es + [Swap], fs);
    RunAppend(s, es, [Swap]);
    RunInv(s, es);
    ProgressIsMonotone(s, es);
    var t := Run(s, es);
    RunOne(t, Swap);
    StepInv(t, Swap);
    assert Step(t, Swap).executed + Step(t, Swap).batch == t.pushed;
    ProgressIsMonotone(Step(t, Swap), fs);
    var u := Run(s, es + [Swap] + fs);
    RunOne(u, EndBatch);
    assert u.executed + u.batch == u.executed;
  }

  // Quit

  /** Control steps of the loop thread still to come before it tests `quit_`. */
  function Distance(pc: Pc): nat {
    match pc
    case Polling => 5 case Dispatching => 4 case Marked => 3 case Running => 2 case Head => 1
    case _ => 0
  }

  predicate IsControl(e: Event) {
    e.TestQuit? || e.PollReturns? || e.EndDispatch? || e.Swap? || e.EndBatch?
  }

  predicate Entered(s: State) { s.pc !in {Created, Ready} }

  lemma QuitStep(s: State, e: Event)
    requires Inv(s) && Entered(s) && s.quit && Enabled(s, e)
    ensures var t := Step(s, e);
            t.quit && Entered(t)
            && Distance(t.pc) + (if IsControl(e) then 1 else 0) == Distance(s.pc)
            && (e.PollReturns? ==> s.pc == Polling && t.pc != Polling)
            && (s.pc != Polling ==> t.pc != Polling)
  {
  }

  /** Once `quit_` is set inside loop() it stays set: every control step brings the exit nearer,
      no other step moves the loop away from it, and poll returns at most once more. */
  lemma {:induction false} QuitEnds(s: State, es: seq<Event>)
    requires Inv(s) && Entered(s) && s.quit && Legal(s, es)
    ensures var t := Run(s, es);
            t.quit && Entered(t) && Inv(t)
            && Number(es, IsControl) + Distance(t.pc) == Distance(s.pc)
            && Number(es, IsPollReturn) <= (if s.pc == Polling then 1 else 0)
    ensures Distance(Run(s, es).pc) == 0 <==> Run(s, es).pc in {Exited, Gone}
    decreases es
  {
    if es != [] {
      StepInv(s, es[0]);
      QuitStep(s, es[0]);
      QuitEnds(Step(s, es[0]), es[1..]);
    }
  }

  /** A step of the loop thread that carries the loop on from where it is. */
  function NextStep(s: State): Event
    requires Entered(s) && s.pc !in {Exited, Gone}
  {
    if s.owes then LocalSettle else
    match s.pc
    case Head => TestQuit
    case Polling => PollReturns
    case Dispatching => if s.woken then ReadWake else EndDispatch
    case Marked => Swap
    case _ => if s.batch != [] then RunNext else EndBatch
  }

  /** With `quit_` set the loop is never blocked: it always has a next step, and if that step is to
      leave poll then the eventfd is readable or will be written. */
  lemma QuitNeverBlocks(s: State)
    requires Inv(s) && Entered(s) && s.quit && s.pc !in {Exited, Gone}
    ensures Enabled(s, NextStep(s))
    ensures s.pc == Polling ==> WakeupComing(s)
  {
  }

  /** The steps of the loop itself, as opposed to those of user code and of other threads. */
  predicate IsOwn(e: Event) { IsControl(e) || e.ReadWake? || e.RunNext? || e.LocalSettle? }

  predicate IsPush(e: Event) { e.Push? || e.LocalPush? }

  /** A bound on the loop's own steps before it has exited, if nothing more is pushed. */
  function Remaining(s: State): nat {
    2 * Distance(s.pc) + |s.batch| + (if Distance(s.pc) >= 3 then |s.queue| else 0)
    + (if s.woken then 1 else 0) + (if s.owes then 1 else 0)
  }

  lemma RemainingStep(s: State, e: Event)
    requires Inv(s) && Entered(s) && s.quit && Enabled(s, e)
    ensures Remaining(Step(s, e)) + (if IsOwn(e) then 1 else 0)
         <= Remaining(s) + (if IsPush(e) then 2 else 0)
  {
  }

  lemma {:induction false} RemainingRun(s: State, es: seq<Event>)
    requires Inv(s) && Entered(s) && s.quit && Legal(s, es)
    ensures Number(es, IsOwn) + Remaining(Run(s, es)) <= Remaining(s) + 2 * Number(es, IsPush)
    decreases es
  {
    if es != [] {
      StepInv(s, es[0]);
      QuitStep(s, es[0]);
      RemainingStep(s, es[0]);
      RemainingRun(Step(s, es[0]), es[1..]);
    }
  }

  /** A quit inside loop() ends it, in every interleaving: the loop has exited as soon as it has made
      as many own steps as the bound plus two for each task pushed meanwhile, and by then poll has
      returned at most once. */
  lemma QuitForcesExit(s: State, es: seq<Event>)
    requires Inv(s) && Entered(s) && s.quit && Legal(s, es)
    ensures Number(es, IsPollReturn) <= 1
    ensures Number(es, IsOwn) >= Remaining(s) + 2 * Number(es, IsPush) ==> Run(s, es).pc in {Exited, Gone}
  {
    QuitEnds(s, es);
    RemainingRun(s, es);
  }

  /** And it gets there on its own: there is always a run of the loop's own steps to the exit, with at
      most one return of poll. */
  lemma {:induction false} QuitExits(s: State) returns (es: seq<Event>)
    requires Inv(s) && Entered(s) && s.quit
    ensures Legal(s, es) && Run(s, es).pc == if s.pc == Gone then Gone else Exited
    ensures Number(es, IsPollReturn) <= 1 && forall e :: e in es ==> IsOwn(e)
    decreases Remaining(s)
  {
    if s.pc in {Exited, Gone} {
      es := [];
    } else {
      var e := NextStep(s);
      QuitNeverBlocks(s);
      StepInv(s, e);
      QuitStep(s, e);
      RemainingStep(s, e);
      var rest := QuitExits(Step(s, e));
      RunCons(s, e, rest);
      es := [e] + rest;
      QuitEnds(s, es);
    }
  }

  predicate IsQuit(e: Event) { e.Quit? || e.LocalQuit? }

  lemma QuitFlagStep(s: State, e: Event)
    requires Entered(s) && Enabled(s, e)
    ensures Entered(Step(s, e)) && (Step(s, e).quit <==> s.quit || IsQuit(e))
  {
  }

  /** Inside loop() the flag is set exactly if it was or some thread has quit since. */
  lemma {:induction false} QuitFlagIff(s: State, es: seq<Event>)
    requires Entered(s) && Legal(s, es)
    ensures Entered(Run(s, es)) && (Run(s, es).quit <==> s.quit || Has(es, IsQuit))
    decreases es
  {
    if es != [] {
      QuitFlagStep(s, es[0]);
      HasFirst(es, IsQuit);
      QuitFlagIff(Step(s, es[0]), es[1..]);
    }
  }

  /** The loop can exit without a further quit. */
  ghost predicate CanExit(s: State) {
    exists es :: ExitsBy(s, es)
  }

  ghost predicate ExitsBy(s: State, es: seq<Event>) {
    Legal(s, es) && !Has(es, IsQuit) && Run(s, es).pc in {Exited, Gone}
  }

  /** Inside loop() the flag decides. */
  lemma CanExitIff(s: State)
    requires Inv(s) && Entered(s)
    ensures CanExit(s) <==> s.quit
  {
    if s.quit {
      var es := QuitExits(s);
      assert ExitsBy(s, es);
    }
    if es :| ExitsBy(s, es) {
      QuitFlagIff(s, es);
      RunInv(s, es);
    }
  }

  /** A quit counts if and only if it comes after loop() has cleared `quit_`: however often the owner
      quit before, a loop that is told nothing afterwards can never exit, and the join of the
      thread's destructor waits for ever. */
  lemma EarlyQuitIsLost(es: seq<Event>, fs: seq<Event>)
    requires Legal(INIT, es + [Enter] + fs)
    ensures CanExit(Run(INIT, es + [Enter] + fs)) <==> Has(fs, IsQuit)
  {
    RunAppend(INIT, es + [Enter], fs);
    RunAppend(INIT, es, [Enter]);
    var s := Run(INIT, es);
    RunOne(s, Enter);
    RunInv(INIT, es + [Enter] + fs);
    QuitFlagIff(Step(s, Enter), fs);
    CanExitIff(Run(INIT, es + [Enter] + fs));
  }

  /** EventLoopThread::start returns as soon as the loop is published, so its destructor's quit can
      be such an early one: after this run the loop polls with no quit to find. */
  lemma DestructorQuitLost()
    ensures var es := [Publish, Quit(1), Wake(1), Enter, TestQuit];
            Legal(INIT, es) && Run(INIT, es).pc == Polling && !Run(INIT, es).quit
  {
    FiveSteps(INIT, Publish, Quit(1), Wake(1), Enter, TestQuit);
  }

  // Threads left behind

  /** A foreign thread that has pushed or quit and not yet written the eventfd since. */
  ghost predicate OwesWrite(es: seq<Event>, tid: Tid) {
    exists i :: 0 <= i < |es| && Announces(es[i], tid) && Wake(tid) !in es[i + 1..]
  }

  predicate Announces(e: Event, tid: Tid) { (e.Push? || e.Quit?) && e.tid == tid }

  lemma OwesWriteFirst(es: seq<Event>, tid: Tid)
    requires es != []
    ensures OwesWrite(es, tid) <==> (Announces(es[0], tid) && Wake(tid) !in es[1..]) || OwesWrite(es[1..], tid)
  {
    var rest := es[1..];
    if i :| 0 <= i < |rest| && Announces(rest[i], tid) && Wake(tid) !in rest[i + 1..] {
      assert es[i + 1] == rest[i] && es[i + 1 + 1..] == rest[i + 1..];
    }
    if i :| 0 <= i < |es| && Announces(es[i], tid) && Wake(tid) !in es[i + 1..] {
      assert i > 0 ==> es[i] == rest[i - 1] && es[i + 1..] == rest[i - 1 + 1..];
    }
  }

  lemma WakingStep(s: State, e: Event, tid: Tid)
    requires Enabled(s, e)
    ensures tid in Step(s, e).waking <==> (tid in s.waking && e != Wake(tid)) || Announces(e, tid)
  {
    match e
    case Push(x, _) => assert Step(s, e).waking == s.waking + {x};
    case Quit(x) => assert Step(s, e).waking == s.waking + {x};
    case Wake(x) => assert Step(s, e).waking == s.waking - {x};
    case _ => assert Step(s, e).waking == s.waking;
  }

  lemma {:induction false} WakingIff(s: State, es: seq<Event>, tid: Tid)
    requires Legal(s, es)
    ensures tid in Run(s, es).waking <==> (tid in s.waking && Wake(tid) !in es) || OwesWrite(es, tid)
    decreases es
  {
    if es != [] {
      WakingStep(s, es[0], tid);
      OwesWriteFirst(es, tid);
      assert Wake(tid) in es <==> es[0] == Wake(tid) || Wake(tid) in es[1..];
      WakingIff(Step(s, es[0]), es[1..], tid);
    }
  }

  /** The loop object can end, without a further quit, while this thread has yet to write. */
  ghost predicate CanBeLeftBehind(s: State, tid: Tid) {
    exists es :: LeavesBehind(s, es, tid)
  }

  ghost predicate LeavesBehind(s: State, es: seq<Event>, tid: Tid) {
    Legal(s, es) && !Has(es, IsQuit) && Wake(tid) !in es && Run(s, es).pc == Gone && tid in Run(s, es).waking
  }

  /** The loop object ends with its thread, and its wakeup descriptor with it. A thread that has pushed
      or quit and not yet written the descriptor can find it gone if and only if the flag is set. */
  lemma LeftBehindIff(s: State, tid: Tid)
    requires Inv(s) && Entered(s) && s.pc != Gone && tid in s.waking
    ensures CanBeLeftBehind(s, tid) <==> s.quit
  {
    if s.quit {
      var es := QuitExits(s);
      var longer := Extend(s, es, Unpublish);
      WakingIff(s, longer, tid);
      assert LeavesBehind(s, longer, tid);
    }
    if es :| LeavesBehind(s, es, tid) {
      QuitFlagIff(s, es);
      RunInv(s, es);
    }
  }

  /** So every quit of another thread inside loop() can be left behind, and a push exactly if the loop
      had been told to quit. */
  lemma AnnouncerLeftBehindIff(s: State, e: Event, tid: Tid)
    requires Inv(s) && Entered(s) && Enabled(s, e) && Announces(e, tid)
    ensures CanBeLeftBehind(Step(s, e), tid) <==> s.quit || e.Quit?
  {
    StepInv(s, e);
    WakingStep(s, e, tid);
    LeftBehindIff(Step(s, e), tid);
  }

  /** The shortest such run: quit() sets the flag before it writes. */
  lemma QuitterLeftBehind()
    ensures var es := [Publish, Enter, Quit(1), TestQuit, Unpublish];
            Legal(INIT, es) && Run(INIT, es).pc == Gone && 1 in Run(INIT, es).waking
  {
    FiveSteps(INIT, Publish, Enter, Quit(1), TestQuit, Unpublish);
  }

  // The loop object

  /** What user code does to its loop: it pushes tasks and may quit. */
  datatype Action = Action(pushes: seq<Task>, quits: bool)

  /** The tasks that the tasks of a batch push while they run, in order. */
  function PushedBy(tasks: seq<Task>, does: Task -> Action): seq<Task> {
    if tasks == [] then []
    else PushedBy(tasks[..|tasks| - 1], does) + does(tasks[|tasks| - 1]).pushes
  }

  predicate SomeQuits(tasks: seq<Task>, does: Task -> Action) {
    exists i :: 0 <= i < |tasks| && does(tasks[i]).quits
  }

  /** The loop with its fields. The ghost field follows the events each method goes through and
      `Valid` ties the real fields to it, so that what holds of every run holds of every sequence
      of calls. */
  class EventLoop {
    var quitFlag: bool
    var doing: bool
    var counter: nat
    var wakeActive: bool     // the wakeup channel is among the active ones
    var queue: seq<Task>
    ghost var state: State

    ghost predicate Valid()
      reads this
    {
      Inv(state)
      && quitFlag == state.quit && doing == state.doing && counter == state.counter
      && wakeActive == state.woken && queue == state.queue
    }

    constructor ()
      ensures Valid() && state == INIT
    {
      quitFlag, doing, counter, wakeActive, queue := false, false, 0, false, [];
      state := INIT;
    }

    /** The thread makes the loop known to its owner. */
    method PublishLoop()
      requires Valid() && Enabled(state, Publish)
      modifies this`state
      ensures Valid() && state == Step(old(state), Publish)
    {
      StepInv(state, Publish);
      state := Step(state, Publish);
    }

    /** loop() up to its first test of the flag. */
    method EnterLoop()
      requires Valid() && Enabled(state, Enter)
      modifies this
      ensures Valid() && state == Step(old(state), Enter)
    {
      StepInv(state, Enter);
      quitFlag := false;
      state := Step(state, Enter);
    }

    /** The test of the flag at the head of the loop. */
    method TestFlag() returns (goOn: bool)
      requires Valid() && Enabled(state, TestQuit)
      modifies this`state
      ensures Valid() && state == Step(old(state), TestQuit)
      ensures goOn <==> state.pc == Polling
      ensures goOn <==> !quitFlag
    {
      StepInv(state, TestQuit);
      goOn := !quitFlag;
      state := Step(state, TestQuit);
    }

    /** poll returns, with the wakeup channel active exactly if its descriptor is readable. */
    method PollReturn()
      requires Valid() && Enabled(state, PollReturns)
      modifies this
      ensures Valid() && state == Step(old(state), PollReturns)
    {
      StepInv(state, PollReturns);
      wakeActive := counter > 0;
      state := Step(state, PollReturns);
    }

    /** quit() on the loop thread. */
    method QuitHere()
      requires Valid() && Enabled(state, LocalQuit)
      modifies this
      ensures Valid() && state == Step(old(state), LocalQuit)
    {
      StepInv(state, LocalQuit);
      quitFlag := true;
      state := Step(state, LocalQuit);
    }

    /** The thread takes the loop back once it has ended. */
    method UnpublishLoop()
      requires Valid() && Enabled(state, Unpublish)
      modifies this`state
      ensures Valid() && state == Step(old(state), Unpublish)
    {
      StepInv(state, Unpublish);
      state := Step(state, Unpublish);
    }

    /** pushQueue on the loop thread: it wakes itself only while the queue is being run. */
    method PushQueue(task: Task)
      requires Valid() && Enabled(state, LocalPush(task))
      modifies this
      ensures Valid() && state == Step(Step(old(state), LocalPush(task)), LocalSettle)
    {
      StepInv(state, LocalPush(task));
      queue := queue + [task];
      state := Step(state, LocalPush(task));
      StepInv(state, LocalSettle);
      if doing {
        counter := counter + 1;
      }
      state := Step(state, LocalSettle);
    }

    /** pushQueue on another thread, up to the end of its critical section; `WakeFrom` follows. */
    method PushFrom(tid: Tid, task: Task)
      requires Valid() && Enabled(state, Push(tid, task))
      modifies this
      ensures Valid() && state == Step(old(state), Push(tid, task))
    {
      StepInv(state, Push(tid, task));
      queue := queue + [task];
      state := Step(state, Push(tid, task));
    }

    method QuitFrom(tid: Tid)
      requires Valid() && Enabled(state, Quit(tid))
      modifies this
      ensures Valid() && state == Step(old(state), Quit(tid))
    {
      StepInv(state, Quit(tid));
      quitFlag := true;
      state := Step(state, Quit(tid));
    }

    method WakeFrom(tid: Tid)
      requires Valid() && Enabled(state, Wake(tid))
      modifies this
      ensures Valid() && state == Step(old(state), Wake(tid))
    {
      StepInv(state, Wake(tid));
      counter := counter + 1;
      state := Step(state, Wake(tid));
    }

    method HandleWakeup()
      requires Valid() && Enabled(state, ReadWake)
      modifies this
      ensures Valid() && state == Step(old(state), ReadWake)
    {
      StepInv(state, ReadWake);
      counter := 0;
      wakeActive := false;
      state := Step(state, ReadWake);
    }

    /** A callback of the dispatch, or the rest of a task that has started. */
    method Perform(a: Action)
      requires Valid() && Acting(state)
      modifies this
      ensures Valid() && state == AfterAction(old(state), a)
    {
      ghost var s := state;
      var j := 0;
      while j < |a.pushes|
        invariant 0 <= j <= |a.pushes|
        invariant Valid() && state == AfterAction(s, Action(a.pushes[..j], false))
      {
        PushQueue(a.pushes[j]);
        PushOneMore(s, a.pushes, j);
        j := j + 1;
      }
      assert a.pushes[..|a.pushes|] == a.pushes;
      if a.quits {
        QuitHere();
      }
    }

    /** One task of the batch. */
    method RunTask(a: Action)
      requires Valid() && Enabled(state, RunNext)
      modifies this
      ensures Valid() && state == AfterTask(old(state), a)
    {
      StepInv(state, RunNext);
      state := Step(state, RunNext);
      Perform(a);
    }

    /** doFuncQueue up to the end of its critical section: the flag is set before the queue is
        taken. */
    method SwapQueue() returns (functions: seq<Task>)
      requires Valid() && Enabled(state, EndDispatch)
      modifies this
      ensures Valid() && functions == old(queue)
      ensures state == Step(Step(old(state), EndDispatch), Swap)
    {
      StepInv(state, EndDispatch);
      doing := true;
      state := Step(state, EndDispatch);
      StepInv(state, Swap);
      functions := queue;
      queue := [];
      state := Step(state, Swap);
    }

    /** The end of doFuncQueue. */
    method FinishBatch()
      requires Valid() && Enabled(state, EndBatch)
      modifies this
      ensures Valid() && state == Step(old(state), EndBatch)
    {
      StepInv(state, EndBatch);
      doing := false;
      state := Step(state, EndBatch);
    }

    /** doFuncQueue with no other thread in between: `does` gives what each task does. */
    method DoFuncQueue(does: Task -> Action)
      requires Valid() && Enabled(state, EndDispatch)
      modifies this
      ensures Valid() && state == AfterFuncQueue(old(state), does)
      ensures queue == PushedBy(old(queue), does) && (quitFlag <==> old(quitFlag) || SomeQuits(old(queue), does))
    {
      ghost var s := state;
      var functions := SwapQueue();
      var i := 0;
      while i < |functions|
        invariant 0 <= i <= |functions|
        invariant Valid() && state == AfterBatch(s, functions[..i], does).(batch := functions[i..])
      {
        RunTask(does(functions[i]));
        BatchOneMore(s, functions, i, does);
        i := i + 1;
      }
      assert functions[..i] == functions;
      FinishBatch();
    }

    /** One iteration of loop() with no other thread in between, from the return of poll to the next
        test of the flag: the callbacks before and after that of the wakeup channel, and the tasks, do
        what they like. `trace` is the run that it is. */
    method Iterate(before: Action, after: Action, does: Task -> Action) returns (goOn: bool, ghost trace: seq<Event>)
      requires Valid() && Enabled(state, PollReturns)
      modifies this
      ensures Valid() && Legal(old(state), trace) && state == Run(old(state), trace)
      ensures var tasks := old(queue) + before.pushes + after.pushes;
              state.executed == old(state).executed + tasks && queue == PushedBy(tasks, does)
              && (goOn <==> !old(quitFlag) && !before.quits && !after.quits && !SomeQuits(tasks, does))
      ensures state.pc == if goOn then Polling else Exited
    {
      ghost var s := state;
      trace := Dispatch(before, after);
      ghost var steps := FuncQueueIsRun(state, does);
      RunAppend(s, trace, steps);
      DoFuncQueue(does);
      trace := Extend(s, trace + steps, TestQuit);
      goOn := TestFlag();
    }

    /** From the return of poll to the end of the dispatch. */
    method Dispatch(before: Action, after: Action) returns (ghost trace: seq<Event>)
      requires Valid() && Enabled(state, PollReturns)
      modifies this
      ensures Valid() && Legal(old(state), trace) && state == Run(old(state), trace) && Enabled(state, EndDispatch)
      ensures state.executed == old(state.executed) && queue == old(queue) + before.pushes + after.pushes
      ensures quitFlag <==> old(quitFlag) || before.quits || after.quits
    {
      ghost var s := state;
      PollReturn();
      trace := Extend(s, [], PollReturns);
      trace := ThenAction(s, trace, before);
      Perform(before);
      if wakeActive {
        trace := Extend(s, trace, ReadWake);
        HandleWakeup();
      }
      trace := ThenAction(s, trace, after);
      Perform(after);
    }
  }

  /** User code runs inside loop(), and has nothing left to settle. */
  predicate Acting(s: State) {
    !s.owes && (s.pc == Dispatching || (s.pc == Running && s.inTask)) && (s.doing <==> s.pc == Running)
  }

  /** The state when user code has done `a`: its pushes wake the loop only while a batch runs. */
  ghost function AfterAction(s: State, a: Action): State {
    s.(queue := s.queue + a.pushes, pushed := s.pushed + a.pushes, quit := s.quit || a.quits,
       counter := if s.doing then s.counter + |a.pushes| else s.counter)
  }

  /** The state when the next task of the batch has run. */
  ghost function AfterTask(s: State, a: Action): State
    requires Enabled(s, RunNext)
  {
    AfterAction(Step(s, RunNext), a)
  }

  /** The state inside doFuncQueue when the tasks `done` have run. */
  ghost function AfterBatch(s: State, done: seq<Task>, does: Task -> Action): State {
    var more := PushedBy(done, does);
    s.(pc := Running, doing := true, inTask := done != [], early := false,
       quit := s.quit || SomeQuits(done, does),
       executed := s.executed + done, queue := more, pushed := s.pushed + more,
       counter := s.counter + |more|)
  }

  ghost function AfterFuncQueue(s: State, does: Task -> Action): State {
    AfterBatch(s, s.queue, does).(pc := Head, doing := false, inTask := false)
  }

  lemma PushOneMore(s: State, more: seq<Task>, j: nat)
    requires j < |more| && Acting(s)
    ensures var t := AfterAction(s, Action(more[..j], false));
            Enabled(t, LocalPush(more[j]))
            && Step(Step(t, LocalPush(more[j])), LocalSettle) == AfterAction(s, Action(more[..j + 1], false))
  {
    assert more[..j + 1] == more[..j] + [more[j]];
  }

  lemma MoreQuits(tasks: seq<Task>, i: nat, does: Task -> Action)
    requires i < |tasks|
    ensures SomeQuits(tasks[..i + 1], does) <==> SomeQuits(tasks[..i], does) || does(tasks[i]).quits
  {
    var shorter, longer := tasks[..i], tasks[..i + 1];
    assert forall k :: 0 <= k < i ==> shorter[k] == longer[k];
    assert longer[i] == tasks[i];
    if k :| 0 <= k < |shorter| && does(shorter[k]).quits {
      assert does(longer[k]).quits;
    }
  }

  lemma BatchOneMore(s: State, functions: seq<Task>, i: nat, does: Task -> Action)
    requires i < |functions| && !s.owes
    ensures var t := AfterBatch(s, functions[..i], does).(batch := functions[i..]);
            Enabled(t, RunNext)
            && AfterTask(t, does(functions[i])) == AfterBatch(s, functions[..i + 1], does).(batch := functions[i + 1..])
  {
    assert functions[..i + 1][..i] == functions[..i];
    assert functions[..i + 1] == functions[..i] + [functions[i]];
    assert functions[i..][1..] == functions[i + 1..];
    MoreQuits(functions, i, does);
  }

  // The sequential doFuncQueue is one of the runs

  lemma {:induction false} PushesAreRun(s: State, more: seq<Task>) returns (trace: seq<Event>)
    requires Acting(s)
    ensures Legal(s, trace) && Run(s, trace) == AfterAction(s, Action(more, false))
    decreases |more|
  {
    trace := [];
    if more != [] {
      var j := |more| - 1;
      trace := PushesAreRun(s, more[..j]);
      PushOneMore(s, more, j);
      trace := Extend(s, trace, LocalPush(more[j]));
      trace := Extend(s, trace, LocalSettle);
      assert more[..j + 1] == more;
    }
  }

  lemma ActionIsRun(s: State, a: Action) returns (trace: seq<Event>)
    requires Acting(s)
    ensures Legal(s, trace) && Run(s, trace) == AfterAction(s, a)
  {
    trace := PushesAreRun(s, a.pushes);
    if a.quits {
      trace := Extend(s, trace, LocalQuit);
    }
  }

  /** A run goes on with what user code does. */
  lemma ThenAction(s: State, trace: seq<Event>, a: Action) returns (longer: seq<Event>)
    requires Legal(s, trace) && Acting(Run(s, trace))
    ensures Legal(s, longer) && Run(s, longer) == AfterAction(Run(s, trace), a)
  {
    var steps := ActionIsRun(Run(s, trace), a);
    RunAppend(s, trace, steps);
    longer := trace + steps;
  }

  lemma ThenTask(s: State, trace: seq<Event>, a: Action) returns (longer: seq<Event>)
    requires Legal(s, trace) && Enabled(Run(s, trace), RunNext) && Run(s, trace).doing
    ensures Legal(s, longer) && Run(s, longer) == AfterTask(Run(s, trace), a)
  {
    longer := Extend(s, trace, RunNext);
    longer := ThenAction(s, longer, a);
  }

  lemma BatchMore(s: State, trace: seq<Event>, does: Task -> Action, i: nat) returns (longer: seq<Event>)
    requires Legal(s, trace) && !s.owes && i < |s.queue|
    requires Run(s, trace) == AfterBatch(s, s.queue[..i], does).(batch := s.queue[i..])
    ensures Legal(s, longer)
    ensures Run(s, longer) == AfterBatch(s, s.queue[..i + 1], does).(batch := s.queue[i + 1..])
  {
    BatchOneMore(s, s.queue, i, does);
    longer := ThenTask(s, trace, does(s.queue[i]));
  }

  lemma {:induction false} BatchIsRun(s: State, does: Task -> Action, i: nat) returns (trace: seq<Event>)
    requires Enabled(s, EndDispatch) && s.batch == [] && i <= |s.queue|
    ensures Legal(s, trace)
    ensures Run(s, trace) == AfterBatch(s, s.queue[..i], does).(batch := s.queue[i..])
    decreases i
  {
    if i == 0 {
      trace := Extend(s, [], EndDispatch);
      trace := Extend(s, trace, Swap);
    } else {
      trace := BatchIsRun(s, does, i - 1);
      trace := BatchMore(s, trace, does, i - 1);
    }
  }

  /** What `EventLoop.DoFuncQueue` computes is reached by a legal run of the step system, so the
      theorems about runs hold of it. */
  lemma FuncQueueIsRun(s: State, does: Task -> Action) returns (trace: seq<Event>)
    requires Enabled(s, EndDispatch) && Inv(s)
    ensures Legal(s, trace) && Run(s, trace) == AfterFuncQueue(s, does)
  {
    trace := BatchIsRun(s, does, |s.queue|);
    assert s.queue[..|s.queue|] == s.queue;
    trace := Extend(s, trace, EndBatch);
  }
}
