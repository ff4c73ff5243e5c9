/** The timer queue as an object: its timers are objects whose `when` is advanced in place, and the
    same objects stand in the map, in the cancelled list and in the running batch. Each method is
    proved to be the step of the same name on the value in `state`. */
module TimerObjects {
  import opened Strings
  import opened TimerQueues

  class Timer {
    var when: int
    const repeat: bool
    const step: nat

    constructor (when: int, repeat: bool, step: nat)
      ensures this.when == when && this.repeat == repeat && this.step == step
    {
      this.when, this.repeat, this.step := when, repeat, step;
    }

    method Restart()
      modifies this
      ensures when == if repeat then old(when) + step else old(when)
    {
      if repeat {
        when := when + step;
      }
    }
  }

  /** The fields of the timers are those the value speaks of. */
  ghost predicate Agrees(known: map<Timer, Info>)
    reads known.Keys
  {
    forall t :: t in known ==>
      t.when == known[t].when && t.repeat == known[t].repeat && t.step == known[t].step
  }

  /** What a batch does when the k-th callback does `script[k]`. */
  function BatchTrace(script: seq<seq<Event<Timer>>>): seq<Event<Timer>> {
    if script == [] then [] else [RunNext] + script[0] + BatchTrace(script[1..])
  }

  function HandleTrace(now: int, read: int, script: seq<seq<Event<Timer>>>, clock: int): seq<Event<Timer>> {
    [Fire(now, read)] + (BatchTrace(script) + [Finish(clock)])
  }

  /** What a callback can do to the queue: make, add and cancel timers. The objects it makes stand for
      themselves, with their fields as they are. */
  predicate IsAct(a: Event<Timer>)
    reads if a.Make? then {a.timer} else {}
  {
    match a
    case Make(t, when, repeat, step) => t.when == when && t.repeat == repeat && t.step == step
    case Add(_, _) => true
    case Cancel(_) => true
    case _ => false
  }

  ghost function TimersOf(es: seq<Entry<Timer>>): set<Timer> {
    set e | e in es :: e.timer
  }

  lemma UnrollBatch(script: seq<seq<Event<Timer>>>, clock: int)
    requires script != []
    ensures BatchTrace(script) + [Finish(clock)]
         == [RunNext] + (script[0] + (BatchTrace(script[1..]) + [Finish(clock)]))
  {
  }

  /** The rest of a run still leads to its end. */
  ghost predicate Leads(s: State<Timer>, es: seq<Event<Timer>>, end: State<Timer>) {
    Legal(s, es) && Run(s, es) == end
  }

  lemma RunHead(s: State<Timer>, e: Event<Timer>, es: seq<Event<Timer>>)
    requires Legal(s, [e] + es)
    ensures Enabled(s, e) && Leads(Step(s, e), es, Run(s, [e] + es))
  {
  }

  /** The state between the loop of resetTimers and the setting of the timerfd. */
  lemma AfterReset(s: State<Timer>, clock: int) returns (m: State<Timer>)
    requires Inv(s) && Enabled(s, Finish(clock))
    ensures Resetting(s, s.batch) && m == ResetAll(s, s.batch).(running := false, batch := [], done := 0)
    ensures Inv(m) && m.now == s.now && Step(s, Finish(clock)) == Rearm(m, clock) && Inv(Rearm(m, clock))
  {
    StepInv(s, Finish(clock));
    m := ResetAll(s, s.batch).(running := false, batch := [], done := 0);
  }

  class TimerQueue {
    var timers: seq<Entry<Timer>>
    var cancelledTimers: seq<Entry<Timer>>
    var doingTimerCallback: bool
    var armed: Option<int>
    ghost var state: State<Timer>

    ghost predicate Valid()
      reads this, state.known.Keys
    {
      && Inv(state) && Agrees(state.known)
      && timers == state.queue && cancelledTimers == state.cancelled
      && doingTimerCallback == state.running && armed == state.armed
    }

    constructor ()
      ensures Valid() && state == Init()
    {
      timers, cancelledTimers, doingTimerCallback, armed := [], [], false, None;
      state := Init();
    }

    method MakeTimer(when: int, repeat: bool, step: nat) returns (t: Timer)
      requires Valid()
      modifies this`state
      ensures Valid() && fresh(t) && t !in old(state).known
      ensures state == Step(old(state), Make(t, when, repeat, step))
    {
      t := new Timer(when, repeat, step);
      StepInv(state, Make(t, when, repeat, step));
      state := Step(state, Make(t, when, repeat, step));
    }

    /** pushTimerToMap: reports whether the timer is the earliest now. */
    method PushTimerToMap(t: Timer) returns (pushedToFirst: bool)
      modifies this`timers
      ensures timers == Insert(old(timers), Entry(t.when, t))
      ensures pushedToFirst <==> old(timers) == [] || t.when < old(timers)[0].key
    {
      pushedToFirst := timers == [] || t.when < timers[0].key;
      timers := Insert(timers, Entry(t.when, t));
    }

    /** resetTimerFd with `clock` as its reading: see `Arm`. */
    method ResetTimerFd(point: int, clock: int)
      modifies this`armed
      ensures armed == Arm(old(armed), point, clock)
    {
      var duration := point - clock;
      if duration > 0 {
        armed := Some(point);
      } else if duration == 0 {
        armed := None;
      }
    }

    method AddTask(t: Timer, clock: int)
      requires Valid() && Enabled(state, Add(t, clock))
      modifies this
      ensures Valid() && state == Step(old(state), Add(t, clock))
    {
      StepInv(state, Add(t, clock));
      var first := PushTimerToMap(t);
      if first {
        ResetTimerFd(t.when, clock);
      }
      state := Step(state, Add(t, clock));
    }

    method CancelTask(t: Timer)
      requires Valid() && Enabled(state, Cancel(t))
      modifies this
      ensures Valid() && state == Step(old(state), Cancel(t))
    {
      StepInv(state, Cancel(t));
      var i := IndexOf(timers, Entry(t.when, t));
      if i < |timers| {
        timers := Erase(timers, i);
      } else if doingTimerCallback {
        cancelledTimers := Insert(cancelledTimers, Entry(t.when, t));
      }
      state := Step(state, Cancel(t));
    }

    /** The first half of handleTimer: the timerfd is drained and the expired entries leave the map. */
    method ExpireTimers(now: int, read: int) returns (expired: seq<Entry<Timer>>)
      requires Valid() && Enabled(state, Fire(now, read))
      modifies this
      ensures Valid() && state == Step(old(state), Fire(now, read)) && expired == state.batch
    {
      StepInv(state, Fire(now, read));
      if armed.Some? && armed.value <= read {
        armed := None;
      }
      var end := LowerBound(timers, now);
      expired := timers[..end];
      timers := timers[end..];
      doingTimerCallback := true;
      cancelledTimers := [];
      state := Step(state, Fire(now, read));
    }

    /** One round of resetTimers. */
    method ResetEntry(e: Entry<Timer>, ghost m: State<Timer>)
      requires e.timer in m.known && e.key == m.known[e.timer].when && Agrees(m.known)
      requires timers == m.queue && cancelledTimers == m.cancelled
      modifies this`timers, e.timer
      ensures timers == ResetOne(m, e).queue && Agrees(ResetOne(m, e).known)
    {
      if e.timer.repeat && IndexOf(cancelledTimers, e) == |cancelledTimers| {
        e.timer.Restart();
        var _ := PushTimerToMap(e.timer);
      }
    }

    /** The loop of resetTimers. */
    method ReturnTimers(expired: seq<Entry<Timer>>, ghost s: State<Timer>)
      requires Resetting(s, expired) && Agrees(s.known)
      requires timers == s.queue && cancelledTimers == s.cancelled
      modifies this`timers, TimersOf(expired)
      ensures timers == ResetAll(s, expired).queue && Agrees(ResetAll(s, expired).known)
    {
      ghost var m := s;
      var i := 0;
      assert expired[0..] == expired;
      while i < |expired|
        invariant 0 <= i <= |expired|
        invariant Resetting(m, expired[i..]) && ResetAll(m, expired[i..]) == ResetAll(s, expired)
        invariant m.known.Keys == s.known.Keys && Agrees(m.known)
        invariant timers == m.queue && cancelledTimers == m.cancelled
      {
        ghost var rest := expired[i..];
        var e := expired[i];
        assert rest[0] == e && rest[1..] == expired[i + 1..] && e in rest;
        ResetOneKeeps(m, rest);
        ResetEntry(e, m);
        m := ResetOne(m, e);
        i := i + 1;
      }
      assert expired[i..] == [];
    }

    /** The last half of handleTimer: repeating timers that were not cancelled go back, and the
        timerfd is set to the earliest deadline if that is after `now`. */
    method ResetTimers(now: int, expired: seq<Entry<Timer>>, clock: int)
      requires Valid() && Enabled(state, Finish(clock)) && expired == state.batch && now == state.now
      modifies this, TimersOf(expired)
      ensures Valid() && state == Step(old(state), Finish(clock))
    {
      ghost var m := AfterReset(state, clock);
      ReturnAll(expired, m);
      RearmFor(now, clock);
    }

    /** resetTimers up to the end of its loop. */
    method ReturnAll(expired: seq<Entry<Timer>>, ghost m: State<Timer>)
      requires Valid() && Resetting(state, expired) && Inv(m)
      requires m == ResetAll(state, expired).(running := false, batch := [], done := 0)
      modifies this, TimersOf(expired)
      ensures Valid() && state == m
    {
      doingTimerCallback := false;
      ReturnTimers(expired, state);
      state := m;
    }

    /** The end of resetTimers. */
    method RearmFor(now: int, clock: int)
      requires Valid() && now == state.now && Inv(Rearm(state, clock))
      modifies this`armed, this`state
      ensures Valid() && state == Rearm(old(state), clock)
    {
      if timers != [] && timers[0].key > now {
        ResetTimerFd(timers[0].key, clock);
      }
      state := Rearm(state, clock);
    }

    /** handleTimer: `script` gives what each callback makes, adds and cancels. Its effect is the run
        of the steps it goes through. */
    method HandleTimer(now: int, read: int, script: seq<seq<Event<Timer>>>, clock: int)
      requires Valid() && |script| == LowerBound(state.queue, now)
      requires Legal(state, HandleTrace(now, read, script, clock))
      requires forall k, a :: 0 <= k < |script| && a in script[k] ==> IsAct(a)
      modifies this, state.known.Keys
      ensures Valid() && state == Run(old(state), HandleTrace(now, read, script, clock))
    {
      ghost var s := state;
      ghost var end := Run(s, HandleTrace(now, read, script, clock));
      RunHead(s, Fire(now, read), BatchTrace(script) + [Finish(clock)]);
      var expired := ExpireTimers(now, read);
      assert forall e :: e in expired ==> e in s.queue;
      RunBatch(expired, script, clock, end);
      RunHead(state, Finish(clock), []);
      ResetTimers(now, expired, clock);
    }

    /** The loop over the expired timers. */
    method RunBatch(expired: seq<Entry<Timer>>, script: seq<seq<Event<Timer>>>, ghost clock: int,
                    ghost end: State<Timer>)
      requires Valid() && state.running && state.batch == expired && state.done == 0
      requires |script| == |expired| && Leads(state, BatchTrace(script) + [Finish(clock)], end)
      requires forall k, a :: 0 <= k < |script| && a in script[k] ==> IsAct(a)
      modifies this
      ensures Valid() && state.batch == expired && state.now == old(state.now)
      ensures Leads(state, [Finish(clock)] + [], end)
    {
      var i := 0;
      assert script[0..] == script;
      while i < |expired|
        invariant 0 <= i <= |expired| && Valid()
        invariant state.batch == expired && state.now == old(state.now)
        invariant state.running && state.done == i
        invariant Leads(state, BatchTrace(script[i..]) + [Finish(clock)], end)
      {
        UnrollBatch(script[i..], clock);
        assert script[i..][1..] == script[i + 1..];
        RunCallback(script[i], BatchTrace(script[i + 1..]) + [Finish(clock)], end);
        i := i + 1;
      }
      assert BatchTrace(script[i..]) + [Finish(clock)] == [Finish(clock)] + [];
    }

    /** One callback with what it makes, adds and cancels. */
    method RunCallback(acts: seq<Event<Timer>>, ghost after: seq<Event<Timer>>, ghost end: State<Timer>)
      requires Valid() && state.running && forall a :: a in acts ==> IsAct(a)
      requires Leads(state, [RunNext] + (acts + after), end)
      modifies this
      ensures Valid() && Leads(state, after, end) && state.batch == old(state.batch)
      ensures state.now == old(state.now) && state.running && state.done == old(state.done) + 1
    {
      RunHead(state, RunNext, acts + after);
      StepInv(state, RunNext);
      state := Step(state, RunNext);
      var j := 0;
      assert acts[0..] == acts;
      while j < |acts|
        invariant 0 <= j <= |acts| && Valid() && state.batch == old(state.batch)
        invariant state.now == old(state.now) && state.running && state.done == old(state.done) + 1
        invariant Leads(state, acts[j..] + after, end)
      {
        assert acts[j] in acts;
        assert acts[j..] + after == [acts[j]] + (acts[j + 1..] + after);
        Act(acts[j], acts[j + 1..] + after, end);
        j := j + 1;
      }
      assert acts[j..] + after == after;
    }

    method Act(a: Event<Timer>, ghost after: seq<Event<Timer>>, ghost end: State<Timer>)
      requires Valid() && IsAct(a) && Leads(state, [a] + after, end)
      modifies this
      ensures Valid() && Leads(state, after, end) && state.batch == old(state.batch)
      ensures state.now == old(state.now) && state.running == old(state.running) && state.done == old(state.done)
    {
      RunHead(state, a, after);
      match a {
        case Make(t, _, _, _) =>
          StepInv(state, a);
          state := Step(state, a);
        case Add(t, clock) => AddTask(t, clock);
        case Cancel(t) => CancelTask(t);
      }
    }
  }
}
