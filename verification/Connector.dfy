/** src/connector.cc: connecting with retries. A run is any legal sequence of the connector's
    tasks, timers and channel events, with any answers of the kernel. */
module Connectors {
  import opened Channels

  datatype Phase = Connecting | Connected | Disconnected

  /** How connect() answered, by the groups of errno that startTask tells apart. */
  datatype Outcome = InProgress | TryAgain | Fatal

  /** The parts of one iteration of the loop. The timerfd was the first descriptor registered with the
      poller and is never removed, so its channel stands first in every dispatch: all timers run before
      the event of any other channel, and the tasks queued by then run before the iteration ends. */
  datatype Stage = TimerStage | ChannelStage | TaskStage

  const INIT_RETRY_SEC: nat := 1
  const MAX_RETRY_SEC: nat := 30

  datatype State = State(
    stage: Stage,
    phase: Phase,
    toQuit: bool,
    timeout: nat,          // retryTimeoutSec_
    channel: bool,         // channel_ is not null
    polled: bool,          // the channel of the current attempt is registered with the poller
    resets: nat,           // queued tasks that will reset channel_
    starts: nat,           // startTask queued by start()
    timers: nat,           // retry timers running
    started: bool,         // start() has been called
    gaveUp: bool,          // an attempt ended in the default branch of the errno switch
    calls: nat,            // calls of the connection callback
    delays: seq<nat>)      // every retry delay, in order

  const INIT := State(TimerStage, Disconnected, false, INIT_RETRY_SEC, false, false, 0, 0, 0, false, false, 0, [])

  /** `keeps` is true when the connection callback is the default one, which stores a channel of
      its own; `err` is what getSocketErrno answers. */
  datatype Event =
    | Start
    | StartTask(outcome: Outcome)
    | TimerFires(outcome: Outcome)
    | HandleEvent(revents: Revents, err: int, keeps: bool)
    | RunReset
    | NextStage

  function Min(a: nat, b: nat): nat { if a <= b then a else b }

  function AfterRetry(s: State): State {
    var d := s.(phase := Disconnected);
    if d.toQuit then d
    else d.(timers := d.timers + 1, delays := d.delays + [d.timeout],
            timeout := Min(d.timeout * 2, MAX_RETRY_SEC))
  }

  function AfterStartTask(s: State, outcome: Outcome): State {
    if s.toQuit then s
    else match outcome
         case InProgress => s.(phase := Connecting, channel := true, polled := true)
         case TryAgain => AfterRetry(s)
         case Fatal => s.(gaveUp := true)
  }

  /** removeChannel: off the poller at once, reset in a queued task. */
  function AfterRemove(s: State): State {
    s.(polled := false, resets := s.resets + 1)
  }

  function AfterError(s: State): State {
    if s.phase != Connecting then s else AfterRetry(AfterRemove(s))
  }

  function AfterWrite(s: State, err: int, keeps: bool): State {
    if s.phase != Connecting then s
    else
      var d := AfterRemove(s);
      if err < 0 then AfterRetry(d)
      else if d.toQuit then d.(phase := Disconnected)
      else d.(phase := Connected, calls := d.calls + 1, channel := d.channel || keeps)
  }

  /** The callbacks of one channel event, in the order of Channel::handleEvent. */
  function AfterCallbacks(s: State, cs: seq<Callback>, err: int, keeps: bool): State
    decreases cs
  {
    if cs == [] then s
    else AfterCallbacks(match cs[0]
                        case OnError => AfterError(s)
                        case OnWrite => AfterWrite(s, err, keeps)
                        case _ => s, cs[1..], err, keeps)
  }

  /** What the loop and the kernel allow. getSocketErrno is never negative. A reset that a channel event
      queues is in the batch of the same iteration, which runs to its end. */
  predicate Enabled(s: State, e: Event) {
    match e
    case Start => !s.started
    case StartTask(_) => s.starts > 0
    case TimerFires(_) => s.timers > 0 && s.stage == TimerStage
    case HandleEvent(_, err, _) => s.polled && err >= 0 && s.stage == ChannelStage
    case RunReset => s.resets > 0 && s.stage == TaskStage
    case NextStage => s.stage == TaskStage ==> s.resets == 0
  }

  function Step(s: State, e: Event): State
    requires Enabled(s, e)
  {
    match e
    case Start => s.(toQuit := false, started := true, starts := s.starts + 1)
    case StartTask(outcome) => AfterStartTask(s.(starts := s.starts - 1), outcome)
    case TimerFires(outcome) => AfterStartTask(s.(timers := s.timers - 1), outcome)
    case HandleEvent(revents, err, keeps) =>
      AfterCallbacks(s, Fired(revents, {OnError, OnWrite}), err, keeps)
    case RunReset => s.(resets := s.resets - 1, channel := false)
    case NextStage =>
      s.(stage := match s.stage
                  case TimerStage => ChannelStage
                  case ChannelStage => TaskStage
                  case TaskStage => TimerStage)
  }

  ghost predicate Legal(s: State, es: seq<Event>)
    decreases es
  {
    es == [] || (Enabled(s, es[0]) && Legal(Step(s, es[0]), es[1..]))
  }

  ghost function Run(s: State, es: seq<Event>): State
    requires Legal(s, es)
    decreases es
  {
    if es == [] then s else Run(Step(s, es[0]), es[1..])
  }

  // One attempt at a time

  function One(b: bool): nat { if b then 1 else 0 }

  /** The places where the connector's one thread of control can be. */
  function Places(s: State): nat {
    s.starts + One(s.polled) + s.timers + One(s.phase == Connected) + One(s.gaveUp)
  }

  function Pow2(k: nat): nat { if k == 0 then 1 else 2 * Pow2(k - 1) }

  predicate Inv(s: State) {
    && !s.toQuit
    && Places(s) == One(s.started)
    && (s.polled <==> s.phase == Connecting)
    && (s.polled ==> s.channel && s.resets == 0)
    && (!s.polled && s.channel ==> s.resets > 0)
    && (s.starts > 0 || !s.started ==> s.resets == 0)
    && s.resets <= 1 && (s.resets > 0 ==> s.stage != TimerStage)
    && s.calls == One(s.phase == Connected)
    && s.timeout == Min(Pow2(|s.delays|), MAX_RETRY_SEC)
    && forall k :: 0 <= k < |s.delays| ==> s.delays[k] == Min(Pow2(k), MAX_RETRY_SEC)
  }

  /** What a channel event does to an attempt in progress. */
  lemma EventCases(s: State, r: Revents, err: int, keeps: bool)
    requires s.phase == Connecting && !s.toQuit && err >= 0
    ensures var t := AfterCallbacks(s, Fired(r, {OnError, OnWrite}), err, keeps);
            t == if r.err || r.nval then AfterRetry(AfterRemove(s))
                 else if r.out then AfterWrite(s, err, keeps)
                 else s
  {
    var cs := Fired(r, {OnError, OnWrite});
    var d := AfterRetry(AfterRemove(s));
    if r.err || r.nval {
      if r.out {
        assert cs == [OnError, OnWrite] && cs[1..] == [OnWrite] && cs[1..][1..] == [];
        assert AfterCallbacks(d, [OnWrite], err, keeps) == AfterCallbacks(d, [OnWrite][1..], err, keeps);
      } else {
        assert cs == [OnError] && cs[1..] == [];
      }
    } else if r.out {
      assert cs == [OnWrite] && cs[1..] == [];
    } else {
      assert cs == [];
    }
  }

  lemma StepInv(s: State, e: Event)
    requires Inv(s) && Enabled(s, e)
    ensures Inv(Step(s, e))
  {
    match e
    case HandleEvent(revents, err, keeps) => EventCases(s, revents, err, keeps);
    case _ =>
  }

  lemma {:induction false} RunInv(s: State, es: seq<Event>)
    requires Inv(s) && Legal(s, es)
    ensures Inv(Run(s, es))
    decreases es
  {
    if es != [] {
      StepInv(s, es[0]);
      RunInv(Step(s, es[0]), es[1..]);
    }
  }

  /** In every run, once started, exactly one of these holds at any moment: the start task is
      queued, an attempt is in progress, a retry timer runs, the connection stands, or an attempt
      ended in an unforeseen errno. Outside an attempt channel_ is null or its reset is queued,
      and the callback has been called once if connected and never otherwise. */
  lemma SingleAttempt(es: seq<Event>)
    requires Legal(INIT, es)
    ensures var s := Run(INIT, es);
            (s.started ==>
               s.starts + One(s.phase == Connecting) + s.timers + One(s.phase == Connected) + One(s.gaveUp) == 1)
            && (s.phase != Connecting ==> !s.channel || s.resets > 0)
            && s.calls == One(s.phase == Connected)
  {
    RunInv(INIT, es);
  }

  /** The assertions that startTask meets: its own, and that of connected() if it gets there. */
  predicate StartAsserts(s: State, outcome: Outcome) {
    s.phase == Disconnected && (!s.toQuit && outcome.InProgress? ==> !s.channel)
  }

  /** They hold in every run, whenever startTask is called by start or by a retry timer. */
  lemma AssertionsHold(es: seq<Event>, e: Event)
    requires Legal(INIT, es) && Enabled(Run(INIT, es), e) && (e.StartTask? || e.TimerFires?)
    ensures StartAsserts(Run(INIT, es), e.outcome)
  {
    RunInv(INIT, es);
  }

  lemma {:induction false} PowGrows(k: nat)
    requires k >= 5
    ensures Pow2(k) >= 32
    decreases k
  {
    if k > 5 {
      PowGrows(k - 1);
    }
  }

  lemma Capped(k: nat)
    ensures Min(Pow2(k), MAX_RETRY_SEC) == if k < 5 then [1, 2, 4, 8, 16][k] else 30
  {
    if k >= 5 {
      PowGrows(k);
    } else {
      assert Pow2(1) == 2 && Pow2(2) == 4 && Pow2(3) == 8;
    }
  }

  /** The k-th retry waits 1, 2, 4, 8, 16 and from then on 30 seconds. */
  lemma Backoff(es: seq<Event>)
    requires Legal(INIT, es)
    ensures var delays := Run(INIT, es).delays;
            forall k :: 0 <= k < |delays| ==> delays[k] == if k < 5 then [1, 2, 4, 8, 16][k] else 30
  {
    RunInv(INIT, es);
    forall k: nat
      ensures Min(Pow2(k), MAX_RETRY_SEC) == if k < 5 then [1, 2, 4, 8, 16][k] else 30
    {
      Capped(k);
    }
  }

  /** What each answer of connect() leads to, for the start task as for a retry timer: an attempt, a
      single retry after the delay that is due, or nothing more at all. */
  lemma OutcomeDecides(s: State, e: Event)
    requires Inv(s) && Enabled(s, e) && (e.StartTask? || e.TimerFires?)
    ensures var t := Step(s, e);
            (t.phase == Connecting <==> e.outcome == InProgress) && (t.polled <==> e.outcome == InProgress)
            && t.timers == One(e.outcome == TryAgain) && (t.gaveUp <==> e.outcome == Fatal)
            && t.delays == s.delays + (if e.outcome == TryAgain then [s.timeout] else [])
            && t.starts == 0 && t.calls == s.calls
  {
  }

  predicate GivesUp(e: Event) { (e.StartTask? || e.TimerFires?) && e.outcome == Fatal }

  /** Failures that the connector answers with a retry. */
  predicate Fails(e: Event) {
    ((e.StartTask? || e.TimerFires?) && e.outcome == TryAgain)
    || (e.HandleEvent? && (e.revents.err || e.revents.nval))
  }

  predicate Succeeds(e: Event) {
    e.HandleEvent? && e.revents.out && !e.revents.err && !e.revents.nval
  }

  function Number(es: seq<Event>, p: Event -> bool): nat {
    if es == [] then 0 else One(p(es[0])) + Number(es[1..], p)
  }

  lemma StepCounts(s: State, e: Event)
    requires Inv(s) && Enabled(s, e)
    ensures var t := Step(s, e);
            |t.delays| == |s.delays| + One(Fails(e)) && t.calls == s.calls + One(Succeeds(e))
            && (t.gaveUp <==> s.gaveUp || GivesUp(e)) && (t.started <==> s.started || e.Start?)
  {
    match e
    case HandleEvent(revents, err, keeps) => EventCases(s, revents, err, keeps);
    case _ =>
  }

  /** Over any run there is one retry for each failed attempt, one call of the connection callback for
      each attempt whose event has the write bit alone, and the connector gives up exactly when an
      attempt ends in an unforeseen errno. */
  lemma {:induction false} RunCounts(s: State, es: seq<Event>)
    requires Inv(s) && Legal(s, es)
    ensures var t := Run(s, es);
            |t.delays| == |s.delays| + Number(es, Fails) && t.calls == s.calls + Number(es, Succeeds)
            && (t.gaveUp <==> s.gaveUp || exists e :: e in es && GivesUp(e))
    decreases es
  {
    if es != [] {
      StepInv(s, es[0]);
      StepCounts(s, es[0]);
      RunCounts(Step(s, es[0]), es[1..]);
      assert forall e :: e in es <==> e == es[0] || e in es[1..];
    }
  }

  /** An event ends in Connected exactly if it has the write bit and no error bit, whatever
      SO_ERROR says: the test `err < 0` never holds. With an error bit it causes exactly one
      retry, also when the write bit comes with it. */
  lemma EventConnectsIff(s: State, r: Revents, err: int, keeps: bool)
    requires Inv(s) && Enabled(s, HandleEvent(r, err, keeps))
    ensures var t := Step(s, HandleEvent(r, err, keeps));
            (t.phase == Connected <==> r.out && !r.err && !r.nval)
            && (r.err || r.nval ==>
                  t.phase == Disconnected && t.timers == 1 && t.calls == s.calls
                  && t.delays == s.delays + [s.timeout])
  {
    EventCases(s, r, err, keeps);
  }

  /** The channel that the default connection callback stores does not stay: the reset queued by the same
      event takes it away. */
  lemma DefaultChannelIsReset(s: State, r: Revents, err: int)
    requires Inv(s) && Enabled(s, HandleEvent(r, err, true)) && Succeeds(HandleEvent(r, err, true))
    ensures var t := Step(s, HandleEvent(r, err, true));
            t.phase == Connected && t.channel
            && Enabled(t, NextStage) && Enabled(Step(t, NextStage), RunReset)
            && !Step(Step(t, NextStage), RunReset).channel
  {
    EventCases(s, r, err, true);
  }

  lemma RunCons(s: State, e: Event, es: seq<Event>)
    requires Enabled(s, e) && Legal(Step(s, e), es)
    ensures Legal(s, [e] + es) && Run(s, [e] + es) == Run(Step(s, e), es)
  {
    assert ([e] + es)[1..] == es;
  }

  /** So a connection that SO_ERROR reports as refused (errno 111) is taken for established. */
  lemma RefusedIsConnected()
    ensures var writable := Revents(false, false, false, true, false, false, false);
            var es := [Start, StartTask(InProgress), NextStage, HandleEvent(writable, 111, false)];
            Legal(INIT, es) && Run(INIT, es).phase == Connected && Run(INIT, es).calls == 1
  {
    var e := HandleEvent(Revents(false, false, false, true, false, false, false), 111, false);
    var s := Step(INIT, Start);
    var t := Step(s, StartTask(InProgress));
    var u := Step(t, NextStage);
    EventCases(u, e.revents, 111, false);
    RunCons(u, e, []);
    RunCons(t, NextStage, [e]);
    RunCons(s, StartTask(InProgress), [NextStage, e]);
    RunCons(INIT, Start, [StartTask(InProgress), NextStage, e]);
    assert [e] + [] == [e] && [NextStage] + [e] == [NextStage, e];
    assert [StartTask(InProgress)] + [NextStage, e] == [StartTask(InProgress), NextStage, e];
    assert [Start] + [StartTask(InProgress), NextStage, e] == [Start, StartTask(InProgress), NextStage, e];
  }

  /** The ordering of reset and timer is needed: if the retry timer that a failure starts were handled
      while the reset is still queued, an assertion would fail, namely that of connected(), exactly
      if the new attempt gets that far. */
  lemma TimerBeforeResetFails(s: State, r: Revents, err: int, outcome: Outcome)
    requires Inv(s) && Enabled(s, HandleEvent(r, err, false)) && (r.err || r.nval)
    ensures var t := Step(s, HandleEvent(r, err, false));
            t.timers > 0 && t.resets > 0 && (StartAsserts(t, outcome) <==> !outcome.InProgress?)
  {
    EventCases(s, r, err, false);
  }

  // The connector object

  class Connector {
    var phase: Phase
    var toQuit: bool
    var retryTimeoutSec: nat
    var channel: Channel?
    ghost var state: State

    /** The fields are those of the value. This much holds inside the methods too. */
    ghost predicate Linked()
      reads this, channel
    {
      && phase == state.phase && toQuit == state.toQuit && retryTimeoutSec == state.timeout
      && (channel != null <==> state.channel)
      && (state.polled ==> channel != null && channel.events.write)
      && (state.phase == Connecting ==> state.polled)
    }

    ghost predicate Valid()
      reads this, channel
    {
      Linked() && Inv(state)
    }

    constructor ()
      ensures Valid() && state == INIT && channel == null
    {
      phase, toQuit, retryTimeoutSec, channel, state := Disconnected, false, INIT_RETRY_SEC, null, INIT;
    }

    method StartFrom()
      requires Valid() && Enabled(state, Start)
      modifies this
      ensures Valid() && state == Step(old(state), Start) && channel == old(channel)
    {
      StepInv(state, Start);
      toQuit := false;
      state := Step(state, Start);
    }

    /** The start task is run. */
    method RunStartTask(fd: nat, outcome: Outcome)
      requires Valid() && Enabled(state, StartTask(outcome))
      modifies this
      ensures Valid() && state == Step(old(state), StartTask(outcome))
      ensures channel == old(channel) || fresh(channel)
    {
      StepInv(state, StartTask(outcome));
      state := state.(starts := state.starts - 1);
      TryConnect(fd, outcome);
    }

    /** A retry timer fires. */
    method RunRetryTimer(fd: nat, outcome: Outcome)
      requires Valid() && Enabled(state, TimerFires(outcome))
      modifies this
      ensures Valid() && state == Step(old(state), TimerFires(outcome))
      ensures channel == old(channel) || fresh(channel)
    {
      StepInv(state, TimerFires(outcome));
      state := state.(timers := state.timers - 1);
      TryConnect(fd, outcome);
    }

    /** The body of startTask on `fd`, where the source asserts that it is disconnected. */
    method TryConnect(fd: nat, outcome: Outcome)
      requires Linked() && StartAsserts(state, outcome) && !state.polled
      modifies this
      ensures Linked() && state == AfterStartTask(old(state), outcome)
      ensures !toQuit && outcome == InProgress ==> channel.fd == fd && channel.events == Mask(false, true)
      ensures channel == old(channel) || fresh(channel)
    {
      if toQuit {
        return;
      }
      match outcome {
        case InProgress =>
          phase := Connecting;
          channel := new Channel(fd);
          channel.EnableWriting();
          state := AfterStartTask(state, outcome);
        case TryAgain =>
          Retry();
        case Fatal =>
          state := AfterStartTask(state, outcome);
      }
    }

    method Retry()
      requires Linked() && !state.polled
      modifies this
      ensures Linked() && state == AfterRetry(old(state)) && channel == old(channel)
    {
      state := AfterRetry(state);
      phase := Disconnected;
      if toQuit {
        return;
      }
      retryTimeoutSec := if retryTimeoutSec * 2 <= MAX_RETRY_SEC then retryTimeoutSec * 2 else MAX_RETRY_SEC;
    }

    method HandleError()
      requires Linked()
      modifies this, channel
      ensures Linked() && state == AfterError(old(state)) && channel == old(channel)
      ensures old(phase) == Connecting ==> channel.events == NO_EVENTS
    {
      if phase != Connecting {
        return;
      }
      channel.DisableEvents();
      state := AfterRemove(state).(phase := Disconnected);
      phase := Disconnected;
      Retry();
    }

    method HandleWrite(err: int, keeps: bool)
      requires Linked()
      modifies this, channel
      ensures Linked() && state == AfterWrite(old(state), err, keeps)
      ensures old(phase) == Connecting ==> old(channel).events == NO_EVENTS
      ensures old(phase) == Connecting && phase == Connected && keeps ==>
                fresh(channel) && channel.fd == old(channel.fd) && channel.events == NO_EVENTS
      ensures channel == old(channel) || fresh(channel)
    {
      if phase != Connecting {
        return;
      }
      ghost var s := state;
      channel.DisableEvents();
      state := AfterRemove(state).(phase := Disconnected);
      phase := Disconnected;
      if err < 0 {
        Retry();
        return;
      }
      if toQuit {
        return;
      }
      phase := Connected;
      if keeps {
        channel := new Channel(channel.fd);
      }
      state := AfterWrite(s, err, keeps);
    }

    /** One event of the attempt's channel: its error callback comes before its write callback. */
    method HandleChannelEvent(r: Revents, err: int, keeps: bool)
      requires Valid() && Enabled(state, HandleEvent(r, err, keeps))
      modifies this, channel
      ensures Valid() && state == Step(old(state), HandleEvent(r, err, keeps))
      ensures state == if r.err || r.nval then AfterRetry(AfterRemove(old(state)))
                       else if r.out then AfterWrite(old(state), err, keeps)
                       else old(state)
      ensures channel == old(channel) || fresh(channel)
    {
      StepInv(state, HandleEvent(r, err, keeps));
      EventCases(state, r, err, keeps);
      if r.err || r.nval {
        HandleError();
      }
      if r.out {
        HandleWrite(err, keeps);
      }
    }

    /** The loop goes on to the next part of its iteration. */
    method Proceed()
      requires Valid() && Enabled(state, NextStage)
      modifies this`state
      ensures Valid() && state == Step(old(state), NextStage) && channel == old(channel)
    {
      StepInv(state, NextStage);
      state := Step(state, NextStage);
    }

    /** The queued task that resets the channel. */
    method ResetChannel()
      requires Valid() && Enabled(state, RunReset)
      modifies this
      ensures Valid() && state == Step(old(state), RunReset) && channel == null
    {
      StepInv(state, RunReset);
      channel := null;
      state := Step(state, RunReset);
    }
  }
}
