/** What holds of every run of the timer queue: no drift, one run per expiry, conservation of the
    map, and when the armed deadline covers the earliest timer. */
module TimerRuns {
  import opened Strings
  import opened TimerQueues

  // No drift

  function Due(i: Info, k: int): int { i.start + k * i.step }

  lemma DueNext(i: Info, k: int)
    ensures Due(i, k) == Due(i, k - 1) + i.step
  {
  }

  ghost predicate Started<T>(s: State<T>, t: T) {
    exists j :: 0 <= j < s.done && j < |s.batch| && s.batch[j].timer == t
  }

  /** A timer that waits after k runs is due at start + k * interval, however late each run was;
      a one-shot runs once and never waits again. */
  ghost predicate OnSchedule<T>(s: State<T>, t: T)
    requires t in s.known
  {
    var i, k := s.known[t], Count(s.ran, t);
    && (t !in s.added ==> k == 0 && i.when == i.start)
    && (HasTimer(s.queue, t) || Unrun(s, t) ==> i.when == Due(i, k) && (!i.repeat ==> k == 0))
    && (Started(s, t) ==> i.when == Due(i, k - 1) && (!i.repeat ==> k == 1))
    && (!i.repeat ==> k <= 1)
  }

  lemma {:induction false} NeverRan<T>(ran: seq<T>, t: T)
    requires t !in ran
    ensures Count(ran, t) == 0
  {
    if ran != [] {
      NeverRan(ran[..|ran| - 1], t);
    }
  }

  lemma StartedOrUnrun<T>(s: State<T>, t: T)
    requires Inv(s)
    ensures HasTimer(s.batch, t) <==> Started(s, t) || Unrun(s, t)
    ensures !(Started(s, t) && Unrun(s, t))
    ensures HasTimer(s.batch, t) ==> !HasTimer(s.queue, t)
  {
  }

  lemma ScheduleFire<T>(s: State<T>, now: int, read: int, t: T)
    requires Inv(s) && Enabled(s, Fire(now, read)) && t in s.known && OnSchedule(s, t)
    ensures OnSchedule(Step(s, Fire(now, read)), t)
  {
  }

  /** Which timers have started and which are still to come when the next callback starts. */
  lemma RunNextMoves<T>(s: State<T>, t: T)
    requires Inv(s) && Enabled(s, RunNext)
    ensures var r, mine := Step(s, RunNext), s.batch[s.done].timer == t;
            (Started(r, t) <==> Started(s, t) || mine)
            && (Unrun(s, t) <==> Unrun(r, t) || mine) && !(mine && Unrun(r, t))
  {
  }

  lemma ScheduleRun<T>(s: State<T>, t: T)
    requires Inv(s) && Enabled(s, RunNext) && t in s.known && OnSchedule(s, t)
    ensures OnSchedule(Step(s, RunNext), t)
  {
    RunNextCounts(s, t);
    RunNextMoves(s, t);
    StartedOrUnrun(s, t);
    if s.batch[s.done].timer == t {
      assert s.batch[s.done] in s.batch;
    }
  }

  lemma FinishEndsBatch<T>(s: State<T>, clock: int, t: T)
    requires Enabled(s, Finish(clock))
    ensures var r, m := Step(s, Finish(clock)), ResetAll(s, s.batch);
            r.ran == s.ran && r.known == m.known && r.queue == m.queue && r.added == s.added
            && !Unrun(s, t) && !Unrun(r, t) && !Started(r, t)
  {
    var r := Step(s, Finish(clock));
    assert s.batch[s.done..] == [] && r.batch == [] && r.done == 0;
  }

  lemma ScheduleFinish<T>(s: State<T>, clock: int, t: T)
    requires Inv(s) && Enabled(s, Finish(clock)) && t in s.known && OnSchedule(s, t)
    ensures OnSchedule(Step(s, Finish(clock)), t)
  {
    StartedOrUnrun(s, t);
    ResetTimer(s, s.batch, t);
    FinishEndsBatch(s, clock, t);
    if Moves(s, s.batch, t) {
      DueNext(s.known[t], Count(s.ran, t));
    }
  }

  lemma ScheduleAdd<T>(s: State<T>, x: T, clock: int, t: T)
    requires Inv(s) && Enabled(s, Add(x, clock)) && t in s.known && OnSchedule(s, t)
    ensures OnSchedule(Step(s, Add(x, clock)), t)
  {
    InsertMembers(s.queue, Entry(s.known[x].when, x));
    if x == t {
      StartedOrUnrun(s, t);
      assert Due(s.known[t], 0) == s.known[t].start;
    }
  }

  lemma ScheduleCancel<T>(s: State<T>, x: T, t: T)
    requires Inv(s) && Enabled(s, Cancel(x)) && t in s.known && OnSchedule(s, t)
    ensures OnSchedule(Step(s, Cancel(x)), t)
  {
    var i := IndexOf(s.queue, Entry(s.known[x].when, x));
    if i < |s.queue| {
      EraseKeeps(s.queue, i);
    }
  }

  lemma StepSchedule<T>(s: State<T>, e: Event<T>, t: T)
    requires Inv(s) && Enabled(s, e) && t in s.known && OnSchedule(s, t)
    ensures t in Step(s, e).known && OnSchedule(Step(s, e), t)
  {
    match e
    case Fire(now, read) => ScheduleFire(s, now, read, t);
    case RunNext => ScheduleRun(s, t);
    case Finish(clock) => ScheduleFinish(s, clock, t); ResetTimer(s, s.batch, t);
    case Add(x, clock) => ScheduleAdd(s, x, clock, t);
    case Cancel(x) => ScheduleCancel(s, x, t);
    case Make(_, _, _, _) =>
  }

  lemma {:induction false} RunSchedule<T>(s: State<T>, es: seq<Event<T>>, t: T)
    requires Inv(s) && Legal(s, es) && (t in s.known ==> OnSchedule(s, t))
    ensures t in Run(s, es).known ==> OnSchedule(Run(s, es), t)
    decreases es
  {
    if es != [] {
      var r := Step(s, es[0]);
      StepInv(s, es[0]);
      if t in s.known {
        StepSchedule(s, es[0], t);
      } else if t in r.known {
        assert es[0].Make? && es[0].timer == t;
        NeverRan(s.ran, t);
        StartedOrUnrun(r, t);
      }
      RunSchedule(r, es[1..], t);
    }
  }

  /** No drift, and one-shots run at most once: in every reachable state. */
  lemma NoDrift<T>(es: seq<Event<T>>, t: T)
    requires Legal(Init(), es) && t in Run(Init(), es).known
    ensures var s := Run(Init(), es);
            var i := s.known[t];
            Make(t, i.start, i.repeat, i.step) in es
            && (HasTimer(s.queue, t) ==> i.when == i.start + Count(s.ran, t) * i.step)
            && (!i.repeat ==> Count(s.ran, t) <= 1 && (HasTimer(s.queue, t) ==> Count(s.ran, t) == 0))
  {
    RunSchedule(Init(), es, t);
    KnownExactly(Init(), es, t);
  }

  // Expiry

  lemma LowerBoundSplits<T>(q: seq<Entry<T>>, now: int)
    requires Sorted(q)
    ensures var i := LowerBound(q, now);
            (forall e :: e in q[..i] ==> e.key < now) && (forall e :: e in q[i..] ==> e.key >= now)
  {
  }

  /** `expireTimers` takes exactly the entries before `now`, in order, and leaves the rest. */
  lemma ExpiryPartitions<T>(s: State<T>, now: int, read: int)
    requires Inv(s) && Enabled(s, Fire(now, read))
    ensures var r := Step(s, Fire(now, read));
            r.batch + r.queue == s.queue && Sorted(r.batch) && Sorted(r.queue)
            && (forall e :: e in r.batch ==> e.key < now) && (forall e :: e in r.queue ==> e.key >= now)
  {
    var i := LowerBound(s.queue, now);
    LowerBoundSplits(s.queue, now);
    InvFire(s, now, read);
    assert s.queue[..i] + s.queue[i..] == s.queue;
  }

  /** The assertion of `expireTimers`. */
  predicate ExpiryAsserts<T>(q: seq<Entry<T>>, now: int) {
    var i := LowerBound(q, now);
    i == |q| || now < q[i].key
  }

  /** It holds exactly when no timer is due at the very reading of the clock. */
  lemma ExpiryAssertsIff<T>(s: State<T>, now: int)
    requires Inv(s)
    ensures ExpiryAsserts(s.queue, now) <==> forall e :: e in s.queue ==> e.key != now
  {
    var i := LowerBound(s.queue, now);
    if i < |s.queue| {
      assert s.queue[i] in s.queue;
    }
  }

  lemma Extend<T>(s: State<T>, trace: seq<Event<T>>, e: Event<T>) returns (longer: seq<Event<T>>)
    requires Legal(s, trace) && Enabled(Run(s, trace), e)
    ensures longer == trace + [e] && Legal(s, longer)
    ensures Run(s, longer) == Step(Run(s, trace), e)
  {
    longer := trace + [e];
    RunOne(Run(s, trace), e);
    RunAppend(s, trace, [e]);
  }

  /** It fails when handleTimer reads its clock at the very tick of a deadline. */
  lemma DueToTheTickFails(when: int)
    requires when >= 0
    ensures var es: seq<Event<nat>> := [Make(1, when, false, 0), Add(1, 0)];
            Legal(Init(), es) && Enabled(Run(Init(), es), Fire(when, when))
            && !ExpiryAsserts(Run(Init(), es).queue, when)
  {
    var es := Extend(Init<nat>(), [], Make(1, when, false, 0));
    es := Extend(Init<nat>(), es, Add(1, 0));
    var s := Run(Init<nat>(), es);
    assert es == [Make(1, when, false, 0), Add(1, 0)] && s.queue == [Entry(when, 1)];
    RunInv(Init<nat>(), es);
    ExpiryAssertsIff(s, when);
  }

  function Timers<T>(q: seq<Entry<T>>): seq<T> {
    seq(|q|, i requires 0 <= i < |q| => q[i].timer)
  }

  lemma BatchStep<T>(s: State<T>, e: Event<T>)
    requires Inv(s) && s.running && Enabled(s, e) && !e.Finish?
    ensures var r := Step(s, e);
            r.running && r.batch == s.batch && s.done <= r.done <= |s.batch|
            && r.ran == s.ran + Timers(s.batch)[s.done..r.done]
  {
  }

  /** What happens between the two ends of a handleTimer. */
  ghost predicate Callbacks<T>(es: seq<Event<T>>) {
    forall e :: e in es ==> !e.Fire? && !e.Finish?
  }

  lemma {:induction false} RunsBatchInOrder<T>(s: State<T>, es: seq<Event<T>>)
    requires Inv(s) && s.running && Legal(s, es) && Callbacks(es)
    ensures var r := Run(s, es);
            r.running && r.batch == s.batch && s.done <= r.done <= |s.batch| && Inv(r)
            && r.ran == s.ran + Timers(s.batch)[s.done..r.done]
    decreases es
  {
    if es != [] {
      assert es[0] in es;
      StepInv(s, es[0]);
      BatchStep(s, es[0]);
      var m := Step(s, es[0]);
      RunsBatchInOrder(m, es[1..]);
      Sliced(Timers(s.batch), s.done, m.done, Run(m, es[1..]).done);
    }
  }

  lemma Sliced<T>(q: seq<T>, i: nat, j: nat, k: nat)
    requires i <= j <= k <= |q|
    ensures q[i..j] + q[j..k] == q[i..k]
  {
  }

  /** A whole handleTimer. */
  function Handling<T>(now: int, read: int, es: seq<Event<T>>, clock: int): seq<Event<T>> {
    [Fire(now, read)] + es + [Finish(clock)]
  }

  /** Its three parts. */
  lemma HandleParts<T>(s: State<T>, now: int, read: int, es: seq<Event<T>>, clock: int) returns (g: State<T>)
    requires Inv(s) && Legal(s, Handling(now, read, es, clock)) && Callbacks(es)
    ensures Enabled(s, Fire(now, read)) && Inv(Step(s, Fire(now, read)))
    ensures Legal(Step(s, Fire(now, read)), es) && g == Run(Step(s, Fire(now, read)), es)
    ensures Inv(g) && Enabled(g, Finish(clock))
    ensures Run(s, Handling(now, read, es, clock)) == Step(g, Finish(clock))
  {
    RunAppend(s, [Fire(now, read)] + es, [Finish(clock)]);
    RunAppend(s, [Fire(now, read)], es);
    RunOne(s, Fire(now, read));
    StepInv(s, Fire(now, read));
    var f := Step(s, Fire(now, read));
    RunInv(f, es);
    g := Run(f, es);
    RunOne(g, Finish(clock));
  }

  /** One handleTimer, whatever its callbacks add and cancel, runs each expired timer exactly once,
      in the map's order, and nothing else. */
  lemma HandleRunsExpiredOnce<T>(s: State<T>, now: int, read: int, es: seq<Event<T>>, clock: int)
    requires Inv(s) && Legal(s, Handling(now, read, es, clock)) && Callbacks(es)
    ensures Run(s, Handling(now, read, es, clock)).ran
         == s.ran + Timers(s.queue[..LowerBound(s.queue, now)])
  {
    var g := HandleParts(s, now, read, es, clock);
    var f := Step(s, Fire(now, read));
    RunsBatchInOrder(f, es);
    FinishKeepsRan(g, clock);
    assert Timers(f.batch)[0..|f.batch|] == Timers(f.batch);
  }

  lemma FinishKeepsRan<T>(s: State<T>, clock: int)
    requires Enabled(s, Finish(clock))
    ensures Step(s, Finish(clock)).ran == s.ran && s.done == |s.batch|
  {
  }

  /** When handleTimer ends, the map holds what its callbacks left there and, one interval later,
      exactly the repeating timers of the batch that were not cancelled while it ran. */
  lemma FinishConserves<T>(s: State<T>, clock: int)
    requires Inv(s) && Enabled(s, Finish(clock))
    ensures multiset(Step(s, Finish(clock)).queue) == multiset(s.queue) + multiset(Returned(s, s.batch))
    ensures !Step(s, Finish(clock)).running && Step(s, Finish(clock)).ran == s.ran
  {
    ResetAllExact(s, s.batch);
  }

  /** What one event adds to the map outside resetTimers, and what it takes out of it. */
  ghost function AddedBy<T>(s: State<T>, e: Event<T>): seq<Entry<T>>
    requires Enabled(s, e)
  {
    if e.Add? then [Entry(s.known[e.timer].when, e.timer)] else []
  }

  ghost function ErasedBy<T>(s: State<T>, e: Event<T>): seq<Entry<T>>
    requires Enabled(s, e)
  {
    if e.Cancel? && Entry(s.known[e.timer].when, e.timer) in s.queue
    then [Entry(s.known[e.timer].when, e.timer)] else []
  }

  ghost function AllAdded<T>(s: State<T>, es: seq<Event<T>>): seq<Entry<T>>
    requires Legal(s, es)
    decreases es
  {
    if es == [] then [] else AddedBy(s, es[0]) + AllAdded(Step(s, es[0]), es[1..])
  }

  ghost function AllErased<T>(s: State<T>, es: seq<Event<T>>): seq<Entry<T>>
    requires Legal(s, es)
    decreases es
  {
    if es == [] then [] else ErasedBy(s, es[0]) + AllErased(Step(s, es[0]), es[1..])
  }

  lemma EraseMultiset<T>(q: seq<Entry<T>>, i: nat)
    requires i < |q|
    ensures multiset(Erase(q, i)) + multiset([q[i]]) == multiset(q)
  {
    assert q == q[..i] + [q[i]] + q[i + 1..];
  }

  lemma CallbackConserves<T>(s: State<T>, e: Event<T>)
    requires Enabled(s, e) && !e.Fire? && !e.Finish?
    ensures multiset(Step(s, e).queue) + multiset(ErasedBy(s, e)) == multiset(s.queue) + multiset(AddedBy(s, e))
  {
    match e
    case Add(t, _) => InsertMultiset(s.queue, Entry(s.known[t].when, t));
    case Cancel(t) =>
      var i := IndexOf(s.queue, Entry(s.known[t].when, t));
      if i < |s.queue| {
        EraseMultiset(s.queue, i);
      }
    case _ =>
  }

  lemma Balance<T>(q: seq<T>, m: seq<T>, r: seq<T>, a: seq<T>, x: seq<T>, b: seq<T>, y: seq<T>)
    requires multiset(m) + multiset(x) == multiset(q) + multiset(a)
    requires multiset(r) + multiset(y) == multiset(m) + multiset(b)
    ensures multiset(r) + multiset(x + y) == multiset(q) + multiset(a + b)
  {
    calc {
      multiset(r) + multiset(x + y);
      (multiset(r) + multiset(y)) + multiset(x);
      (multiset(m) + multiset(x)) + multiset(b);
      multiset(q) + multiset(a + b);
    }
  }

  lemma {:induction false} CallbacksConserve<T>(s: State<T>, es: seq<Event<T>>)
    requires Legal(s, es) && Callbacks(es)
    ensures multiset(Run(s, es).queue) + multiset(AllErased(s, es))
         == multiset(s.queue) + multiset(AllAdded(s, es))
    decreases es
  {
    if es != [] {
      assert es[0] in es;
      CallbackConserves(s, es[0]);
      var t := Step(s, es[0]);
      CallbacksConserve(t, es[1..]);
      Balance(s.queue, t.queue, Run(t, es[1..]).queue, AddedBy(s, es[0]), ErasedBy(s, es[0]),
              AllAdded(t, es[1..]), AllErased(t, es[1..]));
    }
  }

  /** The map after one handleTimer, as a balance: what it holds and what its callbacks cancelled
      out of it are together the unexpired entries, the entries its callbacks added and the
      uncancelled repeaters of the batch one interval later. */
  lemma HandleConserves<T>(s: State<T>, now: int, read: int, es: seq<Event<T>>, clock: int)
    requires Inv(s) && Legal(s, Handling(now, read, es, clock)) && Callbacks(es)
    ensures Enabled(s, Fire(now, read)) && Legal(Step(s, Fire(now, read)), es)
    ensures var f := Step(s, Fire(now, read));
            var g := Run(f, es);
            Inv(g) && Enabled(g, Finish(clock)) &&
            multiset(Run(s, Handling(now, read, es, clock)).queue) + multiset(AllErased(f, es))
            == multiset(s.queue[LowerBound(s.queue, now)..]) + multiset(AllAdded(f, es))
               + multiset(Returned(g, g.batch))
  {
    var g := HandleParts(s, now, read, es, clock);
    CallbacksConserve(Step(s, Fire(now, read)), es);
    FinishConserves(g, clock);
  }

  lemma {:induction false} ReturnedMembers<T>(s: State<T>, es: seq<Entry<T>>, x: Entry<T>)
    requires forall e :: e in es ==> e.timer in s.known
    ensures x in Returned(s, es) <==> exists e :: e in es && Returns(s, e) && x == Next(s, e)
    decreases es
  {
    if es != [] {
      ReturnedMembers(s, es[1..], x);
      assert forall e :: e in es <==> e == es[0] || e in es[1..];
    }
  }

  // The armed deadline

  /** The timerfd will fire no later than the earliest timer is due. */
  predicate Covered<T>(s: State<T>) {
    s.queue != [] ==> s.armed.Some? && s.armed.value <= s.queue[0].key
  }

  /** The map as this handleTimer will leave it, in some order. */
  function Leftover<T(==)>(g: State<T>): seq<Entry<T>>
    requires forall e :: e in g.batch ==> e.timer in g.known
  {
    g.queue + Returned(g, g.batch)
  }

  /** The earliest timer left is due exactly when resetTimerFd reads the clock. */
  ghost predicate FirstDueAt<T>(left: seq<Entry<T>>, clock: int) {
    (exists x :: x in left && x.key == clock) && forall x :: x in left ==> x.key >= clock
  }

  /** What the end of a handleTimer that read its clock at `now` needs: an adder's deadline is armed that
      comes before every timer already due, and the timerfd is not disarmed by a deadline met to the
      tick. */
  ghost predicate FinishCovers<T>(g: State<T>, now: int, clock: int)
    requires forall e :: e in g.batch ==> e.timer in g.known
  {
    (forall x :: x in Leftover(g) && x.key <= clock ==> g.armed.Some? && g.armed.value <= x.key)
    && !(clock > now && FirstDueAt(Leftover(g), clock))
  }

  lemma FinishLeaves<T>(g: State<T>, clock: int)
    requires Inv(g) && Enabled(g, Finish(clock))
    ensures forall x :: x in Step(g, Finish(clock)).queue <==> x in Leftover(g)
  {
    FinishConserves(g, clock);
    forall x
      ensures x in Step(g, Finish(clock)).queue <==> x in Leftover(g)
    {
      assert x in Step(g, Finish(clock)).queue <==> x in multiset(Step(g, Finish(clock)).queue);
      assert x in Leftover(g) <==> x in multiset(g.queue) || x in multiset(Returned(g, g.batch));
    }
  }

  lemma RearmCoversIff<T>(s: State<T>, left: seq<Entry<T>>, clock: int)
    requires Sorted(s.queue) && (forall x :: x in s.queue <==> x in left) && s.now <= clock
    ensures Covered(Rearm(s, clock)) <==>
            (forall x :: x in left && x.key <= clock ==> s.armed.Some? && s.armed.value <= x.key)
            && !(clock > s.now && FirstDueAt(left, clock))
  {
    if s.queue != [] {
      var first := s.queue[0];
      assert first in left;
      assert forall x :: x in left ==> x.key >= first.key;
    }
  }

  /** The end of any handleTimer, whatever its callbacks did, leaves the earliest timer covered if and
      only if that holds before it. */
  lemma FinishCoversIff<T>(g: State<T>, clock: int)
    requires Inv(g) && Enabled(g, Finish(clock))
    ensures Covered(Step(g, Finish(clock))) <==> FinishCovers(g, g.now, clock)
  {
    StepInv(g, Finish(clock));
    FinishLeaves(g, clock);
    RearmCoversIff(ResetAll(g, g.batch).(running := false, batch := [], done := 0), Leftover(g), clock);
  }

  /** What addTask needs for a timer that is to stand first: a deadline after the clock reading, or one
      already missed when the timerfd is armed early enough all the same. */
  ghost predicate AddCovers<T>(s: State<T>, when: int, clock: int) {
    IsFirst(s.queue, when) ==> when > clock || (when < clock && s.armed.Some? && s.armed.value <= when)
  }

  ghost predicate Keeps<T>(s: State<T>, e: Event<T>)
    requires Enabled(s, e)
  {
    match e
    case Add(t, clock) => s.running || AddCovers(s, s.known[t].when, clock)
    case Finish(clock) => FinishCovers(s, s.now, clock)
    case _ => true
  }

  /** Outside handleTimer the timerfd fires no later than the earliest timer is due. */
  predicate Armed<T>(s: State<T>) {
    !s.running ==> Covered(s)
  }

  lemma AddCoversIff<T>(s: State<T>, t: T, clock: int)
    requires Enabled(s, Add(t, clock)) && Covered(s)
    ensures Covered(Step(s, Add(t, clock))) <==> AddCovers(s, s.known[t].when, clock)
  {
    var e := Entry(s.known[t].when, t);
    assert Insert(s.queue, e)[0] == if IsFirst(s.queue, e.key) then e else s.queue[0];
  }

  lemma CancelKeepsCovered<T>(s: State<T>, t: T)
    requires Inv(s) && Enabled(s, Cancel(t)) && Covered(s)
    ensures Covered(Step(s, Cancel(t)))
  {
    var i := IndexOf(s.queue, Entry(s.known[t].when, t));
    if i < |s.queue| && |s.queue| > 1 {
      assert Erase(s.queue, i)[0] == s.queue[if i == 0 then 1 else 0];
    }
  }

  lemma StepCoversIff<T>(s: State<T>, e: Event<T>)
    requires Inv(s) && Enabled(s, e) && Armed(s)
    ensures Armed(Step(s, e)) <==> Keeps(s, e)
  {
    match e
    case Add(t, clock) =>
      if !s.running {
        AddCoversIff(s, t, clock);
      }
    case Cancel(t) =>
      if !s.running {
        CancelKeepsCovered(s, t);
      }
    case Finish(clock) => FinishCoversIff(s, clock);
    case _ =>
  }

  ghost predicate AlwaysArmed<T>(s: State<T>, es: seq<Event<T>>)
    requires Legal(s, es)
    decreases es
  {
    Armed(s) && (es == [] || AlwaysArmed(Step(s, es[0]), es[1..]))
  }

  ghost predicate AllKeep<T>(s: State<T>, es: seq<Event<T>>)
    requires Legal(s, es)
    decreases es
  {
    es == [] || (Keeps(s, es[0]) && AllKeep(Step(s, es[0]), es[1..]))
  }

  lemma {:induction false} RunCoversIff<T>(s: State<T>, es: seq<Event<T>>)
    requires Inv(s) && Legal(s, es) && Armed(s)
    ensures AlwaysArmed(s, es) <==> AllKeep(s, es)
    decreases es
  {
    if es != [] {
      StepInv(s, es[0]);
      StepCoversIff(s, es[0]);
      if Keeps(s, es[0]) {
        RunCoversIff(Step(s, es[0]), es[1..]);
      } else {
        assert !Armed(Step(s, es[0]));
      }
    }
  }

  /** Deadline coverage, exactly: throughout a run the armed deadline covers the earliest timer
      whenever handleTimer is not running, through every add, cancel and expiry, if and only if
      every add and every end of a handleTimer met its condition. */
  lemma DeadlineCoversIff<T>(es: seq<Event<T>>)
    requires Legal<T>(Init(), es)
    ensures AlwaysArmed(Init<T>(), es) <==> AllKeep(Init<T>(), es)
  {
    RunCoversIff(Init<T>(), es);
  }

  /** Nothing is late: an add reads the clock before its deadline, and so does the end of a
      handleTimer for every timer it leaves. */
  ghost predicate Timely<T>(s: State<T>, es: seq<Event<T>>)
    requires Legal(s, es)
    decreases es
  {
    es == [] ||
    ((match es[0]
      case Add(t, clock) => s.known[t].when > clock
      case Finish(clock) => forall x :: x in Leftover(s) ==> x.key > clock
      case _ => true)
     && Timely(Step(s, es[0]), es[1..]))
  }

  /** Then the deadline is always covered. */
  lemma {:induction false} TimelyKeeps<T>(s: State<T>, es: seq<Event<T>>)
    requires Legal(s, es) && Timely(s, es)
    ensures AllKeep(s, es)
    decreases es
  {
    if es != [] {
      TimelyKeeps(Step(s, es[0]), es[1..]);
    }
  }

  /** One whole handleTimer whose callbacks add, cancel and make what they like, from any state. */
  lemma HandleCoversIff<T>(s: State<T>, now: int, read: int, es: seq<Event<T>>, clock: int)
    requires Inv(s) && Legal(s, Handling(now, read, es, clock)) && Callbacks(es)
    ensures Enabled(s, Fire(now, read)) && Legal(Step(s, Fire(now, read)), es)
    ensures var g := Run(Step(s, Fire(now, read)), es);
            Enabled(g, Finish(clock))
            && (Covered(Run(s, Handling(now, read, es, clock))) <==> FinishCovers(g, now, clock))
  {
    var g := HandleParts(s, now, read, es, clock);
    FinishCoversIff(g, clock);
    KeepsNow(Step(s, Fire(now, read)), es);
  }

  lemma {:induction false} KeepsNow<T>(s: State<T>, es: seq<Event<T>>)
    requires Legal(s, es) && Callbacks(es)
    ensures Run(s, es).now == s.now
    decreases es
  {
    if es != [] {
      assert es[0] in es;
      KeepsNow(Step(s, es[0]), es[1..]);
    }
  }

  /** n callbacks that neither add nor cancel. */
  function Quiet<T>(n: nat): (es: seq<Event<T>>)
    ensures Callbacks(es)
  {
    if n == 0 then [] else [RunNext] + Quiet(n - 1)
  }

  lemma {:induction false} QuietRun<T>(s: State<T>, n: nat)
    requires Legal(s, Quiet(n))
    ensures var r := Run(s, Quiet(n));
            r == s.(ran := r.ran, done := s.done + n)
    decreases n
  {
    if n > 0 {
      assert Quiet<T>(n)[1..] == Quiet(n - 1);
      QuietRun(Step(s, RunNext), n - 1);
    }
  }

  /** A timer that a handleTimer reading the clock at `now` and at its end at `clock` leaves behind
      although it is due: it was not due before `now`, or it repeats and even its next deadline
      has passed. */
  predicate Overdue<T>(s: State<T>, e: Entry<T>, now: int, clock: int)
    requires e.timer in s.known
  {
    if e.key < now then s.known[e.timer].repeat && e.key + s.known[e.timer].step <= clock else e.key <= clock
  }

  lemma OverdueIsLeft<T>(s: State<T>, g: State<T>, e: Entry<T>, now: int, clock: int)
    requires s.queue == g.batch + g.queue && s.known == g.known && g.cancelled == []
    requires (forall x :: x in g.batch ==> x.key < now) && (forall x :: x in g.queue ==> x.key >= now)
    requires Keyed(s.queue, s.known) && e in s.queue && Overdue(s, e, now, clock)
    ensures exists x :: x in Leftover(g) && x.key <= clock
  {
    assert forall x :: x in g.batch ==> x in s.queue;
    if e.key < now {
      ReturnedMembers(g, g.batch, Next(g, e));
      assert Next(g, e) in Leftover(g);
    } else {
      assert e in Leftover(g);
    }
  }

  lemma LeftWasOverdue<T>(s: State<T>, g: State<T>, x: Entry<T>, now: int, clock: int)
    requires s.queue == g.batch + g.queue && s.known == g.known && g.cancelled == []
    requires (forall x :: x in g.batch ==> x.key < now) && (forall x :: x in g.queue ==> x.key >= now)
    requires Keyed(s.queue, s.known) && (forall e :: e in g.batch ==> e.timer in g.known)
    requires x in Leftover(g) && x.key <= clock
    ensures exists e :: e in s.queue && Overdue(s, e, now, clock)
  {
    if x in g.queue {
      assert x in s.queue && Overdue(s, x, now, clock);
    } else {
      ReturnedMembers(g, g.batch, x);
      var e :| e in g.batch && Returns(g, e) && x == Next(g, e);
      assert e in s.queue && Overdue(s, e, now, clock);
    }
  }

  lemma NothingOverdueIff<T>(s: State<T>, g: State<T>, now: int, clock: int)
    requires s.queue == g.batch + g.queue && s.known == g.known && g.cancelled == []
    requires (forall x :: x in g.batch ==> x.key < now) && (forall x :: x in g.queue ==> x.key >= now)
    requires Keyed(s.queue, s.known) && (forall e :: e in g.batch ==> e.timer in g.known)
    ensures (forall x :: x in Leftover(g) ==> x.key > clock) <==>
            forall e :: e in s.queue ==> !Overdue(s, e, now, clock)
  {
    if x :| x in Leftover(g) && x.key <= clock {
      LeftWasOverdue(s, g, x, now, clock);
    } else {
      forall e | e in s.queue
        ensures !Overdue(s, e, now, clock)
      {
        if Overdue(s, e, now, clock) {
          OverdueIsLeft(s, g, e, now, clock);
        }
      }
    }
  }

  lemma UnarmedCoversIff<T>(g: State<T>, clock: int)
    requires Enabled(g, Finish(clock)) && g.armed.None?
    ensures forall now :: FinishCovers(g, now, clock) <==> forall x :: x in Leftover(g) ==> x.key > clock
  {
  }

  /** A quiet handleTimer up to its end. */
  lemma QuietEnd<T>(s: State<T>, now: int, read: int, n: nat) returns (g: State<T>)
    requires Inv(s) && Enabled(s, Fire(now, read)) && Legal(Step(s, Fire(now, read)), Quiet(n))
    ensures g == Run(Step(s, Fire(now, read)), Quiet(n))
    ensures s.queue == g.batch + g.queue && s.known == g.known && g.cancelled == []
    ensures (forall x :: x in g.batch ==> x.key < now) && (forall x :: x in g.queue ==> x.key >= now)
    ensures Expired(s.armed, read) ==> g.armed.None?
  {
    QuietRun(Step(s, Fire(now, read)), n);
    ExpiryPartitions(s, now, read);
    g := Run(Step(s, Fire(now, read)), Quiet(n));
  }

  /** For callbacks that add and cancel nothing the condition can be read off the map before the call:
      a handleTimer called for an expired timerfd leaves the earliest timer covered if and only if
      no timer is overdue in the sense above. */
  lemma QuietHandleCoversIff<T>(s: State<T>, now: int, read: int, n: nat, clock: int)
    requires Inv(s) && Legal(s, Handling(now, read, Quiet(n), clock)) && Expired(s.armed, read)
    ensures Covered(Run(s, Handling(now, read, Quiet(n), clock))) <==>
            forall e :: e in s.queue ==> !Overdue(s, e, now, clock)
  {
    HandleCoversIff(s, now, read, Quiet(n), clock);
    var g := QuietEnd(s, now, read, n);
    UnarmedCoversIff(g, clock);
    NothingOverdueIff(s, g, now, clock);
  }

  // What the timerfd is armed for

  /** The earliest deadline. */
  function Earliest<T>(q: seq<Entry<T>>): (k: int)
    requires q != []
    ensures forall x :: x in q ==> k <= x.key
    ensures exists x :: x in q && x.key == k
  {
    if |q| == 1 then q[0].key
    else
      var rest := Earliest(q[1..]);
      if q[0].key < rest then q[0].key else rest
  }

  /** What an event sets the timerfd to, if it does. An add sets it for a new first deadline, the end of
      a handleTimer for the earliest one left if that was not due at its start, unless the deadline has
      passed; one met to the tick disarms it, and so does a handleTimer that finds it expired. */
  ghost function SetBy<T>(s: State<T>, e: Event<T>): Option<Option<int>>
    requires Enabled(s, e)
  {
    match e
    case Add(t, clock) =>
      var when := s.known[t].when;
      if (s.queue != [] && s.queue[0].key <= when) || when < clock then None
      else Some(if when == clock then None else Some(when))
    case Fire(_, read) => if s.armed.Some? && s.armed.value <= read then Some(None) else None
    case Finish(clock) =>
      var left := Leftover(s);
      if left == [] || Earliest(left) <= s.now || Earliest(left) < clock then None
      else Some(if Earliest(left) == clock then None else Some(Earliest(left)))
    case _ => None
  }

  lemma FirstIsEarliest<T>(q: seq<Entry<T>>, left: seq<Entry<T>>)
    requires Sorted(q) && forall x :: x in q <==> x in left
    ensures q == [] <==> left == []
    ensures left != [] ==> q[0].key == Earliest(left)
  {
    if left != [] {
      assert left[0] in q;
      assert q[0] in left;
      var x :| x in left && x.key == Earliest(left);
      assert x in q;
    }
    if q != [] {
      assert q[0] in left;
    }
  }

  lemma RearmSets<T>(s: State<T>, left: seq<Entry<T>>, clock: int)
    requires Sorted(s.queue) && forall x :: x in s.queue <==> x in left
    ensures Rearm(s, clock).armed ==
            if left == [] || Earliest(left) <= s.now || Earliest(left) < clock then s.armed
            else if Earliest(left) == clock then None
            else Some(Earliest(left))
  {
    FirstIsEarliest(s.queue, left);
  }

  lemma FinishSets<T>(g: State<T>, clock: int)
    requires Inv(g) && Enabled(g, Finish(clock))
    ensures Step(g, Finish(clock)).armed
         == match SetBy(g, Finish(clock)) case Some(v) => v case None => g.armed
  {
    StepInv(g, Finish(clock));
    FinishLeaves(g, clock);
    RearmSets(ResetAll(g, g.batch).(running := false, batch := [], done := 0), Leftover(g), clock);
  }

  lemma StepSets<T>(s: State<T>, e: Event<T>)
    requires Inv(s) && Enabled(s, e)
    ensures Step(s, e).armed == match SetBy(s, e) case Some(v) => v case None => s.armed
  {
    if e.Finish? {
      FinishSets(s, e.clock);
    }
  }

  /** An add arms the timerfd exactly for a new first deadline that is still to come, in a callback as
      much as outside handleTimer: it will fire by `w` afterwards if and only if that deadline is by
      `w`, or it would have done before and the add did not set it. */
  lemma AddArmsIff<T>(s: State<T>, t: T, clock: int, w: int)
    requires Enabled(s, Add(t, clock))
    ensures var when, first := s.known[t].when, s.queue == [] || s.known[t].when < s.queue[0].key;
            Expired(Step(s, Add(t, clock)).armed, w) <==>
            (first && when > clock && when <= w)
            || (Expired(s.armed, w) && !(first && when >= clock))
  {
  }

  ghost function LastSet<T>(s: State<T>, es: seq<Event<T>>): Option<Option<int>>
    requires Legal(s, es)
    decreases es
  {
    if es == [] then None
    else
      var later := LastSet(Step(s, es[0]), es[1..]);
      if later.Some? then later else SetBy(s, es[0])
  }

  /** After any run the timerfd is armed for what the last event that set it set it to. */
  lemma {:induction false} ArmedExactly<T>(s: State<T>, es: seq<Event<T>>)
    requires Inv(s) && Legal(s, es)
    ensures Run(s, es).armed == match LastSet(s, es) case Some(v) => v case None => s.armed
    decreases es
  {
    if es != [] {
      StepInv(s, es[0]);
      StepSets(s, es[0]);
      ArmedExactly(Step(s, es[0]), es[1..]);
    }
  }

  /** From the start, when nothing is armed. */
  lemma ArmedFromStart<T>(es: seq<Event<T>>)
    requires Legal(Init(), es)
    ensures Run<T>(Init(), es).armed == match LastSet<T>(Init(), es) case Some(v) => v case None => None
  {
    ArmedExactly(Init<T>(), es);
  }

  /** In particular at the end of a handleTimer called for an expired timerfd: it is armed only for what
      the last add of a callback that set it set it to. */
  lemma ArmedInCallbacks<T>(s: State<T>, now: int, read: int, es: seq<Event<T>>)
    requires Inv(s) && Enabled(s, Fire(now, read)) && Legal(Step(s, Fire(now, read)), es) && Callbacks(es)
    requires Expired(s.armed, read)
    ensures var f := Step(s, Fire(now, read));
            Run(f, es).armed == match LastSet(f, es) case Some(v) => v case None => None
  {
    StepInv(s, Fire(now, read));
    StepSets(s, Fire(now, read));
    ArmedExactly(Step(s, Fire(now, read)), es);
  }

  // What the clocks and the timers are

  function ClockAfter<T>(clock: int, es: seq<Event<T>>): int
    decreases es
  {
    if es == [] then clock
    else ClockAfter(match es[0]
                    case Add(_, c) => c
                    case Fire(_, read) => read
                    case Finish(c) => c
                    case _ => clock, es[1..])
  }

  function NowAfter<T>(now: int, es: seq<Event<T>>): int
    decreases es
  {
    if es == [] then now else NowAfter(if es[0].Fire? then es[0].now else now, es[1..])
  }

  /** The latest clock reading is that of the last event that read it, and `now` that of the last
      handleTimer. */
  lemma {:induction false} ClocksExact<T>(s: State<T>, es: seq<Event<T>>)
    requires Legal(s, es)
    ensures Run(s, es).clock == ClockAfter(s.clock, es) && Run(s, es).now == NowAfter(s.now, es)
    decreases es
  {
    if es != [] {
      ClocksExact(Step(s, es[0]), es[1..]);
    }
  }

  lemma KnownStep<T>(s: State<T>, e: Event<T>, t: T)
    requires Inv(s) && Enabled(s, e)
    ensures var r := Step(s, e);
            (t in r.known <==> t in s.known || (e.Make? && e.timer == t))
            && (t in r.added <==> t in s.added || (e.Add? && e.timer == t))
            && (t in s.known ==> r.known[t] == s.known[t].(when := r.known[t].when))
            && (e.Make? && e.timer == t ==> r.known[t] == Info(e.when, e.when, e.repeat, e.step))
  {
    if e.Finish? && t in s.known {
      ResetTimer(s, s.batch, t);
    }
  }

  ghost predicate AddsIn<T>(es: seq<Event<T>>, t: T) {
    exists e :: e in es && e.Add? && e.timer == t
  }

  /** A timer is as it was made, but for its deadline, and was added exactly if some addTask did. */
  lemma {:induction false} KnownExactly<T>(s: State<T>, es: seq<Event<T>>, t: T)
    requires Inv(s) && Legal(s, es)
    ensures var r := Run(s, es);
            (t in r.added <==> t in s.added || AddsIn(es, t))
            && (t in s.known ==> t in r.known && r.known[t] == s.known[t].(when := r.known[t].when))
            && (t in r.known && t !in s.known ==>
                  Make(t, r.known[t].start, r.known[t].repeat, r.known[t].step) in es)
    decreases es
  {
    if es != [] {
      StepInv(s, es[0]);
      KnownStep(s, es[0], t);
      KnownExactly(Step(s, es[0]), es[1..], t);
      assert forall e :: e in es <==> e == es[0] || e in es[1..];
    }
  }

  // A stalled queue

  /** Timers wait, but the timerfd is not armed. */
  predicate Stalled<T>(s: State<T>) {
    !s.running && s.queue != [] && s.armed.None?
  }

  /** A timer added to an idle queue stalls it if and only if its deadline is not after the clock
      reading of resetTimerFd. With runAfter and no delay that is always so. */
  lemma AddStallsIff<T>(s: State<T>, t: T, clock: int)
    requires !s.running && s.queue == [] && s.armed.None? && Enabled(s, Add(t, clock))
    ensures Stalled(Step(s, Add(t, clock))) <==> s.known[t].when <= clock
  {
  }

  /** No add of the run arms the timerfd, and handleTimer is called only for an expired one. */
  ghost predicate Undisturbed<T>(s: State<T>, es: seq<Event<T>>)
    requires Legal(s, es)
    decreases es
  {
    es == [] ||
    ((match es[0]
      case Add(t, clock) => !IsFirst(s.queue, s.known[t].when) || s.known[t].when <= clock
      case Fire(_, read) => Expired(s.armed, read)
      case _ => true)
     && Undisturbed(Step(s, es[0]), es[1..]))
  }

  /** A stalled queue stays so: as long as only later deadlines or past ones are added, whatever else
      is made or cancelled, handleTimer never runs again and no callback does. */
  lemma {:induction false} StallPersists<T>(s: State<T>, es: seq<Event<T>>)
    requires !s.running && s.armed.None? && Legal(s, es) && Undisturbed(s, es)
    ensures var r := Run(s, es);
            !r.running && r.armed.None? && r.ran == s.ran
    decreases es
  {
    if es != [] {
      StallPersists(Step(s, es[0]), es[1..]);
    }
  }

  lemma FiveSteps<T>(s: State<T>, a: Event<T>, b: Event<T>, c: Event<T>, d: Event<T>, e: Event<T>)
    requires Enabled(s, a) && Enabled(Step(s, a), b) && Enabled(Step(Step(s, a), b), c)
    requires var u := Step(Step(Step(s, a), b), c); Enabled(u, d) && Enabled(Step(u, d), e)
    ensures Legal(s, [a, b, c, d, e])
    ensures Run(s, [a, b, c, d, e]) == Step(Step(Step(Step(Step(s, a), b), c), d), e)
  {
    var trace := Extend(s, [], a);
    trace := Extend(s, trace, b);
    trace := Extend(s, trace, c);
    trace := Extend(s, trace, d);
    trace := Extend(s, trace, e);
    assert trace == [a, b, c, d, e];
  }

  /** The end of the handling of one timer that repeats every 5 ticks and was due at 10. */
  lemma LateFinish(s: State<nat>, clock: int)
    requires s.running && s.queue == [] && s.batch == [Entry(10, 1)] && s.done == 1 && s.cancelled == []
    requires 1 in s.known && s.known[1] == Info(10, 10, true, 5) && s.now <= s.clock <= clock && s.armed == None
    ensures Enabled(s, Finish(clock)) && Step(s, Finish(clock)).queue == [Entry(15, 1)]
    ensures Stalled(Step(s, Finish(clock))) <==> clock >= 15
  {
    var r := ResetOne(s, s.batch[0]);
    assert Insert([], Entry(15, 1)) == [Entry(15, 1)];
    assert s.batch[1..] == [];
    assert ResetAll(s, s.batch) == ResetAll(r, []);
  }

  lemma DueAtTen(now: int, read: int) returns (s: State<nat>)
    requires 10 < now <= read
    ensures var s1 := Step(Init<nat>(), Make(1, 10, true, 5));
            Enabled(s1, Add(1, 0)) && Enabled(Step(s1, Add(1, 0)), Fire(now, read))
            && s == Step(Step(s1, Add(1, 0)), Fire(now, read))
    ensures s.running && s.queue == [] && s.batch == [Entry(10, 1)] && s.done == 0 && s.cancelled == []
    ensures s.known == map[1 := Info(10, 10, true, 5)] && s.now <= s.clock == read && s.armed == None
  {
    var s1 := Step(Init<nat>(), Make(1, 10, true, 5));
    var s2 := Step(s1, Add(1, 0));
    assert s2.queue == [Entry(10, 1)] && s2.armed == Some(10);
    s := Step(s2, Fire(now, read));
    assert LowerBound(s2.queue, now) == 1;
  }

  /** Slow callbacks stall the queue too: a timer every 5 ticks, due at 10 and handled once, leaves it
      stalled if and only if its handleTimer ends at the next deadline or later. */
  lemma StallReachable(now: int, read: int, clock: int)
    requires 10 < now <= read <= clock
    ensures var es: seq<Event<nat>> := [Make(1, 10, true, 5), Add(1, 0), Fire(now, read), RunNext, Finish(clock)];
            Legal(Init(), es) && Run(Init(), es).queue == [Entry(15, 1)]
            && (Stalled(Run(Init(), es)) <==> clock >= 15)
  {
    var s := DueAtTen(now, read);
    LateFinish(Step(s, RunNext), clock);
    FiveSteps(Init<nat>(), Make(1, 10, true, 5), Add(1, 0), Fire(now, read), RunNext, Finish(clock));
  }
}
