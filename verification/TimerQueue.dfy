/** src/timer_queue.cc and src/timer.cc: the timers of one event loop. `State` is the queue with its
    timers, its running batch and the armed deadline of the timerfd; a run is any legal sequence of
    events, so callbacks may add and cancel at will. `T` is the identity of a timer. */
module TimerQueues {
  import opened Strings

  /** A timer's fields: `when` advances, the rest is fixed at its making. `step` is the interval in
      clock ticks and `start` the first deadline. */
  datatype Info = Info(when: int, start: int, repeat: bool, step: nat)

  datatype Entry<T> = Entry(key: int, timer: T)

  datatype State<T> = State(
    known: map<T, Info>,           // every timer made
    added: set<T>,                 // those that addTask has inserted
    queue: seq<Entry<T>>,          // timers_, in the multimap's order
    cancelled: seq<Entry<T>>,      // cancelledTimers_
    running: bool,                 // doingTimerCallback_
    batch: seq<Entry<T>>,          // the expired entries of the handleTimer now running
    done: nat,                     // how many of them have run
    now: int,                      // its clock reading
    clock: int,                    // the latest clock reading of all
    armed: Option<int>,            // the deadline the timerfd is armed for
    ran: seq<T>)                   // every callback run, in order

  datatype Event<T> =
    | Make(timer: T, when: int, repeat: bool, step: nat)
    | Add(timer: T, clock: int)
    | Cancel(timer: T)
    | Fire(now: int, read: int)    // handleTimer up to its loop; `read` is when it reads the timerfd
    | RunNext                      // the next callback of the batch starts
    | Finish(clock: int)           // the end of handleTimer

  function Init<T>(): State<T> {
    State(map[], {}, [], [], false, [], 0, 0, 0, None, [])
  }

  /** Index of the first entry with a key at least `key`: the multimap's lower_bound. */
  function LowerBound<T>(q: seq<Entry<T>>, key: int): (i: nat)
    ensures i <= |q|
    ensures forall j :: 0 <= j < i ==> q[j].key < key
    ensures i < |q| ==> q[i].key >= key
  {
    if q == [] || q[0].key >= key then 0 else 1 + LowerBound(q[1..], key)
  }

  function UpperBound<T>(q: seq<Entry<T>>, key: int): (i: nat)
    ensures i <= |q|
    ensures forall j :: 0 <= j < i ==> q[j].key <= key
    ensures i < |q| ==> q[i].key > key
  {
    if q == [] || q[0].key > key then 0 else 1 + UpperBound(q[1..], key)
  }

  /** The multimap's insert: behind all entries with the same key. */
  function Insert<T>(q: seq<Entry<T>>, e: Entry<T>): seq<Entry<T>> {
    var i := UpperBound(q, e.key);
    q[..i] + [e] + q[i..]
  }

  function IndexOf<T(==)>(q: seq<Entry<T>>, e: Entry<T>): (i: nat)
    ensures i <= |q|
    ensures i < |q| ==> q[i] == e
    ensures i < |q| <==> e in q
  {
    if q == [] || q[0] == e then 0 else 1 + IndexOf(q[1..], e)
  }

  function Erase<T>(q: seq<Entry<T>>, i: nat): seq<Entry<T>>
    requires i < |q|
  {
    q[..i] + q[i + 1..]
  }

  /** resetTimerFd, whose own clock reading is `clock`: the timerfd is given the time that is left. If
      none is left that disarms it, and a negative time is refused and changes nothing. */
  function Arm(armed: Option<int>, point: int, clock: int): Option<int> {
    if point > clock then Some(point) else if point == clock then None else armed
  }

  /** The deadline would stand first in the map. */
  predicate IsFirst<T(==)>(q: seq<Entry<T>>, when: int) {
    q == [] || when < q[0].key
  }

  /** The timerfd has expired by then. */
  predicate Expired(armed: Option<int>, read: int) {
    armed.Some? && armed.value <= read
  }

  /** One round of the loop of resetTimers. */
  function ResetOne<T(==)>(s: State<T>, e: Entry<T>): State<T>
    requires e.timer in s.known
  {
    var i := s.known[e.timer];
    if i.repeat && e !in s.cancelled then
      var next := i.(when := i.when + i.step);
      s.(known := s.known[e.timer := next], queue := Insert(s.queue, Entry(next.when, e.timer)))
    else s
  }

  function ResetAll<T(==)>(s: State<T>, es: seq<Entry<T>>): (r: State<T>)
    requires forall e :: e in es ==> e.timer in s.known
    ensures r == s.(known := r.known, queue := r.queue) && r.known.Keys == s.known.Keys
    decreases es
  {
    if es == [] then s else ResetAll(ResetOne(s, es[0]), es[1..])
  }

  /** The end of resetTimers: only a deadline after the reading of handleTimer is armed. */
  function Rearm<T>(s: State<T>, clock: int): State<T> {
    var t := s.(clock := clock);
    if s.queue != [] && s.queue[0].key > s.now
    then t.(armed := Arm(s.armed, s.queue[0].key, clock))
    else t
  }

  /** Clock readings never go back. handleTimer may be called at any time: an add of the same dispatch
      can have re-armed a timerfd that poll had reported. */
  ghost predicate Enabled<T>(s: State<T>, e: Event<T>) {
    match e
    case Make(t, _, _, _) => t !in s.known
    case Add(t, clock) => t in s.known && t !in s.added && s.clock <= clock
    case Cancel(t) => t in s.known
    case Fire(now, read) => !s.running && s.clock <= now <= read
    case RunNext => s.running && s.done < |s.batch|
    case Finish(clock) =>
      s.running && s.done == |s.batch| && s.clock <= clock && forall e :: e in s.batch ==> e.timer in s.known
  }

  ghost function Step<T>(s: State<T>, e: Event<T>): State<T>
    requires Enabled(s, e)
  {
    match e
    case Make(t, when, repeat, step) => s.(known := s.known[t := Info(when, when, repeat, step)])
    case Add(t, clock) =>
      var when := s.known[t].when;
      s.(added := s.added + {t}, queue := Insert(s.queue, Entry(when, t)), clock := clock,
         armed := if IsFirst(s.queue, when) then Arm(s.armed, when, clock) else s.armed)
    case Cancel(t) =>
      var entry := Entry(s.known[t].when, t);
      var i := IndexOf(s.queue, entry);
      if i < |s.queue| then s.(queue := Erase(s.queue, i))
      else if s.running then s.(cancelled := Insert(s.cancelled, entry))
      else s
    case Fire(now, read) =>
      var i := LowerBound(s.queue, now);
      s.(running := true, cancelled := [], batch := s.queue[..i], queue := s.queue[i..], done := 0,
         now := now, clock := read, armed := if Expired(s.armed, read) then None else s.armed)
    case RunNext => s.(ran := s.ran + [s.batch[s.done].timer], done := s.done + 1)
    case Finish(clock) => Rearm(ResetAll(s, s.batch).(running := false, batch := [], done := 0), clock)
  }

  ghost predicate Legal<T>(s: State<T>, es: seq<Event<T>>)
    decreases es
  {
    es == [] || (Enabled(s, es[0]) && Legal(Step(s, es[0]), es[1..]))
  }

  ghost function Run<T>(s: State<T>, es: seq<Event<T>>): State<T>
    requires Legal(s, es)
    decreases es
  {
    if es == [] then s else Run(Step(s, es[0]), es[1..])
  }

  lemma {:induction false} RunAppend<T>(s: State<T>, es: seq<Event<T>>, fs: seq<Event<T>>)
    requires Legal(s, es + fs) || (Legal(s, es) && Legal(Run(s, es), fs))
    ensures Legal(s, es + fs) && Legal(s, es) && Legal(Run(s, es), fs)
    ensures Run(s, es + fs) == Run(Run(s, es), fs)
    decreases es
  {
    if es == [] {
      assert es + fs == fs;
    } else {
      assert (es + fs)[0] == es[0] && (es + fs)[1..] == es[1..] + fs;
      RunAppend(Step(s, es[0]), es[1..], fs);
    }
  }

  lemma RunOne<T>(s: State<T>, e: Event<T>)
    requires Enabled(s, e)
    ensures Legal(s, [e]) && Run(s, [e]) == Step(s, e)
  {
  }

  // The invariant

  ghost predicate Sorted<T>(q: seq<Entry<T>>) {
    forall i, j :: 0 <= i < j < |q| ==> q[i].key <= q[j].key
  }

  ghost predicate Distinct<T>(q: seq<Entry<T>>) {
    forall i, j :: 0 <= i < j < |q| ==> q[i].timer != q[j].timer
  }

  /** Each entry's key is its timer's deadline. */
  ghost predicate Keyed<T>(q: seq<Entry<T>>, known: map<T, Info>) {
    forall e :: e in q ==> e.timer in known && e.key == known[e.timer].when
  }

  ghost predicate Apart<T>(q: seq<Entry<T>>, r: seq<Entry<T>>) {
    forall e, f :: e in q && f in r ==> e.timer != f.timer
  }

  ghost predicate Owned<T>(q: seq<Entry<T>>, added: set<T>) {
    forall e :: e in q ==> e.timer in added
  }

  ghost predicate HasTimer<T>(q: seq<Entry<T>>, t: T) {
    exists e :: e in q && e.timer == t
  }

  ghost predicate Inv<T>(s: State<T>) {
    && Sorted(s.queue) && Sorted(s.batch)
    && Keyed(s.queue, s.known) && Keyed(s.batch, s.known)
    && Distinct(s.queue) && Distinct(s.batch) && Apart(s.queue, s.batch)
    && s.added <= s.known.Keys && Owned(s.queue, s.added) && Owned(s.batch, s.added)
    && (forall e :: e in s.batch ==> e.key < s.now)
    && (forall t :: t in s.ran ==> t in s.added)
    && (!s.running ==> s.batch == [])
    && s.done <= |s.batch| && s.now <= s.clock
  }

  lemma InsertMultiset<T>(q: seq<Entry<T>>, e: Entry<T>)
    ensures multiset(Insert(q, e)) == multiset(q) + multiset([e])
  {
    var i := UpperBound(q, e.key);
    assert q == q[..i] + q[i..];
  }

  lemma InsertMembers<T>(q: seq<Entry<T>>, e: Entry<T>)
    ensures forall x :: x in Insert(q, e) <==> x == e || x in q
  {
  }

  /** The new entry stands behind every entry due no later than it, so that timers with the same
      deadline keep the order in which they were inserted. */
  lemma InsertSorted<T>(q: seq<Entry<T>>, e: Entry<T>)
    requires Sorted(q)
    ensures Sorted(Insert(q, e))
    ensures var i, r := UpperBound(q, e.key), Insert(q, e);
            r[i] == e && (forall k :: 0 <= k < i ==> r[k].key <= e.key)
            && (forall k :: i < k < |r| ==> r[k].key > e.key)
  {
  }

  lemma InsertDistinct<T>(q: seq<Entry<T>>, e: Entry<T>)
    requires Distinct(q) && !HasTimer(q, e.timer)
    ensures Distinct(Insert(q, e))
  {
  }

  lemma EraseKeeps<T>(q: seq<Entry<T>>, i: nat)
    requires i < |q| && Sorted(q) && Distinct(q)
    ensures Sorted(Erase(q, i)) && Distinct(Erase(q, i))
    ensures forall x :: x in Erase(q, i) ==> x in q
    ensures forall x :: x in q && x != q[i] ==> x in Erase(q, i)
    ensures !HasTimer(Erase(q, i), q[i].timer)
  {
  }

  /** The invariant of the loop of resetTimers, with the entries `es` still to be looked at. */
  ghost predicate Resetting<T>(s: State<T>, es: seq<Entry<T>>) {
    && Sorted(s.queue) && Distinct(s.queue) && Distinct(es) && Apart(s.queue, es)
    && Keyed(s.queue, s.known) && Keyed(es, s.known)
    && Owned(s.queue, s.added) && Owned(es, s.added)
  }

  predicate Returns<T(==)>(s: State<T>, e: Entry<T>)
    requires e.timer in s.known
  {
    s.known[e.timer].repeat && e !in s.cancelled
  }

  function Next<T>(s: State<T>, e: Entry<T>): Entry<T>
    requires e.timer in s.known
  {
    Entry(s.known[e.timer].when + s.known[e.timer].step, e.timer)
  }

  /** The entries that resetTimers puts back: the repeating timers of the batch that were not
      cancelled, one interval later. */
  function Returned<T(==)>(s: State<T>, es: seq<Entry<T>>): seq<Entry<T>>
    requires forall e :: e in es ==> e.timer in s.known
  {
    if es == [] then []
    else (if Returns(s, es[0]) then [Next(s, es[0])] else []) + Returned(s, es[1..])
  }

  lemma DropHead<T>(es: seq<Entry<T>>)
    requires es != [] && Distinct(es)
    ensures Distinct(es[1..]) && !HasTimer(es[1..], es[0].timer)
  {
  }

  /** Inserting a timer that is in neither list, with its new deadline, keeps both in order. */
  lemma InsertRekeyed<T>(q: seq<Entry<T>>, e: Entry<T>, rest: seq<Entry<T>>, known: map<T, Info>, i: Info)
    requires Keyed(q, known) && Keyed(rest, known) && Apart(q, rest)
    requires !HasTimer(q, e.timer) && !HasTimer(rest, e.timer) && i.when == e.key
    ensures Keyed(Insert(q, e), known[e.timer := i]) && Keyed(rest, known[e.timer := i])
    ensures Apart(Insert(q, e), rest)
  {
  }

  lemma ReturnKeeps<T>(s: State<T>, es: seq<Entry<T>>, n: Entry<T>, i: Info)
    requires es != [] && Resetting(s, es)
    requires n.timer == es[0].timer && n.key == i.when
    ensures Resetting(s.(known := s.known[n.timer := i], queue := Insert(s.queue, n)), es[1..])
  {
    assert es[0] in es;
    DropHead(es);
    assert !HasTimer(s.queue, n.timer);
    InsertRekeyed(s.queue, n, es[1..], s.known, i);
    InsertSorted(s.queue, n);
    InsertDistinct(s.queue, n);
    assert Owned(Insert(s.queue, n), s.added) by { InsertMembers(s.queue, n); }
  }

  lemma DropKeeps<T>(s: State<T>, es: seq<Entry<T>>)
    requires es != [] && Resetting(s, es)
    ensures Resetting(s, es[1..])
  {
  }

  lemma ResetOneKeeps<T>(s: State<T>, es: seq<Entry<T>>)
    requires es != [] && Resetting(s, es)
    ensures Resetting(ResetOne(s, es[0]), es[1..])
  {
    assert es[0] in es;
    if Returns(s, es[0]) {
      var n := Next(s, es[0]);
      ReturnKeeps(s, es, n, s.known[n.timer].(when := n.key));
    } else {
      DropKeeps(s, es);
    }
  }

  lemma {:induction false} ReturnedIgnoresOthers<T>(s: State<T>, r: State<T>, es: seq<Entry<T>>)
    requires forall e :: e in es ==> e.timer in s.known && e.timer in r.known
    requires forall e :: e in es ==> s.known[e.timer] == r.known[e.timer]
    requires s.cancelled == r.cancelled
    ensures Returned(s, es) == Returned(r, es)
    decreases es
  {
    if es != [] {
      ReturnedIgnoresOthers(s, r, es[1..]);
    }
  }

  lemma {:induction false} ResetAllKeeps<T>(s: State<T>, es: seq<Entry<T>>)
    requires Resetting(s, es)
    ensures Resetting(ResetAll(s, es), [])
    decreases es
  {
    if es != [] {
      ResetOneKeeps(s, es);
      ResetAllKeeps(ResetOne(s, es[0]), es[1..]);
    }
  }

  lemma ResetOneMembers<T>(s: State<T>, e: Entry<T>)
    requires e.timer in s.known
    ensures multiset(ResetOne(s, e).queue)
         == multiset(s.queue) + multiset(if Returns(s, e) then [Next(s, e)] else [])
  {
    if Returns(s, e) {
      var n := Next(s, e);
      InsertMultiset(s.queue, n);
      assert ResetOne(s, e).queue == Insert(s.queue, n);
    }
  }

  lemma ReturnedHead<T>(s: State<T>, es: seq<Entry<T>>) returns (first: seq<Entry<T>>)
    requires es != [] && Resetting(s, es)
    ensures Resetting(ResetOne(s, es[0]), es[1..])
    ensures Returned(s, es) == first + Returned(ResetOne(s, es[0]), es[1..])
    ensures multiset(ResetOne(s, es[0]).queue) == multiset(s.queue) + multiset(first)
  {
    ResetOneKeeps(s, es);
    assert es[0] in es;
    DropHead(es);
    ResetOneMembers(s, es[0]);
    ReturnedIgnoresOthers(s, ResetOne(s, es[0]), es[1..]);
    first := if Returns(s, es[0]) then [Next(s, es[0])] else [];
  }

  lemma Chained<T>(r: seq<T>, m: seq<T>, q: seq<T>, x: seq<T>, y: seq<T>)
    requires multiset(m) == multiset(q) + multiset(x) && multiset(r) == multiset(m) + multiset(y)
    ensures multiset(r) == multiset(q) + multiset(x + y)
  {
  }

  /** resetTimers adds to the map exactly the returning entries. */
  lemma {:induction false} ResetAllExact<T>(s: State<T>, es: seq<Entry<T>>)
    requires Resetting(s, es)
    ensures multiset(ResetAll(s, es).queue) == multiset(s.queue) + multiset(Returned(s, es))
    decreases es
  {
    if es == [] {
      assert Returned(s, es) == [];
    } else {
      var first := ReturnedHead(s, es);
      var m := ResetOne(s, es[0]);
      ResetAllExact(m, es[1..]);
      Chained(ResetAll(m, es[1..]).queue, m.queue, s.queue, first, Returned(m, es[1..]));
    }
  }

  ghost predicate Before<T>(q: seq<Entry<T>>, a: Entry<T>, b: Entry<T>) {
    exists i, j :: 0 <= i < j < |q| && q[i] == a && q[j] == b
  }

  lemma InsertKeepsBefore<T>(q: seq<Entry<T>>, e: Entry<T>, a: Entry<T>, b: Entry<T>)
    requires Before(q, a, b)
    ensures Before(Insert(q, e), a, b)
  {
    var i, j :| 0 <= i < j < |q| && q[i] == a && q[j] == b;
    var k := UpperBound(q, e.key);
    var r := Insert(q, e);
    assert r[if i < k then i else i + 1] == a && r[if j < k then j else j + 1] == b;
  }

  lemma InsertsBehind<T>(q: seq<Entry<T>>, a: Entry<T>, e: Entry<T>)
    requires Sorted(q) && a in q && a.key <= e.key
    ensures Before(Insert(q, e), a, e)
  {
    var i :| 0 <= i < |q| && q[i] == a;
    var k := UpperBound(q, e.key);
    var r := Insert(q, e);
    assert i < k && r[i] == a && r[k] == e;
  }

  lemma {:induction false} ResetKeepsBefore<T>(s: State<T>, es: seq<Entry<T>>, a: Entry<T>, b: Entry<T>)
    requires Resetting(s, es) && Before(s.queue, a, b)
    ensures Before(ResetAll(s, es).queue, a, b)
    decreases es
  {
    if es != [] {
      ResetOneKeeps(s, es);
      assert es[0] in es;
      if Returns(s, es[0]) {
        InsertKeepsBefore(s.queue, Next(s, es[0]), a, b);
      }
      ResetKeepsBefore(ResetOne(s, es[0]), es[1..], a, b);
    }
  }

  /** One round leaves the rest of the batch as it was. */
  lemma RestUnmoved<T>(s: State<T>, es: seq<Entry<T>>, k: nat)
    requires Resetting(s, es) && 0 < k < |es|
    ensures var m := ResetOne(s, es[0]);
            Resetting(m, es[1..]) && es[1..][k - 1] == es[k] && es[k].timer in s.known && es[k].timer in m.known
            && (Returns(m, es[k]) <==> Returns(s, es[k])) && Next(m, es[k]) == Next(s, es[k])
  {
    ResetOneKeeps(s, es);
    assert es[0] in es && es[k] in es && es[0].timer != es[k].timer;
  }

  lemma StillWaits<T>(s: State<T>, es: seq<Entry<T>>, a: Entry<T>)
    requires Resetting(s, es) && es != [] && (a in s.queue || (Returns(s, es[0]) && a == Next(s, es[0])))
    ensures a in ResetOne(s, es[0]).queue
  {
    if Returns(s, es[0]) {
      InsertMembers(s.queue, Next(s, es[0]));
    }
  }

  lemma {:induction false} ResetBehind<T>(s: State<T>, es: seq<Entry<T>>, a: Entry<T>, j: nat)
    requires Resetting(s, es) && a in s.queue && j < |es| && Returns(s, es[j]) && a.key <= Next(s, es[j]).key
    ensures Before(ResetAll(s, es).queue, a, Next(s, es[j]))
    decreases es
  {
    if j == 0 {
      ResetOneKeeps(s, es);
      InsertsBehind(s.queue, a, Next(s, es[0]));
      ResetKeepsBefore(ResetOne(s, es[0]), es[1..], a, Next(s, es[0]));
    } else {
      RestUnmoved(s, es, j);
      StillWaits(s, es, a);
      ResetBehind(ResetOne(s, es[0]), es[1..], a, j - 1);
    }
  }

  /** Timers of the batch that return with the same deadline stand in the order in which they ran. */
  lemma {:induction false} ReturnInOrder<T>(s: State<T>, es: seq<Entry<T>>, i: nat, j: nat)
    requires Resetting(s, es) && i < j < |es|
    requires Returns(s, es[i]) && Returns(s, es[j]) && Next(s, es[i]).key <= Next(s, es[j]).key
    ensures Before(ResetAll(s, es).queue, Next(s, es[i]), Next(s, es[j]))
    decreases es
  {
    RestUnmoved(s, es, j);
    if i == 0 {
      StillWaits(s, es, Next(s, es[0]));
      ResetBehind(ResetOne(s, es[0]), es[1..], Next(s, es[0]), j - 1);
    } else {
      RestUnmoved(s, es, i);
      ReturnInOrder(ResetOne(s, es[0]), es[1..], i - 1, j - 1);
    }
  }

  /** resetTimers will move timer t on when it reaches it. */
  ghost predicate Moves<T>(s: State<T>, es: seq<Entry<T>>, t: T)
    requires t in s.known
  {
    HasTimer(es, t) && Returns(s, Entry(s.known[t].when, t))
  }

  /** The head of the batch is moved on exactly if it returns. */
  lemma ResetOneMine<T>(s: State<T>, es: seq<Entry<T>>)
    requires es != [] && Resetting(s, es)
    ensures var m, t := ResetOne(s, es[0]), es[0].timer;
            t in s.known && !HasTimer(es[1..], t) && (Moves(s, es, t) <==> Returns(s, es[0])) &&
            if Returns(s, es[0])
            then m.known[t] == s.known[t].(when := s.known[t].when + s.known[t].step) && HasTimer(m.queue, t)
            else m == s
  {
  }

  /** Any other timer is left alone. */
  lemma ResetOneOther<T>(s: State<T>, es: seq<Entry<T>>, t: T)
    requires es != [] && Resetting(s, es) && t in s.known && es[0].timer != t
    ensures var m := ResetOne(s, es[0]);
            m.known[t] == s.known[t] && m.cancelled == s.cancelled
            && (HasTimer(m.queue, t) <==> HasTimer(s.queue, t))
            && (HasTimer(es[1..], t) <==> HasTimer(es, t))
  {
  }

  /** What resetTimers does to one timer: the returning ones move on by exactly one interval. */
  lemma {:induction false} ResetTimer<T>(s: State<T>, es: seq<Entry<T>>, t: T)
    requires Resetting(s, es) && t in s.known
    ensures var r := ResetAll(s, es);
            if Moves(s, es, t)
            then r.known[t] == s.known[t].(when := s.known[t].when + s.known[t].step) && HasTimer(r.queue, t)
            else r.known[t] == s.known[t] && (HasTimer(r.queue, t) <==> HasTimer(s.queue, t))
    decreases es
  {
    if es != [] {
      ResetOneKeeps(s, es);
      if es[0].timer == t {
        ResetOneMine(s, es);
      } else {
        ResetOneOther(s, es, t);
      }
      ResetTimer(ResetOne(s, es[0]), es[1..], t);
    }
  }

  lemma InvFire<T>(s: State<T>, now: int, read: int)
    requires Inv(s) && Enabled(s, Fire(now, read))
    ensures Inv(Step(s, Fire(now, read)))
    ensures forall x :: x in s.queue <==> x in Step(s, Fire(now, read)).queue || x in Step(s, Fire(now, read)).batch
  {
  }

  lemma InvAdd<T>(s: State<T>, x: T, clock: int)
    requires Inv(s) && Enabled(s, Add(x, clock))
    ensures Inv(Step(s, Add(x, clock)))
  {
    var e := Entry(s.known[x].when, x);
    InsertMembers(s.queue, e);
    InsertSorted(s.queue, e);
    InsertDistinct(s.queue, e);
  }

  lemma InvCancel<T>(s: State<T>, x: T)
    requires Inv(s) && Enabled(s, Cancel(x))
    ensures Inv(Step(s, Cancel(x)))
    ensures x in s.added ==> Dead(Step(s, Cancel(x)), x)
  {
    var e := Entry(s.known[x].when, x);
    var i := IndexOf(s.queue, e);
    if i < |s.queue| {
      EraseKeeps(s.queue, i);
    } else if s.running {
      InsertMembers(s.cancelled, e);
    }
  }

  lemma InvFinish<T>(s: State<T>, clock: int)
    requires Inv(s) && Enabled(s, Finish(clock))
    ensures Inv(Step(s, Finish(clock)))
  {
    ResetAllKeeps(s, s.batch);
  }

  lemma StepInv<T>(s: State<T>, e: Event<T>)
    requires Inv(s) && Enabled(s, e)
    ensures Inv(Step(s, e))
  {
    match e
    case Make(_, _, _, _) =>
    case Add(x, clock) => InvAdd(s, x, clock);
    case Cancel(x) => InvCancel(s, x);
    case Fire(now, read) => InvFire(s, now, read);
    case RunNext => assert s.batch[s.done] in s.batch;
    case Finish(clock) => InvFinish(s, clock);
  }

  lemma {:induction false} RunInv<T>(s: State<T>, es: seq<Event<T>>)
    requires Inv(s) && Legal(s, es)
    ensures Inv(Run(s, es))
    decreases es
  {
    if es != [] {
      StepInv(s, es[0]);
      RunInv(Step(s, es[0]), es[1..]);
    }
  }

  /** In every reachable state the map is sorted, each entry's key is its timer's deadline, and no
      timer occurs twice in the map and the running batch together; only added timers occur, and
      those of the batch are overdue. */
  lemma MapWellFormed<T>(es: seq<Event<T>>)
    requires Legal(Init(), es)
    ensures var s := Run<T>(Init(), es);
            var all := s.queue + s.batch;
            Sorted(s.queue) && Sorted(s.batch) && Distinct(all)
            && (forall e :: e in all ==> e.timer in s.added && s.added <= s.known.Keys
                                         && e.key == s.known[e.timer].when)
            && (forall e :: e in s.batch ==> e.key < s.now)
  {
    RunInv(Init(), es);
  }

  // Cancellation

  function Count<T(==)>(ran: seq<T>, t: T): nat {
    if ran == [] then 0 else Count(ran[..|ran| - 1], t) + (if ran[|ran| - 1] == t then 1 else 0)
  }

  /** The timer's callback is still to come in the running batch. */
  ghost predicate Unrun<T>(s: State<T>, t: T) {
    HasTimer(s.batch[if s.done <= |s.batch| then s.done else 0..], t)
  }

  ghost function Pending<T>(s: State<T>, t: T): nat {
    if Unrun(s, t) then 1 else 0
  }

  /** An added timer that is in no map and will not return to one. */
  ghost predicate Dead<T>(s: State<T>, t: T) {
    t in s.added && !HasTimer(s.queue, t) && forall e :: e in s.batch && e.timer == t ==> e in s.cancelled
  }

  lemma StepDead<T>(s: State<T>, e: Event<T>, t: T)
    requires Inv(s) && Dead(s, t) && Enabled(s, e)
    ensures Dead(Step(s, e), t)
    ensures Count(Step(s, e).ran, t) + Pending(Step(s, e), t) == Count(s.ran, t) + Pending(s, t)
  {
    match e
    case Make(_, _, _, _) =>
    case Add(x, _) => InsertMembers(s.queue, Entry(s.known[x].when, x));
    case Cancel(x) =>
      var entry := Entry(s.known[x].when, x);
      var i := IndexOf(s.queue, entry);
      if i < |s.queue| {
        EraseKeeps(s.queue, i);
      } else if s.running {
        InsertMembers(s.cancelled, entry);
      }
    case Fire(now, _) =>
      var i := LowerBound(s.queue, now);
      assert forall x :: x in s.queue[..i] ==> x in s.queue;
      assert forall x :: x in s.queue[i..] ==> x in s.queue;
    case RunNext => RunNextCounts(s, t);
    case Finish(_) =>
      ResetTimer(s, s.batch, t);
  }

  lemma RunNextCounts<T>(s: State<T>, t: T)
    requires Inv(s) && Enabled(s, RunNext)
    ensures Count(Step(s, RunNext).ran, t) + Pending(Step(s, RunNext), t) == Count(s.ran, t) + Pending(s, t)
    ensures Count(Step(s, RunNext).ran, t) == Count(s.ran, t) + (if s.batch[s.done].timer == t then 1 else 0)
    ensures s.batch[s.done].timer == t ==> Unrun(s, t) && !Unrun(Step(s, RunNext), t)
  {
  }

  lemma {:induction false} RunDead<T>(s: State<T>, es: seq<Event<T>>, t: T)
    requires Inv(s) && Dead(s, t) && Legal(s, es)
    ensures Dead(Run(s, es), t)
    ensures Count(Run(s, es).ran, t) + Pending(Run(s, es), t) == Count(s.ran, t) + Pending(s, t)
    decreases es
  {
    if es != [] {
      StepInv(s, es[0]);
      StepDead(s, es[0], t);
      RunDead(Step(s, es[0]), es[1..], t);
    }
  }

  /** Once an added timer is cancelled it is never in the map again, whatever callbacks and tasks
      add and cancel afterwards; its callback runs at most once more, and only if it was still to
      come in the batch running at the cancellation. */
  lemma CancelledForGood<T>(es: seq<Event<T>>, t: T, fs: seq<Event<T>>)
    requires Legal(Init(), es + [Cancel(t)] + fs)
    requires Legal(Init(), es) && t in Run(Init(), es).added
    ensures var s, r := Run(Init(), es), Run(Init(), es + [Cancel(t)] + fs);
            !HasTimer(r.queue, t)
            && Count(r.ran, t) + Pending(r, t) == Count(s.ran, t) + Pending(s, t)
  {
    var s := Run<T>(Init(), es);
    RunInv(Init(), es);
    RunAppend(Init(), es + [Cancel(t)], fs);
    RunAppend(Init(), es, [Cancel(t)]);
    RunOne(s, Cancel(t));
    StepInv(s, Cancel(t));
    InvCancel(s, t);
    RunDead(Step(s, Cancel(t)), fs, t);
  }

  /** A cancellation that overtakes addTask does nothing: the timer is scheduled all the same. */
  lemma CancelBeforeAddIgnored<T>(s: State<T>, t: T, clock: int)
    requires Inv(s) && t in s.known && t !in s.added && s.clock <= clock
    ensures var c := Step(s, Cancel(t));
            c.queue == s.queue && Enabled(c, Add(t, clock)) && HasTimer(Step(c, Add(t, clock)).queue, t)
            && !Dead(Step(c, Add(t, clock)), t)
  {
  }
}
