/** src/tcp_server.cc: the server's map of connections. Connections are made and erased on the base
    loop and closed on their own loops, so closing and erasing interleave freely. */
module Registries {
  import opened Strings

  /** A connection is known by the number it took from `connIdx_`. `removals` are the erase tasks
      on their way to the base loop, `erased` those that have run, in order. */
  datatype State = State(
    connections: map<string, nat>,
    next: nat,
    names: seq<string>,
    closed: set<nat>,
    removals: seq<nat>,
    erased: seq<nat>)

  datatype Event = NewConnection(addr: string) | HandleClose(id: nat) | RunRemoval(i: nat)

  const INIT := State(map[], 0, [], {}, [], [])

  function Name(server: string, addr: string, idx: nat): string {
    server + "-" + addr + "#" + ToDecimal(idx)
  }

  /** The format of a name. */
  lemma NameExample()
    ensures Name("echo", "127.0.0.1:80", 7) == "echo-127.0.0.1:80#7"
  {
    assert ToDecimal(7) == "7";
  }

  lemma LastHash(a: string, x: string)
    requires '#' !in x
    ensures var s := a + "#" + x; s[|a|] == '#' && forall k :: |a| < k < |s| ==> s[k] != '#'
  {
  }

  lemma SameTail(a: string, c: string, x: string, y: string)
    requires a + "#" + x == c + "#" + y && '#' !in x && '#' !in y
    ensures x == y
  {
    LastHash(a, x);
    LastHash(c, y);
    var s := a + "#" + x;
    assert |a| == |c|;
    assert x == s[|a| + 1..] && y == (c + "#" + y)[|c| + 1..];
  }

  /** Names of different connections differ, whatever the addresses contain. */
  lemma NamesDiffer(server: string, a: string, b: string, i: nat, j: nat)
    requires Name(server, a, i) == Name(server, b, j)
    ensures i == j
  {
    assert forall c :: c in ToDecimal(i) ==> IsDigit(c);
    assert forall c :: c in ToDecimal(j) ==> IsDigit(c);
    SameTail(server + "-" + a, server + "-" + b, ToDecimal(i), ToDecimal(j));
    DecimalRoundTrip(i);
    DecimalRoundTrip(j);
  }

  /** Erase tasks of different loops reach the base loop in any order, and nothing keeps handleClose
      from running twice on a connection. */
  predicate Enabled(s: State, e: Event) {
    match e
    case NewConnection(_) => true
    case HandleClose(id) => id < s.next
    case RunRemoval(i) => i < |s.removals| && s.removals[i] < |s.names|
  }

  function Step(server: string, s: State, e: Event): State
    requires Enabled(s, e)
  {
    match e
    case NewConnection(addr) =>
      var name := Name(server, addr, s.next);
      s.(connections := s.connections[name := s.next], names := s.names + [name], next := s.next + 1)
    case HandleClose(id) => s.(closed := s.closed + {id}, removals := s.removals + [id])
    case RunRemoval(i) =>
      var id := s.removals[i];
      s.(connections := s.connections - {s.names[id]}, erased := s.erased + [id],
         removals := s.removals[..i] + s.removals[i + 1..])
  }

  ghost predicate Legal(server: string, s: State, es: seq<Event>)
    decreases es
  {
    es == [] || (Enabled(s, es[0]) && Legal(server, Step(server, s, es[0]), es[1..]))
  }

  ghost function Run(server: string, s: State, es: seq<Event>): State
    requires Legal(server, s, es)
    decreases es
  {
    if es == [] then s else Run(server, Step(server, s, es[0]), es[1..])
  }

  ghost predicate IsNameOf(server: string, name: string, id: nat) {
    exists addr :: name == Name(server, addr, id)
  }

  ghost predicate Named(server: string, s: State) {
    |s.names| == s.next &&
    forall i :: 0 <= i < |s.names| ==> IsNameOf(server, s.names[i], i)
  }

  /** The map holds exactly the connections not erased, each under its own name. */
  ghost predicate Exact(s: State) {
    && |s.names| == s.next
    && (forall n :: n in s.connections ==>
          s.connections[n] < s.next && s.names[s.connections[n]] == n && s.connections[n] !in s.erased)
    && (forall id :: 0 <= id < s.next && id !in s.erased ==>
          s.names[id] in s.connections && s.connections[s.names[id]] == id)
  }

  ghost predicate Inv(server: string, s: State) {
    && Named(server, s) && Exact(s)
    && (forall id :: id in s.removals ==> id < s.next)
    && (forall id :: id in s.erased ==> id < s.next)
  }

  lemma NamesDistinct(server: string, s: State, i: nat, j: nat)
    requires Named(server, s) && i < |s.names| && j < |s.names| && s.names[i] == s.names[j]
    ensures i == j
  {
    var a :| s.names[i] == Name(server, a, i);
    var b :| s.names[j] == Name(server, b, j);
    NamesDiffer(server, a, b, i, j);
  }

  lemma InvNew(server: string, s: State, addr: string)
    requires Inv(server, s)
    ensures Inv(server, Step(server, s, NewConnection(addr)))
    ensures Name(server, addr, s.next) !in s.connections
  {
    var name := Name(server, addr, s.next);
    var t := Step(server, s, NewConnection(addr));
    forall i | 0 <= i < |t.names|
      ensures IsNameOf(server, t.names[i], i)
    {
      if i == s.next {
        assert t.names[i] == Name(server, addr, i);
      } else {
        assert t.names[i] == s.names[i];
      }
    }
    forall i | 0 <= i < s.next
      ensures s.names[i] != name
    {
      assert t.names[i] == s.names[i] && t.names[s.next] == name;
      if s.names[i] == name {
        NamesDistinct(server, t, i, s.next);
      }
    }
    assert forall id :: 0 <= id < s.next ==> t.names[id] == s.names[id];
  }

  lemma InvRemoval(server: string, s: State, i: nat)
    requires Inv(server, s) && Enabled(s, RunRemoval(i))
    ensures Inv(server, Step(server, s, RunRemoval(i)))
    ensures s.names[s.removals[i]] in s.connections <==> s.removals[i] !in s.erased
  {
    var id := s.removals[i];
    var t := Step(server, s, RunRemoval(i));
    assert forall x :: x in t.removals ==> x in s.removals;
    assert forall x :: x in t.erased <==> x in s.erased || x == id;
    forall k | 0 <= k < s.next && s.names[k] == s.names[id]
      ensures k == id
    {
      NamesDistinct(server, s, k, id);
    }
  }

  lemma StepInv(server: string, s: State, e: Event)
    requires Inv(server, s) && Enabled(s, e)
    ensures Inv(server, Step(server, s, e))
  {
    match e
    case NewConnection(addr) => InvNew(server, s, addr);
    case HandleClose(id) => assert s.removals + [id] == Step(server, s, e).removals;
    case RunRemoval(i) => InvRemoval(server, s, i);
  }

  lemma {:induction false} RunInv(server: string, s: State, es: seq<Event>)
    requires Inv(server, s) && Legal(server, s, es)
    ensures Inv(server, Run(server, s, es))
    decreases es
  {
    if es != [] {
      StepInv(server, s, es[0]);
      RunInv(server, Step(server, s, es[0]), es[1..]);
    }
  }

  /** In every interleaving of the loops the map holds exactly the connections made whose erase task
      has not run, each under its own name, and a new connection's name is never taken. */
  lemma RegistryExact(server: string, es: seq<Event>, addr: string)
    requires Legal(server, INIT, es)
    ensures var s := Run(server, INIT, es);
            |s.names| == s.next
            && (forall id :: 0 <= id < s.next ==>
                  ((s.names[id] in s.connections && s.connections[s.names[id]] == id) <==> id !in s.erased))
            && (forall n :: n in s.connections ==> s.connections[n] < s.next && n == s.names[s.connections[n]])
            && Name(server, addr, s.next) !in s.connections
  {
    RunInv(server, INIT, es);
    InvNew(server, Run(server, INIT, es), addr);
  }

  /** The number erase returns, which the source asserts to be one. */
  function ErasedBy(s: State, i: nat): nat
    requires Enabled(s, RunRemoval(i))
  {
    if s.names[s.removals[i]] in s.connections then 1 else 0
  }

  /** Every removal of the run erased exactly one entry. */
  ghost predicate AllEraseOne(server: string, s: State, es: seq<Event>)
    requires Legal(server, s, es)
    decreases es
  {
    es == [] ||
    ((es[0].RunRemoval? ==> ErasedBy(s, es[0].i) == 1) && AllEraseOne(server, Step(server, s, es[0]), es[1..]))
  }

  ghost predicate NoDuplicates(ids: seq<nat>) {
    forall i, j :: 0 <= i < j < |ids| ==> ids[i] != ids[j]
  }

  lemma OneMore(ids: seq<nat>, id: nat)
    requires NoDuplicates(ids)
    ensures NoDuplicates(ids + [id]) <==> id !in ids
  {
    var v := ids + [id];
    if id in ids {
      var k :| 0 <= k < |ids| && ids[k] == id;
      assert v[k] == v[|ids|];
    }
  }

  /** A sequence that lists the same elements at other places has no duplicates either. */
  lemma Rearranged(v: seq<nat>, w: seq<nat>, place: seq<nat>)
    requires NoDuplicates(v) && |place| == |w|
    requires forall k :: 0 <= k < |w| ==> place[k] < |v| && w[k] == v[place[k]]
    requires forall k, j :: 0 <= k < j < |place| ==> place[k] != place[j]
    ensures NoDuplicates(w)
  {
  }

  lemma {:induction false} ErasedGrows(server: string, s: State, es: seq<Event>)
    requires Legal(server, s, es)
    ensures s.erased <= Run(server, s, es).erased
    decreases es
  {
    if es != [] {
      ErasedGrows(server, Step(server, s, es[0]), es[1..]);
    }
  }

  lemma {:induction false} ErasesOneIff(server: string, s: State, es: seq<Event>)
    requires Inv(server, s) && Legal(server, s, es) && NoDuplicates(s.erased)
    ensures AllEraseOne(server, s, es) <==> NoDuplicates(Run(server, s, es).erased)
    decreases es
  {
    if es != [] {
      StepInv(server, s, es[0]);
      var t := Step(server, s, es[0]);
      ErasedGrows(server, t, es[1..]);
      if es[0].RunRemoval? {
        var id := s.removals[es[0].i];
        InvRemoval(server, s, es[0].i);
        OneMore(s.erased, id);
      }
      if NoDuplicates(t.erased) {
        ErasesOneIff(server, t, es[1..]);
      } else {
        var r := Run(server, s, es);
        assert forall k :: 0 <= k < |t.erased| ==> r.erased[k] == t.erased[k];
      }
    }
  }

  /** Every removal erases exactly one entry if and only if no connection's erase task runs twice. */
  lemma RemovalsEraseOneIff(server: string, es: seq<Event>)
    requires Legal(server, INIT, es)
    ensures AllEraseOne(server, INIT, es) <==> NoDuplicates(Run(server, INIT, es).erased)
  {
    RunInv(server, INIT, es);
    ErasesOneIff(server, INIT, es);
  }

  /** In a build without assertions a connection whose handleClose runs twice, as when one event reports
      a hangup and the peer's half-close without input, has two erase tasks, and the second one erases
      nothing. With assertions the second handleClose already fails, in the poller's updateChannel. */
  lemma DoubleCloseErasesNothing(server: string, addr: string)
    ensures var es := [NewConnection(addr), HandleClose(0), HandleClose(0), RunRemoval(0), RunRemoval(0)];
            Legal(server, INIT, es) && !AllEraseOne(server, INIT, es)
  {
    var a, b, d := NewConnection(addr), HandleClose(0), RunRemoval(0);
    var s1 := Step(server, INIT, a);
    var s2 := Step(server, s1, b);
    var s3 := Step(server, s2, b);
    SecondErasesNothing(server, s3, Name(server, addr, 0));
    NotErased(server, Step(server, s3, d), d, []);
    NotErased(server, s3, d, [d]);
    NotErased(server, s2, b, [d, d]);
    NotErased(server, s1, b, [b, d, d]);
    NotErased(server, INIT, a, [b, b, d, d]);
    assert [a] + [b, b, d, d] == [a, b, b, d, d];
  }

  lemma SecondErasesNothing(server: string, s: State, name: string)
    requires s.removals == [0, 0] && s.names == [name] && s.connections == map[name := 0]
    ensures var t := Step(server, s, RunRemoval(0));
            Enabled(t, RunRemoval(0)) && ErasedBy(t, 0) == 0
  {
    var t := Step(server, s, RunRemoval(0));
    assert t.removals == [0] && t.connections == map[];
  }

  /** A removal that erases nothing, now or later in the run. */
  lemma NotErased(server: string, s: State, e: Event, es: seq<Event>)
    requires Enabled(s, e) && Legal(server, Step(server, s, e), es)
    requires (e.RunRemoval? && ErasedBy(s, e.i) != 1) || !AllEraseOne(server, Step(server, s, e), es)
    ensures Legal(server, s, [e] + es) && !AllEraseOne(server, s, [e] + es)
  {
    assert ([e] + es)[1..] == es;
  }

  /** handleClose runs at most once per connection. */
  ghost predicate ClosesOnce(server: string, s: State, es: seq<Event>)
    requires Legal(server, s, es)
    decreases es
  {
    es == [] ||
    ((es[0].HandleClose? ==> es[0].id !in s.closed) && ClosesOnce(server, Step(server, s, es[0]), es[1..]))
  }

  /** Every closed connection has one erase task, queued or run. */
  ghost predicate OneRemoval(s: State) {
    NoDuplicates(s.removals + s.erased) && forall id :: id in s.removals + s.erased <==> id in s.closed
  }

  lemma Moved(removals: seq<nat>, erased: seq<nat>, i: nat)
    requires i < |removals| && NoDuplicates(removals + erased)
    ensures var r := (removals[..i] + removals[i + 1..]) + (erased + [removals[i]]);
            NoDuplicates(r) && forall x :: x in r <==> x in removals + erased
  {
    var v := removals + erased;
    var r := (removals[..i] + removals[i + 1..]) + (erased + [removals[i]]);
    assert v[i] == removals[i];
    var place := seq(|r|, k requires 0 <= k < |r| => if k < i then k else if k + 1 < |r| then k + 1 else i);
    Rearranged(v, r, place);
    forall x | x in v
      ensures x in r
    {
      var k :| 0 <= k < |v| && v[k] == x;
      assert r[if k < i then k else if k == i then |r| - 1 else k - 1] == x;
    }
  }

  lemma StepOne(server: string, s: State, e: Event)
    requires OneRemoval(s) && Enabled(s, e) && (e.HandleClose? ==> e.id !in s.closed)
    ensures OneRemoval(Step(server, s, e))
  {
    match e
    case NewConnection(_) =>
    case HandleClose(id) =>
      var v, w := s.removals + s.erased, s.removals + [id] + s.erased;
      assert id !in v;
      OneMore(v, id);
      Rearranged(v + [id], w, seq(|w|, k requires 0 <= k < |w| =>
        if k < |s.removals| then k else if k == |s.removals| then |v| else k - 1));
      forall x | x in v
        ensures x in w
      {
        var k :| 0 <= k < |v| && v[k] == x;
        assert w[if k < |s.removals| then k else k + 1] == x;
      }
    case RunRemoval(i) => Moved(s.removals, s.erased, i);
  }

  lemma {:induction false} RunOnce(server: string, s: State, es: seq<Event>)
    requires OneRemoval(s) && Legal(server, s, es) && ClosesOnce(server, s, es)
    ensures OneRemoval(Run(server, s, es))
    decreases es
  {
    if es != [] {
      StepOne(server, s, es[0]);
      RunOnce(server, Step(server, s, es[0]), es[1..]);
    }
  }

  /** As long as handleClose runs at most once per connection every removal erases exactly one
      entry. */
  lemma ClosesOnceErasesOne(server: string, es: seq<Event>)
    requires Legal(server, INIT, es) && ClosesOnce(server, INIT, es)
    ensures AllEraseOne(server, INIT, es)
  {
    RunOnce(server, INIT, es);
    var s := Run(server, INIT, es);
    assert forall k :: 0 <= k < |s.erased| ==> s.erased[k] == (s.removals + s.erased)[|s.removals| + k];
    RemovalsEraseOneIff(server, es);
  }

  /** How often handleClose has run on each connection: its erase tasks are queued or have run. */
  ghost function Closings(s: State): multiset<nat> {
    multiset(s.removals) + multiset(s.erased)
  }

  lemma StepClosings(server: string, s: State, e: Event)
    requires Enabled(s, e)
    ensures Closings(Step(server, s, e)) == Closings(s) + (if e.HandleClose? then multiset{e.id} else multiset{})
  {
    if e.RunRemoval? {
      assert s.removals == s.removals[..e.i] + [s.removals[e.i]] + s.removals[e.i + 1..];
    }
  }

  lemma {:induction false} ClosingsGrow(server: string, s: State, es: seq<Event>, id: nat)
    requires Legal(server, s, es)
    ensures Closings(s)[id] <= Closings(Run(server, s, es))[id]
    decreases es
  {
    if es != [] {
      StepClosings(server, s, es[0]);
      ClosingsGrow(server, Step(server, s, es[0]), es[1..], id);
    }
  }

  lemma {:induction false} ClosedTwice(server: string, s: State, es: seq<Event>) returns (id: nat)
    requires Legal(server, s, es) && !ClosesOnce(server, s, es)
    requires forall x :: x in s.closed ==> x in Closings(s)
    ensures Closings(Run(server, s, es))[id] >= 2
    decreases es
  {
    StepClosings(server, s, es[0]);
    var t := Step(server, s, es[0]);
    if es[0].HandleClose? && es[0].id in s.closed {
      id := es[0].id;
      ClosingsGrow(server, t, es[1..], id);
    } else {
      id := ClosedTwice(server, t, es[1..]);
    }
  }

  lemma {:induction false} OccursOnce(ids: seq<nat>, id: nat)
    requires NoDuplicates(ids)
    ensures multiset(ids)[id] <= 1
    decreases ids
  {
    if ids != [] {
      assert ids == [ids[0]] + ids[1..];
      OccursOnce(ids[1..], id);
      assert ids[0] !in ids[1..];
    }
  }

  /** In a run that lets every erase task run, each of them erases exactly one entry if and only if
      handleClose ran at most once per connection. */
  lemma ErasesOneIffClosedOnce(server: string, es: seq<Event>)
    requires Legal(server, INIT, es) && Run(server, INIT, es).removals == []
    ensures AllEraseOne(server, INIT, es) <==> ClosesOnce(server, INIT, es)
  {
    if ClosesOnce(server, INIT, es) {
      ClosesOnceErasesOne(server, es);
    } else {
      var id := ClosedTwice(server, INIT, es);
      RemovalsEraseOneIff(server, es);
      if AllEraseOne(server, INIT, es) {
        OccursOnce(Run(server, INIT, es).erased, id);
        assert false;
      }
    }
  }

  // The server object

  /** The erase tasks carry the names of their connections. */
  predicate CarryNames(tasks: seq<string>, s: State) {
    |tasks| == |s.removals| &&
    forall i :: 0 <= i < |tasks| ==> s.removals[i] < |s.names| && tasks[i] == s.names[s.removals[i]]
  }

  /** `tasks` holds the names that the erase tasks on their way to the base loop carry. */
  class TcpServer {
    const name: string
    var connections: map<string, nat>
    var connIdx: nat
    var tasks: seq<string>
    ghost var state: State

    ghost predicate Valid()
      reads this
    {
      Inv(name, state) && connections == state.connections && connIdx == state.next && CarryNames(tasks, state)
    }

    constructor (name: string)
      ensures Valid() && state == INIT && this.name == name
    {
      this.name := name;
      connections, connIdx, tasks, state := map[], 0, [], INIT;
    }

    method AcceptConnection(addr: string) returns (connName: string)
      requires Valid()
      modifies this
      ensures Valid() && state == Step(name, old(state), NewConnection(addr))
      ensures connName !in old(connections) && connections == old(connections)[connName := old(connIdx)]
      ensures connName == state.names[old(connIdx)]
    {
      InvNew(name, state, addr);
      connName := Name(name, addr, connIdx);
      connections := connections[connName := connIdx];
      connIdx := connIdx + 1;
      state := Step(name, state, NewConnection(addr));
    }

    /** removeConn, which handleClose of connection `id` calls: the erasing is left to the base loop. */
    method RemoveConn(connName: string, ghost id: nat)
      requires Valid() && Enabled(state, HandleClose(id)) && connName == state.names[id]
      modifies this
      ensures Valid() && state == Step(name, old(state), HandleClose(id))
      ensures tasks == old(tasks) + [connName] && connections == old(connections)
    {
      StepInv(name, state, HandleClose(id));
      tasks := tasks + [connName];
      state := Step(name, state, HandleClose(id));
    }

    /** The i-th of the erase tasks under way is run; `n` is what erase returns. */
    method EraseTask(i: nat) returns (n: nat)
      requires Valid() && i < |tasks|
      modifies this
      ensures Valid() && Enabled(old(state), RunRemoval(i))
      ensures state == Step(name, old(state), RunRemoval(i)) && n == ErasedBy(old(state), i)
      ensures connections == old(connections) - {old(tasks)[i]}
    {
      InvRemoval(name, state, i);
      var connName := tasks[i];
      tasks := tasks[..i] + tasks[i + 1..];
      state := Step(name, state, RunRemoval(i));
      n := Erase(connName);
    }

    /** erase on the map, with its count. */
    method Erase(key: string) returns (n: nat)
      modifies this`connections
      ensures connections == old(connections) - {key}
      ensures n == if key in old(connections) then 1 else 0
    {
      var before := |connections|;
      if key in connections {
        assert connections == (connections - {key})[key := connections[key]];
      } else {
        assert connections == connections - {key};
      }
      connections := connections - {key};
      n := before - |connections|;
    }
  }
}
