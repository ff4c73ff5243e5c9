/** src/tcp_connection.cc: the outgoing byte stream and the half-close of one connection.
    `Conn` is the connection as a value and `Step` what each operation does to it; a run is any
    legal sequence of operations, in any interleaving, with any results of `write`. Class
    `TcpConnection` changes its fields and its buffer in place and is proved to follow `Step`. */
module Connections {
  import opened Buffers
  import opened Channels
  import Pollers
  import Registries

  datatype Phase = Connecting | Connected | Disconnecting | Disconnected

  datatype Conn = Conn(
    phase: Phase,
    events: Mask,       // the channel's interest
    out: Buf,
    accepted: string,   // every byte the kernel has taken, in order
    halfClosed: bool,   // SHUT_WR has been issued
    closed: bool,       // handleClose has run
    tested: nat,        // callers of shutdown() between their state test and their store
    pending: nat,       // stores of shutdown() whose shutdownTask has not run yet
    asked: bool)        // some shutdown() has stored Disconnecting
  {
    predicate Valid() { out.Valid() }

    /** What has left plus what still waits, in order. */
    function Stream(): string
      requires Valid()
    {
      accepted + out.View()
    }
  }

  /** `wrote` is the result of the write system call, -1 on failure; `grown` the capacity the
      allocator would pick. The three parts of shutdown() are separate because the caller may be
      on another thread. */
  datatype Event =
    | Establish
    | SendTask(msg: string, wrote: int, grown: nat)
    | HandleWrite(wrote: int)
    | ShutdownTest
    | ShutdownStore
    | ShutdownTask
    | CloseStore
    | HandleClose

  const MAX_STRING: nat := SIZE_MOD / 2 - 1

  /** `cap` is the capacity that the vector has after its first reserve. */
  function Fresh(cap: nat): Conn {
    Conn(Connecting, NO_EVENTS, Empty(cap), "", false, false, 0, 0, false)
  }

  /** What the assertions, the kernel and the two threads allow. After handleClose the tasks still
      queued run on, and so do later callbacks of the same event; only a change of the channel's
      interest then meets an assertion, because the poller no longer knows the channel. */
  predicate Enabled(c: Conn, e: Event)
    requires c.Valid()
  {
    match e
    case Establish => !c.closed && c.phase == Connecting
    case SendTask(msg, wrote, _) =>
      |msg| <= MAX_STRING && -1 <= wrote <= |msg|
      && (c.closed ==> msg == "" || (Direct(c) && (wrote < 0 || wrote == |msg|)))
    case HandleWrite(wrote) => -1 <= wrote <= c.out.Readable()
    case ShutdownTest => true
    case ShutdownStore => c.tested > 0
    case ShutdownTask => c.pending > 0
    case CloseStore => true
    case HandleClose => !c.closed
  }

  /** A signed result stored in a std::string::size_type. */
  function AsSize(wrote: int): nat
    requires -1 <= wrote < SIZE_MOD
  {
    if wrote < 0 then wrote + SIZE_MOD else wrote
  }

  /** `sendTask` writes to the socket itself only when nothing is waiting. */
  predicate Direct(c: Conn)
    requires c.Valid()
  {
    !c.events.write && c.out.Readable() == 0
  }

  function AfterSend(c: Conn, msg: string, wrote: int, grown: nat): (d: Conn)
    requires c.Valid() && Enabled(c, SendTask(msg, wrote, grown))
    ensures d.Valid()
  {
    var n := if Direct(c) then AsSize(wrote) else 0;
    var took := if Direct(c) && wrote > 0 then msg[..wrote] else "";
    var d := c.(accepted := c.accepted + took);
    if n < |msg|
    then d.(out := Append(d.out, msg[n..], grown), events := d.events.(write := true))
    else d
  }

  function AfterShutdownTask(c: Conn): Conn {
    if c.events.write then c else c.(halfClosed := true)
  }

  function AfterWrite(c: Conn, wrote: int): (d: Conn)
    requires c.Valid() && Enabled(c, HandleWrite(wrote))
    ensures d.Valid()
  {
    if !c.events.write || wrote <= 0 then c
    else
      var d := c.(accepted := c.accepted + c.out.View()[..wrote], out := Retrieve(c.out, wrote));
      if d.out.Readable() != 0 then d
      else
        var q := d.(events := d.events.(write := false));
        if q.phase == Disconnecting then AfterShutdownTask(q) else q
  }

  function Step(c: Conn, e: Event): (d: Conn)
    requires c.Valid() && Enabled(c, e)
    ensures d.Valid()
  {
    match e
    case Establish => c.(phase := Connected, events := c.events.(read := true))
    case SendTask(msg, wrote, grown) => AfterSend(c, msg, wrote, grown)
    case HandleWrite(wrote) => AfterWrite(c, wrote)
    case ShutdownTest => if c.phase != Connected then c else c.(tested := c.tested + 1)
    case ShutdownStore =>
      c.(phase := Disconnecting, tested := c.tested - 1, pending := c.pending + 1, asked := true)
    case ShutdownTask => AfterShutdownTask(c.(pending := c.pending - 1))
    case CloseStore => c.(phase := Disconnecting)
    case HandleClose => c.(phase := Disconnected, events := NO_EVENTS, closed := true)
  }

  ghost predicate Legal(c: Conn, es: seq<Event>)
    requires c.Valid()
    decreases es
  {
    es == [] || (Enabled(c, es[0]) && Legal(Step(c, es[0]), es[1..]))
  }

  ghost function Run(c: Conn, es: seq<Event>): (d: Conn)
    requires c.Valid() && Legal(c, es)
    ensures d.Valid()
    decreases es
  {
    if es == [] then c else Run(Step(c, es[0]), es[1..])
  }

  // Conservation of the byte stream

  /** The direct write failed: the -1 becomes the largest size and nothing is buffered. */
  predicate Dropped(c: Conn, e: Event)
    requires c.Valid()
  {
    e.SendTask? && Direct(c) && e.wrote < 0
  }

  /** The message handed to `sendTask`, unless it was dropped. */
  function Handed(c: Conn, e: Event): string
    requires c.Valid()
  {
    if e.SendTask? && !Dropped(c, e) then e.msg else ""
  }

  /** `sendTask` appends to a buffer whose consumed bytes fill the vector. */
  predicate Resurrects(c: Conn, e: Event)
    requires c.Valid() && Enabled(c, e)
  {
    e.SendTask? && Degenerate(c.out) && !Dropped(c, e)
    && (if Direct(c) then e.wrote else 0) < |e.msg|
  }

  ghost function AllHanded(c: Conn, es: seq<Event>): string
    requires c.Valid() && Legal(c, es)
    decreases es
  {
    if es == [] then "" else Handed(c, es[0]) + AllHanded(Step(c, es[0]), es[1..])
  }

  ghost predicate EverResurrects(c: Conn, es: seq<Event>)
    requires c.Valid() && Legal(c, es)
    decreases es
  {
    es != [] && (Resurrects(c, es[0]) || EverResurrects(Step(c, es[0]), es[1..]))
  }

  /** Bytes and a message split anywhere, put together again. */
  lemma Joined(before: string, view: string, msg: string, n: nat)
    requires n <= |msg| && (n > 0 ==> view == "")
    ensures before + msg[..n] + (view + msg[n..]) == before + view + msg
  {
  }

  /** The rest of a message joins the buffer. */
  lemma RestBuffered(c: Conn, msg: string, n: nat, grown: nat)
    requires c.Valid() && n < |msg| && (n > 0 ==> c.out.Readable() == 0)
    ensures var stream := c.accepted + msg[..n] + Append(c.out, msg[n..], grown).View();
            if Degenerate(c.out)
            then |stream| > |c.Stream()| + |msg|
            else stream == c.Stream() + msg
  {
    AppendExact(c.out, msg[n..], grown);
    if !Degenerate(c.out) {
      Joined(c.accepted, c.out.View(), msg, n);
    }
  }

  lemma SendStream(c: Conn, msg: string, wrote: int, grown: nat)
    requires c.Valid() && Enabled(c, SendTask(msg, wrote, grown))
    ensures var e := SendTask(msg, wrote, grown);
            var d := AfterSend(c, msg, wrote, grown);
            if Resurrects(c, e)
            then |d.Stream()| > |c.Stream()| + |Handed(c, e)|
            else d.Stream() == c.Stream() + Handed(c, e)
  {
    var d := AfterSend(c, msg, wrote, grown);
    var n := if Direct(c) then AsSize(wrote) else 0;
    if n < |msg| {
      RestBuffered(c, msg, n, grown);
      assert d.Stream() == c.accepted + msg[..n] + Append(c.out, msg[n..], grown).View();
    } else if Direct(c) && wrote >= 0 {
      assert msg[..wrote] == msg && c.out.View() == "";
      assert d.Stream() == c.Stream() + msg;
    }
  }

  lemma DrainStream(c: Conn, wrote: int)
    requires c.Valid() && Enabled(c, HandleWrite(wrote))
    ensures AfterWrite(c, wrote).Stream() == c.Stream()
  {
    if c.events.write && wrote > 0 {
      var v := c.out.View();
      assert v == v[..wrote] + v[wrote..];
      assert Retrieve(c.out, wrote).View() == v[wrote..];
      assert AfterWrite(c, wrote).Stream() == c.accepted + v[..wrote] + v[wrote..];
    }
  }

  lemma StepStream(c: Conn, e: Event)
    requires c.Valid() && Enabled(c, e)
    ensures if Resurrects(c, e)
            then |Step(c, e).Stream()| > |c.Stream()| + |Handed(c, e)|
            else Step(c, e).Stream() == c.Stream() + Handed(c, e)
  {
    match e
    case SendTask(msg, wrote, grown) => SendStream(c, msg, wrote, grown);
    case HandleWrite(wrote) => DrainStream(c, wrote);
    case _ => assert Step(c, e).Stream() == c.Stream();
  }

  lemma {:induction false} StreamLength(c: Conn, es: seq<Event>)
    requires c.Valid() && Legal(c, es)
    ensures |Run(c, es).Stream()| >= |c.Stream()| + |AllHanded(c, es)|
    ensures EverResurrects(c, es) ==> |Run(c, es).Stream()| > |c.Stream()| + |AllHanded(c, es)|
    decreases es
  {
    if es != [] {
      StepStream(c, es[0]);
      StreamLength(Step(c, es[0]), es[1..]);
    }
  }

  lemma Associative(a: string, b: string, c: string)
    ensures a + b + c == a + (b + c)
  {
  }

  lemma {:induction false} StreamKept(c: Conn, es: seq<Event>)
    requires c.Valid() && Legal(c, es) && !EverResurrects(c, es)
    ensures Run(c, es).Stream() == c.Stream() + AllHanded(c, es)
    decreases es
  {
    if es != [] {
      StepStream(c, es[0]);
      StreamKept(Step(c, es[0]), es[1..]);
      Associative(c.Stream(), Handed(c, es[0]), AllHanded(Step(c, es[0]), es[1..]));
    }
  }

  /** Byte-stream conservation, exactly: after any run the bytes the kernel took followed by the
      bytes still waiting are all messages handed over and not dropped, in order, if and only if
      no append of the run met a degenerate buffer. */
  lemma StreamConserved(cap: nat, es: seq<Event>)
    requires Legal(Fresh(cap), es)
    ensures Run(Fresh(cap), es).Stream() == AllHanded(Fresh(cap), es) <==> !EverResurrects(Fresh(cap), es)
  {
    var c := Fresh(cap);
    assert c.Stream() == "";
    StreamLength(c, es);
    if !EverResurrects(c, es) {
      StreamKept(c, es);
      assert c.Stream() + AllHanded(c, es) == AllHanded(c, es);
    }
  }

  // Flush before half-close

  /** Up to handleClose, write interest is on exactly while bytes wait. */
  predicate FlushInvariant(c: Conn)
    requires c.Valid()
  {
    !c.closed ==> (c.events.write <==> c.out.Readable() != 0)
  }

  /** A shutdown that took effect has been carried out, or is still owed by a queued task or by
      the handler that drains the buffer. */
  predicate ShutdownOwed(c: Conn) {
    c.asked && !c.closed ==> c.halfClosed || c.pending > 0 || c.events.write
  }

  predicate Coherent(c: Conn) {
    && (c.asked && !c.closed ==> c.phase == Disconnecting)
    && (c.tested > 0 ==> c.phase != Connecting)
    && (c.closed ==> !c.events.write)
  }

  predicate Inv(c: Conn) {
    c.Valid() && FlushInvariant(c) && ShutdownOwed(c) && Coherent(c)
  }

  lemma StepInv(c: Conn, e: Event)
    requires Inv(c) && Enabled(c, e)
    ensures Inv(Step(c, e))
    ensures !c.closed && !c.halfClosed && Step(c, e).halfClosed ==> Step(c, e).out.View() == ""
    ensures c.halfClosed ==> Step(c, e).halfClosed
    ensures c.asked ==> Step(c, e).asked
  {
  }

  lemma {:induction false} RunInv(c: Conn, es: seq<Event>)
    requires Inv(c) && Legal(c, es)
    ensures Inv(Run(c, es))
    ensures c.asked ==> Run(c, es).asked
    decreases es
  {
    if es != [] {
      StepInv(c, es[0]);
      RunInv(Step(c, es[0]), es[1..]);
    }
  }

  lemma {:induction false} RunAppend(c: Conn, es: seq<Event>, fs: seq<Event>)
    requires c.Valid() && (Legal(c, es + fs) || (Legal(c, es) && Legal(Run(c, es), fs)))
    ensures Legal(c, es + fs) && Legal(c, es) && Legal(Run(c, es), fs)
    ensures Run(c, es + fs) == Run(Run(c, es), fs)
    decreases es
  {
    if es == [] {
      assert es + fs == fs;
    } else {
      assert (es + fs)[0] == es[0] && (es + fs)[1..] == es[1..] + fs;
      RunAppend(Step(c, es[0]), es[1..], fs);
    }
  }

  lemma RunCons(c: Conn, e: Event, es: seq<Event>)
    requires c.Valid() && Enabled(c, e) && Legal(Step(c, e), es)
    ensures Legal(c, [e] + es) && Run(c, [e] + es) == Run(Step(c, e), es)
    ensures AllHanded(c, [e] + es) == Handed(c, e) + AllHanded(Step(c, e), es)
  {
  }

  lemma RunThree(c: Conn, x: Event, y: Event, z: Event)
    requires c.Valid() && Enabled(c, x) && Enabled(Step(c, x), y) && Enabled(Step(Step(c, x), y), z)
    ensures Legal(c, [x, y, z]) && Run(c, [x, y, z]) == Step(Step(Step(c, x), y), z)
    ensures AllHanded(c, [x, y, z])
         == Handed(c, x) + (Handed(Step(c, x), y) + (Handed(Step(Step(c, x), y), z) + ""))
  {
    var d := Step(c, x);
    var e := Step(d, y);
    RunCons(e, z, []);
    RunCons(d, y, [z]);
    RunCons(c, x, [y, z]);
    assert [z] + [] == [z] && [y] + [z] == [y, z] && [x] + [y, z] == [x, y, z];
  }

  /** Up to handleClose SHUT_WR is only ever issued on an empty buffer, and when no append was degenerate the kernel
      has by then taken every message handed over before it. */
  lemma HalfCloseAfterFlush(cap: nat, es: seq<Event>, e: Event)
    requires Legal(Fresh(cap), es + [e])
    ensures Legal(Fresh(cap), es) && Enabled(Run(Fresh(cap), es), e)
    ensures var c, d := Run(Fresh(cap), es), Run(Fresh(cap), es + [e]);
            !c.closed && !c.halfClosed && d.halfClosed ==>
              d.out.View() == "" &&
              (d.accepted == AllHanded(Fresh(cap), es + [e]) <==> !EverResurrects(Fresh(cap), es + [e]))
  {
    RunAppend(Fresh(cap), es, [e]);
    var c := Run(Fresh(cap), es);
    assert Run(c, [e]) == Step(c, e);
    RunInv(Fresh(cap), es);
    StepInv(c, e);
    StreamConserved(cap, es + [e]);
    var d := Run(Fresh(cap), es + [e]);
    if d.out.View() == "" {
      assert d.Stream() == d.accepted;
    }
  }

  /** Once some shutdown() has stored its state, at every later point up to handleClose SHUT_WR
      has been issued, or a shutdownTask is still to run, or the buffer is still draining with
      write interest on, whose last write issues it. */
  lemma ShutdownNotForgotten(cap: nat, es: seq<Event>, fs: seq<Event>)
    requires Legal(Fresh(cap), es + [ShutdownStore] + fs)
    ensures var c := Run(Fresh(cap), es + [ShutdownStore] + fs);
            !c.closed ==>
              (c.halfClosed || c.pending > 0 || (c.events.write && c.phase == Disconnecting))
              && (c.events.write <==> c.out.View() != "")
  {
    RunAppend(Fresh(cap), es + [ShutdownStore], fs);
    RunAppend(Fresh(cap), es, [ShutdownStore]);
    RunInv(Fresh(cap), es);
    var c := Run(Fresh(cap), es);
    assert Run(c, [ShutdownStore]) == Step(c, ShutdownStore);
    StepInv(c, ShutdownStore);
    RunInv(Step(c, ShutdownStore), fs);
  }

  /** A shutdownTask that runs only after handleClose, when bytes are still waiting. */
  predicate LateShutdown(c: Conn, e: Event)
    requires c.Valid()
  {
    e.ShutdownTask? && c.closed && !c.halfClosed && c.out.View() != ""
  }

  ghost predicate NoLateShutdown(c: Conn, es: seq<Event>)
    requires c.Valid() && Legal(c, es)
    decreases es
  {
    es == [] || (!LateShutdown(c, es[0]) && NoLateShutdown(Step(c, es[0]), es[1..]))
  }

  /** Whatever step issues SHUT_WR first leaves no bytes waiting. */
  ghost predicate HalfClosesFlushed(c: Conn, es: seq<Event>)
    requires c.Valid() && Legal(c, es)
    decreases es
  {
    es == [] ||
    (var d := Step(c, es[0]);
     (!c.halfClosed && d.halfClosed ==> d.out.View() == "") && HalfClosesFlushed(d, es[1..]))
  }

  lemma StepHalfCloseIff(c: Conn, e: Event)
    requires Inv(c) && Enabled(c, e)
    ensures (!c.halfClosed && Step(c, e).halfClosed ==> Step(c, e).out.View() == "") <==> !LateShutdown(c, e)
  {
    StepInv(c, e);
  }

  lemma {:induction false} RunHalfCloseIff(c: Conn, es: seq<Event>)
    requires Inv(c) && Legal(c, es)
    ensures HalfClosesFlushed(c, es) <==> NoLateShutdown(c, es)
    decreases es
  {
    if es != [] {
      StepInv(c, es[0]);
      StepHalfCloseIff(c, es[0]);
      RunHalfCloseIff(Step(c, es[0]), es[1..]);
    }
  }

  /** Flush before half-close, exactly: in a run SHUT_WR is only ever issued on an empty buffer if and
      only if no shutdownTask runs after handleClose while bytes wait. */
  lemma HalfCloseFlushedIff(cap: nat, es: seq<Event>)
    requires Legal(Fresh(cap), es)
    ensures HalfClosesFlushed(Fresh(cap), es) <==> NoLateShutdown(Fresh(cap), es)
  {
    RunHalfCloseIff(Fresh(cap), es);
  }

  /** A connection that has half of a message waiting. */
  function HalfSent(cap: nat): (c: Conn)
    ensures c.Valid()
  {
    var m := Append(Empty(cap), "b", 0);
    Conn(Connected, Mask(true, true), m, "a", false, false, 0, 0, false)
  }

  lemma ReachesHalfSent(cap: nat)
    ensures Legal(Fresh(cap), [Establish, SendTask("ab", 1, 0)])
    ensures Run(Fresh(cap), [Establish, SendTask("ab", 1, 0)]) == HalfSent(cap)
    ensures HalfSent(cap).out.View() == "b"
  {
    var c := Step(Fresh(cap), Establish);
    assert "ab"[1..] == "b" && "ab"[..1] == "a";
    assert Step(c, SendTask("ab", 1, 0)) == HalfSent(cap);
    RunCons(c, SendTask("ab", 1, 0), []);
    RunCons(Fresh(cap), Establish, [SendTask("ab", 1, 0)]);
    assert [Establish] + [SendTask("ab", 1, 0)] == [Establish, SendTask("ab", 1, 0)];
    AppendExact(Empty(cap), "b", 0);
  }

  lemma RunFour(c: Conn, x: Event, y: Event, z: Event, w: Event)
    requires c.Valid() && Enabled(c, x) && Enabled(Step(c, x), y) && Enabled(Step(Step(c, x), y), z)
    requires Enabled(Step(Step(Step(c, x), y), z), w)
    ensures Legal(c, [x, y, z, w]) && Run(c, [x, y, z, w]) == Step(Step(Step(Step(c, x), y), z), w)
  {
    RunThree(Step(c, x), y, z, w);
    RunCons(c, x, [y, z, w]);
    assert [x] + [y, z, w] == [x, y, z, w];
  }

  /** There are two ways into that. In the first, handleClose overtakes a queued shutdownTask. */
  lemma CloseBeforeFlush(cap: nat)
    ensures var es := [Establish, SendTask("ab", 1, 0)] + [ShutdownTest, ShutdownStore, HandleClose, ShutdownTask];
            Legal(Fresh(cap), es) && Run(Fresh(cap), es).halfClosed && Run(Fresh(cap), es).out.View() == "b"
  {
    ReachesHalfSent(cap);
    RunFour(HalfSent(cap), ShutdownTest, ShutdownStore, HandleClose, ShutdownTask);
    RunAppend(Fresh(cap), [Establish, SendTask("ab", 1, 0)],
             [ShutdownTest, ShutdownStore, HandleClose, ShutdownTask]);
  }

  /** In the second, it comes between the state test and the store of a shutdown() on another thread,
      before any task is queued. */
  lemma CloseInsideShutdown(cap: nat)
    ensures var es := [Establish, SendTask("ab", 1, 0)] + [ShutdownTest, HandleClose, ShutdownStore, ShutdownTask];
            Legal(Fresh(cap), es) && Run(Fresh(cap), es).halfClosed && Run(Fresh(cap), es).out.View() == "b"
  {
    ReachesHalfSent(cap);
    RunFour(HalfSent(cap), ShutdownTest, HandleClose, ShutdownStore, ShutdownTask);
    RunAppend(Fresh(cap), [Establish, SendTask("ab", 1, 0)],
             [ShutdownTest, HandleClose, ShutdownStore, ShutdownTask]);
  }

  /** The last drain of a disconnecting connection half-closes it. */
  lemma DrainHalfCloses(c: Conn)
    requires Inv(c) && c.asked && !c.closed && c.events.write
    ensures var e := HandleWrite(c.out.Readable());
            Enabled(c, e) && Step(c, e).halfClosed && Step(c, e).out.View() == ""
            && Step(c, e).accepted == c.Stream()
  {
  }

  /** A message whose rest fills the buffer exactly and is drained leaves a full, wholly consumed vector. */
  lemma FilledAndDrained(big: string)
    requires 2 <= |big| <= MAX_STRING
    ensures var c := Step(Fresh(|big| - 1), Establish);
            var d := Step(c, SendTask(big, 1, 0));
            Enabled(d, HandleWrite(|big| - 1)) && Handed(c, SendTask(big, 1, 0)) == big
            && var e := Step(d, HandleWrite(|big| - 1));
               Direct(e) && Degenerate(e.out) && e.out.data == big[1..] && e.accepted == big && !e.closed
  {
    assert big == big[..1] + big[1..];
  }

  lemma StaleBytesSent(e: Conn, big: string)
    requires 2 <= |big| <= MAX_STRING
    requires e.Valid() && Direct(e) && Degenerate(e.out) && e.out.data == big[1..] && e.accepted == big && !e.closed
    ensures Enabled(e, SendTask("xy", 1, 0)) && Handed(e, SendTask("xy", 1, 0)) == "xy"
    ensures Step(e, SendTask("xy", 1, 0)).Stream() == big + "x" + (big[1..] + "y")
  {
    assert "xy"[1..] == "y" && "xy"[..1] == "x";
    AppendExact(e.out, "y", 0);
  }

  /** A run from a fresh connection of any capacity that delivers consumed bytes a second time: the
      rest of a partly written message fills the buffer and is drained, and the next partial write
      appends. */
  lemma ResurrectionReachable(big: string)
    requires 2 <= |big| <= MAX_STRING
    ensures var es := [Establish, SendTask(big, 1, 0), HandleWrite(|big| - 1), SendTask("xy", 1, 0)];
            Legal(Fresh(|big| - 1), es) && AllHanded(Fresh(|big| - 1), es) == big + "xy"
            && Run(Fresh(|big| - 1), es).Stream() == big + "x" + (big[1..] + "y")
  {
    FilledAndDrained(big);
    var f := Fresh(|big| - 1);
    var c := Step(f, Establish);
    var x, y, z := SendTask(big, 1, 0), HandleWrite(|big| - 1), SendTask("xy", 1, 0);
    StaleBytesSent(Step(Step(c, x), y), big);
    RunThree(c, x, y, z);
    RunCons(f, Establish, [x, y, z]);
    assert [Establish] + [x, y, z] == [Establish, x, y, z];
    assert "" + (big + ("" + ("xy" + ""))) == big + "xy";
  }

  /** A failed direct write loses exactly that message: the connection is left as it was. */
  lemma FailedWriteDrops(c: Conn, msg: string, wrote: int, grown: nat)
    requires c.Valid() && Enabled(c, SendTask(msg, wrote, grown)) && msg != ""
    ensures Step(c, SendTask(msg, wrote, grown)) == c <==> Direct(c) && wrote < 0
  {
  }

  // What a run leaves in each field

  /** How many bytes the kernel takes in one operation. */
  function Taken(c: Conn, e: Event): nat
    requires c.Valid()
  {
    match e
    case SendTask(_, wrote, _) => if Direct(c) && wrote > 0 then wrote else 0
    case HandleWrite(wrote) => if c.events.write && wrote > 0 then wrote else 0
    case _ => 0
  }

  ghost function AllTaken(c: Conn, es: seq<Event>): nat
    requires c.Valid() && Legal(c, es)
    decreases es
  {
    if es == [] then 0 else Taken(c, es[0]) + AllTaken(Step(c, es[0]), es[1..])
  }

  lemma StepTakes(c: Conn, e: Event)
    requires c.Valid() && Enabled(c, e)
    ensures c.accepted <= Step(c, e).accepted
    ensures |Step(c, e).accepted| == |c.accepted| + Taken(c, e)
  {
  }

  /** The kernel has taken exactly as many bytes as its answers said: what a partial write leaves over
      waits, and nothing is counted as sent that was not. */
  lemma {:induction false} TakenExactly(c: Conn, es: seq<Event>)
    requires c.Valid() && Legal(c, es)
    ensures c.accepted <= Run(c, es).accepted
    ensures |Run(c, es).accepted| == |c.accepted| + AllTaken(c, es)
    decreases es
  {
    if es != [] {
      StepTakes(c, es[0]);
      TakenExactly(Step(c, es[0]), es[1..]);
    }
  }

  lemma ReadingStep(c: Conn, e: Event)
    requires c.Valid() && Enabled(c, e) && (c.closed ==> !c.events.read)
    ensures var d := Step(c, e);
            d.events.read == (if d.closed then false else c.events.read || e.Establish?)
            && (d.closed <==> c.closed || e.HandleClose?)
  {
  }

  /** Reading goes on from the establishment to handleClose, whatever is written, drained or shut down
      in between. */
  lemma {:induction false} ReadingExactly(c: Conn, es: seq<Event>)
    requires c.Valid() && Legal(c, es) && (c.closed ==> !c.events.read)
    ensures var d := Run(c, es);
            (d.closed <==> c.closed || HandleClose in es)
            && (d.events.read <==> !d.closed && (c.events.read || Establish in es))
    decreases es
  {
    if es != [] {
      ReadingStep(c, es[0]);
      ReadingExactly(Step(c, es[0]), es[1..]);
      assert forall e :: e in es <==> e == es[0] || e in es[1..];
    }
  }

  /** The state that the last of its writers stored. */
  function LastStored(phase: Phase, es: seq<Event>): Phase {
    if es == [] then phase
    else match es[|es| - 1]
         case Establish => Connected
         case ShutdownStore => Disconnecting
         case CloseStore => Disconnecting
         case HandleClose => Disconnected
         case _ => LastStored(phase, es[..|es| - 1])
  }

  lemma {:induction false} LastStoredFirst(phase: Phase, es: seq<Event>)
    requires es != []
    ensures LastStored(phase, es) == LastStored(LastStored(phase, [es[0]]), es[1..])
    decreases es
  {
    if |es| > 1 {
      var shorter := es[..|es| - 1];
      LastStoredFirst(phase, shorter);
      assert es[1..][..|es| - 2] == shorter[1..];
    }
  }

  lemma PhaseStep(c: Conn, e: Event)
    requires c.Valid() && Enabled(c, e)
    ensures Step(c, e).phase == LastStored(c.phase, [e])
  {
    assert [e][..0] == [];
  }

  /** `state_` is what the last of connEstablished, shutdown(), close() and handleClose stored. */
  lemma {:induction false} PhaseExactly(c: Conn, es: seq<Event>)
    requires c.Valid() && Legal(c, es)
    ensures Run(c, es).phase == LastStored(c.phase, es)
    decreases es
  {
    if es != [] {
      PhaseStep(c, es[0]);
      PhaseExactly(Step(c, es[0]), es[1..]);
      LastStoredFirst(c.phase, es);
    }
  }

  function One(b: bool): nat { if b then 1 else 0 }

  function Number(es: seq<Event>, e: Event): nat {
    if es == [] then 0 else One(es[0] == e) + Number(es[1..], e)
  }

  /** How many calls of shutdown() have passed their state test. */
  ghost function Passed(c: Conn, es: seq<Event>): nat
    requires c.Valid() && Legal(c, es)
    decreases es
  {
    if es == [] then 0
    else One(es[0].ShutdownTest? && c.phase == Connected) + Passed(Step(c, es[0]), es[1..])
  }

  /** Each call of shutdown() that finds the connection established stores once and has its shutdownTask
      run once. */
  lemma {:induction false} ShutdownsCounted(c: Conn, es: seq<Event>)
    requires c.Valid() && Legal(c, es)
    ensures var d := Run(c, es);
            d.tested + Number(es, ShutdownStore) == c.tested + Passed(c, es)
            && d.pending + Number(es, ShutdownTask) == c.pending + Number(es, ShutdownStore)
            && (d.asked <==> c.asked || Number(es, ShutdownStore) > 0)
    decreases es
  {
    if es != [] {
      ShutdownStep(c, es[0]);
      ShutdownsCounted(Step(c, es[0]), es[1..]);
    }
  }

  lemma ShutdownStep(c: Conn, e: Event)
    requires c.Valid() && Enabled(c, e)
    ensures var d := Step(c, e);
            d.tested + One(e == ShutdownStore) == c.tested + One(e.ShutdownTest? && c.phase == Connected)
            && d.pending + One(e == ShutdownTask) == c.pending + One(e == ShutdownStore)
            && (d.asked <==> c.asked || e == ShutdownStore)
  {
  }

  /** SHUT_WR is issued by a shutdownTask that finds nothing to be written, by the write that drains a
      connection being shut down or closed, and by nothing else. */
  lemma HalfClosesIff(c: Conn, e: Event)
    requires c.Valid() && Enabled(c, e) && !c.halfClosed
    ensures Step(c, e).halfClosed <==>
            (e.ShutdownTask? && !c.events.write)
            || (e.HandleWrite? && c.events.write && 0 < e.wrote == c.out.Readable() && c.phase == Disconnecting)
  {
  }

  // The connection object

  class TcpConnection {
    const name: string
    var phase: Phase
    const channel: Channel
    const outBuf: Buffer
    ghost var accepted: string
    ghost var halfClosed: bool
    ghost var closed: bool
    ghost var tested: nat
    ghost var pending: nat
    ghost var asked: bool

    ghost predicate Valid()
      reads this, outBuf
    {
      outBuf.Valid()
    }

    ghost function Value(): (c: Conn)
      requires Valid()
      reads this, channel, outBuf, outBuf.store
      ensures c.Valid()
    {
      Conn(phase, channel.events, outBuf.Value(), accepted, halfClosed, closed, tested, pending, asked)
    }

    constructor (name: string, fd: nat, cap: nat)
      ensures Valid() && Value() == Fresh(cap) && this.name == name
      ensures fresh(channel) && fresh(outBuf) && fresh(outBuf.store)
    {
      this.name := name;
      phase := Connecting;
      channel := new Channel(fd);
      outBuf := new Buffer(cap);
      accepted, halfClosed, closed, tested, pending, asked := "", false, false, 0, 0, false;
    }

    method ConnEstablished()
      requires Valid() && Enabled(Value(), Establish)
      modifies this, channel
      ensures Valid() && Value() == Step(old(Value()), Establish)
    {
      phase := Connected;
      channel.EnableReading();
    }

    /** `wrote` is what the kernel answers if the socket is written directly. */
    method SendNow(msg: string, wrote: int, grown: nat)
      requires Valid() && Enabled(Value(), SendTask(msg, wrote, grown))
      modifies this, channel, outBuf, outBuf.store
      ensures Valid() && Value() == Step(old(Value()), SendTask(msg, wrote, grown))
      ensures outBuf.store == old(outBuf.store) || fresh(outBuf.store)
    {
      var n := WriteDirectly(msg, wrote);
      if n < |msg| {
        Buffered(msg[n..], grown);
      }
    }

    /** The write to the socket, if nothing waits; `n` is its unsigned result. */
    method WriteDirectly(msg: string, wrote: int) returns (n: nat)
      requires Valid() && -1 <= wrote <= |msg| <= MAX_STRING
      modifies this`accepted
      ensures Valid() && n == if Direct(old(Value())) then AsSize(wrote) else 0
      ensures accepted == old(accepted) + if Direct(old(Value())) && wrote > 0 then msg[..wrote] else ""
    {
      n := 0;
      if !channel.events.write && outBuf.size == outBuf.idx {
        n := AsSize(wrote);
        accepted := accepted + if wrote > 0 then msg[..wrote] else "";
      }
    }

    /** What could not be written waits in the buffer, and writing is enabled. */
    method Buffered(rest: string, grown: nat)
      requires Valid()
      modifies channel, outBuf, outBuf.store
      ensures Valid()
      ensures Value() == old(Value()).(out := Append(old(outBuf.Value()), rest, grown),
                                       events := old(channel.events).(write := true))
      ensures outBuf.store == old(outBuf.store) || fresh(outBuf.store)
    {
      outBuf.AppendBytes(rest, grown);
      if !channel.events.write {
        channel.EnableWriting();
      }
    }

    method HandleWritable(wrote: int)
      requires Valid() && Enabled(Value(), HandleWrite(wrote))
      modifies this, channel, outBuf
      ensures Valid() && Value() == Step(old(Value()), HandleWrite(wrote))
    {
      if !channel.events.write || wrote <= 0 {
        return;
      }
      var sent := outBuf.Take(wrote);
      accepted := accepted + sent;
      if outBuf.size == outBuf.idx {
        channel.DisableWriting();
        if phase == Disconnecting {
          ShutdownWrite();
        }
      }
    }

    /** The body of shutdownTask. */
    method ShutdownWrite()
      requires Valid()
      modifies this`halfClosed
      ensures Valid() && Value() == AfterShutdownTask(old(Value()))
    {
      if channel.events.write {
        return;
      }
      halfClosed := true;
    }

    method RunShutdownTask()
      requires Valid() && Enabled(Value(), ShutdownTask)
      modifies this`halfClosed, this`pending
      ensures Valid() && Value() == Step(old(Value()), ShutdownTask)
    {
      pending := pending - 1;
      ShutdownWrite();
    }

    /** The first half of shutdown(): the state test. */
    method TestShutdown() returns (goOn: bool)
      requires Valid()
      modifies this`tested
      ensures Valid() && Value() == Step(old(Value()), ShutdownTest)
      ensures goOn <==> phase == Connected
    {
      goOn := phase == Connected;
      if goOn {
        tested := tested + 1;
      }
    }

    /** The second half: the store that commits the caller to a shutdownTask. */
    method StoreShutdown()
      requires Valid() && Enabled(Value(), ShutdownStore)
      modifies this
      ensures Valid() && Value() == Step(old(Value()), ShutdownStore)
    {
      phase := Disconnecting;
      tested, pending, asked := tested - 1, pending + 1, true;
    }

    method StoreClose()
      requires Valid()
      modifies this`phase
      ensures Valid() && Value() == Step(old(Value()), CloseStore)
    {
      phase := Disconnecting;
    }

    /** handleClose: it ends all interest, takes the channel off the poller and has the connection, which
        is the server's number `id`, taken off the server. */
    method Close(poller: Pollers.PollPoller, server: Registries.TcpServer, ghost id: nat)
      requires Valid() && Enabled(Value(), HandleClose) && server.Valid()
      requires Registries.Enabled(server.state, Registries.HandleClose(id)) && server.state.names[id] == name
      requires poller.Valid() && channel.fd in poller.channels && poller.channels[channel.fd] == channel
      requires Pollers.ParkedSet(poller.value) == {}
      modifies this, channel, server, poller, poller.channels.Values
      ensures Valid() && Value() == Step(old(Value()), HandleClose)
      ensures server.Valid()
      ensures server.state == Registries.Step(server.name, old(server.state), Registries.HandleClose(id))
      ensures poller.Valid() && poller.channels == old(poller.channels) - {channel.fd}
      ensures Pollers.Matches(poller.value, Pollers.Account(old(poller.value).mask - {channel.fd}, {}))
    {
      EndChannel(poller);
      server.RemoveConn(name, id);
    }

    /** The part of handleClose on the connection's own loop. */
    method EndChannel(poller: Pollers.PollPoller)
      requires Valid() && Enabled(Value(), HandleClose)
      requires poller.Valid() && channel.fd in poller.channels && poller.channels[channel.fd] == channel
      requires Pollers.ParkedSet(poller.value) == {}
      modifies this, channel, poller, poller.channels.Values
      ensures Valid() && Value() == Step(old(Value()), HandleClose)
      ensures poller.Valid() && poller.channels == old(poller.channels) - {channel.fd}
      ensures Pollers.Matches(poller.value, Pollers.Account(old(poller.value).mask - {channel.fd}, {}))
    {
      phase := Disconnected;
      poller.DropChannel(channel);
      closed := true;
    }
  }
}
