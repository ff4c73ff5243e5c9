/** src/channel.cc: the interest mask of one file descriptor and the order of its callbacks. */
module Channels {

  /** The two groups of bits that `events_` can hold: it is changed only by the enable and
      disable methods, which set or clear a whole group. */
  datatype Mask = Mask(read: bool, write: bool) {
    predicate IsEmpty()
      ensures IsEmpty() <==> this == NO_EVENTS
    {
      !read && !write
    }
  }

  const NO_EVENTS := Mask(false, false)

  /** The bits poll can report. */
  datatype Revents = Revents(inp: bool, pri: bool, rdhup: bool, out: bool, err: bool, hup: bool, nval: bool) {
    predicate IsZero()
      ensures IsZero() <==> this == NO_REVENTS
    {
      !(inp || pri || rdhup || out || err || hup || nval)
    }
  }

  const NO_REVENTS := Revents(false, false, false, false, false, false, false)

  datatype Callback = OnClose | OnError | OnRead | OnWrite

  /** The bits that ask for a callback. */
  predicate Asks(r: Revents, c: Callback) {
    match c
    case OnClose => r.hup && !r.inp
    case OnError => r.err || r.nval
    case OnRead => r.inp || r.pri || r.rdhup
    case OnWrite => r.out
  }

  /** The order in which the callbacks of one event are tried. */
  function Rank(c: Callback): nat {
    match c case OnClose => 0 case OnError => 1 case OnRead => 2 case OnWrite => 3
  }

  /** `handleEvent`: exactly the installed callbacks that were asked for run. */
  function Fired(r: Revents, installed: set<Callback>): (cs: seq<Callback>)
    ensures OnClose in cs <==> r.hup && !r.inp && OnClose in installed
    ensures OnError in cs <==> (r.err || r.nval) && OnError in installed
    ensures OnRead in cs <==> (r.inp || r.pri || r.rdhup) && OnRead in installed
    ensures OnWrite in cs <==> r.out && OnWrite in installed
  {
    Called(r, OnClose, installed) + Called(r, OnError, installed)
    + Called(r, OnRead, installed) + Called(r, OnWrite, installed)
  }

  function Called(r: Revents, c: Callback, installed: set<Callback>): (cs: seq<Callback>)
    ensures forall x :: x in cs <==> x == c && c in installed && Asks(r, c)
  {
    if Asks(r, c) && c in installed then [c] else []
  }

  /** The callbacks of one event run in the order in which they are tried, each at most once. */
  lemma FiredInOrder(r: Revents, installed: set<Callback>)
    ensures var cs := Fired(r, installed);
            forall i, j :: 0 <= i < j < |cs| ==> Rank(cs[i]) < Rank(cs[j])
  {
  }

  /** Close, error, read and write is the order: all four run when a hangup and an error come with a
      half-close and room to write. */
  lemma AllFour()
    ensures Fired(Revents(false, false, true, true, true, true, false), {OnWrite, OnRead, OnError, OnClose})
         == [OnClose, OnError, OnRead, OnWrite]
  {
  }

  class Channel {
    const fd: nat
    var events: Mask
    var revents: Revents
    var idxPoll: int

    constructor (fd: nat)
      ensures this.fd == fd && events == NO_EVENTS && revents == NO_REVENTS && idxPoll == -1
    {
      this.fd := fd;
      events := NO_EVENTS;
      revents := NO_REVENTS;
      idxPoll := -1;
    }

    method EnableReading()
      modifies this`events
      ensures events == old(events).(read := true)
    {
      events := events.(read := true);
    }

    method EnableWriting()
      modifies this`events
      ensures events == old(events).(write := true)
    {
      events := events.(write := true);
    }

    method DisableReading()
      modifies this`events
      ensures events == old(events).(read := false)
    {
      events := events.(read := false);
    }

    method DisableWriting()
      modifies this`events
      ensures events == old(events).(write := false)
    {
      events := events.(write := false);
    }

    method DisableEvents()
      modifies this`events
      ensures events == NO_EVENTS
    {
      events := NO_EVENTS;
    }
  }
}
