/** src/poll_poller.cc: the dense array given to poll, the map from descriptors to channels and the
    indices that the channels keep into the array. `Poll` is the poller as a value; a run is any
    sequence of updates and removals that the source's assertions allow. Class `PollPoller`
    changes the array, the map and the channels in place. */
module Pollers {
  import opened Channels

  datatype Entry = Entry(fd: int, mask: Mask, revents: Revents)

  /** `owners` names the channel each entry belongs to, which a parked entry (fd -1) does not show;
      `idx` and `mask` are idxPoll and events of the registered channels, by descriptor. */
  datatype Poll = Poll(entries: seq<Entry>, owners: seq<nat>, idx: map<nat, nat>, mask: map<nat, Mask>)

  const EMPTY_POLL := Poll([], [], map[], map[])

  /** The channels' indices are a bijection between registered descriptors and places. */
  ghost predicate Indexed(owners: seq<nat>, idx: map<nat, nat>) {
    && (forall i :: 0 <= i < |owners| ==> owners[i] in idx && idx[owners[i]] == i)
    && (forall fd :: fd in idx ==> idx[fd] < |owners| && owners[idx[fd]] == fd)
  }

  /** Each entry shows its channel's interest, and its descriptor unless it is parked. */
  ghost predicate Shown(entries: seq<Entry>, owners: seq<nat>, mask: map<nat, Mask>) {
    |owners| == |entries| &&
    forall i :: 0 <= i < |entries| ==>
      owners[i] in mask && entries[i].mask == mask[owners[i]]
      && (entries[i].fd == owners[i] || entries[i].fd == -1)
  }

  /** Array, map and back-indices agree. */
  ghost predicate Inv(p: Poll) {
    p.mask.Keys == p.idx.Keys && Indexed(p.owners, p.idx) && Shown(p.entries, p.owners, p.mask)
  }

  predicate IsParked(p: Poll, fd: nat)
    requires fd in p.idx && p.idx[fd] < |p.entries|
  {
    p.entries[p.idx[fd]].fd == -1
  }

  /** `reports` is what the kernel has to report, by descriptor. */
  datatype Op = Update(fd: nat, mask: Mask) | Remove(fd: nat) | Report(reports: map<int, Revents>)

  /** removeChannel gives the entry it moves a new back-index through the map, under the fd the
      entry shows: a parked entry has none. */
  predicate LastIsVisible(p: Poll, fd: nat)
    requires fd in p.idx && p.idx[fd] < |p.entries|
  {
    p.idx[fd] == |p.entries| - 1 || p.entries[|p.entries| - 1].fd != -1
  }

  /** The assertions of updateChannel and removeChannel. */
  ghost predicate Enabled(p: Poll, op: Op)
    requires Inv(p)
  {
    match op
    case Update(_, _) => true
    case Report(_) => true
    case Remove(fd) => fd in p.idx && p.mask[fd].IsEmpty() && IsParked(p, fd) && LastIsVisible(p, fd)
  }

  /** Swap with the last element, then pop it. */
  function SwapOut<T>(s: seq<T>, i: nat): (r: seq<T>)
    requires i < |s|
    ensures |r| == |s| - 1
    ensures forall k :: 0 <= k < |r| ==> r[k] == if k == i then s[|s| - 1] else s[k]
  {
    s[i := s[|s| - 1]][..|s| - 1]
  }

  /** The index map when fd's place is given to the channel `moved`. */
  function SwapIndex(idx: map<nat, nat>, fd: nat, moved: nat): map<nat, nat>
    requires fd in idx
  {
    if moved == fd then idx - {fd} else (idx - {fd})[moved := idx[fd]]
  }

  /** An entry given a new interest: an empty one parks it. */
  function Refreshed(e: Entry, m: Mask): Entry {
    Entry(if m.IsEmpty() then -1 else e.fd, m, NO_REVENTS)
  }

  /** The kernel's report on an entry: none on a parked one. */
  function ReportOn(e: Entry, reports: map<int, Revents>): Revents {
    if e.fd >= 0 && e.fd in reports then reports[e.fd] else NO_REVENTS
  }

  /** The entries once poll(2) has filled in its reports. */
  function Filled(entries: seq<Entry>, reports: map<int, Revents>): (r: seq<Entry>)
    ensures |r| == |entries|
    ensures forall i :: 0 <= i < |r| ==> r[i] == entries[i].(revents := ReportOn(entries[i], reports))
  {
    seq(|entries|, i requires 0 <= i < |entries| => entries[i].(revents := ReportOn(entries[i], reports)))
  }

  ghost function Step(p: Poll, op: Op): Poll
    requires Inv(p) && Enabled(p, op)
  {
    match op
    case Update(fd, m) =>
      if fd !in p.idx then
        Poll(p.entries + [Entry(fd, m, NO_REVENTS)], p.owners + [fd],
             p.idx[fd := |p.entries|], p.mask[fd := m])
      else
        var i := p.idx[fd];
        p.(entries := p.entries[i := Refreshed(p.entries[i], m)], mask := p.mask[fd := m])
    case Report(reports) => p.(entries := Filled(p.entries, reports))
    case Remove(fd) =>
      var i, last := p.idx[fd], |p.entries| - 1;
      Poll(SwapOut(p.entries, i), SwapOut(p.owners, i),
           SwapIndex(p.idx, fd, p.owners[last]),
           p.mask - {fd})
  }

  ghost function ParkedSet(p: Poll): set<nat>
    requires Inv(p)
  {
    set fd | fd in p.idx && IsParked(p, fd)
  }

  lemma RegisterIndexed(owners: seq<nat>, idx: map<nat, nat>, fd: nat)
    requires Indexed(owners, idx) && fd !in idx
    ensures Indexed(owners + [fd], idx[fd := |owners|])
  {
  }

  lemma UpdateShown(entries: seq<Entry>, owners: seq<nat>, mask: map<nat, Mask>, fd: nat, m: Mask, i: nat)
    requires Shown(entries, owners, mask) && i < |owners| && owners[i] == fd
    requires forall j :: 0 <= j < |owners| && owners[j] == fd ==> j == i
    ensures forall e: Entry :: e.mask == m && (e.fd == fd || e.fd == -1) ==>
              Shown(entries[i := e], owners, mask[fd := m])
  {
  }

  lemma RegisterShown(entries: seq<Entry>, owners: seq<nat>, mask: map<nat, Mask>, fd: nat, m: Mask)
    requires Shown(entries, owners, mask) && fd !in mask
    ensures Shown(entries + [Entry(fd, m, NO_REVENTS)], owners + [fd], mask[fd := m])
  {
  }

  lemma UpdateInv(p: Poll, fd: nat, m: Mask)
    requires Inv(p)
    ensures Inv(Step(p, Update(fd, m)))
  {
    if fd in p.idx {
      UpdateShown(p.entries, p.owners, p.mask, fd, m, p.idx[fd]);
    } else {
      RegisterIndexed(p.owners, p.idx, fd);
      RegisterShown(p.entries, p.owners, p.mask, fd, m);
    }
  }

  lemma SwapIndexed(owners: seq<nat>, idx: map<nat, nat>, fd: nat)
    requires Indexed(owners, idx) && fd in idx
    ensures Indexed(SwapOut(owners, idx[fd]), SwapIndex(idx, fd, owners[|owners| - 1]))
    ensures SwapIndex(idx, fd, owners[|owners| - 1]).Keys == idx.Keys - {fd}
    ensures fd !in SwapOut(owners, idx[fd])
  {
  }

  lemma SwapShown(entries: seq<Entry>, owners: seq<nat>, mask: map<nat, Mask>, i: nat, fd: nat)
    requires Shown(entries, owners, mask) && i < |entries| && fd !in SwapOut(owners, i)
    ensures Shown(SwapOut(entries, i), SwapOut(owners, i), mask - {fd})
  {
  }

  lemma RemoveInv(p: Poll, fd: nat)
    requires Inv(p) && Enabled(p, Remove(fd))
    ensures Inv(Step(p, Remove(fd)))
  {
    SwapIndexed(p.owners, p.idx, fd);
    SwapShown(p.entries, p.owners, p.mask, p.idx[fd], fd);
  }

  lemma ReportInv(p: Poll, reports: map<int, Revents>)
    requires Inv(p)
    ensures Inv(Step(p, Report(reports))) && ParkedSet(Step(p, Report(reports))) == ParkedSet(p)
  {
  }

  /** Every operation keeps the bijection. */
  lemma StepInv(p: Poll, op: Op)
    requires Inv(p) && Enabled(p, op)
    ensures Inv(Step(p, op))
  {
    match op
    case Update(fd, m) => UpdateInv(p, fd, m);
    case Remove(fd) => RemoveInv(p, fd);
    case Report(reports) => ReportInv(p, reports);
  }

  // The poller against an independent account of what was asked of it

  /** Which descriptors are registered with which interest, and which have been switched off since
      they were registered. */
  datatype Account = Account(interest: map<nat, Mask>, off: set<nat>)

  function Record(a: Account, op: Op): Account {
    match op
    case Update(fd, m) =>
      Account(a.interest[fd := m], if fd in a.interest && m.IsEmpty() then a.off + {fd} else a.off)
    case Remove(fd) => Account(a.interest - {fd}, a.off - {fd})
    case Report(_) => a
  }

  ghost predicate Matches(p: Poll, a: Account) {
    Inv(p) && p.mask == a.interest && ParkedSet(p) == a.off
  }

  lemma UpdateMatches(p: Poll, a: Account, fd: nat, m: Mask)
    requires Matches(p, a)
    ensures Matches(Step(p, Update(fd, m)), Record(a, Update(fd, m)))
  {
    UpdateInv(p, fd, m);
    var r, b := Step(p, Update(fd, m)), Record(a, Update(fd, m));
    forall x: nat
      ensures x in ParkedSet(r) <==> x in b.off
    {
      assert x in ParkedSet(p) <==> x in a.off;
      if x in p.idx && x != fd && fd in p.idx {
        assert p.owners[p.idx[x]] == x && p.owners[p.idx[fd]] == fd;
      }
    }
  }

  lemma RemovePlace(p: Poll, fd: nat, x: nat)
    requires Inv(p) && Enabled(p, Remove(fd)) && x in p.idx && x != fd
    ensures var r := Step(p, Remove(fd));
            x in r.idx && p.idx[x] != p.idx[fd]
            && r.idx[x] == if p.idx[x] == |p.entries| - 1 then p.idx[fd] else p.idx[x]
  {
    assert p.owners[p.idx[x]] == x && p.owners[p.idx[fd]] == fd;
    assert p.idx[p.owners[|p.entries| - 1]] == |p.entries| - 1;
  }

  lemma RemoveParks(p: Poll, fd: nat, x: nat)
    requires Inv(p) && Enabled(p, Remove(fd)) && x in p.idx && x != fd
    ensures var r := Step(p, Remove(fd));
            x in r.idx && r.idx[x] < |r.entries| && r.entries[r.idx[x]] == p.entries[p.idx[x]]
            && (IsParked(r, x) <==> IsParked(p, x))
  {
    RemovePlace(p, fd, x);
    assert Step(p, Remove(fd)).entries == SwapOut(p.entries, p.idx[fd]);
  }

  lemma RemoveMatches(p: Poll, a: Account, fd: nat)
    requires Matches(p, a) && Enabled(p, Remove(fd))
    ensures Matches(Step(p, Remove(fd)), Record(a, Remove(fd)))
  {
    RemoveInv(p, fd);
    var r, b := Step(p, Remove(fd)), Record(a, Remove(fd));
    assert r.mask == b.interest;
    forall x: nat
      ensures x in ParkedSet(r) <==> x in ParkedSet(p) && x != fd
    {
      if x in p.idx && x != fd {
        RemoveParks(p, fd, x);
      }
    }
    assert ParkedSet(r) == ParkedSet(p) - {fd};
  }

  lemma StepMatches(p: Poll, a: Account, op: Op)
    requires Matches(p, a) && Enabled(p, op)
    ensures Matches(Step(p, op), Record(a, op))
  {
    match op
    case Update(fd, m) => UpdateMatches(p, a, fd, m);
    case Remove(fd) => RemoveMatches(p, a, fd);
    case Report(reports) => ReportInv(p, reports);
  }

  ghost predicate Legal(p: Poll, ops: seq<Op>)
    requires Inv(p)
    decreases ops
  {
    ops == [] || (Enabled(p, ops[0]) && (StepInv(p, ops[0]); Legal(Step(p, ops[0]), ops[1..])))
  }

  ghost function Run(p: Poll, ops: seq<Op>): (r: Poll)
    requires Inv(p) && Legal(p, ops)
    ensures Inv(r)
    decreases ops
  {
    if ops == [] then p else StepInv(p, ops[0]); Run(Step(p, ops[0]), ops[1..])
  }

  function RecordAll(a: Account, ops: seq<Op>): Account
    decreases ops
  {
    if ops == [] then a else RecordAll(Record(a, ops[0]), ops[1..])
  }

  lemma {:induction false} RunMatches(p: Poll, a: Account, ops: seq<Op>)
    requires Matches(p, a) && Legal(p, ops)
    ensures Matches(Run(p, ops), RecordAll(a, ops))
    decreases ops
  {
    if ops != [] {
      StepMatches(p, a, ops[0]);
      RunMatches(Step(p, ops[0]), Record(a, ops[0]), ops[1..]);
    }
  }

  /** What poll is given for a descriptor. */
  ghost predicate Polled(p: Poll, fd: nat, m: Mask) {
    exists i :: 0 <= i < |p.entries| && p.entries[i].fd == fd && p.entries[i].mask == m
  }

  /** After any run the array, the map and the back-indices are in bijection, and poll is given a
      descriptor with an interest exactly if that is its last interest and it was not switched off
      since its registration. */
  lemma PolledExactly(ops: seq<Op>, fd: nat, m: Mask)
    requires Legal(EMPTY_POLL, ops)
    ensures var p, a := Run(EMPTY_POLL, ops), RecordAll(Account(map[], {}), ops);
            Inv(p) && p.idx.Keys == a.interest.Keys
            && (Polled(p, fd, m) <==> fd in a.interest && a.interest[fd] == m && fd !in a.off)
  {
    var start := Account(map[], {});
    assert ParkedSet(EMPTY_POLL) == start.off;
    RunMatches(EMPTY_POLL, start, ops);
    var p, a := Run(EMPTY_POLL, ops), RecordAll(start, ops);
    assert fd in a.off <==> fd in ParkedSet(p);
    if fd in p.idx {
      var i := p.idx[fd];
      assert (p.entries[i].fd == fd || p.entries[i].fd == -1) && p.entries[i].mask == p.mask[fd];
    }
  }

  // Reports and places

  /** The last report on each registered descriptor: an update forgets it, and a poll makes a new one
      unless the descriptor has been switched off. */
  function RecordReports(a: Account, reported: map<nat, Revents>, op: Op): map<nat, Revents> {
    match op
    case Update(fd, _) => reported[fd := NO_REVENTS]
    case Remove(fd) => reported - {fd}
    case Report(reports) =>
      map fd | fd in reported :: if fd in reports && fd !in a.off then reports[fd] else NO_REVENTS
  }

  predicate HoldsReport(p: Poll, fd: nat, report: Revents) {
    fd in p.idx && p.idx[fd] < |p.entries| && p.entries[p.idx[fd]].revents == report
  }

  ghost predicate HoldsReports(p: Poll, reported: map<nat, Revents>) {
    p.idx.Keys == reported.Keys && forall fd :: fd in reported ==> HoldsReport(p, fd, reported[fd])
  }

  lemma UpdateForgets(p: Poll, fd: nat, m: Mask, x: nat)
    requires Inv(p) && (x == fd || x in p.idx)
    ensures var r := Step(p, Update(fd, m));
            x in r.idx && r.idx[x] < |r.entries|
            && (x == fd ==> r.entries[r.idx[x]].revents == NO_REVENTS)
            && (x != fd ==> r.entries[r.idx[x]] == p.entries[p.idx[x]])
  {
    if x != fd {
      assert p.owners[p.idx[x]] == x;
      assert fd in p.idx ==> p.owners[p.idx[fd]] == fd;
    }
  }

  lemma UpdateKeys(p: Poll, fd: nat, m: Mask)
    requires Inv(p)
    ensures Step(p, Update(fd, m)).idx.Keys == p.idx.Keys + {fd}
  {
  }

  lemma UpdateReported(p: Poll, reported: map<nat, Revents>, fd: nat, m: Mask, x: nat)
    requires Inv(p) && HoldsReports(p, reported) && (x == fd || x in p.idx)
    ensures HoldsReport(Step(p, Update(fd, m)), x, reported[fd := NO_REVENTS][x])
  {
    UpdateForgets(p, fd, m, x);
    assert x != fd ==> HoldsReport(p, x, reported[x]);
  }

  lemma UpdateReports(p: Poll, reported: map<nat, Revents>, fd: nat, m: Mask)
    requires Inv(p) && HoldsReports(p, reported)
    ensures HoldsReports(Step(p, Update(fd, m)), reported[fd := NO_REVENTS])
  {
    UpdateKeys(p, fd, m);
    var after := reported[fd := NO_REVENTS];
    forall x | x in after
      ensures HoldsReport(Step(p, Update(fd, m)), x, after[x])
    {
      UpdateReported(p, reported, fd, m, x);
    }
  }

  lemma RemoveReports(p: Poll, reported: map<nat, Revents>, fd: nat)
    requires Inv(p) && HoldsReports(p, reported) && Enabled(p, Remove(fd)) && Inv(Step(p, Remove(fd)))
    ensures HoldsReports(Step(p, Remove(fd)), reported - {fd})
  {
    var r := Step(p, Remove(fd));
    assert r.idx.Keys == r.mask.Keys == p.mask.Keys - {fd};
    forall x | x in reported && x != fd
      ensures HoldsReport(r, x, reported[x])
    {
      assert HoldsReport(p, x, reported[x]);
      RemoveParks(p, fd, x);
    }
  }

  lemma PollReports(p: Poll, a: Account, reported: map<nat, Revents>, reports: map<int, Revents>)
    requires Matches(p, a) && HoldsReports(p, reported)
    ensures HoldsReports(Step(p, Report(reports)), RecordReports(a, reported, Report(reports)))
  {
    var after := RecordReports(a, reported, Report(reports));
    forall fd | fd in reported
      ensures HoldsReport(Step(p, Report(reports)), fd, after[fd])
    {
      assert HoldsReport(p, fd, reported[fd]);
      assert p.owners[p.idx[fd]] == fd && (fd in a.off <==> fd in ParkedSet(p));
    }
  }

  lemma StepReports(p: Poll, a: Account, reported: map<nat, Revents>, op: Op)
    requires Matches(p, a) && HoldsReports(p, reported) && Enabled(p, op) && Inv(Step(p, op))
    ensures HoldsReports(Step(p, op), RecordReports(a, reported, op))
  {
    match op
    case Update(fd, m) => UpdateReports(p, reported, fd, m);
    case Remove(fd) => RemoveReports(p, reported, fd);
    case Report(reports) => PollReports(p, a, reported, reports);
  }

  function RecordAllReports(a: Account, reported: map<nat, Revents>, ops: seq<Op>): map<nat, Revents>
    decreases ops
  {
    if ops == [] then reported
    else RecordAllReports(Record(a, ops[0]), RecordReports(a, reported, ops[0]), ops[1..])
  }

  lemma {:induction false} RunReports(p: Poll, a: Account, reported: map<nat, Revents>, ops: seq<Op>)
    requires Matches(p, a) && HoldsReports(p, reported) && Legal(p, ops)
    ensures HoldsReports(Run(p, ops), RecordAllReports(a, reported, ops))
    decreases ops
  {
    if ops != [] {
      StepMatches(p, a, ops[0]);
      StepReports(p, a, reported, ops[0]);
      RunReports(Step(p, ops[0]), Record(a, ops[0]), RecordReports(a, reported, ops[0]), ops[1..]);
    }
  }

  /** After any run each registered descriptor's entry holds its last report: what the kernel had to
      report in the last poll if it was polled then, and nothing if it was updated since. */
  lemma ReportedExactly(ops: seq<Op>, fd: nat)
    requires Legal(EMPTY_POLL, ops) && fd in Run(EMPTY_POLL, ops).idx
    ensures var p, reported := Run(EMPTY_POLL, ops), RecordAllReports(Account(map[], {}), map[], ops);
            fd in reported && HoldsReport(p, fd, reported[fd])
  {
    var start := Account(map[], {});
    assert ParkedSet(EMPTY_POLL) == start.off;
    RunReports(EMPTY_POLL, start, map[], ops);
  }

  /** The descriptor in the first place keeps it until it is removed, whatever else comes and goes: it is
      the first one that every poll reports. */
  lemma {:induction false} FirstStaysFirst(p: Poll, ops: seq<Op>, fd: nat)
    requires Inv(p) && Legal(p, ops) && fd in p.idx && p.idx[fd] == 0 && Remove(fd) !in ops
    ensures fd in Run(p, ops).idx && Run(p, ops).idx[fd] == 0
    decreases ops
  {
    if ops != [] {
      assert ops[0] in ops;
      StepInv(p, ops[0]);
      StaysFirst(p, ops[0], fd);
      FirstStaysFirst(Step(p, ops[0]), ops[1..], fd);
    }
  }

  /** An update leaves every registered descriptor in its place and puts a new one last; a removal moves
      the last one into the place it frees and leaves all others where they are. */
  lemma PlacesAfter(p: Poll, op: Op, x: nat)
    requires Inv(p) && Enabled(p, op) && x in p.idx && op != Remove(x)
    ensures var r := Step(p, op);
            x in r.idx && r.idx[x] == if op.Remove? && p.idx[x] == |p.entries| - 1 then p.idx[op.fd] else p.idx[x]
    ensures op.Update? && op.fd !in p.idx ==> Step(p, op).idx[op.fd] == |p.entries|
  {
    if op.Remove? {
      RemovePlace(p, op.fd, x);
    } else {
      assert p.owners[p.idx[x]] == x;
    }
  }

  lemma StaysFirst(p: Poll, op: Op, fd: nat)
    requires Inv(p) && Enabled(p, op) && op != Remove(fd) && fd in p.idx && p.idx[fd] == 0
    ensures fd in Step(p, op).idx && Step(p, op).idx[fd] == 0
  {
    PlacesAfter(p, op, fd);
    if op.Remove? {
      assert p.owners[p.idx[op.fd]] == op.fd;
    }
  }

  /** A descriptor that was switched off and on again without being removed is never polled: its
      new interest is recorded, but the entry keeps fd -1. An update reaches poll exactly when it
      registers the descriptor, or leaves some interest in one that was on. */
  lemma UpdateReachesPollIff(p: Poll, fd: nat, m: Mask)
    requires Inv(p)
    ensures Polled(Step(p, Update(fd, m)), fd, m) <==>
            fd !in p.idx || ((m.read || m.write) && !IsParked(p, fd))
  {
    var r := Step(p, Update(fd, m));
    StepInv(p, Update(fd, m));
    var i := r.idx[fd];
    assert r.entries[i].mask == m;
    if Polled(r, fd, m) {
      var k :| 0 <= k < |r.entries| && r.entries[k].fd == fd && r.entries[k].mask == m;
      assert k == r.idx[r.owners[k]] && r.owners[k] == fd;
    }
  }

  /** Such a run: a descriptor is registered, switched off and switched on again. */
  lemma OffAndOnIsNotPolled(fd: nat)
    ensures var ops := [Update(fd, Mask(true, false)), Update(fd, NO_EVENTS), Update(fd, Mask(true, false))];
            Legal(EMPTY_POLL, ops) && !Polled(Run(EMPTY_POLL, ops), fd, Mask(true, false))
  {
    var on := Mask(true, false);
    var ops := [Update(fd, on), Update(fd, NO_EVENTS), Update(fd, on)];
    UpdatesAreLegal(EMPTY_POLL, ops);
    PolledExactly(ops, fd, on);
    var a := Record(Record(Account(map[], {}), ops[0]), ops[1]);
    assert ops[1..] == [ops[1], ops[2]] && ops[1..][1..] == [ops[2]];
    assert RecordAll(Account(map[], {}), ops) == RecordAll(a, [ops[2]]) == Record(a, ops[2]);
  }

  lemma {:induction false} UpdatesAreLegal(p: Poll, ops: seq<Op>)
    requires Inv(p) && forall op :: op in ops ==> op.Update?
    ensures Legal(p, ops)
    decreases ops
  {
    if ops != [] {
      assert ops[0] in ops;
      StepInv(p, ops[0]);
      UpdatesAreLegal(Step(p, ops[0]), ops[1..]);
    }
  }

  // Disabling and removing as a pair

  /** The library's own uses of the poller: some interest, disableEvents followed at once by remove, or
      a poll. */
  datatype Use = Want(fd: nat, mask: Mask) | Drop(fd: nat) | Wait(reports: map<int, Revents>)

  function Ops(uses: seq<Use>): seq<Op> {
    if uses == [] then []
    else (match uses[0]
          case Want(fd, m) => [Update(fd, m)]
          case Drop(fd) => [Update(fd, NO_EVENTS), Remove(fd)]
          case Wait(reports) => [Report(reports)]) + Ops(uses[1..])
  }

  function Wanted(interest: map<nat, Mask>, uses: seq<Use>): map<nat, Mask>
    decreases uses
  {
    if uses == [] then interest
    else Wanted(match uses[0]
                case Want(fd, m) => interest[fd := m]
                case Drop(fd) => interest - {fd}
                case Wait(_) => interest, uses[1..])
  }

  /** Interests are non-empty and only registered channels are dropped. */
  predicate Disciplined(fds: set<nat>, uses: seq<Use>)
    decreases uses
  {
    uses == [] ||
    match uses[0]
    case Want(fd, m) => !m.IsEmpty() && Disciplined(fds + {fd}, uses[1..])
    case Drop(fd) => fd in fds && Disciplined(fds - {fd}, uses[1..])
    case Wait(_) => Disciplined(fds, uses[1..])
  }

  /** disableEvents makes remove possible while no other channel is parked. */
  lemma DisabledCanGo(p: Poll, fd: nat)
    requires Inv(p) && ParkedSet(p) == {} && fd in p.idx
    ensures var q := Step(p, Update(fd, NO_EVENTS));
            Inv(q) && Enabled(q, Remove(fd))
  {
    UpdateInv(p, fd, NO_EVENTS);
    var q := Step(p, Update(fd, NO_EVENTS));
    var last := |q.entries| - 1;
    if q.idx[fd] != last {
      assert p.owners[last] !in ParkedSet(p) && p.idx[p.owners[last]] == last;
    }
  }

  lemma DropStep(p: Poll, fd: nat)
    requires Inv(p) && ParkedSet(p) == {} && fd in p.idx
    ensures var q := Step(p, Update(fd, NO_EVENTS));
            Inv(q) && Enabled(q, Remove(fd))
            && Matches(Step(q, Remove(fd)), Account(p.mask - {fd}, {}))
  {
    DisabledCanGo(p, fd);
    var a := Account(p.mask, {});
    UpdateMatches(p, a, fd, NO_EVENTS);
    var q := Step(p, Update(fd, NO_EVENTS));
    RemoveMatches(q, Record(a, Update(fd, NO_EVENTS)), fd);
    DropRecorded(p.mask, fd);
  }

  lemma DropRecorded(interest: map<nat, Mask>, fd: nat)
    requires fd in interest
    ensures Record(Record(Account(interest, {}), Update(fd, NO_EVENTS)), Remove(fd))
         == Account(interest - {fd}, {})
  {
    assert interest[fd := NO_EVENTS] - {fd} == interest - {fd};
  }

  lemma RunCons(p: Poll, x: Op, ops: seq<Op>)
    requires Inv(p) && Enabled(p, x) && Inv(Step(p, x)) && Legal(Step(p, x), ops)
    ensures Legal(p, [x] + ops) && Run(p, [x] + ops) == Run(Step(p, x), ops)
  {
    assert ([x] + ops)[1..] == ops;
  }

  lemma RunTwo(p: Poll, x: Op, y: Op, ops: seq<Op>)
    requires Inv(p) && Enabled(p, x) && Inv(Step(p, x)) && Enabled(Step(p, x), y)
    requires Inv(Step(Step(p, x), y)) && Legal(Step(Step(p, x), y), ops)
    ensures Legal(p, [x, y] + ops) && Run(p, [x, y] + ops) == Run(Step(Step(p, x), y), ops)
  {
    RunCons(Step(p, x), y, ops);
    RunCons(p, x, [y] + ops);
    assert [x] + ([y] + ops) == [x, y] + ops;
  }

  /** With that discipline every removal passes the assertions and finds the channel it moves, no
      entry stays parked, and poll is given exactly the interest asked for. */
  lemma {:induction false} DisciplinedRun(p: Poll, uses: seq<Use>)
    requires Inv(p) && ParkedSet(p) == {} && Disciplined(p.idx.Keys, uses)
    ensures Legal(p, Ops(uses)) && ParkedSet(Run(p, Ops(uses))) == {}
    ensures Run(p, Ops(uses)).mask == Wanted(p.mask, uses)
    decreases uses
  {
    if uses != [] {
      match uses[0]
      case Want(fd, m) =>
        UpdateMatches(p, Account(p.mask, {}), fd, m);
        assert Step(p, Update(fd, m)).idx.Keys == p.idx.Keys + {fd};
        DisciplinedRun(Step(p, Update(fd, m)), uses[1..]);
        assert ([Update(fd, m)] + Ops(uses[1..]))[1..] == Ops(uses[1..]);
      case Drop(fd) =>
        DropStep(p, fd);
        var q := Step(Step(p, Update(fd, NO_EVENTS)), Remove(fd));
        DisciplinedRun(q, uses[1..]);
        RunTwo(p, Update(fd, NO_EVENTS), Remove(fd), Ops(uses[1..]));
      case Wait(reports) =>
        ReportInv(p, reports);
        DisciplinedRun(Step(p, Report(reports)), uses[1..]);
        assert ([Report(reports)] + Ops(uses[1..]))[1..] == Ops(uses[1..]);
    }
  }

  /** A channel whose first update has no interest is registered but not parked, so it cannot be
      removed; disabling it once more makes that possible. */
  lemma FirstUpdateEmpty(p: Poll, fd: nat)
    requires Inv(p) && fd !in p.idx
    ensures var q := Step(p, Update(fd, NO_EVENTS));
            Inv(q) && !Enabled(q, Remove(fd)) && IsParked(Step(q, Update(fd, NO_EVENTS)), fd)
  {
  }

  /** Each entry's fd leads through the map back to its own place. */
  ghost predicate LookupsSucceed(p: Poll) {
    forall i :: 0 <= i < |p.entries| ==>
      p.entries[i].fd >= 0 && p.entries[i].fd in p.idx && p.idx[p.entries[i].fd] == i
  }

  lemma LookupsSucceedIff(p: Poll)
    requires Inv(p)
    ensures LookupsSucceed(p) <==> ParkedSet(p) == {}
  {
    if x :| x in ParkedSet(p) {
      assert p.entries[p.idx[x]].fd == -1;
    } else {
      forall i | 0 <= i < |p.entries|
        ensures p.entries[i].fd == p.owners[i]
      {
        assert p.owners[i] !in ParkedSet(p);
      }
      assert ParkedSet(p) == {};
    }
  }

  lemma FinalChecksPassIff(p: Poll, fd: nat)
    requires Inv(p) && Enabled(p, Remove(fd))
    ensures LookupsSucceed(Step(p, Remove(fd))) <==> ParkedSet(p) == {fd}
  {
    RemoveMatches(p, Account(p.mask, ParkedSet(p)), fd);
    LookupsSucceedIff(Step(p, Remove(fd)));
    assert fd in ParkedSet(p);
    assert ParkedSet(Step(p, Remove(fd))) == ParkedSet(p) - {fd};
  }

  /** removeChannel looks up the entry it moves, and in the loop of assertions that ends it every entry
      left. A registered channel passes all its assertions and finds every lookup exactly when it has
      no interest and is the only one parked. */
  lemma RemovePassesIff(p: Poll, fd: nat)
    requires Inv(p) && fd in p.idx
    ensures Enabled(p, Remove(fd)) && LookupsSucceed(Step(p, Remove(fd))) <==>
            p.mask[fd].IsEmpty() && ParkedSet(p) == {fd}
  {
    if Enabled(p, Remove(fd)) {
      FinalChecksPassIff(p, fd);
    }
    if p.mask[fd].IsEmpty() && ParkedSet(p) == {fd} {
      var last := p.owners[|p.entries| - 1];
      assert fd in ParkedSet(p) && p.idx[last] == |p.entries| - 1;
      assert last in ParkedSet(p) ==> last == fd;
    }
  }

  // What one poll reports

  /** The descriptors of the entries with something to report, in the array's order. */
  function Ready(entries: seq<Entry>): seq<int> {
    if entries == [] then []
    else (if entries[0].revents.IsZero() then [] else [entries[0].fd]) + Ready(entries[1..])
  }

  lemma {:induction false} ReadyJoin(a: seq<Entry>, b: seq<Entry>)
    ensures Ready(a + b) == Ready(a) + Ready(b)
    decreases a
  {
    if a == [] {
      assert a + b == b;
    } else {
      assert (a + b)[0] == a[0] && (a + b)[1..] == a[1..] + b;
      ReadyJoin(a[1..], b);
    }
  }

  lemma ReadyAt(entries: seq<Entry>, i: nat)
    requires i < |entries|
    ensures var one := if entries[i].revents.IsZero() then [] else [entries[i].fd];
            Ready(entries[..i + 1]) == Ready(entries[..i]) + one
            && Ready(entries[i..]) == one + Ready(entries[i + 1..])
  {
    var e := entries[i];
    assert entries[i..][1..] == entries[i + 1..] && entries[..i + 1] == entries[..i] + [e];
    assert Ready([e]) == (if e.revents.IsZero() then [] else [e.fd]) + Ready([]);
    ReadyJoin(entries[..i], [e]);
  }

  /** The places with a report. */
  function Places(entries: seq<Entry>): seq<nat> {
    if entries == [] then []
    else
      var last := |entries| - 1;
      Places(entries[..last]) + (if entries[last].revents.IsZero() then [] else [last])
  }

  lemma {:induction false} PlacesExact(entries: seq<Entry>)
    ensures forall i: nat :: i in Places(entries) <==> i < |entries| && entries[i].revents != NO_REVENTS
    ensures forall j, k :: 0 <= j < k < |Places(entries)| ==> Places(entries)[j] < Places(entries)[k]
    decreases entries
  {
    if entries != [] {
      var last := |entries| - 1;
      PlacesExact(entries[..last]);
      assert forall i: nat :: i < last ==> entries[..last][i] == entries[i];
      assert forall k :: 0 <= k < |Places(entries[..last])| ==> Places(entries[..last])[k] in Places(entries[..last]);
    }
  }

  /** `Ready` names the places with a report, each once and in order, and nothing else. */
  lemma {:induction false} ReadyPlaces(entries: seq<Entry>)
    ensures |Ready(entries)| == |Places(entries)|
    ensures forall k :: 0 <= k < |Ready(entries)| ==>
              Places(entries)[k] < |entries| && Ready(entries)[k] == entries[Places(entries)[k]].fd
    decreases entries
  {
    if entries != [] {
      var last := |entries| - 1;
      ReadyPlaces(entries[..last]);
      ReadyAt(entries, last);
      assert entries[..last + 1] == entries;
    }
  }

  lemma ReadyTail(entries: seq<Entry>, i: nat)
    requires i <= |entries| && Ready(entries[i..]) == []
    ensures Ready(entries) == Ready(entries[..i])
    ensures forall j :: i <= j < |entries| ==> entries[j].revents.IsZero()
  {
    assert entries == entries[..i] + entries[i..];
    ReadyJoin(entries[..i], entries[i..]);
    NothingReady(entries[i..]);
    assert forall j :: i <= j < |entries| ==> entries[j] == entries[i..][j - i];
  }

  lemma {:induction false} NothingReady(entries: seq<Entry>)
    requires Ready(entries) == []
    ensures forall i :: 0 <= i < |entries| ==> entries[i].revents.IsZero()
  {
    if entries != [] {
      NothingReady(entries[1..]);
      assert forall i :: 0 < i < |entries| ==> entries[i] == entries[1..][i - 1];
    }
  }

  /** The entries that report something belong to different registered channels. */
  ghost predicate Reportable(entries: seq<Entry>, fds: set<nat>) {
    && (forall i :: 0 <= i < |entries| && !entries[i].revents.IsZero() ==> entries[i].fd >= 0 && entries[i].fd in fds)
    && (forall i, j :: 0 <= i < j < |entries| && !entries[i].revents.IsZero() && !entries[j].revents.IsZero() ==>
          entries[i].fd != entries[j].fd)
  }

  /** The kernel reports nothing for a parked entry, so the lookups of poll never fail. */
  lemma AnswersReportable(p: Poll, reports: map<int, Revents>)
    requires Inv(p)
    ensures Inv(Step(p, Report(reports))) && Reportable(Step(p, Report(reports)).entries, p.idx.Keys)
  {
    ReportInv(p, reports);
    var q := Step(p, Report(reports));
    forall i | 0 <= i < |q.entries| && !q.entries[i].revents.IsZero()
      ensures q.entries[i].fd == q.owners[i] && q.owners[i] in q.idx && q.idx[q.owners[i]] == i
    {
    }
  }

  // The poller object

  /** `active` lists exactly the channels of the entries with something to report, in order and
      once each, and each of them has been given its report. */
  ghost predicate Delivered(channels: map<nat, Channel>, active: seq<Channel>, entries: seq<Entry>)
    reads channels.Values
  {
    && |active| == |Ready(entries)|
    && (forall k :: 0 <= k < |active| ==>
          active[k].fd == Ready(entries)[k] && active[k].fd in channels && channels[active[k].fd] == active[k])
    && (forall i :: 0 <= i < |entries| && !entries[i].revents.IsZero() ==>
          entries[i].fd >= 0 && entries[i].fd in channels
          && channels[entries[i].fd].revents == entries[i].revents)
  }

  /** The registered channels carry the indices and interests of the value; the interest of
      channel `but` may just have been changed. */
  ghost predicate Backed(channels: map<nat, Channel>, p: Poll, but: int)
    reads channels.Values
  {
    channels.Keys == p.idx.Keys && p.mask.Keys == p.idx.Keys &&
    forall fd :: fd in channels ==>
      channels[fd].fd == fd && channels[fd].idxPoll == p.idx[fd]
      && (fd != but ==> channels[fd].events == p.mask[fd])
  }

  /** Nothing is missed where the scan stops early. */
  lemma RestDelivered(channels: map<nat, Channel>, active: seq<Channel>, entries: seq<Entry>, i: nat)
    requires i <= |entries| && |Ready(entries[i..])| == 0 && Delivered(channels, active, entries[..i])
    ensures Delivered(channels, active, entries) && Ready(entries) == Ready(entries[..i])
  {
    ReadyTail(entries, i);
    assert forall j :: 0 <= j < |entries| && !entries[j].revents.IsZero() ==> entries[..i][j] == entries[j];
  }

  class PollPoller {
    var channels: map<nat, Channel>
    var pollFds: seq<Entry>
    ghost var value: Poll

    ghost predicate ValidBut(but: int)
      reads this, channels.Values
    {
      Inv(value) && pollFds == value.entries && Backed(channels, value, but)
    }

    ghost predicate Valid()
      reads this, channels.Values
    {
      ValidBut(-1)
    }

    constructor ()
      ensures Valid() && value == EMPTY_POLL
    {
      channels, pollFds, value := map[], [], EMPTY_POLL;
    }

    /** The assertions of updateChannel on the channel it is given. */
    ghost predicate UpdateAsserts(c: Channel)
      reads this, c
    {
      if c.idxPoll < 0 then c.fd !in channels else c.fd in channels && channels[c.fd] == c
    }

    /** updateChannel, after the channel has changed its interest. */
    method UpdateChannel(c: Channel)
      requires ValidBut(c.fd) && UpdateAsserts(c)
      modifies this, c`idxPoll
      ensures Valid() && value == Step(old(value), Update(c.fd, c.events))
      ensures channels == old(channels)[c.fd := c]
    {
      ghost var next := UpdatePlan(value, c.fd, c.events);
      if c.idxPoll < 0 {
        Register(c, next);
      } else {
        Refresh(c, next);
      }
    }

    method Register(c: Channel, ghost next: Poll)
      requires pollFds == value.entries && Backed(channels, value, c.fd) && c.fd !in channels
      requires next.entries == pollFds + [Entry(c.fd, c.events, NO_REVENTS)]
      requires next.idx == value.idx[c.fd := |pollFds|] && next.mask == value.mask[c.fd := c.events]
      modifies this, c`idxPoll
      ensures channels == old(channels)[c.fd := c]
      ensures value == next && pollFds == next.entries && Backed(channels, next, -1)
    {
      assert forall fd :: fd in channels ==> channels[fd] != c;
      pollFds := pollFds + [Entry(c.fd, c.events, NO_REVENTS)];
      c.idxPoll := |pollFds| - 1;
      channels := channels[c.fd := c];
      value := next;
    }

    method Refresh(c: Channel, ghost next: Poll)
      requires pollFds == value.entries && Backed(channels, value, c.fd)
      requires c.fd in channels && channels[c.fd] == c && value.idx[c.fd] < |pollFds|
      requires var i := value.idx[c.fd];
               next.entries == pollFds[i := Refreshed(pollFds[i], c.events)]
      requires next.idx == value.idx && next.mask == value.mask[c.fd := c.events]
      modifies this`pollFds, this`value
      ensures value == next && pollFds == next.entries && Backed(channels, next, -1)
    {
      var i := c.idxPoll;
      pollFds := pollFds[i := Refreshed(pollFds[i], c.events)];
      value := next;
    }

    method RemoveChannel(c: Channel)
      requires Valid() && c.fd in channels && channels[c.fd] == c && Enabled(value, Remove(c.fd))
      modifies this, channels.Values`idxPoll
      ensures Valid() && value == Step(old(value), Remove(c.fd))
      ensures channels == old(channels) - {c.fd}
      ensures c.idxPoll == old(c.idxPoll) >= 0 && !UpdateAsserts(c)
    {
      ghost var next := RemovePlan(value, c.fd);
      Unlink(c, next);
    }

    /** disableEvents on a registered channel. */
    method SwitchOff(c: Channel)
      requires Valid() && c.fd in channels && channels[c.fd] == c
      modifies this, c`events, c`idxPoll
      ensures Valid() && value == Step(old(value), Update(c.fd, NO_EVENTS))
      ensures channels == old(channels) && c.events == NO_EVENTS
    {
      c.DisableEvents();
      UpdateChannel(c);
    }

    /** disableEvents and remove, as every owner of a channel ends it. */
    method DropChannel(c: Channel)
      requires Valid() && c.fd in channels && channels[c.fd] == c && ParkedSet(value) == {}
      modifies this, channels.Values
      ensures Valid() && Matches(value, Account(old(value).mask - {c.fd}, {}))
      ensures channels == old(channels) - {c.fd} && c.events == NO_EVENTS && !UpdateAsserts(c)
    {
      DropStep(value, c.fd);
      SwitchOff(c);
      RemoveChannel(c);
    }

    /** poll: `reports` is what the kernel fills in and `num` its result, which is the number of entries
        with a report, or negative on an error, when nothing is filled in. */
    method PollOnce(num: int, reports: map<int, Revents>) returns (active: seq<Channel>)
      requires Valid() && (num < 0 || num == |Ready(Filled(pollFds, reports))|)
      modifies this`pollFds, this`value, channels.Values`revents
      ensures Valid()
      ensures num < 0 ==> active == [] && value == old(value)
      ensures num < 0 ==> forall fd :: fd in channels ==> channels[fd].revents == old(channels[fd].revents)
      ensures num >= 0 ==> forall fd :: fd in channels && fd !in Ready(pollFds) ==>
                channels[fd].revents == old(channels[fd].revents)
      ensures num >= 0 ==> value == Step(old(value), Report(reports)) && Delivered(channels, active, pollFds)
    {
      if num < 0 {
        return [];
      }
      AnswersReportable(value, reports);
      active := Fill(num, reports, Step(value, Report(reports)));
    }

    /** The call of poll(2) and the scan of its answers. */
    method Fill(num: nat, reports: map<int, Revents>, ghost q: Poll) returns (active: seq<Channel>)
      requires Backed(channels, value, -1)
      requires q == value.(entries := Filled(pollFds, reports)) && Reportable(q.entries, q.idx.Keys)
      requires num == |Ready(q.entries)|
      modifies this`pollFds, this`value, channels.Values`revents
      ensures value == q && pollFds == q.entries && Backed(channels, q, -1)
      ensures Delivered(channels, active, pollFds)
      ensures forall fd :: fd in channels && fd !in Ready(pollFds) ==>
                channels[fd].revents == old(channels[fd].revents)
    {
      pollFds := Filled(pollFds, reports);
      value := q;
      active := Scan(num);
    }

    /** The scan of poll, which stops as soon as it has seen `num` reports. */
    method Scan(num: nat) returns (active: seq<Channel>)
      requires num == |Ready(pollFds)| && Reportable(pollFds, channels.Keys)
      requires forall fd :: fd in channels ==> channels[fd].fd == fd
      modifies channels.Values`revents
      ensures Delivered(channels, active, pollFds)
      ensures forall fd :: fd in channels && fd !in Ready(pollFds) ==>
                channels[fd].revents == old(channels[fd].revents)
    {
      active := [];
      var left: int := num;
      var i := 0;
      assert pollFds[..0] == [] && pollFds[0..] == pollFds;
      if num > 0 {
        while i < |pollFds|
          invariant 0 <= i <= |pollFds|
          invariant left == |Ready(pollFds[i..])|
          invariant Delivered(channels, active, pollFds[..i])
          invariant forall fd :: fd in channels && fd !in Ready(pollFds[..i]) ==>
                      channels[fd].revents == old(channels[fd].revents)
        {
          var seen;
          ReadyAt(pollFds, i);
          active, seen := Visit(i, active);
          i := i + 1;
          if seen {
            left := left - 1;
            if left <= 0 {
              break;
            }
          }
        }
      }
      RestDelivered(channels, active, pollFds, i);
    }

    /** One entry: with a report its channel gets it and joins the active ones. */
    method Visit(i: nat, active: seq<Channel>) returns (longer: seq<Channel>, seen: bool)
      requires i < |pollFds|
      requires Reportable(pollFds, channels.Keys) && Delivered(channels, active, pollFds[..i])
      requires forall fd :: fd in channels ==> channels[fd].fd == fd
      modifies channels.Values`revents
      ensures Delivered(channels, longer, pollFds[..i + 1])
      ensures forall fd :: fd in channels && !(seen && fd == pollFds[i].fd) ==>
                channels[fd].revents == old(channels[fd].revents)
      ensures |Ready(pollFds[i..])| == (if seen then 1 else 0) + |Ready(pollFds[i + 1..])|
    {
      ReadyAt(pollFds, i);
      ghost var before := pollFds[..i];
      assert pollFds[..i + 1] == before + [pollFds[i]];
      seen := !pollFds[i].revents.IsZero();
      longer := active;
      if seen {
        var c := channels[pollFds[i].fd];
        assert forall fd :: fd in channels && channels[fd] == c ==> fd == pollFds[i].fd;
        assert forall j :: 0 <= j < i && !before[j].revents.IsZero() ==> channels[before[j].fd] != c;
        c.revents := pollFds[i].revents;
        longer := active + [c];
      }
    }

    /** The changes of removeChannel: the last entry takes the place of c's. */
    method Unlink(c: Channel, ghost next: Poll)
      requires pollFds == value.entries && Backed(channels, value, -1)
      requires c.fd in channels && channels[c.fd] == c && Planned(value, c.fd, next)
      modifies this, channels.Values`idxPoll
      ensures channels == old(channels) - {c.fd}
      ensures value == next && pollFds == next.entries && Backed(channels, next, -1)
      ensures c.idxPoll == old(c.idxPoll)
    {
      var i, last := c.idxPoll, |pollFds| - 1;
      channels := channels - {c.fd};
      if i != last {
        channels[pollFds[last].fd].idxPoll := i;
      }
      pollFds := SwapOut(pollFds, i);
      value := next;
    }
  }

  /** A removed channel keeps its index, so no channel that has ever been removed can be registered again:
      whatever the poller does meanwhile, the assertions of updateChannel fail for it. */
  lemma RemovedIsShutOut(poller: PollPoller, c: Channel)
    requires poller.Valid() && (c.fd in poller.channels ==> poller.channels[c.fd] != c)
    ensures poller.UpdateAsserts(c) <==> c.idxPoll < 0 && c.fd !in poller.channels
  {
  }

  /** What an update does to the fields. */
  lemma UpdatePlan(p: Poll, fd: nat, m: Mask) returns (next: Poll)
    requires Inv(p)
    ensures next == Step(p, Update(fd, m)) && Inv(next) && next.mask == p.mask[fd := m]
    ensures if fd in p.idx
            then p.idx[fd] < |p.entries| && next.idx == p.idx
                 && next.entries == p.entries[p.idx[fd] := Refreshed(p.entries[p.idx[fd]], m)]
            else next.idx == p.idx[fd := |p.entries|] && next.entries == p.entries + [Entry(fd, m, NO_REVENTS)]
  {
    UpdateInv(p, fd, m);
    next := Step(p, Update(fd, m));
  }

  /** What removing fd does to the fields. */
  ghost predicate Planned(p: Poll, fd: nat, next: Poll) {
    && fd in p.idx && p.idx[fd] < |p.entries|
    && var last := |p.entries| - 1;
       var moved := if p.idx[fd] != last then p.entries[last].fd else fd;
       && moved >= 0 && moved in p.idx && (moved == fd <==> p.idx[fd] == last)
       && next.idx == SwapIndex(p.idx, fd, moved) && next.mask == p.mask - {fd}
       && next.entries == SwapOut(p.entries, p.idx[fd])
  }

  lemma RemovePlan(p: Poll, fd: nat) returns (next: Poll)
    requires Inv(p) && Enabled(p, Remove(fd))
    ensures next == Step(p, Remove(fd)) && Inv(next) && Planned(p, fd, next)
  {
    RemoveInv(p, fd);
    next := Step(p, Remove(fd));
    var last := |p.entries| - 1;
    assert p.idx[p.owners[last]] == last && p.owners[p.idx[fd]] == fd;
  }
}
