/** include/lotta/buffer.h and src/buffer.cc: a byte buffer over a vector with a read cursor.
    `Buf` is the buffer as a value; class `Buffer` keeps the bytes in an array, as the vector does,
    and each of its methods is proved to compute the function of the same name on `Buf`. */
module Buffers {
  import opened Strings

  /** `data` is the vector's contents, `idx` the read cursor, `cap` the vector's capacity. */
  datatype Buf = Buf(data: string, idx: nat, cap: nat) {
    predicate Valid() { idx <= |data| <= cap }

    function Readable(): nat
      requires Valid()
    {
      |data| - idx
    }

    function Writable(): nat
      requires Valid()
    {
      cap - |data|
    }

    function View(): string
      requires Valid()
    {
      data[idx..]
    }
  }

  function Empty(n: nat): Buf { Buf("", 0, n) }

  /** Everything was consumed and the vector is full: `makeSpace` then rewinds the cursor
      and keeps the consumed bytes. */
  predicate Degenerate(b: Buf)
    requires b.Valid()
  {
    b.Readable() == 0 && b.Writable() == 0 && b.data != ""
  }

  function MakeSpace(b: Buf, n: nat): (r: Buf)
    requires b.Valid()
    ensures r.Valid()
  {
    var c := if b.Readable() == 0 && b.Writable() == 0 then b.(idx := 0) else b;
    if n <= c.Writable() then c
    else if c.Readable() + n > c.cap then c
    else Buf(c.View(), 0, c.cap)
  }

  /** `grown` is the capacity the allocator picks when the vector must grow. */
  function Append(b: Buf, s: string, grown: nat): (r: Buf)
    requires b.Valid()
    ensures r.Valid()
  {
    var c := MakeSpace(b, |s|);
    var data := c.data + s;
    Buf(data, c.idx, if |data| <= c.cap then c.cap else if grown < |data| then |data| else grown)
  }

  function Retrieve(b: Buf, n: nat): (r: Buf)
    requires b.Valid() && n <= b.Readable()
    ensures r.Valid()
  {
    b.(idx := b.idx + n)
  }

  function Discard(b: Buf, n: nat): (r: Buf)
    requires b.Valid() && n <= b.Readable()
    ensures r.Valid()
  {
    b.(data := b.data[..|b.data| - n])
  }

  /** What one `retrieveUntil` takes off a view: the bytes before the delimiter and what is left.
      Without a delimiter it takes nothing and yields the empty slice. */
  datatype Piece = Piece(slice: string, rest: string)

  function Cut(view: string, delim: string): (p: Piece) {
    var k := Find(view, delim);
    if k == |view| then Piece("", view) else Piece(view[..k], view[k + |delim|..])
  }

  // Laws

  /** The law of `append`: the new bytes follow the unread ones, except exactly when the buffer
      was degenerate. */
  lemma AppendExact(b: Buf, s: string, grown: nat)
    requires b.Valid()
    ensures Append(b, s, grown).View() == b.View() + s <==> !Degenerate(b)
    ensures Degenerate(b) ==> Append(b, s, grown).View() == b.data + s
  {
  }

  /** The vector is reallocated exactly when unread plus new bytes exceed its capacity, or when
      a non-empty message meets a degenerate buffer. */
  lemma AppendReallocates(b: Buf, s: string, grown: nat)
    requires b.Valid()
    ensures Append(b, s, grown).cap != b.cap <==>
            (b.Readable() + |s| > b.cap || (Degenerate(b) && s != ""))
    ensures Append(b, s, grown).cap >= b.cap
  {
  }

  /** The unread bytes are moved to the front exactly when there is no room behind them and that makes
      enough; everything before the cursor stays in place, also in a larger vector, whose capacity is
      the allocator's choice if that suffices. */
  lemma AppendCursor(b: Buf, s: string, grown: nat)
    requires b.Valid()
    ensures var r := Append(b, s, grown);
            var moves := b.Writable() < |s| <= b.cap - b.Readable();
            r.idx == (if moves || Degenerate(b) then 0 else b.idx)
            && r.data[..r.idx] == b.data[..r.idx]
            && (r.cap != b.cap ==> r.cap == if grown >= |r.data| then grown else |r.data|)
  {
  }

  /** A fresh buffer of any capacity that is filled to it and drained is degenerate, so the state is
      reachable, and the next byte resurrects what was consumed. */
  lemma DegenerateReachable(s: string, t: string, grown: nat)
    requires s != ""
    ensures var b := Append(Empty(|s|), s, grown);
            b.View() == s &&
            Retrieve(b, |s|).View() == "" && Degenerate(Retrieve(b, |s|)) &&
            Append(Retrieve(b, |s|), t, grown).View() == s + t
  {
  }

  const SIZE_MOD: nat := 0x1_0000_0000_0000_0000

  /** `idx_ -= n` on an unsigned 64-bit cursor. */
  function Revoke(b: Buf, n: nat): Buf
    requires b.Valid()
  {
    b.(idx := (b.idx - n) % SIZE_MOD)
  }

  /** `revoke` asserts n >= idx: under that assertion the buffer stays usable exactly for n == idx,
      and then every byte still stored is readable again. */
  lemma RevokeExact(b: Buf, n: nat)
    requires b.Valid() && |b.data| < SIZE_MOD / 2 && n < SIZE_MOD / 2
    requires n >= b.idx
    ensures Revoke(b, n).Valid() <==> n == b.idx
    ensures n == b.idx ==> Revoke(b, n).View() == b.data
  {
  }

  /** What `Cut` gives back: a found delimiter splits the view at its first occurrence. Without one,
      and for the empty delimiter, nothing is taken. */
  lemma CutSplits(view: string, delim: string)
    ensures var p := Cut(view, delim);
            if delim != "" && Contains(view, delim)
            then view == p.slice + delim + p.rest && !Contains(p.slice, delim)
            else p == Piece("", view)
  {
    var k := Find(view, delim);
    if delim != "" && k < |view| {
      assert OccursAt(view, delim, k);
      PrefixBeforeMatch(view, delim, k);
      assert view == view[..k] + view[k..k + |delim|] + view[k + |delim|..];
    }
  }

  /** Printing a delimiter-free text and its delimiter, then cutting, gives both parts back. */
  lemma CutPrinted(a: string, delim: string, rest: string)
    requires Borderless(delim) && !Contains(a, delim)
    ensures Cut(a + delim + rest, delim) == Piece(a, rest)
  {
    FindPrinted(a, delim, rest);
  }

  // The buffer object

  class Buffer {
    var store: array<char>
    var size: nat
    var idx: nat

    ghost predicate Valid()
      reads this
    {
      idx <= size <= store.Length
    }

    ghost function Value(): (b: Buf)
      requires Valid()
      reads this, store
      ensures b.Valid()
    {
      Buf(store[..size], idx, store.Length)
    }

    constructor (n: nat)
      ensures Valid() && fresh(store) && Value() == Empty(n)
    {
      store := new char[n];
      size, idx := 0, 0;
    }

    /** Moves the unread bytes to the front in place when that makes the room asked for. */
    method MakeRoom(n: nat)
      requires Valid()
      modifies this, store
      ensures Valid() && store == old(store)
      ensures Value() == MakeSpace(old(Value()), n)
    {
      if size == idx && store.Length == size {
        idx := 0;
      }
      if n <= store.Length - size || size - idx + n > store.Length {
        return;
      }
      var len := size - idx;
      ghost var before := store[..];
      var k := 0;
      while k < len
        invariant 0 <= k <= len == size - idx && Valid()
        invariant store == old(store) && size == old(size)
        invariant store[..k] == before[idx..idx + k]
        invariant forall j :: k <= j < store.Length ==> store[j] == before[j]
      {
        store[k] := store[idx + k];
        k := k + 1;
      }
      size := len;
      idx := 0;
    }

    /** `grown` is the capacity the vector would grow to; it never shrinks below what is needed. */
    method AppendBytes(s: string, grown: nat)
      requires Valid()
      modifies this, store
      ensures Valid() && (store == old(store) || fresh(store))
      ensures Value() == Append(old(Value()), s, grown)
    {
      MakeRoom(|s|);
      ghost var kept := store[..size];
      if size + |s| > store.Length {
        var wanted := if grown < size + |s| then size + |s| else grown;
        var bigger := new char[wanted];
        forall i | 0 <= i < size {
          bigger[i] := store[i];
        }
        store := bigger;
        assert store[..size] == kept;
      }
      forall i | 0 <= i < |s| {
        store[size + i] := s[i];
      }
      size := size + |s|;
      assert store[..size] == kept + s;
    }

    method Take(n: nat) returns (s: string)
      requires Valid() && n <= size - idx
      modifies this`idx
      ensures Valid()
      ensures s == old(Value()).View()[..n]
      ensures Value() == Retrieve(old(Value()), n)
    {
      ghost var view := Value().View();
      s := store[idx..idx + n];
      assert forall k :: 0 <= k < n ==> s[k] == view[k];
      idx := idx + n;
    }

    /** `retrieveUntil`: the search runs over the unread bytes only. */
    method TakeUntil(delim: string) returns (s: string)
      requires Valid()
      modifies this`idx
      ensures Valid()
      ensures s == Cut(old(Value()).View(), delim).slice
      ensures Value().View() == Cut(old(Value()).View(), delim).rest
    {
      var view := store[idx..size];
      assert view == Value().View();
      var k := Find(view, delim);
      if k == |view| {
        s := "";
      } else {
        s := Take(k);
        var _ := Take(|delim|);
      }
    }

    method DiscardBytes(n: nat)
      requires Valid() && n <= size - idx
      modifies this`size
      ensures Valid() && Value() == Discard(old(Value()), n)
      ensures Value().View() + old(Value()).View()[old(Value()).Readable() - n..] == old(Value()).View()
    {
      size := size - n;
      assert store[..size] == old(store[..size])[..size];
    }

    /** `readFrom`: makes room for the bytes the kernel announced, grows the vector over them with
        zeros and fills in what the read got; `failed` means that it answered -1. The source asserts
        that the read got exactly what was announced. */
    method ReadFrom(announced: nat, got: string, failed: bool, grown: nat) returns (ret: int)
      requires Valid() && |got| <= announced && (failed ==> got == "")
      modifies this, store
      ensures Valid() && (store == old(store) || fresh(store))
      ensures ret == if failed then -1 else |got|
      ensures Value() == Append(old(Value()), got + Zeros(announced - |got|), grown)
      ensures Value().View() == old(Value()).View() + got <==> |got| == announced && !Degenerate(old(Value()))
    {
      ReadExact(Value(), got, announced - |got|, grown);
      AppendBytes(got + Zeros(announced - |got|), grown);
      ret := if failed then -1 else |got|;
    }
  }

  function Zeros(n: nat): (s: string)
    ensures |s| == n && forall c :: c in s ==> c == '\0'
  {
    seq(n, _ => '\0')
  }

  lemma ReadExact(b: Buf, got: string, missing: nat, grown: nat)
    requires b.Valid()
    ensures Append(b, got + Zeros(missing), grown).View() == b.View() + got <==> missing == 0 && !Degenerate(b)
  {
    var s := got + Zeros(missing);
    AppendExact(b, s, grown);
    if missing == 0 {
      assert s == got;
    } else if !Degenerate(b) {
      assert |b.View() + s| > |b.View() + got|;
    }
  }
}
