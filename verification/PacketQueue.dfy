/** Bytes, and how sequences are taken apart and put together again. */
module Bytes {
  type u8 = x: int | 0 <= x < 256

  lemma {:induction false} Regroup<T>(a: seq<T>, b: seq<T>, c: seq<T>)
    ensures a + (b + c) == a + b + c
  {
  }

  /** The numbers from `lo` up to but not including `hi`. */
  ghost function Span(lo: nat, hi: nat): set<nat> {
    if hi <= lo then {} else Span(lo, hi - 1) + {hi - 1}
  }

  lemma {:induction false} SpanSize(lo: nat, hi: nat)
    requires lo <= hi
    ensures |Span(lo, hi)| == hi - lo && forall i: nat :: i in Span(lo, hi) <==> lo <= i < hi
  {
    if lo == hi {
    } else {
      SpanSize(lo, hi - 1);
    }
  }

  lemma SubSlice(b: seq<u8>, lo: nat, hi: nat, from: nat, to: nat)
    requires lo <= hi <= |b| && from <= to <= hi - lo
    ensures b[lo..hi][from..to] == b[lo + from..lo + to]
  {
    forall i | 0 <= i < to - from ensures b[lo..hi][from..to][i] == b[lo + from..lo + to][i] {
    }
  }

  lemma ThreeParts(x: seq<u8>, y: seq<u8>, z: seq<u8>)
    ensures (x + y + z)[..|x|] == x
    ensures (x + y + z)[|x|..|x| + |y|] == y
    ensures (x + y + z)[|x| + |y|..] == z
  {
  }
}

/** The send queue of a connection: a byte ring of variable-length records with a zero length byte
    after the last record and at the place where the writer wrapped. */
module PacketQueue {
  import opened Bytes

  /** The firmware adds up the parts of a record in one byte; for longer packets that sum wraps. */
  const MAX_PACKET: nat := 252

  type Payload = d: seq<u8> | |d| <= MAX_PACKET

  datatype Record = Record(reliable: bool, data: Payload)

  function Encode(r: Record): seq<u8> {
    [|r.data| + 1, if r.reliable then 1 else 0] + r.data
  }

  function EncodeAll(rs: seq<Record>): seq<u8> {
    if rs == [] then [] else Encode(rs[0]) + EncodeAll(rs[1..])
  }

  lemma {:induction false} EncodeAllAppend(rs: seq<Record>, r: Record)
    ensures EncodeAll(rs + [r]) == EncodeAll(rs) + Encode(r)
  {
    if rs == [] {
      assert [r][1..] == [];
    } else {
      assert (rs + [r])[1..] == rs[1..] + [r];
      EncodeAllAppend(rs[1..], r);
      Regroup(Encode(rs[0]), EncodeAll(rs[1..]), Encode(r));
    }
  }

  /** A ring of `n` bytes takes a packet when the record, its terminator and one spare byte fit
      behind the write position, or else in front of the read position. */
  predicate Fits(read: nat, write: nat, n: nat, length: nat) {
    if write < read then write + length + 3 < read
    else write + length + 3 < n || length + 3 <= read
  }

  /** An empty ring takes every packet of this length, wherever its pointers stand, exactly when
      it has room for two such records. */
  lemma EmptyRingTakes(n: nat, length: nat)
    requires length + 3 <= n
    ensures (forall at: nat :: at < n ==> Fits(at, at, n, length)) <==> 2 * (length + 3) <= n
  {
    if n < 2 * (length + 3) {
      assert !Fits(n - length - 3, n - length - 3, n, length);
    }
  }

  /** How the ring bytes `b` hold the records: `upper` from the read position up, `lower` in front of
      it once the writer has wrapped at `wrap`; a zero length byte ends each stretch. */
  ghost predicate Holds(b: seq<u8>, read: nat, write: nat, wrap: nat, upper: seq<Record>, lower: seq<Record>) {
    && read < |b| && write < |b| && b[write] == 0
    && if read <= write then
         lower == [] && b[read..write] == EncodeAll(upper)
       else
         && lower != [] && read <= wrap < |b| && b[wrap] == 0
         && b[read..wrap] == EncodeAll(upper) && b[..write] == EncodeAll(lower)
  }

  /** The end of the stretch of records that starts at the read position. */
  function End(read: nat, write: nat, wrap: nat): nat {
    if read <= write then write else wrap
  }

  /** The ring bytes that hold records or the zero byte that ends a stretch of them. */
  predicate Taken(read: nat, write: nat, wrap: nat, i: nat) {
    if read <= write then read <= i <= write else i <= write || read <= i <= wrap
  }

  /** Behind the last record there is room in the ring for another one, its terminator and a spare byte;
      the record starts at the terminator of the last one. */
  ghost predicate RoomBehind(read: nat, write: nat, wrap: nat, n: nat, length: nat) {
    && write + length + 4 <= n
    && forall i :: write < i < write + length + 4 ==> !Taken(read, write, wrap, i)
  }

  /** The writer has not wrapped, and at the start of the ring there is room for a record and its
      terminator. */
  ghost predicate RoomInFront(read: nat, write: nat, wrap: nat, n: nat, length: nat) {
    && read <= write && length + 3 <= n
    && forall i :: 0 <= i < length + 3 ==> !Taken(read, write, wrap, i)
  }

  ghost function TakenBytes(n: nat, read: nat, write: nat, wrap: nat): set<nat> {
    set i | i in Span(0, n) && Taken(read, write, wrap, i)
  }

  lemma TakenMember(n: nat, read: nat, write: nat, wrap: nat, i: nat)
    ensures i in TakenBytes(n, read, write, wrap) <==> i < n && Taken(read, write, wrap, i)
  {
    SpanSize(0, n);
  }

  lemma OneStretch(s: set<nat>, lo: nat, hi: nat)
    requires lo <= hi && forall i: nat :: i in s <==> lo <= i <= hi
    ensures |s| == hi + 1 - lo
  {
    SpanSize(lo, hi + 1);
    assert s == Span(lo, hi + 1);
  }

  lemma TwoStretches(s: set<nat>, top: nat, lo: nat, hi: nat)
    requires top < lo <= hi && forall i: nat :: i in s <==> i <= top || lo <= i <= hi
    ensures |s| == top + 1 + (hi + 1 - lo)
  {
    var low, high := set i | i in s && i <= top, set i | i in s && lo <= i;
    OneStretch(low, 0, top);
    OneStretch(high, lo, hi);
    assert s == low + high && low !! high;
  }

  /** The taken bytes are those of the records, and one zero byte for each stretch of them. */
  lemma TakenAreRecords(b: seq<u8>, read: nat, write: nat, wrap: nat, upper: seq<Record>, lower: seq<Record>)
    requires Holds(b, read, write, wrap, upper, lower)
    ensures |TakenBytes(|b|, read, write, wrap)|
         == |EncodeAll(upper)| + 1 + if read <= write then 0 else |EncodeAll(lower)| + 1
  {
    var taken := TakenBytes(|b|, read, write, wrap);
    forall i: nat ensures i in taken <==> i < |b| && Taken(read, write, wrap, i) {
      TakenMember(|b|, read, write, wrap, i);
    }
    if read <= write {
      OneStretch(taken, read, write);
    } else {
      TwoStretches(taken, write, read, wrap);
    }
  }

  /** The ring takes a packet exactly if there is room in one of the two places. */
  lemma FitsIfRoom(b: seq<u8>, read: nat, write: nat, wrap: nat, upper: seq<Record>, lower: seq<Record>, length: nat)
    requires Holds(b, read, write, wrap, upper, lower)
    ensures Fits(read, write, |b|, length) <==>
      RoomBehind(read, write, wrap, |b|, length) || RoomInFront(read, write, wrap, |b|, length)
  {
    if write < read {
      assert Taken(read, write, wrap, read);
    } else {
      assert Taken(read, write, wrap, read);
      assert forall i :: i > write ==> !Taken(read, write, wrap, i);
      assert forall i :: 0 <= i < read ==> !Taken(read, write, wrap, i);
    }
  }

  /** As long as the writer has not wrapped, a packet is taken if the ring is large enough for two of its
      kind beside the records it holds; */
  lemma UnwrappedRingTakes(b: seq<u8>, read: nat, write: nat, wrap: nat, upper: seq<Record>, length: nat)
    requires Holds(b, read, write, wrap, upper, [])
    ensures |EncodeAll(upper)| + 2 * (length + 3) <= |b| ==> Fits(read, write, |b|, length)
  {
  }

  /** once it has wrapped, exactly if the bytes between the two stretches of records suffice. */
  lemma WrappedRingTakes(b: seq<u8>, read: nat, write: nat, wrap: nat, upper: seq<Record>, lower: seq<Record>, length: nat)
    requires Holds(b, read, write, wrap, upper, lower) && lower != []
    ensures Fits(read, write, |b|, length) <==> |EncodeAll(lower)| + length + 3 < read
  {
  }

  /** The bytes after a record and its terminator were written at `w`. */
  function Written(b: seq<u8>, w: nat, r: Record): seq<u8>
    requires w + |r.data| + 2 < |b|
  {
    b[..w] + Encode(r) + [0] + b[w + |r.data| + 3..]
  }

  lemma WrittenRecord(b: seq<u8>, w: nat, r: Record, from: nat)
    requires from <= w && w + |r.data| + 2 < |b|
    ensures Written(b, w, r)[from..w + |r.data| + 2] == b[from..w] + Encode(r)
    ensures Written(b, w, r)[w + |r.data| + 2] == 0
  {
  }

  lemma WrittenBehind(b: seq<u8>, w: nat, r: Record, lo: nat, hi: nat)
    requires w + |r.data| + 2 < lo <= hi <= |b|
    ensures Written(b, w, r)[lo..hi] == b[lo..hi]
    ensures hi < |b| ==> Written(b, w, r)[hi] == b[hi]
  {
  }

  lemma PutAfterUpper(b: seq<u8>, read: nat, write: nat, wrap: nat, upper: seq<Record>, r: Record)
    requires Holds(b, read, write, wrap, upper, []) && read <= write && write + |r.data| + 3 < |b|
    ensures Holds(Written(b, write, r), read, write + |r.data| + 2, wrap, upper + [r], [])
  {
    WrittenRecord(b, write, r, read);
    EncodeAllAppend(upper, r);
  }

  lemma PutAfterLower(b: seq<u8>, read: nat, write: nat, wrap: nat, upper: seq<Record>, lower: seq<Record>, r: Record)
    requires Holds(b, read, write, wrap, upper, lower) && write < read && write + |r.data| + 3 < read
    ensures Holds(Written(b, write, r), read, write + |r.data| + 2, wrap, upper, lower + [r])
  {
    WrittenRecord(b, write, r, 0);
    WrittenBehind(b, write, r, read, wrap);
    EncodeAllAppend(lower, r);
  }

  lemma PutAtStart(b: seq<u8>, read: nat, write: nat, wrap: nat, upper: seq<Record>, r: Record)
    requires Holds(b, read, write, wrap, upper, []) && |r.data| + 3 <= read <= write
    ensures Holds(Written(b, 0, r), read, |r.data| + 2, write, upper, [r])
  {
    WrittenRecord(b, 0, r, 0);
    WrittenBehind(b, 0, r, read, write);
    EncodeAllAppend([], r);
  }

  /** At the read position stands the zero byte where the writer wrapped, */
  lemma WrapsAtZero(b: seq<u8>, read: nat, write: nat, wrap: nat, lower: seq<Record>)
    requires Holds(b, read, write, wrap, [], lower) && lower != []
    ensures write < read && b[read] == 0 && Holds(b, 0, write, wrap, lower, [])
  {
  }

  /** or the length byte of the oldest record. */
  lemma HeadOf(b: seq<u8>, read: nat, write: nat, wrap: nat, upper: seq<Record>, lower: seq<Record>)
    requires Holds(b, read, write, wrap, upper, lower) && upper != []
    ensures
      var r := upper[0];
      && read + |r.data| + 2 <= End(read, write, wrap) < |b|
      && b[read] == |r.data| + 1 && (b[read + 1] != 0 <==> r.reliable)
      && b[read + 2..read + 2 + |r.data|] == r.data
      && b[read + |r.data| + 2..End(read, write, wrap)] == EncodeAll(upper[1..])
      && Holds(b, read + |r.data| + 2, write, wrap, upper[1..], lower)
  {
    var r, end, rest := upper[0], End(read, write, wrap), EncodeAll(upper[1..]);
    var stretch := b[read..end];
    ThreeParts(Encode(r)[..2], r.data, rest);
    assert stretch == Encode(r)[..2] + r.data + rest;
    assert b[read] == stretch[0] && b[read + 1] == stretch[1];
    SubSlice(b, read, end, 2, 2 + |r.data|);
    SubSlice(b, read, end, 2 + |r.data|, end - read);
  }

  function SetByte(d: Payload, i: nat, x: u8): Payload
    requires i < |d|
  {
    d[i := x]
  }

  function WithByte(r: Record, i: nat, x: u8): Record
    requires i < |r.data|
  {
    Record(r.reliable, SetByte(r.data, i, x))
  }

  lemma ReplaceHead(upper: seq<Record>, lower: seq<Record>, q: Record)
    requires upper != []
    ensures [q] + upper[1..] + lower == (upper + lower)[0 := q]
  {
  }

  /** Writing a byte of the oldest packet changes that packet only. */
  lemma HeadByteSet(b: seq<u8>, read: nat, write: nat, wrap: nat, upper: seq<Record>, lower: seq<Record>, i: nat, x: u8)
    requires Holds(b, read, write, wrap, upper, lower) && upper != [] && i < |upper[0].data|
    ensures read + 2 + i < |b|
    ensures Holds(b[read + 2 + i := x], read, write, wrap, [WithByte(upper[0], i, x)] + upper[1..], lower)
  {
    HeadOf(b, read, write, wrap, upper, lower);
    EncodeWithByte(upper, i, x);
    SetInSlice(b, read, End(read, write, wrap), read + 2 + i, x);
    assert write < read ==> b[read + 2 + i := x][..write] == b[..write];
  }

  lemma EncodeWithByte(rs: seq<Record>, i: nat, x: u8)
    requires rs != [] && i < |rs[0].data|
    ensures 2 + i < |EncodeAll(rs)|
    ensures EncodeAll([WithByte(rs[0], i, x)] + rs[1..]) == EncodeAll(rs)[2 + i := x]
  {
    var q, rest := WithByte(rs[0], i, x), EncodeAll(rs[1..]);
    assert ([q] + rs[1..])[1..] == rs[1..];
    EncodeSet(rs[0], i, x);
    SetInFirst(Encode(rs[0]), rest, 2 + i, x);
  }

  lemma EncodeSet(r: Record, i: nat, x: u8)
    requires i < |r.data|
    ensures Encode(WithByte(r, i, x)) == Encode(r)[2 + i := x]
  {
  }

  lemma SetInFirst(a: seq<u8>, b: seq<u8>, i: nat, x: u8)
    requires i < |a|
    ensures (a + b)[i := x] == a[i := x] + b
  {
  }

  lemma SetInSlice(b: seq<u8>, lo: nat, hi: nat, at: nat, x: u8)
    requires lo <= at < hi <= |b|
    ensures b[at := x][lo..hi] == b[lo..hi][at - lo := x]
  {
  }

  class PacketQueue {
    const buffer: array<u8>
    var readPointer: nat
    var writePointer: nat
    var numElements: nat
    // The records from the read position up, and those in front of it after the writer wrapped.
    ghost var upper: seq<Record>
    ghost var lower: seq<Record>
    ghost var wrapAt: nat

    ghost function Contents(): seq<Record>
      reads this
    {
      upper + lower
    }

    ghost predicate Valid()
      reads this, buffer
    {
      numElements == |Contents()| && Holds(buffer[..], readPointer, writePointer, wrapAt, upper, lower)
    }

    /** The read position is at a record, not at the place where the writer wrapped. */
    ghost predicate Peeked()
      reads this
    {
      upper != []
    }

    constructor (buffer: array<u8>)
      requires buffer.Length > 0
      modifies buffer
      ensures Valid() && Contents() == [] && this.buffer == buffer
    {
      this.buffer := buffer;
      numElements, readPointer, writePointer := 0, 0, 0;
      upper, lower := [], [];
      new;
      buffer[0] := 0;
    }

    method WriteRecord(data: Payload, reliable: bool)
      requires writePointer + |data| + 2 < buffer.Length
      modifies this`writePointer, buffer
      ensures writePointer == old(writePointer) + |data| + 2
      ensures buffer[..] == Written(old(buffer[..]), old(writePointer), Record(reliable, data))
    {
      var w := writePointer;
      buffer[w] := |data| + 1;
      buffer[w + 1] := if reliable then 1 else 0;
      forall k | 0 <= k < |data| {
        buffer[w + 2 + k] := data[k];
      }
      writePointer := w + |data| + 2;
      buffer[writePointer] := 0;
    }

    method AppendAtStart(data: Payload, reliable: bool)
      requires Valid() && |data| + 3 <= readPointer <= writePointer
      modifies this, buffer
      ensures Valid() && upper == old(upper) && Contents() == old(Contents()) + [Record(reliable, data)]
    {
      PutAtStart(buffer[..], readPointer, writePointer, wrapAt, upper, Record(reliable, data));
      wrapAt, lower := writePointer, [Record(reliable, data)];
      writePointer := 0;
      WriteRecord(data, reliable);
      numElements := numElements + 1;
    }

    method AppendBehind(data: Payload, reliable: bool)
      requires Valid() && readPointer <= writePointer && writePointer + |data| + 3 < buffer.Length
      modifies this, buffer
      ensures Valid() && Peeked() && Contents() == old(Contents()) + [Record(reliable, data)]
    {
      PutAfterUpper(buffer[..], readPointer, writePointer, wrapAt, upper, Record(reliable, data));
      WriteRecord(data, reliable);
      upper := upper + [Record(reliable, data)];
      numElements := numElements + 1;
    }

    method AppendInFront(data: Payload, reliable: bool)
      requires Valid() && writePointer < readPointer && writePointer + |data| + 3 < readPointer
      modifies this, buffer
      ensures Valid() && upper == old(upper) && Contents() == old(Contents()) + [Record(reliable, data)]
    {
      PutAfterLower(buffer[..], readPointer, writePointer, wrapAt, upper, lower, Record(reliable, data));
      WriteRecord(data, reliable);
      lower := lower + [Record(reliable, data)];
      numElements := numElements + 1;
    }

    /** Appends the packet or leaves the queue as it was. */
    method Put(data: Payload, reliable: bool) returns (ok: bool)
      requires Valid()
      modifies this, buffer
      ensures Valid()
      ensures ok == Fits(old(readPointer), old(writePointer), buffer.Length, |data|)
      ensures ok <==>
        || RoomBehind(old(readPointer), old(writePointer), old(wrapAt), buffer.Length, |data|)
        || RoomInFront(old(readPointer), old(writePointer), old(wrapAt), buffer.Length, |data|)
      ensures Contents() == old(Contents()) + if ok then [Record(reliable, data)] else []
      ensures !ok ==> unchanged(this) && unchanged(buffer)
      ensures old(Peeked()) ==> Peeked()
    {
      FitsIfRoom(buffer[..], readPointer, writePointer, wrapAt, upper, lower, |data|);
      var elementSize := (|data| + 3) % 256;
      if writePointer >= readPointer && buffer.Length - writePointer <= elementSize && readPointer >= elementSize {
        AppendAtStart(data, reliable);
        return true;
      } else if readPointer <= writePointer && writePointer + elementSize >= buffer.Length {
        return false;
      } else if readPointer > writePointer && writePointer + elementSize >= readPointer {
        return false;
      }
      if readPointer <= writePointer {
        AppendBehind(data, reliable);
      } else {
        AppendInFront(data, reliable);
      }
      return true;
    }

    /** The place and length of the oldest packet with its flag byte; length zero if there is none. */
    method PeekNext() returns (at: nat, length: nat)
      requires Valid()
      modifies this`readPointer, this`upper, this`lower
      ensures Valid() && Contents() == old(Contents())
      ensures Contents() == [] <==> length == 0
      ensures Contents() != [] ==>
        && Peeked() && at == readPointer + 1 && at + length < buffer.Length
        && length == |Contents()[0].data| + 1
        && (buffer[at] != 0 <==> Contents()[0].reliable)
        && buffer[at + 1..at + length] == Contents()[0].data
    {
      if numElements == 0 {
        return 0, 0;
      }
      Rewind();
      length := LengthOfHead();
      at := readPointer + 1;
    }

    method LengthOfHead() returns (length: nat)
      requires Valid() && Peeked()
      ensures
        var r, at := Contents()[0], readPointer + 1;
        && length == |r.data| + 1 && at + length < buffer.Length
        && (buffer[at] != 0 <==> r.reliable) && buffer[at + 1..at + length] == r.data
    {
      HeadOf(buffer[..], readPointer, writePointer, wrapAt, upper, lower);
      length := buffer[readPointer];
    }

    /** The reader may have reached the zero byte where the writer wrapped. */
    method Rewind()
      requires Valid() && numElements > 0
      modifies this`readPointer, this`upper, this`lower
      ensures Valid() && Contents() == old(Contents()) && Peeked()
    {
      if upper == [] {
        WrapsAtZero(buffer[..], readPointer, writePointer, wrapAt, lower);
      } else {
        HeadOf(buffer[..], readPointer, writePointer, wrapAt, upper, lower);
      }
      if buffer[readPointer] == 0 && writePointer < readPointer {
        readPointer := 0;
        upper, lower := lower, [];
      }
    }

    /** The bytes of the oldest packet from `from` to `to`. */
    method HeadSlice(from: nat, to: nat) returns (bytes: seq<u8>)
      requires Valid() && Peeked() && from <= to <= |Contents()[0].data|
      ensures bytes == Contents()[0].data[from..to]
    {
      HeadOf(buffer[..], readPointer, writePointer, wrapAt, upper, lower);
      SubSlice(buffer[..], readPointer + 2, readPointer + 2 + |Contents()[0].data|, from, to);
      bytes := buffer[readPointer + 2 + from..readPointer + 2 + to];
    }

    /** Drops the oldest packet; the caller has peeked at it. */
    method DiscardNext()
      requires Valid() && Peeked()
      modifies this`readPointer, this`upper, this`numElements
      ensures Valid() && Contents() == old(Contents())[1..]
    {
      HeadOf(buffer[..], readPointer, writePointer, wrapAt, upper, lower);
      var length: nat := buffer[readPointer];
      readPointer := readPointer + (length + 1);
      numElements := numElements - 1;
      upper := upper[1..];
    }

    /** The sender writes into the packet it is sending. */
    method SetHeadByte(i: nat, b: u8)
      requires Valid() && Peeked() && i < |Contents()[0].data|
      modifies this`upper, buffer
      ensures Valid() && Peeked()
      ensures Contents() == old(Contents())[0 := WithByte(old(Contents())[0], i, b)]
      ensures Contents()[0].reliable == old(Contents())[0].reliable && Contents()[0].data == old(Contents())[0].data[i := b]
    {
      HeadByteSet(buffer[..], readPointer, writePointer, wrapAt, upper, lower, i, b);
      ReplaceHead(upper, lower, WithByte(upper[0], i, b));
      ghost var bytes := buffer[..];
      buffer[readPointer + 2 + i] := b;
      assert buffer[..] == bytes[readPointer + 2 + i := b];
      upper := [WithByte(upper[0], i, b)] + upper[1..];
    }

    method Clean()
      requires buffer.Length > 0
      modifies this, buffer
      ensures Valid() && Contents() == []
    {
      numElements, readPointer, writePointer := 0, 0, 0;
      buffer[0] := 0;
      upper, lower := [], [];
    }
  }
}
