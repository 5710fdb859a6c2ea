/** The flash task queue: a byte ring whose records start with a 4-byte length word. It reserves one
    byte for a 4-byte terminator, which is enough because everything in it is aligned. */
module SimpleQueue {
  import opened Bytes

  const WORD: nat := 4
  const WORD_RANGE: nat := 0x1_0000_0000

  const TASK_SIZE: nat := 16
  const TASK_BUFFER: nat := 160

  function Word(n: nat): seq<u8> {
    [n % 256, n / 0x100 % 256, n / 0x1_0000 % 256, n / 0x100_0000 % 256]
  }

  function WordAt(b: seq<u8>, at: nat): nat
    requires at + WORD <= |b|
  {
    b[at] as nat + 0x100 * b[at + 1] as nat + 0x1_0000 * b[at + 2] as nat + 0x100_0000 * b[at + 3] as nat
  }

  lemma Base256(n: nat)
    requires n < WORD_RANGE
    ensures n == n % 256 + 0x100 * (n / 0x100 % 256) + 0x1_0000 * (n / 0x1_0000 % 256) + 0x100_0000 * (n / 0x100_0000 % 256)
  {
    var a := n / 0x100;
    var b := a / 0x100;
    var c := b / 0x100;
    assert b == n / 0x1_0000 && c == n / 0x100_0000 && c < 0x100;
  }

  lemma WordSurvives(n: nat, b: seq<u8>, at: nat)
    requires n < WORD_RANGE && at + WORD <= |b| && b[at..at + WORD] == Word(n)
    ensures WordAt(b, at) == n
  {
    Base256(n);
    var w := b[at..at + WORD];
    assert b[at] == w[0] && b[at + 1] == w[1] && b[at + 2] == w[2] && b[at + 3] == w[3];
  }

  /** What may be queued: a non-empty payload of whole words. */
  type Task = d: seq<u8> | 0 < |d| < WORD_RANGE && |d| % WORD == 0 witness [0, 0, 0, 0]

  function Encode(d: Task): seq<u8> {
    Word(|d|) + d
  }

  function EncodeAll(ds: seq<Task>): seq<u8> {
    if ds == [] then [] else Encode(ds[0]) + EncodeAll(ds[1..])
  }

  lemma {:induction false} EncodeAllAppend(ds: seq<Task>, d: Task)
    ensures EncodeAll(ds + [d]) == EncodeAll(ds) + Encode(d)
  {
    if ds == [] {
      assert [d][1..] == [];
    } else {
      assert (ds + [d])[1..] == ds[1..] + [d];
      EncodeAllAppend(ds[1..], d);
      Regroup(Encode(ds[0]), EncodeAll(ds[1..]), Encode(d));
    }
  }

  predicate Fits(read: nat, write: nat, n: nat, length: nat) {
    if write < read then write + length + 5 < read
    else write + length + 5 < n || length + 5 <= read
  }

  /** Where the writer stands after a task of this length was accepted, and where it last wrapped. */
  function AfterPut(read: nat, write: nat, wrap: nat, n: nat, length: nat): (nat, nat) {
    if read <= write && n <= write + length + 5 then (length + 4, write) else (write + length + 4, wrap)
  }

  // ---- the task buffer of the storage: 160 bytes of 16-byte tasks ------------------------------

  /** With tasks of 16 bytes the pointers move in steps of 20 and the writer wraps at 140. */
  predicate TaskSlots(read: nat, write: nat, wrap: nat, tasks: nat) {
    && read % 20 == 0 && write % 20 == 0 && read <= 140 && write <= 140
    && 20 * tasks == (if read <= write then write - read else 140 - read + write)
    && (write < read ==> wrap == 140)
  }

  /** The ring refuses no task while fewer than six are pending; */
  lemma RoomForSixTasks(read: nat, write: nat, wrap: nat, tasks: nat)
    requires TaskSlots(read, write, wrap, tasks) && tasks < 6
    ensures Fits(read, write, TASK_BUFFER, TASK_SIZE)
  {
    var r, w := read / 20, write / 20;
    assert read == 20 * r && write == 20 * w;
  }

  /** queueing keeps the slots, */
  lemma PutKeepsSlots(read: nat, write: nat, wrap: nat, tasks: nat)
    requires TaskSlots(read, write, wrap, tasks) && Fits(read, write, TASK_BUFFER, TASK_SIZE)
    ensures
      var (write', wrap') := AfterPut(read, write, wrap, TASK_BUFFER, TASK_SIZE);
      TaskSlots(read, write', wrap', tasks + 1)
  {
    var r, w := read / 20, write / 20;
    assert read == 20 * r && write == 20 * w;
  }

  /** and so does taking one off, after the reader has wrapped if it has to. */
  lemma GetKeepsSlots(read: nat, write: nat, wrap: nat, tasks: nat, head: nat)
    requires TaskSlots(read, write, wrap, tasks) && tasks > 0
    requires head == if write < read == wrap then 0 else read
    ensures TaskSlots(head + 20, write, wrap, tasks - 1)
  {
    var r, w := read / 20, write / 20;
    assert read == 20 * r && write == 20 * w;
  }

  ghost predicate ZeroAt(b: seq<u8>, at: nat) {
    at + WORD <= |b| && b[at..at + WORD] == Word(0)
  }

  /** Everything stands at whole words. */
  predicate Aligned(n: nat, read: nat, write: nat, wrap: nat) {
    n % WORD == 0 && read % WORD == 0 && write % WORD == 0 && (write < read ==> wrap % WORD == 0)
  }

  /** How the ring bytes `b` hold the tasks: `upper` from the read position up, `lower` in front of
      it once the writer has wrapped at `wrap`; a zero word ends each stretch. */
  ghost predicate Holds(b: seq<u8>, read: nat, write: nat, wrap: nat, upper: seq<Task>, lower: seq<Task>) {
    && read < |b| && ZeroAt(b, write)
    && if read <= write then
         lower == [] && b[read..write] == EncodeAll(upper)
       else
         && lower != [] && write + WORD <= read <= wrap
         && ZeroAt(b, wrap) && b[read..wrap] == EncodeAll(upper) && b[..write] == EncodeAll(lower)
  }

  /** The ring bytes that hold tasks or the zero word that ends a stretch of them. */
  predicate Taken(read: nat, write: nat, wrap: nat, i: nat) {
    if read <= write then read <= i < write + WORD else i < write + WORD || read <= i < wrap + WORD
  }

  /** Behind the last task there is room in the ring for another one and its terminating word; the task
      starts at the zero word of the last one. */
  ghost predicate RoomBehind(read: nat, write: nat, wrap: nat, n: nat, length: nat) {
    && write + length + 2 * WORD <= n
    && forall i :: write + WORD <= i < write + length + 2 * WORD ==> !Taken(read, write, wrap, i)
  }

  /** The writer has not wrapped, and there is room for both at the start of the ring. */
  ghost predicate RoomInFront(read: nat, write: nat, wrap: nat, n: nat, length: nat) {
    && read <= write && length + 2 * WORD <= n
    && forall i :: 0 <= i < length + 2 * WORD ==> !Taken(read, write, wrap, i)
  }

  /** The test with one spare byte takes a task exactly if it and its terminating word fit into bytes that
      are not taken, because everything is aligned. */
  lemma FitsIfRoom(b: seq<u8>, read: nat, write: nat, wrap: nat, upper: seq<Task>, lower: seq<Task>, d: Task)
    requires Holds(b, read, write, wrap, upper, lower) && Aligned(|b|, read, write, wrap)
    ensures Fits(read, write, |b|, |d|) <==>
      RoomBehind(read, write, wrap, |b|, |d|) || RoomInFront(read, write, wrap, |b|, |d|)
  {
    SpareByteIsWord(|b|, write, d, |b|);
    SpareByteIsWord(|b|, write, d, read);
    assert Taken(read, write, wrap, read);
    if read <= write {
      assert forall i :: i >= write + WORD ==> !Taken(read, write, wrap, i);
      assert forall i :: 0 <= i < read ==> !Taken(read, write, wrap, i);
    }
  }

  /** One spare byte is room for the terminator, because everything is aligned. */
  lemma SpareByteIsWord(n: nat, write: nat, d: Task, limit: nat)
    requires n % WORD == 0 && write % WORD == 0 && limit % WORD == 0
    ensures write + |d| + 5 < limit ==> write + |d| + 8 <= limit
    ensures |d| + 5 <= limit ==> |d| + 8 <= limit
    ensures (write + |d| + 4) % WORD == 0 && (|d| + 4) % WORD == 0
  {
  }

  /** The bytes after a record and its terminator were written at `w`. */
  function Written(b: seq<u8>, w: nat, d: Task): seq<u8>
    requires w + |d| + 8 <= |b|
  {
    b[..w] + Encode(d) + Word(0) + b[w + |d| + 8..]
  }

  lemma WrittenRecord(b: seq<u8>, w: nat, d: Task, from: nat)
    requires from <= w && w + |d| + 8 <= |b|
    ensures Written(b, w, d)[from..w + |d| + 4] == b[from..w] + Encode(d)
    ensures ZeroAt(Written(b, w, d), w + |d| + 4)
  {
  }

  lemma WrittenBehind(b: seq<u8>, w: nat, d: Task, lo: nat, hi: nat)
    requires w + |d| + 8 <= lo <= hi <= |b|
    ensures Written(b, w, d)[lo..hi] == b[lo..hi]
  {
  }

  lemma PutAfterUpper(b: seq<u8>, read: nat, write: nat, wrap: nat, upper: seq<Task>, d: Task)
    requires Holds(b, read, write, wrap, upper, []) && read <= write && write + |d| + 8 <= |b|
    ensures Holds(Written(b, write, d), read, write + |d| + 4, wrap, upper + [d], [])
  {
    WrittenRecord(b, write, d, read);
    EncodeAllAppend(upper, d);
  }

  lemma PutAfterLower(b: seq<u8>, read: nat, write: nat, wrap: nat, upper: seq<Task>, lower: seq<Task>, d: Task)
    requires Holds(b, read, write, wrap, upper, lower) && write < read && write + |d| + 8 <= read
    ensures Holds(Written(b, write, d), read, write + |d| + 4, wrap, upper, lower + [d])
  {
    WrittenRecord(b, write, d, 0);
    WrittenBehind(b, write, d, read, wrap);
    WrittenBehind(b, write, d, wrap, wrap + WORD);
    EncodeAllAppend(lower, d);
  }

  lemma PutAtStart(b: seq<u8>, read: nat, write: nat, wrap: nat, upper: seq<Task>, d: Task)
    requires Holds(b, read, write, wrap, upper, []) && |d| + 8 <= read <= write
    ensures Holds(Written(b, 0, d), read, |d| + 4, write, upper, [d])
  {
    WrittenRecord(b, 0, d, 0);
    WrittenBehind(b, 0, d, read, write);
    WrittenBehind(b, 0, d, write, write + WORD);
    EncodeAllAppend([], d);
  }

  /** At the read position stands the zero word where the writer wrapped, */
  lemma WrapsAtZero(b: seq<u8>, read: nat, write: nat, wrap: nat, lower: seq<Task>)
    requires Holds(b, read, write, wrap, [], lower) && lower != []
    ensures write < read && read + WORD <= |b| && WordAt(b, read) == 0 && Holds(b, 0, write, wrap, lower, [])
  {
    WordSurvives(0, b, read);
  }

  lemma StretchParts(b: seq<u8>, lo: nat, hi: nat, d: Task, rest: seq<u8>)
    requires lo <= hi <= |b| && b[lo..hi] == Encode(d) + rest
    ensures lo + |d| + 4 <= hi && WordAt(b, lo) == |d|
    ensures b[lo + 4..lo + 4 + |d|] == d && b[lo + |d| + 4..hi] == rest
  {
    ThreeParts(Word(|d|), d, rest);
    SubSlice(b, lo, hi, 0, 4);
    SubSlice(b, lo, hi, 4, 4 + |d|);
    SubSlice(b, lo, hi, 4 + |d|, hi - lo);
    WordSurvives(|d|, b, lo);
  }

  /** or the length word of the oldest task. */
  lemma HeadOf(b: seq<u8>, read: nat, write: nat, wrap: nat, upper: seq<Task>, lower: seq<Task>)
    requires Holds(b, read, write, wrap, upper, lower) && upper != []
    ensures
      var d := upper[0];
      && read + |d| + 4 < |b| && WordAt(b, read) == |d| && b[read + 4..read + 4 + |d|] == d
      && Holds(b, read + |d| + 4, write, wrap, upper[1..], lower)
  {
    StretchParts(b, read, if read <= write then write else wrap, upper[0], EncodeAll(upper[1..]));
  }

  lemma FirstDropped(upper: seq<Task>, lower: seq<Task>)
    requires upper != []
    ensures (upper + lower)[1..] == upper[1..] + lower
  {
  }

  /** Where the reader finds the oldest task: a zero word sends it to the start of the ring. */
  lemma OldestOf(b: seq<u8>, read: nat, write: nat, wrap: nat, upper: seq<Task>, lower: seq<Task>)
    requires Holds(b, read, write, wrap, upper, lower) && upper + lower != []
    ensures read + WORD <= |b|
    ensures
      var at := if WordAt(b, read) == 0 && write < read then 0 else read;
      at + WORD + WordAt(b, at) <= |b| && b[at + 4..at + 4 + WordAt(b, at)] == (upper + lower)[0]
  {
    if upper == [] {
      WrapsAtZero(b, read, write, wrap, lower);
      HeadOf(b, 0, write, wrap, lower, []);
      assert (upper + lower)[0] == lower[0];
    } else {
      HeadOf(b, read, write, wrap, upper, lower);
      assert (upper + lower)[0] == upper[0];
    }
  }

  class SimpleQueue {
    const buffer: array<u8>
    var readPointer: nat
    var writePointer: nat
    var numElements: nat
    ghost var upper: seq<Task>
    ghost var lower: seq<Task>
    ghost var wrapAt: nat

    ghost function Contents(): seq<Task>
      reads this
    {
      upper + lower
    }

    ghost predicate Valid()
      reads this, buffer
    {
      && numElements == |Contents()|
      && Aligned(buffer.Length, readPointer, writePointer, wrapAt)
      && Holds(buffer[..], readPointer, writePointer, wrapAt, upper, lower)
    }

    constructor (buffer: array<u8>)
      requires buffer.Length > 0 && buffer.Length % WORD == 0
      modifies buffer
      ensures Valid() && Contents() == [] && this.buffer == buffer
      ensures readPointer == 0 && writePointer == 0
    {
      this.buffer := buffer;
      numElements, readPointer, writePointer := 0, 0, 0;
      upper, lower := [], [];
      new;
      buffer[0], buffer[1], buffer[2], buffer[3] := 0, 0, 0, 0;
      assert buffer[..][0..4] == Word(0);
    }

    method WriteRecord(data: Task)
      requires writePointer + |data| + 8 <= buffer.Length
      modifies this`writePointer, buffer
      ensures writePointer == old(writePointer) + |data| + 4
      ensures buffer[..] == Written(old(buffer[..]), old(writePointer), data)
    {
      var w := writePointer;
      var length := Word(|data|);
      buffer[w], buffer[w + 1], buffer[w + 2], buffer[w + 3] := length[0], length[1], length[2], length[3];
      forall k | 0 <= k < |data| {
        buffer[w + 4 + k] := data[k];
      }
      writePointer := w + |data| + 4;
      w := writePointer;
      buffer[w], buffer[w + 1], buffer[w + 2], buffer[w + 3] := 0, 0, 0, 0;
    }

    method AppendBehind(data: Task)
      requires Valid() && readPointer <= writePointer && writePointer + |data| + 8 <= buffer.Length
      modifies this, buffer
      ensures Valid() && Contents() == old(Contents()) + [data]
      ensures readPointer == old(readPointer) && writePointer == old(writePointer) + |data| + 4 && wrapAt == old(wrapAt)
    {
      PutAfterUpper(buffer[..], readPointer, writePointer, wrapAt, upper, data);
      SpareByteIsWord(buffer.Length, writePointer, data, 0);
      WriteRecord(data);
      upper := upper + [data];
      numElements := numElements + 1;
    }

    method AppendInFront(data: Task)
      requires Valid() && writePointer < readPointer && writePointer + |data| + 8 <= readPointer
      modifies this, buffer
      ensures Valid() && Contents() == old(Contents()) + [data]
      ensures readPointer == old(readPointer) && writePointer == old(writePointer) + |data| + 4 && wrapAt == old(wrapAt)
    {
      PutAfterLower(buffer[..], readPointer, writePointer, wrapAt, upper, lower, data);
      SpareByteIsWord(buffer.Length, writePointer, data, 0);
      WriteRecord(data);
      lower := lower + [data];
      numElements := numElements + 1;
    }

    method AppendAtStart(data: Task)
      requires Valid() && |data| + 8 <= readPointer <= writePointer
      modifies this, buffer
      ensures Valid() && Contents() == old(Contents()) + [data]
      ensures readPointer == old(readPointer) && writePointer == |data| + 4 && wrapAt == old(writePointer)
    {
      PutAtStart(buffer[..], readPointer, writePointer, wrapAt, upper, data);
      SpareByteIsWord(buffer.Length, 0, data, 0);
      wrapAt, lower := writePointer, [data];
      writePointer := 0;
      WriteRecord(data);
      numElements := numElements + 1;
    }

    /** Appends the task or leaves the queue as it was. */
    method Put(data: Task) returns (ok: bool)
      requires Valid()
      modifies this, buffer
      ensures Valid()
      ensures ok == Fits(old(readPointer), old(writePointer), buffer.Length, |data|)
      ensures ok <==>
        || RoomBehind(old(readPointer), old(writePointer), old(wrapAt), buffer.Length, |data|)
        || RoomInFront(old(readPointer), old(writePointer), old(wrapAt), buffer.Length, |data|)
      ensures Contents() == old(Contents()) + if ok then [data] else []
      ensures !ok ==> unchanged(this) && unchanged(buffer)
      ensures ok ==> readPointer == old(readPointer)
      ensures ok ==>
        (writePointer, wrapAt) == AfterPut(old(readPointer), old(writePointer), old(wrapAt), buffer.Length, |data|)
    {
      FitsIfRoom(buffer[..], readPointer, writePointer, wrapAt, upper, lower, data);
      var elementSize := |data| + 4 + 1;
      SpareByteIsWord(buffer.Length, writePointer, data, buffer.Length);
      SpareByteIsWord(buffer.Length, writePointer, data, readPointer);
      if writePointer >= readPointer && buffer.Length - writePointer <= elementSize && readPointer >= elementSize {
        AppendAtStart(data);
        return true;
      } else if readPointer <= writePointer && writePointer + elementSize >= buffer.Length {
        return false;
      } else if readPointer > writePointer && writePointer + elementSize >= readPointer {
        return false;
      }
      if readPointer <= writePointer {
        AppendBehind(data);
      } else {
        AppendInFront(data);
      }
      return true;
    }

    /** The length word at a position of the ring. */
    method LengthAt(at: nat) returns (length: nat)
      requires at + WORD <= buffer.Length
      ensures length == WordAt(buffer[..], at)
      ensures length == buffer[at] as nat + 0x100 * buffer[at + 1] as nat + 0x1_0000 * buffer[at + 2] as nat
                        + 0x100_0000 * buffer[at + 3] as nat
    {
      length := buffer[at] as nat + 0x100 * buffer[at + 1] as nat + 0x1_0000 * buffer[at + 2] as nat
                + 0x100_0000 * buffer[at + 3] as nat;
    }

    /** The oldest task, left in place; empty if there is none. */
    method PeekNext() returns (data: seq<u8>)
      requires Valid()
      ensures data == if Contents() == [] then [] else Contents()[0]
    {
      if numElements == 0 {
        return [];
      }
      OldestOf(buffer[..], readPointer, writePointer, wrapAt, upper, lower);
      var at := readPointer;
      var length := LengthAt(at);
      if length == 0 && writePointer < readPointer {
        at := 0;
        length := LengthAt(at);
      }
      data := buffer[..][at + 4..at + 4 + length];
    }

    /** Takes the oldest task off; empty if there is none. */
    method GetNext() returns (data: seq<u8>)
      requires Valid()
      modifies this
      ensures Valid()
      ensures data == if old(Contents()) == [] then [] else old(Contents())[0]
      ensures Contents() == if old(Contents()) == [] then [] else old(Contents())[1..]
      ensures old(Contents()) != [] ==>
        readPointer == (if old(writePointer) < old(readPointer) == old(wrapAt) then 0 else old(readPointer)) + |data| + 4
      ensures writePointer == old(writePointer) && wrapAt == old(wrapAt)
    {
      if numElements == 0 {
        return [];
      }
      Rewind();
      data := ReadHead();
      Skip(|data|);
    }

    method Skip(length: nat)
      requires Valid() && upper != [] && length == |upper[0]|
      modifies this`readPointer, this`numElements, this`upper
      ensures Valid() && Contents() == old(Contents())[1..] && readPointer == old(readPointer) + length + 4
    {
      HeadOf(buffer[..], readPointer, writePointer, wrapAt, upper, lower);
      SpareByteIsWord(buffer.Length, readPointer, upper[0], 0);
      FirstDropped(upper, lower);
      readPointer := readPointer + length + 4;
      numElements := numElements - 1;
      upper := upper[1..];
    }

    method ReadHead() returns (data: seq<u8>)
      requires Valid() && upper != []
      ensures data == upper[0] == Contents()[0]
    {
      HeadOf(buffer[..], readPointer, writePointer, wrapAt, upper, lower);
      var length := LengthAt(readPointer);
      data := buffer[readPointer + 4..readPointer + 4 + length];
    }

    /** The reader reached the zero word where the writer wrapped. */
    method Rewind()
      requires Valid() && numElements > 0
      modifies this
      ensures Valid() && Contents() == old(Contents()) && upper != [] && numElements == old(numElements)
      ensures readPointer == (if old(writePointer) < old(readPointer) == old(wrapAt) then 0 else old(readPointer))
      ensures writePointer == old(writePointer) && wrapAt == old(wrapAt)
    {
      ghost var b := buffer[..];
      if upper == [] {
        WrapsAtZero(b, readPointer, writePointer, wrapAt, lower);
      } else {
        HeadOf(b, readPointer, writePointer, wrapAt, upper, lower);
      }
      var length := LengthAt(readPointer);
      if length == 0 && writePointer < readPointer {
        readPointer := 0;
        upper, lower := lower, [];
      }
    }

    method Clean()
      requires buffer.Length > 0 && buffer.Length % WORD == 0
      modifies this, buffer
      ensures Valid() && Contents() == []
    {
      numElements, readPointer, writePointer := 0, 0, 0;
      upper, lower := [], [];
      buffer[0], buffer[1], buffer[2], buffer[3] := 0, 0, 0, 0;
      assert buffer[..][0..4] == Word(0);
    }
  }
}
