/** The bookkeeping of outgoing connection slots: the free counter, the slot that is being connected,
    and the slots in use. */
module ConnectionSlots {
  datatype Option<T> = None | Some(value: T)

  function CountTrue(s: seq<bool>): nat {
    if s == [] then 0 else (if s[0] then 1 else 0) + CountTrue(s[1..])
  }

  lemma {:induction false} CountUpdate(s: seq<bool>, i: nat, b: bool)
    requires i < |s|
    ensures CountTrue(s[i := b]) == CountTrue(s) - (if s[i] then 1 else 0) + (if b then 1 else 0)
  {
    if i == 0 {
      assert s[0 := b][1..] == s[1..];
    } else {
      assert s[i := b][1..] == s[1..][i - 1 := b];
      CountUpdate(s[1..], i - 1, b);
    }
  }

  lemma {:induction false} AllTrueCount(s: seq<bool>)
    ensures CountTrue(s) <= |s|
    ensures CountTrue(s) == |s| <==> forall i :: 0 <= i < |s| ==> s[i]
  {
    if s == [] {
    } else {
      AllTrueCount(s[1..]);
      assert (forall i :: 0 <= i < |s| ==> s[i]) <==> s[0] && forall i :: 0 <= i < |s[1..]| ==> s[1..][i] by {
        assert forall i :: 0 <= i < |s[1..]| ==> s[1..][i] == s[i + 1];
        assert forall i :: 0 < i < |s| ==> s[i] == s[1..][i - 1];
      }
    }
  }

  class ConnectionSlots {
    var outConnected: seq<bool>
    var inConnected: bool
    var pending: Option<nat>
    var freeOut: int
    var freeIn: int
    // Outgoing attempts that the radio has neither finished nor given up.
    ghost var attempts: nat

    ghost function Waiting(): nat
      reads this
    {
      if pending.Some? then 1 else 0
    }

    /** Outgoing slots that are neither free nor being connected nor in use. */
    ghost function Missing(): int
      reads this
    {
      |outConnected| - freeOut - Waiting() - CountTrue(outConnected)
    }

    /** No slot is counted twice, and for every attempt of the radio there is one that waits for it or
        is missing. */
    ghost predicate Valid()
      reads this
    {
      && Missing() >= 0
      && attempts <= Missing() + Waiting()
      && freeIn + (if inConnected then 1 else 0) == 1
      && (pending.Some? ==> pending.value < |outConnected| && !outConnected[pending.value])
    }

    constructor (maxOut: nat)
      ensures Valid() && Missing() == 0 && outConnected == seq(maxOut, i => false) && freeOut == maxOut
      ensures pending.None? && !inConnected && attempts == 0
    {
      outConnected := seq(maxOut, i => false);
      inConnected, pending, freeOut, freeIn, attempts := false, None, maxOut, 1, 0;
      new;
      NoneUsed(outConnected);
    }

    static lemma {:induction false} NoneUsed(s: seq<bool>)
      requires forall i :: 0 <= i < |s| ==> !s[i]
      ensures CountTrue(s) == 0
    {
      if s == [] {
      } else {
        NoneUsed(s[1..]);
      }
    }

    method GetFreeOutConnection() returns (slot: Option<nat>)
      ensures slot.None? <==> CountTrue(outConnected) == |outConnected|
      ensures slot.Some? ==> slot.value < |outConnected| && !outConnected[slot.value]
      ensures slot.Some? ==> forall j :: 0 <= j < slot.value ==> outConnected[j]
    {
      AllTrueCount(outConnected);
      for i := 0 to |outConnected|
        invariant forall j :: 0 <= j < i ==> outConnected[j]
      {
        if !outConnected[i] {
          return Some(i);
        }
      }
      return None;
    }

    /** Starts an outgoing connection; `started` says whether the radio takes the request. A free
        counter above zero always finds a slot, whatever happened before. */
    method ConnectAsMaster(started: bool) returns (slot: Option<nat>)
      requires Valid()
      modifies this
      ensures Valid() && Missing() == old(Missing()) && outConnected == old(outConnected) && inConnected == old(inConnected)
      ensures slot.Some? <==> old(freeOut) > 0 && old(pending).None?
      ensures if slot.Some? then pending == slot && freeOut == old(freeOut) - 1 else unchanged(this)
      ensures attempts == old(attempts) + if slot.Some? && started then 1 else 0
    {
      if freeOut <= 0 || pending.Some? {
        return None;
      }
      freeOut := freeOut - 1;
      slot := GetFreeOutConnection();
      pending := slot;
      attempts := attempts + if started then 1 else 0;
    }

    /** The radio reports an outgoing connection. The handler needs the pending slot: without one it
        would follow a null pointer, which is the result `false`. */
    method CentralConnected() returns (ok: bool)
      requires Valid() && attempts > 0
      modifies this
      ensures ok <==> old(pending).Some?
      ensures !ok ==> unchanged(this)
      ensures ok ==>
        && Valid() && Missing() == old(Missing()) && pending.None? && freeOut == old(freeOut)
        && attempts == old(attempts) - 1
        && outConnected == old(outConnected)[old(pending).value := true]
    {
      if pending.None? {
        return false;
      }
      CountUpdate(outConnected, pending.value, true);
      outConnected := outConnected[pending.value := true];
      pending := None;
      attempts := attempts - 1;
      return true;
    }

    /** A central connected to us. The handler also forgets a pending outgoing connection, whose slot
        is then missing from the books. */
    method PeripheralConnected()
      requires Valid() && !inConnected
      modifies this
      ensures Valid() && inConnected && pending.None? && outConnected == old(outConnected) && freeOut == old(freeOut)
      ensures Missing() == old(Missing()) + if old(pending).Some? then 1 else 0
      ensures attempts == old(attempts)
    {
      freeIn := freeIn - 1;
      inConnected := true;
      pending := None;
    }

    /** The radio gives an attempt up. The counter goes up whether or not a slot was still pending, so
        the time-out of a forgotten attempt brings its slot back. */
    method ConnectionTimeout()
      requires Valid() && attempts > 0
      modifies this
      ensures Valid() && pending.None? && freeOut == old(freeOut) + 1 && outConnected == old(outConnected)
      ensures Missing() == old(Missing()) - if old(pending).None? then 1 else 0
      ensures attempts == old(attempts) - 1
    {
      pending := None;
      freeOut := freeOut + 1;
      attempts := attempts - 1;
    }

    method OutDisconnected(i: nat)
      requires Valid() && i < |outConnected| && outConnected[i]
      modifies this
      ensures Valid() && Missing() == old(Missing()) && freeOut == old(freeOut) + 1 && pending == old(pending)
      ensures outConnected == old(outConnected)[i := false] && attempts == old(attempts)
    {
      CountUpdate(outConnected, i, false);
      freeOut := freeOut + 1;
      outConnected := outConnected[i := false];
    }

    method InDisconnected()
      requires Valid() && inConnected
      modifies this
      ensures Valid() && Missing() == old(Missing()) && !inConnected && freeOut == old(freeOut)
      ensures pending == old(pending) && outConnected == old(outConnected) && attempts == old(attempts)
    {
      freeIn := freeIn + 1;
      inConnected := false;
    }

    /** A counter above zero always means a free slot; while none is missing, the converse holds. */
    lemma CounterShowsFreeSlots()
      requires Valid()
      ensures freeOut > 0 ==> exists i :: 0 <= i < |outConnected| && !outConnected[i]
      ensures Missing() == 0 && pending.None? && freeOut <= 0 ==> forall i :: 0 <= i < |outConnected| ==> outConnected[i]
    {
      AllTrueCount(outConnected);
    }
  }

  /** An incoming connection during an attempt leaves a slot out of the books, */
  method InterruptedAttempt(maxOut: nat) returns (c: ConnectionSlots)
    requires maxOut > 0
    ensures fresh(c) && c.Valid() && c.pending.None? && c.attempts == 1
    ensures c.Missing() == 1 && c.freeOut == maxOut - 1 && c.outConnected == seq(maxOut, i => false)
  {
    c := new ConnectionSlots(maxOut);
    var slot := c.ConnectAsMaster(true);
    c.PeripheralConnected();
  }

  /** which comes back when the attempt times out; */
  method InterruptedAttemptTimesOut(maxOut: nat) returns (c: ConnectionSlots)
    requires maxOut > 0
    ensures c.Valid() && c.Missing() == 0 && c.freeOut == maxOut && c.pending.None?
  {
    c := InterruptedAttempt(maxOut);
    c.ConnectionTimeout();
  }

  /** but if it succeeds the handler finds no pending connection. */
  method InterruptedAttemptSucceeds(maxOut: nat) returns (c: ConnectionSlots, ok: bool)
    requires maxOut > 0
    ensures !ok && c.Missing() == 1
  {
    c := InterruptedAttempt(maxOut);
    ok := c.CentralConnected();
  }
}
