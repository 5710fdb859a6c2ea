/** The votes a node still has to get acknowledged: two parallel arrays that act as one bounded map
    from user id to time, in order of insertion. Slot value 0 means free. */
module RetryStorage {
  const CAPACITY: nat := 96

  datatype Entry = Entry(id: nat, time: nat)

  predicate HasId(es: seq<Entry>, id: nat) {
    exists i :: 0 <= i < |es| && es[i].id == id
  }

  ghost predicate Distinct(es: seq<Entry>) {
    && (forall i :: 0 <= i < |es| ==> es[i].id != 0)
    && (forall i, j :: 0 <= i < j < |es| ==> es[i].id != es[j].id)
  }

  function Refresh(es: seq<Entry>, id: nat, now: nat): seq<Entry> {
    seq(|es|, i requires 0 <= i < |es| => if es[i].id == id then Entry(id, now) else es[i])
  }

  /** Is this id one that the storage takes? */
  predicate Takes(es: seq<Entry>, id: nat) {
    HasId(es, id) || |es| < CAPACITY
  }

  function With(es: seq<Entry>, id: nat, now: nat): seq<Entry> {
    if id == 0 then es
    else if HasId(es, id) then Refresh(es, id, now)
    else if |es| < CAPACITY then es + [Entry(id, now)]
    else es
  }

  function Without(es: seq<Entry>, id: nat): seq<Entry> {
    if es == [] then []
    else (if es[0].id == id then [] else [es[0]]) + Without(es[1..], id)
  }

  lemma {:induction false} WithoutMissing(es: seq<Entry>, id: nat)
    requires !HasId(es, id)
    ensures Without(es, id) == es
  {
    if es == [] {
    } else {
      assert forall i :: 0 <= i < |es[1..]| ==> es[1..][i] == es[i + 1];
      WithoutMissing(es[1..], id);
    }
  }

  lemma {:induction false} WithoutAt(es: seq<Entry>, p: nat)
    requires Distinct(es) && p < |es|
    ensures Without(es, es[p].id) == es[..p] + es[p + 1..]
  {
    assert forall i :: 0 <= i < |es[1..]| ==> es[1..][i] == es[i + 1];
    if p == 0 {
      WithoutMissing(es[1..], es[0].id);
    } else {
      WithoutAt(es[1..], p - 1);
      assert es[..p] + es[p + 1..] == [es[0]] + (es[1..][..p - 1] + es[1..][p..]);
    }
  }

  /** The laws of a map: what is put or removed is there or gone, and nothing else changes. */
  lemma {:induction false} WithoutHas(es: seq<Entry>, id: nat, other: nat)
    ensures HasId(Without(es, id), other) <==> HasId(es, other) && other != id
    ensures |Without(es, id)| <= |es|
  {
    if es == [] {
    } else {
      var rest := Without(es[1..], id);
      var head := if es[0].id == id then [] else [es[0]];
      WithoutHas(es[1..], id, other);
      assert Without(es, id) == head + rest;
      if i :| 0 <= i < |es| && es[i].id == other && other != id {
        if i > 0 {
          assert es[1..][i - 1].id == other;
          var j :| 0 <= j < |rest| && rest[j].id == other;
          assert (head + rest)[|head| + j].id == other;
        } else {
          assert (head + rest)[0].id == other;
        }
      }
      if i :| 0 <= i < |head + rest| && (head + rest)[i].id == other {
        if i >= |head| {
          assert rest[i - |head|].id == other;
          var j :| 0 <= j < |es[1..]| && es[1..][j].id == other;
          assert es[j + 1].id == other;
        }
      }
    }
  }

  lemma WithHas(es: seq<Entry>, id: nat, now: nat, other: nat)
    requires Distinct(es) && |es| <= CAPACITY
    ensures Distinct(With(es, id, now)) && |With(es, id, now)| <= CAPACITY
    ensures HasId(With(es, id, now), other) <==> HasId(es, other) || (other == id != 0 && Takes(es, id))
    ensures id != 0 && Takes(es, id) ==> Entry(id, now) in With(es, id, now)
    ensures Takes(es, id) <==> HasId(es, id) || |es| < CAPACITY
  {
    var r := With(es, id, now);
    if id != 0 {
      if HasId(es, id) {
        assert forall i :: 0 <= i < |es| ==> r[i].id == es[i].id;
        var i :| 0 <= i < |es| && es[i].id == id;
        assert r[i] == Entry(id, now);
      } else if |es| < CAPACITY {
        assert forall i :: 0 <= i < |es| ==> r[i] == es[i];
        assert r[|es|] == Entry(id, now);
      }
    }
  }

  /** Putting an id that the storage takes stamps its entry, or appends one; every other entry stays as
      and where it is, with its time. */
  lemma WithEntries(es: seq<Entry>, id: nat, now: nat)
    requires Distinct(es) && |es| <= CAPACITY
    ensures
      var r := With(es, id, now);
      && |r| == |es| + (if id != 0 && !HasId(es, id) && |es| < CAPACITY then 1 else 0)
      && (forall i :: 0 <= i < |es| ==> r[i] == if es[i].id == id then Entry(id, now) else es[i])
      && (|r| > |es| ==> r[|es|] == Entry(id, now))
    ensures forall e: Entry :: e.id != id ==> (e in With(es, id, now) <==> e in es)
  {
    var r := With(es, id, now);
    assert HasId(es, id) ==> r == Refresh(es, id, now);
    forall i | 0 <= i < |es| ensures r[i] == if es[i].id == id then Entry(id, now) else es[i] {
    }
    forall e: Entry | e.id != id && e in es ensures e in r {
      var i :| 0 <= i < |es| && es[i] == e;
      assert r[i] == e;
    }
  }

  /** `r` has the entries of `es`, with their times, but for those of `id`. */
  ghost predicate OthersStay(es: seq<Entry>, r: seq<Entry>, id: nat) {
    forall e: Entry :: e in r <==> e in es && e.id != id
  }

  /** Removing an id takes off its entry; every other entry stays with its time. */
  lemma {:induction false} WithoutEntries(es: seq<Entry>, id: nat)
    ensures OthersStay(es, Without(es, id), id)
  {
    if es == [] {
    } else {
      WithoutEntries(es[1..], id);
      var rest := Without(es[1..], id);
      var head := if es[0].id == id then [] else [es[0]];
      assert es == [es[0]] + es[1..];
      assert forall e: Entry :: e in head + rest <==> e in head || e in rest;
    }
  }

  lemma {:induction false} WithoutDistinct(es: seq<Entry>, id: nat)
    requires Distinct(es)
    ensures Distinct(Without(es, id))
  {
    if p :| 0 <= p < |es| && es[p].id == id {
      WithoutAt(es, p);
    } else {
      WithoutMissing(es, id);
    }
  }

  lemma RemovedAt(es: seq<Entry>, id: nat, p: nat)
    requires Distinct(es) && p <= |es| && (if p < |es| then es[p].id == id else !HasId(es, id))
    ensures Without(es, id) == if p < |es| then es[..p] + es[p + 1..] else es
    ensures Distinct(Without(es, id)) && OthersStay(es, Without(es, id), id)
  {
    WithoutDistinct(es, id);
    WithoutEntries(es, id);
    if p < |es| {
      WithoutAt(es, p);
    } else {
      WithoutMissing(es, id);
    }
  }

  class RetryStorage {
    const retry: array<nat>
    const time: array<nat>
    ghost var size: nat

    ghost predicate Valid()
      reads this, retry, time
    {
      && retry.Length == CAPACITY && time.Length == CAPACITY && retry != time
      && size <= CAPACITY
      && FreeFrom(size)
      && Distinct(Entries())
    }

    ghost predicate FreeFrom(n: nat)
      reads this, retry
    {
      retry.Length == CAPACITY && forall i :: n <= i < CAPACITY ==> retry[i] == 0
    }

    ghost function Entries(): (es: seq<Entry>)
      requires retry.Length == CAPACITY && time.Length == CAPACITY && size <= CAPACITY
      reads this, retry, time
      ensures |es| == size
    {
      seq(size, i requires 0 <= i < retry.Length && i < time.Length reads retry, time => Entry(retry[i], time[i]))
    }

    constructor ()
      ensures Valid() && fresh(retry) && fresh(time) && Entries() == []
    {
      retry := new nat[CAPACITY](_ => 0);
      time := new nat[CAPACITY](_ => 0);
      size := 0;
    }

    /** Full is told from the last slot alone. */
    method IsFull() returns (full: bool)
      requires Valid()
      ensures full <==> |Entries()| == 96
    {
      full := retry[CAPACITY - 1] != 0;
      assert size == CAPACITY ==> Entries()[CAPACITY - 1].id == retry[CAPACITY - 1];
    }

    /** Looks the id up and, as a side effect, notes the time in the slot where it was found. */
    method Contains(id: nat, now: nat) returns (found: bool)
      requires Valid()
      modifies time
      ensures Valid()
      ensures found <==> if id == 0 then |old(Entries())| < CAPACITY else HasId(old(Entries()), id)
      ensures Entries() == if id == 0 then old(Entries()) else Refresh(old(Entries()), id, now)
      ensures forall i :: 0 <= i < |Entries()| ==>
        Entries()[i] == if old(Entries())[i].id == id then Entry(id, now) else old(Entries())[i]
    {
      for i := 0 to CAPACITY
        invariant unchanged(time) && forall j :: 0 <= j < i ==> retry[j] != id
      {
        if retry[i] == id {
          time[i] := now;
          assert i < size ==> old(Entries())[i].id == id;
          assert forall j :: 0 <= j < size ==> old(Entries())[j].id == retry[j] && (j != i ==> retry[j] != retry[i]);
          assert Entries() == if id == 0 then old(Entries()) else Refresh(old(Entries()), id, now);
          return true;
        }
      }
      assert forall j :: 0 <= j < size ==> Entries()[j].id == retry[j];
      assert Entries() == Refresh(Entries(), id, now);
      assert size < CAPACITY ==> retry[size] == 0;
      return false;
    }

    method Put(id: nat, now: nat) returns (ok: bool)
      requires Valid()
      modifies this, retry, time
      ensures Valid()
      ensures ok <==> if id == 0 then |old(Entries())| < CAPACITY else Takes(old(Entries()), id)
      ensures Entries() == With(old(Entries()), id, now)
      ensures ok <==> HasId(old(Entries()), id) || |old(Entries())| < 96
      ensures forall i :: 0 <= i < |old(Entries())| ==>
        i < |Entries()| && Entries()[i] == if old(Entries())[i].id == id then Entry(id, now) else old(Entries())[i]
      ensures |Entries()| == |old(Entries())| + if ok && id != 0 && !HasId(old(Entries()), id) then 1 else 0
      ensures ok && id != 0 ==> Entry(id, now) in Entries()
    {
      WithEntries(old(Entries()), id, now);
      WithHas(old(Entries()), id, now, id);
      ok := Contains(id, now);
      if ok {
        return;
      }
      assert Entries() == old(Entries()) by {
        assert forall i :: 0 <= i < size && id != 0 ==> old(Entries())[i].id != id;
      }
      var full := IsFull();
      if full {
        return false;
      }
      assert forall j :: 0 <= j < size ==> retry[j] == Entries()[j].id;
      for i := 0 to CAPACITY
        invariant i <= size && Valid() && Entries() == old(Entries()) && size == old(size)
        invariant forall j :: 0 <= j < size ==> retry[j] != 0
      {
        if retry[i] == 0 {
          retry[i] := id;
          time[i] := now;
          size := size + 1;
          assert Entries() == old(Entries()) + [Entry(id, now)];
          WithHas(old(Entries()), id, now, id);
          return true;
        }
        assert i < size;
      }
    }

    /** The time stored for an id, or 0; for id 0 what the first free slot holds. */
    method GetTimeFor(id: nat) returns (t: nat)
      requires Valid()
      ensures id != 0 ==> if HasId(Entries(), id) then Entry(id, t) in Entries() else t == 0
      ensures id == 0 ==> t == if |Entries()| < CAPACITY then time[|Entries()|] else 0
    {
      for i := 0 to CAPACITY
        invariant forall j :: 0 <= j < i ==> retry[j] != id
        invariant id == 0 ==> i <= size
      {
        if retry[i] == id {
          assert i < size ==> Entries()[i] == Entry(id, time[i]);
          return time[i];
        }
      }
      assert forall j :: 0 <= j < size ==> Entries()[j].id == retry[j];
      assert size < CAPACITY ==> retry[size] == 0;
      return 0;
    }

    /** Drops the time of slot `at`; the later ones move up. */
    method RemoveTime(at: nat)
      requires time.Length == CAPACITY && at < CAPACITY
      modifies time
      ensures forall n :: 0 <= n < at ==> time[n] == old(time[n])
      ensures forall n :: at <= n < CAPACITY - 1 ==> time[n] == old(time[n + 1])
    {
      time[at] := 0;
      for n := at to CAPACITY - 1
        invariant forall j :: 0 <= j < at ==> time[j] == old(time[j])
        invariant forall j :: at <= j < n ==> time[j] == old(time[j + 1])
        invariant forall j :: n < j < CAPACITY ==> time[j] == old(time[j])
      {
        time[n] := time[n + 1];
      }
    }

    /** Copies the other ids to the front of a fresh array and moves the times up accordingly;
        `p` is the slot of the id, or the first free slot if it is not stored. */
    method Compacted(id: nat, ghost p: nat) returns (temp: array<nat>)
      requires retry.Length == CAPACITY && time.Length == CAPACITY && retry != time && p <= size <= CAPACITY
      requires forall n :: size <= n < CAPACITY ==> retry[n] == 0
      requires forall n :: 0 <= n < size ==> (retry[n] == id <==> n == p)
      requires forall n :: 0 <= n < size ==> retry[n] != 0
      modifies time
      ensures fresh(temp) && temp.Length == CAPACITY
      ensures forall n :: 0 <= n < p ==> temp[n] == retry[n] && time[n] == old(time[n])
      ensures p < size ==> forall n :: p <= n < CAPACITY - 1 ==> temp[n] == retry[n + 1] && time[n] == old(time[n + 1])
      ensures forall n :: size <= n < CAPACITY ==> temp[n] == 0
      ensures p < size ==> temp[size - 1] == 0
    {
      temp := new nat[CAPACITY](_ => 0);
      var j := 0;
      for i := 0 to CAPACITY
        invariant i <= p || (p == size && id != 0) ==> j == i
        invariant i > p && p < size ==> j == i - 1
        invariant i > p && p == size && id == 0 ==> j == size
        invariant forall n :: 0 <= n < j && (n < p || p == size) ==> temp[n] == retry[n]
        invariant forall n :: p <= n < j && p < size ==> temp[n] == retry[n + 1]
        invariant forall n :: j <= n < CAPACITY ==> temp[n] == 0
        invariant forall n :: 0 <= n < p ==> time[n] == old(time[n])
        invariant i <= p ==> forall n :: 0 <= n < CAPACITY ==> time[n] == old(time[n])
        invariant i > p && p < size ==> forall n :: p <= n < CAPACITY - 1 ==> time[n] == old(time[n + 1])
      {
        assert i >= size ==> retry[i] == 0;
        assert p < size ==> retry[p] == id;
        if retry[i] != id {
          temp[j] := retry[i];
          j := j + 1;
        } else {
          RemoveTime(i);
        }
      }
    }

    method CopyBack(temp: array<nat>)
      requires retry.Length == temp.Length == CAPACITY && temp != retry
      modifies retry
      ensures forall n :: 0 <= n < CAPACITY ==> retry[n] == temp[n]
    {
      for i := 0 to CAPACITY
        invariant forall n :: 0 <= n < i ==> retry[n] == temp[n]
      {
        retry[i] := temp[i];
      }
    }

    /** Takes the entry at `p`, if there is one there, out of both arrays. */
    method CloseGap(id: nat, ghost p: nat)
      requires Valid() && p <= size && (p < size ==> Entries()[p].id == id) && (p == size ==> !HasId(Entries(), id))
      modifies retry, time
      ensures FreeFrom(if p < size then size - 1 else size)
      ensures p == size ==> Entries() == old(Entries())
      ensures p < size ==> Entries()[..size - 1] == old(Entries())[..p] + old(Entries())[p + 1..]
    {
      ghost var was := Entries();
      assert forall n :: 0 <= n < size ==> was[n] == Entry(retry[n], time[n]);
      var temp := Compacted(id, p);
      CopyBack(temp);
    }

    method Remove(id: nat)
      requires Valid()
      modifies this, retry, time
      ensures Valid() && Entries() == Without(old(Entries()), id)
      ensures OthersStay(old(Entries()), Entries(), id)
    {
      ghost var was := Entries();
      ghost var p: nat := if k :| 0 <= k < size && was[k].id == id then k else size;
      RemovedAt(was, id, p);
      CloseGap(id, p);
      if p < size {
        Shrink();
      }
      ghost var now := Entries();
      assert now == Without(was, id);
      assert Distinct(now);
    }

    /** The last slot in use became free. */
    ghost method Shrink()
      requires retry.Length == CAPACITY && time.Length == CAPACITY && 0 < size <= CAPACITY
      modifies this
      ensures size == old(size) - 1 && Entries() == old(Entries())[..old(size) - 1]
    {
      size := size - 1;
    }
  }
}
