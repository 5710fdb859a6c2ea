/** The asynchronous flash storage: queued reads and writes, one flash operation at a time. */
module Storage {
  import opened Bytes
  import Q = SimpleQueue

  datatype Operation = Read | Write

  /** A queued task; `data` and `callback` are addresses. */
  datatype TaskItem = TaskItem(operation: Operation, length: nat, block: nat, data: nat, callback: nat)

  datatype FlashOp =
    | Load(block: nat, data: nat, length: nat)
    | Clear(block: nat)
    | Store(block: nat, data: nat, length: nat)

  datatype Outcome = Outcome(op: FlashOp, ok: bool)

  /** `flash` are the operations under way. The other fields record the past: the tasks taken into
      the queue, the tasks finished, the callbacks fired and the flash operations that ended. */
  datatype State = State(
    queue: seq<TaskItem>, busy: bool, flash: seq<FlashOp>,
    accepted: seq<TaskItem>, done: seq<TaskItem>, fired: seq<nat>, log: seq<Outcome>)

  function First(t: TaskItem): FlashOp {
    if t.operation == Read then Load(t.block, t.data, t.length) else Clear(t.block)
  }

  function Last(t: TaskItem): FlashOp {
    if t.operation == Read then Load(t.block, t.data, t.length) else Store(t.block, t.data, t.length)
  }

  // ---- the handlers ------------------------------------------------------------------------------

  function Proceed(s: State): State {
    if s.busy || s.queue == [] then s
    else s.(busy := true, flash := s.flash + [First(s.queue[0])])
  }

  /** A read or write request; `ok` says whether the ring took the task. */
  function OnRequest(s: State, t: TaskItem, ok: bool): State {
    Proceed(if ok then s.(queue := s.queue + [t], accepted := s.accepted + [t]) else s)
  }

  /** The requests made by a callback while it runs. */
  function OnRequests(s: State, ts: seq<TaskItem>, oks: seq<bool>): State
    requires |ts| == |oks|
    decreases ts
  {
    if ts == [] then s else OnRequests(OnRequest(s, ts[0], oks[0]), ts[1..], oks[1..])
  }

  /** The head task took effect: it leaves the queue, and a read's callback runs and makes the
      requests `ts`. */
  function OnFinished(s: State, ts: seq<TaskItem>, oks: seq<bool>): State
    requires s.queue != [] && |ts| == |oks|
  {
    var t := s.queue[0];
    var taken := s.(queue := s.queue[1..], done := s.done + [t]);
    var called := if t.operation == Read then OnRequests(taken.(fired := s.fired + [t.callback]), ts, oks) else taken;
    Proceed(called.(busy := false))
  }

  /** The flash operation under way ended. */
  function OnEvent(s: State, ok: bool, ts: seq<TaskItem>, oks: seq<bool>): State
    requires s.flash != [] && s.queue != [] && |ts| == |oks|
  {
    var op, t := s.flash[0], s.queue[0];
    var e := s.(flash := s.flash[1..], log := s.log + [Outcome(op, ok)]);
    if op.Clear? && ok then e.(flash := e.flash + [Store(t.block, t.data, t.length)])
    else if ok then OnFinished(e, ts, oks)
    else Proceed(e.(busy := false))
  }

  // ---- what every run keeps ----------------------------------------------------------------------

  function Effects(log: seq<Outcome>): seq<FlashOp> {
    if log == [] then []
    else Effects(log[..|log| - 1]) + if log[|log| - 1].ok && !log[|log| - 1].op.Clear? then [log[|log| - 1].op] else []
  }

  function LastOps(ts: seq<TaskItem>): seq<FlashOp> {
    seq(|ts|, i requires 0 <= i < |ts| => Last(ts[i]))
  }

  function ReadCallbacks(ts: seq<TaskItem>): seq<nat> {
    if ts == [] then []
    else ReadCallbacks(ts[..|ts| - 1]) + if ts[|ts| - 1].operation == Read then [ts[|ts| - 1].callback] else []
  }

  /** A store directly follows the successful clearing of its block. */
  ghost predicate ClearedBefore(log: seq<Outcome>, op: FlashOp) {
    op.Store? ==> log != [] && log[|log| - 1] == Outcome(Clear(op.block), true)
  }

  /** Is this an operation of the task whose turn it is after this past? */
  ghost predicate InTurn(accepted: seq<TaskItem>, log: seq<Outcome>, op: FlashOp) {
    && |Effects(log)| < |accepted|
    && (op == First(accepted[|Effects(log)|]) || op == Last(accepted[|Effects(log)|]))
    && ClearedBefore(log, op)
  }

  ghost predicate LogOk(accepted: seq<TaskItem>, log: seq<Outcome>) {
    forall i :: 0 <= i < |log| ==> InTurn(accepted, log[..i], log[i].op)
  }

  ghost predicate Inv(s: State) {
    && |s.flash| <= 1 && (s.busy <==> s.flash != [])
    && (s.queue != [] <==> s.busy)
    && (s.busy ==> (s.flash[0] == First(s.queue[0]) || s.flash[0] == Last(s.queue[0])) && ClearedBefore(s.log, s.flash[0]))
    && s.accepted == s.done + s.queue
    && Effects(s.log) == LastOps(s.done)
    && s.fired == ReadCallbacks(s.done)
    && LogOk(s.accepted, s.log)
  }

  lemma LogStaysOk(accepted: seq<TaskItem>, more: seq<TaskItem>, log: seq<Outcome>)
    requires LogOk(accepted, log) && accepted <= more
    ensures LogOk(more, log)
  {
    forall i | 0 <= i < |log| ensures InTurn(more, log[..i], log[i].op) {
      assert InTurn(accepted, log[..i], log[i].op);
    }
  }

  lemma RequestKeeps(s: State, t: TaskItem, ok: bool)
    requires Inv(s)
    ensures Inv(OnRequest(s, t, ok))
  {
    assert (s.done + s.queue) + [t] == s.done + (s.queue + [t]);
  }

  /** While an operation is being finished, requests only join the queue. */
  lemma {:induction false} RequestsWhileBusy(s: State, ts: seq<TaskItem>, oks: seq<bool>)
    requires |ts| == |oks| && s.busy && s.accepted == s.done + s.queue
    ensures
      var r := OnRequests(s, ts, oks);
      && r.accepted == s.done + r.queue && r == s.(queue := r.queue, accepted := r.accepted)
      && s.accepted <= r.accepted
    decreases ts
  {
    if ts == [] {
    } else {
      assert (s.done + s.queue) + [ts[0]] == s.done + (s.queue + [ts[0]]);
      RequestsWhileBusy(OnRequest(s, ts[0], oks[0]), ts[1..], oks[1..]);
    }
  }

  lemma {:induction false} OnRequestsAppend(s: State, ts: seq<TaskItem>, oks: seq<bool>, t: TaskItem, ok: bool)
    requires |ts| == |oks|
    ensures OnRequests(s, ts + [t], oks + [ok]) == OnRequest(OnRequests(s, ts, oks), t, ok)
    decreases ts
  {
    if ts == [] {
      assert [t][1..] == [] && [ok][1..] == [];
    } else {
      assert (ts + [t])[1..] == ts[1..] + [t] && (oks + [ok])[1..] == oks[1..] + [ok];
      OnRequestsAppend(OnRequest(s, ts[0], oks[0]), ts[1..], oks[1..], t, ok);
    }
  }

  lemma LogExtends(accepted: seq<TaskItem>, log: seq<Outcome>, o: Outcome)
    requires LogOk(accepted, log) && InTurn(accepted, log, o.op)
    ensures LogOk(accepted, log + [o])
    ensures Effects(log + [o]) == Effects(log) + if o.ok && !o.op.Clear? then [o.op] else []
  {
    assert (log + [o])[..|log|] == log;
    forall i | 0 <= i < |log| ensures (log + [o])[..i] == log[..i] {
    }
  }

  lemma DoneExtends(done: seq<TaskItem>, t: TaskItem)
    ensures LastOps(done + [t]) == LastOps(done) + [Last(t)]
    ensures ReadCallbacks(done + [t]) == ReadCallbacks(done) + if t.operation == Read then [t.callback] else []
  {
    assert (done + [t])[..|done|] == done;
  }

  lemma ClearedKeeps(s: State, ts: seq<TaskItem>, oks: seq<bool>)
    requires Inv(s) && s.flash != [] && |ts| == |oks| && s.flash[0].Clear?
    ensures Inv(OnEvent(s, true, ts, oks))
  {
    LogExtends(s.accepted, s.log, Outcome(s.flash[0], true));
  }

  lemma FailureKeeps(s: State, ts: seq<TaskItem>, oks: seq<bool>)
    requires Inv(s) && s.flash != [] && |ts| == |oks|
    ensures Inv(OnEvent(s, false, ts, oks))
  {
    LogExtends(s.accepted, s.log, Outcome(s.flash[0], false));
  }

  /** The head task took effect; `e` is the state just after the operation left the driver. */
  lemma FinishedKeeps(e: State, ts: seq<TaskItem>, oks: seq<bool>)
    requires e.queue != [] && |ts| == |oks| && e.busy && e.flash == []
    requires e.accepted == e.done + e.queue
    requires Effects(e.log) == LastOps(e.done) + [Last(e.queue[0])] && e.fired == ReadCallbacks(e.done)
    requires LogOk(e.accepted, e.log)
    ensures Inv(OnFinished(e, ts, oks))
  {
    var t := e.queue[0];
    DoneExtends(e.done, t);
    assert e.done + e.queue == (e.done + [t]) + e.queue[1..];
    var taken := e.(queue := e.queue[1..], done := e.done + [t]);
    if t.operation == Read {
      var called := taken.(fired := e.fired + [t.callback]);
      RequestsWhileBusy(called, ts, oks);
      LogStaysOk(e.accepted, OnRequests(called, ts, oks).accepted, e.log);
      ProceedKeeps(OnRequests(called, ts, oks).(busy := false));
    } else {
      ProceedKeeps(taken.(busy := false));
    }
  }

  /** Starting the next task completes the invariant when nothing is under way. */
  lemma ProceedKeeps(s: State)
    requires !s.busy && s.flash == [] && s.accepted == s.done + s.queue
    requires Effects(s.log) == LastOps(s.done) && s.fired == ReadCallbacks(s.done)
    requires LogOk(s.accepted, s.log)
    ensures Inv(Proceed(s))
  {
  }

  lemma EventKeeps(s: State, ok: bool, ts: seq<TaskItem>, oks: seq<bool>)
    requires Inv(s) && s.flash != [] && |ts| == |oks|
    ensures Inv(OnEvent(s, ok, ts, oks))
  {
    if !ok {
      FailureKeeps(s, ts, oks);
    } else if s.flash[0].Clear? {
      ClearedKeeps(s, ts, oks);
    } else {
      LogExtends(s.accepted, s.log, Outcome(s.flash[0], ok));
      FinishedKeeps(s.(flash := s.flash[1..], log := s.log + [Outcome(s.flash[0], ok)]), ts, oks);
    }
  }

  datatype Event = Requested(t: TaskItem, taken: bool) | Ended(ok: bool, ts: seq<TaskItem>, oks: seq<bool>)

  ghost predicate Next(s: State, e: Event, t: State) {
    match e
    case Requested(task, taken) => t == OnRequest(s, task, taken)
    case Ended(ok, ts, oks) => s.flash != [] && s.queue != [] && |ts| == |oks| && t == OnEvent(s, ok, ts, oks)
  }

  const START := State([], false, [], [], [], [], [])

  ghost predicate IsRun(run: seq<State>, es: seq<Event>) {
    && |run| == |es| + 1 && run[0] == START
    && forall i :: 0 <= i < |es| ==> Next(run[i], es[i], run[i + 1])
  }

  lemma {:induction false} RunKeeps(run: seq<State>, es: seq<Event>)
    requires IsRun(run, es)
    ensures Inv(run[|es|])
  {
    if es == [] {
    } else {
      RunKeeps(run[..|es|], es[..|es| - 1]);
      var s := run[|es| - 1];
      assert Next(s, es[|es| - 1], run[|es|]);
      match es[|es| - 1]
      case Requested(task, taken) => RequestKeeps(s, task, taken);
      case Ended(ok, ts, oks) => EventKeeps(s, ok, ts, oks);
    }
  }

  /** The operation that makes a task take effect: a read is a load, a write a store. */
  ghost predicate TakesEffect(op: FlashOp, t: TaskItem) {
    match t.operation
    case Read => op == Load(t.block, t.data, t.length)
    case Write => op == Store(t.block, t.data, t.length)
  }

  /** What is started for the task whose turn it is: a load for a read, a clear for a write. */
  ghost predicate Starts(op: FlashOp, t: TaskItem) {
    match t.operation
    case Read => op == Load(t.block, t.data, t.length)
    case Write => op == Clear(t.block)
  }

  ghost function Reads(ts: seq<TaskItem>, n: nat): set<nat>
    requires n <= |ts|
  {
    set i | 0 <= i < n && ts[i].operation == Read
  }

  lemma ReadsOfMore(ts: seq<TaskItem>, t: TaskItem, n: nat)
    requires n <= |ts|
    ensures Reads(ts + [t], n) == Reads(ts, n)
  {
    assert forall i :: 0 <= i < n ==> (ts + [t])[i] == ts[i];
  }

  lemma ReadsOfLast(ts: seq<TaskItem>, t: TaskItem)
    ensures |Reads(ts + [t], |ts| + 1)| == |Reads(ts, |ts|)| + if t.operation == Read then 1 else 0
  {
    ReadsOfMore(ts, t, |ts|);
    assert Reads(ts + [t], |ts| + 1) == Reads(ts + [t], |ts|) + if t.operation == Read then {|ts| as nat} else {};
  }

  /** The callback of the read at `i` is the one that fired after those of the reads before it. */
  ghost predicate FiredFor(fired: seq<nat>, ts: seq<TaskItem>, i: nat)
    requires i < |ts|
  {
    ts[i].operation == Read ==> |Reads(ts, i)| < |fired| && fired[|Reads(ts, i)|] == ts[i].callback
  }

  lemma {:induction false} CallbacksOfReads(ts: seq<TaskItem>)
    ensures |ReadCallbacks(ts)| == |Reads(ts, |ts|)|
    ensures forall i :: 0 <= i < |ts| ==> FiredFor(ReadCallbacks(ts), ts, i)
  {
    if ts == [] {
    } else {
      var before, t := ts[..|ts| - 1], ts[|ts| - 1];
      assert ts == before + [t];
      CallbacksOfReads(before);
      ReadsOfLast(before, t);
      forall i | 0 <= i < |ts| ensures FiredFor(ReadCallbacks(ts), ts, i) {
        ReadsOfMore(before, t, i);
        if i < |before| {
          assert FiredFor(ReadCallbacks(before), before, i);
        }
      }
    }
  }

  /** At most one flash operation is under way, exactly while the storage is busy, and it is busy as
      long as a task waits; */
  lemma OneOperationAtATime(run: seq<State>, es: seq<Event>)
    requires IsRun(run, es)
    ensures
      var s := run[|es|];
      && |s.flash| == (if s.busy then 1 else 0)
      && (s.busy <==> s.queue != [])
  {
    RunKeeps(run, es);
  }

  /** no accepted task is lost, and they take effect in the order of acceptance, each once, whatever
      failures came between; each read's callback fired once, after its load; */
  lemma TasksTakeEffectInOrder(run: seq<State>, es: seq<Event>)
    requires IsRun(run, es)
    ensures
      var s := run[|es|];
      && s.accepted == s.done + s.queue
      && Effects(s.log) == LastOps(s.done)
      && s.fired == ReadCallbacks(s.done)
      && |Effects(s.log)| == |s.done|
      && (forall i :: 0 <= i < |s.done| ==> TakesEffect(Effects(s.log)[i], s.done[i]))
      && |s.fired| == |Reads(s.done, |s.done|)|
      && (forall i :: 0 <= i < |s.done| ==> FiredFor(s.fired, s.done, i))
  {
    RunKeeps(run, es);
    CallbacksOfReads(run[|es|].done);
  }

  /** Blocks are cleared and stored for write tasks only, and loaded for read tasks only: every operation
      that ended, and the one under way, belongs to the task whose turn it was. */
  lemma OperationsFitTheirTasks(run: seq<State>, es: seq<Event>)
    requires IsRun(run, es)
    ensures
      var s := run[|es|];
      && (forall i :: 0 <= i < |s.log| ==>
            var n := |Effects(s.log[..i])|;
            n < |s.accepted| && (Starts(s.log[i].op, s.accepted[n]) || TakesEffect(s.log[i].op, s.accepted[n])))
      && (s.queue != [] ==> |s.flash| == 1 && (Starts(s.flash[0], s.queue[0]) || TakesEffect(s.flash[0], s.queue[0])))
  {
    RunKeeps(run, es);
    var s := run[|es|];
    forall i | 0 <= i < |s.log|
      ensures
        var n := |Effects(s.log[..i])|;
        n < |s.accepted| && (Starts(s.log[i].op, s.accepted[n]) || TakesEffect(s.log[i].op, s.accepted[n])) {
      assert InTurn(s.accepted, s.log[..i], s.log[i].op);
    }
  }

  /** What an ended operation leads to: after a clear the same task is stored; after a failure it is
      started anew; */
  lemma EventAdvances(s: State, ok: bool, ts: seq<TaskItem>, oks: seq<bool>)
    requires Inv(s) && s.flash != [] && |ts| == |oks|
    ensures
      var t, r, op := s.queue[0], OnEvent(s, ok, ts, oks), s.flash[0];
      && r.log == s.log + [Outcome(op, ok)]
      && (!ok ==> r.queue == s.queue && r.done == s.done && r.fired == s.fired && |r.flash| == 1 && Starts(r.flash[0], t))
      && (ok && op == Clear(t.block) ==>
            r.queue == s.queue && r.done == s.done && r.fired == s.fired && r.flash == [Store(t.block, t.data, t.length)])
  {
    if ok && !s.flash[0].Clear? {
      FinishLogs(s, ts, oks);
    }
  }

  lemma FinishLogs(s: State, ts: seq<TaskItem>, oks: seq<bool>)
    requires Inv(s) && s.flash != [] && |ts| == |oks| && !s.flash[0].Clear?
    ensures
      var t, r := s.queue[0], OnEvent(s, true, ts, oks);
      && r.log == s.log + [Outcome(s.flash[0], true)]
      && r.done == s.done + [t] && s.queue[1..] <= r.queue
      && r.fired == s.fired + if t.operation == Read then [t.callback] else []
  {
    var t := s.queue[0];
    var e := s.(flash := s.flash[1..], log := s.log + [Outcome(s.flash[0], true)]);
    var taken := e.(queue := e.queue[1..], done := e.done + [t]);
    assert e.done + e.queue == (e.done + [t]) + e.queue[1..];
    if t.operation == Read {
      RequestsOnlyQueue(taken.(fired := e.fired + [t.callback]), ts, oks);
    }
  }

  lemma {:induction false} RequestsOnlyQueue(s: State, ts: seq<TaskItem>, oks: seq<bool>)
    requires |ts| == |oks| && s.busy
    ensures
      var r := OnRequests(s, ts, oks);
      s.queue <= r.queue && r == s.(queue := r.queue, accepted := r.accepted)
    decreases ts
  {
    if ts == [] {
    } else {
      RequestsOnlyQueue(OnRequest(s, ts[0], oks[0]), ts[1..], oks[1..]);
    }
  }

  /** after a load or a store the task is done, the callback of a read fires, and the next task, if any, is
      started. */
  lemma EventFinishes(s: State, ts: seq<TaskItem>, oks: seq<bool>)
    requires Inv(s) && s.flash != [] && |ts| == |oks| && TakesEffect(s.flash[0], s.queue[0])
    ensures
      var t, r := s.queue[0], OnEvent(s, true, ts, oks);
      && r.done == s.done + [t] && s.queue[1..] <= r.queue
      && r.fired == s.fired + (if t.operation == Read then [t.callback] else [])
      && (r.queue == [] <==> r.flash == [])
      && (r.queue != [] ==> |r.flash| == 1 && Starts(r.flash[0], r.queue[0]))
  {
    FinishLogs(s, ts, oks);
    EventKeeps(s, true, ts, oks);
    FinishStarts(s, ts, oks);
  }

  lemma FinishStarts(s: State, ts: seq<TaskItem>, oks: seq<bool>)
    requires Inv(s) && s.flash != [] && |ts| == |oks| && !s.flash[0].Clear?
    ensures
      var r := OnEvent(s, true, ts, oks);
      r.queue != [] ==> r.flash == [First(r.queue[0])]
  {
    var t := s.queue[0];
    var e := s.(flash := s.flash[1..], log := s.log + [Outcome(s.flash[0], true)]);
    var taken := e.(queue := e.queue[1..], done := e.done + [t]);
    if t.operation == Read {
      RequestsOnlyQueue(taken.(fired := e.fired + [t.callback]), ts, oks);
    }
  }

  /** A request that the ring takes joins the tasks, and is started at once if none was there. */
  lemma RequestJoins(s: State, t: TaskItem, ok: bool)
    requires Inv(s)
    ensures
      var r := OnRequest(s, t, ok);
      && r.accepted == s.accepted + (if ok then [t] else []) && r.queue == s.queue + (if ok then [t] else [])
      && r.done == s.done && r.fired == s.fired && r.log == s.log
      && (s.queue == [] && ok ==> |r.flash| == 1 && Starts(r.flash[0], t))
      && (s.queue != [] || !ok ==> r.flash == s.flash)
  {
  }

  /** and every store is that of the task whose turn it is, and follows directly the successful
      clearing for the same task. */
  lemma StoresFollowTheirClear(run: seq<State>, es: seq<Event>, i: nat)
    requires IsRun(run, es) && i < |run[|es|].log| && run[|es|].log[i].op.Store?
    ensures
      var s := run[|es|];
      var n := |Effects(s.log[..i])|;
      && i > 0 && n < |s.accepted| && |Effects(s.log[..i - 1])| == n
      && s.log[i].op == Last(s.accepted[n]) && s.log[i - 1] == Outcome(First(s.accepted[n]), true)
      && s.accepted[n].operation == Write
      && s.log[i].op == Store(s.accepted[n].block, s.accepted[n].data, s.accepted[n].length)
      && s.log[i - 1].op == Clear(s.accepted[n].block)
  {
    RunKeeps(run, es);
    var log := run[|es|].log;
    assert InTurn(run[|es|].accepted, log[..i], log[i].op);
    assert log[..i][..i - 1] == log[..i - 1];
  }

  // ---- tasks as bytes ------------------------------------------------------------------------------

  /** The fields fit their struct members: two of 16 bits, three of 32. */
  predicate Packs(t: TaskItem) {
    && t.length < 0x1_0000 && t.block < Q.WORD_RANGE && t.data < Q.WORD_RANGE && t.callback < Q.WORD_RANGE
  }

  function Pack(t: TaskItem): Q.Task
    requires Packs(t)
  {
    [if t.operation == Read then 0 else 1, 0, t.length % 256, t.length / 256]
    + Q.Word(t.block) + Q.Word(t.data) + Q.Word(t.callback)
  }

  function Unpack(b: seq<u8>): TaskItem
    requires |b| == Q.TASK_SIZE
  {
    TaskItem(if b[0] == 0 then Read else Write, b[2] as nat + 256 * b[3] as nat, Q.WordAt(b, 4), Q.WordAt(b, 8), Q.WordAt(b, 12))
  }

  lemma PackRoundTrip(t: TaskItem)
    requires Packs(t)
    ensures |Pack(t)| == Q.TASK_SIZE && Unpack(Pack(t)) == t
    ensures
      var b := Pack(t);
      && b[0] == (if t.operation == Read then 0 else 1) && b[1] == 0 && b[2] as nat + 256 * b[3] as nat == t.length
      && Q.WordAt(b, 4) == t.block && Q.WordAt(b, 8) == t.data && Q.WordAt(b, 12) == t.callback
  {
    var b := Pack(t);
    assert b[4..8] == Q.Word(t.block) && b[8..12] == Q.Word(t.data) && b[12..16] == Q.Word(t.callback);
    Q.WordSurvives(t.block, b, 4);
    Q.WordSurvives(t.data, b, 8);
    Q.WordSurvives(t.callback, b, 12);
  }

  function PackAll(ts: seq<TaskItem>): seq<Q.Task>
    requires forall i :: 0 <= i < |ts| ==> Packs(ts[i])
  {
    seq(|ts|, i requires 0 <= i < |ts| && Packs(ts[i]) => Pack(ts[i]))
  }

  lemma PackAppend(ts: seq<TaskItem>, t: TaskItem)
    requires Packs(t) && forall i :: 0 <= i < |ts| ==> Packs(ts[i])
    ensures forall i :: 0 <= i < |ts + [t]| ==> Packs((ts + [t])[i])
    ensures PackAll(ts + [t]) == PackAll(ts) + [Pack(t)]
  {
  }

  lemma PackTail(ts: seq<TaskItem>)
    requires ts != [] && forall i :: 0 <= i < |ts| ==> Packs(ts[i])
    ensures PackAll(ts)[0] == Pack(ts[0])
    ensures (forall i :: 0 <= i < |ts[1..]| ==> Packs(ts[1..][i])) && PackAll(ts)[1..] == PackAll(ts[1..])
  {
  }

  /** The storage object. `flash` are the requests given to the flash driver and not yet answered;
      the ghost `state` adds the history. */
  class Storage {
    const taskQueue: Q.SimpleQueue
    var bufferedOperationInProgress: bool
    var flash: seq<FlashOp>
    ghost var state: State

    ghost predicate QueueHolds(ts: seq<TaskItem>)
      reads this, taskQueue, taskQueue.buffer
    {
      && taskQueue.Valid() && taskQueue.buffer.Length == Q.TASK_BUFFER
      && Q.TaskSlots(taskQueue.readPointer, taskQueue.writePointer, taskQueue.wrapAt, |ts|)
      && (forall i :: 0 <= i < |ts| ==> Packs(ts[i]))
      && taskQueue.Contents() == PackAll(ts)
    }

    /** The queue bytes hold the tasks of `state`, */
    ghost predicate QueueSynced()
      reads this, taskQueue, taskQueue.buffer
    {
      QueueHolds(state.queue)
    }

    /** and the other fields agree with it. */
    ghost predicate Synced()
      reads this, taskQueue, taskQueue.buffer
    {
      QueueSynced() && bufferedOperationInProgress == state.busy && flash == state.flash
    }

    ghost predicate Valid()
      reads this, taskQueue, taskQueue.buffer
    {
      Synced() && Inv(state)
    }

    constructor ()
      ensures Valid() && state == START && fresh(taskQueue) && fresh(taskQueue.buffer)
    {
      var buffer := new u8[Q.TASK_BUFFER];
      taskQueue := new Q.SimpleQueue(buffer);
      bufferedOperationInProgress, flash, state := false, [], START;
    }

    method Peek() returns (t: TaskItem)
      requires QueueSynced() && state.queue != []
      ensures t == state.queue[0]
    {
      var bytes := taskQueue.PeekNext();
      PackRoundTrip(state.queue[0]);
      assert bytes == Pack(state.queue[0]);
      t := Unpack(bytes);
    }

    method ProcessQueue()
      requires Synced()
      modifies this
      ensures Synced() && state == Proceed(old(state))
    {
      assert taskQueue.numElements == |PackAll(state.queue)| == |state.queue|;
      if bufferedOperationInProgress || taskQueue.numElements < 1 {
        return;
      }
      bufferedOperationInProgress := true;
      var t := Peek();
      if t.operation == Read {
        flash := flash + [Load(t.block, t.data, t.length)];
      } else {
        flash := flash + [Clear(t.block)];
      }
      state := Proceed(state);
    }

    /** Queues a task, if the ring takes it, and starts it if nothing is under way. */
    method Enqueue(t: TaskItem) returns (ok: bool)
      requires Synced() && Packs(t)
      modifies this, taskQueue, taskQueue.buffer
      ensures Synced() && state == OnRequest(old(state), t, ok)
      ensures |old(state).queue| < 6 ==> ok
    {
      PackRoundTrip(t);
      ok := taskQueue.Put(Pack(t));
      if |state.queue| < 6 {
        Q.RoomForSixTasks(old(taskQueue.readPointer), old(taskQueue.writePointer), old(taskQueue.wrapAt), |state.queue|);
      }
      if ok {
        Q.PutKeepsSlots(old(taskQueue.readPointer), old(taskQueue.writePointer), old(taskQueue.wrapAt), |state.queue|);
        PackAppend(state.queue, t);
        state := state.(queue := state.queue + [t], accepted := state.accepted + [t]);
      }
      ProcessQueue();
    }

    method QueuedRead(data: nat, length: nat, block: nat, callback: nat) returns (ok: bool)
      requires Valid() && Packs(TaskItem(Read, length, block, data, callback))
      modifies this, taskQueue, taskQueue.buffer
      ensures Valid() && state == OnRequest(old(state), TaskItem(Read, length, block, data, callback), ok)
      ensures state.accepted == old(state).accepted + if ok then [TaskItem(Read, length, block, data, callback)] else []
      ensures ok && old(flash) == [] ==> flash == [Load(block, data, length)]
      ensures |old(state).queue| < 6 ==> ok
    {
      ok := Enqueue(TaskItem(Read, length, block, data, callback));
      RequestKeeps(old(state), TaskItem(Read, length, block, data, callback), ok);
      RequestJoins(old(state), TaskItem(Read, length, block, data, callback), ok);
    }

    method QueuedWrite(data: nat, length: nat, block: nat, callback: nat) returns (ok: bool)
      requires Valid() && Packs(TaskItem(Write, length, block, data, callback))
      modifies this, taskQueue, taskQueue.buffer
      ensures Valid() && state == OnRequest(old(state), TaskItem(Write, length, block, data, callback), ok)
      ensures state.accepted == old(state).accepted + if ok then [TaskItem(Write, length, block, data, callback)] else []
      ensures ok && old(flash) == [] ==> flash == [Clear(block)]
      ensures |old(state).queue| < 6 ==> ok
    {
      ok := Enqueue(TaskItem(Write, length, block, data, callback));
      RequestKeeps(old(state), TaskItem(Write, length, block, data, callback), ok);
      RequestJoins(old(state), TaskItem(Write, length, block, data, callback), ok);
    }

    /** Takes the finished task off the queue. */
    method Take() returns (t: TaskItem)
      requires Synced() && state.queue != []
      modifies this`state, taskQueue
      ensures Synced() && t == old(state).queue[0]
      ensures state == old(state).(queue := old(state).queue[1..], done := old(state).done + [t])
    {
      t := Fetch();
      state := state.(queue := state.queue[1..], done := state.done + [t]);
    }

    method Fetch() returns (t: TaskItem)
      requires QueueSynced() && state.queue != []
      modifies taskQueue
      ensures t == state.queue[0] && QueueHolds(state.queue[1..])
    {
      PackTail(state.queue);
      PackRoundTrip(state.queue[0]);
      var bytes := taskQueue.GetNext();
      t := Unpack(bytes);
      Q.GetKeepsSlots(old(taskQueue.readPointer), old(taskQueue.writePointer), old(taskQueue.wrapAt), |state.queue|,
                      taskQueue.readPointer - 20);
    }

    /** The callback of a finished read makes its requests. */
    method Callback(t: TaskItem, ts: seq<TaskItem>) returns (oks: seq<bool>)
      requires Synced() && forall i :: 0 <= i < |ts| ==> Packs(ts[i])
      modifies this, taskQueue, taskQueue.buffer
      ensures Synced() && |oks| == |ts|
      ensures state == OnRequests(old(state).(fired := old(state).fired + [t.callback]), ts, oks)
    {
      state := state.(fired := state.fired + [t.callback]);
      ghost var s := state;
      oks := [];
      for i := 0 to |ts|
        invariant Synced() && |oks| == i && state == OnRequests(s, ts[..i], oks)
      {
        var ok := Enqueue(ts[i]);
        OnRequestsAppend(s, ts[..i], oks, ts[i], ok);
        assert ts[..i + 1] == ts[..i] + [ts[i]];
        oks := oks + [ok];
      }
      assert ts[..|ts|] == ts;
    }

    method Finish(ts: seq<TaskItem>) returns (oks: seq<bool>)
      requires Synced() && state.queue != [] && forall i :: 0 <= i < |ts| ==> Packs(ts[i])
      modifies this, taskQueue, taskQueue.buffer
      ensures Synced() && |oks| == |ts| && state == OnFinished(old(state), ts, oks)
    {
      var t := Take();
      if t.operation == Read {
        oks := Callback(t, ts);
      } else {
        oks := seq(|ts|, i => false);
      }
      GoOn();
    }

    /** The operation is over; the next task may start. */
    method GoOn()
      requires Synced()
      modifies this
      ensures Synced() && state == Proceed(old(state).(busy := false))
    {
      bufferedOperationInProgress := false;
      state := state.(busy := false);
      ProcessQueue();
    }

    method StoreHead()
      requires Synced() && state.queue != []
      modifies this
      ensures Synced()
      ensures
        var t := old(state).queue[0];
        state == old(state).(flash := old(state).flash + [Store(t.block, t.data, t.length)])
    {
      var t := Peek();
      flash := flash + [Store(t.block, t.data, t.length)];
      state := state.(flash := flash);
    }

    method Pop(ok: bool) returns (op: FlashOp)
      requires Synced() && flash != []
      modifies this
      ensures Synced() && op == old(state).flash[0]
      ensures state == old(state).(flash := old(state).flash[1..], log := old(state).log + [Outcome(op, ok)])
    {
      op := flash[0];
      flash := flash[1..];
      state := state.(flash := state.flash[1..], log := state.log + [Outcome(op, ok)]);
    }

    /** The flash driver reports the end of the operation under way. */
    method PstorageEventHandler(ok: bool, ts: seq<TaskItem>) returns (oks: seq<bool>)
      requires Valid() && flash != [] && forall i :: 0 <= i < |ts| ==> Packs(ts[i])
      modifies this, taskQueue, taskQueue.buffer
      ensures Valid() && |oks| == |ts| && state == OnEvent(old(state), ok, ts, oks)
    {
      var op := Pop(ok);
      oks := seq(|ts|, i => false);
      if op.Clear? && ok {
        StoreHead();
      } else if ok {
        oks := Finish(ts);
      } else {
        GoOn();
      }
      EventKeeps(old(state), ok, ts, oks);
    }
  }
}
