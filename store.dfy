/** The processing-state register, one instance per JavaScript runtime (the server's and the
    browser's): one optional state record and an ordered list of listeners, each told
    synchronously and in subscription order of every change. */
module Store {
  import opened Text
  import opened Multipart

  datatype Status = Idle | Preparing | Uploading | Processing | Completed | Error

  /** The job parameters as read from the request; the route does not validate them. */
  datatype Params = Params(
    minJumpDuration: EntryValue,
    maxJumpDuration: EntryValue,
    maxCpuUsage: EntryValue,
    numWorkers: EntryValue)

  datatype JumpTimestamp = JumpTimestamp(video: Option<string>, start: real, end: real)

  /** A per-video failure inside a job that nevertheless completed. */
  datatype ErrorInfo = ErrorInfo(video: string, error: string)

  /** The results record the backend returns for a completed job. */
  datatype Results = Results(
    videoPath: Option<string>,
    jumpsDetected: int,
    jumpTimestamps: seq<JumpTimestamp>,
    outputFiles: seq<string>,
    summaryFile: Option<string>,
    videos: Option<seq<string>>,
    errors: Option<seq<ErrorInfo>>,
    hasErrors: bool)

  /** The state record; every field but `status` may be absent. */
  datatype ProcessingState = ProcessingState(
    id: Option<string>,
    videoPath: Option<string>,
    resultDir: Option<string>,
    status: Status,
    message: Option<string>,
    progress: Option<int>,
    params: Option<Params>,
    results: Option<Results>,
    error: Option<string>)

  /** A record holding only `status` (and `message` when given). */
  function Bare(status: Status, message: Option<string>): ProcessingState {
    ProcessingState(None, None, None, status, message, None, None, None, None)
  }

  // ---------------------------------------------------------------------------
  // Partial records and the shallow merge

  /** One key of a partial record: absent (Keep) or present with a value (Put). A key that is
      present with the value undefined is Put(None): the merge then clears that field. */
  datatype Patch<T> = Keep | Put(value: T)

  function Patched<T>(p: Patch<T>, current: T): T {
    if p.Put? then p.value else current
  }

  /** Partial<ProcessingState>. */
  datatype Update = Update(
    id: Patch<Option<string>>,
    videoPath: Patch<Option<string>>,
    resultDir: Patch<Option<string>>,
    status: Patch<Status>,
    message: Patch<Option<string>>,
    progress: Patch<Option<int>>,
    params: Patch<Option<Params>>,
    results: Patch<Option<Results>>,
    error: Patch<Option<string>>)

  /** The empty partial record `{}`. */
  const NoChange: Update := Update(Keep, Keep, Keep, Keep, Keep, Keep, Keep, Keep, Keep)

  /** `{ status, message, progress }`. */
  function Progressing(status: Status, message: string, progress: int): Update {
    NoChange.(status := Put(status), message := Put(Some(message)), progress := Put(Some(progress)))
  }

  /** `{ status: "error", error }`. */
  function Failing(error: Option<string>): Update {
    NoChange.(status := Put(Error), error := Put(error))
  }

  /** `{ status: "completed", results }`. */
  function Completing(results: Option<Results>): Update {
    NoChange.(status := Put(Completed), results := Put(results))
  }

  /** `{ ...s, ...u }`: every key present in `u` takes its new value, every other field is kept. */
  function Merge(s: ProcessingState, u: Update): ProcessingState {
    ProcessingState(
      Patched(u.id, s.id), Patched(u.videoPath, s.videoPath), Patched(u.resultDir, s.resultDir),
      Patched(u.status, s.status), Patched(u.message, s.message), Patched(u.progress, s.progress),
      Patched(u.params, s.params), Patched(u.results, s.results), Patched(u.error, s.error))
  }

  /** `{ ...u1, ...u2 }`: the keys of both, those of `u2` winning. */
  function Combine(u1: Update, u2: Update): Update {
    Update(
      Later(u1.id, u2.id), Later(u1.videoPath, u2.videoPath), Later(u1.resultDir, u2.resultDir),
      Later(u1.status, u2.status), Later(u1.message, u2.message), Later(u1.progress, u2.progress),
      Later(u1.params, u2.params), Later(u1.results, u2.results), Later(u1.error, u2.error))
  }

  function Later<T>(p1: Patch<T>, p2: Patch<T>): Patch<T> {
    if p2.Put? then p2 else p1
  }

  /** Merging the empty partial leaves the record equal. */
  lemma MergeNothing(s: ProcessingState)
    ensures Merge(s, NoChange) == s
  {
  }

  /** Two merges in a row accumulate: the result is one merge of the combined partial. */
  lemma MergeTwice(s: ProcessingState, u1: Update, u2: Update)
    ensures Merge(Merge(s, u1), u2) == Merge(s, Combine(u1, u2))
  {
  }

  /** Merging the same partial again changes nothing. */
  lemma MergeIdempotent(s: ProcessingState, u: Update)
    ensures Merge(Merge(s, u), u) == Merge(s, u)
  {
  }

  /** The status and error updates the route and the panel send change exactly the keys they name. */
  lemma FailingKeepsOthers(s: ProcessingState, e: Option<string>)
    ensures Merge(s, Failing(e)) == s.(status := Error, error := e)
  {
  }

  // ---------------------------------------------------------------------------
  // Listeners and what they are told

  /** Listeners are compared by identity, as functions are in JavaScript. */
  type ListenerId = nat

  /** One call of one listener with the state it was passed. */
  datatype Delivery = Delivery(listener: ListenerId, state: Option<ProcessingState>)

  /** `listeners.forEach(l => l(state))`: one call per registration, in order. */
  function Broadcast(ls: seq<ListenerId>, state: Option<ProcessingState>): (r: seq<Delivery>)
    ensures |r| == |ls|
    ensures forall i :: 0 <= i < |ls| ==> r[i] == Delivery(ls[i], state)
  {
    if ls == [] then [] else [Delivery(ls[0], state)] + Broadcast(ls[1..], state)
  }

  /** `listeners.filter(x => x !== l)`. */
  function Without(ls: seq<ListenerId>, l: ListenerId): (r: seq<ListenerId>)
    ensures l !in r
    ensures forall x :: x != l ==> multiset(r)[x] == multiset(ls)[x]
    ensures |r| == |ls| - multiset(ls)[l]
  {
    if ls == [] then []
    else
      assert ls == [ls[0]] + ls[1..];
      if ls[0] == l then Without(ls[1..], l) else [ls[0]] + Without(ls[1..], l)
  }

  /** Removing a listener keeps the others in their order: it distributes over concatenation. */
  lemma {:induction false} WithoutAppend(a: seq<ListenerId>, b: seq<ListenerId>, l: ListenerId)
    ensures Without(a + b, l) == Without(a, l) + Without(b, l)
  {
    if a == [] {
      assert a + b == b;
    } else {
      assert (a + b)[0] == a[0] && (a + b)[1..] == a[1..] + b;
      WithoutAppend(a[1..], b, l);
    }
  }

  /** A list that does not hold the listener is left as it is. */
  lemma {:induction false} WithoutAbsent(ls: seq<ListenerId>, l: ListenerId)
    requires l !in ls
    ensures Without(ls, l) == ls
  {
    if ls != [] {
      WithoutAbsent(ls[1..], l);
    }
  }

  // ---------------------------------------------------------------------------
  // A sequence of store calls, as a specification

  /** A call of setProcessingState or of updateProcessingState. */
  datatype StoreOp = SetOp(state: Option<ProcessingState>) | UpdateOp(update: Update)

  /** The state after one call. An update of an empty register is ignored. */
  function ApplyOp(st: Option<ProcessingState>, op: StoreOp): Option<ProcessingState> {
    match op
    case SetOp(s) => s
    case UpdateOp(u) => if st.Some? then Some(Merge(st.value, u)) else None
  }

  /** The listener calls one call makes: none for an ignored update. */
  function OpDeliveries(st: Option<ProcessingState>, ls: seq<ListenerId>, op: StoreOp): seq<Delivery> {
    if op.UpdateOp? && st.None? then [] else Broadcast(ls, ApplyOp(st, op))
  }

  function ApplyOps(st: Option<ProcessingState>, ops: seq<StoreOp>): Option<ProcessingState>
    decreases |ops|
  {
    if ops == [] then st else ApplyOps(ApplyOp(st, ops[0]), ops[1..])
  }

  function Deliveries(st: Option<ProcessingState>, ls: seq<ListenerId>, ops: seq<StoreOp>): seq<Delivery>
    decreases |ops|
  {
    if ops == [] then [] else OpDeliveries(st, ls, ops[0]) + Deliveries(ApplyOp(st, ops[0]), ls, ops[1..])
  }

  /** Running two sequences of calls one after the other is running their concatenation. */
  lemma {:induction false} ApplyOpsAppend(st: Option<ProcessingState>, ls: seq<ListenerId>, a: seq<StoreOp>, b: seq<StoreOp>)
    ensures ApplyOps(st, a + b) == ApplyOps(ApplyOps(st, a), b)
    ensures Deliveries(st, ls, a + b) == Deliveries(st, ls, a) + Deliveries(ApplyOps(st, a), ls, b)
    decreases |a|
  {
    if a == [] {
      assert a + b == b;
    } else {
      var next := ApplyOp(st, a[0]);
      assert (a + b)[0] == a[0];
      assert (a + b)[1..] == a[1..] + b;
      ApplyOpsAppend(next, ls, a[1..], b);
      assert Deliveries(st, ls, a + b) == OpDeliveries(st, ls, a[0]) + Deliveries(next, ls, a[1..] + b);
      Assoc(OpDeliveries(st, ls, a[0]), Deliveries(next, ls, a[1..]), Deliveries(ApplyOps(next, a[1..]), ls, b));
    }
  }

  /** Concatenation regroups freely; stated on plain sequences so the solver need not look
      inside the listener calls. */
  lemma Assoc<T>(a: seq<T>, b: seq<T>, c: seq<T>)
    ensures (a + b) + c == a + (b + c)
  {
  }

  /** Appending one call. */
  lemma ApplyOpsSnoc(st: Option<ProcessingState>, ls: seq<ListenerId>, ops: seq<StoreOp>, op: StoreOp)
    ensures ApplyOps(st, ops + [op]) == ApplyOp(ApplyOps(st, ops), op)
    ensures Deliveries(st, ls, ops + [op]) == Deliveries(st, ls, ops) + OpDeliveries(ApplyOps(st, ops), ls, op)
  {
    ApplyOpsAppend(st, ls, ops, [op]);
    assert [op][1..] == [];
  }

  /** Updates alone never fill or empty the register: before the first set they are all
      ignored and nobody is told anything. */
  lemma {:induction false} UpdatesKeepPresence(st: Option<ProcessingState>, ls: seq<ListenerId>, ops: seq<StoreOp>)
    requires forall i :: 0 <= i < |ops| ==> ops[i].UpdateOp?
    ensures ApplyOps(st, ops).Some? <==> st.Some?
    ensures st.None? ==> Deliveries(st, ls, ops) == []
    decreases |ops|
  {
    if ops != [] {
      UpdatesKeepPresence(ApplyOp(st, ops[0]), ls, ops[1..]);
    }
  }

  // ---------------------------------------------------------------------------
  // The register itself

  class ProcessingStore {
    /** The current state, null until the first setProcessingState. */
    var processingState: Option<ProcessingState>
    /** The registered listeners in subscription order; one listener may appear twice. */
    var listeners: seq<ListenerId>
    /** Every listener call made so far, in order. */
    var delivered: seq<Delivery>

    constructor ()
      ensures processingState == None && listeners == [] && delivered == []
    {
      processingState := None;
      listeners := [];
      delivered := [];
    }

    method GetProcessingState() returns (s: Option<ProcessingState>)
      ensures s == processingState
    {
      s := processingState;
    }

    method GetState() returns (s: Option<ProcessingState>)
      ensures s == processingState
    {
      s := processingState;
    }

    /** Calls every listener, in order, with the current state. */
    method Notify()
      modifies this`delivered
      ensures delivered == old(delivered) + Broadcast(listeners, processingState)
    {
      var i := 0;
      while i < |listeners|
        invariant 0 <= i <= |listeners|
        invariant delivered == old(delivered) + Broadcast(listeners[..i], processingState)
      {
        assert Broadcast(listeners[..i + 1], processingState)
          == Broadcast(listeners[..i], processingState) + [Delivery(listeners[i], processingState)];
        delivered := delivered + [Delivery(listeners[i], processingState)];
        i := i + 1;
      }
      assert listeners[..i] == listeners;
    }

    /** Replaces the whole state (no merge), then notifies. */
    method SetProcessingState(s: Option<ProcessingState>)
      modifies this
      ensures processingState == s && listeners == old(listeners)
      ensures delivered == old(delivered) + Broadcast(listeners, s)
    {
      processingState := s;
      Notify();
    }

    /** Shallow-merges into a present state and notifies; ignored while the state is null. */
    method UpdateProcessingState(u: Update)
      modifies this
      ensures listeners == old(listeners)
      ensures old(processingState).None? ==> processingState == None && delivered == old(delivered)
      ensures old(processingState).Some? ==>
        processingState == Some(Merge(old(processingState).value, u))
        && delivered == old(delivered) + Broadcast(listeners, processingState)
    {
      if processingState.Some? {
        processingState := Some(Merge(processingState.value, u));
        Notify();
      }
    }

    /** Registers a listener at the end of the list. */
    method Subscribe(l: ListenerId)
      modifies this`listeners
      ensures listeners == old(listeners) + [l]
    {
      listeners := listeners + [l];
    }

    /** The function subscribe returns: drops every registration of `l`. */
    method Unsubscribe(l: ListenerId)
      modifies this`listeners
      ensures listeners == Without(old(listeners), l)
    {
      listeners := Without(listeners, l);
    }
  }

  /** Broadcasting to a prefix extended by one listener. */
  lemma {:induction false} BroadcastSnoc(ls: seq<ListenerId>, l: ListenerId, state: Option<ProcessingState>)
    ensures Broadcast(ls + [l], state) == Broadcast(ls, state) + [Delivery(l, state)]
  {
  }
}
