/** src/lib/jackal/upload.js: putting a file on the SDK's upload queue by
    whichever enqueue method the SDK has, then having the queue processed,
    with the outcomes that count as success folded in. */
module Upload {
  import opened Js
  import opened Sdk
  import Paths
  import SignerLock
  import Cascade

  const NoQueueError := "No queue method available on StorageHandler"
  const QueueFile := "queueFile"
  const LoadDirectory := "loadDirectory"
  const ProcessQueue := "processQueue"
  const ProcessAllQueues := "processAllQueues"
  const ProcessPending := "processPending"
  const ProcessPendingNotifications := "processPendingNotifications"
  const SaveFolder := "saveFolder"
  const UpgradeSigner := "upgradeSigner"

  /** The enqueue methods in the order they are tried. */
  const QueueMethods: seq<string> := ["queueFile", "queuePrivate", "queuePublic", "queue", "addToQueue", "enqueueFile"]

  /** The argument lists each enqueue method is tried with, in order:
      `queuePrivate` and `queuePublic` take a file, a one-file list, each
      with a duration of 0, then the bare file; the others take the file and
      the folder, then the bare file. */
  function ArgShapes(name: string, file: JsVal, folder: JsVal): seq<seq<JsVal>> {
    if name == "queuePrivate" || name == "queuePublic" then [[file, Num(0)], [Arr([file]), Num(0)], [file]]
    else [[file, folder], [file]]
  }

  /** The first index of `x` in `names`. */
  function Position(names: seq<string>, x: string): nat
    decreases names
  {
    if names == [] || names[0] == x then 0 else 1 + Position(names[1..], x)
  }

  /** Past a distinct first name, positions shift by one. */
  lemma PositionTail(names: seq<string>, x: string)
    requires Distinct(names) && |names| > 0 && x in names[1..]
    ensures Position(names, x) == 1 + Position(names[1..], x)
  {
    var k :| 0 <= k < |names[1..]| && names[1..][k] == x;
    assert names[k + 1] == x;
  }

  predicate Distinct(names: seq<string>) {
    forall i, j :: 0 <= i < j < |names| ==> names[i] != names[j]
  }

  /** The attempts of one method: each of its argument shapes in turn, or
      none when the handler does not have it. */
  function MethodAttempts(h: Handler, file: JsVal, folder: JsVal, name: string): (ops: seq<Cascade.Op>)
    ensures forall i :: 0 <= i < |ops| ==> ops[i] == Cascade.Direct(Call(name, ops[i].call.args)) && Has(h, name)
  {
    var shapes := ArgShapes(name, file, folder);
    if Has(h, name) then seq(|shapes|, i requires 0 <= i < |shapes| => Cascade.Direct(Call(name, shapes[i]))) else []
  }

  /** The enqueue attempts for the methods `names`, method by method. */
  function QueueAttempts(h: Handler, file: JsVal, folder: JsVal, names: seq<string>): (ops: seq<Cascade.Op>)
    ensures forall i :: 0 <= i < |ops| ==> ops[i].Direct? && ops[i].call.name in names && Has(h, ops[i].call.name)
    decreases names
  {
    if names == [] then []
    else MethodAttempts(h, file, folder, names[0]) + QueueAttempts(h, file, folder, names[1..])
  }

  /** The calls of `ops` are grouped by method, in the order of `names`. */
  predicate Grouped(names: seq<string>, ops: seq<Cascade.Op>) {
    forall i, j :: 0 <= i < j < |ops| ==> Position(names, ops[i].call.name) <= Position(names, ops[j].call.name)
  }

  /** Attempts of the first method, then attempts grouped in the order of
      the other methods, are grouped in the order of all of them. */
  lemma GroupedCons(names: seq<string>, mine: seq<Cascade.Op>, rest: seq<Cascade.Op>)
    requires Distinct(names) && names != []
    requires forall i :: 0 <= i < |mine| ==> mine[i].call.name == names[0]
    requires forall i :: 0 <= i < |rest| ==> rest[i].call.name in names[1..]
    requires Grouped(names[1..], rest)
    ensures Grouped(names, mine + rest)
  {
    var ops := mine + rest;
    forall i, j | 0 <= i < j < |ops|
      ensures Position(names, ops[i].call.name) <= Position(names, ops[j].call.name)
    {
      if i < |mine| {
        assert ops[i] == mine[i];
        assert Position(names, ops[i].call.name) == 0;
      } else {
        var i', j' := i - |mine|, j - |mine|;
        assert ops[i] == rest[i'] && ops[j] == rest[j'];
        assert Position(names[1..], rest[i'].call.name) <= Position(names[1..], rest[j'].call.name);
        PositionTail(names, rest[i'].call.name);
        PositionTail(names, rest[j'].call.name);
      }
    }
  }

  /** The attempts are grouped by method, in the order of `names`. */
  lemma {:induction false} QueueAttemptsOrdered(h: Handler, file: JsVal, folder: JsVal, names: seq<string>)
    requires Distinct(names)
    ensures Grouped(names, QueueAttempts(h, file, folder, names))
    decreases names
  {
    if names != [] {
      var mine := MethodAttempts(h, file, folder, names[0]);
      var rest := QueueAttempts(h, file, folder, names[1..]);
      assert mine + rest == QueueAttempts(h, file, folder, names);
      assert Distinct(names[1..]);
      QueueAttemptsOrdered(h, file, folder, names[1..]);
      GroupedCons(names, mine, rest);
    }
  }

  /** Every attempt of `ops` uses one of its method's argument shapes. */
  predicate Shaped(ops: seq<Cascade.Op>, file: JsVal, folder: JsVal) {
    forall i :: 0 <= i < |ops| ==> ops[i].call.args in ArgShapes(ops[i].call.name, file, folder)
  }

  /** Every enqueue attempt uses one of its method's argument shapes. */
  lemma {:induction false} QueueAttemptsShapes(h: Handler, file: JsVal, folder: JsVal, names: seq<string>)
    ensures Shaped(QueueAttempts(h, file, folder, names), file, folder)
    decreases names
  {
    if names != [] {
      var mine := MethodAttempts(h, file, folder, names[0]);
      var rest := QueueAttempts(h, file, folder, names[1..]);
      var ops := mine + rest;
      assert ops == QueueAttempts(h, file, folder, names);
      QueueAttemptsShapes(h, file, folder, names[1..]);
      forall i | 0 <= i < |ops|
        ensures ops[i].call.args in ArgShapes(ops[i].call.name, file, folder)
      {
        if i >= |mine| {
          var j := i - |mine|;
          assert ops[i] == rest[j];
          assert Shaped(rest, file, folder);
        } else {
          var shapes := ArgShapes(names[0], file, folder);
          assert Has(h, names[0]) && |mine| == |shapes|;
          assert ops[i] == mine[i] == Cascade.Direct(Call(names[0], shapes[i]));
          assert shapes[i] in shapes;
        }
      }
    }
  }

  /** Every method of `names` the handler has is tried with each of its
      argument shapes. */
  lemma {:induction false} QueueAttemptsComplete(h: Handler, file: JsVal, folder: JsVal, names: seq<string>)
    ensures var ops := QueueAttempts(h, file, folder, names);
      forall k, a :: 0 <= k < |names| && Has(h, names[k]) && a in ArgShapes(names[k], file, folder) ==>
        Cascade.Direct(Call(names[k], a)) in ops
    decreases names
  {
    if names != [] {
      var mine := MethodAttempts(h, file, folder, names[0]);
      var rest := QueueAttempts(h, file, folder, names[1..]);
      var ops := mine + rest;
      assert ops == QueueAttempts(h, file, folder, names);
      QueueAttemptsComplete(h, file, folder, names[1..]);
      forall k, a | 0 <= k < |names| && Has(h, names[k]) && a in ArgShapes(names[k], file, folder)
        ensures Cascade.Direct(Call(names[k], a)) in ops
      {
        if k > 0 {
          assert names[k] == names[1..][k - 1];
          assert Cascade.Direct(Call(names[k], a)) in rest;
        } else {
          var shapes := ArgShapes(names[0], file, folder);
          var i :| 0 <= i < |shapes| && shapes[i] == a;
          assert ops[i] == mine[i];
        }
      }
    }
  }

  /** The enqueue cascade of upload.js:19-46 into folder `folder`. */
  function EnqueueOps(h: Handler, file: JsVal, folder: JsVal): seq<Cascade.Op> {
    QueueAttempts(h, file, folder, QueueMethods)
  }

  /** A rejection the chain reports for a transaction it already holds:
      the message matches /tx already exists in cache/i, or `String(err.data)`
      contains "tx already exists" in any case. */
  predicate AlreadyInCache(e: Error) {
    || ContainsIgnoringCase(e.message, "tx already exists in cache")
    || (Truthy(e.data) && Contains(Lower(ToStr(e.data)), "tx already exists"))
  }

  /** /account sequence mismatch|incorrect account sequence|code 32/i */
  predicate SequenceMismatch(message: string) {
    || ContainsIgnoringCase(message, "account sequence mismatch")
    || ContainsIgnoringCase(message, "incorrect account sequence")
    || ContainsIgnoringCase(message, "code 32")
  }

  /** `txRes.code === 0 || txRes.code === '0'` */
  predicate CodeZero(tx: JsVal) {
    var code := Get(tx, "code");
    code == Num(0) || code == Str("0")
  }

  /** A processing result that reports an event timeout although its
      transaction went through: `res.error` is set, `String(res.errorText || '')`
      mentions "event timeout" in any case, and the first truthy of
      `txResponse`, `txResult` and `tx` has code 0. */
  predicate EventTimeoutSuccess(res: JsVal) {
    && Truthy(res) && Truthy(Get(res, "error"))
    && Contains(Lower(ToStr(Or(Get(res, "errorText"), Str("")))), "event timeout")
    && var tx := Or(Or(Get(res, "txResponse"), Get(res, "txResult")), Get(res, "tx"));
       Truthy(tx) && CodeZero(tx)
  }

  /** The one call of the queue processor. */
  const ProcessQueueCall := Sent(Call(ProcessQueue, []), true)

  /** upload.js:51-95, what processing the queue under the signer lock
      promises about the calls `made` (the log having been `log` before) and
      the answer `r`. It resolves, to nothing, exactly when the first call
      resolved or was rejected for a transaction already in the cache, or
      the retry resolved; a retry rejected for any reason, the cache
      included, passes on the first call's error. A second call is
      made exactly when the first failed with a sequence mismatch and the
      handler has no `upgradeSigner` (with one, the retry path first calls
      `safeUpgradeSigner`, which upload.js never imports, and the resulting
      ReferenceError ends the retry before it starts). */
  ghost predicate QueueProcessed(h: Handler, log: seq<Sent>, made: seq<Sent>, r: Result<JsVal>) {
    && (made == [ProcessQueueCall] || made == [ProcessQueueCall, ProcessQueueCall])
    && (r.Ok? <==>
         || OutcomeOf(h, log, made, 0).Ok? || AlreadyInCache(OutcomeOf(h, log, made, 0).error)
         || (|made| == 2 && OutcomeOf(h, log, made, 1).Ok?))
    && (r.Ok? ==> r.value == Undefined)
    && (r.Err? ==> r == OutcomeOf(h, log, made, 0))
    && (|made| == 2 <==>
         var first := OutcomeOf(h, log, made, 0);
         first.Err? && !AlreadyInCache(first.error) && SequenceMismatch(first.error.message) && !Has(h, UpgradeSigner))
  }

  /** upload.js:51-95: `processQueue` under the signer lock; the lock is
      free again afterwards. */
  method ProcessQueueLocked(h: Handler, w: World) returns (r: Result<JsVal>, w': World, ghost made: seq<Sent>)
    requires !w.locked
    ensures !w'.locked && w'.log == w.log + made
    ensures QueueProcessed(h, w.log, made, r)
  {
    var held := SignerLock.Acquire(w);
    var first;
    first, w', made := Next(h, held, Call(ProcessQueue, []), w.log, []);
    r := first;
    if first.Ok? || AlreadyInCache(first.error) {
      r := Ok(Undefined);
    } else if SequenceMismatch(first.error.message) && !Has(h, UpgradeSigner) {
      var retry;
      retry, w', made := Next(h, w', Call(ProcessQueue, []), w.log, made);
      if retry.Ok? {
        r := Ok(Undefined);
      }
    }
    w' := SignerLock.Release(w');
  }

  /** upload.js:98-122, what processing all queues under the signer lock
      promises: one call, made under the lock. A value that reports an event
      timeout with a successful transaction becomes nothing, and any other
      value is the answer; a rejection for a transaction already in the
      cache becomes nothing, and any other rejection is passed on. */
  ghost predicate AllQueuesProcessed(h: Handler, log: seq<Sent>, made: seq<Sent>, r: Result<JsVal>) {
    && made == [Sent(Call(ProcessAllQueues, []), true)]
    && match OutcomeOf(h, log, made, 0)
       case Ok(v) => r == Ok(if EventTimeoutSuccess(v) then Undefined else v)
       case Err(e) => r == if AlreadyInCache(e) then Ok(Undefined) else Err(e)
  }

  /** upload.js:98-122. The signer upgrade before it goes through
      `safeUpgradeSigner`, never imported: the ReferenceError is swallowed
      and no upgrade is made. */
  method ProcessAllQueuesLocked(h: Handler, w: World) returns (r: Result<JsVal>, w': World, ghost made: seq<Sent>)
    requires !w.locked
    ensures !w'.locked && w'.log == w.log + made
    ensures AllQueuesProcessed(h, w.log, made, r)
  {
    var held := SignerLock.Acquire(w);
    var res;
    res, w', made := Next(h, held, Call(ProcessAllQueues, []), w.log, []);
    assert res == OutcomeOf(h, w.log, made, 0);
    match res {
      case Ok(v) => r := Ok(if EventTimeoutSuccess(v) then Undefined else v);
      case Err(e) => r := if AlreadyInCache(e) then Ok(Undefined) else Err(e);
    }
    w' := SignerLock.Release(w');
  }

  /** `await handler.name(); return;`: nothing on success, the rejection
      passed on. */
  function Awaited(o: Result<JsVal>): Result<JsVal> {
    if o.Ok? then Ok(Undefined) else o
  }

  /** upload.js:124-128, the processors of last resort, without the lock:
      `processPending`, else `processPendingNotifications`, each passing on
      its rejection; else `saveFolder`, whose rejection is swallowed; else
      nothing at all. Only the first of them the handler has is called. */
  ghost predicate PendingProcessed(h: Handler, log: seq<Sent>, made: seq<Sent>, r: Result<JsVal>) {
    if Has(h, ProcessPending) then
      made == [Sent(Call(ProcessPending, []), false)] && r == Awaited(OutcomeOf(h, log, made, 0))
    else if Has(h, ProcessPendingNotifications) then
      made == [Sent(Call(ProcessPendingNotifications, []), false)] && r == Awaited(OutcomeOf(h, log, made, 0))
    else if Has(h, SaveFolder) then
      made == [Sent(Call(SaveFolder, []), false)] && r == Ok(Undefined)
    else
      made == [] && r == Ok(Undefined)
  }

  method ProcessPendingLast(h: Handler, w: World) returns (r: Result<JsVal>, w': World, ghost made: seq<Sent>)
    requires !w.locked
    ensures !w'.locked && w'.log == w.log + made
    ensures PendingProcessed(h, w.log, made, r)
  {
    r, w', made := Ok(Undefined), w, [];
    var name := if Has(h, ProcessPending) then ProcessPending
      else if Has(h, ProcessPendingNotifications) then ProcessPendingNotifications
      else if Has(h, SaveFolder) then SaveFolder
      else "";
    if name != "" {
      var res;
      res, w', made := Next(h, w, Call(name, []), w.log, []);
      r := if name == SaveFolder then Ok(Undefined) else Awaited(res);
    }
  }

  /** `String(parentPath || '').replace(/^s\//, '')` */
  function CleanParent(parentPath: JsVal): string {
    Paths.StripSPrefix(ToStr(Or(parentPath, Str(""))))
  }

  /** upload.js:11-17: the directory switch, made only when the handler has
      no `queueFile` but has `loadDirectory`; its outcome is ignored. */
  function SwitchCalls(h: Handler, folder: string): seq<Sent> {
    if !Has(h, QueueFile) && Has(h, LoadDirectory) then
      [Sent(Call(LoadDirectory, [Obj([("path", Str(folder))])]), false)]
    else []
  }

  /** upload.js:7-129, what `uploadFile(handler, file, parentPath)`
      promises about a run that started on `log`. The calls are the
      directory switch, the enqueue attempts into the cleaned parent folder,
      and the processing, in this order. When no enqueue attempt resolves,
      the upload fails with "No queue method available on StorageHandler"
      and nothing is processed. Otherwise the processor is `processQueue` if
      the handler has it, else `processAllQueues`, else the processors of
      last resort. */
  ghost predicate UploadRun(h: Handler, log: seq<Sent>, file: JsVal, parentPath: JsVal,
                            switch: seq<Sent>, enqueue: seq<Sent>, process: seq<Sent>, r: Result<JsVal>)
  {
    && switch == SwitchCalls(h, CleanParent(parentPath))
    && var ops := EnqueueOps(h, file, Str(CleanParent(parentPath)));
    && |enqueue| <= |ops| && enqueue == Cascade.Trail(ops[..|enqueue|])
    && (forall i :: 0 <= i < |enqueue| - 1 ==> Cascade.ReplyAt(h, log + switch, ops, i).Err?)
    && (!Cascade.ResolvedAt(h, log + switch, ops, |enqueue|) ==>
          |enqueue| == |ops| && r == Err(Error(NoQueueError, Undefined)) && process == [])
    && (Cascade.ResolvedAt(h, log + switch, ops, |enqueue|) ==> Processed(h, log + switch + enqueue, process, r))
  }

  /** upload.js:51-128 from `log`: the first processing method the handler
      has among `processQueue`, `processAllQueues` and the pending-queue
      fallback runs, and its outcome is the upload's. */
  ghost predicate Processed(h: Handler, log: seq<Sent>, process: seq<Sent>, r: Result<JsVal>) {
    if Has(h, ProcessQueue) then QueueProcessed(h, log, process, r)
    else if Has(h, ProcessAllQueues) then AllQueuesProcessed(h, log, process, r)
    else PendingProcessed(h, log, process, r)
  }

  /** upload.js:7-129, `uploadFile(handler, file, parentPath)`. */
  method UploadFile(h: Handler, w: World, file: JsVal, parentPath: JsVal)
    returns (r: Result<JsVal>, w': World, ghost switch: seq<Sent>, ghost enqueue: seq<Sent>, ghost process: seq<Sent>)
    requires !w.locked
    ensures !w'.locked && w'.log == w.log + switch + enqueue + process
    ensures UploadRun(h, w.log, file, parentPath, switch, enqueue, process, r)
  {
    var queued, w1;
    queued, w1, switch, enqueue := Enqueue(h, w, file, parentPath);
    process := [];
    if !queued {
      return Err(Error(NoQueueError, Undefined)), w1, switch, enqueue, process;
    }
    r, w', process := Process(h, w1, w.log + switch + enqueue);
  }

  /** upload.js:11-49: the directory switch, then the enqueue attempts
      into the cleaned parent folder until one resolves (`queued`). */
  method Enqueue(h: Handler, w: World, file: JsVal, parentPath: JsVal)
    returns (queued: bool, w': World, ghost switch: seq<Sent>, ghost enqueue: seq<Sent>)
    requires !w.locked
    ensures !w'.locked && w'.log == w.log + switch + enqueue
    ensures switch == SwitchCalls(h, CleanParent(parentPath))
    ensures var ops := EnqueueOps(h, file, Str(CleanParent(parentPath)));
      && |enqueue| <= |ops| && enqueue == Cascade.Trail(ops[..|enqueue|])
      && (forall i :: 0 <= i < |enqueue| - 1 ==> Cascade.ReplyAt(h, w.log + switch, ops, i).Err?)
      && (queued <==> Cascade.ResolvedAt(h, w.log + switch, ops, |enqueue|))
      && (!queued ==> |enqueue| == |ops|)
  {
    var folder := CleanParent(parentPath);
    var w1;
    w1, switch := Switch(h, w, folder);
    var ops := EnqueueOps(h, file, Str(folder));
    queued, w', enqueue := Cascade.FirstResolving(h, w1, ops);
    assert w1.log == w.log + switch;
  }

  /** upload.js:11-17: the directory switch, whose outcome is ignored. */
  method Switch(h: Handler, w: World, folder: string) returns (w': World, ghost switch: seq<Sent>)
    requires !w.locked
    ensures !w'.locked && w'.log == w.log + switch
    ensures switch == SwitchCalls(h, folder)
  {
    w', switch := w, [];
    if !Has(h, QueueFile) && Has(h, LoadDirectory) {
      var ignored;
      ignored, w', switch := Next(h, w, Call(LoadDirectory, [Obj([("path", Str(folder))])]), w.log, []);
    }
  }

  /** upload.js:51-128: the queue is processed by the first method the
      handler has. */
  method Process(h: Handler, w: World, ghost log: seq<Sent>) returns (r: Result<JsVal>, w': World, ghost process: seq<Sent>)
    requires !w.locked && w.log == log
    ensures !w'.locked && w'.log == log + process
    ensures Processed(h, log, process, r)
  {
    if Has(h, ProcessQueue) {
      r, w', process := ProcessQueueLocked(h, w);
    } else if Has(h, ProcessAllQueues) {
      r, w', process := ProcessAllQueuesLocked(h, w);
    } else {
      r, w', process := ProcessPendingLast(h, w);
    }
  }
}
