/** src/lib/jackalActions.js: the older copy of the adapter that the vault
    page imports. Its folder read differs from read.js only in the storage
    root rule; its upload, delete and rename have cascades of their own. No
    function here touches the signer lock (the module has none), so the lock
    is clear whenever they run, and every call they make is direct. */
module Actions {
  import opened Js
  import opened Sdk
  import Paths
  import Cascade
  import Listing
  import Upload
  import Rename

  const MissingDeleteArgs := "Missing handler or path for delete"
  const DeleteNotSupported := "Delete not supported by StorageHandler (tried standard and fallback methods)"
  const QueueDelete := "queueDelete"
  const DeleteTargets := "deleteTargets"

  // ---------------------------------------------------------------------
  // loadDirectoryContents (jackalActions.js:16-120)

  /** jackalActions.js:16-120. The same reading and normalisation as
      read.js, except that the storage root is stripped by the strict rule:
      `s` goes only as a whole first segment. */
  method LoadDirectoryContents(handler: Option<Handler>, w: World, path: JsVal, ownerCandidates: seq<JsVal>)
    returns (r: Result<seq<JsVal>>, w': World)
    requires !w.locked
    ensures handler.None? ==> r == Err(ReadOfNullish(Null, Listing.ReadDirectory)) && w' == w
    ensures handler.Some? ==>
      var (raw, after) := Listing.ReadSpec(handler.value, w, Paths.StripRootStrict(Listing.LookupPath(path)), ownerCandidates);
      r == Listing.Shape(raw) && w' == after
    ensures handler.Some? ==> Extends(w, w')
    ensures handler.Some? ==>
      forall s :: s in Made(w, w') ==>
        Listing.DiscoveryCall(s) || Listing.ReadCall(s, Paths.StripRootStrict(Listing.LookupPath(path)))
    ensures handler.Some? && |ownerCandidates| > 0 ==>
      forall s :: s in Made(w, w') ==> Listing.ReadCall(s, Paths.StripRootStrict(Listing.LookupPath(path)))
  {
    if handler.None? {
      return Err(ReadOfNullish(Null, Listing.ReadDirectory)), w;
    }
    var lookupPath := Paths.StripRootStrict(Listing.LookupPath(path));
    var answer;
    answer, w' := Listing.ReadRaw(handler.value, w, lookupPath, ownerCandidates);
    r := Listing.Shape(answer);
  }

  // ---------------------------------------------------------------------
  // uploadFile (jackalActions.js:158-246)

  const UpgradeCall := Sent(Call(Upload.UpgradeSigner, []), false)
  const ProcessCall := Sent(Call(Upload.ProcessQueue, []), false)

  /** The signer upgrade made before processing: one direct call when the
      handler has `upgradeSigner`, none otherwise. */
  function Upgrades(h: Handler): seq<Sent> {
    if Has(h, Upload.UpgradeSigner) then [UpgradeCall] else []
  }

  /** jackalActions.js:197-223, what processing the queue promises, in four
      parts: the upgrade, the first `processQueue`, and, after a sequence
      mismatch only, a second upgrade and the retry. The first call
      resolving is success. Its rejection is passed on unless it is a
      sequence mismatch; then the upgrade is made again and, unless that
      upgrade is rejected, the queue is processed once more, which decides
      success; a failed retry passes on the first rejection. A rejection of
      the first upgrade is ignored. */
  ghost predicate QueueRetried(h: Handler, log: seq<Sent>, pre: seq<Sent>, first: seq<Sent>, again: seq<Sent>,
                               retry: seq<Sent>, r: Result<JsVal>)
  {
    && pre == Upgrades(h) && first == [ProcessCall]
    && var o1 := h.respond(log + pre, ProcessCall);
    && (o1.Ok? ==> r == Ok(Undefined) && again == [] && retry == [])
    && (o1.Err? && !Upload.SequenceMismatch(o1.error.message) ==> r == o1 && again == [] && retry == [])
    && (o1.Err? && Upload.SequenceMismatch(o1.error.message) ==>
          && again == Upgrades(h)
          && var refused := Has(h, Upload.UpgradeSigner) && h.respond(log + pre + first, UpgradeCall).Err?;
          && (refused ==> retry == [] && r == o1)
          && (!refused ==>
                && retry == [ProcessCall]
                && r == if h.respond(log + pre + first + again, ProcessCall).Ok? then Ok(Undefined) else o1))
  }

  method ProcessQueueRetrying(h: Handler, w: World)
    returns (r: Result<JsVal>, w': World, ghost pre: seq<Sent>, ghost first: seq<Sent>, ghost again: seq<Sent>,
             ghost retry: seq<Sent>)
    requires !w.locked
    ensures !w'.locked && w'.log == w.log + pre + first + again + retry
    ensures QueueRetried(h, w.log, pre, first, again, retry, r)
  {
    pre, again, retry := [], [], [];
    w' := w;
    if Has(h, Upload.UpgradeSigner) {
      var ignored;
      ignored, w', pre := Next(h, w, UpgradeCall.call, w.log, []);
    }
    var w1 := w';
    var o1;
    o1, w', first := Next(h, w1, ProcessCall.call, w1.log, []);
    r := o1;
    if o1.Ok? {
      return Ok(Undefined), w', pre, first, again, retry;
    }
    if !Upload.SequenceMismatch(o1.error.message) {
      return;
    }
    var w2 := w';
    if Has(h, Upload.UpgradeSigner) {
      var up;
      up, w', again := Next(h, w2, UpgradeCall.call, w2.log, []);
      if up.Err? {
        return;
      }
    }
    var w3 := w';
    var o2;
    o2, w', retry := Next(h, w3, ProcessCall.call, w3.log, []);
    if o2.Ok? {
      r := Ok(Undefined);
    }
  }

  /** The retry is made at most once, only after a sequence mismatch, and a
      failed upload always reports the first rejection. */
  lemma RetryAtMostOnce(h: Handler, log: seq<Sent>, pre: seq<Sent>, first: seq<Sent>, again: seq<Sent>,
                        retry: seq<Sent>, r: Result<JsVal>)
    requires QueueRetried(h, log, pre, first, again, retry, r)
    ensures |retry| <= 1 && |pre| <= 1 && |again| <= 1
    ensures retry != [] ==> Upload.SequenceMismatch(h.respond(log + pre, ProcessCall).error.message)
    ensures r.Err? ==> r == h.respond(log + pre, ProcessCall)
    ensures r.Ok? ==> r.value == Undefined
    ensures r.Ok? <==>
      h.respond(log + pre, ProcessCall).Ok? || (retry != [] && h.respond(log + pre + first + again, ProcessCall).Ok?)
  {
  }

  /** jackalActions.js:225-231: the upgrade (its rejection ignored), then
      one direct `processAllQueues`, whose rejection is passed on. */
  ghost predicate AllQueuesProcessed(h: Handler, log: seq<Sent>, pre: seq<Sent>, made: seq<Sent>, r: Result<JsVal>) {
    && pre == Upgrades(h)
    && made == [Sent(Call(Upload.ProcessAllQueues, []), false)]
    && r == Upload.Awaited(h.respond(log + pre, made[0]))
  }

  method ProcessAllQueues(h: Handler, w: World) returns (r: Result<JsVal>, w': World, ghost pre: seq<Sent>, ghost made: seq<Sent>)
    requires !w.locked
    ensures !w'.locked && w'.log == w.log + pre + made
    ensures AllQueuesProcessed(h, w.log, pre, made, r)
  {
    pre := [];
    w' := w;
    if Has(h, Upload.UpgradeSigner) {
      var ignored;
      ignored, w', pre := Next(h, w, UpgradeCall.call, w.log, []);
    }
    var w1 := w';
    var res;
    res, w', made := Next(h, w1, Call(Upload.ProcessAllQueues, []), w1.log, []);
    r := Upload.Awaited(res);
  }

  /** How the queue is processed once the file is on it, from `log`:
      `processQueue` with its retry, else `processAllQueues`, else the
      processors of last resort, which upload.js shares. */
  ghost predicate Processed(h: Handler, log: seq<Sent>, process: seq<Sent>, r: Result<JsVal>) {
    if Has(h, Upload.ProcessQueue) then
      exists pre, first, again, retry :: process == pre + first + again + retry && QueueRetried(h, log, pre, first, again, retry, r)
    else if Has(h, Upload.ProcessAllQueues) then
      exists pre, made :: process == pre + made && AllQueuesProcessed(h, log, pre, made, r)
    else Upload.PendingProcessed(h, log, process, r)
  }

  method ProcessUploads(h: Handler, w: World) returns (r: Result<JsVal>, w': World, ghost process: seq<Sent>)
    requires !w.locked
    ensures !w'.locked && w'.log == w.log + process
    ensures Processed(h, w.log, process, r)
  {
    if Has(h, Upload.ProcessQueue) {
      ghost var pre, first, again, retry;
      r, w', pre, first, again, retry := ProcessQueueRetrying(h, w);
      process := pre + first + again + retry;
      Regroup3(w.log + pre, first, again, retry);
      assert w.log + pre + (first + again + retry) == w.log + process;
    } else if Has(h, Upload.ProcessAllQueues) {
      ghost var pre, made;
      r, w', pre, made := ProcessAllQueues(h, w);
      process := pre + made;
    } else {
      r, w', process := Upload.ProcessPendingLast(h, w);
    }
  }

  /** jackalActions.js:158-246, what `uploadFile(handler, file, parentPath)`
      promises for a present handler about a run that started on `log`. The
      enqueue cascade of upload.js into `parentPath` as given (no root strip
      and no directory switch); when no attempt resolves, "No queue method
      available on StorageHandler" and nothing is processed; otherwise the
      queue is processed as `Processed` says. */
  ghost predicate UploadRun(h: Handler, log: seq<Sent>, file: JsVal, parentPath: JsVal,
                            enqueue: seq<Sent>, process: seq<Sent>, r: Result<JsVal>)
  {
    var ops := Upload.EnqueueOps(h, file, parentPath);
    && |enqueue| <= |ops| && enqueue == Cascade.Trail(ops[..|enqueue|])
    && (forall i :: 0 <= i < |enqueue| - 1 ==> Cascade.ReplyAt(h, log, ops, i).Err?)
    && (!Cascade.ResolvedAt(h, log, ops, |enqueue|) ==>
          |enqueue| == |ops| && r == Err(Error(Upload.NoQueueError, Undefined)) && process == [])
    && (Cascade.ResolvedAt(h, log, ops, |enqueue|) ==> Processed(h, log + enqueue, process, r))
  }

  /** An upload run that made the calls `made`. It is stated through
      `UploadCalls` on a sequence equal to `made`, so that only a member
      naming `UploadCalls` opens the upload's model. */
  ghost predicate Uploaded(h: Handler, log: seq<Sent>, file: JsVal, parentPath: JsVal, made: seq<Sent>, r: Result<JsVal>) {
    forall calls {:trigger UploadCalls(h, log, file, parentPath, calls, r)} ::
      calls == made ==> UploadCalls(h, log, file, parentPath, calls, r)
  }

  /** `calls` are those of one upload run from `log`. */
  ghost predicate UploadCalls(h: Handler, log: seq<Sent>, file: JsVal, parentPath: JsVal, calls: seq<Sent>, r: Result<JsVal>) {
    exists enqueue, process :: calls == enqueue + process && UploadRun(h, log, file, parentPath, enqueue, process, r)
  }

  /** jackalActions.js:158-246, `uploadFile(handler, file, parentPath)`. */
  method UploadFile(handler: Option<Handler>, w: World, file: JsVal, parentPath: JsVal)
    returns (r: Result<JsVal>, w': World, ghost enqueue: seq<Sent>, ghost process: seq<Sent>)
    requires !w.locked
    ensures !w'.locked && w'.log == w.log + enqueue + process
    ensures handler.None? ==> r == Err(ReadOfNullish(Null, Upload.QueueFile)) && enqueue == [] && process == []
    ensures handler.Some? ==> UploadRun(handler.value, w.log, file, parentPath, enqueue, process, r)
  {
    enqueue, process := [], [];
    if handler.None? {
      return Err(ReadOfNullish(Null, Upload.QueueFile)), w, enqueue, process;
    }
    var h := handler.value;
    var queued;
    queued, w', enqueue := Cascade.FirstResolving(h, w, Upload.EnqueueOps(h, file, parentPath));
    if !queued {
      return Err(Error(Upload.NoQueueError, Undefined)), w', enqueue, process;
    }
    var w1 := w';
    r, w', process := ProcessUploads(h, w1);
  }

  // ---------------------------------------------------------------------
  // deleteItem (jackalActions.js:256-326)

  const FileMethods := ["deleteFile", "deleteFiles", "removeFile", "removeFiles", "queueDelete", "delete"]
  const FolderMethods := ["deleteFolder", "deleteFolders", "removeFolder", "removeFolders", "rmdir", "delete"]

  /** `m.endsWith('s')` */
  predicate EndsWithS(m: string) {
    |m| > 0 && m[|m| - 1] == 's'
  }

  /** The argument method `m` gets: the path in a list for names ending in
      `s`, the bare path otherwise. */
  function DeleteArg(m: string, path: string): JsVal {
    if EndsWithS(m) then Arr([Str(path)]) else Str(path)
  }

  /** The calls a stretch of the cascade made, and whether it deleted. */
  datatype Tally = Tally(calls: seq<Sent>, done: bool)

  /** The attempt of method `m`, from `log`: its call; for `queueDelete`,
      once that resolved, also `processQueue` when the handler has it, which
      then decides the attempt. */
  function Attempt(h: Handler, log: seq<Sent>, path: string, m: string): (t: Tally)
    ensures 1 <= |t.calls| <= 2 && t.calls[0] == Sent(Call(m, [DeleteArg(m, path)]), false)
    ensures |t.calls| == 2 ==> m == QueueDelete && t.calls[1] == ProcessCall
  {
    var c := Sent(Call(m, [DeleteArg(m, path)]), false);
    var r := h.respond(log, c);
    if m == QueueDelete && r.Ok? && Has(h, Upload.ProcessQueue) then
      Tally([c, ProcessCall], h.respond(log + [c], ProcessCall).Ok?)
    else Tally([c], r.Ok?)
  }

  /** The method cascade over `names`, from `log`: the methods the handler
      has are attempted in order until one deletes. */
  function TryMethods(h: Handler, log: seq<Sent>, path: string, names: seq<string>): Tally
    decreases |names|
  {
    if names == [] then Tally([], false)
    else if !Has(h, names[0]) then TryMethods(h, log, path, names[1..])
    else
      var a := Attempt(h, log, path, names[0]);
      if a.done then a
      else
        var rest := TryMethods(h, log + a.calls, path, names[1..]);
        Tally(a.calls + rest.calls, rest.done)
  }

  /** `made`, then what `t` made. */
  function After(made: seq<Sent>, t: Tally): Tally {
    Tally(made + t.calls, t.done)
  }

  /** One step of the cascade: the first method is skipped when the handler
      lacks it, and otherwise attempted, ending the cascade when it deletes. */
  lemma TryMethodsStep(h: Handler, log: seq<Sent>, path: string, names: seq<string>)
    requires names != []
    ensures !Has(h, names[0]) ==> TryMethods(h, log, path, names) == TryMethods(h, log, path, names[1..])
    ensures Has(h, names[0]) ==>
      var a := Attempt(h, log, path, names[0]);
      TryMethods(h, log, path, names) ==
        if a.done then a else After(a.calls, TryMethods(h, log + a.calls, path, names[1..]))
  {
  }

  /** Two stretches of calls, one after the other. */
  lemma AfterAfter(log: seq<Sent>, made: seq<Sent>, a: seq<Sent>, t: Tally)
    ensures After(made, After(a, t)) == After(made + a, t)
    ensures log + made + a == log + (made + a)
  {
  }

  /** The attempt of method `m`, the cascade having started on `log` and
      made `made` so far. */
  method AttemptMethod(h: Handler, w: World, path: string, m: string, ghost log: seq<Sent>, ghost made: seq<Sent>)
    returns (ok: bool, w': World, ghost made': seq<Sent>)
    requires !w.locked && w.log == log + made
    ensures !w'.locked && w'.log == log + made'
    ensures var a := Attempt(h, log + made, path, m); made' == made + a.calls && ok == a.done
  {
    var r;
    r, w', made' := Next(h, w, Call(m, [DeleteArg(m, path)]), log, made);
    ok := r.Ok?;
    assert (log + made) + [Sent(Call(m, [DeleteArg(m, path)]), false)] == log + made';
    if m == QueueDelete && ok && Has(h, Upload.ProcessQueue) {
      r, w', made' := Next(h, w', ProcessCall.call, log, made');
      ok := r.Ok?;
    }
  }

  /** jackalActions.js:280-300: the loop over the method list. */
  method TryDeleteMethods(h: Handler, w: World, path: string, names: seq<string>)
    returns (deleted: bool, w': World, ghost made: seq<Sent>)
    requires !w.locked
    ensures !w'.locked && w'.log == w.log + made
    ensures Tally(made, deleted) == TryMethods(h, w.log, path, names)
  {
    deleted, w', made := false, w, [];
    var i := 0;
    while i < |names|
      invariant 0 <= i <= |names|
      invariant !w'.locked && w'.log == w.log + made
      invariant TryMethods(h, w.log, path, names) == After(made, TryMethods(h, w.log + made, path, names[i..]))
    {
      var m := names[i];
      assert names[i..][1..] == names[i + 1..];
      TryMethodsStep(h, w.log + made, path, names[i..]);
      if Has(h, m) {
        ghost var before := made;
        ghost var a := Attempt(h, w.log + before, path, m);
        var ok;
        ok, w', made := AttemptMethod(h, w', path, m, w.log, made);
        if ok {
          return true, w', made;
        }
        AfterAfter(w.log, before, a.calls, TryMethods(h, w.log + before + a.calls, path, names[i + 1..]));
      }
      i := i + 1;
    }
  }

  /** A call the method cascade over `names` may make: a method of `names`
      the handler has, with the argument `DeleteArg` gives it, or the
      `processQueue` that follows a resolved `queueDelete`. */
  predicate CascadeCall(h: Handler, path: string, names: seq<string>, c: Sent) {
    || (c.call.name in names && Has(h, c.call.name)
        && c == Sent(Call(c.call.name, [DeleteArg(c.call.name, path)]), false))
    || (c == ProcessCall && QueueDelete in names && Has(h, QueueDelete))
  }

  /** Every call of the method cascade is one `CascadeCall` allows. */
  lemma {:induction false} TryMethodsCalls(h: Handler, log: seq<Sent>, path: string, names: seq<string>)
    ensures var t := TryMethods(h, log, path, names);
      forall i :: 0 <= i < |t.calls| ==> CascadeCall(h, path, names, t.calls[i])
    decreases |names|
  {
    if names != [] {
      var t := TryMethods(h, log, path, names);
      TryMethodsStep(h, log, path, names);
      if !Has(h, names[0]) {
        TryMethodsCalls(h, log, path, names[1..]);
        forall i | 0 <= i < |t.calls| ensures CascadeCall(h, path, names, t.calls[i]) {
          assert CascadeCall(h, path, names[1..], t.calls[i]);
          assert forall x :: x in names[1..] ==> x in names;
        }
      } else {
        var a := Attempt(h, log, path, names[0]);
        if !a.done {
          var rest := TryMethods(h, log + a.calls, path, names[1..]);
          TryMethodsCalls(h, log + a.calls, path, names[1..]);
          assert t.calls == a.calls + rest.calls;
          forall i | 0 <= i < |t.calls| ensures CascadeCall(h, path, names, t.calls[i]) {
            if i < |a.calls| {
              assert t.calls[i] == a.calls[i];
            } else {
              assert t.calls[i] == rest.calls[i - |a.calls|];
              assert CascadeCall(h, path, names[1..], rest.calls[i - |a.calls|]);
              assert forall x :: x in names[1..] ==> x in names;
            }
          }
        }
      }
    }
  }

  /** When the method cascade deleted nothing, every method of `names` the
      handler has was attempted. */
  lemma {:induction false} TryMethodsTriesAll(h: Handler, log: seq<Sent>, path: string, names: seq<string>)
    ensures var t := TryMethods(h, log, path, names);
      !t.done ==> forall k :: 0 <= k < |names| && Has(h, names[k]) ==>
        Sent(Call(names[k], [DeleteArg(names[k], path)]), false) in t.calls
    decreases |names|
  {
    if names != [] {
      var t := TryMethods(h, log, path, names);
      TryMethodsStep(h, log, path, names);
      if !Has(h, names[0]) {
        TryMethodsTriesAll(h, log, path, names[1..]);
        forall k | 0 <= k < |names| && Has(h, names[k])
          ensures k > 0 && names[k] == names[1..][k - 1]
        { }
      } else {
        var a := Attempt(h, log, path, names[0]);
        if !a.done {
          var rest := TryMethods(h, log + a.calls, path, names[1..]);
          TryMethodsTriesAll(h, log + a.calls, path, names[1..]);
          assert t == Tally(a.calls + rest.calls, rest.done);
          if !rest.done {
            forall k | 0 <= k < |names| && Has(h, names[k])
              ensures Sent(Call(names[k], [DeleteArg(names[k], path)]), false) in t.calls
            {
              if k == 0 {
                assert t.calls[0] == a.calls[0];
              } else {
                assert names[k] == names[1..][k - 1];
                assert Sent(Call(names[k], [DeleteArg(names[k], path)]), false) in rest.calls;
              }
            }
          }
        }
      }
    }
  }

  /** With none of `names` on the handler, the cascade makes no call. */
  lemma {:induction false} TryMethodsNone(h: Handler, log: seq<Sent>, path: string, names: seq<string>)
    requires forall k :: 0 <= k < |names| ==> !Has(h, names[k])
    ensures TryMethods(h, log, path, names) == Tally([], false)
    decreases |names|
  {
    if names != [] {
      TryMethodsNone(h, log, path, names[1..]);
    }
  }

  /** jackalActions.js:302-323: `deleteTargets` with the path in an object,
      in a list, and bare, when the handler has it. */
  function TargetOps(h: Handler, path: string): (ops: seq<Cascade.Op>)
    ensures |ops| == if Has(h, DeleteTargets) then 3 else 0
    ensures forall i :: 0 <= i < |ops| ==> ops[i].Direct? && ops[i].call.name == DeleteTargets && |ops[i].call.args| == 1
    ensures forall i, j :: 0 <= i < j < |ops| ==> ops[i] != ops[j]
  {
    if Has(h, DeleteTargets) then
      [Cascade.Direct(Call(DeleteTargets, [Obj([("targets", Arr([Str(path)]))])])),
       Cascade.Direct(Call(DeleteTargets, [Arr([Str(path)])])),
       Cascade.Direct(Call(DeleteTargets, [Str(path)]))]
    else []
  }

  /** jackalActions.js:256-326, what `deleteItem(handler, fullPath, isDir)`
      promises for a present handler about a run that started on `log`. An
      empty path is refused before any call. Otherwise the method list of
      the item's kind is tried first; when it deletes nothing, the three
      shapes of `deleteTargets`; when those fail too, "Delete not supported
      by StorageHandler (tried standard and fallback methods)". */
  ghost predicate DeleteRun(h: Handler, log: seq<Sent>, fullPath: string, isDir: bool,
                            byMethod: seq<Sent>, byTargets: seq<Sent>, r: Result<JsVal>)
  {
    && (fullPath == "" ==> r == Err(Error(MissingDeleteArgs, Undefined)) && byMethod == [] && byTargets == [])
    && (fullPath != "" ==>
          var t := TryMethods(h, log, fullPath, if isDir then FolderMethods else FileMethods);
          var ops := TargetOps(h, fullPath);
          && byMethod == t.calls
          && (t.done ==> r == Ok(Bool(true)) && byTargets == [])
          && (!t.done ==>
                && |byTargets| <= |ops| && byTargets == Cascade.Trail(ops[..|byTargets|])
                && (forall i :: 0 <= i < |byTargets| - 1 ==> Cascade.ReplyAt(h, log + byMethod, ops, i).Err?)
                && (r.Ok? <==> Cascade.ResolvedAt(h, log + byMethod, ops, |byTargets|))
                && (r.Ok? ==> r.value == Bool(true))
                && (r.Err? ==> |byTargets| == |ops| && r.error == Error(DeleteNotSupported, Undefined))))
  }

  /** A delete run that made the calls `made`; shielded like `Uploaded`. */
  ghost predicate Deleted(h: Handler, log: seq<Sent>, fullPath: string, isDir: bool, made: seq<Sent>, r: Result<JsVal>) {
    forall calls {:trigger DeleteCalls(h, log, fullPath, isDir, calls, r)} ::
      calls == made ==> DeleteCalls(h, log, fullPath, isDir, calls, r)
  }

  /** `calls` are those of one delete run from `log`. */
  ghost predicate DeleteCalls(h: Handler, log: seq<Sent>, fullPath: string, isDir: bool, calls: seq<Sent>, r: Result<JsVal>) {
    exists byMethod, byTargets :: calls == byMethod + byTargets && DeleteRun(h, log, fullPath, isDir, byMethod, byTargets, r)
  }

  /** jackalActions.js:256-326, `deleteItem(handler, fullPath, isDir)`. */
  method DeleteItem(handler: Option<Handler>, w: World, fullPath: string, isDir: bool)
    returns (r: Result<JsVal>, w': World, ghost byMethod: seq<Sent>, ghost byTargets: seq<Sent>)
    requires !w.locked
    ensures !w'.locked && w'.log == w.log + byMethod + byTargets
    ensures handler.None? ==>
      r == Err(Error(MissingDeleteArgs, Undefined)) && byMethod == [] && byTargets == []
    ensures handler.Some? ==> DeleteRun(handler.value, w.log, fullPath, isDir, byMethod, byTargets, r)
  {
    byMethod, byTargets := [], [];
    if handler.None? || fullPath == "" {
      return Err(Error(MissingDeleteArgs, Undefined)), w, byMethod, byTargets;
    }
    var h := handler.value;
    var deleted;
    deleted, w', byMethod := TryDeleteMethods(h, w, fullPath, if isDir then FolderMethods else FileMethods);
    if deleted {
      return Ok(Bool(true)), w', byMethod, byTargets;
    }
    var w1 := w';
    var viaTargets;
    viaTargets, w', byTargets := Cascade.FirstResolving(h, w1, TargetOps(h, fullPath));
    r := if viaTargets then Ok(Bool(true)) else Err(Error(DeleteNotSupported, Undefined));
  }

  // ---------------------------------------------------------------------
  // renameItem (jackalActions.js:335-523)

  const RenameNotSupported := "Rename/Move not supported by StorageHandler"

  /** The upload of the copy, through this module's `uploadFile`. */
  method UploadCopy(h: Handler, w: World, file: JsVal, parentPath: JsVal) returns (r: Result<JsVal>, w': World, ghost made: seq<Sent>)
    requires !w.locked
    ensures !w'.locked && w'.log == w.log + made
    ensures Uploaded(h, w.log, file, parentPath, made, r)
  {
    ghost var enqueue, process;
    r, w', enqueue, process := UploadFile(Some(h), w, file, parentPath);
    made := enqueue + process;
    Regroup2(w.log, enqueue, process);
    assert UploadRun(h, w.log, file, parentPath, enqueue, process, r);
    assert UploadCalls(h, w.log, file, parentPath, made, r);
  }

  /** The deletion of the original, through this module's `deleteItem`. */
  method DeleteOriginal(h: Handler, w: World, path: string, isDir: bool) returns (r: Result<JsVal>, w': World, ghost made: seq<Sent>)
    requires !w.locked
    ensures !w'.locked && w'.log == w.log + made
    ensures Deleted(h, w.log, path, isDir, made, r)
  {
    ghost var byMethod, byTargets;
    r, w', byMethod, byTargets := DeleteItem(Some(h), w, path, isDir);
    made := byMethod + byTargets;
    Regroup2(w.log, byMethod, byTargets);
    assert DeleteRun(h, w.log, path, isDir, byMethod, byTargets, r);
    assert DeleteCalls(h, w.log, path, isDir, made, r);
  }

  /** The copy strategy from `log`: without `downloadFile` nothing is done;
      otherwise the item at `source` is fetched, and a fetched item is
      uploaded as a file named after the last segment of `target` into the
      folder before it (`uploaded`); only after an upload that went through
      is the original deleted (`deleted`), and `done` is that deletion's
      success. */
  ghost predicate CopyRun(h: Handler, log: seq<Sent>, source: string, target: string, isDir: bool,
                          fetch: seq<Sent>, upload: seq<Sent>, delete: seq<Sent>,
                          uploaded: Result<JsVal>, deleted: Result<JsVal>, done: bool)
  {
    if !Has(h, Rename.DownloadFile) then !done && fetch == [] && upload == [] && delete == []
    else
      && fetch == [Sent(Call(Rename.DownloadFile, [Str(source)]), false)]
      && var blob := h.respond(log, fetch[0]);
      && (blob.Err? ==> !done && upload == [] && delete == [])
      && (blob.Ok? ==>
            && Uploaded(h, log + fetch, Rename.FileOf(blob.value, Paths.LastSegment(target)), Str(Paths.ParentOf(target)), upload, uploaded)
            && (uploaded.Err? ==> !done && delete == [])
            && (uploaded.Ok? ==> Deleted(h, log + fetch + upload, source, isDir, delete, deleted) && (done <==> deleted.Ok?)))
  }

  /** A run of the copy strategy that made the calls `made`. */
  ghost predicate Copied(h: Handler, log: seq<Sent>, source: string, target: string, isDir: bool, made: seq<Sent>, done: bool) {
    exists fetch, upload, delete, uploaded, deleted :: made == fetch + upload + delete &&
      CopyRun(h, log, source, target, isDir, fetch, upload, delete, uploaded, deleted, done)
  }

  /** jackalActions.js:382-399 and 505-519: with a `downloadFile` method, the
      item at `source` is downloaded, uploaded again as a file named after
      the last segment of `target` into the folder before it, and deleted;
      `done` says all three went through. Any failure ends the strategy. */
  method CopyThenDelete(h: Handler, w: World, source: string, target: string, isDir: bool)
    returns (done: bool, w': World, ghost fetch: seq<Sent>, ghost upload: seq<Sent>, ghost delete: seq<Sent>,
             ghost uploaded: Result<JsVal>, ghost deleted: Result<JsVal>)
    requires !w.locked
    ensures !w'.locked && w'.log == w.log + fetch + upload + delete
    ensures !Has(h, Rename.DownloadFile) ==> !done && fetch == [] && upload == [] && delete == []
    ensures Has(h, Rename.DownloadFile) ==> fetch == [Sent(Call(Rename.DownloadFile, [Str(source)]), false)]
    ensures Has(h, Rename.DownloadFile) && h.respond(w.log, fetch[0]).Err? ==> !done && upload == [] && delete == []
    ensures upload != [] || delete != [] ==> Has(h, Rename.DownloadFile) && h.respond(w.log, fetch[0]).Ok?
    ensures uploaded.Err? ==> delete == []
    ensures done <==> Has(h, Rename.DownloadFile) && h.respond(w.log, fetch[0]).Ok? && uploaded.Ok? && deleted.Ok?
    ensures CopyRun(h, w.log, source, target, isDir, fetch, upload, delete, uploaded, deleted, done)
  {
    fetch, upload, delete, uploaded, deleted := [], [], [], Err(Error("", Undefined)), Err(Error("", Undefined));
    done, w' := false, w;
    if !Has(h, Rename.DownloadFile) {
      return;
    }
    var blob;
    blob, w', fetch := Next(h, w, Call(Rename.DownloadFile, [Str(source)]), w.log, []);
    if blob.Err? {
      return;
    }
    var file := Rename.FileOf(blob.value, Paths.LastSegment(target));
    var w1 := w';
    var up;
    up, w', upload := UploadCopy(h, w1, file, Str(Paths.ParentOf(target)));
    uploaded := up;
    if up.Err? {
      return;
    }
    var w2 := w';
    var del;
    del, w', delete := DeleteOriginal(h, w2, source, isDir);
    deleted := del;
    done := del.Ok?;
  }

  /** `CopyThenDelete` seen from the fallbacks: the calls it made, as one
      run of the copy strategy. */
  method Copy(h: Handler, w: World, ghost log: seq<Sent>, source: string, target: string, isDir: bool)
    returns (done: bool, w': World, ghost made: seq<Sent>)
    requires !w.locked && w.log == log
    ensures !w'.locked && w'.log == log + made
    ensures Copied(h, log, source, target, isDir, made, done)
    ensures made != [] ==> Has(h, Rename.DownloadFile) && made[0] == Sent(Call(Rename.DownloadFile, [Str(source)]), false)
  {
    ghost var fetch, upload, delete, uploaded, deleted;
    done, w', fetch, upload, delete, uploaded, deleted := CopyThenDelete(h, w, source, target, isDir);
    made := fetch + upload + delete;
    Regroup3(w.log, fetch, upload, delete);
    assert CopyRun(h, w.log, source, target, isDir, fetch, upload, delete, uploaded, deleted, done);
  }

  /** The object `moveRenameResource` receives: `{ targets: [target] }`. */
  function MoveRequest(target: JsVal): JsVal {
    Obj([("targets", Arr([target]))])
  }

  /** jackalActions.js:462-479, the move target assembled from what the
      lookups found, as rename.js assembles it. */
  function LegacyTarget(isDir: bool, target: string, fileMeta: JsVal, folderMeta: JsVal, location: JsVal, raw: JsVal): JsVal {
    Rename.MoveTarget(Paths.LastSegment(target), Rename.MoveRef(fileMeta, folderMeta, raw), location,
                      Rename.MoveField(isDir, fileMeta, folderMeta, raw))
  }

  /** jackalActions.js:402-502. The same lookups as rename.js; then the
      target is checked and, only when it carries the field its kind needs,
      `moveRenameResource` is called directly, which decides the strategy. */
  method MoveByResource(h: Handler, w: World, oldPath: string, target: string, isDir: bool, raw: JsVal)
    returns (moved: bool, w': World, ghost lookups: seq<Sent>, ghost located: seq<Sent>, ghost sent: seq<Sent>,
             ghost fileMeta: JsVal, ghost folderMeta: JsVal, ghost location: JsVal)
    requires !w.locked
    ensures !w'.locked && w'.log == w.log + lookups + located + sent
    ensures Rename.ItemMetaResolved(h, w.log, oldPath, isDir, raw, lookups, fileMeta, folderMeta)
    ensures Rename.LocationRead(h, w.log + lookups, located, location)
    ensures var t := LegacyTarget(isDir, target, fileMeta, folderMeta, location, raw);
      && (!Rename.ValidTarget(isDir, t) ==> sent == [] && !moved)
      && (Rename.ValidTarget(isDir, t) ==>
            && sent == [Sent(Call(Rename.MoveRenameResource, [MoveRequest(t)]), false)]
            && (moved <==> h.respond(w.log + lookups + located, sent[0]).Ok?))
  {
    var file, folder, parentLocation;
    file, folder, w', lookups := Rename.LookUpItem(h, w, oldPath, isDir, raw);
    var w1 := w';
    parentLocation, w', located := Rename.ReadLocation(h, w1);
    fileMeta, folderMeta, location := file, folder, parentLocation;
    var t := LegacyTarget(isDir, target, file, folder, parentLocation, raw);
    moved, sent := false, [];
    if Rename.ValidTarget(isDir, t) {
      var w2 := w';
      var reply;
      reply, w', sent := Next(h, w2, Call(Rename.MoveRenameResource, [MoveRequest(t)]), w2.log, []);
      moved := reply.Ok?;
    }
  }

  /** jackalActions.js:402-502 from `log`: the lookups, then, for a target
      that carries the field its kind needs, the call of
      `moveRenameResource`, whose success (`moved`) ends the rename. */
  ghost predicate MoveRun(h: Handler, log: seq<Sent>, oldPath: string, target: string, isDir: bool, raw: JsVal,
                          lookups: seq<Sent>, located: seq<Sent>, sent: seq<Sent>,
                          fileMeta: JsVal, folderMeta: JsVal, location: JsVal, moved: bool)
  {
    && Rename.ItemMetaResolved(h, log, oldPath, isDir, raw, lookups, fileMeta, folderMeta)
    && Rename.LocationRead(h, log + lookups, located, location)
    && var t := LegacyTarget(isDir, target, fileMeta, folderMeta, location, raw);
    && (!Rename.ValidTarget(isDir, t) ==> sent == [] && !moved)
    && (Rename.ValidTarget(isDir, t) ==>
          && sent == [Sent(Call(Rename.MoveRenameResource, [MoveRequest(t)]), false)]
          && (moved <==> h.respond(log + lookups + located, sent[0]).Ok?))
  }

  /** A run of the move strategy that made the calls `made`. */
  ghost predicate Moved(h: Handler, log: seq<Sent>, oldPath: string, target: string, isDir: bool, raw: JsVal,
                        made: seq<Sent>, moved: bool)
  {
    exists lookups, located, sent, fileMeta, folderMeta, location :: made == lookups + located + sent &&
      MoveRun(h, log, oldPath, target, isDir, raw, lookups, located, sent, fileMeta, folderMeta, location, moved)
  }

  /** A target is sent to `moveRenameResource` only when it carries the
      field its kind needs, that is when the item's metadata or `raw` is
      truthy; its `ref` is 0 when none of the metadata, the other kind's
      metadata and `raw` has a truthy `ref`. */
  lemma LegacyTargetChecked(isDir: bool, target: string, fileMeta: JsVal, folderMeta: JsVal, location: JsVal, raw: JsVal)
    ensures var t := LegacyTarget(isDir, target, fileMeta, folderMeta, location, raw);
      && (Rename.ValidTarget(isDir, t) <==> Truthy(if isDir then folderMeta else fileMeta) || Truthy(raw))
      && Get(t, "name") == Str(Paths.LastSegment(target))
      && (Get(t, "ref") == Num(0) <==>
            !(Truthy(fileMeta) && Truthy(Get(fileMeta, "ref"))) && !(Truthy(folderMeta) && Truthy(Get(folderMeta, "ref")))
            && !(Truthy(raw) && Truthy(Get(raw, "ref"))))
  {
    Rename.ValidTargetIff(isDir, Paths.LastSegment(target), Rename.MoveRef(fileMeta, folderMeta, raw), location,
                          fileMeta, folderMeta, raw);
  }

  /** jackalActions.js:381-520 from `log`, once no move method resolved: a
      file is first copied between root-stripped paths (`earlyDone` says it
      went through, which ends the rename); then the later strategies. */
  ghost predicate FallbacksRun(h: Handler, log: seq<Sent>, oldPath: string, target: string, isDir: bool, raw: JsVal,
                               early: seq<Sent>, earlyDone: bool, byResource: seq<Sent>, late: seq<Sent>, done: bool)
  {
    && (isDir ==> early == [] && !earlyDone)
    && (!isDir ==> Copied(h, log, Paths.StripRootStrict(oldPath), Paths.StripRootStrict(target), false, early, earlyDone))
    && (earlyDone ==> done && byResource == [] && late == [])
    && (!earlyDone ==> LateRun(h, log + early, oldPath, target, isDir, raw, byResource, late, done))
  }

  /** The fallbacks after the early copy, from `log`: with
      `moveRenameResource`, the move strategy, whose success ends the
      rename; otherwise, or when it failed, the copy between the paths as
      given, whose success is the rename's. */
  ghost predicate LateRun(h: Handler, log: seq<Sent>, oldPath: string, target: string, isDir: bool, raw: JsVal,
                          byResource: seq<Sent>, late: seq<Sent>, done: bool)
  {
    && (!Has(h, Rename.MoveRenameResource) ==> byResource == [] && Copied(h, log, oldPath, target, isDir, late, done))
    && (Has(h, Rename.MoveRenameResource) ==>
          || (Moved(h, log, oldPath, target, isDir, raw, byResource, true) && done && late == [])
          || (Moved(h, log, oldPath, target, isDir, raw, byResource, false) && Copied(h, log + byResource, oldPath, target, isDir, late, done)))
  }

  /** A run of the fallbacks that made the calls `made`, stated through
      `FallbackCalls` on a sequence equal to `made` so that only a member
      naming `FallbackCalls` opens the fallbacks' model. */
  ghost predicate FellBack(h: Handler, log: seq<Sent>, oldPath: string, target: string, isDir: bool, raw: JsVal,
                           made: seq<Sent>, done: bool)
  {
    forall calls {:trigger FallbackCalls(h, log, oldPath, target, isDir, raw, calls, done)} ::
      calls == made ==> FallbackCalls(h, log, oldPath, target, isDir, raw, calls, done)
  }

  /** `calls` are those of one run of the fallbacks from `log`. */
  ghost predicate FallbackCalls(h: Handler, log: seq<Sent>, oldPath: string, target: string, isDir: bool, raw: JsVal,
                                calls: seq<Sent>, done: bool)
  {
    exists early, earlyDone, byResource, late :: calls == early + byResource + late &&
      FallbacksRun(h, log, oldPath, target, isDir, raw, early, earlyDone, byResource, late, done)
  }

  /** jackalActions.js:381-520, once no move method resolved: the early copy
      (files only, between root-stripped paths), then the later strategies,
      stopping at the first strategy that went through. */
  method Fallbacks(h: Handler, w: World, oldPath: string, target: string, isDir: bool, raw: JsVal)
    returns (done: bool, w': World, ghost early: seq<Sent>, earlyDone: bool, ghost byResource: seq<Sent>, ghost late: seq<Sent>)
    requires !w.locked
    ensures !w'.locked && w'.log == w.log + early + byResource + late
    ensures FallbacksRun(h, w.log, oldPath, target, isDir, raw, early, earlyDone, byResource, late, done)
    ensures early != [] ==>
      !isDir && Has(h, Rename.DownloadFile)
      && early[0] == Sent(Call(Rename.DownloadFile, [Str(Paths.StripRootStrict(oldPath))]), false)
    ensures byResource != [] ==> Has(h, Rename.MoveRenameResource)
    ensures late != [] ==> late[0] == Sent(Call(Rename.DownloadFile, [Str(oldPath)]), false)
  {
    early, earlyDone, byResource, late := [], false, [], [];
    w' := w;
    if !isDir {
      earlyDone, w', early := Copy(h, w, w.log, Paths.StripRootStrict(oldPath), Paths.StripRootStrict(target), false);
      done := earlyDone;
      if done {
        return;
      }
    }
    var w1 := w';
    done, w', byResource, late := LateFallbacks(h, w1, w.log + early, oldPath, target, isDir, raw);
  }

  /** jackalActions.js:402-519: the move through `moveRenameResource` (when
      the handler has it), then, unless it moved the item, the late copy. */
  method LateFallbacks(h: Handler, w: World, ghost log: seq<Sent>, oldPath: string, target: string, isDir: bool, raw: JsVal)
    returns (done: bool, w': World, ghost byResource: seq<Sent>, ghost late: seq<Sent>)
    requires !w.locked && w.log == log
    ensures !w'.locked && w'.log == log + byResource + late
    ensures LateRun(h, log, oldPath, target, isDir, raw, byResource, late, done)
    ensures byResource != [] ==> Has(h, Rename.MoveRenameResource)
    ensures late != [] ==> late[0] == Sent(Call(Rename.DownloadFile, [Str(oldPath)]), false)
  {
    var moved, w1;
    moved, w1, byResource := MoveStep(h, w, log, oldPath, target, isDir, raw);
    if moved {
      return true, w1, byResource, [];
    }
    assert !Has(h, Rename.MoveRenameResource) ==> log + byResource == log;
    done, w', late := Copy(h, w1, log + byResource, oldPath, target, isDir);
  }

  /** jackalActions.js:402-502: with `moveRenameResource`, the move
      strategy, `moved` saying it went through; without it, nothing. */
  method MoveStep(h: Handler, w: World, ghost log: seq<Sent>, oldPath: string, target: string, isDir: bool, raw: JsVal)
    returns (moved: bool, w': World, ghost byResource: seq<Sent>)
    requires !w.locked && w.log == log
    ensures !w'.locked && w'.log == log + byResource
    ensures Has(h, Rename.MoveRenameResource) ==> Moved(h, log, oldPath, target, isDir, raw, byResource, moved)
    ensures !Has(h, Rename.MoveRenameResource) ==> byResource == [] && !moved
  {
    moved, byResource := false, [];
    w' := w;
    if Has(h, Rename.MoveRenameResource) {
      ghost var lookups, located, sent, fileMeta, folderMeta, location;
      moved, w', lookups, located, sent, fileMeta, folderMeta, location := MoveByResource(h, w, oldPath, target, isDir, raw);
      byResource := lookups + located + sent;
      Regroup3(w.log, lookups, located, sent);
      assert MoveRun(h, w.log, oldPath, target, isDir, raw, lookups, located, sent, fileMeta, folderMeta, location, moved);
    }
  }

  /** The move cascade `ops` from `log` made the calls `moves`, each but the
      last rejected; the rename is over when the last one resolved, and
      otherwise every move was attempted before the fallbacks made `rest`. */
  ghost predicate MoveTrace(h: Handler, log: seq<Sent>, ops: seq<Cascade.Op>, moves: seq<Sent>, rest: seq<Sent>, r: Result<JsVal>) {
    && |moves| <= |ops| && moves == Cascade.Trail(ops[..|moves|])
    && (forall i :: 0 <= i < |moves| - 1 ==> Cascade.ReplyAt(h, log, ops, i).Err?)
    && (Cascade.ResolvedAt(h, log, ops, |moves|) ==> r == Ok(Bool(true)) && rest == [])
    && (!Cascade.ResolvedAt(h, log, ops, |moves|) ==> |moves| == |ops|)
  }

  /** jackalActions.js:335-523, what `renameItem(handler, oldFullPath,
      newFullPathOrName, isDir, raw)` promises for a present handler about a
      run that started on `log`: empty arguments are refused before any
      call; otherwise the move cascade runs, and when no move resolved the
      fallbacks decide, a failure of all of them being "Rename/Move not
      supported by StorageHandler". */
  ghost predicate RenameRun(h: Handler, log: seq<Sent>, oldPath: string, newValue: string, isDir: bool, raw: JsVal,
                            moves: seq<Sent>, rest: seq<Sent>, r: Result<JsVal>)
  {
    && (oldPath == "" || newValue == "" ==> r == Err(Error(Rename.MissingArgs, Undefined)) && moves == [] && rest == [])
    && (oldPath != "" && newValue != "" ==>
          var target := Paths.RenameTarget(oldPath, newValue);
          var ops := Rename.MoveOps(h, oldPath, target);
          && MoveTrace(h, log, ops, moves, rest, r)
          && (!Cascade.ResolvedAt(h, log, ops, |moves|) ==>
                && FellBack(h, log + moves, oldPath, target, isDir, raw, rest, r.Ok?)
                && r == (if r.Ok? then Ok(Bool(true)) else Err(Error(RenameNotSupported, Undefined)))))
  }

  /** A rename run that made the calls `made`; shielded like `Uploaded`. */
  ghost predicate Renamed(h: Handler, log: seq<Sent>, oldPath: string, newValue: string, isDir: bool, raw: JsVal,
                          made: seq<Sent>, r: Result<JsVal>)
  {
    forall calls {:trigger RenameCalls(h, log, oldPath, newValue, isDir, raw, calls, r)} ::
      calls == made ==> RenameCalls(h, log, oldPath, newValue, isDir, raw, calls, r)
  }

  /** `calls` are those of one rename run from `log`. */
  ghost predicate RenameCalls(h: Handler, log: seq<Sent>, oldPath: string, newValue: string, isDir: bool, raw: JsVal,
                              calls: seq<Sent>, r: Result<JsVal>)
  {
    exists moves, rest :: calls == moves + rest && RenameRun(h, log, oldPath, newValue, isDir, raw, moves, rest, r)
  }

  /** jackalActions.js:335-523, `renameItem(handler, oldFullPath,
      newFullPathOrName, isDir, raw)`: the move methods of rename.js in the
      same order and with the same arguments, then the fallbacks; when all
      fail, "Rename/Move not supported by StorageHandler". */
  method RenameItem(handler: Option<Handler>, w: World, oldPath: string, newValue: string, isDir: bool, raw: JsVal)
    returns (r: Result<JsVal>, w': World, ghost moves: seq<Sent>, ghost rest: seq<Sent>)
    requires !w.locked
    ensures !w'.locked && w'.log == w.log + moves + rest
    ensures handler.None? || oldPath == "" || newValue == "" ==>
      r == Err(Error(Rename.MissingArgs, Undefined)) && moves == [] && rest == []
    ensures handler.Some? ==> RenameRun(handler.value, w.log, oldPath, newValue, isDir, raw, moves, rest, r)
    ensures r.Err? && handler.Some? && oldPath != "" && newValue != "" ==> r.error == Error(RenameNotSupported, Undefined)
    ensures r.Ok? ==> r.value == Bool(true)
  {
    moves, rest := [], [];
    if handler.None? || oldPath == "" || newValue == "" {
      return Err(Error(Rename.MissingArgs, Undefined)), w, moves, rest;
    }
    var h := handler.value;
    var target := Paths.RenameTarget(oldPath, newValue);
    var ops := Rename.MoveOps(h, oldPath, target);
    var moved;
    moved, w', moves := Cascade.FirstResolving(h, w, ops);
    if moved {
      r := Ok(Bool(true));
      assert MoveTrace(h, w.log, ops, moves, rest, r);
      return;
    }
    var w1 := w';
    r, w', rest := FallBackOrFail(h, w1, w.log + moves, oldPath, target, isDir, raw);
    assert MoveTrace(h, w.log, ops, moves, rest, r);
  }

  /** jackalActions.js:381-522 once no move method resolved: the fallbacks,
      and "Rename/Move not supported by StorageHandler" when none of them
      went through. */
  method FallBackOrFail(h: Handler, w: World, ghost log: seq<Sent>, oldPath: string, target: string, isDir: bool, raw: JsVal)
    returns (r: Result<JsVal>, w': World, ghost rest: seq<Sent>)
    requires !w.locked && w.log == log
    ensures !w'.locked && w'.log == log + rest
    ensures FellBack(h, log, oldPath, target, isDir, raw, rest, r.Ok?)
    ensures r == if r.Ok? then Ok(Bool(true)) else Err(Error(RenameNotSupported, Undefined))
  {
    var done;
    ghost var early, earlyDone, byResource, late;
    done, w', early, earlyDone, byResource, late := Fallbacks(h, w, oldPath, target, isDir, raw);
    rest := early + byResource + late;
    Regroup3(log, early, byResource, late);
    assert FallbacksRun(h, log, oldPath, target, isDir, raw, early, earlyDone, byResource, late, done);
    assert FallbackCalls(h, log, oldPath, target, isDir, raw, rest, done);
    r := if done then Ok(Bool(true)) else Err(Error(RenameNotSupported, Undefined));
  }
}
