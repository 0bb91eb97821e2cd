/** src/lib/jackal/delete.js: deleting a file or folder by trying four
    strategies in turn: the standard `deleteTargets`, a content-addressed
    delete from the item's metadata, a delete by ULID, and a forced removal
    of the file-tree entry. Each strategy is specified by a function giving
    the calls it makes and its verdict, and `DeleteItem` is proved to try
    them in order, to make exactly their calls and to answer what the
    verdicts decide. */
module Delete {
  import opened Js
  import opened Sdk
  import Paths
  import SignerLock

  const MissingArgs := "Missing handler or path for delete"
  const LoadDirectory := "loadDirectory"
  const ListChildFiles := "listChildFiles"
  const DeleteTargets := "deleteTargets"
  const DeleteFile := "deleteFile"
  const GetJackalAddress := "jackalClient.getJackalAddress"
  const QueueDelete := "queueDelete"
  const ProcessQueue := "processQueue"
  const UlidLookup := "reader.ulidLookup"
  const FindRefIndex := "reader.findRefIndex"
  /** The SDK's static `NullMetaHandler.create`, always present. */
  const MetaCreate := "NullMetaHandler.create"
  const TreeDeleteMsgs := "filetreeDeleteToMsgs"
  const Broadcast := "jackalClient.broadcastAndMonitorMsgs"

  /** How a strategy ends: the item is deleted, the error is rethrown, or
      the next strategy is tried. */
  datatype Verdict = Deleted | Abort(error: Error) | FallThrough

  /** The calls a strategy makes and its verdict. */
  datatype Attempt = Attempt(calls: seq<Sent>, verdict: Verdict)


  /** The error thrown when every strategy is exhausted. */
  function FailedToDelete(fileName: string): Error {
    Error("Failed to delete \"" + fileName + "\". The file might not exist on the chain or is corrupted.", Undefined)
  }

  /** The final error names the file. */
  lemma FailedToDeleteNamesFile(fileName: string)
    ensures Contains(FailedToDelete(fileName).message, fileName)
  {
    var m := FailedToDelete(fileName).message;
    var front := "Failed to delete \"";
    assert |front| == 18;
    assert m == front + fileName + "\". The file might not exist on the chain or is corrupted.";
    assert m[18..18 + |fileName|] == fileName;
    assert OccursAt(m, fileName, 18);
    ContainsAt(m, fileName);
  }

  /** `String(fullPath || '').replace(/^s\//, '')` */
  function CleanPath(fullPath: JsVal): string {
    Paths.StripSPrefix(ToStr(Or(fullPath, Str(""))))
  }

  /** delete.js:17-34: the directory switch to the parent (or "Home"), then
      the listing of the current folder, each made only when the handler has
      the method. Neither outcome matters to what follows. */
  function PrepCalls(h: Handler, parentPath: string): seq<Sent> {
    var target := if parentPath == "" then "Home" else parentPath;
    (if Has(h, LoadDirectory) then [Sent(Call(LoadDirectory, [Obj([("path", Str(target))])]), false)] else [])
    + (if Has(h, ListChildFiles) then [Sent(Call(ListChildFiles, []), false)] else [])
  }

  method Prepare(h: Handler, w: World, parentPath: string) returns (w': World)
    requires !w.locked
    ensures !w'.locked && w'.log == w.log + PrepCalls(h, parentPath)
  {
    w' := w;
    if Has(h, LoadDirectory) {
      w' := Send(w', Call(LoadDirectory, [Obj([("path", Str(if parentPath == "" then "Home" else parentPath))])]));
    }
    if Has(h, ListChildFiles) {
      w' := Send(w', Call(ListChildFiles, []));
    }
  }

  // ---------------------------------------------------------------------
  // Strategy 1: deleteTargets

  /** The errors that let the cascade go on: the message contains
      "invalid request" or "code 18" (case-sensitive). */
  predicate Tolerated(e: Error) {
    Contains(e.message, "invalid request") || Contains(e.message, "code 18")
  }

  function TargetsCall(fileName: string): Call {
    Call(DeleteTargets, [Obj([("targets", Arr([Str(fileName)]))])])
  }

  /** delete.js:36-48. `deleteTargets({targets: [fileName]})` under the
      signer lock, when the handler has it: resolved means deleted, a
      tolerated error moves on, and any other error is rethrown. */
  function ByTargets(h: Handler, log: seq<Sent>, fileName: string): (t: Attempt)
    ensures t.verdict.Abort? ==>
      !Tolerated(t.verdict.error) && t.calls == [Sent(TargetsCall(fileName), true)] && h.respond(log, t.calls[0]) == Err(t.verdict.error)
    ensures t.verdict.Deleted? ==> t.calls == [Sent(TargetsCall(fileName), true)] && h.respond(log, t.calls[0]).Ok?
    ensures t.calls == [] <==> !Has(h, DeleteTargets)
    ensures t.calls != [] && h.respond(log, t.calls[0]).Err? ==>
      (t.verdict.FallThrough? <==> Tolerated(h.respond(log, t.calls[0]).error))
  {
    if !Has(h, DeleteTargets) then Attempt([], FallThrough)
    else
      var c := Sent(TargetsCall(fileName), true);
      var o := h.respond(log, c);
      Attempt([c], if o.Ok? then Deleted else if Tolerated(o.error) then FallThrough else Abort(o.error))
  }

  method TryTargets(h: Handler, w: World, fileName: string) returns (v: Verdict, w': World)
    requires !w.locked
    ensures !w'.locked && w'.log == w.log + ByTargets(h, w.log, fileName).calls
    ensures v == ByTargets(h, w.log, fileName).verdict
  {
    if !Has(h, DeleteTargets) {
      return FallThrough, w;
    }
    var s;
    s, w' := SignerLock.WithSignerLock(h, w, TargetsCall(fileName));
    match s {
      case Resolved(_) => v := Deleted;
      case Rejected(e) => v := if Tolerated(e) then FallThrough else Abort(e);
      case Waiting => assert false;
    }
  }

  // ---------------------------------------------------------------------
  // Strategy 2: the content-addressed delete

  /** `fileMeta.merkleRoot || fileMeta.merkle` */
  function MerkleOf(fileMeta: JsVal): JsVal {
    Or(Get(fileMeta, "merkleRoot"), Get(fileMeta, "merkle"))
  }

  /** `fileMeta.start !== undefined ? fileMeta.start : 0` */
  function StartOf(fileMeta: JsVal): (s: JsVal)
    ensures Get(fileMeta, "start") == Undefined ==> s == Num(0)
    ensures Get(fileMeta, "start") != Undefined ==> s == Get(fileMeta, "start")
  {
    if Get(fileMeta, "start") != Undefined then Get(fileMeta, "start") else Num(0)
  }

  function CreatorCalls(h: Handler): seq<Sent> {
    if Has(h, GetJackalAddress) then [Sent(Call(GetJackalAddress, []), false)] else []
  }

  /** delete.js:58-65: the creator is the Jackal client's address when the
      getter exists (null when it rejects), else the client's details'
      address when the client has details, else null. */
  function Creator(h: Handler, log: seq<Sent>): JsVal {
    if Has(h, GetJackalAddress) then
      var o := h.respond(log, Sent(Call(GetJackalAddress, []), false));
      if o.Ok? then o.value else Null
    else if Truthy(PathGet(h.props(log), ["client"])) && Truthy(PathGet(h.props(log), ["client", "details"])) then
      PathGet(h.props(log), ["client", "details", "address"])
    else Null
  }

  /** `{ creator, merkle, start }` */
  function DeletePackage(creator: JsVal, merkle: JsVal, start: JsVal): JsVal {
    Obj([("creator", creator), ("merkle", merkle), ("start", start)])
  }

  /** delete.js:50-78. Only for a file (not a folder) whose `raw` has
      `fileMeta`: the creator is looked up, and `deleteFile` is called under
      the lock with the package only when the creator and the merkle value
      are truthy. Whatever fails, the cascade goes on. */
  function ByMerkle(h: Handler, log: seq<Sent>, isDir: bool, raw: JsVal): (t: Attempt)
    ensures !t.verdict.Abort?
    ensures t.calls != [] ==> !isDir && Truthy(raw) && Truthy(Get(raw, "fileMeta"))
    ensures t.verdict.Deleted? ==>
      var fm := Get(raw, "fileMeta");
      && Truthy(Creator(h, log)) && Truthy(MerkleOf(fm))
      && t.calls == CreatorCalls(h) + [Sent(Call(DeleteFile, [DeletePackage(Creator(h, log), MerkleOf(fm), StartOf(fm))]), true)]
  {
    var fm := Get(raw, "fileMeta");
    if isDir || !Truthy(raw) || !Truthy(fm) then Attempt([], FallThrough)
    else
      var asked := CreatorCalls(h);
      var creator := Creator(h, log);
      if Truthy(creator) && Truthy(MerkleOf(fm)) && Has(h, DeleteFile) then
        var del := Sent(Call(DeleteFile, [DeletePackage(creator, MerkleOf(fm), StartOf(fm))]), true);
        Attempt(asked + [del], if h.respond(log + asked, del).Ok? then Deleted else FallThrough)
      else Attempt(asked, FallThrough)
  }

  method TryMerkle(h: Handler, w: World, isDir: bool, raw: JsVal) returns (v: Verdict, w': World)
    requires !w.locked
    ensures !w'.locked && w'.log == w.log + ByMerkle(h, w.log, isDir, raw).calls
    ensures v == ByMerkle(h, w.log, isDir, raw).verdict
  {
    var fm := Get(raw, "fileMeta");
    v, w' := FallThrough, w;
    if isDir || !Truthy(raw) || !Truthy(fm) {
      return;
    }
    var creator: JsVal := Null;
    if Has(h, GetJackalAddress) {
      var o := Reply(h, w, Call(GetJackalAddress, []));
      w' := Send(w, Call(GetJackalAddress, []));
      if o.Ok? {
        creator := o.value;
      }
    } else if Truthy(Prop(h, w, ["client"])) && Truthy(Prop(h, w, ["client", "details"])) {
      creator := Prop(h, w, ["client", "details", "address"]);
    }
    assert w'.log == w.log + CreatorCalls(h) && creator == Creator(h, w.log);
    if Truthy(creator) && Truthy(MerkleOf(fm)) && Has(h, DeleteFile) {
      var s;
      s, w' := SignerLock.WithSignerLock(h, w', Call(DeleteFile, [DeletePackage(creator, MerkleOf(fm), StartOf(fm))]));
      v := if s.Resolved? then Deleted else FallThrough;
    }
  }

  // ---------------------------------------------------------------------
  // Strategy 3: delete by ULID

  /** `raw.ulid || raw.fileMeta?.ulid` */
  function UlidOf(raw: JsVal): JsVal {
    Or(Get(raw, "ulid"), Get(Get(raw, "fileMeta"), "ulid"))
  }

  /** delete.js:80-94. With a truthy ULID and a `queueDelete` method: the
      ULID is queued for deletion under the lock, then the queue is processed
      under the lock when the handler can; deleted when both resolve, the
      next strategy otherwise. */
  function ByUlid(h: Handler, log: seq<Sent>, raw: JsVal): (t: Attempt)
    ensures !t.verdict.Abort?
    ensures t.calls != [] ==> Truthy(raw) && Truthy(UlidOf(raw)) && t.calls[0] == Sent(Call(QueueDelete, [UlidOf(raw)]), true)
    ensures t.calls != [] <==> Truthy(raw) && Truthy(UlidOf(raw)) && Has(h, QueueDelete)
    ensures |t.calls| <= 2
    ensures |t.calls| == 2 <==> t.calls != [] && OutcomeOf(h, log, t.calls, 0).Ok? && Has(h, ProcessQueue)
    ensures |t.calls| == 2 ==> t.calls[1] == Sent(Call(ProcessQueue, []), true)
    ensures t.verdict.Deleted? <==>
      t.calls != [] && OutcomeOf(h, log, t.calls, 0).Ok? && (Has(h, ProcessQueue) ==> OutcomeOf(h, log, t.calls, 1).Ok?)
  {
    if !Truthy(raw) || !Truthy(UlidOf(raw)) || !Has(h, QueueDelete) then Attempt([], FallThrough)
    else
      var queued := Sent(Call(QueueDelete, [UlidOf(raw)]), true);
      assert log + [queued][..0] == log;
      if h.respond(log, queued).Err? then Attempt([queued], FallThrough)
      else if !Has(h, ProcessQueue) then Attempt([queued], Deleted)
      else
        var process := Sent(Call(ProcessQueue, []), true);
        assert log + [queued, process][..0] == log && log + [queued, process][..1] == log + [queued];
        Attempt([queued, process], if h.respond(log + [queued], process).Ok? then Deleted else FallThrough)
  }

  method TryUlid(h: Handler, w: World, raw: JsVal) returns (v: Verdict, w': World)
    requires !w.locked
    ensures !w'.locked && w'.log == w.log + ByUlid(h, w.log, raw).calls
    ensures v == ByUlid(h, w.log, raw).verdict
  {
    v, w' := FallThrough, w;
    if !Truthy(raw) || !Truthy(UlidOf(raw)) || !Has(h, QueueDelete) {
      return;
    }
    var s;
    s, w' := SignerLock.WithSignerLock(h, w, Call(QueueDelete, [UlidOf(raw)]));
    if !s.Resolved? {
      return;
    }
    v := Deleted;
    if Has(h, ProcessQueue) {
      var w1 := w';
      s, w' := SignerLock.WithSignerLock(h, w1, Call(ProcessQueue, []));
      assert w1.log == w.log + [Sent(Call(QueueDelete, [UlidOf(raw)]), true)];
      v := if s.Resolved? then Deleted else FallThrough;
    }
  }

  // ---------------------------------------------------------------------
  // Strategy 4: forced removal of the file-tree entry

  /** `{ location: parentUlid, refIndex: ref, ulid }` */
  function MetaRequest(parentUlid: JsVal, ref: JsVal, ulid: JsVal): JsVal {
    Obj([("location", parentUlid), ("refIndex", ref), ("ulid", ulid)])
  }

  /** The AES bundle drawn from `random`: key bytes 0-31, iv bytes 32-47. */
  function AesValue(random: nat -> bv8): JsVal {
    SignerLock.BundleValue(seq(32, i requires 0 <= i => random(i)), seq(16, i requires 0 <= i => random(32 + i)))
  }

  /** delete.js:112-127, once the lookups succeeded: the null metadata is
      created, the deletion messages are built with it and the AES bundle,
      and only a non-empty message list is broadcast, under the lock. */
  function Publish(h: Handler, log: seq<Sent>, request: JsVal, aes: JsVal): (t: Attempt)
    ensures !t.verdict.Abort? && 1 <= |t.calls| <= 3
    ensures t.calls[0] == Sent(Call(MetaCreate, [request]), false)
    ensures |t.calls| == 3 ==>
      t.calls[2].call.name == Broadcast && t.calls[2].underLock && |t.calls[2].call.args| == 1 && NonEmpty(t.calls[2].call.args[0])
    ensures t.verdict.Deleted? ==> |t.calls| == 3 && h.respond(log + t.calls[..2], t.calls[2]).Ok?
  {
    var create := Sent(Call(MetaCreate, [request]), false);
    var meta := h.respond(log, create);
    if meta.Err? || !Has(h, TreeDeleteMsgs) then Attempt([create], FallThrough)
    else
      var build := Sent(Call(TreeDeleteMsgs, [Obj([("meta", meta.value), ("aes", aes)])]), false);
      var msgs := h.respond(log + [create], build);
      if msgs.Err? || !Truthy(msgs.value) || !NonEmpty(msgs.value) || !Has(h, Broadcast) then Attempt([create, build], FallThrough)
      else
        var send := Sent(Call(Broadcast, [msgs.value]), true);
        assert [create, build] + [send] == [create, build, send];
        Attempt([create, build, send], if h.respond(log + [create, build], send).Ok? then Deleted else FallThrough)
  }

  /** delete.js:96-132. With the reader's `ulidLookup` and `findRefIndex`:
      the item's ULID, its reference index and the parent's ULID are looked
      up (a throw ends the strategy), and the entry is published only when
      both ULIDs are truthy and the reference is defined. Nothing is ever
      rethrown. */
  function ByFileTree(h: Handler, log: seq<Sent>, cleanPath: string, parentPath: string, aes: JsVal): (t: Attempt)
    ensures !t.verdict.Abort? && |t.calls| <= 6
    ensures t.calls != [] ==>
      Has(h, UlidLookup) && Has(h, FindRefIndex) && t.calls[0] == Sent(Call(UlidLookup, [Str(cleanPath)]), false)
    ensures t.verdict.Deleted? ==>
      |t.calls| == 6 && t.calls[5].call.name == Broadcast && |t.calls[5].call.args| == 1 && NonEmpty(t.calls[5].call.args[0])
    ensures |t.calls| >= 3 ==>
      t.calls[1] == Sent(Call(FindRefIndex, [Str(cleanPath)]), false) && t.calls[2] == Sent(Call(UlidLookup, [Str(parentPath)]), false)
    ensures |t.calls| > 3 <==>
      && |t.calls| >= 3
      && OutcomeOf(h, log, t.calls, 0).Ok? && OutcomeOf(h, log, t.calls, 1).Ok? && OutcomeOf(h, log, t.calls, 2).Ok?
      && Truthy(OutcomeOf(h, log, t.calls, 0).value) && Truthy(OutcomeOf(h, log, t.calls, 2).value)
      && OutcomeOf(h, log, t.calls, 1).value != Undefined
    ensures |t.calls| > 3 ==>
      t.calls[3] == Sent(Call(MetaCreate, [MetaRequest(OutcomeOf(h, log, t.calls, 2).value, OutcomeOf(h, log, t.calls, 1).value,
                                                       OutcomeOf(h, log, t.calls, 0).value)]), false)
  {
    if !Has(h, UlidLookup) || !Has(h, FindRefIndex) then Attempt([], FallThrough)
    else
      var c0 := Sent(Call(UlidLookup, [Str(cleanPath)]), false);
      var ulid := h.respond(log, c0);
      if ulid.Err? then Attempt([c0], FallThrough)
      else
        var c1 := Sent(Call(FindRefIndex, [Str(cleanPath)]), false);
        var ref := h.respond(log + [c0], c1);
        if ref.Err? then Attempt([c0, c1], FallThrough)
        else
          var c2 := Sent(Call(UlidLookup, [Str(parentPath)]), false);
          var parentUlid := h.respond(log + [c0, c1], c2);
          assert log + [c0, c1, c2][..0] == log && log + [c0, c1, c2][..1] == log + [c0] && log + [c0, c1, c2][..2] == log + [c0, c1];
          if parentUlid.Err? || !Truthy(ulid.value) || !Truthy(parentUlid.value) || ref.value == Undefined then
            Attempt([c0, c1, c2], FallThrough)
          else
            var rest := Publish(h, log + [c0, c1, c2], MetaRequest(parentUlid.value, ref.value, ulid.value), aes);
            var calls := [c0, c1, c2] + rest.calls;
            assert calls[..3] == [c0, c1, c2] && calls[3] == rest.calls[0];
            assert log + calls[..0] == log && log + calls[..1] == log + [c0] && log + calls[..2] == log + [c0, c1];
            Attempt(calls, rest.verdict)
  }

  method TryPublish(h: Handler, w: World, request: JsVal, random: nat -> bv8) returns (v: Verdict, w': World)
    requires !w.locked
    ensures !w'.locked && w'.log == w.log + Publish(h, w.log, request, AesValue(random)).calls
    ensures v == Publish(h, w.log, request, AesValue(random)).verdict
  {
    var create := Call(MetaCreate, [request]);
    var meta := Reply(h, w, create);
    w' := Send(w, create);
    v := FallThrough;
    var key, iv := SignerLock.GenAesBundle(random);
    assert key[..] == seq(32, i requires 0 <= i => random(i)) && iv[..] == seq(16, i requires 0 <= i => random(32 + i));
    var aes := SignerLock.BundleValue(key[..], iv[..]);
    if meta.Err? || !Has(h, TreeDeleteMsgs) {
      return;
    }
    var build := Call(TreeDeleteMsgs, [Obj([("meta", meta.value), ("aes", aes)])]);
    var msgs := Reply(h, w', build);
    w' := Send(w', build);
    assert w'.log == w.log + [Sent(create, false), Sent(build, false)];
    if msgs.Err? || !Truthy(msgs.value) || !NonEmpty(msgs.value) || !Has(h, Broadcast) {
      return;
    }
    var s;
    s, w' := SignerLock.WithSignerLock(h, w', Call(Broadcast, [msgs.value]));
    v := if s.Resolved? then Deleted else FallThrough;
  }

  method TryFileTree(h: Handler, w: World, cleanPath: string, parentPath: string, random: nat -> bv8) returns (v: Verdict, w': World)
    requires !w.locked
    ensures !w'.locked && w'.log == w.log + ByFileTree(h, w.log, cleanPath, parentPath, AesValue(random)).calls
    ensures v == ByFileTree(h, w.log, cleanPath, parentPath, AesValue(random)).verdict
  {
    v, w' := FallThrough, w;
    if !Has(h, UlidLookup) || !Has(h, FindRefIndex) {
      return;
    }
    var c0 := Call(UlidLookup, [Str(cleanPath)]);
    var ulid := Reply(h, w, c0);
    w' := Send(w, c0);
    if ulid.Err? {
      return;
    }
    var c1 := Call(FindRefIndex, [Str(cleanPath)]);
    var ref := Reply(h, w', c1);
    w' := Send(w', c1);
    assert w'.log == w.log + [Sent(c0, false), Sent(c1, false)];
    if ref.Err? {
      return;
    }
    var c2 := Call(UlidLookup, [Str(parentPath)]);
    var parentUlid := Reply(h, w', c2);
    w' := Send(w', c2);
    assert w'.log == w.log + [Sent(c0, false), Sent(c1, false), Sent(c2, false)];
    if parentUlid.Err? || !Truthy(ulid.value) || !Truthy(parentUlid.value) || ref.value == Undefined {
      return;
    }
    var w1 := w';
    v, w' := TryPublish(h, w1, MetaRequest(parentUlid.value, ref.value, ulid.value), random);
  }

  // ---------------------------------------------------------------------
  // The cascade

  /** A strategy the cascade did not reach. */
  const NotTried := Attempt([], FallThrough)

  /** `b`-`d` are the content-addressed delete, the delete by ULID and the
      forced removal started from `log`, each one tried only when the ones
      before it fell through. */
  ghost predicate FallbacksTried(h: Handler, log: seq<Sent>, isDir: bool, raw: JsVal, cleanPath: string, parentPath: string,
                                 aes: JsVal, b: Attempt, c: Attempt, d: Attempt)
  {
    && b == ByMerkle(h, log, isDir, raw)
    && c == (if b.verdict.FallThrough? then ByUlid(h, log + b.calls, raw) else NotTried)
    && d == (if b.verdict.FallThrough? && c.verdict.FallThrough? then ByFileTree(h, log + b.calls + c.calls, cleanPath, parentPath, aes) else NotTried)
  }

  /** delete.js:80-134: the delete by ULID, then, when it did not delete,
      the forced removal. */
  method TryLastResorts(h: Handler, w: World, raw: JsVal, cleanPath: string, parentPath: string, random: nat -> bv8)
    returns (deleted: bool, w': World, ghost c: Attempt, ghost d: Attempt)
    requires !w.locked
    ensures !w'.locked && w'.log == w.log + c.calls + d.calls
    ensures c == ByUlid(h, w.log, raw)
    ensures d == if c.verdict.FallThrough? then ByFileTree(h, w.log + c.calls, cleanPath, parentPath, AesValue(random)) else NotTried
    ensures deleted <==> c.verdict.Deleted? || d.verdict.Deleted?
  {
    c, d := ByUlid(h, w.log, raw), NotTried;
    var v;
    v, w' := TryUlid(h, w, raw);
    if v.Deleted? {
      return true, w', c, d;
    }
    var w1 := w';
    d := ByFileTree(h, w1.log, cleanPath, parentPath, AesValue(random));
    v, w' := TryFileTree(h, w1, cleanPath, parentPath, random);
    deleted := v.Deleted?;
  }

  /** delete.js:50-134: the content-addressed delete, then, when it did not
      delete, the last resorts. */
  method TryFallbacks(h: Handler, w: World, isDir: bool, raw: JsVal, cleanPath: string, parentPath: string, random: nat -> bv8)
    returns (deleted: bool, w': World, ghost b: Attempt, ghost c: Attempt, ghost d: Attempt)
    requires !w.locked
    ensures !w'.locked && w'.log == w.log + b.calls + c.calls + d.calls
    ensures FallbacksTried(h, w.log, isDir, raw, cleanPath, parentPath, AesValue(random), b, c, d)
    ensures deleted <==> b.verdict.Deleted? || c.verdict.Deleted? || d.verdict.Deleted?
  {
    b, c, d := ByMerkle(h, w.log, isDir, raw), NotTried, NotTried;
    var v;
    v, w' := TryMerkle(h, w, isDir, raw);
    if v.Deleted? {
      return true, w', b, c, d;
    }
    var w1 := w';
    deleted, w', c, d := TryLastResorts(h, w1, raw, cleanPath, parentPath, random);
    assert w'.log == w.log + b.calls + c.calls + d.calls;
  }

  /** delete.js:8-135, what `deleteItem(handler, fullPath, isDir, raw)`
      promises about a run that started on `log`: `prep` holds the
      preparation calls and `a`-`d` the four strategies in order. A missing
      handler or a falsy path is refused before any call. Each strategy is
      reached only when every earlier one fell through; the answer is `true`
      when one of them deleted the item, the rethrown error when
      `deleteTargets` failed with an error that is not tolerated, and
      otherwise the error naming the file. */
  ghost predicate DeleteRun(handler: Option<Handler>, log: seq<Sent>, fullPath: JsVal, isDir: bool, raw: JsVal, aes: JsVal,
                            prep: seq<Sent>, a: Attempt, b: Attempt, c: Attempt, d: Attempt, r: Result<JsVal>)
  {
    && (handler.None? || !Truthy(fullPath) ==>
          r == Err(Error(MissingArgs, Undefined)) && prep == [] && a == NotTried && b == NotTried && c == NotTried && d == NotTried)
    && (handler.Some? && Truthy(fullPath) ==>
          && prep == PrepCalls(handler.value, Paths.ParentOf(CleanPath(fullPath)))
          && a == ByTargets(handler.value, log + prep, Paths.LastSegment(CleanPath(fullPath))))
    && (handler.Some? && Truthy(fullPath) && a.verdict.FallThrough? ==>
          FallbacksTried(handler.value, log + prep + a.calls, isDir, raw, CleanPath(fullPath), Paths.ParentOf(CleanPath(fullPath)),
                         aes, b, c, d))
    && (!a.verdict.FallThrough? ==> b == NotTried && c == NotTried && d == NotTried)
    && (r.Ok? <==> a.verdict.Deleted? || b.verdict.Deleted? || c.verdict.Deleted? || d.verdict.Deleted?)
    && (r.Ok? ==> r.value == Bool(true))
    && (a.verdict.Abort? ==> r == Err(a.verdict.error))
    && (handler.Some? && Truthy(fullPath) && r.Err? && !a.verdict.Abort? ==>
          r.error == FailedToDelete(Paths.LastSegment(CleanPath(fullPath))))
  }

  /** delete.js:8-135, `deleteItem(handler, fullPath, isDir, raw)`, with
      `random` standing for the bytes the AES bundle of the forced removal
      is drawn from. The log is the preparation calls and the calls of the
      strategies tried, in order. */
  method DeleteItem(handler: Option<Handler>, w: World, fullPath: JsVal, isDir: bool, raw: JsVal, random: nat -> bv8)
    returns (r: Result<JsVal>, w': World, ghost prep: seq<Sent>, ghost a: Attempt, ghost b: Attempt, ghost c: Attempt, ghost d: Attempt)
    requires !w.locked
    ensures !w'.locked && w'.log == w.log + prep + a.calls + b.calls + c.calls + d.calls
    ensures DeleteRun(handler, w.log, fullPath, isDir, raw, AesValue(random), prep, a, b, c, d, r)
  {
    prep, a, b, c, d := [], NotTried, NotTried, NotTried, NotTried;
    if handler.None? || !Truthy(fullPath) {
      return Err(Error(MissingArgs, Undefined)), w, prep, a, b, c, d;
    }
    var h := handler.value;
    var clean := CleanPath(fullPath);
    var fileName := Paths.LastSegment(clean);
    var parentPath := Paths.ParentOf(clean);
    prep := PrepCalls(h, parentPath);
    w' := Prepare(h, w, parentPath);
    var v;
    var w1 := w';
    a := ByTargets(h, w1.log, fileName);
    v, w' := TryTargets(h, w1, fileName);
    if v.Deleted? {
      return Ok(Bool(true)), w', prep, a, b, c, d;
    } else if v.Abort? {
      return Err(v.error), w', prep, a, b, c, d;
    }
    var w2 := w';
    var deleted;
    deleted, w', b, c, d := TryFallbacks(h, w2, isDir, raw, clean, parentPath, random);
    r := if deleted then Ok(Bool(true)) else Err(FailedToDelete(fileName));
  }
}
