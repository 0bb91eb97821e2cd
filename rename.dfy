/** src/lib/jackal/rename.js: renaming or moving a file or folder. The
    handler's own move and rename methods are tried first; then, for a file,
    a copy under the new name followed by the deletion of the original; then
    a move through `moveRenameResource` with a target assembled from the
    item's metadata; then the copy again, for files and folders alike.

    The move through `moveRenameResource` never reaches the SDK: rename.js
    wraps the call in `withSignerLock` but never imports it (rename.js:1-3),
    so the wrapper raises a ReferenceError, which rename.js:127-130 catches
    before going on. The model keeps every lookup that strategy makes and
    the target it assembles, and records the error it ends with. */
module Rename {
  import opened Js
  import opened Sdk
  import Paths
  import Cascade
  import Upload
  import Delete

  const MissingArgs := "Missing args for rename"
  const NotSupported := "Rename/Move not supported by StorageHandler"
  const ConstructionFailed := "IMoveRenameTarget construction failed: missing file/folder metadata"
  const MoveMethods := ["move", "moveFile", "moveFolder", "rename", "renameFile", "renameFolder"]
  const DownloadFile := "downloadFile"
  const MoveRenameResource := "moveRenameResource"
  const GetFileMetaData := "getFileMetaData"
  const GetFolderDetailsByUlid := "getFolderDetailsByUlid"
  const ListChildFileMetas := "listChildFileMetas"
  const ListChildFolderMetas := "listChildFolderMetas"
  const ReadCurrentLocation := "readCurrentLocation"

  // ---------------------------------------------------------------------
  // The handler's own move and rename methods

  /** The methods that take only the new name. */
  predicate TakesName(m: string) {
    m == "rename" || m == "renameFile" || m == "renameFolder"
  }

  /** The second argument of method `m`: the last segment of the target for
      the rename methods, the whole target for the move methods. */
  function MoveArg(m: string, target: string): (arg: string)
    ensures TakesName(m) ==> arg == Paths.LastSegment(target) && '/' !in arg
    ensures !TakesName(m) ==> arg == target
  {
    Paths.ParentAndName(target);
    if TakesName(m) then Paths.LastSegment(target) else target
  }

  /** The attempt of method `m`, or none when the handler lacks it. */
  function MoveAttempt(h: Handler, oldPath: string, target: string, m: string): (ops: seq<Cascade.Op>)
    ensures |ops| <= 1
    ensures ops != [] <==> Has(h, m)
    ensures ops != [] ==> ops[0] == Cascade.Direct(Call(m, [Str(oldPath), Str(MoveArg(m, target))]))
  {
    if Has(h, m) then [Cascade.Direct(Call(m, [Str(oldPath), Str(MoveArg(m, target))]))] else []
  }

  /** The attempts for the methods `names` the handler has, in order, each
      called with the old path and its second argument. */
  function MoveAttempts(h: Handler, oldPath: string, target: string, names: seq<string>): (ops: seq<Cascade.Op>)
    ensures |ops| <= |names|
    ensures forall i :: 0 <= i < |ops| ==>
      && ops[i] == Cascade.Direct(Call(ops[i].call.name, [Str(oldPath), Str(MoveArg(ops[i].call.name, target))]))
      && ops[i].call.name in names && Has(h, ops[i].call.name)
    decreases names
  {
    if names == [] then []
    else MoveAttempt(h, oldPath, target, names[0]) + MoveAttempts(h, oldPath, target, names[1..])
  }

  /** The calls of `ops` are to distinct methods, in the order of `names`. */
  predicate InOrder(names: seq<string>, ops: seq<Cascade.Op>) {
    forall i, j :: 0 <= i < j < |ops| ==> Upload.Position(names, ops[i].call.name) < Upload.Position(names, ops[j].call.name)
  }

  /** At most one attempt of the first method, then attempts in the order
      of the other methods, are in the order of all of them. */
  lemma InOrderCons(names: seq<string>, mine: seq<Cascade.Op>, rest: seq<Cascade.Op>)
    requires Upload.Distinct(names) && names != []
    requires |mine| <= 1 && (mine != [] ==> mine[0].call.name == names[0])
    requires forall i :: 0 <= i < |rest| ==> rest[i].call.name in names[1..]
    requires InOrder(names[1..], rest)
    ensures InOrder(names, mine + rest)
  {
    var ops := mine + rest;
    forall i, j | 0 <= i < j < |ops|
      ensures Upload.Position(names, ops[i].call.name) < Upload.Position(names, ops[j].call.name)
    {
      var j' := j - |mine|;
      assert ops[j] == rest[j'];
      Upload.PositionTail(names, rest[j'].call.name);
      if i < |mine| {
        assert ops[i] == mine[0];
        assert Upload.Position(names, ops[i].call.name) == 0;
      } else {
        var i' := i - |mine|;
        assert ops[i] == rest[i'];
        assert Upload.Position(names[1..], rest[i'].call.name) < Upload.Position(names[1..], rest[j'].call.name);
        Upload.PositionTail(names, rest[i'].call.name);
      }
    }
  }

  /** Each method is tried at most once, in the order of `names`. */
  lemma {:induction false} MoveAttemptsOrdered(h: Handler, oldPath: string, target: string, names: seq<string>)
    requires Upload.Distinct(names)
    ensures InOrder(names, MoveAttempts(h, oldPath, target, names))
    decreases names
  {
    if names != [] {
      var mine := MoveAttempt(h, oldPath, target, names[0]);
      var rest := MoveAttempts(h, oldPath, target, names[1..]);
      assert mine + rest == MoveAttempts(h, oldPath, target, names);
      assert Upload.Distinct(names[1..]);
      MoveAttemptsOrdered(h, oldPath, target, names[1..]);
      InOrderCons(names, mine, rest);
    }
  }

  /** Every method of `names` the handler has is tried. */
  lemma {:induction false} MoveAttemptsComplete(h: Handler, oldPath: string, target: string, names: seq<string>)
    ensures forall k :: 0 <= k < |names| && Has(h, names[k]) ==>
      Cascade.Direct(Call(names[k], [Str(oldPath), Str(MoveArg(names[k], target))])) in MoveAttempts(h, oldPath, target, names)
    decreases names
  {
    if names != [] {
      var mine := MoveAttempt(h, oldPath, target, names[0]);
      var rest := MoveAttempts(h, oldPath, target, names[1..]);
      assert mine + rest == MoveAttempts(h, oldPath, target, names);
      MoveAttemptsComplete(h, oldPath, target, names[1..]);
      forall k | 0 < k < |names| && Has(h, names[k])
        ensures Cascade.Direct(Call(names[k], [Str(oldPath), Str(MoveArg(names[k], target))])) in rest
      {
        assert names[k] == names[1..][k - 1];
      }
    }
  }

  /** rename.js:24-40, the attempts of the move loop. */
  function MoveOps(h: Handler, oldPath: string, target: string): seq<Cascade.Op> {
    MoveAttempts(h, oldPath, target, MoveMethods)
  }

  // ---------------------------------------------------------------------
  // Copy, then delete

  /** `new File([blob], name)` */
  function FileOf(blob: JsVal, name: string): JsVal {
    Obj([("parts", Arr([blob])), ("name", Str(name))])
  }

  /** The upload of the copy, through upload.js's `uploadFile`; its calls
      are those `Upload.UploadFile` states. */
  method UploadCopy(h: Handler, w: World, file: JsVal, parentPath: JsVal) returns (r: Result<JsVal>, w': World, ghost made: seq<Sent>)
    requires !w.locked
    ensures !w'.locked && w'.log == w.log + made
    ensures Uploaded(h, w.log, file, parentPath, made, r)
  {
    ghost var switch, enqueue, process;
    r, w', switch, enqueue, process := Upload.UploadFile(h, w, file, parentPath);
    made := switch + enqueue + process;
    Regroup3(w.log, switch, enqueue, process);
    assert made == switch + enqueue + process && Upload.UploadRun(h, w.log, file, parentPath, switch, enqueue, process, r);
    assert UploadCalls(h, w.log, file, parentPath, made, r);
  }

  /** An upload through upload.js's `uploadFile`, from `log`, that made the
      calls `made` and settled as `r`. It is stated through `UploadCalls`
      on a sequence equal to `made`, so that only a member naming
      `UploadCalls` opens the upload's own model. */
  ghost predicate Uploaded(h: Handler, log: seq<Sent>, file: JsVal, parentPath: JsVal, made: seq<Sent>, r: Result<JsVal>) {
    forall calls {:trigger UploadCalls(h, log, file, parentPath, calls, r)} ::
      calls == made ==> UploadCalls(h, log, file, parentPath, calls, r)
  }

  /** `calls` are those of one run of `Upload.UploadFile` from `log`. */
  ghost predicate UploadCalls(h: Handler, log: seq<Sent>, file: JsVal, parentPath: JsVal, calls: seq<Sent>, r: Result<JsVal>) {
    exists switch, enqueue, process :: calls == switch + enqueue + process && Upload.UploadRun(h, log, file, parentPath, switch, enqueue, process, r)
  }

  /** A deletion through delete.js's `deleteItem`, from `log`, that made the
      calls `made` and settled as `r`; shielded like `Uploaded`. */
  ghost predicate Deleted(h: Handler, log: seq<Sent>, path: string, isDir: bool, raw: JsVal, random: nat -> bv8,
                          made: seq<Sent>, r: Result<JsVal>)
  {
    forall calls {:trigger DeleteCalls(h, log, path, isDir, raw, random, calls, r)} ::
      calls == made ==> DeleteCalls(h, log, path, isDir, raw, random, calls, r)
  }

  /** `calls` are those of one run of `Delete.DeleteItem` from `log`. */
  ghost predicate DeleteCalls(h: Handler, log: seq<Sent>, path: string, isDir: bool, raw: JsVal, random: nat -> bv8,
                              calls: seq<Sent>, r: Result<JsVal>)
  {
    exists prep, a: Delete.Attempt, b: Delete.Attempt, c: Delete.Attempt, d: Delete.Attempt :: calls == prep + a.calls + b.calls + c.calls + d.calls &&
      Delete.DeleteRun(Some(h), log, Str(path), isDir, raw, Delete.AesValue(random), prep, a, b, c, d, r)
  }

  /** The deletion of the original, through delete.js's `deleteItem`; its
      calls are those `Delete.DeleteItem` states. */
  method DeleteOriginal(h: Handler, w: World, path: string, isDir: bool, raw: JsVal, random: nat -> bv8)
    returns (r: Result<JsVal>, w': World, ghost made: seq<Sent>)
    requires !w.locked
    ensures !w'.locked && w'.log == w.log + made
    ensures Deleted(h, w.log, path, isDir, raw, random, made, r)
  {
    ghost var prep, a, b, c, d;
    r, w', prep, a, b, c, d := Delete.DeleteItem(Some(h), w, Str(path), isDir, raw, random);
    made := prep + a.calls + b.calls + c.calls + d.calls;
    Regroup5(w.log, prep, a.calls, b.calls, c.calls, d.calls);
    assert Delete.DeleteRun(Some(h), w.log, Str(path), isDir, raw, Delete.AesValue(random), prep, a, b, c, d, r);
    assert DeleteCalls(h, w.log, path, isDir, raw, random, made, r);
  }

  /** The copy strategy from `log`: without `downloadFile` nothing is done;
      otherwise the item at `source` is fetched, and a fetched item is
      uploaded as a file named after the last segment of `target` into the
      folder before it (`uploaded`); only after an upload that went through
      is the original deleted (`deleted`), and `done` is that deletion's
      success. */
  ghost predicate CopyRun(h: Handler, log: seq<Sent>, source: string, target: string, isDir: bool, raw: JsVal,
                          random: nat -> bv8, fetch: seq<Sent>, upload: seq<Sent>, delete: seq<Sent>,
                          uploaded: Result<JsVal>, deleted: Result<JsVal>, done: bool)
  {
    if !Has(h, DownloadFile) then !done && fetch == [] && upload == [] && delete == []
    else
      && fetch == [Sent(Call(DownloadFile, [Str(source)]), false)]
      && var blob := h.respond(log, fetch[0]);
      && (blob.Err? ==> !done && upload == [] && delete == [])
      && (blob.Ok? ==>
            && Uploaded(h, log + fetch, FileOf(blob.value, Paths.LastSegment(target)), Str(Paths.ParentOf(target)), upload, uploaded)
            && (uploaded.Err? ==> !done && delete == [])
            && (uploaded.Ok? ==> Deleted(h, log + fetch + upload, source, isDir, raw, random, delete, deleted) && (done <==> deleted.Ok?)))
  }

  /** A run of the copy strategy that made the calls `made`. */
  ghost predicate Copied(h: Handler, log: seq<Sent>, source: string, target: string, isDir: bool, raw: JsVal,
                         random: nat -> bv8, made: seq<Sent>, done: bool)
  {
    exists fetch, upload, delete, uploaded, deleted :: made == fetch + upload + delete &&
      CopyRun(h, log, source, target, isDir, raw, random, fetch, upload, delete, uploaded, deleted, done)
  }

  /** rename.js:43-52 and 134-141: with a `downloadFile` method, the item at
      `source` is downloaded, uploaded again as a file named after the last
      segment of `target` into the folder before it, and the original is
      deleted; `done` says all three went through. Any failure ends the
      strategy, and a failure after the upload leaves the copy in place.
      `random` stands for the bytes of the delete's AES bundle. */
  method CopyThenDelete(h: Handler, w: World, source: string, target: string, isDir: bool, raw: JsVal, random: nat -> bv8)
    returns (done: bool, w': World, ghost fetch: seq<Sent>, ghost upload: seq<Sent>, ghost delete: seq<Sent>,
             ghost uploaded: Result<JsVal>, ghost deleted: Result<JsVal>)
    requires !w.locked
    ensures !w'.locked && w'.log == w.log + fetch + upload + delete
    ensures !Has(h, DownloadFile) ==> !done && fetch == [] && upload == [] && delete == []
    ensures Has(h, DownloadFile) ==> fetch == [Sent(Call(DownloadFile, [Str(source)]), false)]
    ensures Has(h, DownloadFile) && h.respond(w.log, fetch[0]).Err? ==> !done && upload == [] && delete == []
    ensures upload != [] || delete != [] ==> Has(h, DownloadFile) && h.respond(w.log, fetch[0]).Ok?
    ensures uploaded.Err? ==> delete == []
    ensures done <==> Has(h, DownloadFile) && h.respond(w.log, fetch[0]).Ok? && uploaded.Ok? && deleted.Ok?
    ensures CopyRun(h, w.log, source, target, isDir, raw, random, fetch, upload, delete, uploaded, deleted, done)
  {
    fetch, upload, delete, uploaded, deleted := [], [], [], Err(Error("", Undefined)), Err(Error("", Undefined));
    done, w' := false, w;
    if !Has(h, DownloadFile) {
      return;
    }
    var blob;
    blob, w', fetch := Next(h, w, Call(DownloadFile, [Str(source)]), w.log, []);
    if blob.Err? {
      return;
    }
    var file := FileOf(blob.value, Paths.LastSegment(target));
    var w1 := w';
    var up;
    up, w', upload := UploadCopy(h, w1, file, Str(Paths.ParentOf(target)));
    uploaded := up;
    if up.Err? {
      return;
    }
    var w2 := w';
    var del;
    del, w', delete := DeleteOriginal(h, w2, source, isDir, raw, random);
    deleted := del;
    done := del.Ok?;
  }

  /** `CopyThenDelete` seen from the fallbacks: the calls it made, as one
      run of the copy strategy. */
  method Copy(h: Handler, w: World, ghost log: seq<Sent>, source: string, target: string, isDir: bool, raw: JsVal,
              random: nat -> bv8)
    returns (done: bool, w': World, ghost made: seq<Sent>)
    requires !w.locked && w.log == log
    ensures !w'.locked && w'.log == log + made
    ensures Copied(h, log, source, target, isDir, raw, random, made, done)
    ensures made != [] ==> Has(h, DownloadFile) && made[0] == Sent(Call(DownloadFile, [Str(source)]), false)
  {
    ghost var fetch, upload, delete, uploaded, deleted;
    done, w', fetch, upload, delete, uploaded, deleted := CopyThenDelete(h, w, source, target, isDir, raw, random);
    made := fetch + upload + delete;
    Regroup3(w.log, fetch, upload, delete);
    assert CopyRun(h, w.log, source, target, isDir, raw, random, fetch, upload, delete, uploaded, deleted, done);
  }

  // ---------------------------------------------------------------------
  // The move through moveRenameResource

  /** `raw && raw.key ? raw.key : null` */
  function MetaOf(raw: JsVal, key: string): (m: JsVal)
    ensures Truthy(m) <==> Truthy(raw) && Truthy(Get(raw, key))
  {
    if Truthy(raw) && Truthy(Get(raw, key)) then Get(raw, key) else Null
  }

  /** rename.js:74, `raw && (raw.ulid || raw.ulid?.toString() || raw.ulid?.ulid)` */
  function FolderUlid(raw: JsVal): JsVal {
    var ulid := Get(raw, "ulid");
    And(raw, Or(Or(ulid, ToStringOpt(ulid)), Get(ulid, "ulid")))
  }

  /** The name a listed entry is matched against: `raw?.fileMeta?.name ||
      raw?.name` for a file, `raw?.whoAmI || raw?.name` for a folder. */
  function WantedName(raw: JsVal, isDir: bool): JsVal {
    if isDir then Or(Get(raw, "whoAmI"), Get(raw, "name")) else Or(PathGet(raw, ["fileMeta", "name"]), Get(raw, "name"))
  }

  /** The property of a listed entry holding its metadata. */
  function Nested(isDir: bool): string {
    if isDir then "folder" else "fileMeta"
  }

  /** The test of rename.js:83 and 93: the entry's own name, or its nested
      metadata's name, is truthy and strictly equal to `wanted`. */
  predicate NameMatches(m: JsVal, wanted: JsVal, nested: string) {
    || (Truthy(Get(m, "name")) && StrictEquals(Get(m, "name"), wanted))
    || (Truthy(Get(m, nested)) && StrictEquals(Get(Get(m, nested), "name"), wanted))
  }

  /** What `list.find(test)` does: the first matching entry, none, or a
      TypeError when it reaches a null or undefined entry first. */
  datatype Found = Match(entry: JsVal) | NoMatch | Threw

  /** Where `find` stops: the first entry that is nullish or matches, or
      the length of the list when there is none. */
  function StopIndex(items: seq<JsVal>, wanted: JsVal, nested: string): (k: nat)
    ensures k <= |items|
    ensures forall j :: 0 <= j < k ==> !Nullish(items[j]) && !NameMatches(items[j], wanted, nested)
    ensures k < |items| ==> Nullish(items[k]) || NameMatches(items[k], wanted, nested)
    decreases |items|
  {
    if items == [] || Nullish(items[0]) || NameMatches(items[0], wanted, nested) then 0
    else
      var k := StopIndex(items[1..], wanted, nested);
      assert forall j :: 1 <= j < k + 1 ==> items[j] == items[1..][j - 1];
      k + 1
  }

  /** `list.find(test)`: the entry where the search stops, nothing when it
      runs off the end, and a TypeError when it stops at a nullish entry
      (reading `m.name` of null or undefined throws). */
  function FindFirst(items: seq<JsVal>, wanted: JsVal, nested: string): (f: Found)
    ensures f.NoMatch? <==> forall i :: 0 <= i < |items| ==> !Nullish(items[i]) && !NameMatches(items[i], wanted, nested)
    ensures f.Match? ==>
      exists i :: 0 <= i < |items| && items[i] == f.entry && NameMatches(items[i], wanted, nested) &&
        forall j :: 0 <= j < i ==> !Nullish(items[j]) && !NameMatches(items[j], wanted, nested)
    ensures f.Threw? ==>
      exists i :: 0 <= i < |items| && Nullish(items[i]) &&
        forall j :: 0 <= j < i ==> !NameMatches(items[j], wanted, nested)
  {
    var k := StopIndex(items, wanted, nested);
    if k == |items| then NoMatch
    else if Nullish(items[k]) then Threw
    else Match(items[k])
  }

  /** rename.js:81-85 and 91-95: the metadata after the listing settled as
      `listed`. A rejection reads as null, which is not an array; only a
      match found without a throw replaces `current`. */
  function AfterListing(listed: Result<JsVal>, wanted: JsVal, nested: string, current: JsVal): (m: JsVal)
    ensures m == current || (listed.Ok? && listed.value.Arr? && m in listed.value.items && NameMatches(m, wanted, nested))
    ensures listed.Err? || !listed.value.Arr? ==> m == current
  {
    if listed.Ok? && listed.value.Arr? then
      var f := FindFirst(listed.value.items, wanted, nested);
      if f.Match? then f.entry else current
    else current
  }

  /** The metadata lookups of rename.js:66-97 for one kind of item, from
      `log`: when `given` is falsy and the handler has it, the direct lookup
      `lookup` (a rejection reads as null); when the metadata is still falsy
      and the handler has it, the listing `lister`. */
  ghost predicate MetaResolved(h: Handler, log: seq<Sent>, given: JsVal, lookup: Option<Call>, lister: string,
                               wanted: JsVal, nested: string, made: seq<Sent>, meta: JsVal)
  {
    var asked := !Truthy(given) && lookup.Some? && Has(h, lookup.value.name);
    var first := if asked then
      (var reply := h.respond(log, Sent(lookup.value, false)); if reply.Ok? then reply.value else Null)
      else given;
    var listed := !Truthy(first) && Has(h, lister);
    var listing := Sent(Call(lister, []), false);
    && made == (if asked then [Sent(lookup.value, false)] else []) + (if listed then [listing] else [])
    && meta == if listed then AfterListing(h.respond(log + made[..|made| - 1], listing), wanted, nested, first) else first
  }

  method LookUpMeta(h: Handler, w: World, given: JsVal, lookup: Option<Call>, lister: string, wanted: JsVal, nested: string)
    returns (meta: JsVal, w': World, ghost made: seq<Sent>)
    requires !w.locked
    ensures !w'.locked && w'.log == w.log + made
    ensures MetaResolved(h, w.log, given, lookup, lister, wanted, nested, made, meta)
    ensures Truthy(given) ==> made == [] && meta == given
    ensures forall i :: 0 <= i < |made| ==>
      !made[i].underLock && ((lookup.Some? && made[i].call == lookup.value) || made[i].call == Call(lister, []))
  {
    meta, w', made := given, w, [];
    if !Truthy(meta) && lookup.Some? && Has(h, lookup.value.name) {
      var reply;
      reply, w', made := Next(h, w, lookup.value, w.log, []);
      meta := if reply.Ok? then reply.value else Null;
    }
    if !Truthy(meta) && Has(h, lister) {
      var listed;
      ghost var before := made;
      listed, w', made := Next(h, w', Call(lister, []), w.log, made);
      assert made[..|made| - 1] == before;
      meta := AfterListing(listed, wanted, nested, meta);
    }
  }

  /** rename.js:102, `(fileMeta && fileMeta.ref) || (folderMeta && folderMeta.ref) || (raw && raw.ref) || 0` */
  function MoveRef(fileMeta: JsVal, folderMeta: JsVal, raw: JsVal): (ref: JsVal)
    ensures Truthy(fileMeta) && Truthy(Get(fileMeta, "ref")) ==> ref == Get(fileMeta, "ref")
    ensures !(Truthy(fileMeta) && Truthy(Get(fileMeta, "ref"))) && Truthy(folderMeta) && Truthy(Get(folderMeta, "ref")) ==>
      ref == Get(folderMeta, "ref")
    ensures ref == Num(0) || Truthy(ref)
    ensures ref == Num(0) <==>
      !(Truthy(fileMeta) && Truthy(Get(fileMeta, "ref"))) && !(Truthy(folderMeta) && Truthy(Get(folderMeta, "ref")))
      && !(Truthy(raw) && Truthy(Get(raw, "ref")))
  {
    Or(Or(Or(And(fileMeta, Get(fileMeta, "ref")), And(folderMeta, Get(folderMeta, "ref"))), And(raw, Get(raw, "ref"))), Num(0))
  }

  /** rename.js:104-112: a folder target carries `folder` (its metadata, else
      `raw.folder`, else `raw`) and a file target carries `file` (its
      metadata, else `raw.fileMeta`, else `raw`); neither when all of them
      are falsy. */
  function MoveField(isDir: bool, fileMeta: JsVal, folderMeta: JsVal, raw: JsVal): (field: Option<(string, JsVal)>)
    ensures field.Some? ==> field.value.0 == (if isDir then "folder" else "file") && Truthy(field.value.1)
    ensures field.None? <==> !Truthy(if isDir then folderMeta else fileMeta) && !Truthy(raw)
  {
    var meta := if isDir then folderMeta else fileMeta;
    var key := if isDir then "folder" else "file";
    var inner := if isDir then "folder" else "fileMeta";
    if Truthy(meta) then Some((key, meta))
    else if Truthy(raw) && Truthy(Get(raw, inner)) then Some((key, Get(raw, inner)))
    else if Truthy(raw) then Some((key, raw))
    else None
  }

  /** The fields of the move target, in the order rename.js:102-112 adds them. */
  function TargetFields(name: string, ref: JsVal, location: JsVal, field: Option<(string, JsVal)>): seq<(string, JsVal)> {
    [("name", Str(name)), ("ref", ref)]
    + (if Truthy(location) then [("location", location)] else [])
    + (if field.Some? then [field.value] else [])
  }

  /** rename.js:102-112, the object handed to `moveRenameResource`: its
      name and ref, `location` only for a truthy location, and the one of
      `folder` and `file` that `field` names. */
  function MoveTarget(name: string, ref: JsVal, location: JsVal, field: Option<(string, JsVal)>): (t: JsVal)
    requires field.Some? ==> field.value.0 == "folder" || field.value.0 == "file"
    ensures Get(t, "name") == Str(name) && Get(t, "ref") == ref
    ensures Get(t, "location") == if Truthy(location) then location else Undefined
    ensures Get(t, "folder") == if field.Some? && field.value.0 == "folder" then field.value.1 else Undefined
    ensures Get(t, "file") == if field.Some? && field.value.0 == "file" then field.value.1 else Undefined
  {
    TargetFieldsRead(name, ref, location, field);
    Obj(TargetFields(name, ref, location, field))
  }

  lemma TargetFieldsRead(name: string, ref: JsVal, location: JsVal, field: Option<(string, JsVal)>)
    requires field.Some? ==> field.value.0 == "folder" || field.value.0 == "file"
    ensures var fs := TargetFields(name, ref, location, field);
      && Lookup(fs, "name") == Str(name) && Lookup(fs, "ref") == ref
      && Lookup(fs, "location") == (if Truthy(location) then location else Undefined)
      && Lookup(fs, "folder") == (if field.Some? && field.value.0 == "folder" then field.value.1 else Undefined)
      && Lookup(fs, "file") == (if field.Some? && field.value.0 == "file" then field.value.1 else Undefined)
  {
    var fs := TargetFields(name, ref, location, field);
    var at := if Truthy(location) then 3 else 2;
    assert |fs| == at + (if field.Some? then 1 else 0);
    LookupFirst(fs, "name", 0);
    LookupFirst(fs, "ref", 1);
    if Truthy(location) {
      LookupFirst(fs, "location", 2);
    } else {
      LookupAbsent(fs, "location");
    }
    if field.Some? {
      LookupFirst(fs, field.value.0, at);
      LookupAbsent(fs, if field.value.0 == "file" then "folder" else "file");
    } else {
      LookupAbsent(fs, "folder");
      LookupAbsent(fs, "file");
    }
  }

  /** rename.js:114, `hasValidTarget` */
  predicate ValidTarget(isDir: bool, t: JsVal) {
    (isDir && Truthy(Get(t, "folder"))) || (!isDir && Truthy(Get(t, "file")))
  }

  /** The target passes the check exactly when it carries the field its
      kind needs, that is when the metadata or `raw` is truthy. */
  lemma ValidTargetIff(isDir: bool, name: string, ref: JsVal, location: JsVal, fileMeta: JsVal, folderMeta: JsVal, raw: JsVal)
    ensures ValidTarget(isDir, MoveTarget(name, ref, location, MoveField(isDir, fileMeta, folderMeta, raw)))
      <==> Truthy(if isDir then folderMeta else fileMeta) || Truthy(raw)
  {
  }

  /** rename.js:63-97 for an item of either kind, from `log`: the metadata
      `raw` carries, completed by the lookups of the item's own kind; the
      other kind's metadata stays as `raw` carries it. */
  ghost predicate ItemMetaResolved(h: Handler, log: seq<Sent>, oldPath: string, isDir: bool, raw: JsVal,
                                   lookups: seq<Sent>, fileMeta: JsVal, folderMeta: JsVal)
  {
    if !isDir then
      && folderMeta == MetaOf(raw, "folderMeta")
      && MetaResolved(h, log, MetaOf(raw, "fileMeta"), Some(Call(GetFileMetaData, [Str(oldPath)])), ListChildFileMetas,
                      WantedName(raw, false), Nested(false), lookups, fileMeta)
    else
      && fileMeta == MetaOf(raw, "fileMeta")
      && MetaResolved(h, log, MetaOf(raw, "folderMeta"),
                      if Truthy(FolderUlid(raw)) then Some(Call(GetFolderDetailsByUlid, [Obj([("ulid", FolderUlid(raw))])])) else None,
                      ListChildFolderMetas, WantedName(raw, true), Nested(true), lookups, folderMeta)
  }

  method LookUpItem(h: Handler, w: World, oldPath: string, isDir: bool, raw: JsVal)
    returns (fileMeta: JsVal, folderMeta: JsVal, w': World, ghost lookups: seq<Sent>)
    requires !w.locked
    ensures !w'.locked && w'.log == w.log + lookups
    ensures ItemMetaResolved(h, w.log, oldPath, isDir, raw, lookups, fileMeta, folderMeta)
    ensures forall i :: 0 <= i < |lookups| ==> !lookups[i].underLock && lookups[i].call.name != MoveRenameResource
  {
    fileMeta, folderMeta := MetaOf(raw, "fileMeta"), MetaOf(raw, "folderMeta");
    if !isDir {
      fileMeta, w', lookups := LookUpMeta(h, w, fileMeta, Some(Call(GetFileMetaData, [Str(oldPath)])), ListChildFileMetas,
                                          WantedName(raw, false), Nested(false));
    } else {
      var ulid := FolderUlid(raw);
      folderMeta, w', lookups := LookUpMeta(h, w, folderMeta,
                                            if Truthy(ulid) then Some(Call(GetFolderDetailsByUlid, [Obj([("ulid", ulid)])])) else None,
                                            ListChildFolderMetas, WantedName(raw, true), Nested(true));
    }
  }

  /** rename.js:99-100 from `log`: `readCurrentLocation()` when the handler
      has it, its value read as returned (a throw reads as null); null
      without it. */
  ghost predicate LocationRead(h: Handler, log: seq<Sent>, located: seq<Sent>, location: JsVal) {
    if Has(h, ReadCurrentLocation) then
      && located == [Sent(Call(ReadCurrentLocation, []), false)]
      && location == (var reply := h.respond(log, located[0]); if reply.Ok? then reply.value else Null)
    else located == [] && location == Null
  }

  method ReadLocation(h: Handler, w: World) returns (location: JsVal, w': World, ghost located: seq<Sent>)
    requires !w.locked
    ensures !w'.locked && w'.log == w.log + located
    ensures LocationRead(h, w.log, located, location)
  {
    location, w', located := Null, w, [];
    if Has(h, ReadCurrentLocation) {
      var reply;
      reply, w', located := Next(h, w, Call(ReadCurrentLocation, []), w.log, []);
      location := if reply.Ok? then reply.value else Null;
    }
  }

  /** rename.js:101-130, once the metadata and the location are known: the
      target is assembled; an invalid one ends the strategy with the
      construction error, and a valid one with the ReferenceError of the
      missing `withSignerLock`. The construction error comes exactly when
      neither the metadata of the item's kind nor `raw` is truthy. */
  function MoveFailure(isDir: bool, target: string, fileMeta: JsVal, folderMeta: JsVal, location: JsVal, raw: JsVal): (e: Error)
    ensures e == Error(ConstructionFailed, Undefined) || e == NotDefined("withSignerLock")
    ensures e == Error(ConstructionFailed, Undefined) <==> !Truthy(if isDir then folderMeta else fileMeta) && !Truthy(raw)
  {
    var name := Paths.LastSegment(target);
    var ref := MoveRef(fileMeta, folderMeta, raw);
    ValidTargetIff(isDir, name, ref, location, fileMeta, folderMeta, raw);
    var t := MoveTarget(name, ref, location, MoveField(isDir, fileMeta, folderMeta, raw));
    if ValidTarget(isDir, t) then NotDefined("withSignerLock") else Error(ConstructionFailed, Undefined)
  }

  /** rename.js:59-130. The lookups are made, never under the lock, and
      `moveRenameResource` is never called: whatever the lookups find, the
      strategy ends with the error `MoveFailure` names, which is caught. */
  method MoveByResource(h: Handler, w: World, oldPath: string, target: string, isDir: bool, raw: JsVal)
    returns (failure: Error, w': World, ghost lookups: seq<Sent>, ghost located: seq<Sent>, ghost fileMeta: JsVal,
             ghost folderMeta: JsVal, ghost location: JsVal)
    requires !w.locked
    ensures !w'.locked && w'.log == w.log + lookups + located
    ensures ItemMetaResolved(h, w.log, oldPath, isDir, raw, lookups, fileMeta, folderMeta)
    ensures LocationRead(h, w.log + lookups, located, location)
    ensures failure == MoveFailure(isDir, target, fileMeta, folderMeta, location, raw)
    ensures forall i :: 0 <= i < |lookups| ==> lookups[i].call.name != MoveRenameResource
    ensures forall i :: 0 <= i < |located| ==> located[i].call.name != MoveRenameResource
  {
    var file, folder, parentLocation;
    file, folder, w', lookups := LookUpItem(h, w, oldPath, isDir, raw);
    var w1 := w';
    parentLocation, w', located := ReadLocation(h, w1);
    fileMeta, folderMeta, location := file, folder, parentLocation;
    failure := MoveFailure(isDir, target, file, folder, parentLocation, raw);
  }

  /** The lookups of the move strategy from `log`, which end it whatever
      they find. */
  ghost predicate MoveTried(h: Handler, log: seq<Sent>, oldPath: string, isDir: bool, raw: JsVal, made: seq<Sent>) {
    exists lookups, located, fileMeta, folderMeta, location :: made == lookups + located &&
      MoveLookups(h, log, oldPath, isDir, raw, lookups, located, fileMeta, folderMeta, location)
  }

  ghost predicate MoveLookups(h: Handler, log: seq<Sent>, oldPath: string, isDir: bool, raw: JsVal, lookups: seq<Sent>,
                              located: seq<Sent>, fileMeta: JsVal, folderMeta: JsVal, location: JsVal)
  {
    ItemMetaResolved(h, log, oldPath, isDir, raw, lookups, fileMeta, folderMeta) && LocationRead(h, log + lookups, located, location)
  }

  // ---------------------------------------------------------------------
  // renameItem

  /** rename.js:42-146 from `log`, once no move method resolved: a file is
      first copied between root-stripped paths (`earlyDone` says it went
      through, which ends the rename); then, with `moveRenameResource`, the
      move strategy's lookups; then the copy between the paths as given,
      whose success is the rename's. */
  ghost predicate FallbacksRun(h: Handler, log: seq<Sent>, oldPath: string, target: string, isDir: bool, raw: JsVal,
                               earlyRandom: nat -> bv8, lateRandom: nat -> bv8, early: seq<Sent>, earlyDone: bool,
                               byResource: seq<Sent>, late: seq<Sent>, done: bool)
  {
    && (isDir ==> early == [] && !earlyDone)
    && (!isDir ==> Copied(h, log, Paths.StripRootLoose(oldPath), Paths.StripRootLoose(target), false, raw, earlyRandom, early, earlyDone))
    && (earlyDone ==> done && byResource == [] && late == [])
    && (!earlyDone ==> LateRun(h, log + early, oldPath, target, isDir, raw, lateRandom, byResource, late, done))
  }

  /** The fallbacks after the early copy, from `log`: with
      `moveRenameResource`, the move strategy's lookups; then the copy
      between the paths as given, whose success is the rename's. */
  ghost predicate LateRun(h: Handler, log: seq<Sent>, oldPath: string, target: string, isDir: bool, raw: JsVal,
                          lateRandom: nat -> bv8, byResource: seq<Sent>, late: seq<Sent>, done: bool)
  {
    && (Has(h, MoveRenameResource) ==> MoveTried(h, log, oldPath, isDir, raw, byResource))
    && (!Has(h, MoveRenameResource) ==> byResource == [])
    && Copied(h, log + byResource, oldPath, target, isDir, raw, lateRandom, late, done)
  }

  /** A run of the fallbacks that made the calls `made`, stated through
      `FallbackCalls` on a sequence equal to `made` so that only a member
      naming `FallbackCalls` opens the fallbacks' model. */
  ghost predicate FellBack(h: Handler, log: seq<Sent>, oldPath: string, target: string, isDir: bool, raw: JsVal,
                           earlyRandom: nat -> bv8, lateRandom: nat -> bv8, made: seq<Sent>, done: bool)
  {
    forall calls {:trigger FallbackCalls(h, log, oldPath, target, isDir, raw, earlyRandom, lateRandom, calls, done)} ::
      calls == made ==> FallbackCalls(h, log, oldPath, target, isDir, raw, earlyRandom, lateRandom, calls, done)
  }

  /** `calls` are those of one run of the fallbacks from `log`. */
  ghost predicate FallbackCalls(h: Handler, log: seq<Sent>, oldPath: string, target: string, isDir: bool, raw: JsVal,
                                earlyRandom: nat -> bv8, lateRandom: nat -> bv8, calls: seq<Sent>, done: bool)
  {
    exists early, earlyDone, byResource, late :: calls == early + byResource + late &&
      FallbacksRun(h, log, oldPath, target, isDir, raw, earlyRandom, lateRandom, early, earlyDone, byResource, late, done)
  }

  /** rename.js:42-146, once no move method resolved: the early copy (files
      only), then the later strategies, stopping at the first copy that
      went through. */
  method Fallbacks(h: Handler, w: World, oldPath: string, target: string, isDir: bool, raw: JsVal,
                   earlyRandom: nat -> bv8, lateRandom: nat -> bv8)
    returns (done: bool, w': World, ghost early: seq<Sent>, earlyDone: bool, ghost byResource: seq<Sent>, ghost late: seq<Sent>)
    requires !w.locked
    ensures !w'.locked && w'.log == w.log + early + byResource + late
    ensures FallbacksRun(h, w.log, oldPath, target, isDir, raw, earlyRandom, lateRandom, early, earlyDone, byResource, late, done)
    ensures early != [] ==>
      !isDir && Has(h, DownloadFile) && early[0] == Sent(Call(DownloadFile, [Str(Paths.StripRootLoose(oldPath))]), false)
    ensures byResource != [] ==> Has(h, MoveRenameResource)
    ensures forall i :: 0 <= i < |byResource| ==> byResource[i].call.name != MoveRenameResource
    ensures late != [] ==> late[0] == Sent(Call(DownloadFile, [Str(oldPath)]), false)
  {
    byResource, late := [], [];
    earlyDone, w', early := EarlyCopy(h, w, oldPath, target, isDir, raw, earlyRandom);
    done := earlyDone;
    if done {
      return;
    }
    var w1 := w';
    done, w', byResource, late := LateFallbacks(h, w1, w.log + early, oldPath, target, isDir, raw, lateRandom);
  }

  /** rename.js:42-57: a file is first copied between the root-stripped
      paths; a folder skips this step. */
  method EarlyCopy(h: Handler, w: World, oldPath: string, target: string, isDir: bool, raw: JsVal, earlyRandom: nat -> bv8)
    returns (done: bool, w': World, ghost early: seq<Sent>)
    requires !w.locked
    ensures !w'.locked && w'.log == w.log + early
    ensures isDir ==> early == [] && !done
    ensures !isDir ==> Copied(h, w.log, Paths.StripRootLoose(oldPath), Paths.StripRootLoose(target), false, raw, earlyRandom, early, done)
    ensures early != [] ==>
      !isDir && Has(h, DownloadFile) && early[0] == Sent(Call(DownloadFile, [Str(Paths.StripRootLoose(oldPath))]), false)
  {
    if isDir {
      return false, w, [];
    }
    done, w', early := Copy(h, w, w.log, Paths.StripRootLoose(oldPath), Paths.StripRootLoose(target), false, raw, earlyRandom);
  }

  /** rename.js:59-146: the move through `moveRenameResource` (when the
      handler has it), then the late copy. */
  method LateFallbacks(h: Handler, w: World, ghost log: seq<Sent>, oldPath: string, target: string, isDir: bool, raw: JsVal,
                       lateRandom: nat -> bv8)
    returns (done: bool, w': World, ghost byResource: seq<Sent>, ghost late: seq<Sent>)
    requires !w.locked && w.log == log
    ensures !w'.locked && w'.log == log + byResource + late
    ensures LateRun(h, log, oldPath, target, isDir, raw, lateRandom, byResource, late, done)
    ensures byResource != [] ==> Has(h, MoveRenameResource)
    ensures forall i :: 0 <= i < |byResource| ==> byResource[i].call.name != MoveRenameResource
    ensures late != [] ==> late[0] == Sent(Call(DownloadFile, [Str(oldPath)]), false)
  {
    var w1;
    w1, byResource := MoveStep(h, w, log, oldPath, target, isDir, raw);
    done, w', late := Copy(h, w1, log + byResource, oldPath, target, isDir, raw, lateRandom);
  }

  /** rename.js:59-130: with `moveRenameResource`, the move strategy's
      lookups, whose failure is caught; without it, nothing. */
  method MoveStep(h: Handler, w: World, ghost log: seq<Sent>, oldPath: string, target: string, isDir: bool, raw: JsVal)
    returns (w': World, ghost byResource: seq<Sent>)
    requires !w.locked && w.log == log
    ensures !w'.locked && w'.log == log + byResource
    ensures Has(h, MoveRenameResource) ==> MoveTried(h, log, oldPath, isDir, raw, byResource)
    ensures !Has(h, MoveRenameResource) ==> byResource == []
    ensures forall i :: 0 <= i < |byResource| ==> byResource[i].call.name != MoveRenameResource
  {
    byResource := [];
    w' := w;
    if Has(h, MoveRenameResource) {
      var failure;
      ghost var lookups, located, fileMeta, folderMeta, location;
      failure, w', lookups, located, fileMeta, folderMeta, location := MoveByResource(h, w, oldPath, target, isDir, raw);
      byResource := lookups + located;
      Regroup2(w.log, lookups, located);
      assert MoveLookups(h, w.log, oldPath, isDir, raw, lookups, located, fileMeta, folderMeta, location);
    }
  }

  /** rename.js:9-149, `renameItem(handler, oldFullPath, newFullPathOrName,
      isDir, raw)`, with the two copies' AES bytes as parameters. The log is
      the move attempts, then, when none resolved, the calls of the
      fallbacks. */
  method RenameItem(handler: Option<Handler>, w: World, oldPath: string, newValue: string, isDir: bool, raw: JsVal,
                    earlyRandom: nat -> bv8, lateRandom: nat -> bv8)
    returns (r: Result<JsVal>, w': World, ghost moves: seq<Sent>, ghost rest: seq<Sent>)
    requires !w.locked
    ensures !w'.locked && w'.log == w.log + moves + rest
    ensures handler.None? || oldPath == "" || newValue == "" ==>
      r == Err(Error(MissingArgs, Undefined)) && moves == [] && rest == []
    ensures handler.Some? && oldPath != "" && newValue != "" ==>
      var ops := MoveOps(handler.value, oldPath, Paths.RenameTarget(oldPath, newValue));
      && |moves| <= |ops| && moves == Cascade.Trail(ops[..|moves|])
      && (forall i :: 0 <= i < |moves| - 1 ==> Cascade.ReplyAt(handler.value, w.log, ops, i).Err?)
      && (Cascade.ResolvedAt(handler.value, w.log, ops, |moves|) ==> r == Ok(Bool(true)) && rest == [])
      && (!Cascade.ResolvedAt(handler.value, w.log, ops, |moves|) ==>
            && |moves| == |ops| && r != Err(Error(MissingArgs, Undefined))
            && FellBack(handler.value, w.log + moves, oldPath, Paths.RenameTarget(oldPath, newValue), isDir, raw,
                        earlyRandom, lateRandom, rest, r.Ok?))
    ensures r.Err? && handler.Some? && oldPath != "" && newValue != "" ==> r.error == Error(NotSupported, Undefined)
    ensures r.Ok? ==> r.value == Bool(true)
  {
    moves, rest := [], [];
    if handler.None? || oldPath == "" || newValue == "" {
      return Err(Error(MissingArgs, Undefined)), w, moves, rest;
    }
    var h := handler.value;
    var target := Paths.RenameTarget(oldPath, newValue);
    var ops := MoveOps(h, oldPath, target);
    var moved;
    moved, w', moves := Cascade.FirstResolving(h, w, ops);
    if moved {
      return Ok(Bool(true)), w', moves, rest;
    }
    var w1 := w';
    r, w', rest := FallBackOrFail(h, w1, w.log + moves, oldPath, target, isDir, raw, earlyRandom, lateRandom);
  }

  /** rename.js:42-148 once no move method resolved: the fallbacks, and
      "Rename/Move not supported by StorageHandler" when none of them went
      through. */
  method FallBackOrFail(h: Handler, w: World, ghost log: seq<Sent>, oldPath: string, target: string, isDir: bool, raw: JsVal,
                        earlyRandom: nat -> bv8, lateRandom: nat -> bv8)
    returns (r: Result<JsVal>, w': World, ghost rest: seq<Sent>)
    requires !w.locked && w.log == log
    ensures !w'.locked && w'.log == log + rest
    ensures FellBack(h, log, oldPath, target, isDir, raw, earlyRandom, lateRandom, rest, r.Ok?)
    ensures r == if r.Ok? then Ok(Bool(true)) else Err(Error(NotSupported, Undefined))
  {
    var done;
    ghost var early, earlyDone, byResource, late;
    done, w', early, earlyDone, byResource, late := Fallbacks(h, w, oldPath, target, isDir, raw, earlyRandom, lateRandom);
    rest := early + byResource + late;
    Regroup3(log, early, byResource, late);
    assert FallbacksRun(h, log, oldPath, target, isDir, raw, earlyRandom, lateRandom, early, earlyDone, byResource, late, done);
    assert FallbackCalls(h, log, oldPath, target, isDir, raw, earlyRandom, lateRandom, rest, done);
    r := if done then Ok(Bool(true)) else Err(Error(NotSupported, Undefined));
  }

}
