/** src/lib/jackal/share.js: granting and revoking a viewer's access to a
    file, and listing a file's viewers. Each operation reads the file's
    metadata first when the caller did not pass it, then uses the first
    method the handler offers from a fixed preference list. Sharing and
    unsharing sign their one call under the signer lock and pass its
    rejection on; listing viewers calls directly and never fails once its
    arguments are present. */
module Share {
  import opened Js
  import opened Sdk
  import Paths
  import SignerLock

  const MissingShareArgs := "Missing handler, filePath, or targetAddress for sharing"
  const MissingUnshareArgs := "Missing handler, filePath, or targetAddress for unsharing"
  const MissingViewerArgs := "Missing handler or filePath for getting viewers"
  const NoShareMethod := "No sharing method available on StorageHandler"
  const NoUnshareMethod := "No unsharing method available on StorageHandler"

  const GetFileMetaData := "getFileMetaData"
  const GrantViewerAccess := "grantViewerAccess"
  const ShareFileMethod := "shareFile"
  const AddViewers := "addViewers"
  const RevokeViewerAccess := "revokeViewerAccess"
  const RemoveViewers := "removeViewers"
  const ListViewers := "listViewers"
  const GetViewers := "getViewers"

  /** The methods `shareFile` looks for, most preferred first. */
  const ShareMethods := [GrantViewerAccess, ShareFileMethod, AddViewers]

  /** The methods `unshareFile` looks for, most preferred first. */
  const UnshareMethods := [RevokeViewerAccess, RemoveViewers]

  /** The position of the first of `names` the handler has, or `|names|`
      when it has none of them. */
  function FirstPresent(h: Handler, names: seq<string>): (k: nat)
    ensures k <= |names|
    ensures forall j :: 0 <= j < k ==> !Has(h, names[j])
    ensures k < |names| ==> Has(h, names[k])
  {
    if names == [] then 0
    else if Has(h, names[0]) then 0
    else 1 + FirstPresent(h, names[1..])
  }

  /** `raw && raw.fileMeta ? raw.fileMeta : null` */
  function GivenMeta(raw: JsVal): JsVal {
    if Truthy(raw) && Truthy(Get(raw, "fileMeta")) then Get(raw, "fileMeta") else Null
  }

  /** `fileMeta?.ulid || raw?.ulid` */
  function Ulid(fileMeta: JsVal, raw: JsVal): JsVal {
    Or(Get(fileMeta, "ulid"), Get(raw, "ulid"))
  }

  /** The metadata an operation works with: the one the caller passed in
      `raw`; failing that, what `getFileMetaData(cleanPath)` resolved to,
      when the handler has it; `null` when that call was missing or rejected.
      `made` is the calls this took, starting on `log` with the lock as
      `locked` says. */
  ghost predicate MetaRead(h: Handler, log: seq<Sent>, locked: bool, cleanPath: string, raw: JsVal,
                           made: seq<Sent>, fileMeta: JsVal)
  {
    if Truthy(GivenMeta(raw)) then made == [] && fileMeta == GivenMeta(raw)
    else if Has(h, GetFileMetaData) then
      && made == [Sent(Call(GetFileMetaData, [Str(cleanPath)]), locked)]
      && fileMeta == (match h.respond(log, made[0]) case Ok(v) => v case Err(_) => Null)
    else made == [] && fileMeta == Null
  }

  /** share.js:16-24, 72-80, 118-126: the metadata lookup shared by all
      three operations; a rejection of `getFileMetaData` is swallowed. */
  method ReadMeta(h: Handler, w: World, cleanPath: string, raw: JsVal)
    returns (fileMeta: JsVal, w': World, ghost made: seq<Sent>)
    ensures w'.locked == w.locked && w'.log == w.log + made
    ensures MetaRead(h, w.log, w.locked, cleanPath, raw, made, fileMeta)
    ensures forall i :: 0 <= i < |made| ==> made[i].call.name == GetFileMetaData
  {
    fileMeta := GivenMeta(raw);
    w', made := w, [];
    if !Truthy(fileMeta) && Has(h, GetFileMetaData) {
      var r;
      r, w', made := Next(h, w, Call(GetFileMetaData, [Str(cleanPath)]), w.log, []);
      match r
      case Ok(v) => fileMeta := v;
      case Err(_) => fileMeta := Null;
    }
  }

  /** The argument each share or unshare method receives: the granting and
      revoking methods get the path and the address, `shareFile` the path
      and the viewer, the viewer-list methods the address in a list and the
      file's ULID. */
  function Payload(name: string, cleanPath: string, address: string, ulid: JsVal): (v: JsVal)
    ensures name in {GrantViewerAccess, RevokeViewerAccess, ShareFileMethod} ==>
      Get(v, "path") == Str(cleanPath) && Get(v, "ulid") == Undefined
    ensures name in {AddViewers, RemoveViewers} ==>
      Get(v, "addresses") == Arr([Str(address)]) && Get(v, "ulid") == ulid && Get(v, "path") == Undefined
  {
    if name == ShareFileMethod then
      var fields := [("path", Str(cleanPath)), ("viewer", Str(address))];
      LookupAbsent(fields, "ulid");
      Obj(fields)
    else if name == AddViewers || name == RemoveViewers then
      var fields := [("addresses", Arr([Str(address)])), ("ulid", ulid)];
      LookupFirst(fields, "ulid", 1);
      LookupAbsent(fields, "path");
      Obj(fields)
    else
      var fields := [("path", Str(cleanPath)), ("address", Str(address))];
      LookupAbsent(fields, "ulid");
      Obj(fields)
  }

  /** `{ success: true, method }` */
  function Success(name: string): JsVal {
    Obj([("success", Bool(true)), ("method", Str(name))])
  }

  /** What an operation returns once its signed call has settled as `reply`:
      the success record naming the method, or the rejection unchanged. */
  function Outcome(reply: Result<JsVal>, name: string): (r: Result<JsVal>)
    ensures r.Ok? <==> reply.Ok?
    ensures r.Ok? ==> Get(r.value, "success") == Bool(true) && Get(r.value, "method") == Str(name)
    ensures r.Err? ==> r.error == reply.error
  {
    match reply
    case Ok(_) =>
      LookupFirst([("success", Bool(true)), ("method", Str(name))], "method", 1);
      Ok(Success(name))
    case Err(e) => Err(e)
  }

  /** The calls and the result of a share or unshare that got past its
      argument check: the metadata lookup, then, with the first of
      `methods` the handler has, one call of it under the lock; with none of
      them, the `none` error and no further call. */
  ghost predicate Granted(h: Handler, log: seq<Sent>, methods: seq<string>, none: string,
                          cleanPath: string, address: string, raw: JsVal,
                          meta: seq<Sent>, fileMeta: JsVal, signed: seq<Sent>, r: Result<JsVal>)
  {
    && MetaRead(h, log, false, cleanPath, raw, meta, fileMeta)
    && var k := FirstPresent(h, methods);
    && (k == |methods| ==> signed == [] && r == Err(Error(none, Undefined)))
    && (k < |methods| ==>
        && signed == [Sent(Call(methods[k], [Payload(methods[k], cleanPath, address, Ulid(fileMeta, raw))]), true)]
        && r == Outcome(h.respond(log + meta, signed[0]), methods[k]))
  }

  /** share.js:14-60 and 70-106 past the argument check: the metadata
      lookup, then the preferred method signed under the lock. */
  method Grant(h: Handler, w: World, methods: seq<string>, none: string, cleanPath: string, address: string, raw: JsVal)
    returns (r: Result<JsVal>, w': World, ghost meta: seq<Sent>, ghost fileMeta: JsVal, ghost signed: seq<Sent>)
    requires !w.locked
    ensures !w'.locked && w'.log == w.log + meta + signed
    ensures Granted(h, w.log, methods, none, cleanPath, address, raw, meta, fileMeta, signed, r)
  {
    var given;
    given, w', meta := ReadMeta(h, w, cleanPath, raw);
    fileMeta := given;
    var k := FirstPresent(h, methods);
    if k == |methods| {
      return Err(Error(none, Undefined)), w', meta, fileMeta, [];
    }
    var w1 := w';
    var c := Call(methods[k], [Payload(methods[k], cleanPath, address, Ulid(given, raw))]);
    var s;
    s, w' := SignerLock.WithSignerLock(h, w1, c);
    signed := [Sent(c, true)];
    match s
    case Resolved(v) => r := Ok(Success(methods[k]));
    case Rejected(e) => r := Err(e);
    case Waiting => assert false; r := Err(Error(none, Undefined));
  }

  /** share.js:7-61, `shareFile(handler, filePath, targetAddress, raw)`. */
  method ShareFile(handler: Option<Handler>, w: World, filePath: string, targetAddress: string, raw: JsVal)
    returns (r: Result<JsVal>, w': World, ghost meta: seq<Sent>, ghost fileMeta: JsVal, ghost signed: seq<Sent>)
    requires !w.locked
    ensures !w'.locked && w'.log == w.log + meta + signed
    ensures handler.None? || filePath == "" || targetAddress == "" ==>
      r == Err(Error(MissingShareArgs, Undefined)) && meta == [] && signed == []
    ensures handler.Some? && filePath != "" && targetAddress != "" ==>
      Granted(handler.value, w.log, ShareMethods, NoShareMethod, Paths.StripSPrefix(filePath), targetAddress, raw,
              meta, fileMeta, signed, r)
  {
    if handler.None? || filePath == "" || targetAddress == "" {
      return Err(Error(MissingShareArgs, Undefined)), w, [], Null, [];
    }
    r, w', meta, fileMeta, signed :=
      Grant(handler.value, w, ShareMethods, NoShareMethod, Paths.StripSPrefix(filePath), targetAddress, raw);
  }

  /** share.js:63-107, `unshareFile(handler, filePath, targetAddress, raw)`. */
  method UnshareFile(handler: Option<Handler>, w: World, filePath: string, targetAddress: string, raw: JsVal)
    returns (r: Result<JsVal>, w': World, ghost meta: seq<Sent>, ghost fileMeta: JsVal, ghost signed: seq<Sent>)
    requires !w.locked
    ensures !w'.locked && w'.log == w.log + meta + signed
    ensures handler.None? || filePath == "" || targetAddress == "" ==>
      r == Err(Error(MissingUnshareArgs, Undefined)) && meta == [] && signed == []
    ensures handler.Some? && filePath != "" && targetAddress != "" ==>
      Granted(handler.value, w.log, UnshareMethods, NoUnshareMethod, Paths.StripSPrefix(filePath), targetAddress, raw,
              meta, fileMeta, signed, r)
  {
    if handler.None? || filePath == "" || targetAddress == "" {
      return Err(Error(MissingUnshareArgs, Undefined)), w, [], Null, [];
    }
    r, w', meta, fileMeta, signed :=
      Grant(handler.value, w, UnshareMethods, NoUnshareMethod, Paths.StripSPrefix(filePath), targetAddress, raw);
  }

  /** What share and unshare promise their callers: exactly one signed call
      when the handler has one of the methods, to the most preferred of
      them, and the success record naming it exactly when that call
      resolved; otherwise no signed call and the "no method" error. */
  lemma {:induction false} GrantedShape(h: Handler, log: seq<Sent>, methods: seq<string>, none: string,
                                        cleanPath: string, address: string, raw: JsVal,
                                        meta: seq<Sent>, fileMeta: JsVal, signed: seq<Sent>, r: Result<JsVal>)
    requires Granted(h, log, methods, none, cleanPath, address, raw, meta, fileMeta, signed, r)
    ensures |meta| <= 1 && |signed| <= 1
    ensures signed == [] <==> forall i :: 0 <= i < |methods| ==> !Has(h, methods[i])
    ensures signed != [] ==>
      && signed[0].underLock && Has(h, signed[0].call.name) && signed[0].call.name in methods
      && (exists i :: 0 <= i < |methods| && methods[i] == signed[0].call.name &&
            forall j :: 0 <= j < i ==> !Has(h, methods[j]))
    ensures r.Ok? <==> signed != [] && h.respond(log + meta, signed[0]).Ok?
    ensures r.Ok? ==> Get(r.value, "method") == Str(signed[0].call.name)
    ensures signed == [] ==> r == Err(Error(none, Undefined))
  {
    var k := FirstPresent(h, methods);
    if k == |methods| {
      assert forall i :: 0 <= i < |methods| ==> !Has(h, methods[i]);
    } else {
      assert methods[k] == signed[0].call.name;
    }
  }

  /** The first method `shareFile` finds is `grantViewerAccess` whenever the
      handler has it, and `addViewers` only when it has neither of the
      others; `unshareFile` likewise for `revokeViewerAccess`. */
  lemma Preference(h: Handler)
    ensures Has(h, GrantViewerAccess) ==> ShareMethods[FirstPresent(h, ShareMethods)] == GrantViewerAccess
    ensures FirstPresent(h, ShareMethods) == 2 <==> !Has(h, GrantViewerAccess) && !Has(h, ShareFileMethod) && Has(h, AddViewers)
    ensures Has(h, RevokeViewerAccess) ==> UnshareMethods[FirstPresent(h, UnshareMethods)] == RevokeViewerAccess
    ensures FirstPresent(h, UnshareMethods) == |UnshareMethods| <==> !Has(h, RevokeViewerAccess) && !Has(h, RemoveViewers)
  {
    assert ShareMethods[0] == GrantViewerAccess && ShareMethods[1] == ShareFileMethod && ShareMethods[2] == AddViewers;
    assert UnshareMethods[0] == RevokeViewerAccess && UnshareMethods[1] == RemoveViewers;
  }

  /** Unsharing through the counterpart of the method that shared sends the
      same argument: revoking mirrors granting, removing a viewer mirrors
      adding one. The `shareFile` method, whose argument names the address
      `viewer`, has no counterpart. */
  lemma UnshareMirrorsShare(cleanPath: string, address: string, ulid: JsVal)
    ensures Payload(RevokeViewerAccess, cleanPath, address, ulid) == Payload(GrantViewerAccess, cleanPath, address, ulid)
    ensures Payload(RemoveViewers, cleanPath, address, ulid) == Payload(AddViewers, cleanPath, address, ulid)
    ensures Get(Payload(ShareFileMethod, cleanPath, address, ulid), "viewer") == Str(address)
    ensures forall m :: m in UnshareMethods ==> Get(Payload(m, cleanPath, address, ulid), "viewer") == Undefined
  {
    LookupFirst([("path", Str(cleanPath)), ("viewer", Str(address))], "viewer", 1);
    LookupAbsent([("path", Str(cleanPath)), ("address", Str(address))], "viewer");
    LookupAbsent([("addresses", Arr([Str(address)])), ("ulid", ulid)], "viewer");
  }

  /** `Array.isArray(v) ? v : []` */
  function ArrayOrEmpty(v: JsVal): (items: seq<JsVal>)
    ensures v.Arr? ==> items == v.items
    ensures !v.Arr? ==> items == []
  {
    if v.Arr? then v.items else []
  }

  /** A viewer list read from a call: the array it resolved to; `[]` for
      anything else, a rejection included. */
  function Listed(reply: Result<JsVal>): (items: seq<JsVal>)
    ensures reply.Ok? && reply.value.Arr? ==> items == reply.value.items
    ensures !(reply.Ok? && reply.value.Arr?) ==> items == []
  {
    match reply
    case Ok(v) => ArrayOrEmpty(v)
    case Err(_) => []
  }

  /** share.js:109-152, `getFileViewers(handler, filePath, raw)`: after the
      metadata lookup, `listViewers` with the file's ULID, else `getViewers`
      with the path, else the `viewers` of the metadata. */
  method GetFileViewers(handler: Option<Handler>, w: World, filePath: string, raw: JsVal)
    returns (r: Result<seq<JsVal>>, w': World, ghost meta: seq<Sent>, ghost fileMeta: JsVal, ghost asked: seq<Sent>)
    ensures w'.locked == w.locked && w'.log == w.log + meta + asked
    ensures handler.None? || filePath == "" ==>
      r == Err(Error(MissingViewerArgs, Undefined)) && meta == [] && asked == []
    ensures handler.Some? && filePath != "" ==> r.Ok?
    ensures handler.Some? && filePath != "" ==>
      var h := handler.value;
      var clean := Paths.StripSPrefix(filePath);
      && MetaRead(h, w.log, w.locked, clean, raw, meta, fileMeta)
      && (Has(h, ListViewers) ==>
            && asked == [Sent(Call(ListViewers, [Obj([("ulid", Ulid(fileMeta, raw))])]), w.locked)]
            && r.value == Listed(h.respond(w.log + meta, asked[0])))
      && (!Has(h, ListViewers) && Has(h, GetViewers) ==>
            && asked == [Sent(Call(GetViewers, [Str(clean)]), w.locked)]
            && r.value == Listed(h.respond(w.log + meta, asked[0])))
      && (!Has(h, ListViewers) && !Has(h, GetViewers) ==>
            && asked == []
            && r.value == (if Truthy(fileMeta) && Truthy(Get(fileMeta, "viewers"))
                           then ArrayOrEmpty(Get(fileMeta, "viewers")) else []))
  {
    if handler.None? || filePath == "" {
      return Err(Error(MissingViewerArgs, Undefined)), w, [], Null, [];
    }
    var h := handler.value;
    var clean := Paths.StripSPrefix(filePath);
    var given;
    given, w', meta := ReadMeta(h, w, clean, raw);
    fileMeta := given;
    asked := [];
    var w1 := w';
    if Has(h, ListViewers) {
      var reply;
      reply, w', asked := Next(h, w1, Call(ListViewers, [Obj([("ulid", Ulid(given, raw))])]), w1.log, []);
      r := Ok(Listed(reply));
    } else if Has(h, GetViewers) {
      var reply;
      reply, w', asked := Next(h, w1, Call(GetViewers, [Str(clean)]), w1.log, []);
      r := Ok(Listed(reply));
    } else if Truthy(given) && Truthy(Get(given, "viewers")) {
      r := Ok(ArrayOrEmpty(Get(given, "viewers")));
    } else {
      r := Ok([]);
    }
  }
}
