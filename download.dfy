/** src/lib/jackal/download.js: making sure the storage-provider pool is
    loaded, then downloading by ULID when a ULID and the user's address are
    known, and by path otherwise. */
module Download {
  import opened Js
  import opened Sdk
  import Paths

  const PoolError := "Unable to connect to storage providers. Please try again later."
  const GetAvailableProviders := "getAvailableProviders"
  const FindProviderIps := "findProviderIps"
  const LoadProviderPool := "loadProviderPool"
  const DownloadByUlid := "downloadByUlid"
  const DownloadByPath := "downloadFile"
  const GetJackalAddress := "jackalClient.getJackalAddress"

  /** `handler.providers && handler.providers.length > 0` */
  predicate PoolLoaded(h: Handler, w: World) {
    var p := Prop(h, w, ["providers"]);
    Truthy(p) && NonEmpty(p)
  }

  /** `!list || list.length === 0` */
  predicate Empty(v: JsVal) {
    !Truthy(v) || LengthIsZero(v)
  }

  /** The calls the pool bootstrap makes, in this order, none under the lock. */
  const PoolTags := [Tag(GetAvailableProviders, false), Tag(FindProviderIps, false), Tag(LoadProviderPool, false)]

  /** The calls the pool bootstrap of download.js:17-34 makes from `w`, and
      its verdict: the providers, then their IPs, then the pool load, each
      fed the answer before it and made only when that answer was a
      non-empty list and the method exists. */
  function PoolRun(h: Handler, w: World): (run: (seq<Sent>, bool))
    ensures PoolLoaded(h, w) ==> run == ([], true)
    ensures !PoolLoaded(h, w) && !Has(h, GetAvailableProviders) ==> run == ([], false)
    ensures !PoolLoaded(h, w) && Has(h, GetAvailableProviders) ==>
      |run.0| >= 1 && run.0[0] == Sent(Call(GetAvailableProviders, []), w.locked)
    ensures |run.0| >= 1 && OutcomeOf(h, w.log, run.0, 0).Ok? && !Empty(OutcomeOf(h, w.log, run.0, 0).value)
            && Has(h, FindProviderIps) ==>
      |run.0| >= 2 && run.0[1] == Sent(Call(FindProviderIps, [OutcomeOf(h, w.log, run.0, 0).value]), w.locked)
    ensures |run.0| >= 2 && OutcomeOf(h, w.log, run.0, 1).Ok? && !Empty(OutcomeOf(h, w.log, run.0, 1).value)
            && Has(h, LoadProviderPool) ==>
      |run.0| == 3 && run.0[2] == Sent(Call(LoadProviderPool, [OutcomeOf(h, w.log, run.0, 1).value]), w.locked)
    ensures |run.0| <= 3 && forall i :: 0 <= i < |run.0| - 1 ==>
      OutcomeOf(h, w.log, run.0, i).Ok? && !Empty(OutcomeOf(h, w.log, run.0, i).value)
    ensures !PoolLoaded(h, w) ==> (run.1 <==> |run.0| == 3 && OutcomeOf(h, w.log, run.0, 2).Ok?)
  {
    if PoolLoaded(h, w) then ([], true)
    else if !Has(h, GetAvailableProviders) then ([], false)
    else
      var ask := Sent(Call(GetAvailableProviders, []), w.locked);
      var available := h.respond(w.log, ask);
      assert w.log + [ask][..0] == w.log;
      assert OutcomeOf(h, w.log, [ask], 0) == available;
      if available.Err? || Empty(available.value) || !Has(h, FindProviderIps) then ([ask], false)
      else
        var find := Sent(Call(FindProviderIps, [available.value]), w.locked);
        var ips := h.respond(w.log + [ask], find);
        assert w.log + [ask, find][..0] == w.log && [ask, find][..1] == [ask];
        assert OutcomeOf(h, w.log, [ask, find], 0) == available && OutcomeOf(h, w.log, [ask, find], 1) == ips;
        if ips.Err? || Empty(ips.value) || !Has(h, LoadProviderPool) then ([ask, find], false)
        else
          var load := Sent(Call(LoadProviderPool, [ips.value]), w.locked);
          assert w.log + [ask, find, load][..0] == w.log;
          assert [ask, find, load][..1] == [ask] && [ask, find, load][..2] == [ask, find];
          assert OutcomeOf(h, w.log, [ask, find, load], 0) == available && OutcomeOf(h, w.log, [ask, find, load], 1) == ips;
          ([ask, find, load], h.respond(w.log + [ask, find], load).Ok?)
  }

  /** download.js:5-35, `ensureProviderPool(handler)`. True with no call
      when providers are already loaded. Otherwise it asks for the available
      providers, then for their IPs, and loads the pool from those IPs, each
      step only after the one before answered with a non-empty list; it is
      true exactly when that load resolves. An empty answer, a missing
      method or a rejection gives false: nothing is thrown. */
  method EnsureProviderPool(handler: Option<Handler>, w: World) returns (ok: bool, w': World, ghost made: seq<Sent>)
    requires !w.locked
    ensures !w'.locked && w'.log == w.log + made
    ensures Tags(made) <= PoolTags
    ensures handler.None? ==> !ok && made == []
    ensures handler.Some? ==> (made, ok) == PoolRun(handler.value, w)
    ensures handler.Some? && PoolLoaded(handler.value, w) ==> ok && made == []
    ensures handler.Some? && !PoolLoaded(handler.value, w) ==>
      (ok <==> |made| == 3 && OutcomeOf(handler.value, w.log, made, 2).Ok?)
    ensures handler.Some? ==> forall i :: 0 <= i < |made| - 1 ==>
      OutcomeOf(handler.value, w.log, made, i).Ok? && !Empty(OutcomeOf(handler.value, w.log, made, i).value)
    ensures handler.Some? && |made| >= 2 ==> made[1].call.args == [OutcomeOf(handler.value, w.log, made, 0).value]
    ensures handler.Some? && |made| == 3 ==> made[2].call.args == [OutcomeOf(handler.value, w.log, made, 1).value]
  {
    if handler.None? {
      return false, w, [];
    }
    var h := handler.value;
    if PoolLoaded(h, w) {
      return true, w, [];
    }
    // A missing method throws a TypeError inside the `try`: false.
    if !Has(h, GetAvailableProviders) {
      return false, w, [];
    }
    ok := false;
    var ask := Call(GetAvailableProviders, []);
    var available := Reply(h, w, ask);
    w' := Send(w, ask);
    made := [Sent(ask, false)];
    assert w.log + made[..0] == w.log;
    assert OutcomeOf(h, w.log, made, 0) == available;
    if available.Err? || Empty(available.value) || !Has(h, FindProviderIps) {
      assert available == h.respond(w.log, Sent(ask, w.locked));
      assert PoolRun(h, w) == (made, false);
      return;
    }
    var find := Call(FindProviderIps, [available.value]);
    var ips := Reply(h, w', find);
    var w1 := w';
    w' := Send(w', find);
    made := made + [Sent(find, false)];
    assert w.log + made[..0] == w.log && w.log + made[..1] == w1.log;
    assert OutcomeOf(h, w.log, made, 0) == available && OutcomeOf(h, w.log, made, 1) == ips;
    if ips.Err? || Empty(ips.value) || !Has(h, LoadProviderPool) {
      assert made == [Sent(ask, false), Sent(find, false)];
      assert ips == h.respond(w.log + [Sent(ask, w.locked)], Sent(find, w.locked));
      assert PoolRun(h, w) == (made, false);
      return;
    }
    var load := Call(LoadProviderPool, [ips.value]);
    ok := Reply(h, w', load).Ok?;
    var w2 := w';
    w' := Send(w', load);
    made := made + [Sent(load, false)];
    assert w.log + made[..0] == w.log && w.log + made[..1] == w1.log && w.log + made[..2] == w2.log;
    assert OutcomeOf(h, w.log, made, 0) == available && OutcomeOf(h, w.log, made, 1) == ips;
    assert OutcomeOf(h, w.log, made, 2) == Reply(h, w2, load);
    assert made == [Sent(ask, false), Sent(find, false), Sent(load, false)];
  }

  /** `tracker || { progress: 0, chunks: [] }` */
  function TrackerOrDefault(tracker: JsVal): (t: JsVal)
    ensures Truthy(t)
    ensures Truthy(tracker) ==> t == tracker
  {
    if Truthy(tracker) then tracker else Obj([("progress", Num(0)), ("chunks", Arr([]))])
  }

  /** `raw ? (raw.ulid || raw.fileMeta?.ulid || raw.cid || raw.fid) : null`:
      the first truthy of the four, in that order. */
  function UlidCandidate(raw: JsVal): (c: JsVal)
    ensures Truthy(raw) && Truthy(Get(raw, "ulid")) ==> c == Get(raw, "ulid")
    ensures Truthy(raw) && !Truthy(Get(raw, "ulid")) && Truthy(Get(Get(raw, "fileMeta"), "ulid")) ==>
      c == Get(Get(raw, "fileMeta"), "ulid")
    ensures (Truthy(raw) && !Truthy(Get(raw, "ulid")) && !Truthy(Get(Get(raw, "fileMeta"), "ulid"))
             && Truthy(Get(raw, "cid"))) ==> c == Get(raw, "cid")
    ensures (Truthy(raw) && !Truthy(Get(raw, "ulid")) && !Truthy(Get(Get(raw, "fileMeta"), "ulid"))
             && !Truthy(Get(raw, "cid"))) ==> c == Get(raw, "fid")
    ensures !Truthy(raw) ==> c == Null
  {
    if Truthy(raw) then Or(Or(Or(Get(raw, "ulid"), Get(Get(raw, "fileMeta"), "ulid")), Get(raw, "cid")), Get(raw, "fid"))
    else Null
  }

  /** `typeof c === 'string' ? c : c.toString()` */
  function UlidString(c: JsVal): string {
    if c.Str? then c.s else ToStr(c)
  }

  /** The user's address as download.js:59-71 finds it: from the Jackal
      client's getter when there is one (a rejection leaves null), else the
      client's details, else the wallet handler, else null. */
  function AddressOf(h: Handler, w: World): (a: JsVal)
    ensures Has(h, GetJackalAddress) ==>
      a == Null || (Reply(h, w, Call(GetJackalAddress, [])).Ok? && a == Reply(h, w, Call(GetJackalAddress, [])).value)
    ensures Has(h, GetJackalAddress) && Reply(h, w, Call(GetJackalAddress, [])).Err? ==> a == Null
    ensures !Has(h, GetJackalAddress) ==>
      a == Null || (Truthy(a) && (a == Prop(h, w, ["client", "details", "address"]) || a == Prop(h, w, ["walletHandler", "address"])))
  {
    if Has(h, GetJackalAddress) then
      var r := Reply(h, w, Call(GetJackalAddress, []));
      if r.Ok? then r.value else Null
    else if Truthy(Prop(h, w, ["client", "details", "address"])) then Prop(h, w, ["client", "details", "address"])
    else if Truthy(Prop(h, w, ["walletHandler", "address"])) then Prop(h, w, ["walletHandler", "address"])
    else Null
  }

  /** download.js:59-71: the address lookup, which calls the getter when
      there is one and makes no other call. */
  method UserAddress(h: Handler, w: World) returns (address: JsVal, w': World, ghost made: seq<Sent>)
    requires !w.locked
    ensures !w'.locked && w'.log == w.log + made
    ensures made == if Has(h, GetJackalAddress) then [Sent(Call(GetJackalAddress, []), false)] else []
    ensures address == AddressOf(h, w)
  {
    w', made := w, [];
    address := Null;
    if Has(h, GetJackalAddress) {
      var r;
      r, w', made := Next(h, w, Call(GetJackalAddress, []), w.log, []);
      if r.Ok? {
        address := r.value;
      }
    } else if Truthy(Prop(h, w, ["client", "details", "address"])) {
      address := Prop(h, w, ["client", "details", "address"]);
    } else if Truthy(Prop(h, w, ["walletHandler", "address"])) {
      address := Prop(h, w, ["walletHandler", "address"]);
    }
  }

  /** The `downloadByUlid` call for a candidate, a tracker and an address. */
  function ByUlidCall(candidate: JsVal, tracker: JsVal, address: JsVal): Call {
    Call(DownloadByUlid, [Obj([("ulid", Str(UlidString(candidate))), ("trackers", tracker), ("userAddress", address)])])
  }

  /** The path download's call. */
  function ByPathCall(filePath: string, tracker: JsVal): Call {
    Call(DownloadByPath, [Str(Paths.StripSPrefix(filePath)), TrackerOrDefault(tracker)])
  }

  /** The call sequences the ULID attempt can make. */
  const UlidShapes: set<seq<Tag>> :=
    {[], [Tag(GetJackalAddress, false)], [Tag(DownloadByUlid, false)], [Tag(GetJackalAddress, false), Tag(DownloadByUlid, false)]}

  /** The ULID attempt `made` ended with the ULID download. */
  predicate UlidTried(made: seq<Sent>) {
    made != [] && made[|made| - 1].call.name == DownloadByUlid
  }

  /** download.js:52-85: the ULID download, made exactly for a truthy
      candidate, when the method exists and the user's address is truthy;
      the address getter is asked first when there is one. `done` holds its
      value when it resolved; a rejection falls through. */
  method TryByUlid(h: Handler, w: World, candidate: JsVal, tracker: JsVal)
    returns (done: Option<JsVal>, w': World, ghost made: seq<Sent>)
    requires !w.locked
    ensures !w'.locked && w'.log == w.log + made
    ensures Tags(made) in UlidShapes
    ensures made != [] ==> Truthy(candidate) && Has(h, DownloadByUlid)
    ensures Truthy(candidate) && Has(h, DownloadByUlid) && Has(h, GetJackalAddress) ==>
      made != [] && made[0] == Sent(Call(GetJackalAddress, []), false)
    ensures UlidTried(made) <==> Truthy(candidate) && Has(h, DownloadByUlid) && Truthy(AddressOf(h, w))
    ensures done.Some? ==> made != [] && made[|made| - 1].call.name == DownloadByUlid
    ensures made != [] && made[|made| - 1].call.name == DownloadByUlid ==>
      && Truthy(AddressOf(h, w))
      && made[|made| - 1].call == ByUlidCall(candidate, tracker, AddressOf(h, w))
      && (done.Some? <==> OutcomeOf(h, w.log, made, |made| - 1).Ok?)
      && (done.Some? ==> Ok(done.value) == OutcomeOf(h, w.log, made, |made| - 1))
  {
    if !Truthy(candidate) || !Has(h, DownloadByUlid) {
      return None, w, [];
    }
    var address, w1, asked := UserAddress(h, w);
    if asked != [] {
      assert Tags(asked) == [Tag(GetJackalAddress, false)];
    }
    if !Truthy(address) {
      return None, w1, asked;
    }
    var res;
    res, w', made := Next(h, w1, ByUlidCall(candidate, tracker, address), w.log, asked);
    TagsAppend(asked, [Sent(ByUlidCall(candidate, tracker, address), false)]);
    assert Tags([Sent(ByUlidCall(candidate, tracker, address), false)]) == [Tag(DownloadByUlid, false)];
    if asked == [] {
      assert Tags(made) == [Tag(DownloadByUlid, false)];
    } else {
      assert Tags(made) == [Tag(GetJackalAddress, false), Tag(DownloadByUlid, false)];
    }
    done := if res.Ok? then Some(res.value) else None;
  }

  /** download.js:47-50: the verdict of the pool check that made the calls
      `pool` from `w`: the providers were loaded already, or the bootstrap's
      last step, loading the pool, resolved. */
  ghost predicate PoolReady(h: Handler, w: World, pool: seq<Sent>) {
    PoolLoaded(h, w) || (|pool| == 3 && OutcomeOf(h, w.log, pool, 2).Ok?)
  }

  /** download.js:37-95, `downloadFile(handler, filePath, tracker, raw)`.
      The calls it makes are those of the pool check (`pool`), of the ULID
      attempt (`byUlid`) and of the path download (`byPath`), in this order.
      Unless the pool is ready nothing is downloaded and the error is the
      fixed "Unable to connect" message. The ULID download is tried first,
      and if it resolves its value is the answer. Otherwise the path
      download is made with the "s/"-stripped path and the (default)
      tracker, and its outcome, value or error, is the answer unchanged. */
  method DownloadFile(handler: Option<Handler>, w: World, filePath: string, tracker: JsVal, raw: JsVal)
    returns (r: Result<JsVal>, w': World, ghost pool: seq<Sent>, ghost byUlid: seq<Sent>, ghost byPath: seq<Sent>)
    requires !w.locked
    ensures !w'.locked && w'.log == w.log + pool + byUlid + byPath
    ensures Tags(pool) <= PoolTags && Tags(byUlid) in UlidShapes && byPath in {[], [Sent(ByPathCall(filePath, tracker), false)]}
    ensures handler.None? ==> r == Err(Error(PoolError, Undefined)) && pool == [] && byUlid == [] && byPath == []
    ensures handler.Some? ==> pool == PoolRun(handler.value, w).0
    ensures handler.Some? ==> (PoolReady(handler.value, w, pool) <==> PoolRun(handler.value, w).1)
    ensures handler.Some? && !PoolReady(handler.value, w, pool) ==>
      r == Err(Error(PoolError, Undefined)) && byUlid == [] && byPath == []
    ensures byUlid != [] ==> Truthy(UlidCandidate(raw)) && Has(handler.value, DownloadByUlid)
    ensures handler.Some? && PoolReady(handler.value, w, pool) ==>
      (UlidTried(byUlid) <==>
         Truthy(UlidCandidate(raw)) && Has(handler.value, DownloadByUlid) && Truthy(AddressOf(handler.value, World(false, w.log + pool))))
    ensures handler.Some? && PoolReady(handler.value, w, pool) &&
            !(UlidTried(byUlid) && OutcomeOf(handler.value, w.log + pool, byUlid, |byUlid| - 1).Ok?) ==>
      (byPath != [] <==> Has(handler.value, DownloadByPath))
    ensures handler.Some? && byUlid != [] && byUlid[|byUlid| - 1].call.name == DownloadByUlid ==>
      var ulidOutcome := OutcomeOf(handler.value, w.log + pool, byUlid, |byUlid| - 1);
      && (ulidOutcome.Ok? ==> r == ulidOutcome && byPath == [])
      && (ulidOutcome.Err? ==> byPath != [] || r == Err(NotAFunction(DownloadByPath)))
    ensures handler.Some? && byPath != [] ==> r == OutcomeOf(handler.value, w.log + pool + byUlid, byPath, 0)
    ensures handler.Some? && r != Err(Error(PoolError, Undefined)) && byPath == [] && r.Err? ==>
      r == Err(NotAFunction(DownloadByPath)) && !Has(handler.value, DownloadByPath)
  {
    var poolReady, w0;
    poolReady, w0, pool := EnsureProviderPool(handler, w);
    byUlid, byPath := [], [];
    if !poolReady {
      return Err(Error(PoolError, Undefined)), w0, pool, byUlid, byPath;
    }
    var h := handler.value;
    var done, w1;
    done, w1, byUlid := TryByUlid(h, w0, UlidCandidate(raw), TrackerOrDefault(tracker));
    if done.Some? {
      return Ok(done.value), w1, pool, byUlid, byPath;
    }
    if !Has(h, DownloadByPath) {
      return Err(NotAFunction(DownloadByPath)), w1, pool, byUlid, byPath;
    }
    r, w', byPath := Next(h, w1, ByPathCall(filePath, tracker), w.log + pool + byUlid, []);
  }
}
