/** src/app/vault/page.js: the vault page's state and the handlers that drive
    the older adapter (jackalActions.js). The page keeps two parallel stacks
    for the folder on show (the ids the adapter is asked for, the labels of
    the breadcrumb), the listed items, the upload progress, a status line and
    whether the wallet turned out to have no account on chain. React's state
    setters become field updates; the `confirm` and `prompt` dialogs become
    parameters. */
module Vault {
  import opened Js
  import opened Sdk
  import Paths
  import Listing
  import Actions

  /** `JACKAL_ROOT` (page.js:8): where both stacks start. */
  const Root: seq<JsVal> := [Str("s"), Str("Home")]

  const NoAccount := "does not exist on chain"
  const SendTokens := "Send some tokens"
  const InitStorage := "initStorage"
  const InitStorageMissing := "storage.initStorage is not a function"

  // ---------------------------------------------------------------------
  // deriveId (page.js:75)

  /** `it?.raw || it` */
  function Source(it: JsVal): JsVal {
    Or(Get(it, "raw"), it)
  }

  /** page.js:75: a chain of `||` over the id-like fields of the entry's raw
      record, ending in the empty string (`||` associates either way, so the
      chain is written from the right). */
  function DeriveId(it: JsVal): (id: JsVal)
    ensures Truthy(id) || id == Str("")
  {
    var r := Source(it);
    if !Truthy(r) then Or(Get(it, "name"), Str(""))
    else
      var folder := Get(r, "folder");
      Or(ToStringOpt(Get(r, "ulid")), Or(Get(r, "ulid"), Or(ToStringOpt(Get(r, "ulidString")), Or(Get(r, "ref"),
        Or(And(folder, Or(Get(folder, "ulid"), Get(folder, "ref"))), Or(Get(r, "name"), Or(Get(r, "whoAmI"),
        Or(Get(it, "name"), Str("")))))))))
  }

  /** The values `deriveId` considers, in the order it considers them. */
  function IdCandidates(it: JsVal): seq<JsVal> {
    var r := Source(it);
    var folder := Get(r, "folder");
    [ ToStringOpt(Get(r, "ulid")), Get(r, "ulid"), ToStringOpt(Get(r, "ulidString")), Get(r, "ref"),
      And(folder, Or(Get(folder, "ulid"), Get(folder, "ref"))), Get(r, "name"), Get(r, "whoAmI"),
      Get(it, "name") ]
  }

  /** The first truthy value of `vs`, or the empty string when there is none. */
  function FirstTruthy(vs: seq<JsVal>): (v: JsVal)
    ensures v == Str("") ==> forall i :: 0 <= i < |vs| ==> !Truthy(vs[i])
    ensures v != Str("") ==>
      exists i :: 0 <= i < |vs| && vs[i] == v && Truthy(v) && forall j :: 0 <= j < i ==> !Truthy(vs[j])
  {
    if vs == [] then Str("")
    else if Truthy(vs[0]) then vs[0]
    else
      FirstTruthy(vs[1..])
  }

  /** `deriveId` yields the first truthy candidate, or "" when none is: the
      ulid as a string, the ulid itself, the ulidString, the ref, the folder's
      ulid or ref, the name, whoAmI, the entry's own name. */
  lemma DeriveIdFirstTruthy(it: JsVal)
    ensures DeriveId(it) == FirstTruthy(IdCandidates(it))
  {
    var c := IdCandidates(it);
    FirstOfEight(c);
    if !Truthy(Source(it)) {
      assert !Source(it).Obj? && !it.Obj?;
    }
  }

  /** `FirstTruthy` of eight values, written out as `a || (b || …)`. */
  lemma FirstOfEight(c: seq<JsVal>)
    requires |c| == 8
    ensures FirstTruthy(c) == Or(c[0], Or(c[1], Or(c[2], Or(c[3], Or(c[4], Or(c[5], Or(c[6], Or(c[7], Str("")))))))))
  {
    assert c[7..][1..] == [];
    assert c[6..][1..] == c[7..];
    assert c[5..][1..] == c[6..];
    assert c[4..][1..] == c[5..];
    assert c[3..][1..] == c[4..];
    assert c[2..][1..] == c[3..];
    assert c[1..][1..] == c[2..];
    assert FirstTruthy(c[7..]) == Or(c[7], Str(""));
    assert FirstTruthy(c[6..]) == Or(c[6], FirstTruthy(c[7..]));
    assert FirstTruthy(c[5..]) == Or(c[5], FirstTruthy(c[6..]));
    assert FirstTruthy(c[4..]) == Or(c[4], FirstTruthy(c[5..]));
    assert FirstTruthy(c[3..]) == Or(c[3], FirstTruthy(c[4..]));
    assert FirstTruthy(c[2..]) == Or(c[2], FirstTruthy(c[3..]));
    assert FirstTruthy(c[1..]) == Or(c[1], FirstTruthy(c[2..]));
  }

  /** A ULID that is a non-empty string is the id, whatever else the entry carries. */
  lemma UlidFirst(it: JsVal, u: string)
    requires Get(Source(it), "ulid") == Str(u) && u != ""
    ensures DeriveId(it) == Str(u)
  {
  }

  // ---------------------------------------------------------------------
  // handleAccountMissing's test (page.js:26-28)

  /** The chain's "account does not exist" report, as page.js:28 recognises
      it: one of two phrases occurs somewhere in the message. */
  predicate AccountMissing(msg: string) {
    || (exists i :: 0 <= i <= |msg| && OccursAt(msg, NoAccount, i))
    || (exists i :: 0 <= i <= |msg| && OccursAt(msg, SendTokens, i))
  }

  /** It is the page's pair of `includes` tests. */
  lemma AccountMissingIff(msg: string)
    ensures AccountMissing(msg) <==> Contains(msg, NoAccount) || Contains(msg, SendTokens)
  {
    ContainsAt(msg, NoAccount);
    ContainsAt(msg, SendTokens);
  }

  /** A message with neither an "x" (as in "exist") nor a "k" (as in
      "tokens") cannot hold either phrase. */
  lemma WithoutPhraseLetters(m: string)
    requires forall k :: 0 <= k < |m| ==> m[k] != 'x' && m[k] != 'k'
    ensures !AccountMissing(m)
  {
    assert NoAccount[10] == 'x' && SendTokens[12] == 'k';
    MissingCharNoOccurrence(m, NoAccount, 'x');
    MissingCharNoOccurrence(m, SendTokens, 'k');
  }

  /** The adapter's "not supported" failure of a rename never reads as a
      missing account. */
  lemma RenameFailureShown()
    ensures !AccountMissing(Actions.RenameNotSupported)
  {
    WithoutPhraseLetters(Actions.RenameNotSupported);
  }

  /** Nor does the TypeError of a handler without `initStorage`. */
  lemma InitMissingShown()
    ensures !AccountMissing(InitStorageMissing)
  {
    WithoutPhraseLetters(InitStorageMissing);
  }

  // ---------------------------------------------------------------------
  // Full paths (page.js:124, 206-208)

  /** `s.replace(/(^\/|\/\/$)/g, '')`: a leading slash goes, and so does a
      trailing "//" that does not overlap it. */
  function TidyFullPath(s: string): (r: string)
    ensures |s| - 3 <= |r| <= |s|
  {
    var t := if |s| > 0 && s[0] == '/' then s[1..] else s;
    if |t| >= 2 && t[|t| - 2..] == "//" then t[..|t| - 2] else t
  }

  predicate EndsWithDoubleSlash(m: string) {
    |m| >= 2 && m[|m| - 2..] == "//"
  }

  /** Every path is one of four shapes, and the regular expression removes
      exactly the marks that shape carries. */
  lemma TidyCases(m: string)
    ensures !(|m| > 0 && m[0] == '/') && !EndsWithDoubleSlash(m) ==> TidyFullPath(m) == m
    ensures !EndsWithDoubleSlash(m) ==> TidyFullPath("/" + m) == m
    ensures |m| > 0 && m[0] != '/' ==> TidyFullPath(m + "//") == m
    ensures TidyFullPath("/" + m + "//") == m
  {
    assert ("/" + m)[1..] == m;
    assert ("/" + m + "//")[1..] == m + "//";
    assert (m + "//")[..|m|] == m && (m + "//")[|m|..] == "//";
  }

  /** `pathStackIds.join('/')` of a stack that starts at the root begins "s/Home". */
  lemma {:induction false} JoinFromRoot(ids: seq<JsVal>)
    requires |ids| >= |Root| && ids[..|Root|] == Root
    ensures |JoinWith(ids, "/")| >= 6 && JoinWith(ids, "/")[..6] == "s/Home"
  {
    assert ids[0] == Str("s") && ids[1] == Str("Home");
    var rest := ids[1..];
    assert rest[0] == Str("Home");
    assert !Nullish(rest[0]) && ToStr(rest[0]) == "Home";
    var tail := JoinWith(rest, "/");
    assert tail == "Home" || tail == "Home" + "/" + JoinWith(rest[1..], "/");
    assert tail[..4] == "Home";
    assert JoinWith(ids, "/") == "s" + "/" + tail;
  }

  /** In the vault, the tidy step leaves a full path alone unless the name
      ends with a slash: the parent path starts with "s", never with "/". */
  lemma TidyInVault(ids: seq<JsVal>, name: string)
    requires |ids| >= |Root| && ids[..|Root|] == Root
    requires |name| > 0 && name[|name| - 1] != '/'
    ensures TidyFullPath(JoinWith(ids, "/") + "/" + name) == JoinWith(ids, "/") + "/" + name
  {
    JoinFromRoot(ids);
    var s := JoinWith(ids, "/") + "/" + name;
    assert s[0] == 's';
    assert s[|s| - 1] == name[|name| - 1];
    TidyCases(s);
  }

  /** `(items + [v]).join(sep)` for a non-empty `items`. */
  lemma {:induction false} JoinPush(items: seq<JsVal>, v: JsVal, sep: string)
    requires items != []
    ensures JoinWith(items + [v], sep) == JoinWith(items, sep) + sep + (if Nullish(v) then "" else ToStr(v))
    decreases |items|
  {
    JoinFront(items + [v], sep);
    assert (items + [v])[0] == items[0] && (items + [v])[1..] == items[1..] + [v];
    if |items| > 1 {
      JoinPush(items[1..], v, sep);
      JoinFront(items, sep);
    } else {
      assert items[1..] + [v] == [v];
    }
  }

  /** Joining two or more items puts the first one's text, then the
      separator, before the join of the rest. */
  lemma JoinFront(items: seq<JsVal>, sep: string)
    requires |items| > 1
    ensures JoinWith(items, sep) == (if Nullish(items[0]) then "" else ToStr(items[0])) + sep + JoinWith(items[1..], sep)
  {
  }

  // ---------------------------------------------------------------------
  // Upload progress (page.js:131, 155)

  /** `Math.round(k / n * 100)` in exact arithmetic: the integer nearest to
      100·k/n, a half rounded up. */
  function RoundPct(k: nat, n: nat): (p: int)
    requires n > 0
    ensures 2 * n * p <= 200 * k + n < 2 * n * (p + 1)
  {
    (200 * k + n) / (2 * n)
  }

  /** Multiplying by a non-negative factor keeps the order. */
  lemma MulMono(c: int, x: int, y: int)
    requires 0 <= c && x <= y
    ensures c * x <= c * y
  {
    assert c * y - c * x == c * (y - x);
  }

  /** Progress stays within 0..100, starts at 0 and is 100 after the last file. */
  lemma {:induction false} RoundPctBounds(k: nat, n: nat)
    requires 0 < n && k <= n
    ensures 0 <= RoundPct(k, n) <= 100
    ensures k == 0 ==> RoundPct(k, n) == 0
    ensures k == n ==> RoundPct(k, n) == 100
  {
    var p, m := RoundPct(k, n), 2 * n;
    assert m * p <= 200 * k + n < m * (p + 1);
    if p < 0 {
      MulMono(m, p + 1, 0);
    }
    if p > 100 {
      MulMono(m, 101, p);
    }
    if k == 0 && p > 0 {
      MulMono(m, 1, p);
    }
    if k == n && p < 100 {
      MulMono(m, p + 1, 100);
    }
  }

  /** Progress never goes down as more files are done. */
  lemma {:induction false} RoundPctMonotone(j: nat, k: nat, n: nat)
    requires 0 < n && j <= k
    ensures RoundPct(j, n) <= RoundPct(k, n)
  {
    var p, q, m := RoundPct(j, n), RoundPct(k, n), 2 * n;
    assert m * p <= 200 * j + n && 200 * k + n < m * (q + 1);
    if p > q {
      MulMono(m, q + 1, p);
    }
  }

  /** The progress values shown after `i` of `n` uploads: 0 at first, then
      `RoundPct(k, n)` after the k-th, never going down, within 0..100. */
  ghost predicate ProgressShown(shown: seq<int>, i: nat, n: nat) {
    && i <= n && |shown| == i + 1 && shown[0] == 0
    && (forall k :: 0 < k <= i ==> shown[k] == RoundPct(k, n))
    && (forall j, k :: 0 <= j <= k <= i ==> 0 <= shown[j] <= shown[k] <= 100)
  }

  /** Showing the progress after one more upload keeps `ProgressShown`. */
  lemma ProgressShownGrow(shown: seq<int>, i: nat, n: nat)
    requires ProgressShown(shown, i, n) && i < n
    ensures ProgressShown(shown + [RoundPct(i + 1, n)], i + 1, n)
  {
    var p := RoundPct(i + 1, n);
    var shown' := shown + [p];
    RoundPctBounds(i + 1, n);
    if i > 0 {
      RoundPctMonotone(i, i + 1, n);
    }
    assert shown[i] <= p;
    forall j, k | 0 <= j <= k <= i + 1
      ensures 0 <= shown'[j] <= shown'[k] <= 100
    {
      if j <= i < k {
        assert shown'[j] == shown[j] <= shown[i];
      }
    }
  }

  // ---------------------------------------------------------------------
  // The rename skip (page.js:227-228)

  /** `newName && newName !== item.name`, for the answer of the prompt
      (`None` when it was cancelled). */
  predicate ShouldRename(answer: Option<string>, current: JsVal)
    ensures current.Str? ==>
      (ShouldRename(answer, current) <==> answer.Some? && answer.value != "" && answer.value != current.s)
    ensures !current.Str? ==> (ShouldRename(answer, current) <==> answer.Some? && answer.value != "")
  {
    answer.Some? && answer.value != "" && !StrictEquals(Str(answer.value), current)
  }

  // ---------------------------------------------------------------------
  // Messages

  /** The status while a folder loads (page.js:61-63): `^\/?s\/?` is the loose root rule. */
  function LoadingMessage(path: string): (m: string)
    ensures |m| >= 11 && m[..8] == "Loading " && m[|m| - 3..] == "..."
    ensures Paths.StripRootLoose(path) != "" ==> m[8..|m| - 3] == Paths.StripRootLoose(path)
    ensures Paths.StripRootLoose(path) == "" ==> m[8..|m| - 3] == "Home"
  {
    var shown := Paths.StripRootLoose(path);
    "Loading " + (if shown == "" then "Home" else shown) + "..."
  }

  /** The status `refreshDirectory` leaves once the listing settled. On an
      account error it returns early, and the loading message stays. */
  function StatusAfterLoad(path: string, loaded: Result<seq<JsVal>>): (status: string)
    ensures status == "" <==> loaded.Ok?
    ensures loaded.Err? && AccountMissing(loaded.error.message) ==> status == LoadingMessage(path)
    ensures loaded.Err? && !AccountMissing(loaded.error.message) ==>
      |status| >= |loaded.error.message| && status[|status| - |loaded.error.message|..] == loaded.error.message
  {
    if loaded.Ok? then ""
    else if AccountMissing(loaded.error.message) then LoadingMessage(path)
    else "Error loading directory: " + loaded.error.message
  }

  /** `item.name` and friends as a template literal renders them. */
  function Text(v: JsVal): string {
    ToStr(v)
  }

  /** The name a file entry is deleted, downloaded or renamed under:
      `item.raw?.fileMeta?.name || item.name`. */
  function FileName(item: JsVal): JsVal {
    Or(PathGet(item, ["raw", "fileMeta", "name"]), Get(item, "name"))
  }

  /** The last path segment handleDeleteItem builds (page.js:207). */
  function DeleteName(item: JsVal): JsVal {
    if Truthy(Get(item, "isDir")) then DeriveId(item) else FileName(item)
  }

  /** The last path segment handleRenameItem builds (page.js:226). */
  function RenameName(item: JsVal): JsVal {
    if Truthy(Get(item, "isDir")) then Or(PathGet(item, ["raw", "name"]), Get(item, "name")) else FileName(item)
  }

  /** The breadcrumb label of an opened folder: `item?.raw?.whoAmI || item.name`. */
  function Label(item: JsVal): JsVal {
    Or(PathGet(item, ["raw", "whoAmI"]), Get(item, "name"))
  }

  // ---------------------------------------------------------------------
  // The adapter as the page calls it

  /** `uploadFile(storageHandler, file, parentPath)` of jackalActions.js,
      taking the adapter from `w` to `w'` and settling as `r`. */
  ghost predicate UploadStep(h: Handler, w: World, file: JsVal, parentPath: string, w': World, r: Result<JsVal>) {
    Extends(w, w') && Actions.Uploaded(h, w.log, file, Str(parentPath), Made(w, w'), r)
  }

  method Upload(h: Handler, w: World, file: JsVal, parentPath: string) returns (r: Result<JsVal>, w': World)
    requires !w.locked
    ensures UploadStep(h, w, file, parentPath, w', r)
  {
    ghost var enqueue, process;
    r, w', enqueue, process := Actions.UploadFile(Some(h), w, file, Str(parentPath));
    Regroup2(w.log, enqueue, process);
    AppendExtends(w, w', enqueue + process);
    assert Actions.UploadRun(h, w.log, file, Str(parentPath), enqueue, process, r);
    assert Actions.UploadCalls(h, w.log, file, Str(parentPath), Made(w, w'), r);
  }

  /** The files went up one after another into `target`, starting from `w`:
      the k-th upload took the adapter from `worlds[k]` to `worlds[k + 1]`
      and settled as `replies[k]`. Every upload but the last succeeded; the
      run stopped at the first failure, which is `failure`, and otherwise
      covered all the files. */
  ghost predicate UploadedInTurn(h: Handler, w: World, files: seq<JsVal>, target: string, worlds: seq<World>,
                                 replies: seq<Result<JsVal>>, failure: Option<Error>)
  {
    && UploadsSoFar(h, w, files, target, worlds, replies)
    && (failure.None? ==> |replies| == |files| && AllOk(replies))
    && (failure.Some? ==> |replies| > 0 && AllOk(replies[..|replies| - 1]) && replies[|replies| - 1] == Err(failure.value))
  }

  /** The first `|replies|` files went up in turn from `w`: the last
      upload took the adapter from `worlds[|replies| - 1]` to the last
      world, after the run before it. */
  ghost predicate UploadsSoFar(h: Handler, w: World, files: seq<JsVal>, target: string, worlds: seq<World>,
                               replies: seq<Result<JsVal>>)
    decreases |replies|
  {
    && |worlds| == |replies| + 1 && worlds[0] == w && |replies| <= |files|
    && (|replies| > 0 ==>
          && UploadsSoFar(h, w, files, target, worlds[..|replies|], replies[..|replies| - 1])
          && forall k {:trigger StepAt(h, worlds, files, target, replies, k)} ::
               k == |replies| - 1 ==> StepAt(h, worlds, files, target, replies, k))
  }

  /** The k-th upload of a run. */
  ghost predicate StepAt(h: Handler, worlds: seq<World>, files: seq<JsVal>, target: string, replies: seq<Result<JsVal>>, k: int)
    requires 0 <= k < |replies| && |worlds| == |replies| + 1 && |replies| <= |files|
  {
    UploadStep(h, worlds[k], files[k], target, worlds[k + 1], replies[k])
  }

  /** In a run, the k-th upload took the adapter from `worlds[k]` to
      `worlds[k + 1]` and settled as `replies[k]`. */
  lemma {:induction false} UploadsSoFarAt(h: Handler, w: World, files: seq<JsVal>, target: string,
                                          worlds: seq<World>, replies: seq<Result<JsVal>>, k: nat)
    requires UploadsSoFar(h, w, files, target, worlds, replies) && k < |replies|
    ensures UploadStep(h, worlds[k], files[k], target, worlds[k + 1], replies[k])
    decreases |replies|
  {
    if k + 1 < |replies| {
      UploadsSoFarAt(h, w, files, target, worlds[..|replies|], replies[..|replies| - 1], k);
      assert worlds[..|replies|][k] == worlds[k] && worlds[..|replies|][k + 1] == worlds[k + 1];
      assert replies[..|replies| - 1][k] == replies[k];
    } else {
      assert StepAt(h, worlds, files, target, replies, k);
    }
  }

  /** Every reply is a success, stated from the last one back. */
  predicate AllOk(replies: seq<Result<JsVal>>) {
    |replies| == 0 || (replies[|replies| - 1].Ok? && AllOk(replies[..|replies| - 1]))
  }

  /** `AllOk` says that every reply succeeded, and nothing more. */
  lemma {:induction false} AllOkEvery(replies: seq<Result<JsVal>>)
    ensures AllOk(replies) <==> forall k :: 0 <= k < |replies| ==> replies[k].Ok?
  {
    if |replies| > 0 {
      var front := replies[..|replies| - 1];
      AllOkEvery(front);
      assert forall k :: 0 <= k < |front| ==> front[k] == replies[k];
    }
  }

  /** The next upload of a run, from where the last one left the adapter
      (`cur`), recorded after the earlier ones. */
  method UploadNext(h: Handler, ghost w: World, files: seq<JsVal>, target: string, ghost worlds: seq<World>,
                    ghost replies: seq<Result<JsVal>>, i: nat, cur: World)
    returns (r: Result<JsVal>, w1: World, ghost worlds': seq<World>, ghost replies': seq<Result<JsVal>>)
    requires UploadsSoFar(h, w, files, target, worlds, replies) && i == |replies| < |files| && worlds[i] == cur && !cur.locked
    ensures UploadsSoFar(h, w, files, target, worlds', replies')
    ensures |replies'| == i + 1 && replies'[..i] == replies && replies'[i] == r && worlds'[i + 1] == w1
    ensures AllOk(replies') == (AllOk(replies) && r.Ok?)
    ensures Extends(cur, w1)
  {
    r, w1 := Upload(h, cur, files[i], target);
    worlds', replies' := worlds + [w1], replies + [r];
    UploadsSoFarGrow(h, w, files, target, worlds, replies, w1, r);
    assert replies'[..i] == replies;
  }

  /** A run grows by one upload that starts where the run left the adapter. */
  lemma UploadsSoFarGrow(h: Handler, w: World, files: seq<JsVal>, target: string, worlds: seq<World>,
                         replies: seq<Result<JsVal>>, w1: World, r: Result<JsVal>)
    requires UploadsSoFar(h, w, files, target, worlds, replies) && |replies| < |files|
    requires UploadStep(h, worlds[|replies|], files[|replies|], target, w1, r)
    ensures UploadsSoFar(h, w, files, target, worlds + [w1], replies + [r])
  {
    var worlds', replies' := worlds + [w1], replies + [r];
    assert worlds'[..|replies'|] == worlds && replies'[..|replies'| - 1] == replies;
    forall k | k == |replies|
      ensures StepAt(h, worlds', files, target, replies', k)
    {
      assert worlds'[k] == worlds[k] && worlds'[k + 1] == w1 && replies'[k] == r;
    }
  }

  /** `deleteItem(storageHandler, fullPath, isDir)` of jackalActions.js with
      a non-empty path: its missing-argument error cannot occur, so it
      resolves to true or fails with "not supported". */
  method Delete(h: Handler, w: World, fullPath: string, isDir: bool) returns (r: Result<JsVal>, w': World)
    requires !w.locked && fullPath != ""
    ensures Extends(w, w') && Actions.Deleted(h, w.log, fullPath, isDir, Made(w, w'), r)
    ensures r.Ok? ==> r.value == Bool(true)
    ensures r.Err? ==> r.error == Error(Actions.DeleteNotSupported, Undefined)
  {
    ghost var byMethod, byTargets;
    r, w', byMethod, byTargets := Actions.DeleteItem(Some(h), w, fullPath, isDir);
    Regroup2(w.log, byMethod, byTargets);
    AppendExtends(w, w', byMethod + byTargets);
    assert Actions.DeleteRun(h, w.log, fullPath, isDir, byMethod, byTargets, r);
    assert Actions.DeleteCalls(h, w.log, fullPath, isDir, Made(w, w'), r);
  }

  /** `renameItem(storageHandler, oldFullPath, newName, isDir, raw)` of
      jackalActions.js with non-empty arguments: it resolves to true or fails
      with "not supported". */
  method Rename(h: Handler, w: World, oldFullPath: string, newName: string, isDir: bool, raw: JsVal)
    returns (r: Result<JsVal>, w': World)
    requires !w.locked && oldFullPath != "" && newName != ""
    ensures Extends(w, w') && Actions.Renamed(h, w.log, oldFullPath, newName, isDir, raw, Made(w, w'), r)
    ensures r.Ok? ==> r.value == Bool(true)
    ensures r.Err? ==> r.error == Error(Actions.RenameNotSupported, Undefined)
  {
    ghost var moves, rest;
    r, w', moves, rest := Actions.RenameItem(Some(h), w, oldFullPath, newName, isDir, raw);
    Regroup2(w.log, moves, rest);
    AppendExtends(w, w', moves + rest);
    assert Actions.RenameRun(h, w.log, oldFullPath, newName, isDir, raw, moves, rest, r);
    assert Actions.RenameCalls(h, w.log, oldFullPath, newName, isDir, raw, Made(w, w'), r);
  }

  /** `loadDirectoryContents(storageHandler, path)` of jackalActions.js: the
      items it resolves to (or the error it rejects with) and the adapter
      after the reads, as `Listing.ReadSpec` describes them for the path
      with the root stripped by the strict rule. */
  function Loaded(h: Handler, w: World, path: string): (Result<seq<JsVal>>, World) {
    var (raw, after) := Listing.ReadSpec(h, w, Paths.StripRootStrict(path), []);
    (Listing.Shape(raw), after)
  }

  /** `loadDirectoryContents(handler, path)` of jackalActions.js as the page
      calls it: the listing and the adapter afterwards are `Loaded`, and
      only discovery calls and reads of the strictly stripped path are made. */
  method List(h: Handler, w: World, path: string) returns (loaded: Result<seq<JsVal>>, w': World)
    requires !w.locked
    ensures (loaded, w') == Loaded(h, w, path) && Extends(w, w')
    ensures forall s :: s in Made(w, w') ==> Listing.DiscoveryCall(s) || Listing.ReadCall(s, Paths.StripRootStrict(path))
  {
    loaded, w' := Actions.LoadDirectoryContents(Some(h), w, Str(path), []);
    assert Listing.LookupPath(Str(path)) == path;
  }

  /** `path` was listed with `h` from `from`, leaving the adapter as `w'`,
      and the page, whose items and account flag were `items0` and
      `blocked0`, took in what the listing settled as: they are now `items`
      and `blocked`. */
  ghost predicate Relisted(h: Handler, from: World, path: string, w': World, items0: seq<JsVal>, blocked0: bool,
                           items: seq<JsVal>, blocked: bool)
  {
    w' == Loaded(h, from, path).1 && Reloaded(Loaded(h, from, path).0, items0, blocked0, items, blocked)
  }

  /** How the items and the account flag react to a settled listing. */
  predicate Reloaded(loaded: Result<seq<JsVal>>, items0: seq<JsVal>, blocked0: bool, items: seq<JsVal>, blocked: bool) {
    && (loaded.Ok? ==> items == loaded.value && blocked == blocked0)
    && (loaded.Err? && AccountMissing(loaded.error.message) ==> items == items0 && blocked)
    && (loaded.Err? && !AccountMissing(loaded.error.message) ==> items == [] && blocked == blocked0)
  }

  // ---------------------------------------------------------------------
  // The page

  class Page {
    var handler: Option<Handler>   // storageHandler
    var items: seq<JsVal>
    var labels: seq<JsVal>         // pathStack
    var ids: seq<JsVal>            // pathStackIds
    var progress: int              // uploadProgress
    var status: string             // statusMessage
    var blocked: bool

    /** Both stacks have the same length, never shrink below the root and
        start with it; progress is a percentage. */
    ghost predicate Valid()
      reads this
    {
      && |labels| == |ids| >= |Root|
      && ids[..|Root|] == Root && labels[..|Root|] == Root
      && 0 <= progress <= 100
    }

    /** `pathStackIds.join('/')` */
    function Path(): string
      reads this
    {
      JoinWith(ids, "/")
    }

    /** page.js:11-22: the initial state. */
    constructor()
      ensures Valid() && handler.None? && items == [] && ids == Root && labels == Root
      ensures progress == 0 && status == "" && !blocked
      ensures Path() == "s/Home"
    {
      handler := None;
      items := [];
      labels := Root;
      ids := Root;
      progress := 0;
      status := "";
      blocked := false;
      assert Root[1..] == [Str("Home")];
    }

    /** page.js:26-35. The alert and the redirect to the pricing page are not
        modelled; what remains is the flag and the answer. */
    method HandleAccountMissing(e: Error) returns (handled: bool)
      requires Valid()
      modifies this
      ensures Valid()
      ensures handled == AccountMissing(e.message)
      ensures blocked == (old(blocked) || handled)
      ensures handler == old(handler) && items == old(items) && ids == old(ids) && labels == old(labels)
      ensures progress == old(progress) && status == old(status)
    {
      handled := AccountMissing(e.message);
      if handled {
        blocked := true;
      }
    }

    /** page.js:57-73: list `path` with `h` (the page's own handler unless
        the caller passes one) and show the result. */
    method Refresh(path: string, h: Option<Handler>, w: World) returns (w': World)
      requires Valid() && !w.locked
      modifies this
      ensures Valid() && Extends(w, w')
      ensures h.None? ==> w' == w && items == old(items) && status == old(status) && blocked == old(blocked)
      ensures h.Some? ==>
        && Relisted(h.value, w, path, w', old(items), old(blocked), items, blocked)
        && status == StatusAfterLoad(path, Loaded(h.value, w, path).0)
        && forall s :: s in Made(w, w') ==>
             Listing.DiscoveryCall(s) || Listing.ReadCall(s, Paths.StripRootStrict(path))
      ensures handler == old(handler) && ids == old(ids) && labels == old(labels) && progress == old(progress)
    {
      if h.None? {
        return w;
      }
      status := LoadingMessage(path);
      var loaded;
      loaded, w' := List(h.value, w, path);
      TakeIn(path, loaded);
    }

    /** page.js:64-71 once the listing settled: a listing replaces the
        items and clears the status; a missing account keeps the items and
        sets the flag; any other error clears the items and shows it. */
    method TakeIn(path: string, loaded: Result<seq<JsVal>>)
      requires Valid() && status == LoadingMessage(path)
      modifies this
      ensures Valid()
      ensures Reloaded(loaded, old(items), old(blocked), items, blocked) && status == StatusAfterLoad(path, loaded)
      ensures handler == old(handler) && ids == old(ids) && labels == old(labels) && progress == old(progress)
    {
      if loaded.Ok? {
        items := loaded.value;
        status := "";
      } else {
        var handled := HandleAccountMissing(loaded.error);
        if !handled {
          status := "Error loading directory: " + loaded.error.message;
          items := [];
        }
      }
    }

    /** What every handler does once its adapter call settled (for example
        page.js:212-219): on success list `parentPath` again and show
        `done`; on failure stop quietly for a missing account, otherwise
        show `failed` and the message. */
    method Conclude(h: Handler, outcome: Result<JsVal>, parentPath: string, w: World, done: string, failed: string)
      returns (w': World)
      requires Valid() && !w.locked
      modifies this
      ensures Valid() && Extends(w, w')
      ensures outcome.Ok? ==> status == done && Relisted(h, w, parentPath, w', old(items), old(blocked), items, blocked)
      ensures outcome.Err? ==>
        && w' == w && items == old(items)
        && blocked == (old(blocked) || AccountMissing(outcome.error.message))
        && status == (if AccountMissing(outcome.error.message) then old(status) else failed + outcome.error.message)
      ensures handler == old(handler) && ids == old(ids) && labels == old(labels) && progress == old(progress)
    {
      if outcome.Err? {
        var handled := HandleAccountMissing(outcome.error);
        if !handled {
          status := failed + outcome.error.message;
        }
        return w;
      }
      w' := Refresh(parentPath, Some(h), w);
      status := done;
    }

    /** page.js:37-55. `safeUpgradeSigner` is not exported by jackalActions.js,
        so calling it throws a TypeError, which page.js:43 catches: the signer
        is never upgraded here. Then `initStorage` is called, and once it
        resolves the handler is kept and the current folder listed. A handler
        without `initStorage` fails with a TypeError the page shows. */
    method Init(connected: bool, storage: Option<Handler>, w: World)
      returns (w': World, started: Result<JsVal>)
      requires Valid() && !w.locked
      modifies this
      ensures Valid() && Extends(w, w')
      ensures !connected || storage.None? ==>
        w' == w && handler == old(handler) && items == old(items) && status == old(status) && blocked == old(blocked)
      ensures connected && storage.Some? && !Has(storage.value, InitStorage) ==>
        && started == Err(Error(InitStorageMissing, Undefined))
        && w' == w && handler == old(handler) && items == old(items) && blocked == old(blocked)
        && status == "Error initializing storage: " + InitStorageMissing
      ensures connected && storage.Some? && Has(storage.value, InitStorage) ==>
        var h := storage.value;
        && started == Reply(h, w, Call(InitStorage, []))
        && |w'.log| > |w.log| && w'.log[|w.log|] == Sent(Call(InitStorage, []), false)
        && (started.Ok? ==>
              handler == storage && status == ""
              && Relisted(h, Send(w, Call(InitStorage, [])), Path(), w', old(items), old(blocked), items, blocked))
        && (started.Err? ==>
              && w' == Send(w, Call(InitStorage, [])) && handler == old(handler) && items == old(items)
              && blocked == (old(blocked) || AccountMissing(started.error.message))
              && status == (if AccountMissing(started.error.message) then "Initializing Jackal storage..."
                            else "Error initializing storage: " + started.error.message))
      ensures ids == old(ids) && labels == old(labels) && progress == old(progress)
    {
      started := Ok(Undefined);
      if !connected || storage.None? {
        return w, started;
      }
      var h := storage.value;
      status := "Initializing Jackal storage...";
      if !Has(h, InitStorage) {
        started := Err(Error(InitStorageMissing, Undefined));
        InitMissingShown();
        w' := Conclude(h, started, Path(), w, "", "Error initializing storage: ");
        return;
      }
      w', started := InitWith(storage, w);
    }

    /** page.js:45-52 with a handler that has `initStorage`: call it, keep
        the handler once it resolved, then list the current folder. */
    method InitWith(storage: Option<Handler>, w: World) returns (w': World, started: Result<JsVal>)
      requires Valid() && !w.locked && storage.Some? && Has(storage.value, InitStorage)
      modifies this
      ensures Valid() && Extends(w, w')
      ensures started == Reply(storage.value, w, Call(InitStorage, []))
      ensures |w'.log| > |w.log| && w'.log[|w.log|] == Sent(Call(InitStorage, []), false)
      ensures started.Ok? ==>
        handler == storage && status == ""
        && Relisted(storage.value, Send(w, Call(InitStorage, [])), Path(), w', old(items), old(blocked), items, blocked)
      ensures started.Err? ==>
        && w' == Send(w, Call(InitStorage, [])) && handler == old(handler) && items == old(items)
        && blocked == (old(blocked) || AccountMissing(started.error.message))
        && status == (if AccountMissing(started.error.message) then old(status)
                      else "Error initializing storage: " + started.error.message)
      ensures ids == old(ids) && labels == old(labels) && progress == old(progress)
    {
      var h := storage.value;
      started := Reply(h, w, Call(InitStorage, []));
      var sent := Send(w, Call(InitStorage, []));
      if started.Ok? {
        handler := storage;
      }
      w' := Conclude(h, started, Path(), sent, "", "Error initializing storage: ");
      AppendExtends(w, sent, [Sent(Call(InitStorage, []), false)]);
      ExtendsTrans(w, sent, w');
      assert w'.log[|w.log|] == w'.log[..|sent.log|][|w.log|] == sent.log[|w.log|];
    }

    /** page.js:77-85: push the folder's id and label, then list it. A nullish
        item makes `item.name` throw before any state changes. */
    method OpenFolder(item: JsVal, w: World) returns (w': World)
      requires Valid() && !w.locked
      modifies this
      ensures Valid() && Extends(w, w')
      ensures Nullish(item) ==>
        w' == w && ids == old(ids) && labels == old(labels) && items == old(items)
        && status == old(status) && blocked == old(blocked)
      ensures !Nullish(item) ==>
        && ids == old(ids) + [DeriveId(item)] && labels == old(labels) + [Label(item)]
        && Path() == old(Path()) + "/" + ToStr(DeriveId(item))
        && (handler.None? ==> w' == w && items == old(items) && status == old(status) && blocked == old(blocked))
        && (handler.Some? ==>
              && Relisted(handler.value, w, Path(), w', old(items), old(blocked), items, blocked)
              && status == StatusAfterLoad(Path(), Loaded(handler.value, w, Path()).0)
              && forall s :: s in Made(w, w') ==>
                   Listing.DiscoveryCall(s) || Listing.ReadCall(s, Paths.StripRootStrict(Path())))
      ensures handler == old(handler) && progress == old(progress)
    {
      var id := DeriveId(item);
      if Nullish(item) {
        return w;
      }
      JoinPush(ids, id, "/");
      ids := ids + [id];
      labels := labels + [Label(item)];
      assert ids[..|Root|] == old(ids)[..|Root|];
      assert labels[..|Root|] == old(labels)[..|Root|];
      w' := Refresh(Path(), handler, w);
    }

    /** page.js:87-93: at the root nothing happens; otherwise one element
        leaves each stack and the parent is listed. */
    method GoBack(w: World) returns (w': World)
      requires Valid() && !w.locked
      modifies this
      ensures Valid() && Extends(w, w')
      ensures |old(ids)| <= |Root| ==>
        w' == w && ids == old(ids) && labels == old(labels) && items == old(items)
        && status == old(status) && blocked == old(blocked)
      ensures |old(ids)| > |Root| ==>
        && ids == old(ids)[..|old(ids)| - 1] && labels == old(labels)[..|old(labels)| - 1]
        && (handler.None? ==> w' == w && items == old(items) && status == old(status) && blocked == old(blocked))
        && (handler.Some? ==>
              && Relisted(handler.value, w, Path(), w', old(items), old(blocked), items, blocked)
              && status == StatusAfterLoad(Path(), Loaded(handler.value, w, Path()).0)
              && forall s :: s in Made(w, w') ==>
                   Listing.DiscoveryCall(s) || Listing.ReadCall(s, Paths.StripRootStrict(Path())))
      ensures handler == old(handler) && progress == old(progress)
    {
      if |ids| <= |Root| {
        return w;
      }
      ids := ids[..|ids| - 1];
      labels := labels[..|labels| - 1];
      assert ids[..|Root|] == old(ids)[..|Root|];
      assert labels[..|Root|] == old(labels)[..|Root|];
      w' := Refresh(Path(), handler, w);
    }

    /** page.js:129-132 and 153-156: upload the files one after another to
        `target`, updating the progress after each, until one fails. `shown`
        is the sequence of progress values the page went through, and
        `worlds` and `replies` are the uploads as `UploadedInTurn` relates
        them; `done` of them succeeded. */
    method UploadEach(h: Handler, w: World, files: seq<JsVal>, target: string)
      returns (failure: Option<Error>, w': World, ghost done: nat, ghost shown: seq<int>,
               ghost worlds: seq<World>, ghost replies: seq<Result<JsVal>>)
      requires Valid() && !w.locked
      modifies this
      ensures Valid() && Extends(w, w')
      ensures UploadedInTurn(h, w, files, target, worlds, replies, failure) && w' == worlds[|worlds| - 1]
      ensures done <= |files| && (failure.None? <==> done == |files|)
      ensures done == if failure.None? then |replies| else |replies| - 1
      ensures ProgressShown(shown, done, |files|) && progress == shown[done]
      ensures failure.None? && |files| > 0 ==> progress == 100
      ensures handler == old(handler) && items == old(items) && ids == old(ids) && labels == old(labels)
      ensures status == old(status) && blocked == old(blocked)
    {
      progress := 0;
      shown := [0];
      failure := None;
      w' := w;
      worlds, replies := [w], [];
      var i := 0;
      while i < |files|
        invariant ProgressShown(shown, i, |files|) && progress == shown[i]
        invariant UploadsSoFar(h, w, files, target, worlds, replies) && |replies| == i && worlds[i] == w' && AllOk(replies)
        invariant Valid() && Extends(w, w')
        invariant handler == old(handler) && items == old(items) && ids == old(ids) && labels == old(labels)
        invariant status == old(status) && blocked == old(blocked)
      {
        var r, w1;
        ghost var before := replies;
        r, w1, worlds, replies := UploadNext(h, w, files, target, worlds, replies, i, w');
        ExtendsTrans(w, w', w1);
        w' := w1;
        if r.Err? {
          assert replies[..|replies| - 1] == before && replies[|replies| - 1] == Err(r.error);
          failure := Some(r.error);
          assert UploadedInTurn(h, w, files, target, worlds, replies, failure);
          return failure, w', i, shown, worlds, replies;
        }
        ProgressShownGrow(shown, i, |files|);
        progress := RoundPct(i + 1, |files|);
        shown := shown + [progress];
        i := i + 1;
      }
      if |files| > 0 {
        RoundPctBounds(|files|, |files|);
      }
      done := i;
    }

    /** page.js:143-165 (dropping files anywhere on the page): upload them
        into the current folder, then list it. */
    method DropOnRoot(files: seq<JsVal>, w: World)
      returns (w': World, failure: Option<Error>, ghost done: nat, ghost shown: seq<int>,
               ghost worlds: seq<World>, ghost replies: seq<Result<JsVal>>, ghost uploaded: World)
      requires Valid() && !w.locked
      modifies this
      ensures Valid() && Extends(w, w')
      ensures old(handler).None? || |files| == 0 ==>
        w' == w && items == old(items) && status == old(status) && blocked == old(blocked) && progress == old(progress)
      ensures old(handler).Some? && |files| > 0 ==>
        && UploadedInTurn(old(handler).value, w, files, old(Path()), worlds, replies, failure) && uploaded == worlds[|worlds| - 1]
        && done <= |files| && (failure.None? <==> done == |files|)
        && ProgressShown(shown, done, |files|) && progress == shown[done]
        && (failure.None? ==>
              && progress == 100 && status == "Upload complete!"
              && Relisted(old(handler).value, uploaded, old(Path()), w', old(items), old(blocked), items, blocked))
        && (failure.Some? ==>
              && w' == uploaded && items == old(items)
              && blocked == (old(blocked) || AccountMissing(failure.value.message))
              && status == (if AccountMissing(failure.value.message) then "Uploading " + NatToDecimal(|files|) + " file(s)..."
                            else "Upload failed: " + failure.value.message))
      ensures handler == old(handler) && ids == old(ids) && labels == old(labels)
    {
      failure, done, shown, worlds, replies := None, 0, [0], [w], [];
      if handler.None? || |files| == 0 {
        return w, failure, done, shown, worlds, replies, w;
      }
      var parentPath := Path();
      var uploading := "Uploading " + NatToDecimal(|files|) + " file(s)...";
      w', failure, done, shown, worlds, replies, uploaded := UploadAllThenList(handler.value, parentPath, files, parentPath, uploading, w);
    }

    /** page.js:125-140 and 149-164: show `uploading`, upload the files in
        turn into `target`, then list `parentPath` when they all went
        through, or show the failure. */
    method UploadAllThenList(h: Handler, parentPath: string, files: seq<JsVal>, target: string, uploading: string, w: World)
      returns (w': World, failure: Option<Error>, ghost done: nat, ghost shown: seq<int>,
               ghost worlds: seq<World>, ghost replies: seq<Result<JsVal>>, ghost uploaded: World)
      requires Valid() && !w.locked
      modifies this
      ensures Valid() && Extends(w, w')
      ensures UploadedInTurn(h, w, files, target, worlds, replies, failure) && uploaded == worlds[|worlds| - 1]
      ensures done <= |files| && (failure.None? <==> done == |files|)
      ensures ProgressShown(shown, done, |files|) && progress == shown[done]
      ensures failure.None? ==>
        && (|files| > 0 ==> progress == 100) && status == "Upload complete!"
        && Relisted(h, uploaded, parentPath, w', old(items), old(blocked), items, blocked)
      ensures failure.Some? ==>
        && w' == uploaded && items == old(items)
        && blocked == (old(blocked) || AccountMissing(failure.value.message))
        && status == (if AccountMissing(failure.value.message) then uploading else "Upload failed: " + failure.value.message)
      ensures handler == old(handler) && ids == old(ids) && labels == old(labels)
    {
      progress := 0;
      status := uploading;
      var w1;
      failure, w1, done, shown, worlds, replies := UploadEach(h, w, files, target);
      uploaded := w1;
      var outcome := if failure.None? then Ok(Undefined) else Err(failure.value);
      w' := Conclude(h, outcome, parentPath, w1, "Upload complete!", "Upload failed: ");
      ExtendsTrans(w, w1, w');
    }

    /** page.js:115-141 (dropping files on a folder): the same, into the
        folder's full path, tidied; the current folder is listed afterwards.
        A nullish folder makes the status message throw a TypeError before
        anything is uploaded. */
    method DropOnFolder(item: JsVal, files: seq<JsVal>, w: World)
      returns (w': World, target: string, failure: Option<Error>, ghost done: nat, ghost shown: seq<int>,
               ghost worlds: seq<World>, ghost replies: seq<Result<JsVal>>, ghost uploaded: World)
      requires Valid() && !w.locked
      modifies this
      ensures Valid() && Extends(w, w')
      ensures target == TidyFullPath(old(Path()) + "/" + ToStr(DeriveId(item)))
      ensures old(handler).None? || |files| == 0 ==>
        w' == w && items == old(items) && status == old(status) && blocked == old(blocked) && progress == old(progress)
      ensures old(handler).Some? && |files| > 0 && Nullish(item) ==>
        && w' == w && progress == 0 && items == old(items) && failure == Some(ReadOfNullish(item, "name"))
        && blocked == (old(blocked) || AccountMissing(failure.value.message))
        && status == (if AccountMissing(failure.value.message) then old(status) else "Upload failed: " + failure.value.message)
      ensures old(handler).Some? && |files| > 0 && !Nullish(item) ==>
        && UploadedInTurn(old(handler).value, w, files, target, worlds, replies, failure) && uploaded == worlds[|worlds| - 1]
        && done <= |files| && (failure.None? <==> done == |files|)
        && ProgressShown(shown, done, |files|) && progress == shown[done]
        && (failure.None? ==>
              && progress == 100 && status == "Upload complete!"
              && Relisted(old(handler).value, uploaded, old(Path()), w', old(items), old(blocked), items, blocked))
        && (failure.Some? ==>
              && w' == uploaded && items == old(items)
              && blocked == (old(blocked) || AccountMissing(failure.value.message))
              && status == (if AccountMissing(failure.value.message)
                            then "Uploading " + NatToDecimal(|files|) + " file(s) to " + Text(Get(item, "name")) + "..."
                            else "Upload failed: " + failure.value.message))
      ensures handler == old(handler) && ids == old(ids) && labels == old(labels)
    {
      failure, done, shown, worlds, replies := None, 0, [0], [w], [];
      var id := DeriveId(item);
      target := TidyFullPath(Path() + "/" + ToStr(id));
      if handler.None? || |files| == 0 {
        return w, target, failure, done, shown, worlds, replies, w;
      }
      var parentPath := Path();
      if Nullish(item) {
        progress := 0;
        failure := Some(ReadOfNullish(item, "name"));
        w' := Conclude(handler.value, Err(failure.value), parentPath, w, "Upload complete!", "Upload failed: ");
        return w', target, failure, done, shown, worlds, replies, w;
      }
      var uploading := "Uploading " + NatToDecimal(|files|) + " file(s) to " + Text(Get(item, "name")) + "...";
      w', failure, done, shown, worlds, replies, uploaded := UploadAllThenList(handler.value, parentPath, files, target, uploading, w);
    }

    /** page.js:179-200 (the file picker): one file into the current folder;
        progress jumps from 0 to 100 when it is done. `uploaded` is the
        adapter once the upload settled. */
    method FileUpload(file: JsVal, w: World)
      returns (w': World, outcome: Result<JsVal>, ghost uploaded: World)
      requires Valid() && !w.locked
      modifies this
      ensures Valid() && Extends(w, w')
      ensures !Truthy(file) || handler.None? ==>
        w' == w && items == old(items) && status == old(status) && blocked == old(blocked) && progress == old(progress)
      ensures Truthy(file) && handler.Some? ==>
        && UploadStep(handler.value, w, file, Path(), uploaded, outcome)
        && (outcome.Ok? ==>
              && progress == 100 && status == "Upload complete!"
              && Relisted(handler.value, uploaded, Path(), w', old(items), old(blocked), items, blocked))
        && (outcome.Err? ==>
              && w' == uploaded && progress == 0 && items == old(items)
              && blocked == (old(blocked) || AccountMissing(outcome.error.message))
              && status == (if AccountMissing(outcome.error.message) then "Uploading " + Text(Get(file, "name")) + "..."
                            else "Upload failed: " + outcome.error.message))
      ensures handler == old(handler) && ids == old(ids) && labels == old(labels)
    {
      outcome := Ok(Undefined);
      uploaded := w;
      if !Truthy(file) || handler.None? {
        return w, outcome, uploaded;
      }
      progress := 0;
      status := "Uploading " + Text(Get(file, "name")) + "...";
      w', outcome, uploaded := UploadThenList(handler.value, Path(), file, w);
    }

    /** page.js:187-199 once the file is known: the adapter's upload, the
        progress jump on success, then what the page does once it settled. */
    method UploadThenList(h: Handler, parentPath: string, file: JsVal, w: World)
      returns (w': World, outcome: Result<JsVal>, ghost uploaded: World)
      requires Valid() && !w.locked && progress == 0
      modifies this
      ensures Valid() && Extends(w, w')
      ensures UploadStep(h, w, file, parentPath, uploaded, outcome)
      ensures outcome.Ok? ==>
        progress == 100 && status == "Upload complete!"
        && Relisted(h, uploaded, parentPath, w', old(items), old(blocked), items, blocked)
      ensures outcome.Err? ==>
        && w' == uploaded && progress == 0 && items == old(items)
        && blocked == (old(blocked) || AccountMissing(outcome.error.message))
        && status == (if AccountMissing(outcome.error.message) then old(status) else "Upload failed: " + outcome.error.message)
      ensures handler == old(handler) && ids == old(ids) && labels == old(labels)
    {
      var w1;
      outcome, w1 := Upload(h, w, file, parentPath);
      uploaded := w1;
      if outcome.Ok? {
        progress := 100;
      }
      w' := Conclude(h, outcome, parentPath, w1, "Upload complete!", "Upload failed: ");
      ExtendsTrans(w, w1, w');
    }

    /** page.js:204-221: delete the entry at the tidied full path once the
        user confirmed, then list the folder again. The path always reaches
        the adapter non-empty, so its missing-argument error cannot occur and
        a failure is the adapter's "not supported". `deleted` is the adapter
        once the deletion settled. The error alert is not modelled. */
    method HandleDelete(item: JsVal, confirmed: bool, w: World)
      returns (w': World, target: string, outcome: Result<JsVal>, ghost deleted: World)
      requires Valid() && !w.locked
      modifies this
      ensures Valid() && Extends(w, w')
      ensures target == TidyFullPath(old(Path()) + "/" + ToStr(DeleteName(item))) && target != ""
      ensures handler.None? || !Truthy(item) || !confirmed ==>
        w' == w && items == old(items) && status == old(status) && blocked == old(blocked)
      ensures handler.Some? && Truthy(item) && confirmed ==>
        && Extends(w, deleted)
        && Actions.Deleted(handler.value, w.log, target, Truthy(Get(item, "isDir")), Made(w, deleted), outcome)
        && (outcome.Ok? ==>
              outcome.value == Bool(true) && status == "Deleted."
              && Relisted(handler.value, deleted, Path(), w', old(items), old(blocked), items, blocked))
        && (outcome.Err? ==>
              && w' == deleted
              && outcome.error == Error(Actions.DeleteNotSupported, Undefined) && items == old(items)
              && blocked == (old(blocked) || AccountMissing(outcome.error.message))
              && status == (if AccountMissing(outcome.error.message) then "Deleting " + Text(Get(item, "name")) + "..."
                            else "Delete failed: " + outcome.error.message))
      ensures handler == old(handler) && ids == old(ids) && labels == old(labels) && progress == old(progress)
    {
      outcome := Ok(Undefined);
      deleted := w;
      var parentPath := Path();
      target := TidyFullPath(parentPath + "/" + ToStr(DeleteName(item)));
      JoinFromRoot(ids);
      if handler.None? || !Truthy(item) || !confirmed {
        return w, target, outcome, deleted;
      }
      status := "Deleting " + Text(Get(item, "name")) + "...";
      var w1;
      outcome, w1 := Delete(handler.value, w, target, Truthy(Get(item, "isDir")));
      deleted := w1;
      w' := Conclude(handler.value, outcome, parentPath, w1, "Deleted.", "Delete failed: ");
      ExtendsTrans(w, w1, w');
    }

    /** page.js:223-241: rename the entry to the prompt's answer unless it is
        empty, cancelled or the current name; then list the folder again.
        The old full path is not tidied. Both arguments reach the adapter
        non-empty, so a failure is the adapter's "not supported". `renamed`
        is the adapter once the rename settled. */
    method HandleRename(item: JsVal, answer: Option<string>, w: World)
      returns (w': World, oldFullPath: string, outcome: Result<JsVal>, ghost renamed: World)
      requires Valid() && !w.locked
      modifies this
      ensures Valid() && Extends(w, w')
      ensures oldFullPath == old(Path()) + "/" + ToStr(RenameName(item))
      ensures handler.None? || !Truthy(item) || !ShouldRename(answer, Get(item, "name")) ==>
        w' == w && items == old(items) && status == old(status) && blocked == old(blocked)
      ensures handler.Some? && Truthy(item) && ShouldRename(answer, Get(item, "name")) ==>
        && Extends(w, renamed)
        && Actions.Renamed(handler.value, w.log, oldFullPath, answer.value, Truthy(Get(item, "isDir")), Get(item, "raw"),
                           Made(w, renamed), outcome)
        && (outcome.Ok? ==>
              outcome.value == Bool(true) && status == "Renamed."
              && Relisted(handler.value, renamed, Path(), w', old(items), old(blocked), items, blocked))
        && (outcome.Err? ==>
              && w' == renamed
              && outcome.error == Error(Actions.RenameNotSupported, Undefined) && items == old(items)
              && blocked == old(blocked) && status == "Rename failed: " + Actions.RenameNotSupported)
      ensures handler == old(handler) && ids == old(ids) && labels == old(labels) && progress == old(progress)
    {
      outcome := Ok(Undefined);
      renamed := w;
      var parentPath := Path();
      oldFullPath := parentPath + "/" + ToStr(RenameName(item));
      if handler.None? || !Truthy(item) || !ShouldRename(answer, Get(item, "name")) {
        return w, oldFullPath, outcome, renamed;
      }
      var newName := answer.value;
      status := "Renaming " + Text(Get(item, "name")) + " -> " + newName + "...";
      w', outcome, renamed := RenameThenList(handler.value, parentPath, oldFullPath, newName, Truthy(Get(item, "isDir")),
                                             Get(item, "raw"), w);
    }

    /** page.js:228-240 once the arguments are known: the adapter's rename,
        then what the page does once it settled. */
    method RenameThenList(h: Handler, parentPath: string, oldFullPath: string, newName: string, isDir: bool, raw: JsVal,
                          w: World)
      returns (w': World, outcome: Result<JsVal>, ghost renamed: World)
      requires Valid() && !w.locked && oldFullPath != "" && newName != ""
      modifies this
      ensures Valid() && Extends(w, w') && Extends(w, renamed)
      ensures Actions.Renamed(h, w.log, oldFullPath, newName, isDir, raw, Made(w, renamed), outcome)
      ensures outcome.Ok? ==>
        outcome.value == Bool(true) && status == "Renamed." && Relisted(h, renamed, parentPath, w', old(items), old(blocked), items, blocked)
      ensures outcome.Err? ==>
        && w' == renamed
        && outcome.error == Error(Actions.RenameNotSupported, Undefined) && items == old(items)
        && blocked == old(blocked) && status == "Rename failed: " + Actions.RenameNotSupported
      ensures handler == old(handler) && ids == old(ids) && labels == old(labels) && progress == old(progress)
    {
      var w1;
      outcome, w1 := Rename(h, w, oldFullPath, newName, isDir, raw);
      renamed := w1;
      RenameFailureShown();
      w' := Conclude(h, outcome, parentPath, w1, "Renamed.", "Rename failed: ");
      ExtendsTrans(w, w1, w');
    }
  }
}
