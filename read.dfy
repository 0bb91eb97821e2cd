/** src/lib/jackal/read.js: reading a folder listing. The owner addresses to
    read as are discovered when the caller gives none, cleaned of falsy
    values and duplicates, and tried in order; then come an owner-less read
    and the older `loadDirectory` call; whatever answer was obtained is
    normalised into the list of entries the vault shows. The older copy in
    src/lib/jackalActions.js differs only in how it strips the storage root
    from the path, and reuses everything here. */
module Listing {
  import opened Js
  import opened Sdk
  import opened Cascade
  import Paths

  const IcaJackalAddress := "jackalClient.getICAJackalAddress"
  const IcaAddress := "jackalClient.getICAAddress"
  const JackalAddress := "jackalClient.getJackalAddress"
  const ReadDirectory := "readDirectoryContents"
  const LoadDirectory := "loadDirectory"

  // ---------------------------------------------------------------------
  // Owner candidates

  /** The value a resolved call pushes, nothing for a rejected one. */
  function Found(r: Result<JsVal>): seq<JsVal> {
    if r.Ok? then [r.value] else []
  }

  /** The world after `try { owners.push(await handler.jackalClient.m()) }`
      when the method exists. */
  function Asked(h: Handler, w: World, name: string): World {
    if Has(h, name) then Send(w, Call(name, [])) else w
  }

  /** What that statement pushes. */
  function Answer(h: Handler, w: World, name: string): seq<JsVal> {
    if Has(h, name) then Found(Reply(h, w, Call(name, []))) else []
  }

  /** `handler.client.details.address`, when it is truthy. */
  function ClientAddress(h: Handler, w: World): seq<JsVal> {
    var a := Prop(h, w, ["client", "details", "address"]);
    if Truthy(a) then [a] else []
  }

  predicate DiscoveryCall(s: Sent) {
    s.call.name in {IcaJackalAddress, IcaAddress, JackalAddress} && s.call.args == [] && !s.underLock
  }

  method AskAddress(h: Handler, w: World, name: string) returns (found: seq<JsVal>, w': World)
    ensures found == Answer(h, w, name) && w' == Asked(h, w, name)
  {
    found, w' := [], w;
    if Has(h, name) {
      var r := Reply(h, w, Call(name, []));
      w' := Send(w, Call(name, []));
      if r.Ok? {
        found := [r.value];
      }
    }
  }

  /** read.js:9-28 as a reference: the candidates discovery collects and the
      world after it. They are, in this order, the ICA Jackal address, the
      ICA address, the client's address and the Jackal address, each only
      when its getter exists and resolves (or, for the client address, when
      it is truthy). */
  function Discovery(h: Handler, w: World): (seq<JsVal>, World) {
    var w1 := Asked(h, w, IcaJackalAddress);
    var w2 := Asked(h, w1, IcaAddress);
    (Answer(h, w, IcaJackalAddress) + Answer(h, w1, IcaAddress) + ClientAddress(h, w2) + Answer(h, w2, JackalAddress),
     Asked(h, w2, JackalAddress))
  }

  /** read.js:9-28. The candidates are those of `Discovery`; only the three
      getters are called, each at most once, in that order. */
  method DiscoverOwners(h: Handler, w: World) returns (owners: seq<JsVal>, w': World)
    ensures |owners| <= 4
    ensures (owners, w') == Discovery(h, w)
    ensures w'.locked == w.locked && |w.log| <= |w'.log| && w'.log[..|w.log|] == w.log
    ensures !w.locked ==> forall s :: s in Made(w, w') ==> DiscoveryCall(s)
  {
    var a1, a2, a4, w1, w2;
    a1, w1 := AskAddress(h, w, IcaJackalAddress);
    a2, w2 := AskAddress(h, w1, IcaAddress);
    var a3 := ClientAddress(h, w2);
    a4, w' := AskAddress(h, w2, JackalAddress);
    owners := a1 + a2 + a3 + a4;
  }

  /** `Array.from(new Set(candidates.filter(Boolean)))`: the truthy
      candidates, each once, where it first occurred. */
  function Dedupe(xs: seq<JsVal>): (ys: seq<JsVal>)
    ensures forall y :: y in ys ==> Truthy(y) && y in xs
    ensures forall x :: x in xs && Truthy(x) ==> x in ys
    ensures forall i, j :: 0 <= i < j < |ys| ==> ys[i] != ys[j]
    decreases |xs|
  {
    if xs == [] then []
    else
      var front := Dedupe(xs[..|xs| - 1]);
      var x := xs[|xs| - 1];
      assert xs == xs[..|xs| - 1] + [x];
      if Truthy(x) && x !in front then front + [x] else front
  }

  /** Where `x` first occurs in `xs`. */
  function FirstIndex(xs: seq<JsVal>, x: JsVal): (k: nat)
    requires x in xs
    ensures k < |xs| && xs[k] == x && x !in xs[..k]
  {
    if xs[0] == x then 0 else 1 + FirstIndex(xs[1..], x)
  }

  /** The kept candidates are in the order of their first occurrences. */
  lemma {:induction false} DedupeKeepsOrder(xs: seq<JsVal>, i: nat, j: nat)
    requires i < j < |Dedupe(xs)|
    ensures FirstIndex(xs, Dedupe(xs)[i]) < FirstIndex(xs, Dedupe(xs)[j])
    decreases |xs|
  {
    var front := Dedupe(xs[..|xs| - 1]);
    var x := xs[|xs| - 1];
    var ys := Dedupe(xs);
    assert xs == xs[..|xs| - 1] + [x];
    if j < |front| {
      assert ys[i] == front[i] && ys[j] == front[j];
      DedupeKeepsOrder(xs[..|xs| - 1], i, j);
      FirstIndexPrefix(xs, |xs| - 1, ys[i]);
      FirstIndexPrefix(xs, |xs| - 1, ys[j]);
    } else {
      assert ys == front + [x] && ys[j] == x && x !in front;
      assert ys[i] == front[i] && ys[i] in xs[..|xs| - 1];
      FirstIndexPrefix(xs, |xs| - 1, ys[i]);
      assert x !in xs[..|xs| - 1];
      assert FirstIndex(xs, x) == |xs| - 1;
    }
  }

  lemma FirstIndexPrefix(xs: seq<JsVal>, n: nat, x: JsVal)
    requires n <= |xs| && x in xs[..n]
    ensures x in xs && FirstIndex(xs, x) == FirstIndex(xs[..n], x)
  {
    var k := FirstIndex(xs[..n], x);
    assert xs[k] == x;
    var m := FirstIndex(xs, x);
    assert xs[..n][..k] == xs[..k];
  }

  /** `typeof path === 'string' ? path : ''` */
  function LookupPath(path: JsVal): string {
    if path.Str? then path.s else ""
  }

  // ---------------------------------------------------------------------
  // Reading

  /** `result && (result.folders || result.files)` */
  predicate HasListing(v: JsVal) {
    Truthy(v) && (Truthy(Get(v, "folders")) || Truthy(Get(v, "files")))
  }

  function ValueOrNull(r: Result<JsVal>): JsVal {
    if r.Ok? then r.value else Null
  }

  /** `readDirectoryContents(path, { owner, refresh: true })` for each owner. */
  function OwnerOps(path: string, owners: seq<JsVal>): (ops: seq<Op>)
    ensures |ops| == |owners|
    ensures forall j :: 0 <= j < |owners| ==>
      ops[j] == Direct(Call(ReadDirectory, [Str(path), Obj([("owner", owners[j]), ("refresh", Bool(true))])]))
  {
    seq(|owners|, j requires 0 <= j < |owners| =>
      Direct(Call(ReadDirectory, [Str(path), Obj([("owner", owners[j]), ("refresh", Bool(true))])])))
  }

  /** How many owners the loop of read.js:35-48 tries when it gets to owner
      `j`: up to and including the first whose answer has folders or files,
      or all of them. */
  function ListingCount(h: Handler, log: seq<Sent>, ops: seq<Op>, j: nat): (n: nat)
    requires j <= |ops|
    ensures j <= n <= |ops|
    decreases |ops| - j
  {
    if j == |ops| then |ops|
    else if HasListing(ValueOrNull(ReplyAt(h, log, ops, j))) then j + 1
    else ListingCount(h, log, ops, j + 1)
  }

  /** An attempt count `n` whose attempts from `j` on all failed to list,
      except possibly the last, which lists unless all were made, is the
      count `ListingCount` gives. */
  lemma {:induction false} ListingCountFrom(h: Handler, log: seq<Sent>, ops: seq<Op>, j: nat, n: nat)
    requires j <= n <= |ops|
    requires forall k :: j <= k && k + 1 < n ==> !HasListing(ValueOrNull(ReplyAt(h, log, ops, k)))
    requires n == |ops| || (j < n && HasListing(ValueOrNull(ReplyAt(h, log, ops, n - 1))))
    ensures ListingCount(h, log, ops, j) == n
    decreases |ops| - j
  {
    if j < |ops| && !HasListing(ValueOrNull(ReplyAt(h, log, ops, j))) {
      ListingCountFrom(h, log, ops, j + 1, n);
    }
  }

  /** read.js:35-48 as a reference: the answer the owner loop leaves in
      `result` (null when nothing was read) and the world after it. */
  function OwnerRead(h: Handler, w: World, path: string, owners: seq<JsVal>): (JsVal, World) {
    if !Has(h, ReadDirectory) then (Null, w)
    else
      var ops := OwnerOps(path, owners);
      var n := ListingCount(h, w.log, ops, 0);
      (if n == 0 then Null else ValueOrNull(ReplyAt(h, w.log, ops, n - 1)), World(w.locked, w.log + Trail(ops[..n])))
  }

  predicate ReadCall(s: Sent, path: string) {
    s.call.name in {ReadDirectory, LoadDirectory} && |s.call.args| >= 1 && s.call.args[0] == Str(path) && !s.underLock
  }

  /** read.js:35-48. Owners are tried in order (`tried`), each answer
      overwriting `result` (a rejection leaves null), until one has folders
      or files. Without `readDirectoryContents` every owner is still listed
      as tried, but nothing is called and `result` stays null. */
  method OwnerLoop(h: Handler, w: World, path: string, owners: seq<JsVal>)
    returns (result: JsVal, tried: seq<JsVal>, w': World)
    requires !w.locked
    ensures !w'.locked
    ensures |tried| <= |owners| && tried == owners[..|tried|]
    ensures !Has(h, ReadDirectory) ==> tried == owners && result == Null && w' == w
    ensures Has(h, ReadDirectory) ==> w'.log == w.log + Trail(OwnerOps(path, tried))
    ensures Has(h, ReadDirectory) ==>
      forall j :: 0 <= j < |tried| - 1 ==> !HasListing(ValueOrNull(ReplyAt(h, w.log, OwnerOps(path, owners), j)))
    ensures |tried| < |owners| ==> HasListing(result)
    ensures Has(h, ReadDirectory) && |tried| > 0 ==>
      result == ValueOrNull(ReplyAt(h, w.log, OwnerOps(path, owners), |tried| - 1))
    ensures |tried| == 0 ==> result == Null
    ensures (result, w') == OwnerRead(h, w, path, owners)
    ensures forall s :: s in Made(w, w') ==> ReadCall(s, path)
  {
    if !Has(h, ReadDirectory) {
      return Null, owners, w;
    }
    var ops := OwnerOps(path, owners);
    var won, last;
    won, last, w' := TryInOrder(h, w, ops, HasListing);
    var n := AttemptsMade(won, |ops|);
    tried := owners[..n];
    assert ops[..n] == OwnerOps(path, tried);
    result := if last.Some? then ValueOrNull(last.value) else Null;
    forall j | 0 <= j < |tried| - 1
      ensures !HasListing(ValueOrNull(ReplyAt(h, w.log, ops, j)))
    {
      assert !Accepted(ReplyAt(h, w.log, ops, j), HasListing);
    }
    if n < |owners| {
      assert Accepted(ReplyAt(h, w.log, ops, n - 1), HasListing);
    }
    ListingCountFrom(h, w.log, ops, 0, n);
    forall s | s in Made(w, w') ensures ReadCall(s, path) {
      var i :| 0 <= i < |Made(w, w')| && Made(w, w')[i] == s;
      assert s == SentOf(ops[i]);
    }
  }

  /** read.js:50-67 as a reference. Only when the owner loop left `result`
      falsy is the owner-less `readDirectoryContents(path)` made; only when
      that too leaves it falsy is `loadDirectory(path)` made, after which
      `result` is the handler's `children || directory || null` as they read
      then. A rejection leaves null. */
  function FallbackRead(h: Handler, w: World, path: string, result: JsVal): (JsVal, World) {
    if Truthy(result) then (result, w)
    else
      var read := Call(ReadDirectory, [Str(path)]);
      var w1 := if Has(h, ReadDirectory) then Send(w, read) else w;
      var r1 := if Has(h, ReadDirectory) then ValueOrNull(Reply(h, w, read)) else result;
      var load := Call(LoadDirectory, [Str(path)]);
      if Truthy(r1) || !Has(h, LoadDirectory) then (r1, w1)
      else
        var w2 := Send(w1, load);
        (if Reply(h, w1, load).Ok? then Or(Or(Prop(h, w2, ["children"]), Prop(h, w2, ["directory"])), Null) else Null, w2)
  }

  /** read.js:50-67, the fallback reads after the owner loop. */
  method Fallbacks(h: Handler, w: World, path: string, result: JsVal) returns (result': JsVal, w': World)
    requires !w.locked
    ensures !w'.locked
    ensures (result', w') == FallbackRead(h, w, path, result)
    ensures |w.log| <= |w'.log| && w'.log[..|w.log|] == w.log
    ensures forall s :: s in Made(w, w') ==> ReadCall(s, path)
  {
    result', w' := result, w;
    if !Truthy(result') && Has(h, ReadDirectory) {
      var r := Reply(h, w', Call(ReadDirectory, [Str(path)]));
      w' := Send(w', Call(ReadDirectory, [Str(path)]));
      result' := ValueOrNull(r);
    }
    if !Truthy(result') && Has(h, LoadDirectory) {
      var w1 := w';
      var r := Reply(h, w', Call(LoadDirectory, [Str(path)]));
      w' := Send(w', Call(LoadDirectory, [Str(path)]));
      result' := if r.Ok? then Or(Or(Prop(h, w', ["children"]), Prop(h, w', ["directory"])), Null) else Null;
      assert Made(w, w') == Made(w, w1) + [Sent(Call(LoadDirectory, [Str(path)]), false)];
    }
  }

  /** read.js:9-67 as a reference: the raw answer for `lookupPath` and the
      world after the reads. Discovery runs only when the caller gave no
      candidates; the owners are the truthy candidates, each once, in order;
      then come the owner loop and the fallbacks. */
  function ReadSpec(h: Handler, w: World, lookupPath: string, ownerCandidates: seq<JsVal>): (JsVal, World) {
    var found := if |ownerCandidates| == 0 then Discovery(h, w) else (ownerCandidates, w);
    var owned := OwnerRead(h, found.1, lookupPath, Dedupe(found.0));
    FallbackRead(h, owned.1, lookupPath, owned.0)
  }

  /** Lines 9-67 of read.js: what the SDK answered for `lookupPath`, before
      normalisation. Every read call carries `lookupPath`. */
  method ReadRaw(h: Handler, w: World, lookupPath: string, ownerCandidates: seq<JsVal>)
    returns (result: JsVal, w': World)
    requires !w.locked
    ensures (result, w') == ReadSpec(h, w, lookupPath, ownerCandidates)
    ensures Extends(w, w')
    ensures forall s :: s in Made(w, w') ==> DiscoveryCall(s) || ReadCall(s, lookupPath)
    ensures |ownerCandidates| > 0 ==> forall s :: s in Made(w, w') ==> ReadCall(s, lookupPath)
  {
    var candidates := ownerCandidates;
    w' := w;
    if |candidates| == 0 {
      candidates, w' := DiscoverOwners(h, w);
    }
    var owners := Dedupe(candidates);
    var w1, w2 := w', w';
    var tried;
    result, tried, w1 := OwnerLoop(h, w', lookupPath, owners);
    result, w2 := Fallbacks(h, w1, lookupPath, result);
    assert Extends(w', w1) && Extends(w1, w2);
    ExtendsTrans(w', w1, w2);
    assert Extends(w, w');
    ExtendsTrans(w, w', w2);
    w' := w2;
  }

  /** The first truthy candidate is the first owner tried. */
  lemma DedupeFirst(xs: seq<JsVal>)
    requires |xs| > 0 && Truthy(xs[0])
    ensures |Dedupe(xs)| > 0 && Dedupe(xs)[0] == xs[0]
  {
    var ys := Dedupe(xs);
    assert xs[0] in ys;
    var k :| 0 <= k < |ys| && ys[k] == xs[0];
    assert FirstIndex(xs, xs[0]) == 0;
    if k > 0 {
      DedupeKeepsOrder(xs, 0, k);
    }
  }

  /** The owner read of read.js:39 for `owner`. */
  function OwnerCall(path: string, owner: JsVal): Call {
    Call(ReadDirectory, [Str(path), Obj([("owner", owner), ("refresh", Bool(true))])])
  }

  /** When the first candidate's read answers with folders or files, that
      answer is the result and it is the only call made. */
  lemma ReadSpecFirstOwner(h: Handler, w: World, path: string, owners: seq<JsVal>, v: JsVal)
    requires !w.locked && |owners| > 0 && Truthy(owners[0]) && Has(h, ReadDirectory)
    requires Reply(h, w, OwnerCall(path, owners[0])) == Ok(v) && HasListing(v)
    ensures ReadSpec(h, w, path, owners) == (v, Send(w, OwnerCall(path, owners[0])))
  {
    DedupeFirst(owners);
    var ops := OwnerOps(path, Dedupe(owners));
    assert ops[0] == Direct(OwnerCall(path, owners[0]));
    assert ops[..0] == [] && ops[..1] == [ops[0]];
    assert Trail(ops[..0]) == [] && w.log + [] == w.log;
    assert SentOf(ops[0]) == Sent(OwnerCall(path, owners[0]), w.locked);
    assert ReplyAt(h, w.log, ops, 0) == Ok(v);
    assert ListingCount(h, w.log, ops, 0) == 1;
    assert Trail(ops[..1]) == [SentOf(ops[0])];
  }

  /** A handler with neither read method answers nothing: the result is
      null, so the listing is empty, and no call is made. */
  lemma ReadSpecNoReaders(h: Handler, w: World, path: string, owners: seq<JsVal>)
    requires |owners| > 0 && !Has(h, ReadDirectory) && !Has(h, LoadDirectory)
    ensures ReadSpec(h, w, path, owners) == (Null, w)
    ensures Shape(ReadSpec(h, w, path, owners).0) == Ok([])
  {
  }

  /** With only `loadDirectory`, the result is what the handler exposes as
      `children`, else `directory`, once the call resolved, and null after
      a rejection; that call is the only one. */
  lemma ReadSpecLoadOnly(h: Handler, w: World, path: string, owners: seq<JsVal>)
    requires |owners| > 0 && !Has(h, ReadDirectory) && Has(h, LoadDirectory)
    ensures var load := Call(LoadDirectory, [Str(path)]);
      var w' := Send(w, load);
      ReadSpec(h, w, path, owners) ==
        (if Reply(h, w, load).Ok? then Or(Or(Prop(h, w', ["children"]), Prop(h, w', ["directory"])), Null) else Null, w')
  {
  }

  // ---------------------------------------------------------------------
  // Normalisation (read.js:73-93)

  /** A folder of a `{folders, files}` answer as the vault sees it. */
  function FolderEntry(f: JsVal): JsVal {
    Obj([("name", Or(Or(Or(Get(f, "whoAmI"), Get(f, "name")), Get(f, "description")), Str(""))),
         ("isDir", Bool(true)),
         ("raw", f)])
  }

  /** A file of a `{folders, files}` answer as the vault sees it. */
  function FileEntry(file: JsVal): JsVal {
    var meta := Get(file, "fileMeta");
    Obj([("name", Or(Or(Get(meta, "name"), Get(file, "name")), Str(""))),
         ("isDir", Bool(false)),
         ("size", Or(Or(And(meta, Get(meta, "size")), Get(file, "size")), Num(0))),
         ("raw", file)])
  }

  predicate AllObjectLike(xs: seq<JsVal>) {
    forall i :: 0 <= i < |xs| ==> !Nullish(xs[i])
  }

  /** The first null or undefined element, which `map` trips over. */
  function FirstNullish(xs: seq<JsVal>): (i: nat)
    requires !AllObjectLike(xs)
    ensures i < |xs| && Nullish(xs[i])
  {
    if Nullish(xs[0]) then 0 else 1 + FirstNullish(xs[1..])
  }

  /** `Object.values(result.folders || {})` */
  function FolderValues(result: JsVal): seq<JsVal> {
    Values(Or(Get(result, "folders"), Obj([])))
  }

  /** `Object.values(result.files || {})` */
  function FileValues(result: JsVal): seq<JsVal> {
    Values(Or(Get(result, "files"), Obj([])))
  }

  /** The answer as a list of entries. A `{folders, files}` answer becomes
      its folders, then its files, one entry each, and fails only when one
      of them is null or undefined; an array passes through; `{children}`
      with an array gives `children`; anything else gives no entries. */
  function Shape(result: JsVal): (r: Result<seq<JsVal>>)
    ensures HasListing(result) && AllObjectLike(FolderValues(result)) && AllObjectLike(FileValues(result)) ==>
      var folders, files := FolderValues(result), FileValues(result);
      && r.Ok? && |r.value| == |folders| + |files|
      && (forall i :: 0 <= i < |folders| ==> r.value[i] == FolderEntry(folders[i]))
      && (forall i :: 0 <= i < |files| ==> r.value[|folders| + i] == FileEntry(files[i]))
    ensures HasListing(result) && !(AllObjectLike(FolderValues(result)) && AllObjectLike(FileValues(result))) ==> r.Err?
    ensures !HasListing(result) && result.Arr? ==> r == Ok(result.items)
    ensures !HasListing(result) && !result.Arr? && Truthy(result) && Get(result, "children").Arr? ==>
      r == Ok(Get(result, "children").items)
    ensures !HasListing(result) && !result.Arr? && !(Truthy(result) && Get(result, "children").Arr?) ==> r == Ok([])
  {
    if HasListing(result) then
      var folders, files := FolderValues(result), FileValues(result);
      if !AllObjectLike(folders) then Err(ReadOfNullish(folders[FirstNullish(folders)], "whoAmI"))
      else if !AllObjectLike(files) then Err(ReadOfNullish(files[FirstNullish(files)], "fileMeta"))
      else
        Ok(seq(|folders|, i requires 0 <= i < |folders| => FolderEntry(folders[i]))
           + seq(|files|, i requires 0 <= i < |files| => FileEntry(files[i])))
    else if result.Arr? then Ok(result.items)
    else if Truthy(result) && Get(result, "children").Arr? then Ok(Get(result, "children").items)
    else Ok([])
  }

  /** Every normalised entry says whether it is a folder, carries the SDK
      record it came from, has a name that is never null or undefined, and,
      for a file, a size that is never null or undefined (0 at worst). */
  lemma EntryFields(f: JsVal)
    ensures Get(FolderEntry(f), "isDir") == Bool(true) && Get(FolderEntry(f), "raw") == f
    ensures !Nullish(Get(FolderEntry(f), "name"))
    ensures Get(FileEntry(f), "isDir") == Bool(false) && Get(FileEntry(f), "raw") == f
    ensures !Nullish(Get(FileEntry(f), "name")) && !Nullish(Get(FileEntry(f), "size"))
    ensures !Truthy(Get(Get(f, "fileMeta"), "size")) && !Truthy(Get(f, "size")) ==> Get(FileEntry(f), "size") == Num(0)
  {
    var folder, file := FolderEntry(f).fields, FileEntry(f).fields;
    LookupFirst(folder, "name", 0);
    LookupFirst(folder, "isDir", 1);
    LookupFirst(folder, "raw", 2);
    LookupFirst(file, "name", 0);
    LookupFirst(file, "isDir", 1);
    assert "size" != "name" by { assert "size"[0] != "name"[0]; }
    LookupFirst(file, "size", 2);
    LookupFirst(file, "raw", 3);
  }

  /** read.js `loadDirectoryContents(handler, path, ownerCandidates)`. A
      missing handler is rejected with a TypeError before anything is sent.
      Otherwise every read carries the path with its root marker stripped by
      the loose rule, discovery happens only without candidates, and the
      answer is the normalised listing. */
  method LoadDirectoryContents(handler: Option<Handler>, w: World, path: JsVal, ownerCandidates: seq<JsVal>)
    returns (r: Result<seq<JsVal>>, w': World)
    requires !w.locked
    ensures handler.None? ==> r == Err(ReadOfNullish(Null, ReadDirectory)) && w' == w
    ensures handler.Some? ==>
      var (raw, after) := ReadSpec(handler.value, w, Paths.StripRootLoose(LookupPath(path)), ownerCandidates);
      r == Shape(raw) && w' == after
    ensures handler.Some? ==> Extends(w, w')
    ensures handler.Some? ==>
      forall s :: s in Made(w, w') ==> DiscoveryCall(s) || ReadCall(s, Paths.StripRootLoose(LookupPath(path)))
    ensures handler.Some? && |ownerCandidates| > 0 ==>
      forall s :: s in Made(w, w') ==> ReadCall(s, Paths.StripRootLoose(LookupPath(path)))
  {
    if handler.None? {
      return Err(ReadOfNullish(Null, ReadDirectory)), w;
    }
    var lookupPath := Paths.StripRootLoose(LookupPath(path));
    var answer;
    answer, w' := ReadRaw(handler.value, w, lookupPath, ownerCandidates);
    r := Shape(answer);
  }
}
