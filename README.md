# Vestalia vault storage adapter in Dafny

This project models the storage adapter of the Vestalia network front end.
The adapter is the layer between the vault page and the Jackal storage SDK. It
lists folders, uploads, downloads, deletes, renames and shares files. For each
operation it tries a list of SDK methods one after another until one of them
works. The model covers both copies of the adapter:

- the modular one under `src/lib/jackal/`;
- the older `src/lib/jackalActions.js`, which is the one the vault page imports.

It also covers the vault page's own state in `src/app/vault/page.js`: the two
folder stacks, `deriveId`, the account-missing test, full-path construction,
upload progress and the rename skip.

How the model is built:

- **JavaScript values.** Values are a `Js.JsVal` datatype with JavaScript truthiness, `||`, `&&` and `?.` reads.
- **The handler.** The SDK handler is a value. It says which methods exist, what properties read, and how every call settles given the calls made before it. Every reply is therefore a function of the whole call history.
- **The world.** A `World` value holds the signer lock of `utils.js` and the log of SDK calls made so far. Each call records whether it was made inside `withSignerLock`. Every adapter operation is proved against that log: which calls it makes, in which order, with which arguments and under which lock, and how its result follows from the replies.
- **Reference definitions.** Where an operation reads as a chain of strategies, a separate function or predicate states the whole chain from the log (for example `Listing.ReadSpec` for folder listings, `Upload.Processed` for queue processing, `Rename.FallbacksRun` for the rename fallbacks), and the method that runs the chain is proved to agree with it.
- **The page.** The page is a class whose fields are the React state. Its handlers are methods that update those fields.

Modules: `Js` (values), `Sdk` (handler, world, call log), `SignerLock`
(`utils.js`), `Cascade` (ordered attempts), `Paths` (path strings), `Listing`
(`read.js`), `Upload`, `Download`, `Delete`, `Rename`, `Share`, `Actions`
(`jackalActions.js`) and `Vault` (the page).

In several places the code does something different from what its design
promises. The model follows the code:

- `rename.js` wraps `moveRenameResource` in `withSignerLock` but never imports it (rename.js:1-3, 120). The call throws a ReferenceError, which is caught, so that strategy never moves anything.
- `upload.js` calls `safeUpgradeSigner` without importing it (upload.js:77, 99). After a sequence mismatch the queue is therefore never retried while the handler has `upgradeSigner`: the ReferenceError ends the retry and the first rejection is passed on. Before `processAllQueues` the same ReferenceError is thrown and swallowed (upload.js:99), so the signer is never upgraded there either.
- The page imports `safeUpgradeSigner` from `jackalActions.js` (page.js:6), which does not export it. The signer is never upgraded at start-up: the TypeError is caught at page.js:43.
- The design describes a download path for files shared to the user that retries under the owner's identity. `download.js` has only the ULID download and the path download, and that is what the model has.

## Model

| member | source | states |
|---|---|---|
| SignerLock.Acquire | src/lib/jackal/utils.js:17 | taking the lock sets it and leaves the call log alone |
| SignerLock.Release | src/lib/jackal/utils.js:21 | releasing clears the lock and leaves the call log alone |
| SignerLock.WithSignerLock | src/lib/jackal/utils.js:12-23 | while the lock is held nothing runs (the caller keeps waiting); otherwise exactly one call is made under the lock, the lock is clear afterwards whether the call resolved or rejected, and the outcome is the call's own |
| SignerLock.SafeUpgradeSigner | src/lib/jackal/utils.js:39-57 | false with no call for a missing handler or method; otherwise one `upgradeSigner` call under the lock, true when it resolves, false when it rejects; it never rejects |
| SignerLock.GenAesBundle | src/lib/jackal/utils.js:25-36 | fresh 32-byte key and 16-byte IV, filled from the random source in order |
| Cascade.TryInOrder | src/lib/jackal/read.js:35-48 | attempts are made in order until one is accepted; exactly the attempts up to the winner (or all) are logged, every earlier one was refused, and `last` is how the last one settled |
| Cascade.FirstResolving | src/lib/jackal/upload.js:19-46 | the calls made are a prefix of the attempt list, every one but the last rejected, the result is true exactly when the last one resolved, and all were made when none resolved |
| Cascade.TrailOutcome | src/lib/jackal/upload.js:19-46 | the outcome recorded for attempt i in the log is the reply the attempt list predicts for it |
| Paths.Split | src/lib/jackal/rename.js:15-18 | `split('/')` yields at least one part and no part holds a slash |
| Paths.JoinSplit | src/lib/jackal/rename.js:15-18 | `split('/')` then `join('/')` gives back the path |
| Paths.SplitSingle | src/lib/jackal/rename.js:15-18 | a path splits into one part exactly when it has no slash, and that part is the path |
| Paths.SplitAfterSegment | src/lib/jackal/rename.js:15-18 | splitting `seg/rest` gives `seg` followed by the parts of `rest` |
| Paths.JoinAppend | src/lib/jackal/rename.js:15-18 | joining parts plus one more appends `/` and the new part |
| Paths.ParentAndName | src/lib/jackal/rename.js:46-48 | the last segment has no slash; parent, `/` and name rebuild a path that has a slash; a path without one has an empty parent and is its own name |
| Paths.RenameTargetShape | src/lib/jackal/rename.js:12-19 | the target computed by `RenameTarget`: a new value with a slash is the target itself; a bare name replaces the last segment of the old path, or is the target when the old path has no folder; either way the target ends in the new name |
| Paths.SplitThenName | src/lib/jackal/rename.js:15-18 | splitting `dir/name` gives the parts of `dir` followed by `name` |
| Paths.SplitAfterSegmentPath | src/lib/jackal/rename.js:15-18 | the last segment of `dir/name` is `name` |
| Paths.RenameInFolder | src/lib/jackal/rename.js:12-19 | renaming `dir/old` to a bare name gives `dir/new`: a rename stays in its folder |
| Paths.RenameExamples | src/lib/jackal/rename.js:12-19 | "Home/a.txt" renamed to "b.txt" is "Home/b.txt"; to "Old/b.txt" it is "Old/b.txt" |
| Paths.StripRulesCompared | src/lib/jackal/read.js:33 | the strict root rule changes a path exactly when its first segment is `s`; the `s/` rule exactly for a leading `s/`; the loose rule for any leading `s`; all three agree on a leading `s/`; the loose rule departs from the strict one exactly when a longer first segment starts with `s` |
| Paths.StripExamples | src/lib/jackalActions.js:50 | the loose rule turns "shared" into "hared" where the strict and `s/` rules keep it; all agree on "s/Home"; only the `s/` rule keeps "/s/Home" |
| Paths.StripRootLoose | src/lib/jackal/read.js:33 | the loose root rule only removes a prefix of at most three characters: the result is a suffix of the path |
| Paths.StripRootStrict | src/lib/jackalActions.js:50 | the strict root rule only removes a prefix of at most three characters: the result is a suffix of the path |
| Paths.StripSPrefix | src/lib/jackal/download.js:39 | removing a leading `s/` only removes a prefix of at most two characters: the result is a suffix of the path |
| Listing.AskAddress | src/lib/jackal/read.js:10-20 | the address lookup made for one candidate, and its answer, are what the handler gives for it |
| Listing.DiscoverOwners | src/lib/jackal/read.js:9-28 | at most four owners: the ICA Jackal address, the ICA address, the client's address and the Jackal address, in that order, each only when its getter exists and resolves (the client's only when truthy); only the three getters are called, once each, in that order |
| Listing.Dedupe | src/lib/jackal/read.js:30 | the kept owners are truthy candidates, every truthy candidate is kept, and none is kept twice |
| Listing.DedupeKeepsOrder | src/lib/jackal/read.js:30 | kept owners appear in the order of their first occurrence among the candidates |
| Listing.OwnerLoop | src/lib/jackal/read.js:35-48 | owners are tried in order with `readDirectory` until one answer holds a listing; the owners tried are a prefix of the list, the log holds exactly their reads, each read before the last gave no listing, stopping early means a listing was found; the answer and the adapter are those of the reference `OwnerRead` |
| Listing.Fallbacks | src/lib/jackal/read.js:50-67 | the answer and the adapter are those of the reference `FallbackRead`: a truthy result is kept with no call; otherwise the owner-less `readDirectory(path)`, and only when that leaves it falsy `loadDirectory(path)`, after which the result is the handler's `children`, else `directory`, else null; a rejection gives null |
| Listing.ReadRaw | src/lib/jackal/read.js:9-67 | the raw answer and the adapter afterwards are those of the reference `ReadSpec`: discovery only without candidates, the truthy candidates once each in order, the owner loop, then the fallback reads; every call is a discovery call or a read of the lookup path, and with owners given only reads |
| Listing.ReadSpecFirstOwner | src/lib/jackal/read.js:35-48 | with owners given, when the first one is truthy and its read resolves with a listing, that answer is the result and that read is the only call |
| Listing.ReadSpecNoReaders | src/lib/jackal/read.js:35-67 | with owners given and neither reading method, nothing is called, the answer is null and the listing is empty |
| Listing.ReadSpecLoadOnly | src/lib/jackal/read.js:50-67 | with owners given and only `loadDirectory`, that is the one call, and the answer is `children`, else `directory`, else null once it resolved, null when it rejected |
| Listing.DedupeFirst | src/lib/jackal/read.js:30 | a truthy first candidate is the first owner tried |
| Listing.OwnerOps | src/lib/jackal/read.js:37-40 | one `readDirectory(path, {owner, refresh: true})` per owner, in the owners' order |
| Listing.Shape | src/lib/jackal/read.js:73-93 | a listing becomes its folders then its files as entries; a listing with a nullish folder or file entry is a TypeError; an array passes through; an object with an array `children` gives those children; anything else is empty |
| Listing.EntryFields | src/lib/jackal/read.js:74-85 | folder entries are directories and carry their record as `raw`; file entries are not; both have a non-nullish name; a file's size is never nullish, and it is 0 when neither size field is truthy |
| Listing.LoadDirectoryContents | src/lib/jackal/read.js:5-94 | a missing handler is a TypeError with no call; otherwise the items are `Shape` of what `ReadSpec` answers for the path with its root stripped by the loose rule, and the adapter is left as `ReadSpec` leaves it; only discovery calls and reads of that path are made, and with owners given only reads |
| Upload.QueueAttempts | src/lib/jackal/upload.js:19-46 | every enqueue attempt is a direct call of a method from the list that the handler has |
| Upload.QueueAttemptsOrdered | src/lib/jackal/upload.js:19-46 | the attempts are grouped by method, in the order of the method list |
| Upload.QueueAttemptsShapes | src/lib/jackal/upload.js:19-46 | every attempt passes the file and folder in one of the argument shapes upload.js tries |
| Upload.QueueAttemptsComplete | src/lib/jackal/upload.js:19-46 | every method of the list the handler has is tried with every argument shape |
| Upload.ProcessQueueLocked | src/lib/jackal/upload.js:51-95 | `processQueue` under the lock, the lock clear afterwards; success exactly when the first call resolved, or was rejected as already in the cache, or the retry resolved; any failure is the first call's rejection, even when the retry was rejected too; the retry is made exactly after a sequence mismatch when the handler has no `upgradeSigner` (with one, the missing import's ReferenceError ends the retry) |
| Upload.ProcessAllQueuesLocked | src/lib/jackal/upload.js:98-122 | no upgrade is made (the missing import's error is swallowed); one `processAllQueues` under the lock; an event-timeout report of a successful transaction and an already-cached rejection count as success; any other rejection is passed on |
| Upload.ProcessPendingLast | src/lib/jackal/upload.js:124-128 | only the first present of `processPending`, `processPendingNotifications` and `saveFolder` is called, without the lock; the first two pass on their rejection, `saveFolder`'s is swallowed; with none, success and no call |
| Upload.UploadFile | src/lib/jackal/upload.js:7-129 | the directory switch to the parent with its leading `s/` removed, then the enqueue cascade into it; when no attempt resolves, "No queue method available" and nothing is processed; otherwise the calls and the outcome are those `Processed` states |
| Upload.Enqueue | src/lib/jackal/upload.js:11-49 | the directory switch, then the enqueue attempts into the cleaned parent: a prefix of the attempt list, each before the last rejected, queued exactly when the last resolved, all of them made when none did |
| Upload.Switch | src/lib/jackal/upload.js:11-17 | the `loadDirectory({path})` switch is made, outside the lock, exactly when the handler has no `queueFile` but has `loadDirectory` |
| Upload.Process | src/lib/jackal/upload.js:51-128 | the processing makes the calls and settles as `processQueue` does when present, else `processAllQueues`, else the pending-queue fallbacks |
| Upload.MethodAttempts | src/lib/jackal/upload.js:19-46 | the attempts for one method are direct calls of that method, and there are none when the handler lacks it |
| Download.PoolRun | src/lib/jackal/download.js:17-34 | the bootstrap's calls and verdict: `getAvailableProviders()` is the first call whenever the pool is not loaded and the method exists; `findProviderIps(providers)` follows whenever that answer resolved non-empty and the method exists, and `loadProviderPool(ips)` likewise after the IPs; true exactly when that load resolves |
| Download.EnsureProviderPool | src/lib/jackal/download.js:5-35 | no handler means false with no call; a loaded pool means true with no call; otherwise the calls and the verdict are exactly `PoolRun`'s, so each present step after a non-empty answer is taken; it never rejects |
| Download.TrackerOrDefault | src/lib/jackal/download.js:42-44 | the tracker is always truthy, and a caller's truthy tracker is kept |
| Download.UlidCandidate | src/lib/jackal/download.js:53 | the first truthy of `raw.ulid`, `raw.fileMeta.ulid` and `raw.cid`, else `raw.fid`; null without `raw` |
| Download.UserAddress | src/lib/jackal/download.js:59-71 | the Jackal address getter is called once exactly when the handler has it, and no other call is made; the address is `AddressOf` |
| Download.AddressOf | src/lib/jackal/download.js:59-71 | with the getter, its resolved answer alone (a rejection gives null) whatever the client or wallet hold; without it, the client's truthy address, else the wallet's truthy address, else null |
| Download.TryByUlid | src/lib/jackal/download.js:52-85 | the getter is asked first when present; the ULID download is made exactly for a truthy candidate, a handler with the method and a truthy `AddressOf`, with the ULID, tracker and that address as its argument; it yields a value exactly when it resolved, and that value |
| Download.DownloadFile | src/lib/jackal/download.js:37-95 | the pool check makes exactly `PoolRun`'s calls and is ready exactly when `PoolRun` says true; no handler, or a pool that is not ready, is the "Unable to connect" error with nothing downloaded; once ready, the ULID download is made exactly as `TryByUlid` says and a resolved one is the answer; otherwise the path download with the `s/`-stripped path is made exactly when the handler has it, and its outcome, value or error, is the answer; without it, the TypeError of the missing method |
| Delete.FailedToDeleteNamesFile | src/lib/jackal/delete.js:134 | the final error message names the file |
| Delete.Prepare | src/lib/jackal/delete.js:17-34 | the calls made before any delete are the directory switch to the parent (or "Home") and the listing of the current folder, each only when the handler has the method |
| Delete.ByTargets | src/lib/jackal/delete.js:36-48 | `deleteTargets({targets: [name]})` under the lock exactly when the handler has it; a resolve deletes; a rejection moves on exactly when it is tolerated ("invalid request" or "code 18") and otherwise aborts with that rejection |
| Delete.TryTargets | src/lib/jackal/delete.js:36-48 | the method makes exactly the calls and reaches exactly the verdict `ByTargets` describes |
| Delete.StartOf | src/lib/jackal/delete.js:55 | `start` defaults to 0 only when it is undefined |
| Delete.ByMerkle | src/lib/jackal/delete.js:50-78 | the content-addressed delete is tried only for a file whose `raw` carries file metadata, never aborts, and deletes only when its last call resolved |
| Delete.TryMerkle | src/lib/jackal/delete.js:50-78 | the method makes exactly the calls and reaches exactly the verdict `ByMerkle` describes |
| Delete.ByUlid | src/lib/jackal/delete.js:80-94 | `queueDelete(ulid)` under the lock exactly for a truthy ULID and a handler with the method; then `processQueue` under the lock exactly when that resolved and the method exists; deleted exactly when the first resolved and, when `processQueue` exists, it resolved too; never aborts |
| Delete.TryUlid | src/lib/jackal/delete.js:80-94 | the method makes exactly the calls and reaches exactly the verdict `ByUlid` describes |
| Delete.Publish | src/lib/jackal/delete.js:112-127 | one to three calls starting with the null-metadata creation; a third call is a broadcast, under the lock, of a non-empty message list; deleting requires that broadcast to resolve |
| Delete.TryPublish | src/lib/jackal/delete.js:112-127 | the method makes exactly the calls and reaches exactly the verdict `Publish` describes, with the AES bundle from the random source |
| Delete.ByFileTree | src/lib/jackal/delete.js:96-132 | never aborts; calls anything only when the reader has `ulidLookup` and `findRefIndex`: the item's ULID lookup, its ref index and the parent's ULID lookup; the null-metadata creation follows exactly when those three resolved with a truthy ULID, a defined ref and a truthy parent ULID, and carries those answers; at most six calls; deletes only through a broadcast of a non-empty message list |
| Delete.TryFileTree | src/lib/jackal/delete.js:96-132 | the method makes exactly the calls and reaches exactly the verdict `ByFileTree` describes |
| Delete.TryLastResorts | src/lib/jackal/delete.js:80-134 | the ULID delete, then the file-tree delete only when the ULID one fell through; deleted exactly when one of them deleted |
| Delete.TryFallbacks | src/lib/jackal/delete.js:50-134 | the content-addressed delete, then the last resorts only when it did not delete; deleted exactly when one of them deleted |
| Delete.DeleteItem | src/lib/jackal/delete.js:8-135 | missing arguments are an error with no call; otherwise preparation, `deleteTargets`, then the content-addressed, ULID and forced deletes, each only when every earlier one fell through; true exactly when one deleted; an abort passes its rejection on; any other failure is the error naming the file |
| Share.FirstPresent | src/lib/jackal/share.js:27-54 | the index of the first method of the preference list the handler has, and none before it is present |
| Share.ReadMeta | src/lib/jackal/share.js:16-24 | the metadata comes from `raw` when it has it, else from one `getFileMetaData` call when the handler has it, a rejection reading as null; the lock is untouched |
| Share.Payload | src/lib/jackal/share.js:29-52 | the granting, revoking and `shareFile` methods get the cleaned path and no ULID; the viewer-list methods get the address in a list and the ULID, and no path |
| Share.Outcome | src/lib/jackal/share.js:29-33 | success exactly when the call resolved, reporting `success: true` and the method used; otherwise the call's own error |
| Share.Grant | src/lib/jackal/share.js:14-60 | the metadata lookup, then one call, under the lock, of the first method present with its payload, whose outcome decides; with none, the "no method" error and no further call |
| Share.ShareFile | src/lib/jackal/share.js:7-61 | missing arguments are an error with no call; otherwise `Grant` over the share methods with the `s/`-stripped path |
| Share.UnshareFile | src/lib/jackal/share.js:63-107 | missing arguments are an error with no call; otherwise `Grant` over the unshare methods |
| Share.GrantedShape | src/lib/jackal/share.js:26-56 | at most one metadata call and one signed call; no signed call exactly when no method is present; success exactly when that call resolved, naming its method; otherwise the "none" error |
| Share.Preference | src/lib/jackal/share.js:26-54 | `grantViewerAccess` wins whenever present; `addViewers` is used exactly when the two before it are missing; unsharing prefers `revokeViewerAccess` and fails exactly when both unshare methods are missing |
| Share.UnshareMirrorsShare | src/lib/jackal/share.js:85-98 | `revokeViewerAccess` sends what `grantViewerAccess` sends and `removeViewers` what `addViewers` sends; `shareFile` names the viewer, and no unshare payload has a viewer field |
| Share.Listed | src/lib/jackal/share.js:130-139 | an array reply lists its items; anything else, including a rejection, lists nothing |
| Share.GetFileViewers | src/lib/jackal/share.js:109-152 | missing arguments are an error with no call; otherwise the result is always a list, never a rejection: after the metadata lookup, `listViewers` by ULID, else `getViewers` by path, else the metadata's viewers |
| Share.ArrayOrEmpty | src/lib/jackal/share.js:130-139 | an array's items, and nothing for any other value |
| Rename.MoveArg | src/lib/jackal/rename.js:28-33 | the rename methods get the target's last segment, which has no slash; the move methods get the whole target |
| Rename.MoveAttempt | src/lib/jackal/rename.js:26-39 | method `m` is attempted exactly when the handler has it, once, directly, with the old path and its second argument |
| Rename.MoveAttempts | src/lib/jackal/rename.js:24-40 | at most one attempt per listed method; each is a direct call, with the old path and its second argument, of a listed method the handler has |
| Rename.MoveAttemptsOrdered | src/lib/jackal/rename.js:24-40 | the move attempts follow the order of the method list |
| Rename.MoveAttemptsComplete | src/lib/jackal/rename.js:24-40 | every listed method the handler has is attempted |
| Rename.CopyThenDelete | src/lib/jackal/rename.js:43-52 | with `downloadFile`: download of the source, upload of the copy through upload.js, then delete of the original through delete.js; each step only after the one before it went through; done exactly when all three did; without the method no call and not done |
| Rename.UploadCopy | src/lib/jackal/rename.js:49 | the copy's upload makes exactly the calls, and settles exactly as, upload.js's `uploadFile` (`Upload.UploadFile`) does from the same log |
| Rename.DeleteOriginal | src/lib/jackal/rename.js:50 | the deletion of the original makes exactly the calls, and settles exactly as, delete.js's `deleteItem` (`Delete.DeleteItem`) does from the same log |
| Rename.Copy | src/lib/jackal/rename.js:133-146 | the calls of the copy strategy are one run of it (`Copied`), starting with the download of the source when any call is made |
| Rename.MetaOf | src/lib/jackal/rename.js:63-64 | the metadata is truthy exactly when `raw` carries a truthy value under the key |
| Rename.StopIndex | src/lib/jackal/rename.js:83 | the search stops at the first entry that is nullish or matches by name; every entry before it is neither; with none it runs to the end |
| Rename.FindFirst | src/lib/jackal/rename.js:93 | `find` gives the first matching entry with none matching or nullish before it, nothing exactly when no entry is nullish or matches, and a TypeError when it reaches a nullish entry first |
| Rename.AfterListing | src/lib/jackal/rename.js:81-85 | after a listing settled the metadata is the one already known or a matching entry of the list; a rejection or a non-array listing keeps the one known |
| Rename.LookUpMeta | src/lib/jackal/rename.js:66-97 | known metadata makes no call; otherwise the direct lookup, then the listing, the listing only while nothing was found; only those two calls are made, none under the lock |
| Rename.MoveRef | src/lib/jackal/rename.js:102 | the truthy `ref` of the file metadata, else of the folder metadata, else of `raw`; it is 0 exactly when none of them has one |
| Rename.MoveField | src/lib/jackal/rename.js:104-112 | a folder target gets `folder` and a file target `file`, always truthy; there is none exactly when neither the kind's metadata nor `raw` is truthy |
| Rename.MoveTarget | src/lib/jackal/rename.js:102-112 | the target reads back the new name and the ref, the location only when truthy, and only the field of its kind |
| Rename.TargetFieldsRead | src/lib/jackal/rename.js:102-112 | reading the target back gives the name, the ref, the location only when truthy, and only the field of the target's kind |
| Rename.ValidTargetIff | src/lib/jackal/rename.js:114 | the target is valid exactly when the item's metadata of its kind or `raw` is truthy |
| Rename.LookUpItem | src/lib/jackal/rename.js:63-97 | only the item's own kind is looked up (by path for a file, by ULID and then the listing for a folder); the other kind stays as `raw` carries it |
| Rename.ReadLocation | src/lib/jackal/rename.js:99-100 | one `readCurrentLocation` call when the handler has it, its rejection read as null; null with no call otherwise |
| Rename.MoveFailure | src/lib/jackal/rename.js:101-130 | the strategy always ends in an error: the construction error exactly when neither the kind's metadata nor `raw` is truthy, and otherwise the ReferenceError of the missing `withSignerLock` |
| Rename.MoveByResource | src/lib/jackal/rename.js:59-130 | the lookups and the location read are made and `moveRenameResource` is never called; the strategy ends with the error `MoveFailure` names |
| Rename.Fallbacks | src/lib/jackal/rename.js:42-146 | after the move loop failed, the run is the reference `FallbacksRun`: the early copy between loosely stripped paths (files only), which ends the rename when it went through; otherwise the move strategy's lookups when the handler has `moveRenameResource` (which itself is never called), then the copy of the full paths, whose success is the rename's |
| Rename.EarlyCopy | src/lib/jackal/rename.js:42-57 | no call for a folder; for a file, one run of the copy strategy between the loosely stripped paths |
| Rename.MoveStep | src/lib/jackal/rename.js:59-130 | with `moveRenameResource`, the move strategy's lookups and location read, and never the move itself; without it, no call |
| Rename.LateFallbacks | src/lib/jackal/rename.js:59-146 | the move strategy's calls, then the copy of the full paths, whose success decides |
| Rename.RenameItem | src/lib/jackal/rename.js:9-149 | missing arguments are an error with no call; otherwise the move attempts are a prefix of the method list, each one before the last rejected; a resolve means true with nothing else; otherwise every method was tried, then the fallbacks ran as `FellBack` states, and the rename is true exactly when they went through, else "not supported" |
| Rename.FallBackOrFail | src/lib/jackal/rename.js:42-148 | once no move resolved, the fallbacks run as `FellBack` states; true exactly when they went through, else "not supported" |
| Actions.LoadDirectoryContents | src/lib/jackalActions.js:16-120 | as in read.js (`Shape` of what `ReadSpec` answers, the adapter left as `ReadSpec` leaves it), but with the path's storage root stripped by the strict rule |
| Actions.ProcessQueueRetrying | src/lib/jackalActions.js:197-223 | the upgrade, `processQueue`, and after a sequence mismatch only a second upgrade and one retry, which decides; a failed retry reports the first rejection |
| Actions.RetryAtMostOnce | src/lib/jackalActions.js:197-223 | at most one retry, made only after a sequence mismatch; a failure is always the first rejection; success exactly when the first call or the retry resolved |
| Actions.ProcessAllQueues | src/lib/jackalActions.js:225-231 | the upgrade (its rejection ignored), then one direct `processAllQueues` whose rejection is passed on |
| Actions.ProcessUploads | src/lib/jackalActions.js:196-245 | `processQueue` with its retry when present, else `processAllQueues`, else the processors of last resort |
| Actions.UploadFile | src/lib/jackalActions.js:158-246 | no handler is the TypeError with no call; the enqueue cascade into the parent path as given; "No queue method available" when none resolves, with nothing processed; otherwise processing decides |
| Actions.Attempt | src/lib/jackalActions.js:283-290 | each attempt first calls its method with the path, in a list for names ending in `s`; only `queueDelete` adds `processQueue` |
| Actions.AttemptMethod | src/lib/jackalActions.js:281-298 | one step of the loop makes exactly the calls of `Attempt` for the method and deletes exactly when it says |
| Actions.TryMethodsStep | src/lib/jackalActions.js:280-300 | a method the handler lacks is skipped; one it has is attempted and ends the loop when it deletes |
| Actions.TryDeleteMethods | src/lib/jackalActions.js:280-300 | the loop makes exactly the calls, and deletes exactly when, the method cascade says |
| Actions.TryMethodsCalls | src/lib/jackalActions.js:280-300 | every call of the loop is a listed method the handler has, with its argument, or the `processQueue` after `queueDelete` |
| Actions.TryMethodsTriesAll | src/lib/jackalActions.js:280-300 | when the loop deleted nothing, every listed method the handler has was called |
| Actions.TryMethodsNone | src/lib/jackalActions.js:280-300 | with none of the methods present, no call is made and nothing is deleted |
| Actions.TargetOps | src/lib/jackalActions.js:302-322 | three distinct direct `deleteTargets` calls with one argument each when the handler has the method, none otherwise |
| Actions.DeleteItem | src/lib/jackalActions.js:256-326 | missing arguments are an error with no call; the method loop of the item's kind first; `deleteTargets` in three argument shapes only when the loop deleted nothing; true, or "Delete not supported" once all were tried |
| Actions.CopyThenDelete | src/lib/jackalActions.js:382-399 | with `downloadFile`: download, upload of the copy through this module's upload, delete through this module's delete, each only after the one before went through; done exactly when all three did |
| Actions.UploadCopy | src/lib/jackalActions.js:390 | the copy's upload makes exactly the calls, and settles exactly as, this module's `uploadFile` (`Actions.UploadFile`) does from the same log |
| Actions.DeleteOriginal | src/lib/jackalActions.js:391 | the deletion of the original makes exactly the calls, and settles exactly as, this module's `deleteItem` (`Actions.DeleteItem`) does from the same log |
| Actions.Copy | src/lib/jackalActions.js:504-520 | the calls of the copy strategy are one run of it (`Copied`), starting with the download of the source when any call is made |
| Actions.MoveByResource | src/lib/jackalActions.js:402-502 | the same lookups as rename.js; `moveRenameResource` is called, with the target in a list, exactly when the target is valid, and decides the strategy |
| Actions.LegacyTargetChecked | src/lib/jackalActions.js:462-479 | the target is valid exactly when the kind's metadata or `raw` is truthy; it carries the new last segment; its ref is 0 exactly when no source has a truthy ref |
| Actions.Fallbacks | src/lib/jackalActions.js:381-520 | the run is the reference `FallbacksRun`: the early copy between strictly stripped paths (files only), which ends the rename when it went through; then `moveRenameResource` when present, which ends it when it resolved; then the late copy, whose success decides |
| Actions.MoveStep | src/lib/jackalActions.js:402-502 | with `moveRenameResource`, one run of the move strategy (`Moved`), which moved exactly when the call was made and resolved; without it, no call and nothing moved |
| Actions.LateFallbacks | src/lib/jackalActions.js:402-520 | the move strategy, then, only when it did not move, the copy of the full paths, whose success decides |
| Actions.RenameItem | src/lib/jackalActions.js:335-523 | missing arguments are an error with no call; the move attempts of rename.js in the same order; a resolve means true with nothing else; otherwise the fallbacks ran as `FellBack` states, and the rename is true exactly when they went through, else "Rename/Move not supported" |
| Actions.FallBackOrFail | src/lib/jackalActions.js:381-522 | once no move resolved, the fallbacks run as `FellBack` states; true exactly when they went through, else "Rename/Move not supported" |
| Vault.DeriveId | src/app/vault/page.js:75 | the id is truthy or the empty string |
| Vault.FirstTruthy | src/app/vault/page.js:75 | the first truthy value with every earlier one falsy, or "" exactly when none is truthy |
| Vault.DeriveIdFirstTruthy | src/app/vault/page.js:75 | the id is the first truthy candidate in the documented order (ulid string, ulid, ulidString, ref, folder ulid or ref, name, whoAmI, entry name), else "" |
| Vault.FirstOfEight | src/app/vault/page.js:75 | the first truthy of eight candidates is their `\|\|` chain ending in "" |
| Vault.UlidFirst | src/app/vault/page.js:75 | a non-empty string ULID is the id whatever else the entry carries |
| Vault.AccountMissingIff | src/app/vault/page.js:26-28 | the account-missing test holds exactly when one of its two phrases occurs in the message |
| Vault.WithoutPhraseLetters | src/app/vault/page.js:26-28 | a message without the letters `x` and `k` never counts as a missing account |
| Vault.RenameFailureShown | src/app/vault/page.js:235-240 | the rename's "not supported" error is not taken for a missing account, so the page shows it |
| Vault.InitMissingShown | src/app/vault/page.js:48-51 | the TypeError of a missing `initStorage` is not taken for a missing account, so the page shows it |
| Vault.TidyFullPath | src/app/vault/page.js:208 | tidying removes at most three characters and never adds any |
| Vault.TidyCases | src/app/vault/page.js:206-208 | a leading slash and a trailing `//` are removed exactly when present; a path with neither is kept |
| Vault.JoinFromRoot | src/app/vault/page.js:8 | a stack starting at the root joins to a path that starts with "s/Home" |
| Vault.TidyInVault | src/app/vault/page.js:124 | inside the vault, tidying leaves a full path unchanged unless the name ends in a slash |
| Vault.JoinPush | src/app/vault/page.js:77-85 | pushing an id appends `/` and the id to the joined path |
| Vault.RoundPct | src/app/vault/page.js:131 | the progress is the integer nearest to 100·k/n, with a half rounded up |
| Vault.RoundPctBounds | src/app/vault/page.js:131 | progress lies in 0..100, is 0 before any file and 100 after the last |
| Vault.RoundPctMonotone | src/app/vault/page.js:155 | progress never goes down as more files finish |
| Vault.ProgressShownGrow | src/app/vault/page.js:131 | showing the progress after one more file keeps the shown values in order, within 0..100, each equal to `RoundPct` |
| Vault.ShouldRename | src/app/vault/page.js:227-228 | a rename goes ahead exactly for a non-empty answer that differs from the current name (any non-empty answer when the name is not a string) |
| Vault.LoadingMessage | src/app/vault/page.js:61-63 | "Loading ", the loosely stripped path (or "Home" when that is empty), then "..." |
| Vault.StatusAfterLoad | src/app/vault/page.js:57-73 | the status is empty exactly after a listing; a missing account leaves the loading message; any other error ends with its message |
| Vault.Upload | src/lib/jackalActions.js:158-246 | one upload of the page is one run of the adapter's `uploadFile` (`Actions.Uploaded`): the log only grows, by exactly the calls that run states |
| Vault.UploadsSoFarAt | src/app/vault/page.js:129-132 | in a run of uploads, the k-th upload took the adapter from the k-th world to the next and settled as the k-th reply |
| Vault.UploadsSoFarGrow | src/app/vault/page.js:129-132 | a run grows by one upload that starts where the run left the adapter |
| Vault.AllOkEvery | src/app/vault/page.js:129-132 | `AllOk` holds exactly when every reply succeeded |
| Vault.UploadNext | src/app/vault/page.js:129-132 | the next upload starts where the run left the adapter and extends the run by its reply |
| Vault.Delete | src/lib/jackalActions.js:256-326 | with a non-empty path, the delete is one run of the adapter's `deleteItem` (`Actions.Deleted`): its calls and whether it gives true or "Delete not supported" |
| Vault.Rename | src/lib/jackalActions.js:335-523 | with non-empty arguments, the rename is one run of the adapter's `renameItem` (`Actions.Renamed`): its calls and whether it gives true or "Rename/Move not supported" |
| Vault.List | src/app/vault/page.js:64 | the page's listing call gives the items and adapter `Loaded` states (`ReadSpec` on the strictly stripped path, then `Shape`), with only discovery calls and reads of that path |
| Vault.Page.constructor | src/app/vault/page.js:11-22 | both stacks start at the root, so the path is "s/Home"; no handler, no items, progress 0, no status, not blocked |
| Vault.Page.HandleAccountMissing | src/app/vault/page.js:26-35 | answers the test and sets the blocked flag when it holds; nothing else changes |
| Vault.Page.Refresh | src/app/vault/page.js:57-73 | lists the path through the strict-rule reader: the items and the adapter follow `Loaded` (that is `ReadSpec` then `Shape`): a listing replaces the items; an account error keeps them and blocks; other errors clear them and show the message |
| Vault.Page.TakeIn | src/app/vault/page.js:64-71 | a listing replaces the items and clears the status; a missing account keeps the items, sets the flag and leaves the loading message; any other error clears the items and shows "Error loading directory: " and the message |
| Vault.Page.Conclude | src/app/vault/page.js:212-219 | after an operation: success lists the folder again as `Refresh` does and shows the done message; failure keeps the items and is quiet for a missing account, otherwise shows the message |
| Vault.Page.Init | src/app/vault/page.js:37-55 | when connected with storage: `initStorage` is the first call made; once it resolves the handler is kept and the folder listed as `Refresh` does; on failure the status says so; without `initStorage`, its TypeError is shown and nothing is called |
| Vault.Page.InitWith | src/app/vault/page.js:45-52 | `initStorage` is the first call; once it resolved the handler is kept and the current folder listed as `Refresh` does; a failure is shown unless it is a missing account |
| Vault.Page.OpenFolder | src/app/vault/page.js:77-85 | the folder's id and label are pushed, the path grows by `/id`, and the new folder is listed; a nullish item changes nothing |
| Vault.Page.GoBack | src/app/vault/page.js:87-93 | at the root nothing happens; otherwise each stack loses its top and the parent is listed |
| Vault.Page.UploadEach | src/app/vault/page.js:129-132 | the files are uploaded in order until one fails; after the k-th file the progress is RoundPct(k, n), the values shown never go down, and they end at 100 when every file went through |
| Vault.Page.DropOnRoot | src/app/vault/page.js:143-165 | files dropped anywhere go to the current folder with progress as in `UploadEach`, then the folder is listed; with no handler or no files nothing changes |
| Vault.Page.UploadAllThenList | src/app/vault/page.js:125-140 | the files are uploaded in turn with progress as in `UploadEach`; when all went through the folder is listed as `Refresh` does and the status is "Upload complete!"; otherwise the failure is shown unless it is a missing account |
| Vault.Page.DropOnFolder | src/app/vault/page.js:115-141 | files dropped on a folder go to its tidied full path; a nullish folder fails with the TypeError before any upload; the current folder is listed afterwards |
| Vault.Page.FileUpload | src/app/vault/page.js:179-200 | one picked file goes to the current folder; progress is 100 on success and 0 on failure |
| Vault.Page.UploadThenList | src/app/vault/page.js:187-199 | one run of the adapter's upload; on success the progress is 100, the folder is listed as `Refresh` does and the status is "Upload complete!"; on failure the progress stays 0 and the failure is shown unless it is a missing account |
| Vault.Page.HandleDelete | src/app/vault/page.js:204-221 | after confirmation the entry at the tidied full path (id for folders, file name for files), which is never empty, is deleted by one run of the adapter's `deleteItem`; success lists the folder again as `Refresh` does; failure is "Delete not supported" |
| Vault.Page.HandleRename | src/app/vault/page.js:223-241 | the rename is skipped for an empty, cancelled or unchanged answer; otherwise the untidied old full path is renamed by one run of the adapter's `renameItem`; success lists the folder again as `Refresh` does; failure is "Rename/Move not supported" |
| Vault.Page.RenameThenList | src/app/vault/page.js:228-240 | one run of the adapter's `renameItem`; success shows "Renamed." and lists the folder as `Refresh` does; failure keeps the items and shows "Rename/Move not supported" |

## Left out

- Concurrency: operations run one at a time from a clear signer lock. Every top-level operation requires the lock to be free. A lock held by someone else shows up only as "waiting" in `WithSignerLock`, since the 50 ms polling loop has no end in a sequential model.
- The SDK handler is an opaque oracle. Its methods, properties and replies are inputs, and sub-objects such as `jackalClient.getJackalAddress` are method names with a dot.
- A missing handler in the modular adapter: the functions that take `Handler` directly do not model the TypeError of reading from null. The legacy adapter and the top-level entry points do model it (`handler: Option<Handler>`).
- Randomness, clocks and the browser: the AES bytes come from a `random` parameter (`window.crypto` and `Math.random` are not modelled), and `setTimeout` is not modelled.
- Logging: `console.debug`, `console.warn` and `console.error` are not modelled. An error message is `err.message` as a string.
- Non-string paths: arguments that are not strings are not modelled, except where the code tests for them.
- Rename.ReadLocation: `readCurrentLocation` is treated as one call whose reply is read as settled, whether it returns a promise or not.
- The nested signer lock: `safeUpgradeSigner` takes the signer lock itself, and upload.js:77 would call it inside the lock taken at upload.js:52, where it would wait forever. Since the function is never imported, the call throws before that and the model has no such hang.
- Listing.Dedupe: duplicates are removed by structural equality of values, whereas the JavaScript `Set` at read.js:30 compares objects by identity. The two agree on the strings and numbers the address getters return.
- ContainsIgnoringCase: the case-insensitive tests fold ASCII letters only, where a JavaScript `/i` regular expression also folds other letters. The patterns tested are ASCII.
- Numbers: `Js.Num` holds integers; fractional numbers are not modelled.
- Js.ToStr: values have no methods of their own. `toString` is always the default conversion, so an object-valued ULID (page.js:75, download.js:57) reads as "[object Object]" rather than through the object's own `toString`.
- Vault.RoundPct: `Math.round` on a floating-point quotient is modelled as exact rational rounding. The two agree except where floating-point error crosses a half.
- The page's UI: alerts, `confirm` and `prompt` (their answers are parameters), the pricing redirect, the `loading` and `uploading` flags, the drag-over highlight, the window drag listeners and the delayed progress reset are not modelled.
- `handleDownload` and `handleCreateFolder` are not modelled: they call adapter functions outside this model (`downloadFile` of the legacy adapter and folder creation).
- The wallet context (`useWallet`) and React effects are not modelled. `Init` takes `connected` and `storage` as parameters.

## Findings

| source | as written | input that shows it | evidently intended | confidence | as-written member | corrected member |
|---|---|---|---|---|---|---|
| src/lib/jackal/read.js:33 | `/^\/?s(\/?|$)/` makes the slash after the root marker optional, so any path that starts with `s` loses that letter | the folder path "shared" is looked up as "hared" (the same rule is at rename.js:21-22) | strip `s` only as a whole first segment, `/^\/?s(\/|$)/`, as jackalActions.js:50 does | medium, not executed | Paths.StripRootLoose (shown by Paths.StripExamples) | Paths.StripRootStrict (proved by Paths.StripRulesCompared; used by every adapter call the vault page makes) |
