/** src/lib/jackal/utils.js: the storage root, the signer lock that
    serialises signing requests, the signer upgrade that never fails, and the
    AES bundle generator. */
module SignerLock {
  import opened Js
  import opened Sdk

  /** `JACKAL_ROOT`: the storage root marker and the home folder. */
  const JackalRoot: seq<string> := ["s", "Home"]

  /** How an awaited promise ends up, seen sequentially: it resolves, it
      rejects, or it keeps waiting for a lock that nobody will release. */
  datatype Settled<T> = Resolved(value: T) | Rejected(error: Error) | Waiting

  /** `_signerLock = true` */
  function Acquire(w: World): (w': World)
    requires !w.locked
    ensures w'.locked && w'.log == w.log
  {
    World(true, w.log)
  }

  /** `_signerLock = false` in the `finally` block. */
  function Release(w: World): (w': World)
    ensures !w'.locked && w'.log == w.log
  {
    World(false, w.log)
  }

  /** `withSignerLock(() => handler.name(...args))`. While the flag is set,
      entry only polls every 50 ms; run sequentially nothing can clear the
      flag meanwhile, so entry never gets past the polling and `fn` is not
      called. Otherwise the flag is set, the call is made under it, and the
      flag is cleared however the call settles, whose value or error is
      passed on unchanged. */
  method WithSignerLock(h: Handler, w: World, c: Call) returns (s: Settled<JsVal>, w': World)
    ensures w.locked ==> s == Waiting && w' == w
    ensures !w.locked ==> !w'.locked && w'.log == w.log + [Sent(c, true)]
    ensures !w.locked ==>
      match h.respond(w.log, Sent(c, true))
      case Ok(v) => s == Resolved(v)
      case Err(e) => s == Rejected(e)
  {
    if w.locked {
      return Waiting, w;
    }
    var held := Acquire(w);
    var r := Reply(h, held, c);
    w' := Release(Send(held, c));
    match r
    case Ok(v) => s := Resolved(v);
    case Err(e) => s := Rejected(e);
  }

  /** `safeUpgradeSigner(handler)`: false, without touching the lock, for a
      missing handler or one without `upgradeSigner`; otherwise the upgrade
      runs under the lock and the answer is whether it resolved. A rejection,
      whether the user declined the request or not, only yields false. */
  method SafeUpgradeSigner(handler: Option<Handler>, w: World) returns (s: Settled<bool>, w': World)
    ensures handler.None? || !Has(handler.value, "upgradeSigner") ==> s == Resolved(false) && w' == w
    ensures handler.Some? && Has(handler.value, "upgradeSigner") && w.locked ==> s == Waiting && w' == w
    ensures handler.Some? && Has(handler.value, "upgradeSigner") && !w.locked ==>
      var upgrade := Sent(Call("upgradeSigner", []), true);
      && !w'.locked && w'.log == w.log + [upgrade]
      && s == Resolved(handler.value.respond(w.log, upgrade).Ok?)
    ensures !s.Rejected?
  {
    if handler.None? || !Has(handler.value, "upgradeSigner") {
      return Resolved(false), w;
    }
    var settled;
    settled, w' := WithSignerLock(handler.value, w, Call("upgradeSigner", []));
    match settled
    case Resolved(_) => s := Resolved(true);
    case Rejected(_) => s := Resolved(false);
    case Waiting => s := Waiting;
  }

  /** `genAesBundle()`: a fresh 32-byte key and a fresh 16-byte iv, filled
      from a source of random bytes (`window.crypto.getRandomValues` or
      `Math.random`), key first. */
  method GenAesBundle(random: nat -> bv8) returns (key: array<bv8>, iv: array<bv8>)
    ensures fresh(key) && fresh(iv)
    ensures key.Length == 32 && iv.Length == 16
    ensures forall i :: 0 <= i < 32 ==> key[i] == random(i)
    ensures forall i :: 0 <= i < 16 ==> iv[i] == random(32 + i)
  {
    key := new bv8[32];
    iv := new bv8[16];
    for i := 0 to 32
      invariant forall j :: 0 <= j < i ==> key[j] == random(j)
    {
      key[i] := random(i);
    }
    for i := 0 to 16
      invariant forall j :: 0 <= j < 32 ==> key[j] == random(j)
      invariant forall j :: 0 <= j < i ==> iv[j] == random(32 + j)
    {
      iv[i] := random(32 + i);
    }
  }

  /** The bundle as the value handed on to the SDK: `{key, iv}`. */
  function BundleValue(key: seq<bv8>, iv: seq<bv8>): JsVal {
    Obj([("key", Bytes(key)), ("iv", Bytes(iv))])
  }

  function Bytes(b: seq<bv8>): JsVal {
    Arr(seq(|b|, i requires 0 <= i < |b| => Num(b[i] as int)))
  }
}
