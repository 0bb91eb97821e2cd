/** The storage SDK object (the "handler") as the adapter layer sees it, and
    the sequential world the adapter functions run in.

    The handler is abstract: which method names it has, what its data
    properties read at any moment, and how each call settles. A call's outcome
    may depend on everything the adapter sent before it and on whether it was
    made while the signer lock was held, so one `Handler` value stands for
    every SDK behaviour at once. The world is the signer-lock flag of
    src/lib/jackal/utils.js together with the calls sent so far. */
module Sdk {
  import opened Js

  datatype Option<T> = None | Some(value: T)

  /** A rejection. `message` is the text the adapter reads with
      `err.message || String(err)`; `data` is `err.data`. */
  datatype Error = Error(message: string, data: JsVal)

  datatype Result<T> = Ok(value: T) | Err(error: Error)

  /** `handler.name(...args)`. Methods of the handler's sub-objects carry
      the sub-object in their name ("jackalClient.getJackalAddress",
      "reader.ulidLookup"), and the SDK's static `NullMetaHandler.create` is
      called the same way. */
  datatype Call = Call(name: string, args: seq<JsVal>)

  /** A call as it was sent, and whether the signer lock was held then. */
  datatype Sent = Sent(call: Call, underLock: bool)

  datatype Handler = Handler(
    methods: set<string>,
    props: seq<Sent> -> JsVal,
    respond: (seq<Sent>, Sent) -> Result<JsVal>)

  /** The module-level `_signerLock` flag and the calls sent so far. */
  datatype World = World(locked: bool, log: seq<Sent>)

  /** `typeof handler.name === 'function'` */
  predicate Has(h: Handler, name: string) {
    name in h.methods
  }

  /** `handler?.k1?.k2…` read in world `w`. */
  function Prop(h: Handler, w: World, path: seq<string>): JsVal {
    PathGet(h.props(w.log), path)
  }

  /** Sending `c` in world `w`. */
  function Send(w: World, c: Call): World {
    World(w.locked, w.log + [Sent(c, w.locked)])
  }

  /** How `c` settles when it is sent in world `w`. */
  function Reply(h: Handler, w: World, c: Call): Result<JsVal> {
    h.respond(w.log, Sent(c, w.locked))
  }

  /** The error of calling something that is not a function. */
  function NotAFunction(name: string): Error {
    Error("handler." + name + " is not a function", Undefined)
  }

  /** The TypeError of reading `key` of a nullish value. */
  function ReadOfNullish(v: JsVal, key: string): Error {
    Error("Cannot read properties of " + (if v.Null? then "null" else "undefined") + " (reading '" + key + "')", Undefined)
  }

  /** The error of using a name that was never imported. */
  function NotDefined(name: string): Error {
    Error(name + " is not defined", Undefined)
  }

  /** `handler.name(...args)` with no check that the method exists. */
  method Invoke(h: Handler, w: World, name: string, args: seq<JsVal>) returns (r: Result<JsVal>, w': World)
    ensures Has(h, name) ==> r == Reply(h, w, Call(name, args)) && w' == Send(w, Call(name, args))
    ensures !Has(h, name) ==> r == Err(NotAFunction(name)) && w' == w
  {
    if Has(h, name) {
      r := Reply(h, w, Call(name, args));
      w' := Send(w, Call(name, args));
    } else {
      r := Err(NotAFunction(name));
      w' := w;
    }
  }

  /** A call as a name and the lock state it was sent in. */
  datatype Tag = Tag(name: string, underLock: bool)

  /** The names and lock states of the calls in `sent`, in order. */
  function Tags(sent: seq<Sent>): (t: seq<Tag>)
    ensures |t| == |sent|
    ensures forall i :: 0 <= i < |sent| ==> t[i] == Tag(sent[i].call.name, sent[i].underLock)
  {
    seq(|sent|, i requires 0 <= i < |sent| => Tag(sent[i].call.name, sent[i].underLock))
  }

  lemma TagsAppend(a: seq<Sent>, b: seq<Sent>)
    ensures Tags(a + b) == Tags(a) + Tags(b)
  {
    assert forall i :: 0 <= i < |a| ==> (a + b)[i] == a[i];
  }

  /** How the `i`-th of the calls an operation `made` settled, the log
      having been `log` when the operation started. */
  function OutcomeOf(h: Handler, log: seq<Sent>, made: seq<Sent>, i: nat): Result<JsVal>
    requires i < |made|
  {
    h.respond(log + made[..i], made[i])
  }

  /** How the calls after a first part `a` settle is how they settle in a
      log that already holds `a`. */
  lemma OutcomeShift(h: Handler, log: seq<Sent>, a: seq<Sent>, b: seq<Sent>, j: nat)
    requires j < |b|
    ensures OutcomeOf(h, log, a + b, |a| + j) == OutcomeOf(h, log + a, b, j)
  {
    assert (a + b)[..|a| + j] == a + b[..j];
    assert log + (a + b[..j]) == (log + a) + b[..j];
  }

  /** Earlier calls settle the same whatever comes after them. */
  lemma OutcomePrefix(h: Handler, log: seq<Sent>, a: seq<Sent>, b: seq<Sent>, i: nat)
    requires i < |a|
    ensures OutcomeOf(h, log, a + b, i) == OutcomeOf(h, log, a, i)
  {
    assert (a + b)[..i] == a[..i];
  }

  /** Regrouping the parts of a log: the parts an operation reports one by
      one are the calls it made. */
  lemma Regroup2(log: seq<Sent>, a: seq<Sent>, b: seq<Sent>)
    ensures log + a + b == log + (a + b)
  {
  }

  lemma Regroup3(log: seq<Sent>, a: seq<Sent>, b: seq<Sent>, c: seq<Sent>)
    ensures log + a + b + c == log + (a + b + c)
  {
  }

  lemma Regroup5(log: seq<Sent>, a: seq<Sent>, b: seq<Sent>, c: seq<Sent>, d: seq<Sent>, e: seq<Sent>)
    ensures log + a + b + c + d + e == log + (a + b + c + d + e)
  {
  }

  /** Sending `c` as the next call of an operation that started on `log`
      and has made the calls `made` so far. */
  method Next(h: Handler, w: World, c: Call, ghost log: seq<Sent>, ghost made: seq<Sent>)
    returns (r: Result<JsVal>, w': World, ghost made': seq<Sent>)
    requires w.log == log + made
    ensures w'.locked == w.locked && w'.log == log + made'
    ensures made' == made + [Sent(c, w.locked)]
    ensures r == OutcomeOf(h, log, made', |made|) && r == Reply(h, w, c)
    ensures forall i :: 0 <= i < |made| ==> OutcomeOf(h, log, made', i) == OutcomeOf(h, log, made, i)
  {
    r := Reply(h, w, c);
    w' := Send(w, c);
    made' := made + [Sent(c, w.locked)];
    assert made'[..|made|] == made;
    forall i | 0 <= i < |made|
      ensures OutcomeOf(h, log, made', i) == OutcomeOf(h, log, made, i)
    {
      OutcomePrefix(h, log, made, [Sent(c, w.locked)], i);
    }
  }

  /** How the `i`-th call of a log settled. */
  function OutcomeAt(h: Handler, log: seq<Sent>, i: nat): Result<JsVal>
    requires i < |log|
  {
    h.respond(log[..i], log[i])
  }

  /** Going from `w` to `w'`, some call was made and the last one was to `name`. */
  predicate EndsWith(w: World, w': World, name: string) {
    |w.log| < |w'.log| && w'.log[|w'.log| - 1].call.name == name
  }

  /** How the last call of a non-empty log settled. */
  function LastOutcome(h: Handler, log: seq<Sent>): Result<JsVal>
    requires |log| > 0
  {
    OutcomeAt(h, log, |log| - 1)
  }

  /** Going from `w` to `w'`, a call to `name` was made and settled as `ok` says. */
  predicate Settled(h: Handler, w: World, w': World, name: string, ok: bool) {
    exists i :: |w.log| <= i < |w'.log| && w'.log[i].call.name == name && OutcomeAt(h, w'.log, i).Ok? == ok
  }

  /** The calls an operation made, going from `w` to `w'`. */
  function Made(w: World, w': World): seq<Sent> {
    if |w.log| <= |w'.log| then w'.log[|w.log|..] else []
  }

  /** Some call in `sent` is to method `name`. */
  predicate Calls(sent: seq<Sent>, name: string) {
    exists i :: 0 <= i < |sent| && sent[i].call.name == name
  }

  /** `w'` extends `w`: calls are only ever appended, and the lock is free. */
  predicate Extends(w: World, w': World) {
    !w'.locked && |w.log| <= |w'.log| && w'.log[..|w.log|] == w.log
  }

  /** Sending one more call after `w1` adds it to what was made since `w`,
      and it is the last call, settling as `Reply` says. */
  lemma SendStep(h: Handler, w: World, w1: World, c: Call)
    requires Extends(w, w1)
    ensures Extends(w, Send(w1, c)) && Extends(w1, Send(w1, c))
    ensures Made(w, Send(w1, c)) == Made(w, w1) + [Sent(c, false)]
    ensures EndsWith(w, Send(w1, c), c.name)
    ensures LastOutcome(h, Send(w1, c).log) == Reply(h, w1, c)
  {
    var w2 := Send(w1, c);
    assert w2.log[..|w1.log|] == w1.log;
    assert w2.log[..|w.log|] == w1.log[..|w.log|];
  }

  /** A world whose log is the old one with calls appended extends it. */
  lemma AppendExtends(w: World, w': World, made: seq<Sent>)
    requires !w'.locked && w'.log == w.log + made
    ensures Extends(w, w') && Made(w, w') == made
  {
    assert w'.log[..|w.log|] == w.log;
  }

  lemma ExtendsTrans(w1: World, w2: World, w3: World)
    requires Extends(w1, w2) && Extends(w2, w3)
    ensures Extends(w1, w3)
    ensures Made(w1, w3) == Made(w1, w2) + Made(w2, w3)
  {
    assert w3.log[..|w1.log|] == w3.log[..|w2.log|][..|w1.log|];
    assert w3.log[|w1.log|..] == w3.log[|w1.log|..|w2.log|] + w3.log[|w2.log|..];
  }

  lemma CallsAppend(a: seq<Sent>, b: seq<Sent>, name: string)
    ensures Calls(a + b, name) <==> Calls(a, name) || Calls(b, name)
  {
    if Calls(a + b, name) {
      var i :| 0 <= i < |a + b| && (a + b)[i].call.name == name;
      if i >= |a| { assert b[i - |a|] == (a + b)[i]; }
    }
    if Calls(a, name) {
      var i :| 0 <= i < |a| && a[i].call.name == name;
      assert (a + b)[i] == a[i];
    }
    if Calls(b, name) {
      var i :| 0 <= i < |b| && b[i].call.name == name;
      assert (a + b)[|a| + i] == b[i];
    }
  }
}
