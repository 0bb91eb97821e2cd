/** The shape every adapter operation shares: an ordered list of SDK calls,
    tried one after another until one of them resolves. */
module Cascade {
  import opened Js
  import opened Sdk
  import SignerLock

  /** One attempt: a call made directly, or wrapped in `withSignerLock`. */
  datatype Op = Direct(call: Call) | Locked(call: Call)

  function SentOf(op: Op): Sent {
    Sent(op.call, op.Locked?)
  }

  /** The calls a list of attempts sends when every one of them is made. */
  function Trail(ops: seq<Op>): (t: seq<Sent>)
    ensures |t| == |ops|
    ensures forall j :: 0 <= j < |ops| ==> t[j] == SentOf(ops[j])
  {
    seq(|ops|, j requires 0 <= j < |ops| => SentOf(ops[j]))
  }

  /** How attempt `j` settles when the `j` attempts before it were all made. */
  function ReplyAt(h: Handler, log: seq<Sent>, ops: seq<Op>, j: nat): Result<JsVal>
    requires j < |ops|
  {
    h.respond(log + Trail(ops[..j]), SentOf(ops[j]))
  }

  /** One attempt, with the lock free before and after it. */
  method Perform(h: Handler, w: World, op: Op) returns (r: Result<JsVal>, w': World)
    requires !w.locked
    ensures !w'.locked && w'.log == w.log + [SentOf(op)]
    ensures r == h.respond(w.log, SentOf(op))
  {
    match op
    case Direct(c) =>
      r := Reply(h, w, c);
      w' := Send(w, c);
    case Locked(c) =>
      var s;
      s, w' := SignerLock.WithSignerLock(h, w, c);
      r := match s
        case Resolved(v) => Ok(v)
        case Rejected(e) => Err(e)
        case Waiting => Err(Error("", Undefined));
  }

  /** An attempt counts as a success when it resolves to a value `accept`
      takes (for most cascades, any value). */
  predicate Accepted(r: Result<JsVal>, accept: JsVal -> bool) {
    r.Ok? && accept(r.value)
  }

  /** The number of attempts made: up to and including the winner, or all. */
  function AttemptsMade(won: Option<nat>, n: nat): nat {
    if won.Some? then won.value + 1 else n
  }

  /** The attempts are made in order until one succeeds. `won` is the index
      of that attempt, if any; every attempt before it was made and failed,
      and none after it was made. `last` is how the last attempt made
      settled. */
  method TryInOrder(h: Handler, w: World, ops: seq<Op>, accept: JsVal -> bool)
    returns (won: Option<nat>, last: Option<Result<JsVal>>, w': World)
    requires !w.locked
    ensures !w'.locked
    ensures won.Some? ==> won.value < |ops| && Accepted(ReplyAt(h, w.log, ops, won.value), accept)
    ensures AttemptsMade(won, |ops|) <= |ops|
    ensures w'.log == w.log + Trail(ops[..AttemptsMade(won, |ops|)])
    ensures forall j :: 0 <= j < |ops| && (won.None? || j < won.value) ==> !Accepted(ReplyAt(h, w.log, ops, j), accept)
    ensures last == if AttemptsMade(won, |ops|) == 0 then None else Some(ReplyAt(h, w.log, ops, AttemptsMade(won, |ops|) - 1))
  {
    var i := 0;
    w' := w;
    last := None;
    while i < |ops|
      invariant 0 <= i <= |ops|
      invariant !w'.locked && w'.log == w.log + Trail(ops[..i])
      invariant forall j :: 0 <= j < i ==> !Accepted(ReplyAt(h, w.log, ops, j), accept)
      invariant last == if i == 0 then None else Some(ReplyAt(h, w.log, ops, i - 1))
    {
      var r;
      assert ReplyAt(h, w.log, ops, i) == h.respond(w'.log, SentOf(ops[i]));
      r, w' := Perform(h, w', ops[i]);
      assert Trail(ops[..i + 1]) == Trail(ops[..i]) + [SentOf(ops[i])];
      last := Some(r);
      if Accepted(r, accept) {
        return Some(i), last, w';
      }
      i := i + 1;
    }
    assert ops[..i] == ops;
    won := None;
  }

  /** The first `n` attempts were made and the last of them resolved. */
  ghost predicate ResolvedAt(h: Handler, log: seq<Sent>, ops: seq<Op>, n: nat) {
    0 < n <= |ops| && ReplyAt(h, log, ops, n - 1).Ok?
  }

  /** The attempts `ops` are made in order and stop at the first that
      resolves; `resolved` says whether one did. Every attempt made before
      the last failed, and when none resolved all of them were made. */
  method FirstResolving(h: Handler, w: World, ops: seq<Op>) returns (resolved: bool, w': World, ghost made: seq<Sent>)
    requires !w.locked
    ensures !w'.locked && w'.log == w.log + made
    ensures |made| <= |ops| && made == Trail(ops[..|made|])
    ensures forall i :: 0 <= i < |made| - 1 ==> ReplyAt(h, w.log, ops, i).Err?
    ensures resolved <==> ResolvedAt(h, w.log, ops, |made|)
    ensures !resolved ==> |made| == |ops|
  {
    var won, last;
    won, last, w' := TryInOrder(h, w, ops, AnyValue);
    made := Trail(ops[..AttemptsMade(won, |ops|)]);
    resolved := won.Some?;
  }

  /** Attempt `i` of those made settles as `ReplyAt` says. */
  lemma TrailOutcome(h: Handler, log: seq<Sent>, ops: seq<Op>, k: nat, i: nat)
    requires i < k <= |ops|
    ensures OutcomeOf(h, log, Trail(ops[..k]), i) == ReplyAt(h, log, ops, i)
  {
    assert Trail(ops[..k])[..i] == Trail(ops[..i]);
  }

  /** Any value counts as success. */
  predicate AnyValue(v: JsVal) {
    true
  }

}
