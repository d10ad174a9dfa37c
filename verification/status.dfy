/**
 The framework's status values as the kernel produces them, and the
 early-exit discipline of its status macros: a sequence of foreign calls
 runs until the first one that fails, whose error is returned unchanged.
 */
module Status {
  import opened Shapes
  import opened Variables
  import opened Calls

  /** Errors of the rasterize op. `CallFailed` is the status a foreign call
      returned, passed on verbatim. `RankCheckAbort` is no status at all:
      it stands for the fatal check in `TensorShape::RemoveLastDims`, which
      aborts the process when a handled variable has fewer dimensions than
      its kind removes. The kernel reports all the others itself as
      invalid-argument errors. */
  datatype Error =
    | NamesKindsSizeMismatch
    | NamesValuesSizeMismatch
    | SizeMismatch
    | UnhandledVariable(name: string, kind: Kind, dtype: DType)
    | UnhandledVariableWithShape(name: string, kind: Kind, shape: Shape, dtype: DType)
    | IncompatibleBatchShape(name: string, batchShape: Shape)
    | RankCheckAbort(name: string, shape: Shape)
    | CallFailed(call: Call)

  datatype Result<+T> = Ok(value: T) | Err(error: Error)

  /** The foreign calls made, in order, and the final status. */
  datatype Outcome<+T> = Outcome(trace: seq<Call>, status: Result<T>)

  /** Makes `calls` in order until one fails, as a chain of status checks
      that each return on error does. */
  function Execute(calls: seq<Call>, succeeds: Call -> bool): Outcome<()>
    decreases |calls|
  {
    if |calls| == 0 then Outcome([], Ok(()))
    else if !succeeds(calls[0]) then Outcome([calls[0]], Err(CallFailed(calls[0])))
    else
      var rest := Execute(calls[1..], succeeds);
      Outcome([calls[0]] + rest.trace, rest.status)
  }

  /** `Execute` makes a prefix of the calls, all of them when it succeeds. */
  lemma {:induction false} ExecuteMakesPrefix(calls: seq<Call>, succeeds: Call -> bool)
    ensures var o := Execute(calls, succeeds);
      && |o.trace| <= |calls| && o.trace == calls[..|o.trace|]
      && (o.status.Ok? ==> o.trace == calls)
    decreases |calls|
  {
    if |calls| > 0 && succeeds(calls[0]) {
      ExecuteMakesPrefix(calls[1..], succeeds);
      assert calls == [calls[0]] + calls[1..];
    }
  }

  /** `Execute` succeeds exactly when every call succeeds. */
  lemma {:induction false} ExecuteOkIffAllSucceed(calls: seq<Call>, succeeds: Call -> bool)
    ensures Execute(calls, succeeds).status.Ok? <==> forall j | 0 <= j < |calls| :: succeeds(calls[j])
    decreases |calls|
  {
    if |calls| > 0 && succeeds(calls[0]) {
      ExecuteOkIffAllSucceed(calls[1..], succeeds);
      assert forall j | 1 <= j < |calls| :: calls[j] == calls[1..][j - 1];
    }
  }

  /** When `Execute` fails, every call it made but the last succeeded, and
      the last one failed and gave its error. */
  lemma {:induction false} ExecuteFailsAtLast(calls: seq<Call>, succeeds: Call -> bool)
    ensures var o := Execute(calls, succeeds);
      && (o.status.Err? ==>
            && |o.trace| > 0
            && !succeeds(o.trace[|o.trace| - 1])
            && o.status.error == CallFailed(o.trace[|o.trace| - 1]))
      && (forall j | 0 <= j < |o.trace| - 1 :: succeeds(o.trace[j]))
    decreases |calls|
  {
    if |calls| > 0 && succeeds(calls[0]) {
      ExecuteFailsAtLast(calls[1..], succeeds);
      var rest := Execute(calls[1..], succeeds).trace;
      assert forall j | 1 <= j < |rest| + 1 :: ([calls[0]] + rest)[j] == rest[j - 1];
    }
  }

  /** `Execute` makes a prefix of the calls. It succeeds exactly when every
      call succeeds, and then it has made all of them; otherwise it stops
      right after the first failing call and fails with that call's error. */
  lemma ExecuteStopsAtFirstFailure(calls: seq<Call>, succeeds: Call -> bool)
    ensures var o := Execute(calls, succeeds);
      && |o.trace| <= |calls| && o.trace == calls[..|o.trace|]
      && (o.status.Ok? <==> forall j | 0 <= j < |calls| :: succeeds(calls[j]))
      && (o.status.Ok? ==> o.trace == calls)
      && (o.status.Err? ==>
            && |o.trace| > 0
            && !succeeds(o.trace[|o.trace| - 1])
            && o.status.error == CallFailed(o.trace[|o.trace| - 1]))
      && (forall j | 0 <= j < |o.trace| - 1 :: succeeds(o.trace[j]))
  {
    ExecuteMakesPrefix(calls, succeeds);
    ExecuteOkIffAllSucceed(calls, succeeds);
    ExecuteFailsAtLast(calls, succeeds);
  }

  /** Executing a call followed by more calls. */
  lemma ExecuteCons(c: Call, rest: seq<Call>, succeeds: Call -> bool)
    ensures Execute([c] + rest, succeeds) ==
              if !succeeds(c) then Outcome([c], Err(CallFailed(c)))
              else Outcome([c] + Execute(rest, succeeds).trace, Execute(rest, succeeds).status)
  {
    assert ([c] + rest)[0] == c;
    assert ([c] + rest)[1..] == rest;
  }

  /** Executing two call sequences one after the other: the second runs only
      if the first succeeds completely. */
  lemma {:induction false} ExecuteAppend(a: seq<Call>, b: seq<Call>, succeeds: Call -> bool)
    ensures Execute(a + b, succeeds) ==
              if Execute(a, succeeds).status.Err? then Execute(a, succeeds)
              else Outcome(a + Execute(b, succeeds).trace, Execute(b, succeeds).status)
  {
    if |a| == 0 {
      assert a + b == b;
    } else {
      assert a + b == [a[0]] + (a[1..] + b);
      assert a == [a[0]] + a[1..];
      ExecuteCons(a[0], a[1..] + b, succeeds);
      ExecuteCons(a[0], a[1..], succeeds);
      ExecuteAppend(a[1..], b, succeeds);
      if succeeds(a[0]) && Execute(a[1..], succeeds).status.Ok? {
        assert [a[0]] + (a[1..] + Execute(b, succeeds).trace) == a + Execute(b, succeeds).trace;
      }
    }
  }

  /** Executing a block of calls, one more call, then the rest. */
  lemma ExecuteBlock(a: seq<Call>, c: Call, rest: seq<Call>, succeeds: Call -> bool)
    ensures var o := Execute(a + ([c] + rest), succeeds);
      var first := Execute(a, succeeds);
      o == if first.status.Err? then first
           else if !succeeds(c) then Outcome(a + [c], Err(CallFailed(c)))
           else Outcome(a + [c] + Execute(rest, succeeds).trace, Execute(rest, succeeds).status)
  {
    ExecuteAppend(a, [c] + rest, succeeds);
    ExecuteCons(c, rest, succeeds);
    if Execute(a, succeeds).status.Ok? && succeeds(c) {
      assert a + ([c] + Execute(rest, succeeds).trace) == a + [c] + Execute(rest, succeeds).trace;
    }
  }

  /** Executing a block of calls and then one final call. */
  lemma ExecuteThenLast(block: seq<Call>, last: Call, succeeds: Call -> bool)
    ensures var o := Execute(block + [last], succeeds);
      var first := Execute(block, succeeds);
      o == if first.status.Err? then first
           else if !succeeds(last) then Outcome(block + [last], Err(CallFailed(last)))
           else Outcome(block + [last], Ok(()))
  {
    ExecuteAppend(block, [last], succeeds);
    ExecuteCons(last, [], succeeds);
    if Execute(block, succeeds).status.Ok? {
      ExecuteStopsAtFirstFailure(block, succeeds);
    }
  }

  /** Executing two calls and then a block of calls. */
  lemma ExecuteTwoThen(a: Call, b: Call, rest: seq<Call>, succeeds: Call -> bool)
    ensures var r := Execute(rest, succeeds);
      Execute([a, b] + rest, succeeds)
      == if !succeeds(a) then Outcome([a], Err(CallFailed(a)))
         else if !succeeds(b) then Outcome([a, b], Err(CallFailed(b)))
         else Outcome([a, b] + r.trace, r.status)
  {
    var r := Execute(rest, succeeds);
    assert [a, b] + rest == [a] + ([b] + rest);
    ExecuteCons(a, [b] + rest, succeeds);
    ExecuteCons(b, rest, succeeds);
    assert [a] + ([b] + r.trace) == [a, b] + r.trace;
  }
}
