/** Executing statements: the front ends of `StmtObject::exec`,
    `Connection::exec` and `StmtObject::getMoreResults`, the work that
    prepares, resets, binds, executes and fetches (`executeWork`,
    `getMoreResultsWork`), and the step that turns what was fetched into
    the reply the script receives (`fillResult`). The native library is an
    oracle, as in `Lifecycle`: its answers are parameters and its calls are
    appended to `Api.trace`. */
module Execution {
  import opened Common
  import opened ErrorMsg
  import opened BindCodec
  import opened FetchCodec
  import opened ArgDispatch
  import opened Lifecycle

  /** What a script receives: an error with its message, or a value. */
  datatype Reply = Fails(errorMsg: string) | Succeeds(value: ResultValue)

  /** A reply and how it arrives: passed to the callback, or thrown
      (an error) or returned (a value) when there is no callback. */
  datatype Outcome = Outcome(viaCallback: bool, reply: Reply)

  /** The outcome of an error reported before any work is queued. */
  function Refused(shim: Shim, callback: bool, code: int): Outcome
  {
    Outcome(callback, Fails(GetErrorMsg(shim, code)))
  }

  // ---------------------------------------------------------------------
  // Binding in the front ends

  /** What a request carries after binding: the slots, the current shim's
      value groups, the Node.js 0.10 shim's storage list, and the row
      count (1 unless a wide batch or an empty array was bound). */
  datatype Binding = Binding(params: seq<BindParam>, scratch: Groups, execData: seq<ExecuteData>, numRows: nat)

  /** The binding of a call without a bind array. */
  const Unbound: Binding := Binding([], NoGroups, [EmptyExecuteData], 1)

  /** Whether a bind array binds in the given shim. */
  predicate BindsOk(shim: Shim, items: seq<ScriptValue>)
  {
    if shim == Current || |items| == 0 then AllBindable(items)
    else if items[0].Array? then WideBindable(items)
    else AllBindable(items)
  }

  /** The slots of a wide batch, one per column of its first row. */
  function BoundWide(items: seq<ScriptValue>): (ps: seq<BindParam>)
    requires |items| > 0 && items[0].Array? && WideBindable(items)
    ensures |ps| == |items[0].items|
  {
    var n := |items[0].items|;
    assert forall c :: 0 <= c < n ==> Cell(items, 0, c) == items[0].items[c];
    seq(n, c requires 0 <= c < n => WideColumn(items, c))
  }

  /** The slots a bind array that binds produces. */
  function BoundParams(shim: Shim, items: seq<ScriptValue>): seq<BindParam>
    requires BindsOk(shim, items)
  {
    if shim == Current then BoundCurrent(items)
    else if |items| > 0 && items[0].Array? then BoundWide(items)
    else BoundV010(items)
  }

  /** The row count after binding: the Node.js 0.10 shim leaves it at its
      initial 0 for an empty array and takes the number of rows of a wide
      batch. */
  function RowCount(shim: Shim, items: seq<ScriptValue>): nat
  {
    if shim == Current then 1
    else if |items| == 0 then 0
    else if items[0].Array? then |items|
    else 1
  }

  /** The wide-insert gate as evidently intended: a batch of more than
      one row needs protocol version 4, as negotiated when the interface
      was initialized (an unknown version allows none). */
  predicate WideRefused(negotiated: Option<int>, numRows: nat)
  {
    numRows > 1 && !(negotiated.Some? && negotiated.value >= ApiVersion4)
  }

  /** The gate as written: it reads the connection's own `max_api_ver`,
      which only the connection that initialized the interface has
      written; on any other connection the member was never initialized
      and holds whatever the memory held (`indeterminate`). */
  predicate WideRefusedAsWritten(recorded: Option<int>, indeterminate: int, numRows: nat)
  {
    numRows > 1 && (if recorded.Some? then recorded.value else indeterminate) < ApiVersion4
  }

  /** On a connection that did not initialize the interface, the gate as
      written decides a two-row batch by an indeterminate value, even when
      the negotiated version supports wide inserts. */
  lemma WideGateReadsIndeterminate()
    ensures WideRefusedAsWritten(None, 0, 2)
    ensures !WideRefusedAsWritten(None, 4, 2)
    ensures !WideRefused(Some(4), 2)
  {
  }

  /** On the connection that initialized the interface the two gates
      agree. */
  lemma WideGatesAgreeOnInitializer(v: int, indeterminate: int, numRows: nat)
    ensures WideRefusedAsWritten(Some(v), indeterminate, numRows) == WideRefused(Some(v), numRows)
  {
  }

  /** The verdict of the binding step: the slots and row count, or the
      error code the call is refused with. */
  function BindCheck(shim: Shim, bindArg: Option<ScriptValue>, negotiated: Option<int>): Result<(seq<BindParam>, nat)>
    requires bindArg.Some? ==> bindArg.value.Array?
  {
    if bindArg.None? then Ok(([], 1))
    else
      var items := bindArg.value.items;
      if !BindsOk(shim, items) then Err(ErrBindingParameters)
      else if shim == V010 && WideRefused(negotiated, RowCount(shim, items)) then Err(ErrNoWideStatements)
      else Ok((BoundParams(shim, items), RowCount(shim, items)))
  }

  /** The front ends' binding step: no bind array gives `Unbound`;
      otherwise the shim's `getBindParameters` runs (the Node.js 0.10 one
      with an initial row count of 0). A bind array that does not bind is
      refused with BindingParameters; in the Node.js 0.10 shim a batch of
      more than one row is then refused with NoWideStatements unless the
      negotiated version allows it. */
  method BindArguments(shim: Shim, bindArg: Option<ScriptValue>, negotiated: Option<int>)
    returns (r: Result<Binding>)
    requires bindArg.Some? ==> bindArg.value.Array?
    ensures r.Err? ==> BindCheck(shim, bindArg, negotiated) == Err(r.code)
    ensures r.Ok? ==> BindCheck(shim, bindArg, negotiated) == Ok((r.value.params, r.value.numRows))
    ensures bindArg.None? ==> r == Ok(Unbound)
    ensures bindArg.Some? ==>
      var items := bindArg.value.items;
      && (!BindsOk(shim, items) ==> r == Err(ErrBindingParameters))
      && (BindsOk(shim, items) && shim == V010 && WideRefused(negotiated, RowCount(shim, items)) ==>
            r == Err(ErrNoWideStatements))
      && (BindsOk(shim, items) && !(shim == V010 && WideRefused(negotiated, RowCount(shim, items))) ==>
            r.Ok? && r.value.params == BoundParams(shim, items) && r.value.numRows == RowCount(shim, items)
            && (shim == Current ==> r.value.scratch == ScratchOf(items) && r.value.execData == [])
            && (shim == V010 ==> r.value.scratch == NoGroups && |r.value.execData| > 0))
  {
    if bindArg.None? {
      return Ok(Unbound);
    }
    var items := bindArg.value.items;
    if shim == Current {
      var ok, params, scratch := GetBindParameters(items);
      if !ok {
        return Err(ErrBindingParameters);
      }
      return Ok(Binding(params, scratch, [], 1));
    }
    var ok, execData, params, numRows := GetBindParametersV010(items, 0);
    if !ok {
      return Err(ErrBindingParameters);
    }
    if numRows > 1 && !(negotiated.Some? && negotiated.value >= ApiVersion4) {
      return Err(ErrNoWideStatements);
    }
    if |items| > 0 && items[0].Array? {
      assert params == BoundWide(items);
    }
    r := Ok(Binding(params, NoGroups, execData, numRows));
  }

  // ---------------------------------------------------------------------
  // executeWork

  /** The native library's answers while a statement executes:
      `sqlany_prepare`, `sqlany_reset`, the slot `sqlany_describe_bind_param`
      reports for each index (`None`, or no entry, where it fails),
      whether `sqlany_bind_param` succeeds for each index (no entry:
      it fails), `sqlany_execute`, what fetching then reports, and the
      error `sqlany_error` gives after a failure. */
  datatype ExecAnswers = ExecAnswers(
    prepared: Option<StmtHandle>,
    resetOk: bool,
    described: seq<Option<BindParam>>,
    bound: seq<bool>,
    executeOk: bool,
    result: NativeResult,
    error: NativeError)

  function DescribedAt(a: ExecAnswers, i: nat): Option<BindParam>
  {
    if i < |a.described| then a.described[i] else None
  }

  /** Parameter `i` is described and bound. */
  predicate StepOk(a: ExecAnswers, i: nat)
  {
    DescribedAt(a, i).Some? && i < |a.bound| && a.bound[i]
  }

  /** The first of `n` parameters whose step fails, or `n`. */
  function FirstFailure(a: ExecAnswers, n: nat): (k: nat)
    ensures k <= n
    ensures forall j :: 0 <= j < k ==> StepOk(a, j)
    ensures k < n ==> !StepOk(a, k)
    decreases n
  {
    if n == 0 then 0
    else
      var k := FirstFailure(a, n - 1);
      if k < n - 1 then k else if StepOk(a, n - 1) then n else n - 1
  }

  /** The calls made for parameter `i`: describe it and, when that
      succeeds, bind the described slot overlaid with the caller's. */
  function StepCalls(shim: Shim, h: StmtHandle, params: seq<BindParam>, a: ExecAnswers, i: nat): seq<NativeCall>
    requires i < |params|
  {
    [DescribeBindParam(h, i)]
    + (if DescribedAt(a, i).Some? then [BindParamTo(h, i, Overlay(shim, DescribedAt(a, i).value, params[i]))] else [])
  }

  /** The calls made for the first `k` parameters. */
  function BindCalls(shim: Shim, h: StmtHandle, params: seq<BindParam>, a: ExecAnswers, k: nat): seq<NativeCall>
    requires k <= |params|
    decreases k
  {
    if k == 0 then [] else BindCalls(shim, h, params, a, k - 1) + StepCalls(shim, h, params, a, k - 1)
  }

  /** When every step before `k` succeeds, two calls are made per parameter. */
  lemma {:induction false} BindCallsLength(shim: Shim, h: StmtHandle, params: seq<BindParam>, a: ExecAnswers, k: nat)
    requires k <= |params| && forall j :: 0 <= j < k ==> StepOk(a, j)
    ensures |BindCalls(shim, h, params, a, k)| == 2 * k
    decreases k
  {
    if k > 0 {
      BindCallsLength(shim, h, params, a, k - 1);
      assert StepOk(a, k - 1);
    }
  }

  /** Parameter `i` is described at position `2i` and bound, with the
      overlay of what was described, at position `2i + 1`. */
  lemma {:induction false} BindCallsAt(shim: Shim, h: StmtHandle, params: seq<BindParam>, a: ExecAnswers, k: nat, i: nat)
    requires i < k <= |params| && forall j :: 0 <= j < k ==> StepOk(a, j)
    ensures StepOk(a, i) && |BindCalls(shim, h, params, a, k)| == 2 * k
    ensures BindCalls(shim, h, params, a, k)[2 * i] == DescribeBindParam(h, i)
    ensures BindCalls(shim, h, params, a, k)[2 * i + 1] == BindParamTo(h, i, Overlay(shim, DescribedAt(a, i).value, params[i]))
    decreases k
  {
    var prev := BindCalls(shim, h, params, a, k - 1);
    var step := StepCalls(shim, h, params, a, k - 1);
    BindCallsLength(shim, h, params, a, k - 1);
    assert StepOk(a, k - 1);
    assert step == [DescribeBindParam(h, k - 1), BindParamTo(h, k - 1, Overlay(shim, DescribedAt(a, k - 1).value, params[k - 1]))];
    assert BindCalls(shim, h, params, a, k) == prev + step;
    if i < k - 1 {
      BindCallsAt(shim, h, params, a, k - 1, i);
      assert (prev + step)[2 * i] == prev[2 * i];
      assert (prev + step)[2 * i + 1] == prev[2 * i + 1];
    } else {
      assert (prev + step)[2 * i] == step[0];
      assert (prev + step)[2 * i + 1] == step[1];
    }
  }

  /** When every step before `k` succeeds, the calls alternate: parameter
      `i` is described at position `2i` and bound, with the overlay of
      what was described, at position `2i + 1`. */
  lemma BindCallsAlternate(shim: Shim, h: StmtHandle, params: seq<BindParam>, a: ExecAnswers, k: nat)
    requires k <= |params| && forall j :: 0 <= j < k ==> StepOk(a, j)
    ensures |BindCalls(shim, h, params, a, k)| == 2 * k
    ensures forall i :: 0 <= i < k ==>
      StepOk(a, i)
      && BindCalls(shim, h, params, a, k)[2 * i] == DescribeBindParam(h, i)
      && BindCalls(shim, h, params, a, k)[2 * i + 1] == BindParamTo(h, i, Overlay(shim, DescribedAt(a, i).value, params[i]))
  {
    BindCallsLength(shim, h, params, a, k);
    forall i | 0 <= i < k
      ensures BindCalls(shim, h, params, a, k)[2 * i] == DescribeBindParam(h, i)
      ensures BindCalls(shim, h, params, a, k)[2 * i + 1] == BindParamTo(h, i, Overlay(shim, DescribedAt(a, i).value, params[i]))
    {
      BindCallsAt(shim, h, params, a, k, i);
    }
  }

  /** The binding loop of `executeWork`: describe and bind each parameter
      in order, stopping at the first failure. */
  method BindAll(shim: Shim, api: Api, h: StmtHandle, params: seq<BindParam>, a: ExecAnswers) returns (ok: bool)
    modifies api`trace
    ensures ok <==> FirstFailure(a, |params|) == |params|
    ensures var k := FirstFailure(a, |params|);
      api.trace == old(api.trace) + BindCalls(shim, h, params, a, k)
                   + (if k < |params| then StepCalls(shim, h, params, a, k) else [])
  {
    for i := 0 to |params|
      invariant forall j :: 0 <= j < i ==> StepOk(a, j)
      invariant api.trace == old(api.trace) + BindCalls(shim, h, params, a, i)
    {
      var stepOk := BindStep(shim, api, h, params, a, i);
      if !stepOk {
        FirstFailureIs(a, |params|, i);
        return false;
      }
    }
    FirstFailureIs(a, |params|, |params|);
    ok := true;
  }

  /** One turn of the binding loop: describe parameter `i` and, when that
      succeeds, bind the overlaid slot. */
  method BindStep(shim: Shim, api: Api, h: StmtHandle, params: seq<BindParam>, a: ExecAnswers, i: nat) returns (ok: bool)
    requires i < |params|
    modifies api`trace
    ensures ok <==> StepOk(a, i)
    ensures api.trace == old(api.trace) + StepCalls(shim, h, params, a, i)
  {
    api.trace := api.trace + [DescribeBindParam(h, i)];
    if i >= |a.described| || a.described[i].None? {
      return false;
    }
    var param := Overlay(shim, DescribedAt(a, i).value, params[i]);
    api.trace := api.trace + [BindParamTo(h, i, param)];
    ok := i < |a.bound| && a.bound[i];
  }

  /** `FirstFailure` is the only index before which every step succeeds
      and at which one fails. */
  lemma {:induction false} FirstFailureIs(a: ExecAnswers, n: nat, i: nat)
    requires i <= n && forall j :: 0 <= j < i ==> StepOk(a, j)
    requires i < n ==> !StepOk(a, i)
    ensures FirstFailure(a, n) == i
  {
  }

  /** A statement stops at the first stage that fails. */
  datatype Stage =
    | NotConnected | NoStatement | PrepareFailed | ResetFailed | BindFailed(index: nat)
    | ExecuteFailed | FetchFailed | Done

  /** The stages at which `sqlany_execute` has been called. */
  predicate Executes(s: Stage)
  {
    s.ExecuteFailed? || s.FetchFailed? || s.Done?
  }

  /** Fetching what the statement reports succeeds. */
  predicate Fetches(res: NativeResult)
  {
    res.numCols > 0 ==> AllFetchable(Flatten(res.rows))
  }

  /** The stage reached once the statement has a handle. */
  function RunStage(params: seq<BindParam>, a: ExecAnswers): Stage
  {
    if !a.resetOk then ResetFailed
    else if FirstFailure(a, |params|) < |params| then BindFailed(FirstFailure(a, |params|))
    else if !a.executeOk then ExecuteFailed
    else if !Fetches(a.result) then FetchFailed
    else Done
  }

  /** The stage `executeWork` stops at. A statement without a handle is
      prepared from the SQL text, and is refused as an invalid object
      when there is none. */
  function StageOf(connected: bool, handle0: Option<StmtHandle>, sql: string, params: seq<BindParam>, a: ExecAnswers): Stage
  {
    if !connected then NotConnected
    else if handle0.None? && |sql| == 0 then NoStatement
    else if handle0.None? && a.prepared.None? then PrepareFailed
    else RunStage(params, a)
  }

  /** The handle the statement executes with. */
  function HandleFor(handle0: Option<StmtHandle>, a: ExecAnswers): Option<StmtHandle>
  {
    if handle0.Some? then handle0 else a.prepared
  }

  /** The calls made with handle `h`: reset, then the binding steps, then
      (when every step succeeded) the batch size of a batch of more than
      one row in the Node.js 0.10 shim, and the execute. */
  function RunCalls(shim: Shim, h: StmtHandle, params: seq<BindParam>, numRows: nat, a: ExecAnswers): seq<NativeCall>
  {
    [ResetStmt(h)]
    + if !a.resetOk then []
      else
        var k := FirstFailure(a, |params|);
        BindCalls(shim, h, params, a, k)
        + if k < |params| then StepCalls(shim, h, params, a, k)
          else (if shim == V010 && numRows > 1 then [SetBatchSize(h, numRows)] else []) + [ExecuteStmt(h)]
  }

  /** `RunCalls` appended to a trace, in the order the calls are made. */
  lemma RunCallsAfter(t0: seq<NativeCall>, shim: Shim, h: StmtHandle, params: seq<BindParam>, numRows: nat, a: ExecAnswers)
    ensures !a.resetOk ==> t0 + RunCalls(shim, h, params, numRows, a) == t0 + [ResetStmt(h)]
    ensures a.resetOk && FirstFailure(a, |params|) < |params| ==>
      var k := FirstFailure(a, |params|);
      t0 + RunCalls(shim, h, params, numRows, a)
      == t0 + [ResetStmt(h)] + BindCalls(shim, h, params, a, k) + StepCalls(shim, h, params, a, k)
    ensures a.resetOk && FirstFailure(a, |params|) == |params| ==>
      t0 + RunCalls(shim, h, params, numRows, a)
      == t0 + [ResetStmt(h)] + BindCalls(shim, h, params, a, |params|)
         + (if shim == V010 && numRows > 1 then [SetBatchSize(h, numRows)] else []) + [ExecuteStmt(h)]
  {
    if !a.resetOk {
      assert RunCalls(shim, h, params, numRows, a) == [ResetStmt(h)];
    } else if FirstFailure(a, |params|) < |params| {
      RunCallsBindFailedAfter(t0, shim, h, params, numRows, a);
    } else {
      RunCallsExecutedAfter(t0, shim, h, params, numRows, a);
    }
  }

  lemma RunCallsBindFailedAfter(t0: seq<NativeCall>, shim: Shim, h: StmtHandle, params: seq<BindParam>, numRows: nat, a: ExecAnswers)
    requires a.resetOk && FirstFailure(a, |params|) < |params|
    ensures var k := FirstFailure(a, |params|);
      t0 + RunCalls(shim, h, params, numRows, a)
      == t0 + [ResetStmt(h)] + BindCalls(shim, h, params, a, k) + StepCalls(shim, h, params, a, k)
  {
    var k := FirstFailure(a, |params|);
    var bc := BindCalls(shim, h, params, a, k);
    var tail := StepCalls(shim, h, params, a, k);
    assert RunCalls(shim, h, params, numRows, a) == [ResetStmt(h)] + (bc + tail);
  }

  lemma RunCallsExecutedAfter(t0: seq<NativeCall>, shim: Shim, h: StmtHandle, params: seq<BindParam>, numRows: nat, a: ExecAnswers)
    requires a.resetOk && FirstFailure(a, |params|) == |params|
    ensures t0 + RunCalls(shim, h, params, numRows, a)
      == t0 + [ResetStmt(h)] + BindCalls(shim, h, params, a, |params|)
         + (if shim == V010 && numRows > 1 then [SetBatchSize(h, numRows)] else []) + [ExecuteStmt(h)]
  {
    var bc := BindCalls(shim, h, params, a, |params|);
    var batch: seq<NativeCall> := if shim == V010 && numRows > 1 then [SetBatchSize(h, numRows)] else [];
    assert RunCalls(shim, h, params, numRows, a) == [ResetStmt(h)] + (bc + (batch + [ExecuteStmt(h)]));
  }

  /** The native calls of `executeWork`. */
  function WorkCalls(shim: Shim, conn: Option<ConnHandle>, handle0: Option<StmtHandle>, sql: string,
                     params: seq<BindParam>, numRows: nat, a: ExecAnswers): seq<NativeCall>
  {
    if conn.None? || (handle0.None? && |sql| == 0) then []
    else
      (if handle0.None? then [PrepareOn(conn.value, sql)] else [])
      + (if HandleFor(handle0, a).None? then [] else RunCalls(shim, HandleFor(handle0, a).value, params, numRows, a))
  }

  /** A connected statement that already has a handle is not prepared
      again: its work is the run with that handle. */
  lemma PreparedWork(shim: Shim, conn: ConnHandle, h: StmtHandle, sql: string,
                     params: seq<BindParam>, numRows: nat, a: ExecAnswers)
    ensures WorkCalls(shim, Some(conn), Some(h), sql, params, numRows, a) == RunCalls(shim, h, params, numRows, a)
    ensures StageOf(true, Some(h), sql, params, a) == RunStage(params, a)
  {
    assert [] + RunCalls(shim, h, params, numRows, a) == RunCalls(shim, h, params, numRows, a);
  }

  /** `WorkCalls` appended to a trace, in the order the calls are made. */
  lemma WorkCallsAfter(t0: seq<NativeCall>, shim: Shim, conn: Option<ConnHandle>, handle0: Option<StmtHandle>,
                       sql: string, params: seq<BindParam>, numRows: nat, a: ExecAnswers)
    ensures conn.None? || (handle0.None? && |sql| == 0) ==>
      t0 + WorkCalls(shim, conn, handle0, sql, params, numRows, a) == t0
    ensures conn.Some? && handle0.None? && |sql| > 0 && a.prepared.None? ==>
      t0 + WorkCalls(shim, conn, handle0, sql, params, numRows, a) == t0 + [PrepareOn(conn.value, sql)]
    ensures conn.Some? && handle0.None? && |sql| > 0 && a.prepared.Some? ==>
      t0 + WorkCalls(shim, conn, handle0, sql, params, numRows, a)
      == t0 + [PrepareOn(conn.value, sql)] + RunCalls(shim, a.prepared.value, params, numRows, a)
    ensures conn.Some? && handle0.Some? ==>
      t0 + WorkCalls(shim, conn, handle0, sql, params, numRows, a) == t0 + RunCalls(shim, handle0.value, params, numRows, a)
  {
  }

  lemma {:induction false} BindCallsNoExecute(shim: Shim, h: StmtHandle, params: seq<BindParam>, a: ExecAnswers, k: nat)
    requires k <= |params|
    ensures forall i :: 0 <= i < |BindCalls(shim, h, params, a, k)| ==>
      BindCalls(shim, h, params, a, k)[i].DescribeBindParam? || BindCalls(shim, h, params, a, k)[i].BindParamTo?
    decreases k
  {
    if k > 0 {
      BindCallsNoExecute(shim, h, params, a, k - 1);
    }
  }

  /** What the calls made with a handle promise: the execute comes last
      and only when every earlier step succeeded, after the reset and the
      binding steps of every parameter; a batch size is set only for a
      Node.js 0.10 batch of more than one row. */
  lemma RunCallsOrder(shim: Shim, h: StmtHandle, params: seq<BindParam>, numRows: nat, a: ExecAnswers)
    ensures var calls := RunCalls(shim, h, params, numRows, a);
      && (Executes(RunStage(params, a)) <==> calls[|calls| - 1].ExecuteStmt?)
      && (forall i :: 0 <= i < |calls| - 1 ==> !calls[i].ExecuteStmt?)
      && (forall i :: 0 <= i < |calls| && calls[i].SetBatchSize? ==> shim == V010 && numRows > 1)
      && (Executes(RunStage(params, a)) ==>
            && calls == [ResetStmt(h)] + BindCalls(shim, h, params, a, |params|)
                        + (if shim == V010 && numRows > 1 then [SetBatchSize(h, numRows)] else []) + [ExecuteStmt(h)]
            && forall i :: 0 <= i < |params| ==> StepOk(a, i))
  {
    var calls := RunCalls(shim, h, params, numRows, a);
    if !a.resetOk {
      assert calls == [ResetStmt(h)];
    } else if FirstFailure(a, |params|) < |params| {
      BindFailedCalls(shim, h, params, numRows, a);
    } else {
      ExecutedCalls(shim, h, params, numRows, a);
    }
  }

  /** A run that stops at a binding step makes neither an execute nor a
      batch-size call. */
  lemma BindFailedCalls(shim: Shim, h: StmtHandle, params: seq<BindParam>, numRows: nat, a: ExecAnswers)
    requires a.resetOk && FirstFailure(a, |params|) < |params|
    ensures var calls := RunCalls(shim, h, params, numRows, a);
      forall i :: 0 <= i < |calls| ==> !calls[i].ExecuteStmt? && !calls[i].SetBatchSize?
  {
    var calls := RunCalls(shim, h, params, numRows, a);
    var k := FirstFailure(a, |params|);
    BindCallsNoExecute(shim, h, params, a, k);
    var bc := BindCalls(shim, h, params, a, k);
    var tail := StepCalls(shim, h, params, a, k);
    assert calls == [ResetStmt(h)] + bc + tail;
    forall i | 0 <= i < |calls| ensures !calls[i].ExecuteStmt? && !calls[i].SetBatchSize? {
      if i == 0 {
      } else if i < 1 + |bc| {
        assert calls[i] == bc[i - 1];
      } else {
        assert calls[i] == tail[i - 1 - |bc|];
      }
    }
  }

  /** A run whose every binding step succeeds ends with the execute, after
      the batch size when one is set. */
  lemma ExecutedCalls(shim: Shim, h: StmtHandle, params: seq<BindParam>, numRows: nat, a: ExecAnswers)
    requires a.resetOk && FirstFailure(a, |params|) == |params|
    ensures var calls := RunCalls(shim, h, params, numRows, a);
      && calls == [ResetStmt(h)] + BindCalls(shim, h, params, a, |params|)
                  + (if shim == V010 && numRows > 1 then [SetBatchSize(h, numRows)] else []) + [ExecuteStmt(h)]
      && calls[|calls| - 1].ExecuteStmt?
      && forall i :: 0 <= i < |calls| - 1 ==>
           !calls[i].ExecuteStmt? && (calls[i].SetBatchSize? ==> shim == V010 && numRows > 1)
  {
    var calls := RunCalls(shim, h, params, numRows, a);
    BindCallsNoExecute(shim, h, params, a, |params|);
    var bc := BindCalls(shim, h, params, a, |params|);
    var batch: seq<NativeCall> := if shim == V010 && numRows > 1 then [SetBatchSize(h, numRows)] else [];
    assert calls == [ResetStmt(h)] + bc + batch + [ExecuteStmt(h)];
    forall i | 0 <= i < |calls| - 1
      ensures !calls[i].ExecuteStmt? && (calls[i].SetBatchSize? ==> shim == V010 && numRows > 1)
    {
      if i == 0 {
      } else if i < 1 + |bc| {
        assert calls[i] == bc[i - 1];
      } else {
        assert calls[i] == batch[i - 1 - |bc|];
      }
    }
  }

  /** The same for the whole of `executeWork`: the execute is the last
      call exactly at the stages that execute, preceded by the prepare
      when the statement had no handle, and by nothing else than the
      handle's reset and binding steps. Before it, or without it, no
      call is an execute. */
  lemma WorkCallsOrder(shim: Shim, conn: Option<ConnHandle>, handle0: Option<StmtHandle>, sql: string,
                       params: seq<BindParam>, numRows: nat, a: ExecAnswers)
    ensures var calls := WorkCalls(shim, conn, handle0, sql, params, numRows, a);
      && (Executes(StageOf(conn.Some?, handle0, sql, params, a)) <==>
           |calls| > 0 && calls[|calls| - 1].ExecuteStmt?)
      && (forall i :: 0 <= i < |calls| - 1 ==> !calls[i].ExecuteStmt?)
      && (forall i :: 0 <= i < |calls| && calls[i].SetBatchSize? ==> shim == V010 && numRows > 1)
    ensures Executes(StageOf(conn.Some?, handle0, sql, params, a)) ==>
      && conn.Some? && HandleFor(handle0, a).Some?
      && WorkCalls(shim, conn, handle0, sql, params, numRows, a)
         == (if handle0.None? then [PrepareOn(conn.value, sql)] else [])
            + RunCalls(shim, HandleFor(handle0, a).value, params, numRows, a)
  {
    var calls := WorkCalls(shim, conn, handle0, sql, params, numRows, a);
    if conn.Some? && !(handle0.None? && |sql| == 0) && HandleFor(handle0, a).Some? {
      var h := HandleFor(handle0, a).value;
      var prep: seq<NativeCall> := if handle0.None? then [PrepareOn(conn.value, sql)] else [];
      var run := RunCalls(shim, h, params, numRows, a);
      RunCallsOrder(shim, h, params, numRows, a);
      assert calls == prep + run;
      forall i | 0 <= i < |calls| ensures calls[i] == if i < |prep| then prep[i] else run[i - |prep|] {}
    } else if conn.Some? && handle0.None? && |sql| > 0 {
      assert calls == [PrepareOn(conn.value, sql)];
    }
  }

  // ---------------------------------------------------------------------
  // Fetching and the reply

  /** The value the script should receive for what a statement reports:
      the affected-row count when rows were affected and there are no
      columns, `undefined` without columns, otherwise the rows up to the
      last one holding a non-null cell, each as an object from column
      names to decoded cells. */
  function ExpectedValue(res: NativeResult): ResultValue
    requires Answers(res) && Fetches(res)
  {
    if res.affectedRows > 0 && res.numCols < 1 then Affected(res.affectedRows)
    else if res.numCols < 1 then NoValue
    else
      FetchThenAssemble(res);
      var kept := RowsBuilt(Tags(Flatten(res.rows)), |res.columnNames|);
      RowSet(seq(kept, r requires 0 <= r < kept => RowObject(res.columnNames, DecodedRow(res.rows[r]))))
  }

  /** What the work hands to the fill step: the baton, and the fetched
      count, names, values and tags. The values are in the request's
      cleared storage: the current shim's value groups, the Node.js 0.10
      shim's first `ExecuteData`. */
  datatype Work = Work(baton: Baton, rowsAffected: int, colNames: seq<string>, groups: Groups, colTypes: seq<DataType>)

  /** Work that can be filled in: a successful fetch of rows leaves names,
      tags and values consistent. */
  predicate Fillable(w: Work)
  {
    !w.baton.err && w.rowsAffected < 0 && |w.colNames| > 0 ==> Consistent(w.colTypes, w.groups, |w.colNames|)
  }

  /** Filling in `w` gives the value expected for what the statement
      reports. */
  predicate Delivers(w: Work, res: NativeResult)
  {
    Answers(res) && Fetches(res)
    && (w.rowsAffected < 0 && |w.colNames| > 0 ==> Consistent(w.colTypes, w.groups, |w.colNames|))
    && ResultOf(w.rowsAffected, w.colNames, w.colTypes, w.groups) == Some(ExpectedValue(res))
  }

  /** `fetchResultSet` into cleared storage, read back by `getResultSet`:
      it succeeds exactly when every cell can be fetched, and then the
      assembled value is the expected one. */
  method FetchInto(res: NativeResult) returns (ok: bool, rowsAffected: int, colNames: seq<string>, groups: Groups, colTypes: seq<DataType>)
    requires Answers(res)
    ensures ok <==> Fetches(res)
    ensures ok ==> Fillable(Work(NoError, rowsAffected, colNames, groups, colTypes))
    ensures ok ==> ResultOf(rowsAffected, colNames, colTypes, groups) == Some(ExpectedValue(res))
  {
    ok, rowsAffected, colNames, groups, colTypes := FetchResultSet(res, [], NoGroups, []);
    if ok && res.numCols > 0 {
      FetchThenAssemble(res);
      var cells := Flatten(res.rows);
      assert AppendGroups(NoGroups, SplitGroups(cells)) == SplitGroups(cells);
      assert [] + res.columnNames == res.columnNames;
      assert [] + Tags(cells) == Tags(cells);
    }
  }

  /** The baton at each stage: the binding's own errors for a lost
      connection and a missing statement, the native error otherwise. */
  function BatonOf(shim: Shim, s: Stage, e: NativeError): Baton
  {
    match s
    case NotConnected => Failed(shim, ErrNotConnected)
    case NoStatement => Failed(shim, ErrInvalidObject)
    case Done => NoError
    case _ => NativeFailed(e)
  }

  /** The work of a statement that stopped at `s`: the stage's baton and,
      when it got through, fetched values that assemble into the expected
      value. */
  predicate Produced(shim: Shim, s: Stage, a: ExecAnswers, w: Work)
  {
    w.baton == BatonOf(shim, s, a.error) && (s.Done? ==> Delivers(w, a.result))
  }

  /** `fillResult`: an error in the baton is the reply; otherwise the
      fetched values are assembled, and a failure to assemble them is
      reported as ResultSet. */
  method FillResult(shim: Shim, w: Work) returns (reply: Reply)
    requires Fillable(w)
    ensures w.baton.err ==> reply == Fails(w.baton.errorMsg)
    ensures !w.baton.err && ResultOf(w.rowsAffected, w.colNames, w.colTypes, w.groups).None? ==>
      reply == Fails(GetErrorMsg(shim, ErrResultSet))
    ensures !w.baton.err && ResultOf(w.rowsAffected, w.colNames, w.colTypes, w.groups).Some? ==>
      reply == Succeeds(ResultOf(w.rowsAffected, w.colNames, w.colTypes, w.groups).value)
  {
    if w.baton.err {
      return Fails(w.baton.errorMsg);
    }
    var result, _ := GetResultSet(shim, w.rowsAffected, w.colNames, w.groups, w.colTypes);
    if result.None? {
      return Fails(GetErrorMsg(shim, ErrResultSet));
    }
    reply := Succeeds(result.value);
  }

  /** The reply a statement that stops at `s` produces. */
  function ReplyOf(shim: Shim, s: Stage, a: ExecAnswers): Reply
    requires s.Done? ==> Answers(a.result) && Fetches(a.result)
  {
    if s.Done? then Succeeds(ExpectedValue(a.result)) else Fails(BatonOf(shim, s, a.error).errorMsg)
  }

  /** A statement's reply succeeds exactly when it gets through every
      stage; a failed one names the lost connection or the missing
      statement by the binding's own code, and any other failure by the
      native library's code and text. */
  lemma ReplyOfReports(shim: Shim, s: Stage, a: ExecAnswers)
    requires s.Done? ==> Answers(a.result) && Fetches(a.result)
    ensures ReplyOf(shim, s, a).Succeeds? <==> s.Done?
    ensures s.NotConnected? ==>
      ParseMessage(ReplyOf(shim, s, a).errorMsg) == Some(Parsed(ErrNotConnected, ErrorText(shim, ErrNotConnected)))
    ensures s.NoStatement? ==>
      ParseMessage(ReplyOf(shim, s, a).errorMsg) == Some(Parsed(ErrInvalidObject, ErrorText(shim, ErrInvalidObject)))
    ensures !s.Done? && !s.NotConnected? && !s.NoStatement? ==>
      ParseMessage(ReplyOf(shim, s, a).errorMsg) == Some(Parsed(a.error.code, a.error.text))
  {
    match s {
      case NotConnected => GetErrorMsgReadable(shim, ErrNotConnected);
      case NoStatement => GetErrorMsgReadable(shim, ErrInvalidObject);
      case Done =>
      case _ => NativeErrorMsgReadable(a.error);
    }
  }

  /** A refusal is an error whose message names the code it was refused
      with. */
  lemma RefusedReports(shim: Shim, callback: bool, code: int)
    ensures Refused(shim, callback, code).viaCallback == callback
    ensures Refused(shim, callback, code).reply.Fails?
    ensures ParseMessage(Refused(shim, callback, code).reply.errorMsg) == Some(Parsed(code, ErrorText(shim, code)))
  {
    GetErrorMsgReadable(shim, code);
  }

  /** Filling in the work of a statement that stopped at `s` gives the
      reply of that stage. */
  method FillWork(shim: Shim, s: Stage, a: ExecAnswers, w: Work) returns (reply: Reply)
    requires Answers(a.result)
    requires Produced(shim, s, a, w)
    ensures reply == ReplyOf(shim, s, a)
  {
    reply := FillResult(shim, w);
  }

  // ---------------------------------------------------------------------
  // The work of a statement

  /** The statement's handle after `executeWork`: one without a handle
      takes the prepared one (none when the prepare failed); a statement
      with neither handle nor SQL text keeps none. */
  function HandleAfter(handle0: Option<StmtHandle>, sql: string, a: ExecAnswers): Option<StmtHandle>
  {
    if handle0.None? && |sql| > 0 then a.prepared else handle0
  }

  /** The anonymous statement of `Connection::exec`: a new statement
      pointing back at the connection, registered with it. */
  method Adopt(c: Connection) returns (st: Statement)
    modifies c`statements
    ensures fresh(st) && st.stmt == None && st.connection == c
    ensures c.statements == old(c.statements) + [st]
  {
    st := new Statement();
    st.connection := c;
    c.statements := c.statements + [st];
  }

  /** The batch size of a Node.js 0.10 batch, the execute, clearing the
      request's value storage and the fetch into it. */
  method ExecuteAndFetch(shim: Shim, api: Api, h: StmtHandle, numRows: nat, a: ExecAnswers) returns (w: Work)
    requires Answers(a.result)
    modifies api`trace
    ensures api.trace == old(api.trace)
      + (if shim == V010 && numRows > 1 then [SetBatchSize(h, numRows)] else []) + [ExecuteStmt(h)]
    ensures w.baton == (if a.executeOk && Fetches(a.result) then NoError else NativeFailed(a.error))
    ensures a.executeOk && Fetches(a.result) ==> Delivers(w, a.result)
  {
    if shim == V010 && numRows > 1 {
      api.trace := api.trace + [SetBatchSize(h, numRows)];
    }
    api.trace := api.trace + [ExecuteStmt(h)];
    if !a.executeOk {
      return Work(NativeFailed(a.error), -1, [], NoGroups, []);
    }
    var fetched, rowsAffected, colNames, groups, colTypes := FetchInto(a.result);
    w := Work(if fetched then NoError else NativeFailed(a.error), rowsAffected, colNames, groups, colTypes);
  }

  /** The reset and the binding loop: they succeed together exactly when
      the reset and every binding step succeed. */
  method ResetAndBind(shim: Shim, api: Api, h: StmtHandle, params: seq<BindParam>, numRows: nat, a: ExecAnswers)
    returns (ok: bool)
    modifies api`trace
    ensures ok <==> a.resetOk && FirstFailure(a, |params|) == |params|
    ensures !ok ==> api.trace == old(api.trace) + RunCalls(shim, h, params, numRows, a)
    ensures ok ==> api.trace == old(api.trace) + [ResetStmt(h)] + BindCalls(shim, h, params, a, |params|)
  {
    RunCallsAfter(api.trace, shim, h, params, numRows, a);
    api.trace := api.trace + [ResetStmt(h)];
    if !a.resetOk {
      return false;
    }
    ok := BindAll(shim, api, h, params, a);
  }

  /** `executeWork` once the statement has handle `h`: reset, bind every
      slot, then execute and fetch. The first failing step leaves the
      native error in the baton. */
  method RunPrepared(shim: Shim, api: Api, h: StmtHandle, params: seq<BindParam>, numRows: nat, a: ExecAnswers)
    returns (w: Work)
    requires Answers(a.result)
    modifies api`trace
    ensures api.trace == old(api.trace) + RunCalls(shim, h, params, numRows, a)
    ensures Produced(shim, RunStage(params, a), a, w)
  {
    RunCallsAfter(api.trace, shim, h, params, numRows, a);
    var ok := ResetAndBind(shim, api, h, params, numRows, a);
    if !ok {
      return Work(NativeFailed(a.error), -1, [], NoGroups, []);
    }
    w := ExecuteAndFetch(shim, api, h, numRows, a);
  }

  /** `executeWork` on a connected connection's statement: prepares the
      SQL text when the statement has no handle, refusing a statement
      with neither as an invalid object, then runs the prepared
      statement. */
  method PrepareAndRun(shim: Shim, api: Api, conn: ConnHandle, st: Statement, sql: string,
                       params: seq<BindParam>, numRows: nat, a: ExecAnswers)
    returns (w: Work)
    requires Answers(a.result)
    modifies st`stmt, api`trace
    ensures api.trace == old(api.trace) + WorkCalls(shim, Some(conn), old(st.stmt), sql, params, numRows, a)
    ensures Produced(shim, StageOf(true, old(st.stmt), sql, params, a), a, w)
    ensures st.stmt == HandleAfter(old(st.stmt), sql, a)
  {
    var handle0 := st.stmt;
    WorkCallsAfter(api.trace, shim, Some(conn), handle0, sql, params, numRows, a);
    if handle0.None? {
      if |sql| == 0 {
        return Work(Failed(shim, ErrInvalidObject), -1, [], NoGroups, []);
      }
      api.trace := api.trace + [PrepareOn(conn, sql)];
      if a.prepared.None? {
        return Work(NativeFailed(a.error), -1, [], NoGroups, []);
      }
      st.stmt := a.prepared;
    }
    w := RunPrepared(shim, api, HandleFor(handle0, a).value, params, numRows, a);
  }

  /** `executeWork`: refuses a connection without a handle, adopts an
      anonymous statement when there is none, then prepares and runs.
      The calls made and the baton are those of the stage the work stops
      at. */
  method ExecuteWork(shim: Shim, api: Api, c: Connection, st0: Statement?, sql: string,
                     params: seq<BindParam>, numRows: nat, a: ExecAnswers)
    returns (st: Statement?, w: Work)
    requires Answers(a.result)
    modifies (if st0 == null then {} else {st0})`stmt, c`statements, api`trace
    ensures var handle0 := if st0 == null then None else old(st0.stmt);
      var stage := StageOf(c.conn.Some?, handle0, sql, params, a);
      && api.trace == old(api.trace) + WorkCalls(shim, c.conn, handle0, sql, params, numRows, a)
      && Produced(shim, stage, a, w)
    ensures c.conn.None? || st0 != null ==> st == st0 && c.statements == old(c.statements)
    ensures c.conn.None? && st0 != null ==> st0.stmt == old(st0.stmt)
    ensures c.conn.Some? && st0 == null ==>
      st != null && fresh(st) && st.connection == c && st.stmt == HandleAfter(None, sql, a)
      && c.statements == old(c.statements) + [st]
    ensures c.conn.Some? && st0 != null ==> st0.stmt == HandleAfter(old(st0.stmt), sql, a)
  {
    st := st0;
    if c.conn.None? {
      return st, Work(Failed(shim, ErrNotConnected), -1, [], NoGroups, []);
    }
    if st == null {
      st := Adopt(c);
    }
    w := PrepareAndRun(shim, api, c.conn.value, st, sql, params, numRows, a);
  }

  // ---------------------------------------------------------------------
  // Front ends

  /** A statement `exec` and `getMoreResults` accept: it has a handle and
      a connection that holds one. */
  predicate Usable(st: Statement)
    reads st, st.connection
  {
    st.connection != null && st.connection.conn.Some? && st.stmt.Some?
  }

  /** A usable statement runs with the slots and row count the binding
      step produced; the reply is that of the stage the work stops at. */
  method RunStatement(shim: Shim, api: Api, st: Statement, callback: bool,
                      params: seq<BindParam>, numRows: nat, a: ExecAnswers)
    returns (out: Outcome)
    requires Answers(a.result) && Usable(st)
    modifies st`stmt, st.connection`statements, api`trace
    ensures st.stmt == old(st.stmt) && st.connection.statements == old(st.connection.statements)
    ensures out == Outcome(callback, ReplyOf(shim, RunStage(params, a), a))
    ensures api.trace == old(api.trace) + RunCalls(shim, st.stmt.value, params, numRows, a)
  {
    var c := st.connection;
    PreparedWork(shim, c.conn.value, st.stmt.value, "", params, numRows, a);
    var _, w := ExecuteWork(shim, api, c, st, "", params, numRows, a);
    var reply := FillWork(shim, RunStage(params, a), a, w);
    out := Outcome(callback, reply);
  }

  /** `StmtObject::exec` after dispatch: refuses an unusable statement as
      an invalid object, then binds, refusing what does not bind and, in
      the Node.js 0.10 shim, a batch wider than the negotiated version
      allows. */
  method StmtExecCall(shim: Shim, api: Api, st: Statement, call: ExecCall, a: ExecAnswers)
    returns (out: Outcome)
    requires Answers(a.result)
    requires call.bindArg.Some? ==> call.bindArg.value.Array?
    modifies st`stmt, (if st.connection == null then {} else {st.connection})`statements, api`trace
    ensures st.stmt == old(st.stmt)
    ensures st.connection != null ==> st.connection.statements == old(st.connection.statements)
    ensures !Usable(st) ==> out == Refused(shim, call.callback, ErrInvalidObject) && api.trace == old(api.trace)
    ensures Usable(st) ==>
      match BindCheck(shim, call.bindArg, api.negotiated)
      case Err(code) => out == Refused(shim, call.callback, code) && api.trace == old(api.trace)
      case Ok((params, numRows)) =>
        && out == Outcome(call.callback, ReplyOf(shim, RunStage(params, a), a))
        && api.trace == old(api.trace) + RunCalls(shim, st.stmt.value, params, numRows, a)
  {
    if st.connection == null || st.connection.conn.None? || st.stmt.None? {
      return Refused(shim, call.callback, ErrInvalidObject);
    }
    out := BindAndRun(shim, api, st, call, a);
  }

  /** A usable statement binds the call's arguments and, when they bind,
      runs with them. */
  method BindAndRun(shim: Shim, api: Api, st: Statement, call: ExecCall, a: ExecAnswers)
    returns (out: Outcome)
    requires Answers(a.result) && Usable(st)
    requires call.bindArg.Some? ==> call.bindArg.value.Array?
    modifies st`stmt, st.connection`statements, api`trace
    ensures st.stmt == old(st.stmt) && st.connection.statements == old(st.connection.statements)
    ensures match BindCheck(shim, call.bindArg, api.negotiated)
      case Err(code) => out == Refused(shim, call.callback, code) && api.trace == old(api.trace)
      case Ok((params, numRows)) =>
        && out == Outcome(call.callback, ReplyOf(shim, RunStage(params, a), a))
        && api.trace == old(api.trace) + RunCalls(shim, st.stmt.value, params, numRows, a)
  {
    var bound := BindArguments(shim, call.bindArg, api.negotiated);
    if bound.Err? {
      return Refused(shim, call.callback, bound.code);
    }
    out := RunStatement(shim, api, st, call.callback, bound.value.params, bound.value.numRows, a);
  }

  /** `StmtObject::exec`: arguments that match no accepted shape are
      refused with InvalidArguments, thrown; otherwise as
      `StmtExecCall`, through the callback when one was given. */
  method StmtExec(shim: Shim, api: Api, st: Statement, args: seq<ScriptValue>, a: ExecAnswers)
    returns (out: Outcome)
    requires Answers(a.result)
    modifies st`stmt, (if st.connection == null then {} else {st.connection})`statements, api`trace
    ensures st.stmt == old(st.stmt)
    ensures st.connection != null ==> st.connection.statements == old(st.connection.statements)
    ensures StmtExecArgs(args).None? ==>
      out == Refused(shim, false, ErrInvalidArguments) && api.trace == old(api.trace)
    ensures StmtExecArgs(args).Some? && !Usable(st) ==>
      out == Refused(shim, StmtExecArgs(args).value.callback, ErrInvalidObject) && api.trace == old(api.trace)
    ensures StmtExecArgs(args).Some? && Usable(st) ==>
      var call := StmtExecArgs(args).value;
      match BindCheck(shim, call.bindArg, api.negotiated)
      case Err(code) => out == Refused(shim, call.callback, code) && api.trace == old(api.trace)
      case Ok((params, numRows)) =>
        && out == Outcome(call.callback, ReplyOf(shim, RunStage(params, a), a))
        && api.trace == old(api.trace) + RunCalls(shim, st.stmt.value, params, numRows, a)
  {
    var call := StmtExecArgs(args);
    if call.None? {
      return Refused(shim, false, ErrInvalidArguments);
    }
    out := StmtExecCall(shim, api, st, call.value, a);
  }

  /** The native call that frees a statement's handle, if it has one. */
  function FreeCallsOf(h: Option<StmtHandle>): seq<NativeCall>
  {
    if h.Some? then [FreeStmt(h.value)] else []
  }

  /** The SQL text of `Connection::exec` runs on an anonymous statement,
      which is destroyed afterwards: its handle is freed and it leaves the
      registry, which ends as it was. In the Node.js 0.10 shim a reply
      through a callback is delivered after that, otherwise before it;
      `deliveredAt` is the length of the trace when the reply is
      delivered. */
  method RunAnonymous(shim: Shim, api: Api, c: Connection, sql: string, callback: bool,
                      params: seq<BindParam>, numRows: nat, a: ExecAnswers)
    returns (out: Outcome, ghost deliveredAt: nat)
    requires Answers(a.result) && c.conn.Some?
    modifies c`statements, api`trace
    ensures c.statements == old(c.statements)
    ensures out == Outcome(callback, ReplyOf(shim, StageOf(true, None, sql, params, a), a))
    ensures var work := WorkCalls(shim, c.conn, None, sql, params, numRows, a);
      var freed := FreeCallsOf(HandleAfter(None, sql, a));
      && api.trace == old(api.trace) + work + freed
      && deliveredAt == |old(api.trace)| + |work| + (if shim == V010 && callback then |freed| else 0)
  {
    var stage := StageOf(true, None, sql, params, a);
    ghost var registry := c.statements;
    var st, w := ExecuteWork(shim, api, c, null, sql, params, numRows, a);
    var reply;
    reply, deliveredAt := ReplyAndDestroy(shim, api, c, st, registry, stage, a, w, callback);
    out := Outcome(callback, reply);
  }

  /** The end of `Connection::exec`: the reply is filled in and the
      anonymous statement destroyed, in the order the shim uses. */
  method ReplyAndDestroy(shim: Shim, api: Api, c: Connection, st: Statement, ghost registry: seq<Statement>,
                         stage: Stage, a: ExecAnswers, w: Work, callback: bool)
    returns (reply: Reply, ghost deliveredAt: nat)
    requires Answers(a.result) && Produced(shim, stage, a, w)
    requires st.connection == c && c.statements == registry + [st] && st !in registry
    modifies st`stmt, st`connection, c`statements, api`trace
    ensures c.statements == registry
    ensures reply == ReplyOf(shim, stage, a)
    ensures api.trace == old(api.trace) + FreeCallsOf(old(st.stmt))
    ensures deliveredAt == |old(api.trace)| + (if shim == V010 && callback then |FreeCallsOf(old(st.stmt))| else 0)
  {
    EraseAppended(registry, st);
    if shim == V010 && callback {
      st.Destroy(api);
      deliveredAt := |api.trace|;
      reply := FillWork(shim, stage, a, w);
    } else {
      deliveredAt := |api.trace|;
      reply := FillWork(shim, stage, a, w);
      st.Destroy(api);
    }
  }

  /** `Connection::exec` after dispatch: refuses a connection without a
      handle as an invalid object, then binds as for a statement. */
  method ConnExecCall(shim: Shim, api: Api, c: Connection, sql: string, call: ExecCall, a: ExecAnswers)
    returns (out: Outcome, ghost deliveredAt: nat)
    requires Answers(a.result)
    requires call.bindArg.Some? ==> call.bindArg.value.Array?
    modifies c`statements, api`trace
    ensures c.statements == old(c.statements)
    ensures c.conn.None? ==> out == Refused(shim, call.callback, ErrInvalidObject) && api.trace == old(api.trace)
    ensures c.conn.Some? ==>
      match BindCheck(shim, call.bindArg, api.negotiated)
      case Err(code) => out == Refused(shim, call.callback, code) && api.trace == old(api.trace)
      case Ok((params, numRows)) =>
        var work := WorkCalls(shim, c.conn, None, sql, params, numRows, a);
        var freed := FreeCallsOf(HandleAfter(None, sql, a));
        && out == Outcome(call.callback, ReplyOf(shim, StageOf(true, None, sql, params, a), a))
        && api.trace == old(api.trace) + work + freed
        && deliveredAt == |old(api.trace)| + |work| + (if shim == V010 && call.callback then |freed| else 0)
  {
    if c.conn.None? {
      return Refused(shim, call.callback, ErrInvalidObject), |api.trace|;
    }
    var bound := BindArguments(shim, call.bindArg, api.negotiated);
    if bound.Err? {
      return Refused(shim, call.callback, bound.code), |api.trace|;
    }
    out, deliveredAt := RunAnonymous(shim, api, c, sql, call.callback, bound.value.params, bound.value.numRows, a);
  }

  /** `Connection::exec`: arguments that match no accepted shape are
      refused with InvalidArguments, thrown; otherwise as
      `ConnExecCall`. */
  method ConnExec(shim: Shim, api: Api, c: Connection, args: seq<ScriptValue>, a: ExecAnswers)
    returns (out: Outcome, ghost deliveredAt: nat)
    requires Answers(a.result)
    modifies c`statements, api`trace
    ensures c.statements == old(c.statements)
    ensures ConnExecArgs(args).None? ==>
      out == Refused(shim, false, ErrInvalidArguments) && api.trace == old(api.trace)
    ensures ConnExecArgs(args).Some? && c.conn.None? ==>
      out == Refused(shim, ConnExecArgs(args).value.call.callback, ErrInvalidObject) && api.trace == old(api.trace)
    ensures ConnExecArgs(args).Some? && c.conn.Some? ==>
      var sql := ConnExecArgs(args).value.sql;
      var call := ConnExecArgs(args).value.call;
      match BindCheck(shim, call.bindArg, api.negotiated)
      case Err(code) => out == Refused(shim, call.callback, code) && api.trace == old(api.trace)
      case Ok((params, numRows)) =>
        var work := WorkCalls(shim, c.conn, None, sql, params, numRows, a);
        var freed := FreeCallsOf(HandleAfter(None, sql, a));
        && out == Outcome(call.callback, ReplyOf(shim, StageOf(true, None, sql, params, a), a))
        && api.trace == old(api.trace) + work + freed
        && deliveredAt == |old(api.trace)| + |work| + (if shim == V010 && call.callback then |freed| else 0)
  {
    var call := ConnExecArgs(args);
    if call.None? {
      return Refused(shim, false, ErrInvalidArguments), |api.trace|;
    }
    out, deliveredAt := ConnExecCall(shim, api, c, call.value.sql, call.value.call, a);
  }

  // ---------------------------------------------------------------------
  // Further result sets (Node.js 0.10 shim)

  /** The native library's answers to `getMoreResults`: whether
      `sqlany_get_next_result` moved to a further result set, what that
      set reports, and the error `sqlany_error` reports otherwise. */
  datatype MoreAnswers = MoreAnswers(nextOk: bool, result: NativeResult, error: NativeError)

  /** The native code for a procedure that has no further result set. */
  const ProcedureComplete: int := 105

  /** The reply of `getMoreResults` on a usable statement: a further
      result set is fetched as for an execute; running out of result sets
      is not an error and yields `undefined`; any other native failure is
      an error. */
  function MoreReply(m: MoreAnswers): Reply
    requires Answers(m.result)
  {
    if !m.nextOk then
      (if m.error.code == ProcedureComplete then Succeeds(NoValue) else Fails(NativeErrorMsg(m.error)))
    else if Fetches(m.result) then Succeeds(ExpectedValue(m.result))
    else Fails(NativeErrorMsg(m.error))
  }

  /** Only a procedure with no further result set ends `getMoreResults`
      without an error; every error names the native code and text. */
  lemma MoreReplyReports(m: MoreAnswers)
    requires Answers(m.result)
    ensures !m.nextOk ==> (MoreReply(m).Succeeds? <==> m.error.code == ProcedureComplete)
    ensures !m.nextOk && MoreReply(m).Succeeds? ==> MoreReply(m).value == NoValue
    ensures m.nextOk ==> (MoreReply(m).Succeeds? <==> Fetches(m.result))
    ensures MoreReply(m).Fails? ==> ParseMessage(MoreReply(m).errorMsg) == Some(Parsed(m.error.code, m.error.text))
  {
    NativeErrorMsgReadable(m.error);
  }

  /** `getMoreResultsWork`: refuses a lost connection and a statement
      without a handle; otherwise moves to the next result set and, when
      there is one, fetches it into cleared storage. */
  method GetMoreResultsWork(api: Api, c: Connection, st: Statement, m: MoreAnswers) returns (w: Work)
    requires Answers(m.result)
    modifies api`trace
    ensures c.conn.None? ==> w.baton == Failed(V010, ErrNotConnected) && api.trace == old(api.trace)
    ensures c.conn.Some? && st.stmt.None? ==> w.baton == Failed(V010, ErrInvalidObject) && api.trace == old(api.trace)
    ensures c.conn.Some? && st.stmt.Some? ==> api.trace == old(api.trace) + [GetNextResult(st.stmt.value)]
    ensures c.conn.Some? && st.stmt.Some? && !m.nextOk ==>
      w == Work(if m.error.code == ProcedureComplete then NoError else NativeFailed(m.error), -1, [], NoGroups, [])
    ensures c.conn.Some? && st.stmt.Some? && m.nextOk ==>
      w.baton == (if Fetches(m.result) then NoError else NativeFailed(m.error))
      && (Fetches(m.result) ==> Delivers(w, m.result))
  {
    var none := Work(NoError, -1, [], NoGroups, []);
    if c.conn.None? {
      return none.(baton := Failed(V010, ErrNotConnected));
    }
    if st.stmt.None? {
      return none.(baton := Failed(V010, ErrInvalidObject));
    }
    api.trace := api.trace + [GetNextResult(st.stmt.value)];
    if !m.nextOk {
      if m.error.code != ProcedureComplete {
        return none.(baton := NativeFailed(m.error));
      }
      return none;
    }
    var fetched, rowsAffected, colNames, groups, colTypes := FetchInto(m.result);
    w := Work(if fetched then NoError else NativeFailed(m.error), rowsAffected, colNames, groups, colTypes);
  }

  /** `StmtObject::getMoreResults`: arguments other than none or a single
      callback are refused with InvalidArguments, thrown; an unusable
      statement is refused as an invalid object; otherwise the next
      result set is asked for and the reply is `MoreReply`. */
  method GetMoreResults(api: Api, st: Statement, args: seq<ScriptValue>, m: MoreAnswers) returns (out: Outcome)
    requires Answers(m.result)
    modifies api`trace
    ensures NoParamArgs(args).None? ==>
      out == Refused(V010, false, ErrInvalidArguments) && api.trace == old(api.trace)
    ensures NoParamArgs(args).Some? && !Usable(st) ==>
      out == Refused(V010, NoParamArgs(args).value, ErrInvalidObject) && api.trace == old(api.trace)
    ensures NoParamArgs(args).Some? && Usable(st) ==>
      out == Outcome(NoParamArgs(args).value, MoreReply(m))
      && api.trace == old(api.trace) + [GetNextResult(st.stmt.value)]
  {
    var callback := NoParamArgs(args);
    if callback.None? {
      return Refused(V010, false, ErrInvalidArguments);
    }
    if st.connection == null || st.connection.conn.None? || st.stmt.None? {
      return Refused(V010, callback.value, ErrInvalidObject);
    }
    var w := GetMoreResultsWork(api, st.connection, st, m);
    var reply := FillResult(V010, w);
    out := Outcome(callback.value, reply);
  }
}
