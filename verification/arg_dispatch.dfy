/** Argument-shape dispatch of the script-facing entry points. Each entry
    point looks at the number and kinds of its arguments, decides whether
    it binds parameters and whether the last argument is a completion
    callback, and rejects every other shape with InvalidArguments before
    any work is scheduled. */
module ArgDispatch {
  import opened Common

  /** `StmtObject::exec`: optional bind array, optional callback. */
  datatype ExecCall = ExecCall(bindArg: Option<ScriptValue>, callback: bool)

  /** `Connection::exec`: SQL text first, then as for a statement. */
  datatype ConnExecCall = ConnExecCall(sql: string, call: ExecCall)

  /** `Connection::prepare`: SQL text and an optional callback. */
  datatype PrepareCall = PrepareCall(sql: string, callback: bool)

  /** What `connect` appends to the constructor's fragment: nothing, a
      text fragment, the options of an object, or (instead of a
      connection string) the numeric handle of an embedded-SQL context. */
  datatype ConnectTarget =
    | NoFragment
    | TextFragment(text: string)
    | OptionsFragment(props: seq<(string, string)>)
    | SqlcaHandle(handle: Double)

  datatype ConnectCall = ConnectCall(target: ConnectTarget, callback: bool)

  /** The argument list a call was dispatched from, rebuilt: the bind
      array (when there is one) followed by the callback (when there is
      one). */
  function ExecArgsOf(c: ExecCall): seq<ScriptValue>
  {
    (if c.bindArg.Some? then [c.bindArg.value] else []) + (if c.callback then [Function] else [])
  }

  /** `StmtObject::exec` accepts `()`, `(array)`, `(fn)` and `(array, fn)`;
      `None` stands for InvalidArguments. */
  function StmtExecArgs(args: seq<ScriptValue>): (r: Option<ExecCall>)
    ensures r.Some? ==> |args| <= 2
    ensures r.Some? && r.value.callback ==> |args| > 0 && args[|args| - 1].Function?
    ensures r.Some? && r.value.bindArg.Some? ==> r.value.bindArg.value.Array?
  {
    if |args| == 0 then Some(ExecCall(None, false))
    else if |args| == 1 && args[0].Array? then Some(ExecCall(Some(args[0]), false))
    else if |args| == 1 && args[0].Function? then Some(ExecCall(None, true))
    else if |args| == 2 && args[0].Array? && args[1].Function? then Some(ExecCall(Some(args[0]), true))
    else None
  }

  /** Statement dispatch accepts exactly the argument lists that are
      rebuilt from a call whose bind argument is an array, and gives that
      call back. */
  lemma StmtExecArgsExact(args: seq<ScriptValue>, c: ExecCall)
    ensures StmtExecArgs(args) == Some(c) <==>
            (args == ExecArgsOf(c) && (c.bindArg.Some? ==> c.bindArg.value.Array?))
  {
    if args == ExecArgsOf(c) && (c.bindArg.Some? ==> c.bindArg.value.Array?) {
      if c.bindArg.Some? && c.callback {
        assert args == [c.bindArg.value, Function];
      } else if c.bindArg.Some? {
        assert args == [c.bindArg.value];
      } else if c.callback {
        assert args == [Function];
      } else {
        assert args == [];
      }
    }
  }

  /** `Connection::exec` accepts `(sql)`, `(sql, array)`, `(sql, fn)` and
      `(sql, array, fn)` with a string `sql`. */
  function ConnExecArgs(args: seq<ScriptValue>): (r: Option<ConnExecCall>)
    ensures r.Some? ==> 1 <= |args| <= 3 && args[0] == Str(r.value.sql)
    ensures r.Some? && r.value.call.bindArg.Some? ==> r.value.call.bindArg.value.Array?
  {
    if |args| == 0 || !args[0].Str? then None
    else
      var rest := args[1..];
      if |rest| == 0 then Some(ConnExecCall(args[0].s, ExecCall(None, false)))
      else if |rest| == 1 && rest[0].Array? then Some(ConnExecCall(args[0].s, ExecCall(Some(rest[0]), false)))
      else if |rest| == 1 && rest[0].Function? then Some(ConnExecCall(args[0].s, ExecCall(None, true)))
      else if |rest| == 2 && rest[0].Array? && rest[1].Function? then
        Some(ConnExecCall(args[0].s, ExecCall(Some(rest[0]), true)))
      else None
  }

  /** Connection dispatch is statement dispatch behind a leading SQL
      string: it accepts a list exactly when the list starts with a string
      and the rest is accepted by the statement form. */
  lemma {:induction false} ConnExecArgsIsStmtAfterSql(args: seq<ScriptValue>)
    ensures ConnExecArgs(args).Some? <==>
            (|args| > 0 && args[0].Str? && StmtExecArgs(args[1..]).Some?)
    ensures ConnExecArgs(args).Some? ==>
            ConnExecArgs(args).value == ConnExecCall(args[0].s, StmtExecArgs(args[1..]).value)
  {
  }

  /** Connection dispatch, stated against the rebuilt argument list. */
  lemma ConnExecArgsExact(args: seq<ScriptValue>, c: ConnExecCall)
    ensures ConnExecArgs(args) == Some(c) <==>
            (args == [Str(c.sql)] + ExecArgsOf(c.call) &&
             (c.call.bindArg.Some? ==> c.call.bindArg.value.Array?))
  {
    ConnExecArgsIsStmtAfterSql(args);
    if |args| > 0 {
      StmtExecArgsExact(args[1..], c.call);
    }
    if args == [Str(c.sql)] + ExecArgsOf(c.call) {
      assert args[1..] == ExecArgsOf(c.call);
    }
  }

  /** `Connection::prepare` accepts `(sql)` and `(sql, fn)` with a string
      `sql`; every other shape is rejected and the call returns. */
  function PrepareArgs(args: seq<ScriptValue>): (r: Option<PrepareCall>)
    ensures r.Some? <==> (1 <= |args| <= 2 && args[0].Str? && (|args| == 2 ==> args[1].Function?))
    ensures r.Some? ==> args[0] == Str(r.value.sql) && (r.value.callback <==> |args| == 2)
  {
    if |args| == 1 && args[0].Str? then Some(PrepareCall(args[0].s, false))
    else if |args| == 2 && args[0].Str? && args[1].Function? then Some(PrepareCall(args[0].s, true))
    else None
  }

  /** How the Node.js 0.10 shim's `prepare` front end leaves its
      dispatch: whether it raised InvalidArguments, and whether it goes on
      to prepare a statement regardless. */
  datatype PrepareDispatch = PrepareDispatch(thrown: bool, proceeds: bool, callback: bool)

  /** The 0.10 shim's dispatch as written: the rejecting branch raises
      the error but has no `return`, so control falls through into the
      connection check and the prepare. */
  function PrepareArgsAsWrittenV010(args: seq<ScriptValue>): (d: PrepareDispatch)
    ensures d.proceeds
    ensures d.thrown <==> PrepareArgs(args).None?
  {
    match PrepareArgs(args)
    case Some(c) => PrepareDispatch(false, true, c.callback)
    case None => PrepareDispatch(true, true, false)
  }

  /** The dispatch as evidently intended (and as the current shim has it):
      a rejected shape stops the call. */
  function PrepareArgsIntended(args: seq<ScriptValue>): (d: PrepareDispatch)
    ensures d.thrown <==> !d.proceeds
  {
    match PrepareArgs(args)
    case Some(c) => PrepareDispatch(false, true, c.callback)
    case None => PrepareDispatch(true, false, false)
  }

  /** A bad `prepare` call in the 0.10 shim both raises InvalidArguments
      and goes on to prepare: `db.prepare(5)` reaches the native prepare
      with the text "5" once the connection is open. */
  lemma PrepareFallsThroughV010()
    ensures PrepareArgsAsWrittenV010([Int32(5)]).thrown
    ensures PrepareArgsAsWrittenV010([Int32(5)]).proceeds
    ensures !PrepareArgsIntended([Int32(5)]).proceeds
  {
  }

  /** The two dispatches differ only on rejected shapes. */
  lemma PrepareAsWrittenAgreesOnAccepted(args: seq<ScriptValue>)
    requires PrepareArgs(args).Some?
    ensures PrepareArgsAsWrittenV010(args) == PrepareArgsIntended(args)
  {
  }

  /** `disconnect`, `commit`, `rollback`, `drop` and `getMoreResults`
      accept `()` and `(fn)`; the result says whether a callback was
      given. */
  function NoParamArgs(args: seq<ScriptValue>): (r: Option<bool>)
    ensures r.Some? <==> (|args| == 0 || (|args| == 1 && args[0].Function?))
    ensures r.Some? ==> (r.value <==> |args| == 1)
  {
    if |args| == 0 then Some(false)
    else if |args| == 1 && args[0].Function? then Some(true)
    else None
  }

  /** `args[0]->ToString()` for the single-argument values `connect`
      appends as text: strings, booleans, `null` and `undefined` (numbers,
      objects and functions are dispatched before this point). */
  function ScriptText(v: ScriptValue): string
    requires !v.IsNumber() && !v.IsObject()
  {
    match v
    case Str(s) => s
    case Bool(b) => if b then "true" else "false"
    case Null => "null"
    case Undefined => "undefined"
  }

  /** The own enumerable properties of an object argument, read as
      strings. Only plain objects carry modelled properties. */
  function OwnProperties(v: ScriptValue): seq<(string, string)>
  {
    if v.Object? then v.props else []
  }

  /** The fragment one connect argument contributes. */
  function TargetOf(v: ScriptValue): ConnectTarget
  {
    if v.IsNumber() then SqlcaHandle(v.NumberValue())
    else if v.Str? then TextFragment(v.s)
    else if v.IsObject() then OptionsFragment(OwnProperties(v))
    else TextFragment(ScriptText(v))
  }

  /** `connect` dispatch. A callback alone or no argument adds no
      fragment. One number selects an embedded-SQL handle, one string a
      text fragment and one object an options fragment; any other single
      value (a boolean, `null`, `undefined`) falls through the chain with
      the text flag still set and is appended as its `ToString()` text.
      Two arguments must be number, string or object followed by a
      function; longer lists are rejected. */
  function ConnectArgs(args: seq<ScriptValue>): (r: Option<ConnectCall>)
    ensures r.Some? ==> (r.value.callback <==> |args| == 2 || (|args| == 1 && args[0].Function?))
    ensures r.Some? && r.value.target.SqlcaHandle? ==> |args| > 0 && args[0].IsNumber()
  {
    if |args| == 0 then Some(ConnectCall(NoFragment, false))
    else if |args| == 1 && args[0].Function? then Some(ConnectCall(NoFragment, true))
    else if |args| == 1 then Some(ConnectCall(TargetOf(args[0]), false))
    else if |args| == 2 && args[1].Function? &&
            (args[0].IsNumber() || args[0].Str? || args[0].IsObject()) then
      Some(ConnectCall(TargetOf(args[0]), true))
    else None
  }

  /** `connect` never rejects zero or one argument; it rejects a longer
      list exactly when it is not a number, string or object followed by
      a function. */
  lemma ConnectRejects(args: seq<ScriptValue>)
    ensures ConnectArgs(args).None? <==>
            (|args| > 1 &&
             !(|args| == 2 && args[1].Function? &&
               (args[0].IsNumber() || args[0].Str? || args[0].IsObject())))
  {
  }

  /** The single-value fall-through: a boolean is accepted as the text
      fragment "true", indistinguishable from the string "true". */
  lemma ConnectBoolIsText()
    ensures ConnectArgs([Bool(true)]) == ConnectArgs([Str("true")])
    ensures ConnectArgs([Bool(true)]) == Some(ConnectCall(TextFragment("true"), false))
  {
  }

  /** What the `Connection` constructor does with its argument: `None`
      when it raises InvalidArguments, otherwise the stored fragment as
      text or as options still to be joined. */
  datatype CtorArg = CtorText(text: string) | CtorOptions(props: seq<(string, string)>)

  function ConstructorArgs(args: seq<ScriptValue>): (r: Option<CtorArg>)
    ensures r.None? <==> |args| > 1 || (|args| == 1 && (args[0].Bool? || args[0].IsNumber()))
    ensures |args| == 0 ==> r == Some(CtorText(""))
  {
    if |args| > 1 then None
    else if |args| == 0 then Some(CtorText(""))
    else
      var v := args[0];
      if v.Str? then Some(CtorText(v.s))
      else if v.IsObject() then Some(CtorOptions(OwnProperties(v)))
      else if !v.Undefined? && !v.Null? then None
      else Some(CtorText(""))
  }
}
