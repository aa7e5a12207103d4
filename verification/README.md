# SQL Anywhere binding for Node.js — a Dafny model

This project models the native core of the SQL Anywhere driver for Node.js.
That core is a C++ add-on. It turns calls from scripts into calls on SQL
Anywhere's C API (`dbcapi`) and turns the results back into script values.
It ships in two builds, called *shims* here:

- `Current`: for Node.js after 0.10 (`sqlanywhere.cpp`, `utils.cpp`);
- `V010`: for Node.js 0.10 (`sqlanywhere_v0_10.cpp`, `utils_v0_10.cpp`).

The model covers both builds. Every operation takes the shim as a parameter
wherever the two differ.

What is modelled, by module:

- **Common** (`common.dfy`): the native data-type tags and how fetch
  classifies them. Also the binding's own error codes, script values as V8
  hands them over, the value groups a request keeps, decimal rendering of
  integers, UTF-8 encoding, and 32-bit unsigned counter arithmetic.
- **ErrorMsg** (`error_msg.dfy`): the `Code: <n> Msg: <text>` messages of
  both `getErrorMsg` overloads, with a reader that recovers code and text.
- **ArgDispatch** (`arg_dispatch.dfy`): how `exec`, `prepare`, `connect`,
  `drop`/`commit`/… and the `Connection` constructor sort their script
  arguments into a call, or into `Invalid Arguments`.
- **BindCodec** (`bind_codec.dfy`): encoding bind arguments into
  `a_sqlany_bind_param` slots. This covers the current shim's
  `getBindParameters`, the 0.10 shim's single-row and wide (multi-row
  batch) variants, and the overlay `executeWork` makes of each slot over
  the description the native library returns. Every encoding has a reader,
  and the round trip is proved.
- **FetchCodec** (`fetch_codec.dfy`): `fetchResultSet`, which drains a
  native result into tag and value lists, and `getResultSet`, which
  rebuilds rows from those lists. The two are proved to compose into the
  native rows.
- **Lifecycle** (`lifecycle.dfy`): the process-wide interface (`api`, its
  initialization state, the `openConnections` counter). Also the
  `Connection` and `StmtObject` classes with their fields, and the worker
  bodies of `connect`, `disconnect`, `commit`, `rollback`, `prepare`,
  `drop` and the destructors.
- **Execution** (`execute.dfy`): `executeWork`, `fillResult`, the `exec`
  front ends of statements and connections, and `getMoreResults`.
- **ConnString** (`conn_string.dfy`): `HashToString` and the connection
  string `connect` hands to the native library. A reader for option lists
  is proved to recover the options.

The native library is not part of this model. Its answers are parameters
(`ExecAnswers`, `ConnectAnswers`, `MoreAnswers`, `NativeResult`). The calls
the binding makes on it are appended to `Api.trace`, so contracts state
which native calls happen in which order. The outcome that reaches the
script is an `Outcome`. It carries whether the reply goes to a callback or
is returned or thrown, plus the reply itself: a result value or a
formatted error message.

## Model

| member | source | states |
|---|---|---|
| Common.ClassOf | src/utils.cpp:285-381 | a tag is a NULL marker exactly when it is `A_INVALID_TYPE`, unhandled exactly when it is `A_FLOAT`, and stored as bytes exactly when it is a string or binary |
| Common.DecU32 | src/sqlanywhere.cpp:786 | decrementing the unsigned counter stays in 32 bits and wraps from 0 to 2^32-1 |
| Common.IncU32 | src/sqlanywhere.cpp:629 | incrementing the unsigned counter stays in 32 bits and wraps from 2^32-1 to 0 |
| Common.IntToString | src/utils.cpp:15-18 | the decimal rendering of a code is non-empty and contains no space |
| Common.ParseIntOfIntToString | src/utils.cpp:15-18 | every integer is read back from its decimal rendering, negative numbers included |
| Common.Utf8 | src/utils.cpp:210-214 | a string's UTF-8 encoding takes one to four bytes per character |
| ErrorMsg.ErrorText | src/utils_v0_10.cpp:13-54 | codes outside -2001..-2009 read "Unknown Error", and so does -2009 in the current shim |
| ErrorMsg.ParseFormat | src/utils.cpp:12-50 | the message layout is readable: code and text come back out of every formatted message |
| ErrorMsg.GetErrorMsgReadable | src/utils.cpp:12-50 | a message for one of the binding's codes reads back as that code and its fixed text |
| ErrorMsg.NativeErrorMsgReadable | src/utils.cpp:52-64 | a message for a connection's native error reads back as the native code and text |
| ErrorMsg.ShimsAgreeExceptWide | src/utils_v0_10.cpp:13-54 | both shims give the same message for every code except -2009 |
| ErrorMsg.ShimsDifferOnWide | src/utils_v0_10.cpp:46-47 | for -2009 the two shims give different messages |
| ErrorMsg.GetErrorMsgInjective | src/utils.cpp:12-50 | distinct codes give distinct messages |
| ArgDispatch.StmtExecArgs | src/sqlanywhere.cpp:214-232 | an accepted call has at most two arguments, a callback only as the last argument, and a bind argument only when it is an array |
| ArgDispatch.StmtExecArgsExact | src/sqlanywhere.cpp:214-232 | a statement's `exec` accepts exactly the argument lists `()`, `(array)`, `(fn)` and `(array, fn)`, and gives back the call they spell |
| ArgDispatch.ConnExecArgs | src/sqlanywhere.cpp:303-327 | an accepted call has one to three arguments and starts with the SQL string |
| ArgDispatch.ConnExecArgsIsStmtAfterSql | src/sqlanywhere.cpp:303-327 | a connection's `exec` accepts exactly a string followed by an argument list a statement's `exec` accepts, with the same meaning |
| ArgDispatch.ConnExecArgsExact | src/sqlanywhere_v0_10.cpp:425-447 | a connection's `exec` accepts exactly `[sql]` followed by a statement call's arguments |
| ArgDispatch.PrepareArgs | src/sqlanywhere.cpp:473-482 | `prepare` accepts exactly `(string)` and `(string, fn)`, with a callback exactly in the two-argument form |
| ArgDispatch.PrepareArgsAsWrittenV010 | src/sqlanywhere_v0_10.cpp:588-597 | the 0.10 dispatch always goes on to prepare, and throws exactly when the arguments are rejected |
| ArgDispatch.PrepareArgsIntended | src/sqlanywhere.cpp:473-482 | the corrected dispatch throws exactly when it does not go on |
| ArgDispatch.PrepareFallsThroughV010 | src/sqlanywhere_v0_10.cpp:594-597 | `prepare(5)` both throws and prepares under the 0.10 shim; the corrected dispatch stops |
| ArgDispatch.PrepareAsWrittenAgreesOnAccepted | src/sqlanywhere_v0_10.cpp:588-597 | on accepted arguments the 0.10 dispatch and the corrected one agree |
| ArgDispatch.NoParamArgs | src/sqlanywhere.cpp:1042-1052 | a call without parameters accepts exactly `()` and `(fn)`, with a callback exactly in the second form |
| ArgDispatch.ConnectArgs | src/sqlanywhere.cpp:659-708 | an accepted `connect` wants a callback exactly for `(fn)` and two-argument forms, and takes an SQLCA handle only from a number |
| ArgDispatch.ConnectRejects | src/sqlanywhere.cpp:659-708 | `connect` throws exactly for longer lists that are not a number, string or object followed by a function |
| ArgDispatch.ConnectBoolIsText | src/sqlanywhere.cpp:659-742 | a single boolean argument is not rejected but reaches the connection string as its text |
| ArgDispatch.ConstructorArgs | src/utils.cpp:763-795 | the constructor rejects more than one argument and a lone boolean or number; no argument gives an empty fragment |
| BindCodec.BoundCurrent | src/utils.cpp:194-250 | binding gives one slot per bind value |
| BindCodec.ScratchOf | src/utils.cpp:194-250 | the request keeps a length for every string it keeps |
| BindCodec.BindOneCurrent | src/utils.cpp:195-249 | one value binds exactly when its type is supported; the slot and the kept values are those of the specification |
| BindCodec.BoundCurrentExtend | src/utils.cpp:194-250 | binding one more value appends exactly its slot and its kept values |
| BindCodec.GetBindParameters | src/utils.cpp:182-253 | succeeds exactly when every value is bindable; on failure the slots built are those of the values before the first unbindable one |
| BindCodec.BoundCurrentPrefix | src/utils.cpp:194-250 | binding a prefix gives the prefix of the slots |
| BindCodec.BoundCurrentSlot | src/utils.cpp:195-243 | each slot's type, buffer, length and buffer size by value class; a null is an `A_VAL32` slot flagged null that keeps the previous slot's buffer, a string carries its UTF-8 length, a binary has buffer size `sizeof(char*)` |
| BindCodec.BoundCurrentIsAddress | src/utils.cpp:194-250 | no slot is marked as an address |
| BindCodec.BoundCurrentReadsBack | src/utils.cpp:195-243 | reading a slot back gives the bound value |
| BindCodec.SlotV010ReadsBack | src/utils_v0_10.cpp:292-348 | the 0.10 slot reads back as the bound value; a null is an `A_STRING` slot with no buffer |
| BindCodec.BoundV010 | src/utils_v0_10.cpp:291-354 | the 0.10 binding gives one slot per value |
| BindCodec.CheckHomogeneous | src/utils_v0_10.cpp:175-194 | the batch check passes exactly when, for every later row and every column of the first row, a number, string or Buffer in row 0 is matched by the same class or null in that row (an element past a row's end reads as `undefined`); columns whose row-0 value is of another class, and elements past the first row's length, are not checked |
| BindCodec.FillEntry | src/utils_v0_10.cpp:235-259 | filling row `r` of a column writes that row's double, address, length and null flag and leaves every other row alone |
| BindCodec.BindColumn | src/utils_v0_10.cpp:196-261 | a column binds exactly when its first row has a bindable type, giving the specified column slot |
| BindCodec.GetWideBindParameters | src/utils_v0_10.cpp:153-265 | the batch size is the number of rows; success exactly for a bindable batch; an empty first row gives no slots and one empty storage; a failed column check keeps the columns built before it |
| BindCodec.WideColumnReadsBack | src/utils_v0_10.cpp:196-262 | every row of a column slot reads back as that row's value, and its null flag is set exactly for null rows |
| BindCodec.WideNullColumn | src/utils_v0_10.cpp:213-233 | a column whose first row is null is typed `A_INVALID_TYPE`; its null rows read back as null and every other row reads back as no value, since the numbers and strings written for them sit in buffers the parameter does not point at |
| BindCodec.BindOneV010 | src/utils_v0_10.cpp:292-353 | one value binds in the 0.10 shim exactly when its type is supported |
| BindCodec.BoundV010Extend | src/utils_v0_10.cpp:291-354 | binding one more value appends exactly its slot and storage |
| BindCodec.BindEachV010 | src/utils_v0_10.cpp:291-356 | the 0.10 loop succeeds exactly when every value binds and stops at the first that does not |
| BindCodec.GetBindParametersV010 | src/utils_v0_10.cpp:267-357 | an empty list binds nothing; a list of arrays is a wide batch; anything else is one row bound value by value |
| BindCodec.Overlay | src/sqlanywhere_v0_10.cpp:129-144 | the slot passed to the native bind keeps the script's buffer, takes length and size from the script only for strings and binaries, and takes the type as each shim chooses |
| BindCodec.OverlayCurrentReadsBack | src/sqlanywhere.cpp:149-159 | under the stated conditions the overlaid slot reads back exactly as the script's slot |
| BindCodec.OverlayV010ReadsBack | src/sqlanywhere_v0_10.cpp:129-144 | the same for the 0.10 overlay, for every row of a batch |
| FetchCodec.StoreCell | src/utils.cpp:440-554 | a fetched cell is kept exactly when its type is handled, appending its tag and its value to its group |
| FetchCodec.FetchRow | src/utils.cpp:433-555 | a row is kept exactly when all its cells are handled, appending their tags and values |
| FetchCodec.FetchedRowsExtend | src/utils.cpp:431-556 | fetching one more row appends exactly that row's tags and values |
| FetchCodec.FetchRows | src/utils.cpp:431-556 | fetching succeeds exactly when every cell is handled and then holds every cell's tag and value in order |
| FetchCodec.FetchResultSet | src/utils.cpp:396-560 | a statement with affected rows and no columns reports the count; any other statement reports -1; with columns, their names are kept and the fetch succeeds exactly when every cell is handled |
| FetchCodec.FetchFailsAt | src/utils.cpp:435-443 | one missing or unhandled cell anywhere fails the whole fetch |
| FetchCodec.AssembledRows | src/utils.cpp:279-386 | assembly builds as many rows as the kept values reach |
| FetchCodec.Released | src/utils.cpp:303-350 | releasing values keeps every group's length |
| FetchCodec.ReleaseInt | src/utils.cpp:303-305 | taking an integer releases exactly that entry |
| FetchCodec.ReleaseNum | src/utils.cpp:319-321 | taking a number releases exactly that entry |
| FetchCodec.ReleaseStr | src/utils.cpp:346-350 | taking a string or binary releases exactly that entry and its length |
| FetchCodec.CursorAt | src/utils.cpp:285-381 | the entry under the cursor of the tag's class exists and has not been released |
| FetchCodec.TakeCell | src/utils.cpp:285-383 | taking a cell succeeds exactly for handled tags and gives the specified cell, advancing one cursor |
| FetchCodec.TakeInt | src/utils.cpp:291-306 | an integer entry gives its value, a released or null entry gives null |
| FetchCodec.TakeNum | src/utils.cpp:308-322 | a number entry gives its value, a released or null entry gives null |
| FetchCodec.TakeBytes | src/utils.cpp:324-378 | a byte entry gives its first `length` bytes as a blob or as text |
| FetchCodec.RowStep | src/utils.cpp:284-384 | adding one cell sets exactly that column of the row object |
| FetchCodec.NextCell | src/utils.cpp:284-384 | one step of the column loop adds the next cell or fails on an unhandled tag |
| FetchCodec.BuildRow | src/utils.cpp:282-384 | a row builds exactly when none of its tags is unhandled, giving the specified row object |
| FetchCodec.NextRow | src/utils.cpp:279-386 | one pass of the row loop adds one row or reports an unhandled tag |
| FetchCodec.AssemblyDone | src/utils.cpp:279-281 | when no group has entries left, every row has been built and every cursor is at its group's end |
| FetchCodec.AssembleRows | src/utils.cpp:275-387 | assembly succeeds exactly when no unhandled tag is reached and then gives the specified rows, consuming every entry |
| FetchCodec.GetResultSet | src/utils.cpp:255-394 | the result is the specified value; the 0.10 shim releases nothing; the current shim releases every value of a row set it builds |
| FetchCodec.ReleasedAll | src/utils.cpp:279-386 | consuming every entry releases every entry |
| FetchCodec.MoreRows | src/utils.cpp:279-281 | the row loop's condition holds exactly while rows remain to be built |
| FetchCodec.UnreadEntries | src/utils.cpp:279-281 | some group has an entry left exactly when a non-null cell remains |
| FetchCodec.SplitCounts | src/utils.cpp:431-556 | fetching gives one tag per cell and as many group entries of each class as there are tags of it |
| FetchCodec.CellAtSplit | src/utils.cpp:440-554 | the cell read back at any position is the decoded fetched cell |
| FetchCodec.ConsumingIffLive | src/utils.cpp:440-443 | a tag takes a group entry exactly when its cell is not null |
| FetchCodec.RowDecodes | src/utils.cpp:282-384 | each assembled row holds the decoded cells of the fetched row |
| FetchCodec.DroppedRowNull | src/utils.cpp:279-281 | a fetched row that assembly does not build is all null |
| FetchCodec.LastKeptLive | src/utils.cpp:279-281 | the last row assembly builds has a non-null cell |
| FetchCodec.FetchThenAssemble | src/utils.cpp:275-386 | assembling what the fetch kept gives back the fetched rows, decoded, except trailing all-null rows, which are dropped |
| Lifecycle.EraseFirstCounts | src/utils.cpp:826-837 | removing a statement from the list removes one occurrence and nothing else |
| Lifecycle.EraseAppended | src/utils.cpp:826-837 | removing the statement just added gives the list as it was before |
| Lifecycle.EraseFirstDistinct | src/utils.cpp:826-837 | in a list without repeats, removal takes the statement out and keeps every other |
| Lifecycle.CountInc | src/sqlanywhere.cpp:629 | the 32-bit counter tracks the number of opens modulo 2^32 |
| Lifecycle.CountDec | src/sqlanywhere.cpp:786 | the 32-bit counter tracks the number of closes modulo 2^32 |
| Lifecycle.Api.constructor | src/sqlanywhere.cpp:11-12 | the interface starts uninitialized, with no connections and no native calls |
| Lifecycle.Api.CountOpened | src/sqlanywhere.cpp:629 | a new connection increments the counter and joins the live set |
| Lifecycle.Api.CountClosed | src/sqlanywhere.cpp:786 | a closed connection decrements the counter and leaves the live set |
| Lifecycle.Api.CleanApi | src/utils.cpp:562-573 | the interface is finalized exactly when it is initialized and no connection is open, calling `fini` then `finalize_interface` |
| Lifecycle.Statement.constructor | src/utils.cpp:602-607 | a new statement has no native handle and no connection |
| Lifecycle.Statement.Cleanup | src/utils.cpp:672-679 | the native statement is freed once and forgotten |
| Lifecycle.Statement.RemoveConnection | src/utils.cpp:681-688 | the statement leaves its connection's list and drops the back-reference |
| Lifecycle.Statement.Destroy | src/utils_v0_10.cpp:651-665 | destruction frees the native statement and leaves the connection's list, keeping it free of repeats |
| Lifecycle.Statement.Drop | src/sqlanywhere.cpp:1023-1031 | the corrected `drop` frees the native statement and unlinks it, with or without a connection, and leaves a statement on which `dropWork` as written would crash |
| Lifecycle.DropAsWritten | src/sqlanywhere.cpp:1023-1031 | `dropWork` as written crashes exactly when the statement has no connection |
| Lifecycle.Statement.DropTwice | src/sqlanywhere.cpp:1023-1031 | after one drop the statement has no connection, so a second `dropWork` as written crashes; as corrected the second drop frees nothing more and leaves the statement without handle or connection |
| Lifecycle.DropAgreesWhenLinked | src/sqlanywhere.cpp:1023-1031 | with a connection, `dropWork` as written and corrected agree |
| Lifecycle.InitRetryPolicy | src/sqlanywhere_v0_10.cpp:693-718 | the 0.10 shim asks for version 4 and retries once with the reported version when that is at least 2; the current shim asks once for version 2 |
| Lifecycle.AttachOutcomes | src/sqlanywhere.cpp:608-626 | a handle is kept exactly when the connect succeeds; a failed string connect frees its handle; a failed SQLCA connect reports a message without setting the error flag |
| Lifecycle.FreeAll | src/utils.cpp:816-824 | every statement of the list is cleaned up in order, freeing each native handle once |
| Lifecycle.CleanupAt | src/utils.cpp:820-823 | cleaning one statement frees only its handle and leaves the later ones |
| Lifecycle.Connection.constructor | src/utils.cpp:763-795 | a new connection is unconnected and keeps the constructor's text or its joined options |
| Lifecycle.Connection.Connected | src/sqlanywhere_v0_10.cpp:1063-1071 | `connected()` is 1 exactly when there is a native connection, 0 otherwise |
| Lifecycle.Connection.RemoveStmt | src/utils.cpp:826-837 | the first occurrence of the statement leaves the list |
| Lifecycle.Connection.CleanupStmts | src/utils.cpp:816-824 | every registered statement's native handle is freed, in list order |
| Lifecycle.Connection.ConnectWork | src/sqlanywhere.cpp:579-630 | connecting twice fails with Already Connected and changes nothing; otherwise the interface is initialized if needed, then the connect is attempted, and the counter counts exactly the successful connects |
| Lifecycle.Connection.ConnectFresh | src/sqlanywhere_v0_10.cpp:680-743 | the same for an unconnected object, per shim; the recorded API version is written only when the interface is first initialized |
| Lifecycle.Connection.InitPhase | src/sqlanywhere_v0_10.cpp:693-718 | the interface is loaded and initialized only when it is not yet, recording the negotiated version |
| Lifecycle.Connection.Initialize | src/sqlanywhere_v0_10.cpp:701-717 | initialization succeeds per the retry policy and records the version it settled on |
| Lifecycle.Connection.Attach | src/sqlanywhere.cpp:608-629 | the connect's native calls, the handle kept and the counter's increment on success |
| Lifecycle.Connection.ReleaseHandle | src/utils.cpp:806-813 | closing decrements the counter, and the interface is finalized when it reaches zero |
| Lifecycle.Connection.DisconnectWork | src/sqlanywhere.cpp:766-794 | disconnecting an unconnected object reports No Connection Available without the error flag; otherwise all statements are freed, the connection is closed and the counter is decremented |
| Lifecycle.Connection.CommitWork | src/sqlanywhere.cpp:845-862 | commit needs a connection and reports the native error when it fails |
| Lifecycle.Connection.RollbackWork | src/sqlanywhere.cpp:913-930 | rollback needs a connection and reports the native error when it fails |
| Lifecycle.Connection.Prepare | src/sqlanywhere.cpp:484-547 | prepare needs a connection and gives a new statement linked to it; only the current shim registers it in the connection's list |
| Lifecycle.Connection.Destroy | src/utils.cpp:798-814 | destruction frees every statement, closes the connection and keeps the counter; the interface is finalized with the last connection |
| Lifecycle.PrepareWork | src/sqlanywhere.cpp:415-436 | a statement without a live connection fails with Invalid Object; otherwise the native handle is the prepare's answer |
| Execution.BoundWide | src/utils_v0_10.cpp:196-262 | a wide batch binds one slot per column |
| Execution.WideGateReadsIndeterminate | src/sqlanywhere_v0_10.cpp:246-255 | a second connection's gate reads an unset version and may refuse or allow a batch, where the corrected gate allows it |
| Execution.WideGatesAgreeOnInitializer | src/sqlanywhere_v0_10.cpp:477-486 | once the version is recorded, the gate as written and the corrected gate agree |
| Execution.BindArguments | src/sqlanywhere_v0_10.cpp:236-259 | no bind argument binds nothing; unbindable values give Can not bind; a batch the library cannot take gives -2009 in the 0.10 shim; otherwise the specified slots and row count |
| Execution.FirstFailure | src/sqlanywhere.cpp:140-166 | the bind loop stops at the first parameter the library refuses to describe or bind |
| Execution.BindCallsAlternate | src/sqlanywhere.cpp:140-166 | each bound parameter costs a describe call followed by a bind call with the overlaid slot |
| Execution.BindAll | src/sqlanywhere.cpp:140-166 | the loop succeeds exactly when no parameter fails, and its native calls are those of the steps up to the failure |
| Execution.BindStep | src/sqlanywhere.cpp:141-165 | one step succeeds exactly when its describe and bind succeed |
| Execution.RunCallsAfter | src/sqlanywhere_v0_10.cpp:134-158 | a run is a reset, then the binds, then the batch size for a wide batch, then the execute, stopping at the first failure |
| Execution.PreparedWork | src/sqlanywhere.cpp:110-132 | a prepared statement runs without a new prepare |
| Execution.WorkCallsAfter | src/sqlanywhere.cpp:102-168 | no connection or no SQL makes no call; an anonymous statement is prepared first |
| Execution.BindCallsNoExecute | src/sqlanywhere.cpp:140-166 | the bind loop only describes and binds |
| Execution.RunCallsOrder | src/sqlanywhere_v0_10.cpp:134-158 | execute is the last call and happens exactly when every earlier step succeeds; a batch size is set only for wide batches of the 0.10 shim |
| Execution.BindFailedCalls | src/sqlanywhere_v0_10.cpp:134-155 | a failed bind executes nothing |
| Execution.ExecutedCalls | src/sqlanywhere_v0_10.cpp:134-158 | a successful bind is followed by the batch size when needed and the execute |
| Execution.WorkCallsOrder | src/sqlanywhere.cpp:96-187 | `executeWork` executes exactly when connected, with a statement, and every step succeeds |
| Execution.FetchInto | src/sqlanywhere.cpp:180-186 | the fetch succeeds exactly when the result is fetchable and then yields the expected result value |
| Execution.FillResult | src/sqlanywhere.cpp:69-94 | an error gives its message; a result that cannot be built gives Error making result set Object; otherwise the result value |
| Execution.ReplyOfReports | src/sqlanywhere.cpp:96-187 | the reply succeeds exactly when the run completes; failures read back as No Connection Available, Invalid Object or the native error |
| Execution.RefusedReports | src/sqlanywhere.cpp:234-241 | a refused call reports its code through the chosen channel |
| Execution.FillWork | src/sqlanywhere.cpp:189-197 | the reply after the work is the specified reply of its stage |
| Execution.Adopt | src/sqlanywhere.cpp:110-113 | an anonymous statement joins the connection's list |
| Execution.ExecuteAndFetch | src/sqlanywhere_v0_10.cpp:153-171 | execute, with the batch size first when needed, then the fetch |
| Execution.ResetAndBind | src/sqlanywhere.cpp:134-166 | reset and bind succeed exactly when the reset and every bind succeed |
| Execution.RunPrepared | src/sqlanywhere.cpp:134-186 | a prepared statement's run makes the specified calls and produces its stage's work |
| Execution.PrepareAndRun | src/sqlanywhere.cpp:109-186 | an unprepared statement is prepared first, and its handle is the prepare's answer |
| Execution.ExecuteWork | src/sqlanywhere.cpp:96-187 | the whole worker: its native calls, its work, the handle it leaves and the statement it registers |
| Execution.RunStatement | src/sqlanywhere.cpp:243-289 | a usable statement's run replies with its stage and changes neither handle nor registry |
| Execution.StmtExecCall | src/sqlanywhere.cpp:234-289 | a statement without a live connection is refused with Invalid Object; a failed bind is refused with its code; otherwise the run's reply |
| Execution.BindAndRun | src/sqlanywhere_v0_10.cpp:236-285 | binding is checked before any native call |
| Execution.StmtExec | src/sqlanywhere.cpp:203-290 | a statement's `exec` from arguments to outcome: bad arguments, invalid object, bind errors and the run |
| Execution.RunAnonymous | src/sqlanywhere_v0_10.cpp:174-193 | an anonymous statement is freed after its run; the 0.10 shim frees it before delivering to a callback |
| Execution.ReplyAndDestroy | src/sqlanywhere_v0_10.cpp:184-189 | the statement leaves the connection's list and its handle is freed, with the reply unchanged |
| Execution.ConnExecCall | src/sqlanywhere_v0_10.cpp:449-517 | a connection without a native handle is refused with Invalid Object; otherwise the bind check and an anonymous run |
| Execution.ConnExec | src/sqlanywhere.cpp:293-390 | a connection's `exec` from arguments to outcome |
| Execution.MoreReplyReports | src/sqlanywhere_v0_10.cpp:307-319 | with no next result, procedure complete (105) is success with no value and any other code is its native error |
| Execution.GetMoreResultsWork | src/sqlanywhere_v0_10.cpp:288-328 | needs a connection and a statement, asks for the next result, and fetches it |
| Execution.GetMoreResults | src/sqlanywhere_v0_10.cpp:353-417 | `getMoreResults` from arguments to outcome |
| ConnString.JoinedSnoc | src/utils.cpp:706-712 | one more option appends `;key=value` to the string |
| ConnString.HashToString | src/utils.cpp:692-715 | the loop builds the options joined as `key=value` with `;` between |
| ConnString.PiecesJoin | src/utils.cpp:692-715 | splitting at `;` undoes joining at `;` |
| ConnString.JoinedRoundTrip | src/utils.cpp:692-715 | options whose keys and values hold no `;` or `=` are read back from the joined string |
| ConnString.ConnectionString | src/sqlanywhere.cpp:716-742 | the connection string always ends with `CHARSET='UTF-8'` |
| ConnString.CharsetReadsBack | src/sqlanywhere.cpp:741 | the character-set option reads back as one pair |
| ConnString.ConnectionStringOptions | src/sqlanywhere.cpp:716-742 | the options of the connection string are the constructor's, then the call's, then the character set |
| ConnString.OptionsObjectsReachConnect | src/sqlanywhere.cpp:716-742 | option objects given to the constructor and to `connect` all reach the native connect, in order |
| ConnString.BuildConnectSpec | src/sqlanywhere.cpp:714-742 | a number connects through an SQLCA handle; anything else through the built connection string |

## Left out

- V8 plumbing: handles, `callBack`, `throwError` and the return value. Delivery is modelled as `Outcome.viaCallback`; a synchronous call that fails is the same reply as a thrown error.
- libuv work queues, threads and mutexes. Each worker is modelled as one atomic step, so concurrent requests on one connection are not modelled.
- Loading the native library and looking up its symbols (`src/sacapidll.cpp`). Whether the interface loads is one boolean answer.
- Floating-point conversion. Numbers are an opaque `Double`.
- Memory management: `new`/`delete` of batons, requests and buffers; the bind storage is described by what it holds.
- The NULL `Unwrap` result after creating a new statement object (the General Error path). The model always has an object.
- `sqlany_new_connection` failing. The model assumes a handle.
- Truncation of strings at an embedded NUL, and the fixed size of the native error buffer.
- Option objects with values that are not strings, and V8's property order rules. Only plain objects with string values are modelled.
- The disabled argument-type checker (`CheckArgType`, compiled out).
- The JavaScript wrapper `lib/index.js` and the build files are not part of this model.
- FetchCodec.FetchResultSet: does not record the native calls made while fetching (affected rows, column count, column info, fetch, get column). Only the data they return is modelled.
- The contents of `ExecuteData` beyond the value groups, null flags and column count.
- Common.ElementAt: reads a value that is not an array as an empty array. The binding casts each later row to an array unchecked (src/utils_v0_10.cpp:175-176), so a row that is an object without array elements is read through V8 as that object (a Buffer row such as `[[1],[Buffer 07]]` passes there and fails here), and a primitive row is undefined behaviour; neither is modelled.
- Lifecycle.Connection.Destroy: the destructor (src/utils.cpp:798-814) frees each statement's native handle but never clears the statements' back-references, which then dangle into freed memory; the model keeps the reference pointing at a connection object whose handle is gone, so a later `exec` on such a statement reports an invalid object instead of the use-after-free.
- Common.Utf8: strings are sequences of Unicode scalar values, so a script string holding a lone UTF-16 surrogate, which V8 encodes as U+FFFD, cannot be expressed.
- Execution.RunAnonymous: the point of delivery is a ghost position in the trace; it is not an event in the model.

## Findings

| source | as written | input that shows it | evidently intended | confidence | as-written member | corrected member |
|---|---|---|---|---|---|---|
| src/sqlanywhere_v0_10.cpp:594-597 | when `prepare` rejects its arguments it throws but does not return, so it goes on to read the first argument as SQL and prepare it | `db.prepare(5)` under Node.js 0.10 | stop after throwing Invalid Arguments, as the current shim does | high, not executed | ArgDispatch.PrepareArgsAsWrittenV010 | ArgDispatch.PrepareArgsIntended |
| src/sqlanywhere.cpp:1027 | `dropWork` locks the connection's mutex through the statement's back-reference without checking it, but a statement that was dropped once has that reference cleared | `stmt.drop(); stmt.drop();` | check the back-reference before locking, and drop whether or not it is set | high, not executed | Lifecycle.DropAsWritten | Lifecycle.Statement.Drop |
| src/sqlanywhere_v0_10.cpp:246-255 | the wide-statement gate reads the connection's `max_api_ver`, which only the connection that first initializes the interface ever writes | a second connection running `exec` with a two-row batch | decide from the version negotiated for the interface, which every connection shares | medium, not executed | Execution.WideGateReadsIndeterminate | Execution.BindArguments |
