/** The connection and statement lifecycle. A `Connection` owns a native
    connection handle (or none) and a registry of the statements created
    through it; a `Statement` owns a native statement handle (or none) and
    points back at its connection. Process-wide, the binding keeps the
    loaded native interface, whether it is initialized, and a 32-bit
    unsigned count of open connections; the interface is finalized when
    the count drops to zero.

    The native library is an oracle: every answer it gives is a parameter
    of the operation that asks, and every call made into it is appended to
    `Api.trace`, so the order of native calls is part of what the
    contracts state. Each `...Work` method returns the baton's `err` flag
    and message as a `Baton` record. */
module Lifecycle {
  import opened Common
  import opened ErrorMsg
  import opened BindCodec
  import opened ConnString

  /** Native connection and statement handles, by identity. */
  type ConnHandle = nat
  type StmtHandle = nat

  /** A call into the native library. */
  datatype NativeCall =
    | InitializeInterface
    | Init(version: int)
    | Fini
    | FinalizeInterface
    | NewConnection(h: ConnHandle)
    | ConnectTo(h: ConnHandle, connString: string)
    | MakeConnection(sqlca: Double)
    | DisconnectFrom(h: ConnHandle)
    | FreeConnection(h: ConnHandle)
    | PrepareOn(h: ConnHandle, sql: string)
    | FreeStmt(s: StmtHandle)
    | ResetStmt(s: StmtHandle)
    | DescribeBindParam(s: StmtHandle, index: nat)
    | BindParamTo(s: StmtHandle, index: nat, param: BindParam)
    | SetBatchSize(s: StmtHandle, rows: nat)
    | ExecuteStmt(s: StmtHandle)
    | GetNextResult(s: StmtHandle)
    | CommitOn(h: ConnHandle)
    | RollbackOn(h: ConnHandle)

  /** What an operation reports to its script: the error flag and the
      message (which may be set while the flag is not). */
  datatype Baton = Baton(err: bool, errorMsg: string)

  const NoError: Baton := Baton(false, "")

  /** The baton of one of the binding's own errors. */
  function Failed(shim: Shim, code: int): (b: Baton)
    ensures b.err
  {
    Baton(true, GetErrorMsg(shim, code))
  }

  /** The baton of an error the native library reports. */
  function NativeFailed(e: NativeError): (b: Baton)
    ensures b.err
  {
    Baton(true, NativeErrorMsg(e))
  }

  // ---------------------------------------------------------------------
  // Sequences of registered statements

  /** Index of the first `x` in `xs`, or `|xs|` when there is none. */
  function IndexOf<T(==)>(xs: seq<T>, x: T): (k: nat)
    ensures k <= |xs|
    ensures k < |xs| ==> xs[k] == x
    ensures forall i :: 0 <= i < k ==> xs[i] != x
    decreases |xs|
  {
    if |xs| == 0 then 0 else if xs[0] == x then 0 else 1 + IndexOf(xs[1..], x)
  }

  /** `xs` without its first `x`; unchanged when `x` does not occur. */
  function EraseFirst<T(==)>(xs: seq<T>, x: T): seq<T>
  {
    var k := IndexOf(xs, x);
    if k == |xs| then xs else xs[..k] + xs[k + 1..]
  }

  predicate Distinct<T(==)>(xs: seq<T>)
  {
    forall i, j :: 0 <= i < j < |xs| ==> xs[i] != xs[j]
  }

  /** Erasing removes exactly one occurrence of `x` when there is one and
      leaves every other element's count alone. */
  lemma EraseFirstCounts<T>(xs: seq<T>, x: T)
    ensures x in xs ==> multiset(EraseFirst(xs, x)) == multiset(xs) - multiset{x}
    ensures x !in xs ==> EraseFirst(xs, x) == xs
  {
    var k := IndexOf(xs, x);
    if k < |xs| {
      assert xs == xs[..k] + [x] + xs[k + 1..];
      calc {
        multiset(xs);
        multiset(xs[..k]) + multiset{x} + multiset(xs[k + 1..]);
        multiset(EraseFirst(xs, x)) + multiset{x};
      }
    }
  }

  /** Erasing an element just appended, that occurred nowhere before,
      gives back the sequence as it was. */
  lemma EraseAppended<T>(xs: seq<T>, x: T)
    requires x !in xs
    ensures EraseFirst(xs + [x], x) == xs
  {
    var ys := xs + [x];
    assert forall i :: 0 <= i < |xs| ==> ys[i] == xs[i];
    assert ys[|xs|] == x;
    assert IndexOf(ys, x) == |xs|;
    assert ys[..|xs|] == xs;
  }

  /** Removing position `k` from a sequence without duplicates removes
      that element for good and keeps the rest free of duplicates. */
  lemma RemoveAtDistinct<T>(xs: seq<T>, k: nat)
    requires Distinct(xs) && k < |xs|
    ensures Distinct(xs[..k] + xs[k + 1..])
    ensures forall y :: y in xs[..k] + xs[k + 1..] <==> y in xs && y != xs[k]
  {
    var r := xs[..k] + xs[k + 1..];
    forall i, j | 0 <= i < j < |r| ensures r[i] != r[j] {
      var i' := if i < k then i else i + 1;
      var j' := if j < k then j else j + 1;
      assert r[i] == xs[i'] && r[j] == xs[j'];
    }
    forall y ensures y in r <==> y in xs && y != xs[k] {
      if y in r {
        var i :| 0 <= i < |r| && r[i] == y;
        var i' := if i < k then i else i + 1;
        assert xs[i'] == y && i' != k;
      }
      if y in xs && y != xs[k] {
        var i :| 0 <= i < |xs| && xs[i] == y;
        if i < k { assert r[i] == y; } else { assert r[i - 1] == y; }
      }
    }
  }

  /** In a registry without duplicates, erasing removes the element for
      good and keeps the registry free of duplicates. */
  lemma EraseFirstDistinct<T>(xs: seq<T>, x: T)
    requires Distinct(xs)
    ensures x !in EraseFirst(xs, x)
    ensures Distinct(EraseFirst(xs, x))
    ensures forall y :: y in EraseFirst(xs, x) <==> y in xs && y != x
  {
    var k := IndexOf(xs, x);
    if k < |xs| {
      RemoveAtDistinct(xs, k);
    }
  }

  /** The `FreeStmt` calls made for a list of handle slots, in order. */
  function FreeCalls(hs: seq<Option<StmtHandle>>): seq<NativeCall>
    decreases |hs|
  {
    if |hs| == 0 then []
    else FreeCalls(hs[..|hs| - 1]) + (if hs[|hs| - 1].Some? then [FreeStmt(hs[|hs| - 1].value)] else [])
  }

  /** One more slot adds its free call, if any. */
  lemma FreeCallsStep(hs: seq<Option<StmtHandle>>, i: nat)
    requires i < |hs|
    ensures FreeCalls(hs[..i + 1]) == FreeCalls(hs[..i]) + (if hs[i].Some? then [FreeStmt(hs[i].value)] else [])
  {
    assert hs[..i + 1][..i] == hs[..i];
  }

  // ---------------------------------------------------------------------
  // Modular bookkeeping of the open-connection count

  lemma CountInc(n: nat)
    ensures IncU32(n % U32Modulus) == (n + 1) % U32Modulus
  {
    var q := n / U32Modulus;
    var r := n % U32Modulus;
    assert n == q * U32Modulus + r;
    if r < U32Modulus - 1 {
      assert n + 1 == q * U32Modulus + (r + 1);
    } else {
      assert n + 1 == (q + 1) * U32Modulus;
    }
  }

  lemma CountDec(n: nat)
    requires n > 0
    ensures DecU32(n % U32Modulus) == (n - 1) % U32Modulus
  {
    CountInc(n - 1);
  }

  // ---------------------------------------------------------------------
  // Process-wide state

  /** The loaded native interface and the open-connection count. `live`
      is the set of connections holding a native handle; the count is
      that set's size, modulo 2^32 because the counter is an `unsigned`. */
  class Api {
    var initialized: bool
    var openConnections: int
    /** The protocol version negotiated when the interface was
        initialized, kept process-wide (see `WideRefused`). The binding
        has no such variable: each connection keeps its own
        `max_api_ver`; this one exists only for the corrected wide gate
        (see `WideGateReadsIndeterminate`). */
    var negotiated: Option<int>
    var trace: seq<NativeCall>
    ghost var live: set<Connection>

    ghost predicate Valid()
      reads this
    {
      0 <= openConnections < U32Modulus && openConnections == |live| % U32Modulus
    }

    constructor ()
      ensures Valid()
      ensures !initialized && openConnections == 0 && negotiated == None && trace == [] && live == {}
    {
      initialized := false;
      openConnections := 0;
      negotiated := None;
      trace := [];
      live := {};
    }

    /** `openConnections++` for a connection that now holds a handle. */
    method CountOpened(c: Connection)
      requires Valid() && c !in live
      modifies this`openConnections, this`live
      ensures Valid() && live == old(live) + {c}
      ensures openConnections == IncU32(old(openConnections))
    {
      CountInc(|live|);
      openConnections := IncU32(openConnections);
      live := live + {c};
    }

    /** `openConnections--` for a connection that gave its handle back. */
    method CountClosed(c: Connection)
      requires Valid() && c in live
      modifies this`openConnections, this`live
      ensures Valid() && live == old(live) - {c}
      ensures openConnections == DecU32(old(openConnections))
    {
      CountDec(|live|);
      openConnections := DecU32(openConnections);
      live := live - {c};
    }

    /** `cleanAPI`: with no open connection and an initialized interface,
        shuts the library down and finalizes the interface (which clears
        the whole interface record, `initialized` included). */
    method CleanApi() returns (finalized: bool)
      modifies this`initialized, this`negotiated, this`trace
      ensures finalized <==> old(openConnections) == 0 && old(initialized)
      ensures finalized ==> !initialized && negotiated == None && trace == old(trace) + [Fini, FinalizeInterface]
      ensures !finalized ==> initialized == old(initialized) && negotiated == old(negotiated) && trace == old(trace)
      ensures finalized && Valid() ==> |live| % U32Modulus == 0
    {
      finalized := false;
      if openConnections == 0 {
        if initialized {
          trace := trace + [Fini, FinalizeInterface];
          initialized := false;
          negotiated := None;
          finalized := true;
        }
      }
    }
  }

  // ---------------------------------------------------------------------
  // Statements

  class Statement {
    var stmt: Option<StmtHandle>
    var connection: Connection?

    constructor ()
      ensures stmt == None && connection == null
    {
      stmt := None;
      connection := null;
    }

    /** `cleanup`: frees the native handle at most once and clears it. */
    method Cleanup(api: Api)
      modifies this`stmt, api`trace
      ensures stmt == None
      ensures old(stmt).Some? ==> api.trace == old(api.trace) + [FreeStmt(old(stmt).value)]
      ensures old(stmt).None? ==> api.trace == old(api.trace)
    {
      if stmt.Some? {
        api.trace := api.trace + [FreeStmt(stmt.value)];
        stmt := None;
      }
    }

    /** `removeConnection`: takes the statement out of its connection's
        registry (the first entry only) and clears the back-reference. */
    method RemoveConnection()
      modifies this`connection, (if connection == null then {} else {connection})`statements
      ensures connection == null
      ensures old(connection) != null ==>
        old(connection).statements == EraseFirst(old(connection.statements), this)
    {
      if connection != null {
        connection.RemoveStmt(this);
        connection := null;
      }
    }

    /** `~StmtObject`: frees the handle, then leaves the registry. A
        registry without duplicates no longer holds the statement. */
    method Destroy(api: Api)
      modifies this`stmt, this`connection, api`trace
      modifies (if connection == null then {} else {connection})`statements
      ensures stmt == None && connection == null
      ensures old(stmt).Some? ==> api.trace == old(api.trace) + [FreeStmt(old(stmt).value)]
      ensures old(stmt).None? ==> api.trace == old(api.trace)
      ensures old(connection) != null ==>
        old(connection).statements == EraseFirst(old(connection.statements), this)
      ensures old(connection) != null && Distinct(old(connection.statements)) ==>
        this !in old(connection).statements && Distinct(old(connection).statements)
    {
      ghost var c := connection;
      if c != null {
        EraseFirstDistinctIf(c.statements, this);
      }
      Cleanup(api);
      RemoveConnection();
    }

    /** `dropWork` as evidently intended: the same steps as the
        destructor, which needs no connection. See `DropAsWritten` for the
        code as written. */
    method Drop(api: Api)
      modifies this`stmt, this`connection, api`trace
      modifies (if connection == null then {} else {connection})`statements
      ensures stmt == None && connection == null
      ensures DropAsWritten(stmt, connection != null) == Crashed
      ensures old(stmt).Some? ==> api.trace == old(api.trace) + [FreeStmt(old(stmt).value)]
      ensures old(stmt).None? ==> api.trace == old(api.trace)
      ensures old(connection) != null ==>
        old(connection).statements == EraseFirst(old(connection.statements), this)
    {
      Cleanup(api);
      RemoveConnection();
    }

    /** `stmt.drop(); stmt.drop();`: the first drop frees the handle and
        clears the back-reference, so the second, as written, would crash
        (`second`); as corrected it frees nothing more and leaves the
        statement as the first drop did. */
    method DropTwice(api: Api) returns (second: DropResult)
      modifies this`stmt, this`connection, api`trace
      modifies (if connection == null then {} else {connection})`statements
      ensures second == Crashed
      ensures stmt == None && connection == null
      ensures old(stmt).Some? ==> api.trace == old(api.trace) + [FreeStmt(old(stmt).value)]
      ensures old(stmt).None? ==> api.trace == old(api.trace)
      ensures old(connection) != null ==>
        old(connection).statements == EraseFirst(old(connection.statements), this)
    {
      Drop(api);
      second := DropAsWritten(stmt, connection != null);
      Drop(api);
    }
  }

  lemma EraseFirstDistinctIf(xs: seq<Statement>, x: Statement)
    ensures Distinct(xs) ==> x !in EraseFirst(xs, x) && Distinct(EraseFirst(xs, x))
  {
    if Distinct(xs) {
      EraseFirstDistinct(xs, x);
    }
  }

  /** What `drop` does with a statement: a crash, or the handle it
      freed (`None` when there was none to free). */
  datatype DropResult = Crashed | Dropped(freed: Option<StmtHandle>)

  /** `dropWork` as written: it takes the connection's lock through the
      back-reference before anything else, so a statement without a
      connection crashes it. */
  function DropAsWritten(stmt: Option<StmtHandle>, hasConnection: bool): (r: DropResult)
    ensures r.Crashed? <==> !hasConnection
  {
    if !hasConnection then Crashed else Dropped(stmt)
  }

  /** `dropWork` as evidently intended: the destructor's steps, which
      tolerate a missing connection. */
  function DropIntended(stmt: Option<StmtHandle>, hasConnection: bool): DropResult
  {
    Dropped(stmt)
  }

  /** The two agree on every statement that still has its connection. */
  lemma DropAgreesWhenLinked(stmt: Option<StmtHandle>)
    ensures DropAsWritten(stmt, true) == DropIntended(stmt, true)
  {
  }

  // ---------------------------------------------------------------------
  // Connections

  /** The answers the native library gives while connecting. */
  datatype ConnectAnswers = ConnectAnswers(
    interfaceLoads: bool,    // sqlany_initialize_interface
    initOk: bool,            // first sqlany_init
    reportedVersion: int,    // the version the first sqlany_init writes back
    retryOk: bool,           // second sqlany_init (Node.js 0.10 shim only)
    retryVersion: int,       // the version the second sqlany_init writes back
    newHandle: ConnHandle,   // sqlany_new_connection
    connectOk: bool,         // sqlany_connect
    made: Option<ConnHandle>,// sqlany_make_connection
    error: NativeError)      // sqlany_error after a failure

  /** The version the first `sqlany_init` asks for. */
  function RequestedVersion(shim: Shim): int
  {
    if shim == Current then ApiVersion2 else ApiVersion4
  }

  /** Whether initialization succeeds, given the native answers: the
      current shim has one attempt; the Node.js 0.10 shim retries with the
      reported maximum version when that is at least 2. */
  predicate InitSucceeds(shim: Shim, a: ConnectAnswers)
  {
    a.initOk || (shim == V010 && a.reportedVersion >= ApiVersion2 && a.retryOk)
  }

  /** The `sqlany_init` calls made while initializing. */
  function InitCalls(shim: Shim, a: ConnectAnswers): seq<NativeCall>
  {
    [Init(RequestedVersion(shim))]
    + (if shim == V010 && !a.initOk && a.reportedVersion >= ApiVersion2 then [Init(a.reportedVersion)] else [])
  }

  /** The version the connection records: the last one `sqlany_init`
      wrote back. */
  function RecordedVersion(shim: Shim, a: ConnectAnswers): int
  {
    if shim == V010 && !a.initOk && a.reportedVersion >= ApiVersion2 then a.retryVersion else a.reportedVersion
  }

  /** The Node.js 0.10 shim never gives up on a library that supports at
      least version 2, and never retries one that reported less. */
  lemma InitRetryPolicy(a: ConnectAnswers)
    ensures !a.initOk && a.reportedVersion < ApiVersion2 ==> !InitSucceeds(V010, a) && |InitCalls(V010, a)| == 1
    ensures !a.initOk && a.reportedVersion >= ApiVersion2 ==>
      (InitSucceeds(V010, a) <==> a.retryOk) && InitCalls(V010, a) == [Init(4), Init(a.reportedVersion)]
    ensures InitCalls(Current, a) == [Init(2)] && (InitSucceeds(Current, a) <==> a.initOk)
  {
  }

  /** The calls of the initialization step of `connectWork`: none when
      the interface is initialized; otherwise loading the interface and,
      when it loads, the `sqlany_init` calls. */
  function InitPhaseCalls(shim: Shim, a: ConnectAnswers, initialized: bool): seq<NativeCall>
  {
    if initialized then [] else [InitializeInterface] + (if a.interfaceLoads then InitCalls(shim, a) else [])
  }

  predicate InitPhaseOk(shim: Shim, a: ConnectAnswers, initialized: bool)
  {
    initialized || (a.interfaceLoads && InitSucceeds(shim, a))
  }

  /** The calls that attach a native connection, with the clean-up after
      a failure (`finalize`: the interface is finalized then). */
  function AttachCalls(spec: ConnectSpec, a: ConnectAnswers, finalize: bool): seq<NativeCall>
  {
    var cleanup := if finalize then [Fini, FinalizeInterface] else [];
    match spec
    case ByString(s) =>
      [NewConnection(a.newHandle), ConnectTo(a.newHandle, s)]
      + (if a.connectOk then [] else [FreeConnection(a.newHandle)] + cleanup)
    case BySqlca(d) =>
      [MakeConnection(d)] + (if a.made.Some? then [] else cleanup)
  }

  /** The handle a connection holds after attaching. */
  function AttachedHandle(spec: ConnectSpec, a: ConnectAnswers): Option<ConnHandle>
  {
    match spec
    case ByString(_) => if a.connectOk then Some(a.newHandle) else None
    case BySqlca(_) => a.made
  }

  /** The baton after attaching: a failed embedded-SQL attach leaves the
      error flag clear and only sets the message. */
  function AttachBaton(spec: ConnectSpec, a: ConnectAnswers): Baton
  {
    match spec
    case ByString(_) => if a.connectOk then NoError else NativeFailed(a.error)
    case BySqlca(_) => if a.made.Some? then NoError else Baton(false, NativeErrorMsg(a.error))
  }

  /** What attaching promises: a handle exactly when the baton is clean; a
      handle freed again exactly when a string connect fails, and then
      the error flag set; an embedded-SQL failure reported by message
      only. */
  lemma AttachOutcomes(spec: ConnectSpec, a: ConnectAnswers, finalize: bool)
    ensures AttachedHandle(spec, a).Some? <==> AttachBaton(spec, a) == NoError
    ensures (exists h :: FreeConnection(h) in AttachCalls(spec, a, finalize)) <==>
            spec.ByString? && !a.connectOk
    ensures spec.ByString? && !a.connectOk ==>
            AttachBaton(spec, a).err && FreeConnection(a.newHandle) in AttachCalls(spec, a, finalize)
    ensures spec.BySqlca? && a.made.None? ==>
            !AttachBaton(spec, a).err && AttachBaton(spec, a).errorMsg != ""
    ensures AttachedHandle(spec, a).Some? ==> !finalize || Fini !in AttachCalls(spec, a, finalize)
  {
    if spec.BySqlca? && a.made.None? {
      assert NativeErrorMsg(a.error)[..6] == "Code: " by {
        ParseFormatPrefix(a.error.code, a.error.text);
      }
    }
    if spec.ByString? && !a.connectOk {
      assert AttachCalls(spec, a, finalize)[2] == FreeConnection(a.newHandle);
    }
  }

  lemma ParseFormatPrefix(code: int, text: string)
    ensures |NativeErrorMsg(NativeError(code, text))| >= 6
    ensures NativeErrorMsg(NativeError(code, text))[..6] == "Code: "
  {
  }

  /** The calls that give a native connection back: the optional
      disconnect, the free, and the finalization at a count of zero. */
  function CloseCalls(h: ConnHandle, nativeDisconnect: bool, finalize: bool): seq<NativeCall>
  {
    (if nativeDisconnect then [DisconnectFrom(h)] else []) + [FreeConnection(h)]
    + (if finalize then [Fini, FinalizeInterface] else [])
  }

  /** Frees the handles of a registry without duplicates, in order;
      `hs` are the handles the entries hold. */
  method FreeAll(api: Api, ss: seq<Statement>, ghost hs: seq<Option<StmtHandle>>)
    requires |ss| == |hs| && Distinct(ss)
    requires forall j :: 0 <= j < |ss| ==> ss[j].stmt == hs[j]
    modifies ss, api`trace
    ensures forall j :: 0 <= j < |ss| ==> ss[j].stmt == None
    ensures api.trace == old(api.trace) + FreeCalls(hs)
  {
    for i := 0 to |ss|
      invariant forall j :: 0 <= j < i ==> ss[j].stmt == None
      invariant forall j :: i <= j < |ss| ==> ss[j].stmt == hs[j]
      invariant api.trace == old(api.trace) + FreeCalls(hs[..i])
    {
      FreeCallsStep(hs, i);
      CleanupAt(api, ss, hs, i);
    }
    assert hs[..|ss|] == hs;
  }

  /** Frees the handle of entry `i` of a registry without duplicates;
      the later entries keep their handles. */
  method CleanupAt(api: Api, ss: seq<Statement>, ghost hs: seq<Option<StmtHandle>>, i: nat)
    requires i < |ss| == |hs| && Distinct(ss)
    requires forall j :: i <= j < |ss| ==> ss[j].stmt == hs[j]
    modifies {ss[i]}`stmt, api`trace
    ensures ss[i].stmt == None
    ensures forall j :: i < j < |ss| ==> ss[j].stmt == hs[j]
    ensures api.trace == old(api.trace) + (if hs[i].Some? then [FreeStmt(hs[i].value)] else [])
  {
    ss[i].Cleanup(api);
  }

  class Connection {
    var conn: Option<ConnHandle>
    var sqlcaConnection: bool
    /** `max_api_ver`: written only by the `sqlany_init` this connection
        makes; `None` until then. */
    var maxApiVer: Option<int>
    /** The fragment the constructor stored. */
    var arg: string
    var statements: seq<Statement>

    /** The connection holds a native handle exactly when it is one of
        the live connections the count is kept for. */
    ghost predicate Tracked(api: Api)
      reads this, api
    {
      conn.Some? <==> this in api.live
    }

    /** The registry holds every statement once. */
    ghost predicate Registry()
      reads this
    {
      Distinct(statements)
    }

    /** The `Connection` constructor, after argument dispatch: a text
        argument is stored as it is; an options object is flattened by
        `HashToString`. */
    constructor (a: ArgDispatch.CtorArg)
      ensures conn == None && !sqlcaConnection && maxApiVer == None && statements == []
      ensures a.CtorText? ==> arg == a.text
      ensures a.CtorOptions? ==> arg == Joined(a.props)
      ensures Registry()
    {
      var fragment: string;
      match a {
        case CtorText(t) =>
          fragment := t;
        case CtorOptions(props) =>
          fragment := HashToString(props);
      }
      conn := None;
      sqlcaConnection := false;
      maxApiVer := None;
      statements := [];
      arg := fragment;
    }

    /** `connected`: 1 when the connection holds a handle, else 0. */
    function Connected(): (r: int)
      reads this
      ensures r == 1 <==> conn.Some?
      ensures r == 0 <==> conn.None?
    {
      if conn.None? then 0 else 1
    }

    /** `removeStmt`: erases the first matching entry only. */
    method RemoveStmt(s: Statement)
      modifies this`statements
      ensures statements == EraseFirst(old(statements), s)
    {
      var i := 0;
      while i < |statements|
        invariant 0 <= i <= |statements|
        invariant statements == old(statements)
        invariant forall j :: 0 <= j < i ==> statements[j] != s
      {
        if statements[i] == s {
          statements := statements[..i] + statements[i + 1..];
          return;
        }
        i := i + 1;
      }
    }

    /** The statement handles of the registry, in order. */
    ghost function Handles(ss: seq<Statement>): seq<Option<StmtHandle>>
      reads ss
      decreases |ss|
    {
      if |ss| == 0 then [] else Handles(ss[..|ss| - 1]) + [ss[|ss| - 1].stmt]
    }

    /** The handle slots of `ss`, one per statement. */
    lemma {:induction false} HandlesAt(ss: seq<Statement>)
      ensures |Handles(ss)| == |ss|
      ensures forall j :: 0 <= j < |ss| ==> Handles(ss)[j] == ss[j].stmt
      decreases |ss|
    {
      if |ss| > 0 {
        HandlesAt(ss[..|ss| - 1]);
      }
    }

    /** `cleanupStmts`: frees every registered statement's handle, in
        registry order, and keeps the entries registered. */
    method CleanupStmts(api: Api)
      requires Registry()
      modifies statements, api`trace
      ensures forall i :: 0 <= i < |statements| ==> statements[i].stmt == None
      ensures api.trace == old(api.trace) + FreeCalls(old(Handles(statements)))
    {
      ghost var hs := Handles(statements);
      HandlesAt(statements);
      FreeAll(api, statements, hs);
    }

    /** `connectWork`. Refuses a connection that already holds a handle,
        changing nothing. Otherwise it initializes the interface on first
        use and, when that succeeds, attaches a native connection; the
        connection is counted as open exactly when it ends up holding a
        handle. */
    method ConnectWork(shim: Shim, api: Api, spec: ConnectSpec, a: ConnectAnswers) returns (b: Baton)
      requires api.Valid() && Tracked(api)
      modifies this`conn, this`sqlcaConnection, this`maxApiVer, api
      ensures api.Valid() && Tracked(api)
      ensures old(conn).Some? ==>
        b == Failed(shim, ErrAlreadyConnected) && conn == old(conn)
        && sqlcaConnection == old(sqlcaConnection) && maxApiVer == old(maxApiVer)
        && api.initialized == old(api.initialized) && api.trace == old(api.trace)
        && api.openConnections == old(api.openConnections) && api.live == old(api.live)
      ensures old(conn).None? ==>
        var ok := InitPhaseOk(shim, a, old(api.initialized));
        && api.trace == old(api.trace) + InitPhaseCalls(shim, a, old(api.initialized))
                        + (if ok then AttachCalls(spec, a, old(api.openConnections) == 0) else [])
        && b == (if ok then AttachBaton(spec, a) else Failed(shim, ErrInitializingDbcapi))
        && conn == (if ok then AttachedHandle(spec, a) else None)
        && (old(api.initialized) ==> maxApiVer == old(maxApiVer))
        && (!old(api.initialized) && a.interfaceLoads ==> maxApiVer == Some(RecordedVersion(shim, a)))
      ensures old(conn).None? && conn.Some? ==>
        api.openConnections == IncU32(old(api.openConnections)) && api.live == old(api.live) + {this}
        && sqlcaConnection == spec.BySqlca? && api.initialized
      ensures conn.None? ==> api.openConnections == old(api.openConnections) && api.live == old(api.live)
    {
      if conn.Some? {
        return Failed(shim, ErrAlreadyConnected);
      }
      b := ConnectFresh(shim, api, spec, a);
    }

    /** `connectWork` on a connection without a handle. */
    method ConnectFresh(shim: Shim, api: Api, spec: ConnectSpec, a: ConnectAnswers) returns (b: Baton)
      requires api.Valid() && Tracked(api) && conn.None?
      modifies this`conn, this`sqlcaConnection, this`maxApiVer, api`trace, api`initialized,
               api`negotiated, api`openConnections, api`live
      ensures api.Valid() && Tracked(api)
      ensures !InitPhaseOk(shim, a, old(api.initialized)) ==>
        && api.trace == old(api.trace) + InitPhaseCalls(shim, a, old(api.initialized))
        && b == Failed(shim, ErrInitializingDbcapi) && conn == None
      ensures InitPhaseOk(shim, a, old(api.initialized)) ==>
        && api.trace == old(api.trace) + InitPhaseCalls(shim, a, old(api.initialized))
                        + AttachCalls(spec, a, old(api.openConnections) == 0)
        && b == AttachBaton(spec, a) && conn == AttachedHandle(spec, a)
      ensures old(api.initialized) ==> maxApiVer == old(maxApiVer)
      ensures !old(api.initialized) && a.interfaceLoads ==> maxApiVer == Some(RecordedVersion(shim, a))
      ensures conn.Some? ==>
        api.openConnections == IncU32(old(api.openConnections)) && api.live == old(api.live) + {this}
        && sqlcaConnection == spec.BySqlca? && api.initialized
      ensures conn.None? ==> api.openConnections == old(api.openConnections) && api.live == old(api.live)
    {
      var ok := InitPhase(shim, api, a);
      if !ok {
        return Failed(shim, ErrInitializingDbcapi);
      }
      b := Attach(api, spec, a);
    }

    /** The initialization step of `connectWork`: nothing when the
        interface is initialized; otherwise load it (a library that loads
        stays marked initialized even when `sqlany_init` then fails) and
        negotiate a protocol version. */
    method InitPhase(shim: Shim, api: Api, a: ConnectAnswers) returns (ok: bool)
      modifies this`maxApiVer, api`trace, api`initialized, api`negotiated
      ensures ok == InitPhaseOk(shim, a, old(api.initialized))
      ensures api.trace == old(api.trace) + InitPhaseCalls(shim, a, old(api.initialized))
      ensures api.initialized == (old(api.initialized) || a.interfaceLoads)
      ensures old(api.initialized) ==> maxApiVer == old(maxApiVer) && api.negotiated == old(api.negotiated)
      ensures !old(api.initialized) && a.interfaceLoads ==>
        maxApiVer == Some(RecordedVersion(shim, a)) && api.negotiated == maxApiVer
    {
      if api.initialized {
        return true;
      }
      api.trace := api.trace + [InitializeInterface];
      if !a.interfaceLoads {
        return false;
      }
      api.initialized := true;
      ok := Initialize(shim, api, a);
    }

    /** The `sqlany_init` step, on an interface that has just been
        loaded. */
    method Initialize(shim: Shim, api: Api, a: ConnectAnswers) returns (ok: bool)
      modifies this`maxApiVer, api`trace, api`negotiated
      ensures ok <==> InitSucceeds(shim, a)
      ensures api.trace == old(api.trace) + InitCalls(shim, a)
      ensures maxApiVer == Some(RecordedVersion(shim, a)) && api.negotiated == maxApiVer
    {
      var version := RequestedVersion(shim);
      api.trace := api.trace + [Init(version)];
      maxApiVer := Some(a.reportedVersion);
      ok := a.initOk;
      if !ok && shim == V010 {
        if a.reportedVersion >= ApiVersion2 {
          api.trace := api.trace + [Init(a.reportedVersion)];
          maxApiVer := Some(a.retryVersion);
          ok := a.retryOk;
        }
      }
      api.negotiated := maxApiVer;
    }

    /** The attaching step of `connectWork`: a new handle connected with
        the connection string, freed again when the connect fails, or the
        handle made from an embedded-SQL context. After a failure the
        interface is cleaned up. */
    method Attach(api: Api, spec: ConnectSpec, a: ConnectAnswers) returns (b: Baton)
      requires api.Valid() && Tracked(api) && conn.None?
      modifies this`conn, this`sqlcaConnection, api`trace, api`initialized, api`negotiated,
               api`openConnections, api`live
      ensures api.Valid() && Tracked(api)
      ensures b == AttachBaton(spec, a) && conn == AttachedHandle(spec, a)
      ensures api.trace == old(api.trace) + AttachCalls(spec, a, old(api.openConnections) == 0 && old(api.initialized))
      ensures conn.Some? ==>
        api.openConnections == IncU32(old(api.openConnections)) && api.live == old(api.live) + {this}
        && sqlcaConnection == spec.BySqlca? && api.initialized == old(api.initialized)
      ensures conn.None? ==> api.openConnections == old(api.openConnections) && api.live == old(api.live)
    {
      match spec {
        case ByString(s) =>
          var h := a.newHandle;
          api.trace := api.trace + [NewConnection(h), ConnectTo(h, s)];
          if !a.connectOk {
            b := NativeFailed(a.error);
            api.trace := api.trace + [FreeConnection(h)];
            var _ := api.CleanApi();
            return;
          }
          conn := Some(h);
        case BySqlca(d) =>
          api.trace := api.trace + [MakeConnection(d)];
          if a.made.None? {
            b := Baton(false, NativeErrorMsg(a.error));
            var _ := api.CleanApi();
            return;
          }
          conn := a.made;
      }
      b := NoError;
      sqlcaConnection := spec.BySqlca?;
      api.CountOpened(this);
    }

    /** Gives the native handle back: disconnects when asked to, frees the
        handle, counts the connection as closed and cleans the interface
        up (which finalizes it when the count has reached zero). */
    method ReleaseHandle(api: Api, nativeDisconnect: bool)
      requires api.Valid() && Tracked(api) && conn.Some?
      modifies this`conn, api`trace, api`initialized, api`negotiated, api`openConnections, api`live
      ensures api.Valid() && Tracked(api) && conn == None
      ensures api.openConnections == DecU32(old(api.openConnections)) && api.live == old(api.live) - {this}
      ensures api.trace == old(api.trace)
        + CloseCalls(old(conn).value, nativeDisconnect, api.openConnections == 0 && old(api.initialized))
      ensures api.initialized == (old(api.initialized) && api.openConnections != 0)
    {
      var h := conn.value;
      if nativeDisconnect {
        api.trace := api.trace + [DisconnectFrom(h)];
      }
      api.trace := api.trace + [FreeConnection(h)];
      conn := None;
      api.CountClosed(this);
      var _ := api.CleanApi();
    }

    /** `disconnectWork`. On a connection without a handle it makes no
        native call and reports NotConnected by message only, with the
        error flag clear. Otherwise it frees every registered statement's
        handle, disconnects (not for an embedded-SQL connection), frees the
        connection handle and counts the connection as closed; at a count
        of zero it cleans the interface up (`openConnections <= 0` on an
        unsigned counter is `== 0`, the same test `cleanAPI` makes). */
    method DisconnectWork(shim: Shim, api: Api) returns (b: Baton)
      requires api.Valid() && Tracked(api) && Registry()
      modifies this`conn, statements, api
      ensures api.Valid() && Tracked(api) && conn == None
      ensures old(conn).None? ==>
        b == Baton(false, GetErrorMsg(shim, ErrNotConnected))
        && api.trace == old(api.trace) && api.initialized == old(api.initialized)
        && api.openConnections == old(api.openConnections)
        && forall i :: 0 <= i < |statements| ==> statements[i].stmt == old(statements[i].stmt)
      ensures old(conn).Some? ==>
        b == NoError
        && (forall i :: 0 <= i < |statements| ==> statements[i].stmt == None)
        && api.openConnections == DecU32(old(api.openConnections))
        && api.live == old(api.live) - {this}
        && api.trace == old(api.trace) + FreeCalls(old(Handles(statements)))
           + CloseCalls(old(conn).value, !old(sqlcaConnection), api.openConnections == 0 && old(api.initialized))
        && api.initialized == (old(api.initialized) && api.openConnections != 0)
    {
      if conn.None? {
        return Baton(false, GetErrorMsg(shim, ErrNotConnected));
      }
      CleanupStmts(api);
      ReleaseHandle(api, !sqlcaConnection);
      b := NoError;
    }

    /** `commitWork`. */
    method CommitWork(shim: Shim, api: Api, committed: bool, e: NativeError) returns (b: Baton)
      modifies api`trace
      ensures conn.None? ==> b == Failed(shim, ErrNotConnected) && api.trace == old(api.trace)
      ensures conn.Some? ==>
        api.trace == old(api.trace) + [CommitOn(conn.value)]
        && (b == if committed then NoError else NativeFailed(e))
    {
      if conn.None? {
        return Failed(shim, ErrNotConnected);
      }
      api.trace := api.trace + [CommitOn(conn.value)];
      b := if committed then NoError else NativeFailed(e);
    }

    /** `rollbackWork`. */
    method RollbackWork(shim: Shim, api: Api, rolledBack: bool, e: NativeError) returns (b: Baton)
      modifies api`trace
      ensures conn.None? ==> b == Failed(shim, ErrNotConnected) && api.trace == old(api.trace)
      ensures conn.Some? ==>
        api.trace == old(api.trace) + [RollbackOn(conn.value)]
        && (b == if rolledBack then NoError else NativeFailed(e))
    {
      if conn.None? {
        return Failed(shim, ErrNotConnected);
      }
      api.trace := api.trace + [RollbackOn(conn.value)];
      b := if rolledBack then NoError else NativeFailed(e);
    }

    /** `Connection::prepare` after argument dispatch, with `prepareWork`.
        Without a handle it reports NotConnected and creates nothing.
        Otherwise it creates a statement pointing back at this connection;
        the current shim registers it before the work runs, the Node.js
        0.10 shim never does. The statement keeps the handle the native
        prepare returns, `None` on failure. */
    method Prepare(shim: Shim, api: Api, sql: string, answer: Option<StmtHandle>, e: NativeError)
      returns (b: Baton, st: Statement?)
      requires Registry()
      modifies this`statements, api`trace
      ensures Registry()
      ensures conn.None? ==>
        b == Failed(shim, ErrNotConnected) && st == null
        && statements == old(statements) && api.trace == old(api.trace)
      ensures conn.Some? ==>
        st != null && fresh(st) && st.connection == this && st.stmt == answer
        && api.trace == old(api.trace) + [PrepareOn(conn.value, sql)]
        && (b == if answer.Some? then NoError else NativeFailed(e))
        && statements == old(statements) + (if shim == Current then [st] else [])
    {
      if conn.None? {
        return Failed(shim, ErrNotConnected), null;
      }
      st := new Statement();
      st.connection := this;
      if shim == Current {
        statements := statements + [st];
      }
      b := PrepareWork(shim, api, st, sql, answer, e);
    }

    /** `~Connection`: frees every registered statement's handle; a
        connection holding a handle is disconnected (embedded-SQL ones
        too, unlike `disconnectWork`), freed and counted as closed; then
        the interface is cleaned up. */
    method Destroy(api: Api)
      requires api.Valid() && Tracked(api) && Registry()
      modifies this`conn, statements, api
      ensures api.Valid() && Tracked(api) && conn == None
      ensures forall i :: 0 <= i < |statements| ==> statements[i].stmt == None
      ensures old(conn).Some? ==>
        api.openConnections == DecU32(old(api.openConnections)) && api.live == old(api.live) - {this}
        && api.trace == old(api.trace) + FreeCalls(old(Handles(statements)))
           + CloseCalls(old(conn).value, true, api.openConnections == 0 && old(api.initialized))
      ensures old(conn).None? ==>
        api.openConnections == old(api.openConnections)
        && api.trace == old(api.trace) + FreeCalls(old(Handles(statements)))
           + (if api.openConnections == 0 && old(api.initialized) then [Fini, FinalizeInterface] else [])
      ensures api.openConnections == 0 ==> !api.initialized
    {
      CleanupStmts(api);
      if conn.Some? {
        ReleaseHandle(api, true);
      } else {
        var _ := api.CleanApi();
      }
    }
  }

  /** `prepareWork`: refuses a statement without a connected connection;
      otherwise prepares on the connection's handle and stores the
      result, `None` when the native prepare fails. */
  method PrepareWork(shim: Shim, api: Api, st: Statement, sql: string, answer: Option<StmtHandle>, e: NativeError)
    returns (b: Baton)
    modifies st`stmt, api`trace
    ensures st.connection == null || st.connection.conn.None? ==>
      b == Failed(shim, ErrInvalidObject) && st.stmt == old(st.stmt) && api.trace == old(api.trace)
    ensures st.connection != null && st.connection.conn.Some? ==>
      st.stmt == answer && api.trace == old(api.trace) + [PrepareOn(st.connection.conn.value, sql)]
      && (b == if answer.Some? then NoError else NativeFailed(e))
  {
    if st.connection == null || st.connection.conn.None? {
      return Failed(shim, ErrInvalidObject);
    }
    api.trace := api.trace + [PrepareOn(st.connection.conn.value, sql)];
    st.stmt := answer;
    b := if answer.Some? then NoError else NativeFailed(e);
  }
}
