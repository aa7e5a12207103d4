/** Bind parameters: how the binding turns the array of script values given
    to `exec` into the `a_sqlany_bind_param` slots it hands to the native
    library, in both shims, including the "wide" (multi-row) form of the
    Node.js 0.10 shim and the overlay of a described slot in `executeWork`. */
module BindCodec {
  import opened Common

  // ---------------------------------------------------------------------
  // Slots

  /** What a slot's `buffer` points at. `DoubleArray` and `AddressArray` are
      the per-row arrays of a wide column (an entry is `None` where no row
      value was written into it). */
  datatype Buf =
    | NullPtr
    | IntCell(i: int)
    | DoubleCell(d: Double)
    | Bytes(b: seq<byte>)
    | DoubleArray(ds: seq<Option<Double>>)
    | AddressArray(ps: seq<Option<seq<byte>>>)

  /** What a slot's `length` points at. */
  datatype LenRef = NullLen | Len(n: nat) | LenArray(ns: seq<Option<nat>>)

  /** What a slot's `is_null` points at. */
  datatype NullRef = NullFlagPtr | Flag(b: bool) | FlagArray(bs: seq<bool>)

  /** The value part of an `a_sqlany_bind_param`. A field that is `None` was
      never written (the current shim declares the struct without clearing
      it). */
  datatype BindParam = BindParam(
    dataType: Option<DataType>,
    buffer: Option<Buf>,
    length: Option<LenRef>,
    bufferSize: Option<nat>,
    isNull: NullRef,
    isAddress: Option<bool>)

  /** The struct before anything was written into it. */
  const Uninit: BindParam := BindParam(None, None, None, None, NullFlagPtr, None)

  /** The struct after `memset( &param, 0, sizeof( param ) )`. */
  const Zeroed: BindParam :=
    BindParam(Some(AInvalidType), Some(NullPtr), Some(NullLen), Some(0), NullFlagPtr, Some(false))

  // ---------------------------------------------------------------------
  // What the native library reads back from a slot

  /** A value as the native library receives it for one row. */
  datatype Wire = WNull | WInt(i: int) | WDouble(d: Double) | WText(utf8: seq<byte>) | WBinary(b: seq<byte>)

  function NullAt(f: NullRef, r: nat): bool
  {
    match f
    case NullFlagPtr => false
    case Flag(b) => b
    case FlagArray(bs) => r < |bs| && bs[r]
  }

  /** The bytes a string or binary slot holds for row `r`: the first
      `length` bytes of the buffer, or of the row's buffer when the slot is
      an array of addresses. */
  function BytesAt(p: BindParam, r: nat): Option<seq<byte>>
  {
    match (p.buffer, p.length)
    case (Some(Bytes(b)), Some(Len(n))) =>
      if p.isAddress != Some(true) && n <= |b| then Some(b[..n]) else None
    case (Some(AddressArray(ps)), Some(LenArray(ns))) =>
      if p.isAddress == Some(true) && r < |ps| && r < |ns| && ps[r].Some? && ns[r].Some?
         && ns[r].value <= |ps[r].value|
      then Some(ps[r].value[..ns[r].value])
      else None
    case _ => None
  }

  /** How the native library reads row `r` of a bound slot: the null flag
      first, then the buffer as the slot's type says; `None` when the slot
      does not describe a value of its type. */
  function Read(p: BindParam, r: nat): Option<Wire>
  {
    if NullAt(p.isNull, r) then Some(WNull)
    else if p.dataType == Some(AVal32) then
      (match p.buffer
       case Some(IntCell(i)) => Some(WInt(i))
       case _ => None)
    else if p.dataType == Some(ADouble) then
      (match p.buffer
       case Some(DoubleCell(d)) => Some(WDouble(d))
       case Some(DoubleArray(ds)) => if r < |ds| && ds[r].Some? then Some(WDouble(ds[r].value)) else None
       case _ => None)
    else if p.dataType == Some(AString) then
      (match BytesAt(p, r)
       case Some(b) => Some(WText(b))
       case None => None)
    else if p.dataType == Some(ABinary) then
      (match BytesAt(p, r)
       case Some(b) => Some(WBinary(b))
       case None => None)
    else None
  }

  /** Script values that can be bound: 32-bit integers, other numbers,
      strings, Buffers and null. */
  predicate Bindable(v: ScriptValue)
  {
    v.Int32? || v.Number? || v.Str? || v.Buffer? || v.Null?
  }

  predicate AllBindable(items: seq<ScriptValue>)
  {
    forall i :: 0 <= i < |items| ==> Bindable(items[i])
  }

  /** The value a script value stands for on the wire, independently of how
      a slot carries it: strings as their UTF-8 bytes. */
  function Expected(v: ScriptValue): Wire
    requires Bindable(v)
  {
    match v
    case Int32(i) => WInt(i)
    case Number(d) => WDouble(d)
    case Str(s) => WText(Utf8(s))
    case Buffer(b) => WBinary(b)
    case Null => WNull
  }

  // ---------------------------------------------------------------------
  // Current shim: one slot struct reused across the loop

  /** The slot the current shim builds for `v` from the struct as the
      previous element left it: only `is_null` is reset, so a field this
      element's branch does not write keeps the previous element's value. */
  function SlotCurrent(prev: BindParam, v: ScriptValue): Option<BindParam>
  {
    var p := prev.(isNull := NullFlagPtr);
    match v
    case Int32(i) => Some(p.(buffer := Some(IntCell(i)), dataType := Some(AVal32)))
    case Number(d) => Some(p.(buffer := Some(DoubleCell(d)), dataType := Some(ADouble)))
    case Str(s) =>
      var u := Utf8(s);
      Some(p.(dataType := Some(AString), buffer := Some(Bytes(u + [0])), length := Some(Len(|u|)),
              bufferSize := Some(|u| + 1)))
    case Buffer(b) =>
      Some(p.(dataType := Some(ABinary), buffer := Some(Bytes(b)), length := Some(Len(|b|)),
              bufferSize := Some(PointerSize)))
    case Null => Some(p.(dataType := Some(AVal32), isNull := Flag(true)))
    case _ => None
  }

  function LastSlot(ps: seq<BindParam>): BindParam
  {
    if |ps| == 0 then Uninit else ps[|ps| - 1]
  }

  /** The slots of an array whose every element is bindable, in order. */
  function BoundCurrent(items: seq<ScriptValue>): (ps: seq<BindParam>)
    requires AllBindable(items)
    ensures |ps| == |items|
    decreases |items|
  {
    if |items| == 0 then []
    else
      var init := BoundCurrent(items[..|items| - 1]);
      init + [SlotCurrent(LastSlot(init), items[|items| - 1]).value]
  }

  /** What binding one value adds to the request's value groups. A null
      adds nothing (its flag is allocated but not kept). */
  function Contribution(v: ScriptValue): Groups
  {
    match v
    case Int32(i) => Groups([Some(i)], [], [], [])
    case Number(d) => Groups([], [Some(d)], [], [])
    case Str(s) => var u := Utf8(s); Groups([], [], [Some(u + [0])], [Some(|u|)])
    case Buffer(b) => Groups([], [], [Some(b)], [Some(|b|)])
    case _ => NoGroups
  }

  /** The value groups after binding `items`: every string or Buffer adds
      its bytes and, in the parallel list, its length. */
  function ScratchOf(items: seq<ScriptValue>): (g: Groups)
    ensures |g.strings| == |g.lens|
    decreases |items|
  {
    if |items| == 0 then NoGroups
    else AppendGroups(ScratchOf(items[..|items| - 1]), Contribution(items[|items| - 1]))
  }

  /** One element of the current `getBindParameters`: the reused slot with
      `is_null` reset, typed and filled by the element's class, and the
      element's value added to the request's value groups. */
  method BindOneCurrent(prev: BindParam, scratch: Groups, v: ScriptValue)
    returns (ok: bool, param: BindParam, scratch': Groups)
    ensures ok <==> Bindable(v)
    ensures ok ==> param == SlotCurrent(prev, v).value && scratch' == AppendGroups(scratch, Contribution(v))
    ensures !ok ==> scratch' == scratch
  {
    scratch' := scratch;
    param := prev.(isNull := NullFlagPtr);
    ok := true;
    if v.Int32? {
      scratch' := scratch'.(ints := scratch'.ints + [Some(v.i)]);
      param := param.(buffer := Some(IntCell(v.i)), dataType := Some(AVal32));
    } else if v.Number? {
      scratch' := scratch'.(nums := scratch'.nums + [Some(v.d)]);
      param := param.(buffer := Some(DoubleCell(v.d)), dataType := Some(ADouble));
    } else if v.Str? {
      var u := Utf8(v.s);
      scratch' := scratch'.(strings := scratch'.strings + [Some(u + [0])], lens := scratch'.lens + [Some(|u|)]);
      param := param.(dataType := Some(AString), buffer := Some(Bytes(u + [0])), length := Some(Len(|u|)),
                      bufferSize := Some(|u| + 1));
    } else if v.Buffer? {
      scratch' := scratch'.(strings := scratch'.strings + [Some(v.bytes)], lens := scratch'.lens + [Some(|v.bytes|)]);
      param := param.(dataType := Some(ABinary), buffer := Some(Bytes(v.bytes)), length := Some(Len(|v.bytes|)),
                      bufferSize := Some(PointerSize));
    } else if v.Null? {
      param := param.(dataType := Some(AVal32), isNull := Flag(true));
    } else {
      ok := false;
    }
  }

  /** One more bindable element extends the slots and the value groups of
      the elements before it. */
  lemma BoundCurrentExtend(items: seq<ScriptValue>, i: nat)
    requires i < |items| && AllBindable(items[..i]) && Bindable(items[i])
    ensures AllBindable(items[..i + 1])
    ensures BoundCurrent(items[..i + 1])
         == BoundCurrent(items[..i]) + [SlotCurrent(LastSlot(BoundCurrent(items[..i])), items[i]).value]
    ensures ScratchOf(items[..i + 1]) == AppendGroups(ScratchOf(items[..i]), Contribution(items[i]))
  {
    var next := items[..i + 1];
    assert next[..i] == items[..i] && next[i] == items[i];
    forall j | 0 <= j < |next| ensures Bindable(next[j]) {
      if j < i {
        assert next[j] == items[..i][j];
      }
    }
  }

  /** `getBindParameters` of the current shim. It succeeds exactly when
      every element is bindable; on failure the slots and values of the
      elements before the first unbindable one have already been added. */
  method GetBindParameters(items: seq<ScriptValue>) returns (ok: bool, params: seq<BindParam>, scratch: Groups)
    ensures ok <==> AllBindable(items)
    ensures ok ==> params == BoundCurrent(items) && scratch == ScratchOf(items)
    ensures !ok ==>
      |params| < |items| && AllBindable(items[..|params|]) && !Bindable(items[|params|])
      && params == BoundCurrent(items[..|params|]) && scratch == ScratchOf(items[..|params|])
  {
    params := [];
    scratch := NoGroups;
    var param := Uninit;
    var i := 0;
    while i < |items|
      invariant 0 <= i <= |items|
      invariant AllBindable(items[..i])
      invariant params == BoundCurrent(items[..i])
      invariant param == LastSlot(params)
      invariant scratch == ScratchOf(items[..i])
    {
      ok, param, scratch := BindOneCurrent(param, scratch, items[i]);
      if !ok {
        return;
      }
      BoundCurrentExtend(items, i);
      params := params + [param];
      i := i + 1;
    }
    assert items[..|items|] == items;
    ok := true;
  }

  /** Binding a prefix gives the prefix of the slots. */
  lemma {:induction false} BoundCurrentPrefix(items: seq<ScriptValue>, n: nat)
    requires AllBindable(items) && n <= |items|
    ensures AllBindable(items[..n])
    ensures BoundCurrent(items[..n]) == BoundCurrent(items)[..n]
    decreases |items|
  {
    if n < |items| {
      var init := items[..|items| - 1];
      assert items[..n] == init[..n];
      BoundCurrentPrefix(init, n);
      assert BoundCurrent(items)[..n] == BoundCurrent(init)[..n];
    } else {
      assert items[..n] == items;
    }
  }

  /** The slot of each element in the current shim: its type, what its
      buffer holds, and for a string its UTF-8 length and a buffer size one
      larger; a null is an `A_VAL32` slot flagged null that still carries
      the previous element's buffer, length and buffer size. */
  lemma BoundCurrentSlot(items: seq<ScriptValue>, i: nat)
    requires AllBindable(items) && i < |items|
    ensures var p := BoundCurrent(items)[i]; var v := items[i];
      && p.isAddress == None
      && (v.Int32? ==> p.dataType == Some(AVal32) && p.buffer == Some(IntCell(v.i)) && p.isNull == NullFlagPtr)
      && (v.Number? ==> p.dataType == Some(ADouble) && p.buffer == Some(DoubleCell(v.d)) && p.isNull == NullFlagPtr)
      && (v.Str? ==>
            p.dataType == Some(AString) && p.buffer == Some(Bytes(Utf8(v.s) + [0]))
            && p.length == Some(Len(|Utf8(v.s)|)) && p.bufferSize == Some(|Utf8(v.s)| + 1)
            && p.isNull == NullFlagPtr)
      && (v.Buffer? ==>
            p.dataType == Some(ABinary) && p.buffer == Some(Bytes(v.bytes))
            && p.length == Some(Len(|v.bytes|)) && p.bufferSize == Some(PointerSize)
            && p.isNull == NullFlagPtr)
      && (v.Null? ==> p.dataType == Some(AVal32) && p.isNull == Flag(true))
      && (v.Null? && i > 0 ==>
            var q := BoundCurrent(items)[i - 1];
            p.buffer == q.buffer && p.length == q.length && p.bufferSize == q.bufferSize)
  {
    BoundCurrentPrefix(items, i + 1);
    var pre := items[..i + 1];
    assert pre[..i] == items[..i];
    BoundCurrentPrefix(items, i);
    BoundCurrentIsAddress(items[..i + 1]);
  }

  /** The current shim never writes `is_address`. */
  lemma {:induction false} BoundCurrentIsAddress(items: seq<ScriptValue>)
    requires AllBindable(items)
    ensures forall k :: 0 <= k < |items| ==> BoundCurrent(items)[k].isAddress == None
    decreases |items|
  {
    if |items| > 0 {
      BoundCurrentIsAddress(items[..|items| - 1]);
    }
  }

  /** Round trip: the native library reads back from every slot of the
      current shim exactly the value the script passed. */
  lemma BoundCurrentReadsBack(items: seq<ScriptValue>, i: nat)
    requires AllBindable(items) && i < |items|
    ensures Read(BoundCurrent(items)[i], 0) == Some(Expected(items[i]))
  {
    BoundCurrentSlot(items, i);
    if items[i].Str? {
      var u := Utf8(items[i].s);
      assert (u + [0])[..|u|] == u;
    } else if items[i].Buffer? {
      assert items[i].bytes[..|items[i].bytes|] == items[i].bytes;
    }
  }

  // ---------------------------------------------------------------------
  // Node.js 0.10 shim: one cleared struct per element

  /** The slot the Node.js 0.10 shim builds for `v`, starting from a cleared
      struct. A null is a string slot flagged null with no buffer. */
  function SlotV010(v: ScriptValue): Option<BindParam>
  {
    match v
    case Int32(i) => Some(Zeroed.(buffer := Some(IntCell(i)), dataType := Some(AVal32)))
    case Number(d) => Some(Zeroed.(buffer := Some(DoubleCell(d)), dataType := Some(ADouble)))
    case Str(s) =>
      var u := Utf8(s);
      Some(Zeroed.(dataType := Some(AString), buffer := Some(Bytes(u + [0])), length := Some(Len(|u|)),
                   bufferSize := Some(|u| + 1)))
    case Buffer(b) =>
      Some(Zeroed.(dataType := Some(ABinary), buffer := Some(Bytes(b)), length := Some(Len(|b|)),
                   bufferSize := Some(PointerSize)))
    case Null => Some(Zeroed.(dataType := Some(AString), isNull := Flag(true)))
    case _ => None
  }

  /** The Node.js 0.10 slot of every bindable value is read back as that
      value; a null is a string slot, where the current shim uses `A_VAL32`. */
  lemma SlotV010ReadsBack(v: ScriptValue)
    requires Bindable(v)
    ensures SlotV010(v).Some? && Read(SlotV010(v).value, 0) == Some(Expected(v))
    ensures v.Null? ==> SlotV010(v).value.dataType == Some(AString) && SlotV010(v).value.buffer == Some(NullPtr)
  {
    if v.Str? {
      var u := Utf8(v.s);
      assert (u + [0])[..|u|] == u;
    } else if v.Buffer? {
      assert v.bytes[..|v.bytes|] == v.bytes;
    }
  }

  function BoundV010(items: seq<ScriptValue>): (ps: seq<BindParam>)
    requires AllBindable(items)
    ensures |ps| == |items|
    decreases |items|
  {
    if |items| == 0 then []
    else BoundV010(items[..|items| - 1]) + [SlotV010(items[|items| - 1]).value]
  }

  /** What binding one value adds to the request's `ExecuteData`; a null
      adds its flag. */
  function StoredV010(v: ScriptValue): ExecuteData
  {
    if v.Null? then ExecuteData(NoGroups, [true], 0) else ExecuteData(Contribution(v), [], 0)
  }

  function Store(e: ExecuteData, f: ExecuteData): ExecuteData
  {
    ExecuteData(AppendGroups(e.groups, f.groups), e.nullFlags + f.nullFlags, e.columnArrays + f.columnArrays)
  }

  function StorageV010(items: seq<ScriptValue>): ExecuteData
    decreases |items|
  {
    if |items| == 0 then EmptyExecuteData
    else Store(StorageV010(items[..|items| - 1]), StoredV010(items[|items| - 1]))
  }

  // ---------------------------------------------------------------------
  // Node.js 0.10 shim: wide (multi-row) binding

  function Cell(rows: seq<ScriptValue>, r: nat, c: nat): ScriptValue
    requires r < |rows|
  {
    ElementAt(rows[r], c)
  }

  /** Row `r`'s value may stand in a column whose row-0 value is `v0`: a
      number, string or Buffer column admits only its own class or null;
      a column of any other row-0 value is not checked. */
  predicate Compatible(v0: ScriptValue, v: ScriptValue)
  {
    && (v0.IsNumber() ==> v.IsNumber() || v.Null?)
    && (v0.Str? ==> v.Str? || v.Null?)
    && (v0.Buffer? ==> v.Buffer? || v.Null?)
  }

  predicate Homogeneous(rows: seq<ScriptValue>)
    requires |rows| > 0 && rows[0].Array?
  {
    forall r, c {:trigger Cell(rows, r, c)} :: 1 <= r < |rows| && 0 <= c < |rows[0].items| ==>
      Compatible(Cell(rows, 0, c), Cell(rows, r, c))
  }

  /** Row-0 values that fix a column type. */
  predicate ColumnTyped(v0: ScriptValue)
  {
    v0.IsNumber() || v0.Str? || v0.Buffer? || v0.Null?
  }

  /** A wide batch binds when its first row is empty, or when it is
      homogeneous and every row-0 value fixes a column type. */
  predicate WideBindable(rows: seq<ScriptValue>)
    requires |rows| > 0 && rows[0].Array?
  {
    |rows[0].items| == 0
    || (Homogeneous(rows) && forall c :: 0 <= c < |rows[0].items| ==> ColumnTyped(rows[0].items[c]))
  }

  function WideDouble(v: ScriptValue): Option<Double>
  {
    if v.IsNumber() then Some(v.NumberValue()) else None
  }

  function WideAddress(v: ScriptValue): Option<seq<byte>>
  {
    if v.Str? then Some(Utf8(v.s) + [0]) else if v.Buffer? then Some(v.bytes) else None
  }

  function WideLength(v: ScriptValue): Option<nat>
  {
    if v.Str? then Some(|Utf8(v.s)|) else if v.Buffer? then Some(|v.bytes|) else None
  }

  function Doubles(rows: seq<ScriptValue>, c: nat): seq<Option<Double>>
  {
    seq(|rows|, r requires 0 <= r < |rows| => WideDouble(Cell(rows, r, c)))
  }

  function Addresses(rows: seq<ScriptValue>, c: nat): seq<Option<seq<byte>>>
  {
    seq(|rows|, r requires 0 <= r < |rows| => WideAddress(Cell(rows, r, c)))
  }

  function Lengths(rows: seq<ScriptValue>, c: nat): seq<Option<nat>>
  {
    seq(|rows|, r requires 0 <= r < |rows| => WideLength(Cell(rows, r, c)))
  }

  function NullFlags(rows: seq<ScriptValue>, c: nat): seq<bool>
  {
    seq(|rows|, r requires 0 <= r < |rows| => Cell(rows, r, c).Null?)
  }

  /** The slot of wide column `c`, typed by its row-0 value: a number column
      is `A_DOUBLE` over an array of doubles, a string or Buffer column is
      `A_STRING`/`A_BINARY` over an array of addresses and lengths, and a
      null column keeps the cleared type and buffer. Every column has one
      null flag per row. */
  function WideColumn(rows: seq<ScriptValue>, c: nat): BindParam
    requires |rows| > 0 && ColumnTyped(Cell(rows, 0, c))
  {
    var base := Zeroed.(isNull := FlagArray(NullFlags(rows, c)), isAddress := Some(false));
    var v0 := Cell(rows, 0, c);
    if v0.IsNumber() then
      base.(dataType := Some(ADouble), buffer := Some(DoubleArray(Doubles(rows, c))))
    else if v0.Str? then
      base.(dataType := Some(AString), buffer := Some(AddressArray(Addresses(rows, c))),
            length := Some(LenArray(Lengths(rows, c))), isAddress := Some(true))
    else if v0.Buffer? then
      base.(dataType := Some(ABinary), buffer := Some(AddressArray(Addresses(rows, c))),
            length := Some(LenArray(Lengths(rows, c))), isAddress := Some(true))
    else base
  }

  /** The storage one wide column adds: its own `ExecuteData`, owning the
      column's per-row arrays. */
  const ColumnStorage: ExecuteData := ExecuteData(NoGroups, [], 1)

  /** The homogeneity check of `getWideBindParameters`: every row after the
      first, column by column, against row 0. */
  method CheckHomogeneous(rows: seq<ScriptValue>) returns (ok: bool)
    requires |rows| > 0 && rows[0].Array?
    ensures ok <==> Homogeneous(rows)
  {
    var numCols := |rows[0].items|;
    var r := 1;
    while r < |rows|
      invariant 1 <= r <= |rows|
      invariant forall r', c :: 1 <= r' < r && 0 <= c < numCols ==> Compatible(Cell(rows, 0, c), Cell(rows, r', c))
    {
      var c := 0;
      while c < numCols
        invariant 0 <= c <= numCols
        invariant forall c' :: 0 <= c' < c ==> Compatible(Cell(rows, 0, c'), Cell(rows, r, c'))
      {
        var val0 := Cell(rows, 0, c);
        var val := Cell(rows, r, c);
        if val0.IsNumber() && !val.IsNumber() && !val.Null? {
          return false;
        }
        if val0.Str? && !val.Str? && !val.Null? {
          return false;
        }
        if val0.Buffer? && !val.Buffer? && !val.Null? {
          return false;
        }
        c := c + 1;
      }
      r := r + 1;
    }
    return true;
  }

  /** Row `r` of a wide column: its null flag, and its double or its
      address and length, by the class of its value. */
  method FillEntry(doubles: array<Option<Double>>, addresses: array<Option<seq<byte>>>,
                   lengths: array<Option<nat>>, nulls: array<bool>, r: nat, v: ScriptValue)
    requires r < doubles.Length && r < addresses.Length && r < lengths.Length && r < nulls.Length
    requires doubles[r] == None && addresses[r] == None && lengths[r] == None
    modifies doubles, addresses, lengths, nulls
    ensures nulls[r] == v.Null? && doubles[r] == WideDouble(v)
    ensures addresses[r] == WideAddress(v) && lengths[r] == WideLength(v)
    ensures forall k :: 0 <= k < nulls.Length && k != r ==> nulls[k] == old(nulls[k])
    ensures forall k :: 0 <= k < doubles.Length && k != r ==> doubles[k] == old(doubles[k])
    ensures forall k :: 0 <= k < addresses.Length && k != r ==> addresses[k] == old(addresses[k])
    ensures forall k :: 0 <= k < lengths.Length && k != r ==> lengths[k] == old(lengths[k])
  {
    nulls[r] := false;
    if v.IsNumber() {
      doubles[r] := Some(v.NumberValue());
    } else if v.Str? {
      var u := Utf8(v.s);
      lengths[r] := Some(|u|);
      addresses[r] := Some(u + [0]);
    } else if v.Buffer? {
      lengths[r] := Some(|v.bytes|);
      addresses[r] := Some(v.bytes);
    } else if v.Null? {
      nulls[r] := true;
    }
  }

  /** One column of `getWideBindParameters`: allocate its per-row arrays,
      type the slot by the row-0 value (failing when that value fixes no
      type), then fill one entry per row. */
  method BindColumn(rows: seq<ScriptValue>, c: nat) returns (ok: bool, param: BindParam)
    requires |rows| > 0
    ensures ok <==> ColumnTyped(Cell(rows, 0, c))
    ensures ok ==> param == WideColumn(rows, c)
  {
    var numRows := |rows|;
    var doubles := new Option<Double>[numRows](_ => None);
    var addresses := new Option<seq<byte>>[numRows](_ => None);
    var lengths := new Option<nat>[numRows](_ => None);
    var nulls := new bool[numRows](_ => false);
    var v0 := Cell(rows, 0, c);
    param := Zeroed;
    if !(v0.IsNumber() || v0.Str? || v0.Buffer? || v0.Null?) {
      return false, param;
    }

    var r := 0;
    while r < numRows
      invariant 0 <= r <= numRows
      invariant forall k :: 0 <= k < r ==>
        && nulls[k] == Cell(rows, k, c).Null?
        && doubles[k] == WideDouble(Cell(rows, k, c))
        && addresses[k] == WideAddress(Cell(rows, k, c))
        && lengths[k] == WideLength(Cell(rows, k, c))
      invariant forall k :: r <= k < numRows ==> doubles[k] == None && addresses[k] == None && lengths[k] == None
    {
      FillEntry(doubles, addresses, lengths, nulls, r, Cell(rows, r, c));
      r := r + 1;
    }
    assert nulls[..] == NullFlags(rows, c);
    assert doubles[..] == Doubles(rows, c);
    assert addresses[..] == Addresses(rows, c);
    assert lengths[..] == Lengths(rows, c);

    // The slot points at the column's arrays; what it refers to is their
    // filled contents.
    param := param.(isNull := FlagArray(nulls[..]), isAddress := Some(false));
    if v0.IsNumber() {
      param := param.(dataType := Some(ADouble), buffer := Some(DoubleArray(doubles[..])));
    } else if v0.Str? {
      param := param.(dataType := Some(AString), buffer := Some(AddressArray(addresses[..])),
                      length := Some(LenArray(lengths[..])), isAddress := Some(true));
    } else if v0.Buffer? {
      param := param.(dataType := Some(ABinary), buffer := Some(AddressArray(addresses[..])),
                      length := Some(LenArray(lengths[..])), isAddress := Some(true));
    }
    ok := true;
  }

  /** `getWideBindParameters`. The row count is recorded first. The batch is
      checked for homogeneity before any slot is built; then each column
      gets its own storage and slot, and the first column whose row-0 value
      fixes no type stops the binding after its storage was added. */
  method GetWideBindParameters(rows: seq<ScriptValue>)
    returns (ok: bool, execData: seq<ExecuteData>, params: seq<BindParam>, numRows: nat)
    requires |rows| > 0 && rows[0].Array?
    ensures numRows == |rows|
    ensures ok <==> WideBindable(rows)
    ensures |rows[0].items| == 0 ==> params == [] && execData == [EmptyExecuteData]
    ensures ok && |rows[0].items| > 0 ==>
      |params| == |rows[0].items| && execData == seq(|params|, _ => ColumnStorage)
    ensures forall c :: 0 <= c < |params| ==> ColumnTyped(Cell(rows, 0, c)) && params[c] == WideColumn(rows, c)
    ensures !ok && !Homogeneous(rows) ==> params == [] && execData == []
    ensures !ok && Homogeneous(rows) ==>
      |params| < |rows[0].items| && !ColumnTyped(rows[0].items[|params|])
      && execData == seq(|params| + 1, _ => ColumnStorage)
  {
    numRows := |rows|;
    var row0 := rows[0].items;
    var numCols := |row0|;
    params := [];
    execData := [];
    if numCols == 0 {
      execData := [EmptyExecuteData];
      ok := true;
      return;
    }

    ok := CheckHomogeneous(rows);
    if !ok {
      return;
    }

    var c := 0;
    while c < numCols
      invariant 0 <= c <= numCols
      invariant |params| == c
      invariant execData == seq(c, _ => ColumnStorage)
      invariant forall k :: 0 <= k < c ==> ColumnTyped(Cell(rows, 0, k)) && params[k] == WideColumn(rows, k)
    {
      execData := execData + [ColumnStorage];
      var param;
      ok, param := BindColumn(rows, c);
      assert Cell(rows, 0, c) == row0[c];
      if !ok {
        return;
      }
      params := params + [param];
      c := c + 1;
    }
    assert forall k :: 0 <= k < numCols ==> Cell(rows, 0, k) == row0[k];
    ok := true;
  }

  /** The value a wide column carries on the wire for a row value: numbers
      of either kind as doubles. */
  function ExpectedWide(v: ScriptValue): Wire
    requires v.IsNumber() || v.Str? || v.Buffer? || v.Null?
  {
    if v.IsNumber() then WDouble(v.NumberValue()) else Expected(v)
  }

  /** Round trip for a wide column typed by a number, string or Buffer in
      row 0: in a homogeneous batch every row reads back as its value, and
      a row is null exactly when its value is null. */
  lemma WideColumnReadsBack(rows: seq<ScriptValue>, c: nat, r: nat)
    requires |rows| > 0 && rows[0].Array? && Homogeneous(rows)
    requires c < |rows[0].items| && r < |rows|
    requires var v0 := Cell(rows, 0, c); v0.IsNumber() || v0.Str? || v0.Buffer?
    ensures (var v := Cell(rows, r, c);
             (v.IsNumber() || v.Str? || v.Buffer? || v.Null?) && Read(WideColumn(rows, c), r) == Some(ExpectedWide(v)))
    ensures NullAt(WideColumn(rows, c).isNull, r) <==> Cell(rows, r, c).Null?
  {
    var v := Cell(rows, r, c);
    if r > 0 {
      assert Compatible(Cell(rows, 0, c), v);
    }
    if v.Str? {
      var u := Utf8(v.s);
      assert (u + [0])[..|u|] == u;
    } else if v.Buffer? {
      assert v.bytes[..|v.bytes|] == v.bytes;
    }
  }

  /** A column whose row-0 value is null keeps the cleared type, so only its
      null rows describe a value; the others read as nothing until the
      overlay in `executeWork` supplies a type. */
  lemma WideNullColumn(rows: seq<ScriptValue>, c: nat, r: nat)
    requires |rows| > 0 && rows[0].Array? && c < |rows[0].items| && r < |rows|
    requires Cell(rows, 0, c).Null?
    ensures WideColumn(rows, c).dataType == Some(AInvalidType)
    ensures Read(WideColumn(rows, c), r) == if Cell(rows, r, c).Null? then Some(WNull) else None
  {
  }

  // ---------------------------------------------------------------------
  // Node.js 0.10 shim: entry point

  /** One element of the Node.js 0.10 `getBindParameters`: a cleared slot,
      typed and filled by the element's class, with the element's value
      added to the shared `ExecuteData`. */
  method BindOneV010(ex: ExecuteData, v: ScriptValue) returns (ok: bool, ex': ExecuteData, param: BindParam)
    ensures ok <==> Bindable(v)
    ensures ok ==> param == SlotV010(v).value && ex' == Store(ex, StoredV010(v))
  {
    ex' := ex;
    param := Zeroed;
    ok := true;
    if v.Int32? {
      ex' := ex'.(groups := ex'.groups.(ints := ex'.groups.ints + [Some(v.i)]));
      param := param.(buffer := Some(IntCell(v.i)), dataType := Some(AVal32));
    } else if v.Number? {
      ex' := ex'.(groups := ex'.groups.(nums := ex'.groups.nums + [Some(v.d)]));
      param := param.(buffer := Some(DoubleCell(v.d)), dataType := Some(ADouble));
    } else if v.Str? {
      var u := Utf8(v.s);
      ex' := ex'.(groups := ex'.groups.(strings := ex'.groups.strings + [Some(u + [0])],
                                        lens := ex'.groups.lens + [Some(|u|)]));
      param := param.(dataType := Some(AString), buffer := Some(Bytes(u + [0])), length := Some(Len(|u|)),
                      bufferSize := Some(|u| + 1));
    } else if v.Buffer? {
      ex' := ex'.(groups := ex'.groups.(strings := ex'.groups.strings + [Some(v.bytes)],
                                        lens := ex'.groups.lens + [Some(|v.bytes|)]));
      param := param.(dataType := Some(ABinary), buffer := Some(Bytes(v.bytes)), length := Some(Len(|v.bytes|)),
                      bufferSize := Some(PointerSize));
    } else if v.Null? {
      param := param.(dataType := Some(AString), isNull := Flag(true));
      ex' := ex'.(nullFlags := ex'.nullFlags + [true]);
    } else {
      ok := false;
    }
  }

  /** One more bindable element extends the slots and the storage of the
      elements before it. */
  lemma BoundV010Extend(items: seq<ScriptValue>, i: nat)
    requires i < |items| && AllBindable(items[..i]) && Bindable(items[i])
    ensures AllBindable(items[..i + 1])
    ensures BoundV010(items[..i + 1]) == BoundV010(items[..i]) + [SlotV010(items[i]).value]
    ensures StorageV010(items[..i + 1]) == Store(StorageV010(items[..i]), StoredV010(items[i]))
  {
    var next := items[..i + 1];
    assert next[..i] == items[..i] && next[i] == items[i];
    forall j | 0 <= j < |next| ensures Bindable(next[j]) {
      if j < i {
        assert next[j] == items[..i][j];
      }
    }
  }

  /** The element loop of the Node.js 0.10 `getBindParameters`, stopping at
      the first element that cannot be bound. */
  method BindEachV010(items: seq<ScriptValue>) returns (ok: bool, ex: ExecuteData, params: seq<BindParam>)
    ensures ok <==> AllBindable(items)
    ensures ok ==> params == BoundV010(items) && ex == StorageV010(items)
    ensures !ok ==>
      |params| < |items| && AllBindable(items[..|params|]) && !Bindable(items[|params|])
      && params == BoundV010(items[..|params|]) && ex == StorageV010(items[..|params|])
  {
    ex := EmptyExecuteData;
    params := [];
    var i := 0;
    while i < |items|
      invariant 0 <= i <= |items|
      invariant AllBindable(items[..i])
      invariant params == BoundV010(items[..i])
      invariant ex == StorageV010(items[..i])
    {
      var param, ex';
      ok, ex', param := BindOneV010(ex, items[i]);
      if !ok {
        return;
      }
      ex := ex';
      BoundV010Extend(items, i);
      params := params + [param];
      i := i + 1;
    }
    assert items[..|items|] == items;
    ok := true;
  }

  /** `getBindParameters` of the Node.js 0.10 shim. An empty array adds one
      empty `ExecuteData` and leaves the row count as it was; an array whose
      first element is an array is a wide batch; otherwise the row count is
      1 and every element gets a cleared slot in one shared `ExecuteData`. */
  method GetBindParametersV010(items: seq<ScriptValue>, numRowsIn: nat)
    returns (ok: bool, execData: seq<ExecuteData>, params: seq<BindParam>, numRows: nat)
    ensures |items| == 0 ==> ok && execData == [EmptyExecuteData] && params == [] && numRows == numRowsIn
    ensures |items| > 0 && items[0].Array? ==>
      numRows == |items| && (ok <==> WideBindable(items))
      && (ok ==> forall c :: 0 <= c < |params| ==> ColumnTyped(Cell(items, 0, c)) && params[c] == WideColumn(items, c))
      && (ok ==> |params| == |items[0].items| && |execData| > 0)
    ensures |items| > 0 && !items[0].Array? ==>
      numRows == 1 && (ok <==> AllBindable(items)) && |execData| == 1
      && (ok ==> params == BoundV010(items) && execData == [StorageV010(items)])
      && (!ok ==> |params| < |items| && AllBindable(items[..|params|]) && !Bindable(items[|params|])
                  && params == BoundV010(items[..|params|]) && execData == [StorageV010(items[..|params|])])
  {
    if |items| == 0 {
      ok, execData, params, numRows := true, [EmptyExecuteData], [], numRowsIn;
      return;
    }
    if items[0].Array? {
      ok, execData, params, numRows := GetWideBindParameters(items);
      return;
    }
    numRows := 1;
    var ex;
    ok, ex, params := BindEachV010(items);
    execData := [ex];
  }

  // ---------------------------------------------------------------------
  // The overlay in executeWork

  /** The slot `executeWork` binds: the one the native library describes,
      overlaid with the caller's. The buffer always comes from the caller;
      length and buffer size only for a string or binary type; the null flag
      only when the caller has one. The current shim always takes the
      caller's type and keeps the described `is_address`; the Node.js 0.10
      shim keeps the described type unless it is `A_INVALID_TYPE` and the
      caller's value is not null, and takes the caller's `is_address`. */
  function Overlay(shim: Shim, described: BindParam, given: BindParam): (p: BindParam)
    ensures p.buffer == given.buffer
    ensures p.dataType in {Some(AString), Some(ABinary)} ==> p.length == given.length && p.bufferSize == given.bufferSize
    ensures p.dataType !in {Some(AString), Some(ABinary)} ==> p.length == described.length && p.bufferSize == described.bufferSize
    ensures p.isNull == if given.isNull == NullFlagPtr then described.isNull else given.isNull
    ensures shim == Current ==> p.dataType == given.dataType && p.isAddress == described.isAddress
    ensures shim == V010 ==> p.isAddress == given.isAddress
    ensures shim == V010 ==>
      p.dataType == if described.dataType == Some(AInvalidType) && !NullAt(given.isNull, 0)
                    then given.dataType else described.dataType
  {
    var ty :=
      if shim == Current then given.dataType
      else if described.dataType == Some(AInvalidType) && !NullAt(given.isNull, 0) then given.dataType
      else described.dataType;
    var p := described.(dataType := ty, buffer := given.buffer,
                        isAddress := if shim == Current then described.isAddress else given.isAddress);
    var p := if ty in {Some(AString), Some(ABinary)} then p.(length := given.length, bufferSize := given.bufferSize) else p;
    if given.isNull != NullFlagPtr then p.(isNull := given.isNull) else p
  }

  /** In the current shim the overlay passes the caller's value through
      unchanged, provided the described slot is neither flagged null nor an
      array of addresses. */
  lemma OverlayCurrentReadsBack(described: BindParam, given: BindParam, r: nat)
    requires given.isNull != NullFlagPtr || !NullAt(described.isNull, r)
    requires described.isAddress != Some(true) && given.isAddress != Some(true)
    ensures Read(Overlay(Current, described, given), r) == Read(given, r)
  {
  }

  /** In the Node.js 0.10 shim the overlay passes the caller's value through
      when the native library leaves the parameter untyped or agrees on its
      type; a described type always wins otherwise. */
  lemma OverlayV010ReadsBack(described: BindParam, given: BindParam, r: nat)
    requires described.dataType == Some(AInvalidType) || described.dataType == given.dataType
    requires given.isNull != NullFlagPtr || !NullAt(described.isNull, r)
    requires NullAt(given.isNull, 0) ==> NullAt(given.isNull, r) || given.dataType == Some(AInvalidType)
    ensures Read(Overlay(V010, described, given), r) == Read(given, r)
  {
  }
}
