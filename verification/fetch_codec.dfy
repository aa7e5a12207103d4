/** Result sets: how `fetchResultSet` splits the fetched cells into a tag
    list and three value groups, and how `getResultSet` walks the tags with
    three cursors to rebuild rows keyed by column name. */
module FetchCodec {
  import opened Common

  // ---------------------------------------------------------------------
  // The native side of a fetch

  /** A cell as `sqlany_get_column` reports it: its null flag, its type, and
      its value as the binding converts it, an integer for the 8/16-bit and
      signed 32-bit types, a double for the 64-bit, unsigned 32-bit and
      double types, and `length` bytes for strings and binaries. */
  datatype NativeCell = NativeCell(isNull: bool, dataType: DataType, intValue: int, numValue: Double, bytes: seq<byte>)

  /** What the native library reports for an executed statement: the
      affected-row count, the column count, the column names, and the cells
      of each row `sqlany_fetch_next` delivers, `None` where `sqlany_get_column`
      fails. */
  datatype NativeResult = NativeResult(
    affectedRows: int,
    numCols: int,
    columnNames: seq<string>,
    rows: seq<seq<Option<NativeCell>>>)

  /** The native library answers for every column it reports. */
  predicate Answers(res: NativeResult)
  {
    res.numCols > 0 ==>
      |res.columnNames| == res.numCols
      && forall k :: 0 <= k < |res.rows| ==> |res.rows[k]| == res.numCols
  }

  /** A cell `fetchResultSet` can store: a null, or a value of an integer,
      numeric, string or binary type. */
  predicate Handled(c: NativeCell)
  {
    c.isNull || ClassOf(c.dataType) in {IntClass, NumClass, StrClass}
  }

  predicate AllFetchable(cells: seq<Option<NativeCell>>)
  {
    forall j :: 0 <= j < |cells| ==> cells[j].Some? && Handled(cells[j].value)
  }

  /** The cells of all rows, row after row. */
  function Flatten(rows: seq<seq<Option<NativeCell>>>): seq<Option<NativeCell>>
    decreases |rows|
  {
    if |rows| == 0 then [] else Flatten(rows[..|rows| - 1]) + rows[|rows| - 1]
  }

  /** The tag recorded for a cell: `A_INVALID_TYPE` for a null. */
  function Tag(c: NativeCell): DataType
  {
    if c.isNull then AInvalidType else c.dataType
  }

  function Tags(cells: seq<Option<NativeCell>>): seq<DataType>
    decreases |cells|
  {
    if |cells| == 0 then []
    else
      var last := cells[|cells| - 1];
      Tags(cells[..|cells| - 1]) + (if last.Some? then [Tag(last.value)] else [])
  }

  /** What storing one cell adds to the value groups; a null adds nothing. */
  function Stored(c: NativeCell): Groups
  {
    if c.isNull then NoGroups
    else match ClassOf(c.dataType)
      case IntClass => Groups([Some(c.intValue)], [], [], [])
      case NumClass => Groups([], [Some(c.numValue)], [], [])
      case StrClass => Groups([], [], [Some(c.bytes)], [Some(|c.bytes|)])
      case _ => NoGroups
  }

  function SplitGroups(cells: seq<Option<NativeCell>>): Groups
    decreases |cells|
  {
    if |cells| == 0 then NoGroups
    else
      var last := cells[|cells| - 1];
      AppendGroups(SplitGroups(cells[..|cells| - 1]), if last.Some? then Stored(last.value) else NoGroups)
  }

  // ---------------------------------------------------------------------
  // fetchResultSet

  /** One non-failing `sqlany_get_column` of `fetchResultSet`: a null
      records only its tag; a value of a handled type is stored in its
      group and records its type; any other type fails. */
  method StoreCell(v: NativeCell, groups0: Groups, colTypes0: seq<DataType>)
    returns (ok: bool, groups: Groups, colTypes: seq<DataType>)
    ensures ok <==> Handled(v)
    ensures ok ==> groups == AppendGroups(groups0, Stored(v)) && colTypes == colTypes0 + [Tag(v)]
  {
    groups, colTypes := groups0, colTypes0;
    if v.isNull {
      colTypes := colTypes + [AInvalidType];
      return true, groups, colTypes;
    }
    match v.dataType {
    case ABinary =>
      groups := groups.(strings := groups.strings + [Some(v.bytes)], lens := groups.lens + [Some(|v.bytes|)]);
    case AString =>
      groups := groups.(strings := groups.strings + [Some(v.bytes)], lens := groups.lens + [Some(|v.bytes|)]);
    case AVal64 =>
      groups := groups.(nums := groups.nums + [Some(v.numValue)]);
    case AUVal64 =>
      groups := groups.(nums := groups.nums + [Some(v.numValue)]);
    case AVal32 =>
      groups := groups.(ints := groups.ints + [Some(v.intValue)]);
    case AUVal32 =>
      groups := groups.(nums := groups.nums + [Some(v.numValue)]);
    case AVal16 =>
      groups := groups.(ints := groups.ints + [Some(v.intValue)]);
    case AUVal16 =>
      groups := groups.(ints := groups.ints + [Some(v.intValue)]);
    case AVal8 =>
      groups := groups.(ints := groups.ints + [Some(v.intValue)]);
    case AUVal8 =>
      groups := groups.(ints := groups.ints + [Some(v.intValue)]);
    case ADouble =>
      groups := groups.(nums := groups.nums + [Some(v.numValue)]);
    case _ =>
      return false, groups, colTypes;
    }
    colTypes := colTypes + [v.dataType];
    ok := true;
  }

  /** The column loop of `fetchResultSet` for one fetched row. */
  method FetchRow(row: seq<Option<NativeCell>>, groups0: Groups, colTypes0: seq<DataType>)
    returns (ok: bool, groups: Groups, colTypes: seq<DataType>)
    ensures ok <==> AllFetchable(row)
    ensures ok ==> groups == AppendGroups(groups0, SplitGroups(row)) && colTypes == colTypes0 + Tags(row)
  {
    groups, colTypes := groups0, colTypes0;
    var i := 0;
    while i < |row|
      invariant 0 <= i <= |row|
      invariant AllFetchable(row[..i])
      invariant colTypes == colTypes0 + Tags(row[..i])
      invariant groups == AppendGroups(groups0, SplitGroups(row[..i]))
    {
      var value := row[i];
      if value.None? {
        return false, groups, colTypes;
      }
      var stored;
      stored, groups, colTypes := StoreCell(value.value, groups, colTypes);
      if !stored {
        return false, groups, colTypes;
      }
      ghost var next := row[..i + 1];
      assert next[..i] == row[..i];
      AppendGroupsAssoc(groups0, SplitGroups(row[..i]), Stored(value.value));
      i := i + 1;
    }
    assert row[..|row|] == row;
    ok := true;
  }

  /** The index of the first cell of a row that cannot be fetched. */
  function FirstUnfetchable(row: seq<Option<NativeCell>>): (i: nat)
    requires !AllFetchable(row)
    ensures i < |row| && !(row[i].Some? && Handled(row[i].value))
    decreases |row|
  {
    if !(row[0].Some? && Handled(row[0].value)) then 0
    else
      assert !AllFetchable(row[1..]) by {
        var j :| 0 <= j < |row| && !(row[j].Some? && Handled(row[j].value));
        assert row[1..][j - 1] == row[j];
      }
      1 + FirstUnfetchable(row[1..])
  }

  lemma {:induction false} SplitGroupsAppend(a: seq<Option<NativeCell>>, b: seq<Option<NativeCell>>)
    ensures SplitGroups(a + b) == AppendGroups(SplitGroups(a), SplitGroups(b))
    decreases |b|
  {
    if |b| == 0 {
      assert a + b == a;
    } else {
      var b' := b[..|b| - 1];
      assert (a + b)[..|a + b| - 1] == a + b';
      SplitGroupsAppend(a, b');
      var last := b[|b| - 1];
      AppendGroupsAssoc(SplitGroups(a), SplitGroups(b'), if last.Some? then Stored(last.value) else NoGroups);
    }
  }

  lemma {:induction false} TagsAppend(a: seq<Option<NativeCell>>, b: seq<Option<NativeCell>>)
    ensures Tags(a + b) == Tags(a) + Tags(b)
    decreases |b|
  {
    if |b| == 0 {
      assert a + b == a;
    } else {
      var b' := b[..|b| - 1];
      assert (a + b)[..|a + b| - 1] == a + b';
      TagsAppend(a, b');
    }
  }

  /** One more fetched row extends what the rows before it stored. */
  lemma FetchedRowsExtend(rows: seq<seq<Option<NativeCell>>>, k: nat, groups0: Groups, colTypes0: seq<DataType>)
    requires k < |rows| && AllFetchable(Flatten(rows[..k])) && AllFetchable(rows[k])
    ensures AllFetchable(Flatten(rows[..k + 1]))
    ensures colTypes0 + Tags(Flatten(rows[..k + 1])) == colTypes0 + Tags(Flatten(rows[..k])) + Tags(rows[k])
    ensures AppendGroups(groups0, SplitGroups(Flatten(rows[..k + 1])))
         == AppendGroups(AppendGroups(groups0, SplitGroups(Flatten(rows[..k]))), SplitGroups(rows[k]))
  {
    var before := Flatten(rows[..k]);
    var row := rows[k];
    assert rows[..k + 1][..k] == rows[..k];
    assert Flatten(rows[..k + 1]) == before + row;
    var all: seq<Option<NativeCell>> := before + row;
    forall j | 0 <= j < |all| ensures all[j].Some? && Handled(all[j].value) {
      if j >= |before| {
        assert all[j] == row[j - |before|];
      }
    }
    SplitGroupsAppend(before, row);
    TagsAppend(before, row);
    AppendGroupsAssoc(groups0, SplitGroups(before), SplitGroups(row));
  }

  /** The `sqlany_fetch_next` loop of `fetchResultSet`, row after row. */
  method FetchRows(rows: seq<seq<Option<NativeCell>>>, groups0: Groups, colTypes0: seq<DataType>)
    returns (ok: bool, groups: Groups, colTypes: seq<DataType>)
    ensures ok <==> AllFetchable(Flatten(rows))
    ensures ok ==> colTypes == colTypes0 + Tags(Flatten(rows)) && groups == AppendGroups(groups0, SplitGroups(Flatten(rows)))
  {
    groups, colTypes := groups0, colTypes0;
    var k := 0;
    while k < |rows|
      invariant 0 <= k <= |rows|
      invariant AllFetchable(Flatten(rows[..k]))
      invariant colTypes == colTypes0 + Tags(Flatten(rows[..k]))
      invariant groups == AppendGroups(groups0, SplitGroups(Flatten(rows[..k])))
    {
      var row := rows[k];
      var fetched, groups', colTypes' := FetchRow(row, groups, colTypes);
      if !fetched {
        FetchFailsAt(rows, k, FirstUnfetchable(row));
        return false, groups', colTypes';
      }
      FetchedRowsExtend(rows, k, groups0, colTypes0);
      groups, colTypes := groups', colTypes';
      k := k + 1;
    }
    assert rows[..|rows|] == rows;
    ok := true;
  }

  /** `fetchResultSet`. With a positive affected-row count and no columns it
      keeps that count and stores nothing; otherwise the count becomes -1,
      and when there are columns it adds their names and then splits every
      cell of every row, failing on a cell it cannot read or store. */
  method FetchResultSet(res: NativeResult, colNames0: seq<string>, groups0: Groups, colTypes0: seq<DataType>)
    returns (ok: bool, rowsAffected: int, colNames: seq<string>, groups: Groups, colTypes: seq<DataType>)
    requires Answers(res)
    ensures res.affectedRows > 0 && res.numCols < 1 ==>
      ok && rowsAffected == res.affectedRows && colNames == colNames0 && groups == groups0 && colTypes == colTypes0
    ensures !(res.affectedRows > 0 && res.numCols < 1) ==> rowsAffected == -1
    ensures res.numCols < 1 ==> ok && colNames == colNames0 && groups == groups0 && colTypes == colTypes0
    ensures res.numCols > 0 ==> colNames == colNames0 + res.columnNames
    ensures res.numCols > 0 ==> (ok <==> AllFetchable(Flatten(res.rows)))
    ensures res.numCols > 0 && ok ==>
      colTypes == colTypes0 + Tags(Flatten(res.rows))
      && groups == AppendGroups(groups0, SplitGroups(Flatten(res.rows)))
  {
    rowsAffected := res.affectedRows;
    var numCols := res.numCols;
    colNames, groups, colTypes := colNames0, groups0, colTypes0;
    if rowsAffected > 0 && numCols < 1 {
      return true, rowsAffected, colNames, groups, colTypes;
    }
    rowsAffected := -1;
    if numCols > 0 {
      var i := 0;
      while i < numCols
        invariant 0 <= i <= numCols
        invariant colNames == colNames0 + res.columnNames[..i]
      {
        colNames := colNames + [res.columnNames[i]];
        i := i + 1;
      }
      assert res.columnNames[..numCols] == res.columnNames;

      ok, groups, colTypes := FetchRows(res.rows, groups, colTypes);
      return;
    }
    ok := true;
  }

  lemma {:induction false} FlattenAppend(a: seq<seq<Option<NativeCell>>>, b: seq<seq<Option<NativeCell>>>)
    ensures Flatten(a + b) == Flatten(a) + Flatten(b)
    decreases |b|
  {
    if |b| == 0 {
      assert a + b == a;
    } else {
      var b' := b[..|b| - 1];
      assert (a + b)[..|a + b| - 1] == a + b';
      assert Flatten(a + b) == Flatten(a + b') + b[|b| - 1];
      FlattenAppend(a, b');
      assert Flatten(b) == Flatten(b') + b[|b| - 1];
    }
  }

  /** A cell that cannot be read or stored anywhere in the rows makes the
      whole fetch fail. */
  lemma FetchFailsAt(rows: seq<seq<Option<NativeCell>>>, k: nat, i: nat)
    requires k < |rows| && i < |rows[k]|
    requires !(rows[k][i].Some? && Handled(rows[k][i].value))
    ensures !AllFetchable(Flatten(rows))
  {
    assert rows == rows[..k] + [rows[k]] + rows[k + 1..];
    FlattenAppend(rows[..k] + [rows[k]], rows[k + 1..]);
    FlattenAppend(rows[..k], [rows[k]]);
    assert Flatten([rows[k]]) == rows[k] by {
      assert [rows[k]][..0] == [];
    }
    var j := |Flatten(rows[..k])| + i;
    assert Flatten(rows)[j] == rows[k][i];
  }

  // ---------------------------------------------------------------------
  // getResultSet

  /** A cell of a rebuilt row: the script value the binding creates. */
  datatype ResultCell = RNull | RInt(i: int) | RNum(d: Double) | RText(utf8: seq<byte>) | RBlob(b: seq<byte>)

  /** A rebuilt row: an object whose properties are the column names (a
      later column of the same name overwrites an earlier one). */
  type Row = map<string, ResultCell>

  /** What `getResultSet` delivers: the affected-row count, an array of rows,
      or `undefined`. */
  datatype ResultValue = Affected(count: int) | RowSet(rows: seq<Row>) | NoValue

  /** Tags whose cell took an entry of one of the three groups. */
  predicate Consuming(t: DataType)
  {
    ClassOf(t) in {IntClass, NumClass, StrClass}
  }

  /** How many tags of class `k` the list holds. */
  function CountClass(tags: seq<DataType>, k: TypeClass): nat
    decreases |tags|
  {
    if |tags| == 0 then 0
    else CountClass(tags[..|tags| - 1], k) + (if ClassOf(tags[|tags| - 1]) == k then 1 else 0)
  }

  /** The position of the last consuming tag, if any. */
  function LastConsuming(tags: seq<DataType>): (r: Option<nat>)
    ensures r.None? ==> forall j :: 0 <= j < |tags| ==> !Consuming(tags[j])
    ensures r.Some? ==>
      r.value < |tags| && Consuming(tags[r.value]) && forall j :: r.value < j < |tags| ==> !Consuming(tags[j])
    decreases |tags|
  {
    if |tags| == 0 then None
    else if Consuming(tags[|tags| - 1]) then Some(|tags| - 1)
    else LastConsuming(tags[..|tags| - 1])
  }

  /** The number of rows `getResultSet` rebuilds from `n`-column tags: up to
      and including the row of the last consuming tag, so trailing rows of
      nulls only are not rebuilt. */
  function RowsBuilt(tags: seq<DataType>, n: nat): nat
    requires n > 0
  {
    match LastConsuming(tags)
    case None => 0
    case Some(j) => j / n + 1
  }

  /** Tags and groups as `fetchResultSet` leaves them for `n` columns: whole
      rows of tags, as many tags of each class as its group has entries,
      and a length for every string. */
  predicate Consistent(tags: seq<DataType>, g: Groups, n: nat)
  {
    && n > 0
    && |tags| % n == 0
    && CountClass(tags, IntClass) == |g.ints|
    && CountClass(tags, NumClass) == |g.nums|
    && CountClass(tags, StrClass) == |g.strings|
    && |g.strings| == |g.lens|
  }

  function Take(b: seq<byte>, n: nat): seq<byte>
  {
    if n <= |b| then b[..n] else b
  }

  /** The cell at tag position `j`: the group entry its class has reached
      there, or null for a null tag or a released entry. */
  function CellAt(tags: seq<DataType>, g: Groups, j: nat): ResultCell
    requires j < |tags|
  {
    var t := tags[j];
    var idx := CountClass(tags[..j], ClassOf(t));
    match ClassOf(t)
    case IntClass =>
      if idx < |g.ints| && g.ints[idx].Some? then RInt(g.ints[idx].value) else RNull
    case NumClass =>
      if idx < |g.nums| && g.nums[idx].Some? then RNum(g.nums[idx].value) else RNull
    case StrClass =>
      if idx < |g.strings| && idx < |g.lens| && g.strings[idx].Some? && g.lens[idx].Some? then
        (var b := Take(g.strings[idx].value, g.lens[idx].value);
         if t == ABinary then RBlob(b) else RText(b))
      else RNull
    case _ => RNull
  }

  /** The object whose properties are `names`, set in order to `cells`. */
  function RowObject(names: seq<string>, cells: seq<ResultCell>): Row
    requires |names| == |cells|
    decreases |names|
  {
    if |names| == 0 then map[]
    else RowObject(names[..|names| - 1], cells[..|cells| - 1])[names[|names| - 1] := cells[|cells| - 1]]
  }

  /** The `n` cells of the row that starts at tag position `base`. */
  function RowCells(tags: seq<DataType>, g: Groups, base: nat, n: nat): (cells: seq<ResultCell>)
    requires base + n <= |tags|
    ensures |cells| == n
  {
    seq(n, i requires 0 <= i < n => CellAt(tags, g, base + i))
  }

  /** The first `k` rows rebuilt from `names` and the tags and groups. */
  function RowsPrefix(names: seq<string>, tags: seq<DataType>, g: Groups, k: nat): (rows: seq<Row>)
    requires RowStart(k, |names|) <= |tags|
    ensures |rows| == k
  {
    if k == 0 then []
    else RowsPrefix(names, tags, g, k - 1) + [RowObject(names, RowCells(tags, g, RowStart(k - 1, |names|), |names|))]
  }

  /** The rows `getResultSet` rebuilds from consistent tags and groups. */
  function AssembledRows(names: seq<string>, tags: seq<DataType>, g: Groups): (rows: seq<Row>)
    requires Consistent(tags, g, |names|)
    ensures |rows| == RowsBuilt(tags, |names|)
  {
    RowsFit(tags, |names|);
    RowsPrefix(names, tags, g, RowsBuilt(tags, |names|))
  }

  /** No tag among the first `m` is one `getResultSet` cannot handle. */
  predicate NoUnhandled(tags: seq<DataType>, m: nat)
  {
    forall j :: 0 <= j < m && j < |tags| ==> ClassOf(tags[j]) != Unhandled
  }

  /** The value `getResultSet` produces, `None` where it fails: the count
      when one was kept; `undefined` without columns; otherwise the
      rebuilt rows, provided no tag in them is unhandled. */
  function ResultOf(rowsAffected: int, names: seq<string>, tags: seq<DataType>, g: Groups): Option<ResultValue>
    requires rowsAffected < 0 && |names| > 0 ==> Consistent(tags, g, |names|)
  {
    if rowsAffected >= 0 then Some(Affected(rowsAffected))
    else if |names| == 0 then Some(NoValue)
    else if NoUnhandled(tags, RowStart(RowsBuilt(tags, |names|), |names|)) then Some(RowSet(AssembledRows(names, tags, g)))
    else None
  }

  /** The groups after the current shim has released the first `ci`, `cn`
      and `cs` entries of each; the Node.js 0.10 shim releases nothing. */
  function Released(shim: Shim, g: Groups, ci: nat, cn: nat, cs: nat): (h: Groups)
    ensures |h.ints| == |g.ints| && |h.nums| == |g.nums| && |h.strings| == |g.strings| && |h.lens| == |g.lens|
  {
    if shim == V010 then g
    else Groups(
      seq(|g.ints|, k requires 0 <= k < |g.ints| => if k < ci then None else g.ints[k]),
      seq(|g.nums|, k requires 0 <= k < |g.nums| => if k < cn then None else g.nums[k]),
      seq(|g.strings|, k requires 0 <= k < |g.strings| => if k < cs then None else g.strings[k]),
      seq(|g.lens|, k requires 0 <= k < |g.lens| => if k < cs then None else g.lens[k]))
  }

  predicate AllReleased(g: Groups)
  {
    && (forall k :: 0 <= k < |g.ints| ==> g.ints[k].None?)
    && (forall k :: 0 <= k < |g.nums| ==> g.nums[k].None?)
    && (forall k :: 0 <= k < |g.strings| ==> g.strings[k].None?)
    && (forall k :: 0 <= k < |g.lens| ==> g.lens[k].None?)
  }

  /** The cursors of the three groups after the first `m` tags. */
  predicate Cursors(tags: seq<DataType>, m: nat, ci: nat, cn: nat, cs: nat)
    requires m <= |tags|
  {
    && ci == CountClass(tags[..m], IntClass)
    && cn == CountClass(tags[..m], NumClass)
    && cs == CountClass(tags[..m], StrClass)
  }

  /** Releasing the entry under a cursor moves that cursor on by one. */
  lemma ReleaseInt(g: Groups, ci: nat, cn: nat, cs: nat)
    requires ci < |g.ints|
    ensures var h := Released(Current, g, ci, cn, cs); Released(Current, g, ci + 1, cn, cs) == h.(ints := h.ints[ci := None])
  {
    var h := Released(Current, g, ci, cn, cs);
    assert Released(Current, g, ci + 1, cn, cs).ints == h.ints[ci := None];
  }

  lemma ReleaseNum(g: Groups, ci: nat, cn: nat, cs: nat)
    requires cn < |g.nums|
    ensures var h := Released(Current, g, ci, cn, cs); Released(Current, g, ci, cn + 1, cs) == h.(nums := h.nums[cn := None])
  {
    var h := Released(Current, g, ci, cn, cs);
    assert Released(Current, g, ci, cn + 1, cs).nums == h.nums[cn := None];
  }

  lemma ReleaseStr(g: Groups, ci: nat, cn: nat, cs: nat)
    requires cs < |g.strings| && cs < |g.lens|
    ensures var h := Released(Current, g, ci, cn, cs);
      Released(Current, g, ci, cn, cs + 1) == h.(strings := h.strings[cs := None], lens := h.lens[cs := None])
  {
    var h := Released(Current, g, ci, cn, cs);
    assert Released(Current, g, ci, cn, cs + 1).strings == h.strings[cs := None];
    assert Released(Current, g, ci, cn, cs + 1).lens == h.lens[cs := None];
  }

  /** The entry under the cursor of tag `count`'s class exists, has not
      been released, and reading it moves exactly that cursor on. */
  lemma CursorAt(shim: Shim, tags: seq<DataType>, groups: Groups, count: nat, ci: nat, cn: nat, cs: nat)
    requires count < |tags| && Cursors(tags, count, ci, cn, cs)
    requires Consistent(tags, groups, 1)
    ensures var cur := Released(shim, groups, ci, cn, cs);
      match ClassOf(tags[count])
      case IntClass => ci < |groups.ints| && cur.ints[ci] == groups.ints[ci] && Cursors(tags, count + 1, ci + 1, cn, cs)
      case NumClass => cn < |groups.nums| && cur.nums[cn] == groups.nums[cn] && Cursors(tags, count + 1, ci, cn + 1, cs)
      case StrClass =>
        cs < |groups.strings| && cur.strings[cs] == groups.strings[cs] && cur.lens[cs] == groups.lens[cs]
        && Cursors(tags, count + 1, ci, cn, cs + 1)
      case NullMark => Cursors(tags, count + 1, ci, cn, cs)
      case Unhandled => true
  {
    CountStep(tags, count);
    var k := ClassOf(tags[count]);
    if k != NullMark && k != Unhandled {
      CountPrefixLe(tags, count + 1, k);
    }
  }

  /** One step of the inner loop of `getResultSet`: the cell for tag
      `count`, read through the cursor of its class, which then advances;
      the current shim releases the entry it read. Fails on an unhandled
      tag. */
  method TakeCell(shim: Shim, tags: seq<DataType>, groups: Groups, cur: Groups, count: nat, ci: nat, cn: nat, cs: nat)
    returns (ok: bool, cell: ResultCell, next: Groups, ci': nat, cn': nat, cs': nat)
    requires count < |tags| && Cursors(tags, count, ci, cn, cs)
    requires Consistent(tags, groups, 1)
    requires cur == Released(shim, groups, ci, cn, cs)
    ensures ok <==> ClassOf(tags[count]) != Unhandled
    ensures ok ==> cell == CellAt(tags, groups, count) && Cursors(tags, count + 1, ci', cn', cs')
    ensures ok ==> next == Released(shim, groups, ci', cn', cs')
    ensures !ok ==> next == cur && ci' == ci && cn' == cn && cs' == cs
  {
    CursorAt(shim, tags, groups, count, ci, cn, cs);
    next, ci', cn', cs' := cur, ci, cn, cs;
    ok := true;
    match tags[count] {
    case AInvalidType =>
      cell := RNull;
    case AVal32 | AVal16 | AUVal16 | AVal8 | AUVal8 =>
      cell, next := TakeInt(shim, groups, cur, ci, cn, cs);
      ci' := ci + 1;
    case AUVal32 | AUVal64 | AVal64 | ADouble =>
      cell, next := TakeNum(shim, groups, cur, ci, cn, cs);
      cn' := cn + 1;
    case ABinary =>
      cell, next := TakeBytes(shim, groups, cur, ci, cn, cs, true);
      cs' := cs + 1;
    case AString =>
      cell, next := TakeBytes(shim, groups, cur, ci, cn, cs, false);
      cs' := cs + 1;
    case AFloat =>
      ok, cell := false, RNull;
    }
  }

  /** Reads the integer under cursor `ci`; the current shim releases it. */
  method TakeInt(shim: Shim, groups: Groups, cur: Groups, ci: nat, cn: nat, cs: nat) returns (cell: ResultCell, next: Groups)
    requires ci < |groups.ints| && cur == Released(shim, groups, ci, cn, cs) && cur.ints[ci] == groups.ints[ci]
    ensures cell == if groups.ints[ci].Some? then RInt(groups.ints[ci].value) else RNull
    ensures next == Released(shim, groups, ci + 1, cn, cs)
  {
    cell := if cur.ints[ci].None? then RNull else RInt(cur.ints[ci].value);
    next := cur;
    if shim == Current {
      ReleaseInt(groups, ci, cn, cs);
      next := cur.(ints := cur.ints[ci := None]);
    }
  }

  /** Reads the number under cursor `cn`; the current shim releases it. */
  method TakeNum(shim: Shim, groups: Groups, cur: Groups, ci: nat, cn: nat, cs: nat) returns (cell: ResultCell, next: Groups)
    requires cn < |groups.nums| && cur == Released(shim, groups, ci, cn, cs) && cur.nums[cn] == groups.nums[cn]
    ensures cell == if groups.nums[cn].Some? then RNum(groups.nums[cn].value) else RNull
    ensures next == Released(shim, groups, ci, cn + 1, cs)
  {
    cell := if cur.nums[cn].None? then RNull else RNum(cur.nums[cn].value);
    next := cur;
    if shim == Current {
      ReleaseNum(groups, ci, cn, cs);
      next := cur.(nums := cur.nums[cn := None]);
    }
  }

  /** Reads the bytes under cursor `cs`, cut to their stored length, as a
      binary or a text; the current shim releases them. */
  method TakeBytes(shim: Shim, groups: Groups, cur: Groups, ci: nat, cn: nat, cs: nat, binary: bool)
    returns (cell: ResultCell, next: Groups)
    requires cs < |groups.strings| && cs < |groups.lens| && cur == Released(shim, groups, ci, cn, cs)
    requires cur.strings[cs] == groups.strings[cs] && cur.lens[cs] == groups.lens[cs]
    ensures cell == if groups.strings[cs].Some? && groups.lens[cs].Some? then
                      (var b := Take(groups.strings[cs].value, groups.lens[cs].value);
                       if binary then RBlob(b) else RText(b))
                    else RNull
    ensures next == Released(shim, groups, ci, cn, cs + 1)
  {
    cell := if cur.strings[cs].None? || cur.lens[cs].None? then RNull
            else if binary then RBlob(Take(cur.strings[cs].value, cur.lens[cs].value))
            else RText(Take(cur.strings[cs].value, cur.lens[cs].value));
    next := cur;
    if shim == Current {
      ReleaseStr(groups, ci, cn, cs);
      next := cur.(strings := cur.strings[cs := None], lens := cur.lens[cs := None]);
    }
  }

  /** One more handled tag adds its cell to the row built so far. */
  lemma RowStep(names: seq<string>, tags: seq<DataType>, groups: Groups, base: nat, i: nat)
    requires base + |names| <= |tags| && i < |names|
    requires NoUnhandled(tags[base..], i) && ClassOf(tags[base + i]) != Unhandled
    ensures NoUnhandled(tags[base..], i + 1)
    ensures var cells := RowCells(tags, groups, base, |names|);
      RowObject(names[..i + 1], cells[..i + 1]) == RowObject(names[..i], cells[..i])[names[i] := CellAt(tags, groups, base + i)]
  {
    var cells := RowCells(tags, groups, base, |names|);
    assert tags[base..][i] == tags[base + i];
    assert cells[..i + 1][..i] == cells[..i];
    assert names[..i + 1][..i] == names[..i];
  }

  /** One turn of the inner loop of `getResultSet`: cell `i` of the row
      at `base`, or a failure at an unhandled tag. */
  method NextCell(shim: Shim, names: seq<string>, tags: seq<DataType>, groups: Groups, cur: Groups,
                  base: nat, i: nat, ci: nat, cn: nat, cs: nat)
    returns (ok: bool, cell: ResultCell, next: Groups, ci': nat, cn': nat, cs': nat)
    requires base + |names| <= |tags| && i < |names| && Cursors(tags, base + i, ci, cn, cs)
    requires Consistent(tags, groups, 1) && NoUnhandled(tags[base..], i)
    requires cur == Released(shim, groups, ci, cn, cs)
    ensures !ok ==> !NoUnhandled(tags[base..], |names|) && next == cur && ci' == ci && cn' == cn && cs' == cs
    ensures ok ==> NoUnhandled(tags[base..], i + 1) && Cursors(tags, base + i + 1, ci', cn', cs')
    ensures ok ==> next == Released(shim, groups, ci', cn', cs')
    ensures ok ==> var cells := RowCells(tags, groups, base, |names|);
      RowObject(names[..i + 1], cells[..i + 1]) == RowObject(names[..i], cells[..i])[names[i] := cell]
  {
    ok, cell, next, ci', cn', cs' := TakeCell(shim, tags, groups, cur, base + i, ci, cn, cs);
    assert tags[base..][i] == tags[base + i];
    if ok {
      RowStep(names, tags, groups, base, i);
    }
  }

  /** The inner loop of `getResultSet`: one row object from the `n` tags at
      `base`. Fails at the first unhandled tag. */
  method BuildRow(shim: Shim, names: seq<string>, tags: seq<DataType>, groups: Groups, cur: Groups,
                  base: nat, ci: nat, cn: nat, cs: nat)
    returns (ok: bool, row: Row, next: Groups, ci': nat, cn': nat, cs': nat)
    requires base + |names| <= |tags| && Cursors(tags, base, ci, cn, cs)
    requires Consistent(tags, groups, 1)
    requires cur == Released(shim, groups, ci, cn, cs)
    ensures ok <==> NoUnhandled(tags[base..], |names|)
    ensures ok ==> row == RowObject(names, RowCells(tags, groups, base, |names|))
    ensures ok ==> Cursors(tags, base + |names|, ci', cn', cs')
    ensures next == Released(shim, groups, ci', cn', cs')
  {
    var n := |names|;
    ghost var cells := RowCells(tags, groups, base, n);
    row := map[];
    next, ci', cn', cs' := cur, ci, cn, cs;
    var i := 0;
    while i < n
      invariant 0 <= i <= n
      invariant Cursors(tags, base + i, ci', cn', cs')
      invariant NoUnhandled(tags[base..], i)
      invariant row == RowObject(names[..i], cells[..i])
      invariant next == Released(shim, groups, ci', cn', cs')
    {
      var cell;
      ok, cell, next, ci', cn', cs' := NextCell(shim, names, tags, groups, next, base, i, ci', cn', cs');
      if !ok {
        return;
      }
      row := row[names[i] := cell];
      i := i + 1;
    }
    assert names[..n] == names;
    assert cells[..n] == cells;
    ok := true;
  }

  /** The state of the row loop of `getResultSet` after `rows`: the tag
      cursor `count` at the start of the next row, a cursor per group, no
      unhandled tag so far, the rows rebuilt so far, and the entries the
      cursors have passed released. */
  predicate Progress(shim: Shim, names: seq<string>, tags: seq<DataType>, g: Groups,
                     rows: seq<Row>, count: nat, ci: nat, cn: nat, cs: nat, cur: Groups)
    requires Consistent(tags, g, |names|)
  {
    && |rows| <= RowsBuilt(tags, |names|)
    && count == RowStart(|rows|, |names|) <= |tags|
    && Cursors(tags, count, ci, cn, cs)
    && NoUnhandled(tags, count)
    && rows == RowsPrefix(names, tags, g, |rows|)
    && cur == Released(shim, g, ci, cn, cs)
  }

  /** One pass of the row loop: the next row, or a failure at an unhandled
      tag among the rows to rebuild. */
  method NextRow(shim: Shim, names: seq<string>, tags: seq<DataType>, g: Groups,
                 rows: seq<Row>, count: nat, ci: nat, cn: nat, cs: nat, cur: Groups)
    returns (ok: bool, rows': seq<Row>, count': nat, ci': nat, cn': nat, cs': nat, cur': Groups)
    requires Consistent(tags, g, |names|)
    requires Progress(shim, names, tags, g, rows, count, ci, cn, cs, cur)
    requires ci < |cur.ints| || cn < |cur.nums| || cs < |cur.strings|
    ensures ok ==> |rows'| == |rows| + 1 && Progress(shim, names, tags, g, rows', count', ci', cn', cs', cur')
    ensures !ok ==> !NoUnhandled(tags, RowStart(RowsBuilt(tags, |names|), |names|))
    ensures cur' == Released(shim, g, ci', cn', cs')
  {
    var n := |names|;
    ghost var total := RowsBuilt(tags, n);
    RowsFit(tags, n);
    MoreRows(tags, g, n, |rows|);
    RowStartMono(|rows| + 1, total, n);
    assert Consistent(tags, g, 1);
    var row;
    ok, row, cur', ci', cn', cs' := BuildRow(shim, names, tags, g, cur, count, ci, cn, cs);
    if !ok {
      NoUnhandledFails(tags, count, n, RowStart(total, n));
      rows', count' := rows, count;
      return;
    }
    NoUnhandledJoin(tags, count, n);
    rows' := rows + [row];
    count' := count + n;
  }

  /** The row loop stops exactly when every row is rebuilt, and every
      cursor then sits at the end of its group. */
  lemma AssemblyDone(shim: Shim, names: seq<string>, tags: seq<DataType>, g: Groups,
                     rows: seq<Row>, count: nat, ci: nat, cn: nat, cs: nat, cur: Groups)
    requires Consistent(tags, g, |names|)
    requires Progress(shim, names, tags, g, rows, count, ci, cn, cs, cur)
    requires !(ci < |cur.ints| || cn < |cur.nums| || cs < |cur.strings|)
    ensures rows == AssembledRows(names, tags, g)
    ensures NoUnhandled(tags, RowStart(RowsBuilt(tags, |names|), |names|))
    ensures ci == |g.ints| && cn == |g.nums| && cs == |g.strings|
  {
    MoreRows(tags, g, |names|, |rows|);
    CountPrefixLe(tags, count, IntClass);
    CountPrefixLe(tags, count, NumClass);
    CountPrefixLe(tags, count, StrClass);
  }

  /** The row loop of `getResultSet`: rows are rebuilt while some group
      still has an unread entry. Ends with every cursor at the end of its
      group, or fails at an unhandled tag. */
  method AssembleRows(shim: Shim, colNames: seq<string>, groups: Groups, colTypes: seq<DataType>)
    returns (ok: bool, rows: seq<Row>, groups': Groups, ci: nat, cn: nat, cs: nat)
    requires Consistent(colTypes, groups, |colNames|)
    ensures ok <==> NoUnhandled(colTypes, RowStart(RowsBuilt(colTypes, |colNames|), |colNames|))
    ensures ok ==> rows == AssembledRows(colNames, colTypes, groups)
    ensures ok ==> ci == |groups.ints| && cn == |groups.nums| && cs == |groups.strings|
    ensures groups' == Released(shim, groups, ci, cn, cs)
  {
    groups' := groups;
    var count: nat := 0;
    ci, cn, cs := 0, 0, 0;
    rows := [];
    while ci < |groups'.ints| || cn < |groups'.nums| || cs < |groups'.strings|
      invariant Progress(shim, colNames, colTypes, groups, rows, count, ci, cn, cs, groups')
      decreases RowsBuilt(colTypes, |colNames|) - |rows|
    {
      ok, rows, count, ci, cn, cs, groups' := NextRow(shim, colNames, colTypes, groups, rows, count, ci, cn, cs, groups');
      if !ok {
        return;
      }
    }
    AssemblyDone(shim, colNames, colTypes, groups, rows, count, ci, cn, cs, groups');
    ok := true;
  }

  /** `getResultSet`. With a kept count it delivers the count; without
      columns, `undefined`; otherwise the rebuilt rows, or a failure on an
      unhandled tag. The current shim releases every entry it reads, so
      after a successful assembly nothing is left to release. */
  method GetResultSet(shim: Shim, rowsAffected: int, colNames: seq<string>, groups: Groups, colTypes: seq<DataType>)
    returns (result: Option<ResultValue>, groups': Groups)
    requires rowsAffected < 0 && |colNames| > 0 ==> Consistent(colTypes, groups, |colNames|)
    ensures result == ResultOf(rowsAffected, colNames, colTypes, groups)
    ensures shim == V010 ==> groups' == groups
    ensures exists ci, cn, cs :: groups' == Released(shim, groups, ci, cn, cs)
    ensures shim == Current && rowsAffected < 0 && |colNames| > 0 && result.Some? ==> AllReleased(groups')
  {
    groups' := groups;
    assert groups' == Released(shim, groups, 0, 0, 0);
    if rowsAffected >= 0 {
      return Some(Affected(rowsAffected)), groups';
    }
    if |colNames| == 0 {
      return Some(NoValue), groups';
    }
    var ok, rows, ci, cn, cs;
    ok, rows, groups', ci, cn, cs := AssembleRows(shim, colNames, groups, colTypes);
    if ok {
      result := Some(RowSet(rows));
      if shim == Current {
        ReleasedAll(groups, ci, cn, cs);
      }
    } else {
      result := None;
    }
  }

  /** Once every cursor has reached the end of its group, the current shim
      has released every entry. */
  lemma ReleasedAll(g: Groups, ci: nat, cn: nat, cs: nat)
    requires ci == |g.ints| && cn == |g.nums| && cs == |g.strings| == |g.lens|
    ensures AllReleased(Released(Current, g, ci, cn, cs))
  {
  }

  lemma NoUnhandledJoin(tags: seq<DataType>, base: nat, n: nat)
    requires base + n <= |tags| && NoUnhandled(tags, base) && NoUnhandled(tags[base..], n)
    ensures NoUnhandled(tags, base + n)
  {
    forall j | base <= j < base + n
      ensures ClassOf(tags[j]) != Unhandled
    {
      assert tags[base..][j - base] == tags[j];
    }
  }

  lemma NoUnhandledFails(tags: seq<DataType>, base: nat, n: nat, m: nat)
    requires base + n <= m <= |tags| && !NoUnhandled(tags[base..], n)
    ensures !NoUnhandled(tags, m)
  {
    var j :| 0 <= j < n && j < |tags[base..]| && ClassOf(tags[base..][j]) == Unhandled;
    assert tags[base..][j] == tags[base + j];
  }

  // ---------------------------------------------------------------------
  // Counting lemmas

  lemma {:induction false} CountAppend(a: seq<DataType>, b: seq<DataType>, k: TypeClass)
    ensures CountClass(a + b, k) == CountClass(a, k) + CountClass(b, k)
    decreases |b|
  {
    if |b| == 0 {
      assert a + b == a;
    } else {
      assert (a + b)[..|a + b| - 1] == a + b[..|b| - 1];
      CountAppend(a, b[..|b| - 1], k);
    }
  }

  /** Reading tag `m` advances exactly the cursor of its class. */
  lemma CountStep(tags: seq<DataType>, m: nat)
    requires m < |tags|
    ensures forall k :: CountClass(tags[..m + 1], k) == CountClass(tags[..m], k) + (if ClassOf(tags[m]) == k then 1 else 0)
  {
    assert tags[..m + 1][..m] == tags[..m];
  }

  lemma CountPrefixLe(tags: seq<DataType>, m: nat, k: TypeClass)
    requires m <= |tags|
    ensures CountClass(tags[..m], k) <= CountClass(tags, k)
  {
    assert tags == tags[..m] + tags[m..];
    CountAppend(tags[..m], tags[m..], k);
  }

  /** A class is counted exactly when some tag of it is present. */
  lemma {:induction false} CountPositive(s: seq<DataType>, k: TypeClass)
    ensures CountClass(s, k) > 0 <==> exists j :: 0 <= j < |s| && ClassOf(s[j]) == k
    decreases |s|
  {
    if |s| > 0 {
      var init := s[..|s| - 1];
      CountPositive(init, k);
      if CountClass(init, k) > 0 {
        var j :| 0 <= j < |init| && ClassOf(init[j]) == k;
        assert s[j] == init[j];
      }
      if exists j :: 0 <= j < |s| && ClassOf(s[j]) == k {
        var j :| 0 <= j < |s| && ClassOf(s[j]) == k;
        if j < |s| - 1 {
          assert init[j] == s[j];
        }
      }
    }
  }

  /** Where row `r` of `n`-column tags starts: `r * n`, written out as a
      sum so that proofs about it stay linear. */
  function RowStart(r: nat, n: nat): nat
  {
    if r == 0 then 0 else RowStart(r - 1, n) + n
  }

  lemma {:induction false} RowStartIsMul(r: nat, n: nat)
    ensures RowStart(r, n) == r * n
  {
    if r > 0 {
      RowStartIsMul(r - 1, n);
    }
  }

  lemma RowStartMono(a: nat, b: nat, n: nat)
    requires a <= b
    ensures RowStart(a, n) <= RowStart(b, n)
  {
    RowStartIsMul(a, n);
    RowStartIsMul(b, n);
    MulMono(a, b, n);
  }

  lemma MulMono(a: nat, b: nat, n: nat)
    requires a <= b
    ensures a * n <= b * n
  {
  }

  /** `a * n <= l` exactly when `a <= l / n`. */
  lemma MulDiv(a: nat, l: nat, n: nat)
    requires n > 0
    ensures a * n <= l <==> a <= l / n
  {
    var q := l / n;
    assert q * n <= l < q * n + n;
    if a <= q {
      MulMono(a, q, n);
    } else {
      MulMono(q + 1, a, n);
    }
  }

  /** The rebuilt rows fit in the tags. */
  lemma RowsFit(tags: seq<DataType>, n: nat)
    requires n > 0 && |tags| % n == 0
    ensures RowStart(RowsBuilt(tags, n), n) <= |tags|
  {
    match LastConsuming(tags)
    case None =>
    case Some(l) =>
      var m := |tags| / n;
      assert |tags| == m * n;
      MulDiv(m, l, n);
      MulMono(l / n + 1, m, n);
      RowStartIsMul(l / n + 1, n);
  }

  /** Some group has an unread entry past the first `m` tags exactly when
      a consuming tag lies at or after `m`. */
  lemma UnreadEntries(tags: seq<DataType>, g: Groups, n: nat, m: nat)
    requires Consistent(tags, g, n) && m <= |tags|
    ensures (CountClass(tags[..m], IntClass) < |g.ints|
             || CountClass(tags[..m], NumClass) < |g.nums|
             || CountClass(tags[..m], StrClass) < |g.strings|)
            <==> exists j :: m <= j < |tags| && Consuming(tags[j])
  {
    var rest := tags[m..];
    assert tags == tags[..m] + rest;
    CountAppend(tags[..m], rest, IntClass);
    CountAppend(tags[..m], rest, NumClass);
    CountAppend(tags[..m], rest, StrClass);
    CountPositive(rest, IntClass);
    CountPositive(rest, NumClass);
    CountPositive(rest, StrClass);
    if exists j :: m <= j < |tags| && Consuming(tags[j]) {
      var j :| m <= j < |tags| && Consuming(tags[j]);
      assert rest[j - m] == tags[j];
    }
    if exists j :: 0 <= j < |rest| && Consuming(rest[j]) {
      var j :| 0 <= j < |rest| && Consuming(rest[j]);
      assert tags[m + j] == rest[j];
    }
  }

  /** A consuming tag lies at or after the start of row `done` exactly when
      row `done` is one of the rows rebuilt. */
  lemma ConsumingAfter(tags: seq<DataType>, n: nat, done: nat)
    requires n > 0
    ensures (exists j :: RowStart(done, n) <= j < |tags| && Consuming(tags[j])) <==> done < RowsBuilt(tags, n)
  {
    RowStartIsMul(done, n);
    var m := RowStart(done, n);
    match LastConsuming(tags)
    case None =>
    case Some(l) =>
      MulDiv(done, l, n);
  }

  /** The loop of `getResultSet` goes on exactly while rows remain to be
      rebuilt: some group has an unread entry exactly when a consuming tag
      lies at or after the cursor. */
  lemma MoreRows(tags: seq<DataType>, g: Groups, n: nat, done: nat)
    requires Consistent(tags, g, n) && RowStart(done, n) <= |tags|
    ensures (CountClass(tags[..RowStart(done, n)], IntClass) < |g.ints|
             || CountClass(tags[..RowStart(done, n)], NumClass) < |g.nums|
             || CountClass(tags[..RowStart(done, n)], StrClass) < |g.strings|)
            <==> done < RowsBuilt(tags, n)
  {
    UnreadEntries(tags, g, n, RowStart(done, n));
    ConsumingAfter(tags, n, done);
  }

  // ---------------------------------------------------------------------
  // Split and reassemble

  /** The script value a fetched cell stands for. */
  function Decoded(c: NativeCell): ResultCell
  {
    if c.isNull then RNull
    else match ClassOf(c.dataType)
      case IntClass => RInt(c.intValue)
      case NumClass => RNum(c.numValue)
      case StrClass => if c.dataType == ABinary then RBlob(c.bytes) else RText(c.bytes)
      case _ => RNull
  }

  /** The cells of one fetched row as script values. */
  function DecodedRow(row: seq<Option<NativeCell>>): (cells: seq<ResultCell>)
    ensures |cells| == |row|
  {
    seq(|row|, i requires 0 <= i < |row| => if row[i].Some? then Decoded(row[i].value) else RNull)
  }

  /** A row every cell of which is null. */
  predicate NullRow(row: seq<Option<NativeCell>>)
  {
    forall i :: 0 <= i < |row| ==> row[i].Some? && row[i].value.isNull
  }

  /** Splitting fetchable cells gives one tag per cell, as many tags of
      each class as its group has entries, a length for every string, and
      only live entries. */
  lemma {:induction false} SplitCounts(cells: seq<Option<NativeCell>>)
    requires AllFetchable(cells)
    ensures |Tags(cells)| == |cells|
    ensures forall j :: 0 <= j < |cells| ==> Tags(cells)[j] == Tag(cells[j].value)
    ensures Consistent(Tags(cells), SplitGroups(cells), 1)
    decreases |cells|
  {
    if |cells| > 0 {
      var init := cells[..|cells| - 1];
      var last := cells[|cells| - 1].value;
      assert AllFetchable(init) by {
        forall j | 0 <= j < |init| ensures init[j].Some? && Handled(init[j].value) {
          assert init[j] == cells[j];
        }
      }
      SplitCounts(init);
      var t := Tags(init);
      assert Tags(cells) == t + [Tag(last)];
      forall j | 0 <= j < |cells| ensures Tags(cells)[j] == Tag(cells[j].value) {
        if j < |init| {
          assert cells[j] == init[j];
        }
      }
      assert (t + [Tag(last)])[..|t|] == t;
    }
  }

  /** Fetchable cells give one tag each. */
  lemma {:induction false} TagsLength(cells: seq<Option<NativeCell>>)
    requires AllFetchable(cells)
    ensures |Tags(cells)| == |cells|
    decreases |cells|
  {
    if |cells| > 0 {
      var init := cells[..|cells| - 1];
      assert AllFetchable(init) by {
        forall j | 0 <= j < |init| ensures init[j].Some? && Handled(init[j].value) {
          assert init[j] == cells[j];
        }
      }
      TagsLength(init);
    }
  }

  /** Every tag position reads back the cell it was split from. */
  lemma {:induction false} CellAtSplit(cells: seq<Option<NativeCell>>, j: nat)
    requires AllFetchable(cells) && j < |cells|
    ensures (TagsLength(cells); CellAt(Tags(cells), SplitGroups(cells), j) == Decoded(cells[j].value))
    decreases |cells|
  {
    var init := cells[..|cells| - 1];
    assert init + [cells[|cells| - 1]] == cells;
    assert AllFetchable(init) by {
      forall i | 0 <= i < |init| ensures init[i].Some? && Handled(init[i].value) {
        assert init[i] == cells[i];
      }
    }
    SplitCounts(cells);
    SplitCounts(init);
    if j == |init| {
      CellAtLast(init, cells[|cells| - 1].value);
    } else {
      CellAtSplit(init, j);
      var last := cells[|cells| - 1];
      CellAtExtend(Tags(init), SplitGroups(init), Tags(cells), if last.Some? then Stored(last.value) else NoGroups, j);
      assert cells[j] == init[j];
    }
  }

  /** The cell split last is read back at the last tag position. */
  lemma CellAtLast(init: seq<Option<NativeCell>>, c: NativeCell)
    requires AllFetchable(init) && Handled(c)
    requires |Tags(init)| == |init| && Consistent(Tags(init), SplitGroups(init), 1)
    ensures |Tags(init + [Some(c)])| == |init| + 1
    ensures CellAt(Tags(init + [Some(c)]), SplitGroups(init + [Some(c)]), |init|) == Decoded(c)
  {
    var cells := init + [Some(c)];
    assert cells[..|cells| - 1] == init;
    var t := Tags(init);
    var tags := Tags(cells);
    assert tags == t + [Tag(c)];
    assert tags[..|init|] == t;
    var gi := SplitGroups(init);
    var g := SplitGroups(cells);
    assert g == AppendGroups(gi, Stored(c));
    if !c.isNull {
      match ClassOf(c.dataType)
      case IntClass =>
        assert g.ints[|gi.ints|] == Some(c.intValue);
      case NumClass =>
        assert g.nums[|gi.nums|] == Some(c.numValue);
      case StrClass =>
        assert g.strings[|gi.strings|] == Some(c.bytes);
        assert g.lens[|gi.strings|] == Some(|c.bytes|);
      case _ =>
    }
  }

  /** Appending cells leaves the earlier tag positions reading the same. */
  lemma CellAtExtend(t: seq<DataType>, gi: Groups, tags: seq<DataType>, h: Groups, j: nat)
    requires j < |t| <= |tags| && tags[..|t|] == t
    requires Consistent(t, gi, 1)
    ensures CellAt(tags, AppendGroups(gi, h), j) == CellAt(t, gi, j)
  {
    assert tags[..j] == t[..j];
    assert tags[j] == t[j];
    CountStep(t, j);
    CountPrefixLe(t, j + 1, ClassOf(t[j]));
  }

  /** The cells of all rows of `n` cells: `RowStart(|rows|, n)` of them, the
      cell of row `r` and column `i` at `RowStart(r, n) + i`. */
  lemma {:induction false} FlattenIndex(rows: seq<seq<Option<NativeCell>>>, n: nat, r: nat, i: nat)
    requires forall k :: 0 <= k < |rows| ==> |rows[k]| == n
    requires r < |rows| && i < n
    ensures |Flatten(rows)| == RowStart(|rows|, n)
    ensures RowStart(r, n) + i < |Flatten(rows)| && Flatten(rows)[RowStart(r, n) + i] == rows[r][i]
    decreases |rows|
  {
    var init := rows[..|rows| - 1];
    FlattenLength(rows, n);
    FlattenLength(init, n);
    if r < |init| {
      FlattenIndex(init, n, r, i);
    }
  }

  lemma {:induction false} FlattenLength(rows: seq<seq<Option<NativeCell>>>, n: nat)
    requires forall k :: 0 <= k < |rows| ==> |rows[k]| == n
    ensures |Flatten(rows)| == RowStart(|rows|, n)
    decreases |rows|
  {
    if |rows| > 0 {
      FlattenLength(rows[..|rows| - 1], n);
    }
  }

  lemma {:induction false} RowsPrefixIndex(names: seq<string>, tags: seq<DataType>, g: Groups, k: nat, r: nat)
    requires RowStart(k, |names|) <= |tags| && r < k
    ensures RowStart(r, |names|) + |names| <= |tags|
    ensures RowsPrefix(names, tags, g, k)[r] == RowObject(names, RowCells(tags, g, RowStart(r, |names|), |names|))
    decreases k
  {
    if r < k - 1 {
      RowsPrefixIndex(names, tags, g, k - 1, r);
    }
  }

  /** A cell's tag is consuming exactly when the cell is not null. */
  lemma ConsumingIffLive(cells: seq<Option<NativeCell>>, j: nat)
    requires AllFetchable(cells) && j < |cells|
    ensures (TagsLength(cells); Consuming(Tags(cells)[j]) <==> !cells[j].value.isNull)
  {
    SplitCounts(cells);
  }

  lemma RowStartMod(r: nat, n: nat)
    requires n > 0
    ensures RowStart(r, n) % n == 0
  {
    RowStartIsMul(r, n);
    MulMod(r, n);
  }

  lemma MulMod(r: nat, n: nat)
    requires n > 0
    ensures (r * n) % n == 0
  {
    var y := r * n;
    MulDiv(r, y, n);
    MulDiv(r + 1, y, n);
    assert (r + 1) * n == y + n;
    assert y / n == r;
    assert y == (y / n) * n + y % n;
  }


  lemma RowStartMonoInv(a: nat, b: nat, n: nat)
    requires n > 0 && RowStart(a, n) <= RowStart(b, n)
    ensures a <= b
  {
    if a > b {
      RowStartMono(b + 1, a, n);
    }
  }

  /** Column `i` of row `r` of the assembly decodes the fetched cell. */
  lemma CellDecodes(res: NativeResult, r: nat, i: nat)
    requires Answers(res) && res.numCols > 0 && AllFetchable(Flatten(res.rows)) && r < |res.rows|
    requires i < |res.columnNames|
    ensures
      var cells := Flatten(res.rows);
      var n := |res.columnNames|;
      (TagsLength(cells); FlattenLength(res.rows, n); RowStartMono(r + 1, |res.rows|, n);
       RowCells(Tags(cells), SplitGroups(cells), RowStart(r, n), n)[i] == DecodedRow(res.rows[r])[i])
  {
    var n := |res.columnNames|;
    RowInFlatten(res, r, i);
    CellDecodesFrom(Flatten(res.rows), res.rows[r], RowStart(r, n), n, i);
  }

  /** Cell `i` of row `r` sits at `RowStart(r, n) + i` of the flattened
      cells. */
  lemma RowInFlatten(res: NativeResult, r: nat, i: nat)
    requires Answers(res) && res.numCols > 0 && r < |res.rows| && i < |res.columnNames|
    ensures var n := |res.columnNames|;
      && RowStart(r, n) + n <= |Flatten(res.rows)|
      && Flatten(res.rows)[RowStart(r, n) + i] == res.rows[r][i]
  {
    var n := |res.columnNames|;
    FlattenIndex(res.rows, n, r, i);
    FlattenLength(res.rows, n);
    RowStartMono(r + 1, |res.rows|, n);
  }

  /** The same for any fetchable cells holding the row at `base`. */
  lemma CellDecodesFrom(cells: seq<Option<NativeCell>>, row: seq<Option<NativeCell>>, base: nat, n: nat, i: nat)
    requires AllFetchable(cells) && base + n <= |cells| && i < n && i < |row| && cells[base + i] == row[i]
    ensures (TagsLength(cells); RowCells(Tags(cells), SplitGroups(cells), base, n)[i] == DecodedRow(row)[i])
  {
    TagsLength(cells);
    CellAtSplit(cells, base + i);
    RowCellDecodes(Tags(cells), SplitGroups(cells), base, n, i, row);
  }

  /** A rebuilt cell that reads back the fetched one decodes it. */
  lemma RowCellDecodes(tags: seq<DataType>, g: Groups, base: nat, n: nat, i: nat, row: seq<Option<NativeCell>>)
    requires base + n <= |tags| && i < n && i < |row| && row[i].Some?
    requires CellAt(tags, g, base + i) == Decoded(row[i].value)
    ensures RowCells(tags, g, base, n)[i] == DecodedRow(row)[i]
  {
  }

  /** Row `r` of the assembly decodes fetched row `r`. */
  lemma RowDecodes(res: NativeResult, r: nat)
    requires Answers(res) && res.numCols > 0 && AllFetchable(Flatten(res.rows)) && r < |res.rows|
    ensures
      var cells := Flatten(res.rows);
      var n := |res.columnNames|;
      (TagsLength(cells); FlattenLength(res.rows, n); RowStartMono(r + 1, |res.rows|, n);
       RowCells(Tags(cells), SplitGroups(cells), RowStart(r, n), n) == DecodedRow(res.rows[r]))
  {
    var cells := Flatten(res.rows);
    var n := |res.columnNames|;
    SplitCounts(cells);
    FlattenLength(res.rows, n);
    RowStartMono(r + 1, |res.rows|, n);
    var built := RowCells(Tags(cells), SplitGroups(cells), RowStart(r, n), n);
    forall i | 0 <= i < n ensures built[i] == DecodedRow(res.rows[r])[i] {
      CellDecodes(res, r, i);
    }
  }

  /** A fetched row lies wholly after the last live cell exactly when it is
      not rebuilt, and then it is a row of nulls. */
  lemma DroppedRowNull(res: NativeResult, r: nat)
    requires Answers(res) && res.numCols > 0 && AllFetchable(Flatten(res.rows)) && r < |res.rows|
    requires (TagsLength(Flatten(res.rows)); RowsBuilt(Tags(Flatten(res.rows)), |res.columnNames|) <= r)
    ensures NullRow(res.rows[r])
  {
    var cells := Flatten(res.rows);
    var n := |res.columnNames|;
    SplitCounts(cells);
    var tags := Tags(cells);
    var kept := RowsBuilt(tags, n);
    forall i | 0 <= i < |res.rows[r]|
      ensures res.rows[r][i].Some? && res.rows[r][i].value.isNull
    {
      FlattenIndex(res.rows, n, r, i);
      var j := RowStart(r, n) + i;
      ConsumingIffLive(cells, j);
      RowStartMono(kept, r, n);
      match LastConsuming(tags)
      case None =>
      case Some(l) =>
        MulDiv(kept, l, n);
        RowStartIsMul(kept, n);
    }
  }

  /** The last rebuilt row holds the last live cell. */
  lemma LastKeptLive(res: NativeResult)
    requires Answers(res) && res.numCols > 0 && AllFetchable(Flatten(res.rows))
    requires (TagsLength(Flatten(res.rows)); var kept := RowsBuilt(Tags(Flatten(res.rows)), |res.columnNames|);
              0 < kept <= |res.rows|)
    ensures (TagsLength(Flatten(res.rows)); !NullRow(res.rows[RowsBuilt(Tags(Flatten(res.rows)), |res.columnNames|) - 1]))
  {
    var cells := Flatten(res.rows);
    var n := |res.columnNames|;
    SplitCounts(cells);
    var tags := Tags(cells);
    var kept := RowsBuilt(tags, n);
    var l := LastConsuming(tags).value;
    var r := kept - 1;
    MulDiv(r, l, n);
    MulDiv(kept, l, n);
    RowStartIsMul(r, n);
    RowStartIsMul(kept, n);
    var i := l - RowStart(r, n);
    FlattenIndex(res.rows, n, r, i);
    ConsumingIffLive(cells, l);
  }

  /** Fetching and then assembling gives back every fetched row but the
      trailing rows of nulls only, each as the object mapping the column
      names to the row's decoded cells; the last row kept holds a non-null
      cell. */
  lemma FetchThenAssemble(res: NativeResult)
    requires Answers(res) && res.numCols > 0 && AllFetchable(Flatten(res.rows))
    ensures
      var cells := Flatten(res.rows);
      var n := |res.columnNames|;
      var kept := RowsBuilt(Tags(cells), n);
      && Consistent(Tags(cells), SplitGroups(cells), n)
      && kept <= |res.rows|
      && ResultOf(-1, res.columnNames, Tags(cells), SplitGroups(cells))
         == Some(RowSet(seq(kept, r requires 0 <= r < kept => RowObject(res.columnNames, DecodedRow(res.rows[r])))))
      && (forall r :: kept <= r < |res.rows| ==> NullRow(res.rows[r]))
      && (kept > 0 ==> !NullRow(res.rows[kept - 1]))
  {
    var cells := Flatten(res.rows);
    var n := |res.columnNames|;
    SplitCounts(cells);
    FlattenLength(res.rows, n);
    var tags := Tags(cells);
    var g := SplitGroups(cells);
    RowStartMod(|res.rows|, n);
    assert Consistent(tags, g, n);
    var kept := RowsBuilt(tags, n);
    RowsFit(tags, n);
    RowStartMonoInv(kept, |res.rows|, n);
    var want := seq(kept, r requires 0 <= r < kept => RowObject(res.columnNames, DecodedRow(res.rows[r])));
    var got := AssembledRows(res.columnNames, tags, g);
    forall r | 0 <= r < kept
      ensures got[r] == want[r]
    {
      RowsPrefixIndex(res.columnNames, tags, g, kept, r);
      RowDecodes(res, r);
    }
    assert got == want;
    assert NoUnhandled(tags, RowStart(kept, n)) by {
      forall j | 0 <= j < RowStart(kept, n) && j < |tags| ensures ClassOf(tags[j]) != Unhandled {
        assert Handled(cells[j].value);
      }
    }
    forall r | kept <= r < |res.rows|
      ensures NullRow(res.rows[r])
    {
      DroppedRowNull(res, r);
    }
    if kept > 0 {
      LastKeptLive(res);
    }
  }
}
