/** Shared vocabulary of the SQL Anywhere binding: the native data-type
    tags, the binding's own error codes, script values as the managed
    runtime hands them over, and a few small helpers (decimal rendering of
    integers, UTF-8 encoding, 32-bit unsigned arithmetic). */
module Common {

  datatype Option<T> = None | Some(value: T)

  /** A value, or one of the binding's own error codes. */
  datatype Result<T> = Ok(value: T) | Err(code: int)

  type byte = x: int | 0 <= x < 256

  /** The two runtime shims of the binding: `Current` is the code compiled
      for Node.js newer than 0.10 (sqlanywhere.cpp, utils.cpp), `V010` the
      code compiled for Node.js 0.10 (sqlanywhere_v0_10.cpp, utils_v0_10.cpp). */
  datatype Shim = Current | V010

  /** The `a_sqlany_data_type` enumeration of the native C API, in declaration
      order (so `AInvalidType` is the zero value a cleared struct holds).
      `AFloat` exists only in API version 5 and later. */
  datatype DataType =
    | AInvalidType | ABinary | AString | ADouble | AVal64 | AUVal64
    | AVal32 | AUVal32 | AVal16 | AUVal16 | AVal8 | AUVal8 | AFloat

  /** The three value groups a fetched cell is stored in, by its tag. */
  datatype TypeClass = IntClass | NumClass | StrClass | NullMark | Unhandled

  /** How result assembly and fetch classify a tag: 8/16-bit and signed
      32-bit integers are kept as integers; unsigned 32-bit, 64-bit and
      double values become numbers; strings and binaries share one group;
      `AInvalidType` marks a NULL cell; anything else (`AFloat`) is not
      handled. */
  function ClassOf(t: DataType): (c: TypeClass)
    ensures c == NullMark <==> t == AInvalidType
    ensures c == Unhandled <==> t == AFloat
    ensures c == StrClass <==> t in {ABinary, AString}
  {
    match t
    case AInvalidType => NullMark
    case AVal32 | AVal16 | AUVal16 | AVal8 | AUVal8 => IntClass
    case AUVal32 | AUVal64 | AVal64 | ADouble => NumClass
    case ABinary | AString => StrClass
    case AFloat => Unhandled
  }

  // The binding's own error codes (errors.h).
  const ErrInvalidObject: int := -2001
  const ErrInvalidArguments: int := -2002
  const ErrAlreadyConnected: int := -2003
  const ErrInitializingDbcapi: int := -2004
  const ErrNotConnected: int := -2005
  const ErrBindingParameters: int := -2006
  const ErrGeneralError: int := -2007
  const ErrResultSet: int := -2008
  const ErrNoWideStatements: int := -2009

  /** The native-API protocol versions the binding asks for. */
  const ApiVersion2: int := 2
  const ApiVersion4: int := 4

  /** `sizeof(char *)` on the 64-bit platforms the binding is built for. */
  const PointerSize: nat := 8

  /** A double-precision number, kept opaque: `OfInt32` is the exact image
      of a 32-bit integer, `Bits` any other value by its IEEE-754 pattern. */
  datatype Double = OfInt32(i: int) | Bits(pattern: bv64)

  /** A value of the managed scripting runtime, as far as the binding
      inspects it. `Int32` holds exactly the numbers V8 reports as 32-bit
      integers; `Number` holds every other number. `Object` is a plain
      object with its own enumerable properties in order (connection
      options, whose values the binding reads as strings). */
  datatype ScriptValue =
    | Undefined
    | Null
    | Bool(b: bool)
    | Int32(i: int)
    | Number(d: Double)
    | Str(s: string)
    | Buffer(bytes: seq<byte>)
    | Array(items: seq<ScriptValue>)
    | Function
    | Object(props: seq<(string, string)>)
  {
    predicate IsNumber() { Int32? || Number? }

    /** V8's `IsObject()`: arrays, buffers, functions and plain objects. */
    predicate IsObject() { Buffer? || Array? || Function? || Object? }

    /** V8's `NumberValue()` for a number. */
    function NumberValue(): Double
      requires IsNumber()
    {
      if Int32? then OfInt32(i) else d
    }
  }

  /** Element `i` of a script array, `undefined` past its end (V8's
      `Array::Get`). A value that is not an array reads as empty. */
  function ElementAt(v: ScriptValue, i: nat): (r: ScriptValue)
    ensures v.Array? && i < |v.items| ==> r == v.items[i]
    ensures !(v.Array? && i < |v.items|) ==> r == Undefined
  {
    if v.Array? && i < |v.items| then v.items[i] else Undefined
  }

  /** The value groups a request keeps its native values in: 32-bit
      integers, doubles, and byte strings with their lengths kept in a
      parallel list. An entry is `None` once it has been released. The
      current shim keeps these as four vectors of the request; the Node.js
      0.10 shim keeps them inside an `ExecuteData`. */
  datatype Groups = Groups(
    ints: seq<Option<int>>,
    nums: seq<Option<Double>>,
    strings: seq<Option<seq<byte>>>,
    lens: seq<Option<nat>>)

  const NoGroups: Groups := Groups([], [], [], [])

  /** `h`'s entries added after `g`'s, group by group. */
  function AppendGroups(g: Groups, h: Groups): Groups
  {
    Groups(g.ints + h.ints, g.nums + h.nums, g.strings + h.strings, g.lens + h.lens)
  }

  lemma AppendGroupsAssoc(a: Groups, b: Groups, c: Groups)
    ensures AppendGroups(AppendGroups(a, b), c) == AppendGroups(a, AppendGroups(b, c))
  {
  }

  /** The per-request storage of the Node.js 0.10 shim: the value groups,
      the null flags added for null bind values, and the number of
      wide-insert columns whose per-row arrays it owns. (The class itself is
      not part of this model; it is described by what is added to it.) */
  datatype ExecuteData = ExecuteData(groups: Groups, nullFlags: seq<bool>, columnArrays: nat)

  const EmptyExecuteData: ExecuteData := ExecuteData(NoGroups, [], 0)

  // ---------------------------------------------------------------------
  // 32-bit unsigned counters

  const U32Modulus: int := 0x1_0000_0000

  /** `x--` on an `unsigned` (32-bit) variable. */
  function DecU32(x: int): (r: int)
    requires 0 <= x < U32Modulus
    ensures 0 <= r < U32Modulus
    ensures x > 0 ==> r == x - 1
    ensures x == 0 ==> r == U32Modulus - 1
  {
    (x - 1) % U32Modulus
  }

  /** `x++` on an `unsigned` (32-bit) variable. */
  function IncU32(x: int): (r: int)
    requires 0 <= x < U32Modulus
    ensures 0 <= r < U32Modulus
    ensures x < U32Modulus - 1 ==> r == x + 1
    ensures x == U32Modulus - 1 ==> r == 0
  {
    (x + 1) % U32Modulus
  }

  // ---------------------------------------------------------------------
  // Decimal rendering, as `std::ostringstream << int` writes it

  function DigitChar(d: int): (c: char)
    requires 0 <= d < 10
    ensures '0' <= c <= '9'
  {
    "0123456789"[d]
  }

  function DigitValue(c: char): int
  {
    if '0' <= c <= '9' then (c as int) - ('0' as int) else 0
  }

  predicate IsDigits(s: string)
  {
    |s| > 0 && forall i :: 0 <= i < |s| ==> '0' <= s[i] <= '9'
  }

  function NatToString(n: nat): (s: string)
    ensures IsDigits(s)
    decreases n
  {
    if n < 10 then [DigitChar(n)] else NatToString(n / 10) + [DigitChar(n % 10)]
  }

  function IntToString(n: int): (s: string)
    ensures |s| > 0 && ' ' !in s
  {
    if n < 0 then "-" + NatToString(-n) else NatToString(n)
  }

  /** Reads a run of decimal digits back (the partner of `NatToString`). */
  function ParseNat(s: string): nat
    decreases |s|
  {
    if |s| == 0 then 0
    else ParseNat(s[..|s| - 1]) * 10 + (if '0' <= s[|s| - 1] <= '9' then DigitValue(s[|s| - 1]) else 0)
  }

  /** Reads an optionally negative decimal integer back. */
  function ParseInt(s: string): int
  {
    if |s| > 0 && s[0] == '-' then 0 - (ParseNat(s[1..]) as int) else ParseNat(s) as int
  }

  lemma {:induction false} ParseNatOfNatToString(n: nat)
    ensures ParseNat(NatToString(n)) == n
    decreases n
  {
    if n >= 10 {
      var s := NatToString(n);
      var d := DigitChar(n % 10);
      assert s == NatToString(n / 10) + [d];
      assert s[..|s| - 1] == NatToString(n / 10);
      ParseNatOfNatToString(n / 10);
      assert DigitValue(d) == n % 10 by {
        assert "0123456789"[n % 10] as int == '0' as int + n % 10;
      }
    } else {
      var s := NatToString(n);
      assert s[..0] == [];
      assert "0123456789"[n] as int == '0' as int + n;
    }
  }

  /** A negative number is written as `-` and its magnitude. */
  lemma ParseNegative(n: int)
    requires n < 0
    ensures ParseInt(IntToString(n)) == n
  {
    var t := NatToString(-n);
    var s := "-" + t;
    assert IntToString(n) == s;
    assert s[0] == '-' && s[1..] == t;
    ParseNatOfNatToString(-n);
    assert ParseInt(s) == 0 - (ParseNat(t) as int);
  }

  /** Any other number is written as its digits. */
  lemma ParseNonNegative(n: int)
    requires n >= 0
    ensures ParseInt(IntToString(n)) == n
  {
    var s := NatToString(n);
    assert IntToString(n) == s;
    assert '0' <= s[0] <= '9';
    ParseNatOfNatToString(n);
  }

  /** Decimal rendering round-trips: every integer is read back from the
      text the error formatter writes for it. */
  lemma ParseIntOfIntToString(n: int)
    ensures ParseInt(IntToString(n)) == n
  {
    if n < 0 {
      ParseNegative(n);
    } else {
      ParseNonNegative(n);
    }
  }

  // ---------------------------------------------------------------------
  // UTF-8, as `String::Utf8Value` produces it

  /** The UTF-8 encoding of one Unicode scalar value. */
  function Utf8Char(c: char): (b: seq<byte>)
    ensures 1 <= |b| <= 4
    ensures (c as int < 0x80) <==> |b| == 1
  {
    var n := c as int;
    if n < 0x80 then [n]
    else if n < 0x800 then [0xC0 + n / 0x40, 0x80 + n % 0x40]
    else if n < 0x10000 then [0xE0 + n / 0x1000, 0x80 + (n / 0x40) % 0x40, 0x80 + n % 0x40]
    else [0xF0 + (n / 0x40000) % 8, 0x80 + (n / 0x1000) % 0x40, 0x80 + (n / 0x40) % 0x40, 0x80 + n % 0x40]
  }

  /** The UTF-8 encoding of a string: one to four bytes per character. */
  function Utf8(s: string): (b: seq<byte>)
    ensures |s| <= |b| <= 4 * |s|
    decreases |s|
  {
    if |s| == 0 then [] else Utf8Char(s[0]) + Utf8(s[1..])
  }

  lemma {:induction false} Utf8Append(s: string, t: string)
    ensures Utf8(s + t) == Utf8(s) + Utf8(t)
    decreases |s|
  {
    if |s| > 0 {
      assert (s + t)[1..] == s[1..] + t;
      Utf8Append(s[1..], t);
    } else {
      assert s + t == t;
    }
  }
}
