/** Connection strings. An options object is flattened to `key=value`
    pairs joined by `;` (`HashToString`), and `connect` builds the string
    it hands to the native connect from the constructor's fragment, the
    call's fragment and a fixed character-set option. A reader that splits
    such a string at `;` and each piece at its first `=` is the partner
    used to state what the builders produce. */
module ConnString {
  import opened Common
  import opened ArgDispatch

  function Pair(kv: (string, string)): string
  {
    kv.0 + "=" + kv.1
  }

  /** The pairs in property order, joined by `;`, with no leading or
      trailing separator. */
  function Joined(props: seq<(string, string)>): string
    decreases |props|
  {
    if |props| == 0 then ""
    else if |props| == 1 then Pair(props[0])
    else Pair(props[0]) + ";" + Joined(props[1..])
  }

  lemma {:induction false} JoinedSnoc(props: seq<(string, string)>, kv: (string, string))
    requires |props| > 0
    ensures Joined(props + [kv]) == Joined(props) + ";" + Pair(kv)
    decreases |props|
  {
    var q := props + [kv];
    if |props| == 1 {
      assert q[1..] == [kv];
    } else {
      assert q[1..] == props[1..] + [kv];
      JoinedSnoc(props[1..], kv);
    }
  }

  /** `HashToString`: walks the properties in order, writing `;` before
      every pair but the first. */
  method HashToString(props: seq<(string, string)>) returns (s: string)
    ensures s == Joined(props)
  {
    s := "";
    var first := true;
    for i := 0 to |props|
      invariant first <==> i == 0
      invariant s == Joined(props[..i])
    {
      if !first {
        s := s + ";";
      }
      first := false;
      s := s + props[i].0 + "=" + props[i].1;
      assert props[..i + 1] == props[..i] + [props[i]];
      if i > 0 {
        JoinedSnoc(props[..i], props[i]);
      }
    }
    assert props[..|props|] == props;
  }

  // ---------------------------------------------------------------------
  // Reading a connection string back

  /** Index of the first `c` in `s`, or `|s|` when there is none. */
  function FirstIndex(s: string, c: char): (k: nat)
    ensures k <= |s|
    ensures k < |s| ==> s[k] == c
    ensures forall i :: 0 <= i < k ==> s[i] != c
    decreases |s|
  {
    if |s| == 0 then 0 else if s[0] == c then 0 else 1 + FirstIndex(s[1..], c)
  }

  lemma FirstIndexAppend(a: string, t: string, c: char)
    ensures FirstIndex(a, c) < |a| ==> FirstIndex(a + t, c) == FirstIndex(a, c)
    ensures FirstIndex(a, c) == |a| ==> FirstIndex(a + t, c) == |a| + FirstIndex(t, c)
  {
    var s := a + t;
    forall i | 0 <= i < |a| ensures s[i] == a[i] {}
    forall i | 0 <= i < |t| ensures s[|a| + i] == t[i] {}
  }

  /** The pieces of `s` between `;` separators. */
  function Pieces(s: string): (ps: seq<string>)
    ensures |ps| > 0
    decreases |s|
  {
    var k := FirstIndex(s, ';');
    if k == |s| then [s] else [s[..k]] + Pieces(s[k + 1..])
  }

  /** `FirstIndex` is characterised by its contract: the first position
      holding `c`, or the length. */
  lemma {:induction false} FirstIndexIs(s: string, c: char, k: nat)
    requires k <= |s| && (k < |s| ==> s[k] == c)
    requires forall i :: 0 <= i < k ==> s[i] != c
    ensures FirstIndex(s, c) == k
    decreases |s|
  {
    if |s| > 0 && s[0] != c {
      var t := s[1..];
      forall i | 0 <= i < k - 1 ensures t[i] != c {
        assert t[i] == s[i + 1];
      }
      FirstIndexIs(t, c, k - 1);
    }
  }

  /** `a + ";" + b` is first cut at the separator when `a` holds no `;`. */
  lemma CutAtSeparator(a: string, b: string)
    requires FirstIndex(a, ';') == |a|
    ensures var s := a + ";" + b; FirstIndex(s, ';') == |a| && s[..|a|] == a && s[|a| + 1..] == b
  {
    var s := a + ";" + b;
    forall i | 0 <= i < |a| ensures s[i] != ';' {
      assert s[i] == a[i];
    }
    FirstIndexIs(s, ';', |a|);
    assert s[..|a|] == a;
    assert s[|a| + 1..] == b;
  }

  /** Cutting `a + ";" + b` at a position inside `a`. */
  lemma CutSlices(a: string, b: string, k: nat)
    requires k < |a|
    ensures (a + ";" + b)[..k] == a[..k]
    ensures (a + ";" + b)[k + 1..] == a[k + 1..] + ";" + b
  {
    var s := a + ";" + b;
    var r := a[k + 1..] + ";" + b;
    assert |s[k + 1..]| == |r|;
    forall j | 0 <= j < |r| ensures s[k + 1..][j] == r[j] {
      if j < |a| - k - 1 {
        assert r[j] == a[k + 1 + j];
      }
    }
  }

  /** `a + ";" + b` is first cut inside `a` when `a` holds a `;`. */
  lemma CutInside(a: string, b: string)
    requires FirstIndex(a, ';') < |a|
    ensures var s := a + ";" + b; var k := FirstIndex(a, ';');
      FirstIndex(s, ';') == k && s[..k] == a[..k] && s[k + 1..] == a[k + 1..] + ";" + b
  {
    var s := a + ";" + b;
    var k := FirstIndex(a, ';');
    assert s == a + (";" + b);
    forall i | 0 <= i <= k ensures s[i] == a[i] {
    }
    FirstIndexIs(s, ';', k);
    CutSlices(a, b, k);
  }

  /** Splitting at `;` undoes joining with `;`, whatever the two halves
      hold. */
  lemma {:induction false} PiecesJoin(a: string, b: string)
    ensures Pieces(a + ";" + b) == Pieces(a) + Pieces(b)
    decreases |a|
  {
    var s := a + ";" + b;
    var k := FirstIndex(a, ';');
    if k == |a| {
      CutAtSeparator(a, b);
      assert Pieces(s) == [a] + Pieces(b);
    } else {
      CutInside(a, b);
      var rest := a[k + 1..];
      PiecesJoin(rest, b);
      calc {
        Pieces(s);
        [a[..k]] + Pieces(rest + ";" + b);
        [a[..k]] + (Pieces(rest) + Pieces(b));
        ([a[..k]] + Pieces(rest)) + Pieces(b);
      }
    }
  }

  /** A piece read as a pair: the key up to the first `=`, the value
      after it. */
  function SplitPair(p: string): (string, string)
  {
    var k := FirstIndex(p, '=');
    if k == |p| then (p, "") else (p[..k], p[k + 1..])
  }

  /** The pairs of a list of pieces; empty pieces are skipped. */
  function PairsOf(ps: seq<string>): seq<(string, string)>
    decreases |ps|
  {
    if |ps| == 0 then []
    else (if ps[0] == "" then [] else [SplitPair(ps[0])]) + PairsOf(ps[1..])
  }

  lemma {:induction false} PairsOfAppend(x: seq<string>, y: seq<string>)
    ensures PairsOf(x + y) == PairsOf(x) + PairsOf(y)
    decreases |x|
  {
    if |x| > 0 {
      assert (x + y)[1..] == x[1..] + y;
      PairsOfAppend(x[1..], y);
    } else {
      assert x + y == y;
    }
  }

  /** The options a connection string holds, in order. */
  function Options(s: string): seq<(string, string)>
  {
    PairsOf(Pieces(s))
  }

  /** Options of two strings joined by `;` are the options of the first
      followed by those of the second. */
  lemma OptionsJoin(a: string, b: string)
    ensures Options(a + ";" + b) == Options(a) + Options(b)
  {
    PiecesJoin(a, b);
    PairsOfAppend(Pieces(a), Pieces(b));
  }

  /** A pair whose key holds no `;` or `=` and whose value holds no `;`. */
  predicate PlainPair(kv: (string, string))
  {
    ';' !in kv.0 && '=' !in kv.0 && ';' !in kv.1
  }

  predicate PlainPairs(props: seq<(string, string)>)
  {
    forall i :: 0 <= i < |props| ==> PlainPair(props[i])
  }

  /** A plain pair holds no `;`, so it is a single piece. */
  lemma PairOnePiece(kv: (string, string))
    requires PlainPair(kv)
    ensures Pieces(Pair(kv)) == [Pair(kv)]
  {
    var p := Pair(kv);
    FirstIndexAppend(kv.0 + "=", kv.1, ';');
    assert FirstIndex(kv.0 + "=", ';') == |kv.0| + 1 by {
      FirstIndexAppend(kv.0, "=", ';');
      assert FirstIndex("=", ';') == 1;
    }
    assert FirstIndex(p, ';') == |p|;
  }

  /** A plain pair splits back at its `=` into key and value. */
  lemma PairSplits(kv: (string, string))
    requires PlainPair(kv)
    ensures SplitPair(Pair(kv)) == kv
  {
    var p := Pair(kv);
    FirstIndexAppend(kv.0, "=" + kv.1, '=');
    assert p == kv.0 + ("=" + kv.1);
    assert FirstIndex("=" + kv.1, '=') == 0;
    assert FirstIndex(p, '=') == |kv.0|;
    assert p[..|kv.0|] == kv.0;
    assert p[|kv.0| + 1..] == kv.1;
  }

  lemma PairRoundTrip(kv: (string, string))
    requires PlainPair(kv)
    ensures Options(Pair(kv)) == [kv]
  {
    var p := Pair(kv);
    PairOnePiece(kv);
    PairSplits(kv);
    assert p != "" by {
      assert |p| >= 1;
    }
    assert PairsOf([p]) == [SplitPair(p)] + PairsOf([]);
  }

  /** `HashToString` is read back by `Options`: the pairs come out in
      property order, as long as keys hold no `;` or `=` and values no
      `;`. */
  lemma {:induction false} JoinedRoundTrip(props: seq<(string, string)>)
    requires PlainPairs(props)
    ensures Options(Joined(props)) == props
    decreases |props|
  {
    if |props| == 0 {
      NoOptions();
    } else if |props| == 1 {
      PairRoundTrip(props[0]);
    } else {
      var rest := props[1..];
      assert PlainPairs(rest) by {
        forall i | 0 <= i < |rest| ensures PlainPair(rest[i]) {
          assert rest[i] == props[i + 1];
        }
      }
      JoinedRoundTrip(rest);
      JoinedCons(props);
    }
  }

  /** The empty string holds no options. */
  lemma NoOptions()
    ensures Options("") == []
  {
    assert Pieces("") == [""];
  }

  /** The first pair and the rest, read back separately, give the whole. */
  lemma JoinedCons(props: seq<(string, string)>)
    requires |props| > 1 && PlainPair(props[0]) && Options(Joined(props[1..])) == props[1..]
    ensures Options(Joined(props)) == props
  {
    var rest := props[1..];
    PairRoundTrip(props[0]);
    OptionsJoin(Pair(props[0]), Joined(rest));
    calc {
      Options(Joined(props));
      Options(Pair(props[0]) + ";" + Joined(rest));
      Options(Pair(props[0])) + Options(Joined(rest));
      [props[0]] + rest;
      props;
    }
  }

  // ---------------------------------------------------------------------
  // The string handed to the native connect

  /** The character-set option `connect` appends, `CHARSET='UTF-8'`. */
  const Charset: (string, string) := ("CHARSET", "'UTF-8'")
  const CharsetOption: string := Pair(Charset)

  /** The constructor's fragment (`connect` copies it only when it is
      non-empty, which comes to the same), then `;` and the call's
      fragment when there is one, then the character-set option after a
      `;`. With an empty constructor fragment and a call fragment the
      string starts with `;`. */
  function ConnectionString(ctorArg: string, fragment: Option<string>): (s: string)
    ensures |s| >= |CharsetOption| && s[|s| - |CharsetOption|..] == CharsetOption
  {
    var body := if fragment.Some? then ctorArg + ";" + fragment.value else ctorArg;
    body + ";" + CharsetOption
  }

  /** The character-set option reads back as one pair. */
  lemma CharsetReadsBack()
    ensures Options(CharsetOption) == [Charset]
  {
    assert PlainPair(Charset);
    PairRoundTrip(Charset);
  }

  /** What the connection string holds, read back: the constructor's
      options, then the call's, then the character set. */
  lemma ConnectionStringOptions(ctorArg: string, fragment: Option<string>)
    ensures fragment.Some? ==>
      Options(ConnectionString(ctorArg, fragment)) ==
      Options(ctorArg) + Options(fragment.value) + [Charset]
    ensures fragment.None? ==>
      Options(ConnectionString(ctorArg, fragment)) == Options(ctorArg) + [Charset]
  {
    CharsetReadsBack();
    if fragment.Some? {
      assert ConnectionString(ctorArg, fragment) == (ctorArg + ";" + fragment.value) + ";" + CharsetOption;
      OptionsJoin(ctorArg, fragment.value);
      OptionsJoin(ctorArg + ";" + fragment.value, CharsetOption);
    } else {
      OptionsJoin(ctorArg, CharsetOption);
    }
  }

  /** Two options objects, one given to the constructor and one to
      `connect`, arrive at the native connect as their pairs in order,
      followed by the character set. */
  lemma OptionsObjectsReachConnect(ctorProps: seq<(string, string)>, callProps: seq<(string, string)>)
    requires PlainPairs(ctorProps) && PlainPairs(callProps)
    ensures Options(ConnectionString(Joined(ctorProps), Some(Joined(callProps)))) ==
            ctorProps + callProps + [Charset]
  {
    ConnectionStringOptions(Joined(ctorProps), Some(Joined(callProps)));
    JoinedRoundTrip(ctorProps);
    JoinedRoundTrip(callProps);
  }

  /** What `connect` hands to the native layer: a connection string, or
      the handle of an embedded-SQL context, for which no string is
      built. */
  datatype ConnectSpec = ByString(text: string) | BySqlca(handle: Double)

  /** The call's fragment for a connection-string target. */
  function FragmentOf(t: ConnectTarget): Option<string>
    requires !t.SqlcaHandle?
  {
    match t
    case NoFragment => None
    case TextFragment(text) => Some(text)
    case OptionsFragment(props) => Some(Joined(props))
  }

  /** The `connect` front end after dispatch. */
  method BuildConnectSpec(ctorArg: string, t: ConnectTarget) returns (spec: ConnectSpec)
    ensures t.SqlcaHandle? ==> spec == BySqlca(t.handle)
    ensures !t.SqlcaHandle? ==> spec == ByString(ConnectionString(ctorArg, FragmentOf(t)))
  {
    if t.SqlcaHandle? {
      return BySqlca(t.handle);
    }
    var s := if |ctorArg| > 0 then ctorArg else "";
    assert s == ctorArg;
    match t {
      case TextFragment(text) =>
        s := s + ";" + text;
      case OptionsFragment(props) =>
        var joined := HashToString(props);
        s := s + ";" + joined;
      case NoFragment =>
    }
    s := s + ";" + CharsetOption;
    spec := ByString(s);
  }
}
