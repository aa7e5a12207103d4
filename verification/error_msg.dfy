/** Error messages of the binding. Every error that reaches a script has
    the form `Code: <n> Msg: <text>`: either one of the binding's own codes
    with its fixed text, or the code and text the native library reports
    for a connection. */
module ErrorMsg {
  import opened Common

  /** The fixed text of one of the binding's own error codes. The wide-
      statement code -2009 has a text only in the Node.js 0.10 shim; any
      other code reads "Unknown Error". */
  function ErrorText(shim: Shim, code: int): (t: string)
    ensures code == ErrNoWideStatements && shim == Current ==> t == "Unknown Error"
    ensures code !in {-2001, -2002, -2003, -2004, -2005, -2006, -2007, -2008, -2009} ==> t == "Unknown Error"
  {
    if code == ErrInvalidObject then "Invalid Object"
    else if code == ErrInvalidArguments then "Invalid Arguments"
    else if code == ErrAlreadyConnected then "Already Connected"
    else if code == ErrInitializingDbcapi then "Can't initialize DBCAPI"
    else if code == ErrNotConnected then "No Connection Available"
    else if code == ErrBindingParameters then "Can not bind parameter(s)"
    else if code == ErrGeneralError then "An error occurred"
    else if code == ErrResultSet then "Error making result set Object"
    else if code == ErrNoWideStatements && shim == V010 then
      "The DBCAPI library must be upgraded to support wide statements"
    else "Unknown Error"
  }

  /** The message layout shared by both overloads of `getErrorMsg`. */
  function Format(code: int, text: string): string
  {
    "Code: " + IntToString(code) + " Msg: " + text
  }

  /** What a reader of a message recovers from it. */
  datatype Parsed = Parsed(code: int, text: string)

  /** Index of the first space in `s`, or `|s|` when there is none. */
  function FirstSpace(s: string): (k: nat)
    ensures k <= |s|
    ensures k < |s| ==> s[k] == ' '
    ensures forall i :: 0 <= i < k ==> s[i] != ' '
    decreases |s|
  {
    if |s| == 0 then 0 else if s[0] == ' ' then 0 else 1 + FirstSpace(s[1..])
  }

  /** Reads a message of the `Code: <n> Msg: <text>` layout back into its
      code and text; `None` for anything else. */
  function ParseMessage(m: string): Option<Parsed>
  {
    if |m| < 6 || m[..6] != "Code: " then None
    else
      var rest := m[6..];
      var k := FirstSpace(rest);
      if |rest| < k + 6 || rest[k..k + 6] != " Msg: " then None
      else Some(Parsed(ParseInt(rest[..k]), rest[k + 6..]))
  }

  lemma FirstSpaceOfFormatted(d: string, t: string)
    requires ' ' !in d
    ensures FirstSpace(d + t) >= |d|
  {
    var k := FirstSpace(d + t);
    if k < |d| {
      assert false;
    }
  }

  /** A message laid out around any space-free rendering `d` of a code is
      read back as the code `d` spells and the text. */
  lemma ParseLayout(d: string, text: string)
    requires ' ' !in d
    ensures ParseMessage("Code: " + d + " Msg: " + text) == Some(Parsed(ParseInt(d), text))
  {
    var m := "Code: " + d + " Msg: " + text;
    assert m == "Code: " + (d + " Msg: " + text);
    var rest := m[6..];
    assert rest == d + (" Msg: " + text);
    FirstSpaceOfFormatted(d, " Msg: " + text);
    var k := FirstSpace(rest);
    assert rest[|d|] == ' ';
    assert k == |d|;
    assert rest[k..k + 6] == " Msg: ";
    assert rest[..k] == d;
    assert rest[k + 6..] == text;
  }

  /** The layout is readable: code and text come back out of every
      formatted message, whatever the text holds. */
  lemma ParseFormat(code: int, text: string)
    ensures ParseMessage(Format(code, text)) == Some(Parsed(code, text))
  {
    ParseLayout(IntToString(code), text);
    ParseIntOfIntToString(code);
  }

  /** `getErrorMsg(code, str)`: the message for one of the binding's own
      error codes. */
  function GetErrorMsg(shim: Shim, code: int): string
  {
    Format(code, ErrorText(shim, code))
  }

  /** A message of the binding's own gives back its code and fixed text. */
  lemma GetErrorMsgReadable(shim: Shim, code: int)
    ensures ParseMessage(GetErrorMsg(shim, code)) == Some(Parsed(code, ErrorText(shim, code)))
  {
    ParseFormat(code, ErrorText(shim, code));
  }

  /** What `sqlany_error` reports for a connection: a native code and its
      message text (at most `SACAPI_ERROR_SIZE` bytes in the C buffer). */
  datatype NativeError = NativeError(code: int, text: string)

  /** `getErrorMsg(conn, str)`: the message for the native library's last
      error on a connection. */
  function NativeErrorMsg(e: NativeError): string
  {
    Format(e.code, e.text)
  }

  /** A native error's message gives back the native code and text. */
  lemma NativeErrorMsgReadable(e: NativeError)
    ensures ParseMessage(NativeErrorMsg(e)) == Some(Parsed(e.code, e.text))
  {
    ParseFormat(e.code, e.text);
  }

  /** The two shims format every code identically except -2009, which
      only the Node.js 0.10 shim knows. */
  lemma ShimsAgreeExceptWide(code: int)
    requires code != ErrNoWideStatements
    ensures GetErrorMsg(Current, code) == GetErrorMsg(V010, code)
  {
    assert ErrorText(Current, code) == ErrorText(V010, code);
  }

  lemma ShimsDifferOnWide()
    ensures GetErrorMsg(Current, ErrNoWideStatements) != GetErrorMsg(V010, ErrNoWideStatements)
  {
    var a := GetErrorMsg(Current, ErrNoWideStatements);
    var b := GetErrorMsg(V010, ErrNoWideStatements);
    var ta := ErrorText(Current, ErrNoWideStatements);
    var tb := ErrorText(V010, ErrNoWideStatements);
    assert |ta| != |tb|;
    GetErrorMsgReadable(Current, ErrNoWideStatements);
    GetErrorMsgReadable(V010, ErrNoWideStatements);
    assert ParseMessage(a).value.text != ParseMessage(b).value.text;
  }

  /** Distinct codes give distinct messages, so a script can tell every
      error of the binding apart by its message. */
  lemma GetErrorMsgInjective(shim: Shim, c1: int, c2: int)
    requires GetErrorMsg(shim, c1) == GetErrorMsg(shim, c2)
    ensures c1 == c2
  {
    GetErrorMsgReadable(shim, c1);
    GetErrorMsgReadable(shim, c2);
  }
}
