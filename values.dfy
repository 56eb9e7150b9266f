/** The values a request carries: a JSON document, the Python dictionary key a
    JSON value turns into, and the emptiness test the server applies to a
    required field (Python's truthiness together with `str(v).strip()`). */
module Values {

  datatype Option<+T> = None | Some(value: T)

  /** A JSON value as Flask's `get_json()` hands it to a handler. */
  datatype Json =
    | JNull
    | JBool(b: bool)
    | JInt(i: int)
    | JStr(s: string)
    | JList(items: seq<Json>)
    | JObj(fields: map<string, Json>)

  /** A key of a Python dictionary keyed by a JSON value. Python's `True == 1`
      and `False == 0` with equal hashes, so a boolean and the matching
      integer are the same key; `None` is a key of its own. */
  datatype Key = KNone | KInt(i: int) | KStr(s: string)

  /** The dictionary key a JSON value stands for, or None when the value is a
      list or an object, which Python cannot hash (a `TypeError` at the first
      `in` test or subscript). */
  function KeyOf(v: Json): (r: Option<Key>)
    ensures r.None? <==> v.JList? || v.JObj?
    ensures v.JStr? ==> r == Some(KStr(v.s))
    ensures v.JInt? ==> r == Some(KInt(v.i))
    // `True == 1` and `False == 0` as dictionary keys; `None` is its own key
    ensures v.JBool? ==> r == Some(KInt(if v.b then 1 else 0))
    ensures v.JNull? ==> r == Some(KNone)
  {
    match v
    case JNull => Some(KNone)
    case JBool(b) => Some(KInt(if b then 1 else 0))
    case JInt(i) => Some(KInt(i))
    case JStr(s) => Some(KStr(s))
    case JList(_) => None
    case JObj(_) => None
  }

  /** The characters Python's `str.isspace()` accepts, which are the ones the
      argument-less `str.strip()` removes. */
  predicate IsSpace(c: char) {
    || c == '\t' || c == '\n' || c == '\U{B}' || c == '\U{C}' || c == '\r'
    || ('\U{1C}' <= c <= '\U{1F}') || c == ' ' || c == '\U{85}' || c == '\U{A0}'
    || c == '\U{1680}' || ('\U{2000}' <= c <= '\U{200A}') || c == '\U{2028}'
    || c == '\U{2029}' || c == '\U{202F}' || c == '\U{205F}' || c == '\U{3000}'
  }

  predicate IsBlank(s: string) {
    forall i :: 0 <= i < |s| ==> IsSpace(s[i])
  }

  /** Python's `s.lstrip()`: the suffix left after dropping leading whitespace. */
  function LStrip(s: string): (r: string)
    ensures |r| <= |s| && r == s[|s| - |r|..]
    // what is dropped is whitespace only
    ensures IsBlank(s[..|s| - |r|])
    ensures r == [] <==> IsBlank(s)
    ensures r != [] ==> !IsSpace(r[0])
    decreases |s|
  {
    if s != [] && IsSpace(s[0]) then
      var r := LStrip(s[1..]);
      assert s[..|s| - |r|] == [s[0]] + s[1..][..|s| - 1 - |r|];
      r
    else s
  }

  /** Python's `s.rstrip()`: the prefix left after dropping trailing whitespace. */
  function RStrip(s: string): (r: string)
    ensures |r| <= |s| && r == s[..|r|]
    ensures IsBlank(s[|r|..])
    ensures r == [] <==> IsBlank(s)
    ensures r != [] ==> !IsSpace(r[|r| - 1])
    decreases |s|
  {
    if s != [] && IsSpace(s[|s| - 1]) then
      var r := RStrip(s[..|s| - 1]);
      assert s[|r|..] == s[..|s| - 1][|r|..] + [s[|s| - 1]];
      r
    else s
  }

  /** Python's `s.strip()`: a contiguous piece of `s` with no whitespace at
      either end, empty exactly when `s` is all whitespace. */
  function Strip(s: string): (r: string)
    ensures |r| <= |s|
    ensures r == [] <==> IsBlank(s)
    ensures r != [] ==> !IsSpace(r[0]) && !IsSpace(r[|r| - 1])
  {
    RStrip(LStrip(s))
  }

  /** `strip()` cuts a whitespace-only prefix and suffix and keeps the
      middle of the string as it is. */
  lemma StripKeepsMiddle(s: string)
    ensures var r, a := Strip(s), |s| - |LStrip(s)|;
      && a + |r| <= |s| && r == s[a..a + |r|]
      && IsBlank(s[..a]) && IsBlank(s[a + |r|..])
  {
    var l := LStrip(s);
    var a := |s| - |l|;
    var r := RStrip(l);
    assert l[|r|..] == s[a + |r|..];
  }

  /** Python's truthiness of a JSON value: `None`, `False`, `0`, `""`, `[]`
      and `{}` are false. */
  predicate IsFalsy(v: Json) {
    match v
    case JNull => true
    case JBool(b) => !b
    case JInt(i) => i == 0
    case JStr(s) => s == ""
    case JList(items) => items == []
    case JObj(fields) => fields == map[]
  }

  /** `not v or not str(v).strip()`. Only a string can print as whitespace:
      `str` of a truthy number, boolean, list or object starts with a digit,
      a sign, a letter, `[` or `{`. */
  function IsEmptyValue(v: Json): (b: bool)
    // a string is empty exactly when it is all whitespace, "" included
    ensures v.JStr? ==> (b <==> IsBlank(v.s))
    // any other value is empty exactly when it is falsy
    ensures !v.JStr? ==> (b <==> IsFalsy(v))
  {
    IsFalsy(v) || (v.JStr? && Strip(v.s) == "")
  }

  /** Which values `validate_json_data` calls empty, kind by kind. */
  lemma EmptyValueMeaning(v: Json)
    ensures v.JNull? ==> IsEmptyValue(v)
    ensures v.JBool? ==> (IsEmptyValue(v) <==> !v.b)
    ensures v.JInt? ==> (IsEmptyValue(v) <==> v.i == 0)
    ensures v.JStr? ==> (IsEmptyValue(v) <==> IsBlank(v.s))
    ensures v.JList? ==> (IsEmptyValue(v) <==> v.items == [])
    ensures v.JObj? ==> (IsEmptyValue(v) <==> v.fields == map[])
  {
    if v.JStr? && v.s == "" {
      assert IsBlank(v.s);
    }
  }
}
