/** Values and string operations of the JavaScript runtime that the routes and
    components rely on: parsed JSON request bodies, property reads that may
    yield `undefined`, truthiness, `String.prototype.trim` and `slice(-n)`,
    and the JSON responses the route handlers return. */
module Js {

  datatype Option<+T> = None | Some(value: T)

  /** A value produced by `JSON.parse`. Numbers are kept as reals: JSON has
      no NaN or infinity, and only their comparison with zero matters here. */
  datatype Json =
    | JNull
    | JBool(b: bool)
    | JNum(n: real)
    | JStr(s: string)
    | JArray(items: seq<Json>)
    | JObject(fields: map<string, Json>)

  /** `data.key` on a parsed body, `None` standing for `undefined`. Only an
      object has own properties with the names the routes read; a boxed
      primitive or an array has none of them. */
  function GetField(data: Json, key: string): (v: Option<Json>)
    ensures v.Some? <==> data.JObject? && key in data.fields
    ensures v.Some? ==> v.value == data.fields[key]
  {
    match data
    case JObject(fields) => if key in fields then Some(fields[key]) else None
    case _ => None
  }

  /** JavaScript truthiness of a possibly undefined JSON value: `undefined`,
      `null`, `false`, `0` and `""` are falsy, everything else is truthy. */
  predicate Truthy(v: Option<Json>)
  {
    match v
    case None => false
    case Some(JNull) => false
    case Some(JBool(b)) => b
    case Some(JNum(n)) => n != 0.0
    case Some(JStr(s)) => s != ""
    case Some(JArray(_)) => true
    case Some(JObject(_)) => true
  }

  /** `a === b` where either side may be `undefined`. Arrays and objects are
      compared by reference; a freshly parsed one is never identical to
      anything else, so such comparisons are false. */
  predicate StrictEquals(a: Option<Json>, b: Option<Json>)
  {
    match (a, b)
    case (None, None) => true
    case (Some(x), Some(y)) => !x.JArray? && !x.JObject? && x == y
    case _ => false
  }

  /** A string constant as a JavaScript value, `undefined` when absent. */
  function AsJs(s: Option<string>): (v: Option<Json>)
    ensures v.Some? <==> s.Some?
    ensures s.Some? ==> v.value.JStr? && v.value.s == s.value
  {
    match s
    case None => None
    case Some(t) => Some(JStr(t))
  }

  /** The characters `String.prototype.trim` removes: the WhiteSpace and
      LineTerminator code points of section 12.2 and 12.3 of ECMA-262. */
  predicate IsJsWhitespace(c: char)
  {
    c == '\t' || c == '\n' || c == '\U{B}' || c == '\U{C}' || c == '\r'
    || c == ' ' || c == '\U{A0}' || c == '\U{1680}'
    || ('\U{2000}' <= c <= '\U{200A}')
    || c == '\U{2028}' || c == '\U{2029}' || c == '\U{202F}' || c == '\U{205F}'
    || c == '\U{3000}' || c == '\U{FEFF}'
  }

  /** Drops leading whitespace: the result is the suffix of `s` that starts at
      its first non-whitespace character. */
  function TrimStart(s: string): (r: string)
    ensures |r| <= |s| && r == s[|s| - |r|..]
    ensures forall k :: 0 <= k < |s| - |r| ==> IsJsWhitespace(s[k])
    ensures r != [] ==> !IsJsWhitespace(r[0])
  {
    if |s| > 0 && IsJsWhitespace(s[0]) then TrimStart(s[1..]) else s
  }

  /** Drops trailing whitespace: the result is the prefix of `s` that ends at
      its last non-whitespace character. */
  function TrimEnd(s: string): (r: string)
    ensures |r| <= |s| && r == s[..|r|]
    ensures forall k :: |r| <= k < |s| ==> IsJsWhitespace(s[k])
    ensures r != [] ==> !IsJsWhitespace(r[|r| - 1])
  {
    if |s| > 0 && IsJsWhitespace(s[|s| - 1]) then TrimEnd(s[..|s| - 1]) else s
  }

  /** `s.trim()`. The result is empty exactly when every character of `s` is
      whitespace, which is when `!s.trim()` holds in the source. */
  function Trim(s: string): (r: string)
    ensures |r| <= |s|
    ensures r != [] ==> !IsJsWhitespace(r[0]) && !IsJsWhitespace(r[|r| - 1])
    ensures r == [] <==> forall k :: 0 <= k < |s| ==> IsJsWhitespace(s[k])
  {
    var t := TrimStart(s);
    var r := TrimEnd(t);
    assert r != [] ==> r[0] == t[0];
    r
  }

  /** `trim()` keeps exactly the characters between the leading and the
      trailing whitespace: its result is the slice of `s` that remains once
      a whitespace prefix and a whitespace suffix are removed. */
  lemma {:induction false} TrimIsSlice(s: string)
    ensures exists i, j :: 0 <= i <= j <= |s| && Trim(s) == s[i..j]
                          && (forall k :: 0 <= k < i ==> IsJsWhitespace(s[k]))
                          && (forall k :: j <= k < |s| ==> IsJsWhitespace(s[k]))
  {
    var t := TrimStart(s);
    var r := TrimEnd(t);
    var i := |s| - |t|;
    InnerSlice(s, i, t, r);
    assert Trim(s) == s[i..i + |r|];
  }

  /** A prefix `r` of a suffix `t` of `s` is a slice of `s`, and whatever
      follows `r` in `t` follows it in `s`. */
  lemma InnerSlice(s: string, i: nat, t: string, r: string)
    requires i <= |s| && t == s[i..]
    requires |r| <= |t| && r == t[..|r|]
    requires forall k :: |r| <= k < |t| ==> IsJsWhitespace(t[k])
    ensures r == s[i..i + |r|]
    ensures forall k :: i + |r| <= k < |s| ==> IsJsWhitespace(s[k])
  {
    forall k | i + |r| <= k < |s|
      ensures IsJsWhitespace(s[k])
    {
      assert s[k] == t[k - i];
    }
  }

  /** Trimming twice changes nothing more than trimming once. */
  lemma {:induction false} TrimIdempotent(s: string)
    ensures Trim(Trim(s)) == Trim(s)
  {
    var r := Trim(s);
    TrimStartKeepsNonWhitespaceHead(r);
    TrimEndKeepsNonWhitespaceTail(TrimStart(r));
  }

  lemma TrimStartKeepsNonWhitespaceHead(s: string)
    requires s != [] ==> !IsJsWhitespace(s[0])
    ensures TrimStart(s) == s
  {
  }

  lemma TrimEndKeepsNonWhitespaceTail(s: string)
    requires s != [] ==> !IsJsWhitespace(s[|s| - 1])
    ensures TrimEnd(s) == s
  {
  }

  /** `s.slice(-n)` for a positive `n`: the last `n` characters of `s`, or the
      whole of `s` when it is shorter. */
  function SliceLast(s: string, n: nat): (r: string)
    requires n > 0
    ensures |r| == if |s| < n then |s| else n
    ensures r == s[|s| - |r|..]
  {
    if |s| <= n then s else s[|s| - n..]
  }

  /** The body an endpoint reads with `await req.json()`: a parse failure
      makes that call throw. */
  datatype Body = Unparseable | Parsed(value: Json)

  /** What `NextResponse.json(...)` carries. */
  datatype ResponseBody =
    | SuccessBody                                   // { success: true }
    | ErrorBody(error: string)                      // { error: ... }
    | AuthorizedBody(auth: string, channelData: string)

  /** An HTTP response; `NextResponse.json(x)` without options has status 200. */
  datatype Response = Response(status: int, body: ResponseBody)
}
