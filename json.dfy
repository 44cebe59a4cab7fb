/** JSON values as the gateway and the services exchange them, together with
    the few JavaScript conversions the cache keys and route handlers rely on:
    optional property access (`v?.k`), truthiness, and template-literal /
    `String(...)` rendering. */
module Json {

  datatype Option<T> = None | Some(value: T)

  /** Why an awaited computation rejected. */
  datatype Fault =
    | TypeError                      // property access on null, `.filter` on a non-array
    | NoResponse                     // transport error: the request got no HTTP response
    | HttpStatus(status: int)        // an HTTP response whose status the circuit action rejects
    | Database(code: Option<string>) // a database error; `code` is `error.original?.code`

  datatype Result<T> = Ok(value: T) | Err(fault: Fault)

  datatype Json =
    | JNull
    | JBool(b: bool)
    | JNum(n: real)
    | JStr(s: string)
    | JArr(items: seq<Json>)
    | JObj(fields: map<string, Json>)

  /** `{ error: msg }`, the shape of every not-found and fallback body. */
  function ErrorBody(msg: string): (r: Json)
    ensures r.JObj? && r.fields.Keys == {"error"} && r.fields["error"] == JStr(msg)
  {
    JObj(map["error" := JStr(msg)])
  }

  /** `v?.k`: the value of property `k`, or `undefined` (None). */
  function Member(v: Json, k: string): Option<Json>
  {
    if v.JObj? && k in v.fields then Some(v.fields[k]) else None
  }

  /** `v.k`: like `v?.k`, except that reading a property of null throws. */
  function Prop(v: Json, k: string): (r: Result<Option<Json>>)
    ensures r.Err? <==> v == JNull
    ensures r.Ok? ==> r.value == Member(v, k)
  {
    if v.JNull? then Err(TypeError) else Ok(Member(v, k))
  }

  /** `v?.error === msg` */
  predicate ErrorIs(v: Json, msg: string)
  {
    Member(v, "error") == Some(JStr(msg))
  }

  /** JavaScript truthiness of a possibly-undefined value. */
  predicate Truthy(o: Option<Json>)
  {
    match o
    case None => false
    case Some(v) =>
      match v
      case JNull => false
      case JBool(b) => b
      case JNum(n) => n != 0.0
      case JStr(s) => s != ""
      case JArr(_) => true
      case JObj(_) => true
  }

  lemma ErrorBodyIsError(msg: string)
    ensures ErrorIs(ErrorBody(msg), msg)
    ensures forall other :: other != msg ==> !ErrorIs(ErrorBody(msg), other)
    ensures Truthy(Member(ErrorBody(msg), "error")) <==> msg != ""
  {
  }

  // ---------------------------------------------------------------------------
  // Rendering: `${x}` in a template literal, equivalently `String(x)`.

  predicate IsDigit(c: char) { '0' <= c <= '9' }

  /** A non-empty run of decimal digits: the text of a database id. */
  predicate NumericId(s: string)
  {
    |s| > 0 && forall i :: 0 <= i < |s| ==> IsDigit(s[i])
  }

  function DigitChar(d: int): (c: char)
    requires 0 <= d < 10
    ensures IsDigit(c)
  {
    ['0', '1', '2', '3', '4', '5', '6', '7', '8', '9'][d]
  }

  /** Decimal text of a natural number, without leading zeros. */
  function NatText(n: nat): (s: string)
    ensures NumericId(s)
    ensures s[0] == '0' ==> n == 0
    decreases n
  {
    if n < 10 then [DigitChar(n)] else NatText(n / 10) + [DigitChar(n % 10)]
  }

  /** Decimal text of an integer: what JavaScript prints for an integral number. */
  function IntText(n: int): (s: string)
    ensures |s| > 0
    ensures n >= 0 ==> NumericId(s)
  {
    if n < 0 then "-" + NatText(-n) else NatText(n)
  }

  /** Digits after the decimal point of a fraction in (0, 1), at most `fuel + 1` of them. */
  function FractionText(f: real, fuel: nat): string
    requires 0.0 <= f < 1.0
    decreases fuel
  {
    var d := (f * 10.0).Floor;
    var rest := f * 10.0 - d as real;
    [DigitChar(d)] + if rest == 0.0 || fuel == 0 then "" else FractionText(rest, fuel - 1)
  }

  function NumberText(r: real): (s: string)
    ensures |s| > 0
    ensures r == r.Floor as real ==> s == IntText(r.Floor)
  {
    if r == r.Floor as real then IntText(r.Floor)
    else if r < 0.0 then "-" + NatText((-r).Floor) + "." + FractionText(-r - (-r).Floor as real, 15)
    else NatText(r.Floor) + "." + FractionText(r - r.Floor as real, 15)
  }

  function ValueText(v: Json): string
    decreases v
  {
    match v
    case JNull => "null"
    case JBool(b) => if b then "true" else "false"
    case JNum(n) => NumberText(n)
    case JStr(s) => s
    case JArr(items) => JoinText(items)
    case JObj(_) => "[object Object]"
  }

  /** `Array.prototype.join(',')`: null elements render as the empty string. */
  function JoinText(items: seq<Json>): string
    decreases items
  {
    if |items| == 0 then ""
    else
      (if items[0].JNull? then "" else ValueText(items[0]))
      + (if |items| == 1 then "" else "," + JoinText(items[1..]))
  }

  /** `${x}` for a value that may be `undefined`. */
  function Text(o: Option<Json>): string
  {
    match o
    case None => "undefined"
    case Some(v) => ValueText(v)
  }

  lemma TextOfIds(n: int, s: string)
    ensures Text(Some(JNum(n as real))) == IntText(n)
    ensures Text(Some(JStr(s))) == s
    ensures Text(None) == "undefined"
  {
  }

  // ---------------------------------------------------------------------------
  // Facts about concatenated strings, used by every key-derivation lemma.

  /** A fixed prefix followed by a parameter determines the parameter. */
  lemma PrefixCancel(p: string, x: string, y: string)
    requires p + x == p + y
    ensures x == y
  {
    assert x == (p + x)[|p|..];
    assert y == (p + y)[|p|..];
  }

  lemma SuffixCancel(x: string, y: string, q: string)
    requires x + q == y + q
    ensures x == y
  {
    assert |x| == |y|;
    assert x == (x + q)[..|x|];
    assert y == (y + q)[..|y|];
  }

  /** Two strings that disagree at a position both prefixes cover can never meet. */
  lemma PrefixesDiffer(p: string, q: string, i: nat, x: string, y: string)
    requires i < |p| && i < |q| && p[i] != q[i]
    ensures p + x != q + y
  {
    assert (p + x)[i] == p[i];
    assert (q + y)[i] == q[i];
  }

  /** `p + x == p` only when `x` is empty. */
  lemma LengthDiffers(p: string, x: string)
    requires x != ""
    ensures p + x != p
  {
    assert |p + x| > |p|;
  }

  /** A numeric id never begins with a letter. */
  lemma NumericIdStartsWithDigit(s: string, c: char)
    requires NumericId(s)
    requires !IsDigit(c)
    ensures s[0] != c
  {
  }

  // ---------------------------------------------------------------------------
  // Subsequences: "the elements of t, in order, with some left out".

  predicate IsSubsequence<T(==)>(s: seq<T>, t: seq<T>)
    decreases |t|
  {
    if |s| == 0 then true
    else if |t| == 0 then false
    else (s[0] == t[0] && IsSubsequence(s[1..], t[1..])) || IsSubsequence(s, t[1..])
  }
}
