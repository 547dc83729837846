/**
 * Values shared by every module: optional values, a JSON value with Python's
 * truthiness, the exceptions the SDK raises, and the "string or list" argument
 * shape that many SDK calls accept.
 */
module Values {

  /** Python's `None` or a value. */
  datatype Option<+T> = None | Some(value: T)

  /** A JSON document as the SDK builds and sends it. */
  datatype Json =
    | Null
    | Bool(b: bool)
    | Num(n: real)
    | Str(s: string)
    | Arr(items: seq<Json>)
    | Obj(fields: map<string, Json>)

  /** Python's `bool(x)` on the value a JSON document decodes to. */
  predicate Truthy(j: Json)
  {
    match j
    case Null => false
    case Bool(b) => b
    case Num(n) => n != 0.0
    case Str(s) => s != ""
    case Arr(items) => |items| > 0
    case Obj(fields) => |fields| > 0
  }

  /** Python's `bool(x)` on an optional string argument. */
  predicate TruthyStr(o: Option<string>)
  {
    o.Some? && o.value != ""
  }

  /**
   * Errors raised by the remote API: the generated client's
   * `NotFoundException` and `ApiException`, and the `HTTPError` the legacy
   * modules raise on an unexpected status code.
   */
  datatype ApiError = NotFound | ApiException(status: int) | HttpStatus(status: int)

  /** The exceptions the modelled SDK code raises or lets escape. */
  datatype Exception =
    | ValueError(message: string)
    | TimeoutError(message: string)
    | RuntimeError(message: string)
    | FileNotFoundError(message: string)
    | ApiFailure(error: ApiError)

  /** A call that returns a value or raises. */
  datatype Result<+T> = Ok(value: T) | Err(error: Exception)

  /** An argument typed `str | list[str]` (a str-enum member is a `str`). */
  datatype StrOrList = One(s: string) | Many(items: seq<string>)

  /** `[x] if isinstance(x, str) else x`. */
  function AsList(a: StrOrList): (r: seq<string>)
    ensures a.One? ==> |r| == 1 && r[0] == a.s
    ensures a.Many? ==> r == a.items
  {
    match a
    case One(s) => [s]
    case Many(items) => items
  }

  /** Normalising twice is the same as normalising once. */
  lemma AsListIdempotent(a: StrOrList)
    ensures AsList(Many(AsList(a))) == AsList(a)
  {
  }

  /** A list of strings as a JSON array. */
  function StrArr(xs: seq<string>): (r: Json)
    ensures r.Arr? && |r.items| == |xs|
    ensures forall i :: 0 <= i < |xs| ==> r.items[i] == Str(xs[i])
  {
    Arr(seq(|xs|, i requires 0 <= i < |xs| => Str(xs[i])))
  }

  /** An optional list of strings as JSON, `None` becoming `null`. */
  function OptStrArr(o: Option<seq<string>>): (r: Json)
    ensures o.None? <==> r == Null
  {
    match o
    case None => Null
    case Some(xs) => StrArr(xs)
  }

  /** An optional number as JSON, `None` becoming `null`. */
  function OptNum(o: Option<real>): (r: Json)
    ensures o.None? <==> r == Null
  {
    match o
    case None => Null
    case Some(x) => Num(x)
  }

  /** A string member of a JSON object. */
  function GetStr(f: map<string, Json>, k: string): (r: Option<string>)
    ensures r.Some? <==> k in f && f[k].Str?
  {
    if k in f && f[k].Str? then Some(f[k].s) else None
  }

  /** A numeric member of a JSON object. */
  function GetNum(f: map<string, Json>, k: string): (r: Option<real>)
    ensures r.Some? <==> k in f && f[k].Num?
  {
    if k in f && f[k].Num? then Some(f[k].n) else None
  }

  /** The strings of a JSON array whose items are all strings. */
  function StrsOf(items: seq<Json>): (r: Option<seq<string>>)
    ensures r.Some? ==> |r.value| == |items|
  {
    if |items| == 0 then Some([])
    else if !items[|items| - 1].Str? then None
    else match StrsOf(items[..|items| - 1])
         case None => None
         case Some(init) => Some(init + [items[|items| - 1].s])
  }

  /** A list of strings survives the trip through a JSON array. */
  lemma {:induction false} StrArrRoundTrip(xs: seq<string>)
    ensures StrsOf(StrArr(xs).items) == Some(xs)
  {
    if |xs| > 0 {
      var items := StrArr(xs).items;
      var init := xs[..|xs| - 1];
      assert items[..|items| - 1] == StrArr(init).items;
      StrArrRoundTrip(init);
      assert init + [xs[|xs| - 1]] == xs;
    }
  }
}
