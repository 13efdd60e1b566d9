/**
 * The JavaScript values that travel between the client, the service and the
 * S3 collaborator: plain objects are finite maps from keys to values; an absent
 * key reads as `undefined`; object spread `{ ...a, ...b }` is the map union `a + b`,
 * in which the right-hand side wins.
 */
module Values {
  import opened Wrappers
  import opened Base64

  /** A `{ PartNumber, ETag }` record of the multipart part list. */
  datatype Part = Part(number: nat, etag: Value)

  datatype Value =
    | Undefined
    | Str(s: string)
    | Num(n: int)
    | Bin(bytes: seq<byte>)
    | PartList(parts: seq<Part>)
    | Object(fields: map<string, Value>)

  type Obj = map<string, Value>

  /** The errors the core raises or lets through. */
  datatype Failure =
    | CallerError(what: string)  // `new Error(...)` for a missing argument or option
    | BadRequest(what: string)   // feathers `BadRequest` raised by the service
    | TypeError(what: string)    // reading a property of `undefined`, or a bad argument to Buffer.from
    | InvalidCharacter           // `atob`/`btoa` refusing their input
    | Thrown(reason: string)     // an error thrown by a collaborator, propagated as is

  /** JavaScript truthiness (NaN is not modelled). */
  predicate Truthy(v: Value) {
    match v
    case Undefined => false
    case Str(s) => s != ""
    case Num(n) => n != 0
    case _ => true
  }

  /** Property access: a missing key reads as `undefined`. */
  function Prop(o: Obj, key: string): (v: Value)
    ensures key !in o ==> v == Undefined
    ensures key in o ==> v == o[key]
  {
    if key in o then o[key] else Undefined
  }

  function Digits(n: nat): string
    decreases n
  {
    if n < 10 then [('0' as int + n) as char] else Digits(n / 10) + [('0' as int + n % 10) as char]
  }

  /** `String(v)`, as used by `+` on a string and a value. */
  function Show(v: Value): string {
    match v
    case Undefined => "undefined"
    case Str(s) => s
    case Num(n) => if n < 0 then "-" + Digits(-n) else Digits(n)
    case Bin(_) => "[object ArrayBuffer]"
    case PartList(ps) => Repeat("[object Object]", |ps|)
    case Object(_) => "[object Object]"
  }

  /** `n` copies of `s` joined with commas, as `String` of an array of objects. */
  function Repeat(s: string, n: nat): string {
    if n == 0 then "" else if n == 1 then s else s + "," + Repeat(s, n - 1)
  }

  predicate IsLower(c: char) { 'a' <= c <= 'z' }
  predicate IsUpper(c: char) { 'A' <= c <= 'Z' }

  /** lodash `upperFirst` on ASCII letters. */
  function UpperFirst(k: string): (u: string)
    ensures |u| == |k| && (|k| > 0 ==> u[1..] == k[1..])
    ensures |k| > 0 && IsLower(k[0]) ==> IsUpper(u[0]) && u[0] as int == k[0] as int - 32
    ensures !(|k| > 0 && IsLower(k[0])) ==> u == k
  {
    if |k| > 0 && IsLower(k[0]) then [(k[0] as int - 32) as char] + k[1..] else k
  }

  function LowerFirst(k: string): string {
    if |k| > 0 && IsUpper(k[0]) then [(k[0] as int + 32) as char] + k[1..] else k
  }

  lemma UpperFirstIdempotent(k: string)
    ensures UpperFirst(UpperFirst(k)) == UpperFirst(k)
  {
  }

  /** A key that `UpperFirst` changes is recovered by `LowerFirst`. */
  lemma LowerFirstInverts(k: string)
    requires UpperFirst(k) != k
    ensures LowerFirst(UpperFirst(k)) == k
  {
    assert k == [k[0]] + k[1..];
  }

  lemma LowerFirstInvertsAll()
    ensures forall k :: UpperFirst(k) != k ==> LowerFirst(UpperFirst(k)) == k
  {
    forall k | UpperFirst(k) != k
      ensures LowerFirst(UpperFirst(k)) == k
    {
      LowerFirstInverts(k);
    }
  }

  function UpperKeySet(m: Obj): set<string> {
    set k | k in m :: UpperFirst(k)
  }

  /**
   * lodash `mapKeys(m, (v, k) => upperFirst(k))`. When two keys of `m` differ only
   * in the case of their first letter they land on the same key; the model then
   * keeps the value of the key that is already upper-first.
   */
  function UpperKeys(m: Obj): (r: Obj)
    ensures r.Keys == UpperKeySet(m)
  {
    map u | u in UpperKeySet(m) :: if u in m then m[u] else Prop(m, LowerFirst(u))
  }

  /** Every value is kept, under its upper-firsted key unless that key holds a value of its own. */
  lemma UpperKeysValues(m: Obj)
    ensures forall k :: k in m && UpperFirst(k) == k ==> UpperKeys(m)[k] == m[k]
    ensures forall k :: k in m && UpperFirst(k) !in m ==> UpperKeys(m)[UpperFirst(k)] == m[k]
  {
    LowerFirstInvertsAll();
  }

  function Omit(m: Obj, keys: set<string>): (r: Obj)
    ensures r.Keys == m.Keys - keys
    ensures forall k :: k in r ==> r[k] == m[k]
  {
    map k | k in m && k !in keys :: m[k]
  }

  /** lodash `pick(m, keys)`: only those keys that `m` has, with their values. */
  function Pick(m: Obj, keys: set<string>): (r: Obj)
    ensures r.Keys == m.Keys * keys
    ensures forall k :: k in r ==> r[k] == m[k]
  {
    map k | k in m && k in keys :: m[k]
  }
}
