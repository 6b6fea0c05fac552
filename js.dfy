/**
 * The JavaScript values that flow through request bodies, provider payloads and
 * response bodies, with the few language rules the handlers depend on: truthiness,
 * property access (plain, optional-chained and destructuring), `??`, `||` and
 * template-string conversion. Numbers are modelled as integers.
 */
module Js {
  import opened Wrappers
  import Strings

  type Byte = x: int | 0 <= x < 256

  datatype Value =
    | Undefined
    | Null
    | Bool(b: bool)
    | Num(n: int)
    | Str(s: string)
    | Arr(items: seq<Value>)
    | Obj(fields: map<string, Value>)

  /** A thrown error: the fields the handlers read (`status`, `error_summary`, `message`). */
  datatype Error = Error(status: Option<int>, summary: Option<string>, message: string)

  /** Placeholder for the engine-defined text of a `TypeError` (property of null/undefined). */
  const TypeErrorMessage: string := "TypeError"

  const TypeError: Error := Error(None, None, TypeErrorMessage)

  /** The environment variables the handlers read; `None` when unset. */
  datatype Env = Env(
    vsaiApiKey: Option<string>,            // VSAI_API_KEY
    dropboxAccessToken: Option<string>,    // DROPBOX_ACCESS_TOKEN
    stripeWebhookSecret: Option<string>,   // STRIPE_WEBHOOK_SECRET
    siteUrl: Option<string>)               // WIX_SITE_URL

  /** JSON.parse (throwing a SyntaxError with a message) and JSON.stringify, left abstract. */
  datatype JsonCodec = JsonCodec(parse: string -> Result<Value, string>, stringify: Value -> string)

  /** JavaScript truthiness (`if (v)`, `!v`). */
  predicate Truthy(v: Value) {
    match v
    case Undefined => false
    case Null => false
    case Bool(b) => b
    case Num(n) => n != 0
    case Str(s) => s != ""
    case Arr(_) => true
    case Obj(_) => true
  }

  /** `v && typeof v === "object"`. */
  predicate IsObject(v: Value) {
    v.Arr? || v.Obj?
  }

  predicate Nullish(v: Value) {
    v.Undefined? || v.Null?
  }

  /** `v?.key`: the property, or `undefined` when `v` has none (or is null/undefined). */
  function Get(v: Value, key: string): (r: Value)
    ensures !v.Obj? ==> r == Undefined
    ensures v.Obj? && key !in v.fields ==> r == Undefined
    ensures v.Obj? && key in v.fields ==> r == v.fields[key]
  {
    if v.Obj? && key in v.fields then v.fields[key] else Undefined
  }

  /** `v.key`: throws a TypeError when `v` is null or undefined. */
  function Prop(v: Value, key: string): (r: Result<Value, Error>)
    ensures r.Failure? <==> Nullish(v)
    ensures r.Success? ==> r.value == Get(v, key)
  {
    if Nullish(v) then Failure(TypeError) else Success(Get(v, key))
  }

  /** `a || b`. */
  function Or(a: Value, b: Value): (r: Value)
    ensures Truthy(a) ==> r == a
    ensures !Truthy(a) ==> r == b
  {
    if Truthy(a) then a else b
  }

  /** `a ?? b`. */
  function Coalesce(a: Value, b: Value): (r: Value)
    ensures Nullish(a) ==> r == b
    ensures !Nullish(a) ==> r == a
  {
    if Nullish(a) then b else a
  }

  /** String conversion in a template literal (`${v}`). */
  function Display(v: Value): string {
    match v
    case Undefined => "undefined"
    case Null => "null"
    case Bool(b) => if b then "true" else "false"
    case Num(n) => Strings.IntToDecimal(n)
    case Str(s) => s
    case Arr(items) => DisplayItems(items)
    case Obj(_) => "[object Object]"
  }

  /** `Array.prototype.toString`: elements joined by commas, null and undefined shown empty. */
  function DisplayItems(items: seq<Value>): string
    decreases items
  {
    if items == [] then ""
    else
      var head := if Nullish(items[0]) then "" else Display(items[0]);
      if |items| == 1 then head else head + "," + DisplayItems(items[1..])
  }

  /** `${process.env.X}` for an environment variable that may be unset. */
  function EnvText(v: Option<string>): string {
    if v.Some? then v.value else "undefined"
  }

  predicate EnvTruthy(v: Option<string>) {
    v.Some? && v.value != ""
  }

  /** `{ error: message }`, the shape of every error body the handlers send. */
  function ErrorBody(message: string): Value {
    Obj(map["error" := Str(message)])
  }

  /** `{ error: message, details: details }`. */
  function ErrorDetails(message: string, details: Value): Value {
    Obj(map["error" := Str(message), "details" := details])
  }
}
