/** JavaScript values as produced by `JSON.parse` (plus `undefined`, which a
    property lookup yields for a missing property), and the few operations of
    the language the webhook applies to them. Numbers are integers, not
    rounded to doubles. */
module JsValue {
  import opened Wrappers
  import Text

  datatype Value =
    | Undefined
    | Null
    | Bool(b: bool)
    | Number(n: int)
    | Str(s: string)
    | Arr(elems: seq<Value>)
    | Obj(props: map<string, Value>)

  /** JavaScript's `!!v`: `undefined`, `null`, `false`, `0` and `""` are falsy. */
  predicate Truthy(v: Value) {
    match v
    case Undefined => false
    case Null => false
    case Bool(b) => b
    case Number(n) => n != 0
    case Str(s) => s != ""
    case Arr(_) => true
    case Obj(_) => true
  }

  /** `v == null`: the values whose properties cannot be read. */
  predicate Nothing(v: Value) {
    v.Undefined? || v.Null?
  }

  /** `typeof v === 'object'`: true of `null`, arrays and objects. */
  predicate IsObjectType(v: Value) {
    v.Null? || v.Arr? || v.Obj?
  }

  /** The value `v.name` reads when it does not throw: an own property of an
      object, and `undefined` for everything else. The names the webhook
      reads explicitly are neither array indices nor names the prototypes
      define; the `toString` a template literal looks up is handled by
      `Converts`. */
  function Get(v: Value, name: string): (r: Value)
    ensures !v.Obj? ==> r == Undefined
  {
    if v.Obj? && name in v.props then v.props[name] else Undefined
  }

  /** The `TypeError`s the webhook's code can throw: reading a property of
      `undefined` or `null`, iterating a value that is not iterable, and
      converting to a string an object whose `toString` is not a function. */
  datatype TypeError =
    | CannotReadProperty(ofNull: bool, name: string)
    | NotIterable(expression: string)
    | CannotConvertToPrimitive

  /** The message V8 gives a `TypeError`. */
  function TypeErrorMessage(e: TypeError): string {
    match e
    case CannotReadProperty(ofNull, name) =>
      "Cannot read properties of " + (if ofNull then "null" else "undefined")
      + " (reading '" + name + "')"
    case NotIterable(expression) => expression + " is not iterable"
    case CannotConvertToPrimitive => "Cannot convert object to primitive value"
  }

  /** `v.name`: throws on `undefined` and `null`, reads `Get` otherwise. */
  function Prop(v: Value, name: string): (r: Result<Value, TypeError>)
    ensures r.Err? <==> Nothing(v)
    ensures r.Err? ==> r.error == CannotReadProperty(v.Null?, name)
    ensures r.Ok? ==> r.value == Get(v, name)
  {
    match v
    case Undefined => Err(CannotReadProperty(false, name))
    case Null => Err(CannotReadProperty(true, name))
    case _ => Ok(Get(v, name))
  }

  /** Reading a property of a truthy value never throws. */
  lemma PropOfTruthy(v: Value, name: string)
    requires Truthy(v)
    ensures Prop(v, name) == Ok(Get(v, name))
  {
  }

  /** Whether `${v}` completes. Converting an object calls its `toString`,
      and then its `valueOf`, until one returns a primitive. A parsed object
      with an own `toString` key hides the inherited method behind a value
      that cannot be called, and the inherited `valueOf` returns the object
      itself, so the conversion throws `CannotConvertToPrimitive`. An array
      converts through `join`, so each of its elements must convert. */
  predicate Converts(v: Value)
    decreases v
  {
    match v
    case Obj(props) => "toString" !in props
    case Arr(elems) => forall k :: 0 <= k < |elems| ==> Converts(elems[k])
    case _ => true
  }

  /** `${v}`: the string a template literal inserts, or the error its
      conversion throws. An object whose own `toString` hides the inherited
      one throws; any other object renders as `[object Object]`; an array
      renders through `RenderElements`. */
  function Render(v: Value): (r: Result<string, TypeError>)
    decreases v, 1
    ensures r.Ok? <==> Converts(v)
    ensures r.Ok? ==> r.value == ToText(v)
    ensures r.Err? ==> r.error == CannotConvertToPrimitive
  {
    match v
    case Obj(props) =>
      if "toString" in props then Err(CannotConvertToPrimitive) else Ok("[object Object]")
    case Arr(_) => RenderElements(v, 0)
    case _ => Ok(ToText(v))
  }

  /** `Array.prototype.join(",")` of the elements from index `k` on, as the
      conversion of an array performs it: it throws when an element does. */
  function RenderElements(v: Value, k: nat): (r: Result<string, TypeError>)
    requires v.Arr?
    decreases v, 0, |v.elems| - k
    ensures r.Ok? <==> forall j :: k <= j < |v.elems| ==> Converts(v.elems[j])
    ensures r.Ok? ==> r.value == ElementsText(v, k)
    ensures r.Err? ==> r.error == CannotConvertToPrimitive
  {
    if k >= |v.elems| then Ok("")
    else
      var e := v.elems[k];
      var head :- if e.Undefined? || e.Null? then Ok("") else Render(e);
      if k + 1 == |v.elems| then Ok(head)
      else
        var tail :- RenderElements(v, k + 1);
        Ok(head + "," + tail)
  }

  /** `String(v)` for a value that `Converts`; the text `Render` produces. */
  function ToText(v: Value): string
    decreases v, 1
  {
    match v
    case Undefined => "undefined"
    case Null => "null"
    case Bool(b) => if b then "true" else "false"
    case Number(n) => Text.IntToDecimal(n)
    case Str(s) => s
    case Arr(_) => ElementsText(v, 0)
    case Obj(_) => "[object Object]"
  }

  /** `Array.prototype.join(",")` of the elements from index `k` on; `null`
      and `undefined` elements render as the empty string. */
  function ElementsText(v: Value, k: nat): string
    requires v.Arr?
    decreases v, 0, |v.elems| - k
  {
    if k >= |v.elems| then ""
    else
      var e := v.elems[k];
      var head := if e.Undefined? || e.Null? then "" else ToText(e);
      if k + 1 == |v.elems| then head else head + "," + ElementsText(v, k + 1)
  }

  /** The values a `for...of` loop visits: an array's elements, or a string's
      code points, each a one-character string. */
  function Iterated(v: Value, expression: string): (r: Result<seq<Value>, TypeError>)
    requires Truthy(v)
    ensures v.Arr? ==> r == Ok(v.elems)
    ensures v.Str? ==> r == Ok(CodePoints(v.s))
    ensures r.Err? <==> !(v.Arr? || v.Str?)
  {
    match v
    case Arr(elems) => Ok(elems)
    case Str(s) => Ok(CodePoints(s))
    case _ => Err(NotIterable(expression))
  }

  /** The one-character strings a `for...of` loop visits in `s`. */
  function CodePoints(s: string): (r: seq<Value>)
    ensures |r| == |s|
    ensures forall k :: 0 <= k < |s| ==> r[k] == Str([s[k]])
  {
    if |s| == 0 then [] else [Str([s[0]])] + CodePoints(s[1..])
  }
}
