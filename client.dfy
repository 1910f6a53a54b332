/** What the three React components share: JavaScript's reading of the JSON values the server
    sends (truthiness, `.length`, property access), and the error an `axios` request fails
    with. */
module Client {
  import opened Wrappers
  import opened Schemas
  import opened Json

  /** JavaScript truthiness of a property read: `undefined` (an absent key), `null`, `false`,
      `0` and `""` are false; every array and object is true, even an empty one. */
  predicate JsTruthy(o: Option<Value>) {
    match o
    case None => false
    case Some(v) =>
      match v
      case Null => false
      case Bool(b) => b
      case Int(i) => i != 0
      case Str(s) => s != ""
      case List(_) => true
      case Dict(_) => true
  }

  /** JavaScript and Python disagree only on empty containers. */
  lemma JsVersusPython(v: Value)
    ensures JsTruthy(Some(v)) <==> Truthy(v) || v == List([]) || v == Dict([])
  {
  }

  /** `v.key` on a value that is not `null`: an object's entry, or `undefined`. (On `null`
      it throws; callers check that first.) */
  function Prop(v: Value, key: string): (r: Option<Value>)
    ensures r.Some? ==> v.Dict?
  {
    if v.Dict? then Lookup(v.entries, key) else None
  }

  /** JavaScript's `q > 0`: `undefined` and `null` compare false, `true` as 1, and text by
      its decimal value. */
  predicate JsPositive(q: Option<Value>) {
    match q
    case None => false
    case Some(v) =>
      match v
      case Null => false
      case Bool(b) => b
      case Int(i) => i > 0
      case Str(s) => IsDigits(s) && DigitsValue(s) > 0
      case List(_) => false
      case Dict(_) => false
  }

  /** `o?.length`: the length of text or of an array, an object's own `length` property, and
      `undefined` for anything else. */
  function Length(o: Option<Value>): (r: Option<Value>)
    ensures o.Some? && o.value.Str? ==> r == Some(Int(|o.value.s|))
    ensures o.Some? && o.value.List? ==> r == Some(Int(|o.value.items|))
    ensures o.Some? && o.value.Dict? ==> r == Lookup(o.value.entries, "length")
    ensures o.None? || !(o.value.Str? || o.value.List? || o.value.Dict?) ==> r.None?
  {
    match o
    case Some(Str(s)) => Some(Int(|s|))
    case Some(List(xs)) => Some(Int(|xs|))
    case Some(Dict(e)) => Prop(o.value, "length")
    case _ => None
  }

  /** `o?.length > 0`. */
  predicate HasItems(o: Option<Value>) {
    JsPositive(Length(o))
  }

  /** A non-empty text or array has items; an object has them when its `length` property
      compares above 0, although it has no `map`. */
  lemma HasItemsCases(o: Option<Value>)
    ensures o.Some? && o.value.Str? ==> (HasItems(o) <==> o.value.s != [])
    ensures o.Some? && o.value.List? ==> (HasItems(o) <==> o.value.items != [])
    ensures o.Some? && o.value.Dict? ==> (HasItems(o) <==> JsPositive(Lookup(o.value.entries, "length")))
    ensures o.None? || !(o.value.Str? || o.value.List? || o.value.Dict?) ==> !HasItems(o)
  {
  }

  /** A value with items is truthy, so `o && o.length > 0` is the same test as `o?.length > 0`. */
  lemma HasItemsTruthy(o: Option<Value>)
    ensures HasItems(o) ==> JsTruthy(o)
  {
  }

  /** `o.map(f)`: an array maps element by element; text, and an object with a `length`,
      have no `map`, so it throws. */
  function MapItems<T>(o: Option<Value>, f: Value -> Result<T, Exc>): (r: Result<seq<T>, Exc>)
    requires HasItems(o)
    ensures o.value.List? ==> r == MapAll(o.value.items, f)
    ensures !o.value.List? ==> r == Err(TypeError)
  {
    if o.value.List? then MapAll(o.value.items, f) else Err(TypeError)
  }

  /** A failed request: `error.response?.data?.detail`, when the server sent one, and the
      transport's own `error.message`. */
  datatype HttpError = HttpError(detail: Option<string>, message: string)

  /** `detail || message`: an absent or empty detail falls back to the message. */
  function ErrorText(e: HttpError): (t: string)
    ensures e.detail.Some? && e.detail.value != "" ==> t == e.detail.value
    ensures e.detail.None? || e.detail.value == "" ==> t == e.message
  {
    if e.detail.Some? && e.detail.value != "" then e.detail.value else e.message
  }

  /** The prefix of every error line the components show. */
  const ErrorPrefix: string := "\U{274C} Error: "

  /** The representative every request is made for. */
  const RepId: string := "rep_001"

  /** The `detail` of the `extractedData` event the conversational panel dispatches. */
  datatype Detail = Detail(extractedData: Option<Value>, interaction: Option<Value>)
}
