/** JSON values as JavaScript code sees them after `JSON.parse`, with the two JavaScript
    operations the core applies to untyped objects: property access and truthiness. */
module JsonValues {
  import opened Wrappers

  /** Numbers are modelled as integers (every number the core reads is a count of seconds
      or an attempt counter). */
  datatype Json =
    | JNull
    | JBool(b: bool)
    | JNumber(n: int)
    | JString(s: string)
    | JArray(items: seq<Json>)
    | JObject(fields: map<string, Json>)

  /** `obj[key]`: `None` stands for `undefined`. Only objects have the properties the core
      reads (arrays and strings have none of those names; a `null` receiver throws, which
      every caller in the core handles exactly like a missing property). */
  function Prop(v: Json, key: string): (r: Option<Json>)
    ensures r.Some? <==> v.JObject? && key in v.fields
    ensures r.Some? ==> r.value == v.fields[key]
  {
    if v.JObject? && key in v.fields then Some(v.fields[key]) else None
  }

  /** JavaScript truthiness of a defined value. */
  predicate Truthy(v: Json) {
    match v
    case JNull => false
    case JBool(b) => b
    case JNumber(n) => n != 0
    case JString(s) => s != ""
    case JArray(_) => true
    case JObject(_) => true
  }

  /** Truthiness of a possibly `undefined` value. */
  predicate Defined(v: Option<Json>) {
    v.Some? && Truthy(v.value)
  }

  /** `typeof obj[key] === "string"`. */
  predicate IsStringProp(v: Json, key: string) {
    var p := Prop(v, key);
    p.Some? && p.value.JString?
  }

  /** `typeof obj[key] === "number"`. */
  predicate IsNumberProp(v: Json, key: string) {
    var p := Prop(v, key);
    p.Some? && p.value.JNumber?
  }

  /** `typeof obj[key] === "object"` (true of `null`, arrays and objects). */
  predicate IsObjectProp(v: Json, key: string) {
    var p := Prop(v, key);
    p.Some? && (p.value.JNull? || p.value.JArray? || p.value.JObject?)
  }

  /** A property that is present and a non-empty string (JSON schema `type: 'string', minLength: 1`). */
  predicate IsNonEmptyStringProp(v: Json, key: string) {
    IsStringProp(v, key) && Prop(v, key).value.s != ""
  }
}
