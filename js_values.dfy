/** The handful of JavaScript value semantics that the blog's pages rely on:
    truthiness (`!!x`, `!x`) and the text a value takes inside a template
    literal (`${x}`). Only the values that reach these pages' logic are
    represented: an absent value and a string. */
module JsValues {

  datatype Option<+T> = None | Some(value: T)

  /** A JavaScript value as far as this model needs one. */
  datatype JsValue = Undefined | Null | Str(s: string)

  /** ECMAScript ToBoolean: `undefined`, `null` and `""` are falsy, every
      other string is truthy. */
  predicate ToBoolean(v: JsValue)
  {
    match v
    case Undefined => false
    case Null => false
    case Str(s) => s != ""
  }

  /** A field typed `string | null` (or an optional `string`): `None` stands
      for the absent value. */
  function OfOptionalString(o: Option<string>): JsValue
  {
    match o
    case None => Null
    case Some(s) => Str(s)
  }

  /** Truthiness of a string-or-absent value, as `!!x` computes it. */
  function Truthy(o: Option<string>): (r: bool)
    ensures r <==> o.Some? && o.value != ""
  {
    ToBoolean(OfOptionalString(o))
  }

  /** The text `${v}` produces for a value: ECMAScript ToString. */
  function TemplateText(v: JsValue): string
  {
    match v
    case Undefined => "undefined"
    case Null => "null"
    case Str(s) => s
  }

  /** The text of an optional string field: an absent field is `undefined`. */
  function OptionalText(o: Option<string>): string
  {
    match o
    case None => TemplateText(Undefined)
    case Some(s) => TemplateText(Str(s))
  }

  /** The text of an optional string tells values apart, except that an
      absent value and the string "undefined" render the same. */
  lemma OptionalTextCollision(o: Option<string>, p: Option<string>)
    requires OptionalText(o) == OptionalText(p)
    ensures o == p
         || (o == None && p == Some("undefined"))
         || (o == Some("undefined") && p == None)
  {
  }
}
