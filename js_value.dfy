/** Values produced by `JSON.parse` in the browser, and the few JavaScript
    semantics the dashboard's front end relies on: truthiness, property
    lookup that yields `undefined`, `String.prototype.trim`. */
module Js {
  import opened Wrappers

  /** A parsed JSON value. JavaScript numbers are IEEE doubles; JSON text
      cannot denote NaN or the infinities, so a real number stands for one. */
  datatype JsValue =
    | JNull
    | JBool(b: bool)
    | JNum(n: real)
    | JStr(s: string)
    | JArr(items: seq<JsValue>)
    | JObj(fields: map<string, JsValue>)

  /** JavaScript truthiness restricted to JSON values: `null`, `false`, `0`
      and `""` are falsy; every array and object (even empty) is truthy. */
  predicate Truthy(v: JsValue) {
    match v
    case JNull => false
    case JBool(b) => b
    case JNum(n) => n != 0.0
    case JStr(s) => s != ""
    case JArr(_) => true
    case JObj(_) => true
  }

  /** `v.key` for a non-null JSON value: only an object's own field is found;
      `None` stands for `undefined`. (On `null` the source would throw; the
      callers test for that first.) */
  function Prop(v: JsValue, key: string): (r: Option<JsValue>)
    ensures r.Some? <==> v.JObj? && key in v.fields
    ensures r.Some? ==> r.value == v.fields[key]
  {
    if v.JObj? && key in v.fields then Some(v.fields[key]) else None
  }

  /** The characters `String.prototype.trim` removes (`s.trim()` is
      `Text.Trim(Whitespace, s)`): the ECMAScript
      WhiteSpace and LineTerminator code points. */
  const Whitespace: set<char> := {
    '\t', '\n', '\U{000B}', '\U{000C}', '\r', ' ', '\U{00A0}', '\U{1680}',
    '\U{2000}', '\U{2001}', '\U{2002}', '\U{2003}', '\U{2004}', '\U{2005}',
    '\U{2006}', '\U{2007}', '\U{2008}', '\U{2009}', '\U{200A}',
    '\U{2028}', '\U{2029}', '\U{202F}', '\U{205F}', '\U{3000}', '\U{FEFF}'
  }

  predicate IsWhitespace(c: char) {
    c in Whitespace
  }
}
