/** The Python values the back end handles (what `json.loads` yields, plus
    whatever a user's code hands to `update`), and the few builtins its rules
    rely on: `isinstance(x, Number)`, `len`, indexing, `*`, `==` against an
    int, `str.strip()`, `str.lower()` and `json.dumps`' acceptance test. */
module Py {
  import opened Wrappers
  import opened Text

  /** A Python value. Dictionary keys are strings (JSON objects); `POther`
      stands for any object of another type (a function, a `datetime`): it
      has no length, is not a number and `json.dumps` refuses it. */
  datatype PyValue =
    | PNone
    | PBool(b: bool)
    | PInt(i: int)
    | PFloat(f: real)
    | PStr(s: string)
    | PList(items: seq<PyValue>)
    | PDict(entries: map<string, PyValue>)
    | POther

  /** The exceptions the modelled code can raise. */
  datatype PyError = TypeError | KeyError | ValueError | AttributeError

  /** The value of an expression, or the exception it raises. */
  datatype Outcome<+T> = Value(value: T) | Raises(error: PyError)

  /** Truth value testing (`bool(v)`): `None`, `False`, zero and empty
      containers are false; any other object is true. */
  predicate TruthValue(v: PyValue) {
    match v
    case PNone => false
    case PBool(b) => b
    case PInt(i) => i != 0
    case PFloat(f) => f != 0.0
    case PStr(s) => s != ""
    case PList(items) => items != []
    case PDict(entries) => entries != map[]
    case POther => true
  }

  /** `isinstance(v, numbers.Number)`: `bool` is a subclass of `int`, so
      `True` and `False` are numbers too. */
  predicate IsNumber(v: PyValue) {
    v.PBool? || v.PInt? || v.PFloat?
  }

  /** An `int` in the wide sense (`bool` included): what `*` repeats a
      sequence by. */
  predicate IsIntegral(v: PyValue) {
    v.PBool? || v.PInt?
  }

  /** The numeric value of a number (`True` is 1). */
  function NumberValue(v: PyValue): real
    requires IsNumber(v)
  {
    match v
    case PBool(b) => if b then 1.0 else 0.0
    case PInt(i) => i as real
    case PFloat(f) => f
  }

  function IntegralValue(v: PyValue): (r: int)
    requires IsIntegral(v)
    ensures r as real == NumberValue(v)
  {
    match v
    case PBool(b) => if b then 1 else 0
    case PInt(i) => i
  }

  /** `len(v)`; `None` where Python raises `TypeError`. */
  function Len(v: PyValue): (r: Option<nat>)
    ensures r.Some? <==> v.PStr? || v.PList? || v.PDict?
  {
    match v
    case PStr(s) => Some(|s|)
    case PList(items) => Some(|items|)
    case PDict(entries) => Some(|entries.Keys|)
    case _ => None
  }

  /** `v[k]` with an int `k` below `len(v)`: a list's element, a string's
      one-character string; a dictionary (whose keys are strings) raises
      `KeyError`. */
  function Index(v: PyValue, k: nat): (r: Outcome<PyValue>)
    requires Len(v).Some? && k < Len(v).value
    ensures r.Raises? <==> v.PDict?
  {
    match v
    case PList(items) => Value(items[k])
    case PStr(s) => Value(PStr([s[k]]))
    case PDict(_) => Raises(KeyError)
  }

  /** `s * n`: the sequence repeated `n` times (empty when `n <= 0`). */
  function Repeat<T>(s: seq<T>, n: int): (r: seq<T>)
    ensures |r| == if n <= 0 then 0 else |s| * n
    decreases n
  {
    if n <= 0 then [] else s + Repeat(s, n - 1)
  }

  function RepeatValue(v: PyValue, n: int): PyValue
    requires v.PStr? || v.PList?
  {
    if v.PStr? then PStr(Repeat(v.s, n)) else PList(Repeat(v.items, n))
  }

  /** `a * b`: a product of two numbers (an `int` when neither is a
      `float`), a string or list repeated by an integral operand, and
      `TypeError` for every other pair. */
  function Mul(a: PyValue, b: PyValue): (r: Outcome<PyValue>)
    ensures r.Value? && IsNumber(r.value) <==> IsNumber(a) && IsNumber(b)
    ensures r.Value? && IsNumber(r.value) ==> NumberValue(r.value) == NumberValue(a) * NumberValue(b)
    ensures r.Raises? <==>
      !(IsNumber(a) && IsNumber(b))
      && !(IsIntegral(a) && (b.PStr? || b.PList?))
      && !(IsIntegral(b) && (a.PStr? || a.PList?))
    ensures r.Raises? ==> r.error == TypeError
  {
    if IsNumber(a) && IsNumber(b) then
      if IsIntegral(a) && IsIntegral(b) then Value(PInt(IntegralValue(a) * IntegralValue(b)))
      else Value(PFloat(NumberValue(a) * NumberValue(b)))
    else if IsIntegral(a) && (b.PStr? || b.PList?) then Value(RepeatValue(b, IntegralValue(a)))
    else if IsIntegral(b) && (a.PStr? || a.PList?) then Value(RepeatValue(a, IntegralValue(b)))
    else Raises(TypeError)
  }

  /** `n == v` for an int `n`: numbers compare by value, anything else is
      unequal. */
  predicate IntEquals(n: int, v: PyValue) {
    IsNumber(v) && n as real == NumberValue(v)
  }

  /** The characters `str.strip()` removes (`str.isspace()`): unlike
      JavaScript's `trim`, this includes the separators U+001C-U+001F and
      U+0085 and excludes U+FEFF. `s.strip()` is `Text.Trim(Whitespace, s)`. */
  const Whitespace: set<char> := {
    '\t', '\n', '\U{000B}', '\U{000C}', '\r', '\U{001C}', '\U{001D}', '\U{001E}',
    '\U{001F}', ' ', '\U{0085}', '\U{00A0}', '\U{1680}',
    '\U{2000}', '\U{2001}', '\U{2002}', '\U{2003}', '\U{2004}', '\U{2005}',
    '\U{2006}', '\U{2007}', '\U{2008}', '\U{2009}', '\U{200A}',
    '\U{2028}', '\U{2029}', '\U{202F}', '\U{205F}', '\U{3000}'
  }

  /** `json.dumps(v)` succeeds: no `POther` anywhere inside. */
  predicate Serialisable(v: PyValue) {
    match v
    case PList(items) => forall k :: 0 <= k < |items| ==> Serialisable(items[k])
    case PDict(entries) => forall key :: key in entries ==> Serialisable(entries[key])
    case POther => false
    case _ => true
  }

  /** A dictionary display with the three fields every payload carries. */
  function Payload(id: PyValue, timestamp: PyValue, value: PyValue): (r: PyValue)
    ensures r.PDict? && r.entries.Keys == {"id", "timestamp", "value"}
    ensures r.entries["id"] == id && r.entries["timestamp"] == timestamp && r.entries["value"] == value
  {
    PDict(map["id" := id, "timestamp" := timestamp, "value" := value])
  }
}
