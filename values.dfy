/**
 * Python's dynamically typed values as they travel through flow contexts,
 * node parameters, JWT claims and the in-memory dataset registry, together
 * with the few built-in operations the modelled code applies to them
 * (truthiness, `len`, `str`, `int`, iteration, `dict.get`, `a or b`).
 *
 * Library calls whose behaviour the model does not define (json.loads,
 * ast.literal_eval, `str()` of containers and floats, dict key order,
 * string-to-number parsing, pathlib's `Path.name`, pandas' `read_csv`) are
 * gathered in `Lib`, a record of uninterpreted functions passed in by the
 * caller.
 */
module Values {

  datatype Option<+T> = None | Some(value: T)

  datatype Result<+T, +E> = Ok(value: T) | Err(error: E)

  /** A Python value of the kinds JSON, pydantic and pandas hand to the backend. */
  datatype Value =
    | VNone
    | VBool(b: bool)
    | VInt(i: int)
    | VFloat(r: real)
    | VStr(s: string)
    | VList(items: seq<Value>)
    | VDict(entries: map<string, Value>)
    | VOther(kind: string)   // any other object (a float NaN, a Golden object, ...); always truthy

  /** Python truthiness, `bool(v)`. */
  predicate Truthy(v: Value) {
    match v
    case VNone => false
    case VBool(b) => b
    case VInt(i) => i != 0
    case VFloat(r) => r != 0.0
    case VStr(s) => s != ""
    case VList(items) => items != []
    case VDict(entries) => entries != map[]
    case VOther(_) => true
  }

  /** Python `a or b`: the first operand when it is truthy, otherwise the second. */
  function Or(a: Value, b: Value): (r: Value)
    ensures Truthy(r) <==> Truthy(a) || Truthy(b)
    ensures Truthy(a) ==> r == a
    ensures !Truthy(a) ==> r == b
  {
    if Truthy(a) then a else b
  }

  /** `d.get(k, default)` on a dictionary. */
  function Get(d: map<string, Value>, k: string, default: Value): Value {
    if k in d then d[k] else default
  }

  /** Python `len(v)`; `None` when the value has no length (a TypeError). */
  function Len(v: Value): Option<nat> {
    match v
    case VStr(s) => Some(|s|)
    case VList(items) => Some(|items|)
    case VDict(entries) => Some(|entries|)
    case _ => None
  }

  /** Lists and dicts cannot be dictionary keys (`hash` raises TypeError). */
  predicate Hashable(v: Value) {
    !v.VList? && !v.VDict?
  }

  /** What `ast.literal_eval` makes of a string. */
  datatype LiteralEval =
    | Literal(value: Value)      // the Python literal the string spells
    | Malformed                  // a ValueError or SyntaxError
    | Raises(message: string)    // any other exception, such as the TypeError of a list used as a dict key

  /** Library behaviour the model leaves uninterpreted. */
  datatype Lib = Lib(
    jsonLoads: string -> Option<Value>,                     // json.loads; None is a JSONDecodeError
    literalEval: string -> LiteralEval,                     // ast.literal_eval
    repr: Value -> string,                                  // str() of floats, lists, dicts and other objects
    keyOrder: map<string, Value> -> seq<string>,            // the insertion order of a dict's keys
    parseInt: string -> Option<int>,                        // int() of a string; None is a ValueError
    parseFloat: string -> Option<real>,                     // float() of a string; None is a ValueError
    pathName: string -> string,                             // pathlib.Path(s).name
    readCsv: Value -> Result<seq<map<string, Value>>, string>, // pandas.read_csv(Path(p)).to_dict('records'), or the message it raises
    getAttr: (Value, string) -> Option<Value>,              // getattr(obj, name) on a library object; None when it has no such attribute
    raised: (string, Value) -> string                       // str() of the exception built-in `op` raises on `v`, as raised(op, v)
  )

  function DigitChar(d: nat): char
    requires d < 10
  {
    "0123456789"[d]
  }

  /** Decimal notation of a natural number, as Python's `str(n)`. */
  function NatToString(n: nat): (s: string)
    ensures |s| >= 1
    ensures forall i :: 0 <= i < |s| ==> '0' <= s[i] <= '9'
    decreases n
  {
    if n < 10 then [DigitChar(n)] else NatToString(n / 10) + [DigitChar(n % 10)]
  }

  /** Python `str(i)` for an int. */
  function IntToString(i: int): string {
    if i < 0 then "-" + NatToString(-i) else NatToString(i)
  }

  /** The name of `type(v)`, as Python error messages print it. */
  function TypeName(v: Value): string {
    match v
    case VNone => "NoneType"
    case VBool(_) => "bool"
    case VInt(_) => "int"
    case VFloat(_) => "float"
    case VStr(_) => "str"
    case VList(_) => "list"
    case VDict(_) => "dict"
    case VOther(kind) => kind
  }

  /** `getattr(v, name, None)`: only library objects carry the attributes the code asks for. */
  function GetAttr(lib: Lib, v: Value, name: string): Option<Value> {
    if v.VOther? then lib.getAttr(v, name) else None
  }

  /** Python `str(v)`. */
  function Str(lib: Lib, v: Value): string {
    match v
    case VNone => "None"
    case VBool(b) => if b then "True" else "False"
    case VInt(i) => IntToString(i)
    case VStr(s) => s
    case _ => lib.repr(v)
  }

  /** The one-character strings iterating over a string yields. */
  function Chars(s: string): (cs: seq<Value>)
    ensures |cs| == |s|
    ensures forall i :: 0 <= i < |s| ==> cs[i] == VStr([s[i]])
  {
    seq(|s|, i requires 0 <= i < |s| => VStr([s[i]]))
  }

  /** A list of dicts, as Python holds it. */
  function Rows(rows: seq<map<string, Value>>): (vs: seq<Value>)
    ensures |vs| == |rows|
    ensures forall i :: 0 <= i < |rows| ==> vs[i] == VDict(rows[i])
  {
    seq(|rows|, i requires 0 <= i < |rows| => VDict(rows[i]))
  }

  /** The elements `for x in v` visits; `None` when `v` is not iterable (a TypeError). */
  function Iterate(lib: Lib, v: Value): Option<seq<Value>> {
    match v
    case VStr(s) => Some(Chars(s))
    case VList(items) => Some(items)
    case VDict(entries) =>
      var keys := lib.keyOrder(entries);
      Some(seq(|keys|, i requires 0 <= i < |keys| => VStr(keys[i])))
    case _ => None
  }

  /** Python's `int(x)` of a float: truncation toward zero. */
  function TruncateTowardZero(r: real): int {
    if r >= 0.0 then r.Floor else -((-r).Floor)
  }

  /** Python `int(v)`; `None` when it raises. */
  function ToInt(lib: Lib, v: Value): Option<int> {
    match v
    case VBool(b) => Some(if b then 1 else 0)
    case VInt(i) => Some(i)
    case VFloat(r) => Some(TruncateTowardZero(r))
    case VStr(s) => lib.parseInt(s)
    case _ => None
  }

  /** Python `float(v)`; `None` when it raises. */
  function ToFloat(lib: Lib, v: Value): Option<real> {
    match v
    case VBool(b) => Some(if b then 1.0 else 0.0)
    case VInt(i) => Some(i as real)
    case VFloat(r) => Some(r)
    case VStr(s) => lib.parseFloat(s)
    case _ => None
  }

  /** Python `s.startswith(prefix)`. */
  predicate StartsWith(s: string, prefix: string) {
    prefix <= s
  }

  /** Python `str.lower()` restricted to ASCII letters. */
  function AsciiLower(s: string): (r: string)
    ensures |r| == |s|
    ensures forall i :: 0 <= i < |s| ==> r[i] == (if 'A' <= s[i] <= 'Z' then (s[i] as int + 32) as char else s[i])
  {
    seq(|s|, i requires 0 <= i < |s| => if 'A' <= s[i] <= 'Z' then (s[i] as int + 32) as char else s[i])
  }

  /** The characters for which Python's `str.isspace()` holds; `str.strip()` removes these. */
  predicate IsPySpace(c: char) {
    var n := c as int;
    n in {9, 10, 11, 12, 13, 28, 29, 30, 31, 32, 133, 160, 5760, 8232, 8233, 8239, 8287, 12288}
    || 8192 <= n <= 8202
  }

  function TrimStart(s: string): (r: string)
    ensures |r| <= |s| && r == s[|s| - |r|..]
    ensures r != [] ==> !IsPySpace(r[0])
    ensures forall i :: 0 <= i < |s| - |r| ==> IsPySpace(s[i])
  {
    if s != [] && IsPySpace(s[0]) then TrimStart(s[1..]) else s
  }

  function TrimEnd(s: string): (r: string)
    ensures |r| <= |s| && r == s[..|r|]
    ensures r != [] ==> !IsPySpace(r[|r| - 1])
    ensures forall i :: |r| <= i < |s| ==> IsPySpace(s[i])
  {
    if s != [] && IsPySpace(s[|s| - 1]) then TrimEnd(s[..|s| - 1]) else s
  }

  /** Python `str.strip()`. */
  function Strip(s: string): string {
    TrimEnd(TrimStart(s))
  }
}
