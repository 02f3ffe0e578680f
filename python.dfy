/** The dynamically typed values the system passes around (decoded JSON, Python dicts and
    lists) and the parts of the Python runtime it depends on: truthiness, `dict.get`,
    iteration, the `in` operator, `str()` and `json.dumps`. Exceptions raised by the
    runtime are results, not aborts. */
module Python {
  import opened Text

  /** A Python value as produced by `json.loads` or built by the program. A float is carried
      as the text Python prints for it; a dict keeps its insertion order. */
  datatype Value =
    | Null
    | Bool(b: bool)
    | Int(i: int)
    | Float(repr: string)
    | Str(s: string)
    | Arr(items: seq<Value>)
    | Obj(fields: seq<(string, Value)>)

  /** The entries of a dict, in insertion order. */
  type Fields = seq<(string, Value)>

  datatype Exception = AttributeError | TypeError | ValueError(message: string) | IndexError

  /** A `ValueError` raised by the runtime itself (`int()`, tuple unpacking, `json.loads`),
      whose message text is not modelled. */
  const RuntimeValueError: Exception := ValueError("")

  datatype Option<+T> = None | Some(value: T)

  /** What a Python call does: returns a value or raises. */
  datatype Result<+T> = Ok(value: T) | Raise(exc: Exception)

  /** `bool(v)`. */
  predicate Truthy(v: Value)
  {
    match v
    case Null => false
    case Bool(b) => b
    case Int(i) => i != 0
    case Float(r) => r != "0.0" && r != "-0.0"
    case Str(s) => |s| > 0
    case Arr(items) => |items| > 0
    case Obj(fields) => |fields| > 0
  }

  /** `key in d`. */
  predicate HasKey(f: Fields, key: string)
  {
    exists k :: 0 <= k < |f| && f[k].0 == key
  }

  /** `d.get(key, default)`. */
  function GetOr(f: Fields, key: string, default: Value): Value
    decreases |f|
  {
    if |f| == 0 then default
    else if f[0].0 == key then f[0].1
    else GetOr(f[1..], key, default)
  }

  /** `d.get(key, default)` is the default exactly when the key is missing, and otherwise the
      value of an entry holding the key. */
  lemma {:induction false} GetOrFound(f: Fields, key: string, default: Value)
    ensures !HasKey(f, key) ==> GetOr(f, key, default) == default
    ensures HasKey(f, key) ==> exists k :: 0 <= k < |f| && f[k] == (key, GetOr(f, key, default))
    decreases |f|
  {
    if |f| > 0 && f[0].0 != key {
      GetOrFound(f[1..], key, default);
      if HasKey(f, key) {
        var k :| 0 <= k < |f| && f[k].0 == key;
        assert f[1..][k - 1].0 == key;
        var j :| 0 <= j < |f[1..]| && f[1..][j] == (key, GetOr(f[1..], key, default));
        assert f[j + 1] == (key, GetOr(f, key, default));
      } else {
        assert forall j :: 0 <= j < |f[1..]| ==> f[1..][j] == f[j + 1];
      }
    }
  }

  /** `d.get(key)`. */
  function Get(f: Fields, key: string): Value
  {
    GetOr(f, key, Null)
  }

  /** `d[key]` is the value of the first entry holding the key. */
  lemma {:induction false} GetAt(f: Fields, i: nat, key: string)
    requires i < |f| && f[i].0 == key
    requires forall j :: 0 <= j < i ==> f[j].0 != key
    ensures Get(f, key) == f[i].1
    decreases i
  {
    if i > 0 {
      GetAt(f[1..], i - 1, key);
    }
  }

  /** The keys of a dict, in order. */
  function Keys(f: Fields): seq<string>
  {
    seq(|f|, k requires 0 <= k < |f| => f[k].0)
  }

  /** The items `for x in v` visits: a list's elements, a string's characters, a dict's keys;
      a scalar is not iterable. */
  function Iterate(v: Value): Result<seq<Value>>
  {
    match v
    case Arr(items) => Ok(items)
    case Str(s) => Ok(seq(|s|, k requires 0 <= k < |s| => Str([s[k]])))
    case Obj(fields) => Ok(seq(|fields|, k requires 0 <= k < |fields| => Str(fields[k].0)))
    case _ => Raise(TypeError)
  }

  /** `item in container` for a string `item`: a dict key, a substring, a list element. */
  function Contains(container: Value, item: string): Result<bool>
  {
    match container
    case Obj(fields) => Ok(HasKey(fields, item))
    case Str(s) => Ok(Occurs(s, item))
    case Arr(items) => Ok(Str(item) in items)
    case _ => Raise(TypeError)
  }

  /** `repr(v)`; a string is shown between single quotes, without escaping. */
  function Repr(v: Value): string
    decreases v, 1
  {
    match v
    case Null => "None"
    case Bool(b) => if b then "True" else "False"
    case Int(i) => IntToString(i)
    case Float(r) => r
    case Str(s) => "'" + s + "'"
    case Arr(items) => "[" + Join(seq(|items|, k requires 0 <= k < |items| => Repr(items[k])), ", ") + "]"
    case Obj(fields) =>
      "{" + Join(seq(|fields|, k requires 0 <= k < |fields| =>
                       "'" + fields[k].0 + "': " + Repr(fields[k].1)), ", ") + "}"
  }

  /** `str(v)`, which is also what an f-string interpolates. */
  function PyStr(v: Value): string
  {
    if v.Str? then v.s else Repr(v)
  }

  const HexDigits: string := "0123456789abcdef"

  /** Four lower-case hexadecimal digits of `n`. */
  function Hex4(n: nat): (r: string)
    requires n < 0x1_0000
    ensures |r| == 4
  {
    [HexDigits[n / 0x1000], HexDigits[n / 0x100 % 16], HexDigits[n / 16 % 16], HexDigits[n % 16]]
  }

  /** How `json.dumps` (with `ensure_ascii`) writes one character of a string. */
  function EscapeChar(c: char): string
  {
    if c == '"' then "\\\""
    else if c == '\\' then "\\\\"
    else if c == '\n' then "\\n"
    else if c == '\r' then "\\r"
    else if c == '\t' then "\\t"
    else if c == '\U{0008}' then "\\b"
    else if c == '\U{000C}' then "\\f"
    else if ' ' <= c <= '~' then [c]
    else if (c as int) < 0x1_0000 then "\\u" + Hex4(c as int)
    else
      var n := c as int - 0x1_0000;
      "\\u" + Hex4(0xD800 + n / 0x400) + "\\u" + Hex4(0xDC00 + n % 0x400)
  }

  /** A character `json.dumps` writes as itself. */
  predicate PlainChar(c: char)
  {
    ' ' <= c <= '~' && c != '"' && c != '\\'
  }

  function EscapeString(s: string): (r: string)
    ensures (forall k :: 0 <= k < |s| ==> PlainChar(s[k])) ==> r == s
    decreases |s|
  {
    if |s| == 0 then "" else EscapeChar(s[0]) + EscapeString(s[1..])
  }

  /** `json.dumps(v)` with the default separators `", "` and `": "`. */
  function Dumps(v: Value): string
    decreases v, 1
  {
    match v
    case Null => "null"
    case Bool(b) => if b then "true" else "false"
    case Int(i) => IntToString(i)
    case Float(r) => r
    case Str(s) => "\"" + EscapeString(s) + "\""
    case Arr(items) => "[" + Join(seq(|items|, k requires 0 <= k < |items| => Dumps(items[k])), ", ") + "]"
    case Obj(fields) =>
      "{" + Join(seq(|fields|, k requires 0 <= k < |fields| =>
                       "\"" + EscapeString(fields[k].0) + "\": " + Dumps(fields[k].1)), ", ") + "}"
  }

  /** `hash(v)` succeeds: lists and dicts are unhashable, so `d.get(v)` raises `TypeError` on them. */
  predicate Hashable(v: Value)
  {
    !v.Arr? && !v.Obj?
  }

  /** The value of a non-empty run of decimal digits. */
  function DigitsValue(s: string): Option<nat>
    decreases |s|
  {
    if |s| == 0 || !('0' <= s[|s| - 1] <= '9') then None
    else
      var last := s[|s| - 1] as int - '0' as int;
      if |s| == 1 then Some(last)
      else match DigitsValue(s[..|s| - 1])
        case None => None
        case Some(v) => Some(10 * v + last)
  }

  /** The integer a float equals under `==`, read from its text when that text is integral
      (`31.0`, `-2.0`, `-0.0`); other texts stand for no integer. */
  function IntegralFloat(r: string): Option<int>
  {
    if |r| < 3 || r[|r| - 2..] != ".0" then None else SignedDigitsValue(r[..|r| - 2])
  }

  /** The value of a run of decimal digits with an optional leading minus sign. */
  function SignedDigitsValue(s: string): Option<int>
  {
    if |s| > 0 && s[0] == '-' then
      match DigitsValue(s[1..])
      case None => None
      case Some(v) => Some(-(v as int))
    else DigitsValue(s)
  }

  /** The digits `str` writes for a natural number read back as that number. */
  lemma {:induction false} DigitsRoundTrip(n: nat)
    ensures DigitsValue(NatToString(n)) == Some(n)
    decreases n
  {
    var s := NatToString(n);
    if n >= 10 {
      DigitsRoundTrip(n / 10);
      assert s[..|s| - 1] == NatToString(n / 10);
    }
  }

  /** `str(n)` read back with its sign is `n`. */
  lemma {:induction false} SignedDigitsRoundTrip(n: int)
    ensures SignedDigitsValue(IntToString(n)) == Some(n)
  {
    var s := IntToString(n);
    if n < 0 {
      DigitsRoundTrip(-n);
      assert s[1..] == NatToString(-n);
    } else {
      DigitsRoundTrip(n);
      assert s[0] != '-';
    }
  }

  /** The float `float(n)`, written as Python writes it (`31.0`), equals `n`. */
  lemma {:induction false} IntegralFloatOf(n: int)
    ensures IntegralFloat(IntToString(n) + ".0") == Some(n)
  {
    PointZeroSuffix(IntToString(n));
    SignedDigitsRoundTrip(n);
  }

  /** Writing ".0" after a text and taking it off again gives the text back. */
  lemma {:induction false} PointZeroSuffix(body: string)
    requires |body| >= 1
    ensures var r := body + ".0"; |r| >= 3 && r[|r| - 2..] == ".0" && r[..|r| - 2] == body
  {
  }

  /** The empty sequence is the unit of concatenation. */
  lemma {:induction false} AppendEmpty<T>(a: seq<T>)
    ensures [] + a == a && a + [] == a
  {
  }

  /** Concatenation regroups; calling this keeps the regrouping out of larger proofs. */
  lemma {:induction false} AppendAssoc<T>(a: seq<T>, b: seq<T>, c: seq<T>)
    ensures a + b + c == a + (b + c)
  {
  }
}
