/** Decoded JSON values as the Python client sees them, together with the bits of
    Python semantics the client relies on: truthiness, `==`, `str()`/`repr()` and the
    decimal rendering of integers. Python's `None` is `JNull`. */
module Json {

  datatype JSON =
    | JNull
    | JBool(b: bool)
    | JInt(i: int)
    | JStr(s: string)
    | JList(items: seq<JSON>)
    | JMap(fields: map<string, JSON>)

  /** Python truthiness (`bool(v)`): None, False, 0 and empty containers are false. */
  predicate Truthy(v: JSON)
  {
    match v
    case JNull => false
    case JBool(b) => b
    case JInt(i) => i != 0
    case JStr(s) => s != ""
    case JList(xs) => |xs| != 0
    case JMap(m) => |m| != 0
  }

  /** `v is True`: only the boolean singleton passes, not 1 or a non-empty string. */
  predicate IsTrue(v: JSON)
  {
    v == JBool(true)
  }

  /** Numeric value of a bool or an int (Python's bool is a subclass of int). */
  function NumberOf(v: JSON): int
    requires v.JBool? || v.JInt?
  {
    if v.JBool? then (if v.b then 1 else 0) else v.i
  }

  /** Python `a == b` on decoded JSON values: `True == 1`, `False == 0`, lists compare
      element by element and dicts key by key. */
  predicate PyEq(a: JSON, b: JSON)
  {
    if a.JList? && b.JList? then
      |a.items| == |b.items| && forall k :: 0 <= k < |a.items| ==> PyEq(a.items[k], b.items[k])
    else if a.JMap? && b.JMap? then
      a.fields.Keys == b.fields.Keys && forall k :: k in a.fields ==> PyEq(a.fields[k], b.fields[k])
    else if (a.JBool? || a.JInt?) && (b.JBool? || b.JInt?) then
      NumberOf(a) == NumberOf(b)
    else
      a == b
  }

  lemma {:induction false} PyEqReflexive(v: JSON)
    ensures PyEq(v, v)
  {
    match v
    case JList(xs) =>
      forall k | 0 <= k < |xs| ensures PyEq(xs[k], xs[k]) {
        PyEqReflexive(xs[k]);
      }
    case JMap(m) =>
      forall k | k in m ensures PyEq(m[k], m[k]) {
        PyEqReflexive(m[k]);
      }
    case _ =>
  }

  lemma {:induction false} PyEqSymmetric(a: JSON, b: JSON)
    requires PyEq(a, b)
    ensures PyEq(b, a)
  {
    if a.JList? && b.JList? {
      forall k | 0 <= k < |b.items| ensures PyEq(b.items[k], a.items[k]) {
        PyEqSymmetric(a.items[k], b.items[k]);
      }
    } else if a.JMap? && b.JMap? {
      forall k | k in b.fields ensures PyEq(b.fields[k], a.fields[k]) {
        PyEqSymmetric(a.fields[k], b.fields[k]);
      }
    }
  }

  /** Python's `==` differs from structural equality only through bool/int mixing. */
  lemma PyEqBoolIsInt(b: bool, i: int, v: JSON)
    ensures PyEq(JBool(b), JInt(i)) <==> i == (if b then 1 else 0)
    ensures !(v.JBool? || v.JInt?) ==> !PyEq(JBool(b), v) && !PyEq(JInt(i), v)
  {
  }

  // ---------------------------------------------------------------------------
  // Decimal rendering of integers (`str(n)` for an int)

  function DigitChar(d: nat): (c: char)
    requires d < 10
    ensures '0' <= c <= '9'
  {
    "0123456789"[d]
  }

  function DigitValue(c: char): nat
    requires '0' <= c <= '9'
  {
    (c as int - '0' as int) as nat
  }

  function NatToDecimal(n: nat): (s: string)
    decreases n
  {
    if n < 10 then [DigitChar(n)] else NatToDecimal(n / 10) + [DigitChar(n % 10)]
  }

  /** `str(n)` for a Python int. */
  function IntToDecimal(i: int): string
  {
    if i < 0 then "-" + NatToDecimal(-i) else NatToDecimal(i)
  }

  predicate AllDigits(s: string)
  {
    forall k :: 0 <= k < |s| ==> '0' <= s[k] <= '9'
  }

  /** Value of a string of decimal digits, most significant first. */
  function DecimalValue(s: string): nat
    requires AllDigits(s)
  {
    if s == [] then 0 else 10 * DecimalValue(s[..|s| - 1]) + DigitValue(s[|s| - 1])
  }

  /** Reading back what `NatToDecimal` wrote gives the number again. */
  lemma {:induction false} NatToDecimalRoundTrip(n: nat)
    ensures |NatToDecimal(n)| > 0 && AllDigits(NatToDecimal(n))
    ensures DecimalValue(NatToDecimal(n)) == n
  {
    var s := NatToDecimal(n);
    if n < 10 {
      assert s == [DigitChar(n)];
      assert s[..0] == [];
    } else {
      NatToDecimalRoundTrip(n / 10);
      var p := NatToDecimal(n / 10);
      assert s == p + [DigitChar(n % 10)];
      assert s[..|s| - 1] == p;
      assert DigitValue(DigitChar(n % 10)) == n % 10 by {
        assert "0123456789"[n % 10] as int == '0' as int + n % 10;
      }
    }
  }

  // ---------------------------------------------------------------------------
  // str() and repr()

  function HexDigit(d: nat): char
    requires d < 16
  {
    "0123456789abcdef"[d]
  }

  /** One character of a string as `repr()` writes it inside quotes `q`. */
  function EscapeChar(c: char, q: char): string
  {
    if c == q || c == '\\' then ['\\', c]
    else if c == '\n' then "\\n"
    else if c == '\r' then "\\r"
    else if c == '\t' then "\\t"
    else if c as int < 32 || c as int == 127 then
      "\\x" + [HexDigit(c as int / 16), HexDigit(c as int % 16)]
    else [c]
  }

  function EscapeChars(s: string, q: char): string
  {
    if s == [] then [] else EscapeChar(s[0], q) + EscapeChars(s[1..], q)
  }

  /** `repr()` of a Python str: single quotes unless the text holds a single quote and
      no double quote. */
  function ReprStr(s: string): string
  {
    var q := if '\'' in s && '"' !in s then '"' else '\'';
    [q] + EscapeChars(s, q) + [q]
  }

  function Join(parts: seq<string>, sep: string): string
  {
    if parts == [] then ""
    else if |parts| == 1 then parts[0]
    else parts[0] + sep + Join(parts[1..], sep)
  }

  /** `repr()` of a decoded value. A dict is rendered as `{...}`: its key order is not
      part of this model. */
  function Repr(v: JSON): string
  {
    match v
    case JNull => "None"
    case JBool(b) => if b then "True" else "False"
    case JInt(i) => IntToDecimal(i)
    case JStr(s) => ReprStr(s)
    case JList(xs) => "[" + Join(seq(|xs|, k requires 0 <= k < |xs| => Repr(xs[k])), ", ") + "]"
    case JMap(_) => "{...}"
  }

  /** `str()` of a decoded value: a string is itself, everything else its `repr()`. */
  function Str(v: JSON): string
  {
    if v.JStr? then v.s else Repr(v)
  }

  /** `repr(type(v))`. */
  function TypeRepr(v: JSON): string
  {
    match v
    case JNull => "<class 'NoneType'>"
    case JBool(_) => "<class 'bool'>"
    case JInt(_) => "<class 'int'>"
    case JStr(_) => "<class 'str'>"
    case JList(_) => "<class 'list'>"
    case JMap(_) => "<class 'dict'>"
  }
}
