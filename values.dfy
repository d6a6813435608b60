/**
 * JSON-like values as the extractor handles them (parsed API bodies, the
 * extraction-config template, the results report), the Option/Result
 * wrappers, and the few Python built-ins the core relies on: truthiness,
 * `dict.get`, `str()` of a scalar and ASCII `str.upper()`.
 */
module Values {

  datatype Option<+T> = None | Some(value: T)

  /** The outcome of a step that can raise: `Err` carries what Python would raise. */
  datatype Result<+T> = Ok(value: T) | Err(error: string)

  /** A decoded JSON document; `JNull` also stands for Python's `None`. */
  datatype Json =
    | JNull
    | JBool(b: bool)
    | JInt(i: int)
    | JStr(s: string)
    | JArr(items: seq<Json>)
    | JObj(fields: map<string, Json>)

  /** Python truthiness of a decoded JSON value (`if x:`). */
  predicate Truthy(j: Json)
  {
    match j
    case JNull => false
    case JBool(b) => b
    case JInt(i) => i != 0
    case JStr(s) => s != ""
    case JArr(items) => items != []
    case JObj(fields) => fields != map[]
  }

  /** `d.get(key, default)` on a dict. */
  function GetOr(fields: map<string, Json>, key: string, default: Json): (r: Json)
    ensures key in fields ==> r == fields[key]
    ensures key !in fields ==> r == default
  {
    if key in fields then fields[key] else default
  }

  function UpperChar(c: char): char
  {
    if 'a' <= c <= 'z' then (c as int - 32) as char else c
  }

  /** `str.upper()`, restricted to ASCII letters. */
  function Upper(s: string): (r: string)
    ensures |r| == |s|
    ensures forall i :: 0 <= i < |s| ==> r[i] == UpperChar(s[i])
  {
    if s == [] then [] else [UpperChar(s[0])] + Upper(s[1..])
  }

  function DigitChar(d: nat): (c: char)
    requires d < 10
    ensures '0' <= c <= '9'
  {
    ('0' as int + d) as char
  }

  /** The decimal digits of a natural number, without leading zeros. */
  function NatToDecimal(n: nat): (r: string)
    ensures |r| >= 1
    ensures forall i :: 0 <= i < |r| ==> '0' <= r[i] <= '9'
    decreases n
  {
    if n < 10 then [DigitChar(n)] else NatToDecimal(n / 10) + [DigitChar(n % 10)]
  }

  /** The one-character strings `for c in s` visits. */
  function Chars(s: string): (r: seq<Json>)
    ensures |r| == |s|
    ensures forall i :: 0 <= i < |s| ==> r[i] == JStr([s[i]])
  {
    seq(|s|, i requires 0 <= i < |s| => JStr([s[i]]))
  }

  /** `t in s` on two strings: `t` occurs in `s` as a substring (starting here or further on). */
  predicate Contains(s: string, t: string)
    decreases |s|
  {
    |t| <= |s| && (s[..|t|] == t || Contains(s[1..], t))
  }

  /** Any occurrence of `t` in `s`, wherever it starts, makes `t in s` hold. */
  lemma {:induction false} ContainsWitness(s: string, t: string, i: nat)
    requires i + |t| <= |s| && s[i..i + |t|] == t
    ensures Contains(s, t)
    decreases i
  {
    if i > 0 {
      assert s[1..][i - 1..i - 1 + |t|] == s[i..i + |t|];
      ContainsWitness(s[1..], t, i - 1);
    }
  }

  /**
   * Python's `key in container` for a string key: key membership in a
   * dict, a substring test in a string, element equality in a list; on
   * `None`, a number or a bool it raises `TypeError` (`None` here).
   */
  function Membership(key: string, container: Json): Option<bool>
  {
    match container
    case JObj(fields) => Some(key in fields)
    case JStr(s) => Some(Contains(s, key))
    case JArr(items) => Some(JStr(key) in items)
    case _ => None
  }

  /** The outcome of `container[key] if key in container`. */
  datatype Lookup = Absent | Present(value: Json) | Raises

  /**
   * `key in container`, then `container[key]` when the test holds. Only a
   * dict can be indexed by a string key: a string or a list that passes the
   * test raises `TypeError` at the indexing, as does a test on a scalar.
   */
  function Probe(container: Json, key: string): (r: Lookup)
    ensures r.Present? <==> container.JObj? && key in container.fields
    ensures r.Present? ==> r.value == container.fields[key]
    ensures r.Absent? <==> Membership(key, container) == Some(false)
    ensures r.Raises? <==> Membership(key, container).None? || (Membership(key, container) == Some(true) && !container.JObj?)
  {
    match Membership(key, container)
    case None => Raises
    case Some(false) => Absent
    case Some(true) => if container.JObj? then Present(container.fields[key]) else Raises
  }

  /**
   * The key a value is stored under in a Python dict: lists and dicts are
   * unhashable (`None`: the assignment raises `TypeError`), and a bool is
   * the same key as the int it equals (`True == 1`).
   */
  function DictKey(j: Json): (r: Option<Json>)
    ensures r.None? <==> j.JArr? || j.JObj?
    ensures j.JBool? ==> r == Some(JInt(if j.b then 1 else 0))
    ensures !j.JBool? && r.Some? ==> r.value == j
  {
    match j
    case JArr(_) => None
    case JObj(_) => None
    case JBool(b) => Some(JInt(if b then 1 else 0))
    case _ => Some(j)
  }

  /** Python's `str(i)` for an int: an optional minus sign and the decimal digits. */
  function IntToDecimal(i: int): string
  {
    if i < 0 then "-" + NatToDecimal(-i) else NatToDecimal(i)
  }

  /** Distinct naturals have distinct renderings. */
  lemma {:induction false} NatToDecimalInjective(a: nat, b: nat)
    requires NatToDecimal(a) == NatToDecimal(b)
    ensures a == b
    decreases a
  {
    if a >= 10 && b >= 10 {
      var ra, rb := NatToDecimal(a), NatToDecimal(b);
      assert ra[..|ra| - 1] == NatToDecimal(a / 10);
      assert rb[..|rb| - 1] == NatToDecimal(b / 10);
      NatToDecimalInjective(a / 10, b / 10);
    }
  }

  /** A rendering starts with '-' exactly when the int is negative. */
  lemma SignOfDecimal(i: int)
    ensures |IntToDecimal(i)| >= 1
    ensures (IntToDecimal(i)[0] == '-') == (i < 0)
  {
    if i >= 0 {
      assert '0' <= NatToDecimal(i)[0] <= '9';
    }
  }

  /** Distinct ints have distinct renderings, so a rendered id names one project. */
  lemma IntToDecimalInjective(a: int, b: int)
    requires IntToDecimal(a) == IntToDecimal(b)
    ensures a == b
  {
    SignOfDecimal(a);
    SignOfDecimal(b);
    var ra, rb := IntToDecimal(a), IntToDecimal(b);
    if a < 0 {
      assert ra[1..] == NatToDecimal(-a) && rb[1..] == NatToDecimal(-b);
      NatToDecimalInjective(-a, -b);
    } else {
      NatToDecimalInjective(a, b);
    }
  }

  /**
   * Python's `str(x)` inside an f-string, for the scalar values the core
   * renders (project ids, error messages). Arrays and objects render as the
   * empty string: Python's `repr` layout of containers is not modelled.
   */
  function Str(j: Json): string
  {
    match j
    case JNull => "None"
    case JBool(b) => if b then "True" else "False"
    case JInt(i) => IntToDecimal(i)
    case JStr(s) => s
    case _ => ""
  }
}
