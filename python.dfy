/**
 * The Python values the MongoDB façade receives and builds, and the few
 * built-ins it applies to them: truthiness, `== 1`, `int()` and `str.split`.
 */
module Python {
  import opened Wrappers

  /** A Python value. Dictionaries are documents, so their keys are strings. */
  datatype Py =
    | PNone
    | PBool(b: bool)
    | PInt(i: int)
    | PStr(s: string)
    | PList(items: seq<Py>)
    | PTuple(items: seq<Py>)
    | PDict(entries: map<string, Py>)

  /** The exceptions the façade raises or lets through. */
  datatype Error = ConnectionError | TypeError | ValueError | AttributeError

  /** Python's `bool(v)`: None, False, 0 and empty containers are falsy. */
  function Truthy(v: Py): (b: bool)
    ensures !b <==> v in {PNone, PBool(false), PInt(0), PStr(""), PList([]), PTuple([]), PDict(map[])}
  {
    match v
    case PNone => false
    case PBool(b) => b
    case PInt(i) => i != 0
    case PStr(s) => s != ""
    case PList(items) => items != []
    case PTuple(items) => items != []
    case PDict(entries) => entries != map[]
  }

  /** Python's `v == 1`; `True == 1` holds in Python. */
  function EqualsOne(v: Py): (b: bool)
    ensures b <==> v in {PInt(1), PBool(true)}
    ensures b ==> Truthy(v)
  {
    v == PInt(1) || v == PBool(true)
  }

  predicate IsDigit(c: char) {
    '0' <= c <= '9'
  }

  /** A non-empty string of ASCII decimal digits. */
  predicate IsDecimal(s: string) {
    s != [] && forall k :: 0 <= k < |s| ==> IsDigit(s[k])
  }

  /** The number a string of decimal digits denotes, most significant digit first. */
  function DigitsValue(s: string): nat
    requires forall k :: 0 <= k < |s| ==> IsDigit(s[k])
    decreases |s|
  {
    if s == [] then 0
    else DigitsValue(s[..|s| - 1]) * 10 + DigitValue(s[|s| - 1])
  }

  function DigitValue(c: char): nat
    requires IsDigit(c)
  {
    c as int - '0' as int
  }

  /** The decimal representation of `n`, without leading zeros. */
  function Decimal(n: nat): (s: string)
    ensures IsDecimal(s)
    ensures s[0] == '0' ==> n == 0
  {
    var d := [(n % 10 + '0' as int) as char];
    if n < 10 then d else Decimal(n / 10) + d
  }

  /** Python's `int(v)`, for a string restricted to decimal digits. */
  function IntOf(v: Py): (r: Result<int, Error>)
    ensures v.PInt? ==> r == Success(v.i)
    ensures v.PBool? ==> r == Success(if v.b then 1 else 0)
    ensures v.PStr? ==> (r.Success? <==> IsDecimal(v.s))
    ensures v.PStr? && r.Success? ==> r.value >= 0
    ensures r.Failure? ==> (r.error == ValueError <==> v.PStr?)
    ensures r.Failure? ==> r.error in {ValueError, TypeError}
  {
    match v
    case PInt(i) => Success(i)
    case PBool(b) => Success(if b then 1 else 0)
    case PStr(s) => if IsDecimal(s) then Success(DigitsValue(s)) else Failure(ValueError)
    case _ => Failure(TypeError)
  }

  /** `int(str(n)) == n` for every natural number. */
  lemma {:induction false} DecimalRoundTrip(n: nat)
    ensures IntOf(PStr(Decimal(n))) == Success(n)
  {
    DigitsOfDecimal(n);
  }

  /** Leading zeros do not change the number a digit string converts to: `int("0" + s) == int(s)`. */
  lemma LeadingZeroIgnored(s: string)
    requires IsDecimal(s)
    ensures IntOf(PStr("0" + s)) == IntOf(PStr(s))
  {
    LeadingZeroDigits(s);
  }

  lemma {:induction false} LeadingZeroDigits(s: string)
    requires forall k :: 0 <= k < |s| ==> IsDigit(s[k])
    ensures DigitsValue("0" + s) == DigitsValue(s)
    decreases |s|
  {
    if s != [] {
      var z := "0" + s;
      assert z[..|z| - 1] == "0" + s[..|s| - 1];
      LeadingZeroDigits(s[..|s| - 1]);
    }
  }

  lemma {:induction false} DigitsOfDecimal(n: nat)
    ensures DigitsValue(Decimal(n)) == n
  {
    var s := Decimal(n);
    if n >= 10 {
      DigitsOfDecimal(n / 10);
      assert s[..|s| - 1] == Decimal(n / 10);
    }
  }

  /** Number of occurrences of `c` in `s`. */
  function Count(s: string, c: char): nat {
    if s == [] then 0 else (if s[0] == c then 1 else 0) + Count(s[1..], c)
  }

  /** `sep.join(parts)`: the inverse of `Split`. */
  function Join(parts: seq<string>, sep: char): string {
    if |parts| == 0 then ""
    else if |parts| == 1 then parts[0]
    else parts[0] + [sep] + Join(parts[1..], sep)
  }

  /**
   * Python's `s.split(sep)` for a one-character separator: the pieces between
   * separators, one more than there are separators, put back together by `Join`.
   */
  function Split(s: string, sep: char): (r: seq<string>)
    ensures |r| == Count(s, sep) + 1
    ensures Join(r, sep) == s
    ensures forall k :: 0 <= k < |r| ==> sep !in r[k]
  {
    if s == [] then [""]
    else
      var rest := Split(s[1..], sep);
      if s[0] == sep then
        var r := [""] + rest;
        assert r[1..] == rest;
        r
      else
        var r := [[s[0]] + rest[0]] + rest[1..];
        assert r[1..] == rest[1..];
        assert s == [s[0]] + s[1..];
        r
  }

  /** A string without the separator splits into itself. */
  lemma {:induction false} SplitWhole(s: string, sep: char)
    requires sep !in s
    ensures Split(s, sep) == [s]
  {
    if s != [] {
      SplitWhole(s[1..], sep);
      assert [s[0]] + s[1..] == s;
    }
  }

  /** `(h + sep + p).split(sep) == [h, p]` when neither side holds the separator. */
  lemma {:induction false} SplitAt(h: string, p: string, sep: char)
    requires sep !in h && sep !in p
    ensures Split(h + [sep] + p, sep) == [h, p]
  {
    var s := h + [sep] + p;
    if h == [] {
      assert s[1..] == p;
      SplitWhole(p, sep);
    } else {
      assert s[1..] == h[1..] + [sep] + p;
      SplitAt(h[1..], p, sep);
      assert [h[0]] + h[1..] == h;
    }
  }
}
