/**
 * Values decoded from JSON as Python's `json` module yields them, the Python conversions the
 * connectors apply to them (`str`, `int`, `float`, truthiness, `dict.get`), and output rows.
 */
module Json {
  import opened Text
  import Seqs

  datatype Option<+T> = None | Some(value: T)

  datatype Result<+T> = Ok(value: T) | Err(error: string)

  datatype Cast = IntCast | FloatCast | Plus(n: int)

  /**
   * A decoded JSON value. An object keeps its members in document order, as a Python dict does.
   * `JFloat` carries Python's `repr` of the float, which the model reads only where the source
   * adds to a float or compares one with a page number.
   * `JCast(c, v)` stands for `int(v)`, `float(v)` or `v + n` where the model does not compute the
   * result: parsing a float from text, a value the source's cast would reject, or a sum involving
   * a float that is not a whole number.
   */
  datatype Json =
    | JNull
    | JBool(b: bool)
    | JInt(i: int)
    | JFloat(repr: string)
    | JStr(s: string)
    | JList(items: seq<Json>)
    | JObj(fields: seq<Field>)
    | JCast(cast: Cast, src: Json)

  datatype Field = Field(key: string, val: Json)

  /** An output row: column name to cell. */
  type Row = map<string, Json>

  /** The position of the last member with key `k`, or -1. */
  function LastIndex(fs: seq<Field>, k: string): (i: int)
    ensures -1 <= i < |fs|
    ensures i >= 0 ==> fs[i].key == k
    ensures forall j :: i < j < |fs| ==> fs[j].key != k
  {
    if fs == [] then -1
    else if fs[|fs| - 1].key == k then |fs| - 1
    else LastIndex(fs[..|fs| - 1], k)
  }

  /** The value stored under `k`; with a repeated key the last one wins, as in `json.loads` and `dict(items)`. */
  function Lookup(fs: seq<Field>, k: string): (r: Option<Json>)
    ensures r.Some? <==> k in Keys(fs)
  {
    var i := LastIndex(fs, k);
    if i < 0 then None else Some(fs[i].val)
  }

  function Keys(fs: seq<Field>): set<string> {
    set i | 0 <= i < |fs| :: fs[i].key
  }

  /**
   * `v.get(k)` as an Option. The connectors call it on values they expect to be objects; on
   * anything else the model reads the key as absent (the source would raise AttributeError).
   */
  function Get(v: Json, k: string): Option<Json> {
    if v.JObj? then Lookup(v.fields, k) else None
  }

  /** `v.get(k, d)`. */
  function GetOr(v: Json, k: string, d: Json): Json {
    match Get(v, k)
    case Some(x) => x
    case None => d
  }

  /** `v.get(k)`, whose default is `None`. */
  function At(v: Json, k: string): Json {
    GetOr(v, k, JNull)
  }

  /** `k in v` for an object. */
  predicate Has(v: Json, k: string) {
    Get(v, k).Some?
  }

  /**
   * Python's `k in v` for a string `k`: a key of a dict, an element of a list, a substring of a
   * string. None when `in` raises TypeError, as it does for null, a number or a boolean.
   */
  function Member(k: string, v: Json): Option<bool> {
    match v
    case JObj(_) => Some(Has(v, k))
    case JList(xs) => Some(JStr(k) in xs)
    case JStr(cs) => Some(Infix(k, cs))
    case _ => None
  }

  /** The elements a `for` loop visits when the value is a list; anything else is read as empty. */
  function Elems(v: Json): seq<Json> {
    if v.JList? then v.items else []
  }

  /** Python's `bool(v)`. A symbolic cast result is taken as truthy. */
  predicate Truthy(v: Json) {
    match v
    case JNull => false
    case JBool(b) => b
    case JInt(i) => i != 0
    case JFloat(r) => r != "0.0" && r != "-0.0"
    case JStr(s) => s != ""
    case JList(xs) => xs != []
    case JObj(fs) => fs != []
    case JCast(_, _) => true
  }

  /** Python's `a or b`. */
  function Or(a: Json, b: Json): (r: Json)
    ensures Truthy(a) ==> r == a
    ensures !Truthy(a) ==> r == b
  {
    if Truthy(a) then a else b
  }

  predicate IsScalar(v: Json) {
    !v.JList? && !v.JObj?
  }

  function DigitChar(d: nat): char
    requires d < 10
  {
    ('0' as int + d) as char
  }

  function NatToString(n: nat): (r: string)
    ensures r != []
    ensures forall i :: 0 <= i < |r| ==> IsDigit(r[i])
  {
    if n < 10 then [DigitChar(n)] else NatToString(n / 10) + [DigitChar(n % 10)]
  }

  /** `str(i)` for an integer. */
  function IntToString(i: int): (r: string)
    ensures r != []
  {
    if i < 0 then "-" + NatToString(-i) else NatToString(i)
  }

  /** The value of a non-empty run of decimal digits. */
  function DigitsValue(ds: string): nat
    requires forall i :: 0 <= i < |ds| ==> IsDigit(ds[i])
  {
    if ds == [] then 0
    else
      assert IsDigit(ds[|ds| - 1]);
      DigitsValue(ds[..|ds| - 1]) * 10 + (ds[|ds| - 1] as int - '0' as int)
  }

  /**
   * `int(s)` for a string: surrounding whitespace, an optional sign, then decimal digits.
   * None is the ValueError the source would see.
   */
  function ParseInt(s: string): Option<int> {
    ParseSigned(Strip(s))
  }

  /** An optional sign followed by decimal digits, and nothing else. */
  function ParseSigned(t: string): Option<int> {
    if t == [] then None
    else
      var neg := t[0] == '-';
      var body := if t[0] == '-' || t[0] == '+' then t[1..] else t;
      if body != [] && forall i :: 0 <= i < |body| ==> IsDigit(body[i]) then
        var n: int := DigitsValue(body);
        Some(if neg then -n else n)
      else None
  }

  lemma {:induction false} DigitsOfNat(n: nat)
    ensures DigitsValue(NatToString(n)) == n
  {
    if n >= 10 {
      DigitsOfNat(n / 10);
      var s := NatToString(n);
      assert s[..|s| - 1] == NatToString(n / 10);
    }
  }

  lemma DigitsNoSpace(d: string)
    requires forall i :: 0 <= i < |d| ==> IsDigit(d[i])
    ensures NoSpace(d) && NoSpace(['-'] + d)
  {
    forall j | 0 <= j < |d| ensures !IsSpace(d[j]) { assert IsDigit(d[j]); }
    forall j | 0 <= j < |['-'] + d| ensures !IsSpace((['-'] + d)[j]) {
      if j > 0 { assert (['-'] + d)[j] == d[j - 1]; assert IsDigit(d[j - 1]); }
    }
  }

  lemma ParsePositive(d: string)
    requires d != [] && forall i :: 0 <= i < |d| ==> IsDigit(d[i])
    ensures ParseInt(d) == Some(DigitsValue(d))
  {
    DigitsNoSpace(d);
    NoSpaceStrip(d);
    assert IsDigit(d[0]);
  }

  lemma ParseNegative(d: string)
    requires d != [] && forall i :: 0 <= i < |d| ==> IsDigit(d[i])
    ensures ParseInt(['-'] + d) == Some(-(DigitsValue(d) as int))
  {
    DigitsNoSpace(d);
    NoSpaceStrip(['-'] + d);
    ParseSignedNegative(d);
  }

  lemma ParseSignedNegative(d: string)
    requires d != [] && forall i :: 0 <= i < |d| ==> IsDigit(d[i])
    ensures ParseSigned(['-'] + d) == Some(-(DigitsValue(d) as int))
  {
    assert (['-'] + d)[1..] == d;
  }

  /** Reading back what `str` wrote gives the integer again. */
  lemma ParseIntToString(i: int)
    ensures ParseInt(IntToString(i)) == Some(i)
  {
    var n: nat := if i < 0 then -i else i;
    DigitsOfNat(n);
    if i < 0 {
      ParseNegative(NatToString(n));
    } else {
      ParsePositive(NatToString(n));
    }
  }

  /** Python's `repr` of an element inside a container: strings are quoted. */
  function Repr(v: Json): string
    decreases v, 1
  {
    if v.JStr? then "'" + v.s + "'" else PyStr(v)
  }

  function ReprItems(xs: seq<Json>): string
    decreases xs, 0
  {
    if xs == [] then ""
    else if |xs| == 1 then Repr(xs[0])
    else Repr(xs[0]) + ", " + ReprItems(xs[1..])
  }

  function ReprFields(fs: seq<Field>): string
    decreases fs, 0
  {
    if fs == [] then ""
    else
      var f := "'" + fs[0].key + "': " + Repr(fs[0].val);
      if |fs| == 1 then f else f + ", " + ReprFields(fs[1..])
  }

  /**
   * Python's `str(v)`. Quoting inside containers ignores Python's choice of quote character and
   * escapes; a symbolic cast is rendered as the call it stands for.
   */
  function PyStr(v: Json): string
    decreases v, 0
  {
    match v
    case JNull => "None"
    case JBool(b) => if b then "True" else "False"
    case JInt(i) => IntToString(i)
    case JFloat(r) => r
    case JStr(s) => s
    case JList(xs) => "[" + ReprItems(xs) + "]"
    case JObj(fs) => "{" + ReprFields(fs) + "}"
    case JCast(c, src) =>
      match c
      case IntCast => "int(" + Repr(src) + ")"
      case FloatCast => "float(" + Repr(src) + ")"
      case Plus(n) => "(" + Repr(src) + " + " + IntToString(n) + ")"
  }

  /** The integer part of a float written as `[-]digits.digits`; None for any other repr. */
  function TruncFloatRepr(r: string): Option<int> {
    var parts := Split(r, '.');
    if |parts| == 2 && parts[1] != [] && (forall i :: 0 <= i < |parts[1]| ==> IsDigit(parts[1][i]))
    then
      var ip := parts[0];
      var digits := if ip != [] && ip[0] == '-' then ip[1..] else ip;
      if digits != [] && forall i :: 0 <= i < |digits| ==> IsDigit(digits[i]) then ParseInt(ip) else None
    else None
  }

  /**
   * Python's `int(v)`; None when the source's call raises: None, a list, a dict, a string that is
   * not a decimal integer, and the floats `inf`, `-inf` and `nan`.
   */
  function PyInt(v: Json): (r: Option<int>)
    ensures v.JInt? ==> r == Some(v.i)
    ensures v.JNull? || v.JList? || v.JObj? || v.JCast? ==> r.None?
    ensures v.JStr? ==> r == ParseInt(v.s)
    ensures v.JFloat? && Special(v.repr) ==> r.None?
    ensures v.JFloat? && !Special(v.repr) && TruncFloatRepr(v.repr).None? && ExpRepr(v.repr).Some? ==>
      r == Some(ExpTrunc(ExpRepr(v.repr).value.0, ExpRepr(v.repr).value.1))
  {
    match v
    case JInt(i) => Some(i)
    case JBool(b) => Some(if b then 1 else 0)
    case JStr(s) => ParseInt(s)
    case JFloat(r) =>
      if Special(r) then None
      else if TruncFloatRepr(r).Some? then TruncFloatRepr(r)
      else if ExpRepr(r).Some? then Some(ExpTrunc(ExpRepr(r).value.0, ExpRepr(r).value.1))
      else None
    case _ => None
  }

  /**
   * What `list.extend(items)` appends, which is also what `len(items)` counts: a list's elements,
   * a dict's keys (once each, in the order they first occur), a string's characters as
   * one-character strings. None when `extend` raises TypeError: null, a number or a boolean.
   */
  function Extended(items: Json): (r: Option<seq<Json>>)
    ensures r.None? <==> !(items.JList? || items.JObj? || items.JStr?)
    ensures items.JList? ==> r == Some(items.items)
    ensures items.JObj? ==> (r.Some? && |r.value| == |Items(items.fields)|
      && forall i :: 0 <= i < |r.value| ==> r.value[i] == JStr(Items(items.fields)[i].key))
    ensures items.JStr? ==> (r.Some? && |r.value| == |items.s|
      && forall i :: 0 <= i < |r.value| ==> r.value[i] == JStr([items.s[i]]))
  {
    match items
    case JList(xs) => Some(xs)
    case JObj(fs) => Some(Seqs.Map(Items(fs), (f: Field) => JStr(f.key)))
    case JStr(cs) => Some(Seqs.Map(cs, (c: char) => JStr([c])))
    case _ => None
  }

  /**
   * A cell the source fills with `int(v)`. Where `int` raises the cell is the opaque cast; the
   * extractions that fill such cells check `PyInt` first and return no table when it is None.
   */
  function ToInt(v: Json): (r: Json)
    ensures PyInt(v).Some? ==> r == JInt(PyInt(v).value)
  {
    match PyInt(v)
    case Some(n) => JInt(n)
    case None => JCast(IntCast, v)
  }

  /** A cell the source fills with `float(v)`; exact for floats, booleans and integers within 2^53. */
  function ToFloat(v: Json): (r: Json)
    ensures r.JFloat? || r.JCast?
  {
    match v
    case JFloat(_) => v
    case JBool(b) => JFloat(if b then "1.0" else "0.0")
    case JInt(i) => if -ExactFloat <= i <= ExactFloat then JFloat(IntToString(i) + ".0") else JCast(FloatCast, v)
    case _ => JCast(FloatCast, v)
  }

  /** 10 to the power `k`. */
  function Pow10(k: nat): (p: nat)
    ensures p >= 1
  {
    if k == 0 then 1 else 10 * Pow10(k - 1)
  }

  predicate AllDigits(s: string) {
    forall i :: 0 <= i < |s| ==> IsDigit(s[i])
  }

  /**
   * A float repr in exponent notation, `[-]d[.ddd]e(+|-)dd`, as Python writes floats of magnitude
   * at least 1e16 or below 1e-4, read as `(m, k)` whose value is `m * 10^k`; None for any other
   * string.
   */
  function ExpRepr(r: string): Option<(int, int)> {
    var parts := Split(r, 'e');
    if |parts| != 2 then None
    else match (Mantissa(parts[0]), Exponent(parts[1]))
      case (Some(m), Some(e)) => Some((m.0, e - m.1))
      case _ => None
  }

  /** The mantissa `[-]d[.ddd]` as its digits read as one integer, and the number of digits after the point. */
  function Mantissa(mant: string): Option<(int, nat)> {
    var neg := mant != [] && mant[0] == '-';
    var m := if neg then mant[1..] else mant;
    var ds := Split(m, '.');
    var frac := if |ds| == 2 then ds[1] else "";
    if |ds| > 2 || ds[0] == [] || !AllDigits(ds[0] + frac) then None
    else
      var v: int := DigitsValue(ds[0] + frac);
      Some((if neg then -v else v, |frac|))
  }

  /** The exponent `(+|-)dd`. */
  function Exponent(ex: string): Option<int> {
    var neg := ex != [] && ex[0] == '-';
    var ds := if ex != [] && (ex[0] == '-' || ex[0] == '+') then ex[1..] else ex;
    if ds == [] || !AllDigits(ds) then None
    else
      var v: int := DigitsValue(ds);
      Some(if neg then -v else v)
  }

  /** The reprs Python gives the infinities and nan. */
  predicate Special(r: string) {
    r == "inf" || r == "-inf" || r == "nan"
  }

  /** `1e+16`, the repr of the float `json.loads` reads from `1e16`, is 1 times 10^16. */
  lemma ExpReprLarge()
    ensures ExpRepr("1e+16") == Some((1, 16))
  {
    ExpSplitLarge();
    LargeParts();
  }

  /** The mantissa `1` and the exponent `+16`. */
  lemma LargeParts()
    ensures Mantissa("1") == Some((1, 0)) && Exponent("+16") == Some(16)
  {
    SplitFree("1", '.');
    assert "1" + "" == "1";
    assert "+16"[1..] == "16";
    assert "16"[..1] == "1";
  }

  /** `1e+16` splits at its `e` into `1` and `+16`. */
  lemma ExpSplitLarge()
    ensures Split("1e+16", 'e') == ["1", "+16"]
  {
    assert "1e+16" == "1" + ['e'] + "+16";
    SplitAt("1", "+16", 'e');
  }

  /** `1e+16` has no decimal point, so it is not a plain `digits.digits` repr. */
  lemma NotTruncLarge()
    ensures TruncFloatRepr("1e+16").None?
  {
    var r := "1e+16";
    assert forall i :: 0 <= i < |r| ==> r[i] != '.';
    SplitFree(r, '.');
  }

  lemma PowSixteen()
    ensures Pow10(16) == 10000000000000000
  {
    assert Pow10(4) == 10000;
    assert Pow10(8) == 100000000 by { PowSum(4, 4); }
    PowSum(8, 8);
  }

  /** The float `1e+16` is a double exactly: its integer part is 10^16. */
  lemma LargeExpTrunc()
    ensures ExpRepr("1e+16") == Some((1, 16))
    ensures ExpTrunc(1, 16) == 10000000000000000
  {
    ExpReprLarge();
    PowSixteen();
    ScalePow(1, 16);
    assert Ulp(10000000000000000) == 2 by { assert Ulp(5000000000000000) == 1; }
    RoundDoubleNearest(10000000000000000);
  }

  /** `int(1e16)`: `json.loads` reads `1e16` as the float written `1e+16`, and `int()` of it is 10^16. */
  lemma LargeFloatInt()
    ensures PyInt(JFloat("1e+16")) == Some(10000000000000000)
  {
    NotTruncLarge();
    LargeExpTrunc();
  }

  lemma {:induction false} PowSum(a: nat, b: nat)
    ensures Pow10(a + b) == Pow10(a) * Pow10(b)
  {
    if a > 0 {
      PowSum(a - 1, b);
    }
  }

  /**
   * The spacing of the doubles around a non-negative integer `n`: 1 below 2^53, and doubled for
   * every further binary digit.
   */
  function Ulp(n: nat): (u: nat)
    ensures u >= 1
    ensures n < ExactFloat ==> u == 1
  {
    if n < ExactFloat then 1 else 2 * Ulp(n / 2)
  }

  /** At or above 2^53, `n / Ulp(n)` keeps exactly 53 binary digits. */
  lemma {:induction false} UlpSpacing(n: nat)
    ensures n >= ExactFloat ==> ExactFloat <= 2 * (n / Ulp(n)) < 2 * ExactFloat
    decreases n
  {
    if n >= ExactFloat {
      UlpSpacing(n / 2);
      DivTwice(n, Ulp(n / 2));
    }
  }

  lemma DivTwice(n: nat, u: nat)
    requires u >= 1
    ensures n / (2 * u) == (n / 2) / u
  {
    var a, q := n / 2, (n / 2) / u;
    assert a == u * q + a % u;
    assert n == (2 * u) * q + (2 * (a % u) + n % 2);
    DivUnique(n, 2 * u, q, 2 * (a % u) + n % 2);
  }

  lemma DivUnique(n: int, d: int, q: int, r: int)
    requires d >= 1 && 0 <= r < d && n == d * q + r
    ensures n / d == q
  {
    var q', r' := n / d, n % d;
    if q' < q {
      MulStep(d, q', q);
    } else if q < q' {
      MulStep(d, q, q');
    }
  }

  lemma {:induction false} MulStep(d: int, a: int, b: int)
    requires a < b
    ensures d * a + d <= d * b || d < 0
    decreases b - a
  {
    assert d * (a + 1) == d * a + d;
    if a + 1 < b {
      MulStep(d, a + 1, b);
    }
  }

  /**
   * The double nearest a non-negative integer `n`, a tie going to the even one, as Python's
   * `float()` reads a decimal; overflow to `inf` is not modelled.
   */
  function RoundDouble(n: nat): nat {
    RoundTo(n, Ulp(n))
  }

  /** The multiple of `u` nearest `n`, a tie going to an even multiple. */
  function RoundTo(n: nat, u: nat): nat
    requires u >= 1
  {
    var rem := n % u;
    Multiples(n, u);
    if 2 * rem > u || (2 * rem == u && (n / u) % 2 == 1) then n - rem + u else n - rem
  }

  /**
   * `RoundDouble(n)` lies on the grid of doubles around `n`, at most half a spacing from `n`, and
   * is `n` itself when `n` is on that grid.
   */
  lemma RoundDoubleNearest(n: nat)
    ensures var u, r := Ulp(n), RoundDouble(n);
      && r % u == 0
      && -(u as int) <= 2 * (r as int - n) <= u
      && (n % u == 0 ==> r == n)
  {
    RoundToNearest(n, Ulp(n));
  }

  lemma RoundToNearest(n: nat, u: nat)
    requires u >= 1
    ensures var r := RoundTo(n, u);
      && r % u == 0
      && -(u as int) <= 2 * (r as int - n) <= u
      && (n % u == 0 ==> r == n)
  {
    Multiples(n, u);
  }

  /** The multiples of `u` on either side of `n`. */
  lemma Multiples(n: nat, u: nat)
    requires u >= 1
    ensures 0 <= n % u < u && n % u <= n
    ensures (n - n % u) % u == 0 && (n - n % u + u) % u == 0
  {
    var q, lo := n / u, n - n % u;
    assert lo == u * q;
    assert lo + u == u * (q + 1);
    DivUnique(lo, u, q, 0);
    DivUnique(lo + u, u, q + 1, 0);
  }

  /**
   * Python's `int()` of the float whose repr in exponent notation reads as `m * 10^k`: the double
   * nearest the value, truncated toward zero. With a negative `k` the decimal is truncated; below
   * 2^53 no integer lies between a float and its shortest repr, so the two agree.
   */
  function ExpTrunc(m: int, k: int): int {
    var a: nat := if m < 0 then -m else m;
    var w: nat := if k >= 0 then RoundDouble(Scale(a, k)) else Shrink(a, -k);
    if m < 0 then -(w as int) else w
  }

  /** `a * 10^k`. */
  function Scale(a: nat, k: nat): nat {
    if k == 0 then a else 10 * Scale(a, k - 1)
  }

  lemma {:induction false} ScalePow(a: nat, k: nat)
    ensures Scale(a, k) == a * Pow10(k)
  {
    if k > 0 {
      ScalePow(a, k - 1);
      assert 10 * (a * Pow10(k - 1)) == a * (10 * Pow10(k - 1));
    }
  }

  /** `a // 10^k`. */
  function Shrink(a: nat, k: nat): nat {
    if k == 0 then a else Shrink(a / 10, k - 1)
  }

  /** The largest integer below which every integer is a float exactly: 2^53. */
  const ExactFloat := 9007199254740992

  /** The whole number a float repr `[-]digits.0` writes; None for any other repr. */
  function WholeFloat(r: string): Option<int> {
    if |r| >= 2 && r[|r| - 2..] == ".0" then TruncFloatRepr(r) else None
  }

  /**
   * Python's `x + n` for the float `x` whose repr is `r`: infinities and nan are unchanged; a whole
   * number sums exactly while both it and the sum stay within 2^53, and is written `digits.0`;
   * any other sum is kept symbolic.
   */
  function FloatPlus(r: string, n: int): (v: Json)
    ensures r == "inf" || r == "-inf" || r == "nan" ==> v == JFloat(r)
    ensures WholeFloat(r).Some? && r != "inf" && r != "-inf" && r != "nan"
      && -ExactFloat <= WholeFloat(r).value <= ExactFloat && -ExactFloat <= WholeFloat(r).value + n <= ExactFloat
      ==> v == JFloat(IntToString(WholeFloat(r).value + n) + ".0")
    ensures v.JFloat? || v == JCast(Plus(n), JFloat(r))
  {
    if r == "inf" || r == "-inf" || r == "nan" then JFloat(r)
    else match WholeFloat(r)
      case Some(w) =>
        if -ExactFloat <= w <= ExactFloat && -ExactFloat <= w + n <= ExactFloat then JFloat(IntToString(w + n) + ".0")
        else JCast(Plus(n), JFloat(r))
      case None => JCast(Plus(n), JFloat(r))
  }

  /** A whole float written `digits.0` sums exactly, as Python's float addition does below 2^53. */
  lemma WholeFloatPlus(w: int, n: int)
    requires -ExactFloat <= w <= ExactFloat && -ExactFloat <= w + n <= ExactFloat
    ensures FloatPlus(IntToString(w) + ".0", n) == JFloat(IntToString(w + n) + ".0")
  {
    var r := IntToString(w) + ".0";
    WholeFloatRepr(w);
    assert r != "inf" && r != "-inf" && r != "nan" by {
      assert r[|r| - 1] == '0';
    }
  }

  /** `str(w)` is an optional `-` followed by the digits of `|w|`, so it holds no `.`. */
  lemma IntToStringShape(w: int)
    ensures var d := IntToString(w); var digits := if d[0] == '-' then d[1..] else d;
      && (forall i :: 0 <= i < |d| ==> d[i] != '.')
      && digits != [] && (forall i :: 0 <= i < |digits| ==> IsDigit(digits[i]))
  {
    var d := IntToString(w);
    var n: nat := if w < 0 then -w else w;
    var ds := NatToString(n);
    assert d == (if w < 0 then "-" + ds else ds);
    forall i | 0 <= i < |d| ensures d[i] != '.' {
      if w < 0 && i > 0 { assert d[i] == ds[i - 1]; }
    }
    if w < 0 { assert d[1..] == ds; } else { assert IsDigit(ds[0]); }
  }

  /** A repr `ip.frac` with digits on both sides reads as the integer part. */
  lemma TruncFloatReprOf(ip: string, frac: string)
    requires ip != [] && frac != []
    requires forall i :: 0 <= i < |ip| ==> ip[i] != '.'
    requires forall i :: 0 <= i < |frac| ==> IsDigit(frac[i])
    requires var digits := if ip[0] == '-' then ip[1..] else ip;
      digits != [] && forall i :: 0 <= i < |digits| ==> IsDigit(digits[i])
    ensures TruncFloatRepr(ip + ['.'] + frac) == ParseInt(ip)
  {
    SplitAt(ip, frac, '.');
  }

  /** The repr `digits.0` of a whole number is read back as that number. */
  lemma WholeFloatRepr(w: int)
    ensures WholeFloat(IntToString(w) + ".0") == Some(w)
  {
    var d := IntToString(w);
    var r := d + ".0";
    assert r[|r| - 2..] == ".0";
    ParseIntToString(w);
    IntToStringShape(w);
    assert r == d + ['.'] + "0";
    TruncFloatReprOf(d, "0");
  }

  /** `d[k] = v` on an ordered dict: an existing key keeps its place, a new key goes last. */
  function SetField(fs: seq<Field>, k: string, v: Json): (r: seq<Field>)
    ensures Lookup(r, k) == Some(v)
    ensures forall j :: j != k ==> Lookup(r, j) == Lookup(fs, j)
    ensures Keys(r) == Keys(fs) + {k}
  {
    if k in Keys(fs) then ReplaceAll(fs, k, v) else fs + [Field(k, v)]
  }

  /** Setting a key twice leaves the dict as setting it once to the second value. */
  lemma SetFieldTwice(fs: seq<Field>, k: string, v: Json, w: Json)
    ensures SetField(SetField(fs, k, v), k, w) == SetField(fs, k, w)
  {
    var a := SetField(fs, k, v);
    if k in Keys(fs) {
      assert |a| == |fs| && forall i :: 0 <= i < |fs| ==> a[i].key == fs[i].key;
      assert ReplaceAll(a, k, w) == ReplaceAll(fs, k, w);
    } else {
      assert forall i :: 0 <= i < |fs| ==> fs[i].key != k;
      assert ReplaceAll(a, k, w) == fs + [Field(k, w)];
    }
  }

  /** Every member with key `k` holds `v`. */
  predicate Holds(fs: seq<Field>, k: string, v: Json) {
    forall i :: 0 <= i < |fs| && fs[i].key == k ==> fs[i].val == v
  }

  /** After `d[k] = v` every member with key `k` holds `v`, and setting another key keeps it so. */
  lemma HoldsSet(fs: seq<Field>, k: string, v: Json, j: string, w: Json)
    ensures Holds(SetField(fs, k, v), k, v)
    ensures j != k && Holds(fs, k, v) ==> Holds(SetField(fs, j, w), k, v)
  {
  }

  /** Setting a key to the value all its members already hold changes nothing. */
  lemma SetFieldHeld(fs: seq<Field>, k: string, v: Json)
    requires k in Keys(fs) && Holds(fs, k, v)
    ensures SetField(fs, k, v) == fs
  {
  }

  function ReplaceAll(fs: seq<Field>, k: string, v: Json): (r: seq<Field>)
    requires k in Keys(fs)
    ensures Lookup(r, k) == Some(v)
    ensures forall j :: j != k ==> Lookup(r, j) == Lookup(fs, j)
    ensures Keys(r) == Keys(fs)
  {
    var r := seq(|fs|, i requires 0 <= i < |fs| => if fs[i].key == k then Field(k, v) else fs[i]);
    assert forall i :: 0 <= i < |fs| ==> r[i].key == fs[i].key;
    LookupSameKeys(fs, r, k, v);
    r
  }

  lemma {:induction false} LookupSameKeys(fs: seq<Field>, r: seq<Field>, k: string, v: Json)
    requires |r| == |fs|
    requires forall i :: 0 <= i < |fs| ==> r[i] == if fs[i].key == k then Field(k, v) else fs[i]
    requires k in Keys(fs)
    ensures Lookup(r, k) == Some(v)
    ensures forall j :: j != k ==> Lookup(r, j) == Lookup(fs, j)
    ensures Keys(r) == Keys(fs)
  {
    forall j | j != k ensures Lookup(r, j) == Lookup(fs, j) {
      SameLookupOther(fs, r, k, v, j);
    }
    assert forall i :: 0 <= i < |fs| ==> r[i].key == fs[i].key;
    KeysSame(fs, r);
    var i := LastIndex(r, k);
    assert r[i] == Field(k, v);
  }

  lemma KeysSame(fs: seq<Field>, r: seq<Field>)
    requires |r| == |fs|
    requires forall i :: 0 <= i < |fs| ==> r[i].key == fs[i].key
    ensures Keys(r) == Keys(fs)
  {
  }

  lemma {:induction false} SameLookupOther(fs: seq<Field>, r: seq<Field>, k: string, v: Json, j: string)
    requires |r| == |fs|
    requires forall i :: 0 <= i < |fs| ==> r[i] == if fs[i].key == k then Field(k, v) else fs[i]
    requires j != k
    ensures Lookup(r, j) == Lookup(fs, j)
  {
    if fs != [] {
      var n := |fs|;
      SameLookupOther(fs[..n - 1], r[..n - 1], k, v, j);
    }
  }

  /** The row left after assigning `row[f.key] = f.val` for each entry in order. */
  function Assign(row: Row, es: seq<Field>): Row {
    if es == [] then row else Assign(row, es[..|es| - 1])[es[|es| - 1].key := es[|es| - 1].val]
  }

  lemma AssignSnoc(row: Row, es: seq<Field>, f: Field)
    ensures Assign(row, es + [f]) == Assign(row, es)[f.key := f.val]
  {
    assert (es + [f])[..|es|] == es;
  }

  /** `dict(items)`. */
  function ToRow(es: seq<Field>): Row {
    Assign(map[], es)
  }

  /** After a run of assignments a column holds the last value assigned to it, or its earlier value. */
  lemma {:induction false} AssignLookup(row: Row, es: seq<Field>, k: string)
    ensures k in Assign(row, es) <==> (k in row || Lookup(es, k).Some?)
    ensures Lookup(es, k).Some? ==> Assign(row, es)[k] == Lookup(es, k).value
    ensures Lookup(es, k).None? && k in row ==> Assign(row, es)[k] == row[k]
  {
    if es != [] {
      AssignLookup(row, es[..|es| - 1], k);
    }
  }

  lemma {:induction false} AssignAppend(row: Row, a: seq<Field>, b: seq<Field>)
    ensures Assign(row, a + b) == Assign(Assign(row, a), b)
  {
    if b != [] {
      assert (a + b)[..|a + b| - 1] == a + b[..|b| - 1];
      AssignAppend(row, a, b[..|b| - 1]);
    } else {
      assert a + b == a;
    }
  }

  lemma {:induction false} LookupAppend(a: seq<Field>, b: seq<Field>, k: string)
    ensures Lookup(a + b, k) == if Lookup(b, k).Some? then Lookup(b, k) else Lookup(a, k)
  {
    if b != [] {
      assert (a + b)[..|a + b| - 1] == a + b[..|b| - 1];
      LookupAppend(a, b[..|b| - 1], k);
    } else {
      assert a + b == a;
    }
  }

  /** Looking a key up after one more member. */
  lemma LookupSnoc(fs: seq<Field>, f: Field, k: string)
    ensures Lookup(fs + [f], k) == if f.key == k then Some(f.val) else Lookup(fs, k)
  {
    assert (fs + [f])[..|fs|] == fs;
  }

  lemma KeysSnoc(fs: seq<Field>, f: Field)
    ensures Keys(fs + [f]) == Keys(fs) + {f.key}
  {
    var g := fs + [f];
    forall k | k in Keys(g) ensures k in Keys(fs) + {f.key} {
      var i :| 0 <= i < |g| && g[i].key == k;
      if i < |fs| {
        assert g[i] == fs[i];
      }
    }
    forall k | k in Keys(fs) ensures k in Keys(g) {
      var i :| 0 <= i < |fs| && fs[i].key == k;
      assert g[i] == fs[i];
    }
    assert g[|fs|] == f;
  }

  /** `d.update(gs)`: each member of `gs` in turn set on `d`. */
  function Update(fs: seq<Field>, gs: seq<Field>): seq<Field>
    decreases |gs|
  {
    if gs == [] then fs else SetField(Update(fs, gs[..|gs| - 1]), gs[|gs| - 1].key, gs[|gs| - 1].val)
  }

  /** After an update a key reads as in `gs` when `gs` has it, and as before otherwise. */
  lemma {:induction false} UpdateLookup(fs: seq<Field>, gs: seq<Field>, k: string)
    ensures Lookup(Update(fs, gs), k) == if k in Keys(gs) then Lookup(gs, k) else Lookup(fs, k)
    decreases |gs|
  {
    if gs != [] {
      var init, last := gs[..|gs| - 1], gs[|gs| - 1];
      UpdateLookup(fs, init, k);
      Seqs.InitLast(gs);
      LookupSnoc(init, last, k);
      KeysSnoc(init, last);
    }
  }

  /** The members whose key is not `k`, in order. */
  function Without(fs: seq<Field>, k: string): (r: seq<Field>)
    ensures |r| <= |fs|
  {
    if fs == [] then []
    else Without(fs[..|fs| - 1], k) + (if fs[|fs| - 1].key == k then [] else [fs[|fs| - 1]])
  }

  lemma {:induction false} LookupWithout(fs: seq<Field>, k: string, j: string)
    ensures Lookup(Without(fs, k), j) == if j == k then None else Lookup(fs, j)
  {
    if fs != [] {
      var n := |fs|;
      LookupWithout(fs[..n - 1], k, j);
      LookupSnoc(fs[..n - 1], fs[n - 1], j);
      assert fs == fs[..n - 1] + [fs[n - 1]];
      if fs[n - 1].key != k {
        LookupSnoc(Without(fs[..n - 1], k), fs[n - 1], j);
      } else {
        assert Without(fs, k) == Without(fs[..n - 1], k);
      }
    }
  }

  /**
   * `d.items()` of the dict Python builds from the members: one entry per distinct key, at the
   * position of its first occurrence, holding the value of its last occurrence.
   */
  function Items(fs: seq<Field>): (r: seq<Field>)
    decreases |fs|
  {
    if fs == [] then []
    else
      var k := fs[0].key;
      assert k in Keys(fs);
      [Field(k, Lookup(fs, k).value)] + Items(Without(fs[1..], k))
  }

  /** Iterating the dict sees each key once, with the value a lookup gives. */
  lemma {:induction false} ItemsLookup(fs: seq<Field>, j: string)
    ensures Lookup(Items(fs), j) == Lookup(fs, j)
    decreases |fs|
  {
    if fs != [] {
      var k := fs[0].key;
      var w := Without(fs[1..], k);
      assert k in Keys(fs);
      var head := Field(k, Lookup(fs, k).value);
      ItemsLookup(w, j);
      LookupWithout(fs[1..], k, j);
      LookupAppend([head], Items(w), j);
      LookupAppend([fs[0]], fs[1..], j);
      Seqs.HeadTail(fs);
      LookupSnoc([], head, j);
      LookupSnoc([], fs[0], j);
    }
  }

  /** Each key occurs once in a dict's items. */
  lemma {:induction false} ItemsDistinct(fs: seq<Field>)
    ensures forall a, b :: 0 <= a < b < |Items(fs)| ==> Items(fs)[a].key != Items(fs)[b].key
    decreases |fs|
  {
    if fs != [] {
      var k := fs[0].key;
      var w := Without(fs[1..], k);
      ItemsDistinct(w);
      var its, rest := Items(fs), Items(w);
      forall b | 0 < b < |its| ensures its[b].key != k {
        var f := its[b];
        assert f == rest[b - 1];
        ItemsMember(w, b - 1);
        LookupWithout(fs[1..], k, f.key);
      }
      forall a, b | 0 <= a < b < |its| ensures its[a].key != its[b].key {
        if a > 0 {
          assert its[a] == rest[a - 1] && its[b] == rest[b - 1];
        }
      }
    }
  }

  /** Every entry of a dict's items is found under its key. */
  lemma {:induction false} ItemsMember(fs: seq<Field>, i: int)
    requires 0 <= i < |Items(fs)|
    ensures Lookup(fs, Items(fs)[i].key) == Some(Items(fs)[i].val)
    decreases |fs|
  {
    var k := fs[0].key;
    var w := Without(fs[1..], k);
    if i > 0 {
      ItemsMember(w, i - 1);
      var f := Items(w)[i - 1];
      LookupWithout(fs[1..], k, f.key);
      LookupAppend([fs[0]], fs[1..], f.key);
      Seqs.HeadTail(fs);
    }
  }

  /** Dropping a key that does not occur changes nothing. */
  lemma {:induction false} WithoutAbsent(fs: seq<Field>, k: string)
    requires forall i :: 0 <= i < |fs| ==> fs[i].key != k
    ensures Without(fs, k) == fs
  {
    if fs != [] {
      WithoutAbsent(fs[..|fs| - 1], k);
    }
  }

  /** A dict built from distinct keys iterates them as given. */
  lemma {:induction false} ItemsOfDistinct(fs: seq<Field>)
    requires forall a, b :: 0 <= a < b < |fs| ==> fs[a].key != fs[b].key
    ensures Items(fs) == fs
    decreases |fs|
  {
    if fs != [] {
      var k := fs[0].key;
      assert LastIndex(fs, k) == 0;
      WithoutAbsent(fs[1..], k);
      ItemsOfDistinct(fs[1..]);
      assert fs == [fs[0]] + fs[1..];
    }
  }
}
