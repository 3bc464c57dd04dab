/**
 * JavaScript values and the handful of built-in string and number conversions
 * that the modelled code relies on: truthiness, property lookup, `split`,
 * `includes`, `startsWith`, `Number.prototype.toString(16)`, `padStart` and
 * `parseInt` without an explicit radix.
 */
module JsValues {
  import opened Wrappers

  /** A JavaScript value as far as the modelled code can observe it. Functions are opaque. */
  datatype Value =
    | Undefined
    | Null
    | Bool(b: bool)
    | Num(n: real)
    | Str(s: string)
    | Obj(fields: map<string, Value>)
    | Fn

  /** JavaScript truthiness (NaN is not representable here; see `Num`). */
  predicate Truthy(v: Value)
  {
    match v
    case Undefined => false
    case Null => false
    case Bool(b) => b
    case Num(n) => n != 0.0
    case Str(s) => s != ""
    case Obj(_) => true
    case Fn => true
  }

  /** `v[key]`: a field of an object, `undefined` for a missing key or a primitive. */
  function Get(v: Value, key: string): (r: Value)
    ensures v.Obj? && key in v.fields ==> r == v.fields[key]
    ensures !(v.Obj? && key in v.fields) ==> r == Undefined
  {
    if v.Obj? && key in v.fields then v.fields[key] else Undefined
  }

  /**
   * `v.k1.k2…`: each step reads a property; reading a property of `undefined`
   * or `null` throws a TypeError, reading one of another primitive gives `undefined`.
   */
  function ReadPath(v: Value, path: seq<string>): (r: Result<Value>)
    ensures path == [] ==> r == Ok(v)
    ensures |path| > 0 && (v.Undefined? || v.Null?) ==> r.Err?
    decreases |path|
  {
    if |path| == 0 then Ok(v)
    else if v.Undefined? || v.Null? then Err("TypeError: cannot read property '" + path[0] + "'")
    else ReadPath(Get(v, path[0]), path[1..])
  }

  /** The number at `path`, or `None` when the read throws or finds something else. */
  function NumberAt(v: Value, path: seq<string>): (r: Option<real>)
    ensures r.Some? <==> ReadPath(v, path).Ok? && ReadPath(v, path).value.Num?
  {
    match ReadPath(v, path)
    case Ok(Num(n)) => Some(n)
    case _ => None
  }

  predicate IsInteger(x: real)
  {
    x == x.Floor as real
  }

  // ---------------------------------------------------------------------------
  // Strings
  // ---------------------------------------------------------------------------

  predicate StartsWith(s: string, prefix: string)
  {
    |prefix| <= |s| && s[..|prefix|] == prefix
  }

  /** `s.includes(sub)`. */
  predicate Contains(s: string, sub: string)
    decreases |s|
  {
    StartsWith(s, sub) || (|s| > 0 && Contains(s[1..], sub))
  }

  /** Index of the first occurrence of `c`, as `indexOf` finds it. */
  function IndexOf(s: string, c: char): (r: Option<nat>)
    ensures r.Some? ==> r.value < |s| && s[r.value] == c && c !in s[..r.value]
    ensures r.None? ==> c !in s
  {
    if |s| == 0 then None
    else if s[0] == c then Some(0)
    else
      match IndexOf(s[1..], c)
      case None => None
      case Some(i) => assert s[1..][..i] == s[1..i + 1]; Some(i + 1)
  }

  /** The first `c` found is at `i` when `s[i]` is `c` and no earlier character is. */
  lemma {:induction false} IndexOfIs(s: string, c: char, i: nat)
    requires i < |s| && s[i] == c && c !in s[..i]
    ensures IndexOf(s, c) == Some(i)
  {
    if i > 0 {
      assert s[0] == s[..i][0];
      assert s[1..][..i - 1] == s[1..i];
      assert s[1..i] == s[..i][1..];
      IndexOfIs(s[1..], c, i - 1);
    }
  }

  /** `s.split(c)` for a one-character separator. */
  function Split(s: string, c: char): (parts: seq<string>)
    ensures |parts| >= 1
    decreases |s|
  {
    match IndexOf(s, c)
    case None => [s]
    case Some(i) => [s[..i]] + Split(s[i + 1..], c)
  }

  /** The first piece of `s.split(c)` is the text before the first `c`, or all of `s`. */
  lemma {:induction false} SplitFirst(s: string, c: char)
    ensures c !in Split(s, c)[0] && StartsWith(s, Split(s, c)[0])
    ensures c !in s ==> Split(s, c)[0] == s
    ensures c in s ==> |Split(s, c)[0]| < |s| && s[|Split(s, c)[0]|] == c
  {
  }

  /** `parts.join(c)`. */
  function Join(parts: seq<string>, c: char): string
    requires |parts| >= 1
  {
    if |parts| == 1 then parts[0] else parts[0] + [c] + Join(parts[1..], c)
  }

  /** Splitting and joining again gives back the string. */
  lemma {:induction false} SplitJoin(s: string, c: char)
    ensures Join(Split(s, c), c) == s
    decreases |s|
  {
    var r := IndexOf(s, c);
    if r.Some? {
      var i := r.value;
      var rest := Split(s[i + 1..], c);
      assert Split(s, c) == [s[..i]] + rest;
      SplitJoin(s[i + 1..], c);
      assert Join(Split(s, c), c) == s[..i] + [c] + Join(rest, c);
      assert s == s[..i] + [c] + s[i + 1..];
    }
  }

  /** No piece of a split holds the separator. */
  lemma {:induction false} SplitPiecesFree(s: string, c: char, k: nat)
    requires k < |Split(s, c)|
    ensures c !in Split(s, c)[k]
    decreases |s|
  {
    var r := IndexOf(s, c);
    if r.Some? {
      var i := r.value;
      var rest := Split(s[i + 1..], c);
      assert Split(s, c) == [s[..i]] + rest;
      if k > 0 {
        SplitPiecesFree(s[i + 1..], c, k - 1);
      }
    }
  }

  /** `s.replace(c, r)` with a one-character pattern: only the first occurrence is replaced. */
  function ReplaceFirst(s: string, c: char, r: string): (t: string)
    ensures c !in s ==> t == s
    ensures c in s ==> exists i :: 0 <= i < |s| && c !in s[..i] && s[i] == c && t == s[..i] + r + s[i + 1..]
  {
    match IndexOf(s, c)
    case None => s
    case Some(i) => s[..i] + r + s[i + 1..]
  }

  // ---------------------------------------------------------------------------
  // Hexadecimal digits
  // ---------------------------------------------------------------------------

  /** The value of a digit in radix 10 or 16, letters in either case. */
  function DigitValue(c: char, radix: nat): (r: Option<nat>)
    requires radix == 10 || radix == 16
    ensures r.Some? ==> r.value < radix
  {
    if '0' <= c <= '9' then Some(c as nat - '0' as nat)
    else if radix == 16 && 'a' <= c <= 'f' then Some(c as nat - 'a' as nat + 10)
    else if radix == 16 && 'A' <= c <= 'F' then Some(c as nat - 'A' as nat + 10)
    else None
  }

  predicate IsHexDigit(c: char)
  {
    DigitValue(c, 16).Some?
  }

  predicate AllDigits(ds: string, radix: nat)
    requires radix == 10 || radix == 16
  {
    forall i :: 0 <= i < |ds| ==> DigitValue(ds[i], radix).Some?
  }

  /** The number a run of digits denotes, most significant first. */
  function DigitsValue(ds: string, radix: nat): nat
    requires radix == 10 || radix == 16
    requires AllDigits(ds, radix)
  {
    if |ds| == 0 then 0
    else DigitsValue(ds[..|ds| - 1], radix) * radix + DigitValue(ds[|ds| - 1], radix).value
  }

  /** The lower-case hexadecimal digit for `d`, as `toString(16)` writes it. */
  function HexChar(d: nat): (c: char)
    requires d < 16
    ensures IsHexDigit(c) && DigitValue(c, 16).value == d
    ensures c in "0123456789abcdef"
  {
    "0123456789abcdef"[d]
  }

  /** `n.toString(16)` for a non-negative integer: no leading zeros, "0" for zero. */
  function ToHex(n: nat): (s: string)
    ensures |s| >= 1
    ensures AllDigits(s, 16) && DigitsValue(s, 16) == n
    ensures forall i :: 0 <= i < |s| ==> s[i] in "0123456789abcdef"
    decreases n
  {
    if n < 16 then [HexChar(n)]
    else
      var s := ToHex(n / 16) + [HexChar(n % 16)];
      assert s[..|s| - 1] == ToHex(n / 16);
      s
  }

  /** `s.padStart(width, '0')`. */
  function PadStart(s: string, width: nat): (t: string)
    ensures |t| == if |s| >= width then |s| else width
    ensures |s| >= width ==> t == s
    ensures |s| < width ==> t == seq(width - |s|, _ => '0') + s
  {
    if |s| >= width then s else seq(width - |s|, _ => '0') + s
  }

  /** Leading zeros do not change the value of a digit run. */
  lemma {:induction false} LeadingZeros(zs: string, ds: string, radix: nat)
    requires radix == 10 || radix == 16
    requires forall i :: 0 <= i < |zs| ==> zs[i] == '0'
    requires AllDigits(ds, radix)
    ensures AllDigits(zs + ds, radix) && DigitsValue(zs + ds, radix) == DigitsValue(ds, radix)
    decreases |ds|
  {
    var s := zs + ds;
    assert AllDigits(s, radix) by {
      forall i | 0 <= i < |s| ensures DigitValue(s[i], radix).Some? {
        if i < |zs| { assert s[i] == '0'; } else { assert s[i] == ds[i - |zs|]; }
      }
    }
    if |ds| == 0 {
      assert s == zs;
      ZerosValue(zs, radix);
    } else {
      LeadingZeros(zs, ds[..|ds| - 1], radix);
      assert s[..|s| - 1] == zs + ds[..|ds| - 1];
    }
  }

  lemma {:induction false} ZerosValue(zs: string, radix: nat)
    requires radix == 10 || radix == 16
    requires forall i :: 0 <= i < |zs| ==> zs[i] == '0'
    ensures AllDigits(zs, radix) && DigitsValue(zs, radix) == 0
    decreases |zs|
  {
    if |zs| > 0 {
      ZerosValue(zs[..|zs| - 1], radix);
    }
  }

  function Power(b: nat, n: nat): (p: nat)
    ensures b >= 1 ==> p >= 1
  {
    if n == 0 then 1 else Power(b, n - 1) * b
  }

  lemma {:induction false} DigitsAppend(a: string, b: string, radix: nat)
    requires radix == 10 || radix == 16
    requires AllDigits(a, radix) && AllDigits(b, radix)
    ensures AllDigits(a + b, radix)
  {
    var s := a + b;
    forall i | 0 <= i < |s| ensures DigitValue(s[i], radix).Some? {
      if i < |a| { assert s[i] == a[i]; } else { assert s[i] == b[i - |a|]; }
    }
  }

  /** Appending digits shifts the value of the leading run by one place per digit. */
  lemma {:induction false} DigitsConcat(a: string, b: string, radix: nat)
    requires radix == 10 || radix == 16
    requires AllDigits(a, radix) && AllDigits(b, radix)
    ensures AllDigits(a + b, radix)
    ensures DigitsValue(a + b, radix) == DigitsValue(a, radix) * Power(radix, |b|) + DigitsValue(b, radix)
    decreases |b|
  {
    DigitsAppend(a, b, radix);
    if |b| == 0 {
      assert a + b == a;
    } else {
      var b' := b[..|b| - 1];
      DigitsConcat(a, b', radix);
      assert (a + b)[..|a + b| - 1] == a + b';
      assert (a + b)[|a + b| - 1] == b[|b| - 1];
      ShiftPlace(DigitsValue(a, radix), Power(radix, |b'|), DigitsValue(b', radix), radix,
        DigitValue(b[|b| - 1], radix).value);
    }
  }

  lemma {:induction false} ShiftPlace(x: int, p: int, y: int, r: int, d: int)
    ensures (x * p + y) * r + d == x * (p * r) + (y * r + d)
  {
  }

  /** A run of `k` digits denotes less than `radix` to the `k`. */
  lemma {:induction false} DigitsBound(ds: string, radix: nat)
    requires radix == 10 || radix == 16
    requires AllDigits(ds, radix)
    ensures DigitsValue(ds, radix) < Power(radix, |ds|)
    decreases |ds|
  {
    if |ds| > 0 {
      var ds' := ds[..|ds| - 1];
      DigitsBound(ds', radix);
      var x := DigitsValue(ds', radix);
      var p := Power(radix, |ds'|);
      assert x + 1 <= p;
      assert (x + 1) * radix <= p * radix;
    }
  }

  lemma {:induction false} PowerAtLeastBase(j: nat)
    ensures j >= 1 ==> Power(16, j) >= 16
  {
    if j >= 1 {
      assert Power(16, j) == Power(16, j - 1) * 16;
    }
  }

  /** `n.toString(16)` has `k` digits exactly when 16 to the `k - 1` <= `n` < 16 to the `k`. */
  lemma {:induction false} ToHexLength(n: nat, k: nat)
    requires k >= 1 && Power(16, k - 1) <= n < Power(16, k)
    ensures |ToHex(n)| == k
    decreases k
  {
    PowerAtLeastBase(k - 1);
    if n >= 16 {
      assert k > 1;
      var p := Power(16, k - 2);
      assert Power(16, k - 1) == p * 16;
      assert Power(16, k) == p * 16 * 16;
      ToHexLength(n / 16, k - 1);
    }
  }

  /** A number below 16 to the `k` takes at most `k` hexadecimal digits. */
  lemma {:induction false} ToHexAtMost(n: nat, k: nat)
    requires k >= 1 && n < Power(16, k)
    ensures |ToHex(n)| <= k
    decreases k
  {
    PowerAtLeastBase(k);
    if n >= 16 {
      assert Power(16, k) == Power(16, k - 1) * 16;
      ToHexAtMost(n / 16, k - 1);
    }
  }

  /** `n.toString(16)` for any integer: a minus sign before the digits of a negative number. */
  function ToHexSigned(n: int): (s: string)
    ensures n >= 0 ==> s == ToHex(n)
    ensures n < 0 ==> |s| >= 2 && s[0] == '-' && s[1..] == ToHex(-n)
  {
    if n < 0 then "-" + ToHex(-n) else ToHex(n)
  }

  // ---------------------------------------------------------------------------
  // parseInt (no radix argument)
  // ---------------------------------------------------------------------------

  predicate IsWhiteSpace(c: char)
  {
    c == ' ' || c == '\t' || c == '\n' || c == '\r' || c == '\U{B}' || c == '\U{C}'
  }

  function TrimStart(s: string): (t: string)
    ensures |t| <= |s| && t == s[|s| - |t|..]
    ensures |t| > 0 ==> !IsWhiteSpace(t[0])
  {
    if |s| > 0 && IsWhiteSpace(s[0]) then TrimStart(s[1..]) else s
  }

  /** The longest prefix of `s` made of digits valid in `radix`. */
  function DigitPrefix(s: string, radix: nat): (ds: string)
    requires radix == 10 || radix == 16
    ensures |ds| <= |s| && ds == s[..|ds|] && AllDigits(ds, radix)
    ensures |ds| < |s| ==> DigitValue(s[|ds|], radix).None?
  {
    if |s| > 0 && DigitValue(s[0], radix).Some? then
      var rest := DigitPrefix(s[1..], radix);
      assert [s[0]] + rest == s[..|rest| + 1];
      [s[0]] + rest
    else []
  }

  /**
   * `parseInt(s)`: leading white space, an optional sign, an optional "0x"/"0X"
   * that selects radix 16, then the longest run of digits; `None` is NaN.
   */
  function ParseInt(s: string): (r: Option<int>)
  {
    var t := TrimStart(s);
    var negative := |t| > 0 && t[0] == '-';
    var u := if |t| > 0 && (t[0] == '-' || t[0] == '+') then t[1..] else t;
    var hex := |u| >= 2 && u[0] == '0' && (u[1] == 'x' || u[1] == 'X');
    var radix := if hex then 16 else 10;
    var ds := DigitPrefix(if hex then u[2..] else u, radix);
    if |ds| == 0 then None
    else Some(if negative then -(DigitsValue(ds, radix) as int) else DigitsValue(ds, radix) as int)
  }

  /** `parseInt` reads "0x" followed by hexadecimal digits as the number they denote. */
  lemma {:induction false} ParseIntHex(ds: string)
    requires |ds| >= 1 && AllDigits(ds, 16)
    ensures ParseInt("0x" + ds) == Some(DigitsValue(ds, 16) as int)
  {
    var s := "0x" + ds;
    assert s[0] == '0' && s[1] == 'x';
    assert !IsWhiteSpace(s[0]);
    assert TrimStart(s) == s;
    assert s[2..] == ds;
    DigitPrefixAll(ds, 16);
    assert DigitPrefix(s[2..], 16) == ds;
  }

  /** `parseInt` reads a run of decimal digits as the number it denotes. */
  lemma {:induction false} ParseIntDecimal(ds: string)
    requires |ds| >= 1 && AllDigits(ds, 10)
    ensures ParseInt(ds) == Some(DigitsValue(ds, 10) as int)
  {
    assert '0' <= ds[0] <= '9' by {
      assert DigitValue(ds[0], 10).Some?;
    }
    assert !IsWhiteSpace(ds[0]);
    assert TrimStart(ds) == ds;
    assert ds[0] != '-' && ds[0] != '+';
    var notHex := !(|ds| >= 2 && ds[0] == '0' && (ds[1] == 'x' || ds[1] == 'X'));
    assert notHex by {
      if |ds| >= 2 {
        assert DigitValue(ds[1], 10).Some?;
      }
    }
    DigitPrefixAll(ds, 10);
    assert DigitPrefix(ds, 10) == ds;
  }

  lemma {:induction false} DigitPrefixAll(ds: string, radix: nat)
    requires radix == 10 || radix == 16
    requires AllDigits(ds, radix)
    ensures DigitPrefix(ds, radix) == ds
    decreases |ds|
  {
    if |ds| > 0 {
      DigitPrefixAll(ds[1..], radix);
      assert [ds[0]] + ds[1..] == ds;
    }
  }

  /** The longest digit prefix stops at the first non-digit. */
  lemma {:induction false} DigitPrefixStops(ds: string, rest: string, radix: nat)
    requires radix == 10 || radix == 16
    requires AllDigits(ds, radix)
    requires |rest| > 0 && DigitValue(rest[0], radix).None?
    ensures DigitPrefix(ds + rest, radix) == ds
    decreases |ds|
  {
    if |ds| > 0 {
      DigitPrefixStops(ds[1..], rest, radix);
      assert (ds + rest)[1..] == ds[1..] + rest;
      assert [ds[0]] + ds[1..] == ds;
    } else {
      assert ds + rest == rest;
    }
  }

  function Pow10(k: nat): (p: nat)
    ensures p >= 1
  {
    if k == 0 then 1 else 10 * Pow10(k - 1)
  }

  /** The number written as integer digits `ip`, a point and fraction digits `fp`. */
  function DecimalValue(ip: string, fp: string): (x: real)
    requires AllDigits(ip, 10) && AllDigits(fp, 10)
    ensures x >= 0.0
  {
    DigitsValue(ip, 10) as real + (if |fp| == 0 then 0.0 else DigitsValue(fp, 10) as real / Pow10(|fp|) as real)
  }

  /** `parseFloat` after the sign: integer digits, then an optional '.' and fraction digits. */
  function UnsignedFloat(u: string): (r: Option<real>)
    ensures r.Some? ==> r.value >= 0.0
  {
    var ip := DigitPrefix(u, 10);
    var rest := u[|ip|..];
    var fp := if |rest| > 0 && rest[0] == '.' then DigitPrefix(rest[1..], 10) else "";
    if |ip| == 0 && |fp| == 0 then None else Some(DecimalValue(ip, fp))
  }

  /**
   * `parseFloat(s)` for plain decimals: leading white space, an optional sign,
   * then `UnsignedFloat`; `None` is NaN.
   */
  function ParseFloat(s: string): (r: Option<real>)
  {
    var t := TrimStart(s);
    var u := if |t| > 0 && (t[0] == '-' || t[0] == '+') then t[1..] else t;
    match UnsignedFloat(u)
    case None => None
    case Some(m) => Some(if |t| > 0 && t[0] == '-' then -m else m)
  }

  lemma {:induction false} UnsignedFloatDecimal(ip: string, fp: string)
    requires AllDigits(ip, 10) && AllDigits(fp, 10) && |ip| + |fp| > 0
    ensures UnsignedFloat(ip + ("." + fp)) == Some(DecimalValue(ip, fp))
  {
    var rest := "." + fp;
    var u := ip + rest;
    DigitPrefixStops(ip, rest, 10);
    assert DigitPrefix(u, 10) == ip;
    assert u[|ip|..] == rest;
    assert rest[0] == '.';
    assert rest[1..] == fp;
    DigitPrefixAll(fp, 10);
    assert DigitPrefix(rest[1..], 10) == fp;
  }

  /** Text that starts with a digit has no white space or sign for `parseFloat` to skip. */
  lemma {:induction false} ParseFloatFromDigit(s: string)
    requires |s| > 0 && DigitValue(s[0], 10).Some?
    ensures ParseFloat(s) == UnsignedFloat(s)
  {
    assert TrimStart(s) == s;
  }

  /** A decimal written as integer digits, '.', fraction digits parses to the number it denotes. */
  lemma {:induction false} ParseFloatDecimal(ip: string, fp: string)
    requires |ip| > 0 && AllDigits(ip, 10) && AllDigits(fp, 10)
    ensures ParseFloat(ip + "." + fp) == Some(DecimalValue(ip, fp))
  {
    var s := ip + "." + fp;
    assert s == ip + ("." + fp);
    assert s[0] == ip[0];
    ParseFloatFromDigit(s);
    UnsignedFloatDecimal(ip, fp);
  }

  /** Whole numbers parse as themselves. */
  lemma {:induction false} ParseFloatWhole(ip: string)
    requires |ip| > 0 && AllDigits(ip, 10)
    ensures ParseFloat(ip) == Some(DigitsValue(ip, 10) as real)
  {
    ParseFloatFromDigit(ip);
    DigitPrefixAll(ip, 10);
    assert ip[|ip|..] == "";
    assert UnsignedFloat(ip) == Some(DecimalValue(ip, ""));
  }

  // ---------------------------------------------------------------------------
  // Number(v): the conversion `>`, `*` and `Math.max` apply to their operands
  // ---------------------------------------------------------------------------

  function TrimEnd(s: string): (t: string)
    ensures |t| <= |s| && t == s[..|t|]
    ensures |t| > 0 ==> !IsWhiteSpace(t[|t| - 1])
  {
    if |s| > 0 && IsWhiteSpace(s[|s| - 1]) then TrimEnd(s[..|s| - 1]) else s
  }

  /** How much of `u` `UnsignedFloat` reads: the integer digits, then a '.' with its fraction digits when present. */
  function UnsignedLength(u: string): (n: nat)
    ensures n <= |u|
  {
    var ip := DigitPrefix(u, 10);
    var rest := u[|ip|..];
    if |rest| > 0 && rest[0] == '.' then |ip| + 1 + |DigitPrefix(rest[1..], 10)| else |ip|
  }

  /**
   * `Number(s)` for a string: white space is trimmed at both ends and empty
   * text is 0; otherwise the text must be a signed plain decimal, and anything
   * else is NaN (`None`).
   */
  function StringToNumber(s: string): (r: Option<real>)
    ensures TrimEnd(TrimStart(s)) == "" ==> r == Some(0.0)
  {
    var t := TrimEnd(TrimStart(s));
    if t == "" then Some(0.0) else SignedDecimal(t)
  }

  /** An optional sign, then a decimal that uses up the rest of the text. */
  function SignedDecimal(t: string): Option<real>
    requires |t| > 0
  {
    var u := if t[0] == '-' || t[0] == '+' then t[1..] else t;
    match WholeDecimal(u)
    case None => None
    case Some(m) => Some(if t[0] == '-' then -m else m)
  }

  /** `UnsignedFloat`, when it reads the whole text; NaN otherwise. */
  function WholeDecimal(u: string): Option<real>
  {
    if UnsignedLength(u) < |u| then None else UnsignedFloat(u)
  }

  /** `Number(v)`; `None` is NaN. A plain object converts through "[object Object]", which is NaN. */
  function ToNumber(v: Value): (r: Option<real>)
    ensures v.Num? ==> r == Some(v.n)
    ensures v.Str? ==> r == StringToNumber(v.s)
    ensures v.Undefined? || v.Obj? || v.Fn? ==> r.None?
    ensures v.Null? || v == Bool(false) ==> r == Some(0.0)
    ensures v == Bool(true) ==> r == Some(1.0)
  {
    match v
    case Undefined => None
    case Null => Some(0.0)
    case Bool(b) => Some(if b then 1.0 else 0.0)
    case Num(n) => Some(n)
    case Str(s) => StringToNumber(s)
    case Obj(_) => None
    case Fn => None
  }

  /** `x > v` for a number `x`: `v` is converted by `ToNumber`, and NaN compares false. */
  predicate Exceeds(x: real, v: Value)
  {
    ToNumber(v).Some? && x > ToNumber(v).value
  }

  /** How `>` reads a setting: `null` is 0, and a numeric string such as "190" is its number. */
  lemma {:induction false} ExceedsCoerces(x: real, ds: string)
    requires |ds| > 0 && AllDigits(ds, 10)
    ensures Exceeds(x, Null) <==> x > 0.0
    ensures Exceeds(x, Str(ds)) <==> x > DigitsValue(ds, 10) as real
  {
    StringToNumberWhole(ds);
  }

  /** `undefined`, and digits followed by a unit such as "190px", are NaN, which `>` never exceeds. */
  lemma {:induction false} ExceedsNaN(x: real, ds: string, unit: string)
    requires |ds| > 0 && AllDigits(ds, 10)
    requires |unit| > 0 && DigitValue(unit[0], 10).None? && unit[0] != '.' && !IsWhiteSpace(unit[0])
    requires !IsWhiteSpace(unit[|unit| - 1])
    ensures !Exceeds(x, Undefined) && !Exceeds(x, Str(ds + unit))
  {
    var s := ds + unit;
    assert s[0] == ds[0];
    Untrimmed(s);
    DigitPrefixStops(ds, unit, 10);
    assert s[|ds|..] == unit;
    assert UnsignedLength(s) == |ds| < |s|;
    assert StringToNumber(s) == SignedDecimal(s);
  }

  /** Text that starts with a digit and ends without white space has nothing to trim and no sign. */
  lemma {:induction false} Untrimmed(s: string)
    requires |s| > 0 && DigitValue(s[0], 10).Some? && !IsWhiteSpace(s[|s| - 1])
    ensures TrimStart(s) == s && TrimEnd(s) == s && s[0] != '-' && s[0] != '+'
  {
    assert !IsWhiteSpace(s[0]);
  }

  /** `UnsignedFloat` reads all of a run of digits. */
  lemma {:induction false} UnsignedDigits(ip: string)
    requires |ip| > 0 && AllDigits(ip, 10)
    ensures UnsignedLength(ip) == |ip| && UnsignedFloat(ip) == Some(DigitsValue(ip, 10) as real)
  {
    DigitPrefixAll(ip, 10);
    assert ip[|ip|..] == "";
  }

  /** A run of decimal digits is read by `Number` as the whole number it denotes, as `parseFloat` reads it. */
  lemma {:induction false} StringToNumberWhole(ip: string)
    requires |ip| > 0 && AllDigits(ip, 10)
    ensures StringToNumber(ip) == Some(DigitsValue(ip, 10) as real) == ParseFloat(ip)
  {
    assert DigitValue(ip[|ip| - 1], 10).Some?;
    Untrimmed(ip);
    UnsignedDigits(ip);
    assert WholeDecimal(ip) == Some(DigitsValue(ip, 10) as real);
    assert StringToNumber(ip) == SignedDecimal(ip);
    ParseFloatWhole(ip);
  }

  /** A decimal written as integer digits, '.', fraction digits is read by `Number` as by `parseFloat`. */
  lemma {:induction false} StringToNumberDecimal(ip: string, fp: string)
    requires |ip| > 0 && AllDigits(ip, 10) && AllDigits(fp, 10)
    ensures StringToNumber(ip + "." + fp) == Some(DecimalValue(ip, fp)) == ParseFloat(ip + "." + fp)
  {
    var s := ip + "." + fp;
    assert s == ip + ("." + fp);
    assert s[0] == ip[0];
    assert !IsWhiteSpace(s[|s| - 1]) by {
      if |fp| > 0 {
        assert s[|s| - 1] == fp[|fp| - 1];
        assert DigitValue(fp[|fp| - 1], 10).Some?;
      }
    }
    Untrimmed(s);
    DigitPrefixStops(ip, "." + fp, 10);
    assert s[|ip|..] == "." + fp;
    assert ("." + fp)[1..] == fp;
    DigitPrefixAll(fp, 10);
    assert UnsignedLength(s) == |s|;
    UnsignedFloatDecimal(ip, fp);
    ParseFloatDecimal(ip, fp);
  }

  /**
   * Where `Number` and `parseFloat` part: digits followed by a character that
   * is no digit, point or white space are NaN for `Number`, while `parseFloat`
   * reads the digits.
   */
  lemma {:induction false} StringToNumberTrailing(ip: string, c: char)
    requires |ip| > 0 && AllDigits(ip, 10)
    requires DigitValue(c, 10).None? && c != '.' && !IsWhiteSpace(c)
    ensures StringToNumber(ip + [c]).None?
    ensures ParseFloat(ip + [c]) == Some(DigitsValue(ip, 10) as real)
  {
    var s := ip + [c];
    assert s[0] == ip[0];
    Untrimmed(s);
    DigitPrefixStops(ip, [c], 10);
    assert s[|ip|..] == [c];
    assert UnsignedLength(s) == |ip| < |s|;
    ParseFloatFromDigit(s);
    assert UnsignedFloat(s) == Some(DecimalValue(ip, ""));
  }
}
