/**
 * enemy-visualizer-enhanced.js: the colour helpers of the enemy editor page,
 * the channel unpacking of its preview renderer, and the form-to-data rules
 * of `updatePreview`, `randomizeEnemy` and `resetEnemy`.
 *
 * An enemy's data is kept as its numeric properties, a map from property name
 * to number, where `None` stands for NaN. The page's form is a map from
 * element id to the element's text; an element that does not exist has no
 * entry.
 */
module EnemyVisualizer {
  import opened Wrappers
  import opened JsValues
  import opened MathUtilities

  // ---------------------------------------------------------------------------
  // hexToRgb / rgbToHex
  // ---------------------------------------------------------------------------

  /** The value of two hexadecimal digits, `parseInt(pair, 16)`. */
  function Pair(ds: string): (v: int)
    requires |ds| == 2 && AllDigits(ds, 16)
    ensures 0 <= v < 256
  {
    DigitsBound(ds, 16);
    PowerValues();
    DigitsValue(ds, 16)
  }

  lemma {:induction false} PowerValues()
    ensures Power(16, 2) == 256 && Power(16, 4) == 65536
    ensures Power(16, 6) == 0x100_0000 && Power(16, 7) == 0x1000_0000
  {
    assert Power(16, 1) == 16;
    assert Power(16, 3) == 4096;
    assert Power(16, 5) == 0x10_0000;
  }

  lemma {:induction false} AllDigitsSlice(ds: string, i: nat, j: nat)
    requires i <= j <= |ds| && AllDigits(ds, 16)
    ensures AllDigits(ds[i..j], 16)
  {
    var s := ds[i..j];
    forall k | 0 <= k < |s| ensures DigitValue(s[k], 16).Some? {
      assert s[k] == ds[i + k];
    }
  }

  /**
   * `hexToRgb(hex)`: an optional '#' and then exactly six hexadecimal digits
   * in either case give the three channels; anything else gives null.
   */
  function HexToRgb(hex: string): (r: Option<(int, int, int)>)
    ensures r.Some? <==>
      (|hex| == 6 && AllDigits(hex, 16)) || (|hex| == 7 && hex[0] == '#' && AllDigits(hex[1..], 16))
    ensures r.Some? ==> 0 <= r.value.0 < 256 && 0 <= r.value.1 < 256 && 0 <= r.value.2 < 256
  {
    var body := if |hex| > 0 && hex[0] == '#' then hex[1..] else hex;
    assert |hex| > 0 && hex[0] == '#' ==> !AllDigits(hex, 16) by {
      if |hex| > 0 && hex[0] == '#' {
        assert DigitValue(hex[0], 16).None?;
      }
    }
    if |body| == 6 && AllDigits(body, 16) then
      AllDigitsSlice(body, 0, 2);
      AllDigitsSlice(body, 2, 4);
      AllDigitsSlice(body, 4, 6);
      Some((Pair(body[0..2]), Pair(body[2..4]), Pair(body[4..6])))
    else None
  }

  /** `rgbToHex(r, g, b)`: `"#" + ((1 << 24) + (r << 16) + (g << 8) + b).toString(16).slice(1)`. */
  function RgbToHex(r: int, g: int, b: int): (s: string)
    ensures 0 <= r < 256 && 0 <= g < 256 && 0 <= b < 256 ==>
      |s| == 7 && s[0] == '#' && AllDigits(s[1..], 16) && DigitsValue(s[1..], 16) == Rgb(r, g, b)
      && forall i :: 1 <= i < 7 ==> s[i] in "0123456789abcdef"
  {
    var n := 0x100_0000 + Shl(r, 65536) + Shl(g, 256) + b;
    var digits := ToHexSigned(n);
    if 0 <= r < 256 && 0 <= g < 256 && 0 <= b < 256 then
      SixDigits(r, g, b, n);
      "#" + digits[1..]
    else
      "#" + digits[1..]
  }

  /** With channels in range, the number written is 16^6 plus the colour: seven digits, a leading '1'. */
  lemma {:induction false} SixDigits(r: int, g: int, b: int, n: int)
    requires 0 <= r < 256 && 0 <= g < 256 && 0 <= b < 256
    requires n == 0x100_0000 + Shl(r, 65536) + Shl(g, 256) + b
    ensures n >= 0
    ensures var t := ToHex(n);
      |t| == 7 && AllDigits(t[1..], 16) && DigitsValue(t[1..], 16) == Rgb(r, g, b)
  {
    ShlSmall(r, 65536);
    ShlSmall(g, 256);
    RgbChannels(r, g, b);
    LeadingOne(n);
  }

  /** Between 16^6 and 2 * 16^6 a numeral has seven digits, a '1' and then the excess over 16^6. */
  lemma {:induction false} LeadingOne(m: nat)
    requires 0x100_0000 <= m < 0x200_0000
    ensures var t := ToHex(m);
      |t| == 7 && AllDigits(t[1..], 16) && DigitsValue(t[1..], 16) == m - 0x100_0000
  {
    PowerValues();
    ToHexLength(m, 7);
    var t := ToHex(m);
    HeadAndRest(t, 6);
    LeadingDigitOne(DigitsValue(t[..1], 16), DigitsValue(t[1..], 16), m, Power(16, 6));
  }

  lemma {:induction false} LeadingDigitOne(d: nat, rest: nat, m: nat, p: nat)
    requires m == d * p + rest && rest < p && p <= m < 2 * p
    ensures rest == m - p
  {
    MulAtLeastTwice(d, p);
  }

  lemma {:induction false} MulAtLeastTwice(d: nat, p: nat)
    ensures d >= 2 ==> d * p >= 2 * p
  {
    if d >= 2 {
      assert d * p == 2 * p + (d - 2) * p;
    }
  }

  /** A numeral is its first digit, shifted by the rest's length, plus the rest. */
  lemma {:induction false} HeadAndRest(t: string, k: nat)
    requires |t| == k + 1 && AllDigits(t, 16)
    ensures AllDigits(t[1..], 16)
    ensures DigitsValue(t, 16) == DigitsValue(t[..1], 16) * Power(16, k) + DigitsValue(t[1..], 16)
    ensures DigitsValue(t[1..], 16) < Power(16, k)
  {
    SplitAt(t, 1);
    DigitsBound(t[1..], 16);
  }

  /** Six digits are three two-digit channels. */
  lemma {:induction false} SplitSix(t: string)
    requires |t| == 6 && AllDigits(t, 16)
    ensures AllDigits(t[0..2], 16) && AllDigits(t[2..4], 16) && AllDigits(t[4..6], 16)
    ensures DigitsValue(t, 16) == Rgb(Pair(t[0..2]), Pair(t[2..4]), Pair(t[4..6]))
  {
    SplitMiddle(t, 0, 2);
    SplitMiddle(t, 2, 4);
    SplitMiddle(t, 4, 6);
    assert t[0..] == t && t[4..] == t[4..6];
    PowerValues();
  }

  /** The digits from `i` on are those from `i` to `j`, shifted, plus those from `j` on. */
  lemma {:induction false} SplitMiddle(t: string, i: nat, j: nat)
    requires i <= j <= |t| && AllDigits(t, 16)
    ensures AllDigits(t[i..j], 16) && AllDigits(t[i..], 16) && AllDigits(t[j..], 16)
    ensures DigitsValue(t[i..], 16) == DigitsValue(t[i..j], 16) * Power(16, |t| - j) + DigitsValue(t[j..], 16)
  {
    var s := t[i..];
    forall k | 0 <= k < |s| ensures DigitValue(s[k], 16).Some? {
      assert s[k] == t[i + k];
    }
    SplitAt(s, j - i);
    assert s[..j - i] == t[i..j] && s[j - i..] == t[j..];
  }

  /** A numeral split after `i` digits. */
  lemma {:induction false} SplitAt(t: string, i: nat)
    requires i <= |t| && AllDigits(t, 16)
    ensures AllDigits(t[..i], 16) && AllDigits(t[i..], 16)
    ensures DigitsValue(t, 16) == DigitsValue(t[..i], 16) * Power(16, |t| - i) + DigitsValue(t[i..], 16)
  {
    var a, b := t[..i], t[i..];
    forall k | 0 <= k < |a| ensures DigitValue(a[k], 16).Some? {
      assert a[k] == t[k];
    }
    forall k | 0 <= k < |b| ensures DigitValue(b[k], 16).Some? {
      assert b[k] == t[i + k];
    }
    assert a + b == t;
    DigitsConcat(a, b, 16);
  }

  /** Writing a colour with `rgbToHex` and reading it back with `hexToRgb` gives the same channels. */
  lemma {:induction false} HexRgbRoundTrip(r: int, g: int, b: int)
    requires 0 <= r < 256 && 0 <= g < 256 && 0 <= b < 256
    ensures HexToRgb(RgbToHex(r, g, b)) == Some((r, g, b))
  {
    var s := RgbToHex(r, g, b);
    var t := s[1..];
    SplitSix(t);
    var x, y, z := Pair(t[0..2]), Pair(t[2..4]), Pair(t[4..6]);
    RgbChannels(x, y, z);
    RgbChannels(r, g, b);
    assert HexToRgb(s) == Some((x, y, z));
  }

  // ---------------------------------------------------------------------------
  // hexColorToInt / intToHexColor / colorToHexString
  // ---------------------------------------------------------------------------

  /** `hexColorToInt(hex)`: `parseInt(hex.replace('#', '0x'))`; `None` is NaN. */
  function HexColorToInt(hex: string): Option<int>
  {
    ParseInt(ReplaceFirst(hex, '#', "0x"))
  }

  /** A colour picker's "#rrggbb" becomes the 24-bit number its six digits denote. */
  lemma {:induction false} HexColorToIntDigits(ds: string)
    requires |ds| == 6 && AllDigits(ds, 16)
    ensures HexColorToInt("#" + ds) == Some(DigitsValue(ds, 16) as int)
    ensures DigitsValue(ds, 16) < 0x100_0000
  {
    var s := "#" + ds;
    assert IndexOf(s, '#') == Some(0);
    assert s[1..] == ds;
    assert ReplaceFirst(s, '#', "0x") == "0x" + ds;
    ParseIntHex(ds);
    DigitsBound(ds, 16);
    PowerValues();
  }

  /** `hexColorToInt` reads back the packed colour `rgbToHex` wrote. */
  lemma {:induction false} HexColorToIntOfRgbToHex(r: int, g: int, b: int)
    requires 0 <= r < 256 && 0 <= g < 256 && 0 <= b < 256
    ensures HexColorToInt(RgbToHex(r, g, b)) == Some(Rgb(r, g, b))
  {
    var s := RgbToHex(r, g, b);
    assert s == "#" + s[1..];
    HexColorToIntDigits(s[1..]);
  }

  /** What the colour helpers are given: a number (an integer colour), a string, or anything else. */
  datatype ColorInput = IntColor(n: int) | TextColor(text: string) | OtherColor

  const Fallback: string := "0xff4a4a"

  /**
   * `intToHexColor(int)`: a number becomes "0x" and its hexadecimal digits,
   * zero-padded to six; a string starting with "0x" is returned unchanged;
   * anything else gives "0xff4a4a".
   */
  function IntToHexColor(c: ColorInput): (s: string)
    ensures c.IntColor? ==> |s| >= 8 && s[..2] == "0x"
    ensures c.IntColor? && c.n >= 0 ==>
      AllDigits(s[2..], 16) && DigitsValue(s[2..], 16) == c.n
      && forall i :: 2 <= i < |s| ==> s[i] in "0123456789abcdef"
    ensures c.IntColor? && 0 <= c.n < 0x100_0000 ==> |s| == 8
    ensures c.TextColor? && StartsWith(c.text, "0x") ==> s == c.text
    ensures !c.IntColor? && !(c.TextColor? && StartsWith(c.text, "0x")) ==> s == Fallback
  {
    if c.IntColor? then
      var s := "0x" + PadStart(ToHexSigned(c.n), 6);
      if c.n >= 0 then
        PaddedHex(c.n);
        s
      else s
    else if c.TextColor? && StartsWith(c.text, "0x") then c.text
    else Fallback
  }

  /** Zero-padding a hexadecimal numeral to six keeps its value and its lower-case digits. */
  lemma {:induction false} PaddedHex(n: nat)
    ensures var p := PadStart(ToHex(n), 6);
      AllDigits(p, 16) && DigitsValue(p, 16) == n
      && (forall i :: 0 <= i < |p| ==> p[i] in "0123456789abcdef")
      && (n < 0x100_0000 ==> |p| == 6)
  {
    var h := ToHex(n);
    if |h| < 6 {
      PadZeros(h);
    }
    if n < 0x100_0000 {
      PowerValues();
      ToHexAtMost(n, 6);
    }
  }

  lemma {:induction false} PadZeros(h: string)
    requires |h| < 6 && AllDigits(h, 16)
    ensures var p := PadStart(h, 6);
      AllDigits(p, 16) && DigitsValue(p, 16) == DigitsValue(h, 16)
      && forall i :: 0 <= i < 6 - |h| ==> p[i] == '0'
  {
    var zs := seq(6 - |h|, _ => '0');
    LeadingZeros(zs, h, 16);
    assert PadStart(h, 6) == zs + h;
  }

  /** `colorToHexString(color)`: the same three cases, written as their own function in the page. */
  function ColorToHexString(c: ColorInput): string
  {
    match c
    case IntColor(n) => "0x" + PadStart(ToHexSigned(n), 6)
    case TextColor(text) => if StartsWith(text, "0x") then text else Fallback
    case OtherColor => Fallback
  }

  /** The two conversions agree on every input. */
  lemma {:induction false} ColorConversionsAgree(c: ColorInput)
    ensures ColorToHexString(c) == IntToHexColor(c)
  {
  }

  // ---------------------------------------------------------------------------
  // The preview renderer's colour unpacking
  // ---------------------------------------------------------------------------

  /** An enemy's numeric properties; `None` is NaN. */
  type Entry = map<string, Option<real>>

  /** `data[key]` as `||` sees it: a missing property is undefined, which, like NaN, is falsy. */
  function Property(data: Entry, key: string): Option<real>
  {
    if key in data then data[key] else None
  }

  /** `x || y` for numbers: NaN, undefined and zero give way to `y`. */
  function Or(x: Option<real>, y: real): real
  {
    if x.Some? && x.value != 0.0 then x.value else y
  }

  /** ToInt32 as far as the low 32 bits matter: truncation toward zero. */
  function Truncate(x: real): int
  {
    if x >= 0.0 then x.Floor else -((-x).Floor)
  }

  /** `(c >> 16) & 0xff`, `(c >> 8) & 0xff` and `c & 0xff`. */
  function Channels(c: real): (rgb: (int, int, int))
    ensures 0 <= rgb.0 < 256 && 0 <= rgb.1 < 256 && 0 <= rgb.2 < 256
    ensures c == c.Floor as real && 0.0 <= c < 0x100_0000 as real ==> Rgb(rgb.0, rgb.1, rgb.2) == c.Floor
  {
    var n := Truncate(c);
    if c == c.Floor as real && 0.0 <= c < 0x100_0000 as real then
      Repack(n);
      (Red(n), Green(n), Blue(n))
    else (Red(n), Green(n), Blue(n))
  }

  /** What the preview draws with: main and glow channels and the radius. */
  datatype Style = Style(main: (int, int, int), glow: (int, int, int), radius: real)

  /**
   * The preview's `data.color || 0xff4a4a`, `data.glowColor || data.color ||
   * 0xff4a4a` and `data.radius || 10`, with the colours split into channels.
   */
  function PreviewStyle(data: Entry): (st: Style)
    ensures st.radius != 0.0
    ensures Property(data, "radius").Some? && Property(data, "radius").value != 0.0 ==>
      st.radius == Property(data, "radius").value
    ensures Property(data, "color").None? || Property(data, "color").value == 0.0 ==> st.main == (255, 74, 74)
    ensures var c := Property(data, "color");
      c.Some? && c.value == c.value.Floor as real && 0.0 < c.value < 0x100_0000 as real ==>
        Rgb(st.main.0, st.main.1, st.main.2) == c.value.Floor
    ensures Property(data, "glowColor").None? || Property(data, "glowColor").value == 0.0 ==> st.glow == st.main
  {
    var mainColor := Or(Property(data, "color"), 0xff4a4a as real);
    var glowColor := Or(Property(data, "glowColor"), Or(Property(data, "color"), 0xff4a4a as real));
    var radius := Or(Property(data, "radius"), 10.0);
    FallbackChannels();
    Style(Channels(mainColor), Channels(glowColor), radius)
  }

  /** The fallback colour 0xff4a4a splits into (255, 74, 74). */
  lemma {:induction false} FallbackChannels()
    ensures Channels(0xff4a4a as real) == (255, 74, 74)
  {
    var n := Truncate(0xff4a4a as real);
    assert n == 0xff4a4a;
    assert Red(n) == 255 && Green(n) == 74 && Blue(n) == 74;
  }

  // ---------------------------------------------------------------------------
  // updatePreview's form rules
  // ---------------------------------------------------------------------------

  /** How a form value is read into a property. */
  datatype Reader =
    | Float      // parseFloat(value)
    | Integer    // parseInt(value)
    | HexColor   // hexColorToInt(value)
    | AtLeastFive  // Math.max(5, parseFloat(value))
    | Percent    // parseFloat(value) / 100

  /** `if (element) data[property] = read(element.value)` for the element with id `prefix + suffix`. */
  datatype FieldRule = FieldRule(suffix: string, property: string, reader: Reader)

  function Read(reader: Reader, text: string): (v: Option<real>)
    ensures reader == AtLeastFive && v.Some? ==> v.value >= 5.0
  {
    match reader
    case Float => ParseFloat(text)
    case Integer => (match ParseInt(text) case None => None case Some(i) => Some(i as real))
    case HexColor => (match HexColorToInt(text) case None => None case Some(i) => Some(i as real))
    case AtLeastFive => MaxOrNaN(5.0, ParseFloat(text))
    case Percent => (match ParseFloat(text) case None => None case Some(x) => Some(x / 100.0))
  }

  /** The element-id prefix: the first of the four names the enemy type starts with, or none. */
  function Prefix(enemyType: string): (p: string)
    ensures p in {"crimson", "amber", "astral", "emerald", ""}
    ensures p != "" ==> StartsWith(enemyType, p)
  {
    if StartsWith(enemyType, "crimson") then "crimson"
    else if StartsWith(enemyType, "amber") then "amber"
    else if StartsWith(enemyType, "astral") then "astral"
    else if StartsWith(enemyType, "emerald") then "emerald"
    else ""
  }

  /** The visual, stats, effects and advanced properties every enemy type reads, in the page's order. */
  const CommonRules: seq<FieldRule> := [
    FieldRule("Color", "color", HexColor),
    FieldRule("GlowColor", "glowColor", HexColor),
    FieldRule("Radius", "radius", AtLeastFive),
    FieldRule("Health", "health", Float),
    FieldRule("Speed", "speed", Float),
    FieldRule("Damage", "coreDamagePercent", Percent),
    FieldRule("Weight", "weight", Integer),
    FieldRule("GlowDistance", "glowDistance", Float),
    FieldRule("GlowStrength", "glowStrength", Float),
    FieldRule("Aggression", "aggression", Float),
    FieldRule("Intelligence", "intelligence", Float)]

  /** The enemy-specific properties, read only under the matching prefix. */
  function SpecificRules(prefix: string): seq<FieldRule>
  {
    if prefix == "amber" then [
      FieldRule("CrackLines", "crackLines", Integer),
      FieldRule("ShieldThickness", "shieldThickness", Integer),
      FieldRule("CrackOpacity", "crackOpacity", Float),
      FieldRule("Armor", "armor", Float),
      FieldRule("Regen", "shieldRegen", Float)]
    else if prefix == "astral" then [
      FieldRule("RingThickness", "ringThickness", Integer),
      FieldRule("Opacity", "opacity", Float),
      FieldRule("Inward", "inwardSpeed", Float),
      FieldRule("Angular", "angularSpeed", Float),
      FieldRule("Cooldown", "projectileCooldown", Integer),
      FieldRule("Timer", "shootTimer", Integer)]
    else if prefix == "emerald" then [
      FieldRule("Ammo", "maxAmmo", Integer),
      FieldRule("Interval", "shootInterval", Integer),
      FieldRule("ArrowSpeed", "arrowSpeed", Float),
      FieldRule("Curve", "curve", Float),
      FieldRule("StringThickness", "stringThickness", Float),
      FieldRule("Precision", "precision", Float),
      FieldRule("Recoil", "recoil", Float)]
    else []
  }

  function Rules(prefix: string): seq<FieldRule>
  {
    CommonRules + SpecificRules(prefix)
  }

  /** The rules applied one after another to `data`. */
  function ApplyRules(data: Entry, prefix: string, rules: seq<FieldRule>, form: map<string, string>): Entry
  {
    if |rules| == 0 then data
    else
      var before := ApplyRules(data, prefix, rules[..|rules| - 1], form);
      var rule := rules[|rules| - 1];
      var id := prefix + rule.suffix;
      if id in form then before[rule.property := Read(rule.reader, form[id])] else before
  }

  predicate Writes(rules: seq<FieldRule>, key: string)
  {
    exists i :: 0 <= i < |rules| && rules[i].property == key
  }

  /** A property no rule names keeps its old value, or stays absent. */
  lemma {:induction false} ApplyRulesKeeps(data: Entry, prefix: string, rules: seq<FieldRule>, form: map<string, string>, key: string)
    requires !Writes(rules, key)
    ensures key in ApplyRules(data, prefix, rules, form) <==> key in data
    ensures key in data ==> ApplyRules(data, prefix, rules, form)[key] == data[key]
    decreases |rules|
  {
    if |rules| > 0 {
      var init := rules[..|rules| - 1];
      forall j | 0 <= j < |init| ensures init[j].property != key {
        assert init[j] == rules[j];
      }
      ApplyRulesKeeps(data, prefix, init, form, key);
    }
  }

  /** The rule that names a property, when no later rule names it, sets it from its form element. */
  lemma {:induction false} ApplyRulesSets(data: Entry, prefix: string, rules: seq<FieldRule>, form: map<string, string>, i: nat)
    requires i < |rules| && !Writes(rules[i + 1..], rules[i].property)
    requires prefix + rules[i].suffix in form
    ensures var out := ApplyRules(data, prefix, rules, form);
      rules[i].property in out && out[rules[i].property] == Read(rules[i].reader, form[prefix + rules[i].suffix])
    decreases |rules|
  {
    var init := rules[..|rules| - 1];
    var last := rules[|rules| - 1];
    if i == |rules| - 1 {
    } else {
      assert last == rules[i + 1..][|rules| - i - 2];
      assert init[i + 1..] == rules[i + 1..|rules| - 1];
      forall j | i + 1 <= j < |init| ensures init[j].property != rules[i].property {
        assert init[j] == rules[i + 1..][j - i - 1];
      }
      assert !Writes(init[i + 1..], rules[i].property) by {
        var later := init[i + 1..];
        forall j | 0 <= j < |later| ensures later[j].property != rules[i].property {
          assert later[j] == init[i + 1 + j];
        }
      }
      ApplyRulesSets(data, prefix, init, form, i);
    }
  }

  /** `currentData[enemyType]`, or `{}` when there is none yet. */
  function EntryOf(data: map<string, Entry>, enemyType: string): Entry
  {
    if enemyType in data then data[enemyType] else map[]
  }

  /** The loaded configuration and the copy the page edits. */
  class Visualizer {
    var originalData: map<string, Entry>
    var currentData: map<string, Entry>
    /**
     * The enemy types whose `currentData` entry is the very object stored in
     * `originalData` (as `resetEnemy` leaves it), so that an edit of one is an
     * edit of the other.
     */
    var shared: set<string>

    ghost predicate Valid()
      reads this
    {
      forall t :: t in shared ==> t in originalData && t in currentData && currentData[t] == originalData[t]
    }

    /** `originalData` is a deep copy of the loaded data and `currentData` the data itself. */
    constructor Load(data: map<string, Entry>)
      ensures Valid() && shared == {}
      ensures originalData == data && currentData == data
    {
      originalData := data;
      currentData := data;
      shared := {};
    }

    /**
     * `updatePreview(enemyType)`: every rule whose form element exists writes its property.
     * The writes go to the entry object, so a shared entry changes in `originalData` too.
     */
    method UpdatePreview(enemyType: string, form: map<string, string>)
      requires Valid()
      modifies this`currentData, this`originalData
      ensures Valid() && shared == old(shared)
      ensures currentData ==
        old(currentData)[enemyType := ApplyRules(EntryOf(old(currentData), enemyType), Prefix(enemyType), Rules(Prefix(enemyType)), form)]
      ensures enemyType in shared ==> originalData == old(originalData)[enemyType := currentData[enemyType]]
      ensures enemyType !in shared ==> originalData == old(originalData)
    {
      var prefix := Prefix(enemyType);
      var data := EntryOf(currentData, enemyType);
      currentData := currentData[enemyType := ApplyRules(data, prefix, Rules(prefix), form)];
      if enemyType in shared {
        originalData := originalData[enemyType := currentData[enemyType]];
      }
    }

    /**
     * `randomizeEnemy(enemyType)` with the nine `Math.random()` rolls given:
     * the entry keeps its other properties and takes the drawn ones, in a new
     * object that no longer shares anything with `originalData`.
     */
    method RandomizeEnemy(enemyType: string, rolls: seq<real>)
      requires |rolls| == 9
      requires Valid()
      modifies this`currentData, this`shared
      ensures Valid() && shared == old(shared) - {enemyType}
      ensures enemyType in currentData && currentData == old(currentData)[enemyType := currentData[enemyType]]
      ensures currentData[enemyType] == EntryOf(old(currentData), enemyType) + RandomProperties(rolls)
    {
      currentData := currentData[enemyType := EntryOf(currentData, enemyType) + RandomProperties(rolls)];
      shared := shared - {enemyType};
    }

    /**
     * `resetEnemy(enemyType)`: the entry goes back to the loaded one, or to none.
     * The loaded object itself is stored, not a copy, so the entry becomes shared.
     */
    method ResetEnemy(enemyType: string)
      requires Valid()
      modifies this`currentData, this`shared
      ensures Valid()
      ensures enemyType in originalData ==> currentData == old(currentData)[enemyType := originalData[enemyType]]
      ensures enemyType in originalData ==> shared == old(shared) + {enemyType}
      ensures enemyType !in originalData ==> currentData == old(currentData) - {enemyType}
      ensures enemyType !in originalData ==> shared == old(shared)
    {
      if enemyType in originalData {
        currentData := currentData[enemyType := originalData[enemyType]];
        shared := shared + {enemyType};
      } else {
        currentData := currentData - {enemyType};
      }
    }

    /**
     * Reset, edit, reset: because the first reset shares the loaded object, the
     * second one brings back the edited entry rather than the loaded one.
     */
    method ResetEditReset(enemyType: string, form: map<string, string>)
      requires Valid() && enemyType in originalData
      modifies this`currentData, this`originalData, this`shared
      ensures Valid() && enemyType in shared
      ensures currentData[enemyType] == originalData[enemyType] ==
        ApplyRules(old(originalData)[enemyType], Prefix(enemyType), Rules(Prefix(enemyType)), form)
    {
      ResetEnemy(enemyType);
      UpdatePreview(enemyType, form);
      ResetEnemy(enemyType);
    }
  }

  /** The nine properties `randomizeEnemy` draws, in its order, from rolls in [0, 1). */
  function RandomProperties(rolls: seq<real>): Entry
    requires |rolls| == 9
  {
    map[
      "color" := Some((rolls[0] * 0xff_ffff as real).Floor as real),
      "glowColor" := Some((rolls[1] * 0xff_ffff as real).Floor as real),
      "radius" := Some(((rolls[2] * 30.0).Floor + 10) as real),
      "glowDistance" := Some((rolls[3] * 25.0).Floor as real),
      "glowStrength" := Some(rolls[4] * 2.0 + 0.5),
      "health" := Some(rolls[5] * 8.0 + 1.0),
      "speed" := Some(rolls[6] * 6.0 + 1.0),
      "damage" := Some(rolls[7] * 0.4 + 0.05),
      "mass" := Some(rolls[8] * 3.0 + 0.5)]
  }

  /** Every drawn colour is a 24-bit integer and every drawn radius an integer from 10 to 39. */
  lemma {:induction false} RandomPropertiesWithin(rolls: seq<real>)
    requires |rolls| == 9 && forall i :: 0 <= i < 9 ==> 0.0 <= rolls[i] < 1.0
    ensures var p := RandomProperties(rolls);
      p["color"].Some? && 0.0 <= p["color"].value < 0xff_ffff as real
      && p["color"].value == p["color"].value.Floor as real
      && p["radius"].Some? && 10.0 <= p["radius"].value <= 39.0
      && p["radius"].value == p["radius"].value.Floor as real
  {
    var p := RandomProperties(rolls);
    var c := rolls[0] * 0xff_ffff as real;
    assert 0.0 <= c < 0xff_ffff as real;
    var r := rolls[2] * 30.0;
    assert 0.0 <= r < 30.0;
    assert (r.Floor + 10) as real == p["radius"].value;
  }

  /** `updatePreview` stores the radius as at least 5 (or NaN). */
  lemma {:induction false} PreviewRadius(data: Entry, enemyType: string, form: map<string, string>)
    requires Prefix(enemyType) + "Radius" in form
    ensures var out := ApplyRules(data, Prefix(enemyType), Rules(Prefix(enemyType)), form);
      "radius" in out && out["radius"] == MaxOrNaN(5.0, ParseFloat(form[Prefix(enemyType) + "Radius"]))
      && (out["radius"].Some? ==> out["radius"].value >= 5.0)
  {
    var rules := Rules(Prefix(enemyType));
    assert rules[2] == FieldRule("Radius", "radius", AtLeastFive);
    LaterRulesDiffer(Prefix(enemyType), 2);
    ApplyRulesSets(data, Prefix(enemyType), rules, form, 2);
  }

  /** `updatePreview` stores the damage field divided by 100 as `coreDamagePercent`. */
  lemma {:induction false} PreviewDamage(data: Entry, enemyType: string, form: map<string, string>)
    requires Prefix(enemyType) + "Damage" in form
    ensures var out := ApplyRules(data, Prefix(enemyType), Rules(Prefix(enemyType)), form);
      var parsed := ParseFloat(form[Prefix(enemyType) + "Damage"]);
      "coreDamagePercent" in out
      && (parsed.None? ==> out["coreDamagePercent"].None?)
      && (parsed.Some? ==> out["coreDamagePercent"] == Some(parsed.value / 100.0))
  {
    var rules := Rules(Prefix(enemyType));
    assert rules[5] == FieldRule("Damage", "coreDamagePercent", Percent);
    LaterRulesDiffer(Prefix(enemyType), 5);
    ApplyRulesSets(data, Prefix(enemyType), rules, form, 5);
  }

  /** No rule after the i-th writes the i-th rule's property. */
  lemma {:induction false} LaterRulesDiffer(prefix: string, i: nat)
    requires i == 2 || i == 5
    ensures i < |Rules(prefix)| && !Writes(Rules(prefix)[i + 1..], Rules(prefix)[i].property)
  {
    var rules := Rules(prefix);
    var key := rules[i].property;
    var later := rules[i + 1..];
    SpecificAvoids(prefix, key);
    forall j | 0 <= j < |later| ensures later[j].property != key {
      if i + 1 + j < |CommonRules| {
        assert later[j] == CommonRules[i + 1 + j];
      } else {
        assert later[j] == SpecificRules(prefix)[i + 1 + j - |CommonRules|];
      }
    }
  }

  /** No enemy-specific rule writes the radius or the damage. */
  lemma {:induction false} SpecificAvoids(prefix: string, key: string)
    requires key == "radius" || key == "coreDamagePercent"
    ensures forall j :: 0 <= j < |SpecificRules(prefix)| ==> SpecificRules(prefix)[j].property != key
  {
  }

  /** A property outside the page's rules passes through `updatePreview` unchanged. */
  lemma {:induction false} PreviewKeepsOthers(data: Entry, enemyType: string, form: map<string, string>, key: string)
    requires !Writes(Rules(Prefix(enemyType)), key)
    ensures var out := ApplyRules(data, Prefix(enemyType), Rules(Prefix(enemyType)), form);
      (key in out <==> key in data) && (key in data ==> out[key] == data[key])
  {
    ApplyRulesKeeps(data, Prefix(enemyType), Rules(Prefix(enemyType)), form, key);
  }
}
