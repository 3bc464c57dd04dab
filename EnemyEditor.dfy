/**
 * enemy-editor.js: the `EnemyEditor` class's reading and writing of the
 * `EnemyTypes` object, and its formatting and validation helpers. The enemy
 * table is the object's own properties, as JavaScript values.
 */
module EnemyEditing {
  import opened Wrappers
  import opened JsValues
  import EnemyVisualizer

  // ---------------------------------------------------------------------------
  // getEnemyConfiguration
  // ---------------------------------------------------------------------------

  /** The two selection functions are not enemies and are left out of the configuration. */
  predicate Kept(key: string)
  {
    key != "chooseEnemyType" && key != "chooseDangerWavePattern"
  }

  /**
   * `{ ...v }` for the attributes: an object's own fields, and no fields for a
   * function, a number or a boolean. A string would spread its characters
   * under the keys "0", "1", ...; the model gives it no fields.
   */
  function Spread(v: Value): Value
  {
    if v.Obj? then v else Obj(map[])
  }

  /** The summary `getEnemyConfiguration` builds for one enemy. */
  function Summary(enemy: Value): Value
  {
    Obj(map[
      "name" := Get(enemy, "name"),
      "color" := Get(enemy, "color"),
      "glowColor" := Get(enemy, "glowColor"),
      "radius" := Get(enemy, "radius"),
      "attributes" := if Truthy(Get(enemy, "attributes")) then Spread(Get(enemy, "attributes")) else Undefined,
      "getHealth" := if Truthy(Get(enemy, "getHealth")) then Str("function") else Undefined,
      "getCoreDamage" := if Truthy(Get(enemy, "getCoreDamage")) then Str("function") else Undefined])
  }

  /**
   * `getEnemyConfiguration()`: a summary for every key but the two selection
   * functions; reading `enemy.name` of an undefined or null entry throws.
   */
  function Configuration(types: map<string, Value>): (r: Result<map<string, Value>>)
    ensures r.Ok? <==> forall k :: k in types && Kept(k) ==> !(types[k].Undefined? || types[k].Null?)
    ensures r.Ok? ==> r.value.Keys == set k | k in types && Kept(k)
    ensures r.Ok? ==> "chooseEnemyType" !in r.value && "chooseDangerWavePattern" !in r.value
  {
    if exists k :: k in types && Kept(k) && (types[k].Undefined? || types[k].Null?) then
      Err("TypeError: cannot read property 'name'")
    else
      Ok(map k | k in types && Kept(k) :: Summary(types[k]))
  }

  /** Each summary carries the enemy's own name, colours and radius, and marks which functions it has. */
  lemma {:induction false} ConfigurationSummaries(types: map<string, Value>, k: string)
    requires Configuration(types).Ok? && k in types && Kept(k)
    ensures var s := Configuration(types).value[k];
      ReadPath(s, ["name"]) == Ok(Get(types[k], "name"))
      && ReadPath(s, ["color"]) == Ok(Get(types[k], "color"))
      && ReadPath(s, ["radius"]) == Ok(Get(types[k], "radius"))
      && (ReadPath(s, ["getHealth"]) == Ok(Str("function")) <==> Truthy(Get(types[k], "getHealth")))
  {
    ConfigurationEntry(types, k);
    SummaryReads(types[k]);
  }

  lemma {:induction false} ConfigurationEntry(types: map<string, Value>, k: string)
    requires Configuration(types).Ok? && k in types && Kept(k)
    ensures Configuration(types).value[k] == Summary(types[k])
  {
  }

  /** A summary reads back the enemy's own name, colour and radius, and marks whether it has a health function. */
  lemma {:induction false} SummaryReads(enemy: Value)
    ensures var s := Summary(enemy);
      ReadPath(s, ["name"]) == Ok(Get(enemy, "name"))
      && ReadPath(s, ["color"]) == Ok(Get(enemy, "color"))
      && ReadPath(s, ["radius"]) == Ok(Get(enemy, "radius"))
      && (ReadPath(s, ["getHealth"]) == Ok(Str("function")) <==> Truthy(Get(enemy, "getHealth")))
  {
    var s := Summary(enemy);
    ReadOne(s, "name");
    ReadOne(s, "color");
    SummaryShape(enemy);
  }

  /** A summary's radius reads back as the enemy's own, and its health entry marks a health function. */
  lemma {:induction false} SummaryShape(enemy: Value)
    ensures var s := Summary(enemy);
      ReadPath(s, ["radius"]) == Ok(Get(enemy, "radius"))
      && (ReadPath(s, ["getHealth"]) == Ok(Str("function")) <==> Truthy(Get(enemy, "getHealth")))
  {
    var s := Summary(enemy);
    ReadOne(s, "radius");
    ReadOne(s, "getHealth");
  }

  lemma {:induction false} ReadOne(v: Value, key: string)
    requires !(v.Undefined? || v.Null?)
    ensures ReadPath(v, [key]) == Ok(Get(v, key))
  {
    assert [key][1..] == [];
  }

  // ---------------------------------------------------------------------------
  // updateEnemyProperty
  // ---------------------------------------------------------------------------

  /**
   * `target.p1.….pn-1[pn] = value` in strict mode: every step but the last
   * reads a property, which throws on undefined or null; the last assigns,
   * which throws on any primitive. A function accepts the assignment, but its
   * own properties are not part of `Value`, so it reads back unchanged.
   */
  function AssignPath(target: Value, parts: seq<string>, value: Value): (r: Result<Value>)
    requires |parts| >= 1
    ensures (target.Undefined? || target.Null?) ==> r.Err?
    ensures r.Ok? && |parts| > 1 ==> target.Obj? && parts[0] in target.fields
    ensures r.Ok? && target.Obj? ==>
      r.value.Obj? && r.value.fields.Keys == target.fields.Keys + {parts[0]}
      && forall k :: k in target.fields && k != parts[0] ==> r.value.fields[k] == target.fields[k]
    ensures r.Ok? ==> target.Obj? || target.Fn?
    decreases |parts|
  {
    if |parts| == 1 then
      match target
      case Obj(fields) => Ok(Obj(fields[parts[0] := value]))
      case Fn => Ok(Fn)
      case _ => Err("TypeError: cannot set property '" + parts[0] + "'")
    else if target.Undefined? || target.Null? then
      Err("TypeError: cannot read property '" + parts[0] + "'")
    else
      match AssignPath(Get(target, parts[0]), parts[1..], value)
      case Err(e) => Err(e)
      case Ok(child) => Ok(Obj(target.fields[parts[0] := child]))
  }

  /** After a successful assignment into an object, the path reads back the new value. */
  lemma {:induction false} AssignPathReadBack(target: Value, parts: seq<string>, value: Value)
    requires |parts| >= 1 && AssignPath(target, parts, value).Ok?
    requires ReadPath(target, parts[..|parts| - 1]).Ok? && ReadPath(target, parts[..|parts| - 1]).value.Obj?
    ensures ReadPath(AssignPath(target, parts, value).value, parts) == Ok(value)
    decreases |parts|
  {
    var r := AssignPath(target, parts, value).value;
    if |parts| == 1 {
      assert parts[..0] == [];
      assert parts[1..] == [];
    } else {
      var child := Get(target, parts[0]);
      assert parts[1..][..|parts| - 2] == parts[1..|parts| - 1];
      assert parts[..|parts| - 1][1..] == parts[1..|parts| - 1];
      assert parts[..|parts| - 1][0] == parts[0];
      AssignPathReadBack(child, parts[1..], value);
    }
  }

  /** A path that leaves `parts` before the last key reads as before: only the final nested key changes. */
  lemma {:induction false} AssignPathOthers(target: Value, parts: seq<string>, value: Value, p: seq<string>, j: nat)
    requires |parts| >= 1 && AssignPath(target, parts, value).Ok?
    requires target.Obj?
    requires j < |parts| && j < |p| && p[..j] == parts[..j] && p[j] != parts[j]
    ensures ReadPath(AssignPath(target, parts, value).value, p) == ReadPath(target, p)
    decreases |parts|
  {
    var r := AssignPath(target, parts, value).value;
    if j > 0 {
      assert p[0] == parts[0] by { assert p[..j][0] == parts[..j][0]; }
      var child := Get(target, parts[0]);
      assert p[1..][..j - 1] == parts[1..][..j - 1];
      if child.Obj? {
        AssignPathOthers(child, parts[1..], value, p[1..], j - 1);
      } else {
        assert child.Fn?;
        assert r.fields[parts[0]] == Fn;
      }
    }
  }

  /** The keys of `propertyPath`: split at every dot when it has one, else the path itself. */
  function PathParts(propertyPath: string): (parts: seq<string>)
    ensures |parts| >= 1
  {
    if Contains(propertyPath, ".") then Split(propertyPath, '.') else [propertyPath]
  }

  /** Joining the keys with dots gives the path back, in either branch. */
  lemma {:induction false} PathPartsJoin(propertyPath: string)
    ensures Join(PathParts(propertyPath), '.') == propertyPath
  {
    SplitJoin(propertyPath, '.');
  }

  class EnemyEditor {
    /** The shared `EnemyTypes` object. */
    var enemyTypes: map<string, Value>

    constructor (types: map<string, Value>)
      ensures enemyTypes == types
    {
      enemyTypes := types;
    }

    /** `getEnemyConfiguration()` over the shared table. */
    function GetEnemyConfiguration(): Result<map<string, Value>>
      reads this
    {
      Configuration(enemyTypes)
    }

    /**
     * `updateEnemyProperty(enemyType, propertyPath, value)`: false for a
     * missing or falsy entry and for an assignment that throws; otherwise the
     * entry is replaced by its updated copy and the result is true.
     */
    method UpdateEnemyProperty(enemyType: string, propertyPath: string, value: Value) returns (updated: bool)
      modifies this`enemyTypes
      ensures !(enemyType in old(enemyTypes) && Truthy(old(enemyTypes)[enemyType])) ==> !updated
      ensures updated <==>
        (enemyType in old(enemyTypes) && Truthy(old(enemyTypes)[enemyType])
         && AssignPath(old(enemyTypes)[enemyType], PathParts(propertyPath), value).Ok?)
      ensures updated ==>
        enemyTypes == old(enemyTypes)[enemyType := AssignPath(old(enemyTypes)[enemyType], PathParts(propertyPath), value).value]
      ensures !updated ==> enemyTypes == old(enemyTypes)
    {
      if !(enemyType in enemyTypes && Truthy(enemyTypes[enemyType])) {
        return false;
      }
      var parts := if Contains(propertyPath, ".") then Split(propertyPath, '.') else [propertyPath];
      match AssignPath(enemyTypes[enemyType], parts, value)
      case Err(_) =>
        updated := false;
      case Ok(entry) =>
        enemyTypes := enemyTypes[enemyType := entry];
        updated := true;
    }
  }

  // ---------------------------------------------------------------------------
  // Formatting and validation
  // ---------------------------------------------------------------------------

  /** `formatColorValue(color)`: a number as `intToHexColor` writes it; anything else unchanged. */
  function FormatColorValue(color: EnemyVisualizer.ColorInput): (r: EnemyVisualizer.ColorInput)
    ensures color.IntColor? ==> r.TextColor? && |r.text| >= 8 && r.text[..2] == "0x"
    ensures color.IntColor? && 0 <= color.n < 0x100_0000 ==>
      |r.text| == 8 && AllDigits(r.text[2..], 16) && DigitsValue(r.text[2..], 16) == color.n
      && forall i :: 2 <= i < 8 ==> r.text[i] in "0123456789abcdef"
    ensures !color.IntColor? ==> r == color
  {
    if color.IntColor? then EnemyVisualizer.TextColor(EnemyVisualizer.IntToHexColor(color)) else color
  }

  const ColorError: string := "Invalid color format. Use format: 0xff4a4a"

  /** The pattern `/^0x[0-9a-fA-F]{6}$/`. */
  predicate IsColorLiteral(s: string)
  {
    |s| == 8 && s[..2] == "0x" && AllDigits(s[2..], 16)
  }

  /**
   * `validateColor(color)`: a "0x" literal with exactly six hexadecimal digits
   * becomes its integer, a number is returned as it is, anything else throws.
   */
  function ValidateColor(color: EnemyVisualizer.ColorInput): (r: Result<int>)
    ensures r.Ok? <==> color.IntColor? || (color.TextColor? && IsColorLiteral(color.text))
    ensures color.IntColor? ==> r == Ok(color.n)
    ensures color.TextColor? && IsColorLiteral(color.text) ==>
      r == Ok(DigitsValue(color.text[2..], 16) as int) && 0 <= r.value < 0x100_0000
    ensures r.Err? ==> r.message == ColorError
  {
    match color
    case TextColor(s) =>
      if IsColorLiteral(s) then
        ColorLiteralValue(s);
        Ok(ParseInt(s).value)
      else Err(ColorError)
    case IntColor(n) => Ok(n)
    case OtherColor => Err(ColorError)
  }

  lemma {:induction false} ColorLiteralValue(s: string)
    requires IsColorLiteral(s)
    ensures ParseInt(s) == Some(DigitsValue(s[2..], 16) as int)
    ensures DigitsValue(s[2..], 16) < 0x100_0000
  {
    assert s == "0x" + s[2..];
    ParseIntHex(s[2..]);
    DigitsBound(s[2..], 16);
    EnemyVisualizer.PowerValues();
  }

  /** A 24-bit colour written by `formatColorValue` validates back to itself. */
  lemma {:induction false} FormatThenValidate(c: int)
    requires 0 <= c < 0x100_0000
    ensures ValidateColor(FormatColorValue(EnemyVisualizer.IntColor(c))) == Ok(c)
  {
  }

  /** A colour literal that validates formats back to the same text when written in lower case. */
  lemma {:induction false} ValidateThenFormat(s: string)
    requires IsColorLiteral(s) && forall i :: 2 <= i < 8 ==> s[i] in "0123456789abcdef"
    ensures ValidateColor(EnemyVisualizer.TextColor(s)).Ok?
    ensures FormatColorValue(EnemyVisualizer.IntColor(ValidateColor(EnemyVisualizer.TextColor(s)).value))
      == EnemyVisualizer.TextColor(s)
  {
    var n := ValidateColor(EnemyVisualizer.TextColor(s)).value;
    assert n == DigitsValue(s[2..], 16) as int && 0 <= n < 0x100_0000;
    var t := FormatColorValue(EnemyVisualizer.IntColor(n)).text;
    LowerTail(t);
    LowerTail(s);
    LowerHexUnique(t[2..], s[2..]);
    SamePrefixAndTail(t, s);
  }

  /** Two strings that agree on their first two characters and on the rest are equal. */
  lemma {:induction false} SamePrefixAndTail(a: string, b: string)
    requires |a| >= 2 && |b| >= 2 && a[..2] == b[..2] && a[2..] == b[2..]
    ensures a == b
  {
    assert a == a[..2] + a[2..];
    assert b == b[..2] + b[2..];
  }

  lemma {:induction false} LowerTail(t: string)
    requires |t| == 8 && forall i :: 2 <= i < 8 ==> t[i] in "0123456789abcdef"
    ensures forall i :: 0 <= i < |t[2..]| ==> t[2..][i] in "0123456789abcdef"
  {
    var u := t[2..];
    forall i | 0 <= i < |u| ensures u[i] in "0123456789abcdef" {
      assert u[i] == t[i + 2];
    }
  }

  /** Two six-digit lower-case numerals with the same value are the same text. */
  lemma {:induction false} LowerHexUnique(a: string, b: string)
    requires |a| == |b| && AllDigits(a, 16) && AllDigits(b, 16)
    requires forall i :: 0 <= i < |a| ==> a[i] in "0123456789abcdef"
    requires forall i :: 0 <= i < |b| ==> b[i] in "0123456789abcdef"
    requires DigitsValue(a, 16) == DigitsValue(b, 16)
    ensures a == b
    decreases |a|
  {
    if |a| > 0 {
      var n := |a| - 1;
      var a0, b0 := a[..n], b[..n];
      forall i | 0 <= i < n
        ensures a0[i] in "0123456789abcdef" && b0[i] in "0123456789abcdef"
        ensures DigitValue(a0[i], 16).Some? && DigitValue(b0[i], 16).Some?
      {
        assert a0[i] == a[i] && b0[i] == b[i];
      }
      var da, db := DigitValue(a[n], 16).value, DigitValue(b[n], 16).value;
      var ha, hb := DigitsValue(a0, 16), DigitsValue(b0, 16);
      LastDigit(a);
      LastDigit(b);
      PlaceValueUnique(ha, da, hb, db);
      assert a[n] == b[n] by { LowerDigit(a[n]); LowerDigit(b[n]); }
      LowerHexUnique(a0, b0);
      SameInitAndLast(a, b);
    }
  }

  /** Two non-empty strings that agree but for the last character, and on that too, are equal. */
  lemma {:induction false} SameInitAndLast(a: string, b: string)
    requires |a| == |b| > 0 && a[..|a| - 1] == b[..|b| - 1] && a[|a| - 1] == b[|b| - 1]
    ensures a == b
  {
    assert a == a[..|a| - 1] + [a[|a| - 1]];
    assert b == b[..|b| - 1] + [b[|b| - 1]];
  }

  /** A hexadecimal numeral is its digits but the last, shifted, plus the last. */
  lemma {:induction false} LastDigit(ds: string)
    requires |ds| > 0 && AllDigits(ds, 16)
    ensures AllDigits(ds[..|ds| - 1], 16) && DigitValue(ds[|ds| - 1], 16).Some?
    ensures DigitsValue(ds, 16) == DigitsValue(ds[..|ds| - 1], 16) * 16 + DigitValue(ds[|ds| - 1], 16).value
  {
    var init := ds[..|ds| - 1];
    forall i | 0 <= i < |init| ensures DigitValue(init[i], 16).Some? {
      assert init[i] == ds[i];
    }
  }

  /** A number written as `h * 16 + d` with a digit `d` determines both `h` and `d`. */
  lemma {:induction false} PlaceValueUnique(ha: int, da: int, hb: int, db: int)
    requires 0 <= da < 16 && 0 <= db < 16 && ha * 16 + da == hb * 16 + db
    ensures ha == hb && da == db
  {
    assert (ha - hb) * 16 == db - da;
  }

  /** A lower-case hexadecimal digit is the `HexChar` of its value. */
  lemma {:induction false} LowerDigit(c: char)
    requires c in "0123456789abcdef"
    ensures DigitValue(c, 16).Some? && c == HexChar(DigitValue(c, 16).value)
  {
  }

  const RadiusError: string := "Radius must be between 5 and 50"

  /** `validateRadius(radius)`: the `parseInt` of the text when it lies in [5, 50]; otherwise it throws. */
  function ValidateRadius(radius: string): (r: Result<int>)
    ensures r.Ok? <==> ParseInt(radius).Some? && 5 <= ParseInt(radius).value <= 50
    ensures r.Ok? ==> r.value == ParseInt(radius).value
    ensures r.Err? ==> r.message == RadiusError
  {
    match ParseInt(radius)
    case Some(n) => if 5 <= n && n <= 50 then Ok(n) else Err(RadiusError)
    case None => Err(RadiusError)
  }

  /** A radius written in decimal digits is accepted exactly when its value is between 5 and 50. */
  lemma {:induction false} ValidateRadiusDigits(ds: string)
    requires |ds| >= 1 && AllDigits(ds, 10)
    ensures ValidateRadius(ds).Ok? <==> 5 <= DigitsValue(ds, 10) <= 50
    ensures ValidateRadius(ds).Ok? ==> ValidateRadius(ds).value == DigitsValue(ds, 10)
  {
    ParseIntDecimal(ds);
  }

  /** How `formatValue` renders an attribute into the generated source text. */
  datatype Formatted =
    | Quoted(text: string)       // a string, between single quotes
    | NumberText(n: real)        // `value.toString()` of a number strictly between 0 and 1
    | Json(v: Value)             // `JSON.stringify(value)` of an object or null
    | AsIs(v: Value)             // the value itself

  /** `formatValue(value)`. */
  function FormatValue(value: Value): (f: Formatted)
    ensures value.Str? ==> f == Quoted("'" + value.s + "'")
    ensures value.Num? && 0.0 < value.n < 1.0 ==> f == NumberText(value.n)
    ensures value.Num? && !(0.0 < value.n < 1.0) ==> f == AsIs(value)
    ensures value.Obj? || value.Null? ==> f == Json(value)
    ensures value.Bool? || value.Undefined? || value.Fn? ==> f == AsIs(value)
  {
    match value
    case Str(s) => Quoted("'" + s + "'")
    case Num(n) => if n < 1.0 && n > 0.0 then NumberText(n) else AsIs(value)
    case Bool(_) => AsIs(value)
    case Obj(_) => Json(value)
    case Null => Json(value)
    case _ => AsIs(value)
  }

  /** Stripping the quotes from a formatted string gives the string back. */
  lemma {:induction false} FormatValueUnquotes(s: string)
    ensures var f := FormatValue(Str(s));
      f.Quoted? && |f.text| == |s| + 2 && f.text[1..|f.text| - 1] == s
  {
    var t := "'" + s + "'";
    assert t[1..|t| - 1] == s;
  }

  /** `getEnemyDescription(enemyType)`: the four enemies' fixed text, "Enemy" for anything else. */
  function EnemyDescription(enemyType: string): (d: string)
    ensures d != ""
    ensures enemyType !in {"crimsonSeeker", "amberTitan", "astralOrbiter", "emeraldBow"} ==> d == "Enemy"
  {
    if enemyType == "crimsonSeeker" then "Basic red rushing enemy"
    else if enemyType == "amberTitan" then "Orange enemy with curved shield in front"
    else if enemyType == "astralOrbiter" then "Pink enemy with orbital projectiles"
    else if enemyType == "emeraldBow" then "Green arrow shooting enemy"
    else "Enemy"
  }

  /** The four known enemies have four different descriptions, none of them the fallback. */
  lemma {:induction false} DescriptionsDistinct()
    ensures var ds := [EnemyDescription("crimsonSeeker"), EnemyDescription("amberTitan"),
        EnemyDescription("astralOrbiter"), EnemyDescription("emeraldBow")];
      (forall i :: 0 <= i < 4 ==> ds[i] != "Enemy")
      && forall i, j :: 0 <= i < j < 4 ==> ds[i] != ds[j]
  {
    var ds := [EnemyDescription("crimsonSeeker"), EnemyDescription("amberTitan"),
      EnemyDescription("astralOrbiter"), EnemyDescription("emeraldBow")];
    assert ds[0][0] == 'B' && ds[1][0] == 'O' && ds[2][0] == 'P' && ds[3][0] == 'G';
    assert "Enemy"[0] == 'E';
  }
}
