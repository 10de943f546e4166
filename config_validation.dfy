/**
 * The definition-write check: before an attribute definition is stored, its
 * config must have the shape its kind asks for, and its default value, if it
 * has one, must pass the value validator.
 */
module ConfigValidation {
  import opened Common
  import opened Values
  import opened AttributeModel
  import opened ValueValidation

  /** `Number.isInteger(v) && v >= 0`. */
  predicate IsNonNegInt(v: Value) {
    v.Num? && v.n.exp == 0 && v.n.mant >= 0
  }

  /** `Number.isInteger(v) && v > 0`. */
  predicate IsPositiveInt(v: Value) {
    v.Num? && v.n.exp == 0 && v.n.mant > 0
  }

  /** `isNumber(v) && v > 0`. */
  predicate IsPositiveNumber(v: Value) {
    v.Num? && v.n.mant > 0
  }

  /** `b >= a` for two numbers. */
  predicate NotBelow(b: Value, a: Value)
    requires a.Num? && b.Num?
  {
    RealOf(b.n) >= RealOf(a.n)
  }

  /** `isString(v.key)` for an object `v`. */
  predicate HasString(v: Value, key: string) {
    Prop(v, key).Some? && Prop(v, key).value.Str?
  }

  /** A select option: `{ value: string, label?: string }`. */
  predicate IsOptionShape(o: Value) {
    o.Obj? && HasString(o, "value") && (Prop(o, "label").Some? ==> HasString(o, "label"))
  }

  /** A table column: `{ key: string, label: string }`. */
  predicate IsColumnShape(c: Value) {
    c.Obj? && HasString(c, "key") && HasString(c, "label")
  }

  /** The option loop: the first bad option decides the message. */
  function CheckOptions(opts: seq<Value>): Verdict {
    if opts == [] then Accept
    else
      var o := opts[0];
      if !(o.Obj? && HasString(o, "value")) then Reject("each option must be { value: string, label?: string }")
      else if Prop(o, "label").Some? && !HasString(o, "label") then Reject("option.label must be string")
      else CheckOptions(opts[1..])
  }

  /** The option loop passes exactly when every option has the option shape. */
  lemma {:induction false} CheckOptionsAccepts(opts: seq<Value>)
    ensures CheckOptions(opts) == Accept <==> forall i :: 0 <= i < |opts| ==> IsOptionShape(opts[i])
  {
    if opts != [] {
      CheckOptionsAccepts(opts[1..]);
      assert forall i :: 1 <= i < |opts| ==> opts[i] == opts[1..][i - 1];
    }
  }

  function CheckTextConfig(cfg: map<string, Value>): Verdict {
    if "minLength" in cfg && !IsNonNegInt(cfg["minLength"]) then Reject("minLength must be a non-negative integer")
    else if "maxLength" in cfg && !IsNonNegInt(cfg["maxLength"]) then Reject("maxLength must be a non-negative integer")
    else if "minLength" in cfg && "maxLength" in cfg && !NotBelow(cfg["maxLength"], cfg["minLength"]) then
      Reject("maxLength must be >= minLength")
    else if "pattern" in cfg && !cfg["pattern"].Str? then Reject("pattern must be string (RegExp source)")
    else Accept
  }

  function CheckNumberConfig(cfg: map<string, Value>): Verdict {
    if "min" in cfg && !cfg["min"].Num? then Reject("min must be number")
    else if "max" in cfg && !cfg["max"].Num? then Reject("max must be number")
    else if "min" in cfg && "max" in cfg && !NotBelow(cfg["max"], cfg["min"]) then Reject("max must be >= min")
    else if "decimals" in cfg && !IsNonNegInt(cfg["decimals"]) then Reject("decimals must be non-negative integer")
    else if "step" in cfg && !IsPositiveNumber(cfg["step"]) then Reject("step must be positive number")
    else if "allowNegative" in cfg && !cfg["allowNegative"].Bool? then Reject("allowNegative must be boolean")
    else if "allowZero" in cfg && !cfg["allowZero"].Bool? then Reject("allowZero must be boolean")
    else Accept
  }

  function CheckDateConfig(cfg: map<string, Value>): Verdict {
    if "min" in cfg && !cfg["min"].Str? then Reject("min must be date string")
    else if "max" in cfg && !cfg["max"].Str? then Reject("max must be date string")
    else Accept
  }

  function CheckSelectConfig(cfg: map<string, Value>): Verdict {
    if !("options" in cfg && cfg["options"].Arr? && |cfg["options"].items| > 0) then
      Reject("options must be non-empty array")
    else CheckOptions(cfg["options"].items)
  }

  function CheckFileConfig(cfg: map<string, Value>): Verdict {
    if "maxSize" in cfg && !IsPositiveNumber(cfg["maxSize"]) then Reject("maxSize must be positive number (bytes)")
    else if "maxFiles" in cfg && !IsPositiveInt(cfg["maxFiles"]) then Reject("maxFiles must be positive integer")
    else if "allowedMimeTypes" in cfg && !cfg["allowedMimeTypes"].Arr? then Reject("allowedMimeTypes must be array")
    else if "allowedMimeTypes" in cfg && exists i :: 0 <= i < |cfg["allowedMimeTypes"].items| && !cfg["allowedMimeTypes"].items[i].Str? then
      Reject("allowedMimeTypes entries must be string")
    else Accept
  }

  function CheckObjectConfig(cfg: map<string, Value>): Verdict {
    if "properties" in cfg && !cfg["properties"].Obj? then Reject("properties must be object")
    else if "required" in cfg && !cfg["required"].Arr? then Reject("required must be array of strings")
    else Accept
  }

  function CheckArrayConfig(cfg: map<string, Value>): Verdict {
    if !("itemType" in cfg && cfg["itemType"].Str?) then Reject("itemType is required (string)")
    else if "minItems" in cfg && !IsNonNegInt(cfg["minItems"]) then Reject("minItems must be non-negative integer")
    else if "maxItems" in cfg && !IsNonNegInt(cfg["maxItems"]) then Reject("maxItems must be non-negative integer")
    else if "minItems" in cfg && "maxItems" in cfg && !NotBelow(cfg["maxItems"], cfg["minItems"]) then
      Reject("maxItems must be >= minItems")
    else Accept
  }

  function CheckTableConfig(cfg: map<string, Value>): Verdict {
    if !("columns" in cfg && cfg["columns"].Arr? && |cfg["columns"].items| > 0) then
      Reject("columns must be non-empty array")
    else if exists i :: 0 <= i < |cfg["columns"].items| && !IsColumnShape(cfg["columns"].items[i]) then
      Reject("each column must have key and label")
    else Accept
  }

  /** The closed color formats. */
  predicate IsColorFormat(v: Value) {
    v == Str("hex") || v == Str("rgb") || v == Str("hsl")
  }

  /** The closed QR error-correction levels. */
  predicate IsCorrectionLevel(v: Value) {
    v == Str("L") || v == Str("M") || v == Str("Q") || v == Str("H")
  }

  /** The per-kind shape check on a definition's config. */
  function CheckConfig(kind: Kind, cfg: map<string, Value>): Verdict {
    match kind
    case Text => CheckTextConfig(cfg)
    case Number => CheckNumberConfig(cfg)
    case Date => CheckDateConfig(cfg)
    case DateTime => CheckDateConfig(cfg)
    case Time => CheckDateConfig(cfg)
    case Select => CheckSelectConfig(cfg)
    case MultiSelect => CheckSelectConfig(cfg)
    case File => CheckFileConfig(cfg)
    case Image => CheckFileConfig(cfg)
    case Attachment => CheckFileConfig(cfg)
    case Object => CheckObjectConfig(cfg)
    case Array => CheckArrayConfig(cfg)
    case Formula =>
      if "expression" in cfg && cfg["expression"].Str? then Accept else Reject("expression is required (string)")
    case Expression =>
      if "expression" in cfg && cfg["expression"].Str? then Accept else Reject("expression is required (string)")
    case Table => CheckTableConfig(cfg)
    case Color =>
      if "format" in cfg && !IsColorFormat(cfg["format"]) then Reject("format must be one of hex|rgb|hsl") else Accept
    case RichText =>
      if "allowedTags" in cfg && !cfg["allowedTags"].Arr? then Reject("allowedTags must be array") else Accept
    case Rating =>
      if "max" in cfg && !IsPositiveInt(cfg["max"]) then Reject("max must be positive integer") else Accept
    case Barcode =>
      if "format" in cfg && !cfg["format"].Str? then Reject("format must be string") else Accept
    case Qr =>
      if "errorCorrectionLevel" in cfg && !IsCorrectionLevel(cfg["errorCorrectionLevel"]) then
        Reject("errorCorrectionLevel must be L|M|Q|H")
      else Accept
    case Boolean => Accept
    case Json => Accept
    case Readonly => Accept
  }

  /** The whole check: the config shape first, then the default value through the value validator. */
  function ValidateDefinition(host: Host, a: AttributeDef): Verdict {
    match CheckConfig(a.kind, a.config)
    case Reject(m) => Reject(m)
    case Accept =>
      if a.defaultValue.Some? then ValidateValue(host, a, a.defaultValue.value) else Accept
  }

  // ---------------------------------------------------------------------------
  // What an accepted definition guarantees to the value validator

  /** A stored definition has an accepted config, and its default, if any, passes the value validator. */
  lemma AcceptedDefinitionDefault(host: Host, a: AttributeDef)
    ensures ValidateDefinition(host, a) == Accept <==>
      CheckConfig(a.kind, a.config) == Accept && (a.defaultValue.Some? ==> ValidateValue(host, a, a.defaultValue.value) == Accept)
  {
  }

  /**
   * Under an accepted text config the text check reads no coerced bound: it
   * accepts exactly the strings whose length lies within the bounds and that
   * match a non-empty pattern.
   */
  lemma AcceptedTextDefinition(host: Host, a: AttributeDef, v: Value)
    requires a.kind == Text && CheckConfig(Text, a.config) == Accept
    ensures "minLength" in a.config ==> IsNonNegInt(a.config["minLength"])
    ensures "maxLength" in a.config ==> IsNonNegInt(a.config["maxLength"])
    ensures "minLength" in a.config && "maxLength" in a.config ==> a.config["minLength"].n.mant <= a.config["maxLength"].n.mant
    ensures "pattern" in a.config ==> a.config["pattern"].Str?
    ensures ValidateValue(host, a, v) == Accept <==>
      && v.Str?
      && ("minLength" in a.config ==> a.config["minLength"].n.mant <= |v.s|)
      && ("maxLength" in a.config ==> |v.s| <= a.config["maxLength"].n.mant)
      && (IsSet(a.config, "pattern") ==> host.testPattern(a.config["pattern"], v.s) == Some(true))
  {
  }

  /**
   * Under an accepted number config, min, max, decimals and step are numbers,
   * min does not exceed max, decimals is a whole number and step is positive; the number check accepts exactly the
   * numbers within the bounds, with at most `decimals` fraction digits,
   * aligned to the step.
   */
  lemma AcceptedNumberDefinition(host: Host, a: AttributeDef, v: Value)
    requires a.kind == Number && CheckConfig(Number, a.config) == Accept
    ensures NumericBounds(a.config)
    ensures "min" in a.config && "max" in a.config ==> RealOf(a.config["min"].n) <= RealOf(a.config["max"].n)
    ensures "decimals" in a.config ==> IsNonNegInt(a.config["decimals"])
    ensures "step" in a.config ==> a.config["step"].Num? && RealOf(a.config["step"].n) > 0.0
    ensures ValidateValue(host, a, v) == Accept <==>
      && v.Num?
      && ("min" in a.config ==> RealOf(a.config["min"].n) <= RealOf(v.n))
      && ("max" in a.config ==> RealOf(v.n) <= RealOf(a.config["max"].n))
      && ("decimals" in a.config ==> v.n.exp <= a.config["decimals"].n.mant)
      && ("step" in a.config ==> StepAligned(host, a.config, RealOf(v.n)))
  {
    var cfg := a.config;
    assert NumericBounds(cfg);
    NumberAccepted(host, a, v);
    if "decimals" in cfg {
      assert cfg["decimals"].n.exp == 0;
      assert RealOf(cfg["decimals"].n) == cfg["decimals"].n.mant as real;
    }
    if "step" in cfg {
      var st := cfg["step"].n;
      assert Pow10(st.exp) > 0;
      assert RealOf(st) == st.mant as real / Pow10(st.exp) as real;
    }
  }

  /** The option values of an accepted select config, in option order. */
  function OptionTexts(cfg: map<string, Value>): (r: seq<Value>)
    requires CheckSelectConfig(cfg) == Accept
    ensures |r| == |cfg["options"].items| > 0
    ensures forall i :: 0 <= i < |r| ==> r[i].Str?
  {
    var opts := cfg["options"].items;
    CheckOptionsAccepts(opts);
    seq(|opts|, i requires 0 <= i < |opts| => opts[i].fields["value"])
  }

  /** Under an accepted select config the option values are read without error. */
  lemma AcceptedOptionsReadable(cfg: map<string, Value>)
    requires CheckSelectConfig(cfg) == Accept
    ensures OptionValues(cfg).Some? && |OptionValues(cfg).value| == |OptionTexts(cfg)|
    ensures forall i :: 0 <= i < |OptionTexts(cfg)| ==> OptionValues(cfg).value[i] == Some(OptionTexts(cfg)[i])
  {
    var opts := cfg["options"].items;
    CheckOptionsAccepts(opts);
    assert forall i :: 0 <= i < |opts| ==> !opts[i].Null?;
  }

  /** Under an accepted select config, a select value is accepted exactly when it is one of the option values. */
  lemma AcceptedSelectDefinition(host: Host, a: AttributeDef, v: Value)
    requires a.kind == Select && CheckConfig(Select, a.config) == Accept
    ensures ValidateValue(host, a, v) == Accept <==> v in OptionTexts(a.config)
  {
    AcceptedOptionsReadable(a.config);
    var texts := OptionTexts(a.config);
    var vals := OptionValues(a.config).value;
    if v in texts {
      var i :| 0 <= i < |texts| && texts[i] == v;
      assert vals[i] == Some(v);
    }
    if IsOption(vals, v) {
      var i :| 0 <= i < |vals| && vals[i].Some? && SameValueZero(vals[i].value, v);
      assert texts[i] == v;
    }
  }

  /** Under an accepted select config, a multiselect value is a list of option values. */
  lemma AcceptedMultiSelectDefinition(host: Host, a: AttributeDef, v: Value)
    requires a.kind == MultiSelect && CheckConfig(MultiSelect, a.config) == Accept
    ensures ValidateValue(host, a, v) == Accept <==>
      v.Arr? && forall i :: 0 <= i < |v.items| ==> v.items[i] in OptionTexts(a.config)
  {
    AcceptedOptionsReadable(a.config);
    MultiSelectIsSelectEach(a, host, v);
    if v.Arr? {
      forall i | 0 <= i < |v.items|
        ensures ValidateValue(host, a.(kind := Select), v.items[i]) == Accept <==> v.items[i] in OptionTexts(a.config)
      {
        AcceptedSelectDefinition(host, a.(kind := Select), v.items[i]);
      }
    }
  }

  /** A size definition with options s, m, l and default `dflt`. */
  function SizeDefinition(dflt: string): AttributeDef {
    var opts := Arr([Obj(map["value" := Str("s")]), Obj(map["value" := Str("m")]), Obj(map["value" := Str("l")])]);
    AttributeDef("size", "Size", Select, false, Some(Str(dflt)), map["options" := opts], true)
  }

  /** The options of the size definition pass the config check and read as s, m, l. */
  lemma SizeOptions(dflt: string)
    ensures CheckConfig(Select, SizeDefinition(dflt).config) == Accept
    ensures OptionTexts(SizeDefinition(dflt).config) == [Str("s"), Str("m"), Str("l")]
  {
    CheckOptionsAccepts(SizeDefinition(dflt).config["options"].items);
  }

  /** The size definition with default "m" is accepted. */
  lemma SizeDefaultAccepted(host: Host)
    ensures ValidateDefinition(host, SizeDefinition("m")) == Accept
  {
    SizeOptions("m");
    AcceptedSelectDefinition(host, SizeDefinition("m"), Str("m"));
  }

  /** The size definition with default "xl" is refused. */
  lemma SizeDefaultRejected(host: Host)
    ensures ValidateDefinition(host, SizeDefinition("xl")).Reject?
  {
    SizeOptions("xl");
    AcceptedSelectDefinition(host, SizeDefinition("xl"), Str("xl"));
  }

  /**
   * Under an accepted rating config, `max` is a positive integer and the
   * rating check accepts exactly the integers from 0 to `max`.
   */
  lemma AcceptedRatingDefinition(host: Host, a: AttributeDef, v: Value)
    requires a.kind == Rating && CheckConfig(Rating, a.config) == Accept
    ensures "max" in a.config ==> IsPositiveInt(a.config["max"])
    ensures ValidateValue(host, a, v) == Accept <==>
      v.Num? && v.n.exp == 0 && 0 <= v.n.mant && ("max" in a.config ==> v.n.mant <= a.config["max"].n.mant)
  {
  }

  /** Under an accepted attachment config, an accepted attachment holds at most `maxFiles` entries. */
  lemma AcceptedAttachmentDefinition(host: Host, a: AttributeDef, v: Value)
    requires a.kind == Attachment && CheckConfig(Attachment, a.config) == Accept
    ensures "maxFiles" in a.config ==> IsPositiveInt(a.config["maxFiles"])
    ensures ValidateValue(host, a, v) == Accept <==>
      && v.Arr?
      && (forall i :: 0 <= i < |v.items| ==> v.items[i].Str?)
      && ("maxFiles" in a.config ==> |v.items| <= a.config["maxFiles"].n.mant)
  {
  }

  /**
   * Under an accepted array config, `itemType` is a string and the item
   * bounds are whole numbers in order; the array check accepts exactly the
   * arrays whose items all fit that item type.
   */
  lemma AcceptedArrayDefinition(host: Host, a: AttributeDef, v: Value)
    requires a.kind == Array && CheckConfig(Array, a.config) == Accept
    ensures "itemType" in a.config && a.config["itemType"].Str?
    ensures "minItems" in a.config ==> IsNonNegInt(a.config["minItems"])
    ensures "maxItems" in a.config ==> IsNonNegInt(a.config["maxItems"])
    ensures "minItems" in a.config && "maxItems" in a.config ==> a.config["minItems"].n.mant <= a.config["maxItems"].n.mant
    ensures ValidateValue(host, a, v) == Accept <==>
      v.Arr? && forall i :: 0 <= i < |v.items| ==> FitsItemType(a.config["itemType"].s, v.items[i])
  {
  }

  /** A formula or expression config is accepted exactly when it holds a string `expression`. */
  lemma AcceptedExpressionDefinition(kind: Kind, cfg: map<string, Value>)
    requires kind == Formula || kind == Expression
    ensures CheckConfig(kind, cfg) == Accept <==> "expression" in cfg && cfg["expression"].Str?
  {
  }

  /**
   * A table config is accepted exactly when its columns form a non-empty
   * array of `{ key: string, label: string }` objects; the table check then
   * accepts exactly the arrays of objects.
   */
  lemma AcceptedTableDefinition(host: Host, a: AttributeDef, v: Value)
    requires a.kind == Table
    ensures CheckConfig(Table, a.config) == Accept <==>
      && "columns" in a.config && a.config["columns"].Arr? && |a.config["columns"].items| > 0
      && forall i :: 0 <= i < |a.config["columns"].items| ==> IsColumnShape(a.config["columns"].items[i])
    ensures ValidateValue(host, a, v) == Accept <==> v.Arr? && forall i :: 0 <= i < |v.items| ==> v.items[i].Obj?
  {
  }

  /** Under an accepted color config the format is one of hex, rgb and hsl. */
  lemma AcceptedColorFormat(a: AttributeDef)
    requires a.kind == Color && CheckConfig(Color, a.config) == Accept
    ensures IsColorFormat(ColorFormat(a.config))
  {
  }

  /** A QR config is accepted exactly when its error-correction level, if present, is one of L, M, Q and H. */
  lemma AcceptedQrLevel(cfg: map<string, Value>)
    ensures CheckConfig(Qr, cfg) == Accept <==>
      ("errorCorrectionLevel" in cfg ==> cfg["errorCorrectionLevel"] in {Str("L"), Str("M"), Str("Q"), Str("H")})
  {
  }
}
