/**
 * The value validator: accepts or rejects one JSON value against one
 * attribute definition, by a switch over the definition's kind that reads the
 * definition's free-form config.
 *
 * Config entries are read the way JavaScript reads them: a bound is "set"
 * when its key is present (`!== undefined`) or, for some entries, when it is
 * truthy; a bound that is not a number is coerced by `<` and `>` (see
 * `ToNumber`). The calls into the JavaScript runtime that the validator makes
 * (number parsing of strings, `String(x)` of non-strings, `Date.parse`,
 * `new RegExp(p).test(s)`) are supplied by a `Host`.
 */
module ValueValidation {
  import opened Common
  import opened Seqs
  import opened Values
  import opened AttributeModel

  /** The runtime services the validator calls and this model does not define. */
  datatype Host = Host(
    /** `Number(v)` for a string, array or object; `None` stands for NaN. */
    toNumber: Value -> Option<real>,
    /** `String(v)` for a value that is not a string. */
    toText: Value -> string,
    /** `Date.parse(v)` as a timestamp; `None` stands for NaN. */
    parseDate: Value -> Option<int>,
    /** `new RegExp(p).test(s)`; `None` when the pattern is not a valid regular expression. */
    testPattern: (Value, string) -> Option<bool>)

  /** The validator's answer; a rejection carries the message the source throws with. */
  datatype Verdict = Accept | Reject(message: string)

  /** `Number(v)`; `None` stands for NaN. */
  function ToNumber(host: Host, v: Value): Option<real> {
    match v
    case Null => Some(0.0)
    case Bool(b) => Some(if b then 1.0 else 0.0)
    case Num(n) => Some(RealOf(n))
    case _ => host.toNumber(v)
  }

  /** `String(v)`. */
  function TextOf(host: Host, v: Value): string {
    if v.Str? then v.s else host.toText(v)
  }

  /** `x < y` after coercion: false when `y` is NaN. */
  predicate Below(x: real, y: Option<real>) {
    y.Some? && x < y.value
  }

  /** `x > y` after coercion: false when `y` is NaN. */
  predicate Above(x: real, y: Option<real>) {
    y.Some? && x > y.value
  }

  /** `if (cfg.key)`: the entry is present and truthy. */
  predicate IsSet(cfg: map<string, Value>, key: string) {
    key in cfg && Truthy(cfg[key])
  }

  /** Position of `c` in `s`, or -1: `String.prototype.indexOf`. */
  function IndexOf(s: string, c: char): (i: int)
    ensures -1 <= i < |s|
    ensures i == -1 <==> c !in s
    ensures i >= 0 ==> s[i] == c
  {
    var k := FirstIndex(s, c);
    if k == |s| then -1 else k
  }

  /** The number of characters after the first '.' of a number's text; 0 when it has none. */
  function CountDecimals(s: string): nat {
    var i := IndexOf(s, '.');
    if i == -1 then 0 else |s| - i - 1
  }

  /** The text of a number has exactly as many characters after its point as the number has fraction digits. */
  lemma CountDecimalsOfNumberText(d: Decimal)
    ensures CountDecimals(NumberText(d)) == d.exp
  {
    var whole := WholeText(d);
    assert '.' !in whole by {
      var digits := Digits(Magnitude(d) / Pow10(d.exp));
      assert whole == (if d.mant < 0 then "-" else "") + digits;
      assert forall i :: 0 <= i < |whole| ==> whole[i] == '-' || '0' <= whole[i] <= '9';
    }
    if d.exp == 0 {
      assert NumberText(d) == whole;
    } else {
      var frac := Padded(Magnitude(d) % Pow10(d.exp), d.exp);
      assert NumberText(d) == whole + ("." + frac);
      FirstIndexConcat(whole, "." + frac, '.');
    }
  }

  /** `Math.round`: the nearest integer, halves rounded up. */
  function RoundHalfUp(q: real): int {
    (q + 0.5).Floor
  }

  /** The alignment tolerance 1e-9. */
  const StepTolerance: real := 0.000000001

  /**
   * The step test, in exact arithmetic: `(x - base) / step` lies within 1e-9 of
   * its rounding, with `base = cfg.min ?? 0`. A NaN or infinite quotient (a
   * bound that coerces to NaN, or a zero step) passes, because every comparison
   * with NaN is false.
   */
  predicate StepAligned(host: Host, cfg: map<string, Value>, x: real)
    requires "step" in cfg
  {
    var base := if "min" in cfg && !cfg["min"].Null? then ToNumber(host, cfg["min"]) else Some(0.0);
    var step := ToNumber(host, cfg["step"]);
    if base.None? || step.None? || step.value == 0.0 then true
    else
      var q := (x - base.value) / step.value;
      var gap := q - RoundHalfUp(q) as real;
      -StepTolerance <= gap <= StepTolerance
  }

  predicate IsDigit(c: char) {
    '0' <= c <= '9'
  }

  predicate IsHexDigit(c: char) {
    IsDigit(c) || 'a' <= c <= 'f' || 'A' <= c <= 'F'
  }

  /** `/^\d{2}:\d{2}(:\d{2})?$/`: HH:MM or HH:MM:SS. */
  predicate IsTimeText(s: string) {
    && (|s| == 5 || |s| == 8)
    && IsDigit(s[0]) && IsDigit(s[1]) && s[2] == ':' && IsDigit(s[3]) && IsDigit(s[4])
    && (|s| == 8 ==> s[5] == ':' && IsDigit(s[6]) && IsDigit(s[7]))
  }

  /** `/^#([0-9a-fA-F]{3}|[0-9a-fA-F]{6})$/`. */
  predicate IsHexColor(s: string) {
    && (|s| == 4 || |s| == 7)
    && s[0] == '#'
    && forall i :: 1 <= i < |s| ==> IsHexDigit(s[i])
  }

  /**
   * `(cfg.options || []).map(o => o.value)`: `None` when the expression throws,
   * which it does for options that are truthy but not an array, and for an
   * option that is null.
   */
  function OptionValues(cfg: map<string, Value>): Option<seq<Option<Value>>> {
    if !IsSet(cfg, "options") then Some([])
    else match cfg["options"]
      case Arr(opts) =>
        if exists i :: 0 <= i < |opts| && opts[i].Null? then None
        else Some(seq(|opts|, i requires 0 <= i < |opts| => Prop(opts[i], "value")))
      case _ => None
  }

  /** `opts.includes(v)`. */
  predicate IsOption(opts: seq<Option<Value>>, v: Value) {
    exists i :: 0 <= i < |opts| && opts[i].Some? && SameValueZero(opts[i].value, v)
  }

  /** The shallow element check of the array kind for item type `it`. */
  predicate FitsItemType(it: string, v: Value) {
    && (it == "number" ==> v.Num?)
    && (it == "string" ==> v.Str?)
    && (it == "boolean" ==> v.Bool?)
  }

  function CheckText(host: Host, cfg: map<string, Value>, path: string, value: Value): Verdict {
    if !value.Str? then Reject(path + " must be string")
    else if "minLength" in cfg && Below(|value.s| as real, ToNumber(host, cfg["minLength"])) then
      Reject(path + " length < minLength")
    else if "maxLength" in cfg && Above(|value.s| as real, ToNumber(host, cfg["maxLength"])) then
      Reject(path + " length > maxLength")
    else if IsSet(cfg, "pattern") then
      match host.testPattern(cfg["pattern"], value.s)
      case None => Reject(path + " pattern is not a valid regular expression")
      case Some(matches) => if matches then Accept else Reject(path + " does not match pattern")
    else Accept
  }

  function CheckNumber(host: Host, cfg: map<string, Value>, path: string, value: Value): Verdict {
    if !value.Num? then Reject(path + " must be number")
    else
      var x := RealOf(value.n);
      if "min" in cfg && Below(x, ToNumber(host, cfg["min"])) then Reject(path + " < min")
      else if "max" in cfg && Above(x, ToNumber(host, cfg["max"])) then Reject(path + " > max")
      else if "decimals" in cfg && Above(CountDecimals(NumberText(value.n)) as real, ToNumber(host, cfg["decimals"])) then
        Reject(path + " decimals exceed limit")
      else if "step" in cfg && !StepAligned(host, cfg, x) then Reject(path + " not aligned to step")
      else Accept
  }

  function CheckDate(host: Host, cfg: map<string, Value>, path: string, value: Value): Verdict {
    if !value.Str? || host.parseDate(value).None? then Reject(path + " must be ISO date string")
    else
      var t := host.parseDate(value).value;
      var lo := if IsSet(cfg, "min") then host.parseDate(cfg["min"]) else None;
      var hi := if IsSet(cfg, "max") then host.parseDate(cfg["max"]) else None;
      if lo.Some? && t < lo.value then Reject(path + " < min")
      else if hi.Some? && t > hi.value then Reject(path + " > max")
      else Accept
  }

  function CheckSelect(cfg: map<string, Value>, path: string, value: Value): Verdict {
    match OptionValues(cfg)
    case None => Reject(path + " options cannot be read")
    case Some(opts) => if IsOption(opts, value) then Accept else Reject(path + " must be one of options")
  }

  function CheckMultiSelect(cfg: map<string, Value>, path: string, value: Value): Verdict {
    if !value.Arr? then Reject(path + " must be array")
    else match OptionValues(cfg)
      case None => Reject(path + " options cannot be read")
      case Some(opts) =>
        if forall i :: 0 <= i < |value.items| ==> IsOption(opts, value.items[i]) then Accept
        else Reject(path + " contains invalid option")
  }

  function CheckAttachment(host: Host, cfg: map<string, Value>, path: string, value: Value): Verdict {
    if !value.Arr? then Reject(path + " must be array of strings")
    else if exists i :: 0 <= i < |value.items| && !value.items[i].Str? then Reject(path + " entries must be strings")
    else if "maxFiles" in cfg && Above(|value.items| as real, ToNumber(host, cfg["maxFiles"])) then
      Reject(path + " exceeds maxFiles")
    else Accept
  }

  function CheckArray(host: Host, cfg: map<string, Value>, path: string, value: Value): Verdict {
    if !value.Arr? then Reject(path + " must be array")
    else if IsSet(cfg, "itemType") then
      var it := TextOf(host, cfg["itemType"]);
      if forall i :: 0 <= i < |value.items| ==> FitsItemType(it, value.items[i]) then Accept
      else Reject(path + " items must be " + it)
    else Accept
  }

  function CheckTable(path: string, value: Value): Verdict {
    if !value.Arr? then Reject(path + " must be array of rows")
    else if forall i :: 0 <= i < |value.items| ==> value.items[i].Obj? then Accept
    else Reject(path + " rows must be objects")
  }

  /** The color format, `cfg.format ?? 'hex'`. */
  function ColorFormat(cfg: map<string, Value>): Value {
    if "format" in cfg && !cfg["format"].Null? then cfg["format"] else Str("hex")
  }

  function CheckColor(cfg: map<string, Value>, path: string, value: Value): Verdict {
    if !value.Str? then Reject(path + " must be string")
    else if ColorFormat(cfg) == Str("hex") && !IsHexColor(value.s) then Reject(path + " must be hex color")
    else Accept
  }

  function CheckRating(host: Host, cfg: map<string, Value>, path: string, value: Value): Verdict {
    if !value.Num? then Reject(path + " must be number")
    else if value.n.exp != 0 then Reject(path + " must be integer")
    else if "max" in cfg && Above(RealOf(value.n), ToNumber(host, cfg["max"])) then Reject(path + " > max")
    else if value.n.mant < 0 then Reject(path + " must be >= 0")
    else Accept
  }

  /** A check that only asks for a string. */
  function CheckString(path: string, value: Value, message: string): Verdict {
    if value.Str? then Accept else Reject(path + message)
  }

  /** Validates `value` against definition `a`; the messages name `a.code`. */
  function ValidateValue(host: Host, a: AttributeDef, value: Value): Verdict {
    var cfg, path := a.config, a.code;
    match a.kind
    case Text => CheckText(host, cfg, path, value)
    case Number => CheckNumber(host, cfg, path, value)
    case Boolean => if value.Bool? then Accept else Reject(path + " must be boolean")
    case Date => CheckDate(host, cfg, path, value)
    case DateTime => CheckDate(host, cfg, path, value)
    case Time =>
      if value.Str? && IsTimeText(value.s) then Accept else Reject(path + " must be time string HH:MM[:SS]")
    case Select => CheckSelect(cfg, path, value)
    case MultiSelect => CheckMultiSelect(cfg, path, value)
    case File => CheckString(path, value, " must be string (url or path)")
    case Image => CheckString(path, value, " must be string (url or path)")
    case Attachment => CheckAttachment(host, cfg, path, value)
    case Object => if value.Obj? then Accept else Reject(path + " must be object")
    case Array => CheckArray(host, cfg, path, value)
    case Json => Accept
    case Formula => Accept
    case Expression => Accept
    case Table => CheckTable(path, value)
    case Color => CheckColor(cfg, path, value)
    case RichText => CheckString(path, value, " must be string")
    case Rating => CheckRating(host, cfg, path, value)
    case Barcode => CheckString(path, value, " must be string")
    case Qr => CheckString(path, value, " must be string")
    case Readonly => Accept
  }

  // ---------------------------------------------------------------------------
  // Properties of the validator

  /** A definition of kind `kind` with config `cfg` and code `code`. */
  function Definition(code: string, kind: Kind, cfg: map<string, Value>): AttributeDef {
    AttributeDef(code, code, kind, false, None, cfg, true)
  }

  /** The free-form kinds accept every value. */
  lemma FreeKindsAcceptAll(host: Host, a: AttributeDef, v: Value)
    requires a.kind in {Json, Formula, Expression, Readonly}
    ensures ValidateValue(host, a, v) == Accept
  {
  }

  /** The numeric config entries a number check reads all hold numbers. */
  predicate NumericBounds(cfg: map<string, Value>) {
    forall k :: k in cfg && k in {"min", "max", "decimals", "step"} ==> cfg[k].Num?
  }

  /**
   * With numeric bounds, a number definition accepts exactly the numbers in
   * `[min, max]` with at most `decimals` fraction digits that are aligned to
   * `step`, for whichever of these the config sets.
   */
  lemma NumberAccepted(host: Host, a: AttributeDef, v: Value)
    requires a.kind == Number && NumericBounds(a.config)
    ensures ValidateValue(host, a, v) == Accept <==>
      && v.Num?
      && ("min" in a.config ==> RealOf(a.config["min"].n) <= RealOf(v.n))
      && ("max" in a.config ==> RealOf(v.n) <= RealOf(a.config["max"].n))
      && ("decimals" in a.config ==> v.n.exp as real <= RealOf(a.config["decimals"].n))
      && ("step" in a.config ==> StepAligned(host, a.config, RealOf(v.n)))
  {
    var cfg := a.config;
    assert "min" in cfg ==> cfg["min"].Num?;
    assert "max" in cfg ==> cfg["max"].Num?;
    assert "decimals" in cfg ==> cfg["decimals"].Num?;
    if v.Num? {
      CountDecimalsOfNumberText(v.n);
    }
  }

  /** The price definition: between 0 and 100 with at most two decimals. */
  function PriceDefinition(): AttributeDef {
    Definition("price", Number, map["min" := Num(Dec(0, 0)), "max" := Num(Dec(100, 0)), "decimals" := Num(Dec(2, 0))])
  }

  /** The entries of the price config, one by one. */
  lemma PriceConfig()
    ensures var cfg := PriceDefinition().config;
      && "min" in cfg && cfg["min"] == Num(Dec(0, 0))
      && "max" in cfg && cfg["max"] == Num(Dec(100, 0))
      && "decimals" in cfg && cfg["decimals"] == Num(Dec(2, 0))
      && "step" !in cfg
  {
    var cfg := PriceDefinition().config;
    assert "step" != "min" && "step" != "max" && "step" != "decimals" by {
      assert "step"[1] == 't';
    }
  }

  /** Every number from 0 to 100 with at most two decimals, 50.55 say, is a valid price. */
  lemma PriceAcceptsTwoDecimals(host: Host, d: Decimal)
    requires 0.0 <= RealOf(d) <= 100.0 && d.exp <= 2
    ensures ValidateValue(host, PriceDefinition(), Num(d)) == Accept
  {
    var a := PriceDefinition();
    PriceConfig();
    assert RealOf(Dec(0, 0)) == 0.0 && RealOf(Dec(100, 0)) == 100.0 && RealOf(Dec(2, 0)) == 2.0;
    assert NumericBounds(a.config);
    NumberAccepted(host, a, Num(d));
  }

  /** A number with more than two decimals is never a valid price. */
  lemma PriceRejectsThreeDecimals(host: Host, d: Decimal)
    requires d.exp > 2
    ensures ValidateValue(host, PriceDefinition(), Num(d)).Reject?
  {
    var a := PriceDefinition();
    PriceConfig();
    assert RealOf(Dec(2, 0)) == 2.0;
    assert NumericBounds(a.config);
    NumberAccepted(host, a, Num(d));
  }

  /** A negative number is below the price minimum. */
  lemma PriceRejectsNegative(host: Host, d: Decimal)
    requires d.mant < 0
    ensures ValidateValue(host, PriceDefinition(), Num(d)).Reject?
  {
    var a := PriceDefinition();
    PriceConfig();
    assert RealOf(Dec(0, 0)) == 0.0;
    assert NumericBounds(a.config);
    NumberAccepted(host, a, Num(d));
  }

  /**
   * A multiselect value is an array every element of which the select check
   * of the same config accepts.
   */
  lemma MultiSelectIsSelectEach(a: AttributeDef, host: Host, v: Value)
    requires a.kind == MultiSelect
    ensures ValidateValue(host, a, v) == Accept <==>
      && v.Arr?
      && OptionValues(a.config).Some?
      && forall i :: 0 <= i < |v.items| ==> ValidateValue(host, a.(kind := Select), v.items[i]) == Accept
  {
  }

  /** The select options `s`, `m`, `l` admit "m" and not "xl". */
  lemma SelectExamples(host: Host)
    ensures var opts := Arr([Obj(map["value" := Str("s")]), Obj(map["value" := Str("m")]), Obj(map["value" := Str("l")])]);
      var a := Definition("size", Select, map["options" := opts]);
      && ValidateValue(host, a, Str("m")) == Accept
      && ValidateValue(host, a, Str("xl")).Reject?
  {
    var opts := Arr([Obj(map["value" := Str("s")]), Obj(map["value" := Str("m")]), Obj(map["value" := Str("l")])]);
    var a := Definition("size", Select, map["options" := opts]);
    var vals := OptionValues(a.config).value;
    assert vals == [Some(Str("s")), Some(Str("m")), Some(Str("l"))];
    assert vals[1].Some? && SameValueZero(vals[1].value, Str("m"));
  }

  /**
   * An attachment is a list of what a file definition accepts, no longer than
   * `maxFiles` when that is set.
   */
  lemma AttachmentIsFileList(host: Host, a: AttributeDef, v: Value)
    requires a.kind == Attachment
    ensures ValidateValue(host, a, v) == Accept <==>
      && v.Arr?
      && (forall i :: 0 <= i < |v.items| ==> ValidateValue(host, a.(kind := File), v.items[i]) == Accept)
      && !("maxFiles" in a.config && Above(|v.items| as real, ToNumber(host, a.config["maxFiles"])))
  {
  }

  /** A table is a list of rows each of which an object definition accepts. */
  lemma TableIsObjectList(host: Host, a: AttributeDef, v: Value)
    requires a.kind == Table
    ensures ValidateValue(host, a, v) == Accept <==>
      v.Arr? && forall i :: 0 <= i < |v.items| ==> ValidateValue(host, a.(kind := Object), v.items[i]) == Accept
  {
  }

  /**
   * A rating is a number check with lower bound 0 and no fraction digits: the
   * rating definition and the number definition with config `min: 0,
   * decimals: 0` and the rating's `max` accept the same values.
   */
  lemma RatingIsWholeNumber(host: Host, a: AttributeDef, v: Value)
    requires a.kind == Rating
    ensures ValidateValue(host, a, v) == Accept <==>
      ValidateValue(host, a.(kind := Number, config := RatingBounds(a.config)), v) == Accept
  {
    var cfg := RatingBounds(a.config);
    assert ValidateValue(host, a, v) == CheckRating(host, a.config, a.code, v);
    assert ValidateValue(host, a.(kind := Number, config := cfg), v) == CheckNumber(host, cfg, a.code, v);
    assert ToNumber(host, cfg["min"]) == Some(0.0) && ToNumber(host, cfg["decimals"]) == Some(0.0);
    if v.Num? {
      CountDecimalsOfNumberText(v.n);
    }
  }

  /** The number config a rating stands for: `min: 0`, `decimals: 0`, and the rating's `max` if it has one. */
  function RatingBounds(cfg: map<string, Value>): (r: map<string, Value>)
    ensures "min" in r && r["min"] == Num(Dec(0, 0))
    ensures "decimals" in r && r["decimals"] == Num(Dec(0, 0))
    ensures "step" !in r
    ensures "max" in r <==> "max" in cfg
    ensures "max" in cfg ==> r["max"] == cfg["max"]
  {
    assert "step"[1] == 't' && "min"[1] == 'i' && "max"[1] == 'a' && "decimals"[1] == 'e';
    var bounds := map["min" := Num(Dec(0, 0)), "decimals" := Num(Dec(0, 0))];
    if "max" in cfg then bounds["max" := cfg["max"]] else bounds
  }
}
