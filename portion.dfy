/** Portion sizing of a family member (lib/portion.ts): a base factor per
    life stage times a multiplier per appetite, rounded to two decimals. */
module Portion {
  import opened Numeric

  const LIFE_STAGE_OPTIONS: seq<string> :=
    ["乳幼児", "小学生", "中学生", "高校生", "大学生", "20代", "30代", "40代", "50代", "60代以上"]

  const APPETITE_OPTIONS: seq<string> := ["小食", "普通", "大食い"]

  const LIFE_STAGE_PORTION: map<string, real> := map[
    "乳幼児" := 0.4, "小学生" := 0.7, "中学生" := 0.9, "高校生" := 1.1, "大学生" := 1.0,
    "20代" := 1.0, "30代" := 1.0, "40代" := 0.95, "50代" := 0.9, "60代以上" := 0.8]

  const APPETITE_MULTIPLIER: map<string, real> := map["小食" := 0.85, "普通" := 1.0, "大食い" := 1.2]

  /** The names every object literal inherits from `Object.prototype`.
      Indexing either table with one of them yields a function (or, for
      `__proto__`, the prototype object). `??` keeps that value, and
      multiplying it gives `NaN`. */
  const INHERITED_NAMES: set<string> := {
    "constructor", "__proto__", "toString", "toLocaleString", "valueOf",
    "hasOwnProperty", "isPrototypeOf", "propertyIsEnumerable",
    "__defineGetter__", "__defineSetter__", "__lookupGetter__", "__lookupSetter__"}

  /** `LIFE_STAGE_PORTION[lifeStage] ?? 1`, as the number it contributes to
      the product: `NaN` stands for an inherited member. */
  function BaseFactor(lifeStage: string): JsNumber {
    if lifeStage in LIFE_STAGE_PORTION then Num(LIFE_STAGE_PORTION[lifeStage])
    else if lifeStage in INHERITED_NAMES then NaN
    else Num(1.0)
  }

  /** `APPETITE_MULTIPLIER[appetite] ?? 1`, in the same terms. */
  function AppetiteMultiplier(appetite: string): JsNumber {
    if appetite in APPETITE_MULTIPLIER then Num(APPETITE_MULTIPLIER[appetite])
    else if appetite in INHERITED_NAMES then NaN
    else Num(1.0)
  }

  /** `getPortionFactor`: `Number((base * multiplier).toFixed(2))`, which is
      `NaN` as soon as either factor is. */
  function GetPortionFactor(lifeStage: string, appetite: string): JsNumber {
    var b, m := BaseFactor(lifeStage), AppetiteMultiplier(appetite);
    if b.Num? && m.Num? then Num(RoundedProduct(b.value, m.value)) else NaN
  }

  /** `Number((base * multiplier).toFixed(2))` on two numbers. */
  function RoundedProduct(b: real, m: real): real {
    Round2(b * m)
  }

  /** Every option offered has a table entry, so for options the fallback
      of 1 is never used; the tables have no other keys. */
  lemma OptionsHaveEntries()
    ensures forall s :: s in LIFE_STAGE_OPTIONS <==> s in LIFE_STAGE_PORTION
    ensures forall a :: a in APPETITE_OPTIONS <==> a in APPETITE_MULTIPLIER
    ensures |LIFE_STAGE_OPTIONS| == 10 && |APPETITE_OPTIONS| == 3
  {
  }

  /** No offered option is an inherited name. */
  lemma OptionsAreOwnNames()
    ensures forall s :: s in LIFE_STAGE_OPTIONS ==> s !in INHERITED_NAMES
    ensures forall a :: a in APPETITE_OPTIONS ==> a !in INHERITED_NAMES
  {
  }

  /** The values of the two tables. */
  lemma TableValues()
    ensures forall s :: s in LIFE_STAGE_PORTION ==>
      0.4 <= LIFE_STAGE_PORTION[s] <= 1.1 && TwoDecimals(LIFE_STAGE_PORTION[s])
    ensures forall a :: a in APPETITE_MULTIPLIER ==>
      APPETITE_MULTIPLIER[a] == 0.85 || APPETITE_MULTIPLIER[a] == 1.0 || APPETITE_MULTIPLIER[a] == 1.2
  {
  }

  /** No inherited name is a key of either table. */
  lemma InheritedNamesAreNotKeys()
    ensures forall s :: s in INHERITED_NAMES ==> s !in LIFE_STAGE_PORTION && s !in APPETITE_MULTIPLIER
  {
    OptionsHaveEntries();
    OptionsAreOwnNames();
  }

  /** Base factors lie in [0.4, 1.1] and have two decimals. An inherited
      name gives `NaN`, and any other unknown stage gives 1. */
  lemma BaseFactorRange(lifeStage: string)
    ensures BaseFactor(lifeStage).NaN? <==> lifeStage in INHERITED_NAMES
    ensures BaseFactor(lifeStage).Num? ==>
      0.4 <= BaseFactor(lifeStage).value <= 1.1 && TwoDecimals(BaseFactor(lifeStage).value)
    ensures lifeStage !in LIFE_STAGE_OPTIONS && lifeStage !in INHERITED_NAMES ==> BaseFactor(lifeStage) == Num(1.0)
  {
    OptionsHaveEntries();
    InheritedNamesAreNotKeys();
    TableValues();
  }

  /** Multipliers lie in [0.85, 1.2]. An inherited name gives `NaN`, and
      any other unknown appetite gives 1. */
  lemma AppetiteMultiplierRange(appetite: string)
    ensures AppetiteMultiplier(appetite).NaN? <==> appetite in INHERITED_NAMES
    ensures AppetiteMultiplier(appetite).Num? ==> 0.85 <= AppetiteMultiplier(appetite).value <= 1.2
    ensures AppetiteMultiplier(appetite).Num? ==>
      AppetiteMultiplier(appetite).value == 0.85 || AppetiteMultiplier(appetite).value == 1.0
      || AppetiteMultiplier(appetite).value == 1.2
    ensures appetite !in APPETITE_OPTIONS && appetite !in INHERITED_NAMES ==> AppetiteMultiplier(appetite) == Num(1.0)
  {
    OptionsHaveEntries();
    InheritedNamesAreNotKeys();
    TableValues();
  }

  /** The factor is `NaN` exactly when a name is inherited; otherwise it
      lies between 乳幼児×小食 (0.34) and 高校生×大食い (1.32), an unknown
      value only replacing its own factor by 1. */
  lemma PortionFactorRange(lifeStage: string, appetite: string)
    ensures GetPortionFactor(lifeStage, appetite).NaN? <==>
      lifeStage in INHERITED_NAMES || appetite in INHERITED_NAMES
    ensures GetPortionFactor(lifeStage, appetite).Num? ==>
      0.34 <= GetPortionFactor(lifeStage, appetite).value <= 1.32
  {
    BaseFactorRange(lifeStage);
    AppetiteMultiplierRange(appetite);
    var b, m := BaseFactor(lifeStage), AppetiteMultiplier(appetite);
    if b.Num? && m.Num? {
      ProductRange(b.value, m.value);
    }
  }

  lemma ProductRange(b: real, m: real)
    requires 0.4 <= b <= 1.1 && (m == 0.85 || m == 1.0 || m == 1.2)
    ensures 0.34 <= Round2(b * m) <= 1.32
  {
    if m == 0.85 {
      assert b * m == b * 0.85;
    } else if m == 1.0 {
      assert b * m == b * 1.0;
    } else {
      assert b * m == b * 1.2;
    }
    Round2Monotone(0.34, b * m);
    Round2Monotone(b * m, 1.32);
    Round2Exact(0.34);
    Round2Exact(1.32);
  }

  /** The extremes are attained. */
  lemma PortionFactorExtremes()
    ensures GetPortionFactor("乳幼児", "小食") == Num(0.34)
    ensures GetPortionFactor("高校生", "大食い") == Num(1.32)
  {
    Round2Exact(0.34);
    Round2Exact(1.32);
  }

  /** An ordinary appetite leaves the life-stage factor unchanged, `NaN`
      included. */
  lemma NormalAppetiteKeepsBase(lifeStage: string)
    ensures GetPortionFactor(lifeStage, "普通") == BaseFactor(lifeStage)
  {
    BaseFactorRange(lifeStage);
    if BaseFactor(lifeStage).Num? {
      Round2Exact(BaseFactor(lifeStage).value);
    }
  }

  /** For a fixed life stage whose base factor is a number (any name that
      is not inherited, by BaseFactorRange), a bigger appetite never gives a
      smaller factor. */
  lemma AppetiteMonotone(lifeStage: string)
    requires BaseFactor(lifeStage).Num?
    ensures GetPortionFactor(lifeStage, "小食").Num? && GetPortionFactor(lifeStage, "普通").Num?
      && GetPortionFactor(lifeStage, "大食い").Num?
    ensures GetPortionFactor(lifeStage, "小食").value <= GetPortionFactor(lifeStage, "普通").value
    ensures GetPortionFactor(lifeStage, "普通").value <= GetPortionFactor(lifeStage, "大食い").value
  {
    TableValues();
    var b := BaseFactor(lifeStage).value;
    assert 0.4 <= b <= 1.1;
    assert AppetiteMultiplier("小食") == Num(0.85);
    assert AppetiteMultiplier("普通") == Num(1.0);
    assert AppetiteMultiplier("大食い") == Num(1.2);
    Round2Monotone(b * 0.85, b * 1.0);
    Round2Monotone(b * 1.0, b * 1.2);
  }
}
