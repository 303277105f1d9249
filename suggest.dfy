/** The rule-based menu suggestion engine (app/api/menu/suggest/route.ts).
    "Today" and the fresh suggestion ids are parameters; everything else is
    computed from the request. */
module Suggest {
  import opened Wrappers
  import opened Text
  import opened Numeric
  import opened Seqs
  import opened Types
  import opened Portion
  import opened Sorting
  import opened Dates

  // ---------------------------------------------------------------------
  // Sale activity

  /** A sale runs on `today` when it has not yet to start and has not ended;
      a missing or empty date does not restrict. */
  predicate IsSaleActive(sale: Sale, today: string) {
    (!Present(sale.startDate) || LexLe(sale.startDate.value, today))
    && (!Present(sale.endDate) || LexLe(today, sale.endDate.value))
  }

  /** With `YYYY-MM-DD` dates, activity is calendar containment of today in
      the sale's inclusive window. */
  lemma SaleActiveOnCalendar(sale: Sale, today: string)
    requires IsFullDate(today)
    requires sale.startDate.Some? ==> IsFullDate(sale.startDate.value)
    requires sale.endDate.Some? ==> IsFullDate(sale.endDate.value)
    ensures IsSaleActive(sale, today) <==>
      (sale.startDate.None? || ChronoLe(sale.startDate.value, today))
      && (sale.endDate.None? || ChronoLe(today, sale.endDate.value))
  {
    if sale.startDate.Some? {
      FullDateOrderIsChronological(sale.startDate.value, today);
    }
    if sale.endDate.Some? {
      FullDateOrderIsChronological(today, sale.endDate.value);
    }
  }

  function ActiveSales(sales: seq<Sale>, today: string): seq<Sale> {
    Filter(sales, (s: Sale) => IsSaleActive(s, today))
  }

  // ---------------------------------------------------------------------
  // Classifiers

  const PROTEIN_LABELS: seq<string> := ["肉", "魚", "卵", "豆", "肉類", "魚介"]
  const PROTEIN_WORDS: seq<string> := ["chicken", "pork", "beef", "fish", "egg", "tofu"]
  const VEGETABLE_LABELS: seq<string> := ["野菜", "根菜", "きのこ"]
  const VEGETABLE_WORDS: seq<string> := ["lettuce", "spinach", "carrot", "broccoli", "cabbage", "onion"]
  const STAPLE_LABELS: seq<string> := ["主食", "穀類"]
  const STAPLE_WORDS: seq<string> := ["rice", "ご飯", "パン", "麺", "うどん", "パスタ"]
  const DAIRY_LABEL: string := "乳"

  /** The category contains a protein label, or the name matches
      `/chicken|pork|beef|fish|egg|tofu/i`. A missing category reads as "". */
  predicate IsProtein(i: Ingredient) {
    ContainsAny(OrEmpty(i.category), PROTEIN_LABELS) || ContainsAny(ToLower(i.name), PROTEIN_WORDS)
  }

  predicate IsVegetable(i: Ingredient) {
    ContainsAny(OrEmpty(i.category), VEGETABLE_LABELS) || ContainsAny(ToLower(i.name), VEGETABLE_WORDS)
  }

  predicate IsStaple(i: Ingredient) {
    ContainsAny(OrEmpty(i.category), STAPLE_LABELS) || ContainsAny(ToLower(i.name), STAPLE_WORDS)
  }

  /** Dairy is decided by the category alone. */
  predicate IsDairy(i: Ingredient) {
    Contains(OrEmpty(i.category), DAIRY_LABEL)
  }

  /** The classifiers are not exclusive: one ingredient can be protein,
      vegetable and dairy at once. */
  lemma ClassifiersOverlap()
    ensures exists i :: IsProtein(i) && IsVegetable(i) && IsDairy(i)
  {
    var c := "肉野菜乳";
    var i := Ingredient("x", "x", 1.0, None, None, Some(c), None, "", "");
    assert c[..1] == "肉";
    assert c[1..][..2] == "野菜";
    assert Contains(c, PROTEIN_LABELS[0]);
    assert Contains(c[1..], VEGETABLE_LABELS[0]);
    assert c[1..][1..][1..][..1] == DAIRY_LABEL;
    assert Contains(c[1..][1..][1..], DAIRY_LABEL);
    assert Contains(c[1..][1..], DAIRY_LABEL);
    assert Contains(c[1..], DAIRY_LABEL);
    assert IsProtein(i) && IsVegetable(i) && IsDairy(i);
  }

  // ---------------------------------------------------------------------
  // Quantity allocator

  /** `max(0.5, ceil(2 * target) / 2)` with `target = quantity * ratio * scale * 1.3`. */
  function HalfStep(quantity: real, ratio: real, portionScale: real): real {
    MaxR(0.5, CeilHalf(quantity * ratio * portionScale * 1.3))
  }

  /** The cap `Number((quantity * 1.5).toFixed(2))`. */
  function MaxReasonable(quantity: real): real {
    Round2(quantity * 1.5)
  }

  /** The amount before the final rounding: the half step, capped, and
      raised to the whole stock when less than 0.25 would be left over. */
  function Allocated(quantity: real, ratio: real, portionScale: real): real {
    var capped := MinR(HalfStep(quantity, ratio, portionScale), MaxReasonable(quantity));
    if capped < quantity && quantity - capped < 0.25 then quantity else capped
  }

  /** What `makeUsedIngredient` returns. */
  function UsedFor(source: Ingredient, ratio: real, portionScale: real, nameOverride: Option<string>): UsedIngredient {
    UsedIngredient(
      Some(source.id),
      nameOverride.GetOr(source.name),
      Round2(Allocated(source.quantity, ratio, portionScale)),
      source.unit)
  }

  /** `makeUsedIngredient` */
  method MakeUsedIngredient(source: Ingredient, ratio: real, portionScale: real, nameOverride: Option<string>)
    returns (used: UsedIngredient)
    ensures used == UsedFor(source, ratio, portionScale, nameOverride)
    ensures used.ingredientId == Some(source.id) && used.unit == source.unit
    ensures used.name == if nameOverride.Some? then nameOverride.value else source.name
    ensures source.quantity >= 0.0 ==> 0.0 <= used.usedQuantity <= Round2(source.quantity * 1.5)
  {
    var base := source.quantity * ratio * portionScale;
    var target := base * 1.3;
    var halfStep := MaxR(0.5, CeilHalf(target));
    var maxReasonable := Round2(source.quantity * 1.5);
    assert halfStep == HalfStep(source.quantity, ratio, portionScale);
    assert maxReasonable == MaxReasonable(source.quantity);
    var amount := MinR(halfStep, maxReasonable);
    if amount < source.quantity && source.quantity - amount < 0.25 {
      amount := source.quantity;
    }
    assert amount == Allocated(source.quantity, ratio, portionScale);
    used := UsedIngredient(Some(source.id), nameOverride.GetOr(source.name), Round2(amount), source.unit);
    if source.quantity >= 0.0 {
      AllocationBounds(source.quantity, ratio, portionScale);
    }
  }

  /** For a non-negative stock the proposed amount is never negative and
      never above the rounded 1.5-fold stock; no stock means nothing used. */
  lemma AllocationBounds(quantity: real, ratio: real, portionScale: real)
    requires quantity >= 0.0
    ensures 0.0 <= Round2(Allocated(quantity, ratio, portionScale)) <= MaxReasonable(quantity)
    ensures quantity == 0.0 ==> Round2(Allocated(quantity, ratio, portionScale)) == 0.0
  {
    var cap := MaxReasonable(quantity);
    var pre := Allocated(quantity, ratio, portionScale);
    Round2Sign(quantity * 1.5);
    Round2Idempotent(quantity * 1.5);
    if pre == quantity {
      Round2Monotone(quantity, quantity * 1.5);
    } else {
      Round2Monotone(pre, cap);
    }
    Round2Sign(pre);
  }

  /** Before the final rounding the amount either uses up the stock or
      leaves at least 0.25 of it, and it is at least the smaller of one half
      and the cap. */
  lemma AllocationLeavesNoScrap(quantity: real, ratio: real, portionScale: real)
    ensures var pre := Allocated(quantity, ratio, portionScale);
      (pre >= quantity || quantity - pre >= 0.25) && pre >= MinR(0.5, MaxReasonable(quantity))
  {
  }

  /** With at least half a unit in stock, at least half a unit is proposed. */
  lemma AllocationAtLeastHalfUnit(quantity: real, ratio: real, portionScale: real)
    requires quantity >= 0.5
    ensures Round2(Allocated(quantity, ratio, portionScale)) >= 0.5
  {
    Round2Monotone(0.75, quantity * 1.5);
    Round2Exact(0.75);
    Round2Monotone(0.5, Allocated(quantity, ratio, portionScale));
    Round2Exact(0.5);
  }

  /** A boundary case of the rules: 0.6 in stock at ratio 0.4 and scale 1
      gives a half step of 0.5, which would leave 0.1, so the whole 0.6 is
      proposed. */
  lemma AllocationCanTakeWholeStock()
    ensures Allocated(0.6, 0.4, 1.0) == 0.6
  {
    assert Ceil(0.6 * 0.4 * 1.0 * 1.3 * 2.0) == 1;
    assert HalfStep(0.6, 0.4, 1.0) == 0.5;
    assert MaxReasonable(0.6) == 0.9;
  }

  // ---------------------------------------------------------------------
  // Household portion scale

  /** The family members the request schema admits (route.ts:34-39): each
      life stage and appetite is one of the offered options. */
  predicate FamilyInOptions(members: seq<FamilyRef>) {
    forall i :: 0 <= i < |members| ==>
      members[i].lifeStage in LIFE_STAGE_OPTIONS && members[i].appetite in APPETITE_OPTIONS
  }

  /** `getPortionFactor(member)` for an admitted member: always a number,
      never the `NaN` of an inherited name. */
  function MemberFactor(m: FamilyRef): (r: real)
    requires m.lifeStage in LIFE_STAGE_OPTIONS && m.appetite in APPETITE_OPTIONS
    ensures GetPortionFactor(m.lifeStage, m.appetite) == Num(r)
    ensures 0.34 <= r <= 1.32
  {
    OptionsAreOwnNames();
    PortionFactorRange(m.lifeStage, m.appetite);
    GetPortionFactor(m.lifeStage, m.appetite).value
  }

  /** `familyMembers.reduce((sum, m) => sum + getPortionFactor(m), 0)` */
  function PortionTotal(members: seq<FamilyRef>): real
    requires FamilyInOptions(members)
  {
    if members == [] then 0.0
    else
      var last := members[|members| - 1];
      PortionTotal(members[..|members| - 1]) + MemberFactor(last)
  }

  /** `max(0.6, round2(total / 2))`, with a total of 2 for an empty family. */
  function PortionScale(members: seq<FamilyRef>): real
    requires FamilyInOptions(members)
  {
    var total := if |members| > 0 then PortionTotal(members) else 2.0;
    MaxR(0.6, Round2(total / 2.0))
  }

  /** The scale is never below 0.6, and it is exactly 1 without family members. */
  lemma PortionScaleDefaults(members: seq<FamilyRef>)
    requires FamilyInOptions(members)
    ensures PortionScale(members) >= 0.6
    ensures members == [] ==> PortionScale(members) == 1.0
  {
    Round2Exact(1.0);
  }

  lemma {:induction false} PortionTotalRange(members: seq<FamilyRef>)
    requires FamilyInOptions(members)
    ensures 0.34 * |members| as real <= PortionTotal(members) <= 1.32 * |members| as real
  {
    if members != [] {
      PortionTotalRange(members[..|members| - 1]);
    }
  }

  /** Each member contributes between 0.17 and 0.66 to the scale. */
  lemma PortionScaleRange(members: seq<FamilyRef>)
    requires |members| > 0 && FamilyInOptions(members)
    ensures MaxR(0.6, Round2(0.17 * |members| as real)) <= PortionScale(members)
    ensures PortionScale(members) <= MaxR(0.6, Round2(0.66 * |members| as real))
  {
    PortionTotalRange(members);
    Round2Monotone(0.17 * |members| as real, PortionTotal(members) / 2.0);
    Round2Monotone(PortionTotal(members) / 2.0, 0.66 * |members| as real);
  }

  // ---------------------------------------------------------------------
  // Nutrition comments and recipe steps

  const BALANCED_COMMENT := "たんぱく質と野菜のバランスが取れた献立です"
  const VEGETABLE_COMMENT := "野菜多めでビタミン補給を意識しました"
  const PROTEIN_COMMENT := "成長期の子供向けにたんぱく質を強化しています"
  const GENERIC_COMMENT := "不足しがちな食材を組み合わせた提案です"
  const SALE_COMMENT := "特売品でコスパ良くたんぱく質を確保できます"

  /** `buildNutritionComment` */
  function NutritionComment(ingredients: seq<Ingredient>): string {
    var proteins := |Filter(ingredients, IsProtein)|;
    var veggies := |Filter(ingredients, IsVegetable)|;
    if proteins > 0 && veggies > 0 then BALANCED_COMMENT
    else if veggies > 1 then VEGETABLE_COMMENT
    else if proteins > 0 then PROTEIN_COMMENT
    else GENERIC_COMMENT
  }

  /** Which comment is chosen, in terms of what the ingredients are: balanced
      exactly when both a protein and a vegetable are among them, and so on. */
  lemma NutritionCommentCases(ingredients: seq<Ingredient>)
    ensures var hasProtein := exists i :: 0 <= i < |ingredients| && IsProtein(ingredients[i]);
      var hasVegetable := exists i :: 0 <= i < |ingredients| && IsVegetable(ingredients[i]);
      var veggies := |Filter(ingredients, IsVegetable)|;
      && (NutritionComment(ingredients) == BALANCED_COMMENT <==> hasProtein && hasVegetable)
      && (NutritionComment(ingredients) == VEGETABLE_COMMENT <==> !hasProtein && veggies > 1)
      && (NutritionComment(ingredients) == PROTEIN_COMMENT <==> hasProtein && !hasVegetable)
      && (NutritionComment(ingredients) == GENERIC_COMMENT <==> !hasProtein && veggies <= 1)
  {
    FilterNonEmpty(ingredients, IsProtein);
    FilterNonEmpty(ingredients, IsVegetable);
  }

  function Names(used: seq<UsedIngredient>): (names: seq<string>)
    ensures |names| == |used|
  {
    seq(|used|, i requires 0 <= i < |used| => used[i].name)
  }

  /** The main ingredient: the first one used, or a generic word. */
  function MainName(used: seq<UsedIngredient>): string {
    if |used| > 0 then used[0].name else "メイン食材"
  }

  /** The names of the other ingredients used. */
  function OtherNames(used: seq<UsedIngredient>): seq<string> {
    if |used| > 0 then Names(used[1..]) else []
  }

  /** The other names joined with "、", or a generic word when there are none. */
  function SideText(others: seq<string>): string {
    if |others| > 0 then Join(others, "、") else "野菜"
  }

  function SeasonStep(main: string): (step: string)
    ensures StartsWith(step, main)
  {
    var step := main + "に塩こしょうなどで下味をつけ、5分ほど置いて旨みを引き出します。";
    assert step[..|main|] == main;
    step
  }

  function CutStep(sides: string): string {
    sides + "は食べやすい大きさに切り、火が入りやすいよう薄めに揃えます。"
  }

  function FryStep(main: string, others: seq<string>): string {
    main + "を中火で焼き色が付くまで加熱し、"
      + (if |others| > 0 then SideText(others) + "を加えて" else "好みの具材を加えて") + "さっと炒め合わせます。"
  }

  const SERVE_STEP := "味を整えたら盛り付けて完成。ごはんやスープと一緒にどうぞ。"

  function RestockStep(menuTitle: string): (step: string)
    ensures StartsWith(step, menuTitle)
  {
    var step := menuTitle + "で使った食材はアプリから在庫更新しておくと次回の提案がスムーズです。";
    assert step[..|menuTitle|] == menuTitle;
    step
  }

  /** `buildRecipeSteps`: always five steps, the first seasoning the main
      ingredient and the last naming the menu. */
  function RecipeSteps(menuTitle: string, used: seq<UsedIngredient>): (steps: seq<string>)
    ensures |steps| == 5
    ensures |used| > 0 ==> StartsWith(steps[0], used[0].name)
    ensures StartsWith(steps[4], menuTitle)
  {
    [SeasonStep(MainName(used)),
     CutStep(SideText(OtherNames(used))),
     FryStep(MainName(used), OtherNames(used)),
     SERVE_STEP,
     RestockStep(menuTitle)]
  }

  // ---------------------------------------------------------------------
  // Strategies

  const PLATE_TITLE := "鶏肉と野菜の照り焼きプレート"
  const PLATE_DESCRIPTION := "メインのたんぱく質と野菜、副菜、主食をワンプレートにまとめた献立です。"
  const SOUP_TITLE := "野菜たっぷりミルクスープ"
  const SOUP_DESCRIPTION := "乳製品と野菜を合わせた優しい味のスープで栄養を補います。"
  const QUICK_DESCRIPTION := "賞味期限が近い食材を優先的に消費する献立です。"

  function SaleTitle(saleName: string): string { saleName + "で作るお得なメイン" }
  function SaleDescription(saleName: string): string {
    "特売の「" + saleName + "」を活用し、節約しつつボリュームを確保します。"
  }
  function QuickTitle(name: string): string { name + "を使ったクイックメニュー" }

  /** The four suggestion strategies, in the order they are tried. */
  datatype Strategy = Plate | SaleDish | Soup | QuickMenu {
    function Rank(): nat {
      match this
      case Plate => 0
      case SaleDish => 1
      case Soup => 2
      case QuickMenu => 3
    }
  }

  predicate PlateFires(sorted: seq<Ingredient>) {
    |Filter(sorted, IsProtein)| > 0 && |Filter(sorted, IsVegetable)| > 0
  }

  predicate SaleDishFires(sorted: seq<Ingredient>, active: seq<Sale>) {
    |active| > 0 && |sorted| > 0
  }

  predicate SoupFires(sorted: seq<Ingredient>) {
    |Filter(sorted, IsVegetable)| > 1 || |Filter(sorted, IsDairy)| > 0
  }

  /** The inputs a strategy needs are there. */
  predicate Fires(k: Strategy, sorted: seq<Ingredient>, active: seq<Sale>) {
    match k
    case Plate => PlateFires(sorted)
    case SaleDish => SaleDishFires(sorted, active)
    case Soup => SoupFires(sorted)
    case QuickMenu => |sorted| > 0
  }

  /** The first three strategies, each when it fires, appended one after
      the other to an empty list. */
  function MainStrategies(sorted: seq<Ingredient>, active: seq<Sale>): seq<Strategy> {
    []
      + (if PlateFires(sorted) then [Plate] else [])
      + (if SaleDishFires(sorted, active) then [SaleDish] else [])
      + (if SoupFires(sorted) then [Soup] else [])
  }

  /** The strategies that produce a suggestion, in order: each of the first
      three when it fires, and the quick menu only when none of them did. */

  function FiredStrategies(sorted: seq<Ingredient>, active: seq<Sale>): (fired: seq<Strategy>)
    ensures |fired| <= 3
    ensures forall i :: 0 <= i < |fired| ==> Fires(fired[i], sorted, active)
  {
    var main := MainStrategies(sorted, active);
    if main == [] && |sorted| > 0 then [QuickMenu] else main
  }

  /** The plate's ingredients: the most urgent protein and vegetable, and
      the most urgent staple when there is one. */
  function PlateSources(sorted: seq<Ingredient>): seq<Ingredient>
    requires PlateFires(sorted)
  {
    var staples := Filter(sorted, IsStaple);
    [Filter(sorted, IsProtein)[0], Filter(sorted, IsVegetable)[0]]
      + (if |staples| > 0 then [staples[0]] else [])
  }

  function PlateUsed(sorted: seq<Ingredient>, portionScale: real): seq<UsedIngredient>
    requires PlateFires(sorted)
  {
    var staples := Filter(sorted, IsStaple);
    [UsedFor(Filter(sorted, IsProtein)[0], 0.6, portionScale, None),
     UsedFor(Filter(sorted, IsVegetable)[0], 0.8, portionScale, None)]
      + (if |staples| > 0 then [UsedFor(staples[0], 0.4, portionScale, None)] else [])
  }

  /** The item names overlap case-insensitively, one containing the other. */
  predicate NameOverlap(item: Ingredient, saleName: string) {
    Contains(ToLower(item.name), ToLower(saleName)) || Contains(ToLower(saleName), ToLower(item.name))
  }

  /** The stock item a sale dish draws on: the first by name overlap, else
      the first whose category contains the sale's category (a sale without
      a category matches the first item), else the most urgent item. */
  function SaleMatch(sorted: seq<Ingredient>, sale: Sale): (m: Ingredient)
    requires |sorted| > 0
    ensures m in sorted
  {
    var byName := Find(sorted, (item: Ingredient) => NameOverlap(item, sale.name));
    if byName.Some? then byName.value
    else
      var byCategory := Find(sorted, (item: Ingredient) => Contains(OrEmpty(item.category), OrEmpty(sale.category)));
      if byCategory.Some? then byCategory.value else sorted[0]
  }

  /** The soup's ingredients: up to two vegetables, then up to one dairy item. */
  function SoupSources(sorted: seq<Ingredient>): seq<Ingredient> {
    var veggies := Filter(sorted, IsVegetable);
    var dairy := Filter(sorted, IsDairy);
    (if |veggies| > 0 then [veggies[0]] else [])
      + (if |veggies| > 1 then [veggies[1]] else [])
      + (if |dairy| > 0 then [dairy[0]] else [])
  }

  /** `sources.map(s => makeUsedIngredient(s, ratio, scale))` */
  function AllocateAll(sources: seq<Ingredient>, ratio: real, portionScale: real): (used: seq<UsedIngredient>)
    ensures |used| == |sources|
  {
    seq(|sources|, i requires 0 <= i < |sources| => UsedFor(sources[i], ratio, portionScale, None))
  }

  /** What a strategy cooks, apart from the suggestion's fresh id. */
  datatype Dish = Dish(title: string, description: string, comment: string, used: seq<UsedIngredient>)

  /** The suggestion record of a dish: its recipe is built from its title
      and amounts. */
  function Suggestion(id: string, dish: Dish): MenuSuggestion {
    MenuSuggestion(id, dish.title, dish.description, dish.comment, dish.used, RecipeSteps(dish.title, dish.used))
  }

  /** The one-plate meal of the most urgent protein, vegetable and staple. */
  function PlateMeal(sorted: seq<Ingredient>, portionScale: real): Dish
    requires PlateFires(sorted)
  {
    Dish(PLATE_TITLE, PLATE_DESCRIPTION, NutritionComment(PlateSources(sorted)), PlateUsed(sorted, portionScale))
  }

  /** The main dish around a sale item, named after the sale. */
  function SaleMeal(sorted: seq<Ingredient>, sale: Sale, portionScale: real): Dish
    requires |sorted| > 0
  {
    Dish(SaleTitle(sale.name), SaleDescription(sale.name), SALE_COMMENT,
      [UsedFor(SaleMatch(sorted, sale), 0.7, portionScale, Some(sale.name))])
  }

  /** The vegetable and milk soup. */
  function SoupMeal(sorted: seq<Ingredient>, portionScale: real): Dish {
    var sources := SoupSources(sorted);
    Dish(SOUP_TITLE, SOUP_DESCRIPTION, NutritionComment(sources), AllocateAll(sources, 0.5, portionScale))
  }

  /** The quick menu around the most urgent ingredient. */
  function QuickMeal(sorted: seq<Ingredient>, portionScale: real): Dish
    requires |sorted| > 0
  {
    Dish(QuickTitle(sorted[0].name), QUICK_DESCRIPTION, NutritionComment([sorted[0]]),
      [UsedFor(sorted[0], 0.5, portionScale, None)])
  }

  /** The dish each strategy would cook for one stock and one list of
      active sales, or `None` where the strategy does not fire. */
  datatype Menu = Menu(plate: Option<Dish>, sale: Option<Dish>, soup: Option<Dish>, quick: Option<Dish>) {
    function Get(k: Strategy): Option<Dish> {
      match k
      case Plate => plate
      case SaleDish => sale
      case Soup => soup
      case QuickMenu => quick
    }
  }

  /** A menu that has a dish for exactly the strategies that fire. */
  lemma MenuHasFired(m: Menu, sorted: seq<Ingredient>, active: seq<Sale>)
    requires m.plate.Some? == PlateFires(sorted) && m.sale.Some? == SaleDishFires(sorted, active)
    requires m.soup.Some? == SoupFires(sorted) && m.quick.Some? == (|sorted| > 0)
    ensures forall k :: m.Get(k).Some? <==> Fires(k, sorted, active)
  {
    forall k ensures m.Get(k).Some? <==> Fires(k, sorted, active) {
      match k
      case Plate =>
      case SaleDish =>
      case Soup =>
      case QuickMenu =>
    }
  }

  /** The menu of a stock: a sale dish uses the first active sale. */
  function MenuOf(sorted: seq<Ingredient>, active: seq<Sale>, portionScale: real): (m: Menu)
    ensures forall k :: m.Get(k).Some? <==> Fires(k, sorted, active)
  {
    var m := Menu(if PlateFires(sorted) then Some(PlateMeal(sorted, portionScale)) else None,
      if SaleDishFires(sorted, active) then Some(SaleMeal(sorted, active[0], portionScale)) else None,
      if SoupFires(sorted) then Some(SoupMeal(sorted, portionScale)) else None,
      if |sorted| > 0 then Some(QuickMeal(sorted, portionScale)) else None);
    MenuHasFired(m, sorted, active);
    m
  }

  /** The dish a fired strategy produces. */
  function DishFor(k: Strategy, sorted: seq<Ingredient>, active: seq<Sale>, portionScale: real): Dish
    requires Fires(k, sorted, active)
  {
    MenuOf(sorted, active, portionScale).Get(k).value
  }

  /** The suggestions of a list of strategies, the i-th with the i-th id. */
  function Render(ks: seq<Strategy>, ids: seq<string>, menu: Menu): (r: seq<MenuSuggestion>)
    requires |ids| >= |ks|
    requires forall i :: 0 <= i < |ks| ==> menu.Get(ks[i]).Some?
    ensures |r| == |ks|
  {
    seq(|ks|, i requires 0 <= i < |ks| => Suggestion(ids[i], menu.Get(ks[i]).value))
  }

  lemma RenderAppend(ks: seq<Strategy>, k: Strategy, ids: seq<string>, menu: Menu)
    requires |ids| > |ks|
    requires forall i :: 0 <= i < |ks| ==> menu.Get(ks[i]).Some?
    requires menu.Get(k).Some?
    ensures Render(ks + [k], ids, menu) == Render(ks, ids, menu) + [Suggestion(ids[|ks|], menu.Get(k).value)]
  {
    var a := Render(ks + [k], ids, menu);
    var b := Render(ks, ids, menu) + [Suggestion(ids[|ks|], menu.Get(k).value)];
    forall i | 0 <= i < |a| ensures a[i] == b[i] {
      if i < |ks| {
        assert (ks + [k])[i] == ks[i];
      }
    }
  }

  /** The strategies that fire for a request on a given day. */
  function Strategies(request: MenuSuggestionRequest, today: string): seq<Strategy> {
    FiredStrategies(SortByExpiry(request.ingredients), ActiveSales(request.sales, today))
  }

  /** The suggestions for a request: the dish of each fired strategy, the
      i-th with the i-th fresh id, over the ingredients sorted by expiry and
      the sales active today, all sized with one household portion scale. */
  function MenuSuggestions(request: MenuSuggestionRequest, today: string, ids: seq<string>): seq<MenuSuggestion>
    requires |ids| >= 3 && FamilyInOptions(request.familyMembers)
  {
    var sorted := SortByExpiry(request.ingredients);
    var active := ActiveSales(request.sales, today);
    Render(FiredStrategies(sorted, active), ids, MenuOf(sorted, active, PortionScale(request.familyMembers)))
  }

  /** The shape of the fired list: each strategy appears exactly when it
      fires, in the fixed order, the quick menu only on its own, and the list
      is empty only without ingredients. */
  lemma FiredStrategiesShape(sorted: seq<Ingredient>, active: seq<Sale>)
    ensures var ks := FiredStrategies(sorted, active);
      && (Plate in ks <==> PlateFires(sorted))
      && (SaleDish in ks <==> SaleDishFires(sorted, active))
      && (Soup in ks <==> SoupFires(sorted))
      && (QuickMenu in ks <==> |sorted| > 0 && !PlateFires(sorted) && !SaleDishFires(sorted, active) && !SoupFires(sorted))
      && (QuickMenu in ks ==> ks == [QuickMenu])
      && (forall i, j :: 0 <= i < j < |ks| ==> ks[i].Rank() < ks[j].Rank())
      && (|ks| > 0 <==> |sorted| > 0)
  {
    if PlateFires(sorted) {
      assert |Filter(sorted, IsProtein)| <= |sorted|;
    }
    if SoupFires(sorted) {
      assert |Filter(sorted, IsVegetable)| <= |sorted|;
      assert |Filter(sorted, IsDairy)| <= |sorted|;
    }
  }

  /** At most three suggestions, and at least one exactly when the request
      has an ingredient. */
  lemma MenuSuggestionsShape(request: MenuSuggestionRequest, today: string, ids: seq<string>)
    requires |ids| >= 3 && FamilyInOptions(request.familyMembers)
    ensures |MenuSuggestions(request, today, ids)| <= 3
    ensures |MenuSuggestions(request, today, ids)| > 0 <==> |request.ingredients| > 0
  {
    var sorted := SortByExpiry(request.ingredients);
    FiredStrategiesShape(sorted, ActiveSales(request.sales, today));
    SortByExpiryCorrect(request.ingredients);
  }

  /** When each strategy fires, in terms of the request itself. Sorting
      keeps every ingredient, so the tests read the request's own list. */
  lemma StrategiesFire(request: MenuSuggestionRequest, today: string)
    ensures var ks := Strategies(request, today);
      var ings := request.ingredients;
      && (Plate in ks <==>
          (exists i :: 0 <= i < |ings| && IsProtein(ings[i])) && (exists i :: 0 <= i < |ings| && IsVegetable(ings[i])))
      && (SaleDish in ks <==>
          (exists s :: 0 <= s < |request.sales| && IsSaleActive(request.sales[s], today)) && |ings| > 0)
      && (Soup in ks <==>
          |Filter(ings, IsVegetable)| >= 2 || (exists i :: 0 <= i < |ings| && IsDairy(ings[i])))
      && (QuickMenu in ks <==> |ings| > 0 && Plate !in ks && SaleDish !in ks && Soup !in ks)
      && (|ks| > 0 <==> |ings| > 0)
  {
    var sorted := SortByExpiry(request.ingredients);
    var active := ActiveSales(request.sales, today);
    FiredStrategiesShape(sorted, active);
    SortByExpiryCorrect(request.ingredients);
    SortByExpiryKeepsMembers(request.ingredients, IsProtein);
    SortByExpiryKeepsMembers(request.ingredients, IsVegetable);
    SortByExpiryKeepsMembers(request.ingredients, IsDairy);
    FilterNonEmpty(request.ingredients, IsProtein);
    FilterNonEmpty(request.ingredients, IsVegetable);
    FilterNonEmpty(request.ingredients, IsDairy);
    FilterNonEmpty(request.sales, (s: Sale) => IsSaleActive(s, today));
  }

  /** A suggested amount draws on a stock item: it names the item's id and
      unit, and for non-negative stock it lies between 0 and the rounded
      1.5-fold stock. */
  predicate DrawsOn(u: UsedIngredient, x: Ingredient) {
    u.ingredientId == Some(x.id) && u.unit == x.unit
    && (x.quantity >= 0.0 ==> 0.0 <= u.usedQuantity <= Round2(x.quantity * 1.5))
  }

  lemma UsedForDrawsOn(x: Ingredient, ratio: real, portionScale: real, nameOverride: Option<string>)
    ensures DrawsOn(UsedFor(x, ratio, portionScale, nameOverride), x)
  {
    if x.quantity >= 0.0 {
      AllocationBounds(x.quantity, ratio, portionScale);
    }
  }

  /** The amount draws on some item of `stock`. */
  ghost predicate DrawsOnSome(u: UsedIngredient, stock: seq<Ingredient>) {
    exists x :: x in stock && DrawsOn(u, x)
  }

  /** Every amount of a list draws on some item of `stock`. */
  ghost predicate AllDrawOn(used: seq<UsedIngredient>, stock: seq<Ingredient>) {
    forall j :: 0 <= j < |used| ==> DrawsOnSome(used[j], stock)
  }

  /** Only the members of the stock matter, not their order. */
  lemma AllDrawOnSameMembers(used: seq<UsedIngredient>, a: seq<Ingredient>, b: seq<Ingredient>)
    requires forall x :: x in a <==> x in b
    requires AllDrawOn(used, a)
    ensures AllDrawOn(used, b)
  {
    forall j | 0 <= j < |used| ensures DrawsOnSome(used[j], b) {
      var x :| x in a && DrawsOn(used[j], x);
      assert x in b;
    }
  }

  lemma UsedForDrawsOnSome(x: Ingredient, ratio: real, portionScale: real, nameOverride: Option<string>,
                           stock: seq<Ingredient>)
    requires x in stock
    ensures DrawsOnSome(UsedFor(x, ratio, portionScale, nameOverride), stock)
  {
    UsedForDrawsOn(x, ratio, portionScale, nameOverride);
  }

  lemma PlateDrawsOnStock(sorted: seq<Ingredient>, portionScale: real)
    requires PlateFires(sorted)
    ensures AllDrawOn(PlateMeal(sorted, portionScale).used, sorted)
  {
    var used := PlateUsed(sorted, portionScale);
    var staples := Filter(sorted, IsStaple);
    FilterMembers(sorted, IsProtein);
    FilterMembers(sorted, IsVegetable);
    FilterMembers(sorted, IsStaple);
    UsedForDrawsOnSome(Filter(sorted, IsProtein)[0], 0.6, portionScale, None, sorted);
    UsedForDrawsOnSome(Filter(sorted, IsVegetable)[0], 0.8, portionScale, None, sorted);
    if |staples| > 0 {
      UsedForDrawsOnSome(staples[0], 0.4, portionScale, None, sorted);
    }
    assert forall j :: 0 <= j < |used| ==> DrawsOnSome(used[j], sorted);
  }

  lemma SoupDrawsOnStock(sorted: seq<Ingredient>, portionScale: real)
    ensures AllDrawOn(SoupMeal(sorted, portionScale).used, sorted)
  {
    var sources := SoupSources(sorted);
    var used := AllocateAll(sources, 0.5, portionScale);
    FilterMembers(sorted, IsVegetable);
    FilterMembers(sorted, IsDairy);
    forall j | 0 <= j < |used| ensures DrawsOnSome(used[j], sorted) {
      assert sources[j] in sorted;
      UsedForDrawsOnSome(sources[j], 0.5, portionScale, None, sorted);
    }
  }

  /** Every amount a fired strategy proposes draws on an item of the sorted stock. */
  lemma DishDrawsOnStock(k: Strategy, sorted: seq<Ingredient>, active: seq<Sale>, portionScale: real)
    requires Fires(k, sorted, active)
    ensures AllDrawOn(DishFor(k, sorted, active, portionScale).used, sorted)
  {
    match k
    case Plate =>
      PlateDrawsOnStock(sorted, portionScale);
    case SaleDish =>
      UsedForDrawsOnSome(SaleMatch(sorted, active[0]), 0.7, portionScale, Some(active[0].name), sorted);
    case Soup =>
      SoupDrawsOnStock(sorted, portionScale);
    case QuickMenu =>
      UsedForDrawsOnSome(sorted[0], 0.5, portionScale, None, sorted);
  }

  /** When every listed strategy's dish draws on a stock, so does every
      rendered suggestion. */
  lemma RenderDrawsOn(ks: seq<Strategy>, ids: seq<string>, menu: Menu, stock: seq<Ingredient>)
    requires |ids| >= |ks|
    requires forall i :: 0 <= i < |ks| ==> menu.Get(ks[i]).Some? && AllDrawOn(menu.Get(ks[i]).value.used, stock)
    ensures var r := Render(ks, ids, menu);
      forall i :: 0 <= i < |r| ==> AllDrawOn(r[i].usedIngredients, stock)
  {
  }

  /** Every amount of every suggestion draws on an ingredient of the request. */
  lemma SuggestionsDrawOnStock(request: MenuSuggestionRequest, today: string, ids: seq<string>)
    requires |ids| >= 3 && FamilyInOptions(request.familyMembers)
    ensures var r := MenuSuggestions(request, today, ids);
      forall i :: 0 <= i < |r| ==> AllDrawOn(r[i].usedIngredients, request.ingredients)
  {
    var sorted := SortByExpiry(request.ingredients);
    var active := ActiveSales(request.sales, today);
    var menu := MenuOf(sorted, active, PortionScale(request.familyMembers));
    var ks := FiredStrategies(sorted, active);
    SortByExpiryKeepsMembers(request.ingredients, IsProtein);
    forall i | 0 <= i < |ks| ensures AllDrawOn(menu.Get(ks[i]).value.used, request.ingredients) {
      DishDrawsOnStock(ks[i], sorted, active, PortionScale(request.familyMembers));
      AllDrawOnSameMembers(menu.Get(ks[i]).value.used, sorted, request.ingredients);
    }
    RenderDrawsOn(ks, ids, menu, request.ingredients);
  }

  /** The plate always pairs a protein with a vegetable, so its comment is
      the balanced one. */
  lemma PlateIsBalanced(sorted: seq<Ingredient>, portionScale: real)
    requires PlateFires(sorted)
    ensures PlateMeal(sorted, portionScale).comment == BALANCED_COMMENT
  {
    var src := PlateSources(sorted);
    FilterSatisfies(sorted, IsProtein);
    FilterSatisfies(sorted, IsVegetable);
    NutritionCommentCases(src);
    assert IsProtein(src[0]) && IsVegetable(src[1]);
  }

  /** The plate block: three allocations pushed in order, the staple only
      when there is one. */
  method BuildPlate(id: string, sorted: seq<Ingredient>, proteins: seq<Ingredient>, veggies: seq<Ingredient>,
                    staples: seq<Ingredient>, portionScale: real)
    returns (plate: MenuSuggestion)
    requires proteins == Filter(sorted, IsProtein) && veggies == Filter(sorted, IsVegetable)
    requires staples == Filter(sorted, IsStaple)
    requires |proteins| > 0 && |veggies| > 0
    ensures PlateFires(sorted) && plate == Suggestion(id, PlateMeal(sorted, portionScale))
  {
    var first := MakeUsedIngredient(proteins[0], 0.6, portionScale, None);
    var second := MakeUsedIngredient(veggies[0], 0.8, portionScale, None);
    var used := [first, second];
    if |staples| > 0 {
      var third := MakeUsedIngredient(staples[0], 0.4, portionScale, None);
      used := used + [third];
    }
    var involved := [proteins[0], veggies[0]] + (if |staples| > 0 then [staples[0]] else []);
    plate := Suggestion(id, Dish(PLATE_TITLE, PLATE_DESCRIPTION, NutritionComment(involved), used));
  }

  /** The sale block: the matching stock item, renamed after the sale. */
  method BuildSaleDish(id: string, sorted: seq<Ingredient>, sale: Sale, portionScale: real)
    returns (dish: MenuSuggestion)
    requires |sorted| > 0
    ensures dish == Suggestion(id, SaleMeal(sorted, sale, portionScale))
  {
    var saleUsed := MakeUsedIngredient(SaleMatch(sorted, sale), 0.7, portionScale, Some(sale.name));
    dish := Suggestion(id, Dish(SaleTitle(sale.name), SaleDescription(sale.name), SALE_COMMENT, [saleUsed]));
  }

  /** The soup block: sources pushed one by one, then allocated. */
  method BuildSoup(id: string, sorted: seq<Ingredient>, veggies: seq<Ingredient>, dairy: seq<Ingredient>,
                   portionScale: real)
    returns (soup: MenuSuggestion)
    requires veggies == Filter(sorted, IsVegetable) && dairy == Filter(sorted, IsDairy)
    ensures soup == Suggestion(id, SoupMeal(sorted, portionScale))
  {
    var usedSources: seq<Ingredient> := [];
    if |veggies| > 0 { usedSources := usedSources + [veggies[0]]; }
    if |veggies| > 1 { usedSources := usedSources + [veggies[1]]; }
    if |dairy| > 0 { usedSources := usedSources + [dairy[0]]; }
    assert usedSources == SoupSources(sorted);
    soup := Suggestion(id, Dish(SOUP_TITLE, SOUP_DESCRIPTION, NutritionComment(usedSources),
      AllocateAll(usedSources, 0.5, portionScale)));
  }

  /** The fallback block: the most urgent ingredient alone. */
  method BuildQuickMenu(id: string, sorted: seq<Ingredient>, portionScale: real)
    returns (menu: MenuSuggestion)
    requires |sorted| > 0
    ensures menu == Suggestion(id, QuickMeal(sorted, portionScale))
  {
    var quick := MakeUsedIngredient(sorted[0], 0.5, portionScale, None);
    menu := Suggestion(id, Dish(QuickTitle(sorted[0].name), QUICK_DESCRIPTION, NutritionComment([sorted[0]]), [quick]));
  }

  /** `suggestions` holds the suggestions of the strategies `done`, in order,
      numbered with the first ids. */
  ghost predicate Rendered(suggestions: seq<MenuSuggestion>, done: seq<Strategy>, ids: seq<string>, menu: Menu) {
    |ids| >= |done|
    && (forall i :: 0 <= i < |done| ==> menu.Get(done[i]).Some?)
    && suggestions == Render(done, ids, menu)
  }

  /** `if (proteins.length > 0 && veggies.length > 0) { suggestions.push(...) }` */
  method PlateBlock(suggestions: seq<MenuSuggestion>, ghost done: seq<Strategy>, ids: seq<string>,
                    sorted: seq<Ingredient>, proteins: seq<Ingredient>, veggies: seq<Ingredient>,
                    staples: seq<Ingredient>, portionScale: real, ghost menu: Menu)
    returns (next: seq<MenuSuggestion>, ghost doneNext: seq<Strategy>)
    requires proteins == Filter(sorted, IsProtein) && veggies == Filter(sorted, IsVegetable)
    requires staples == Filter(sorted, IsStaple)
    requires menu.plate == if PlateFires(sorted) then Some(PlateMeal(sorted, portionScale)) else None
    requires |ids| > |done| && Rendered(suggestions, done, ids, menu)
    ensures doneNext == done + (if PlateFires(sorted) then [Plate] else [])
    ensures Rendered(next, doneNext, ids, menu)
  {
    next, doneNext := suggestions, done;
    if |proteins| > 0 && |veggies| > 0 {
      var plate := BuildPlate(ids[|suggestions|], sorted, proteins, veggies, staples, portionScale);
      RenderAppend(done, Plate, ids, menu);
      next, doneNext := suggestions + [plate], done + [Plate];
    }
  }

  /** `if (activeSales.length > 0 && sortedIngredients.length > 0) { suggestions.push(...) }` */
  method SaleBlock(suggestions: seq<MenuSuggestion>, ghost done: seq<Strategy>, ids: seq<string>,
                   sorted: seq<Ingredient>, active: seq<Sale>, portionScale: real, ghost menu: Menu)
    returns (next: seq<MenuSuggestion>, ghost doneNext: seq<Strategy>)
    requires menu.sale == if SaleDishFires(sorted, active) then Some(SaleMeal(sorted, active[0], portionScale)) else None
    requires |ids| > |done| && Rendered(suggestions, done, ids, menu)
    ensures doneNext == done + (if SaleDishFires(sorted, active) then [SaleDish] else [])
    ensures Rendered(next, doneNext, ids, menu)
  {
    next, doneNext := suggestions, done;
    if |active| > 0 && |sorted| > 0 {
      var dish := BuildSaleDish(ids[|suggestions|], sorted, active[0], portionScale);
      RenderAppend(done, SaleDish, ids, menu);
      next, doneNext := suggestions + [dish], done + [SaleDish];
    }
  }

  /** `if (veggies.length > 1 || dairy.length > 0) { suggestions.push(...) }` */
  method SoupBlock(suggestions: seq<MenuSuggestion>, ghost done: seq<Strategy>, ids: seq<string>,
                   sorted: seq<Ingredient>, veggies: seq<Ingredient>, dairy: seq<Ingredient>,
                   portionScale: real, ghost menu: Menu)
    returns (next: seq<MenuSuggestion>, ghost doneNext: seq<Strategy>)
    requires veggies == Filter(sorted, IsVegetable) && dairy == Filter(sorted, IsDairy)
    requires menu.soup == if SoupFires(sorted) then Some(SoupMeal(sorted, portionScale)) else None
    requires |ids| > |done| && Rendered(suggestions, done, ids, menu)
    ensures doneNext == done + (if SoupFires(sorted) then [Soup] else [])
    ensures Rendered(next, doneNext, ids, menu)
  {
    next, doneNext := suggestions, done;
    if |veggies| > 1 || |dairy| > 0 {
      var soup := BuildSoup(ids[|suggestions|], sorted, veggies, dairy, portionScale);
      RenderAppend(done, Soup, ids, menu);
      next, doneNext := suggestions + [soup], done + [Soup];
    }
  }

  /** `if (suggestions.length === 0 && sortedIngredients.length > 0) { suggestions.push(...) }` */
  method QuickBlock(suggestions: seq<MenuSuggestion>, ghost done: seq<Strategy>, ids: seq<string>,
                    sorted: seq<Ingredient>, portionScale: real, ghost menu: Menu)
    returns (next: seq<MenuSuggestion>, ghost doneNext: seq<Strategy>)
    requires menu.quick == if |sorted| > 0 then Some(QuickMeal(sorted, portionScale)) else None
    requires |ids| > 0 && Rendered(suggestions, done, ids, menu)
    ensures doneNext == if done == [] && |sorted| > 0 then [QuickMenu] else done
    ensures Rendered(next, doneNext, ids, menu)
  {
    next, doneNext := suggestions, done;
    if |suggestions| == 0 && |sorted| > 0 {
      var quick := BuildQuickMenu(ids[|suggestions|], sorted, portionScale);
      RenderAppend(done, QuickMenu, ids, menu);
      next, doneNext := suggestions + [quick], done + [QuickMenu];
    }
  }

  /** The four strategy blocks of `buildMenuSuggestions`, run in order on
      an empty list. */
  method RunStrategies(ids: seq<string>, sorted: seq<Ingredient>, proteins: seq<Ingredient>,
                       veggies: seq<Ingredient>, staples: seq<Ingredient>, dairy: seq<Ingredient>,
                       activeSales: seq<Sale>, portionScale: real)
    returns (suggestions: seq<MenuSuggestion>)
    requires |ids| >= 3
    requires proteins == Filter(sorted, IsProtein) && veggies == Filter(sorted, IsVegetable)
    requires staples == Filter(sorted, IsStaple) && dairy == Filter(sorted, IsDairy)
    ensures suggestions == Render(FiredStrategies(sorted, activeSales), ids, MenuOf(sorted, activeSales, portionScale))
  {
    suggestions := [];
    ghost var done: seq<Strategy> := [];
    ghost var menu := MenuOf(sorted, activeSales, portionScale);

    suggestions, done := PlateBlock(suggestions, done, ids, sorted, proteins, veggies, staples, portionScale, menu);
    suggestions, done := SaleBlock(suggestions, done, ids, sorted, activeSales, portionScale, menu);
    suggestions, done := SoupBlock(suggestions, done, ids, sorted, veggies, dairy, portionScale, menu);
    assert done == MainStrategies(sorted, activeSales);
    suggestions, done := QuickBlock(suggestions, done, ids, sorted, portionScale, menu);
    assert done == FiredStrategies(sorted, activeSales);
  }

  /** `buildMenuSuggestions`: sorts the stock, classifies it, runs the
      strategies in order and keeps the first three suggestions. */
  method BuildMenuSuggestions(request: MenuSuggestionRequest, today: string, ids: seq<string>)
    returns (result: seq<MenuSuggestion>)
    requires |ids| >= 3 && FamilyInOptions(request.familyMembers)
    ensures result == MenuSuggestions(request, today, ids)
    ensures |result| <= 3
    ensures |result| > 0 <==> |request.ingredients| > 0
  {
    var portionScale := PortionScale(request.familyMembers);
    var sorted := SortByExpiry(request.ingredients);
    var proteins := Filter(sorted, IsProtein);
    var veggies := Filter(sorted, IsVegetable);
    var staples := Filter(sorted, IsStaple);
    var dairy := Filter(sorted, IsDairy);
    var activeSales := ActiveSales(request.sales, today);
    var suggestions := RunStrategies(ids, sorted, proteins, veggies, staples, dairy, activeSales, portionScale);
    MenuSuggestionsShape(request, today, ids);
    result := Take(suggestions, 3);
  }
}
