/** The fridge screen (components/fridge-manager.tsx): which items are
    flagged as expiring, and the ingredient form: filling it from an
    ingredient, and the payload and checks of a submission. Today's date
    is a parameter. */
module FridgeForm {
  import opened Wrappers
  import opened Seqs
  import opened Text
  import opened Numeric
  import opened Types
  import opened Dates
  import opened Validation

  // ---------------------------------------------------------------------
  // Expiring items

  /** `item.expiryDate && item.expiryDate <= today` */
  predicate IsExpiringSoon(item: Ingredient, today: string) {
    Present(item.expiryDate) && LexLe(item.expiryDate.value, today)
  }

  /** `expiringSoon`: the items expiring by today, in list order. */
  function ExpiringSoon(items: seq<Ingredient>, today: string): (r: seq<Ingredient>)
    ensures |r| <= |items|
    ensures forall i :: 0 <= i < |r| ==> r[i] in items && IsExpiringSoon(r[i], today)
  {
    FilterSatisfies(items, (item: Ingredient) => IsExpiringSoon(item, today));
    FilterMembers(items, (item: Ingredient) => IsExpiringSoon(item, today));
    Filter(items, (item: Ingredient) => IsExpiringSoon(item, today))
  }

  /** An item of the list is flagged exactly when it has an expiry date on
      or before today; with `YYYY-MM-DD` dates that is calendar order. */
  lemma ExpiringSoonExactly(items: seq<Ingredient>, today: string, item: Ingredient)
    requires item in items
    ensures item in ExpiringSoon(items, today) <==>
      item.expiryDate.Some? && item.expiryDate.value != "" && LexLe(item.expiryDate.value, today)
    ensures item.expiryDate.Some? && IsFullDate(item.expiryDate.value) && IsFullDate(today) ==>
      (item in ExpiringSoon(items, today) <==> ChronoLe(item.expiryDate.value, today))
  {
    var r := ExpiringSoon(items, today);
    if IsExpiringSoon(item, today) {
      FilterMembers(items, (x: Ingredient) => IsExpiringSoon(x, today));
      var i :| 0 <= i < |items| && items[i] == item;
    }
    if item in r {
      var j :| 0 <= j < |r| && r[j] == item;
    }
    if item.expiryDate.Some? && IsFullDate(item.expiryDate.value) && IsFullDate(today) {
      FullDateOrderIsChronological(item.expiryDate.value, today);
    }
  }

  /** The card's highlight: `ingredient.expiryDate && ingredient.expiryDate <=
      today`, written a second time in the card markup. */
  predicate CardHighlighted(ingredient: Ingredient, today: string) {
    ingredient.expiryDate.Some? && ingredient.expiryDate.value != "" && LexLe(ingredient.expiryDate.value, today)
  }

  /** A card is highlighted exactly when its item is in the expiring list. */
  lemma HighlightMatchesExpiringList(items: seq<Ingredient>, today: string, item: Ingredient)
    requires item in items
    ensures CardHighlighted(item, today) <==> item in ExpiringSoon(items, today)
  {
    ExpiringSoonExactly(items, today, item);
  }

  // ---------------------------------------------------------------------
  // The ingredient form

  /** The form's fields; the quantity is the text of a number field. */
  datatype IngredientForm = IngredientForm(
    name: string,
    quantity: FieldText,
    unit: string,
    expiryDate: string,
    category: string,
    memo: string)

  /** The form after reset. */
  const EMPTY_INGREDIENT_FORM: IngredientForm := IngredientForm("", Typed(""), "", "", "", "")

  const NAME_REQUIRED := "食材名を入力してください。"
  const QUANTITY_INVALID := "数量は0以上の数値で入力してください。"

  /** `startEdit`: the ingredient's fields, `String(quantity)` and "" for
      what is absent. */
  function StartEdit(ingredient: Ingredient): (r: IngredientForm)
    ensures ToNumber(r.quantity) == Num(ingredient.quantity)
    ensures r.unit == "" <==> ingredient.unit.None? || ingredient.unit == Some("")
    ensures r.expiryDate == "" <==> ingredient.expiryDate.None? || ingredient.expiryDate == Some("")
  {
    IngredientForm(ingredient.name, Shown(ingredient.quantity), OrEmpty(ingredient.unit),
      OrEmpty(ingredient.expiryDate), OrEmpty(ingredient.category), OrEmpty(ingredient.memo))
  }

  /** `handleSubmit`'s payload and checks: the name is trimmed and
      required; the quantity must be a number of at least 0; the unit,
      category and memo are trimmed; an empty optional field is left out
      (the expiry date is not trimmed). */
  function SubmitIngredient(form: IngredientForm): (r: Result<IngredientPayload, string>)
    ensures r.Ok? <==> Trim(form.name) != "" && ToNumber(form.quantity).Num? && ToNumber(form.quantity).value >= 0.0
    ensures Trim(form.name) == "" ==> r == Err(NAME_REQUIRED)
    ensures Trim(form.name) != "" && !r.Ok? ==> r == Err(QUANTITY_INVALID)
    ensures r.Ok? ==>
      && r.value.name == Trim(form.name) && Num(r.value.quantity) == ToNumber(form.quantity)
      && r.value.unit == NonEmptyOrNone(Trim(form.unit))
      && r.value.expiryDate == NonEmptyOrNone(form.expiryDate)
      && r.value.category == NonEmptyOrNone(Trim(form.category))
      && r.value.memo == NonEmptyOrNone(Trim(form.memo))
  {
    var name := Trim(form.name);
    var quantity := ToNumber(form.quantity);
    if name == "" then Err(NAME_REQUIRED)
    else if quantity.NaN? || quantity.value < 0.0 then Err(QUANTITY_INVALID)
    else Ok(IngredientPayload(name, quantity.value, NonEmptyOrNone(Trim(form.unit)), NonEmptyOrNone(form.expiryDate),
      NonEmptyOrNone(Trim(form.category)), NonEmptyOrNone(Trim(form.memo))))
  }

  /** Editing an ingredient and submitting it unchanged sends its own
      fields back, when they are already trimmed and none is empty. */
  lemma FridgeEditRoundTrip(ingredient: Ingredient)
    requires ingredient.name != "" && Trim(ingredient.name) == ingredient.name && ingredient.quantity >= 0.0
    requires CleanOptional(ingredient.unit) && CleanOptional(ingredient.category) && CleanOptional(ingredient.memo)
    requires ingredient.expiryDate.Some? ==> ingredient.expiryDate.value != ""
    ensures SubmitIngredient(StartEdit(ingredient)) == Ok(IngredientPayload(ingredient.name, ingredient.quantity,
      ingredient.unit, ingredient.expiryDate, ingredient.category, ingredient.memo))
  {
    SubmitReadsBack(StartEdit(ingredient), IngredientPayload(ingredient.name, ingredient.quantity,
      ingredient.unit, ingredient.expiryDate, ingredient.category, ingredient.memo));
  }

  /** A form whose fields read back as `p`'s passes with payload `p`. */
  lemma SubmitReadsBack(form: IngredientForm, p: IngredientPayload)
    requires Trim(form.name) == p.name != "" && ToNumber(form.quantity) == Num(p.quantity) && p.quantity >= 0.0
    requires NonEmptyOrNone(Trim(form.unit)) == p.unit && NonEmptyOrNone(form.expiryDate) == p.expiryDate
    requires NonEmptyOrNone(Trim(form.category)) == p.category && NonEmptyOrNone(Trim(form.memo)) == p.memo
    ensures SubmitIngredient(form) == Ok(p)
  {
  }

  /** An empty quantity field reads as 0, so it passes the check. */
  lemma EmptyQuantitySubmitsZero(form: IngredientForm)
    requires Trim(form.name) != "" && form.quantity == Typed("")
    ensures SubmitIngredient(form).Ok? && SubmitIngredient(form).value.quantity == 0.0
  {
    BlankReadsAsZero("");
  }

  /** A submitted payload passes the schema when its date has the
      `YYYY-MM-DD` shape and its category is one of the options; the form
      checks neither. */
  lemma SubmittedIngredientSchema(form: IngredientForm)
    requires SubmitIngredient(form).Ok?
    ensures var p := SubmitIngredient(form).value;
      IngredientInputValid(p) <==>
        OptionalFullDate(p.expiryDate) && (p.category.Some? ==> p.category.value in INGREDIENT_CATEGORIES)
  {
    TrimSpec(form.name);
  }
}
