/** The request schemas of lib/validation.ts, each a predicate on the
    parsed payload: what a zod `safeParse` accepts. Numbers reaching a
    schema are finite reals here; a payload's `None` is an absent key. */
module Validation {
  import opened Wrappers
  import opened Text
  import opened Types
  import opened Dates
  import opened Portion
  import opened Numeric
  import opened DataStore

  /** `.regex(/^\d{4}-\d{2}-\d{2}$/).optional()` */
  predicate OptionalFullDate(d: Option<string>) {
    d.None? || IsFullDate(d.value)
  }

  /** `ingredientInputSchema` */
  predicate IngredientInputValid(p: IngredientPayload) {
    |p.name| >= 1
    && p.quantity >= 0.0
    && OptionalFullDate(p.expiryDate)
    && (p.category.Some? ==> p.category.value in INGREDIENT_CATEGORIES)
  }

  /** `saleInputSchema` */
  predicate SaleInputValid(p: SalePayload) {
    |p.name| >= 1
    && p.price >= 0.0
    && (p.discountRate.Some? ==> 0.0 <= p.discountRate.value <= 100.0)
    && OptionalFullDate(p.startDate)
    && OptionalFullDate(p.endDate)
  }

  /** `familyMemberSchema` */
  predicate FamilyMemberInputValid(p: FamilyMemberPayload) {
    |p.name| >= 1 && p.lifeStage in LIFE_STAGE_OPTIONS && p.appetite in APPETITE_OPTIONS
  }

  /** `bulkQuantitySchema`, on its `items` array. */
  predicate BulkQuantityValid(items: seq<QuantityUpdate>) {
    |items| >= 1 && forall i :: 0 <= i < |items| ==> |items[i].id| >= 1 && items[i].quantity >= 0.0
  }

  /** The date pattern checks only the shape: a month 13 and a day 45 pass,
      a one-digit month or a slash does not. */
  lemma DatePatternIsShapeOnly()
    ensures IsFullDate("2024-13-45")
    ensures !IsFullDate("2024-1-05")
    ensures !IsFullDate("2024/01/05")
    ensures !IsFullDate("2024-01-05T00:00")
  {
    assert AllDigits("2024") && AllDigits("13") && AllDigits("45") by {
      assert "2024"[0] == '2' && "2024"[1] == '0' && "2024"[2] == '2' && "2024"[3] == '4';
    }
    assert "2024-13-45"[..4] == "2024" && "2024-13-45"[5..7] == "13" && "2024-13-45"[8..] == "45";
    assert |"2024-1-05"| == 9;
    assert "2024/01/05"[4] == '/';
  }

  /** An ingredient's category is one of the ten options or left out; a
      free-text category is refused. */
  lemma IngredientCategoryIsClosed(p: IngredientPayload)
    requires IngredientInputValid(p) && p.category.Some?
    ensures p.category.value in INGREDIENT_CATEGORIES
    ensures p.category.value != "肉類" && p.category.value != ""
  {
  }

  /** A valid family member gets its portion factor from both tables, never
      from the fallback of 1, and it lies within [0.34, 1.32]. */
  lemma FamilyMemberFactorFromTables(p: FamilyMemberPayload)
    requires FamilyMemberInputValid(p)
    ensures p.lifeStage in LIFE_STAGE_PORTION && p.appetite in APPETITE_MULTIPLIER
    ensures GetPortionFactor(p.lifeStage, p.appetite)
      == Num(Round2(LIFE_STAGE_PORTION[p.lifeStage] * APPETITE_MULTIPLIER[p.appetite]))
    ensures 0.34 <= GetPortionFactor(p.lifeStage, p.appetite).value <= 1.32
  {
    OptionsHaveEntries();
    TableValues();
    ProductRange(LIFE_STAGE_PORTION[p.lifeStage], APPETITE_MULTIPLIER[p.appetite]);
  }

  /** A sale the schema accepts, with a whole price, gets a discounted price
      between 0 and its price whenever it has a rate. */
  lemma ValidSaleDiscountWithinPrice(id: string, now: string, p: SalePayload)
    requires SaleInputValid(p) && p.price == p.price.Floor as real
    ensures var s := NewSale(id, now, p);
      s.discountedPrice.Some? <==> p.discountRate.Some?
    ensures var s := NewSale(id, now, p);
      s.discountedPrice.Some? ==> 0.0 <= s.discountedPrice.value <= p.price
  {
    if p.discountRate.Some? {
      DiscountBounds(p.price.Floor, p.discountRate.value);
    }
  }

  /** With non-negative quantities given, the last one given for a key is
      non-negative whenever the fallback is. */
  lemma {:induction false} LastQuantityNonNegative(us: seq<QuantityUpdate>, k: string, otherwise: real)
    requires forall i :: 0 <= i < |us| ==> us[i].quantity >= 0.0
    requires otherwise >= 0.0
    ensures LastQuantity(us, k, otherwise) >= 0.0
  {
    if us != [] && us[|us| - 1].id != k {
      LastQuantityNonNegative(us[..|us| - 1], k, otherwise);
    }
  }

  /** A bulk update the schema accepts keeps a stock with no negative
      quantity free of negative quantities. */
  lemma BulkUpdateKeepsStockNonNegative(t: Table<Ingredient>, us: seq<QuantityUpdate>, clock: nat -> string)
    requires t.Valid() && KeyedBy(t, IngredientId)
    requires forall k :: k in t.entries ==> t.entries[k].quantity >= 0.0
    requires BulkQuantityValid(us)
    ensures var b := BulkTable(t, us, clock);
      forall k :: k in b.entries ==> b.entries[k].quantity >= 0.0
  {
    BulkChangesOnlyQuantities(t, us, clock);
    forall k | k in t.entries ensures LastQuantity(us, k, t.entries[k].quantity) >= 0.0 {
      LastQuantityNonNegative(us, k, t.entries[k].quantity);
    }
  }

  /** The sample ingredients and family members would pass their schemas. */
  lemma SampleDataPassesSchemas(ids: seq<string>, isoNow: string, dayAfter: nat -> string)
    requires |ids| >= 3
    requires forall n :: IsFullDate(dayAfter(n))
    ensures forall i :: i in SampleIngredients(ids, isoNow, dayAfter) ==>
      IngredientInputValid(IngredientPayload(i.name, i.quantity, i.unit, i.expiryDate, i.category, i.memo))
    ensures forall m :: m in SampleFamilies(ids, isoNow) ==>
      FamilyMemberInputValid(FamilyMemberPayload(m.name, m.lifeStage, m.appetite, m.notes))
  {
    SampleDataIsValid(ids, isoNow, dayAfter);
  }
}
