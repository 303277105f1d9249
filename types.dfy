/** The records of the application (types/index.ts), with the optional
    fields the code reads but the declarations leave out: a sale's store
    name, slug and URL, and a suggestion's recipe steps. An optional field
    is an `Option`; in a payload, `None` is a key that is absent. */
module Types {
  import opened Wrappers
  import opened Text

  /** The ten ingredient categories a form may choose from. */
  const INGREDIENT_CATEGORIES: seq<string> :=
    ["肉", "魚", "野菜", "果物", "乳製品", "卵", "穀物", "豆・乾物", "調味料", "その他"]

  datatype Ingredient = Ingredient(
    id: string,
    name: string,
    quantity: real,
    unit: Option<string>,
    expiryDate: Option<string>,
    category: Option<string>,
    memo: Option<string>,
    createdAt: string,
    updatedAt: string)

  datatype IngredientPayload = IngredientPayload(
    name: string,
    quantity: real,
    unit: Option<string>,
    expiryDate: Option<string>,
    category: Option<string>,
    memo: Option<string>)

  datatype Sale = Sale(
    id: string,
    name: string,
    price: real,
    discountRate: Option<real>,
    discountedPrice: Option<real>,
    startDate: Option<string>,
    endDate: Option<string>,
    category: Option<string>,
    memo: Option<string>,
    storeName: Option<string>,
    storeSlug: Option<string>,
    storeUrl: Option<string>,
    createdAt: string,
    updatedAt: string)

  datatype SalePayload = SalePayload(
    name: string,
    price: real,
    discountRate: Option<real>,
    discountedPrice: Option<real>,
    startDate: Option<string>,
    endDate: Option<string>,
    category: Option<string>,
    memo: Option<string>)

  datatype FamilyMember = FamilyMember(
    id: string,
    name: string,
    lifeStage: string,
    appetite: string,
    notes: Option<string>,
    createdAt: string,
    updatedAt: string)

  datatype FamilyMemberPayload = FamilyMemberPayload(
    name: string,
    lifeStage: string,
    appetite: string,
    notes: Option<string>)

  /** The part of a family member a suggestion request carries. */
  datatype FamilyRef = FamilyRef(id: string, name: string, lifeStage: string, appetite: string)

  datatype UsedIngredient = UsedIngredient(
    ingredientId: Option<string>,
    name: string,
    usedQuantity: real,
    unit: Option<string>)

  datatype MenuSuggestion = MenuSuggestion(
    id: string,
    menuTitle: string,
    description: string,
    nutritionComment: string,
    usedIngredients: seq<UsedIngredient>,
    recipeSteps: seq<string>)

  datatype MenuSuggestionRequest = MenuSuggestionRequest(
    ingredients: seq<Ingredient>,
    sales: seq<Sale>,
    familyMembers: seq<FamilyRef>)

  /** One item of a bulk quantity update. */
  datatype QuantityUpdate = QuantityUpdate(id: string, quantity: real)

  /** `s ?? ""` */
  function OrEmpty(s: Option<string>): string {
    s.GetOr("")
  }

  /** Truthiness of an optional string: present and not empty. */
  predicate Present(s: Option<string>) {
    s.Some? && s.value != ""
  }

  /** `s || undefined`: the empty string becomes absent. */
  function NonEmptyOrNone(s: string): (r: Option<string>)
    ensures Present(r) <==> s != ""
    ensures r.None? <==> s == ""
  {
    if s == "" then None else Some(s)
  }

  /** An optional text that is absent, or present, non-empty and trimmed. */
  predicate CleanOptional(s: Option<string>) {
    s.Some? ==> s.value != "" && Trim(s.value) == s.value
  }

  /** An optional text without an empty value survives `s ?? ""` and back. */
  lemma OrEmptyRoundTrip(s: Option<string>)
    requires s.Some? ==> s.value != ""
    ensures NonEmptyOrNone(OrEmpty(s)) == s
  {
  }

  /** A clean optional text survives `s ?? ""`, trimming, and back. */
  lemma CleanRoundTrip(s: Option<string>)
    requires CleanOptional(s)
    ensures NonEmptyOrNone(Trim(OrEmpty(s))) == s
  {
    if s.None? {
      TrimSpec("");
    }
  }
}
