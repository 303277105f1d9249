# meal-manager in Dafny

A model of the logic of meal-manager, a small household app. The app keeps
an inventory of the fridge, a list of supermarket sales and a set of family
profiles. It suggests up to three menus from these, and it books the
ingredients a chosen menu uses back out of the stock. The model covers:

- **The in-memory store** (`lib/data-store.ts`). It is the class
  `DataStore.MemoryStore` with three insertion-ordered maps (`Table`): the
  sample seed, the CRUD operations, the bulk quantity update, and the
  discounted price the store computes for a sale.
- **Menu suggestion** (`app/api/menu/suggest/route.ts`), in module
  `Suggest`. It covers:
  - which sales are active;
  - the ingredient classifiers;
  - how much of an ingredient a dish uses;
  - the household portion scale;
  - the nutrition comment and the recipe steps;
  - the four strategies;
  - `buildMenuSuggestions` itself, as an imperative method proved against
    a functional specification.
- **Portion factors and input schemas** (`lib/portion.ts`,
  `lib/validation.ts`), in modules `Portion` and `Validation`.
- **The screens' own logic**, in modules `Inventory`, `SelectionDetail`,
  `Planner`, `FridgeForm`, `SalesForm` and `Navigation`:
  - finding the stock item a used ingredient refers to, and what is left
    of it (the helpers both menu screens define);
  - the inventory draft and the bulk update each menu screen sends;
  - missing ingredients and the sale that best covers them;
  - store slugs;
  - family selection and the family form;
  - the fridge's expiring list and ingredient form;
  - the sale form's preview and checks;
  - which navigation link is active.

Supporting modules model the JavaScript built-ins the code relies on:

- `Text`: `trim`, ASCII `toLowerCase`, `includes`, `split` on one
  character, and string `<=` / `localeCompare` as code-point order (see
  "Left out" for UTF-16).
- `Numeric`: `Math.round`, `Math.ceil`, `toFixed(2)`, and `Number` of a
  form field.
- `Dates`: `YYYY-MM-DD` strings.
- `Sorting`: a stable insertion sort standing for `Array.prototype.sort`.
- `Seqs`: filter and find.

Numbers are mathematical reals, not IEEE doubles. The clock, `uuidv4`,
`crypto.randomUUID`, `new URL` and today's date are parameters.

## Model

| member | source | states |
|---|---|---|
| DataStore.CalcDiscountedPrice | lib/data-store.ts:37-44 | no rate gives no discounted price; otherwise the price is a whole number of at least 0 |
| DataStore.RoundedDiscount | lib/data-store.ts:42 | `Math.round(price * (1 - rate / 100))`, the step the store and the sale form's preview share; PreviewAgreesWithStore relies on it |
| DataStore.DiscountBounds | lib/data-store.ts:37-44 | for a whole price and a rate from 0 to 100, the discounted price lies between 0 and the price |
| DataStore.NoDiscountKeepsPrice | lib/data-store.ts:42-43 | a rate of 0 keeps a whole price |
| DataStore.FullDiscountIsFree | lib/data-store.ts:42-43 | a rate of 100 makes any price 0 |
| DataStore.DiscountClampsAtZero | lib/data-store.ts:43 | a rate above 100 on a positive price is clamped to 0 |
| DataStore.Table.Get | lib/data-store.ts:195 | `map.get(k) ?? null`: present exactly for a stored key, with its value |
| DataStore.Table.Set | lib/data-store.ts:220 | `map.set`: the entry is replaced; a new key is appended to the key order, an old key keeps its place |
| DataStore.Table.Delete | lib/data-store.ts:267 | `map.delete`: the key and its entry are removed, and the order of the rest is kept |
| DataStore.Table.Values | lib/data-store.ts:180 | `Array.from(map.values())`: one value per key, in key order |
| DataStore.ValuesAreStored | lib/data-store.ts:180 | the listed values are exactly the stored records |
| DataStore.SetValues | lib/data-store.ts:220 | setting a new key appends its value to the listing; setting an old key replaces its value in place |
| DataStore.DeleteEffect | lib/data-store.ts:267 | deleting an absent key changes nothing; otherwise only that key disappears |
| DataStore.PutEach | lib/data-store.ts:127-130 | the `forEach(set)` loop yields `PutAll`, and the table stays well formed and keyed by id |
| DataStore.PutAllKeys | lib/data-store.ts:127-130 | after putting the items, the keys are the old keys plus the items' ids |
| DataStore.PutAllFresh | lib/data-store.ts:127-130 | items with distinct fresh ids are listed after the old values, in their order |
| DataStore.Override | lib/data-store.ts:243-244 | the spread `{...existing, ...payload}`: a key the payload carries wins, otherwise the existing value stays |
| DataStore.NewIngredient | lib/data-store.ts:211-217 | a new ingredient: the fresh id, both stamps set to now, the payload's fields (CreateIngredient states its effect on the store) |
| DataStore.UpdatedIngredient | lib/data-store.ts:242-248 | keeps id and createdAt, stamps updatedAt, takes name and quantity, and overrides the optional fields only when given |
| DataStore.NewSale | lib/data-store.ts:348-357 | a new sale's discounted price is always the computed one |
| DataStore.UpdatedSale | lib/data-store.ts:380-390 | the rate is overridden only when given, but the discounted price is always recomputed from the payload; the store fields are kept |
| DataStore.UpdateWithoutRateDropsDiscount | lib/data-store.ts:380-390 | an update without a rate keeps the old rate yet removes the discounted price |
| DataStore.UpdateWithRateAgrees | lib/data-store.ts:380-390 | with a rate given, the discounted price agrees with the stored rate |
| DataStore.NewFamilyMember | lib/data-store.ts:456-462 | a new member: the fresh id, both stamps set to now, the payload's fields (CreateFamilyMember states its effect on the store) |
| DataStore.UpdatedFamilyMember | lib/data-store.ts:488-494 | keeps id and createdAt, takes name, life stage and appetite, and overrides notes only when given |
| DataStore.Prefix10 | lib/data-store.ts:54 | `slice(0, 10)` is the prefix of length at most ten |
| DataStore.SampleSalesPricesAgree | lib/data-store.ts:92-126 | the seeded discounted prices 224 and 108 are the ones `calcDiscountedPrice` gives |
| DataStore.SampleDataIsValid | lib/data-store.ts:56-159 | seeded categories, life stages and appetites are among the offered options |
| DataStore.BulkTable | lib/data-store.ts:283-308 | the table after the updates in order; each update naming a stored id sets its quantity and stamp (its properties are proved in BulkKeepsKeys, BulkChangesOnlyQuantities and BulkSkipsUnnamed) |
| DataStore.BulkResults | lib/data-store.ts:283-310 | the records pushed to `results`, in update order (proved in BulkResultsEffect) |
| DataStore.BulkKeepsKeys | lib/data-store.ts:280-311 | the bulk update adds and removes no key and keeps the listing order |
| DataStore.BulkChangesOnlyQuantities | lib/data-store.ts:289-293 | every record changes at most in quantity and updatedAt, and its quantity is the last one given for it |
| DataStore.BulkSkipsUnnamed | lib/data-store.ts:286-287 | a record that no update names is untouched |
| DataStore.BulkResultsEffect | lib/data-store.ts:283-310 | `results` holds, in update order, one record per update that names a stored id, carrying that update's quantity |
| DataStore.MemoryStore.constructor | lib/data-store.ts:31-35 | three empty maps |
| DataStore.MemoryStore.SeedMemoryData | lib/data-store.ts:46-163 | without the mock database, or with ingredients already stored, nothing changes; otherwise the samples are put in, each under its id |
| DataStore.MemoryStore.ListIngredients | lib/data-store.ts:178-181 | a permutation of the stored ingredients: dated ones in date order, undated ones last |
| DataStore.MemoryStore.GetIngredientById | lib/data-store.ts:193-196 | the record under the id, which carries that id, or none |
| DataStore.MemoryStore.CreateIngredient | lib/data-store.ts:208-222 | stores the new record under the fresh id and changes no other map |
| DataStore.MemoryStore.UpdateIngredient | lib/data-store.ts:234-253 | "Ingredient not found" for an unknown id, with nothing changed; otherwise the updated record replaces the old one |
| DataStore.MemoryStore.DeleteIngredient | lib/data-store.ts:265-269 | removes the key from the ingredient map only |
| DataStore.MemoryStore.BulkUpdateIngredientQuantities | lib/data-store.ts:280-311 | the loop leaves the map and `results` as `BulkTable` and `BulkResults` describe |
| DataStore.MemoryStore.ListSales | lib/data-store.ts:315-320 | a permutation of the stored sales, ordered by name |
| DataStore.MemoryStore.GetSaleById | lib/data-store.ts:331-334 | the sale under the id, or none |
| DataStore.MemoryStore.CreateSale | lib/data-store.ts:346-362 | stores the new sale with its computed discounted price |
| DataStore.MemoryStore.UpdateSale | lib/data-store.ts:374-395 | "Sale not found" for an unknown id, with nothing changed; otherwise the updated sale replaces the old one |
| DataStore.MemoryStore.DeleteSale | lib/data-store.ts:407-411 | removes the key from the sales map only |
| DataStore.MemoryStore.ListFamilyMembers | lib/data-store.ts:424-427 | the stored members in insertion order: the i-th is the record stored under the i-th key |
| DataStore.MemoryStore.GetFamilyMemberById | lib/data-store.ts:438-441 | the member under the id, or none |
| DataStore.MemoryStore.CreateFamilyMember | lib/data-store.ts:453-467 | stores the new member under the fresh id |
| DataStore.MemoryStore.UpdateFamilyMember | lib/data-store.ts:479-499 | "Family member not found" for an unknown id, with nothing changed; otherwise the updated member replaces the old one |
| DataStore.MemoryStore.DeleteFamilyMember | lib/data-store.ts:511-515 | removes the key from the family map only |
| DataStore.SeededIngredientsListed | lib/data-store.ts:127-129 | after seeding, the ingredients are listed in sample order before sorting |
| DataStore.SeededSalesListed | lib/data-store.ts:130 | after seeding, the sales are listed in sample order |
| DataStore.SeededFamiliesListed | lib/data-store.ts:160-162 | after seeding, the family members are listed in sample order |
| Sorting.ExpiryLeIsTotalPreorder | lib/data-store.ts:168-173 | the expiry comparator is total and transitive, with undated items last |
| Sorting.SortByExpiry | lib/data-store.ts:167-174 | `sortIngredientsByExpiry`: the list sorted by the expiry comparator (proved a sorted permutation in SortByExpiryCorrect) |
| Sorting.SortByExpiryCorrect | lib/data-store.ts:167-174 | the sort is a permutation: dated items come in date order, and no dated item follows an undated one |
| Sorting.SortByExpiryKeepsMembers | app/api/menu/suggest/route.ts:145-154 | sorting keeps the members and every filter's count |
| Sorting.NameLeIsTotalPreorder | lib/data-store.ts:317-319 | the name comparator is a total preorder |
| Sorting.SortByName | lib/data-store.ts:317-319 | the sale list sorted by name (proved a sorted permutation in SortByNameCorrect) |
| Sorting.SortByNameCorrect | lib/data-store.ts:317-319 | the sort is a permutation ordered by name |
| Text.Contains | app/api/menu/suggest/route.ts:57 | `s.includes(sub)`: `sub` occurs at some position of `s`, and the empty string occurs everywhere |
| Text.Trim | components/fridge-manager.tsx:88 | `s.trim()`: white space removed at both ends (proved in TrimSpec) |
| Text.LexLe | lib/data-store.ts:172 | string `<=` and `localeCompare`: lexicographic order, a proper prefix first (proved total, transitive and antisymmetric below) |
| Text.LexLeTotal | lib/data-store.ts:172 | string order is total |
| Text.LexLeTransitive | lib/data-store.ts:172 | string order is transitive |
| Text.LexLeAntisymmetric | lib/data-store.ts:172 | string order is antisymmetric |
| Text.TrimSpec | components/fridge-manager.tsx:88 | `trim()` leaves no leading or trailing white space and leaves a trimmed string unchanged |
| Text.ToLower | components/menu-selection-detail.tsx:45 | `toLowerCase()` maps each character and keeps the length |
| Text.Split | components/menu-selection-detail.tsx:80 | `split("/")` gives at least one piece, none containing the separator |
| Text.JoinSplit | components/menu-selection-detail.tsx:80 | joining the pieces with the separator gives the string back |
| Text.ReplaceRunsNoRuns | components/menu-selection-detail.tsx:71-72 | after `replace(/x+/g, c)` no two adjacent characters are both in the class |
| Text.ReplaceRunsIdentity | components/menu-selection-detail.tsx:71-72 | a string without such runs is unchanged |
| Numeric.JsRound | lib/data-store.ts:42 | `Math.round` lies within one half of its argument |
| Numeric.JsRoundWhole | lib/data-store.ts:42 | `Math.round` keeps whole numbers |
| Numeric.CeilHalf | app/api/menu/suggest/route.ts:86 | `Math.ceil(x * 2) / 2` is a multiple of one half, at least x and less than x + 1/2 |
| Numeric.Round2 | app/api/menu/suggest/route.ts:96 | `Number(x.toFixed(2))`: the nearest multiple of 0.01, halves away from zero (proved in Round2Close, Round2Monotone and Round2Exact) |
| Numeric.Round2Close | app/api/menu/suggest/route.ts:96 | `Number(x.toFixed(2))` is within 0.005 of x and has two decimals |
| Numeric.Round2Monotone | app/api/menu/suggest/route.ts:96 | rounding to two decimals is monotone |
| Numeric.Round2Exact | app/api/menu/suggest/route.ts:96 | a number with two decimals is unchanged |
| Numeric.ToNumber | components/sales-manager.tsx:91 | `Number(field)`: text the code put there reads back as its number; typed text is parsed |
| Numeric.ParseNumber | components/sales-manager.tsx:91-93 | `Number(s)`: blank is 0, a signed decimal literal is its value, anything else is NaN |
| Numeric.BlankReadsAsZero | components/sales-manager.tsx:91 | `Number` of a blank field is 0 |
| Dates.FullDateOrderIsChronological | app/api/menu/suggest/route.ts:48-49 | for `YYYY-MM-DD` strings, string order is calendar order |
| Suggest.IsSaleActive | app/api/menu/suggest/route.ts:47-51 | `isSaleActive`: no missing-or-empty bound excludes today (its calendar meaning is proved in SaleActiveOnCalendar) |
| Suggest.ActiveSales | app/api/menu/suggest/route.ts:159-161 | the request's sales active today, in order |
| Suggest.SaleActiveOnCalendar | app/api/menu/suggest/route.ts:47-51 | with full dates, a sale is active exactly when today lies between its start and end, and a missing bound is open |
| Suggest.IsProtein | app/api/menu/suggest/route.ts:53-60 | a protein label in the category or a protein word in the lower-cased name |
| Suggest.IsVegetable | app/api/menu/suggest/route.ts:62-68 | a vegetable label in the category or a vegetable word in the lower-cased name |
| Suggest.IsStaple | app/api/menu/suggest/route.ts:70-76 | a staple label in the category or a staple word in the lower-cased name |
| Suggest.IsDairy | app/api/menu/suggest/route.ts:155-157 | the category contains 乳; the name plays no part |
| Suggest.ClassifiersOverlap | app/api/menu/suggest/route.ts:53-76 | the classifiers are not exclusive: one ingredient can be protein, vegetable and dairy at once |
| Suggest.Allocated | app/api/menu/suggest/route.ts:84-92 | the amount before rounding: the half step capped at 1.5 times the stock, raised to the whole stock when less than 0.25 would be left (proved in AllocationBounds and AllocationLeavesNoScrap) |
| Suggest.UsedFor | app/api/menu/suggest/route.ts:93-98 | what `makeUsedIngredient` returns (MakeUsedIngredient computes it step by step) |
| Suggest.MakeUsedIngredient | app/api/menu/suggest/route.ts:78-99 | refers to the source by id, with its unit and the overriding name; for stock of at least 0 the amount is between 0 and the rounded 1.5 times the stock |
| Suggest.AllocationBounds | app/api/menu/suggest/route.ts:84-96 | the amount is at least 0 and at most the cap; no stock gives 0 |
| Suggest.AllocationLeavesNoScrap | app/api/menu/suggest/route.ts:89-92 | before rounding, the amount uses the stock up or leaves at least 0.25, and is at least the smaller of one half and the cap |
| Suggest.AllocationAtLeastHalfUnit | app/api/menu/suggest/route.ts:86-92 | with half a unit or more in stock, at least half a unit is used |
| Suggest.AllocationCanTakeWholeStock | app/api/menu/suggest/route.ts:90-92 | 0.6 in stock at ratio 0.4 uses the whole 0.6 |
| Suggest.FamilyInOptions | app/api/menu/suggest/route.ts:34-39 | the family members the request schema admits: every stage and appetite is an offered option |
| Suggest.MemberFactor | lib/portion.ts:37-41 | an admitted member's portion factor is a number, never NaN, between 0.34 and 1.32 |
| Suggest.PortionTotal | app/api/menu/suggest/route.ts:135-140 | the sum of the members' factors (bounded in PortionTotalRange) |
| Suggest.PortionScale | app/api/menu/suggest/route.ts:135-141 | `max(0.6, round2(total / 2))`, with a total of 2 for an empty family (bounded in PortionScaleDefaults and PortionScaleRange) |
| Suggest.PortionScaleDefaults | app/api/menu/suggest/route.ts:135-141 | the scale is at least 0.6, and 1 for no members |
| Suggest.PortionTotalRange | app/api/menu/suggest/route.ts:135-140 | the total lies between 0.34 and 1.32 per member |
| Suggest.PortionScaleRange | app/api/menu/suggest/route.ts:141 | the scale's bounds in terms of the member count |
| Suggest.NutritionComment | app/api/menu/suggest/route.ts:118-131 | `buildNutritionComment`: the first of the four comments whose condition holds (proved in NutritionCommentCases) |
| Suggest.NutritionCommentCases | app/api/menu/suggest/route.ts:118-131 | each of the four comments is chosen exactly under its condition |
| Suggest.Names | app/api/menu/suggest/route.ts:106 | one name per used ingredient |
| Suggest.SeasonStep | app/api/menu/suggest/route.ts:110 | the first step starts with the main ingredient |
| Suggest.RestockStep | app/api/menu/suggest/route.ts:114 | the last step starts with the menu title |
| Suggest.RecipeSteps | app/api/menu/suggest/route.ts:101-116 | five steps: the first names the main ingredient, the last the menu |
| Suggest.FiredStrategies | app/api/menu/suggest/route.ts:165-252 | at most three strategies, each of whose conditions holds |
| Suggest.SaleMatch | app/api/menu/suggest/route.ts:190-198 | the sale dish's ingredient is one of the stock |
| Suggest.AllocateAll | app/api/menu/suggest/route.ts:226-228 | one amount per source |
| Suggest.MenuOf | app/api/menu/suggest/route.ts:165-250 | a dish exists for a strategy exactly when that strategy fires |
| Suggest.MenuHasFired | app/api/menu/suggest/route.ts:165-250 | a menu built on the firing conditions has exactly the fired dishes |
| Suggest.Render | app/api/menu/suggest/route.ts:177-249 | one suggestion per fired strategy |
| Suggest.RenderAppend | app/api/menu/suggest/route.ts:177-249 | pushing a dish appends one suggestion with the next id |
| Suggest.FiredStrategiesShape | app/api/menu/suggest/route.ts:165-252 | each strategy appears exactly when it fires, in plate, sale, soup order; the quick menu appears only alone; the list is empty only without stock |
| Suggest.Strategies | app/api/menu/suggest/route.ts:145-161 | the strategies that fire on the request's sorted stock and today's sales (stated on the request itself in StrategiesFire) |
| Suggest.MenuSuggestions | app/api/menu/suggest/route.ts:133-253 | one suggestion per fired strategy, the i-th with the i-th id, sized by the household scale (proved in MenuSuggestionsShape and SuggestionsDrawOnStock) |
| Suggest.MenuSuggestionsShape | app/api/menu/suggest/route.ts:133-253 | at most three suggestions, and at least one exactly when the request has an ingredient |
| Suggest.StrategiesFire | app/api/menu/suggest/route.ts:152-250 | when each strategy fires, stated on the request's own ingredients and sales |
| Suggest.UsedForDrawsOn | app/api/menu/suggest/route.ts:93-97 | a used amount refers to its source by id and carries its unit |
| Suggest.AllDrawOnSameMembers | app/api/menu/suggest/route.ts:145 | drawing on a list depends only on its members |
| Suggest.UsedForDrawsOnSome | app/api/menu/suggest/route.ts:93-97 | an amount drawn from a stock item draws on the stock |
| Suggest.PlateDrawsOnStock | app/api/menu/suggest/route.ts:166-172 | every plate amount draws on the stock |
| Suggest.SoupDrawsOnStock | app/api/menu/suggest/route.ts:216-228 | every soup amount draws on the stock |
| Suggest.DishDrawsOnStock | app/api/menu/suggest/route.ts:165-250 | every amount of a fired dish draws on the stock |
| Suggest.RenderDrawsOn | app/api/menu/suggest/route.ts:177-249 | rendering keeps that property |
| Suggest.SuggestionsDrawOnStock | app/api/menu/suggest/route.ts:133-253 | every amount of every suggestion refers to an ingredient of the request |
| Suggest.PlateIsBalanced | app/api/menu/suggest/route.ts:173-182 | the plate's comment is always the balanced one |
| Suggest.BuildPlate | app/api/menu/suggest/route.ts:165-186 | builds exactly the plate suggestion of the specification |
| Suggest.BuildSaleDish | app/api/menu/suggest/route.ts:188-213 | builds exactly the sale-dish suggestion |
| Suggest.BuildSoup | app/api/menu/suggest/route.ts:215-236 | builds exactly the soup suggestion |
| Suggest.BuildQuickMenu | app/api/menu/suggest/route.ts:238-250 | builds exactly the quick-menu suggestion |
| Suggest.PlateBlock | app/api/menu/suggest/route.ts:165-186 | the plate block pushes the plate exactly when it fires |
| Suggest.SaleBlock | app/api/menu/suggest/route.ts:188-213 | the sale block pushes the sale dish exactly when it fires |
| Suggest.SoupBlock | app/api/menu/suggest/route.ts:215-236 | the soup block pushes the soup exactly when it fires |
| Suggest.QuickBlock | app/api/menu/suggest/route.ts:238-250 | the quick menu is pushed only when nothing else was |
| Suggest.RunStrategies | app/api/menu/suggest/route.ts:163-252 | the four blocks render the fired strategies of the menu |
| Suggest.BuildMenuSuggestions | app/api/menu/suggest/route.ts:133-253 | the result is the specified list: at most three, and non-empty exactly when there are ingredients |
| Portion.OptionsHaveEntries | lib/portion.ts:3-35 | every option has a table entry and nothing else does: 10 life stages, 3 appetites |
| Portion.BaseFactor | lib/portion.ts:38 | `LIFE_STAGE_PORTION[lifeStage] ?? 1`: the table's number, NaN for a name inherited from `Object.prototype`, 1 for any other unknown name (its properties are proved in BaseFactorRange) |
| Portion.AppetiteMultiplier | lib/portion.ts:39 | `APPETITE_MULTIPLIER[appetite] ?? 1`, in the same terms (its properties are proved in AppetiteMultiplierRange) |
| Portion.GetPortionFactor | lib/portion.ts:37-41 | the product rounded to two decimals, NaN when either factor is (its properties are proved in PortionFactorRange) |
| Portion.OptionsAreOwnNames | lib/portion.ts:3-16 | no offered life stage or appetite is an inherited property name |
| Portion.BaseFactorRange | lib/portion.ts:18-29 | NaN exactly for an inherited name such as "toString"; otherwise between 0.4 and 1.1 with two decimals, and 1 for any other unknown stage |
| Portion.AppetiteMultiplierRange | lib/portion.ts:31-35 | NaN exactly for an inherited name such as "constructor"; otherwise 0.85, 1 or 1.2, and 1 for any other unknown appetite |
| Portion.PortionFactorRange | lib/portion.ts:37-41 | the factor is NaN exactly when the stage or the appetite is an inherited name; otherwise it lies between 0.34 and 1.32 |
| Portion.PortionFactorExtremes | lib/portion.ts:37-41 | the bounds are reached: infant and small eater, high-schooler and big eater |
| Portion.NormalAppetiteKeepsBase | lib/portion.ts:33-40 | a normal appetite keeps the base factor, NaN included |
| Portion.AppetiteMonotone | lib/portion.ts:31-40 | for a stage whose base factor is a number (any name that is not inherited), all three factors are numbers and a bigger appetite never gives a smaller one |
| Validation.IngredientInputValid | lib/validation.ts:5-15 | `ingredientInputSchema`: a non-empty name, a quantity of at least 0, a full-shape date and an offered category when given |
| Validation.SaleInputValid | lib/validation.ts:17-31 | `saleInputSchema`: a non-empty name, a price of at least 0, a rate from 0 to 100 and full-shape dates when given |
| Validation.FamilyMemberInputValid | lib/validation.ts:33-38 | `familyMemberSchema`: a non-empty name and an offered stage and appetite |
| Validation.BulkQuantityValid | lib/validation.ts:40-49 | `bulkQuantitySchema`: at least one item, each with a non-empty id and a quantity of at least 0 |
| Validation.DatePatternIsShapeOnly | lib/validation.ts:9-12 | the date pattern checks shape only: "2024-13-45" passes, other shapes fail |
| Validation.IngredientCategoryIsClosed | lib/validation.ts:13 | a valid category is one of the fixed list |
| Validation.FamilyMemberFactorFromTables | lib/validation.ts:33-38 | a valid member's factor is a number taken from both tables, never NaN or the fallback, and lies between 0.34 and 1.32 |
| Validation.ValidSaleDiscountWithinPrice | lib/validation.ts:19-20 | a valid sale with a whole price gets a discounted price between 0 and the price |
| Validation.LastQuantityNonNegative | lib/validation.ts:45 | with quantities of at least 0, the last quantity given is at least 0 |
| Validation.BulkUpdateKeepsStockNonNegative | lib/validation.ts:40-49 | a valid bulk update keeps every stored quantity at least 0 |
| Validation.SampleDataPassesSchemas | lib/validation.ts:5-38 | the seeded records pass the schemas |
| Inventory.RefersTo | components/menu-selection-detail.tsx:18-21 | the stock item a used ingredient refers to: by id when the id is truthy, otherwise by name |
| Inventory.FindIngredient | components/menu-selection-detail.tsx:14-22 | a found item is in the list and referred to by id, or by name when there is no truthy id; none exactly when no item qualifies |
| Inventory.FindIngredientIsFirst | components/menu-selection-detail.tsx:19-21 | the first qualifying item is found |
| Inventory.IdLookupHasNoNameFallback | components/menu-selection-detail.tsx:18-20 | an unmatched id finds nothing, even when an item has the name |
| Inventory.NameLookupWithoutId | components/menu-selection-detail.tsx:21 | without a truthy id, the lookup is by name |
| Inventory.NextQuantity | components/menu-selection-detail.tsx:24-32 | without stock, the amount used; otherwise at least 0 and within 0.005 of the stock left |
| Inventory.DraftValue | components/menu-selection-detail.tsx:147 | what a draft first shows: the text of the next quantity of the item found |
| Inventory.NextQuantityExact | components/menu-selection-detail.tsx:29-31 | using all the stock leaves exactly 0; amounts with two decimals leave the exact rest |
| SelectionDetail.NameMatches | components/menu-selection-detail.tsx:48-51 | the lower-cased names contain each other, in either direction |
| SelectionDetail.CategoryMatches | components/menu-selection-detail.tsx:55-59 | the sale has a category whose lower-cased text contains the stock's |
| SelectionDetail.PickBestSale | components/menu-selection-detail.tsx:40-64 | a name match wins; otherwise a category match, only when the stock has a category; none exactly when neither exists |
| SelectionDetail.PickBestSalePrefersFirstNameMatch | components/menu-selection-detail.tsx:48-52 | the first name match is the one picked |
| SelectionDetail.PickBestSaleNeedsStockCategory | components/menu-selection-detail.tsx:54-61 | without a stock category, only name matches count |
| SelectionDetail.CaseInsensitiveNameMatch | components/menu-selection-detail.tsx:45-50 | names equal up to case match |
| SelectionDetail.ToSlug | components/menu-selection-detail.tsx:66-73 | the result has only `a-z`, digits and hyphens, no space, and no two hyphens in a row |
| SelectionDetail.SlugIsFixed | components/menu-selection-detail.tsx:66-73 | a slug is its own slug |
| SelectionDetail.ToSlugIdempotent | components/menu-selection-detail.tsx:66-73 | slugging twice is slugging once |
| SelectionDetail.PathSegments | components/menu-selection-detail.tsx:80 | the path's segments are non-empty and contain no `/` |
| SelectionDetail.UrlSegments | components/menu-selection-detail.tsx:77-86 | the non-empty segments of the store URL's path; none without a URL or when parsing throws |
| SelectionDetail.DeriveStoreSlug | components/menu-selection-detail.tsx:75-90 | precedence: the slug, then the URL's last segment, then the slug of the name; none exactly when all three are missing |
| SelectionDetail.NameWithoutAsciiGivesEmptySlug | components/menu-selection-detail.tsx:88 | a store name without ASCII letters gives the empty slug, not none |
| SelectionDetail.DraftKey | components/menu-selection-detail.tsx:144-146 | `used.ingredientId ?? match?.id`: an empty id gives no key, and without an id a key exists exactly when a match has a non-empty id |
| SelectionDetail.BuildDraft | components/menu-selection-detail.tsx:140-150 | the loop builds the draft the specification describes |
| SelectionDetail.DraftOf | components/menu-selection-detail.tsx:140-150 | the draft after the effect's loop: each keyed item sets its key, a later item overwriting an earlier (proved in DraftKeys and DraftValueOfOnlyItem) |
| SelectionDetail.DraftKeys | components/menu-selection-detail.tsx:140-150 | a key is in the draft exactly when some used ingredient yields it |
| SelectionDetail.DraftValueOfOnlyItem | components/menu-selection-detail.tsx:147 | a key only one used ingredient yields holds that one's next quantity |
| SelectionDetail.Shortage | components/menu-selection-detail.tsx:162-168 | at least 0; positive only when more is used than held; 0 when the stock suffices |
| SelectionDetail.MissingIngredients | components/menu-selection-detail.tsx:157-183 | each entry is a used item with a positive shortage, its best sale and its stock category |
| SelectionDetail.MissingFor | components/menu-selection-detail.tsx:161-176 | one row of the missing list: the item, its shortage, its best sale and the stock category |
| SelectionDetail.MissingListsExactlyTheShort | components/menu-selection-detail.tsx:157-183 | an item is listed exactly when its shortage is positive, so an item the stock covers is never listed |
| SelectionDetail.DetailUpdate | components/menu-selection-detail.tsx:188-196 | the update uses the draft key, the draft's number, or the next quantity when the draft lacks the key, and only quantities of at least 0 |
| SelectionDetail.DetailUpdates | components/menu-selection-detail.tsx:187-198 | every update has a non-empty id and a quantity of at least 0 |
| SelectionDetail.DetailUpdatesAreValid | lib/validation.ts:40-49 | a non-empty update list passes the bulk schema |
| SelectionDetail.UneditedDraftSendsNextQuantity | components/menu-selection-detail.tsx:185-198 | an unedited draft sends the next quantity it showed |
| Planner.AllIds | components/menu-planner.tsx:79 | one id per member, in order |
| Planner.SelectedFamilies | components/menu-planner.tsx:94-97 | the selected members are members whose id is selected |
| Planner.SelectedFamiliesComplete | components/menu-planner.tsx:94-97 | every member whose id is selected is included |
| Planner.InitialSelectionTakesEveryone | components/menu-planner.tsx:79 | selecting every id selects every member |
| Planner.ToggleSelection | components/menu-planner.tsx:178-182 | the toggled id is selected exactly when it was not |
| Planner.ToggleKeepsOthers | components/menu-planner.tsx:178-182 | other ids keep their order and membership |
| Planner.ToggleTwice | components/menu-planner.tsx:178-182 | toggling twice restores every membership |
| Planner.RemoveFromSelection | components/menu-planner.tsx:170 | the deleted id is no longer selected |
| Planner.RemoveKeepsOthers | components/menu-planner.tsx:170 | other ids stay selected exactly when they were |
| Planner.SelectionAfterSave | components/menu-planner.tsx:151-153 | adding a member selects everyone; editing keeps the selection |
| Planner.SuggestRequest | components/menu-planner.tsx:184-201 | no request without a selected member; otherwise the stock, the sales and one reference per selected member |
| Planner.NoRequestWithoutSelection | components/menu-planner.tsx:185-188 | an empty selection sends nothing |
| Planner.StartFamilyEdit | components/menu-planner.tsx:111-119 | the notes field is empty exactly when the notes are absent or empty |
| Planner.SaveFamilyPayload | components/menu-planner.tsx:126-140 | name and life stage are required, in that order, with their messages; the payload has the trimmed name and notes |
| Planner.FamilyEditRoundTrip | components/menu-planner.tsx:111-140 | editing a clean member and saving it unchanged sends its own fields back |
| Planner.SavedPayloadSchema | lib/validation.ts:33-38 | a saved payload with an offered stage and appetite passes the family schema |
| Planner.StartInventoryAdjustments | components/menu-planner.tsx:221-230 | the loop builds the draft the specification describes |
| Planner.PlannerDraftOf | components/menu-planner.tsx:221-230 | the draft after the loop: only items with a truthy id set a key (proved in PlannerDraftKeys and PlannerDraftValueOfOnlyItem) |
| Planner.PlannerDraftKeys | components/menu-planner.tsx:224-228 | a key is in the draft exactly when some used ingredient has that truthy id |
| Planner.PlannerUpdate | components/menu-planner.tsx:238-244 | only truthy ids; the draft's number, or 0 when the draft lacks the key; only quantities of at least 0 |
| Planner.PlannerUpdates | components/menu-planner.tsx:236-244 | every update has a non-empty id and a quantity of at least 0 |
| Planner.PlannerUpdatesAreValid | lib/validation.ts:40-49 | a non-empty update list passes the bulk schema |
| Planner.PlannerUpdatesNameMenuItems | components/menu-planner.tsx:238-243 | every update's id is the id of some used ingredient |
| Planner.PlannerDraftValueOfOnlyItem | components/menu-planner.tsx:227 | an id only one used ingredient carries holds that one's next quantity |
| Planner.UneditedPlannerDraftSendsNextQuantity | components/menu-planner.tsx:221-244 | an unedited draft sends the next quantity it showed |
| FridgeForm.IsExpiringSoon | components/fridge-manager.tsx:41 | a truthy expiry date on or before today |
| FridgeForm.ExpiringSoon | components/fridge-manager.tsx:38-43 | the listed items come from the list and expire by today |
| FridgeForm.ExpiringSoonExactly | components/fridge-manager.tsx:38-43 | an item is listed exactly when it has an expiry on or before today, which is calendar order for full dates |
| FridgeForm.CardHighlighted | components/fridge-manager.tsx:296-300 | the card's own expiry test, written a second time in the markup |
| FridgeForm.HighlightMatchesExpiringList | components/fridge-manager.tsx:296-300 | a card is highlighted exactly when its item is in the expiring list |
| FridgeForm.StartEdit | components/fridge-manager.tsx:66-76 | the quantity reads back as the number; absent fields become empty |
| FridgeForm.SubmitIngredient | components/fridge-manager.tsx:83-102 | name and quantity checks, in order, with their messages; the payload has the trimmed fields, and the expiry date is not trimmed |
| FridgeForm.FridgeEditRoundTrip | components/fridge-manager.tsx:66-102 | editing a clean ingredient and submitting it unchanged sends its own fields back |
| FridgeForm.EmptyQuantitySubmitsZero | components/fridge-manager.tsx:89-100 | an empty quantity field submits 0 |
| FridgeForm.SubmittedIngredientSchema | lib/validation.ts:5-15 | a submitted payload passes the schema exactly when its date has the full shape and its category is offered |
| SalesForm.StartEdit | components/sales-manager.tsx:58-69 | the price reads back; the rate field is filled exactly when the rate is present and not 0 |
| SalesForm.Preview | components/sales-manager.tsx:76-82 | empty exactly when a field is not a number or the rate is at most 0; otherwise a whole number of at least 0 |
| SalesForm.PreviewAgreesWithStore | components/sales-manager.tsx:80 | with a positive rate, the preview is the discounted price the store computes |
| SalesForm.PreviewOfStoredSale | components/sales-manager.tsx:58-82 | editing a sale with a positive rate previews its stored discounted price; other rates preview nothing |
| SalesForm.NaNRatePassesCheckAsWritten | components/sales-manager.tsx:106-109 | a rate field holding "abc" reads as NaN and passes the check as written; the intended check rejects it |
| SalesForm.RateChecksAgreeOnNumbers | components/sales-manager.tsx:106-109 | the two checks differ only on NaN |
| SalesForm.RateOf | components/sales-manager.tsx:92-94 | a rate is sent exactly when the field is not empty |
| SalesForm.SubmitSale | components/sales-manager.tsx:84-111 | name, price and rate checks, in order, with their messages; the payload's fields, with a sent rate from 0 to 100 |
| SalesForm.SubmittedSaleSchema | lib/validation.ts:17-31 | a submitted payload passes the schema exactly when its dates have the full shape |
| SalesForm.EmptyPriceSubmitsZero | components/sales-manager.tsx:91-103 | an empty price field submits a price of 0 |
| SalesForm.SaleEditRoundTrip | components/sales-manager.tsx:58-111 | editing a clean sale and submitting it unchanged sends its fields back, except that a rate of 0 is dropped |
| SalesForm.ZeroRateLosesDiscountedPrice | components/sales-manager.tsx:63 | re-saving a sale with a rate of 0 keeps the rate but loses the discounted price |
| Navigation.IsActive | components/navigation.tsx:27-29 | the exact pathname, or a prefix for any link but "/fridge" |
| Navigation.ActiveLinks | components/navigation.tsx:7-29 | at most one link is active, and it is the active one of the table |
| Navigation.ExactMatchIsActive | components/navigation.tsx:28 | a pathname equal to a link's href activates it |
| Navigation.FridgeNeedsExactMatch | components/navigation.tsx:29 | "/fridge" is active only on an exact match |
| Navigation.PrefixLinksMatchByPrefix | components/navigation.tsx:29 | "/sales" and "/menu" are active exactly on pathnames they prefix |
| Navigation.PrefixExamples | components/navigation.tsx:27-29 | "/menu/selection" activates the menu link, "/fridge/x" does not activate the fridge link, and "/salesx" activates the sales link |
| Navigation.NoPathnameNoActive | components/navigation.tsx:28-29 | without a pathname no link is active |
| Navigation.AtMostOneActive | components/navigation.tsx:7-11 | for any pathname, at most one of the three links is active |

## Left out

- DynamoDB: the `useMockDb === false` branches of every store function (`lib/dynamo.ts` is not part of this model). The model covers the in-memory store only.
- HTTP route handlers, zod error reporting and JSON (de)serialisation are left out. So is the request schema's `.default([])`.
- A NaN rate in the sale form's payload is written as `null` by the client's `JSON.stringify` (components/sales-manager.tsx:115,120). The server's `saleInputSchema` (lib/validation.ts:20) then rejects `null`, answers 400 and stores nothing. The request and the server's answer are not modelled.
- `uuidv4`, `crypto.randomUUID`, `new Date()` and `toISOString()` are parameters: `ids`, `now`, `clock`, `today`, `dayAfter`.
- `new URL(...)` is the parameter `pathOf`, returning none when parsing throws.
- Floating point: numbers are exact reals. `Math.round` is `floor(x + 1/2)`. `toFixed(2)` rounds the exact decimal half away from zero, so IEEE representation effects are not modelled.
- `Number(text)` of a typed field covers blanks, signs, digits and one decimal point. Exponents, hexadecimal, `Infinity` and the like read as NaN here.
- `toLowerCase` maps ASCII letters only. The Kelvin sign, `İ` and other non-ASCII case mappings are not modelled.
- `localeCompare` is code-point order, not locale collation.
- JavaScript's string `<=` compares UTF-16 code units; `Text.LexLe` compares code points. The two orders differ only for characters outside the Basic Multilingual Plane, and UTF-16 code units are not modelled.
- The request schema of app/api/menu/suggest/route.ts:12-45 is not modelled as a parser. `Suggest.FamilyInOptions` states what its `z.enum` checks (route.ts:37-38) guarantee, and the portion scale and the suggestion functions require it. So the NaN factor of an inherited name never reaches the scale there.
- `Array.prototype.sort` is a stable insertion sort. Only its result matters here, and for a valid comparator that result is the same.
- React state, effects, `sessionStorage`, `window.confirm` and the rendered markup (other than the expiry highlight and the active link) are left out.
- The selection summary string is left out.
- The family form's `appetite ?? "普通"` is a no-op, because the field is a string and never undefined. It is not modelled.
- `isSaleActive` in components/menu-selection-detail.tsx:34-38 is the same predicate as in the route, so `Suggest.IsSaleActive` stands for both.
- SalesForm.SubmitSale: uses the intended rate check rather than the one as written (see Findings).

## Findings

| source | as written | input that shows it | evidently intended | confidence | as-written member | corrected member |
|---|---|---|---|---|---|---|
| components/sales-manager.tsx:106-109 | `rate !== undefined && (rate < 0 \|\| rate > 100)` does not reject a rate that is not a number, because both comparisons are false for NaN | `formState.discountRate` holding "abc". The form cannot produce it: the field is `type="number"` (components/sales-manager.tsx:191), and a browser turns text that is not a number into "". A NaN that did reach the payload would be sent as `null` and rejected by lib/validation.ts:20 | a given rate must be a number from 0 to 100 | not executed | SalesForm.NaNRatePassesCheckAsWritten | SalesForm.SubmitSale |
