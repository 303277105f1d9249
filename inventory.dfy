/** The two stock helpers the menu planner and the selection detail both
    define, word for word (`findIngredient`, `nextQuantity`): which stock
    item a used ingredient refers to, and what is left of it after cooking. */
module Inventory {
  import opened Wrappers
  import opened Numeric
  import opened Seqs
  import opened Types

  /** The stock item `item` is the one `used` refers to: the one with its
      id when the id is truthy (present and not empty), otherwise one with
      its name. */
  predicate RefersTo(used: UsedIngredient, item: Ingredient) {
    if Present(used.ingredientId) then item.id == used.ingredientId.value else item.name == used.name
  }

  /** `findIngredient`: the first stock item the used ingredient refers to. */
  function FindIngredient(list: seq<Ingredient>, used: UsedIngredient): (r: Option<Ingredient>)
    ensures r.Some? ==> r.value in list && RefersTo(used, r.value)
    ensures r.None? <==> forall i :: 0 <= i < |list| ==> !RefersTo(used, list[i])
  {
    Find(list, (item: Ingredient) => RefersTo(used, item))
  }

  /** The first match wins: every item before it refers to something else. */
  lemma {:induction false} FindIngredientIsFirst(list: seq<Ingredient>, used: UsedIngredient)
    requires FindIngredient(list, used).Some?
    ensures exists i ::
      && 0 <= i < |list| && list[i] == FindIngredient(list, used).value
      && forall j :: 0 <= j < i ==> !RefersTo(used, list[j])
  {
    if !RefersTo(used, list[0]) {
      FindIngredientIsFirst(list[1..], used);
      var i :| 0 <= i < |list[1..]| && list[1..][i] == FindIngredient(list, used).value
        && forall j :: 0 <= j < i ==> !RefersTo(used, list[1..][j]);
      assert list[i + 1] == FindIngredient(list, used).value;
      forall j | 0 <= j < i + 1 ensures !RefersTo(used, list[j]) {
        if j > 0 {
          assert list[j] == list[1..][j - 1];
        }
      }
    }
  }

  /** An id that matches no stock item finds nothing, even when an item has
      the used ingredient's name: there is no fallback to the name. */
  lemma IdLookupHasNoNameFallback(list: seq<Ingredient>, used: UsedIngredient)
    requires Present(used.ingredientId)
    requires forall i :: 0 <= i < |list| ==> list[i].id != used.ingredientId.value
    ensures FindIngredient(list, used).None?
  {
  }

  /** Without a truthy id, the lookup is by name, and an empty id counts as none. */
  lemma NameLookupWithoutId(list: seq<Ingredient>, used: UsedIngredient)
    requires !Present(used.ingredientId)
    ensures FindIngredient(list, used).Some? ==> FindIngredient(list, used).value.name == used.name
    ensures FindIngredient(list, used).None? <==> forall i :: 0 <= i < |list| ==> list[i].name != used.name
  {
  }

  /** `nextQuantity`: without a stock item, the amount used; otherwise the
      stock left after using it, never below 0, to two decimals. */
  function NextQuantity(stock: Option<Ingredient>, used: UsedIngredient): (r: real)
    ensures stock.None? ==> r == used.usedQuantity
    ensures stock.Some? ==> r >= 0.0
    ensures stock.Some? ==>
      var left := MaxR(0.0, stock.value.quantity - used.usedQuantity);
      left - 0.005 <= r <= left + 0.005
  {
    if stock.None? then used.usedQuantity
    else
      var left := MaxR(0.0, stock.value.quantity - used.usedQuantity);
      Round2Sign(left);
      Round2Close(left);
      Round2(left)
  }

  /** What an inventory draft first shows for a used ingredient:
      `String(nextQuantity(findIngredient(list, used), used))`. */
  function DraftValue(list: seq<Ingredient>, used: UsedIngredient): FieldText {
    Shown(NextQuantity(FindIngredient(list, used), used))
  }

  /** Using at least the whole stock leaves exactly 0; with amounts of two
      decimals the rest is exact. */
  lemma NextQuantityExact(stock: Ingredient, used: UsedIngredient)
    ensures used.usedQuantity >= stock.quantity ==> NextQuantity(Some(stock), used) == 0.0
    ensures TwoDecimals(stock.quantity - used.usedQuantity) && stock.quantity >= used.usedQuantity
      ==> NextQuantity(Some(stock), used) == stock.quantity - used.usedQuantity
  {
    Round2Exact(0.0);
    if TwoDecimals(stock.quantity - used.usedQuantity) && stock.quantity >= used.usedQuantity {
      Round2Exact(stock.quantity - used.usedQuantity);
    }
  }
}
