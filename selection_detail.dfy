/** The adopted-menu view (components/menu-selection-detail.tsx): which
    sale to show for a missing ingredient, the store slug its link uses,
    the inventory draft, the shortage list and the bulk update it sends.
    The ingredients, the sales already filtered to the active ones, and
    the adopted suggestion's used ingredients are inputs; loading them is
    not modelled. */
module SelectionDetail {
  import opened Wrappers
  import opened Seqs
  import opened Text
  import opened Numeric
  import opened Types
  import opened Inventory
  import opened Validation

  // ---------------------------------------------------------------------
  // Matching a sale to a missing ingredient

  /** Case-insensitive containment of the two names, in either direction. */
  predicate NameMatches(item: UsedIngredient, sale: Sale) {
    Contains(ToLower(sale.name), ToLower(item.name)) || Contains(ToLower(item.name), ToLower(sale.name))
  }

  /** The stock item's category, lower-cased, when it has one. */
  function StockCategory(stock: Option<Ingredient>): Option<string> {
    if stock.Some? && stock.value.category.Some? then Some(ToLower(stock.value.category.value)) else None
  }

  /** The sale has a category that contains `category`, ignoring case. */
  predicate CategoryMatches(category: string, sale: Sale) {
    Present(sale.category) && Contains(ToLower(sale.category.value), category)
  }

  /** `pickBestSale`: the first sale matching by name; failing that, when
      the stock item has a non-empty category, the first sale matching by
      category; otherwise none. */
  function PickBestSale(item: UsedIngredient, stock: Option<Ingredient>, active: seq<Sale>): (r: Option<Sale>)
    ensures r.Some? ==> r.value in active
    ensures (exists i :: 0 <= i < |active| && NameMatches(item, active[i])) ==>
      r.Some? && NameMatches(item, r.value)
    ensures r.Some? && !NameMatches(item, r.value) ==>
      Present(StockCategory(stock)) && CategoryMatches(StockCategory(stock).value, r.value)
    ensures r.None? <==>
      (forall i :: 0 <= i < |active| ==> !NameMatches(item, active[i]))
      && (!Present(StockCategory(stock))
          || forall i :: 0 <= i < |active| ==> !CategoryMatches(StockCategory(stock).value, active[i]))
  {
    var byName := Find(active, (s: Sale) => NameMatches(item, s));
    if byName.Some? then byName
    else if Present(StockCategory(stock)) then
      Find(active, (s: Sale) => CategoryMatches(StockCategory(stock).value, s))
    else None
  }

  /** The name match takes precedence, and among name matches the earliest
      sale wins, whatever the categories say. */
  lemma PickBestSalePrefersFirstNameMatch(item: UsedIngredient, stock: Option<Ingredient>, active: seq<Sale>, i: nat)
    requires i < |active| && NameMatches(item, active[i])
    requires forall j :: 0 <= j < i ==> !NameMatches(item, active[j])
    ensures PickBestSale(item, stock, active) == Some(active[i])
  {
    var p := (s: Sale) => NameMatches(item, s);
    FindIsFirstOfFilter(active, p);
    FilterAppend(active[..i], active[i..], p);
    FilterAllFail(active[..i], p);
    assert active == active[..i] + active[i..];
    assert active[i..] == [active[i]] + active[i + 1..];
    FilterAppend([active[i]], active[i + 1..], p);
  }

  /** Without a stock category only names are compared: a sale whose
      category would match is not chosen. */
  lemma PickBestSaleNeedsStockCategory(item: UsedIngredient, stock: Option<Ingredient>, active: seq<Sale>)
    requires stock.None? || stock.value.category.None? || stock.value.category == Some("")
    ensures PickBestSale(item, stock, active) == Find(active, (s: Sale) => NameMatches(item, s))
  {
  }

  /** A sale whose name differs from the item's only in the case of ASCII
      letters matches it. */
  lemma CaseInsensitiveNameMatch(item: UsedIngredient, sale: Sale)
    requires ToLower(item.name) == ToLower(sale.name)
    ensures NameMatches(item, sale)
  {
    ContainsItself(ToLower(sale.name));
  }

  // ---------------------------------------------------------------------
  // Store slugs

  /** The characters a slug consists of. */
  predicate IsSlugChar(c: char) {
    'a' <= c <= 'z' || '0' <= c <= '9' || c == '-'
  }

  /** What `replace(/[^a-z0-9\s-]/g, "")` keeps. */
  predicate KeptBySlug(c: char) {
    IsSlugChar(c) || IsSpace(c)
  }

  predicate IsHyphen(c: char) {
    c == '-'
  }

  /** A slug: only `a-z`, `0-9` and `-`, and never two hyphens in a row. */
  predicate IsSlug(s: string) {
    (forall i :: 0 <= i < |s| ==> IsSlugChar(s[i])) && NoAdjacent(s, IsHyphen)
  }

  /** `toSlug`: trim, lower-case, drop every character other than letters,
      digits, white space and hyphens, then turn each run of white space
      and each run of hyphens into one hyphen. */
  function ToSlug(text: string): (r: string)
    ensures IsSlug(r)
    ensures forall i :: 0 <= i < |r| ==> !IsSpace(r[i])
  {
    var kept := KeepOnly(ToLower(Trim(text)), KeptBySlug);
    var dashed := ReplaceRuns(kept, IsSpace, '-');
    ReplaceRunsChars(kept, IsSpace, '-', IsSlugChar);
    ReplaceRunsChars(dashed, IsHyphen, '-', IsSlugChar);
    ReplaceRunsNoRuns(dashed, IsHyphen, '-');
    ReplaceRuns(dashed, IsHyphen, '-')
  }

  /** A slug is its own slug. */
  lemma SlugIsFixed(s: string)
    requires IsSlug(s)
    ensures ToSlug(s) == s
  {
    forall i | 0 <= i < |s| ensures !IsSpace(s[i]) && !('A' <= s[i] <= 'Z') {
      SlugCharIsPlain(s[i]);
    }
    assert Trim(s) == s by {
      TrimSpec(s);
    }
    ToLowerIdentity(s);
    KeepOnlyIdentity(s, KeptBySlug);
    ReplaceRunsIdentity(s, IsSpace, '-');
    ReplaceRunsIdentity(s, IsHyphen, '-');
  }

  lemma SlugCharIsPlain(c: char)
    requires IsSlugChar(c)
    ensures !IsSpace(c) && !('A' <= c <= 'Z')
  {
  }

  /** `toSlug` is idempotent. */
  lemma ToSlugIdempotent(text: string)
    ensures ToSlug(ToSlug(text)) == ToSlug(text)
  {
    SlugIsFixed(ToSlug(text));
  }

  /** The non-empty segments of a URL path (`split("/").filter(Boolean)`). */
  function PathSegments(path: string): (r: seq<string>)
    ensures forall i :: 0 <= i < |r| ==> r[i] != "" && '/' !in r[i]
  {
    var r := Filter(Split(path, '/'), (seg: string) => seg != "");
    FilterSatisfies(Split(path, '/'), (seg: string) => seg != "");
    FilterMembers(Split(path, '/'), (seg: string) => seg != "");
    r
  }

  /** The non-empty path segments of the sale's store URL; none when it has
      no URL or `new URL` rejects it (`pathOf` returns `None`). */
  function UrlSegments(sale: Sale, pathOf: string -> Option<string>): seq<string> {
    if Present(sale.storeUrl) && pathOf(sale.storeUrl.value).Some? then
      PathSegments(pathOf(sale.storeUrl.value).value)
    else []
  }

  /** `deriveStoreSlug`: the sale's own slug, else the last segment of its
      store URL's path, else the slug of its store name, else none. The
      URL parser is the parameter `pathOf`. */
  function DeriveStoreSlug(sale: Sale, pathOf: string -> Option<string>): (r: Option<string>)
    ensures Present(sale.storeSlug) ==> r == sale.storeSlug
    ensures !Present(sale.storeSlug) && |UrlSegments(sale, pathOf)| > 0 ==>
      r.Some? && r.value != "" && '/' !in r.value
      && r.value == UrlSegments(sale, pathOf)[|UrlSegments(sale, pathOf)| - 1]
    ensures !Present(sale.storeSlug) && |UrlSegments(sale, pathOf)| == 0 && Present(sale.storeName) ==>
      r.Some? && IsSlug(r.value)
    ensures r.None? <==>
      !Present(sale.storeSlug) && |UrlSegments(sale, pathOf)| == 0 && !Present(sale.storeName)
  {
    var segments := UrlSegments(sale, pathOf);
    if Present(sale.storeSlug) then sale.storeSlug
    else if |segments| > 0 then Some(segments[|segments| - 1])
    else if Present(sale.storeName) then Some(ToSlug(sale.storeName.value))
    else None
  }

  /** A slug derived from the store name is the name's slug even when that
      is empty, as for a name with no ASCII letter or digit. */
  lemma NameWithoutAsciiGivesEmptySlug(sale: Sale, pathOf: string -> Option<string>)
    requires !Present(sale.storeSlug) && !Present(sale.storeUrl)
    requires sale.storeName == Some("特売")
    ensures DeriveStoreSlug(sale, pathOf) == Some("")
  {
    var name := "特売";
    assert !IsSpace(name[0]) && !IsSpace(name[1]);
    TrimSpec(name);
    ToLowerIdentity(name);
    assert !KeptBySlug(name[0]) && !KeptBySlug(name[1]);
    assert KeepOnly(name, KeptBySlug) == KeepOnly(name[1..], KeptBySlug) == KeepOnly(name[2..], KeptBySlug);
  }

  // ---------------------------------------------------------------------
  // The inventory draft

  /** The key of a used ingredient in the draft (`used.ingredientId ??
      match?.id`); none when it is absent or empty. An empty id is kept by
      `??`, so it is not replaced by a name match. */
  function DraftKey(list: seq<Ingredient>, used: UsedIngredient): (r: Option<string>)
    ensures r.Some? ==> r.value != ""
    ensures used.ingredientId.Some? ==> r == if Present(used.ingredientId) then used.ingredientId else None
    ensures used.ingredientId.None? ==>
      (r.Some? <==> FindIngredient(list, used).Some? && FindIngredient(list, used).value.id != "")
    ensures used.ingredientId.None? && r.Some? ==> r.value == FindIngredient(list, used).value.id
  {
    var key := if used.ingredientId.Some? then used.ingredientId
      else if FindIngredient(list, used).Some? then Some(FindIngredient(list, used).value.id)
      else None;
    if Present(key) then key else None
  }

  /** The draft after the effect has gone through `useds` in order: each
      item with a key sets that key, a later item overwriting an earlier. */
  function DraftOf(list: seq<Ingredient>, useds: seq<UsedIngredient>): map<string, FieldText>
    decreases |useds|
  {
    if useds == [] then map[]
    else
      var draft := DraftOf(list, useds[..|useds| - 1]);
      var used := useds[|useds| - 1];
      match DraftKey(list, used)
      case None => draft
      case Some(k) => draft[k := DraftValue(list, used)]
  }

  /** The effect that fills the draft when the menu and stock are known. */
  method BuildDraft(list: seq<Ingredient>, useds: seq<UsedIngredient>) returns (draft: map<string, FieldText>)
    ensures draft == DraftOf(list, useds)
  {
    draft := map[];
    for i := 0 to |useds|
      invariant draft == DraftOf(list, useds[..i])
    {
      assert useds[..i + 1][..i] == useds[..i];
      var key := DraftKey(list, useds[i]);
      if key.Some? {
        draft := draft[key.value := DraftValue(list, useds[i])];
      }
    }
    assert useds[..|useds|] == useds;
  }

  /** The draft has a key exactly for the items with a non-empty id or,
      without an id, a stock match. */
  lemma {:induction false} DraftKeys(list: seq<Ingredient>, useds: seq<UsedIngredient>, k: string)
    ensures k in DraftOf(list, useds) <==> exists i :: 0 <= i < |useds| && DraftKey(list, useds[i]) == Some(k)
    decreases |useds|
  {
    if useds != [] {
      var front := useds[..|useds| - 1];
      DraftKeys(list, front, k);
      if k in DraftOf(list, front) {
        var i :| 0 <= i < |front| && DraftKey(list, front[i]) == Some(k);
        assert useds[i] == front[i];
      }
      if exists i :: 0 <= i < |useds| && DraftKey(list, useds[i]) == Some(k) {
        var i :| 0 <= i < |useds| && DraftKey(list, useds[i]) == Some(k);
        if i < |front| {
          assert front[i] == useds[i];
        }
      }
    }
  }

  /** When exactly one item has key `k`, the draft holds that item's next
      quantity under `k`. */
  lemma {:induction false} DraftValueOfOnlyItem(list: seq<Ingredient>, useds: seq<UsedIngredient>, i: nat)
    requires i < |useds| && DraftKey(list, useds[i]).Some?
    requires forall j :: 0 <= j < |useds| && j != i ==> DraftKey(list, useds[j]) != DraftKey(list, useds[i])
    ensures DraftKey(list, useds[i]).value in DraftOf(list, useds)
    ensures DraftOf(list, useds)[DraftKey(list, useds[i]).value] == DraftValue(list, useds[i])
    decreases |useds|
  {
    var front := useds[..|useds| - 1];
    if i < |front| {
      forall j | 0 <= j < |front| && j != i ensures DraftKey(list, front[j]) != DraftKey(list, front[i]) {
        assert front[j] == useds[j];
      }
      DraftValueOfOnlyItem(list, front, i);
      assert front[i] == useds[i];
    }
  }

  // ---------------------------------------------------------------------
  // Missing ingredients

  /** What the menu needs beyond the stock, to two decimals, never below 0;
      a used ingredient without a stock item lacks all of it. */
  function Shortage(list: seq<Ingredient>, used: UsedIngredient): (r: real)
    ensures r >= 0.0
    ensures var have := if FindIngredient(list, used).Some? then FindIngredient(list, used).value.quantity else 0.0;
      (r > 0.0 ==> used.usedQuantity > have) && (used.usedQuantity <= have ==> r == 0.0)
  {
    var have := if FindIngredient(list, used).Some? then FindIngredient(list, used).value.quantity else 0.0;
    Round2Sign(used.usedQuantity - have);
    MaxR(0.0, Round2(used.usedQuantity - have))
  }

  /** One row of the missing list: the item, its shortage, the sale to buy
      it at and the stock item's category. */
  datatype MissingItem = MissingItem(item: UsedIngredient, shortage: real, sale: Option<Sale>, category: Option<string>)

  function MissingFor(list: seq<Ingredient>, active: seq<Sale>, used: UsedIngredient): MissingItem {
    var stock := FindIngredient(list, used);
    MissingItem(used, Shortage(list, used), PickBestSale(used, stock, active),
      if stock.Some? then stock.value.category else None)
  }

  /** `missingIngredients`: the used items with a positive shortage, in
      menu order. */
  function MissingIngredients(list: seq<Ingredient>, active: seq<Sale>, useds: seq<UsedIngredient>): (r: seq<MissingItem>)
    ensures forall i :: 0 <= i < |r| ==> r[i].shortage > 0.0 && r[i].item in useds
    ensures forall i :: 0 <= i < |r| ==> r[i] == MissingFor(list, active, r[i].item)
  {
    var short := Filter(useds, (u: UsedIngredient) => Shortage(list, u) > 0.0);
    FilterSatisfies(useds, (u: UsedIngredient) => Shortage(list, u) > 0.0);
    FilterMembers(useds, (u: UsedIngredient) => Shortage(list, u) > 0.0);
    seq(|short|, i requires 0 <= i < |short| => MissingFor(list, active, short[i]))
  }

  /** A used item is listed exactly when its shortage is positive; an item
      the stock covers is never listed. */
  lemma MissingListsExactlyTheShort(list: seq<Ingredient>, active: seq<Sale>, useds: seq<UsedIngredient>, u: UsedIngredient)
    requires u in useds
    ensures (exists i ::
      && 0 <= i < |MissingIngredients(list, active, useds)|
      && MissingIngredients(list, active, useds)[i].item == u) <==> Shortage(list, u) > 0.0
    ensures FindIngredient(list, u).Some? && FindIngredient(list, u).value.quantity >= u.usedQuantity ==>
      forall i :: 0 <= i < |MissingIngredients(list, active, useds)| ==> MissingIngredients(list, active, useds)[i].item != u
  {
    var p := (x: UsedIngredient) => Shortage(list, x) > 0.0;
    FilterMembers(useds, p);
    var short := Filter(useds, p);
    if Shortage(list, u) > 0.0 {
      var i :| 0 <= i < |short| && short[i] == u;
      assert MissingIngredients(list, active, useds)[i].item == u;
    }
  }

  // ---------------------------------------------------------------------
  // The inventory update

  /** One item's update: its draft key, with the draft's number when the
      draft has the key and the next quantity otherwise; none without a key
      or when that number is `NaN` or negative. */
  function DetailUpdate(list: seq<Ingredient>, draft: map<string, FieldText>, used: UsedIngredient): (r: Option<QuantityUpdate>)
    ensures r.Some? ==> Some(r.value.id) == DraftKey(list, used) && r.value.quantity >= 0.0
    ensures r.Some? && r.value.id in draft ==> ToNumber(draft[r.value.id]) == Num(r.value.quantity)
    ensures r.Some? && r.value.id !in draft ==> r.value.quantity == NextQuantity(FindIngredient(list, used), used)
    ensures (DraftKey(list, used).Some? && DraftKey(list, used).value !in draft
      && FindIngredient(list, used).Some?) ==> r.Some?
  {
    match DraftKey(list, used)
    case None => None
    case Some(id) =>
      var quantity := if id in draft then ToNumber(draft[id]) else Num(NextQuantity(FindIngredient(list, used), used));
      if quantity.NaN? || quantity.value < 0.0 then None
      else Some(QuantityUpdate(id, quantity.value))
  }

  /** `updateInventory`'s list: the updates of the used items that have one,
      in menu order. */
  function DetailUpdates(list: seq<Ingredient>, draft: map<string, FieldText>, useds: seq<UsedIngredient>): (r: seq<QuantityUpdate>)
    ensures |r| <= |useds|
    ensures forall i :: 0 <= i < |r| ==> r[i].id != "" && r[i].quantity >= 0.0
  {
    if useds == [] then []
    else
      var rest := DetailUpdates(list, draft, useds[1..]);
      match DetailUpdate(list, draft, useds[0])
      case None => rest
      case Some(u) => [u] + rest
  }

  /** A non-empty update list is what the bulk endpoint's schema accepts. */
  lemma DetailUpdatesAreValid(list: seq<Ingredient>, draft: map<string, FieldText>, useds: seq<UsedIngredient>)
    requires |DetailUpdates(list, draft, useds)| > 0
    ensures BulkQuantityValid(DetailUpdates(list, draft, useds))
  {
  }

  /** Every item with a stock match and an unedited draft gets its update:
      the draft the effect built holds its next quantity, which is what is
      sent. */
  lemma UneditedDraftSendsNextQuantity(list: seq<Ingredient>, useds: seq<UsedIngredient>, i: nat)
    requires i < |useds| && DraftKey(list, useds[i]).Some? && FindIngredient(list, useds[i]).Some?
    requires forall j :: 0 <= j < |useds| && j != i ==> DraftKey(list, useds[j]) != DraftKey(list, useds[i])
    ensures DetailUpdate(list, DraftOf(list, useds), useds[i])
      == Some(QuantityUpdate(DraftKey(list, useds[i]).value, NextQuantity(FindIngredient(list, useds[i]), useds[i])))
  {
    DraftValueOfOnlyItem(list, useds, i);
  }
}
