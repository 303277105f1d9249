/** The in-memory repository of lib/data-store.ts (the branch taken when the
    mock database is configured): three JavaScript `Map`s from id to record,
    filled with sample data on first load, with list, get, create, update and
    delete operations and a bulk quantity update. Ids, timestamps and dates,
    which the source draws from `uuidv4` and `new Date()`, are parameters. */
module DataStore {
  import opened Wrappers
  import opened Numeric
  import opened Seqs
  import opened Types
  import opened Sorting
  import opened Portion
  import opened Text

  // ---------------------------------------------------------------------
  // The discounted price

  /** `calcDiscountedPrice`: no rate, no discounted price; otherwise the
      price less the rate in percent, rounded with `Math.round` and clamped
      at zero. */
  function CalcDiscountedPrice(price: real, discountRate: Option<real>): (r: Option<real>)
    ensures r.None? <==> discountRate.None?
    ensures r.Some? ==> r.value >= 0.0
    ensures r.Some? ==> r.value == r.value.Floor as real
  {
    match discountRate
    case None => None
    case Some(rate) =>
      var discounted := RoundedDiscount(price, rate);
      Some(if discounted >= 0 then discounted as real else 0.0)
  }

  /** `Math.round(price * (1 - rate / 100))`, the store's and the sale
      form's common step. */
  function RoundedDiscount(price: real, rate: real): int {
    JsRound(price * (1.0 - rate / 100.0))
  }

  /** For a whole price and a rate between 0 and 100 the discounted price
      lies between 0 and the price. */
  lemma DiscountBounds(price: int, rate: real)
    requires price >= 0 && 0.0 <= rate <= 100.0
    ensures var r := CalcDiscountedPrice(price as real, Some(rate));
      r.Some? && 0.0 <= r.value <= price as real
  {
    var x := price as real * (1.0 - rate / 100.0);
    ScaleDown(price as real, 1.0 - rate / 100.0);
    var d := JsRound(x);
    assert d as real <= price as real + 0.5 && d as real > -0.5;
    assert 0 <= d <= price;
  }

  /** No discount keeps a whole price. */
  lemma NoDiscountKeepsPrice(price: int)
    requires price >= 0
    ensures CalcDiscountedPrice(price as real, Some(0.0)) == Some(price as real)
  {
    assert price as real * (1.0 - 0.0 / 100.0) == price as real;
    JsRoundWhole(price);
  }

  /** A full discount makes any price free. */
  lemma FullDiscountIsFree(price: real)
    ensures CalcDiscountedPrice(price, Some(100.0)) == Some(0.0)
  {
    assert price * (1.0 - 100.0 / 100.0) == 0.0;
  }

  lemma ScaleDown(p: real, f: real)
    requires p >= 0.0 && 0.0 <= f <= 1.0
    ensures 0.0 <= p * f <= p
  {
    assert p * f + p * (1.0 - f) == p;
  }

  /** A negative discounted amount (a rate above 100) is clamped to zero. */
  lemma DiscountClampsAtZero(price: real, rate: real)
    requires price > 0.0 && rate > 100.0
    ensures CalcDiscountedPrice(price, Some(rate)) == Some(0.0)
  {
    assert price * (1.0 - rate / 100.0) < 0.0;
  }

  // ---------------------------------------------------------------------
  // Tables: a JavaScript Map from id to record

  predicate Distinct<T(==)>(s: seq<T>) {
    forall i, j :: 0 <= i < j < |s| ==> s[i] != s[j]
  }

  /** `s` without the element `k`. */
  function Without(s: seq<string>, k: string): (r: seq<string>)
    ensures forall x :: x in r <==> x in s && x != k
    ensures Distinct(s) ==> Distinct(r)
    ensures k !in s ==> r == s
  {
    if s == [] then []
    else if s[0] == k then Without(s[1..], k)
    else
      var rest := Without(s[1..], k);
      assert Distinct(s) ==> s[0] !in rest;
      [s[0]] + rest
  }

  /** A Map keeps its keys in insertion order: `set` on a new key appends
      it, `set` on a present key replaces the value in place, `delete`
      removes the key. */
  datatype Table<V> = Table(keys: seq<string>, entries: map<string, V>) {
    ghost predicate Valid() {
      (forall k :: k in entries <==> k in keys) && Distinct(keys)
    }

    /** `map.get(k) ?? null` */
    function Get(k: string): (r: Option<V>)
      ensures r.Some? <==> k in entries
      ensures r.Some? ==> r.value == entries[k]
    {
      if k in entries then Some(entries[k]) else None
    }

    /** `map.set(k, v)` */
    function Set(k: string, v: V): (t: Table<V>)
      ensures Valid() ==> t.Valid()
      ensures t.entries == entries[k := v]
      ensures k in entries ==> t.keys == keys
      ensures k !in entries ==> t.keys == keys + [k]
    {
      Table(if k in entries then keys else keys + [k], entries[k := v])
    }

    /** `map.delete(k)` */
    function Delete(k: string): (t: Table<V>)
      ensures Valid() ==> t.Valid()
      ensures t.entries == entries - {k}
      ensures k !in keys ==> t.keys == keys
    {
      Table(Without(keys, k), entries - {k})
    }

    /** `Array.from(map.values())`: the values in key order. */
    function Values(): (r: seq<V>)
      requires Valid()
      ensures |r| == |keys|
      ensures forall i :: 0 <= i < |keys| ==> r[i] == entries[keys[i]]
    {
      seq(|keys|, i requires 0 <= i < |keys| => entries[keys[i]])
    }
  }

  function EmptyTable<V>(): (t: Table<V>)
    ensures t.Valid() && t.entries == map[]
  {
    Table([], map[])
  }

  /** The values of a table are exactly its stored records, one per key. */
  lemma ValuesAreStored<V>(t: Table<V>)
    requires t.Valid()
    ensures forall x :: x in t.Values() <==> exists k :: k in t.entries && t.entries[k] == x
  {
    forall x | exists k :: k in t.entries && t.entries[k] == x
      ensures x in t.Values()
    {
      var k :| k in t.entries && t.entries[k] == x;
      var i :| 0 <= i < |t.keys| && t.keys[i] == k;
      assert t.Values()[i] == x;
    }
  }

  /** Setting a new key appends its value to the listing; setting a present
      key changes its value where it stands. */
  lemma SetValues<V>(t: Table<V>, k: string, v: V)
    requires t.Valid()
    ensures k !in t.entries ==> t.Set(k, v).Values() == t.Values() + [v]
    ensures k in t.entries ==> |t.Set(k, v).Values()| == |t.Values()|
    ensures k in t.entries ==> forall i :: 0 <= i < |t.keys| ==>
      t.Set(k, v).Values()[i] == if t.keys[i] == k then v else t.Values()[i]
  {
  }

  /** Deleting an absent key changes nothing; deleting a present key leaves
      every other entry as it was. */
  lemma DeleteEffect<V>(t: Table<V>, k: string)
    requires t.Valid()
    ensures k !in t.entries ==> t.Delete(k) == t
    ensures t.Delete(k).Get(k) == None
    ensures forall j :: j != k ==> t.Delete(k).Get(j) == t.Get(j)
  {
  }

  /** `items.forEach((item) => map.set(item.id, item))`, as the state after
      the first `|items|` calls. */
  function PutAll<V>(t: Table<V>, items: seq<V>, idOf: V -> string): (r: Table<V>)
    ensures t.Valid() ==> r.Valid()
  {
    if items == [] then t
    else PutAll(t, items[..|items| - 1], idOf).Set(idOf(items[|items| - 1]), items[|items| - 1])
  }

  /** `items.forEach((item) => map.set(item.id, item))` */
  method PutEach<V>(t: Table<V>, items: seq<V>, idOf: V -> string) returns (r: Table<V>)
    ensures r == PutAll(t, items, idOf)
    ensures (t.Valid() ==> r.Valid())
    ensures KeyedBy(t, idOf) ==> KeyedBy(r, idOf)
  {
    r := t;
    for i := 0 to |items|
      invariant r == PutAll(t, items[..i], idOf)
      invariant t.Valid() ==> r.Valid()
      invariant KeyedBy(t, idOf) ==> KeyedBy(r, idOf)
    {
      assert items[..i + 1][..i] == items[..i];
      r := r.Set(idOf(items[i]), items[i]);
    }
    assert items[..|items|] == items;
  }

  /** After putting `items`, the keys are the old ones and the items' ids. */
  lemma {:induction false} PutAllKeys<V>(t: Table<V>, items: seq<V>, idOf: V -> string)
    ensures forall k :: k in PutAll(t, items, idOf).entries <==>
      k in t.entries || exists i :: 0 <= i < |items| && idOf(items[i]) == k
  {
    if items != [] {
      var n := |items| - 1;
      var front := items[..n];
      PutAllKeys(t, front, idOf);
      forall k ensures k in PutAll(t, items, idOf).entries <==>
        k in t.entries || exists i :: 0 <= i < |items| && idOf(items[i]) == k
      {
        if exists i :: 0 <= i < |items| && idOf(items[i]) == k {
          var i :| 0 <= i < |items| && idOf(items[i]) == k;
          if i < n {
            assert idOf(front[i]) == k;
          }
        }
        if exists i :: 0 <= i < |front| && idOf(front[i]) == k {
          var i :| 0 <= i < |front| && idOf(front[i]) == k;
          assert idOf(items[i]) == k;
        }
      }
    }
  }

  /** Putting records with distinct fresh ids into a table lists them after
      the records already there, in order. */
  lemma {:induction false} PutAllFresh<V>(t: Table<V>, items: seq<V>, idOf: V -> string)
    requires t.Valid()
    requires forall i, j :: 0 <= i < j < |items| ==> idOf(items[i]) != idOf(items[j])
    requires forall i :: 0 <= i < |items| ==> idOf(items[i]) !in t.entries
    ensures PutAll(t, items, idOf).Values() == t.Values() + items
  {
    if items != [] {
      var n := |items| - 1;
      PutAllFresh(t, items[..n], idOf);
      LastIsFresh(t, items, idOf);
      SetValues(PutAll(t, items[..n], idOf), idOf(items[n]), items[n]);
      AppendLast(t.Values(), items);
    }
  }

  /** The last item's id is not among the keys put before it. */
  lemma LastIsFresh<V>(t: Table<V>, items: seq<V>, idOf: V -> string)
    requires |items| > 0
    requires forall i, j :: 0 <= i < j < |items| ==> idOf(items[i]) != idOf(items[j])
    requires forall i :: 0 <= i < |items| ==> idOf(items[i]) !in t.entries
    ensures idOf(items[|items| - 1]) !in PutAll(t, items[..|items| - 1], idOf).entries
  {
    var n := |items| - 1;
    PutAllKeys(t, items[..n], idOf);
    assert forall i :: 0 <= i < n ==> items[..n][i] == items[i];
  }

  /** Every record is stored under its own id. */
  ghost predicate KeyedBy<V>(t: Table<V>, idOf: V -> string) {
    forall k :: k in t.entries ==> idOf(t.entries[k]) == k
  }

  function IngredientId(i: Ingredient): string { i.id }
  function SaleId(s: Sale): string { s.id }
  function FamilyMemberId(m: FamilyMember): string { m.id }


  // ---------------------------------------------------------------------
  // Records built from payloads

  /** `a ?? b` on the spread `{...existing, ...payload}`: a key the payload
      leaves out keeps the existing value. */
  function Override<T>(existing: Option<T>, given: Option<T>): (r: Option<T>)
    ensures given.Some? ==> r == given
    ensures given.None? ==> r == existing
  {
    if given.Some? then given else existing
  }

  /** `{ id, createdAt: now, updatedAt: now, ...payload }` */
  function NewIngredient(id: string, now: string, p: IngredientPayload): Ingredient {
    Ingredient(id, p.name, p.quantity, p.unit, p.expiryDate, p.category, p.memo, now, now)
  }

  /** `{ ...existing, ...payload, id, createdAt: existing.createdAt, updatedAt: now }` */
  function UpdatedIngredient(existing: Ingredient, id: string, now: string, p: IngredientPayload): (r: Ingredient)
    ensures r.id == id && r.createdAt == existing.createdAt && r.updatedAt == now
    ensures r.name == p.name && r.quantity == p.quantity
    ensures r.unit == Override(existing.unit, p.unit) && r.expiryDate == Override(existing.expiryDate, p.expiryDate)
    ensures r.category == Override(existing.category, p.category) && r.memo == Override(existing.memo, p.memo)
  {
    Ingredient(id, p.name, p.quantity, Override(existing.unit, p.unit), Override(existing.expiryDate, p.expiryDate),
      Override(existing.category, p.category), Override(existing.memo, p.memo), existing.createdAt, now)
  }

  /** `{ id, createdAt: now, updatedAt: now, ...payload, discountedPrice }`:
      the payload's own discounted price is replaced by the computed one. */
  function NewSale(id: string, now: string, p: SalePayload): (r: Sale)
    ensures r.discountedPrice == CalcDiscountedPrice(r.price, r.discountRate)
  {
    Sale(id, p.name, p.price, p.discountRate, CalcDiscountedPrice(p.price, p.discountRate), p.startDate, p.endDate,
      p.category, p.memo, None, None, None, now, now)
  }

  /** `{ ...existing, ...payload, id, createdAt: existing.createdAt,
      updatedAt: now, discountedPrice }`. The discounted price is computed
      from the payload's rate, while a rate the payload leaves out keeps the
      existing one. */
  function UpdatedSale(existing: Sale, id: string, now: string, p: SalePayload): (r: Sale)
    ensures r.id == id && r.createdAt == existing.createdAt && r.updatedAt == now
    ensures r.name == p.name && r.price == p.price
    ensures r.discountRate == Override(existing.discountRate, p.discountRate)
    ensures r.discountedPrice == CalcDiscountedPrice(p.price, p.discountRate)
    ensures r.storeName == existing.storeName && r.storeSlug == existing.storeSlug && r.storeUrl == existing.storeUrl
  {
    Sale(id, p.name, p.price, Override(existing.discountRate, p.discountRate), CalcDiscountedPrice(p.price, p.discountRate),
      Override(existing.startDate, p.startDate), Override(existing.endDate, p.endDate),
      Override(existing.category, p.category), Override(existing.memo, p.memo),
      existing.storeName, existing.storeSlug, existing.storeUrl, existing.createdAt, now)
  }

  /** An update that leaves the rate out keeps a sale's old rate but drops
      its discounted price, so the two no longer agree. */
  lemma UpdateWithoutRateDropsDiscount(existing: Sale, id: string, now: string, p: SalePayload)
    requires existing.discountRate.Some? && p.discountRate.None?
    ensures UpdatedSale(existing, id, now, p).discountRate == existing.discountRate
    ensures UpdatedSale(existing, id, now, p).discountedPrice.None?
    ensures var r := UpdatedSale(existing, id, now, p);
      r.discountedPrice != CalcDiscountedPrice(r.price, r.discountRate)
  {
  }

  /** With the rate given, an updated sale's discounted price agrees with its rate. */
  lemma UpdateWithRateAgrees(existing: Sale, id: string, now: string, p: SalePayload)
    requires p.discountRate.Some?
    ensures var r := UpdatedSale(existing, id, now, p);
      r.discountedPrice == CalcDiscountedPrice(r.price, r.discountRate)
  {
  }

  function NewFamilyMember(id: string, now: string, p: FamilyMemberPayload): FamilyMember {
    FamilyMember(id, p.name, p.lifeStage, p.appetite, p.notes, now, now)
  }

  function UpdatedFamilyMember(existing: FamilyMember, id: string, now: string, p: FamilyMemberPayload)
    : (r: FamilyMember)
    ensures r.id == id && r.createdAt == existing.createdAt && r.updatedAt == now
    ensures r.name == p.name && r.lifeStage == p.lifeStage && r.appetite == p.appetite
    ensures r.notes == Override(existing.notes, p.notes)
  {
    FamilyMember(id, p.name, p.lifeStage, p.appetite, Override(existing.notes, p.notes), existing.createdAt, now)
  }

  // ---------------------------------------------------------------------
  // Sample data

  /** `toDateString(addDays(now, n))` for each `n` is `dayAfter(n)`, and
      `isoNow.slice(0, 10)` is `Prefix10(isoNow)`. */
  function Prefix10(s: string): (r: string)
    ensures |r| == if |s| < 10 then |s| else 10
    ensures r == s[..|r|]
  {
    if |s| <= 10 then s else s[..10]
  }

  function SampleIngredients(ids: seq<string>, isoNow: string, dayAfter: nat -> string): seq<Ingredient>
    requires |ids| >= 3
  {
    [ Ingredient(ids[0], "鶏むね肉", 2.0, Some("枚"), Some(dayAfter(2)), Some("肉"), Some("照り焼き用"), isoNow, isoNow),
      Ingredient(ids[1], "ブロッコリー", 1.0, Some("株"), Some(dayAfter(1)), Some("野菜"), Some(""), isoNow, isoNow),
      Ingredient(ids[2], "牛乳", 500.0, Some("ml"), Some(dayAfter(4)), Some("乳製品"), Some("朝食用"), isoNow, isoNow) ]
  }

  function SampleSales(ids: seq<string>, isoNow: string, dayAfter: nat -> string): seq<Sale>
    requires |ids| >= 2
  {
    [ Sale(ids[0], "国産豚こま切れ", 280.0, Some(20.0), Some(224.0), Some(Prefix10(isoNow)), Some(dayAfter(3)),
        Some("肉"), Some("本日限り"), Some("グリーンマート桜台店"), Some("greengmart-sakuradai"),
        Some("https://example.com/stores/greengmart-sakuradai"), isoNow, isoNow),
      Sale(ids[1], "ほうれん草", 120.0, Some(10.0), Some(108.0), Some(Prefix10(isoNow)), Some(dayAfter(5)),
        Some("野菜"), Some(""), Some("オーガニックプラザ中央店"), Some("organic-plaza-chuo"),
        Some("https://example.com/stores/organic-plaza"), isoNow, isoNow) ]
  }

  function SampleFamilies(ids: seq<string>, isoNow: string): seq<FamilyMember>
    requires |ids| >= 3
  {
    [ FamilyMember(ids[0], "はると", "小学生", "普通", Some("野菜少なめ"), isoNow, isoNow),
      FamilyMember(ids[1], "みさき", "高校生", "大食い", Some(""), isoNow, isoNow),
      FamilyMember(ids[2], "父", "40代", "普通", Some("魚好き"), isoNow, isoNow) ]
  }

  /** The discounted prices written into the sample sales, 224 and 108, are
      the ones `calcDiscountedPrice` computes from their prices and rates. */
  lemma SampleSalesPricesAgree(ids: seq<string>, isoNow: string, dayAfter: nat -> string)
    requires |ids| >= 2
    ensures forall s :: s in SampleSales(ids, isoNow, dayAfter) ==>
      s.discountedPrice == CalcDiscountedPrice(s.price, s.discountRate)
  {
    var r1 := JsRound(280.0 * (1.0 - 20.0 / 100.0));
    assert r1 == 224;
    var r2 := JsRound(120.0 * (1.0 - 10.0 / 100.0));
    assert r2 == 108;
  }

  /** The sample records use only values the forms offer. */
  lemma SampleDataIsValid(ids: seq<string>, isoNow: string, dayAfter: nat -> string)
    requires |ids| >= 3
    ensures forall i :: i in SampleIngredients(ids, isoNow, dayAfter) ==>
      i.category.Some? && i.category.value in INGREDIENT_CATEGORIES && i.quantity >= 0.0
    ensures forall m :: m in SampleFamilies(ids, isoNow) ==>
      m.lifeStage in LIFE_STAGE_OPTIONS && m.appetite in APPETITE_OPTIONS
  {
  }

  // ---------------------------------------------------------------------
  // The bulk quantity update, as a function of the updates applied so far

  /** The update names a stored ingredient. */
  function Known(t: Table<Ingredient>): QuantityUpdate -> bool {
    (u: QuantityUpdate) => u.id in t.entries
  }

  /** One iteration of the loop: skip an unknown id, otherwise store the
      record with the new quantity and a fresh `updatedAt`. */
  function BulkStep(t: Table<Ingredient>, u: QuantityUpdate, stamp: string): Table<Ingredient> {
    match t.Get(u.id)
    case None => t
    case Some(ingredient) => t.Set(ingredient.id, ingredient.(quantity := u.quantity, updatedAt := stamp))
  }

  /** The table after the updates `us`; the i-th iteration reads the clock as `clock(i)`. */
  function BulkTable(t: Table<Ingredient>, us: seq<QuantityUpdate>, clock: nat -> string): Table<Ingredient> {
    if us == [] then t
    else BulkStep(BulkTable(t, us[..|us| - 1], clock), us[|us| - 1], clock(|us| - 1))
  }

  /** The records `results` holds after the updates `us`. */
  function BulkResults(t: Table<Ingredient>, us: seq<QuantityUpdate>, clock: nat -> string): seq<Ingredient> {
    if us == [] then []
    else
      var before := BulkTable(t, us[..|us| - 1], clock);
      var u := us[|us| - 1];
      BulkResults(t, us[..|us| - 1], clock)
        + match before.Get(u.id)
          case None => []
          case Some(ingredient) => [ingredient.(quantity := u.quantity, updatedAt := clock(|us| - 1))]
  }

  /** Two records that differ at most in quantity and `updatedAt`. */
  predicate SameButQuantity(a: Ingredient, b: Ingredient) {
    a.(quantity := 0.0, updatedAt := "") == b.(quantity := 0.0, updatedAt := "")
  }

  /** The quantity of the last update naming `k`, or `otherwise` when none does. */
  function LastQuantity(us: seq<QuantityUpdate>, k: string, otherwise: real): real {
    if us == [] then otherwise
    else if us[|us| - 1].id == k then us[|us| - 1].quantity
    else LastQuantity(us[..|us| - 1], k, otherwise)
  }

  /** The bulk update adds and removes no key, keeps the listing order and
      keeps every record under its id. */
  lemma {:induction false} BulkKeepsKeys(t: Table<Ingredient>, us: seq<QuantityUpdate>, clock: nat -> string)
    requires t.Valid() && KeyedBy(t, IngredientId)
    ensures var b := BulkTable(t, us, clock);
      b.Valid() && KeyedBy(b, IngredientId) && b.keys == t.keys && b.entries.Keys == t.entries.Keys
  {
    if us != [] {
      BulkKeepsKeys(t, us[..|us| - 1], clock);
    }
  }

  /** Each record is left as it was but for its quantity, which is the last
      one given for it, and its `updatedAt`. */
  lemma {:induction false} BulkChangesOnlyQuantities(t: Table<Ingredient>, us: seq<QuantityUpdate>, clock: nat -> string)
    requires t.Valid() && KeyedBy(t, IngredientId)
    ensures BulkTable(t, us, clock).entries.Keys == t.entries.Keys
    ensures var b := BulkTable(t, us, clock);
      && (forall k :: k in t.entries ==> SameButQuantity(b.entries[k], t.entries[k]))
      && (forall k :: k in t.entries ==> b.entries[k].quantity == LastQuantity(us, k, t.entries[k].quantity))
  {
    BulkKeepsKeys(t, us, clock);
    if us != [] {
      BulkKeepsKeys(t, us[..|us| - 1], clock);
      BulkChangesOnlyQuantities(t, us[..|us| - 1], clock);
    }
  }

  /** A record that no update names is untouched. */
  lemma {:induction false} BulkSkipsUnnamed(t: Table<Ingredient>, us: seq<QuantityUpdate>, clock: nat -> string,
                                            k: string)
    requires t.Valid() && KeyedBy(t, IngredientId)
    requires k in t.entries && forall i :: 0 <= i < |us| ==> us[i].id != k
    ensures k in BulkTable(t, us, clock).entries && BulkTable(t, us, clock).entries[k] == t.entries[k]
  {
    BulkKeepsKeys(t, us, clock);
    if us != [] {
      var front := us[..|us| - 1];
      forall i | 0 <= i < |front| ensures front[i].id != k {
        assert front[i] == us[i];
      }
      BulkKeepsKeys(t, front, clock);
      BulkSkipsUnnamed(t, front, clock, k);
    }
  }

  /** `results` holds one record per update that names a stored ingredient,
      in the order of the updates: the stored record with that update's
      quantity. */
  lemma {:induction false} BulkResultsEffect(t: Table<Ingredient>, us: seq<QuantityUpdate>, clock: nat -> string)
    requires t.Valid() && KeyedBy(t, IngredientId)
    ensures var r := BulkResults(t, us, clock);
      var applied := Filter(us, Known(t));
      && |r| == |applied|
      && forall j :: 0 <= j < |r| ==>
        && applied[j].id in t.entries
        && r[j].id == applied[j].id
        && r[j].quantity == applied[j].quantity
        && SameButQuantity(r[j], t.entries[applied[j].id])
  {
    if us != [] {
      var n := |us| - 1;
      var front := us[..n];
      BulkResultsEffect(t, front, clock);
      BulkKeepsKeys(t, front, clock);
      BulkChangesOnlyQuantities(t, front, clock);
      FilterAppend(front, [us[n]], Known(t));
      SplitLast(us);
    }
  }

  // ---------------------------------------------------------------------
  // The store

  class MemoryStore {
    var ingredients: Table<Ingredient>
    var sales: Table<Sale>
    var familyProfiles: Table<FamilyMember>

    /** Each map is a well-formed table holding every record under its own id. */
    ghost predicate Valid()
      reads this
    {
      ingredients.Valid() && sales.Valid() && familyProfiles.Valid()
      && KeyedBy(ingredients, IngredientId) && KeyedBy(sales, SaleId) && KeyedBy(familyProfiles, FamilyMemberId)
    }

    /** `{ ingredients: new Map(), sales: new Map(), familyProfiles: new Map() }` */
    constructor()
      ensures Valid()
      ensures ingredients.entries == map[] && sales.entries == map[] && familyProfiles.entries == map[]
    {
      ingredients := EmptyTable();
      sales := EmptyTable();
      familyProfiles := EmptyTable();
    }

    /** `seedMemoryData`: only with the mock database and an empty
        ingredient map, put the sample records in, each under its id.
        `ids` are the eight values `uuidv4` returns, in call order. */
    method SeedMemoryData(useMockDb: bool, ids: seq<string>, isoNow: string, dayAfter: nat -> string)
      requires Valid() && |ids| == 8
      modifies this
      ensures Valid()
      ensures !useMockDb || |old(ingredients.keys)| > 0 ==>
        ingredients == old(ingredients) && sales == old(sales) && familyProfiles == old(familyProfiles)
      ensures useMockDb && |old(ingredients.keys)| == 0 ==>
        && ingredients == PutAll(old(ingredients), SampleIngredients(ids[..3], isoNow, dayAfter), IngredientId)
        && sales == PutAll(old(sales), SampleSales(ids[3..5], isoNow, dayAfter), SaleId)
        && familyProfiles == PutAll(old(familyProfiles), SampleFamilies(ids[5..], isoNow), FamilyMemberId)
    {
      if !useMockDb || |ingredients.keys| > 0 {
        return;
      }
      ingredients := PutEach(ingredients, SampleIngredients(ids[..3], isoNow, dayAfter), IngredientId);
      sales := PutEach(sales, SampleSales(ids[3..5], isoNow, dayAfter), SaleId);
      familyProfiles := PutEach(familyProfiles, SampleFamilies(ids[5..], isoNow), FamilyMemberId);
    }

    // Ingredients

    /** `listIngredients`: the stored ingredients ordered by expiry, undated last. */
    function ListIngredients(): (r: seq<Ingredient>)
      reads this
      requires Valid()
      ensures multiset(r) == multiset(ingredients.Values())
      ensures forall i, j :: 0 <= i < j < |r| && HasExpiry(r[i]) && HasExpiry(r[j]) ==>
        LexLe(r[i].expiryDate.value, r[j].expiryDate.value)
      ensures forall i, j :: 0 <= i < j < |r| && !HasExpiry(r[i]) ==> !HasExpiry(r[j])
    {
      SortByExpiryCorrect(ingredients.Values());
      SortByExpiry(ingredients.Values())
    }

    /** `getIngredientById`: the record stored under `id`, which carries that id. */
    function GetIngredientById(id: string): (r: Option<Ingredient>)
      reads this
      requires Valid()
      ensures r.Some? <==> id in ingredients.entries
      ensures r.Some? ==> r.value.id == id && r.value == ingredients.entries[id]
    {
      ingredients.Get(id)
    }

    /** `createIngredient`: store a new record under the fresh id. */
    method CreateIngredient(payload: IngredientPayload, id: string, now: string) returns (ingredient: Ingredient)
      requires Valid()
      modifies this
      ensures Valid()
      ensures ingredient == NewIngredient(id, now, payload)
      ensures ingredients == old(ingredients).Set(id, ingredient)
      ensures sales == old(sales) && familyProfiles == old(familyProfiles)
    {
      ingredient := NewIngredient(id, now, payload);
      ingredients := ingredients.Set(ingredient.id, ingredient);
    }

    /** `updateIngredient`: "Ingredient not found" for an unknown id and no
        change; otherwise the merged record replaces the stored one. */
    method UpdateIngredient(id: string, payload: IngredientPayload, now: string)
      returns (r: Result<Ingredient, string>)
      requires Valid()
      modifies this
      ensures Valid()
      ensures id !in old(ingredients.entries) ==> r == Err("Ingredient not found") && ingredients == old(ingredients)
      ensures id in old(ingredients.entries) ==>
        && r == Ok(UpdatedIngredient(old(ingredients.entries[id]), id, now, payload))
        && ingredients == old(ingredients).Set(id, r.value)
      ensures sales == old(sales) && familyProfiles == old(familyProfiles)
    {
      var existing := GetIngredientById(id);
      if existing.None? {
        return Err("Ingredient not found");
      }
      var updated := UpdatedIngredient(existing.value, id, now, payload);
      ingredients := ingredients.Set(id, updated);
      r := Ok(updated);
    }

    /** `deleteIngredient` */
    method DeleteIngredient(id: string)
      requires Valid()
      modifies this
      ensures Valid()
      ensures ingredients == old(ingredients).Delete(id)
      ensures sales == old(sales) && familyProfiles == old(familyProfiles)
    {
      ingredients := ingredients.Delete(id);
    }

    /** `bulkUpdateIngredientQuantities`: for each update in order, skip an
        unknown id; otherwise store the record with the new quantity and
        append it to the results. */
    method BulkUpdateIngredientQuantities(updates: seq<QuantityUpdate>, clock: nat -> string)
      returns (results: seq<Ingredient>)
      requires Valid()
      modifies this
      ensures Valid()
      ensures ingredients == BulkTable(old(ingredients), updates, clock)
      ensures results == BulkResults(old(ingredients), updates, clock)
      ensures sales == old(sales) && familyProfiles == old(familyProfiles)
    {
      results := [];
      ghost var start := ingredients;
      for i := 0 to |updates|
        invariant Valid()
        invariant ingredients == BulkTable(start, updates[..i], clock)
        invariant results == BulkResults(start, updates[..i], clock)
        invariant sales == old(sales) && familyProfiles == old(familyProfiles)
      {
        assert updates[..i + 1][..i] == updates[..i];
        var update := updates[i];
        var ingredient := GetIngredientById(update.id);
        if ingredient.None? {
          continue;
        }
        var next := ingredient.value.(quantity := update.quantity, updatedAt := clock(i));
        ingredients := ingredients.Set(next.id, next);
        results := results + [next];
      }
      assert updates[..|updates|] == updates;
    }

    // Sales

    /** `listSales`: the stored sales ordered by name. */
    function ListSales(): (r: seq<Sale>)
      reads this
      requires Valid()
      ensures multiset(r) == multiset(sales.Values())
      ensures forall i, j :: 0 <= i < j < |r| ==> LexLe(r[i].name, r[j].name)
    {
      SortByNameCorrect(sales.Values());
      SortByName(sales.Values())
    }

    function GetSaleById(id: string): (r: Option<Sale>)
      reads this
      requires Valid()
      ensures r.Some? <==> id in sales.entries
      ensures r.Some? ==> r.value.id == id && r.value == sales.entries[id]
    {
      sales.Get(id)
    }

    /** `createSale`: the stored discounted price is always computed. */
    method CreateSale(payload: SalePayload, id: string, now: string) returns (sale: Sale)
      requires Valid()
      modifies this
      ensures Valid()
      ensures sale == NewSale(id, now, payload)
      ensures sales == old(sales).Set(id, sale)
      ensures ingredients == old(ingredients) && familyProfiles == old(familyProfiles)
    {
      sale := NewSale(id, now, payload);
      sales := sales.Set(sale.id, sale);
    }

    /** `updateSale` */
    method UpdateSale(id: string, payload: SalePayload, now: string) returns (r: Result<Sale, string>)
      requires Valid()
      modifies this
      ensures Valid()
      ensures id !in old(sales.entries) ==> r == Err("Sale not found") && sales == old(sales)
      ensures id in old(sales.entries) ==>
        && r == Ok(UpdatedSale(old(sales.entries[id]), id, now, payload))
        && sales == old(sales).Set(id, r.value)
      ensures ingredients == old(ingredients) && familyProfiles == old(familyProfiles)
    {
      var existing := GetSaleById(id);
      if existing.None? {
        return Err("Sale not found");
      }
      var updated := UpdatedSale(existing.value, id, now, payload);
      sales := sales.Set(id, updated);
      r := Ok(updated);
    }

    method DeleteSale(id: string)
      requires Valid()
      modifies this
      ensures Valid()
      ensures sales == old(sales).Delete(id)
      ensures ingredients == old(ingredients) && familyProfiles == old(familyProfiles)
    {
      sales := sales.Delete(id);
    }

    // Family members

    /** `listFamilyMembers`: the stored members in insertion order. */
    function ListFamilyMembers(): (r: seq<FamilyMember>)
      reads this
      requires Valid()
      ensures |r| == |familyProfiles.keys|
      ensures forall i :: 0 <= i < |r| ==> r[i] == familyProfiles.entries[familyProfiles.keys[i]]
      ensures forall i :: 0 <= i < |r| ==> r[i].id == familyProfiles.keys[i]
    {
      familyProfiles.Values()
    }

    function GetFamilyMemberById(id: string): (r: Option<FamilyMember>)
      reads this
      requires Valid()
      ensures r.Some? <==> id in familyProfiles.entries
      ensures r.Some? ==> r.value.id == id && r.value == familyProfiles.entries[id]
    {
      familyProfiles.Get(id)
    }

    method CreateFamilyMember(payload: FamilyMemberPayload, id: string, now: string) returns (member: FamilyMember)
      requires Valid()
      modifies this
      ensures Valid()
      ensures member == NewFamilyMember(id, now, payload)
      ensures familyProfiles == old(familyProfiles).Set(id, member)
      ensures ingredients == old(ingredients) && sales == old(sales)
    {
      member := NewFamilyMember(id, now, payload);
      familyProfiles := familyProfiles.Set(member.id, member);
    }

    method UpdateFamilyMember(id: string, payload: FamilyMemberPayload, now: string)
      returns (r: Result<FamilyMember, string>)
      requires Valid()
      modifies this
      ensures Valid()
      ensures id !in old(familyProfiles.entries) ==>
        r == Err("Family member not found") && familyProfiles == old(familyProfiles)
      ensures id in old(familyProfiles.entries) ==>
        && r == Ok(UpdatedFamilyMember(old(familyProfiles.entries[id]), id, now, payload))
        && familyProfiles == old(familyProfiles).Set(id, r.value)
      ensures ingredients == old(ingredients) && sales == old(sales)
    {
      var existing := GetFamilyMemberById(id);
      if existing.None? {
        return Err("Family member not found");
      }
      var updated := UpdatedFamilyMember(existing.value, id, now, payload);
      familyProfiles := familyProfiles.Set(id, updated);
      r := Ok(updated);
    }

    method DeleteFamilyMember(id: string)
      requires Valid()
      modifies this
      ensures Valid()
      ensures familyProfiles == old(familyProfiles).Delete(id)
      ensures ingredients == old(ingredients) && sales == old(sales)
    {
      familyProfiles := familyProfiles.Delete(id);
    }
  }

  /** Seeding an empty store lists the sample ingredients in their order. */
  lemma SeededIngredientsListed(ids: seq<string>, isoNow: string, dayAfter: nat -> string)
    requires |ids| == 3 && Distinct(ids)
    ensures var items := SampleIngredients(ids, isoNow, dayAfter);
      PutAll(EmptyTable(), items, IngredientId).Values() == items
  {
    PutAllFresh(EmptyTable(), SampleIngredients(ids, isoNow, dayAfter), IngredientId);
  }

  /** Seeding an empty store lists the sample sales in their order. */
  lemma SeededSalesListed(ids: seq<string>, isoNow: string, dayAfter: nat -> string)
    requires |ids| == 2 && Distinct(ids)
    ensures var items := SampleSales(ids, isoNow, dayAfter);
      PutAll(EmptyTable(), items, SaleId).Values() == items
  {
    PutAllFresh(EmptyTable(), SampleSales(ids, isoNow, dayAfter), SaleId);
  }

  /** Seeding an empty store lists the sample family members in their order. */
  lemma SeededFamiliesListed(ids: seq<string>, isoNow: string)
    requires |ids| == 3 && Distinct(ids)
    ensures var items := SampleFamilies(ids, isoNow);
      PutAll(EmptyTable(), items, FamilyMemberId).Values() == items
  {
    PutAllFresh(EmptyTable(), SampleFamilies(ids, isoNow), FamilyMemberId);
  }
}
