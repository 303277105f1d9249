/** The menu planner (components/menu-planner.tsx): which family members
    take part, the guard and payload of a suggestion request, the family
    form, and the inventory draft and update of an adopted menu. React
    state updates are modelled as the functions they apply to the previous
    state. */
module Planner {
  import opened Wrappers
  import opened Seqs
  import opened Text
  import opened Numeric
  import opened Types
  import opened Inventory
  import opened Validation
  import opened Portion

  // ---------------------------------------------------------------------
  // Selecting family members

  /** The ids of all members: the selection after loading, and after
      creating a member. */
  function AllIds(members: seq<FamilyMember>): (r: seq<string>)
    ensures |r| == |members|
    ensures forall i :: 0 <= i < |members| ==> r[i] == members[i].id
  {
    seq(|members|, i requires 0 <= i < |members| => members[i].id)
  }

  /** `selectedFamilies`: the members whose id is selected, in the order of
      the member list. */
  function SelectedFamilies(members: seq<FamilyMember>, ids: seq<string>): (r: seq<FamilyMember>)
    ensures forall i :: 0 <= i < |r| ==> r[i] in members && r[i].id in ids
  {
    FilterSatisfies(members, (m: FamilyMember) => m.id in ids);
    FilterMembers(members, (m: FamilyMember) => m.id in ids);
    Filter(members, (m: FamilyMember) => m.id in ids)
  }

  /** Every member whose id is selected is taken. */
  lemma SelectedFamiliesComplete(members: seq<FamilyMember>, ids: seq<string>, m: FamilyMember)
    requires m in members && m.id in ids
    ensures m in SelectedFamilies(members, ids)
  {
    FilterMembers(members, (x: FamilyMember) => x.id in ids);
  }

  /** After loading, every member is selected. */
  lemma InitialSelectionTakesEveryone(members: seq<FamilyMember>)
    ensures SelectedFamilies(members, AllIds(members)) == members
  {
    var ids := AllIds(members);
    forall i | 0 <= i < |members| ensures members[i].id in ids {
      assert ids[i] == members[i].id;
    }
    FilterAll(members, (m: FamilyMember) => m.id in ids);
  }

  /** `toggleFamilySelection`: a selected id is removed (every copy of it),
      an unselected one is appended. */
  function ToggleSelection(prev: seq<string>, id: string): (r: seq<string>)
    ensures id in r <==> id !in prev
  {
    if id in prev then
      FilterSatisfies(prev, (x: string) => x != id);
      Filter(prev, (x: string) => x != id)
    else prev + [id]
  }

  /** Toggling leaves the other ids where they were: the selection without
      `id` is the same sequence before and after. */
  lemma ToggleKeepsOthers(prev: seq<string>, id: string)
    ensures Filter(ToggleSelection(prev, id), (x: string) => x != id) == Filter(prev, (x: string) => x != id)
    ensures forall x :: x != id ==> (x in ToggleSelection(prev, id) <==> x in prev)
  {
    var p := (x: string) => x != id;
    FilterMembers(prev, p);
    if id in prev {
      FilterIdempotent(prev, p);
    } else {
      FilterAppend(prev, [id], p);
      assert Filter([id], p) == [];
    }
  }

  /** Toggling twice restores which ids are selected. */
  lemma ToggleTwice(prev: seq<string>, id: string, x: string)
    ensures x in ToggleSelection(ToggleSelection(prev, id), id) <==> x in prev
  {
    if x != id {
      ToggleKeepsOthers(prev, id);
      ToggleKeepsOthers(ToggleSelection(prev, id), id);
    }
  }

  /** The selection after deleting the member with id `id`. */
  function RemoveFromSelection(prev: seq<string>, id: string): (r: seq<string>)
    ensures id !in r
  {
    FilterSatisfies(prev, (x: string) => x != id);
    Filter(prev, (x: string) => x != id)
  }

  /** Deleting a member deselects only that member. */
  lemma RemoveKeepsOthers(prev: seq<string>, id: string, x: string)
    requires x != id
    ensures x in RemoveFromSelection(prev, id) <==> x in prev
  {
    FilterMembers(prev, (y: string) => y != id);
  }

  /** The selection after saving a member: every refreshed member after a
      creation, unchanged after an edit. */
  function SelectionAfterSave(editingId: Option<string>, prev: seq<string>, refreshed: seq<FamilyMember>): (r: seq<string>)
    ensures editingId.None? ==> SelectedFamilies(refreshed, r) == refreshed
    ensures Present(editingId) ==> r == prev
  {
    if Present(editingId) then prev
    else
      InitialSelectionTakesEveryone(refreshed);
      AllIds(refreshed)
  }

  // ---------------------------------------------------------------------
  // Requesting suggestions

  /** The part of a member the request carries. */
  function RefOf(m: FamilyMember): FamilyRef {
    FamilyRef(m.id, m.name, m.lifeStage, m.appetite)
  }

  /** `suggestMenus`: no request when no member is selected; otherwise the
      stock, the sales and the selected members' id, name, life stage and
      appetite. */
  function SuggestRequest(ingredients: seq<Ingredient>, sales: seq<Sale>, members: seq<FamilyMember>, ids: seq<string>)
    : (r: Option<MenuSuggestionRequest>)
    ensures r.None? <==> |SelectedFamilies(members, ids)| == 0
    ensures r.Some? ==> r.value.ingredients == ingredients && r.value.sales == sales
    ensures r.Some? ==> |r.value.familyMembers| == |SelectedFamilies(members, ids)|
    ensures r.Some? ==> forall i :: 0 <= i < |r.value.familyMembers| ==>
      var m := SelectedFamilies(members, ids)[i];
      r.value.familyMembers[i] == FamilyRef(m.id, m.name, m.lifeStage, m.appetite)
  {
    var selected := SelectedFamilies(members, ids);
    if |selected| == 0 then None
    else
      Some(MenuSuggestionRequest(ingredients, sales,
        seq(|selected|, i requires 0 <= i < |selected| => RefOf(selected[i]))))
  }

  /** Nobody selected, nothing asked. */
  lemma NoRequestWithoutSelection(ingredients: seq<Ingredient>, sales: seq<Sale>, members: seq<FamilyMember>)
    ensures SuggestRequest(ingredients, sales, members, []).None?
  {
    FilterAllFail(members, (m: FamilyMember) => m.id in []);
  }

  // ---------------------------------------------------------------------
  // The family form

  /** The family form's four text fields. */
  datatype FamilyForm = FamilyForm(name: string, lifeStage: string, appetite: string, notes: string)

  /** The form after reset. */
  const EMPTY_FAMILY_FORM: FamilyForm := FamilyForm("", "", "普通", "")

  /** `startFamilyEdit`: the member's fields, absent notes as "". */
  function StartFamilyEdit(m: FamilyMember): (r: FamilyForm)
    ensures r.notes == "" <==> m.notes.None? || m.notes == Some("")
  {
    FamilyForm(m.name, m.lifeStage, m.appetite, OrEmpty(m.notes))
  }

  /** `saveFamilyMember`'s payload and checks: the name trimmed and
      required, the life stage required, the notes trimmed and dropped when
      empty. The appetite field is never null, so `?? "普通"` keeps it. */
  function SaveFamilyPayload(form: FamilyForm): (r: Result<FamilyMemberPayload, string>)
    ensures r.Ok? <==> Trim(form.name) != "" && form.lifeStage != ""
    ensures Trim(form.name) == "" ==> r == Err("名前を入力してください。")
    ensures Trim(form.name) != "" && form.lifeStage == "" ==> r == Err("ライフステージを選択してください。")
    ensures r.Ok? ==>
      && r.value.name == Trim(form.name) && IsTrimmed(r.value.name)
      && r.value.lifeStage == form.lifeStage && r.value.appetite == form.appetite
      && r.value.notes == NonEmptyOrNone(Trim(form.notes))
  {
    TrimSpec(form.name);
    var payload := FamilyMemberPayload(Trim(form.name), form.lifeStage, form.appetite, NonEmptyOrNone(Trim(form.notes)));
    if payload.name == "" then Err("名前を入力してください。")
    else if payload.lifeStage == "" then Err("ライフステージを選択してください。")
    else Ok(payload)
  }

  /** Editing a member and saving it unchanged sends the member's own
      fields back, when its name and notes are already trimmed. */
  lemma FamilyEditRoundTrip(m: FamilyMember)
    requires m.name != "" && IsTrimmed(m.name) && m.lifeStage != ""
    requires m.notes.Some? ==> m.notes.value != "" && IsTrimmed(m.notes.value)
    ensures SaveFamilyPayload(StartFamilyEdit(m)) == Ok(FamilyMemberPayload(m.name, m.lifeStage, m.appetite, m.notes))
  {
    TrimSpec(m.name);
    TrimSpec(OrEmpty(m.notes));
  }

  /** The client checks are weaker than the schema: a saved payload passes
      it exactly when the life stage and appetite are among the options. */
  lemma SavedPayloadSchema(form: FamilyForm)
    requires SaveFamilyPayload(form).Ok?
    ensures FamilyMemberInputValid(SaveFamilyPayload(form).value)
      <==> form.lifeStage in LIFE_STAGE_OPTIONS && form.appetite in APPETITE_OPTIONS
  {
  }

  // ---------------------------------------------------------------------
  // Adjusting the inventory after adopting a menu

  /** The draft after `startInventoryAdjustments` has gone through `useds`:
      only items with a non-empty id get a key. */
  function PlannerDraftOf(list: seq<Ingredient>, useds: seq<UsedIngredient>): map<string, FieldText>
    decreases |useds|
  {
    if useds == [] then map[]
    else
      var draft := PlannerDraftOf(list, useds[..|useds| - 1]);
      var used := useds[|useds| - 1];
      if Present(used.ingredientId) then draft[used.ingredientId.value := DraftValue(list, used)]
      else draft
  }

  /** `startInventoryAdjustments`'s loop. */
  method StartInventoryAdjustments(list: seq<Ingredient>, useds: seq<UsedIngredient>) returns (draft: map<string, FieldText>)
    ensures draft == PlannerDraftOf(list, useds)
  {
    draft := map[];
    for i := 0 to |useds|
      invariant draft == PlannerDraftOf(list, useds[..i])
    {
      assert useds[..i + 1][..i] == useds[..i];
      var used := useds[i];
      if Present(used.ingredientId) {
        draft := draft[used.ingredientId.value := DraftValue(list, used)];
      }
    }
    assert useds[..|useds|] == useds;
  }

  /** The draft has a key exactly for the non-empty ids of the used items;
      a name match alone gives none. */
  lemma {:induction false} PlannerDraftKeys(list: seq<Ingredient>, useds: seq<UsedIngredient>, k: string)
    ensures k in PlannerDraftOf(list, useds) <==>
      exists i :: 0 <= i < |useds| && Present(useds[i].ingredientId) && useds[i].ingredientId.value == k
    decreases |useds|
  {
    if useds != [] {
      var front := useds[..|useds| - 1];
      PlannerDraftKeys(list, front, k);
      if k in PlannerDraftOf(list, front) {
        var i :| 0 <= i < |front| && Present(front[i].ingredientId) && front[i].ingredientId.value == k;
        assert useds[i] == front[i];
      }
      if exists i :: 0 <= i < |useds| && Present(useds[i].ingredientId) && useds[i].ingredientId.value == k {
        var i :| 0 <= i < |useds| && Present(useds[i].ingredientId) && useds[i].ingredientId.value == k;
        if i < |front| {
          assert front[i] == useds[i];
        }
      }
    }
  }

  /** One item's update: its id with the draft's number, 0 when the draft
      lacks the id; none without an id or for a `NaN` or negative number. */
  function PlannerUpdate(draft: map<string, FieldText>, used: UsedIngredient): (r: Option<QuantityUpdate>)
    ensures r.Some? ==> Present(used.ingredientId) && r.value.id == used.ingredientId.value && r.value.quantity >= 0.0
    ensures r.Some? && r.value.id in draft ==> ToNumber(draft[r.value.id]) == Num(r.value.quantity)
    ensures Present(used.ingredientId) && used.ingredientId.value !in draft ==>
      r == Some(QuantityUpdate(used.ingredientId.value, 0.0))
  {
    if !Present(used.ingredientId) then None
    else
      var id := used.ingredientId.value;
      var quantity := if id in draft then ToNumber(draft[id]) else Num(0.0);
      if quantity.NaN? || quantity.value < 0.0 then None
      else Some(QuantityUpdate(id, quantity.value))
  }

  /** `updateInventory`'s list: the items' updates, in menu order. */
  function PlannerUpdates(draft: map<string, FieldText>, useds: seq<UsedIngredient>): (r: seq<QuantityUpdate>)
    ensures |r| <= |useds|
    ensures forall i :: 0 <= i < |r| ==> r[i].id != "" && r[i].quantity >= 0.0
  {
    if useds == [] then []
    else
      var rest := PlannerUpdates(draft, useds[1..]);
      match PlannerUpdate(draft, useds[0])
      case None => rest
      case Some(u) => [u] + rest
  }

  /** A non-empty update list is what the bulk endpoint's schema accepts. */
  lemma PlannerUpdatesAreValid(draft: map<string, FieldText>, useds: seq<UsedIngredient>)
    requires |PlannerUpdates(draft, useds)| > 0
    ensures BulkQuantityValid(PlannerUpdates(draft, useds))
  {
  }

  /** Every update names an item of the menu that has that id. */
  lemma {:induction false} PlannerUpdatesNameMenuItems(draft: map<string, FieldText>, useds: seq<UsedIngredient>, i: nat)
    requires i < |PlannerUpdates(draft, useds)|
    ensures exists j :: 0 <= j < |useds| && useds[j].ingredientId == Some(PlannerUpdates(draft, useds)[i].id)
    decreases |useds|
  {
    var rest := PlannerUpdates(draft, useds[1..]);
    match PlannerUpdate(draft, useds[0])
    case None =>
      PlannerUpdatesNameMenuItems(draft, useds[1..], i);
      var j :| 0 <= j < |useds[1..]| && useds[1..][j].ingredientId == Some(rest[i].id);
      assert useds[j + 1] == useds[1..][j];
    case Some(u) =>
      if i > 0 {
        PlannerUpdatesNameMenuItems(draft, useds[1..], i - 1);
        var j :| 0 <= j < |useds[1..]| && useds[1..][j].ingredientId == Some(rest[i - 1].id);
        assert useds[j + 1] == useds[1..][j];
      }
  }

  /** When exactly one item has id `k`, the draft holds that item's next
      quantity under `k`. */
  lemma {:induction false} PlannerDraftValueOfOnlyItem(list: seq<Ingredient>, useds: seq<UsedIngredient>, i: nat)
    requires i < |useds| && Present(useds[i].ingredientId)
    requires forall j :: 0 <= j < |useds| && j != i ==> useds[j].ingredientId != useds[i].ingredientId
    ensures useds[i].ingredientId.value in PlannerDraftOf(list, useds)
    ensures PlannerDraftOf(list, useds)[useds[i].ingredientId.value] == DraftValue(list, useds[i])
    decreases |useds|
  {
    var front := useds[..|useds| - 1];
    if i < |front| {
      forall j | 0 <= j < |front| && j != i ensures front[j].ingredientId != front[i].ingredientId {
        assert front[j] == useds[j];
      }
      PlannerDraftValueOfOnlyItem(list, front, i);
      assert front[i] == useds[i];
    }
  }

  /** An item with an id whose draft entry is unedited and came from a
      stock match is sent with its next quantity. */
  lemma UneditedPlannerDraftSendsNextQuantity(list: seq<Ingredient>, useds: seq<UsedIngredient>, i: nat)
    requires i < |useds| && Present(useds[i].ingredientId) && FindIngredient(list, useds[i]).Some?
    requires forall j :: 0 <= j < |useds| && j != i ==> useds[j].ingredientId != useds[i].ingredientId
    ensures PlannerUpdate(PlannerDraftOf(list, useds), useds[i])
      == Some(QuantityUpdate(useds[i].ingredientId.value, NextQuantity(FindIngredient(list, useds[i]), useds[i])))
  {
    PlannerDraftValueOfOnlyItem(list, useds, i);
  }
}
