/**
 * The batch builder of the same-SKU sync: from the variants the `sku:<sku>`
 * search returned, one change per variant whose inventory item id is truthy,
 * in the order the catalog returned the variants, each carrying the trigger
 * quantity.
 */
module ChangeList {
  import opened Wrappers

  /**
   * A variant as the variants-by-SKU query returns it. Only `inventoryItem.id`
   * is read; `None` stands for a missing `inventoryItem` or a null id.
   */
  datatype Variant = Variant(inventoryItemId: Option<string>)

  /** One entry of the `changes` list. */
  datatype Change = Change(inventoryItemId: string, quantity: int)

  /** JavaScript truthiness of an optional string: present and not empty. */
  predicate IsTruthy(s: Option<string>)
    ensures IsTruthy(s) <==> s != None && s != Some("")
  {
    s.Some? && s.value != ""
  }

  /** `v.inventoryItem?.id` read and tested with `!`: the variant has a usable item id. */
  predicate HasItemId(v: Variant)
    ensures HasItemId(v) <==> v.inventoryItemId != None && v.inventoryItemId != Some("")
  {
    IsTruthy(v.inventoryItemId)
  }

  /** The change list for `variants`, as the builder loop leaves it. */
  function Changes(variants: seq<Variant>, quantity: int): (cs: seq<Change>)
    ensures |cs| <= |variants|
    ensures forall k :: 0 <= k < |cs| ==> cs[k].quantity == quantity && cs[k].inventoryItemId != ""
    decreases |variants|
  {
    if variants == [] then []
    else
      var last := variants[|variants| - 1];
      var earlier := Changes(variants[..|variants| - 1], quantity);
      if HasItemId(last) then earlier + [Change(last.inventoryItemId.value, quantity)] else earlier
  }

  /** The positions, in increasing order, of the variants that carry a truthy item id. */
  function ItemPositions(variants: seq<Variant>): (pos: seq<nat>)
    ensures forall k :: 0 <= k < |pos| ==> pos[k] < |variants|
    decreases |variants|
  {
    if variants == [] then []
    else
      var earlier := ItemPositions(variants[..|variants| - 1]);
      if HasItemId(variants[|variants| - 1]) then earlier + [|variants| - 1] else earlier
  }

  predicate StrictlyIncreasing(pos: seq<nat>)
  {
    forall i, j :: 0 <= i < j < |pos| ==> pos[i] < pos[j]
  }

  /** ItemPositions lists exactly the variants with a truthy item id, each once, in order. */
  lemma {:induction false} ItemPositionsExact(variants: seq<Variant>)
    ensures StrictlyIncreasing(ItemPositions(variants))
    ensures forall j :: 0 <= j < |variants| ==> (j in ItemPositions(variants) <==> HasItemId(variants[j]))
    decreases |variants|
  {
    if variants != [] {
      var n := |variants|;
      var init := variants[..n - 1];
      ItemPositionsExact(init);
      var earlier := ItemPositions(init);
      forall j | 0 <= j < n - 1
        ensures j in ItemPositions(variants) <==> HasItemId(variants[j])
      {
        assert variants[j] == init[j];
      }
      assert n - 1 !in earlier;
    }
  }

  /**
   * The k-th change belongs to the k-th variant with a truthy item id: the
   * change list is that selection of the variants, in the same order.
   */
  lemma {:induction false} ChangesFollowItemPositions(variants: seq<Variant>, quantity: int)
    ensures |Changes(variants, quantity)| == |ItemPositions(variants)|
    ensures forall k :: 0 <= k < |Changes(variants, quantity)| ==>
              variants[ItemPositions(variants)[k]].inventoryItemId == Some(Changes(variants, quantity)[k].inventoryItemId)
    decreases |variants|
  {
    if variants != [] {
      var n := |variants|;
      var init := variants[..n - 1];
      ChangesFollowItemPositions(init, quantity);
      var cs, pos := Changes(variants, quantity), ItemPositions(variants);
      var cs0, pos0 := Changes(init, quantity), ItemPositions(init);
      forall k | 0 <= k < |cs|
        ensures variants[pos[k]].inventoryItemId == Some(cs[k].inventoryItemId)
      {
        if k < |cs0| {
          assert cs[k] == cs0[k] && pos[k] == pos0[k];
          assert variants[pos0[k]] == init[pos0[k]];
        }
      }
    }
  }

  /** The change list is empty exactly when no variant has a truthy item id. */
  lemma NoChangesIff(variants: seq<Variant>, quantity: int)
    ensures Changes(variants, quantity) == [] <==> forall j :: 0 <= j < |variants| ==> !HasItemId(variants[j])
  {
    ChangesFollowItemPositions(variants, quantity);
    ItemPositionsExact(variants);
    var pos := ItemPositions(variants);
    if |pos| > 0 {
      assert pos[0] in pos;
    }
  }

  /** The source's `for (const v of variants)` loop with its `continue` filter. */
  method BuildChanges(variants: seq<Variant>, newAvailable: int) returns (changes: seq<Change>)
    ensures changes == Changes(variants, newAvailable)
  {
    changes := [];
    for i := 0 to |variants|
      invariant changes == Changes(variants[..i], newAvailable)
    {
      assert variants[..i + 1][..i] == variants[..i];
      var inventoryItemId := variants[i].inventoryItemId;
      if !IsTruthy(inventoryItemId) {
        continue;
      }
      changes := changes + [Change(inventoryItemId.value, newAvailable)];
    }
    assert variants[..|variants|] == variants;
  }
}
