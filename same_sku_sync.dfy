/**
 * `syncSameSkuInventory`: resolve the trigger item's SKU, fetch the variants
 * the search `sku:<sku>` returns, and set the trigger quantity on each of
 * them whose inventory item id is truthy, at the trigger location, in one
 * `inventorySetQuantities` mutation. The three catalog
 * calls are inputs (their answers, or a fault when the call throws); the run
 * records which calls were issued, in order, and how it ended.
 */
module SameSkuSync {
  import opened Wrappers
  import opened GlobalIds
  import opened ChangeList

  /** The validated fields of the webhook payload. */
  datatype TriggerEvent = TriggerEvent(itemLegacyId: int, locationLegacyId: int, available: int)

  /** One element of the mutation's `quantities`. */
  datatype QuantityEntry = QuantityEntry(inventoryItemId: string, locationId: string, quantity: int)

  /** The `input` variable of the `inventorySetQuantities` mutation. */
  datatype MutationInput = MutationInput(
    name: string,
    reason: string,
    ignoreCompareQuantity: bool,
    quantities: seq<QuantityEntry>)

  datatype UserError = UserError(field: seq<string>, message: string)

  /** What a catalog call gave back: an answer, or a fault (the request or its JSON parse threw). */
  datatype Reply<T> = Answer(value: T) | Fault

  /**
   * The catalog's answers for this run. The SKU is `data.inventoryItem.sku`,
   * the variants `data.productVariants.nodes`, the errors
   * `data.inventorySetQuantities.userErrors`; `None` is a missing path.
   */
  datatype Catalog = Catalog(
    skuReply: Reply<Option<string>>,
    variantsReply: Reply<Option<seq<Variant>>>,
    setReply: Reply<Option<seq<UserError>>>)

  datatype CatalogCall =
    | SkuLookup(itemId: string)
    | VariantQuery(query: string)
    | SetQuantities(input: MutationInput)

  datatype SyncEnd = NoSku | NoVariants | NoChanges | Applied(userErrors: seq<UserError>) | Threw

  datatype Run = Run(calls: seq<CatalogCall>, end: SyncEnd)

  const QuantityName: string := "available"
  const CorrectionReason: string := "correction"
  const SkuFilter: string := "sku:"
  /** The page size the variants query asks for (`first: 50`). */
  const VariantPageSize: nat := 50

  /** The `changes.map(...)` that places every change at the trigger location. */
  function Quantities(changes: seq<Change>, locationId: string): (entries: seq<QuantityEntry>)
    ensures |entries| == |changes|
    ensures forall k :: 0 <= k < |entries| ==>
      && entries[k].inventoryItemId == changes[k].inventoryItemId
      && entries[k].locationId == locationId
      && entries[k].quantity == changes[k].quantity
  {
    seq(|changes|, k requires 0 <= k < |changes| =>
      QuantityEntry(changes[k].inventoryItemId, locationId, changes[k].quantity))
  }

  function MutationFor(changes: seq<Change>, locationId: string): (input: MutationInput)
    ensures input.name == "available" && input.reason == "correction" && input.ignoreCompareQuantity
    ensures |input.quantities| == |changes|
  {
    MutationInput(QuantityName, CorrectionReason, true, Quantities(changes, locationId))
  }

  /** The variant list the code works with: `nodes ?? []`. */
  function Nodes(nodes: Option<seq<Variant>>): (variants: seq<Variant>)
    ensures nodes.None? ==> variants == []
    ensures nodes.Some? ==> variants == nodes.value
  {
    nodes.GetOr([])
  }

  /** The run `syncSameSkuInventory` performs for the trigger against the catalog's answers. */
  function SyncRun(trigger: TriggerEvent, catalog: Catalog): (run: Run)
    ensures 1 <= |run.calls| <= 3
    ensures run.calls[0] == SkuLookup(InventoryItemGid(trigger.itemLegacyId))
    ensures run.end == NoSku <==> catalog.skuReply.Answer? && !IsTruthy(catalog.skuReply.value)
    ensures run.end.Applied? ==> |run.calls| == 3 && catalog.setReply.Answer?
  {
    var lookup := SkuLookup(InventoryItemGid(trigger.itemLegacyId));
    match catalog.skuReply
    case Fault => Run([lookup], Threw)
    case Answer(sku) =>
      if !IsTruthy(sku) then Run([lookup], NoSku)
      else
        var query := VariantQuery(SkuFilter + sku.value);
        match catalog.variantsReply
        case Fault => Run([lookup, query], Threw)
        case Answer(nodes) =>
          var variants := Nodes(nodes);
          if |variants| == 0 then Run([lookup, query], NoVariants)
          else
            var changes := Changes(variants, trigger.available);
            if |changes| == 0 then Run([lookup, query], NoChanges)
            else
              var mutation := SetQuantities(MutationFor(changes, LocationGid(trigger.locationLegacyId)));
              match catalog.setReply
              case Fault => Run([lookup, query, mutation], Threw)
              case Answer(errors) => Run([lookup, query, mutation], Applied(errors.GetOr([])))
  }

  /** The straight-line body of `syncSameSkuInventory`, early returns included. */
  method SyncSameSkuInventory(trigger: TriggerEvent, catalog: Catalog) returns (run: Run)
    ensures run == SyncRun(trigger, catalog)
    ensures 1 <= |run.calls| <= 3
  {
    var triggerInventoryItemGid := InventoryItemGid(trigger.itemLegacyId);
    var triggerLocationGid := LocationGid(trigger.locationLegacyId);
    var calls := [SkuLookup(triggerInventoryItemGid)];
    if catalog.skuReply.Fault? {
      return Run(calls, Threw);
    }
    var sku := catalog.skuReply.value;
    if !IsTruthy(sku) {
      return Run(calls, NoSku);
    }
    calls := calls + [VariantQuery(SkuFilter + sku.value)];
    if catalog.variantsReply.Fault? {
      return Run(calls, Threw);
    }
    var variants := Nodes(catalog.variantsReply.value);
    if |variants| == 0 {
      return Run(calls, NoVariants);
    }
    var changes := BuildChanges(variants, trigger.available);
    if |changes| == 0 {
      return Run(calls, NoChanges);
    }
    calls := calls + [SetQuantities(MutationFor(changes, triggerLocationGid))];
    if catalog.setReply.Fault? {
      return Run(calls, Threw);
    }
    run := Run(calls, Applied(catalog.setReply.value.GetOr([])));
  }

  predicate IssuesMutation(run: Run)
  {
    exists k :: 0 <= k < |run.calls| && run.calls[k].SetQuantities?
  }

  /** True when the SKU lookup answered with a truthy SKU. */
  predicate SkuFound(catalog: Catalog)
  {
    catalog.skuReply.Answer? && IsTruthy(catalog.skuReply.value)
  }

  /**
   * Calls come in a fixed order: the SKU lookup for the trigger item first,
   * then at most the variant query, then at most one mutation, which is last.
   */
  lemma CallOrder(trigger: TriggerEvent, catalog: Catalog)
    ensures var calls := SyncRun(trigger, catalog).calls;
      && 1 <= |calls| <= 3
      && calls[0] == SkuLookup(InventoryItemGid(trigger.itemLegacyId))
      && (|calls| >= 2 ==> calls[1].VariantQuery?)
      && (|calls| == 3 ==> calls[2].SetQuantities?)
      && (forall k :: 0 <= k < |calls| && calls[k].SetQuantities? ==> k == 2 == |calls| - 1)
  {
  }

  /** A falsy SKU (absent or empty) ends the run after the lookup: no query, no mutation. */
  lemma NoSkuStopsAfterLookup(trigger: TriggerEvent, catalog: Catalog)
    requires catalog.skuReply.Answer? && !IsTruthy(catalog.skuReply.value)
    ensures SyncRun(trigger, catalog) == Run([SkuLookup(InventoryItemGid(trigger.itemLegacyId))], NoSku)
  {
  }

  /** With a truthy SKU the second call is the query `sku:<sku>`. */
  lemma VariantQueryUsesSku(trigger: TriggerEvent, catalog: Catalog)
    requires SkuFound(catalog)
    ensures var calls := SyncRun(trigger, catalog).calls;
      |calls| >= 2 && calls[1] == VariantQuery("sku:" + catalog.skuReply.value.value)
  {
  }

  /** An empty or missing variant list ends the run after the query. */
  lemma NoVariantsNoMutation(trigger: TriggerEvent, catalog: Catalog)
    requires SkuFound(catalog)
    requires catalog.variantsReply.Answer? && Nodes(catalog.variantsReply.value) == []
    ensures SyncRun(trigger, catalog).end == NoVariants
    ensures |SyncRun(trigger, catalog).calls| == 2
    ensures !IssuesMutation(SyncRun(trigger, catalog))
  {
  }

  /** Variants none of which has a truthy inventory item id give no mutation. */
  lemma NoItemIdsNoMutation(trigger: TriggerEvent, catalog: Catalog)
    requires SkuFound(catalog) && catalog.variantsReply.Answer?
    requires var vs := Nodes(catalog.variantsReply.value);
      |vs| > 0 && forall j :: 0 <= j < |vs| ==> !HasItemId(vs[j])
    ensures SyncRun(trigger, catalog).end == NoChanges
    ensures !IssuesMutation(SyncRun(trigger, catalog))
  {
    NoChangesIff(Nodes(catalog.variantsReply.value), trigger.available);
  }

  /**
   * The mutation is issued exactly when the SKU is truthy, the variant query
   * answered, and some variant has a truthy inventory item id.
   */
  lemma MutationIssuedIff(trigger: TriggerEvent, catalog: Catalog)
    ensures IssuesMutation(SyncRun(trigger, catalog)) <==>
      && SkuFound(catalog)
      && catalog.variantsReply.Answer?
      && exists j :: 0 <= j < |Nodes(catalog.variantsReply.value)| && HasItemId(Nodes(catalog.variantsReply.value)[j])
  {
    var run := SyncRun(trigger, catalog);
    if SkuFound(catalog) && catalog.variantsReply.Answer? {
      NoChangesIff(Nodes(catalog.variantsReply.value), trigger.available);
      if |run.calls| == 3 {
        assert run.calls[2].SetQuantities?;
      }
    }
  }

  /**
   * The mutation's payload: the constants `available`, `correction` and
   * `ignoreCompareQuantity`, then one entry per variant with a truthy
   * inventory item id, in the variants' order, each at the trigger location
   * with the trigger quantity.
   */
  lemma MutationPayload(trigger: TriggerEvent, catalog: Catalog, k: nat)
    requires k < |SyncRun(trigger, catalog).calls| && SyncRun(trigger, catalog).calls[k].SetQuantities?
    ensures SkuFound(catalog) && catalog.variantsReply.Answer?
    ensures var input := SyncRun(trigger, catalog).calls[k].input;
      var variants := Nodes(catalog.variantsReply.value);
      var pos := ItemPositions(variants);
      && input.name == "available"
      && input.reason == "correction"
      && input.ignoreCompareQuantity
      && |input.quantities| == |pos| > 0
      && forall i :: 0 <= i < |input.quantities| ==>
           && Some(input.quantities[i].inventoryItemId) == variants[pos[i]].inventoryItemId
           && input.quantities[i].locationId == LocationGid(trigger.locationLegacyId)
           && input.quantities[i].quantity == trigger.available
  {
    ChangesFollowItemPositions(Nodes(catalog.variantsReply.value), trigger.available);
  }

  /** When the catalog keeps to the page size, the mutation has at most that many entries. */
  lemma MutationWithinPageSize(trigger: TriggerEvent, catalog: Catalog, k: nat)
    requires catalog.variantsReply.Answer? && |Nodes(catalog.variantsReply.value)| <= VariantPageSize
    requires k < |SyncRun(trigger, catalog).calls| && SyncRun(trigger, catalog).calls[k].SetQuantities?
    ensures |SyncRun(trigger, catalog).calls[k].input.quantities| <= VariantPageSize
  {
  }

  /**
   * User errors returned by the mutation are only reported: the calls made
   * are the same and the run still ends as applied whatever the errors are.
   */
  lemma UserErrorsOnlyReported(trigger: TriggerEvent, catalog: Catalog, errors: Option<seq<UserError>>)
    requires catalog.setReply.Answer?
    ensures var other := catalog.(setReply := Answer(errors));
      && SyncRun(trigger, other).calls == SyncRun(trigger, catalog).calls
      && (SyncRun(trigger, other).end.Applied? <==> SyncRun(trigger, catalog).end.Applied?)
      && (SyncRun(trigger, catalog).end.Applied? <==> IssuesMutation(SyncRun(trigger, catalog)))
  {
    var run := SyncRun(trigger, catalog);
    if |run.calls| == 3 {
      assert run.calls[2].SetQuantities?;
    }
  }

  /**
   * The worked example: item 1 has SKU "ABC"; the variants with that SKU are
   * items 1, 2 and 3 plus one without an inventory item; an update to 7 at
   * location 1 sets 7 on the three items at that location.
   */
  lemma SameSkuExample()
    ensures var i1, i2, i3 := "gid://shopify/InventoryItem/1", "gid://shopify/InventoryItem/2", "gid://shopify/InventoryItem/3";
      var l1 := "gid://shopify/Location/1";
      var catalog := Catalog(
        Answer(Some("ABC")),
        Answer(Some([Variant(Some(i1)), Variant(None), Variant(Some(i2)), Variant(Some(i3))])),
        Answer(Some([])));
      SyncRun(TriggerEvent(1, 1, 7), catalog) == Run(
        [ SkuLookup(i1),
          VariantQuery("sku:ABC"),
          SetQuantities(MutationInput("available", "correction", true,
            [QuantityEntry(i1, l1, 7), QuantityEntry(i2, l1, 7), QuantityEntry(i3, l1, 7)]))],
        Applied([]))
  {
    var i1, i2, i3 := "gid://shopify/InventoryItem/1", "gid://shopify/InventoryItem/2", "gid://shopify/InventoryItem/3";
    var vs := [Variant(Some(i1)), Variant(None), Variant(Some(i2)), Variant(Some(i3))];
    assert vs[..1][..0] == [] && vs[..2][..1] == vs[..1] && vs[..3][..2] == vs[..2] && vs[..4][..3] == vs[..3];
    assert Changes(vs[..1], 7) == [Change(i1, 7)];
    assert Changes(vs[..2], 7) == [Change(i1, 7)];
    assert Changes(vs[..3], 7) == [Change(i1, 7), Change(i2, 7)];
    assert vs[..4] == vs;
    assert Changes(vs, 7) == [Change(i1, 7), Change(i2, 7), Change(i3, 7)];
    assert Decimal(1) == "1";
    assert InventoryItemGid(1) == i1;
    assert LocationGid(1) == "gid://shopify/Location/1";
    assert SkuFilter + "ABC" == "sku:ABC";
    var l1 := "gid://shopify/Location/1";
    assert Quantities(Changes(vs, 7), l1) == [QuantityEntry(i1, l1, 7), QuantityEntry(i2, l1, 7), QuantityEntry(i3, l1, 7)];
  }
}
