/**
 * The `inventory_levels/update` webhook handler: filter on the topic, pull
 * the three fields out of the payload, load the shop's offline session, run
 * the same-SKU sync, and acknowledge with status 200. The model starts after
 * the request has passed webhook authentication.
 */
module InventoryLevelsWebhook {
  import opened Wrappers
  import opened GlobalIds
  import opened ChangeList
  import opened SameSkuSync

  const InventoryLevelsUpdate: string := "INVENTORY_LEVELS_UPDATE"
  const Acknowledged: int := 200

  /** A payload field as JSON delivers it: missing, `null`, or a number. */
  datatype Field = Absent | Null | Number(value: int)

  /** The payload fields the handler reads. */
  datatype Payload = Payload(inventoryItemId: Field, locationId: Field, available: Field)

  /** What loading the shop's offline session gave: a session, nothing stored, or a thrown error. */
  datatype SessionLoad = Loaded | NotStored | LoadThrew

  datatype Normalised = OtherTopic | MissingFields | Usable(event: TriggerEvent)

  datatype Outcome =
    | IgnoredTopic
    | SkippedMissingFields
    | SkippedNoSession
    | SessionFailed
    | Synced(run: Run)

  datatype Response = Response(status: int, outcome: Outcome)

  /** JavaScript's `x == null`: true for `null` and `undefined` only, so `0` is not nullish. */
  predicate IsNullish(f: Field)
    ensures IsNullish(f) <==> !f.Number?
  {
    f.Absent? || f.Null?
  }

  /** `body?.<field>` for each field: every field of a missing body reads as undefined. */
  function FieldsOf(body: Option<Payload>): (fields: Payload)
    ensures body.None? ==> fields == Payload(Absent, Absent, Absent)
    ensures body.Some? ==> fields == body.value
  {
    body.GetOr(Payload(Absent, Absent, Absent))
  }

  /** The topic filter and the null checks that precede the sync. */
  function Normalise(topic: string, body: Option<Payload>): (n: Normalised)
    ensures n.OtherTopic? <==> topic != InventoryLevelsUpdate
    ensures n.MissingFields? ==>
      || IsNullish(FieldsOf(body).inventoryItemId)
      || IsNullish(FieldsOf(body).locationId)
      || IsNullish(FieldsOf(body).available)
    ensures n.Usable? ==>
      && body.Some?
      && body.value.inventoryItemId.Number? && body.value.locationId.Number? && body.value.available.Number?
      && n.event == TriggerEvent(body.value.inventoryItemId.value, body.value.locationId.value, body.value.available.value)
  {
    if topic != InventoryLevelsUpdate then OtherTopic
    else
      var fields := FieldsOf(body);
      var itemId, locationId, available := fields.inventoryItemId, fields.locationId, fields.available;
      if IsNullish(itemId) || IsNullish(locationId) || IsNullish(available) then MissingFields
      else Usable(TriggerEvent(itemId.value, locationId.value, available.value))
  }

  /** The response and outcome of the handler for one delivery. */
  function ActionResult(topic: string, body: Option<Payload>, session: SessionLoad, catalog: Catalog): (r: Response)
    ensures r.status == 200
    ensures r.outcome.Synced? <==> Normalise(topic, body).Usable? && session == Loaded
    ensures r.outcome.Synced? ==> r.outcome.run == SyncRun(Normalise(topic, body).event, catalog)
  {
    match Normalise(topic, body)
    case OtherTopic => Response(Acknowledged, IgnoredTopic)
    case MissingFields => Response(Acknowledged, SkippedMissingFields)
    case Usable(event) =>
      match session
      case NotStored => Response(Acknowledged, SkippedNoSession)
      case LoadThrew => Response(Acknowledged, SessionFailed)
      case Loaded => Response(Acknowledged, Synced(SyncRun(event, catalog)))
  }

  /** The catalog calls a delivery causes. */
  function CallsOf(r: Response): seq<CatalogCall>
  {
    if r.outcome.Synced? then r.outcome.run.calls else []
  }

  /** The handler `action`, with the session load and the catalog as inputs. */
  method Action(topic: string, body: Option<Payload>, session: SessionLoad, catalog: Catalog) returns (response: Response)
    ensures response == ActionResult(topic, body, session, catalog)
    ensures response.status == 200
  {
    if topic != InventoryLevelsUpdate {
      return Response(Acknowledged, IgnoredTopic);
    }
    var fields := FieldsOf(body);
    var triggerInventoryItemLegacyId := fields.inventoryItemId;
    var triggerLocationLegacyId := fields.locationId;
    var newAvailable := fields.available;
    if IsNullish(triggerInventoryItemLegacyId) || IsNullish(triggerLocationLegacyId) || IsNullish(newAvailable) {
      return Response(Acknowledged, SkippedMissingFields);
    }
    match session {
      case LoadThrew =>
        response := Response(Acknowledged, SessionFailed);
      case NotStored =>
        response := Response(Acknowledged, SkippedNoSession);
      case Loaded =>
        var event := TriggerEvent(triggerInventoryItemLegacyId.value, triggerLocationLegacyId.value, newAvailable.value);
        var run := SyncSameSkuInventory(event, catalog);
        response := Response(Acknowledged, Synced(run));
    }
  }

  /**
   * Every delivery that passes authentication is acknowledged with 200:
   * skips, missing session, thrown catalog calls alike.
   */
  lemma AlwaysAcknowledged(topic: string, body: Option<Payload>, session: SessionLoad, catalog: Catalog)
    ensures ActionResult(topic, body, session, catalog).status == 200
  {
  }

  /** Any other topic is ignored before the payload is read: no catalog call. */
  lemma OtherTopicIgnored(topic: string, body: Option<Payload>, session: SessionLoad, catalog: Catalog)
    requires topic != "INVENTORY_LEVELS_UPDATE"
    ensures ActionResult(topic, body, session, catalog) == Response(200, IgnoredTopic)
    ensures CallsOf(ActionResult(topic, body, session, catalog)) == []
  {
  }

  /** A null or missing field (or a missing body) skips the delivery: no session, no catalog call. */
  lemma MissingFieldSkipped(body: Option<Payload>, session: SessionLoad, catalog: Catalog)
    requires body.None? || IsNullish(body.value.inventoryItemId) || IsNullish(body.value.locationId) || IsNullish(body.value.available)
    ensures ActionResult("INVENTORY_LEVELS_UPDATE", body, session, catalog) == Response(200, SkippedMissingFields)
    ensures CallsOf(ActionResult("INVENTORY_LEVELS_UPDATE", body, session, catalog)) == []
  {
  }

  /** The sync runs exactly when the topic matches, all three fields are numbers and a session loaded. */
  lemma SyncAttemptedIff(topic: string, body: Option<Payload>, session: SessionLoad, catalog: Catalog)
    ensures ActionResult(topic, body, session, catalog).outcome.Synced? <==>
      && topic == "INVENTORY_LEVELS_UPDATE"
      && body.Some?
      && body.value.inventoryItemId.Number?
      && body.value.locationId.Number?
      && body.value.available.Number?
      && session == Loaded
  {
  }

  /** When the sync runs, its first call looks up the SKU of the trigger's inventory item global id. */
  lemma SyncStartsWithTriggerLookup(itemId: int, locationId: int, available: int, catalog: Catalog)
    ensures var r := ActionResult("INVENTORY_LEVELS_UPDATE",
                                  Some(Payload(Number(itemId), Number(locationId), Number(available))), Loaded, catalog);
      && r.outcome.Synced?
      && |CallsOf(r)| > 0
      && CallsOf(r)[0] == SkuLookup(InventoryItemGid(itemId))
      && LegacyId(InventoryItemPrefix, CallsOf(r)[0].itemId) == Some(itemId)
  {
    GidRoundTrip(InventoryItemPrefix, itemId);
  }

  /**
   * A quantity of 0 is not missing: the delivery is synced, and a mutation,
   * if one is issued, sets 0 on every entry.
   */
  lemma ZeroAvailableIsSynced(itemId: int, locationId: int, catalog: Catalog, k: nat)
    ensures var r := ActionResult("INVENTORY_LEVELS_UPDATE", Some(Payload(Number(itemId), Number(locationId), Number(0))), Loaded, catalog);
      && r.outcome.Synced?
      && (k < |CallsOf(r)| && CallsOf(r)[k].SetQuantities? ==>
            forall i :: 0 <= i < |CallsOf(r)[k].input.quantities| ==> CallsOf(r)[k].input.quantities[i].quantity == 0)
  {
    var trigger := TriggerEvent(itemId, locationId, 0);
    var run := SyncRun(trigger, catalog);
    if k < |run.calls| && run.calls[k].SetQuantities? {
      MutationPayload(trigger, catalog, k);
    }
  }
}
