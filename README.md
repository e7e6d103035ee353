# Same-SKU inventory sync, modelled in Dafny

This project models the core of a Shopify app's `inventory_levels/update`
webhook handler. When the available quantity of one inventory item changes
at one location, the handler does four things:

- it looks up that item's SKU;
- it fetches the variants the catalog search `sku:<sku>` returns (one page of
  at most 50). It takes that list as given and never compares a variant's own
  `sku` with the trigger's;
- it builds a change list with one entry for each variant that has an inventory item id;
- it sends one `inventorySetQuantities` mutation that sets the new quantity on
  all of those items at the same location, with name `available`, reason
  `correction` and `ignoreCompareQuantity: true`.

Every delivery that passes authentication is acknowledged with status 200.

The three catalog calls are inputs. Each one is either an answer or a
`Fault`, which stands for a request or JSON parse that threw and was caught
by the handler. A run records which calls were issued, in order, and how it
ended. That record is what the properties speak about: which calls happen,
with which query and which payload.

Modules:

- `Wrappers` (`wrappers.dfy`): `Option`, used for `null`/`undefined` and `??`.
- `GlobalIds` (`global_ids.dfy`): the `gid://shopify/<Type>/<id>` strings. The
  decimal rendering of a legacy id, and a parser that reads it back.
- `ChangeList` (`change_list.dfy`): the `changes` loop, as the method
  `BuildChanges`. It is proved equal to the function `Changes`, and `Changes`
  is characterised through an independent reference, `ItemPositions`.
- `SameSkuSync` (`same_sku_sync.dfy`): `syncSameSkuInventory`, as the method
  `SyncSameSkuInventory`. It is specified by the function `SyncRun`, with the
  short-circuit and payload lemmas.
- `InventoryLevelsWebhook` (`webhook_action.dfy`): `action`, as the method
  `Action`. It is specified by `ActionResult`: topic filter, null checks,
  session outcome, status.

The code does not de-duplicate item ids: a repeated inventory item id in the
variant list gives a repeated change entry.

## Model

| member | source | states |
|---|---|---|
| GlobalIds.Decimal | app/routes/webhooks.inventory-levels-update.ts:26-27 | the interpolated legacy id is a non-empty string of decimal digits with no leading zero |
| GlobalIds.Gid | app/routes/webhooks.inventory-levels-update.ts:26-27 | a global id starts with its type prefix and has something after it |
| GlobalIds.GidRoundTrip | app/routes/webhooks.inventory-levels-update.ts:26-27 | parsing the legacy id back out of a built global id returns the id it was built from |
| GlobalIds.GidInjective | app/routes/webhooks.inventory-levels-update.ts:26-27 | distinct legacy ids give distinct global ids of the same type |
| ChangeList.Changes | app/routes/webhooks.inventory-levels-update.ts:88-98 | the change list is no longer than the variant list; every entry has the trigger quantity and a non-empty item id |
| ChangeList.ItemPositions | app/routes/webhooks.inventory-levels-update.ts:90-92 | the reference selection: indices of variants whose `inventoryItem.id` is truthy, all within the list |
| ChangeList.ItemPositionsExact | app/routes/webhooks.inventory-levels-update.ts:90-92 | the selection is strictly increasing, and an index is in it if and only if that variant's item id is truthy |
| ChangeList.ChangesFollowItemPositions | app/routes/webhooks.inventory-levels-update.ts:88-98 | the k-th change carries the item id of the k-th variant with a truthy id: one entry per such variant, in the variants' order, none for the others |
| ChangeList.NoChangesIff | app/routes/webhooks.inventory-levels-update.ts:88-100 | the change list is empty if and only if no variant has a truthy item id |
| ChangeList.BuildChanges | app/routes/webhooks.inventory-levels-update.ts:88-98 | the push loop with its `continue` filter yields exactly `Changes` of the variants and the trigger quantity |
| SameSkuSync.SyncSameSkuInventory | app/routes/webhooks.inventory-levels-update.ts:12-151 | the sync's straight-line body, early returns included, produces the run `SyncRun` describes, with one to three calls |
| SameSkuSync.CallOrder | app/routes/webhooks.inventory-levels-update.ts:26-138 | the SKU lookup of the trigger item's global id comes first, the variant query second if at all, and a third call is always the mutation: at most one mutation, last |
| SameSkuSync.NoSkuStopsAfterLookup | app/routes/webhooks.inventory-levels-update.ts:43-51 | a missing or empty SKU ends the run after the lookup, with no variant query and no mutation |
| SameSkuSync.VariantQueryUsesSku | app/routes/webhooks.inventory-levels-update.ts:63-78 | with a truthy SKU the second call is the variant query `sku:<sku>` |
| SameSkuSync.NoVariantsNoMutation | app/routes/webhooks.inventory-levels-update.ts:80-86 | a missing or empty variant list ends the run after two calls, with no mutation |
| SameSkuSync.NoItemIdsNoMutation | app/routes/webhooks.inventory-levels-update.ts:100-106 | variants none of which has a truthy item id end the run with no mutation |
| SameSkuSync.MutationIssuedIff | app/routes/webhooks.inventory-levels-update.ts:45-138 | the mutation is sent if and only if the SKU is truthy, the variant query answered, and some variant has a truthy item id |
| SameSkuSync.MutationPayload | app/routes/webhooks.inventory-levels-update.ts:125-136 | the payload has name `available`, reason `correction` and `ignoreCompareQuantity` true, and one entry per variant with a truthy item id in order; each entry has the trigger location's global id and the new quantity |
| SameSkuSync.MutationWithinPageSize | app/routes/webhooks.inventory-levels-update.ts:66 | when the catalog keeps to the 50-variant page, the mutation has at most 50 entries |
| SameSkuSync.UserErrorsOnlyReported | app/routes/webhooks.inventory-levels-update.ts:140-150 | the user errors returned change neither the calls made nor whether the run ends as applied |
| SameSkuSync.SameSkuExample | app/routes/webhooks.inventory-levels-update.ts:12-151 | a worked case: SKU `ABC` shared by items 1, 2, 3 and one variant without an item gives one mutation setting 7 on items 1, 2, 3 at location 1 |
| InventoryLevelsWebhook.Normalise | app/routes/webhooks.inventory-levels-update.ts:159-179 | a non-matching topic is exactly the ignored case; a skip means some field was null or absent; a usable event carries the three payload numbers unchanged |
| InventoryLevelsWebhook.Action | app/routes/webhooks.inventory-levels-update.ts:153-210 | the handler computes `ActionResult` and answers with status 200 |
| InventoryLevelsWebhook.AlwaysAcknowledged | app/routes/webhooks.inventory-levels-update.ts:161-209 | every path after authentication returns 200, including a missing session and a thrown catalog call |
| InventoryLevelsWebhook.OtherTopicIgnored | app/routes/webhooks.inventory-levels-update.ts:159-162 | a topic other than `INVENTORY_LEVELS_UPDATE` is ignored with 200 and makes no catalog call |
| InventoryLevelsWebhook.MissingFieldSkipped | app/routes/webhooks.inventory-levels-update.ts:168-179 | a null or absent item id, location id or quantity, or a missing body, skips with 200 and makes no catalog call |
| InventoryLevelsWebhook.SyncAttemptedIff | app/routes/webhooks.inventory-levels-update.ts:159-201 | the sync runs if and only if the topic matches, all three fields are present, and the offline session loaded |
| InventoryLevelsWebhook.SyncStartsWithTriggerLookup | app/routes/webhooks.inventory-levels-update.ts:26-40 | a synced delivery first looks up the SKU of the global id that carries the payload's item id |
| InventoryLevelsWebhook.ZeroAvailableIsSynced | app/routes/webhooks.inventory-levels-update.ts:170-179 | a quantity of 0 is not missing: the delivery is synced, and any mutation sets 0 on every entry |
| SameSkuSync.SyncRun | app/routes/webhooks.inventory-levels-update.ts:12-151 | a run makes one to three calls, the first the SKU lookup of the trigger item's global id; it ends with `NoSku` exactly when the lookup answered a falsy SKU; an applied run made all three calls |
| InventoryLevelsWebhook.ActionResult | app/routes/webhooks.inventory-levels-update.ts:153-210 | the status is 200; the sync runs exactly when the event is usable and the session loaded, and then the outcome is the sync's run on that event |
| GlobalIds.IntToString | app/routes/webhooks.inventory-levels-update.ts:26-27 | the rendering of `${id}`: a leading minus exactly for negative ids, then at least one decimal digit and nothing else |
| GlobalIds.InventoryItemGid | app/routes/webhooks.inventory-levels-update.ts:26 | the trigger item id starts with `gid://shopify/InventoryItem/` and parses back to the legacy id |
| GlobalIds.LocationGid | app/routes/webhooks.inventory-levels-update.ts:27 | the trigger location id starts with `gid://shopify/Location/` and parses back to the legacy id |
| SameSkuSync.Quantities | app/routes/webhooks.inventory-levels-update.ts:130-134 | one entry per change, with the change's item id and quantity, all at the given location |
| SameSkuSync.MutationFor | app/routes/webhooks.inventory-levels-update.ts:126-135 | the mutation input has name `available`, reason `correction`, `ignoreCompareQuantity` true and one quantity entry per change |
| SameSkuSync.Nodes | app/routes/webhooks.inventory-levels-update.ts:81 | `nodes ?? []`: a missing node list reads as empty, a present one as itself |
| InventoryLevelsWebhook.FieldsOf | app/routes/webhooks.inventory-levels-update.ts:168-170 | `body?.x`: every field of a missing body is absent, otherwise the body's own fields |
| ChangeList.IsTruthy | app/routes/webhooks.inventory-levels-update.ts:92 | an optional string is truthy exactly when it is neither absent nor the empty string |
| InventoryLevelsWebhook.IsNullish | app/routes/webhooks.inventory-levels-update.ts:173-175 | `x == null` holds for null and undefined only; any number, 0 included, is present |
| ChangeList.HasItemId | app/routes/webhooks.inventory-levels-update.ts:91-92 | `v.inventoryItem?.id` passes the `!` test exactly when it is neither absent nor the empty string |

## Left out

- Webhook authentication (`authenticate.webhook`) and the `shop` value are not modelled. The topic and payload are inputs.
- A request that fails `authenticate.webhook` (app/routes/webhooks.inventory-levels-update.ts:155, outside the `try`) throws out of the handler and is not acknowledged with 200. The model starts after authentication.
- The offline-session lookup (`getOfflineId`, `loadSession`) and building the GraphQL client are foreign calls. They become the input `SessionLoad`: loaded, not stored, or threw.
- The GraphQL transport, the query and mutation text, and `.json()` are not modelled. Each catalog answer is an input. A throw from any of them is `Fault`, which the handler's `try`/`catch` turns into an ended run and status 200.
- Logging (`console.log` / `console.error`) is not modelled. The user errors that would be logged are kept in the `Applied` outcome.
- `async`/`await` are not modelled: the calls are sequential, and the run's call list records their order.
- The `first: 50` page limit is applied by the server, not by this code. No precondition imposes it. `MutationWithinPageSize` states what follows when the server keeps to it.
- Payload values other than null, absent or an integer are not modelled: strings, booleans and fractions.
- IntToString: exact decimal rendering matches JavaScript's `${n}` only for safe integers (|n| <= 2^53 - 1). A payload number is an IEEE double, so larger integers cannot be held exactly, and JavaScript writes them in the shortest digits that read back to the same double (and from 1e21 on in exponent notation). `Field.Number` accepts any integer; the model is faithful only for safe integers.
- A variant node that is itself `null` is not modelled. It would throw inside the loop and be caught by the handler.
- Concurrent deliveries for the same SKU are not modelled; they are platform behaviour outside this code.
- The mutation re-triggering the webhook is not modelled either.
- Running the same delivery twice against the same catalog answers gives the same payload, because `SyncRun` is a function. No separate lemma states this.
