# NiFi canvas labels, named-thread lookup and API Gateway requests, in Dafny

This project models three small pieces of Apache NiFi and proves properties of them.

- **The canvas label registry** (`nf-label.js`). The flow canvas keeps three maps:
  - `labelMap`: the labels on the canvas.
  - `addedCache`: id → time, for labels added recently.
  - `removedCache`: id → time, for labels removed recently.

  `add`, `set`, `remove`, `removeAll` and `expireCaches` update these maps in place. Module `CanvasLabel` models them as class `LabelCanvas`, with one field per map.
  - The two caches stop a stale server refresh from dropping a label that was just added, or from bringing back one that was just removed. The lemmas `AddedLabelNotDropped` and `RemovedLabelNotRestored` prove both.
  - The module also models the z-index sort comparator and the clamp/snap arithmetic of the resize drag handler.
- **Named-thread lookup** (`ThreadUtils.java`). Module `ThreadUtils` models it.
  - `getNamedThread` validates the name, walks up to the root thread group, and returns the first enumerated thread whose name matches ignoring case.
  - `consumeNamedThread` rejects a null consumer, then hands the found thread, if any, to the consumer.
- **API Gateway request and builder** (`GenericApiGatewayRequest.java`, `GenericApiGatewayRequestBuilder.java`).
  - Module `ApiGatewayRequest` models the immutable request record.
  - Module `ApiGatewayRequestBuilder` models the builder as a class. Its `with*` setters each overwrite one field. Its `build` checks the method and the resource path.

Files: `wrappers.dfy` (Option/Result), `canvas_label.dfy`, `thread_utils.dfy`, `api_gateway_request.dfy`, `api_gateway_request_builder.dfy`.

Abstractions:
- The current time (`new Date().getTime()`) is the parameter `now`.
- `nfClient.isNewerRevision` is a function parameter (`RevisionCheck`) about which nothing is assumed.
- Drag coordinates are integers.
- The JVM's `Thread.currentThread().getThreadGroup()`, `activeCount()` and `enumerate()` are abstracted as a `ThreadGroup` value. It holds the parent chain, the reported active count, and the threads enumerate would copy.
- The consumer's own effect is not modelled. `ConsumeNamedThread` instead returns the list of threads the consumer received.

## Model

| member | source | states |
|---|---|---|
| `CanvasLabel.LabelCanvas.constructor` | nifi-framework-bundle/nifi-framework/nifi-web/nifi-web-ui/src/main/webapp/js/nf/canvas/nf-label.js:96-361 | snapping starts enabled (the module-level flag) and init starts with an empty label map and empty added and removed caches |
| `CanvasLabel.LabelCanvas.AddOne` | nifi-framework-bundle/nifi-framework/nifi-web/nifi-web-ui/src/main/webapp/js/nf/canvas/nf-label.js:470-477 | the inner add stores the entity tagged `type: 'Label'` under its id and stamps the id in addedCache with `now`; removedCache is untouched |
| `CanvasLabel.LabelCanvas.Add` | nifi-framework-bundle/nifi-framework/nifi-web/nifi-web-ui/src/main/webapp/js/nf/canvas/nf-label.js:461-486 | add stores each entity of an array (or the single entity) in turn, stamps every given id with the same `now`, leaves removedCache alone, and does nothing for null/undefined |
| `CanvasLabel.AddEachFrame` | nifi-framework-bundle/nifi-framework/nifi-web/nifi-web-ui/src/main/webapp/js/nf/canvas/nf-label.js:470-486 | after add the label ids are exactly the old ids plus the given ids, and every label whose id was not given is unchanged |
| `CanvasLabel.AddEachStores` | nifi-framework-bundle/nifi-framework/nifi-web/nifi-web-ui/src/main/webapp/js/nf/canvas/nf-label.js:470-486 | each given entity ends up stored, tagged, under its id unless a later entity of the same call has the same id (last one wins) |
| `CanvasLabel.AddEachKeyed` | nifi-framework-bundle/nifi-framework/nifi-web/nifi-web-ui/src/main/webapp/js/nf/canvas/nf-label.js:474-476 | add keeps the invariant that every label is stored under its own id |
| `CanvasLabel.LabelCanvas.SetOne` | nifi-framework-bundle/nifi-framework/nifi-web/nifi-web-ui/src/main/webapp/js/nf/canvas/nf-label.js:515-524 | the inner set stores the proposed entity exactly when its revision is newer and its id is not in removedCache, or the check is overridden |
| `CanvasLabel.ProposeOne` | nifi-framework-bundle/nifi-framework/nifi-web/nifi-web-ui/src/main/webapp/js/nf/canvas/nf-label.js:519-523 | one proposal replaces or inserts the tagged entity when accepted and otherwise leaves the map (entry or absence) unchanged |
| `CanvasLabel.ProposeEachFrame` | nifi-framework-bundle/nifi-framework/nifi-web/nifi-web-ui/src/main/webapp/js/nf/canvas/nf-label.js:538-540 | proposing the entities never deletes a label, changes only proposed ids, and stores nothing but tagged proposed entities |
| `CanvasLabel.ProposeEachSkipsRemoved` | nifi-framework-bundle/nifi-framework/nifi-web/nifi-web-ui/src/main/webapp/js/nf/canvas/nf-label.js:519 | without the override, an id in removedCache is never inserted, replaced or deleted by set's proposals, whatever the revisions |
| `CanvasLabel.ProposeEachOverride` | nifi-framework-bundle/nifi-framework/nifi-web/nifi-web-ui/src/main/webapp/js/nf/canvas/nf-label.js:519-523 | with overrideRevisionCheck, set's proposals store every entity exactly as add does |
| `CanvasLabel.ProposeEachKeyed` | nifi-framework-bundle/nifi-framework/nifi-web/nifi-web-ui/src/main/webapp/js/nf/canvas/nf-label.js:520-522 | set keeps the invariant that every label is stored under its own id |
| `CanvasLabel.Prune` | nifi-framework-bundle/nifi-framework/nifi-web/nifi-web-ui/src/main/webapp/js/nf/canvas/nf-label.js:526-537 | the first pass of set with an array deletes a current label exactly when no proposed entity has its id and its id is not in addedCache, and changes no kept label |
| `CanvasLabel.LabelCanvas.DeleteAbsent` | nifi-framework-bundle/nifi-framework/nifi-web/nifi-web-ui/src/main/webapp/js/nf/canvas/nf-label.js:526-537 | the deletion loop leaves labelMap equal to the pruned map and both caches unchanged |
| `CanvasLabel.KeyList` | nifi-framework-bundle/nifi-framework/nifi-web/nifi-web-ui/src/main/webapp/js/nf/canvas/nf-label.js:527 | `Array.from(labelMap.keys())` lists every key exactly once |
| `CanvasLabel.LabelCanvas.Set` | nifi-framework-bundle/nifi-framework/nifi-web/nifi-web-ui/src/main/webapp/js/nf/canvas/nf-label.js:505-543 | set prunes (array only) and then proposes each entity; both caches are unchanged |
| `CanvasLabel.SetArrayKeepsRecentlyAdded` | nifi-framework-bundle/nifi-framework/nifi-web/nifi-web-ui/src/main/webapp/js/nf/canvas/nf-label.js:526-540 | after set with an array, a label the array does not mention survives if and only if its id is in addedCache, and then unchanged |
| `CanvasLabel.SetSingleNeverDeletes` | nifi-framework-bundle/nifi-framework/nifi-web/nifi-web-ui/src/main/webapp/js/nf/canvas/nf-label.js:541-543 | set with a single entity deletes no label and leaves every other id unchanged |
| `CanvasLabel.AddedLabelNotDropped` | nifi-framework-bundle/nifi-framework/nifi-web/nifi-web-ui/src/main/webapp/js/nf/canvas/nf-label.js:533-536 | a label just added survives, unchanged, a later set whose array leaves it out |
| `CanvasLabel.RemovedLabelNotRestored` | nifi-framework-bundle/nifi-framework/nifi-web/nifi-web-ui/src/main/webapp/js/nf/canvas/nf-label.js:515-543 | after remove, no set without the override brings a removed id back, whatever the refresh's revisions |
| `CanvasLabel.LabelCanvas.Get` | nifi-framework-bundle/nifi-framework/nifi-web/nifi-web-ui/src/main/webapp/js/nf/canvas/nf-label.js:565-571 | get(id) returns the label with that id when present and undefined otherwise |
| `CanvasLabel.LabelCanvas.GetAll` | nifi-framework-bundle/nifi-framework/nifi-web/nifi-web-ui/src/main/webapp/js/nf/canvas/nf-label.js:566-567 | get() returns exactly the labels on the canvas |
| `CanvasLabel.LabelCanvas.Remove` | nifi-framework-bundle/nifi-framework/nifi-web/nifi-web-ui/src/main/webapp/js/nf/canvas/nf-label.js:620-631 | remove deletes each given id from labelMap and stamps it in removedCache with `now`; other labels and addedCache are untouched |
| `CanvasLabel.LabelCanvas.RemoveAll` | nifi-framework-bundle/nifi-framework/nifi-web/nifi-web-ui/src/main/webapp/js/nf/canvas/nf-label.js:640-642 | removeAll leaves labelMap empty and every previously present id stamped in removedCache |
| `CanvasLabel.ExpireCache` | nifi-framework-bundle/nifi-framework/nifi-web/nifi-web-ui/src/main/webapp/js/nf/canvas/nf-label.js:650-656 | expire deletes exactly the entries whose timestamp is strictly less than the given one and keeps the others unchanged |
| `CanvasLabel.LabelCanvas.ExpireCaches` | nifi-framework-bundle/nifi-framework/nifi-web/nifi-web-ui/src/main/webapp/js/nf/canvas/nf-label.js:649-660 | expireCaches expires both caches that way and leaves labelMap alone |
| `CanvasLabel.ExpireTwice` | nifi-framework-bundle/nifi-framework/nifi-web/nifi-web-ui/src/main/webapp/js/nf/canvas/nf-label.js:649-660 | expiring at t1 and then at t2 is expiring once at the later time |
| `CanvasLabel.ExpiredAtUnique` | nifi-framework-bundle/nifi-framework/nifi-web/nifi-web-ui/src/main/webapp/js/nf/canvas/nf-label.js:649-660 | the result of expiring a cache is determined by the cache and the timestamp |
| `CanvasLabel.CompareZIndex` | nifi-framework-bundle/nifi-framework/nifi-web/nifi-web-ui/src/main/webapp/js/nf/canvas/nf-label.js:116-120 | the comparator returns -1, 0 or 1, zero exactly for equal zIndex and positive exactly when the first zIndex is larger |
| `CanvasLabel.CompareZIndexConsistent` | nifi-framework-bundle/nifi-framework/nifi-web/nifi-web-ui/src/main/webapp/js/nf/canvas/nf-label.js:116-120 | the comparator is antisymmetric and transitive, as a sort comparator must be |
| `CanvasLabel.SnapToGrid` | nifi-framework-bundle/nifi-framework/nifi-web/nifi-web-ui/src/main/webapp/js/nf/canvas/nf-label.js:384-385 | `Math.round(v/8)*8` is a multiple of 8 within (v-4, v+4] |
| `CanvasLabel.SnapToGridIsNearest` | nifi-framework-bundle/nifi-framework/nifi-web/nifi-web-ui/src/main/webapp/js/nf/canvas/nf-label.js:384-385 | no multiple of 8 is nearer to v than the snapped value |
| `CanvasLabel.ResizedExtent` | nifi-framework-bundle/nifi-framework/nifi-web/nifi-web-ui/src/main/webapp/js/nf/canvas/nf-label.js:384-385 | a resized extent is the larger of the minimum and the (snapped) coordinate, and a multiple of 8 when snapping with a minimum that is one |
| `CanvasLabel.DraggedDimensions` | nifi-framework-bundle/nifi-framework/nifi-web/nifi-web-ui/src/main/webapp/js/nf/canvas/nf-label.js:383-385 | a drag gives width at least 64 and height at least 24, both multiples of 8 when snapping, and exactly the coordinates when not snapping and above the minimums |
| `CanvasLabel.LabelCanvas.Drag` | nifi-framework-bundle/nifi-framework/nifi-web/nifi-web-ui/src/main/webapp/js/nf/canvas/nf-label.js:377-389 | the drag handler sets snapEnabled to not-shift and gives the dragged label the dragged dimensions, changing nothing else |
| `ThreadUtils.EqualsIgnoreCaseIsEquivalence` | nifi-commons/nifi-utils/src/main/java/org/apache/nifi/util/ThreadUtils.java:43 | comparing names ignoring case is reflexive, symmetric and transitive |
| `ThreadUtils.Root` | nifi-commons/nifi-utils/src/main/java/org/apache/nifi/util/ThreadUtils.java:34-37 | the walk up the parent chain ends at an ancestor of the current group that has no parent |
| `ThreadUtils.Enumerated` | nifi-commons/nifi-utils/src/main/java/org/apache/nifi/util/ThreadUtils.java:39-40 | the thread array has exactly activeCount entries |
| `ThreadUtils.EnumeratedThreads` | nifi-commons/nifi-utils/src/main/java/org/apache/nifi/util/ThreadUtils.java:39-40 | enumerate copies no more threads than the array holds and than there are |
| `ThreadUtils.FindFirstIsFirstMatch` | nifi-commons/nifi-utils/src/main/java/org/apache/nifi/util/ThreadUtils.java:42-47 | the search returns the first thread in enumeration order whose name matches ignoring case, and null exactly when none matches |
| `ThreadUtils.ScanFilledSlots` | nifi-commons/nifi-utils/src/main/java/org/apache/nifi/util/ThreadUtils.java:42-47 | over an array with no null entry, the loop as written finds what the first-match search finds |
| `ThreadUtils.AsWrittenAgreesWithoutShrink` | nifi-commons/nifi-utils/src/main/java/org/apache/nifi/util/ThreadUtils.java:39-47 | when no thread ended between activeCount and enumerate, the code as written equals the intended lookup |
| `ThreadUtils.ShrunkSnapshotThrows` | nifi-commons/nifi-utils/src/main/java/org/apache/nifi/util/ThreadUtils.java:39-47 | a root group reporting two active threads with one left to enumerate makes the code as written throw NullPointerException where the intended lookup returns null |
| `ThreadUtils.GetNamedThreadAsWritten` | nifi-commons/nifi-utils/src/main/java/org/apache/nifi/util/ThreadUtils.java:29-48 | getNamedThread as written, null array entries included, computes the as-written lookup |
| `ThreadUtils.GetNamedThread` | nifi-commons/nifi-utils/src/main/java/org/apache/nifi/util/ThreadUtils.java:29-48 | throws IllegalArgumentException exactly for a null or empty name, before any lookup; otherwise returns the first enumerated thread of the root group whose name matches ignoring case, or null |
| `ThreadUtils.ConsumeNamedThread` | nifi-commons/nifi-utils/src/main/java/org/apache/nifi/util/ThreadUtils.java:56-65 | a null consumer throws IllegalArgumentException before the name is checked; otherwise the consumer gets the found thread exactly once, and is never called when none matches |
| `ApiGatewayRequest.GettersReturnConstructorArguments` | nifi-nar-bundles/nifi-aws-bundle/nifi-aws-processors/src/main/java/org/apache/nifi/processors/aws/wag/client/GenericApiGatewayRequest.java:13-35 | each getter returns what was passed to the constructor, which accepts nulls without validation |
| `ApiGatewayRequest.RequestDeterminedByGetters` | nifi-nar-bundles/nifi-aws-bundle/nifi-aws-processors/src/main/java/org/apache/nifi/processors/aws/wag/client/GenericApiGatewayRequest.java:7-36 | a request value is determined by its four getters: two values with the same getters are the same value, and conversely |
| `ApiGatewayRequestBuilder.GenericApiGatewayRequestBuilder.constructor` | nifi-nar-bundles/nifi-aws-bundle/nifi-aws-processors/src/main/java/org/apache/nifi/processors/aws/wag/client/GenericApiGatewayRequestBuilder.java:7-11 | a new builder has all four fields null |
| `ApiGatewayRequestBuilder.GenericApiGatewayRequestBuilder.WithHttpMethod` | nifi-nar-bundles/nifi-aws-bundle/nifi-aws-processors/src/main/java/org/apache/nifi/processors/aws/wag/client/GenericApiGatewayRequestBuilder.java:13-16 | sets only httpMethod and returns the same builder |
| `ApiGatewayRequestBuilder.GenericApiGatewayRequestBuilder.WithResourcePath` | nifi-nar-bundles/nifi-aws-bundle/nifi-aws-processors/src/main/java/org/apache/nifi/processors/aws/wag/client/GenericApiGatewayRequestBuilder.java:18-21 | sets only resourcePath and returns the same builder |
| `ApiGatewayRequestBuilder.GenericApiGatewayRequestBuilder.WithBody` | nifi-nar-bundles/nifi-aws-bundle/nifi-aws-processors/src/main/java/org/apache/nifi/processors/aws/wag/client/GenericApiGatewayRequestBuilder.java:23-26 | sets only body and returns the same builder |
| `ApiGatewayRequestBuilder.GenericApiGatewayRequestBuilder.WithHeaders` | nifi-nar-bundles/nifi-aws-bundle/nifi-aws-processors/src/main/java/org/apache/nifi/processors/aws/wag/client/GenericApiGatewayRequestBuilder.java:28-31 | sets only headers and returns the same builder |
| `ApiGatewayRequestBuilder.GenericApiGatewayRequestBuilder.Build` | nifi-nar-bundles/nifi-aws-bundle/nifi-aws-processors/src/main/java/org/apache/nifi/processors/aws/wag/client/GenericApiGatewayRequestBuilder.java:33-37 | fails on a null method first, then on a null or empty resource path; succeeds exactly otherwise, with a request whose four getters return the builder's fields; the builder is not changed |
| `ApiGatewayRequestBuilder.BuildTwice` | nifi-nar-bundles/nifi-aws-bundle/nifi-aws-processors/src/main/java/org/apache/nifi/processors/aws/wag/client/GenericApiGatewayRequestBuilder.java:33-37 | two builds from one builder give the same outcome: the same validation error, or requests whose four getters agree |
| `ApiGatewayRequestBuilder.LastWriteWins` | nifi-nar-bundles/nifi-aws-bundle/nifi-aws-processors/src/main/java/org/apache/nifi/processors/aws/wag/client/GenericApiGatewayRequestBuilder.java:13-37 | repeated setter calls are last-write-wins: the request carries the second method and path, and an empty last path fails the build |

## Findings

| source | as written | input that shows it | evidently intended | confidence | as-written member | corrected member |
|---|---|---|---|---|---|---|
| nifi-commons/nifi-utils/src/main/java/org/apache/nifi/util/ThreadUtils.java:39-47 | the array is sized by `activeCount()`, an estimate, and the loop dereferences every entry, including the trailing nulls enumerate leaves when fewer threads remain | root group reports activeCount 2 but only thread "main" is left to enumerate; lookup of "theThread" | search only the entries `enumerate` filled, returning null when none matches | not executed; a race between activeCount and enumerate | `ThreadUtils.GetNamedThreadAsWritten`, `ThreadUtils.ShrunkSnapshotThrows` | `ThreadUtils.GetNamedThread` |

`ConsumeNamedThread` calls the corrected `GetNamedThread`.

## Left out

- Rendering in `nf-label.js` is not modelled: `select`, `renderLabels`, `updateLabels`, `removeLabels`, `refresh`, `position`, the contrast colour, and the D3 selection work after each operation. These are DOM work.
- The HTTP calls in `nf-label.js` are not modelled: `reload`'s GET, and the PUT in the drag `end` handler with its failure restore. The width/height "different" test in the `end` handler is also left out: because of its `||` it is true for any numeric dimensions, so it states nothing.
- `CanvasLabel.LabelCanvas.GetAll`: returns a set. JavaScript `Map` insertion order, in which `get()` lists the labels, is not modelled.
- The `sort` call itself is the JavaScript engine's `Array.prototype.sort`. Only its comparator is modelled.
- `isNewerRevision` is not modelled beyond its signature, because `nf-client.js` is not part of this model.
- Calls to `add` or `set` with an array holding `null` are not modelled: the source throws on `null.id` (nf-label.js:471, 516, 530). `remove` with `null` or `undefined` (alone or in an array) records that value as a key of the removed cache and deletes nothing; ids are strings in this model, so that case is not modelled either.
- `CanvasLabel.DraggedDimensions`: drag coordinates are integers, not floating point. `Math.round` is taken as rounding halves upward, which is what it does for the integer quotients modelled.
- The `selectAll` and `transition` options are not modelled; they only affect rendering.
- `ThreadUtils.EqualsIgnoreCaseIsEquivalence`: `equalsIgnoreCase` is modelled with an ASCII case fold. Non-ASCII Unicode case mappings are not modelled.
- The JVM's thread introspection is abstracted as the `ThreadGroup` value. The threads' own behaviour, and the consumer's effect, are not modelled.
- The client's `Validate` helper is not part of this model. `build` fails with a `ValidationError` naming the field; the Java exception type and message are not modelled. `notEmpty` is read as "null or empty", without trimming.
- `InputStream` bodies are opaque references; their content is never read.
- Headers are modelled as a map value. Java stores the caller's `Map` by reference (builder `withHeaders` to `build()` to `getHeaders()`), so a change the caller makes to that map after `build()` shows through `getHeaders()`; that aliasing is not modelled.
- Java object identity is not modelled: `GenericApiGatewayRequest` defines no `equals`, so two builds give two distinct objects; the model compares request values, which agree exactly when their four getters agree.
- `ThreadUtils.ConsumeNamedThread`: calls the corrected lookup, so on the input in the Findings table (a snapshot with empty array slots and no earlier match) the model returns `Success(())` without calling the consumer, where the source's `consumeNamedThread` passes on the `NullPointerException` thrown by `getNamedThread`.
- Not modelled: `RequestReplicator.java` (an interface without implementation), `GetAWSGatewayApi.java` and `AbstractAWSGatewayApiProcessor.java` (processor plumbing, AWS SDK, flowfile I/O), and the tests.
