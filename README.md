# react-scan render bookkeeping, modelled in Dafny

React Scan watches a React application from the devtools hook. Each time React commits, it walks the committed fiber tree and decides, for every fiber that rendered, why it rendered:

- props that changed;
- context that changed;
- hook state that changed.

It then aggregates those render records in a store. Interactions come from a performance observer. React Scan folds the renders into them and ships them to a telemetry endpoint. An inspector panel formats the props and state values and flashes the ones that changed.

This project models that bookkeeping. It has four parts:

- **Commit walk** (`instrumentation.dfy`). This is module `Instrumentation`. It covers:
  - the change classifier of `getPropsRender` and `getContextRender`;
  - `recordRender`, which decides the records a fiber emits and their order;
  - the tree walks `mountFiber` and `updateFiber`;
  - the commit hook, with its exception guard;
  - the by-name and by-fiber aggregators `reportRender` and `reportRenderFiber`.

  The fiber tree is a finite map `FiberId -> Node` (`fibers.dfy`). A ghost rank map proves that the walks terminate. The helpers whose bodies are not part of this model are fields of a `Host` record of total functions:
  - `shouldFilterFiber`, `didFiberRender`, `getSelfTime`;
  - `fastSerialize`, `getDisplayName`, `getType`;
  - the `traverse*` helpers.

  The class `Instrumentation.Instrumentation` holds the mutable state: the event log (the walk's callbacks, the store's `reportDataByFiber` notifications and the logged errors), the two report maps and the set of fiber roots. Its methods are proved against the state functions `RecordOutcome`, `Run`, `MountVisits`, `UpdateVisits` and `CommitOutcome`.
- **Aggregation store** (`scan_core.dfy`). This is module `ScanCore`, with class `ScanCore.Store` for `ReactScanInternals`. It covers:
  - `isFiberUnmounted` and `addInstance`;
  - `setOptions` and `getOptions`, and `getReport`;
  - the store's `reportRender`: its key resolution, the legacy by-name map, and the fold into the latest interaction;
  - `isValidFiber`, `withScan`, the `Monitor` component's initialisation, and the `onRender` handler chain.

  A new report entry shares one renders array between `reportData` and `legacyReportData`. The model keeps the arrays in a heap of references (`ReportStore.arrays`) so that this aliasing is visible.
- **Flush and transport** (`network.dfy`). This is module `Network`, with class `Network.Flusher`, which holds the module-level `session`. It covers:
  - `flush`: the guards, the session update, the partition by age, the interaction ids, the component records, and the retry budgets and evictions;
  - the monitor update and the settlement of the transport promise;
  - the pure decisions of `transport`: the JSON replacer, the compression decision, the `?z=1` and `Content-Encoding` tagging, and the keepalive rule.
- **Inspector view state** (`view_state.dfy`). This is module `ViewState`. It covers:
  - `getPath`, `getValueClassName` and `getValuePreview`;
  - the `lastRendered`/`changedAt` bookkeeping of `createPropertyElement`, as class `ViewState.Inspector`;
  - the 450 ms expiry sweep;
  - the circular-reference check over `objectPathMap`, as class `ViewState.ObjectPathMap`.

There are also shared modules:

- `common.dfy`: `Option`, the `Attempt` outcome of a call that may raise, and `OMap`, an insertion-ordered map for JavaScript `Map`.
- `js_values.dfy`: JavaScript values with `typeof`, truthiness, `Object.is`, and a heap of objects and arrays.
- `monitor_types.dfy`: the monitor, interaction, component and session records.

The model follows the code where it differs from what its comments and names suggest:

- `flush` sends the interactions that are *at most* 4000 ms old. It keeps the older ones, and it sends nothing when no older interaction remains.
- The replacer **truncates** toward zero at scale `FLOAT_MAX_LEN`; it does not round. So 0.123456789 becomes 0.12345, not 0.12346.
- The replacer keeps `0`, `""` and `[]`. It drops exactly `null`, `undefined` and `false`.
- The replacer never drops a key because of its name. Its comment also promises to remove keys starting with `_`, but the code ignores the key, so the model's `Replacer` takes none.
- `recordRender` can never emit a `misc` record.
- Its allow-list check never rejects a fiber.
- The by-fiber `count` of the store's `reportRender` is not bumped on repeat calls.

## Model

| member | source | states |
|---|---|---|
| Fibers.ResolveKey | packages/scan/src/core/index.ts:253-263 | the key is the fiber itself when it already has data, otherwise its alternate when it has one, otherwise the fiber |
| Fibers.ResolveKeyKeepsNoTwins | packages/scan/src/core/index.ts:253-263 | storing under the resolved key never gives a fiber and its alternate two entries |
| Fibers.AlternateSharesKey | packages/scan/src/core/index.ts:253-263 | after a report under the resolved key, the alternate resolves to the same entry |
| ScanCore.IsFiberUnmounted | packages/scan/src/core/index.ts:149-162 | unmounted iff the fiber is null, carries the deletion bit, has no parent while not a HostRoot, or its alternate carries the deletion bit |
| ScanCore.DeletionMarksBothTwins | packages/scan/src/core/index.ts:149-162 | a deletion bit on either fiber of a linked pair makes both read as unmounted |
| ScanCore.AddInstance | packages/scan/src/core/index.ts:164-171 | the set is unchanged when the alternate is already in it, and otherwise gains exactly the fiber |
| ScanCore.AddInstanceOncePerPair | packages/scan/src/core/index.ts:164-171 | adding a fiber and then its alternate adds one instance, so the size grows by one |
| ScanCore.AddInstanceKeepsNoTwins | packages/scan/src/core/index.ts:164-171 | an instance set never comes to hold a fiber together with its alternate |
| ScanCore.MergeOptions | packages/scan/src/core/index.ts:236-245 | every key of the patch takes the patch's value, and every other key keeps its old presence and value |
| ScanCore.Store.constructor | packages/scan/src/core/index.ts:205-222 | the initial internals: empty report maps, no monitor, default options, no allow-list, no handler |
| ScanCore.Store.GetReport | packages/scan/src/core/index.ts:224-234 | with no type, the whole legacy map; otherwise the first entry, in insertion order, whose type matches, and not found iff no entry matches |
| ScanCore.Store.SetOptions | packages/scan/src/core/index.ts:236-245 | the options become the merge; a pause flag that exists becomes `enabled === false`; nothing else changes |
| ScanCore.Store.GetOptions | packages/scan/src/core/index.ts:247 | returns the current options |
| ScanCore.FiberReportTo | packages/scan/src/core/index.ts:269-283 | the per-fiber entry touches neither the legacy map nor the reference counter |
| ScanCore.LegacyReportTo | packages/scan/src/core/index.ts:285-303 | the legacy entry touches neither the per-fiber map nor the reference counter |
| ScanCore.ReportToValid | packages/scan/src/core/index.ts:249-303 | reporting keeps every entry's renders array stored and below the next fresh reference |
| ScanCore.ReportToByFiber | packages/scan/src/core/index.ts:253-283 | the per-fiber map gains exactly the resolved key and stays free of fiber/alternate pairs; an existing entry keeps its count and time; a new entry counts the renders and holds a fresh array |
| ScanCore.ReportToAppends | packages/scan/src/core/index.ts:269-283 | an existing entry's array receives the renders, in order, right after its old contents; a new entry's array is exactly the renders |
| ScanCore.ReportToLegacy | packages/scan/src/core/index.ts:285-303 | the legacy map changes only for a non-empty display name with `options.report` truthy, using append-or-create with a null display name |
| ScanCore.SharedArrayAppendsTwice | packages/scan/src/core/index.ts:276-300 | the first report stores one array in both maps, so a second report of the same fiber appends its renders to that array twice |
| ScanCore.FoldInteractionEffect | packages/scan/src/core/index.ts:305-340 | only the last interaction's component map changes, and the monitor's other fields stay; an existing component gains the fiber by `AddInstance`, the render count and the summed time; a new component starts at renders 0 and budget 7 and ends at twice the sum |
| ScanCore.FoldInteractionSkips | packages/scan/src/core/index.ts:305-312 | with no monitor, no interaction or no display name, the monitor is unchanged |
| ScanCore.FoldInteractionValid | packages/scan/src/core/index.ts:305-340 | the fold keeps every component map well formed |
| ScanCore.Store.ReportRender | packages/scan/src/core/index.ts:249-341 | the new report maps and monitor are those of the spec functions, `lastReportTime` is `now`, and nothing else changes |
| ScanCore.Store.StoreReports | packages/scan/src/core/index.ts:249-303 | the report-map half of `reportRender`, with its frame |
| ScanCore.Store.FoldIntoLatestInteraction | packages/scan/src/core/index.ts:305-340 | the monitor half of `reportRender`, with its frame |
| ScanCore.AllowListAfter | packages/scan/src/core/index.ts:470-481 | a null allow-list becomes an empty list without the component; an existing list gains the component with its options |
| ScanCore.FirstWithScanRegistersNothing | packages/scan/src/core/index.ts:470-481 | the first registration only creates the list, and the second puts the component in it |
| ScanCore.Store.WithScan | packages/scan/src/core/index.ts:465-486 | options are merged; in an iframe or with `enabled === false` the allow-list is unchanged, otherwise it is `AllowListAfter` |
| ScanCore.MonitorAfter | packages/scan/src/core/index.ts:503-528 | the body throws iff the API key is missing or empty |
| ScanCore.MonitorAfterEffect | packages/scan/src/core/index.ts:512-528 | a monitor is created only when none exists, with no pending requests and no interactions; route and path are always overwritten |
| ScanCore.Store.MonitorInit | packages/scan/src/core/index.ts:503-528 | throws iff the key is missing or empty and then leaves the monitor alone; otherwise the monitor is `MonitorAfter`; nothing else changes |
| ScanCore.RegisteredRunInOrder | packages/scan/src/core/index.ts:541-552 | after a series of registrations, one handler call runs the earlier handler's callbacks, then every matching callback once, in registration order |
| ScanCore.Store.OnRender | packages/scan/src/core/index.ts:541-552 | the handler becomes a closure over the previous handler, the type and the callback; nothing else changes |
| ScanCore.IsValidFiber | packages/scan/src/core/index.ts:392-410 | every fiber is valid, because the rejection sits under a guard that contradicts it |
| Instrumentation.GetPropsRender | src/core/instrumentation/index.ts:39-95 | the loop computes exactly `PropsRenderOf`: it raises iff a prop read raises, and otherwise gives a props record over the changes |
| Instrumentation.PropsRenderNeverNull | src/core/instrumentation/index.ts:86-94 | a result that does not raise is never null, and has type props, count 1 and trigger false |
| Instrumentation.Dedup | src/core/instrumentation/index.ts:47-51 | the key union holds no duplicates, and a key is in it iff it is in either props object |
| Instrumentation.PropChangesStep | src/core/instrumentation/index.ts:52-84 | one turn of the loop appends that key's change, if any |
| Instrumentation.PropChangesContent | src/core/instrumentation/index.ts:52-84 | every change names a distinct key, holds that key's prev and next values, and is unstable iff both are reference-typed with equal serializations |
| Instrumentation.PropChangesComplete | src/core/instrumentation/index.ts:47-71 | a key is reported iff its values are not `Object.is`-equal, neither is a valid element, and it is not `children` |
| Instrumentation.SameSnapshotsNoChanges | src/core/instrumentation/index.ts:52-71 | props that agree key by key give no change |
| Instrumentation.ContextChanges | src/core/instrumentation/index.ts:105-129 | one unnamed change per traversed pair, holding its values, unstable exactly as for props |
| Instrumentation.GetContextRender | src/core/instrumentation/index.ts:97-140 | null iff the traversal result is falsy; otherwise a context record with count 1 and trigger false |
| Instrumentation.PrimitivesNeverUnstable | src/core/instrumentation/index.ts:34-36 | a change where either value is a primitive is never unstable |
| Instrumentation.ReportByNameFrame | src/core/instrumentation/index.ts:142-170 | a no-op when `report === false`; otherwise only the entry under the name changes |
| Instrumentation.ReportAllByNameAccumulates | src/core/instrumentation/index.ts:142-170 | over a series of calls, count equals the number of calls and time is the sum of self times; only later calls' non-null renders are appended |
| Instrumentation.Instrumentation.ReportRender | src/core/instrumentation/index.ts:142-170 | the by-name map becomes `ReportByName` of the old one; nothing else changes |
| Instrumentation.PairAccumulatesOnce | src/core/instrumentation/index.ts:171-202 | reports alternating between a fiber and its alternate share one entry, whose count is the number of reports |
| Instrumentation.ReportByFiberStep | src/core/instrumentation/index.ts:171-202 | only the resolved key's entry changes: count + 1, time plus the self time or 0.1 ms when that is 0, the old records followed by the non-null new ones (none for a new entry), and the display name |
| Instrumentation.Instrumentation.ReportRenderFiber | src/core/instrumentation/index.ts:171-207 | the by-fiber map becomes `ReportByFiber` under the resolved key, and the listeners are notified once with the updated map |
| Instrumentation.TriggerMeaning | src/core/instrumentation/index.ts:235-243 | trigger iff there is an alternate and some state pair differs by `Object.is` |
| Instrumentation.RecordOutcomeShape | src/core/instrumentation/index.ts:227-299 | nothing is emitted without a type or without a render; otherwise a named component first notifies the listeners with the by-fiber map, then come props, context if present, and state iff trigger; a raising prop read raises |
| Instrumentation.EmittedShape | src/core/instrumentation/index.ts:269-298 | the emitted events are props first, context next if present, state last iff trigger, and never misc |
| Instrumentation.RecordOnlyWalkEvents | src/core/instrumentation/index.ts:227-299 | one call only appends `onRender` calls and by-fiber notifications, and never a misc record |
| Instrumentation.AllowListIgnored | src/core/instrumentation/index.ts:252-267 | the installed allow-list never changes what `recordRender` does; this holds because `RecordOutcome` has no allow-list branch, which the `assert false` in `Instrumentation.Instrumentation.RecordRecords` justifies |
| Instrumentation.Instrumentation.RecordRender | src/core/instrumentation/index.ts:227-299 | the new state and the raise flag are `RecordOutcome` |
| Instrumentation.Instrumentation.RecordRecords | src/core/instrumentation/index.ts:244-298 | after the records are known: reports and emits as `RecordedOutcome` |
| Instrumentation.Instrumentation.Emit | src/core/instrumentation/index.ts:269-298 | the event log gains exactly `Emitted` |
| Instrumentation.RunAppend | src/core/instrumentation/index.ts:309-349 | recording a concatenated series is recording the first part and then the second |
| Instrumentation.RunThrew | src/core/instrumentation/index.ts:309-349 | once a call has raised, the rest of the series does nothing |
| Instrumentation.RunSingle | src/core/instrumentation/index.ts:227-299 | a series of one fiber is one `recordRender` call |
| Instrumentation.RunOnlyWalkEvents | src/core/instrumentation/index.ts:309-349 | a whole walk only appends `onRender` calls and by-fiber notifications, and never a misc record |
| Instrumentation.ExtendsTransitive | src/core/instrumentation/index.ts:309-349 | appending only `onRender` calls and by-fiber notifications composes |
| Instrumentation.MountVisits | src/core/instrumentation/index.ts:309-325 | the fibers a mount records are in the tree and none is filtered |
| Instrumentation.MountVisitsSplit | src/core/instrumentation/index.ts:309-325 | a mount is the fiber's own visits followed by its siblings' when siblings are followed |
| Instrumentation.MountVisitsExactly | src/core/instrumentation/index.ts:309-325 | a mount records exactly the unfiltered fibers of the subtree, starting with the fiber itself, and follows siblings only when asked |
| Instrumentation.Instrumentation.MountFiber | src/core/instrumentation/index.ts:309-325 | the state after the loop is `Run` over `MountVisits` |
| Instrumentation.Instrumentation.MountOne | src/core/instrumentation/index.ts:309-325 | one turn records the fiber unless filtered and then mounts its children |
| Instrumentation.UpdateVisitsCases | src/core/instrumentation/index.ts:327-349 | nothing for a null prev; no children when the child is unchanged; otherwise the children loop, where a child with no alternate is mounted without siblings |
| Instrumentation.Instrumentation.UpdateFiber | src/core/instrumentation/index.ts:327-349 | the state after the walk is `Run` over `UpdateVisits` |
| Instrumentation.Instrumentation.UpdateChild | src/core/instrumentation/index.ts:338-347 | one child is updated when it has an alternate, and mounted otherwise |
| Instrumentation.RootVisitsCases | src/core/instrumentation/index.ts:301-355 | a root that was not mounted and now is gets `MountVisits(root, false)`; one that was and is gets `UpdateVisits(root, alternate)`, and a mounted root always has an alternate; a root that is no longer mounted gets nothing |
| Instrumentation.CommitBracketed | src/core/instrumentation/index.ts:218-226 | a skipped commit changes nothing; otherwise `onCommitStart` and `onCommitFinish` each run once around the walk's `onRender` calls and by-fiber notifications, or an error is logged |
| Instrumentation.Instrumentation.HandleCommitFiberRoot | src/core/instrumentation/index.ts:218-358 | the state and the raise flag are `CommitOutcome` |
| Instrumentation.Instrumentation.OnCommitFiberRoot | src/core/instrumentation/index.ts:360-374 | the root is remembered, commit errors are caught and logged, and the state is `OnCommitOutcome` |
| Network.PartitionExact | packages/scan/src/core/monitor/network.ts:42-56 | every interaction goes to exactly one list; flushed iff `now - startTime <= 4000` |
| Network.PartitionKeepsOrder | packages/scan/src/core/monitor/network.ts:42-56 | both lists keep the original order |
| Network.RecentValid | packages/scan/src/core/monitor/network.ts:42-56 | the flushed list keeps well-formed component maps |
| Network.IdSeparatesRoutes | packages/scan/src/core/monitor/network.ts:46 | the id `type::componentPath::route` tells different routes apart |
| Network.PayloadInteractionsMatch | packages/scan/src/core/monitor/network.ts:45-51 | payload interaction i carries the id, name, time, timestamp and type of the i-th flushed interaction |
| Network.Flusher.Partition | packages/scan/src/core/monitor/network.ts:36-56 | the loop yields the flushed list, the kept list and the payload interactions of the spec functions |
| Network.AllRecordsComplete | packages/scan/src/core/monitor/network.ts:60-75 | one payload record per component of every flushed interaction, with `instances = fibers.size` |
| Network.AgedEffect | packages/scan/src/core/monitor/network.ts:76-84 | a component with budget 0 is deleted; every other component's budget drops by one; `renders` is the last component's instance count |
| Network.AgedAllMatch | packages/scan/src/core/monitor/network.ts:62-86 | every flushed interaction is aged on its own |
| Network.ExhaustedStillSent | packages/scan/src/core/monitor/network.ts:62-86 | a component with budget 0 is deleted and still in this payload |
| Network.Flusher.AgeInteraction | packages/scan/src/core/monitor/network.ts:65-85 | the loop over the entries gives the component records and the aged interaction |
| Network.Flusher.CollectComponents | packages/scan/src/core/monitor/network.ts:60-86 | the outer loop gives all component records and all aged interactions |
| Network.FlushGuards | packages/scan/src/core/monitor/network.ts:19-26 | no monitor, offline, no url or no interactions changes nothing and sends nothing |
| Network.FlushAllRecentSendsNothing | packages/scan/src/core/monitor/network.ts:58 | with an empty keep list, nothing is sent and the monitor is unchanged |
| Network.FlushSends | packages/scan/src/core/monitor/network.ts:29-107 | after a sending flush, the interactions are the keep list; pending rises by one and falls back on success; on failure exactly one retry is sent |
| Network.Flusher.Send | packages/scan/src/core/monitor/network.ts:60-107 | once something is kept, the new monitor, aged interactions and sent requests are those of `Sending` |
| Network.Flusher.Flush | packages/scan/src/core/monitor/network.ts:18-108 | the monitor, session, aged interactions and sent requests are those of `FlushResult` |
| Network.TruncToward0 | packages/scan/src/core/monitor/network.ts:142 | the integer part toward zero, within one of the input |
| Network.ToInt32 | packages/scan/src/core/monitor/network.ts:142 | the int32 wrap of `~~`: the result differs from the input by a multiple of 2^32, stays in range, and fixes values already in range |
| Network.ReplacerDropsExactly | packages/scan/src/core/monitor/network.ts:144-153 | dropped iff null, undefined or false; `0`, `""` and arrays survive unchanged |
| Network.ReplacerTruncates | packages/scan/src/core/monitor/network.ts:137-143 | an integer is kept; a non-integer whose scaled value fits in 32 bits is cut toward zero to a multiple of 10^-5, by less than 10^-5 and never past zero |
| Network.ReplacerTruncatesSample | packages/scan/src/core/monitor/network.ts:137-143 | 0.123456789 is sent as 0.12345: truncated, not rounded |
| Network.ReplacerWrapsLargeNumbers | packages/scan/src/core/monitor/network.ts:142 | 21474.836485, scaled to 2^31 + 0.5, comes out as -21474.83648 |
| Network.TruncatedNumberIntended | packages/scan/src/core/monitor/network.ts:137-142 | truncation without the wrap gives a multiple of 10^-5 that moves toward zero by less than 10^-5 |
| Network.IntendedAgreesWhenFits | packages/scan/src/core/monitor/network.ts:142 | while the scaled value fits in 32 bits, the number branch as written equals the intended truncation |
| Network.PlanRequestDecisions | packages/scan/src/core/monitor/network.ts:156-193 | no request offline; `?z=1` and the gzip label iff the json is longer than the minimum; gzipped iff that and compression is supported; keepalive iff size and pending are under their caps |
| Network.TaggingIgnoresSupport | packages/scan/src/core/monitor/network.ts:156-166 | the url and headers do not depend on compression support |
| Network.PlainBodyLabelledGzip | packages/scan/src/core/monitor/network.ts:156-166 | without compression support, a long json body is sent plain but labelled gzip |
| Network.PlanRequestIntended | packages/scan/src/core/monitor/network.ts:156-166 | the gzip label and `?z=1` are present iff the body is gzipped |
| ViewState.GetPathCases | src/core/web/inspect-element/view-state.ts:136-145 | `component.section.key` for an empty parent path; otherwise `component.parentPath.key`, ignoring the section |
| ViewState.GetPathSeparatesKeys | src/core/web/inspect-element/view-state.ts:136-145 | different keys under the same parent give different paths |
| ViewState.NestedPathLonger | src/core/web/inspect-element/view-state.ts:136-145 | a nested path is longer than its parent path |
| ViewState.ClassNameByKind | src/core/web/inspect-element/view-state.ts:420-435 | arrays first; null and undefined share a class; one class per primitive kind and for objects; empty exactly for functions, bigints and symbols |
| ViewState.StringPreviewRoundTrip | src/core/web/inspect-element/view-state.ts:444-445 | a string preview is the string in double quotes, so the string can be read back |
| ViewState.OtherPreviewIsTypeOf | src/core/web/inspect-element/view-state.ts:457-458 | functions, bigints and symbols preview as their `typeof` name |
| ViewState.ArrayPreviewShowsLength | src/core/web/inspect-element/view-state.ts:438-440 | two arrays with the same preview have the same length |
| ViewState.ObjectPreviewElides | src/core/web/inspect-element/view-state.ts:450-456 | objects with more than three keys show the first three then `, ...`, so they cannot be told apart beyond that |
| ViewState.TrackedEffect | src/core/web/inspect-element/view-state.ts:365-376 | the path's last value is overwritten; `changedAt` gets `now` iff the value changed by identity from a defined value or the key is in `changedKeys`, and is otherwise untouched |
| ViewState.TrackedIdempotent | src/core/web/inspect-element/view-state.ts:365-376 | tracking the same value twice at the same time changes nothing more |
| ViewState.Inspector.Track | src/core/web/inspect-element/view-state.ts:365-377 | the state becomes `Tracked`; the method returns whether the value changed and whether the path flashes |
| ViewState.SweptExactly | src/core/web/inspect-element/view-state.ts:174-179 | the sweep deletes exactly the entries older than 450 ms, keeps the others' times, and is idempotent |
| ViewState.Inspector.Sweep | src/core/web/inspect-element/view-state.ts:174-179 | the loop over the entries leaves `changedAt` as `Swept` |
| ViewState.DescentNeverCircular | src/core/web/inspect-element/view-state.ts:187-202 | along any descent below a map whose recorded paths are no longer than the parent path (a fresh map in particular), no level shows the circular marker, whatever objects are met (the as-written half of a Finding) |
| ViewState.SelfReferenceNotCircular | src/core/web/inspect-element/view-state.ts:187-202 | an object that holds itself is met one level down at a longer path and is not reported circular |
| ViewState.CircularIntendedCatchesCycles | src/core/web/inspect-element/view-state.ts:187-202 | the intended test reports an object met again below itself, so a descent without a marker never meets an object twice |
| ViewState.VisitedEffect | src/core/web/inspect-element/view-state.ts:191-202 | an object gets the path added to its path set, other values are untouched, and a path already present is circular |
| ViewState.ObjectPathMap.Visit | src/core/web/inspect-element/view-state.ts:191-202 | returns the circular marker iff the object was reached at this path before, and records the path |

## Left out

- DOM work is not modelled: overlays, toolbar, painting, the DOM built by `createPropertyElement`, its recursive descent and `EXPANDED_PATHS`, and `requestAnimationFrame`. React hooks, the `Monitor` component's `useEffect` and `useScan`, and `registerDevtoolsHook` are not modelled either. All of these are browser UI or React runtime.
- Timers are not modelled. The flush interval, the 200 ms sweep interval and fade-outs become explicit method calls that take `now`. `Date.now()` and `performance.now()` become parameters, and the sweep uses one `now` for all entries.
- `fetch`, `CompressionStream`, `Blob`, `Response` and the promise plumbing are foreign I/O:
  - the outcome of the first transport call is the input `first`;
  - the JSON text and the gzip bytes are inputs of `PlanRequest`;
  - `navigator.onLine`, `window.location`, `getSession()` and the `CompressionStream` support are parameters.
- `JSON.stringify` is not modelled. The replacer is modelled value by value. An array element the replacer drops turns into `null`; the model does not show this.
- `parseInt` is modelled as "the number is an integer". Its reading of exponent notation (such as `1e-7`) is not modelled.
- IEEE floating point is not modelled: numbers are reals. `toString` of a number in previews is the parameter `numberText`.
- Network.Flusher.Flush: the asynchronous `.then`/`.catch` are settled within the same call. The payload of the retry is the one built at flush time, whereas the source serializes the shared session again when it retries. The budget decrement and the deletions apply to interactions that are no longer in the monitor, so they are returned as `aged` and not stored.
- Network.PlanRequest: the compression threshold compares `|json|`, the number of Unicode characters, whereas `json.length` counts UTF-16 code units; the two differ for text outside the Basic Multilingual Plane.
- Network.PlanRequest: an `undefined` value of `Content-Encoding` is modelled as no header. How `fetch` converts header values is not modelled.
- The `try`/`catch` around `transport` in `flush` is not modelled, because a call to an async function never throws synchronously.
- WeakMap and WeakSet are ordinary maps and sets; garbage collection is not modelled.
- The helpers `fastSerialize`, `getDisplayName`, `getType`, `getTimings`, `getSelfTime`, `traverseContexts`, `traverseState`, `traverseFiber`, `shouldFilterFiber` and `didFiberRender` are uninterpreted functions of `Host`. `getSession` is a parameter of the flush. The constants `GZIP_MIN_LEN`, `GZIP_MAX_LEN` and `MAX_PENDING_REQUESTS` are fields of `Limits`. `FLOAT_MAX_LEN` is 10^5 (`Network.FloatMaxLen`), the scale of the five decimal places that the replacer's comment names (network.ts line 137).
- `start()` is not modelled beyond `isValidFiber`; `withScan` ends by calling it.
- The errors logged to the console are entries of the event log; their text is not modelled.
- Instrumentation.Instrumentation.Emit: the `onRender` callback handed to `instrument` is assumed not to raise. In the source it is external code (the store's handler, the user's `onRender`, the outline painting); a raise there would skip the remaining `onRender` calls of `recordRender`, the rest of the walk and `onCommitFinish`, and be logged by `onCommitFiberRoot`. The model raises only from prop getters.
- Instrumentation.Instrumentation.ReportRenderFiber: the listeners that `ReactScanInternals.emit('reportDataByFiber', …)` reaches are assumed not to raise. A raising listener would skip the by-name `reportRender` and everything after it in `recordRender`; the model does not capture that path.
- Instrumentation.Instrumentation.HandleCommitFiberRoot: `onCommitStart` and `onCommitFinish` are likewise assumed not to raise, so `CommitOutcome` and `CommitBracketed` do not cover a commit cut short by a raising callback.
- `test/src/index.jsx` is not modelled: it is a demo application with no logic.

## Findings

| source | as written | input that shows it | evidently intended | confidence | as-written member | corrected member |
|---|---|---|---|---|---|---|
| packages/scan/src/core/monitor/network.ts:142 | `~~(value * FLOAT_MAX_LEN) / FLOAT_MAX_LEN` converts to a 32-bit integer, so a scaled value of 2^31 or more wraps to a negative number | a `totalTime` of 21474.836485 ms (scaled: 2^31 + 0.5) is sent as -21474.83648 | truncate toward zero to five decimal places, keeping the sign and moving by less than 10^-5 | medium, not executed | Network.ReplacerWrapsLargeNumbers | Network.TruncatedNumberIntended |
| packages/scan/src/core/monitor/network.ts:156-166 | the `Content-Encoding: gzip` header and `?z=1` depend only on the length of the JSON, while the body is gzipped only when `CompressionStream` exists | a JSON text longer than `GZIP_MIN_LEN`, in a browser without `CompressionStream`: the plain text is sent labelled as gzip | label the request as gzip exactly when the body was compressed | medium, not executed | Network.PlainBodyLabelledGzip | Network.PlanRequestIntended |
| src/core/web/inspect-element/view-state.ts:197 | the circular marker is shown only when the same object was already shown at exactly the same path | an object `o` with `o.self === o`: the nested `self` entry has the path `...self`, longer than its parent's; every descent starts from a fresh map and every level's path is longer than all recorded ones, so no marker is ever shown and each expansion opens another level | report an object that is already one of the values the descent is inside | medium, not executed | ViewState.DescentNeverCircular | ViewState.CircularIntendedCatchesCycles |
