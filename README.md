# StreamDataPanel core, modelled in Dafny

StreamDataPanel is a real-time dashboard. A Python back end lets user code
publish data streams such as `Line("cpu")`. Each stream registers a data
key `chart_type<:>key_word` with a `WebsocketManager`, which caches the
latest payload per key and pushes every update to the browser sockets
subscribed to that key. A React front end opens one WebSocket per chart
and subscribes with the normalised chart type and keyword. It then writes
each arriving point into the chart's buffer: a snapshot for global-update
chart types, a rolling window of 100 points for every other type. It can
export the panel to a document and import one back.

This project models both halves and the wire between them:

- `wrappers.dfy`: the `Option` type.
- `text.dfy`: trimming a set of blank characters, ASCII case mapping and
  decimal rendering. These are shared by both languages.
- `js_value.dfy`: JSON values as `JSON.parse` yields them, JavaScript
  truthiness, property lookup, and the `trim()` blank set.
- `chart_const.dfy`: the two chart-type tables.
- `data_transformer.dfy`: frame decoding (`transformSinglePointData`,
  `transformDataList`).
- `panel_canvas.dfy`: the streaming store. Pure buffer, layout, throttle
  and routing functions, plus the class `PanelCore` with one method per
  event.
- `panel.jsx` as `panel.dfy`: the zoom toggle, the double-click gate, and
  the listener reconciliation loop.
- `config_hook.dfy`: export, and the sequential import as the class
  `ConfigIO`. The import is specified by functions over the imported
  entries, with the export/import round trip proved.
- `py_value.dfy`: Python values and the builtins the back end relies on.
  These are `isinstance(Number)` (booleans included), `len`, indexing,
  `*`, truth value, the `strip()` blank set, and `json.dumps`'s
  acceptance.
- `config_edit.dfy`: the configuration file's nested item update, load,
  save and reset.
- `api_core.dfy`: data keys, the initial-data fetch, the manager's cache,
  subscriptions and FIFO queue (class `WebsocketManager`), and the
  connection handshake.
- `api.dfy`: the payload validators, the thirteen stream classes, keyword
  normalisation, settings defaulting, the global manager (class
  `ApiGlobals`), and streams (class `DataStream`).
- `protocol.dfy`: cross-system lemmas.
  - The handshake frames route correctly in the browser.
  - Accepted payloads decode to points.
  - An empty id is accepted by the back end but throws in the decoder.
  - JavaScript `trim().toLowerCase()` and Python `strip().lower()` agree
    on keywords.
  - The key a chart subscribes to is its stream's key.

Modelling choices:

- **Events.** Timers, sockets and the file reader become explicit events
  (methods), and their outcomes become parameters.
  - `crypto.randomUUID()` is a fresh id passed in, required distinct from
    every id in use.
  - The server's answer to an imported chart's subscription is the
    `accepted` sequence.
- **Stale closures.** A React callback sees the state of the render that
  created it, so each handler takes that state as a parameter: the
  `importing` flag, the chart list in `onerror`, and the zoom states.
  - `importLayout` calls the `addChart` captured before `setIsImporting(true)`
    took effect, so its handlers may see `isImporting` as `false`. The import
    takes this as `closureImporting`. When it is `false`, each re-added chart
    also appends default layout entries and updates the status; the final
    relayout then overwrites the layouts when at least one chart was mapped.
- **Unresolved promise.** A subscription refused by the server during an
  import leaves `await addChart(...)` pending forever.
  - The import then never reaches its relayout or its `finally`.
  - `ImportOutcome.Stuck(i)` records this, and `isImporting` stays `true`.
- **Closed-socket sends.** A send that fails is a parameter: the set of
  clients `failing` while an update is pushed.

## Model

| member | source | states |
|---|---|---|
| Text.TrimStartSpec | src/component/panel/panelCanvas.jsx:8 | the start trim removes exactly the leading run of blank characters: the result is a suffix of the input and does not start with a blank |
| Text.TrimEndSpec | src/component/panel/panelCanvas.jsx:8 | the end trim removes exactly the trailing run of blanks: the result is a prefix and does not end with a blank |
| Text.TrimSpec | src/component/panel/panelCanvas.jsx:8 | `trim()` yields the infix after the leading blanks; everything cut off on either side is blank, and the result neither starts nor ends with a blank |
| Text.TrimFixed | src/component/panel/panelCanvas.jsx:8 | a string with no blank at either end is its own trim |
| Text.TrimIdempotent | src/component/panel/panelCanvas.jsx:192-193 | trimming twice (as `addChart` does, before and inside `lowerString`) equals trimming once |
| Text.BlankTrimStart | src/component/panel/panelCanvas.jsx:8 | an all-blank string trims to "" |
| Text.TrimEmptyIffBlank | src/component/panel/panelCanvas.jsx:192-195 | the trim is empty exactly when every character is blank (both directions) |
| Text.TrimStartAgree | app/api.py:436 | two blank sets that agree on every character of `s` remove the same leading run |
| Text.TrimEndAgree | app/api.py:436 | two blank sets that agree on every character of `s` remove the same trailing run |
| Text.TrimAgree | app/api.py:436 | two blank sets that agree on every character of `s` trim it identically |
| Js.Prop | src/component/data/dataTransformer.jsx:9-15 | a property read finds a value exactly when the value is an object with that own key, and then returns that field |
| ChartConst.TablesDisjoint | src/component/chart/chartConst.jsx:4-5 | no chart type is in both the global-update and the sequence-update table |
| ChartConst.UnknownTagIsRolling | src/component/chart/chartConst.jsx:4-5 | a tag in neither table is not global-update, so it takes the rolling path |
| ChartConst.GaugeIsGlobal | src/component/chart/chartConst.jsx:4 | `gauge` is global-update and not sequence-update |
| DataTransformer.TransformSinglePointData | src/component/data/dataTransformer.jsx:7-19 | `null` exactly when the frame is falsy or lacks `timestamp` or `value`; ReferenceError exactly when it is otherwise valid but its `id` is missing or falsy; on success the point keeps `id`, `timestamp` as `index`, and `value` unchanged |
| DataTransformer.AcceptedFramesAreObjects | src/component/data/dataTransformer.jsx:9-12 | a frame gets past the validity check exactly when it is an object with `timestamp` and `value` keys (a defined falsy value is accepted) |
| DataTransformer.TransformAll | src/component/data/dataTransformer.jsx:31 | the list throws exactly when some element throws; otherwise it is no longer than the input, every point is some element's decoding, and every decodable element's point is in it |
| DataTransformer.TransformAllAppend | src/component/data/dataTransformer.jsx:31 | decoding distributes over concatenation, so the output is the in-order subsequence of decoded frames |
| DataTransformer.TransformDataList | src/component/data/dataTransformer.jsx:25-32 | a non-array gives `[]`; an array gives the decoding of its elements |
| PanelCanvas.LowerStringEmptyIffBlank | src/component/panel/panelCanvas.jsx:8 | `lowerString` yields "" exactly when the input is blank, and the extra `trim()` in `addChart` changes nothing |
| PanelCanvas.LowerCharWhitespace | src/component/panel/panelCanvas.jsx:8 | lower-casing neither creates nor removes blanks, and is idempotent on a character |
| PanelCanvas.LowerStringNormalises | src/component/panel/panelCanvas.jsx:8 | every non-empty `lowerString` result has no blank at either end and no upper-case ASCII letter |
| PanelCanvas.NormalisedIsFixed | src/component/panel/panelCanvas.jsx:8 | `lowerString` leaves a normalised string unchanged |
| PanelCanvas.LowerStringIdempotent | src/component/panel/panelCanvas.jsx:8 | `lowerString` is idempotent |
| PanelCanvas.AppendCapped | src/component/panel/panelCanvas.jsx:161-163 | the new point is last; the length grows by one below the cap of 100 and stays put at or above it; the result is a suffix of old points plus the new one |
| PanelCanvas.EvictsOldestAtCap | src/component/panel/panelCanvas.jsx:161-163 | at 100 points, exactly the oldest point is shifted off |
| PanelCanvas.RollingWindow | src/component/panel/panelCanvas.jsx:161-163 | after any number of writes, a buffer that started within the cap holds exactly the newest min(n, 100) points of everything written, in arrival order |
| PanelCanvas.ApplyPoint | src/component/panel/panelCanvas.jsx:157-165 | a global-update type replaces the buffer with the point; any other type, unknown tags included, appends under the cap |
| PanelCanvas.EmptyLayouts | src/component/panel/panelCanvas.jsx:37-39 | the initial layouts have exactly the five breakpoints `lg md sm xs xxs`, each empty |
| PanelCanvas.AppendDefaultEntry | src/component/panel/panelCanvas.jsx:125-135 | every breakpoint gains exactly one entry `{i: id, x: 0, y: Infinity, w: 6, h: 3}`, after its existing ones |
| PanelCanvas.DropItems | src/component/panel/panelCanvas.jsx:256 | the filter keeps exactly the entries whose `i` differs from the removed id |
| PanelCanvas.DropItemsAppend | src/component/panel/panelCanvas.jsx:256 | the filter distributes over concatenation, so kept entries keep their order |
| PanelCanvas.DropItemsAbsent | src/component/panel/panelCanvas.jsx:256 | removing an id with no entry leaves the entries unchanged |
| PanelCanvas.DropChart | src/component/panel/panelCanvas.jsx:252-259 | every breakpoint is kept and filtered of the removed id |
| PanelCanvas.DropCharts | src/component/panel/panelCanvas.jsx:251 | the chart list keeps exactly the charts with another id |
| PanelCanvas.DropChartsAbsent | src/component/panel/panelCanvas.jsx:251 | removing an id no chart has leaves the chart list unchanged |
| PanelCanvas.ChartIds | src/component/config/configHook.jsx:118 | the ids of the charts, position by position |
| PanelCanvas.ItemIds | src/component/panel/panelCanvas.jsx:256 | the `i` of the entries, position by position |
| PanelCanvas.DropItemsIds | src/component/panel/panelCanvas.jsx:256 | filtering entries filters their id list the same way |
| PanelCanvas.DropChartsIds | src/component/panel/panelCanvas.jsx:251 | filtering charts filters their id list the same way |
| PanelCanvas.TrackAfterSuccess | src/component/panel/panelCanvas.jsx:121-135 | a success frame outside an import keeps every breakpoint listing one entry per chart, in chart order |
| PanelCanvas.TrackAfterRemove | src/component/panel/panelCanvas.jsx:251-259 | `removeChart` keeps every breakpoint listing one entry per chart, in chart order |
| PanelCanvas.Trigger | src/component/panel/panelCanvas.jsx:76-80 | after a trigger a render is queued and the version is unchanged |
| PanelCanvas.Fire | src/component/panel/panelCanvas.jsx:81-85 | the pending timer advances the version by exactly one and clears the flag |
| PanelCanvas.BurstCoalesces | src/component/panel/panelCanvas.jsx:76-86 | any burst of one or more triggers equals one trigger, and its timer advances the version by exactly one |
| PanelCanvas.StatusAfter | src/component/panel/panelCanvas.jsx:94-103 | while importing nothing changes; otherwise the status is set, and the revert timer is (re)started unless the status is `'connecting'` |
| PanelCanvas.Route | src/component/panel/panelCanvas.jsx:110-146 | `null` throws; a `'success'` status is the success path and `'failure'` the failure path (each iff); a frame is data exactly when it is non-null and has no truthy `status` |
| PanelCanvas.PanelCore.constructor | src/component/panel/panelCanvas.jsx:36-55 | an empty chart list, the five empty breakpoints, status `'idle'`, version 0, empty maps |
| PanelCanvas.PanelCore.SetChartInstance | src/component/panel/panelCanvas.jsx:67-73 | a mounted instance is stored under its id; an unmounted one is deleted |
| PanelCanvas.PanelCore.TriggerRender | src/component/panel/panelCanvas.jsx:76-86 | the throttle becomes `Trigger` of the old one: absorbed while queued |
| PanelCanvas.PanelCore.RenderTimerFires | src/component/panel/panelCanvas.jsx:81-85 | the version goes up by one and the flag clears |
| PanelCanvas.PanelCore.HandleSubscriptionStatus | src/component/panel/panelCanvas.jsx:94-103 | status and revert timer become `StatusAfter` of the old ones |
| PanelCanvas.PanelCore.StatusTimerFires | src/component/panel/panelCanvas.jsx:101 | the status returns to `'idle'` |
| PanelCanvas.PanelCore.AddChart | src/component/panel/panelCanvas.jsx:187-232 | an input that normalises to "" is rejected, reports `'failure'` and creates no socket; otherwise one socket is created for the fresh id with the normalised type and keyword, the status becomes `'connecting'` outside an import, and the promise stays pending |
| PanelCanvas.PanelCore.OpenSocket | src/component/panel/panelCanvas.jsx:201-208 | the socket is recorded under the fresh id with normalised type and keyword, and `'connecting'` is shown outside an import |
| PanelCanvas.PanelCore.OnOpen | src/component/panel/panelCanvas.jsx:211-215 | the socket opens and sends `{chart_type, key_word}` with the values it was created for |
| PanelCanvas.PanelCore.OnSuccessFrame | src/component/panel/panelCanvas.jsx:115-140 | the buffer is (re)set to `[]`, the connection recorded, the chart appended; outside an import each breakpoint gains the default entry and the status becomes `'success'`; a repeated frame does it all again |
| PanelCanvas.PanelCore.OnFailureFrame | src/component/panel/panelCanvas.jsx:142-145 | status `'failure'` (unless importing) and the socket is closed; nothing else changes |
| PanelCanvas.PanelCore.OnDataFrame | src/component/panel/panelCanvas.jsx:146-169 | a decoded point is written to this chart's buffer by the type's policy and a render triggered, unless decoding fails, the chart has no buffer, or it is paused; then nothing changes |
| PanelCanvas.PanelCore.OnMessage | src/component/panel/panelCanvas.jsx:110-171 | per route: `null` or another status changes nothing; success, failure and data as above; the promise resolves only on a success frame; only the frame's own chart buffer is written |
| PanelCanvas.PanelCore.OnError | src/component/panel/panelCanvas.jsx:173-180 | the connection is forgotten; failure is reported only if the chart list the handler saw lacks this id |
| PanelCanvas.PanelCore.OnClose | src/component/panel/panelCanvas.jsx:182 | the socket is closed; nothing else changes |
| PanelCanvas.PanelCore.RemoveChart | src/component/panel/panelCanvas.jsx:236-260 | an open socket is closed; the id leaves connections, instances, data, the chart list and every breakpoint; other entries keep their order; an unknown id changes nothing |
| PanelCanvas.PanelCore.SetLayouts | src/component/config/configHook.jsx:120 | the layouts become the given ones |
| Panel.CapitalString | src/component/panel/panel.jsx:18 | same length; the first character upper-cased, the rest lower-cased; "" gives "" |
| Panel.CapitalStringIdempotent | src/component/panel/panel.jsx:18 | capitalising a capitalised label changes nothing |
| Panel.ToggleChartZoom | src/component/panel/panel.jsx:119-135 | only the given id changes; it becomes paused exactly when it was not (a missing or other value counts as `'off'`); its value is `'on'` or `'off'` |
| Panel.ToggleTwice | src/component/panel/panel.jsx:122-123 | two toggles restore an `'on'`/`'off'` state map |
| Panel.ToggleFromMissing | src/component/panel/panel.jsx:122-123 | from no state, one toggle gives `'on'` and two give `'off'` |
| Panel.FindChart | src/component/panel/panel.jsx:140 | the index of the first chart with this id, or none when no chart has it |
| Panel.HandleChartDoubleClick | src/component/panel/panel.jsx:138-150 | toggles exactly when the first chart with this id has a global-update type; otherwise the states are unchanged |
| Panel.OnlyGlobalChartsPause | src/component/panel/panel.jsx:138-150 | a double click changes only its own id's pause state, and only for a listed global-update chart |
| Panel.ReconcileListeners | src/component/panel/panel.jsx:21-72 | afterwards every listener belongs to a listed global-update chart; each is the old one or newly bound to the chart's instance; an eligible chart keeps its listener, and a mounted eligible chart gets one; at most one per id |
| Panel.DropUnlisted | src/component/panel/panel.jsx:57-65 | after the cleanup pass a listener remains exactly when its id is listed, and every remaining listener is unchanged |
| ConfigHook.ExportLayout | src/component/config/configHook.jsx:53-63 | the export lists each chart's type and keyword, same length and order, with layouts unchanged |
| ConfigHook.JsonItems | src/component/config/configHook.jsx:66 | a breakpoint written with `JSON.stringify` and parsed back keeps its ids and order; an entry at `y: Infinity` comes back at `y: null`, every other entry unchanged |
| ConfigHook.JsonLayouts | src/component/config/configHook.jsx:66 | every breakpoint is kept and goes through that round trip |
| ConfigHook.Reread | src/component/config/configHook.jsx:96-102 | an exported document reads back with every property present, the same chart entries, and the layouts through the JSON round trip |
| ConfigHook.DefaultEntryReadsBackNull | src/component/panel/panelCanvas.jsx:131 | a default entry `{i, x: 0, y: Infinity, w: 6, h: 3}`, exported and read back, is `{i, x: 0, y: null, w: 6, h: 3}` |
| ConfigHook.LookupSpec | src/component/config/configHook.jsx:143-144 | the map's lookup fails exactly when no pair has that old id; otherwise it returns the new id of the last pair with that old id (a later pair overrides an earlier one) |
| ConfigHook.RelayoutItems | src/component/config/configHook.jsx:148-152 | the relaid-out breakpoint is no longer than before |
| ConfigHook.RelayoutItemsMembers | src/component/config/configHook.jsx:148-152 | an entry survives exactly when its id is mapped, and then only its `i` changes, to the mapped id |
| ConfigHook.RelayoutItemsAppend | src/component/config/configHook.jsx:148-152 | the relayout distributes over concatenation, so relative order is kept |
| ConfigHook.Relayout | src/component/config/configHook.jsx:142-154 | every imported breakpoint is kept and relaid out |
| ConfigHook.OldLayoutId | src/component/config/configHook.jsx:131 | no value (the read throws) without an `lg` breakpoint; `lg[i].i` when present and non-empty; otherwise `temp-old-id-<i>` |
| ConfigHook.ImportedCharts | src/component/config/configHook.jsx:126-135 | after n entries, the chart list holds at most n charts |
| ConfigHook.ImportedIdMap | src/component/config/configHook.jsx:126-135 | after n entries, the id map holds at most n pairs |
| ConfigHook.ImportedIdMapSound | src/component/config/configHook.jsx:129-131 | each pair is some accepted entry's old layout id paired with that entry's fresh id |
| ConfigHook.ImportedIdMapComplete | src/component/config/configHook.jsx:129-131 | with an `lg` breakpoint present, every accepted entry contributes its pair of old layout id and fresh id |
| ConfigHook.ImportedIdMapWithoutLg | src/component/config/configHook.jsx:129-131 | without an `lg` breakpoint the read of `lg[i]` throws for every entry, so the map stays empty |
| ConfigHook.ImportedIdMapAllAccepted | src/component/config/configHook.jsx:126-135 | when every entry is accepted, the map has one pair per entry, in list order |
| ConfigHook.Recreated | src/component/config/configHook.jsx:126-135 | the rebuilt chart list has one chart per exported chart |
| ConfigHook.ReimportCharts | src/component/config/configHook.jsx:126-135 | re-adding normalised entries recreates exactly those charts, in order, under the fresh ids |
| ConfigHook.ExportImportCharts | src/component/config/configHook.jsx:53-63 | exporting and then importing recreates the same types and keywords in the same order under fresh ids |
| ConfigHook.RelayoutAllMapped | src/component/config/configHook.jsx:148-152 | when every entry is mapped, the relayout keeps all of them in order under their new ids |
| ConfigHook.LookupDistinct | src/component/config/configHook.jsx:144 | with distinct old ids, a lookup returns that pair's new id |
| ConfigHook.ReimportIdMap | src/component/config/configHook.jsx:129-131 | re-importing an export whose `lg` lists the charts in order pairs each chart's id with its fresh id, in order |
| ConfigHook.RelayoutRestoresIds | src/component/config/configHook.jsx:144-154 | relaying out layouts that list one entry per chart, in chart order, gives one entry per recreated chart in the same order under the new ids |
| ConfigHook.ExportImportLayouts | src/component/config/configHook.jsx:53-154 | export then import restores each breakpoint's ids and order: the read-back layouts, relaid out, list one entry per recreated chart in order under the new ids |
| ConfigHook.StatusFrame | src/component/config/configHook.jsx:129 | the server's status frame is a non-null object whose `status` is the given string |
| ConfigHook.ConfigIO.constructor | src/component/config/configHook.jsx:40-43 | not importing, with the given title, theme and theme table |
| ConfigHook.ConfigIO.TriggerImport | src/component/config/configHook.jsx:46-50 | the picker opens exactly when the input is mounted and no import is running |
| ConfigHook.ConfigIO.ImportOne | src/component/config/configHook.jsx:128-134 | a rejected entry changes no chart; an accepted subscription appends the normalised chart (and default entries when the closure is not importing); a refused one is stuck |
| ConfigHook.ConfigIO.Teardown | src/component/config/configHook.jsx:118-120 | every chart is removed and the layouts become the five empty breakpoints; exactly the old charts' ids leave `wsConnections`, `chartData` and `chartRefs`; each of those charts' sockets that was connected and open is now closed, and every other socket is as it was |
| ConfigHook.ConfigIO.RemoveEach | src/component/config/configHook.jsx:118 | `removeChart` for each chart of the snapshot empties the chart list and removes exactly the snapshot's ids from the connections, buffers and instances, closing their open connected sockets |
| ConfigHook.DropIdsStep | src/component/config/configHook.jsx:118 | one more `removeChart` on a list already stripped of some ids equals stripping that id as well |
| ConfigHook.DropIdsAll | src/component/config/configHook.jsx:118 | stripping every id of a list leaves no chart |
| ConfigHook.ConfigIO.AnswerSubscription | src/component/panel/panelCanvas.jsx:211-226 | an accepted answer appends the chart (and the default entries when the closure is not importing); a refused one changes neither charts nor layouts; sockets, connections and buffers change only at the new id |
| ConfigHook.ConfigIO.Rebuild | src/component/config/configHook.jsx:116-158 | the chart list and id map equal `ImportedCharts`/`ImportedIdMap`, or the import is stuck at the first refused entry; the layouts are relaid out when the map is non-empty; the old charts' instances are gone, their open connected sockets closed, and outside the fresh ids the connections and buffers are the old ones less the old charts' ids |
| ConfigHook.ConfigIO.ReAddStep | src/component/config/configHook.jsx:127-134 | one loop turn extends the chart list and id map to the next entry's values, or reports it stuck |
| ConfigHook.ConfigIO.ReAddAll | src/component/config/configHook.jsx:126-135 | entries are re-added strictly in order, a rejected one skipped; the result equals `ImportedCharts`/`ImportedIdMap`, or the import is stuck at the first refused entry |
| ConfigHook.ConfigIO.ImportLayout | src/component/config/configHook.jsx:86-188 | an unparsable document or one lacking `charts` or `layouts` fails before any teardown (the title and theme are applied for every parsed document, whatever the outcome); otherwise teardown, sequential re-add, and relayout when some chart was mapped (layouts stay empty when none was); `isImporting` ends `false` except when stuck; a failed document leaves the sockets, connections, buffers and instances untouched, and a torn-down panel has the old charts' instances gone and their open connected sockets closed |
| ConfigHook.ConfigIO.ApplyHeader | src/component/config/configHook.jsx:105-110 | a non-empty imported title replaces the panel title; an imported theme name replaces the theme exactly when it names a known theme; otherwise both are kept |
| Py.IntegralValue | app/api.py:413 | an integral operand's integer equals its numeric value |
| Py.Len | app/api.py:413 | `len` succeeds exactly on strings, lists and dictionaries |
| Py.Index | app/api.py:413 | indexing a sized value below its length raises exactly for a dictionary |
| Py.Repeat | app/api.py:413 | a repeated sequence has length `|s| * n`, or 0 when n ≤ 0 |
| Py.Mul | app/api.py:413 | `*` gives a number exactly for two numbers (their product), repeats a sequence by an integral operand, and raises TypeError otherwise |
| Py.Payload | app/apiCore.py:46-50 | a dictionary with exactly the keys `id`, `timestamp`, `value` holding the given values |
| ConfigEdit.Get | app/api.py:50-52 | `content[section][item]` yields the item exactly when both exist and the section is a dictionary; TypeError exactly for a present non-dictionary section; KeyError otherwise |
| ConfigEdit.UpdatedBy | app/configEdit.py:96 | raises exactly when the section is missing (KeyError) or not a dictionary (TypeError); otherwise the sections are unchanged in number |
| ConfigEdit.GetAfterUpdate | app/configEdit.py:96 | after an update the item reads back as the new value |
| ConfigEdit.OthersUnchanged | app/configEdit.py:96 | every other section and every other item reads exactly as before |
| ConfigEdit.LastUpdateWins | app/configEdit.py:96 | updating the same item twice equals updating it once with the second value |
| ConfigEdit.ConfigDict.constructor | app/configEdit.py:14-30 | a dictionary object holding the given document |
| ConfigEdit.ConfigUpdateBy | app/configEdit.py:76-97 | on success the same dictionary object is changed in place and returned; on an exception it is unchanged |
| ConfigEdit.ConfigFiles.constructor | app/configEdit.py:46-66 | the primary and default files hold the given documents |
| ConfigEdit.ConfigFiles.ConfigLoad | app/configEdit.py:46-55 | a fresh dictionary equal to the primary file |
| ConfigEdit.ConfigFiles.ConfigSave | app/configEdit.py:57-66 | the primary file becomes the dictionary's content |
| ConfigEdit.ConfigFiles.ConfigReset | app/configEdit.py:68-74 | the primary file becomes the default file's content |
| ConfigEdit.ConfigFiles.ConfigUpdate | app/configEdit.py:99-115 | equals save(update_by(load())); on an exception the file keeps its contents and the error is reported |
| ApiCore.FindSeparator | app/apiCore.py:45 | the first occurrence of `<:>` at or after a position, or none |
| ApiCore.Split | app/apiCore.py:45 | `split('<:>', 1)` unpacks exactly when the key contains the separator, into the text before its first occurrence and the rest |
| ApiCore.SplitDataKey | app/api.py:444-446 | a data key whose chart type has no separator splits back into that chart type and keyword |
| ApiCore.DataKeyInjective | app/api.py:444-446 | for separator-free chart types, data keys are equal exactly when chart types and keywords are |
| ApiCore.SimulateInitialDataFetch | app/apiCore.py:15-50 | none exactly for an unregistered key; the cached payload when cached; otherwise `{id: "INIT", timestamp: "N/A", value: 0}`, or ValueError exactly when an uncached registered key has no separator |
| ApiCore.HandlerKeysFetch | app/apiCore.py:354-357 | a key the handler builds never hits the unpacking error |
| ApiCore.AfterPush | app/apiCore.py:282-321 | the cache entry is always written; other keys' subscriptions are untouched; with subscribers and a serialisable payload the failing clients are removed and an emptied entry deleted; if `json.dumps` raises nothing else changes |
| ApiCore.DrainAppend | app/apiCore.py:273-279 | the queue is drained FIFO: draining a concatenation drains the first part, then the second |
| ApiCore.DrainKeepsOtherKeys | app/apiCore.py:273-279 | a drain leaves the cache entry of every key not in the queue as it was |
| ApiCore.LastWriteWins | app/apiCore.py:273-279 | after a drain each queued key caches its last update, even if a push raised or a send failed |
| ApiCore.DrainOnlyUnsubscribes | app/apiCore.py:273-279 | a drain never adds a subscription: every remaining key keeps a subset of its clients |
| ApiCore.StatusMessage | app/apiCore.py:343 | the status frame is serialisable |
| ApiCore.WebsocketManager.constructor | app/apiCore.py:55-91 | empty cache, subscriptions, valid keys and queue; the given host, port and route |
| ApiCore.WebsocketManager.RegisterDataStream | app/apiCore.py:95-106 | the key joins the valid set; registering twice equals once |
| ApiCore.WebsocketManager.PushUpdateSync | app/apiCore.py:108-125 | the update is appended at the back of the queue |
| ApiCore.WebsocketManager.GetCachedDataSync | app/apiCore.py:127-142 | the cached payload for the key, or none when not cached |
| ApiCore.WebsocketManager.UpdateAndPush | app/apiCore.py:282-321 | the new store is `AfterPush` of the old; the payload reaches every non-failing subscriber unless `json.dumps` raised |
| ApiCore.WebsocketManager.ProcessUpdateQueue | app/apiCore.py:261-279 | the queue is emptied and the store is the FIFO drain of the old queue; a raising update does not stop it |
| ApiCore.WebsocketManager.HandleConnect | app/apiCore.py:325-399 | a wrong path (with a route set) gets failure and close 1008 and no subscription; an unreadable request ends the handler; an unregistered key (or a cached `None`) gets failure and close 1008; otherwise the client is subscribed, then sent success and the initial payload, and if that payload cannot be serialised it is unsubscribed again |
| ApiCore.WebsocketManager.HandleDisconnect | app/apiCore.py:395-399 | the client leaves its key's set if present; an emptied set stays in the table |
| Api.ValidatedCoordinate | app/api.py:299-327 | holds exactly when the payload is valid and its value is a list of two numbers |
| Api.ValidatedDimension | app/api.py:330-358 | holds exactly when the value is a list of two lists of equal length |
| Api.ValidatedDimensions | app/api.py:361-389 | holds exactly when the value is a list of three lists whose second and third have equal length |
| Api.ValidatedSurface | app/api.py:392-420 | true exactly when the value is three parts with `len(axis) == 3`, a shape of two numbers, and `len(num) == shape[0] * shape[1]`; it raises only on a three-part list value |
| Api.SurfaceListsDoNotRaise | app/api.py:409-420 | three list parts with a numeric shape of length two never raise |
| Api.SurfaceRaisesOnNumberAxis | app/api.py:413 | a number in the axis slot raises TypeError instead of answering `False` |
| Api.AcceptedPayloadsAreValidated | app/api.py:203-206 | every accepted payload is a dictionary with `id`, `timestamp`, `value`; only the surface validator can raise |
| Api.ProducerTypesClassified | app/api.py:530-807 | every producer's chart type is in exactly one table (global-update for area, areas, pie, radar, surface, text); none is `gauge`; distinct classes have distinct types |
| Api.NormaliseKeyWordIdempotent | app/api.py:436 | `strip().lower()` is idempotent |
| Api.LowerKeepsBlanks | app/api.py:436 | lower-casing neither creates nor removes Python blanks |
| Api.StreamKeysSplit | app/apiCore.py:45 | a stream's data key splits back into its chart type and keyword |
| Api.ChartTypeSeparatorFree | app/api.py:532-807 | no chart type contains the separator |
| Api.StartConfigLoad | app/api.py:32-54 | succeeds exactly when the three `WEBSOCKET_CONFIG` items exist, and returns them |
| Api.StartConfigCheck | app/api.py:56-87 | with no `None` argument the arguments come back and the file is not consulted; otherwise each `None` is replaced by the configured value and the others kept, and a lookup error propagates |
| Api.StartConfigCheckStable | app/api.py:81-87 | completed settings come back unchanged when checked again |
| Api.UpdatedPortIsUsed | app/configEdit.py:99-115 | a port written with `config_update` is the one the next start without a port argument uses |
| Api.ApiGlobals.constructor | app/api.py:30 | no manager is running |
| Api.ApiGlobals.StartManager | app/api.py:89-118 | a new, empty manager with the given settings becomes the global one |
| Api.ApiGlobals.StartApi | app/api.py:120-148 | a running manager is returned unchanged; otherwise the settings are completed and a new manager started with no valid keys, no cache, no subscriptions and an empty queue, or the error propagates and no manager is left |
| Api.ApiGlobals.RestartApi | app/api.py:150-177 | the global manager is dropped first, so a new, empty one is always started, or none is left if the settings fail |
| Api.DataStream.constructor | app/api.py:423-446 | with a manager running, the keyword is stripped and lower-cased, the chart type is the class's own, the data key is `chart_type<:>key_word`, and it is registered with the global manager |
| Api.DataStream.Update | app/api.py:455-549 | a refused payload changes nothing; an accepted one is queued under the stream's key on the manager global at call time (so after `restart_api`, the new one), or raises `AttributeError` when none is running; a validator exception propagates |
| Api.NewStream | app/api.py:423-446 | creating a stream with no manager running raises `AttributeError`; otherwise a fresh stream bound to the globals is registered with the global manager |
| Api.DataStream.GetCachedData | app/api.py:463-473 | the payload the manager global at call time caches under the stream's key, or none; `AttributeError` when no manager is running |
| Protocol.ToJs | app/apiCore.py:375 | a dictionary reaches the browser as an object with the same keys |
| Protocol.StatusFramesRoute | app/apiCore.py:361-373 | the handshake's success and failure frames take the browser's success and failure paths |
| Protocol.InitPayloadDecodes | app/apiCore.py:46-50 | the default initial payload passes the number validator, is routed as data and decodes to `{id: "INIT", index: "N/A", value: 0}` |
| Protocol.AcceptedPayloadDecodes | src/component/data/dataTransformer.jsx:7-19 | an accepted payload with a truthy id and no truthy `status` is routed as data and decodes to its own id, timestamp and value |
| Protocol.EmptyIdAcceptedButThrows | src/component/data/dataTransformer.jsx:15 | a payload with id `""` passes the line validator, but the browser's decoder throws on it |
| Protocol.KeyWordNormalisationAgrees | app/api.py:436 | where both languages agree on which characters are blank, `lowerString` and `strip().lower()` give the same keyword |
| Protocol.SubscriptionMatchesStream | app/apiCore.py:352-354 | the key a chart subscribes to equals a stream's key exactly when the normalised type and keyword equal the stream's |
| Protocol.SameInputsSubscribe | src/component/panel/panelCanvas.jsx:211-215 | typing a stream's type and keyword into the panel subscribes to that stream's key |

## Left out

- Real WebSockets, timers, `FileReader`, `Blob`, DOM calls, `alert` and
  `console`: each is an explicit event or parameter, or (logging) dropped.
  The 150 ms, 1000 ms and 0/300/50 ms delays are not timed.
- React rendering and hook scheduling: the state a callback captured is a
  parameter. The panel's unmount cleanup and ECharts `resize()` calls are not
  modelled.
- `crypto.randomUUID()`: a fresh id passed in, required distinct.
- Text.ToLower: ASCII case mapping only, because Unicode case tables are out
  of reach. JavaScript `toLowerCase` and Python `lower` also map non-ASCII
  letters.
- Text.ToUpper: ASCII case mapping only, for the same reason.
- Protocol.KeyWordNormalisationAgrees: holds only for keywords whose
  characters both languages class alike. JavaScript trims U+FEFF; Python
  strips U+001C–U+001F and U+0085. The other case is not stated.
- Numbers are unbounded reals or integers. JavaScript doubles, Python float
  rounding, NaN and infinities are not modelled. The layout's
  `y: Infinity` is the constructor `Bottom`, and the `null` that
  `JSON.stringify` writes for it is `Null`. The grid's own rewriting of
  positions (its compaction of the current breakpoint) is not modelled.
- Imported documents are typed.
  - A `chartType` or `keyWord` that is present but not a string makes
    `trim()` throw; this is not modelled.
  - A falsy breakpoint entry (skipped by the relayout) is not modelled.
  - A document with other layout keys is not modelled.
- ConfigHook.ConfigIO.ImportLayout: when the re-add runs with a
  non-importing closure and no pair was mapped, the default entries the
  success frames appended are not spelled out. This happens only without an
  `lg` breakpoint.
- ConfigHook.ConfigIO.ImportLayout: the theme is taken when its name is a key
  of `allThemes`. The source tests `allThemes[importedThemeName]` for
  truthiness (configHook.jsx:106), so inherited object keys such as
  `constructor` pass there but are refused by the model.
- Subscription requests carry strings or nothing. The string form
  (`f"{v}"`) of a number, list or object field, and the `AttributeError` a
  non-object request raises, are folded into `Request`.
- Python dictionary keys are strings. `POther` stands for any
  non-JSON object: no length, not a number, refused by `json.dumps`.
- Threads, the asyncio loop and its wake-up event, the lock, the server's
  start and stop (`start_server_thread`, `_run_in_thread`,
  `stop_server_thread`, `_shutdown_async`, `_start_server_and_loop`) and
  `_safe_send`: concurrency and I/O. A failed send is the `failing` parameter.
- `DataStream.execute` and `DataStream.fresh`: a daemon thread and the
  wall clock.
- Api.DataStream.constructor: requires a running manager; the `AttributeError`
  path of creating a stream before `start_api` is `Api.NewStream`.
- Api.ApiGlobals.RestartApi: the old manager's server is not stopped. The
  model records only that the global is dropped; the `atexit` registration
  is not modelled.
- Configuration file I/O (`config_load_from`, `config_save_to`) is exact: a
  load returns what was last saved. A file that is not a JSON object, and
  read or write errors, are not modelled.
- ConfigEdit.ConfigUpdateBy: the document's sections are values, so aliasing
  between a section dictionary and other references to it is not modelled.
- Chart option building (`chartConfig.jsx`, `chart.jsx`), themes, header,
  configuration context, the eel bridge, the app shell and the test data
  generators are not part of this model.
