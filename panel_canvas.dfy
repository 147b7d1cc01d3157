/** `panelCanvas.jsx`: the dashboard's streaming store. Every chart is backed
    by its own WebSocket subscription; frames arriving on it create the chart,
    fail it, or write its data buffer under the policy its chart type selects.
    A throttle coalesces buffer writes into render pulses.

    The pure part (buffer policies, per-breakpoint layout edits, the throttle)
    is given as functions with lemmas; the store itself is the class
    `PanelCore`, one method per event. */
module PanelCanvas {
  import opened Wrappers
  import opened Js
  import opened Text
  import opened ChartConst
  import opened DataTransformer

  /** Chart ids are the strings `crypto.randomUUID()` yields. */
  type Id = string

  datatype Chart = Chart(id: Id, chartType: string, keyWord: string)

  /** A grid position's row: `Bottom` is the `y: Infinity` the store uses to
      place a new chart below all others; `Null` is the `y: null` such an
      entry becomes once written out with `JSON.stringify` and read back. */
  datatype YPos = Row(row: int) | Bottom | Null

  /** One react-grid-layout entry `{i, x, y, w, h}`. */
  datatype LayoutItem = LayoutItem(i: string, x: int, y: YPos, w: int, h: int)

  /** Breakpoint name to that breakpoint's entries. */
  type Layouts = map<string, seq<LayoutItem>>

  datatype Status = Idle | Connecting | Success | Failure

  /** A WebSocket's `readyState` (CLOSING is folded into CLOSED). */
  datatype ReadyState = WsConnecting | WsOpen | WsClosed

  /** A WebSocket created by `addChart`, with the normalised type and keyword
      its handlers were built for. */
  datatype Socket = Socket(chartType: string, keyWord: string, ready: ReadyState)

  /** A chart's entry in `chartData`: the rolling array of points, or, once a
      global-update chart has received data, the latest point itself. */
  datatype Buffer = Series(points: seq<Point>) | Snapshot(point: Point)

  /** The render throttle: `dataUpdateQueued` (a pending 150 ms timer exists
      exactly when it is set) and `chartDataVersion`. */
  datatype Throttle = Throttle(queued: bool, version: nat)

  /** Stand-in for an ECharts instance held in `chartRefs`. */
  datatype Instance = Instance(handle: nat)

  /** What `addChart` returns: a promise rejected at once, or one that resolves
      with the new id only when that socket receives a success frame. */
  datatype AddResult = Rejected | Pending(id: Id)

  /** The subscription message sent when a socket opens. */
  datatype SubscriptionRequest = SubscriptionRequest(chart_type: string, key_word: string)

  /** Rolling buffer cap. */
  const MaxPoints: nat := 100

  /** The breakpoints of the initial layout map. */
  const Breakpoints: set<string> := {"lg", "md", "sm", "xs", "xxs"}

  function Min(a: int, b: int): int { if a <= b then a else b }

  // ---------------------------------------------------------------------
  // Input normalisation

  /** `lowerString(str)`: trimmed and lower-cased. */
  function LowerString(s: string): string {
    ToLower(Trim(Whitespace, s))
  }

  /** A normalised input is empty exactly when the raw input was blank, and
      `addChart`'s extra `trim()` before `lowerString` changes nothing. */
  lemma LowerStringEmptyIffBlank(s: string)
    ensures LowerString(s) == "" <==> forall k :: 0 <= k < |s| ==> IsWhitespace(s[k])
    ensures LowerString(Trim(Whitespace, s)) == LowerString(s)
  {
    TrimEmptyIffBlank(Whitespace, s);
    TrimIdempotent(Whitespace, s);
  }

  /** Lower-casing maps whitespace to whitespace and nothing else to it. */
  lemma LowerCharWhitespace(c: char)
    ensures IsWhitespace(LowerChar(c)) <==> IsWhitespace(c)
    ensures LowerChar(LowerChar(c)) == LowerChar(c)
  {
  }

  /** The shape of a type or keyword `addChart` accepted: non-empty, no
      whitespace at either end, no upper-case ASCII letter. */
  predicate Normalised(s: string) {
    && s != ""
    && !IsWhitespace(s[0]) && !IsWhitespace(s[|s| - 1])
    && forall k :: 0 <= k < |s| ==> !('A' <= s[k] <= 'Z')
  }

  /** Every non-empty result of `lowerString` is `Normalised`. */
  lemma LowerStringNormalises(s: string)
    requires LowerString(s) != ""
    ensures Normalised(LowerString(s))
  {
    TrimSpec(Whitespace, s);
    var t := Trim(Whitespace, s);
    var u := ToLower(t);
    assert u[0] == LowerChar(t[0]) && u[|u| - 1] == LowerChar(t[|t| - 1]);
    LowerCharWhitespace(t[0]);
    LowerCharWhitespace(t[|t| - 1]);
    forall k | 0 <= k < |u| ensures !('A' <= u[k] <= 'Z') {
      assert u[k] == LowerChar(t[k]);
    }
  }

  /** `lowerString` leaves a `Normalised` string unchanged. */
  lemma NormalisedIsFixed(s: string)
    requires Normalised(s)
    ensures LowerString(s) == s
  {
    TrimFixed(Whitespace, s);
  }

  /** Hence `lowerString` is idempotent. */
  lemma LowerStringIdempotent(s: string)
    ensures LowerString(LowerString(s)) == LowerString(s)
  {
    if LowerString(s) != "" {
      LowerStringNormalises(s);
      NormalisedIsFixed(LowerString(s));
    } else {
      TrimFixed(Whitespace, "");
    }
  }

  /** `addChart` refuses a request whose type or keyword normalises to "". */
  predicate Rejects(chartType: string, keyWord: string) {
    LowerString(chartType) == "" || LowerString(keyWord) == ""
  }

  // ---------------------------------------------------------------------
  // Buffer policies

  /** Rolling policy: append `p`, then shift one point off the front when the
      array has grown past `MaxPoints`. */
  function AppendCapped(points: seq<Point>, p: Point): (r: seq<Point>)
    ensures |r| > 0 && r[|r| - 1] == p
    ensures |points| < MaxPoints ==> |r| == |points| + 1
    ensures |points| >= MaxPoints ==> |r| == |points|
    ensures r == (points + [p])[|points| + 1 - |r|..]
  {
    var s := points + [p];
    if |s| > MaxPoints then s[1..] else s
  }

  /** At the cap, exactly the oldest point is evicted. */
  lemma EvictsOldestAtCap(points: seq<Point>, p: Point)
    requires |points| == MaxPoints
    ensures AppendCapped(points, p) == points[1..] + [p]
  {
  }

  /** A sequence of points written one after the other under the rolling policy. */
  function AppendAll(points: seq<Point>, ps: seq<Point>): seq<Point>
    decreases |ps|
  {
    if |ps| == 0 then points else AppendAll(AppendCapped(points, ps[0]), ps[1..])
  }

  /** However many points arrive, a rolling buffer that starts within the cap
      holds exactly the newest `min(n, 100)` points of everything written, in
      arrival order. */
  lemma {:induction false} RollingWindow(points: seq<Point>, ps: seq<Point>)
    requires |points| <= MaxPoints
    ensures var r := AppendAll(points, ps); var all := points + ps;
      && |r| == Min(|all|, MaxPoints)
      && r == all[|all| - |r|..]
    decreases |ps|
  {
    if |ps| > 0 {
      var s1 := AppendCapped(points, ps[0]);
      var d := |points| + 1 - |s1|;
      RollingWindow(s1, ps[1..]);
      ShiftedConcat(points, ps, d, s1);
      SuffixOfSuffix(points + ps, d, |AppendAll(s1, ps[1..])|);
    }
  }

  /** The points still held after one capped write, followed by the points
      still to come, are everything written minus the `d` evicted ones. */
  lemma ShiftedConcat(points: seq<Point>, ps: seq<Point>, d: nat, s1: seq<Point>)
    requires |ps| > 0 && d <= |points|
    requires s1 == (points + [ps[0]])[d..]
    ensures s1 + ps[1..] == (points + ps)[d..]
  {
    assert points + ps == (points + [ps[0]]) + ps[1..];
  }

  /** A suffix of a suffix is a suffix. */
  lemma SuffixOfSuffix(all: seq<Point>, d: nat, m: nat)
    requires d + m <= |all|
    ensures all[d..][|all| - d - m..] == all[|all| - m..]
  {
  }

  /** `true` when the chart's zoom state is `'on'`. */
  predicate Paused(chartStates: map<Id, string>, id: Id) {
    id in chartStates && chartStates[id] == "on"
  }

  /** The write a valid point makes to a chart's buffer: a global-update chart
      replaces the buffer with the point; every other type, unknown tags
      included, appends under the cap. (Spreading a snapshot buffer for a
      rolling chart would throw; the store never builds one.) */
  function ApplyPoint(chartType: string, buf: Buffer, p: Point): (r: Buffer)
    requires buf.Series? || IsGlobalUpdate(chartType)
    ensures IsGlobalUpdate(chartType) ==> r == Snapshot(p)
    ensures !IsGlobalUpdate(chartType) ==> r.Series? && r.points == AppendCapped(buf.points, p)
  {
    if IsGlobalUpdate(chartType) then Snapshot(p) else Series(AppendCapped(buf.points, p))
  }

  // ---------------------------------------------------------------------
  // Layout bookkeeping

  /** The layout map the store starts with, and the one an import resets to. */
  function EmptyLayouts(): (r: Layouts)
    ensures r.Keys == Breakpoints
    ensures forall bp :: bp in r ==> r[bp] == []
  {
    map bp | bp in Breakpoints :: []
  }

  /** `{ i: newId, x: 0, y: Infinity, w: 6, h: 3 }`. */
  function DefaultItem(id: Id): LayoutItem {
    LayoutItem(id, 0, Bottom, 6, 3)
  }

  /** Appends a default entry for `id` after the existing ones in every breakpoint. */
  function AppendDefaultEntry(layouts: Layouts, id: Id): (r: Layouts)
    ensures r.Keys == layouts.Keys
    ensures forall bp :: bp in r ==> r[bp] == layouts[bp] + [DefaultItem(id)]
  {
    map bp | bp in layouts :: layouts[bp] + [DefaultItem(id)]
  }

  /** `items.filter(item => item.i !== chartId)`. */
  function DropItems(items: seq<LayoutItem>, chartId: Id): (r: seq<LayoutItem>)
    ensures |r| <= |items|
    ensures forall x :: x in r ==> x in items && x.i != chartId
    ensures forall x :: x in items && x.i != chartId ==> x in r
    decreases |items|
  {
    if |items| == 0 then []
    else (if items[0].i == chartId then [] else [items[0]]) + DropItems(items[1..], chartId)
  }

  /** Filtering distributes over concatenation, so the kept entries keep
      their relative order. */
  lemma {:induction false} DropItemsAppend(a: seq<LayoutItem>, b: seq<LayoutItem>, chartId: Id)
    ensures DropItems(a + b, chartId) == DropItems(a, chartId) + DropItems(b, chartId)
    decreases |a|
  {
    if |a| == 0 {
      assert a + b == b;
    } else {
      assert (a + b)[1..] == a[1..] + b;
      DropItemsAppend(a[1..], b, chartId);
    }
  }

  /** An id with no entry leaves the entries untouched. */
  lemma {:induction false} DropItemsAbsent(items: seq<LayoutItem>, chartId: Id)
    requires forall x :: x in items ==> x.i != chartId
    ensures DropItems(items, chartId) == items
    decreases |items|
  {
    if |items| > 0 {
      DropItemsAbsent(items[1..], chartId);
    }
  }

  /** `removeChart`'s layout update, applied to every breakpoint. */
  function DropChart(layouts: Layouts, chartId: Id): (r: Layouts)
    ensures r.Keys == layouts.Keys
    ensures forall bp :: bp in r ==> r[bp] == DropItems(layouts[bp], chartId)
  {
    map bp | bp in layouts :: DropItems(layouts[bp], chartId)
  }

  /** `charts.filter(chart => chart.id !== chartId)`. */
  function DropCharts(charts: seq<Chart>, chartId: Id): (r: seq<Chart>)
    ensures |r| <= |charts|
    ensures forall c :: c in r ==> c in charts && c.id != chartId
    ensures forall c :: c in charts && c.id != chartId ==> c in r
    decreases |charts|
  {
    if |charts| == 0 then []
    else (if charts[0].id == chartId then [] else [charts[0]]) + DropCharts(charts[1..], chartId)
  }

  /** Removing an id no chart has leaves the chart list untouched. */
  lemma {:induction false} DropChartsAbsent(charts: seq<Chart>, chartId: Id)
    requires forall k :: 0 <= k < |charts| ==> charts[k].id != chartId
    ensures DropCharts(charts, chartId) == charts
    decreases |charts|
  {
    if |charts| > 0 {
      DropChartsAbsent(charts[1..], chartId);
    }
  }

  /** The ids of a chart list, as a set. */
  function ChartIdSet(charts: seq<Chart>): set<Id> {
    set c | c in charts :: c.id
  }

  /** A socket after `if (ws.readyState === WebSocket.OPEN) ws.close()` when
      `close` holds, and untouched otherwise. */
  function ClosedIfOpen(s: Socket, close: bool): Socket {
    if close && s.ready == WsOpen then s.(ready := WsClosed) else s
  }

  function ChartIds(charts: seq<Chart>): (r: seq<Id>)
    ensures |r| == |charts| && forall k :: 0 <= k < |charts| ==> r[k] == charts[k].id
  {
    seq(|charts|, k requires 0 <= k < |charts| => charts[k].id)
  }

  function ItemIds(items: seq<LayoutItem>): (r: seq<Id>)
    ensures |r| == |items| && forall k :: 0 <= k < |items| ==> r[k] == items[k].i
  {
    seq(|items|, k requires 0 <= k < |items| => items[k].i)
  }

  function FilterIds(ids: seq<Id>, chartId: Id): seq<Id>
    decreases |ids|
  {
    if |ids| == 0 then []
    else (if ids[0] == chartId then [] else [ids[0]]) + FilterIds(ids[1..], chartId)
  }

  lemma {:induction false} DropItemsIds(items: seq<LayoutItem>, chartId: Id)
    ensures ItemIds(DropItems(items, chartId)) == FilterIds(ItemIds(items), chartId)
    decreases |items|
  {
    if |items| > 0 {
      DropItemsIds(items[1..], chartId);
      assert ItemIds(items)[1..] == ItemIds(items[1..]);
      var head := if items[0].i == chartId then [] else [items[0]];
      assert ItemIds(head + DropItems(items[1..], chartId))
          == ItemIds(head) + ItemIds(DropItems(items[1..], chartId));
    }
  }

  lemma {:induction false} DropChartsIds(charts: seq<Chart>, chartId: Id)
    ensures ChartIds(DropCharts(charts, chartId)) == FilterIds(ChartIds(charts), chartId)
    decreases |charts|
  {
    if |charts| > 0 {
      var ids, rest := ChartIds(charts), DropCharts(charts[1..], chartId);
      DropChartsIds(charts[1..], chartId);
      assert ids[1..] == ChartIds(charts[1..]);
      var head := if charts[0].id == chartId then [] else [charts[0]];
      ChartIdsConcat(head, rest);
      assert ChartIds(head) == if ids[0] == chartId then [] else [ids[0]];
      calc {
        ChartIds(DropCharts(charts, chartId));
        ChartIds(head + rest);
        ChartIds(head) + ChartIds(rest);
        (if ids[0] == chartId then [] else [ids[0]]) + FilterIds(ids[1..], chartId);
        FilterIds(ids, chartId);
      }
    }
  }

  lemma ChartIdsConcat(a: seq<Chart>, b: seq<Chart>)
    ensures ChartIds(a + b) == ChartIds(a) + ChartIds(b)
  {
    assert forall k :: 0 <= k < |a + b| ==> ChartIds(a + b)[k] == (ChartIds(a) + ChartIds(b))[k];
  }

  /** Outside an import, every breakpoint lists exactly one entry per chart,
      in chart order. */
  ghost predicate LayoutsTrackCharts(charts: seq<Chart>, layouts: Layouts) {
    forall bp :: bp in layouts ==> ItemIds(layouts[bp]) == ChartIds(charts)
  }

  /** A success frame outside an import keeps layouts in step with charts. */
  lemma TrackAfterSuccess(charts: seq<Chart>, layouts: Layouts, c: Chart)
    requires LayoutsTrackCharts(charts, layouts)
    ensures LayoutsTrackCharts(charts + [c], AppendDefaultEntry(layouts, c.id))
  {
    var r := AppendDefaultEntry(layouts, c.id);
    forall bp | bp in r ensures ItemIds(r[bp]) == ChartIds(charts + [c]) {
      assert ItemIds(r[bp]) == ItemIds(layouts[bp]) + [c.id];
      assert ChartIds(charts + [c]) == ChartIds(charts) + [c.id];
    }
  }

  /** So does `removeChart`. */
  lemma TrackAfterRemove(charts: seq<Chart>, layouts: Layouts, chartId: Id)
    requires LayoutsTrackCharts(charts, layouts)
    ensures LayoutsTrackCharts(DropCharts(charts, chartId), DropChart(layouts, chartId))
  {
    DropChartsIds(charts, chartId);
    forall bp | bp in layouts
      ensures ItemIds(DropChart(layouts, chartId)[bp]) == ChartIds(DropCharts(charts, chartId))
    {
      DropItemsIds(layouts[bp], chartId);
    }
  }

  // ---------------------------------------------------------------------
  // Render throttle

  /** `triggerRender()`: absorbed while a render is queued; otherwise queues
      one and starts its timer. */
  function Trigger(t: Throttle): (r: Throttle)
    ensures r.queued && r.version == t.version
  {
    if t.queued then t else Throttle(true, t.version)
  }

  /** The pending 150 ms timer fires: bump the version, clear the flag. */
  function Fire(t: Throttle): (r: Throttle)
    requires t.queued
    ensures !r.queued && r.version == t.version + 1
  {
    Throttle(false, t.version + 1)
  }

  function TriggerTimes(t: Throttle, n: nat): Throttle
    decreases n
  {
    if n == 0 then t else TriggerTimes(Trigger(t), n - 1)
  }

  /** Any burst of triggers before the timer fires produces exactly one render
      pulse: the version advances by one. */
  lemma {:induction false} BurstCoalesces(t: Throttle, n: nat)
    requires n >= 1
    ensures TriggerTimes(t, n) == Trigger(t)
    ensures Fire(TriggerTimes(t, n)) == Throttle(false, t.version + 1)
    decreases n
  {
    if n > 1 {
      BurstCoalesces(Trigger(t), n - 1);
    }
  }

  // ---------------------------------------------------------------------
  // Subscription status

  /** `handleSubscriptionStatus(status)`: nothing while importing; otherwise
      set the status and, unless it is `'connecting'`, (re)start the timer
      that reverts it to `'idle'`. Returns the new status and whether that
      timer is pending. */
  function StatusAfter(status: Status, timerPending: bool, s: Status, importing: bool): (r: (Status, bool))
    ensures importing ==> r == (status, timerPending)
    ensures !importing ==> r.0 == s && r.1 == (s != Connecting || timerPending)
  {
    if importing then (status, timerPending)
    else (s, if s != Connecting then true else timerPending)
  }

  // ---------------------------------------------------------------------
  // Frame routing

  /** How `onmessage` treats a parsed frame. */
  datatype FrameRoute = Throws | SuccessFrame | FailureFrame | OtherStatus | DataFrame

  /** `null.status` throws; a truthy `status` selects the subscription path
      (`'success'`, `'failure'`, or ignored); anything else is data. */
  function Route(frame: JsValue): (r: FrameRoute)
    ensures r == Throws <==> frame == JNull
    ensures r == SuccessFrame <==> frame != JNull && Prop(frame, "status") == Some(JStr("success"))
    ensures r == FailureFrame <==> frame != JNull && Prop(frame, "status") == Some(JStr("failure"))
    ensures r == DataFrame <==>
      frame != JNull && !(Prop(frame, "status").Some? && Truthy(Prop(frame, "status").value))
  {
    if frame == JNull then Throws
    else
      var st := Prop(frame, "status");
      if st.Some? && Truthy(st.value) then
        if st.value == JStr("success") then SuccessFrame
        else if st.value == JStr("failure") then FailureFrame
        else OtherStatus
      else DataFrame
  }

  // ---------------------------------------------------------------------
  // The store

  class PanelCore {
    var charts: seq<Chart>
    var layouts: Layouts
    var status: Status
    /** A 1000 ms timer that will set the status back to `'idle'` is pending. */
    var statusTimerPending: bool
    var throttle: Throttle
    /** Keys of `wsConnections`; the WebSocket stored under `id` is `sockets[id]`. */
    var wsConnections: set<Id>
    var chartData: map<Id, Buffer>
    var chartRefs: map<Id, Instance>
    /** Every WebSocket `addChart` has created, by the id it was created for. */
    var sockets: map<Id, Socket>
    /** Ids whose `addChart` promise has resolved. */
    var resolved: set<Id>
    var chartTypeInput: string
    var keyWordInput: string

    ghost predicate Valid()
      reads this`charts, this`sockets, this`chartData, this`wsConnections, this`resolved
    {
      && (forall c :: c in charts ==>
            c.id in sockets && sockets[c.id].chartType == c.chartType && sockets[c.id].keyWord == c.keyWord)
      && chartData.Keys <= sockets.Keys
      && (forall id :: id in chartData && chartData[id].Snapshot? ==> IsGlobalUpdate(sockets[id].chartType))
      && wsConnections <= sockets.Keys
      && resolved <= sockets.Keys
    }

    constructor ()
      ensures Valid()
      ensures charts == [] && layouts == EmptyLayouts() && status == Idle && !statusTimerPending
      ensures throttle == Throttle(false, 0)
      ensures wsConnections == {} && chartData == map[] && chartRefs == map[] && sockets == map[]
      ensures resolved == {} && chartTypeInput == "" && keyWordInput == ""
    {
      charts := [];
      layouts := EmptyLayouts();
      status := Idle;
      statusTimerPending := false;
      throttle := Throttle(false, 0);
      wsConnections := {};
      chartData := map[];
      chartRefs := map[];
      sockets := map[];
      resolved := {};
      chartTypeInput := "";
      keyWordInput := "";
    }

    /** `setChartInstance(id, instance)`: store a mounted instance, forget an
        unmounted one. */
    method SetChartInstance(id: Id, instance: Option<Instance>)
      modifies this`chartRefs
      ensures instance.Some? ==> chartRefs == old(chartRefs)[id := instance.value]
      ensures instance.None? ==> chartRefs == old(chartRefs) - {id}
    {
      if instance.Some? {
        chartRefs := chartRefs[id := instance.value];
      } else {
        chartRefs := chartRefs - {id};
      }
    }

    /** `triggerRender()`. */
    method TriggerRender()
      modifies this`throttle
      ensures throttle == Trigger(old(throttle))
    {
      if throttle.queued {
        return;
      }
      throttle := Throttle(true, throttle.version);
    }

    /** The throttle's pending timer fires. */
    method RenderTimerFires()
      requires throttle.queued
      modifies this`throttle
      ensures throttle == Fire(old(throttle))
      ensures throttle.version == old(throttle.version) + 1 && !throttle.queued
    {
      throttle := Throttle(false, throttle.version + 1);
    }

    /** `handleSubscriptionStatus(s)` with the import flag its closure saw. */
    method HandleSubscriptionStatus(s: Status, importing: bool)
      modifies this`status, this`statusTimerPending
      ensures (status, statusTimerPending) == StatusAfter(old(status), old(statusTimerPending), s, importing)
    {
      if importing {
        return;
      }
      status := s;
      if s != Connecting {
        statusTimerPending := true;
      }
    }

    /** The status-revert timer fires. */
    method StatusTimerFires()
      requires statusTimerPending
      modifies this`status, this`statusTimerPending
      ensures status == Idle && !statusTimerPending
    {
      status := Idle;
      statusTimerPending := false;
    }

    /** `addChart(chartTypeOverride, keyWordOverride)`. A missing argument
        falls back to the input box (a JavaScript default parameter). Both
        values are trimmed and lower-cased; if either is then empty the status
        becomes `'failure'` and the promise is rejected without creating a
        WebSocket. Otherwise a socket is created for the fresh id `newId`, the
        status becomes `'connecting'` outside an import, and the promise stays
        pending until a success frame. */
    method AddChart(chartTypeArg: Option<string>, keyWordArg: Option<string>, newId: Id, importing: bool)
      returns (r: AddResult)
      requires Valid()
      requires newId !in sockets
      modifies this`sockets, this`status, this`statusTimerPending
      ensures Valid()
      ensures Rejects(chartTypeArg.GetOr(old(chartTypeInput)), keyWordArg.GetOr(old(keyWordInput))) ==>
        && r == Rejected
        && sockets == old(sockets)
        && (status, statusTimerPending) == StatusAfter(old(status), old(statusTimerPending), Failure, importing)
      ensures !Rejects(chartTypeArg.GetOr(old(chartTypeInput)), keyWordArg.GetOr(old(keyWordInput))) ==>
        && r == Pending(newId)
        && sockets == old(sockets)[newId := Socket(LowerString(chartTypeArg.GetOr(old(chartTypeInput))),
                                                   LowerString(keyWordArg.GetOr(old(keyWordInput))), WsConnecting)]
        && status == (if importing then old(status) else Connecting)
        && statusTimerPending == old(statusTimerPending)
      ensures r.Pending? ==> Normalised(sockets[newId].chartType) && Normalised(sockets[newId].keyWord)
    {
      // The source trims once more before `lowerString`; by
      // `LowerStringEmptyIffBlank` that extra trim changes nothing.
      var chartType := chartTypeArg.GetOr(chartTypeInput);
      var keyWord := keyWordArg.GetOr(keyWordInput);
      if Rejects(chartType, keyWord) {
        HandleSubscriptionStatus(Failure, importing);
        r := Rejected;
      } else {
        OpenSocket(newId, chartType, keyWord, importing);
        r := Pending(newId);
      }
    }

    /** The accepting half of `addChart`: create the socket for the
        normalised type and keyword and, outside an import, show
        `'connecting'`. */
    method OpenSocket(newId: Id, chartTypeRaw: string, keyWordRaw: string, importing: bool)
      requires Valid()
      requires newId !in sockets
      requires !Rejects(chartTypeRaw, keyWordRaw)
      modifies this`sockets, this`status
      ensures Valid()
      ensures sockets == old(sockets)[newId := Socket(LowerString(chartTypeRaw), LowerString(keyWordRaw), WsConnecting)]
      ensures status == (if importing then old(status) else Connecting)
      ensures Normalised(sockets[newId].chartType) && Normalised(sockets[newId].keyWord)
    {
      var chartType := LowerString(chartTypeRaw);
      var keyWord := LowerString(keyWordRaw);
      LowerStringNormalises(chartTypeRaw);
      LowerStringNormalises(keyWordRaw);
      sockets := sockets[newId := Socket(chartType, keyWord, WsConnecting)];
      if !importing {
        status := Connecting;
      }
    }

    /** The socket opens and sends its subscription request. */
    method OnOpen(id: Id) returns (request: SubscriptionRequest)
      requires Valid()
      requires id in sockets && sockets[id].ready == WsConnecting
      modifies this`sockets
      ensures Valid()
      ensures sockets == old(sockets)[id := old(sockets)[id].(ready := WsOpen)]
      ensures request == SubscriptionRequest(sockets[id].chartType, sockets[id].keyWord)
    {
      sockets := sockets[id := sockets[id].(ready := WsOpen)];
      request := SubscriptionRequest(sockets[id].chartType, sockets[id].keyWord);
    }

    /** A `{status: 'success'}` frame: (re)initialise the chart's buffer,
        register the socket, append the chart, and outside an import append a
        default entry to every breakpoint and report success. A repeated
        success frame does all of this again. */
    method OnSuccessFrame(id: Id, importing: bool)
      requires Valid()
      requires id in sockets
      modifies this`chartData, this`wsConnections, this`charts, this`layouts, this`status, this`statusTimerPending
      ensures Valid()
      ensures chartData == old(chartData)[id := Series([])]
      ensures wsConnections == old(wsConnections) + {id}
      ensures charts == old(charts) + [Chart(id, sockets[id].chartType, sockets[id].keyWord)]
      ensures layouts == if importing then old(layouts) else AppendDefaultEntry(old(layouts), id)
      ensures (status, statusTimerPending) == StatusAfter(old(status), old(statusTimerPending), Success, importing)
    {
      chartData := chartData[id := Series([])];
      wsConnections := wsConnections + {id};
      charts := charts + [Chart(id, sockets[id].chartType, sockets[id].keyWord)];
      if !importing {
        layouts := AppendDefaultEntry(layouts, id);
        HandleSubscriptionStatus(Success, importing);
      }
    }

    /** A `{status: 'failure'}` frame: report failure and close the socket.
        The `addChart` promise is neither resolved nor rejected. */
    method OnFailureFrame(id: Id, importing: bool)
      requires Valid()
      requires id in sockets
      modifies this`sockets, this`status, this`statusTimerPending
      ensures Valid()
      ensures sockets == old(sockets)[id := old(sockets)[id].(ready := WsClosed)]
      ensures (status, statusTimerPending) == StatusAfter(old(status), old(statusTimerPending), Failure, importing)
    {
      HandleSubscriptionStatus(Failure, importing);
      sockets := sockets[id := sockets[id].(ready := WsClosed)];
    }

    /** A data frame: decode it; a valid point is written to this chart's own
        buffer, if it has one and is not paused, and a render is triggered. */
    method OnDataFrame(id: Id, frame: JsValue, chartStates: map<Id, string>)
      requires Valid()
      requires id in sockets
      modifies this`chartData, this`throttle
      ensures Valid()
      ensures var d := TransformSinglePointData(frame);
        if d.Decoded? && id in old(chartData) && !Paused(chartStates, id) then
          && chartData == old(chartData)[id := ApplyPoint(sockets[id].chartType, old(chartData)[id], d.point)]
          && throttle == Trigger(old(throttle))
        else
          chartData == old(chartData) && throttle == old(throttle)
    {
      var d := TransformSinglePointData(frame);
      if d.Decoded? && id in chartData && !Paused(chartStates, id) {
        var buf := ApplyPoint(sockets[id].chartType, chartData[id], d.point);
        assert buf.Snapshot? ==> IsGlobalUpdate(sockets[id].chartType);
        chartData := chartData[id := buf];
        TriggerRender();
      }
    }

    /** `ws.onmessage` for the socket created for `id`: the frame is routed
        by `Route(frame)`, and afterwards the `addChart` promise resolves when
        the frame is a success frame. A `null` frame throws on the `status`
        lookup and changes nothing. `importing` and `chartStates` are the
        values the handler's closures see. */
    method OnMessage(id: Id, frame: JsValue, importing: bool, chartStates: map<Id, string>)
      requires Valid()
      requires id in sockets && sockets[id].ready == WsOpen
      modifies this`chartData, this`wsConnections, this`charts, this`layouts, this`status
      modifies this`statusTimerPending, this`sockets, this`throttle, this`resolved
      ensures Valid()
      ensures chartData - {id} == old(chartData) - {id}
      ensures Route(frame) in {Throws, OtherStatus} ==>
        && chartData == old(chartData) && charts == old(charts) && layouts == old(layouts)
        && sockets == old(sockets) && status == old(status) && statusTimerPending == old(statusTimerPending)
        && wsConnections == old(wsConnections) && throttle == old(throttle) && resolved == old(resolved)
      ensures Route(frame) == SuccessFrame ==>
        && chartData == old(chartData)[id := Series([])]
        && wsConnections == old(wsConnections) + {id}
        && charts == old(charts) + [Chart(id, old(sockets)[id].chartType, old(sockets)[id].keyWord)]
        && layouts == (if importing then old(layouts) else AppendDefaultEntry(old(layouts), id))
        && (status, statusTimerPending) == StatusAfter(old(status), old(statusTimerPending), Success, importing)
        && sockets == old(sockets) && throttle == old(throttle)
        && resolved == old(resolved) + {id}
      ensures Route(frame) == FailureFrame ==>
        && sockets == old(sockets)[id := old(sockets)[id].(ready := WsClosed)]
        && (status, statusTimerPending) == StatusAfter(old(status), old(statusTimerPending), Failure, importing)
        && chartData == old(chartData) && charts == old(charts) && layouts == old(layouts)
        && wsConnections == old(wsConnections) && throttle == old(throttle) && resolved == old(resolved)
      ensures Route(frame) == DataFrame ==>
        && (var d := TransformSinglePointData(frame);
            if d.Decoded? && id in old(chartData) && !Paused(chartStates, id) then
              && chartData == old(chartData)[id := ApplyPoint(old(sockets)[id].chartType, old(chartData)[id], d.point)]
              && throttle == Trigger(old(throttle))
            else chartData == old(chartData) && throttle == old(throttle))
        && charts == old(charts) && layouts == old(layouts) && sockets == old(sockets)
        && status == old(status) && statusTimerPending == old(statusTimerPending)
        && wsConnections == old(wsConnections) && resolved == old(resolved)
    {
      var route := Route(frame);
      match route
      case Throws =>
      case OtherStatus =>
      case SuccessFrame =>
        OnSuccessFrame(id, importing);
        resolved := resolved + {id};
      case FailureFrame =>
        OnFailureFrame(id, importing);
      case DataFrame =>
        OnDataFrame(id, frame, chartStates);
    }

    /** `ws.onerror`: forget the connection; report failure if the chart list
        the handler's closure saw has no chart with this id. */
    method OnError(id: Id, seenCharts: seq<Chart>, importing: bool)
      requires Valid()
      modifies this`wsConnections, this`status, this`statusTimerPending
      ensures Valid()
      ensures wsConnections == old(wsConnections) - {id}
      ensures (status, statusTimerPending) ==
        StatusAfter(old(status), old(statusTimerPending), Failure, importing || id in ChartIds(seenCharts))
    {
      wsConnections := wsConnections - {id};
      if id !in ChartIds(seenCharts) {
        HandleSubscriptionStatus(Failure, importing);
      }
    }

    /** The transport reports the socket closed (its handler only logs). */
    method OnClose(id: Id)
      requires Valid()
      requires id in sockets
      modifies this`sockets
      ensures Valid()
      ensures sockets == old(sockets)[id := old(sockets)[id].(ready := WsClosed)]
    {
      sockets := sockets[id := sockets[id].(ready := WsClosed)];
    }

    /** `removeChart(chartId)`: close the socket if it is open, and delete the
        id from the connection, instance and data maps, the chart list and
        every breakpoint. The zoom state is not touched (it lives elsewhere). */
    method RemoveChart(chartId: Id)
      requires Valid()
      modifies this`sockets, this`wsConnections, this`chartRefs, this`chartData, this`charts, this`layouts
      ensures Valid()
      ensures sockets ==
        if chartId in old(wsConnections) && old(sockets)[chartId].ready == WsOpen
        then old(sockets)[chartId := old(sockets)[chartId].(ready := WsClosed)]
        else old(sockets)
      ensures wsConnections == old(wsConnections) - {chartId}
      ensures chartRefs == old(chartRefs) - {chartId}
      ensures chartData == old(chartData) - {chartId}
      ensures charts == DropCharts(old(charts), chartId)
      ensures layouts == DropChart(old(layouts), chartId)
    {
      if chartId in wsConnections {
        if sockets[chartId].ready == WsOpen {
          sockets := sockets[chartId := sockets[chartId].(ready := WsClosed)];
        }
        wsConnections := wsConnections - {chartId};
      }
      chartRefs := chartRefs - {chartId};
      chartData := chartData - {chartId};
      charts := DropCharts(charts, chartId);
      layouts := DropChart(layouts, chartId);
    }

    /** `setLayouts(next)`, as the import and the grid's layout callback use it. */
    method SetLayouts(next: Layouts)
      modifies this`layouts
      ensures layouts == next
    {
      layouts := next;
    }
  }
}
