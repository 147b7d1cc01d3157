/** `panel.jsx`: the zoom/pause toggle kept per chart id, the double-click
    gate that lets only global-update charts toggle, the effect that keeps one
    double-click listener per eligible chart, and the label helper. */
module Panel {
  import opened Wrappers
  import opened Js
  import opened Text
  import opened ChartConst
  import opened PanelCanvas

  /** `capitalString(str)`: first character upper-cased, the rest lower-cased. */
  function CapitalString(s: string): (r: string)
    ensures |r| == |s|
    ensures |s| > 0 ==> r[0] == UpperChar(s[0])
    ensures forall k :: 1 <= k < |s| ==> r[k] == LowerChar(s[k])
  {
    if |s| == 0 then "" else ToUpper(s[..1]) + ToLower(s[1..])
  }

  /** Capitalising a capitalised label changes nothing. */
  lemma CapitalStringIdempotent(s: string)
    ensures CapitalString(CapitalString(s)) == CapitalString(s)
  {
    var r := CapitalString(s);
    var rr := CapitalString(r);
    forall k | 0 <= k < |s| ensures rr[k] == r[k] {
      if k == 0 {
        assert UpperChar(UpperChar(s[0])) == UpperChar(s[0]);
      } else {
        assert LowerChar(LowerChar(s[k])) == LowerChar(s[k]);
      }
    }
  }

  // ---------------------------------------------------------------------
  // Zoom state

  /** The state a toggle writes: a chart that is `'on'` goes `'off'`; any
      other value, or none, counts as `'off'` and goes `'on'`. */
  function NextZoom(states: map<Id, string>, id: Id): string {
    if Paused(states, id) then "off" else "on"
  }

  /** `toggleChartZoom(chartId)`: `{ ...prevStates, [chartId]: newState }`. */
  function ToggleChartZoom(states: map<Id, string>, id: Id): (r: map<Id, string>)
    ensures r.Keys == states.Keys + {id}
    ensures Paused(r, id) <==> !Paused(states, id)
    ensures r[id] in {"on", "off"}
    ensures forall k :: k in states && k != id ==> r[k] == states[k]
  {
    states[id := NextZoom(states, id)]
  }

  /** Two toggles restore an `'on'`/`'off'` state. */
  lemma ToggleTwice(states: map<Id, string>, id: Id)
    requires id in states && states[id] in {"on", "off"}
    ensures ToggleChartZoom(ToggleChartZoom(states, id), id) == states
  {
    var r := ToggleChartZoom(ToggleChartZoom(states, id), id);
    assert r[id] == states[id];
    assert r.Keys == states.Keys;
  }

  /** From no state, one toggle pauses the chart and a second leaves it `'off'`. */
  lemma ToggleFromMissing(states: map<Id, string>, id: Id)
    requires id !in states
    ensures ToggleChartZoom(states, id)[id] == "on"
    ensures ToggleChartZoom(ToggleChartZoom(states, id), id)[id] == "off"
  {
  }

  /** Index of the first chart with this id (`charts.find`). */
  function FindChart(charts: seq<Chart>, id: Id): (r: Option<nat>)
    ensures r.None? ==> forall j :: 0 <= j < |charts| ==> charts[j].id != id
    ensures r.Some? ==> r.value < |charts| && charts[r.value].id == id
    ensures r.Some? ==> forall j :: 0 <= j < r.value ==> charts[j].id != id
    decreases |charts|
  {
    if |charts| == 0 then None
    else if charts[0].id == id then Some(0)
    else match FindChart(charts[1..], id)
      case None => None
      case Some(k) => Some(k + 1)
  }

  /** `handleChartDoubleClick(chartId)`, with the chart list its closure saw:
      toggles only when the first chart with this id is a global-update one. */
  function HandleChartDoubleClick(charts: seq<Chart>, states: map<Id, string>, id: Id): (r: map<Id, string>)
    ensures var f := FindChart(charts, id);
      if f.Some? && IsGlobalUpdate(charts[f.value].chartType) then r == ToggleChartZoom(states, id)
      else r == states
  {
    match FindChart(charts, id)
    case None => states
    case Some(k) => if IsGlobalUpdate(charts[k].chartType) then ToggleChartZoom(states, id) else states
  }

  /** A double click can pause only a chart that is on the list with a
      global-update type (so only snapshot buffers are ever frozen), and
      it changes no other chart's state. */
  lemma {:induction false} OnlyGlobalChartsPause(charts: seq<Chart>, states: map<Id, string>, id: Id, k: Id)
    requires Paused(HandleChartDoubleClick(charts, states, id), k) != Paused(states, k)
    ensures k == id
    ensures exists j :: 0 <= j < |charts| && charts[j].id == id && IsGlobalUpdate(charts[j].chartType)
  {
    var f := FindChart(charts, id);
    if f.Some? && IsGlobalUpdate(charts[f.value].chartType) {
      assert charts[f.value].id == id;
    }
  }

  // ---------------------------------------------------------------------
  // Double-click listeners

  /** A registered `dblclick` listener: the instance's DOM element and a
      handler that calls `handleChartDoubleClick(chartId)`. */
  datatype Listener = Listener(chartId: Id, element: Instance)

  ghost predicate HasGlobalChart(charts: seq<Chart>, n: int, k: Id)
    requires 0 <= n <= |charts|
  {
    exists j :: 0 <= j < n && charts[j].id == k && IsGlobalUpdate(charts[j].chartType)
  }

  /** Every chart carrying this id has a global-update type. */
  ghost predicate AllGlobal(charts: seq<Chart>, k: Id) {
    forall j :: 0 <= j < |charts| && charts[j].id == k ==> IsGlobalUpdate(charts[j].chartType)
  }

  /** The listener effect of `useChartDblClickEffect`: walk the charts in
      order, binding a listener for an eligible chart that has none and whose
      instance is mounted, and unbinding one whose chart type is not
      eligible; then unbind every listener whose chart is gone. */
  method ReconcileListeners(charts: seq<Chart>, refs: map<Id, Instance>, listeners: map<Id, Listener>)
    returns (r: map<Id, Listener>)
    ensures forall k :: k in r ==> HasGlobalChart(charts, |charts|, k)
    ensures forall k :: k in r ==>
      (k in listeners && r[k] == listeners[k]) || (k in refs && r[k] == Listener(k, refs[k]))
    ensures forall k :: k in listeners && k in ChartIds(charts) && AllGlobal(charts, k) ==>
      k in r && r[k] == listeners[k]
    ensures forall j :: 0 <= j < |charts| && charts[j].id in refs && AllGlobal(charts, charts[j].id) ==>
      charts[j].id in r
  {
    var m := listeners;
    var i := 0;
    while i < |charts|
      invariant 0 <= i <= |charts|
      invariant forall k :: k in m ==>
        HasGlobalChart(charts, i, k) || (k in listeners && m[k] == listeners[k] && forall j :: 0 <= j < i ==> charts[j].id != k)
      invariant forall k :: k in m ==>
        (k in listeners && m[k] == listeners[k]) || (k in refs && m[k] == Listener(k, refs[k]))
      invariant forall k :: k in listeners && AllGlobal(charts, k) ==> k in m && m[k] == listeners[k]
      invariant forall j :: 0 <= j < i && charts[j].id in refs && AllGlobal(charts, charts[j].id) ==> charts[j].id in m
    {
      var chart := charts[i];
      var allowed := IsGlobalUpdate(chart.chartType);
      var hasListener := chart.id in m;
      if !hasListener && allowed && chart.id in refs {
        m := m[chart.id := Listener(chart.id, refs[chart.id])];
      }
      if hasListener && !allowed {
        m := m - {chart.id};
      }
      i := i + 1;
    }

    // Drop listeners whose chart is no longer listed.
    r := DropUnlisted(m, ChartIds(charts));
  }

  /** The cleanup pass of the listener effect: every listener whose id is
      not among `ids` is unbound; the others are kept as they are. */
  method DropUnlisted(m: map<Id, Listener>, ids: seq<Id>) returns (r: map<Id, Listener>)
    ensures forall k :: k in r <==> k in m && k in ids
    ensures forall k :: k in r ==> r[k] == m[k]
  {
    r := m;
    var pending := m.Keys;
    while pending != {}
      invariant pending <= m.Keys
      invariant r.Keys <= m.Keys
      invariant forall k :: k in r ==> r[k] == m[k]
      invariant forall k :: k in pending ==> k in r
      invariant forall k :: k in m && k !in pending ==> (k in r <==> k in ids)
      decreases pending
    {
      var k :| k in pending;
      if k !in ids {
        r := r - {k};
      }
      pending := pending - {k};
    }
  }
}
