/** `configHook.jsx`: exporting the panel to a document and importing one
    back. An import validates the document, tears every live chart down,
    re-adds the imported charts one at a time through `addChart`, records
    which old layout id each new chart replaces, and finally rewrites the
    imported layouts onto the new ids. */
module ConfigHook {
  import opened Wrappers
  import opened Js
  import opened Text
  import opened PanelCanvas

  // ---------------------------------------------------------------------
  // Documents

  datatype ExportedChart = ExportedChart(chartType: string, keyWord: string)

  /** What `exportLayout` serialises. */
  datatype ExportDoc = ExportDoc(title: string, themeName: string, charts: seq<ExportedChart>, layouts: Layouts)

  /** A chart entry read back from a document; `None` is a missing property. */
  datatype ImportedChart = ImportedChart(chartType: Option<string>, keyWord: Option<string>)

  /** The four properties `importLayout` destructures from the parsed document. */
  datatype ImportDoc = ImportDoc(
    title: Option<string>,
    themeName: Option<string>,
    charts: Option<seq<ImportedChart>>,
    layouts: Option<Layouts>)

  /** `exportLayout`'s record: every chart reduced to its type and keyword,
      layouts as they are. */
  function ExportLayout(title: string, themeName: string, charts: seq<Chart>, layouts: Layouts): (r: ExportDoc)
    ensures |r.charts| == |charts|
    ensures forall k :: 0 <= k < |charts| ==>
      r.charts[k].chartType == charts[k].chartType && r.charts[k].keyWord == charts[k].keyWord
    ensures r.layouts == layouts
  {
    ExportDoc(title, themeName,
      seq(|charts|, k requires 0 <= k < |charts| => ExportedChart(charts[k].chartType, charts[k].keyWord)),
      layouts)
  }

  /** One layout entry after `JSON.stringify` and `JSON.parse`. */
  function JsonItem(it: LayoutItem): LayoutItem {
    if it.y == Bottom then it.(y := Null) else it
  }

  /** A breakpoint's entries after the round trip: the same ids in the same
      order, no entry left at `y: Infinity` (it is written as `null`), and
      every entry with a finite row read back as it was. */
  function JsonItems(items: seq<LayoutItem>): (r: seq<LayoutItem>)
    ensures |r| == |items| && ItemIds(r) == ItemIds(items)
    ensures forall k :: 0 <= k < |r| ==> r[k].y != Bottom
    ensures forall k :: 0 <= k < |items| && items[k].y != Bottom ==> r[k] == items[k]
    ensures forall k :: 0 <= k < |items| && items[k].y == Bottom ==>
      r[k].y == Null && r[k].(y := Bottom) == items[k]
  {
    seq(|items|, k requires 0 <= k < |items| => JsonItem(items[k]))
  }

  /** Every breakpoint after the round trip. */
  function JsonLayouts(layouts: Layouts): (r: Layouts)
    ensures r.Keys == layouts.Keys
    ensures forall bp :: bp in r ==> r[bp] == JsonItems(layouts[bp])
  {
    map bp | bp in layouts :: JsonItems(layouts[bp])
  }

  /** The exported document as the importer reads it back: every property
      present, the charts as written, and the layouts through the JSON round
      trip, which turns each `y: Infinity` into `y: null`. */
  function Reread(d: ExportDoc): (r: ImportDoc)
    ensures r.charts.Some? && |r.charts.value| == |d.charts|
    ensures forall k :: 0 <= k < |d.charts| ==>
      r.charts.value[k] == ImportedChart(Some(d.charts[k].chartType), Some(d.charts[k].keyWord))
    ensures r.layouts.Some? && r.layouts.value.Keys == d.layouts.Keys
    ensures forall bp :: bp in d.layouts ==> r.layouts.value[bp] == JsonItems(d.layouts[bp])
  {
    ImportDoc(Some(d.title), Some(d.themeName),
      Some(seq(|d.charts|, k requires 0 <= k < |d.charts| =>
        ImportedChart(Some(d.charts[k].chartType), Some(d.charts[k].keyWord)))),
      Some(JsonLayouts(d.layouts)))
  }

  /** A chart added outside an import sits at `y: Infinity` in every
      breakpoint; exported and read back, that entry comes back at `y: null`. */
  lemma DefaultEntryReadsBackNull(title: string, themeName: string, c: Chart, bp: string)
    requires bp in Breakpoints
    ensures Reread(ExportLayout(title, themeName, [c], AppendDefaultEntry(EmptyLayouts(), c.id))).layouts.value[bp]
      == [LayoutItem(c.id, 0, Null, 6, 3)]
  {
    var layouts := AppendDefaultEntry(EmptyLayouts(), c.id);
    assert layouts[bp] == [DefaultItem(c.id)];
  }

  // ---------------------------------------------------------------------
  // Id map and relayout

  /** `newIdMap`: old layout id paired with the new chart id, in push order. */
  type IdMap = seq<(string, Id)>

  /** `idMapper.get(old)` where `idMapper = new Map(newIdMap...)`: a later
      pair for the same old id overrides an earlier one. */
  function Lookup(m: IdMap, oldId: string): Option<Id>
    decreases |m|
  {
    if |m| == 0 then None
    else if m[|m| - 1].0 == oldId then Some(m[|m| - 1].1)
    else Lookup(m[..|m| - 1], oldId)
  }

  /** A lookup fails exactly when no pair has the old id; otherwise it
      yields the new id of the last pair with that old id. */
  lemma {:induction false} LookupSpec(m: IdMap, oldId: string)
    ensures Lookup(m, oldId).None? <==> forall k :: 0 <= k < |m| ==> m[k].0 != oldId
    ensures Lookup(m, oldId).Some? ==>
      exists k :: 0 <= k < |m| && m[k] == (oldId, Lookup(m, oldId).value)
                  && forall j :: k < j < |m| ==> m[j].0 != oldId
    decreases |m|
  {
    if |m| > 0 {
      var p := m[..|m| - 1];
      if m[|m| - 1].0 == oldId {
        assert m[|m| - 1] == (oldId, Lookup(m, oldId).value);
      } else {
        LookupSpec(p, oldId);
        assert forall k :: 0 <= k < |p| ==> p[k] == m[k];
        if Lookup(m, oldId).Some? {
          var k :| 0 <= k < |p| && p[k] == (oldId, Lookup(p, oldId).value)
                   && forall j :: k < j < |p| ==> p[j].0 != oldId;
          assert m[k] == (oldId, Lookup(m, oldId).value);
        }
      }
    }
  }

  /** One breakpoint's relayout: keep the entries whose id was mapped, in
      order, each renamed to its new id. */
  function RelayoutItems(items: seq<LayoutItem>, m: IdMap): (r: seq<LayoutItem>)
    ensures |r| <= |items|
    decreases |items|
  {
    if |items| == 0 then []
    else
      (match Lookup(m, items[0].i)
       case None => []
       case Some(n) => [items[0].(i := n)])
      + RelayoutItems(items[1..], m)
  }

  /** An entry survives exactly when its id is mapped, and then only its id changes. */
  lemma {:induction false} RelayoutItemsMembers(items: seq<LayoutItem>, m: IdMap)
    ensures forall x :: x in RelayoutItems(items, m) ==>
      exists y :: y in items && Lookup(m, y.i) == Some(x.i) && x == y.(i := x.i)
    ensures forall y :: y in items && Lookup(m, y.i).Some? ==>
      y.(i := Lookup(m, y.i).value) in RelayoutItems(items, m)
    decreases |items|
  {
    if |items| > 0 {
      RelayoutItemsMembers(items[1..], m);
      var rest := RelayoutItems(items[1..], m);
      var head := match Lookup(m, items[0].i) case None => [] case Some(n) => [items[0].(i := n)];
      assert RelayoutItems(items, m) == head + rest;
      forall x | x in RelayoutItems(items, m)
        ensures exists y :: y in items && Lookup(m, y.i) == Some(x.i) && x == y.(i := x.i)
      {
        if x in head {
          assert items[0] in items;
        } else {
          assert x in rest;
          var y :| y in items[1..] && Lookup(m, y.i) == Some(x.i) && x == y.(i := x.i);
          assert y in items;
        }
      }
      forall y | y in items && Lookup(m, y.i).Some?
        ensures y.(i := Lookup(m, y.i).value) in RelayoutItems(items, m)
      {
        if y != items[0] {
          assert y in items[1..];
        }
      }
    }
  }

  /** The relayout distributes over concatenation, so surviving entries keep
      their relative order. */
  lemma {:induction false} RelayoutItemsAppend(a: seq<LayoutItem>, b: seq<LayoutItem>, m: IdMap)
    ensures RelayoutItems(a + b, m) == RelayoutItems(a, m) + RelayoutItems(b, m)
    decreases |a|
  {
    if |a| == 0 {
      assert a + b == b;
    } else {
      var head := RelayoutItems([a[0]], m);
      assert (a + b)[0] == a[0] && (a + b)[1..] == a[1..] + b;
      calc {
        RelayoutItems(a + b, m);
        { RelayoutItemsCons(a + b, m); }
        head + RelayoutItems(a[1..] + b, m);
        { RelayoutItemsAppend(a[1..], b, m); }
        head + (RelayoutItems(a[1..], m) + RelayoutItems(b, m));
        (head + RelayoutItems(a[1..], m)) + RelayoutItems(b, m);
        { RelayoutItemsCons(a, m); }
        RelayoutItems(a, m) + RelayoutItems(b, m);
      }
    }
  }

  /** A non-empty breakpoint relays out as its first entry, then the rest. */
  lemma RelayoutItemsCons(items: seq<LayoutItem>, m: IdMap)
    requires |items| > 0
    ensures RelayoutItems(items, m) == RelayoutItems([items[0]], m) + RelayoutItems(items[1..], m)
  {
    assert [items[0]][1..] == [];
  }

  /** `finalLayouts`: every breakpoint of the imported layouts relaid out. */
  function Relayout(layouts: Layouts, m: IdMap): (r: Layouts)
    ensures r.Keys == layouts.Keys
    ensures forall bp :: bp in r ==> r[bp] == RelayoutItems(layouts[bp], m)
  {
    map bp | bp in layouts :: RelayoutItems(layouts[bp], m)
  }

  /** `importedLayouts.lg[i]?.i || \`temp-old-id-${i}\``: `None` when there
      is no `lg` breakpoint (reading index `i` of `undefined` throws). */
  function OldLayoutId(layouts: Layouts, i: nat): (r: Option<string>)
    ensures r.None? <==> "lg" !in layouts
    ensures r.Some? && i < |layouts["lg"]| && layouts["lg"][i].i != "" ==> r.value == layouts["lg"][i].i
    ensures r.Some? && !(i < |layouts["lg"]| && layouts["lg"][i].i != "") ==>
      r.value == "temp-old-id-" + NatToString(i)
  {
    if "lg" !in layouts then None
    else
      var lg := layouts["lg"];
      if i < |lg| && lg[i].i != "" then Some(lg[i].i) else Some("temp-old-id-" + NatToString(i))
  }

  // ---------------------------------------------------------------------
  // What an import should produce

  /** `addChart` accepts this entry, a missing property falling back to the
      input box. */
  predicate Subscribes(item: ImportedChart, typeInput: string, keyWordInput: string) {
    !Rejects(item.chartType.GetOr(typeInput), item.keyWord.GetOr(keyWordInput))
  }

  /** The chart list after the first `n` entries have been re-added, each
      accepted entry answered with success. */
  function ImportedCharts(items: seq<ImportedChart>, freshIds: seq<Id>, typeInput: string, keyWordInput: string, n: nat): (r: seq<Chart>)
    requires n <= |items| <= |freshIds|
    ensures |r| <= n
    decreases n
  {
    if n == 0 then []
    else
      var item := items[n - 1];
      ImportedCharts(items, freshIds, typeInput, keyWordInput, n - 1)
      + if Subscribes(item, typeInput, keyWordInput)
        then [Chart(freshIds[n - 1], LowerString(item.chartType.GetOr(typeInput)), LowerString(item.keyWord.GetOr(keyWordInput)))]
        else []
  }

  /** `newIdMap` after the first `n` entries. */
  function ImportedIdMap(items: seq<ImportedChart>, layouts: Layouts, freshIds: seq<Id>, typeInput: string, keyWordInput: string, n: nat): (r: IdMap)
    requires n <= |items| <= |freshIds|
    ensures |r| <= n
    decreases n
  {
    if n == 0 then []
    else
      ImportedIdMap(items, layouts, freshIds, typeInput, keyWordInput, n - 1)
      + if Subscribes(items[n - 1], typeInput, keyWordInput) && "lg" in layouts
        then [(OldLayoutId(layouts, n - 1).value, freshIds[n - 1])]
        else []
  }

  /** Every pair in the id map comes from an accepted entry `k`: its old
      layout id and its own fresh id. */
  lemma {:induction false} ImportedIdMapSound(items: seq<ImportedChart>, layouts: Layouts, freshIds: seq<Id>, typeInput: string, keyWordInput: string, n: nat)
    requires n <= |items| <= |freshIds|
    ensures forall p :: p in ImportedIdMap(items, layouts, freshIds, typeInput, keyWordInput, n) ==>
      exists k :: 0 <= k < n && Subscribes(items[k], typeInput, keyWordInput)
        && OldLayoutId(layouts, k) == Some(p.0) && p.1 == freshIds[k]
    decreases n
  {
    if n > 0 {
      ImportedIdMapSound(items, layouts, freshIds, typeInput, keyWordInput, n - 1);
      var prev := ImportedIdMap(items, layouts, freshIds, typeInput, keyWordInput, n - 1);
      var m := ImportedIdMap(items, layouts, freshIds, typeInput, keyWordInput, n);
      var accepted := Subscribes(items[n - 1], typeInput, keyWordInput);
      forall p | p in m
        ensures exists k :: 0 <= k < n && Subscribes(items[k], typeInput, keyWordInput)
                  && OldLayoutId(layouts, k) == Some(p.0) && p.1 == freshIds[k]
      {
        if p !in prev {
          assert accepted && "lg" in layouts && p == (OldLayoutId(layouts, n - 1).value, freshIds[n - 1]);
        }
      }
    }
  }

  /** With an `lg` breakpoint, every accepted entry contributes its pair. */
  lemma {:induction false} ImportedIdMapComplete(items: seq<ImportedChart>, layouts: Layouts, freshIds: seq<Id>, typeInput: string, keyWordInput: string, n: nat)
    requires n <= |items| <= |freshIds|
    requires "lg" in layouts
    ensures forall k :: 0 <= k < n && Subscribes(items[k], typeInput, keyWordInput) ==>
      (OldLayoutId(layouts, k).value, freshIds[k]) in ImportedIdMap(items, layouts, freshIds, typeInput, keyWordInput, n)
    decreases n
  {
    if n > 0 {
      ImportedIdMapComplete(items, layouts, freshIds, typeInput, keyWordInput, n - 1);
      var prev := ImportedIdMap(items, layouts, freshIds, typeInput, keyWordInput, n - 1);
      var m := ImportedIdMap(items, layouts, freshIds, typeInput, keyWordInput, n);
      var last := (OldLayoutId(layouts, n - 1).value, freshIds[n - 1]);
      var accepted := Subscribes(items[n - 1], typeInput, keyWordInput);
      assert m == prev + if accepted then [last] else [];
      forall k | 0 <= k < n && Subscribes(items[k], typeInput, keyWordInput)
        ensures (OldLayoutId(layouts, k).value, freshIds[k]) in m
      {
        if k < n - 1 {
          assert (OldLayoutId(layouts, k).value, freshIds[k]) in prev;
        } else {
          assert m[|m| - 1] == last;
        }
      }
    }
  }

  /** Without an `lg` breakpoint reading the old id throws for every entry,
      so the id map stays empty. */
  lemma {:induction false} ImportedIdMapWithoutLg(items: seq<ImportedChart>, layouts: Layouts, freshIds: seq<Id>, typeInput: string, keyWordInput: string, n: nat)
    requires n <= |items| <= |freshIds|
    requires "lg" !in layouts
    ensures ImportedIdMap(items, layouts, freshIds, typeInput, keyWordInput, n) == []
    decreases n
  {
    if n > 0 {
      ImportedIdMapWithoutLg(items, layouts, freshIds, typeInput, keyWordInput, n - 1);
    }
  }

  // ---------------------------------------------------------------------
  // Round trip

  /** The charts a panel would be rebuilt with: same types and keywords, in
      the same order, under the fresh ids. */
  function Recreated(charts: seq<Chart>, freshIds: seq<Id>, n: nat): (r: seq<Chart>)
    requires n <= |charts| <= |freshIds|
    ensures |r| == n
  {
    seq(n, k requires 0 <= k < n => Chart(freshIds[k], charts[k].chartType, charts[k].keyWord))
  }

  /** Re-adding entries that carry normalised types and keywords (as
      `addChart` leaves them) recreates exactly those charts. */
  lemma {:induction false} ReimportCharts(items: seq<ImportedChart>, charts: seq<Chart>, freshIds: seq<Id>, typeInput: string, keyWordInput: string, n: nat)
    requires n <= |charts| == |items| <= |freshIds|
    requires forall k :: 0 <= k < |charts| ==> items[k] == ImportedChart(Some(charts[k].chartType), Some(charts[k].keyWord))
    requires forall k :: 0 <= k < |charts| ==> Normalised(charts[k].chartType) && Normalised(charts[k].keyWord)
    ensures ImportedCharts(items, freshIds, typeInput, keyWordInput, n) == Recreated(charts, freshIds, n)
    decreases n
  {
    if n > 0 {
      ReimportCharts(items, charts, freshIds, typeInput, keyWordInput, n - 1);
      var c := charts[n - 1];
      NormalisedIsFixed(c.chartType);
      NormalisedIsFixed(c.keyWord);
      assert Subscribes(items[n - 1], typeInput, keyWordInput);
      assert Recreated(charts, freshIds, n) == Recreated(charts, freshIds, n - 1) + [Chart(freshIds[n - 1], c.chartType, c.keyWord)];
    }
  }

  /** Export then import: re-adding the charts of an exported panel recreates
      the same types and keywords in the same order, under fresh ids. */
  lemma ExportImportCharts(title: string, themeName: string, charts: seq<Chart>, layouts: Layouts,
                           freshIds: seq<Id>, typeInput: string, keyWordInput: string)
    requires forall c :: c in charts ==> Normalised(c.chartType) && Normalised(c.keyWord)
    requires |charts| <= |freshIds|
    ensures var items := Reread(ExportLayout(title, themeName, charts, layouts)).charts.value;
      ImportedCharts(items, freshIds, typeInput, keyWordInput, |items|) == Recreated(charts, freshIds, |charts|)
  {
    var items := Reread(ExportLayout(title, themeName, charts, layouts)).charts.value;
    forall k | 0 <= k < |charts| ensures Normalised(charts[k].chartType) && Normalised(charts[k].keyWord) {
      assert charts[k] in charts;
    }
    ReimportCharts(items, charts, freshIds, typeInput, keyWordInput, |charts|);
  }

  /** When every entry's id is mapped, the relayout keeps them all and
      renames them in order. */
  lemma {:induction false} RelayoutAllMapped(items: seq<LayoutItem>, m: IdMap, newIds: seq<Id>)
    requires |newIds| == |items|
    requires forall k :: 0 <= k < |items| ==> Lookup(m, items[k].i) == Some(newIds[k])
    ensures ItemIds(RelayoutItems(items, m)) == newIds
    decreases |items|
  {
    if |items| > 0 {
      RelayoutAllMapped(items[1..], m, newIds[1..]);
      var rest := RelayoutItems(items[1..], m);
      assert RelayoutItems(items, m) == [items[0].(i := newIds[0])] + rest;
      assert ItemIds([items[0].(i := newIds[0])] + rest) == [newIds[0]] + ItemIds(rest);
    }
  }

  /** With distinct keys, a lookup finds the one pair with that key. */
  lemma LookupDistinct(m: IdMap, k: nat)
    requires k < |m|
    requires forall a, b :: 0 <= a < b < |m| ==> m[a].0 != m[b].0
    ensures Lookup(m, m[k].0) == Some(m[k].1)
  {
    LookupSpec(m, m[k].0);
    var r := Lookup(m, m[k].0);
    var j :| 0 <= j < |m| && m[j] == (m[k].0, r.value) && forall i :: j < i < |m| ==> m[i].0 != m[k].0;
    assert j == k;
  }

  /** When `lg` exists and every one of the first `n` entries is accepted,
      the id map has one pair per entry, in order: entry `k`'s old layout id
      and its fresh id. */
  lemma {:induction false} ImportedIdMapAllAccepted(items: seq<ImportedChart>, layouts: Layouts, freshIds: seq<Id>, typeInput: string, keyWordInput: string, n: nat)
    requires n <= |items| <= |freshIds|
    requires "lg" in layouts
    requires forall k :: 0 <= k < n ==> Subscribes(items[k], typeInput, keyWordInput)
    ensures var m := ImportedIdMap(items, layouts, freshIds, typeInput, keyWordInput, n);
      |m| == n && forall k :: 0 <= k < n ==> m[k] == (OldLayoutId(layouts, k).value, freshIds[k])
    decreases n
  {
    if n > 0 {
      ImportedIdMapAllAccepted(items, layouts, freshIds, typeInput, keyWordInput, n - 1);
      assert Subscribes(items[n - 1], typeInput, keyWordInput);
      var prev := ImportedIdMap(items, layouts, freshIds, typeInput, keyWordInput, n - 1);
      var m := ImportedIdMap(items, layouts, freshIds, typeInput, keyWordInput, n);
      assert m == prev + [(OldLayoutId(layouts, n - 1).value, freshIds[n - 1])];
      forall k | 0 <= k < n
        ensures m[k] == (OldLayoutId(layouts, k).value, freshIds[k])
      {
        if k < n - 1 {
          assert m[k] == prev[k];
        }
      }
    }
  }

  /** Re-importing an export whose `lg` breakpoint lists the charts in order
      pairs each chart's id with its fresh id. */
  lemma ReimportIdMap(items: seq<ImportedChart>, charts: seq<Chart>, layouts: Layouts, freshIds: seq<Id>, typeInput: string, keyWordInput: string)
    requires |charts| == |items| <= |freshIds|
    requires forall k :: 0 <= k < |charts| ==> items[k] == ImportedChart(Some(charts[k].chartType), Some(charts[k].keyWord))
    requires forall k :: 0 <= k < |charts| ==> Normalised(charts[k].chartType) && Normalised(charts[k].keyWord)
    requires "lg" in layouts && ItemIds(layouts["lg"]) == ChartIds(charts)
    requires forall k :: 0 <= k < |charts| ==> charts[k].id != ""
    ensures var m := ImportedIdMap(items, layouts, freshIds, typeInput, keyWordInput, |charts|);
      |m| == |charts| && forall k :: 0 <= k < |charts| ==> m[k] == (charts[k].id, freshIds[k])
  {
    forall k | 0 <= k < |charts|
      ensures Subscribes(items[k], typeInput, keyWordInput)
      ensures OldLayoutId(layouts, k) == Some(charts[k].id)
    {
      ExportedChartSubscribes(charts[k], typeInput, keyWordInput);
      assert layouts["lg"][k].i == ItemIds(layouts["lg"])[k] == charts[k].id;
    }
    ImportedIdMapAllAccepted(items, layouts, freshIds, typeInput, keyWordInput, |charts|);
  }

  /** An exported chart's own type and keyword, already normalised, are
      accepted again whatever the input fields hold. */
  lemma ExportedChartSubscribes(c: Chart, typeInput: string, keyWordInput: string)
    requires Normalised(c.chartType) && Normalised(c.keyWord)
    ensures Subscribes(ImportedChart(Some(c.chartType), Some(c.keyWord)), typeInput, keyWordInput)
  {
    NormalisedIsFixed(c.chartType);
    NormalisedIsFixed(c.keyWord);
  }

  /** Relaying out layouts that list one entry per exported chart, in chart
      order, with distinct chart ids, gives one entry per recreated chart in
      the same order, each under its new id. */
  lemma RelayoutRestoresIds(title: string, themeName: string, charts: seq<Chart>, layouts: Layouts,
                            freshIds: seq<Id>, typeInput: string, keyWordInput: string)
    requires forall c :: c in charts ==> Normalised(c.chartType) && Normalised(c.keyWord)
    requires |charts| <= |freshIds|
    requires LayoutsTrackCharts(charts, layouts) && "lg" in layouts
    requires forall a, b :: 0 <= a < b < |charts| ==> charts[a].id != charts[b].id
    requires forall k :: 0 <= k < |charts| ==> charts[k].id != ""
    ensures var items := Reread(ExportLayout(title, themeName, charts, layouts)).charts.value;
            var m := ImportedIdMap(items, layouts, freshIds, typeInput, keyWordInput, |items|);
      LayoutsTrackCharts(Recreated(charts, freshIds, |charts|), Relayout(layouts, m))
  {
    var items := Reread(ExportLayout(title, themeName, charts, layouts)).charts.value;
    forall k | 0 <= k < |charts| ensures Normalised(charts[k].chartType) && Normalised(charts[k].keyWord) {
      assert charts[k] in charts;
    }
    ReimportIdMap(items, charts, layouts, freshIds, typeInput, keyWordInput);
    var m := ImportedIdMap(items, layouts, freshIds, typeInput, keyWordInput, |items|);
    var newIds := ChartIds(Recreated(charts, freshIds, |charts|));
    forall bp | bp in layouts
      ensures ItemIds(Relayout(layouts, m)[bp]) == newIds
    {
      var entries := layouts[bp];
      assert ItemIds(entries) == ChartIds(charts);
      forall k | 0 <= k < |entries| ensures Lookup(m, entries[k].i) == Some(newIds[k]) {
        assert entries[k].i == ItemIds(entries)[k] == charts[k].id;
        LookupDistinct(m, k);
      }
      RelayoutAllMapped(entries, m, newIds);
    }
  }

  /** Export then import restores each breakpoint's ids and order: if every
      breakpoint listed one entry per chart in chart order, and chart ids are
      distinct, the read-back layouts, relaid out, list one entry per
      recreated chart in the same order, each under its new id. (Positions
      at `y: Infinity` come back as `y: null`, by `Reread`.) */
  lemma ExportImportLayouts(title: string, themeName: string, charts: seq<Chart>, layouts: Layouts,
                            freshIds: seq<Id>, typeInput: string, keyWordInput: string)
    requires forall c :: c in charts ==> Normalised(c.chartType) && Normalised(c.keyWord)
    requires |charts| <= |freshIds|
    requires LayoutsTrackCharts(charts, layouts) && "lg" in layouts
    requires forall a, b :: 0 <= a < b < |charts| ==> charts[a].id != charts[b].id
    requires forall k :: 0 <= k < |charts| ==> charts[k].id != ""
    ensures var doc := Reread(ExportLayout(title, themeName, charts, layouts));
            var m := ImportedIdMap(doc.charts.value, doc.layouts.value, freshIds, typeInput, keyWordInput, |doc.charts.value|);
      LayoutsTrackCharts(Recreated(charts, freshIds, |charts|), Relayout(doc.layouts.value, m))
  {
    var doc := Reread(ExportLayout(title, themeName, charts, layouts));
    var read := doc.layouts.value;
    forall bp | bp in read ensures ItemIds(read[bp]) == ChartIds(charts) {
      assert ItemIds(read[bp]) == ItemIds(layouts[bp]);
    }
    var doc2 := Reread(ExportLayout(title, themeName, charts, read));
    assert doc2.charts.value == doc.charts.value;
    RelayoutRestoresIds(title, themeName, charts, read, freshIds, typeInput, keyWordInput);
  }

  // ---------------------------------------------------------------------
  // The hook

  /** How an import ends: the file did not parse, the document lacked
      `charts` or `layouts`, every entry was processed (with the id map it
      built), or entry `at` was refused by the server, whose `addChart`
      promise never settles, so the import never finishes. */
  datatype ImportOutcome = ParseFailed | MissingParts | Completed(idMap: IdMap) | Stuck(at: nat)

  /** The ids of an id list, as a set. */
  function IdSet(ids: seq<Id>): set<Id> {
    set id | id in ids
  }

  /** Two maps that agree off `x` agree off any set holding `x`. */
  lemma MapMinusWiden<K, V>(m: map<K, V>, m1: map<K, V>, x: K, ids: set<K>)
    requires m - {x} == m1 - {x}
    requires x in ids
    ensures m - ids == m1 - ids
  {
    assert m - ids == (m - {x}) - ids;
    assert m1 - ids == (m1 - {x}) - ids;
  }

  /** Two sets that agree off `x` agree off any set holding `x`. */
  lemma SetMinusWiden<K>(s: set<K>, s1: set<K>, x: K, ids: set<K>)
    requires s - {x} == s1 - {x}
    requires x in ids
    ensures s - ids == s1 - ids
  {
    assert s - ids == (s - {x}) - ids;
    assert s1 - ids == (s1 - {x}) - ids;
  }

  /** The charts of `charts` whose ids are not in `ids`, in order: what
      is left once `removeChart` has run for every id of `ids`. */
  function DropIds(charts: seq<Chart>, ids: set<Id>): (r: seq<Chart>)
    ensures forall c :: c in r ==> c in charts && c.id !in ids
    decreases |charts|
  {
    if |charts| == 0 then []
    else (if charts[0].id in ids then [] else [charts[0]]) + DropIds(charts[1..], ids)
  }

  /** Removing no id leaves the list as it is. */
  lemma {:induction false} DropIdsNone(charts: seq<Chart>)
    ensures DropIds(charts, {}) == charts
    decreases |charts|
  {
    if |charts| > 0 {
      DropIdsNone(charts[1..]);
      assert charts == [charts[0]] + charts[1..];
    }
  }

  /** One more `removeChart` removes one more id. */
  lemma {:induction false} DropIdsStep(charts: seq<Chart>, ids: set<Id>, x: Id)
    ensures DropCharts(DropIds(charts, ids), x) == DropIds(charts, ids + {x})
    decreases |charts|
  {
    if |charts| > 0 {
      var h, rest := charts[0], DropIds(charts[1..], ids);
      DropIdsStep(charts[1..], ids, x);
      if h.id in ids {
        calc {
          DropCharts(DropIds(charts, ids), x);
          { assert DropIds(charts, ids) == rest; }
          DropCharts(rest, x);
          DropIds(charts[1..], ids + {x});
          { assert DropIds(charts, ids + {x}) == [] + DropIds(charts[1..], ids + {x}); }
          DropIds(charts, ids + {x});
        }
      } else {
        var kept := [h] + rest;
        assert DropIds(charts, ids) == kept;
        assert kept[0] == h && kept[1..] == rest;
        calc {
          DropCharts(kept, x);
          (if h.id == x then [] else [h]) + DropCharts(rest, x);
          (if h.id in ids + {x} then [] else [h]) + DropIds(charts[1..], ids + {x});
          DropIds(charts, ids + {x});
        }
      }
    }
  }

  /** Removing every id of a list leaves nothing. */
  lemma {:induction false} DropIdsAll(charts: seq<Chart>, ids: set<Id>)
    requires ChartIdSet(charts) <= ids
    ensures DropIds(charts, ids) == []
    decreases |charts|
  {
    if |charts| > 0 {
      assert charts[0] in charts;
      assert ChartIdSet(charts[1..]) <= ChartIdSet(charts) by {
        forall c | c in charts[1..] ensures c in charts { }
      }
      DropIdsAll(charts[1..], ids);
    }
  }

  /** The frames the server answers a subscription with. */
  function StatusFrame(status: string): (r: JsValue)
    ensures r != JNull && Prop(r, "status") == Some(JStr(status))
  {
    JObj(map["status" := JStr(status)])
  }

  class ConfigIO {
    const core: PanelCore
    var isImporting: bool
    var panelTitle: string
    var themeName: string
    var allThemes: set<string>
    /** The hidden file input is mounted (`importInputRef.current`). */
    var inputMounted: bool

    constructor (core: PanelCore, title: string, themeName: string, allThemes: set<string>)
      ensures this.core == core && !isImporting && panelTitle == title
      ensures this.themeName == themeName && this.allThemes == allThemes && !inputMounted
    {
      this.core := core;
      isImporting := false;
      panelTitle := title;
      this.themeName := themeName;
      this.allThemes := allThemes;
      inputMounted := false;
    }

    /** `triggerImport()`: whether the file picker opens. */
    method TriggerImport() returns (opens: bool)
      ensures opens <==> inputMounted && !isImporting
    {
      opens := inputMounted && !isImporting;
    }

    /** One imported entry: `await addChart(chart.chartType, chart.keyWord)`,
        the socket opening, and the server's answer (`accepted`). */
    method ImportOne(item: ImportedChart, newId: Id, accepted: bool, closureImporting: bool)
      returns (added: bool, stuck: bool)
      requires core.Valid()
      requires newId !in core.sockets
      modifies core`sockets, core`status, core`statusTimerPending, core`chartData, core`wsConnections
      modifies core`charts, core`layouts, core`throttle, core`resolved
      ensures core.Valid()
      ensures added <==> Subscribes(item, old(core.chartTypeInput), old(core.keyWordInput)) && accepted
      ensures stuck <==> Subscribes(item, old(core.chartTypeInput), old(core.keyWordInput)) && !accepted
      ensures core.sockets.Keys ==
        old(core.sockets.Keys) + if Subscribes(item, old(core.chartTypeInput), old(core.keyWordInput)) then {newId} else {}
      ensures added ==>
        && core.charts == old(core.charts) + [Chart(newId,
             LowerString(item.chartType.GetOr(old(core.chartTypeInput))),
             LowerString(item.keyWord.GetOr(old(core.keyWordInput))))]
        && core.layouts == if closureImporting then old(core.layouts) else AppendDefaultEntry(old(core.layouts), newId)
      ensures !added ==> core.charts == old(core.charts) && core.layouts == old(core.layouts)
      ensures closureImporting ==> core.status == old(core.status)
      ensures core.sockets - {newId} == old(core.sockets) - {newId}
      ensures core.wsConnections - {newId} == old(core.wsConnections) - {newId}
      ensures core.chartData - {newId} == old(core.chartData) - {newId}
    {
      var typeInput := core.chartTypeInput;
      var keyWordInput := core.keyWordInput;
      var r := core.AddChart(item.chartType, item.keyWord, newId, closureImporting);
      if r.Rejected? {
        return false, false;
      }
      AnswerSubscription(newId, accepted, closureImporting);
      added, stuck := accepted, !accepted;
    }

    /** The socket created for `newId` opens, sends its request, and the
        server answers with success (`accepted`) or failure. */
    method AnswerSubscription(newId: Id, accepted: bool, closureImporting: bool)
      requires core.Valid()
      requires newId in core.sockets && core.sockets[newId].ready == WsConnecting
      modifies core`sockets, core`status, core`statusTimerPending, core`chartData, core`wsConnections
      modifies core`charts, core`layouts, core`throttle, core`resolved
      ensures core.Valid()
      ensures core.sockets.Keys == old(core.sockets.Keys)
      ensures accepted ==>
        && core.charts == old(core.charts) + [Chart(newId, old(core.sockets)[newId].chartType, old(core.sockets)[newId].keyWord)]
        && core.layouts == if closureImporting then old(core.layouts) else AppendDefaultEntry(old(core.layouts), newId)
      ensures !accepted ==> core.charts == old(core.charts) && core.layouts == old(core.layouts)
      ensures closureImporting ==> core.status == old(core.status)
      ensures core.sockets - {newId} == old(core.sockets) - {newId}
      ensures core.wsConnections - {newId} == old(core.wsConnections) - {newId}
      ensures core.chartData - {newId} == old(core.chartData) - {newId}
    {
      var _ := core.OnOpen(newId);
      if accepted {
        core.OnMessage(newId, StatusFrame("success"), closureImporting, map[]);
      } else {
        core.OnMessage(newId, StatusFrame("failure"), closureImporting, map[]);
      }
    }

    /** The state the teardown has reached once the ids `gone` are removed
        from `sockets0`, `ws0`, `data0` and `refs0`: their open sockets are
        closed and their connection flags, buffers and instances dropped. */
    ghost predicate TornDown(gone: set<Id>, sockets0: map<Id, Socket>, ws0: set<Id>,
                             data0: map<Id, Buffer>, refs0: map<Id, Instance>)
      reads core`sockets, core`wsConnections, core`chartData, core`chartRefs
    {
      && core.sockets.Keys == sockets0.Keys
      && (forall id :: id in sockets0 ==>
            core.sockets[id] == ClosedIfOpen(sockets0[id], id in gone && id in ws0))
      && core.wsConnections == ws0 - gone
      && core.chartData == data0 - gone
      && core.chartRefs == refs0 - gone
    }

    /** One `removeChart` of the teardown: the id `x` joins the ids removed
        so far. */
    method RemoveId(x: Id, ghost gone: set<Id>, ghost sockets0: map<Id, Socket>, ghost ws0: set<Id>,
                    ghost data0: map<Id, Buffer>, ghost refs0: map<Id, Instance>)
      requires core.Valid()
      requires TornDown(gone, sockets0, ws0, data0, refs0)
      modifies core`sockets, core`wsConnections, core`chartRefs, core`chartData, core`charts, core`layouts
      ensures core.Valid()
      ensures core.charts == DropCharts(old(core.charts), x)
      ensures TornDown(gone + {x}, sockets0, ws0, data0, refs0)
    {
      core.RemoveChart(x);
    }

    /** Turn `j` of the teardown loop: `removeChart(snapshot[j].id)`, after
        which the ids of `snapshot[..j + 1]` are the ones removed. */
    method RemoveTracked(snapshot: seq<Chart>, j: nat, ghost sockets0: map<Id, Socket>, ghost ws0: set<Id>,
                         ghost data0: map<Id, Buffer>, ghost refs0: map<Id, Instance>)
      requires j < |snapshot|
      requires core.Valid()
      requires core.charts == DropIds(snapshot, ChartIdSet(snapshot[..j]))
      requires TornDown(ChartIdSet(snapshot[..j]), sockets0, ws0, data0, refs0)
      modifies core`sockets, core`wsConnections, core`chartRefs, core`chartData, core`charts, core`layouts
      ensures core.Valid()
      ensures core.charts == DropIds(snapshot, ChartIdSet(snapshot[..j + 1]))
      ensures TornDown(ChartIdSet(snapshot[..j + 1]), sockets0, ws0, data0, refs0)
    {
      ghost var gone := ChartIdSet(snapshot[..j]);
      RemoveId(snapshot[j].id, gone, sockets0, ws0, data0, refs0);
      DropIdsStep(snapshot, gone, snapshot[j].id);
      ChartIdSetSnoc(snapshot[..j], snapshot[j]);
      assert snapshot[..j + 1] == snapshot[..j] + [snapshot[j]];
    }

    /** The entry state, which holds none of the fresh ids, survives the
        re-add loop as it was outside them. */
    static lemma KeptOffFresh(sockets: map<Id, Socket>, sockets0: map<Id, Socket>, ws: set<Id>, ws0: set<Id>,
                              data: map<Id, Buffer>, data0: map<Id, Buffer>, newIds: set<Id>)
      requires sockets - newIds == sockets0 - newIds
      requires ws - newIds == ws0 - newIds
      requires data - newIds == data0 - newIds
      requires newIds !! sockets0.Keys && ws0 <= sockets0.Keys && data0.Keys <= sockets0.Keys
      ensures forall id :: id in sockets0 ==> id in sockets && sockets[id] == sockets0[id]
      ensures ws - newIds == ws0
      ensures data - newIds == data0
    {
      assert ws0 - newIds == ws0;
      assert data0 - newIds == data0;
      forall id | id in sockets0
        ensures id in sockets && sockets[id] == sockets0[id]
      {
        assert id in sockets0 - newIds;
      }
    }

    /** Ids none of which is a key are disjoint from the keys. */
    static lemma FreshIdsDisjoint(freshIds: seq<Id>, keys: set<Id>)
      requires forall k :: 0 <= k < |freshIds| ==> freshIds[k] !in keys
      ensures IdSet(freshIds) !! keys
    {
      forall id | id in IdSet(freshIds)
        ensures id !in keys
      {
        var k :| 0 <= k < |freshIds| && freshIds[k] == id;
      }
    }

    /** Appending a chart adds its id to the id set. */
    static lemma ChartIdSetSnoc(s: seq<Chart>, c: Chart)
      ensures ChartIdSet(s + [c]) == ChartIdSet(s) + {c.id}
    {
      assert forall d :: d in s + [c] <==> d in s || d == c;
    }

    /** `removeChart` for every chart of the snapshot, then the five empty
        breakpoints. */
    method Teardown()
      requires core.Valid()
      modifies core`sockets, core`wsConnections, core`chartRefs, core`chartData, core`charts, core`layouts
      ensures core.Valid()
      ensures core.charts == [] && core.layouts == EmptyLayouts()
      ensures core.sockets.Keys == old(core.sockets.Keys)
      ensures forall id :: id in old(core.sockets) ==>
        core.sockets[id] == ClosedIfOpen(old(core.sockets)[id],
                                         id in ChartIdSet(old(core.charts)) && id in old(core.wsConnections))
      ensures core.wsConnections == old(core.wsConnections) - ChartIdSet(old(core.charts))
      ensures core.chartData == old(core.chartData) - ChartIdSet(old(core.charts))
      ensures core.chartRefs == old(core.chartRefs) - ChartIdSet(old(core.charts))
    {
      ghost var sockets0, ws0 := core.sockets, core.wsConnections;
      ghost var data0, refs0 := core.chartData, core.chartRefs;
      RemoveEach(sockets0, ws0, data0, refs0);
      core.SetLayouts(EmptyLayouts());
    }

    /** The teardown loop: `removeChart(chart.id)` for each chart of a
        snapshot of the chart list. */
    method RemoveEach(ghost sockets0: map<Id, Socket>, ghost ws0: set<Id>,
                      ghost data0: map<Id, Buffer>, ghost refs0: map<Id, Instance>)
      requires core.Valid()
      requires TornDown({}, sockets0, ws0, data0, refs0)
      modifies core`sockets, core`wsConnections, core`chartRefs, core`chartData, core`charts, core`layouts
      ensures core.Valid()
      ensures core.charts == []
      ensures TornDown(ChartIdSet(old(core.charts)), sockets0, ws0, data0, refs0)
    {
      var snapshot := core.charts;
      DropIdsNone(snapshot);
      assert ChartIdSet(snapshot[..0]) == {};
      var j := 0;
      while j < |snapshot|
        invariant 0 <= j <= |snapshot|
        invariant core.Valid()
        invariant core.charts == DropIds(snapshot, ChartIdSet(snapshot[..j]))
        invariant TornDown(ChartIdSet(snapshot[..j]), sockets0, ws0, data0, refs0)
      {
        RemoveTracked(snapshot, j, sockets0, ws0, data0, refs0);
        j := j + 1;
      }
      assert snapshot[..j] == snapshot;
      DropIdsAll(snapshot, ChartIdSet(snapshot));
    }

    /** One turn of the re-add loop: entry `i` is added and, when accepted
        with an `lg` breakpoint present, its old-id/new-id pair is pushed. */
    method ReAddStep(items: seq<ImportedChart>, layouts: Layouts, freshIds: seq<Id>, accepted: seq<bool>,
                     closureImporting: bool, i: nat, idMap: IdMap,
                     ghost sockets0: map<Id, Socket>, ghost ws0: set<Id>, ghost data0: map<Id, Buffer>)
      returns (idMap': IdMap, stuck: bool)
      requires core.Valid()
      requires i < |items| <= |freshIds| == |accepted|
      requires forall k :: i <= k < |freshIds| ==> freshIds[k] !in core.sockets
      requires forall j, k :: 0 <= j < k < |freshIds| ==> freshIds[j] != freshIds[k]
      requires idMap == ImportedIdMap(items, layouts, freshIds, core.chartTypeInput, core.keyWordInput, i)
      requires core.charts == ImportedCharts(items, freshIds, core.chartTypeInput, core.keyWordInput, i)
      requires core.sockets - IdSet(freshIds) == sockets0 - IdSet(freshIds)
      requires core.wsConnections - IdSet(freshIds) == ws0 - IdSet(freshIds)
      requires core.chartData - IdSet(freshIds) == data0 - IdSet(freshIds)
      modifies core`sockets, core`status, core`statusTimerPending, core`chartData, core`wsConnections
      modifies core`charts, core`layouts, core`throttle, core`resolved
      ensures core.Valid()
      ensures forall k :: i < k < |freshIds| ==> freshIds[k] !in core.sockets
      ensures stuck <==> Subscribes(items[i], old(core.chartTypeInput), old(core.keyWordInput)) && !accepted[i]
      ensures !stuck ==>
        && idMap' == ImportedIdMap(items, layouts, freshIds, old(core.chartTypeInput), old(core.keyWordInput), i + 1)
        && core.charts == ImportedCharts(items, freshIds, old(core.chartTypeInput), old(core.keyWordInput), i + 1)
      ensures stuck ==> core.charts == old(core.charts)
      ensures closureImporting || ("lg" in layouts && idMap' == []) ==> core.layouts == old(core.layouts)
      ensures closureImporting ==> core.status == old(core.status)
      ensures core.sockets - IdSet(freshIds) == sockets0 - IdSet(freshIds)
      ensures core.wsConnections - IdSet(freshIds) == ws0 - IdSet(freshIds)
      ensures core.chartData - IdSet(freshIds) == data0 - IdSet(freshIds)
    {
      var typeInput := core.chartTypeInput;
      var keyWordInput := core.keyWordInput;
      var added;
      added, stuck := ImportOne(items[i], freshIds[i], accepted[i], closureImporting);
      if !stuck {
        assert ImportedCharts(items, freshIds, typeInput, keyWordInput, i + 1)
            == ImportedCharts(items, freshIds, typeInput, keyWordInput, i)
               + if added then [Chart(freshIds[i], LowerString(items[i].chartType.GetOr(typeInput)),
                                      LowerString(items[i].keyWord.GetOr(keyWordInput)))] else [];
        assert ImportedIdMap(items, layouts, freshIds, typeInput, keyWordInput, i + 1)
            == ImportedIdMap(items, layouts, freshIds, typeInput, keyWordInput, i)
               + if added && "lg" in layouts then [(OldLayoutId(layouts, i).value, freshIds[i])] else [];
      }
      assert freshIds[i] in IdSet(freshIds);
      MapMinusWiden(core.sockets, old(core.sockets), freshIds[i], IdSet(freshIds));
      SetMinusWiden(core.wsConnections, old(core.wsConnections), freshIds[i], IdSet(freshIds));
      MapMinusWiden(core.chartData, old(core.chartData), freshIds[i], IdSet(freshIds));
      idMap' := idMap;
      if added {
        var oldId := OldLayoutId(layouts, i);
        if oldId.Some? {
          idMap' := idMap + [(oldId.value, freshIds[i])];
        }
      }
    }

    /** The sequential re-add loop of `importLayout`, run on a torn-down
        panel: each entry is awaited before the next; an accepted entry
        pushes its old-id/new-id pair (unless reading the old id throws); a
        rejected entry is skipped; an entry the server refuses stops the
        import at that index for good (`stuckAt`). */
    method ReAddAll(items: seq<ImportedChart>, layouts: Layouts, freshIds: seq<Id>, accepted: seq<bool>, closureImporting: bool)
      returns (idMap: IdMap, stuckAt: Option<nat>)
      requires core.Valid()
      requires |items| <= |freshIds| == |accepted|
      requires forall k :: 0 <= k < |freshIds| ==> freshIds[k] !in core.sockets
      requires forall j, k :: 0 <= j < k < |freshIds| ==> freshIds[j] != freshIds[k]
      requires core.charts == [] && core.layouts == EmptyLayouts()
      modifies core`sockets, core`status, core`statusTimerPending, core`chartData, core`wsConnections
      modifies core`charts, core`layouts, core`throttle, core`resolved
      ensures core.Valid()
      ensures var typeInput := old(core.chartTypeInput);
              var keyWordInput := old(core.keyWordInput);
        if stuckAt.None? then
          && (forall k :: 0 <= k < |items| && Subscribes(items[k], typeInput, keyWordInput) ==> accepted[k])
          && idMap == ImportedIdMap(items, layouts, freshIds, typeInput, keyWordInput, |items|)
          && core.charts == ImportedCharts(items, freshIds, typeInput, keyWordInput, |items|)
          && (closureImporting || ("lg" in layouts && idMap == []) ==> core.layouts == EmptyLayouts())
        else
          && stuckAt.value < |items|
          && Subscribes(items[stuckAt.value], typeInput, keyWordInput) && !accepted[stuckAt.value]
          && (forall k :: 0 <= k < stuckAt.value && Subscribes(items[k], typeInput, keyWordInput) ==> accepted[k])
          && core.charts == ImportedCharts(items, freshIds, typeInput, keyWordInput, stuckAt.value)
      ensures closureImporting ==> core.status == old(core.status)
      ensures core.sockets - IdSet(freshIds) == old(core.sockets) - IdSet(freshIds)
      ensures core.wsConnections - IdSet(freshIds) == old(core.wsConnections) - IdSet(freshIds)
      ensures core.chartData - IdSet(freshIds) == old(core.chartData) - IdSet(freshIds)
    {
      var typeInput := core.chartTypeInput;
      var keyWordInput := core.keyWordInput;
      ghost var newIds := IdSet(freshIds);
      ghost var sockets0, ws0, data0 := core.sockets, core.wsConnections, core.chartData;
      idMap := [];
      var i := 0;
      while i < |items|
        invariant 0 <= i <= |items|
        invariant core.Valid()
        invariant forall k :: i <= k < |freshIds| ==> freshIds[k] !in core.sockets
        invariant core.chartTypeInput == typeInput && core.keyWordInput == keyWordInput
        invariant forall k :: 0 <= k < i && Subscribes(items[k], typeInput, keyWordInput) ==> accepted[k]
        invariant idMap == ImportedIdMap(items, layouts, freshIds, typeInput, keyWordInput, i)
        invariant core.charts == ImportedCharts(items, freshIds, typeInput, keyWordInput, i)
        invariant closureImporting || ("lg" in layouts && idMap == []) ==> core.layouts == EmptyLayouts()
        invariant closureImporting ==> core.status == old(core.status)
        invariant core.sockets - newIds == sockets0 - newIds
        invariant core.wsConnections - newIds == ws0 - newIds
        invariant core.chartData - newIds == data0 - newIds
      {
        var stuck;
        idMap, stuck := ReAddStep(items, layouts, freshIds, accepted, closureImporting, i, idMap, sockets0, ws0, data0);
        if stuck {
          return idMap, Some(i);
        }
        i := i + 1;
      }
      stuckAt := None;
    }

    /** `importLayout` once the file has been read. `parsed` is the parsed
        document (`None`: the text is not JSON, or is `null`);
        `closureImporting` is the import flag the `addChart` used here was
        created with; `freshIds[i]` is the id `crypto.randomUUID()` yields for
        entry `i`; `accepted[i]` is whether the server answers entry `i`'s
        subscription with success. */
    method ImportLayout(parsed: Option<ImportDoc>, closureImporting: bool, freshIds: seq<Id>, accepted: seq<bool>)
      returns (outcome: ImportOutcome)
      requires core.Valid()
      requires |accepted| == |freshIds|
      requires forall k :: 0 <= k < |freshIds| ==> freshIds[k] !in core.sockets
      requires forall j, k :: 0 <= j < k < |freshIds| ==> freshIds[j] != freshIds[k]
      requires parsed.Some? && parsed.value.charts.Some? ==> |parsed.value.charts.value| <= |freshIds|
      modifies this`isImporting, this`panelTitle, this`themeName
      modifies core`sockets, core`status, core`statusTimerPending, core`chartData, core`wsConnections
      modifies core`charts, core`layouts, core`throttle, core`resolved, core`chartRefs
      ensures core.Valid()
      ensures isImporting <==> outcome.Stuck?
      ensures outcome == ParseFailed <==> parsed.None?
      ensures outcome == MissingParts <==> parsed.Some? && (parsed.value.charts.None? || parsed.value.layouts.None?)
      ensures panelTitle == (if parsed.Some? && parsed.value.title.Some? && parsed.value.title.value != ""
                             then parsed.value.title.value else old(panelTitle))
      ensures themeName == (if parsed.Some? && parsed.value.themeName.Some? && parsed.value.themeName.value in allThemes
                            then parsed.value.themeName.value else old(themeName))
      ensures outcome in {ParseFailed, MissingParts} ==>
        && core.charts == old(core.charts) && core.layouts == old(core.layouts) && core.sockets == old(core.sockets)
        && core.chartData == old(core.chartData) && core.wsConnections == old(core.wsConnections)
        && core.chartRefs == old(core.chartRefs)
      ensures outcome.Completed? || outcome.Stuck? ==>
        && parsed.Some? && parsed.value.charts.Some? && parsed.value.layouts.Some?
        && |parsed.value.charts.value| <= |freshIds|
        && RebuildOutcome(parsed.value.charts.value, parsed.value.layouts.value, freshIds, accepted, closureImporting,
                          old(core.chartTypeInput), old(core.keyWordInput), outcome)
      ensures outcome.Completed? || outcome.Stuck? ==>
        LeftAfterRebuild(ChartIdSet(old(core.charts)), IdSet(freshIds), old(core.sockets), old(core.wsConnections),
                         old(core.chartData), old(core.chartRefs))
      ensures closureImporting ==> core.status == old(core.status)
    {
      isImporting := true;
      if parsed.None? {
        isImporting := false;
        return ParseFailed;
      }
      var doc := parsed.value;
      ApplyHeader(doc);
      if doc.charts.None? || doc.layouts.None? {
        isImporting := false;
        return MissingParts;
      }
      outcome := Rebuild(doc.charts.value, doc.layouts.value, closureImporting, freshIds, accepted);
      if outcome.Completed? {
        isImporting := false;
      }
    }

    /** The charts and layouts a rebuild ends with. `Completed`: every
        subscribing entry was accepted, the chart list and id map are those
        of all entries, and the layouts are the relaid-out document when the
        map is non-empty (the empty breakpoints when it is empty and no
        default entry was appended). `Stuck(at)`: entry `at` is the first
        subscribing entry the server refused, and the chart list is that of
        the entries before it. */
    ghost predicate RebuildOutcome(items: seq<ImportedChart>, layouts: Layouts, freshIds: seq<Id>, accepted: seq<bool>,
                                   closureImporting: bool, typeInput: string, keyWordInput: string, outcome: ImportOutcome)
      requires |items| <= |freshIds| == |accepted|
      reads core`charts, core`layouts
    {
      match outcome
      case Completed(idMap) =>
        && (forall k :: 0 <= k < |items| && Subscribes(items[k], typeInput, keyWordInput) ==> accepted[k])
        && idMap == ImportedIdMap(items, layouts, freshIds, typeInput, keyWordInput, |items|)
        && core.charts == ImportedCharts(items, freshIds, typeInput, keyWordInput, |items|)
        && (idMap != [] ==> core.layouts == Relayout(layouts, idMap))
        && (idMap == [] && (closureImporting || "lg" in layouts) ==> core.layouts == EmptyLayouts())
      case Stuck(at) =>
        && at < |items|
        && Subscribes(items[at], typeInput, keyWordInput) && !accepted[at]
        && (forall k :: 0 <= k < at && Subscribes(items[k], typeInput, keyWordInput) ==> accepted[k])
        && core.charts == ImportedCharts(items, freshIds, typeInput, keyWordInput, at)
      case _ => false
    }

    /** What a rebuild leaves of the state `sockets0`, `ws0`, `data0`,
        `refs0` it started from, whose charts had the ids `oldIds`: those
        charts' instances are gone and their open connected sockets closed,
        every other old socket is as it was, and outside the fresh ids
        `newIds` the connections and buffers are the old ones less `oldIds`. */
    ghost predicate LeftAfterRebuild(oldIds: set<Id>, newIds: set<Id>, sockets0: map<Id, Socket>, ws0: set<Id>,
                                     data0: map<Id, Buffer>, refs0: map<Id, Instance>)
      reads core`sockets, core`wsConnections, core`chartData, core`chartRefs
    {
      && core.chartRefs == refs0 - oldIds
      && (forall id :: id in sockets0 ==>
            id in core.sockets && core.sockets[id] == ClosedIfOpen(sockets0[id], id in oldIds && id in ws0))
      && core.wsConnections - newIds == ws0 - oldIds
      && core.chartData - newIds == data0 - oldIds
    }

    /** The header step of `importLayout`: a non-empty imported title is
        taken, and an imported theme name is taken when the theme exists. */
    method ApplyHeader(doc: ImportDoc)
      modifies this`panelTitle, this`themeName
      ensures panelTitle == (if doc.title.Some? && doc.title.value != "" then doc.title.value else old(panelTitle))
      ensures themeName == (if doc.themeName.Some? && doc.themeName.value in allThemes
                            then doc.themeName.value else old(themeName))
    {
      if doc.title.Some? && doc.title.value != "" {
        panelTitle := doc.title.value;
      }
      if doc.themeName.Some? && doc.themeName.value in allThemes {
        themeName := doc.themeName.value;
      }
    }

    /** The second half of `importLayout`: tear the panel down, re-add the
        entries in order and, when the id map is non-empty, lay the grid out
        again under the new ids. */
    method Rebuild(items: seq<ImportedChart>, layouts: Layouts, closureImporting: bool, freshIds: seq<Id>, accepted: seq<bool>)
      returns (outcome: ImportOutcome)
      requires core.Valid()
      requires |items| <= |freshIds| == |accepted|
      requires forall k :: 0 <= k < |freshIds| ==> freshIds[k] !in core.sockets
      requires forall j, k :: 0 <= j < k < |freshIds| ==> freshIds[j] != freshIds[k]
      modifies core`sockets, core`status, core`statusTimerPending, core`chartData, core`wsConnections
      modifies core`charts, core`layouts, core`throttle, core`resolved, core`chartRefs
      ensures core.Valid()
      ensures outcome.Completed? || outcome.Stuck?
      ensures RebuildOutcome(items, layouts, freshIds, accepted, closureImporting,
                             core.chartTypeInput, core.keyWordInput, outcome)
      ensures closureImporting ==> core.status == old(core.status)
      ensures LeftAfterRebuild(ChartIdSet(old(core.charts)), IdSet(freshIds), old(core.sockets), old(core.wsConnections),
                               old(core.chartData), old(core.chartRefs))
    {
      FreshIdsDisjoint(freshIds, core.sockets.Keys);
      Teardown();
      ghost var sockets1, ws1, data1 := core.sockets, core.wsConnections, core.chartData;
      var idMap, stuckAt := ReAddAll(items, layouts, freshIds, accepted, closureImporting);
      KeptOffFresh(core.sockets, sockets1, core.wsConnections, ws1, core.chartData, data1, IdSet(freshIds));
      if stuckAt.Some? {
        return Stuck(stuckAt.value);
      }
      if |idMap| > 0 {
        core.SetLayouts(Relayout(layouts, idMap));
      }
      outcome := Completed(idMap);
    }
  }
}
