/** `dataTransformer.jsx`: turns a raw data frame received on a chart's
    WebSocket into a chart point `{id, index, value}`. */
module DataTransformer {
  import opened Wrappers
  import opened Js

  /** A decoded chart point: `index` is the frame's `timestamp`. */
  datatype Point = Point(id: JsValue, index: JsValue, value: JsValue)

  /** Outcome of `transformSinglePointData`: `Invalid` is its `null` result;
      `ReferenceError` is the exception raised by the fallback-id branch,
      which reads the undeclared variable `pointIndex`. */
  datatype Decoded = Invalid | Decoded(point: Point) | ReferenceError

  /** `transformSinglePointData(rawData)`. The frame is rejected when it is
      falsy or its `timestamp` or `value` is undefined; a defined but falsy
      field (`0`, `""`, `null`) is accepted. A truthy `id` is kept; a missing
      or falsy `id` takes the fallback branch, which throws. */
  function TransformSinglePointData(raw: JsValue): (r: Decoded)
    ensures r.Invalid? <==> !Truthy(raw) || Prop(raw, "timestamp").None? || Prop(raw, "value").None?
    ensures r.ReferenceError? <==>
      && !r.Invalid?
      && !(Prop(raw, "id").Some? && Truthy(Prop(raw, "id").value))
    ensures r.Decoded? ==>
      && raw.JObj?
      && r.point.index == raw.fields["timestamp"]
      && r.point.value == raw.fields["value"]
      && "id" in raw.fields && r.point.id == raw.fields["id"] && Truthy(r.point.id)
  {
    if !Truthy(raw) || Prop(raw, "timestamp").None? || Prop(raw, "value").None? then
      Invalid
    else
      var id := Prop(raw, "id");
      if id.Some? && Truthy(id.value) then
        Decoded(Point(id.value, raw.fields["timestamp"], raw.fields["value"]))
      else
        ReferenceError
  }

  /** Only an object carrying both `timestamp` and `value` gets past the
      validity check; every other JSON value decodes to `null`. */
  lemma AcceptedFramesAreObjects(raw: JsValue)
    ensures !TransformSinglePointData(raw).Invalid? <==>
      raw.JObj? && "timestamp" in raw.fields && "value" in raw.fields
  {
  }

  /** Outcome of `transformDataList`: the point list, or the exception that
      escapes `map` when one element throws. */
  datatype ListResult = Points(points: seq<Point>) | ListThrows

  /** `rawDataList.map(transformSinglePointData).filter(item => item !== null)`
      on an array: the decoded points in input order, or the first exception. */
  function TransformAll(items: seq<JsValue>): (r: ListResult)
    ensures r.ListThrows? <==>
      exists k :: 0 <= k < |items| && TransformSinglePointData(items[k]).ReferenceError?
    ensures r.Points? ==> |r.points| <= |items|
    ensures r.Points? ==> forall j :: 0 <= j < |r.points| ==>
      exists k :: 0 <= k < |items| && TransformSinglePointData(items[k]) == Decoded(r.points[j])
    ensures r.Points? ==> forall k :: 0 <= k < |items| && TransformSinglePointData(items[k]).Decoded? ==>
      TransformSinglePointData(items[k]).point in r.points
  {
    if |items| == 0 then Points([])
    else
      var h := TransformSinglePointData(items[0]);
      var rest := TransformAll(items[1..]);
      assert forall k :: 1 <= k < |items| ==> items[k] == items[1..][k - 1];
      if h.ReferenceError? then ListThrows
      else if rest.ListThrows? then ListThrows
      else if h.Decoded? then Points([h.point] + rest.points)
      else Points(rest.points)
  }

  /** Concatenation of two successful results; an exception wins. */
  function Join(a: ListResult, b: ListResult): ListResult {
    if a.ListThrows? || b.ListThrows? then ListThrows else Points(a.points + b.points)
  }

  /** Decoding distributes over concatenation of the input: the output is the
      in-order subsequence of decodable frames. */
  lemma {:induction false} TransformAllAppend(a: seq<JsValue>, b: seq<JsValue>)
    ensures TransformAll(a + b) == Join(TransformAll(a), TransformAll(b))
    decreases |a|
  {
    if |a| == 0 {
      assert a + b == b;
    } else {
      var ab := a + b;
      assert ab[0] == a[0];
      assert ab[1..] == a[1..] + b;
      TransformAllAppend(a[1..], b);
      var h := TransformSinglePointData(a[0]);
      var restA := TransformAll(a[1..]);
      var restAB := TransformAll(ab[1..]);
      assert restAB == Join(restA, TransformAll(b));
      if !h.ReferenceError? && restAB.Points? {
        if h.Decoded? {
          assert [h.point] + (restA.points + TransformAll(b).points)
              == ([h.point] + restA.points) + TransformAll(b).points;
        }
      }
    }
  }

  /** `transformDataList(rawDataList)`: `[]` for anything but an array. */
  function TransformDataList(raw: JsValue): (r: ListResult)
    ensures !raw.JArr? ==> r == Points([])
    ensures raw.JArr? ==> r == TransformAll(raw.items)
  {
    if raw.JArr? then TransformAll(raw.items) else Points([])
  }
}
