/** The wire between the two halves: the back end's frames reach the
    front end as `JSON.parse(json.dumps(v))`, and a chart's socket asks for
    the data key that a Python stream registered. These lemmas relate the
    two models. */
module Protocol {
  import opened Wrappers
  import opened Text
  import opened Js
  import opened DataTransformer
  import opened PanelCanvas
  import Py
  import ApiCore
  import Api

  /** `JSON.parse(json.dumps(v))`: Python numbers become JavaScript numbers,
      `None` becomes `null`, lists arrays and dictionaries objects. */
  function ToJs(v: Py.PyValue): (r: JsValue)
    requires Py.Serialisable(v)
    ensures v.PDict? ==> r.JObj? && r.fields.Keys == v.entries.Keys
  {
    match v
    case PNone => JNull
    case PBool(b) => JBool(b)
    case PInt(i) => JNum(i as real)
    case PFloat(f) => JNum(f)
    case PStr(s) => JStr(s)
    case PList(items) => JArr(seq(|items|, k requires 0 <= k < |items| => ToJs(items[k])))
    case PDict(entries) => JObj(map key | key in entries :: ToJs(entries[key]))
  }

  /** The handshake's status frames are routed by a chart's `onmessage` to
      the success and failure branches. */
  lemma StatusFramesRoute(message: string)
    ensures Route(ToJs(ApiCore.StatusMessage("success", message))) == SuccessFrame
    ensures Route(ToJs(ApiCore.StatusMessage("failure", message))) == FailureFrame
  {
  }

  /** The default initial payload passes the number validator, is routed as
      a data frame and decodes to the point `{id: "INIT", index: "N/A",
      value: 0}`. */
  lemma InitPayloadDecodes()
    ensures Api.ValidatedNumber(ApiCore.InitPayload())
    ensures Route(ToJs(ApiCore.InitPayload())) == DataFrame
    ensures TransformSinglePointData(ToJs(ApiCore.InitPayload()))
         == Decoded(Point(JStr("INIT"), JStr("N/A"), JNum(0.0)))
  {
  }

  /** A payload a stream accepted reaches its chart as a point: it is routed
      as a data frame and decodes to its own id, timestamp and value, as
      long as its id is truthy in JavaScript and it carries no truthy
      `status` field. */
  lemma AcceptedPayloadDecodes(kind: Api.StreamClass, p: Py.PyValue)
    requires Api.Validate(kind, p) == Py.Value(true)
    requires Py.Serialisable(p)
    requires Truthy(ToJs(p.entries["id"]))
    requires "status" in p.entries ==> !Truthy(ToJs(p.entries["status"]))
    ensures Route(ToJs(p)) == DataFrame
    ensures TransformSinglePointData(ToJs(p))
         == Decoded(Point(ToJs(p.entries["id"]), ToJs(p.entries["timestamp"]), ToJs(p.entries["value"])))
  {
    Api.AcceptedPayloadsAreValidated(kind, p);
  }

  /** The back end does not look at the id: a payload with an empty id is
      accepted and pushed, and the front end's decoder then throws. */
  lemma EmptyIdAcceptedButThrows()
    ensures var p := Py.Payload(Py.PStr(""), Py.PStr("t"), Py.PInt(1));
      && Api.Validate(Api.Line, p) == Py.Value(true)
      && TransformSinglePointData(ToJs(p)).ReferenceError?
  {
  }

  /** For a keyword whose characters are blank to both languages or to
      neither, the front end's `lowerString` and the back end's
      `strip().lower()` agree. */
  lemma KeyWordNormalisationAgrees(s: string)
    requires forall k :: 0 <= k < |s| ==> (s[k] in Js.Whitespace <==> s[k] in Py.Whitespace)
    ensures LowerString(s) == Api.NormaliseKeyWord(s)
  {
    TrimAgree(Js.Whitespace, Py.Whitespace, s);
  }

  /** The key a chart's socket subscribes to (`onopen` sends the normalised
      inputs, the handler joins them) is a stream's data key exactly when
      the normalised chart type is the stream's and the normalised keywords
      are equal. */
  lemma SubscriptionMatchesStream(kind: Api.StreamClass, typeInput: string, keyWordInput: string, streamKeyWord: string)
    requires ApiCore.SeparatorFree(LowerString(typeInput))
    ensures ApiCore.DataKey(LowerString(typeInput), LowerString(keyWordInput))
         == ApiCore.DataKey(Api.ChartType(kind), Api.NormaliseKeyWord(streamKeyWord))
      <==> LowerString(typeInput) == Api.ChartType(kind) && LowerString(keyWordInput) == Api.NormaliseKeyWord(streamKeyWord)
  {
    Api.ChartTypeSeparatorFree(kind);
    ApiCore.DataKeyInjective(LowerString(typeInput), LowerString(keyWordInput),
                             Api.ChartType(kind), Api.NormaliseKeyWord(streamKeyWord));
  }

  /** Typing a stream's chart type and keyword into the panel (in any case,
      with surrounding blanks both languages strip) subscribes to that
      stream's key. */
  lemma SameInputsSubscribe(kind: Api.StreamClass, typeInput: string, keyWord: string)
    requires LowerString(typeInput) == Api.ChartType(kind)
    requires forall k :: 0 <= k < |keyWord| ==> (keyWord[k] in Js.Whitespace <==> keyWord[k] in Py.Whitespace)
    ensures ApiCore.DataKey(LowerString(typeInput), LowerString(keyWord))
         == ApiCore.DataKey(Api.ChartType(kind), Api.NormaliseKeyWord(keyWord))
  {
    KeyWordNormalisationAgrees(keyWord);
  }
}
