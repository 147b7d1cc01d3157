/** `api.py`: the user-facing back end. It holds the global manager
    (`start_api`, `restart_api`), fills in missing connection settings from
    the configuration file, and defines one `DataStream` class per chart
    type; a stream registers its data key when created and forwards a
    payload to the manager's queue only when the payload passes the
    validator of its chart type. */
module Api {
  import opened Wrappers
  import opened Text
  import opened Py
  import opened ChartConst
  import opened ConfigEdit
  import opened ApiCore

  // ---------------------------------------------------------------------
  // Payload validators

  /** `_data_validated`: a dictionary with `id`, `timestamp` and `value`. */
  predicate Validated(p: PyValue) {
    p.PDict? && "id" in p.entries && "timestamp" in p.entries && "value" in p.entries
  }

  /** The payload's `value`. */
  function ValueOf(p: PyValue): PyValue
    requires Validated(p)
  {
    p.entries["value"]
  }

  /** `_data_validated_number`: the value is a number (a bool included). */
  predicate ValidatedNumber(p: PyValue) {
    Validated(p) && IsNumber(ValueOf(p))
  }

  /** `_data_validated_string`: the value is a string. */
  predicate ValidatedString(p: PyValue) {
    Validated(p) && ValueOf(p).PStr?
  }

  /** `_data_validated_dict`: the value is a dictionary. */
  predicate ValidatedDict(p: PyValue) {
    Validated(p) && ValueOf(p).PDict?
  }

  /** `_data_validated_list`: the value is a list. */
  predicate ValidatedList(p: PyValue) {
    Validated(p) && ValueOf(p).PList?
  }

  /** `_data_validated_coordinate`: holds exactly when the value is a list
      of two numbers. */
  function ValidatedCoordinate(p: PyValue): (r: bool)
    ensures r <==> Validated(p) && ValueOf(p).PList? && |ValueOf(p).items| == 2
                   && IsNumber(ValueOf(p).items[0]) && IsNumber(ValueOf(p).items[1])
  {
    if ValidatedList(p) then
      var value := ValueOf(p).items;
      if |value| == 2 then
        var x, y := value[0], value[1];
        if IsNumber(x) && IsNumber(y) then true else false
      else false
    else false
  }

  /** `_data_validated_dimension`: holds exactly when the value is a list of
      two lists of equal length (labels and numbers; the elements are not
      checked). */
  function ValidatedDimension(p: PyValue): (r: bool)
    ensures r <==> Validated(p) && ValueOf(p).PList? && |ValueOf(p).items| == 2
                   && ValueOf(p).items[0].PList? && ValueOf(p).items[1].PList?
                   && |ValueOf(p).items[0].items| == |ValueOf(p).items[1].items|
  {
    if ValidatedList(p) then
      var value := ValueOf(p).items;
      if |value| == 2 then
        var dimension, num := value[0], value[1];
        if dimension.PList? && num.PList? && |dimension.items| == |num.items| then true else false
      else false
    else false
  }

  /** `_data_validated_dimensions`: holds exactly when the value is a list
      of three lists whose second and third have equal length (the first,
      the dimension labels, may have any length). */
  function ValidatedDimensions(p: PyValue): (r: bool)
    ensures r <==> Validated(p) && ValueOf(p).PList? && |ValueOf(p).items| == 3
                   && ValueOf(p).items[0].PList? && ValueOf(p).items[1].PList? && ValueOf(p).items[2].PList?
                   && |ValueOf(p).items[1].items| == |ValueOf(p).items[2].items|
  {
    if ValidatedList(p) then
      var value := ValueOf(p).items;
      if |value| == 3 then
        var dimension, series, num := value[0], value[1], value[2];
        if dimension.PList? && series.PList? && num.PList? && |series.items| == |num.items| then true else false
      else false
    else false
  }

  /** `len(num) == shape[0] * shape[1]` for a `shape` of length 2, evaluated
      left to right: `len(num)`, then both indexings, then the product. */
  function ShapeMatches(shape: PyValue, num: PyValue): Outcome<bool>
    requires Len(shape) == Some(2)
  {
    match Len(num)
    case None => Raises(TypeError)
    case Some(n) =>
      match Index(shape, 0)
      case Raises(e) => Raises(e)
      case Value(rows) =>
        match Index(shape, 1)
        case Raises(e) => Raises(e)
        case Value(cols) =>
          match Mul(rows, cols)
          case Raises(e) => Raises(e)
          case Value(product) => Value(IntEquals(n, product))
  }

  /** `_data_validated_surface`. The three parts are measured with `len`
      without a type check, so a part without a length (a number, `None`)
      raises `TypeError`, a dictionary `shape` raises `KeyError`, and a
      `shape` of two strings raises `TypeError` in the product; these
      exceptions leave the validator and the `update` that called it. */
  function ValidatedSurface(p: PyValue): (r: Outcome<bool>)
    ensures r == Value(true) <==>
      && Validated(p) && ValueOf(p).PList? && |ValueOf(p).items| == 3
      && var axis, shape, num := ValueOf(p).items[0], ValueOf(p).items[1], ValueOf(p).items[2];
         && Len(axis) == Some(3)
         && shape.PList? && |shape.items| == 2 && IsNumber(shape.items[0]) && IsNumber(shape.items[1])
         && Len(num).Some?
         && Len(num).value as real == NumberValue(shape.items[0]) * NumberValue(shape.items[1])
    ensures r.Raises? ==> Validated(p) && ValueOf(p).PList? && |ValueOf(p).items| == 3
  {
    if ValidatedList(p) then
      var value := ValueOf(p).items;
      if |value| == 3 then
        var axis, shape, num := value[0], value[1], value[2];
        match Len(axis)
        case None => Raises(TypeError)
        case Some(axisLen) =>
          if axisLen != 3 then Value(false)
          else match Len(shape)
            case None => Raises(TypeError)
            case Some(shapeLen) =>
              if shapeLen != 2 then Value(false)
              else ShapeMatches(shape, num)
      else Value(false)
    else Value(false)
  }

  /** A surface payload whose three parts are lists, with a shape of two
      numbers, is answered without an exception. */
  lemma SurfaceListsDoNotRaise(p: PyValue)
    requires Validated(p) && ValueOf(p).PList? && |ValueOf(p).items| == 3
    requires forall k :: 0 <= k < 3 ==> ValueOf(p).items[k].PList?
    requires |ValueOf(p).items[1].items| == 2 ==>
      IsNumber(ValueOf(p).items[1].items[0]) && IsNumber(ValueOf(p).items[1].items[1])
    ensures ValidatedSurface(p).Value?
  {
    var value := ValueOf(p).items;
    assert value[0].PList? && value[1].PList? && value[2].PList?;
  }

  /** A number where the axis names belong makes the validator raise
      instead of answering `False`. */
  lemma SurfaceRaisesOnNumberAxis()
    ensures ValidatedSurface(Payload(PStr("1"), PStr("t"),
              PList([PInt(7), PList([PInt(1), PInt(2)]), PList([PInt(0), PInt(0)])]))) == Raises(TypeError)
  {
  }

  // ---------------------------------------------------------------------
  // Stream classes

  /** The thirteen `DataStream` subclasses. */
  datatype StreamClass =
    | Line | Bar | Sequence | Lines | Bars | Sequences | Scatter
    | Area | Areas | Pie | Radar | Surface | Text

  /** The `chart_type` each subclass passes to `DataStream.__init__`. */
  function ChartType(kind: StreamClass): string {
    match kind
    case Line => "line"
    case Bar => "bar"
    case Sequence => "sequence"
    case Lines => "lines"
    case Bars => "bars"
    case Sequences => "sequences"
    case Scatter => "scatter"
    case Area => "area"
    case Areas => "areas"
    case Pie => "pie"
    case Radar => "radar"
    case Surface => "surface"
    case Text => "text"
  }

  /** The validator each subclass's `update` applies. */
  function Validate(kind: StreamClass, p: PyValue): Outcome<bool> {
    match kind
    case Line => Value(ValidatedNumber(p))
    case Bar => Value(ValidatedNumber(p))
    case Sequence => Value(ValidatedNumber(p))
    case Lines => Value(ValidatedDict(p))
    case Bars => Value(ValidatedDict(p))
    case Sequences => Value(ValidatedDict(p))
    case Scatter => Value(ValidatedCoordinate(p))
    case Area => Value(ValidatedDimension(p))
    case Areas => Value(ValidatedDimensions(p))
    case Pie => Value(ValidatedDimension(p))
    case Radar => Value(ValidatedDimensions(p))
    case Surface => ValidatedSurface(p)
    case Text => Value(ValidatedString(p))
  }

  /** Every accepted payload is a dictionary with `id`, `timestamp` and
      `value`; only the surface validator can raise. */
  lemma AcceptedPayloadsAreValidated(kind: StreamClass, p: PyValue)
    ensures Validate(kind, p) == Value(true) ==> Validated(p)
    ensures Validate(kind, p).Raises? ==> kind == Surface
  {
  }

  /** Every producer's chart type lies in exactly one of the front end's two
      tables, global-update for the snapshot charts and sequence-update for
      the rolling ones; no producer emits `gauge`. Distinct classes have
      distinct chart types. */
  lemma ProducerTypesClassified(kind: StreamClass, other: StreamClass)
    ensures ChartType(kind) in GlobalUpdateChart <==> ChartType(kind) !in SequenceUpdateChart
    ensures ChartType(kind) in GlobalUpdateChart <==> kind in {Area, Areas, Pie, Radar, Surface, Text}
    ensures ChartType(kind) != "gauge"
    ensures ChartType(kind) == ChartType(other) ==> kind == other
  {
  }

  // ---------------------------------------------------------------------
  // Data keys

  /** `key_word.strip().lower()`. */
  function NormaliseKeyWord(keyWord: string): string {
    ToLower(Trim(Whitespace, keyWord))
  }

  /** The keyword is blank-free at both ends, lower-case, and normalising it
      again changes nothing. */
  lemma NormaliseKeyWordIdempotent(keyWord: string)
    ensures NormaliseKeyWord(NormaliseKeyWord(keyWord)) == NormaliseKeyWord(keyWord)
  {
    var t := Trim(Whitespace, keyWord);
    var u := ToLower(t);
    TrimSpec(Whitespace, keyWord);
    if u != [] {
      LowerKeepsBlanks(t[0]);
      LowerKeepsBlanks(t[|t| - 1]);
    }
    TrimFixed(Whitespace, u);
    forall k | 0 <= k < |u| ensures LowerChar(u[k]) == u[k] {
      assert u[k] == LowerChar(t[k]);
    }
  }

  lemma LowerKeepsBlanks(c: char)
    ensures LowerChar(c) in Whitespace <==> c in Whitespace
  {
  }

  /** A chart type without a separator, and its stream's key, give back the
      chart type and keyword when `_simulate_initial_data_fetch` splits the
      key. */
  lemma StreamKeysSplit(kind: StreamClass, keyWord: string)
    ensures Split(DataKey(ChartType(kind), NormaliseKeyWord(keyWord)))
         == Some((ChartType(kind), NormaliseKeyWord(keyWord)))
  {
    ChartTypeSeparatorFree(kind);
    SplitDataKey(ChartType(kind), NormaliseKeyWord(keyWord));
  }

  /** No chart type contains `<`, so none contains the separator. */
  lemma ChartTypeSeparatorFree(kind: StreamClass)
    ensures SeparatorFree(ChartType(kind))
  {
    var t := ChartType(kind);
    forall j | 0 <= j < |t| ensures !SeparatorAt(t, j) {
      if j + 3 <= |t| {
        assert '<' !in t[j..j + 3];
      }
    }
  }

  // ---------------------------------------------------------------------
  // Connection settings

  /** Host, port and route. */
  datatype Settings = Settings(host: PyValue, port: PyValue, route: PyValue)

  /** `start_config_load()` on the loaded configuration document:
      `config['WEBSOCKET_CONFIG']` item by item; the first lookup that fails
      raises. */
  function StartConfigLoad(content: Content): (r: Outcome<Settings>)
    ensures r.Value? <==>
      && Get(content, "WEBSOCKET_CONFIG", "HOST").Value?
      && Get(content, "WEBSOCKET_CONFIG", "PORT").Value?
      && Get(content, "WEBSOCKET_CONFIG", "ROUTE").Value?
    ensures r.Value? ==> r.value == Settings(Get(content, "WEBSOCKET_CONFIG", "HOST").value,
                                             Get(content, "WEBSOCKET_CONFIG", "PORT").value,
                                             Get(content, "WEBSOCKET_CONFIG", "ROUTE").value)
  {
    match Get(content, "WEBSOCKET_CONFIG", "HOST")
    case Raises(e) => Raises(e)
    case Value(host) =>
      match Get(content, "WEBSOCKET_CONFIG", "PORT")
      case Raises(e) => Raises(e)
      case Value(port) =>
        match Get(content, "WEBSOCKET_CONFIG", "ROUTE")
        case Raises(e) => Raises(e)
        case Value(route) => Value(Settings(host, port, route))
  }

  /** `start_config_check(host, port, route)`, given the configuration
      document it would load: an argument that is `None` takes the
      configured value, any other is kept; the file is consulted (and its
      errors raised) only when some argument is `None`. */
  function StartConfigCheck(args: Settings, content: Content): (r: Outcome<Settings>)
    ensures args.host != PNone && args.port != PNone && args.route != PNone ==> r == Value(args)
    ensures (args.host == PNone || args.port == PNone || args.route == PNone) ==>
      match StartConfigLoad(content)
      case Raises(e) => r == Raises(e)
      case Value(d) => (r.Value?
        && r.value.host == (if args.host == PNone then d.host else args.host)
        && r.value.port == (if args.port == PNone then d.port else args.port)
        && r.value.route == (if args.route == PNone then d.route else args.route))
  {
    if args.host == PNone || args.port == PNone || args.route == PNone then
      match StartConfigLoad(content)
      case Raises(e) => Raises(e)
      case Value(d) =>
        Value(Settings(if args.host == PNone then d.host else args.host,
                       if args.port == PNone then d.port else args.port,
                       if args.route == PNone then d.route else args.route))
    else Value(args)
  }

  /** Settings that came out of the check come out unchanged when checked
      again, without the file, as long as no configured value is `None`. */
  lemma StartConfigCheckStable(args: Settings, content: Content, other: Content)
    requires StartConfigCheck(args, content).Value?
    requires var s := StartConfigCheck(args, content).value;
      s.host != PNone && s.port != PNone && s.route != PNone
    ensures StartConfigCheck(StartConfigCheck(args, content).value, other) == StartConfigCheck(args, content)
  {
  }

  /** A port written with `config_update('WEBSOCKET_CONFIG', 'PORT', v)` is
      the one the next start without a port argument uses. */
  lemma UpdatedPortIsUsed(content: Content, port: PyValue, host: PyValue, route: PyValue)
    requires UpdatedBy(content, "WEBSOCKET_CONFIG", "PORT", port).Value?
    requires StartConfigLoad(content).Value?
    ensures var updated := UpdatedBy(content, "WEBSOCKET_CONFIG", "PORT", port).value;
      StartConfigCheck(Settings(host, PNone, route), updated).Value?
      && StartConfigCheck(Settings(host, PNone, route), updated).value.port == port
  {
    var updated := UpdatedBy(content, "WEBSOCKET_CONFIG", "PORT", port).value;
    GetAfterUpdate(content, "WEBSOCKET_CONFIG", "PORT", port);
    OthersUnchanged(content, "WEBSOCKET_CONFIG", "PORT", port, "WEBSOCKET_CONFIG", "HOST");
    OthersUnchanged(content, "WEBSOCKET_CONFIG", "PORT", port, "WEBSOCKET_CONFIG", "ROUTE");
  }

  // ---------------------------------------------------------------------
  // The global manager and the streams

  /** The module-level `_manager` and the configuration files it reads. */
  class ApiGlobals {
    var manager: WebsocketManager?
    const files: ConfigFiles

    constructor (files: ConfigFiles)
      ensures manager == null && this.files == files
    {
      manager := null;
      this.files := files;
    }

    /** `start_manager(host, port, route)`: a new, empty manager becomes the
        global one (its server thread is left out). */
    method StartManager(s: Settings) returns (m: WebsocketManager)
      modifies this`manager
      ensures fresh(m) && manager == m
      ensures m.host == s.host && m.port == s.port && m.route == s.route
      ensures m.cache == map[] && m.subscriptions == map[] && m.validKeys == {} && m.queue == []
      ensures m.Valid()
    {
      m := new WebsocketManager(s.host, s.port, s.route);
      manager := m;
    }

    /** `start_api(host, port, route)`: a running manager is returned as it
        is, whatever the arguments; otherwise the settings are completed
        and a new manager started. */
    method StartApi(args: Settings) returns (r: Outcome<WebsocketManager>)
      modifies this`manager
      ensures old(manager) != null ==> r == Value(old(manager)) && manager == old(manager)
      ensures old(manager) == null ==>
        match StartConfigCheck(args, files.primary)
        case Raises(e) => r == Raises(e) && manager == null
        case Value(s) => (r.Value? && fresh(r.value) && manager == r.value
          && r.value.host == s.host && r.value.port == s.port && r.value.route == s.route
          && r.value.validKeys == {} && r.value.cache == map[]
          && r.value.subscriptions == map[] && r.value.queue == [] && r.value.Valid())
    {
      if manager != null {
        return Value(manager);
      }
      var s := StartConfigCheck(args, files.primary);
      if s.Raises? {
        return Raises(s.error);
      }
      var m := StartManager(s.value);
      r := Value(m);
    }

    /** `restart_api(host, port, route)`: the global manager is dropped
        first (the old one is not stopped), so a new one is always started;
        if the settings cannot be completed, no manager is left. */
    method RestartApi(args: Settings) returns (r: Outcome<WebsocketManager>)
      modifies this`manager
      ensures match StartConfigCheck(args, files.primary)
        case Raises(e) => r == Raises(e) && manager == null
        case Value(s) => (r.Value? && fresh(r.value) && manager == r.value
          && r.value.host == s.host && r.value.port == s.port && r.value.route == s.route
          && r.value.validKeys == {} && r.value.cache == map[]
          && r.value.subscriptions == map[] && r.value.queue == [] && r.value.Valid())
    {
      manager := null;
      r := StartApi(args);
    }
  }

  /** The running global manager, as a frame: empty when there is none. */
  function Running(globals: ApiGlobals): set<WebsocketManager>
    reads globals
  {
    if globals.manager == null then {} else {globals.manager}
  }

  /** An instance of one of the thirteen subclasses. It keeps no manager of
      its own: every call goes through the module-level `_manager`, so after
      `restart_api` a stream pushes to and reads from the new manager. */
  class DataStream {
    const globals: ApiGlobals
    const kind: StreamClass
    const keyWord: string
    const chartType: string
    const dataKey: string

    /** `Line(key_word)` and its siblings, once a manager is running: the
        keyword is stripped and lower-cased, the chart type is the class's
        own, and the data key is registered with the global manager. */
    constructor (globals: ApiGlobals, kind: StreamClass, keyWord: string)
      requires globals.manager != null && globals.manager.Valid()
      modifies globals.manager`validKeys
      ensures globals.manager.Valid()
      ensures this.globals == globals && this.kind == kind
      ensures this.keyWord == NormaliseKeyWord(keyWord) && chartType == ChartType(kind)
      ensures dataKey == DataKey(chartType, this.keyWord)
      ensures globals.manager.validKeys == old(globals.manager.validKeys) + {dataKey}
    {
      this.globals := globals;
      this.kind := kind;
      this.keyWord := NormaliseKeyWord(keyWord);
      chartType := ChartType(kind);
      dataKey := DataKey(ChartType(kind), NormaliseKeyWord(keyWord));
      new;
      globals.manager.RegisterDataStream(dataKey);
    }

    /** The subclass's `update(data_payload)`: a refused payload is only
        logged; an accepted one is queued under the stream's key on the
        manager that is global at the time of the call, and raises
        `AttributeError` when there is none. An exception from the validator
        propagates to the caller. */
    method Update(p: PyValue) returns (raised: Option<PyError>)
      requires globals.manager != null ==> globals.manager.Valid()
      modifies Running(globals)`queue
      ensures globals.manager == old(globals.manager)
      ensures globals.manager != null ==> globals.manager.Valid()
      ensures Validate(kind, p) == Value(true) && globals.manager != null ==>
        raised.None? && globals.manager.queue == old(globals.manager.queue) + [(dataKey, p)]
      ensures Validate(kind, p) == Value(true) && globals.manager == null ==>
        raised == Some(AttributeError)
      ensures Validate(kind, p) == Value(false) ==>
        raised.None? && (globals.manager != null ==> globals.manager.queue == old(globals.manager.queue))
      ensures Validate(kind, p).Raises? ==>
        raised == Some(Validate(kind, p).error)
        && (globals.manager != null ==> globals.manager.queue == old(globals.manager.queue))
    {
      var verdict := Validate(kind, p);
      if verdict.Raises? {
        return Some(verdict.error);
      }
      if verdict.value {
        var m := globals.manager;
        if m == null {
          return Some(AttributeError);
        }
        m.PushUpdateSync(dataKey, p);
      }
      raised := None;
    }

    /** `get_cached_data()`: the latest payload the current global manager
        caches under the stream's key; `AttributeError` when none is running. */
    method GetCachedData() returns (r: Outcome<Option<PyValue>>)
      ensures globals.manager == null ==> r == Raises(AttributeError)
      ensures globals.manager != null ==>
        && r.Value?
        && (r.value.Some? <==> dataKey in globals.manager.cache)
        && (r.value.Some? ==> r.value.value == globals.manager.cache[dataKey])
    {
      var m := globals.manager;
      if m == null {
        return Raises(AttributeError);
      }
      var c := m.GetCachedDataSync(dataKey);
      r := Value(c);
    }
  }

  /** Calling a stream class: `AttributeError` when no manager is running
      (the registration reads `_manager.register_data_stream` on `None`);
      otherwise a stream registered with the global manager. */
  method NewStream(globals: ApiGlobals, kind: StreamClass, keyWord: string) returns (r: Outcome<DataStream>)
    requires globals.manager != null ==> globals.manager.Valid()
    modifies Running(globals)`validKeys
    ensures globals.manager == old(globals.manager)
    ensures old(globals.manager) == null ==> r == Raises(AttributeError)
    ensures old(globals.manager) != null ==>
      && r.Value? && fresh(r.value) && r.value.globals == globals && r.value.kind == kind
      && r.value.dataKey == DataKey(ChartType(kind), NormaliseKeyWord(keyWord))
      && globals.manager.Valid()
      && globals.manager.validKeys == old(globals.manager.validKeys) + {r.value.dataKey}
  {
    if globals.manager == null {
      return Raises(AttributeError);
    }
    var s := new DataStream(globals, kind, keyWord);
    r := Value(s);
  }
}
