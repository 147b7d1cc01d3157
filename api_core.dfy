/** `apiCore.py`: the back end's `WebsocketManager`. It keeps the set of
    registered data keys, the latest payload per key, the subscribed client
    sockets per key and a FIFO queue of updates handed over by user code;
    it drains the queue (caching and pushing each update), and answers each
    client connection with a subscription handshake. */
module ApiCore {
  import opened Wrappers
  import opened Py

  // ---------------------------------------------------------------------
  // Data keys

  /** The separator between chart type and keyword in a data key. */
  const Separator: string := "<:>"

  predicate SeparatorAt(s: string, j: nat) {
    j + 3 <= |s| && s[j..j + 3] == Separator
  }

  /** No occurrence of the separator anywhere in `s`. */
  predicate SeparatorFree(s: string) {
    forall j :: 0 <= j < |s| ==> !SeparatorAt(s, j)
  }

  /** `f"{chart_type}<:>{key_word}"`. */
  function DataKey(chartType: string, keyWord: string): string {
    chartType + Separator + keyWord
  }

  /** Index of the first separator at or after `from`. */
  function FindSeparator(s: string, from: nat): (r: Option<nat>)
    ensures r.Some? ==> from <= r.value && SeparatorAt(s, r.value)
    ensures r.Some? ==> forall j: nat :: from <= j < r.value ==> !SeparatorAt(s, j)
    ensures r.None? ==> forall j: nat :: from <= j ==> !SeparatorAt(s, j)
    decreases |s| - from
  {
    if from + 3 > |s| then None
    else if SeparatorAt(s, from) then Some(from)
    else FindSeparator(s, from + 1)
  }

  /** `chart_type, key_word = data_key.split('<:>', 1)`: the text before the
      first separator and the rest; `None` where the unpacking raises
      `ValueError` (no separator, so `split` yields one piece). */
  function Split(key: string): (r: Option<(string, string)>)
    ensures r.None? <==> SeparatorFree(key)
    ensures r.Some? ==> key == r.value.0 + Separator + r.value.1
    ensures r.Some? ==> forall j: nat :: j < |r.value.0| ==> !SeparatorAt(key, j)
  {
    match FindSeparator(key, 0)
    case None => None
    case Some(i) =>
      assert key == key[..i] + Separator + key[i + 3..];
      Some((key[..i], key[i + 3..]))
  }

  /** A data key built from a chart type without a separator splits back
      into that chart type and keyword: the separator cannot straddle the
      end of the chart type, since its last character `>` is not in `<:`. */
  lemma SplitDataKey(chartType: string, keyWord: string)
    requires SeparatorFree(chartType)
    ensures Split(DataKey(chartType, keyWord)) == Some((chartType, keyWord))
  {
    var key := DataKey(chartType, keyWord);
    var n := |chartType|;
    assert SeparatorAt(key, n) by {
      assert key[n..n + 3] == Separator;
    }
    forall j: nat | j < n ensures !SeparatorAt(key, j) {
      if j + 3 <= n {
        assert key[j..j + 3] == chartType[j..j + 3];
        assert !SeparatorAt(chartType, j);
      } else if j + 3 <= |key| {
        assert key[j + 2] == Separator[j + 2 - n];
        assert key[j..j + 3][2] == key[j + 2];
      }
    }
    var r := Split(key).value;
    if |r.0| < n {
      assert SeparatorAt(key, |r.0|) by {
        assert key[|r.0|..|r.0| + 3] == Separator;
      }
    }
    assert r.0 == key[..n] == chartType;
    assert r.1 == key[n + 3..] == keyWord;
  }

  /** Data keys of separator-free chart types are equal only when both the
      chart types and the keywords are. */
  lemma DataKeyInjective(t1: string, k1: string, t2: string, k2: string)
    requires SeparatorFree(t1) && SeparatorFree(t2)
    ensures DataKey(t1, k1) == DataKey(t2, k2) <==> t1 == t2 && k1 == k2
  {
    SplitDataKey(t1, k1);
    SplitDataKey(t2, k2);
  }

  // ---------------------------------------------------------------------
  // Initial data

  /** The payload sent to a new subscriber of a key nothing was pushed to yet. */
  function InitPayload(): PyValue {
    Payload(PStr("INIT"), PStr("N/A"), PInt(0))
  }

  /** Result of `_simulate_initial_data_fetch`: `None` for an unregistered
      key, the payload otherwise; `SplitFails` is the `ValueError` of the
      unpacking on a registered key without a separator. */
  datatype Fetch = NotRegistered | Initial(payload: PyValue) | SplitFails

  /** `_simulate_initial_data_fetch(data_key, cache, valid_keys)`. */
  function SimulateInitialDataFetch(key: string, cache: map<string, PyValue>, validKeys: set<string>): (r: Fetch)
    ensures r.NotRegistered? <==> key !in validKeys
    ensures r.Initial? && key in cache ==> r.payload == cache[key]
    ensures r.Initial? && key !in cache ==> r.payload == InitPayload()
    ensures r.SplitFails? <==> key in validKeys && key !in cache && SeparatorFree(key)
  {
    if key !in validKeys then NotRegistered
    else if key in cache then Initial(cache[key])
    else if Split(key).None? then SplitFails
    else Initial(InitPayload())
  }

  /** A key the connection handler builds is registered exactly when the
      fetch yields a payload: it never hits the `ValueError`. */
  lemma HandlerKeysFetch(chartType: string, keyWord: string, cache: map<string, PyValue>, validKeys: set<string>)
    ensures !SimulateInitialDataFetch(DataKey(chartType, keyWord), cache, validKeys).SplitFails?
  {
    var key := DataKey(chartType, keyWord);
    assert SeparatorAt(key, |chartType|) by {
      assert key[|chartType|..|chartType| + 3] == Separator;
    }
  }

  // ---------------------------------------------------------------------
  // Cache and subscriptions as values

  /** A connected client socket, by identity. */
  type ClientId = nat

  /** The manager's cache and subscription table. */
  datatype Store = Store(cache: map<string, PyValue>, subscriptions: map<string, set<ClientId>>)

  /** `self._subscriptions.get(key, set())`. */
  function Subscribers(subscriptions: map<string, set<ClientId>>, key: string): set<ClientId> {
    if key in subscriptions then subscriptions[key] else {}
  }

  /** `json.dumps(new_data)` raises inside `_update_and_push_async`: it is
      reached only when the key has subscribers. */
  predicate PushRaises(st: Store, key: string, data: PyValue) {
    Subscribers(st.subscriptions, key) != {} && !Serialisable(data)
  }

  /** The store after `_update_and_push_async(key, data)`, where `failing`
      are the clients whose send fails. The cache entry is written first,
      whatever follows; with subscribers and a serialisable payload, every
      failing subscriber is removed from the key's set, and a set emptied
      that way is deleted. */
  function AfterPush(st: Store, key: string, data: PyValue, failing: set<ClientId>): (r: Store)
    ensures r.cache == st.cache[key := data]
    ensures forall k :: k != key ==> (k in r.subscriptions <==> k in st.subscriptions)
    ensures forall k :: k != key && k in st.subscriptions ==> r.subscriptions[k] == st.subscriptions[k]
    ensures key in r.subscriptions ==> key in st.subscriptions && r.subscriptions[key] <= st.subscriptions[key]
    ensures PushRaises(st, key, data) ==> r.subscriptions == st.subscriptions
    ensures !PushRaises(st, key, data) && key in st.subscriptions && st.subscriptions[key] != {} ==>
      if st.subscriptions[key] <= failing then key !in r.subscriptions
      else key in r.subscriptions && r.subscriptions[key] == st.subscriptions[key] - failing
    ensures key in st.subscriptions && st.subscriptions[key] == {} ==> r.subscriptions == st.subscriptions
  {
    var cache := st.cache[key := data];
    var subscribers := Subscribers(st.subscriptions, key);
    if subscribers == {} || !Serialisable(data) then Store(cache, st.subscriptions)
    else
      var disconnected := subscribers * failing;
      if disconnected == {} then
        assert subscribers - failing == subscribers by {
          forall c | c in subscribers ensures c !in failing {
            assert c !in disconnected;
          }
        }
        Store(cache, st.subscriptions)
      else if subscribers - disconnected == {} then
        assert subscribers <= failing by {
          forall c | c in subscribers ensures c in failing {
            assert c !in subscribers - disconnected;
          }
        }
        Store(cache, st.subscriptions - {key})
      else Store(cache, st.subscriptions[key := subscribers - disconnected])
  }

  /** The store after draining `queue` front first; `failing[i]` are the
      clients whose send fails while item `i` is pushed. */
  function Drain(st: Store, queue: seq<(string, PyValue)>, failing: seq<set<ClientId>>): Store
    requires |failing| == |queue|
    decreases |queue|
  {
    if |queue| == 0 then st
    else Drain(AfterPush(st, queue[0].0, queue[0].1, failing[0]), queue[1..], failing[1..])
  }

  /** Draining is FIFO: draining a concatenation drains the first part and
      then the second. */
  lemma {:induction false} DrainAppend(st: Store, q1: seq<(string, PyValue)>, q2: seq<(string, PyValue)>,
                                       f1: seq<set<ClientId>>, f2: seq<set<ClientId>>)
    requires |f1| == |q1| && |f2| == |q2|
    ensures Drain(st, q1 + q2, f1 + f2) == Drain(Drain(st, q1, f1), q2, f2)
    decreases |q1|
  {
    if |q1| > 0 {
      assert (q1 + q2)[1..] == q1[1..] + q2;
      assert (f1 + f2)[1..] == f1[1..] + f2;
      DrainAppend(AfterPush(st, q1[0].0, q1[0].1, f1[0]), q1[1..], q2, f1[1..], f2);
    } else {
      assert q1 + q2 == q2 && f1 + f2 == f2;
    }
  }

  /** A drain leaves the cache entry of every key it did not carry as it
      was (present or absent). */
  lemma {:induction false} DrainKeepsOtherKeys(st: Store, queue: seq<(string, PyValue)>, failing: seq<set<ClientId>>, k: string)
    requires |failing| == |queue|
    requires forall i :: 0 <= i < |queue| ==> queue[i].0 != k
    ensures var r := Drain(st, queue, failing);
      (k in r.cache <==> k in st.cache) && (k in st.cache ==> r.cache[k] == st.cache[k])
    decreases |queue|
  {
    if |queue| > 0 {
      var rest := queue[1..];
      assert queue[0].0 != k;
      forall j | 0 <= j < |rest| ensures rest[j].0 != k {
        assert rest[j] == queue[j + 1];
      }
      DrainKeepsOtherKeys(AfterPush(st, queue[0].0, queue[0].1, failing[0]), rest, failing[1..], k);
    }
  }

  /** After a drain each queued key caches the value of its last update:
      later updates overwrite earlier ones, whether or not a push raised or
      a send failed. */
  lemma {:induction false} LastWriteWins(st: Store, queue: seq<(string, PyValue)>, failing: seq<set<ClientId>>, i: nat)
    requires |failing| == |queue|
    requires i < |queue|
    requires forall j :: i < j < |queue| ==> queue[j].0 != queue[i].0
    ensures var r := Drain(st, queue, failing);
      queue[i].0 in r.cache && r.cache[queue[i].0] == queue[i].1
    decreases |queue|
  {
    var st1 := AfterPush(st, queue[0].0, queue[0].1, failing[0]);
    var rest := queue[1..];
    if i == 0 {
      forall j | 0 <= j < |rest| ensures rest[j].0 != queue[0].0 {
        assert rest[j] == queue[j + 1];
      }
      DrainKeepsOtherKeys(st1, rest, failing[1..], queue[0].0);
    } else {
      assert rest[i - 1] == queue[i];
      forall j | i - 1 < j < |rest| ensures rest[j].0 != rest[i - 1].0 {
        assert rest[j] == queue[j + 1];
      }
      LastWriteWins(st1, rest, failing[1..], i - 1);
    }
  }

  /** Draining never adds a subscription: every key left has a subset of
      the clients it had. */
  lemma {:induction false} DrainOnlyUnsubscribes(st: Store, queue: seq<(string, PyValue)>, failing: seq<set<ClientId>>)
    requires |failing| == |queue|
    ensures var r := Drain(st, queue, failing);
      forall k :: k in r.subscriptions ==> k in st.subscriptions && r.subscriptions[k] <= st.subscriptions[k]
    decreases |queue|
  {
    if |queue| > 0 {
      DrainOnlyUnsubscribes(AfterPush(st, queue[0].0, queue[0].1, failing[0]), queue[1..], failing[1..]);
    }
  }

  // ---------------------------------------------------------------------
  // The connection handler's messages

  /** `{"status": status, "message": message}`. */
  function StatusMessage(status: string, message: string): (r: PyValue)
    ensures Serialisable(r)
  {
    PDict(map["status" := PStr(status), "message" := PStr(message)])
  }

  /** What the handler does on the socket: send a JSON text, or close with a code. */
  datatype Sent = Send(payload: PyValue) | Close(code: int)

  /** The subscription message as the handler reads it: not parseable as
      JSON (or the socket closed first), not a JSON object, or an object whose
      `chart_type` and `key_word` are strings or missing. */
  datatype Request = Unreadable | NotAnObject | Fields(chartType: Option<string>, keyWord: Option<string>)

  /** `f"{v}"` for a field that is a string or missing (`None`). */
  function FieldText(v: Option<string>): string {
    v.GetOr("None")
  }

  // ---------------------------------------------------------------------
  // The manager

  class WebsocketManager {
    const host: PyValue
    const port: PyValue
    const route: PyValue
    var cache: map<string, PyValue>
    var subscriptions: map<string, set<ClientId>>
    var validKeys: set<string>
    var queue: seq<(string, PyValue)>

    /** Subscriptions exist only for registered keys. */
    ghost predicate Valid()
      reads this`subscriptions, this`validKeys
    {
      subscriptions.Keys <= validKeys
    }

    function State(): Store
      reads this`cache, this`subscriptions
    {
      Store(cache, subscriptions)
    }

    constructor (host: PyValue, port: PyValue, route: PyValue)
      ensures this.host == host && this.port == port && this.route == route
      ensures cache == map[] && subscriptions == map[] && validKeys == {} && queue == []
      ensures Valid()
    {
      this.host := host;
      this.port := port;
      this.route := route;
      cache := map[];
      subscriptions := map[];
      validKeys := {};
      queue := [];
    }

    /** `register_data_stream(data_key)`: registering twice is the same as once. */
    method RegisterDataStream(key: string)
      requires Valid()
      modifies this`validKeys
      ensures Valid()
      ensures validKeys == old(validKeys) + {key}
      ensures key in old(validKeys) ==> validKeys == old(validKeys)
    {
      validKeys := validKeys + {key};
    }

    /** `push_update_sync(data_key, data_payload)`: enqueue at the back (the
        event-loop wake-up is left out). */
    method PushUpdateSync(key: string, data: PyValue)
      modifies this`queue
      ensures queue == old(queue) + [(key, data)]
    {
      queue := queue + [(key, data)];
    }

    /** `get_cached_data_sync(data_key)`: `self._cache.get(data_key)`. */
    method GetCachedDataSync(key: string) returns (r: Option<PyValue>)
      ensures r.Some? <==> key in cache
      ensures r.Some? ==> r.value == cache[key]
    {
      r := if key in cache then Some(cache[key]) else None;
    }

    /** `_update_and_push_async(data_key, new_data)`; `failing` are the
        clients whose send fails. Returns the clients the payload reached
        and whether `json.dumps` raised. */
    method UpdateAndPush(key: string, data: PyValue, failing: set<ClientId>)
      returns (delivered: set<ClientId>, raised: bool)
      requires Valid()
      modifies this`cache, this`subscriptions
      ensures Valid()
      ensures State() == AfterPush(old(State()), key, data, failing)
      ensures raised <==> PushRaises(old(State()), key, data)
      ensures delivered == if raised then {} else Subscribers(old(subscriptions), key) - failing
    {
      cache := cache[key := data];
      var subscribers := Subscribers(subscriptions, key);
      if subscribers == {} {
        return {}, false;
      }
      if !Serialisable(data) {
        return {}, true;
      }
      var disconnected := subscribers * failing;
      delivered, raised := subscribers - disconnected, false;
      if disconnected != {} {
        var remaining := subscribers - disconnected;
        if remaining == {} {
          subscriptions := subscriptions - {key};
        } else {
          subscriptions := subscriptions[key := remaining];
        }
      }
    }

    /** The inner loop of `_process_update_queue`: pop from the front and
        update-and-push until the queue is empty; an update that raises is
        logged and the loop goes on. */
    method ProcessUpdateQueue(failing: seq<set<ClientId>>)
      requires Valid()
      requires |failing| == |queue|
      modifies this`cache, this`subscriptions, this`queue
      ensures Valid()
      ensures queue == []
      ensures State() == Drain(old(State()), old(queue), failing)
    {
      var i := 0;
      while |queue| > 0
        invariant Valid()
        invariant 0 <= i <= |failing| && |queue| == |failing| - i
        invariant Drain(State(), queue, failing[i..]) == Drain(old(State()), old(queue), failing)
        decreases |queue|
      {
        var item := queue[0];
        var st := State();
        queue := queue[1..];
        var _, _ := UpdateAndPush(item.0, item.1, failing[i]);
        assert failing[i..][1..] == failing[i + 1..];
        i := i + 1;
      }
    }

    /** `_websocket_handler(websocket, path)` up to the point where it waits
        for the client to leave, for a new connection `client`. Returns what
        it sent and the `data_key` its `finally` block will use. A wrong
        path is refused before anything is read; an unreadable request
        ends the handler; an unregistered key (or a cached `None`, which the
        handler cannot tell from "not registered") is refused; otherwise the
        client is subscribed, then sent the success status and the initial
        payload. If that payload cannot be serialised the exception ends the
        handler and its `finally` unsubscribes the client again. */
    method HandleConnect(client: ClientId, path: string, request: Request)
      returns (sent: seq<Sent>, dataKey: string)
      requires Valid()
      requires forall k :: k in subscriptions ==> client !in subscriptions[k]
      modifies this`subscriptions
      ensures Valid()
      ensures TruthValue(route) && PStr(path) != route ==>
        && sent == [Send(StatusMessage("failure", "Connection attempt on invalid path.")), Close(1008)]
        && dataKey == "" && subscriptions == old(subscriptions)
      ensures !(TruthValue(route) && PStr(path) != route) && !request.Fields? ==>
        sent == [] && dataKey == "" && subscriptions == old(subscriptions)
      ensures !(TruthValue(route) && PStr(path) != route) && request.Fields? ==>
        var key := DataKey(FieldText(request.chartType), FieldText(request.keyWord));
        var fetch := SimulateInitialDataFetch(key, cache, validKeys);
        && dataKey == key
        && (fetch.NotRegistered? || fetch == Initial(PNone) ==>
              && sent == [Send(StatusMessage("failure", "Invalid chart type or keyword (not registered).")), Close(1008)]
              && subscriptions == old(subscriptions))
        && (fetch.SplitFails? ==> sent == [] && subscriptions == old(subscriptions))
        && (fetch.Initial? && fetch.payload != PNone && Serialisable(fetch.payload) ==>
              && sent == [Send(StatusMessage("success", "Subscription successful.")), Send(fetch.payload)]
              && subscriptions == old(subscriptions)[key := Subscribers(old(subscriptions), key) + {client}])
        && (fetch.Initial? && fetch.payload != PNone && !Serialisable(fetch.payload) ==>
              && sent == [Send(StatusMessage("success", "Subscription successful."))]
              && subscriptions == old(subscriptions)[key := Subscribers(old(subscriptions), key)])
      ensures forall k :: k in subscriptions && k != dataKey ==>
        k in old(subscriptions) && subscriptions[k] == old(subscriptions)[k]
    {
      if TruthValue(route) && PStr(path) != route {
        return [Send(StatusMessage("failure", "Connection attempt on invalid path.")), Close(1008)], "";
      }
      if !request.Fields? {
        return [], "";
      }
      dataKey := DataKey(FieldText(request.chartType), FieldText(request.keyWord));
      var fetch := SimulateInitialDataFetch(dataKey, cache, validKeys);
      if fetch.NotRegistered? || fetch == Initial(PNone) {
        return [Send(StatusMessage("failure", "Invalid chart type or keyword (not registered).")), Close(1008)], dataKey;
      }
      match fetch
      case SplitFails =>
        sent := [];
      case Initial(payload) =>
        var before := Subscribers(subscriptions, dataKey);
        subscriptions := subscriptions[dataKey := before + {client}];
        sent := [Send(StatusMessage("success", "Subscription successful."))];
        if Serialisable(payload) {
          sent := sent + [Send(payload)];
        } else {
          HandleDisconnect(client, dataKey);
          assert before + {client} - {client} == before;
        }
    }

    /** The handler's `finally` block when the client leaves: remove it from
        its key's set if it is there; a set emptied this way stays in the
        table. */
    method HandleDisconnect(client: ClientId, dataKey: string)
      requires Valid()
      modifies this`subscriptions
      ensures Valid()
      ensures dataKey != "" && client in Subscribers(old(subscriptions), dataKey) ==>
        subscriptions == old(subscriptions)[dataKey := old(subscriptions)[dataKey] - {client}]
      ensures !(dataKey != "" && client in Subscribers(old(subscriptions), dataKey)) ==>
        subscriptions == old(subscriptions)
    {
      if dataKey != "" && client in Subscribers(subscriptions, dataKey) {
        subscriptions := subscriptions[dataKey := subscriptions[dataKey] - {client}];
      }
    }
  }
}
