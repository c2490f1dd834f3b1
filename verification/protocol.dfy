/**
  The hand-off protocol end to end, as a sequence of atomic steps: the
  opener's `open`, the main process's handlers, the acknowledgements that
  resume the renderers, and the modal's `getData` and `emit`.
 */
module Protocol {
  import opened Wrappers
  import opened Props
  import opened Json
  import Store
  import opened Listeners
  import opened Events
  import opened Utils
  import opened Modal

  /** The payload `{id, data}` of a data-set request. */
  function SetRequest(id: nat, data: Json): Json {
    JObject([Prop("id", JNumber(id)), Prop("data", data)])
  }

  /** The property key a numeric window id is stored under. */
  function KeyOf(id: nat): string {
    ToPropertyKey(Defined(JNumber(id)))
  }

  lemma SetRequestFields(id: nat, data: Json)
    ensures Field(SetRequest(id, data), "id") == Defined(JNumber(id))
    ensures Field(SetRequest(id, data), "data") == Defined(data)
  {
    var ms := [Prop("id", JNumber(id)), Prop("data", data)];
    assert ms[0].key == "id" && ms[1].key == "data";
  }

  /** A main process whose three channels each carry their handler once, as after `setup`. */
  predicate Ready(m: MainState) {
    && ListenersOf(m.ipcMain, IpcChannelDataSet) == [Listener(SetData, false)]
    && ListenersOf(m.ipcMain, IpcChannelDataGet) == [Listener(GetData, false)]
    && ListenersOf(m.ipcMain, IpcChannelMessageBridge) == [Listener(Bridge, false)]
  }

  /** `setup` on a main process without listeners makes it ready. */
  lemma SetupMakesReady(store: Store.Store)
    ensures Ready(Setup(MainState(store, map[], false)))
  {
    SetupFresh(store, IpcChannelDataSet);
    SetupFresh(store, IpcChannelDataGet);
    SetupFresh(store, IpcChannelMessageBridge);
  }

  /** A data-set request reaching a ready main process stores the data and acknowledges. */
  lemma DeliverSet(m: MainState, windows: set<nat>, id: nat, data: Json, response: string)
    requires Ready(m) && WellFormed(data)
    ensures var d := Deliver(m, windows, Message(IpcChannelDataSet, Envelope(SetRequest(id, data), response)));
      && d.Success?
      && d.value.main == m.(store := m.store[KeyOf(id) := data])
      && d.value.replies == [Reply(response, Undefined)]
      && d.value.relayed == []
  {
    SetRequestFields(id, data);
    DeliverToSoleHandler(m, windows, Message(IpcChannelDataSet, Envelope(SetRequest(id, data), response)), SetData);
  }

  /** A data-get request reaching a ready main process replies with the entry and evicts it. */
  lemma DeliverGet(m: MainState, windows: set<nat>, id: nat, response: string)
    requires Ready(m) && Store.Valid(m.store)
    ensures var d := Deliver(m, windows, Message(IpcChannelDataGet, Envelope(JNumber(id), response)));
      && d.Success?
      && d.value.main == m.(store := m.store - {KeyOf(id)})
      && d.value.replies ==
           [Reply(response, Defined(if KeyOf(id) in m.store then Store.ReadBack(m.store[KeyOf(id)]) else EmptyObject))]
      && d.value.relayed == []
  {
    DeliverToSoleHandler(m, windows, Message(IpcChannelDataGet, Envelope(JNumber(id), response)), GetData);
  }

  /** A second data-get request for the same id replies `{}` and leaves the store as it is. */
  lemma GetAgain(m: MainState, windows: set<nat>, id: nat, r1: string, r2: string)
    requires Ready(m) && Store.Valid(m.store)
    ensures var d1 := Deliver(m, windows, Message(IpcChannelDataGet, Envelope(JNumber(id), r1)));
      && d1.Success?
      && var d2 := Deliver(d1.value.main, windows, Message(IpcChannelDataGet, Envelope(JNumber(id), r2)));
      && d2.Success? && d2.value.replies == [Reply(r2, Defined(EmptyObject))]
      && d2.value.main == d1.value.main
  {
    DeliverGet(m, windows, id, r1);
    var m1 := m.(store := m.store - {KeyOf(id)});
    assert Ready(m1) && Store.Valid(m1.store);
    DeliverGet(m1, windows, id, r2);
    assert m1.store - {KeyOf(id)} == m1.store;
  }

  /**
    Set `{id, data: v}`, then get `id` twice: the first get replies `v` (or
    `{}` when `v` is falsy), the second `{}`.
   */
  lemma SetGetGet(store: Store.Store, windows: set<nat>, id: nat, v: Json, r1: string, r2: string, r3: string)
    requires Store.Valid(store) && WellFormed(v)
    ensures var m0 := Setup(MainState(store, map[], false));
      var d1 := Deliver(m0, windows, Message(IpcChannelDataSet, Envelope(SetRequest(id, v), r1)));
      && d1.Success? && d1.value.replies == [Reply(r1, Undefined)]
      && var d2 := Deliver(d1.value.main, windows, Message(IpcChannelDataGet, Envelope(JNumber(id), r2)));
      && d2.Success? && d2.value.replies == [Reply(r2, Defined(Store.ReadBack(v)))]
      && var d3 := Deliver(d2.value.main, windows, Message(IpcChannelDataGet, Envelope(JNumber(id), r3)));
      && d3.Success? && d3.value.replies == [Reply(r3, Defined(EmptyObject))]
  {
    var m0 := Setup(MainState(store, map[], false));
    SetupMakesReady(store);
    DeliverSet(m0, windows, id, v, r1);
    var m1 := m0.(store := store[KeyOf(id) := v]);
    assert Store.Valid(m1.store);
    DeliverGet(m1, windows, id, r2);
    GetAgain(m1, windows, id, r2, r3);
  }

  /**
    `open` hands the data off before loading content: the acknowledgement of
    its request is what runs `LoadContent`, and when it runs the store holds
    the data under the new window's id.
   */
  lemma HandOffBeforeLoad(o: Opener, m: MainState, windows: set<nat>, options: Option<Options>,
                          data: JsValue, newId: nat, token: Token)
    requires o.setupFlag && Ready(m)
    requires data.Defined? ==> WellFormed(data.value)
    requires ListenersOf(o.ipcRenderer, OpenResponseChannel(token)) == []
    ensures var op := Open(o, options, data, newId, token).value;
      var d := Deliver(m, windows, op.request);
      var stored := if data.Undefined? then EmptyObject else data.value;
      && d.Success?
      && d.value.main.store == m.store[KeyOf(newId) := stored]
      && d.value.replies == [Reply(OpenResponseChannel(token), Undefined)]
      && Emit(op.opener.ipcRenderer, d.value.replies[0].channel).fired == [LoadContent(newId)]
  {
    var stored := if data.Undefined? then EmptyObject else data.value;
    OpenHandsOff(o, options, data, newId, token);
    var op := Open(o, options, data, newId, token).value;
    assert op.request == Message(IpcChannelDataSet, Envelope(SetRequest(newId, stored), OpenResponseChannel(token)));
    DeliverSet(m, windows, newId, stored, OpenResponseChannel(token));
    var l := [Listener(LoadContent(newId), true)];
    assert ListenersOf(op.opener.ipcRenderer, OpenResponseChannel(token)) == l;
    assert Handlers(l) == [LoadContent(newId)];
  }

  /**
    Once the content is loaded, the modal's first `getData` sends one
    request, whose reply carries the opener's data (`{}` when falsy) and
    settles the promise, and evicts it from the store; later calls return
    the same promise without sending anything.
   */
  lemma ModalReadsItsData(m: MainState, windows: set<nat>, w: Window, data: Json, t1: Token, t2: Token)
    requires Ready(m) && Store.Valid(m.store) && WellFormed(data)
    requires KeyOf(w.id) in m.store && m.store[KeyOf(w.id)] == data
    ensures var call := ChildGetData(NewChild(w), t1);
      var d := Deliver(m, windows, call.sent[0]);
      && |call.sent| == 1
      && d.Success?
      && d.value.replies == [Reply(call.promise.responseChannel, Defined(Store.ReadBack(data)))]
      && KeyOf(w.id) !in d.value.main.store
      && Emit(call.child.ipcRenderer, d.value.replies[0].channel).fired == [Settle]
      && ChildGetData(call.child, t2) == ChildCall(call.child, call.promise, [])
  {
    var call := ChildGetData(NewChild(w), t1);
    DeliverGet(m, windows, w.id, call.promise.responseChannel);
    var l := [Listener(Settle, true)];
    assert ListenersOf(call.child.ipcRenderer, call.promise.responseChannel) == l;
    assert Handlers(l) == [Settle];
  }

  /** The payload `{id, channel, message}` of a bridge request. */
  function BridgeRequest(id: nat, channel: Json, message: Json): Json {
    JObject([Prop("id", JNumber(id)), Prop("channel", channel), Prop("message", message)])
  }

  /** A bridge request for a live window reaching a ready main process is relayed to that window. */
  lemma DeliverBridge(m: MainState, windows: set<nat>, id: nat, channel: Json, message: Json, response: string)
    requires Ready(m) && id in windows
    ensures var d := Deliver(m, windows, Message(IpcChannelMessageBridge, Envelope(BridgeRequest(id, channel, message), response)));
      && d.Success?
      && d.value.main == m
      && d.value.replies == [Reply(response, Undefined)]
      && d.value.relayed == [WindowEvent(id, ChannelBrowserWindowMessage, Defined(channel), Defined(message))]
  {
    var ms := [Prop("id", JNumber(id)), Prop("channel", channel), Prop("message", message)];
    assert ms[0].key == "id" && ms[1].key == "channel" && ms[2].key == "message";
    DeliverToSoleHandler(m, windows, Message(IpcChannelMessageBridge, Envelope(BridgeRequest(id, channel, message), response)), Bridge);
  }

  /** The listener `open` puts on the modal turns each bridged message into one emitter event. */
  lemma OpenedWindowRelays(op: Opened, window: nat, channel: JsValue, message: JsValue)
    requires op.modalListeners == On(map[], ChannelBrowserWindowMessage, RelayToEmitter)
    ensures ReceiveWindowEvent(op.modalListeners, WindowEvent(window, ChannelBrowserWindowMessage, channel, message)) ==
              [EmitterEvent(channel, message)]
  {
    var l := [Listener(RelayToEmitter, false)];
    assert ListenersOf(op.modalListeners, ChannelBrowserWindowMessage) == l;
    assert Handlers(l) == [RelayToEmitter];
    var hs := [RelayToEmitter];
    assert hs[..0] == [];
  }

  /**
    A modal's `emit(channel, message)` reaches the opener: the bridge emits
    `{channel, message}` on the modal's window, and the listener `open` put
    there re-emits `message` under `channel`.
   */
  lemma EmitReachesOpener(o: Opener, m: MainState, windows: set<nat>, options: Option<Options>, data: JsValue,
                          newId: nat, t0: Token, channel: Json, message: Json, t1: Token)
    requires o.setupFlag && Ready(m) && newId in windows
    ensures var op := Open(o, options, data, newId, t0).value;
      var sent := ChildEmit(NewChild(op.modal), channel, message, t1).1;
      var d := Deliver(m, windows, sent);
      && d.Success?
      && d.value.main == m
      && d.value.replies == [Reply(sent.payload.response, Undefined)]
      && d.value.relayed == [WindowEvent(newId, ChannelBrowserWindowMessage, Defined(channel), Defined(message))]
      && ReceiveWindowEvent(op.modalListeners, d.value.relayed[0]) == [EmitterEvent(Defined(channel), Defined(message))]
  {
    var op := Open(o, options, data, newId, t0).value;
    var sent := ChildEmit(NewChild(op.modal), channel, message, t1).1;
    assert sent == Message(IpcChannelMessageBridge, Envelope(BridgeRequest(newId, channel, message), sent.payload.response));
    DeliverBridge(m, windows, newId, channel, message, sent.payload.response);
    OpenedWindowRelays(op, newId, Defined(channel), Defined(message));
  }
}
