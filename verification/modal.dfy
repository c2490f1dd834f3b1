/**
  The modal library proper: the three main-process IPC handlers and
  `setup`, the opener's `open`, and the modal window's `getData` and `emit`.
  Windows are ids; the role of the process is a parameter.
 */
module Modal {
  import opened Wrappers
  import opened Props
  import opened Json
  import Store
  import opened Listeners
  import opened Events
  import opened Utils

  /** The package name the channel names are built from. */
  const PackageName: string := "electron-modal"

  const IpcChannelDataGet: string := PackageName + "-data-get"
  const IpcChannelDataSet: string := PackageName + "-data-set"
  const IpcChannelMessageBridge: string := PackageName + "-message-bridge"
  const ChannelBrowserWindowMessage: string := PackageName + "-modal-message"

  /** The message `open` throws before `setup` has run. */
  const SetupRequired: string := "Make sure you ran modal.setup() on the main process before calling this function"

  /** The three IPC channels are distinct, so each handler gets its own requests. */
  lemma ChannelsDistinct()
    ensures IpcChannelDataSet != IpcChannelDataGet
    ensures IpcChannelDataSet != IpcChannelMessageBridge
    ensures IpcChannelDataGet != IpcChannelMessageBridge
  {
    assert IpcChannelDataSet[20] == 's' && IpcChannelDataGet[20] == 'g';
    assert IpcChannelMessageBridge[15] == 'm' && IpcChannelDataGet[15] == 'd';
  }

  // ----- Property reads on a payload -----

  /** `o[name]` on a JSON value that is not `null`: the property, or `undefined`. */
  function Field(o: Json, name: string): JsValue {
    if o.JObject? && HasKey(o.members, name) then Defined(Lookup(o.members, name).value) else Undefined
  }

  // ----- Main process -----

  datatype MainHandler = SetData | GetData | Bridge

  /** The main process: the store, `ipcMain`'s listeners and the setup flag of its environment. */
  datatype MainState = MainState(store: Store.Store, ipcMain: Registry<MainHandler>, setupFlag: bool)

  /** An event emitted on the window with id `window`, carrying `{channel, message}`. */
  datatype WindowEvent = WindowEvent(window: nat, name: string, channel: JsValue, message: JsValue)

  /** What one handler did: the new store, its acknowledgement and the window events it emitted. */
  datatype Handled = Handled(store: Store.Store, reply: Reply, relayed: seq<WindowEvent>)

  /**
    `setData(event, payload)`: stores `payload.data.data` under
    `payload.data.id`, then acknowledges with no data.
   */
  function HandleSetData(store: Store.Store, payload: Envelope): (r: Result<Handled, JsError>)
    ensures payload.data == JNull ==> r == Failure(TypeError)
    ensures payload.data != JNull && Field(payload.data, "data").Undefined? ==> r == Failure(SyntaxError)
    ensures var d := Field(payload.data, "data");
      d.Defined? && WellFormed(d.value) ==>
        r == Success(Handled(store[ToPropertyKey(Field(payload.data, "id")) := d.value],
                             Reply(payload.response, Undefined), []))
    ensures r.Success? && Store.Valid(store) ==> Store.Valid(r.value.store)
  {
    var data := Defined(payload.data);
    var id :- GetProperty(data, "id");
    var value := GetProperty(data, "data").value;
    var s :- Store.Set(store, id, value);
    Success(Handled(s, Awknowledge(payload, Undefined), []))
  }

  /**
    `getData(event, payload)`: replies with the store's value for the id
    `payload.data` and removes that entry.
   */
  function HandleGetData(store: Store.Store, payload: Envelope): (r: Result<Handled, JsError>)
    ensures Store.Valid(store) ==> r.Success?
    ensures r.Success? ==>
      && r.value.store == store - {ToPropertyKey(Defined(payload.data))}
      && r.value.reply.channel == payload.response
      && r.value.relayed == []
    ensures var k := ToPropertyKey(Defined(payload.data));
      k in store && WellFormed(store[k]) ==> r.Success? && r.value.reply.data == Defined(Store.ReadBack(store[k]))
    ensures var k := ToPropertyKey(Defined(payload.data));
      k !in store ==> r.Success? && r.value.reply.data == Defined(EmptyObject)
  {
    var data :- Store.Get(store, Defined(payload.data));
    var s := Store.Delete(store, Defined(payload.data));
    Success(Handled(s, Awknowledge(payload, Defined(data)), []))
  }

  /** `BrowserWindow.fromId(id)`: the id of the live window with that id, if any. */
  function FromId(windows: set<nat>, id: JsValue): (w: Option<nat>)
    ensures w.Some? <==> id.Defined? && id.value.JNumber? && id.value.n >= 0 && id.value.n as nat in windows
    ensures w.Some? ==> id == Defined(JNumber(w.value))
  {
    if id.Defined? && id.value.JNumber? && id.value.n >= 0 && id.value.n as nat in windows then Some(id.value.n as nat)
    else None
  }

  /**
    `bridge(event, payload)`: emits `{channel, message}` on the window
    `payload.data.id` and acknowledges; a window that does not exist throws.
   */
  function HandleBridge(store: Store.Store, windows: set<nat>, payload: Envelope): (r: Result<Handled, JsError>)
    ensures r.Success? <==> payload.data != JNull && FromId(windows, Field(payload.data, "id")).Some?
    ensures r.Failure? ==> r.error == TypeError
    ensures r.Success? ==>
      r.value == Handled(store, Reply(payload.response, Undefined),
                         [WindowEvent(FromId(windows, Field(payload.data, "id")).value, ChannelBrowserWindowMessage,
                                      Field(payload.data, "channel"), Field(payload.data, "message"))])
  {
    var data := Defined(payload.data);
    var id :- GetProperty(data, "id");
    match FromId(windows, id)
    case None => Failure(TypeError)
    case Some(w) =>
      var channel := GetProperty(data, "channel").value;
      var message := GetProperty(data, "message").value;
      Success(Handled(store, Awknowledge(payload, Undefined),
                      [WindowEvent(w, ChannelBrowserWindowMessage, channel, message)]))
  }

  function RunHandler(h: MainHandler, store: Store.Store, windows: set<nat>, payload: Envelope): Result<Handled, JsError> {
    match h
    case SetData => HandleSetData(store, payload)
    case GetData => HandleGetData(store, payload)
    case Bridge => HandleBridge(store, windows, payload)
  }

  /** The combined effect of the handlers an emit ran. */
  datatype Outcome = Outcome(store: Store.Store, replies: seq<Reply>, relayed: seq<WindowEvent>)

  /** Runs the handlers in order on one request; a handler that throws ends the emit. */
  function RunHandlers(hs: seq<MainHandler>, store: Store.Store, windows: set<nat>, payload: Envelope): (r: Result<Outcome, JsError>)
    ensures r.Success? ==> |r.value.replies| == |hs|
    decreases |hs|
  {
    if |hs| == 0 then Success(Outcome(store, [], []))
    else
      match RunHandler(hs[0], store, windows, payload)
      case Failure(e) => Failure(e)
      case Success(first) =>
        match RunHandlers(hs[1..], first.store, windows, payload)
        case Failure(e) => Failure(e)
        case Success(rest) => Success(Outcome(rest.store, [first.reply] + rest.replies, first.relayed + rest.relayed))
  }

  /** `ipcMain` receiving one message: every listener of its channel handles it. */
  datatype Delivered = Delivered(main: MainState, replies: seq<Reply>, relayed: seq<WindowEvent>)

  function Deliver(m: MainState, windows: set<nat>, msg: Message): (r: Result<Delivered, JsError>)
    ensures r.Success? ==> r.value.main.setupFlag == m.setupFlag
  {
    var emitted := Emit(m.ipcMain, msg.channel);
    var o :- RunHandlers(emitted.fired, m.store, windows, msg.payload);
    Success(Delivered(MainState(o.store, emitted.registry, m.setupFlag), o.replies, o.relayed))
  }

  /** A channel with exactly one persistent listener hands each request to that handler alone. */
  lemma DeliverToSoleHandler(m: MainState, windows: set<nat>, msg: Message, h: MainHandler)
    requires ListenersOf(m.ipcMain, msg.channel) == [Listener(h, false)]
    ensures RunHandler(h, m.store, windows, msg.payload).Failure? ==> Deliver(m, windows, msg).Failure?
    ensures var x := RunHandler(h, m.store, windows, msg.payload);
      x.Success? ==>
        Deliver(m, windows, msg) == Success(Delivered(m.(store := x.value.store), [x.value.reply], x.value.relayed))
  {
    var l := [Listener(h, false)];
    assert Handlers(l) == [h];
    assert l[..0] == [];
    assert Persistent(l) == l;
    assert msg.channel in m.ipcMain && m.ipcMain[msg.channel] == l;
    assert Emit(m.ipcMain, msg.channel).registry == m.ipcMain;
    var x := RunHandler(h, m.store, windows, msg.payload);
    if x.Success? {
      assert [h][0] == h && [h][1..] == [];
      assert [x.value.reply] + [] == [x.value.reply];
      assert RunHandlers([], x.value.store, windows, msg.payload) == Success(Outcome(x.value.store, [], []));
      assert x.value.relayed + [] == x.value.relayed;
      assert RunHandlers([h], m.store, windows, msg.payload) ==
        Success(Outcome(x.value.store, [x.value.reply], x.value.relayed));
    }
  }

  /**
    `setup()`: when the environment flag is unset, sets it and attaches the
    three handlers to their channels; otherwise does nothing.
   */
  function Setup(m: MainState): (r: MainState)
    ensures r.setupFlag && r.store == m.store
    ensures m.setupFlag ==> r == m
  {
    if m.setupFlag then m
    else
      var r1 := SafelyAttach(m.ipcMain, IpcChannelDataSet, SetData);
      var r2 := SafelyAttach(r1, IpcChannelDataGet, GetData);
      var r3 := SafelyAttach(r2, IpcChannelMessageBridge, Bridge);
      MainState(m.store, r3, true)
  }

  /** Calling `setup` again changes nothing. */
  lemma SetupIdempotent(m: MainState)
    ensures Setup(Setup(m)) == Setup(m)
  {
  }

  /** The handler `setup` puts on each of its channels. */
  function HandlerOf(channel: string): Option<MainHandler> {
    if channel == IpcChannelDataSet then Some(SetData)
    else if channel == IpcChannelDataGet then Some(GetData)
    else if channel == IpcChannelMessageBridge then Some(Bridge)
    else None
  }

  /**
    After the first `setup`, each of the three channels carries its handler
    exactly once (when it carried it at most once before), and no other
    event's listeners change.
   */
  lemma SetupAttachesOnce(m: MainState, channel: string)
    requires !m.setupFlag
    requires HandlerOf(channel).Some? ==> Count(ListenersOf(m.ipcMain, channel), HandlerOf(channel).value) <= 1
    ensures HandlerOf(channel).Some? ==> Count(ListenersOf(Setup(m).ipcMain, channel), HandlerOf(channel).value) == 1
    ensures HandlerOf(channel).None? ==> ListenersOf(Setup(m).ipcMain, channel) == ListenersOf(m.ipcMain, channel)
  {
    ChannelsDistinct();
    var r1 := SafelyAttach(m.ipcMain, IpcChannelDataSet, SetData);
    var r2 := SafelyAttach(r1, IpcChannelDataGet, GetData);
    if channel == IpcChannelDataSet {
      SafelyAttachCount(m.ipcMain, channel, SetData);
      SafelyAttachOtherEvents(r1, IpcChannelDataGet, GetData, channel);
      SafelyAttachOtherEvents(r2, IpcChannelMessageBridge, Bridge, channel);
    } else if channel == IpcChannelDataGet {
      SafelyAttachOtherEvents(m.ipcMain, IpcChannelDataSet, SetData, channel);
      SafelyAttachCount(r1, channel, GetData);
      SafelyAttachOtherEvents(r2, IpcChannelMessageBridge, Bridge, channel);
    } else if channel == IpcChannelMessageBridge {
      SafelyAttachOtherEvents(m.ipcMain, IpcChannelDataSet, SetData, channel);
      SafelyAttachOtherEvents(r1, IpcChannelDataGet, GetData, channel);
      SafelyAttachCount(r2, channel, Bridge);
    } else {
      SafelyAttachOtherEvents(m.ipcMain, IpcChannelDataSet, SetData, channel);
      SafelyAttachOtherEvents(r1, IpcChannelDataGet, GetData, channel);
      SafelyAttachOtherEvents(r2, IpcChannelMessageBridge, Bridge, channel);
    }
  }

  /** A main process that starts with no listeners has exactly one listener per channel after `setup`. */
  lemma SetupFresh(store: Store.Store, channel: string)
    requires HandlerOf(channel).Some?
    ensures ListenersOf(Setup(MainState(store, map[], false)).ipcMain, channel) == [Listener(HandlerOf(channel).value, false)]
  {
    ChannelsDistinct();
  }

  // ----- Renderer processes -----

  /** What a renderer runs when one of its listeners fires. */
  datatype RendererHandler =
      /** The continuation of `open`'s data hand-off: `modalWindow.loadURL(...)`. */
    | LoadContent(window: nat)
      /** The settlement of a request's promise with the reply's data. */
    | Settle
      /** `open`'s listener on the modal window: re-emits `message` under `channel` on the returned emitter. */
    | RelayToEmitter

  /** A value a window option can take: JSON, or the `BrowserWindow` given as parent. */
  datatype OptionValue = Plain(json: Json) | ParentWindow(id: nat)

  /** Window options, as an ordered property list. */
  type Options = seq<Prop<OptionValue>>

  /**
    `Object.assign({}, options, {parent: currentWindow, show: false})`.
    Absent options (`undefined` or `null`) are skipped, as `Object.assign` does.
   */
  function MergeOptions(current: Window, options: Option<Options>): (r: Options)
    ensures Lookup(r, "parent") == Some(ParentWindow(current.id))
    ensures Lookup(r, "show") == Some(Plain(JBool(false)))
  {
    var given := match options case Some(o) => o case None => [];
    var forced := [Prop("parent", ParentWindow(current.id)), Prop("show", Plain(JBool(false)))];
    assert DistinctKeys(forced);
    assert forced[0].key == "parent" && forced[1].key == "show";
    AssignLookup(Assign([], given), forced, "parent");
    AssignLookup(Assign([], given), forced, "show");
    Assign(Assign([], given), forced)
  }

  /** Every caller option other than `parent` and `show` passes through unchanged. */
  lemma MergeOptionsPassesOthers(current: Window, options: Options, k: string)
    requires DistinctKeys(options)
    requires k != "parent" && k != "show"
    ensures Lookup(MergeOptions(current, Some(options)), k) == Lookup(options, k)
    ensures DistinctKeys(MergeOptions(current, Some(options)))
  {
    var forced := [Prop("parent", ParentWindow(current.id)), Prop("show", Plain(JBool(false)))];
    assert DistinctKeys(forced);
    assert !HasKey(forced, k);
    AssignLookup(Assign([], options), forced, k);
    AssignLookup([], options, k);
    AssignDistinct([], options);
    AssignDistinct(Assign([], options), forced);
  }

  /** The window `new BrowserWindow(options)` creates, given the id it receives. */
  function CreateWindow(id: nat, options: Options): (w: Window)
    ensures w.id == id
  {
    var parent: Option<OptionValue> := Lookup(options, "parent");
    if parent.Some? && parent.value.ParentWindow? then Window(id, Some(parent.value.id)) else Window(id, None)
  }

  /**
    `isChildBrowserWindow` tells windows apart as its documented example does:
    a window created with a `parent` option is a child of that parent, and a
    window created without one is not a child.
   */
  lemma CreatedWindowIsChild(id: nat, options: Options, parent: Window)
    ensures Lookup(options, "parent") == Some(ParentWindow(parent.id)) ==>
      IsChildBrowserWindow(CreateWindow(id, options)) && CreateWindow(id, options).parent == Some(parent.id)
    ensures Lookup(options, "parent").None? ==> !IsChildBrowserWindow(CreateWindow(id, options))
  {
  }

  /** An opener renderer: its window and `ipcRenderer`'s listeners. */
  datatype Opener = Opener(window: Window, setupFlag: bool, ipcRenderer: Registry<RendererHandler>)

  /**
    The effect of `open`: the new window, the options it was created with,
    the listeners on it, the opener's new state, and the data-set request.
   */
  datatype Opened = Opened(
    modal: Window,
    options: Options,
    modalListeners: Registry<RendererHandler>,
    opener: Opener,
    request: Message)

  /**
    `open(html, options, data)`. `newId` is the id the host gives the new
    window and `token` the random bytes of the request's response channel.
   */
  function Open(o: Opener, options: Option<Options>, data: JsValue, newId: nat, token: Token): (r: Result<Opened, JsError>)
    ensures !o.setupFlag <==> r.Failure?
    ensures r.Failure? ==> r.error == Error(SetupRequired)
    ensures r.Success? ==> r.value.modal == Window(newId, Some(o.window.id))
    ensures r.Success? ==> r.value.opener.window == o.window
  {
    if !o.setupFlag then Failure(Error(SetupRequired))
    else
      var opts := MergeOptions(o.window, options);
      var modal := CreateWindow(newId, opts);
      var listeners := On(map[], ChannelBrowserWindowMessage, RelayToEmitter);
      var payload := if data.Undefined? then EmptyObject else data.value;
      var sent := Send(o.ipcRenderer, IpcChannelDataSet,
                       JObject([Prop("id", JNumber(newId)), Prop("data", payload)]), token, LoadContent(newId));
      Success(Opened(modal, opts, listeners, o.(ipcRenderer := sent.registry), sent.message))
  }

  /** The response channel of the request `open` sends with `token`. */
  function OpenResponseChannel(token: Token): string {
    GenerateRandomChannel(ResponsePrefix(IpcChannelDataSet), token)
  }

  /**
    What `open` sends and awaits: `{id, data}` with `data` defaulting to
    `{}`, on the data-set channel; the only new listener is the one that
    loads the content, on the awaited response channel, so content is loaded
    only once the main process has acknowledged the data.
   */
  lemma OpenHandsOff(o: Opener, options: Option<Options>, data: JsValue, newId: nat, token: Token)
    requires o.setupFlag
    ensures var r := Open(o, options, data, newId, token).value;
      var rc := OpenResponseChannel(token);
      && r.request == Message(IpcChannelDataSet,
           Envelope(JObject([Prop("id", JNumber(newId)),
                             Prop("data", if data.Undefined? then EmptyObject else data.value)]), rc))
      && ListenersOf(r.opener.ipcRenderer, rc) == ListenersOf(o.ipcRenderer, rc) + [Listener(LoadContent(newId), true)]
      && (forall e | e != rc :: ListenersOf(r.opener.ipcRenderer, e) == ListenersOf(o.ipcRenderer, e))
  {
  }

  /** The window `open` creates is a child window, whatever options the caller passes. */
  lemma OpenCreatesChild(o: Opener, options: Option<Options>, data: JsValue, newId: nat, token: Token)
    requires o.setupFlag
    ensures IsChildBrowserWindow(Open(o, options, data, newId, token).value.modal)
    ensures var r := Open(o, options, data, newId, token).value;
      Lookup(r.options, "show") == Some(Plain(JBool(false))) && r.modal == CreateWindow(newId, r.options)
  {
  }

  /** An event emitted by the emitter `open` returns. */
  datatype EmitterEvent = EmitterEvent(channel: JsValue, message: JsValue)

  /** The emitter events caused by one window event reaching the listeners `open` put on the modal. */
  function ReceiveWindowEvent(listeners: Registry<RendererHandler>, ev: WindowEvent): (r: seq<EmitterEvent>)
    ensures |r| <= |ListenersOf(listeners, ev.name)|
  {
    Relays(Emit(listeners, ev.name).fired, ev)
  }

  function Relays(hs: seq<RendererHandler>, ev: WindowEvent): (r: seq<EmitterEvent>)
    ensures |r| <= |hs|
  {
    if |hs| == 0 then []
    else Relays(hs[..|hs| - 1], ev) + if hs[|hs| - 1] == RelayToEmitter then [EmitterEvent(ev.channel, ev.message)] else []
  }

  // ----- The modal window's renderer -----

  /** A promise returned by a request; `NoPromise` is the memo cache's initial `null`. */
  datatype Promise = NoPromise | Pending(responseChannel: string)

  /** ToBoolean of a promise slot: any promise object is truthy. */
  predicate PromiseTruthy(p: Promise) {
    p.Pending?
  }

  /** The promise the data request sent with `token` returns. */
  function DataRequest(token: Token): Promise {
    Pending(GenerateRandomChannel(ResponsePrefix(IpcChannelDataGet), token))
  }

  /**
    A modal's renderer: its window, the memo slot of `getData` (empty until
    the first call) and `ipcRenderer`'s listeners.
   */
  datatype Child = Child(window: Window, memo: Option<Promise>, ipcRenderer: Registry<RendererHandler>)

  function NewChild(w: Window): Child {
    Child(w, None, map[])
  }

  /** One call of the child's `getData`: its new state, the promise returned, the messages sent. */
  datatype ChildCall = ChildCall(child: Child, promise: Promise, sent: seq<Message>)

  /**
    `getData()` in a modal: the memoized request for the window's data.
    `token` is the randomness the request would draw if it is sent. The
    memo is the corrected one; `ChildGetDataMemoizes` shows the memoizer as
    written behaves the same on this function.
   */
  function ChildGetData(c: Child, token: Token): (r: ChildCall)
    ensures c.memo.None? ==>
      && r.promise == DataRequest(token)
      && r.sent == [Message(IpcChannelDataGet, Envelope(JNumber(c.window.id), r.promise.responseChannel))]
      && ListenersOf(r.child.ipcRenderer, r.promise.responseChannel) ==
           ListenersOf(c.ipcRenderer, r.promise.responseChannel) + [Listener(Settle, true)]
    ensures c.memo.Some? ==> r == ChildCall(c, c.memo.value, [])
    ensures r.child.memo == Some(r.promise) && r.child.window == c.window
  {
    var step := MemoizeOnceCall(c.memo, DataRequest, token);
    if step.invoked then
      var s := Send(c.ipcRenderer, IpcChannelDataGet, JNumber(c.window.id), token, Settle);
      ChildCall(Child(c.window, step.state, s.registry), step.result, [s.message])
    else
      ChildCall(c.(memo := step.state), step.result, [])
  }

  /**
    However often a modal calls `getData`, it sends one request and every
    call returns the promise of that request.
   */
  lemma ChildGetDataOnce(w: Window, t1: Token, t2: Token)
    ensures var first := ChildGetData(NewChild(w), t1);
      var second := ChildGetData(first.child, t2);
      && |first.sent| == 1
      && second.promise == first.promise
      && second.sent == []
      && second.child == first.child
  {
  }

  /** The calls of the memoized `getData` agree with a memoizer that caches its first result. */
  lemma ChildGetDataMemoizes(calls: seq<Token>)
    ensures BlindMemoizeTrace(Memo(NoPromise), DataRequest, PromiseTruthy, calls).results ==
            MemoizeOnceTrace(None, DataRequest, calls).results
    ensures |calls| > 0 ==> BlindMemoizeTrace(Memo(NoPromise), DataRequest, PromiseTruthy, calls).invocations == 1
  {
    MemoizersAgreeOnTruthyResults(NoPromise, DataRequest, PromiseTruthy, calls);
    if |calls| > 0 {
      MemoizeOnceKeepsFirstResult(DataRequest, calls);
    }
  }

  /** `emit(channel, message)` in a modal: sends `{id, channel, message}` on the bridge channel. */
  function ChildEmit(c: Child, channel: Json, message: Json, token: Token): (r: (Child, Message))
    ensures r.1.channel == IpcChannelMessageBridge
    ensures r.1.payload.data == JObject([Prop("id", JNumber(c.window.id)), Prop("channel", channel), Prop("message", message)])
    ensures r.0.window == c.window && r.0.memo == c.memo
  {
    var s := Send(c.ipcRenderer, IpcChannelMessageBridge,
                  JObject([Prop("id", JNumber(c.window.id)), Prop("channel", channel), Prop("message", message)]),
                  token, Settle);
    (c.(ipcRenderer := s.registry), s.message)
  }

  // ----- What each process sees -----

  /** The names the module exports in a process of the given role. */
  function Exports(role: Role): (names: set<string>)
    ensures role.MainProcess? ==> names == {"setup"}
  {
    match role
    case MainProcess => {"setup"}
    case RendererProcess(w) =>
      if IsChildBrowserWindow(w) then {"show", "hide", "isVisible", "getData", "emit"} else {"open"}
  }

  /**
    `open` is exported exactly in the renderer of a window without a parent,
    `getData` and `emit` exactly in a modal's renderer; so a modal cannot
    open modals of its own.
   */
  lemma ExportsByRole(role: Role)
    ensures "open" in Exports(role) <==> IsRenderer(role) && !IsChildBrowserWindow(GetCurrentBrowserWindow(role).value)
    ensures "getData" in Exports(role) <==> IsRenderer(role) && IsChildBrowserWindow(GetCurrentBrowserWindow(role).value)
    ensures "emit" in Exports(role) <==> "getData" in Exports(role)
    ensures "setup" in Exports(role) <==> !IsRenderer(role)
  {
  }

  /** The renderer of a window `open` created exports the modal's functions and not `open`. */
  lemma OpenedWindowIsModal(o: Opener, options: Option<Options>, data: JsValue, newId: nat, token: Token)
    requires o.setupFlag
    ensures var w := Open(o, options, data, newId, token).value.modal;
      "getData" in Exports(RendererProcess(w)) && "open" !in Exports(RendererProcess(w))
  {
  }
}
