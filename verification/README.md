# electron-modal, modelled in Dafny

electron-modal opens modal windows from an Electron renderer. It passes data
to each modal through the main process, which keeps that data until the
modal reads it. This project models the hand-off protocol as pure step
functions over immutable state. It proves the properties listed under
"Model" below. "Findings" records the one documented promise the code
breaks, and "Left out" what is not proved.

The model has three parts:

- **The store** (`Store`). The main process keeps a map from window id to a
  JSON value. Every write and read goes through a deep clone,
  `JSON.parse(JSON.stringify(x))`.
  - That clone is modelled for every value of the `Json` datatype: `JsonText`
    writes and parses its JSON text, and `Json` gives the JavaScript
    semantics the library relies on (truthiness, property-key coercion,
    property reads).
  - The round trip is proved. So the clone is the identity on every
    well-formed `Json` value.
- **Request/response over IPC** (`Listeners`, `Events`, `Hex`).
  - `Listeners` models an EventEmitter's listener lists:
    - `removeListener` removes the most recently added matching listener;
    - `on` and `once` append;
    - `emit` runs the listeners in order and drops the `once` ones.
  - `Events` models the rest:
    - `send` awaits a reply on a fresh response channel named by 16 random
      bytes in lowercase hex;
    - `awknowledge` answers on that channel.
- **The library** (`Utils`, `Modal`, `Protocol`).
  - `Utils` models the window predicates and the blind memoizer.
  - `Modal` models:
    - the main-process handlers `setData`, `getData` and `bridge`, and `setup`;
    - the opener's `open`;
    - a modal's `getData` and `emit`;
    - which functions each kind of process exports.
  - `Protocol` chains these steps end to end:
    - open, then store, then acknowledge, then load;
    - the modal reads its data once;
    - a modal's `emit` reaches the opener.

Parameters stand in for everything the host provides:

- the process role and the current window;
- the ids new windows receive;
- the set of live windows `BrowserWindow.fromId` can find;
- the random bytes of each response channel;
- the environment's setup flag.

Each IPC delivery is one atomic step.

`store.set(id)` with no data throws: `JSON.stringify(undefined)` is
`undefined`, and `JSON.parse(undefined)` at lib/store.js:42 raises a
`SyntaxError`. `Store.Set` and `Modal.HandleSetData` model that throw.

## Model

| member | source | states |
|---|---|---|
| Props.AssignLookup | lib/modal.js:118-130 | After `Object.assign(target, source)`, every key of `source` has the source's value and every other key keeps the target's value |
| Props.AssignKeys | lib/modal.js:118-130 | `Object.assign` adds exactly the keys of the source, no others |
| Props.AssignDistinct | lib/modal.js:118-130 | `Object.assign` onto an object yields an object: keys stay distinct |
| Decimal.DecimalRoundTrip | lib/store.js:42 | The decimal text of a natural number reads back as that number, which the number case of the JSON round trip needs |
| Decimal.IntToDecimalInjective | lib/store.js:60 | Distinct integers have distinct decimal texts |
| Hex.Encode | lib/events.js:61 | `Buffer.toString('hex')` produces two lowercase hex digits per byte |
| Hex.DecodeEncode | lib/events.js:61 | Hex decoding inverts the encoding, so the token can be recovered from a channel name |
| Hex.EncodeInjective | lib/events.js:61 | Distinct byte strings have distinct hex texts |
| Json.GetProperty | lib/modal.js:179 | Reading a property of `undefined` or `null` throws a TypeError; on an object it yields the property's value or `undefined` |
| Json.NumberKeysInjective | lib/store.js:60 | Distinct numeric ids never name the same store entry |
| Json.NumberAndNumeralAlias | lib/store.js:60 | A numeric id and the string of its digits name the same store entry, because property keys are strings |
| JsonText.Parse | lib/store.js:42 | Whatever `JSON.parse` returns is a JavaScript value: every object has distinct keys |
| JsonText.StringRoundTrip | lib/store.js:42 | Parsing the escaped text of any string, control characters included, yields the string back |
| JsonText.NumberRoundTrip | lib/store.js:42 | Parsing an integer's text yields the integer, whatever delimiter follows |
| JsonText.ValueRoundTrip | lib/store.js:42 | Parsing `JSON.stringify(j)` followed by a delimiter yields `j` and stops at the delimiter, for every well-formed `j` |
| JsonText.NumberOutsideModel | lib/store.js:42 | Well-formed numbers with a fraction or an exponent (`1.5`, `-2e+7`) are reported as outside the model, not as a syntax error |
| JsonText.MalformedNumberIsSyntaxError | lib/store.js:42 | A fraction or exponent with no digits (`1.`, `1e`, `[1.]`) is a `SyntaxError`, as `JSON.parse` throws |
| JsonText.RoundTrip | lib/store.js:39-44 | `JSON.parse(JSON.stringify(j))` is `j` for every value with distinct keys in its objects |
| Store.DeepClone | lib/store.js:39-44 | The clone of `undefined` throws a SyntaxError; the clone of any JSON value is that value, and every clone is well formed |
| Store.Set | lib/store.js:59-61 | `set` stores the data under the id's property key and leaves every other key and value as it was; undefined data throws |
| Store.Get | lib/store.js:74-76 | `get` yields `{}` for a missing or falsy entry and the stored value otherwise, and succeeds on every valid store |
| Store.Delete | lib/store.js:88-90 | `delete` removes the id's key and keeps every other entry |
| Store.GetEmpty | lib/store.js:74-76 | An id never set reads as `{}` |
| Store.SetThenGet | lib/store.js:59-76 | `set(id, v)` followed by `get(id)` yields `v`, or `{}` when `v` is falsy |
| Store.SetThenGetStructured | lib/store.js:59-76 | Objects and arrays, `{}` included, always read back exactly as stored |
| Store.SetOverwrites | lib/store.js:60 | A later `set` of the same id replaces the earlier value entirely |
| Store.DeleteThenGet | lib/store.js:88-90 | After `delete(id)`, `get(id)` yields `{}` |
| Store.DeleteAbsent | lib/store.js:88-90 | Deleting an id that has no entry leaves the store unchanged |
| Store.OtherIdsUnaffected | lib/store.js:59-90 | `set` and `delete` on one id do not change what `get` returns for any other id |
| Listeners.Emit | lib/events.js:86-88 | Emitting an event runs its listeners' handlers in order, keeps only the persistent ones, and leaves other events alone |
| Listeners.RemoveLastCount | lib/events.js:44 | `removeListener` removes one registration of the handler, if there is one, and no other handler's |
| Listeners.SafelyAttach | lib/events.js:43-46 | After `safelyAttachEventListener`, the handler is the newest listener of the event, and a persistent (`on`, not `once`) one |
| Listeners.SafelyAttachCount | lib/events.js:43-46 | After `safelyAttachEventListener`, the handler is attached once when it was attached at most once before |
| Listeners.SafelyAttachKeepsOthers | lib/events.js:43-46 | Attaching keeps every other listener of the event, in order, and puts the handler last |
| Listeners.SafelyAttachOtherEvents | lib/events.js:44-45 | Attaching to one event leaves the listeners of every other event unchanged |
| Listeners.SafelyAttachIdempotent | lib/events.js:43-46 | A second `safelyAttachEventListener` with the same arguments changes nothing |
| Listeners.SafelyAttachRepeated | lib/events.js:43-46 | Any number of attachments leave exactly one registration |
| Listeners.OnceFiresOnce | lib/events.js:86-88 | A `once` listener runs on the first emit of its event and never again |
| Events.GenerateRandomChannel | lib/events.js:59-63 | A channel is the prefix, a dash and 32 lowercase hex digits; it is never just the prefix and the dash |
| Events.ChannelInjective | lib/events.js:61-62 | Distinct tokens give distinct channels for the same prefix |
| Events.ResponseChannelShape | lib/events.js:83 | The response channel of a request on `c` starts with `c-response-` |
| Events.Send | lib/events.js:82-95 | `send` registers one `once` listener on the response channel, touches no other event, and sends `{data, response}` on the request channel |
| Events.AcknowledgementResolvesOnce | lib/events.js:82-114 | `awknowledge(event, payload, data)` answers a `send` request on the response channel its payload names: the reply arrives on the awaited channel with the acknowledged data, settles the request once, and a second reply settles nothing |
| Utils.GetCurrentBrowserWindow | lib/utils.js:68-70 | There is no current window exactly when the process is not a renderer |
| Utils.BlindMemoizeKeepsTruthyResult | lib/utils.js:128-137 | When the first result is truthy, every call returns it, whatever the arguments, and `func` runs once |
| Utils.BlindMemoizeRecomputesFalsy | lib/utils.js:131-133 | After a falsy result, the next call runs `func` again with the new arguments |
| Utils.MemoizeOnceKeepsFirstResult | lib/utils.js:116-118 | The corrected memoizer returns the first result on every call and runs `func` exactly once |
| Utils.MemoizersAgreeOnTruthyResults | lib/utils.js:128-137 | For a function whose results are always truthy, the memoizer as written and the corrected one agree call for call |
| Utils.BlindMemoizeForgetsFalsyFirstResult | tests/shared/utils.spec.js:59-84 | With the test's function, a first argument of 0 returns `''`, and the next call recomputes and returns a different value |
| Modal.ChannelsDistinct | lib/modal.js:31-45 | The data-get, data-set and bridge channels are pairwise distinct |
| Modal.HandleSetData | lib/modal.js:178-181 | `setData` stores `payload.data.data` under `payload.data.id`, changes no other entry and acknowledges with no data; a null request throws a TypeError and absent data a SyntaxError |
| Modal.HandleGetData | lib/modal.js:197-201 | `getData` replies with the stored value (`{}` if missing or falsy) on the request's response channel and removes exactly that entry |
| Modal.HandleBridge | lib/modal.js:211-218 | `bridge` emits `{channel, message}` on the window `payload.data.id` and acknowledges, leaving the store alone; a window that does not exist throws |
| Modal.DeliverToSoleHandler | lib/modal.js:228-230 | A channel with exactly one persistent listener gives each request to that handler alone, and a throwing handler fails the delivery |
| Modal.Setup | lib/modal.js:220-231 | `setup` sets the flag, keeps the store, and does nothing when the flag was already set |
| Modal.SetupIdempotent | lib/modal.js:221-223 | Running `setup` twice is the same as running it once |
| Modal.SetupAttachesOnce | lib/modal.js:226-230 | After the first `setup`, each of the three channels carries its handler exactly once, and every other event's listeners are unchanged |
| Modal.SetupFresh | lib/modal.js:228-230 | In a main process with no listeners, each channel's listener list after `setup` is exactly its one handler |
| Modal.MergeOptions | lib/modal.js:118-130 | The merged options always have `parent` set to the current window and `show` set to `false` |
| Modal.MergeOptionsPassesOthers | lib/modal.js:118-130 | Every caller option other than `parent` and `show` passes through unchanged, and the result is an object with distinct keys |
| Modal.Open | lib/modal.js:106-166 | `open` throws the setup error exactly when the flag is unset; otherwise it creates a window whose parent is the current window |
| Modal.OpenHandsOff | lib/modal.js:159-165 | `open` sends `{id, data}` on the data-set channel, with data defaulting to `{}`; its only new listener loads the content when the acknowledgement arrives on the awaited channel |
| Modal.OpenCreatesChild | lib/modal.js:118-130 | The new window is a child window and starts hidden, whatever options the caller passes |
| Modal.CreatedWindowIsChild | lib/utils.js:96-108 | `isChildBrowserWindow` holds for a window created with a `parent` option, whose parent is that window, and fails for one created without |
| Modal.ChildGetData | lib/modal.js:94-96 | A modal's first `getData` sends one data-get request for its own id and awaits it once; later calls return the cached promise and change nothing |
| Modal.ChildGetDataOnce | lib/modal.js:92-96 | Two calls of a modal's `getData` send one request and return the same promise |
| Modal.ChildGetDataMemoizes | lib/modal.js:94-96 | On `getData`'s request function, the memoizer as written returns what the corrected one does and sends one request |
| Modal.ChildEmit | lib/modal.js:98-104 | A modal's `emit` sends `{id, channel, message}` with its own id on the bridge channel |
| Modal.ExportsByRole | lib/modal.js:72-85 | `open` is exported exactly in a non-modal renderer, `getData` and `emit` exactly in a modal's renderer, and `setup` exactly in the main process |
| Modal.OpenedWindowIsModal | lib/modal.js:82-85 | The renderer of a window `open` created gets the modal's functions and cannot open modals itself |
| Protocol.SetupMakesReady | lib/modal.js:220-231 | `setup` on a fresh main process leaves each channel with its own handler only |
| Protocol.DeliverSet | lib/modal.js:178-181 | A data-set request stores the data under the id's key and is acknowledged with no data |
| Protocol.DeliverGet | lib/modal.js:197-201 | A data-get request is answered with the entry (`{}` if missing or falsy) and the entry is evicted |
| Protocol.GetAgain | lib/modal.js:197-201 | A second data-get request for the same id is answered with `{}` |
| Protocol.SetGetGet | lib/modal.js:178-201 | Setting `{id, data: v}` and then getting `id` twice yields `v` (or `{}` for a falsy `v`) and then `{}` |
| Protocol.HandOffBeforeLoad | lib/modal.js:159-165 | The data-set acknowledgement is what loads the modal's content, and when it does the store holds the data under the modal's id |
| Protocol.ModalReadsItsData | lib/modal.js:92-96 | A modal's first `getData` is answered with the data its opener passed, and this evicts the entry; later calls return the same promise without sending anything |
| Protocol.DeliverBridge | lib/modal.js:211-218 | A bridge request for a live window is relayed to that window as `{channel, message}` and acknowledged |
| Protocol.OpenedWindowRelays | lib/modal.js:155-157 | The listener `open` puts on the modal turns each relayed message into one emitter event carrying that message |
| Protocol.EmitReachesOpener | lib/modal.js:98-104 | A modal's `emit(channel, message)` comes out of the opener's emitter as `message` under `channel` |

## Left out

- Electron window mechanics are not modelled. This covers `BrowserWindow` construction, `show`/`hide`/`isVisible`, `loadURL`, `remote` and the `closed`/`show`/`hide` relays (lib/modal.js:132-151). A window is an id with an optional parent, and loading content is the `LoadContent` continuation. These are host-runtime calls with no logic of the library's own.
- Role detection (lib/utils.js:35-37) is a parameter (`Role`), because it depends on the host.
- `getBrowserWindowId` (lib/utils.js:84-86) is a field read (`Window.id`).
- `getFileURL` (lib/utils.js:50-56) is left out. It wraps Node's `url.format`, whose escaping rules are not part of this model.
- `crypto.randomBytes` (lib/events.js:61) is left out. Each request's 16 bytes are an input (`Token`), and no claim is made about the probability of collisions.
- Promises, the event loop and interleavings of several windows are left out. Each delivery is an atomic step, and the end-to-end lemmas follow one modal's sequence.
- JSON values outside integers are out of scope. This covers floating-point numbers, exponents, `-0`, `NaN`, `Infinity` and precision loss on large numbers. Parsing a well-formed number with a fraction or an exponent yields the `Unmodelled` error, and the text after it is not examined. A fraction or exponent without digits (`1.`, `1e`) is a `SyntaxError`, as in `JSON.parse`.
- A `JNumber` stands for a safe integer, one JavaScript holds exactly. Its text, as JSON and as a property key, matches JavaScript's only for magnitudes below 10^21. From 10^21 on, JavaScript writes exponent form (`1e+21`) and the model writes all the digits.
- Surrogate `\u` escapes are out of scope, since strings here are sequences of characters. Their parse also yields `Unmodelled`.
- `JSON.stringify` on functions, `undefined` inside objects, `Date`s and cycles is left out. Payloads are the `Json` datatype.
- Inherited properties such as `toString` and `__proto__` are left out. The store and payload objects are modelled by their own properties only.
- Integer-like keys, which JavaScript objects order first, keep insertion order here.
- `Modal.MergeOptions`: options that are neither an object nor absent are not modelled. `Object.assign` would copy the indexed characters of a string.
- `Modal.FromId`: a string or fractional id is simply not found. The host's `BrowserWindow.fromId` coercion is not modelled.
- The setup flag is a boolean. `process.env` stores it as the string `"true"`, and whether a renderer sees the main process's value depends on when that renderer started.
- `Modal.Exports`: `show`, `hide` and `isVisible` are only listed by name, since they forward to the host window.
- The package name is taken as `electron-modal`. `package.json` is not part of this model.
- There is no lemma that the stored copy ignores later changes to the caller's object (lib/store.js:60). Values are immutable here, so the copy is independent by construction.

## Findings

| source | as written | input that shows it | evidently intended | confidence | as-written member | corrected member |
|---|---|---|---|---|---|---|
| lib/utils.js:131 | `blindMemoize` recomputes whenever the cache is falsy (`!cache`), so a falsy first result is not kept | The memoizer test's function with a first argument of 0 returns `''`. `memoized(15)` then returns fifteen `x`s instead of `''`, so the test at tests/shared/utils.spec.js:59-84 fails whenever `Math.floor(Math.random() * 10)` is 0 | After the first call, always return the first result, whatever it is (lib/utils.js:116-118) | not executed | Utils.BlindMemoizeForgetsFalsyFirstResult | Utils.MemoizeOnceKeepsFirstResult |

The library's own use of the memoizer, the modal's `getData`, caches a
promise, and a promise is always truthy. There, `Modal.ChildGetDataMemoizes`
proves the memoizer as written and the corrected one agree. `Modal.ChildGetData`
uses the corrected one.
