# ExtensionManager of openblock-vm, modelled in Dafny

This project models `ExtensionManager`, the part of the openblock-vm virtual
machine that loads Scratch-style extensions and hardware devices. It covers
four jobs:

- **Service names and the worker handshake.** One counter,
  `nextExtensionWorker`, numbers both the workers and the in-thread
  registrations. The service name of an in-thread registration is
  `extension_<n>_<id>`. A load that is not built in waits in a FIFO queue
  until a worker claims it with `allocateWorker`. The worker then reports
  back with `onWorkerInit`, which settles the promise of the load.
- **Load bookkeeping.** `_loadedExtensions` maps extension ids to service
  names and `_loadedDevice` does the same for devices. `loadExtensionIdSync`
  and `loadDeviceURL` turn unknown ids and duplicates away without changing
  anything, and `loadExtensionURL` does so for duplicates. `loadExtensionURL`
  takes an id that is not built in for a URL: it queues it for a worker.
- **The device switch.** `loadDeviceURL` and `clearDevice` make an ordered
  series of calls on the runtime. They keep at most one device loaded.
  Unselecting the device, or switching to one whose metadata is accepted,
  forgets every loaded extension. When the new device's metadata is rejected,
  the old device and the extensions stay recorded.
- **Metadata preparation.** `_sanitizeID`, `_prepareBlockInfo`,
  `_prepareExtensionInfo`, `_prepareDeviceInfo`, `_prepareMenuInfo` and
  `_getExtensionMenuItems` check ids, fill in defaults, drop bad blocks,
  normalise menus and bind each block to the function it calls.

The files, in the order they build on each other:

- `wrappers.dfy`: `Option` and `Result`.
- `js_values.dfy`: the JavaScript scalars the manager inspects, their
  truthiness, and their conversion to strings, including decimal digits.
- `dispatch.dfy`: the dispatcher's service table. It maps a service name to
  a `Local` provider, given by the names of its methods, or to a `Remote`
  provider that runs in a worker.
- `service_names.dfy`: `extension_<n>_<id>` and why it never repeats.
- `errors.dfy`: the exceptions the code can throw.
- `menus.dfy`: menu normalisation and the menu item generator.
- `sanitizer.dfy`: preparation of blocks, extensions and devices.
- `manager.dfy`: the class `ExtensionManager`.

The manager mutates its state in place, and the model does the same. It is a
`class` whose fields are the counter, the queue, the worker table, the two
load maps and the dispatcher's service table. Each method says how it changes
them. The state-changing calls the manager makes on the runtime and on the
dispatcher are appended, in order, to a ghost `trace`. That is how the order
of the device-switch calls is stated. Queries such as `analysisRealDeviceId`,
`callSync`, `_isRemoteService` and `getEditingTarget` are not recorded.

Promises are explicit values. A worker load returns `Pending(p)`, and the
field `settlements` later records how promise `p` was settled. A synchronous
exception is a `Threw(error)` result. Localisation and the runtime's lookup
of targets are function parameters that the model leaves uninterpreted.

Preparation is modelled as pure functions, because the code works that way:
it copies its input and returns a new object. `_prepareMenuInfo` rewrites the
menus object in a loop, so it is modelled as a method with a loop, proved
against a function.

Where the code behaves unexpectedly, the model follows the code:

- `_prepareDeviceInfo` throws at the first category with a bad id. That one
  bad category rejects the whole device list, not just itself.
- The id check tests the id's *string form* against `/^[a-z0-9]+$/i`. A
  missing or `null` id therefore passes, as "undefined" or "null"
  (`Sanitizer.MissingIdAccepted`).
- `_sanitizeID` replaces only the first `<`, `"` or `&`. Sanitising is
  therefore not idempotent (`Sanitizer.SanitizeIdNotIdempotent`), and
  neither is preparing a block twice.
- `_registerInternalDevice` reads `DEVICE_ID` from the instance. The unoCore
  device class declares it as a static getter, so its instance's property is
  `undefined` and its service name ends in `_undefined`. The model takes the
  instance's property as a field of each device class.

## Model

| member | source | states |
|---|---|---|
| JsValues.NatToString | src/extension-support/extension-manager.js:495 | the decimal text of a counter is a non-empty run of digits, one digit exactly below ten |
| JsValues.NatToStringInjective | src/extension-support/extension-manager.js:495 | distinct counters have distinct decimal texts |
| JsValues.ToString | src/extension-support/extension-manager.js:548 | the string form of a value is empty only for the empty string |
| JsValues.TruthyToStringNonEmpty | src/extension-support/extension-manager.js:717 | a truthy opcode has a non-empty string form, so the sanitised opcode stays truthy |
| ServiceNames.ServiceName | src/extension-support/extension-manager.js:495 | a service name is `extension_`, then the counter's decimal digits, then `_`, then the id |
| ServiceNames.ServiceNameInjective | src/extension-support/extension-manager.js:494-495 | two service names are equal only when their counters and their ids are equal |
| Menus.NormalizeMenu | src/extension-support/extension-manager.js:645-660 | after one step every menu is in general form with truthy `items` and no string `items` left: short lists and names are wrapped, a string `items` is bound to the provider, anything else is kept as it is |
| Menus.NormalizeMenuIdempotent | src/extension-support/extension-manager.js:647-660 | normalising a normalised menu changes nothing |
| Menus.PreparedMenus | src/extension-support/extension-manager.js:639-663 | preparing the menus adds and removes no menu name |
| Menus.PrepareMenuInfo | src/extension-support/extension-manager.js:639-663 | the in-place loop over the menu names ends with every menu normalised against this service's provider (read from the service table by `Dispatch.Lookup`, `undefined` when none is registered), and every menu in general form; `Menus.HasItems` is the truthiness test of `menuInfo.items` |
| Menus.MapItems | src/extension-support/extension-manager.js:681-695 | the item mapping fails exactly when some formatted item is `null`; otherwise it keeps the length, and turns an object into `[text, value]`, a string `s` into `[s, s]` and keeps any other item |
| Menus.GetExtensionMenuItems | src/extension-support/extension-manager.js:672-701 | it succeeds exactly when the provider is local and has the function, the function returns at least one item and no formatted item is `null`; no provider or no such function is a type error; an empty list throws "no items"; a `null` formatted item is a type error, and the only cause of that error; a success holds one entry per item, each converted as the mapping says (`Menus.ToEntry` converts one item; `Menus.MenuTarget` picks the editing target, else the stage) |
| Menus.MenuItemsExample | src/extension-support/extension-manager.js:681-699 | one object item `{text: "x", value: 1}` gives `[["x", 1]]`; no items throws |
| Sanitizer.SanitizeId | src/extension-support/extension-manager.js:547-549 | sanitising keeps the length |
| Sanitizer.SanitizeIdNoSpecial | src/extension-support/extension-manager.js:548 | a string without `<`, `"` or `&` is unchanged |
| Sanitizer.SanitizeIdReplacesFirst | src/extension-support/extension-manager.js:548 | only the first special character becomes `_`; every other character is kept |
| Sanitizer.SanitizeIdNotIdempotent | src/extension-support/extension-manager.js:548 | sanitising `<<` twice gives a different result from sanitising it once |
| Sanitizer.PrepareBlockInfo | src/extension-support/extension-manager.js:710-768 | preparation fails exactly for a block that is neither an event nor a button (`Sanitizer.Unbindable`) and has no opcode or no registered provider; no opcode gives "Missing opcode for block" |
| Sanitizer.PreparedBlockFields | src/extension-support/extension-manager.js:711-762 | the caller's fields win over the defaults COMMAND/false/false/{}, the opcode is sanitised, the text defaults to the opcode (`Sanitizer.Defaulted` builds this block), events and buttons keep their `func`, and other blocks are bound to the function named by `func` or else the opcode (`Sanitizer.FuncName`) |
| Sanitizer.RePrepareBlock | src/extension-support/extension-manager.js:710-734 | preparing a prepared block again succeeds and changes at most the function and the opcode; the opcode too is kept once it has no special character |
| Sanitizer.DefaultedAsRaw | src/extension-support/extension-manager.js:711-718 | filling the defaults of an already prepared block changes at most its opcode and function, and a non-empty string opcode stays truthy |
| Sanitizer.BoundFunction | src/extension-support/extension-manager.js:736-762 | calling the bound function (`Sanitizer.Invoke`) passes the mutation's block info (`Sanitizer.BlockInfoFromArgs`) for dynamic blocks and the prepared block otherwise; the target is fixed at preparation (`Sanitizer.BindTarget`): dispatch for a remote provider, a direct call for a local provider with the function, a no-op for a local provider without it |
| Sanitizer.PrepareEntry | src/extension-support/extension-manager.js:567-584 | `'---'` is kept as a separator, another string is dropped, and a block is kept prepared, or dropped when preparing it throws |
| Sanitizer.PrepareBlocks | src/extension-support/extension-manager.js:567-584 | the prepared block list is no longer than the input list |
| Sanitizer.PrepareBlocksAppend | src/extension-support/extension-manager.js:567-584 | the blocks are prepared one by one, so the survivors keep their relative order |
| Sanitizer.PrepareBlocksCounts | src/extension-support/extension-manager.js:567-584 | exactly the failing entries are dropped, and the separators out equal the `'---'` entries in |
| Sanitizer.PrepareExtensionInfo | src/extension-support/extension-manager.js:559-588 | it throws "Invalid extension id" exactly when the id's string form fails `/^[a-z0-9]+$/i` (`Sanitizer.IsValidId`: non-empty, ASCII letters and digits); otherwise the name defaults to the id, blocks and target types default to empty, the blocks are prepared, the menus are prepared under the same names, and other fields are kept |
| Sanitizer.MissingIdAccepted | src/extension-support/extension-manager.js:561-564 | metadata without an id is accepted, with the name left `undefined` when it is falsy |
| Sanitizer.PrepareDeviceInfo | src/extension-support/extension-manager.js:597-630 | the whole list fails exactly when some category has a bad id; otherwise there is one prepared category per input category, in order, each prepared as an extension |
| Manager.QueuePreservesWorkers | src/extension-support/extension-manager.js:206-212 | queuing a load under the next promise keeps the worker invariant |
| Manager.ClaimPreservesWorkers | src/extension-support/extension-manager.js:437-442 | a new worker claiming the oldest load, or an `undefined` entry on an empty queue, keeps the worker invariant |
| Manager.SettlePreservesWorkers | src/extension-support/extension-manager.js:477-485 | deleting a worker's entry and settling its load keeps the worker invariant |
| Manager.ExtensionManager.constructor | src/extension-support/extension-manager.js:84-135 | the counter is zero, the queue, the worker table and both maps are empty, no promise is issued or settled, and the manager is registered as service "extensions" |
| Manager.ExtensionManager.IsExtensionLoaded | src/extension-support/extension-manager.js:144-146 | true exactly for recorded ids, which are always built-in extensions |
| Manager.ExtensionManager.IsDeviceLoaded | src/extension-support/extension-manager.js:155-157 | true exactly for the recorded device, which is then the only one |
| Manager.ExtensionManager.RegisterService | src/extension-support/extension-manager.js:494-496 | takes the next counter value and registers the provider under a name not taken before |
| Manager.ExtensionManager.RegisterInternalExtension | src/extension-support/extension-manager.js:492-499 | the counter grows by exactly one, the instance is registered under a fresh `extension_<n>_<id>`, then its prepared metadata goes to the runtime, or preparation's error is thrown after registration |
| Manager.ExtensionManager.RegisterInternalDevice | src/extension-support/extension-manager.js:506-513 | the same for a device, with the instance's `DEVICE_ID` in the name and one prepared entry per category |
| Manager.ExtensionManager.LoadBuiltinExtension | src/extension-support/extension-manager.js:177-181 | a fresh built-in load registers the extension, adds exactly the entry id -> service name, and calls `addExtension` |
| Manager.ExtensionManager.LoadExtensionIdSync | src/extension-support/extension-manager.js:164-182 | an unknown or already loaded id changes nothing; a fresh built-in id is registered and recorded |
| Manager.ExtensionManager.LoadExtensionURL | src/extension-support/extension-manager.js:189-212 | a loaded built-in id resolves with no change; a fresh one is loaded in this thread; any other URL joins the end of the queue with a new pending promise, and no service or counter changes |
| Manager.ExtensionManager.AllocateWorker | src/extension-support/extension-manager.js:437-442 | the counter grows by one; the new id claims the oldest queued load and returns its URL; on an empty queue it stores `undefined` and throws |
| Manager.ExtensionManager.OnWorkerInit | src/extension-support/extension-manager.js:477-485 | the worker's entry is deleted; its load, not settled before, is rejected with a truthy `e` and otherwise resolved with the id; an id with no load throws |
| Manager.ExtensionManager.LoadBuiltinDevice | src/extension-support/extension-manager.js:261-280 | disconnect and the device resets come before registration, which comes before the extensions are cleared; when the device's metadata is accepted it is then the only loaded device and no extension is loaded; when preparation throws, the new service stays registered and the old device and extensions stay recorded |
| Manager.ExtensionManager.LoadDeviceURL | src/extension-support/extension-manager.js:246-287 | `null` and a loaded device change nothing; a fresh built-in device is switched to, as `LoadBuiltinDevice` states; `unselectDevice` clears the device; any other id rejects with state unchanged |
| Manager.ExtensionManager.ClearDevice | src/extension-support/extension-manager.js:292-310 | the runtime is reset to no device and an empty pnp id list, both maps are emptied, and DEVICE_ADDED is emitted with no categories |
| Manager.RequestAndClaimTwo | src/extension-support/extension-manager.js:437-442 | two queued loads are claimed by the next two workers in request order |
| Manager.WorkerHandshake | src/extension-support/extension-manager.js:477-485 | request, claim and report settle the load's promise once, by the error or by the worker id, and leave no worker entry behind |
## Left out

- `getDeviceList` and `getDeviceExtensionsList`: HTTP fetches of the device catalogue, which are network I/O.
- `loadDeviceExtension`: it loads scripts through `loadjs` and uses undeclared globals.
- `unloadDeviceExtension`: it only calls `runtime.removeDeviceExtension` and emits `DEVICE_EXTENSION_REMOVED`, runtime state that the model does not hold.
- `unloadAllDeviceExtension` is recorded as a single `UnloadAllDeviceExtensions` event. It stands for the per-id `runtime.removeDeviceExtension` calls and `DEVICE_EXTENSION_REMOVED` emits it makes for each id from `runtime.getCurrentDeviceExtensionLoaded()`. `_deviceExtensions`, which the constructor sets to `[]` and `getDeviceExtensionsList` replaces, is not a field of the model.
- `isDeviceExtensionLoaded` is a query forwarded to `runtime.isDeviceExtensionLoaded`, runtime state that the model does not hold.
- `refreshBlocks`: an asynchronous fan-out of `getInfo` calls, not a synchronous state change.
- `registerExtensionService` is the asynchronous path workers use to register their metadata. It and the promise it waits on are not modelled.
- `registerExtensionServiceSync` and `registerDeviceServiceSync` are folded into the registration they serve. For an extension, the code calls `getInfo` twice, once for the id in the service name (line 493) and once for preparation (line 449); the model uses one value for both. For a device, the code takes the name from the instance's `DEVICE_ID` and calls `getInfo` once, which the model follows.
- Worker construction (`worker-loader`, `dispatch.addWorker`) is recorded only as an `AddWorker` event. The dispatcher's message channel is foreign code.
- Promise timing: every promise is settled at the moment its settlement is recorded. The asynchronous `.catch` logging in `_registerExtensionInfo` and `_registerDeviceInfo` is not modelled.
- Logging (`log.warn`, `log.error`) has no effect on state, so it is left out.
- Localisation (`formatMessage`, `maybeFormatMessage`, the message context of the target) is given to `Menus.GetExtensionMenuItems` as uninterpreted functions.
- The `util` argument of a bound block function is passed through unchanged and not modelled.
- `runtime.getCurrentDevice()` is not modelled: its result is only passed to `disconnectPeripheral`, which is recorded without an argument.
- `Sanitizer.PrepareDeviceInfo`: the JSON deep copy it starts with would drop function-valued and `undefined` properties. The model has no function-valued properties and treats `undefined` as absent, so the copy is the identity here.
- `Menus.PrepareMenuInfo` returns a new map. When the caller's menus object is shared, the code's in-place rewrite would be visible through the other reference; the model does not capture that aliasing.
- `Menus.PrepareMenuInfo` visits the menu names in an order the model leaves open, rather than in property order. The result does not depend on the order.
- JavaScript values are reduced to `undefined`, `null`, booleans, unbounded integers and strings. NaN, fractional numbers and objects with their own `toString` are not modelled.
- JsValues.NatToString: renders every natural in plain decimal. JavaScript switches to exponent form from 10^21. A numeric id of 10^21, whose JavaScript string form `1e+21` fails the id check, is modelled as 22 digits that pass it.
- ServiceNames.ServiceNameInjective: holds because the model's counter is unbounded. In JavaScript `nextExtensionWorker++` stops changing at 2^53, after which service names would repeat; the invariant that new service names are fresh relies on the unbounded counter too. Neither bound is reachable in practice.
- A menu whose value is `null` or `undefined` makes `menuInfo.items` throw a TypeError, which aborts `_prepareExtensionInfo` and the registration. `Menus.Menu` has no case for it, so the model does not capture that failure.
- A property set explicitly to `undefined` is treated as a missing property. The code keeps an explicit `undefined` over the `Object.assign` default (`terminal: undefined` stays `undefined`); the model uses the default.
- `Manager.ExtensionManager.LoadDeviceURL` takes `None` for a `null` id. An `undefined` id, which the code would pass on to `analysisRealDeviceId`, is not modelled.
- The static device and extension tables, `src/devices/unoCore/index.js` and `src/devices/unoStart/index.js`, are inputs to preparation and are not modelled; the manager's class tables are parameters of its constructor.
