/**
 * `ExtensionManager`: service-name allocation, the worker handshake, load
 * bookkeeping for extensions and devices, and the device-switch sequence.
 *
 * The runtime and the dispatcher are collaborators: the state-changing calls
 * made on them are recorded, in order, in the ghost `trace` (queries are not); the dispatcher's service table
 * is the field `services`.
 */
module Manager {
  import opened Wrappers
  import opened JsValues
  import opened Dispatch
  import opened Errors
  import opened Sanitizer
  import opened ServiceNames

  /** The keys of `builtinExtensions`. */
  const BuiltinExtensions: set<string> :=
    {"coreExample", "pen", "music", "text2speech", "translate", "videoSensing", "makeymakey"}

  /** The keys of `builtinDevices`. */
  const BuiltinDevices: set<string> :=
    {"arduinoUno", "arduinoUnoUltra", "arduinoLeonardo", "arduinoMega2560", "arduinoEsp32",
     "arduinoEsp8266", "microbit", "makeyMakey", "microbitV2", "unoCore"}

  /** The device id that returns to device-free programming. */
  const UnselectDevice: string := "unselectDevice"

  /** The service name the manager registers itself under. */
  const ManagerService: string := "extensions"

  /** The methods other services call on the manager. The instance has every method of its
   *  class, but only these are listed: no block or menu is ever prepared under this service,
   *  so the other names are never looked up. */
  const ManagerMethods: set<string> :=
    {"allocateWorker", "onWorkerInit", "registerExtensionService",
     "registerExtensionServiceSync", "registerDeviceServiceSync"}

  /** A built-in extension class: what an instance's `getInfo()` returns and the instance's methods. */
  datatype ExtensionClass = ExtensionClass(info: RawInfo, methods: set<string>)

  /** A built-in device class: an instance's `DEVICE_ID` property (a static getter leaves it
   *  `undefined`), what `getInfo()` returns (one entry per category) and the instance's methods. */
  datatype DeviceClass = DeviceClass(deviceIdProperty: Js, infos: seq<RawInfo>, methods: set<string>)

  /** A requested worker load: the URL and the promise returned to the requester. */
  datatype PendingExtension = PendingExtension(extensionURL: string, promise: nat)

  /** A promise as the requester sees it; `Pending(p)` is settled later through `settlements[p]`. */
  datatype Promise = Resolved(value: Js) | Rejected(reason: Js) | Pending(promise: nat)

  /** How a call ends: with a value, or with a synchronous exception. */
  datatype Completion<T> = Returned(value: T) | Threw(error: Error)

  /** A call the manager makes on the runtime or on the dispatcher. */
  datatype HostEvent =
    | DisconnectPeripheral
    | SetDevice(device: Js)
    | SetDeviceType(deviceType: Js)
    | SetPnpIdList(pnpIdList: seq<string>)
    | ClearMonitor
    | ClearCurrentExtension
    | UnloadAllDeviceExtensions
    | AddExtension(extensionId: string)
    | SetService(serviceName: string)
    | RegisterExtensionPrimitives(info: Info)
    | RegisterDevicePrimitives(infos: seq<Info>)
    | DeviceAdded(device: Js, categoryInfoArray: seq<Info>)
    | AddWorker

  /** A map with at most one key, holding `k`, holds only `k`. */
  lemma AtMostOneKey<K, V>(m: map<K, V>, k: K)
    requires |m| <= 1 && k in m
    ensures m.Keys == {k}
  {
    assert |m.Keys - {k}| == |m.Keys| - 1;
    assert m.Keys == (m.Keys - {k}) + {k};
  }

  /** The runtime calls of the device-switch teardown that `loadDeviceURL` and `clearDevice` share. */
  function DeviceReset(device: Js, deviceType: Js, pnpIdList: seq<string>): seq<HostEvent> {
    [DisconnectPeripheral, SetDevice(device), SetDeviceType(deviceType), SetPnpIdList(pnpIdList), ClearMonitor]
  }

  /** The runtime calls that clear the extensions of the previous device. */
  const ClearExtensions: seq<HostEvent> := [ClearCurrentExtension, UnloadAllDeviceExtensions]

  /** No service name a counter value from `next` on yields is taken yet. */
  ghost predicate NamesFresh(next: nat, services: Services) {
    forall n: nat, id: string :: n >= next ==> ServiceName(n, id) !in services
  }

  /** Only built-in extensions are recorded, at most one device is, and each has a
   *  registered service. */
  ghost predicate LoadsRecorded(extensions: set<string>, services: Services,
                                loadedExtensions: map<string, string>, loadedDevice: map<string, string>)
  {
    && (forall id :: id in loadedExtensions ==> id in extensions && loadedExtensions[id] in services)
    && |loadedDevice| <= 1
    && (forall id :: id in loadedDevice ==> loadedDevice[id] in services)
  }

  /**
   * Worker ids come from the shared counter. The queued loads hold the most
   * recent promises, in request order; every claimed load holds an older,
   * unsettled promise that no other worker holds (`owner` names the worker).
   */
  ghost predicate WorkersValid(next: nat, pendingExtensions: seq<PendingExtension>,
                               pendingWorkers: map<nat, Option<PendingExtension>>,
                               nextPromise: nat, settlements: map<nat, Promise>, owner: map<nat, nat>)
  {
    && |pendingExtensions| <= nextPromise
    && (forall i :: 0 <= i < |pendingExtensions| ==>
          pendingExtensions[i].promise == nextPromise - |pendingExtensions| + i)
    && (forall id :: id in pendingWorkers ==> id < next)
    && (forall id :: id in pendingWorkers && pendingWorkers[id].Some? ==>
          && pendingWorkers[id].value.promise < nextPromise - |pendingExtensions|
          && pendingWorkers[id].value.promise !in settlements
          && pendingWorkers[id].value.promise in owner
          && owner[pendingWorkers[id].value.promise] == id)
    && (forall p :: p in settlements ==> p < nextPromise - |pendingExtensions| && !settlements[p].Pending?)
  }

  /** Queuing a load under the next promise keeps the worker invariant. */
  lemma QueuePreservesWorkers(next: nat, pendingExtensions: seq<PendingExtension>,
                              pendingWorkers: map<nat, Option<PendingExtension>>,
                              nextPromise: nat, settlements: map<nat, Promise>, owner: map<nat, nat>,
                              extensionURL: string)
    requires WorkersValid(next, pendingExtensions, pendingWorkers, nextPromise, settlements, owner)
    ensures WorkersValid(next, pendingExtensions + [PendingExtension(extensionURL, nextPromise)],
                         pendingWorkers, nextPromise + 1, settlements, owner)
  {
    var queue := pendingExtensions + [PendingExtension(extensionURL, nextPromise)];
    forall i | 0 <= i < |queue|
      ensures queue[i].promise == nextPromise + 1 - |queue| + i
    {
      if i < |pendingExtensions| {
        assert queue[i] == pendingExtensions[i];
      }
    }
  }

  /** A new worker claiming the oldest queued load (or nothing, on an empty queue) keeps the
   *  worker invariant. */
  lemma ClaimPreservesWorkers(next: nat, pendingExtensions: seq<PendingExtension>,
                              pendingWorkers: map<nat, Option<PendingExtension>>,
                              nextPromise: nat, settlements: map<nat, Promise>, owner: map<nat, nat>)
    requires WorkersValid(next, pendingExtensions, pendingWorkers, nextPromise, settlements, owner)
    ensures pendingExtensions == [] ==>
      WorkersValid(next + 1, [], pendingWorkers[next := None], nextPromise, settlements, owner)
    ensures pendingExtensions != [] ==>
      WorkersValid(next + 1, pendingExtensions[1..], pendingWorkers[next := Some(pendingExtensions[0])],
                   nextPromise, settlements, owner[pendingExtensions[0].promise := next])
  {
    if pendingExtensions != [] {
      var head := pendingExtensions[0];
      var queue := pendingExtensions[1..];
      var workers := pendingWorkers[next := Some(head)];
      var owner' := owner[head.promise := next];
      assert head.promise == nextPromise - |pendingExtensions|;
      forall i | 0 <= i < |queue|
        ensures queue[i].promise == nextPromise - |queue| + i
      {
        assert queue[i] == pendingExtensions[i + 1];
      }
      forall id | id in workers && workers[id].Some?
        ensures workers[id].value.promise < nextPromise - |queue|
        ensures workers[id].value.promise !in settlements
        ensures workers[id].value.promise in owner' && owner'[workers[id].value.promise] == id
      {
        if id != next {
          assert workers[id] == pendingWorkers[id];
        }
      }
    }
  }

  /** Settling the promise of the load worker `id` claimed, and dropping the worker's entry,
   *  keeps the worker invariant. */
  lemma SettlePreservesWorkers(next: nat, pendingExtensions: seq<PendingExtension>,
                               pendingWorkers: map<nat, Option<PendingExtension>>,
                               nextPromise: nat, settlements: map<nat, Promise>, owner: map<nat, nat>,
                               id: nat, settlement: Promise)
    requires WorkersValid(next, pendingExtensions, pendingWorkers, nextPromise, settlements, owner)
    ensures WorkersValid(next, pendingExtensions, pendingWorkers - {id}, nextPromise, settlements, owner)
    ensures id in pendingWorkers && pendingWorkers[id].Some? && !settlement.Pending? ==>
      WorkersValid(next, pendingExtensions, pendingWorkers - {id}, nextPromise,
                   settlements[pendingWorkers[id].value.promise := settlement], owner)
  {
    var workers := pendingWorkers - {id};
    forall other | other in workers
      ensures workers[other] == pendingWorkers[other]
    {
    }
  }

  class ExtensionManager {
    const extensionClasses: map<string, ExtensionClass>
    const deviceClasses: map<string, DeviceClass>
    /** `runtime.analysisRealDeviceId` */
    const analysisRealDeviceId: string -> string

    /** The id of the next worker, shared with in-thread registrations. */
    var nextExtensionWorker: nat
    /** FIFO queue of loads waiting for a worker. */
    var pendingExtensions: seq<PendingExtension>
    /** Worker id to the load it claimed; `None` is an `undefined` entry. */
    var pendingWorkers: map<nat, Option<PendingExtension>>
    /** Extension id to service name. */
    var loadedExtensions: map<string, string>
    /** Device id to service name. */
    var loadedDevice: map<string, string>
    /** The dispatcher's service table. */
    var services: Services
    /** The promise the next worker load returns. */
    var nextPromise: nat
    /** How each settled worker-load promise was settled. */
    var settlements: map<nat, Promise>
    /** Which worker claimed each claimed load's promise. */
    ghost var owner: map<nat, nat>

    /** The calls made on the runtime and the dispatcher, oldest first. */
    ghost var trace: seq<HostEvent>

    ghost predicate Valid()
      reads this
    {
      && ManagerService in services
      && NamesFresh(nextExtensionWorker, services)
      && LoadsRecorded(extensionClasses.Keys, services, loadedExtensions, loadedDevice)
      && WorkersValid(nextExtensionWorker, pendingExtensions, pendingWorkers, nextPromise, settlements, owner)
    }

    /** `new ExtensionManager(runtime)`, with the built-in class tables and the runtime's id mapping. */
    constructor (extensionClasses: map<string, ExtensionClass>, deviceClasses: map<string, DeviceClass>,
                 analysisRealDeviceId: string -> string)
      requires extensionClasses.Keys == BuiltinExtensions
      requires deviceClasses.Keys == BuiltinDevices
      ensures Valid()
      ensures this.extensionClasses == extensionClasses && this.deviceClasses == deviceClasses
      ensures this.analysisRealDeviceId == analysisRealDeviceId
      ensures nextExtensionWorker == 0 && pendingExtensions == [] && pendingWorkers == map[]
      ensures loadedExtensions == map[] && loadedDevice == map[]
      ensures services == map[ManagerService := Local(ManagerMethods)]
      ensures nextPromise == 0 && settlements == map[] && owner == map[]
      ensures trace == [SetService(ManagerService)]
    {
      this.extensionClasses := extensionClasses;
      this.deviceClasses := deviceClasses;
      this.analysisRealDeviceId := analysisRealDeviceId;
      nextExtensionWorker := 0;
      pendingExtensions := [];
      pendingWorkers := map[];
      loadedExtensions := map[];
      loadedDevice := map[];
      services := map[ManagerService := Local(ManagerMethods)];
      nextPromise := 0;
      settlements := map[];
      owner := map[];
      trace := [SetService(ManagerService)];
    }

    /** `isExtensionLoaded(extensionID)`: only built-in extensions are ever recorded. */
    function IsExtensionLoaded(extensionID: string): (b: bool)
      reads this
      requires Valid()
      ensures b <==> extensionID in loadedExtensions
      ensures b ==> extensionID in extensionClasses
    {
      extensionID in loadedExtensions
    }

    /** `isDeviceLoaded(deviceID)`: a loaded device is the only loaded device. */
    function IsDeviceLoaded(deviceID: string): (b: bool)
      reads this
      requires Valid()
      ensures b <==> deviceID in loadedDevice
      ensures b ==> loadedDevice.Keys == {deviceID}
    {
      if deviceID in loadedDevice then AtMostOneKey(loadedDevice, deviceID); true else false
    }

    /** Takes the next counter value and registers `methods` under the service name built from
     *  it and `idText`; that name was not taken before. */
    method RegisterService(idText: string, methods: set<string>) returns (serviceName: string)
      requires Valid()
      modifies this
      ensures Valid()
      ensures serviceName == ServiceName(old(nextExtensionWorker), idText)
      ensures serviceName !in old(services)
      ensures nextExtensionWorker == old(nextExtensionWorker) + 1
      ensures services == old(services)[serviceName := Local(methods)]
      ensures trace == old(trace) + [SetService(serviceName)]
      ensures unchanged(this`loadedExtensions, this`loadedDevice, this`pendingExtensions,
                        this`pendingWorkers, this`nextPromise, this`settlements, this`owner)
    {
      var fakeWorkerId := nextExtensionWorker;
      nextExtensionWorker := nextExtensionWorker + 1;
      serviceName := ServiceName(fakeWorkerId, idText);
      forall n: nat, id: string | n >= nextExtensionWorker
        ensures ServiceName(n, id) != serviceName
      {
        ServiceNameInjective(fakeWorkerId, idText, n, id);
      }
      services := services[serviceName := Local(methods)];
      trace := trace + [SetService(serviceName)];
    }

    /**
     * `_registerInternalExtension(extensionObject)`: takes the next counter
     * value, registers the object under a fresh service name, then prepares
     * its metadata and hands it to the runtime. A preparation error is thrown
     * after the service has been registered.
     */
    method RegisterInternalExtension(cls: ExtensionClass) returns (serviceName: string, r: Completion<Info>)
      requires Valid()
      modifies this
      ensures Valid()
      ensures serviceName == ServiceName(old(nextExtensionWorker), ToString(cls.info.id))
      ensures serviceName !in old(services)
      ensures nextExtensionWorker == old(nextExtensionWorker) + 1
      ensures services == old(services)[serviceName := Local(cls.methods)]
      ensures r == match PrepareExtensionInfo(serviceName, services, cls.info)
                   case Success(info) => Returned(info)
                   case Failure(e) => Threw(e)
      ensures trace == old(trace) + [SetService(serviceName)]
                       + (if r.Returned? then [RegisterExtensionPrimitives(r.value)] else [])
      ensures unchanged(this`loadedExtensions, this`loadedDevice, this`pendingExtensions,
                        this`pendingWorkers, this`nextPromise, this`settlements, this`owner)
    {
      serviceName := RegisterService(ToString(cls.info.id), cls.methods);
      match PrepareExtensionInfo(serviceName, services, cls.info)
      case Success(info) =>
        trace := trace + [RegisterExtensionPrimitives(info)];
        r := Returned(info);
      case Failure(e) =>
        r := Threw(e);
    }

    /** `_registerInternalDevice(deviceObject)`: as for extensions, with the instance's
     *  `DEVICE_ID` in the service name and one prepared entry per category. */
    method RegisterInternalDevice(cls: DeviceClass) returns (serviceName: string, r: Completion<seq<Info>>)
      requires Valid()
      modifies this
      ensures Valid()
      ensures serviceName == ServiceName(old(nextExtensionWorker), ToString(cls.deviceIdProperty))
      ensures serviceName !in old(services)
      ensures nextExtensionWorker == old(nextExtensionWorker) + 1
      ensures services == old(services)[serviceName := Local(cls.methods)]
      ensures r == match PrepareDeviceInfo(serviceName, services, cls.infos)
                   case Success(infos) => Returned(infos)
                   case Failure(e) => Threw(e)
      ensures trace == old(trace) + [SetService(serviceName)]
                       + (if r.Returned? then [RegisterDevicePrimitives(r.value)] else [])
      ensures unchanged(this`loadedExtensions, this`loadedDevice, this`pendingExtensions,
                        this`pendingWorkers, this`nextPromise, this`settlements, this`owner)
    {
      serviceName := RegisterService(ToString(cls.deviceIdProperty), cls.methods);
      match PrepareDeviceInfo(serviceName, services, cls.infos)
      case Success(infos) =>
        trace := trace + [RegisterDevicePrimitives(infos)];
        r := Returned(infos);
      case Failure(e) =>
        r := Threw(e);
    }

    /** The shared load path of a built-in extension that is not loaded yet: register it,
     *  record id -> service name, tell the runtime. */
    method LoadBuiltinExtension(extensionId: string) returns (r: Completion<()>)
      requires Valid()
      requires extensionId in extensionClasses && extensionId !in loadedExtensions
      modifies this
      ensures Valid()
      ensures
        var cls := extensionClasses[extensionId];
        var serviceName := ServiceName(old(nextExtensionWorker), ToString(cls.info.id));
        && serviceName !in old(services)
        && nextExtensionWorker == old(nextExtensionWorker) + 1
        && services == old(services)[serviceName := Local(cls.methods)]
        && match PrepareExtensionInfo(serviceName, services, cls.info)
           case Success(info) =>
             && r == Returned(())
             && loadedExtensions == old(loadedExtensions)[extensionId := serviceName]
             && trace == old(trace) + [SetService(serviceName), RegisterExtensionPrimitives(info),
                                       AddExtension(extensionId)]
           case Failure(e) =>
             && r == Threw(e)
             && loadedExtensions == old(loadedExtensions)
             && trace == old(trace) + [SetService(serviceName)]
      ensures unchanged(this`loadedDevice, this`pendingExtensions, this`pendingWorkers, this`nextPromise,
                        this`settlements, this`owner)
    {
      var serviceName, registered := RegisterInternalExtension(extensionClasses[extensionId]);
      if registered.Threw? {
        return Threw(registered.error);
      }
      loadedExtensions := loadedExtensions[extensionId := serviceName];
      trace := trace + [AddExtension(extensionId)];
      r := Returned(());
    }

    /**
     * `loadExtensionIdSync(extensionId)`: an unknown id or an id already loaded
     * changes nothing; otherwise the extension is registered and recorded.
     */
    method LoadExtensionIdSync(extensionId: string) returns (r: Completion<()>)
      requires Valid()
      modifies this
      ensures Valid()
      ensures (extensionId !in extensionClasses || extensionId in old(loadedExtensions)) ==>
        r == Returned(()) && unchanged(this)
      ensures extensionId in extensionClasses && extensionId !in old(loadedExtensions) ==>
        var cls := extensionClasses[extensionId];
        var serviceName := ServiceName(old(nextExtensionWorker), ToString(cls.info.id));
        && serviceName !in old(services)
        && nextExtensionWorker == old(nextExtensionWorker) + 1
        && services == old(services)[serviceName := Local(cls.methods)]
        && match PrepareExtensionInfo(serviceName, services, cls.info)
           case Success(info) =>
             && r == Returned(())
             && loadedExtensions == old(loadedExtensions)[extensionId := serviceName]
             && trace == old(trace) + [SetService(serviceName), RegisterExtensionPrimitives(info),
                                       AddExtension(extensionId)]
           case Failure(e) =>
             && r == Threw(e)
             && loadedExtensions == old(loadedExtensions)
             && trace == old(trace) + [SetService(serviceName)]
      ensures unchanged(this`loadedDevice, this`pendingExtensions, this`pendingWorkers, this`nextPromise,
                        this`settlements, this`owner)
    {
      if extensionId !in extensionClasses {
        return Returned(());
      }
      if IsExtensionLoaded(extensionId) {
        return Returned(());
      }
      r := LoadBuiltinExtension(extensionId);
    }

    /**
     * `loadExtensionURL(extensionURL)`: a built-in id loads in this thread (a
     * duplicate resolves with no change); anything else joins the queue of
     * loads waiting for a worker and gets a pending promise.
     */
    method LoadExtensionURL(extensionURL: string) returns (r: Completion<Promise>)
      requires Valid()
      modifies this
      ensures Valid()
      ensures extensionURL in extensionClasses && extensionURL in old(loadedExtensions) ==>
        r == Returned(Resolved(Undefined)) && unchanged(this)
      ensures extensionURL in extensionClasses && extensionURL !in old(loadedExtensions) ==>
        var cls := extensionClasses[extensionURL];
        var serviceName := ServiceName(old(nextExtensionWorker), ToString(cls.info.id));
        && serviceName !in old(services)
        && nextExtensionWorker == old(nextExtensionWorker) + 1
        && services == old(services)[serviceName := Local(cls.methods)]
        && pendingExtensions == old(pendingExtensions) && nextPromise == old(nextPromise)
        && match PrepareExtensionInfo(serviceName, services, cls.info)
           case Success(info) =>
             && r == Returned(Resolved(Undefined))
             && loadedExtensions == old(loadedExtensions)[extensionURL := serviceName]
             && trace == old(trace) + [SetService(serviceName), RegisterExtensionPrimitives(info),
                                       AddExtension(extensionURL)]
           case Failure(e) =>
             && r == Threw(e)
             && loadedExtensions == old(loadedExtensions)
             && trace == old(trace) + [SetService(serviceName)]
      ensures extensionURL !in extensionClasses ==>
        && r == Returned(Pending(old(nextPromise)))
        && pendingExtensions == old(pendingExtensions) + [PendingExtension(extensionURL, old(nextPromise))]
        && nextPromise == old(nextPromise) + 1
        && trace == old(trace) + [AddWorker]
        && nextExtensionWorker == old(nextExtensionWorker) && services == old(services)
        && loadedExtensions == old(loadedExtensions)
      ensures unchanged(this`loadedDevice, this`pendingWorkers, this`settlements, this`owner)
    {
      if extensionURL in extensionClasses {
        if IsExtensionLoaded(extensionURL) {
          return Returned(Resolved(Undefined));
        }
        var loaded := LoadBuiltinExtension(extensionURL);
        if loaded.Threw? {
          return Threw(loaded.error);
        }
        return Returned(Resolved(Undefined));
      }
      var promise := nextPromise;
      QueuePreservesWorkers(nextExtensionWorker, pendingExtensions, pendingWorkers, nextPromise, settlements,
                            owner, extensionURL);
      nextPromise := nextPromise + 1;
      pendingExtensions := pendingExtensions + [PendingExtension(extensionURL, promise)];
      trace := trace + [AddWorker];
      r := Returned(Pending(promise));
    }

    /**
     * `allocateWorker()`: a new worker takes the next id and claims the oldest
     * queued load. On an empty queue the id is still taken and an `undefined`
     * entry stored before reading its URL throws.
     */
    method AllocateWorker() returns (r: Completion<(nat, string)>)
      requires Valid()
      modifies this
      ensures Valid()
      ensures nextExtensionWorker == old(nextExtensionWorker) + 1
      ensures old(nextExtensionWorker) !in old(pendingWorkers)
      ensures old(pendingExtensions) != [] ==>
        && r == Returned((old(nextExtensionWorker), old(pendingExtensions)[0].extensionURL))
        && pendingExtensions == old(pendingExtensions)[1..]
        && pendingWorkers == old(pendingWorkers)[old(nextExtensionWorker) := Some(old(pendingExtensions)[0])]
        && owner == old(owner)[old(pendingExtensions)[0].promise := old(nextExtensionWorker)]
      ensures old(pendingExtensions) == [] ==>
        && r == Threw(NoPendingExtension)
        && pendingExtensions == []
        && pendingWorkers == old(pendingWorkers)[old(nextExtensionWorker) := None]
        && owner == old(owner)
      ensures unchanged(this`services, this`trace, this`loadedExtensions, this`loadedDevice,
                        this`nextPromise, this`settlements)
    {
      var id := nextExtensionWorker;
      ClaimPreservesWorkers(nextExtensionWorker, pendingExtensions, pendingWorkers, nextPromise, settlements, owner);
      nextExtensionWorker := nextExtensionWorker + 1;
      if pendingExtensions == [] {
        pendingWorkers := pendingWorkers[id := None];
        return Threw(NoPendingExtension);
      }
      var workerInfo := pendingExtensions[0];
      pendingExtensions := pendingExtensions[1..];
      pendingWorkers := pendingWorkers[id := Some(workerInfo)];
      owner := owner[workerInfo.promise := id];
      r := Returned((id, workerInfo.extensionURL));
    }

    /**
     * `onWorkerInit(id, e)`: removes the worker's entry and settles the load it
     * claimed, rejected with `e` when `e` is truthy and resolved with the id
     * otherwise. Each promise is settled at most once.
     */
    method OnWorkerInit(id: nat, e: Js) returns (r: Completion<()>)
      requires Valid()
      modifies this
      ensures Valid()
      ensures pendingWorkers == old(pendingWorkers) - {id}
      ensures id in old(pendingWorkers) && old(pendingWorkers)[id].Some? ==>
        var promise := old(pendingWorkers)[id].value.promise;
        && promise !in old(settlements)
        && settlements == old(settlements)[promise := if Truthy(e) then Rejected(e) else Resolved(Num(id))]
        && r == Returned(())
      ensures !(id in old(pendingWorkers) && old(pendingWorkers)[id].Some?) ==>
        r == Threw(NoPendingWorker(id)) && settlements == old(settlements)
      ensures unchanged(this`nextExtensionWorker, this`pendingExtensions, this`services, this`trace,
                        this`loadedExtensions, this`loadedDevice, this`nextPromise, this`owner)
    {
      var workerInfo := if id in pendingWorkers then pendingWorkers[id] else None;
      var settlement := if Truthy(e) then Rejected(e) else Resolved(Num(id));
      SettlePreservesWorkers(nextExtensionWorker, pendingExtensions, pendingWorkers, nextPromise, settlements,
                             owner, id, settlement);
      pendingWorkers := pendingWorkers - {id};
      if workerInfo.None? {
        return Threw(NoPendingWorker(id));
      }
      settlements := settlements[workerInfo.value.promise := settlement];
      r := Returned(());
    }

    /** The state after switching to the built-in device `deviceId`, which was not loaded:
     *  the runtime's device state is reset, the device class is registered under a fresh
     *  service name, and if its metadata is accepted it becomes the only loaded device and
     *  every loaded extension is forgotten. */
    ghost predicate SwitchedTo(next0: nat, services0: Services, trace0: seq<HostEvent>,
                               loadedDevice0: map<string, string>, loadedExtensions0: map<string, string>,
                               deviceId: string, deviceType: Js, pnpIdList: seq<string>,
                               r: Completion<Promise>)
      reads this
      requires analysisRealDeviceId(deviceId) in deviceClasses
      {
      var cls := deviceClasses[analysisRealDeviceId(deviceId)];
      var serviceName := ServiceName(next0, ToString(cls.deviceIdProperty));
      var reset := trace0 + DeviceReset(Str(deviceId), deviceType, pnpIdList) + [SetService(serviceName)];
      && serviceName !in services0
      && nextExtensionWorker == next0 + 1
      && services == services0[serviceName := Local(cls.methods)]
      && match PrepareDeviceInfo(serviceName, services, cls.infos)
         case Success(infos) =>
           && r == Returned(Resolved(Undefined))
           && loadedDevice == map[deviceId := serviceName]
           && loadedExtensions == map[]
           && trace == reset + [RegisterDevicePrimitives(infos)] + ClearExtensions
         case Failure(e) =>
           && r == Threw(e)
           && loadedDevice == loadedDevice0 && loadedExtensions == loadedExtensions0
           && trace == reset
    }

    /** The built-in-device branch of `loadDeviceURL` for a device that is not loaded. */
    method LoadBuiltinDevice(deviceId: string, deviceType: Js, pnpIdList: seq<string>)
      returns (r: Completion<Promise>)
      requires Valid()
      requires analysisRealDeviceId(deviceId) in deviceClasses && deviceId !in loadedDevice
      modifies this
      ensures Valid()
      ensures SwitchedTo(old(nextExtensionWorker), old(services), old(trace), old(loadedDevice), old(loadedExtensions),
                         deviceId, deviceType, pnpIdList, r)
      ensures unchanged(this`pendingExtensions, this`pendingWorkers, this`nextPromise, this`settlements,
                        this`owner)
    {
      var cls := deviceClasses[analysisRealDeviceId(deviceId)];
      trace := trace + DeviceReset(Str(deviceId), deviceType, pnpIdList);
      var serviceName, registered := RegisterInternalDevice(cls);
      if registered.Threw? {
        r := Threw(registered.error);
        return;
      }
      loadedDevice := map[deviceId := serviceName];
      trace := trace + ClearExtensions;
      loadedExtensions := map[];
      r := Returned(Resolved(Undefined));
    }

    /**
     * `loadDeviceURL(deviceId, deviceType, pnpidList)`. The duplicate check
     * uses the requested id, the built-in lookup the id the runtime derives
     * from it. A new built-in device is registered before the extensions of
     * the previous one are cleared; afterwards it is the only loaded device.
     */
    method LoadDeviceURL(deviceId: Option<string>, deviceType: Js, pnpIdList: seq<string>)
      returns (r: Completion<Promise>)
      requires Valid()
      modifies this
      ensures Valid()
      ensures deviceId.None? ==> r == Returned(Resolved(Undefined)) && unchanged(this)
      ensures deviceId.Some? && analysisRealDeviceId(deviceId.value) in deviceClasses
              && deviceId.value in old(loadedDevice) ==>
        r == Returned(Resolved(Undefined)) && unchanged(this)
      ensures deviceId.Some? && analysisRealDeviceId(deviceId.value) in deviceClasses
              && deviceId.value !in old(loadedDevice) ==>
        SwitchedTo(old(nextExtensionWorker), old(services), old(trace), old(loadedDevice), old(loadedExtensions),
                   deviceId.value, deviceType, pnpIdList, r)
      ensures deviceId.Some? && analysisRealDeviceId(deviceId.value) !in deviceClasses
              && analysisRealDeviceId(deviceId.value) == UnselectDevice ==>
        && r == Returned(Resolved(Undefined))
        && loadedDevice == map[] && loadedExtensions == map[]
        && trace == old(trace) + DeviceReset(Null, Null, []) + ClearExtensions + [DeviceAdded(Null, [])]
        && nextExtensionWorker == old(nextExtensionWorker) && services == old(services)
      ensures deviceId.Some? && analysisRealDeviceId(deviceId.value) !in deviceClasses
              && analysisRealDeviceId(deviceId.value) != UnselectDevice ==>
        r == Returned(Rejected(Str("Error while load device can not find device: " + deviceId.value)))
        && unchanged(this)
      ensures unchanged(this`pendingExtensions, this`pendingWorkers, this`nextPromise, this`settlements,
                        this`owner)
    {
      if deviceId.None? {
        return Returned(Resolved(Undefined));
      }
      var id := deviceId.value;
      var realDeviceId := analysisRealDeviceId(id);
      if realDeviceId in deviceClasses {
        if IsDeviceLoaded(id) {
          return Returned(Resolved(Undefined));
        }
        r := LoadBuiltinDevice(id, deviceType, pnpIdList);
        return;
      } else if realDeviceId == UnselectDevice {
        ClearDevice();
        return Returned(Resolved(Undefined));
      }
      r := Returned(Rejected(Str("Error while load device can not find device: " + id)));
    }

    /**
     * `clearDevice()`: disconnects, resets the runtime's device state, forgets
     * the loaded device and every loaded extension, and announces an empty
     * category list.
     */
    method ClearDevice()
      requires Valid()
      modifies this
      ensures Valid()
      ensures loadedDevice == map[] && loadedExtensions == map[]
      ensures trace == old(trace) + DeviceReset(Null, Null, []) + ClearExtensions + [DeviceAdded(Null, [])]
      ensures unchanged(this`nextExtensionWorker, this`services, this`pendingExtensions,
                        this`pendingWorkers, this`nextPromise, this`settlements, this`owner)
    {
      trace := trace + DeviceReset(Null, Null, []);
      loadedDevice := map[];
      trace := trace + ClearExtensions;
      loadedExtensions := map[];
      trace := trace + [DeviceAdded(Null, [])];
    }
  }

  /** Two worker loads requested in a row are claimed by the next two workers in request order. */
  method RequestAndClaimTwo(m: ExtensionManager, urlA: string, urlB: string)
    returns (workerA: nat, workerB: nat)
    requires m.Valid() && m.pendingExtensions == []
    requires urlA !in m.extensionClasses && urlB !in m.extensionClasses
    modifies m
    ensures m.Valid()
    ensures workerA == old(m.nextExtensionWorker) && workerB == workerA + 1
    ensures m.pendingExtensions == [] && m.nextPromise == old(m.nextPromise) + 2
    ensures workerA !in old(m.pendingWorkers) && workerB !in old(m.pendingWorkers)
    ensures m.pendingWorkers == old(m.pendingWorkers)[workerA := Some(PendingExtension(urlA, old(m.nextPromise)))]
                                                     [workerB := Some(PendingExtension(urlB, old(m.nextPromise) + 1))]
    ensures m.settlements == old(m.settlements)
  {
    var pA := m.LoadExtensionURL(urlA);
    var pB := m.LoadExtensionURL(urlB);
    var w1 := m.AllocateWorker();
    var w2 := m.AllocateWorker();
    workerA, workerB := w1.value.0, w2.value.0;
  }

  /**
   * The whole worker handshake for one load: the next worker claims it, and
   * the worker's report settles the load's promise, rejected with the error
   * or resolved with the worker's id, leaving no worker entry behind.
   */
  method WorkerHandshake(m: ExtensionManager, url: string, e: Js) returns (promise: nat)
    requires m.Valid() && m.pendingExtensions == []
    requires url !in m.extensionClasses
    modifies m
    ensures m.Valid()
    ensures promise == old(m.nextPromise) && promise !in old(m.settlements)
    ensures m.pendingExtensions == [] && m.pendingWorkers == old(m.pendingWorkers)
    ensures m.nextExtensionWorker == old(m.nextExtensionWorker) + 1
    ensures m.settlements ==
      old(m.settlements)[promise := if Truthy(e) then Rejected(e) else Resolved(Num(old(m.nextExtensionWorker)))]
  {
    var requested := m.LoadExtensionURL(url);
    promise := requested.value.promise;
    var claimed := m.AllocateWorker();
    var worker := claimed.value.0;
    var reported := m.OnWorkerInit(worker, e);
  }
}
