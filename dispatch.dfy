/**
 * The part of the central dispatcher the extension manager relies on: a table
 * from service name to the object that provides the service, either in this
 * thread (with the names of the methods it has) or in a worker.
 */
module Dispatch {
  import opened Wrappers

  /** `Local(methods)`: an object in this thread; `methods` are its truthy (callable) properties.
   *  `Remote`: a service provided by a worker, reached only by message. */
  datatype Binding = Local(methods: set<string>) | Remote

  type Services = map<string, Binding>

  /** `dispatch.services[serviceName]`: the provider, or `undefined` when none is registered. */
  function Lookup(services: Services, serviceName: string): (r: Option<Binding>)
    ensures r.Some? <==> serviceName in services
    ensures r.Some? ==> r.value == services[serviceName]
  {
    if serviceName in services then Some(services[serviceName]) else None
  }
}
