/** The values the discovery-provider factory consumes: the per-route
    service-provider configuration, the downstream route with its static
    host/port list, and the services a configuration provider hands back. */
module Configuration {

  import opened Wrappers

  /** The configuration type that selects the Service Fabric provider. */
  const SERVICE_FABRIC_TYPE: string := "ServiceFabric"

  /** The configuration type that selects the Eureka provider. */
  const EUREKA_TYPE: string := "Eureka"

  /** A service-provider configuration. `providerType` is `None` when the
      builder never set a type; `host` and `port` locate the registry. */
  datatype ServiceProviderConfiguration = ServiceProviderConfiguration(
    providerType: Option<string>,
    host: string,
    port: int)

  /** One statically configured downstream address of a route. */
  datatype DownstreamHostAndPort = DownstreamHostAndPort(host: string, port: int)

  /** The parts of a downstream route the factory reads. */
  datatype DownstreamReRoute = DownstreamReRoute(
    serviceName: string,
    useServiceDiscovery: bool,
    downstreamAddresses: seq<DownstreamHostAndPort>)

  /** The host and port of a discovered or configured service. */
  datatype ServiceHostAndPort = ServiceHostAndPort(downstreamHost: string, downstreamPort: int)

  /** A service as returned by a discovery provider. */
  datatype Service = Service(hostAndPort: ServiceHostAndPort)

  /** A configuration built without any setter: no type, no registry location. */
  function DefaultConfiguration(): (c: ServiceProviderConfiguration)
    ensures c.providerType.None?
  {
    ServiceProviderConfiguration(None, "", 0)
  }

  /** A configuration whose only setting is its type. */
  function ConfigurationOfType(providerType: string): (c: ServiceProviderConfiguration)
    ensures c.providerType == Some(providerType)
  {
    ServiceProviderConfiguration(Some(providerType), "", 0)
  }

  /** True when the configured type selects the Service Fabric or the Eureka provider;
      the comparison is exact and case-sensitive. */
  predicate IsRecognizedType(providerType: Option<string>)
  {
    providerType == Some(SERVICE_FABRIC_TYPE) || providerType == Some(EUREKA_TYPE)
  }

  /** The service a static downstream address stands for. */
  function ToService(address: DownstreamHostAndPort): Service
  {
    Service(ServiceHostAndPort(address.host, address.port))
  }

  /** The services of a configuration provider seeded with `addresses`:
      one per address, in the same order, host and port copied verbatim. */
  function ToServices(addresses: seq<DownstreamHostAndPort>): (services: seq<Service>)
    ensures |services| == |addresses|
    ensures forall i :: 0 <= i < |addresses| ==>
      services[i].hostAndPort.downstreamHost == addresses[i].host &&
      services[i].hostAndPort.downstreamPort == addresses[i].port
  {
    if addresses == [] then [] else [ToService(addresses[0])] + ToServices(addresses[1..])
  }

  /** The downstream addresses a list of services sits at, in order. */
  function ToAddresses(services: seq<Service>): (addresses: seq<DownstreamHostAndPort>)
    ensures |addresses| == |services|
    ensures forall i :: 0 <= i < |services| ==>
      addresses[i].host == services[i].hostAndPort.downstreamHost &&
      addresses[i].port == services[i].hostAndPort.downstreamPort
  {
    if services == [] then []
    else
      [DownstreamHostAndPort(services[0].hostAndPort.downstreamHost, services[0].hostAndPort.downstreamPort)]
      + ToAddresses(services[1..])
  }

  /** Mapping the static addresses to services loses nothing: the addresses
      can be read back from the services. */
  lemma ToServicesRoundTrip(addresses: seq<DownstreamHostAndPort>)
    ensures ToAddresses(ToServices(addresses)) == addresses
  {
  }

  /** Distinct address lists give distinct service lists. */
  lemma ToServicesInjective(a: seq<DownstreamHostAndPort>, b: seq<DownstreamHostAndPort>)
    requires ToServices(a) == ToServices(b)
    ensures a == b
  {
  }

  /** The mapping is applied address by address: splitting the address list
      splits the service list at the same place. */
  lemma ToServicesAppend(a: seq<DownstreamHostAndPort>, b: seq<DownstreamHostAndPort>)
    ensures ToServices(a + b) == ToServices(a) + ToServices(b)
  {
  }

  /** Every address shows up as a service and every service comes from an
      address: the two lists name the same endpoints. */
  lemma ToServicesSameEndpoints(addresses: seq<DownstreamHostAndPort>)
    ensures forall a :: a in addresses ==> ToService(a) in ToServices(addresses)
    ensures forall s :: s in ToServices(addresses) ==>
      exists a :: a in addresses && s == ToService(a)
  {
  }
}
