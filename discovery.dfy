/** The discovery-provider factory: given a route's service-provider
    configuration and the route itself, it picks the provider that will later
    be asked for the route's services. An operator-registered finder delegate
    takes precedence over everything; otherwise the configured type selects
    the Service Fabric or the Eureka provider; otherwise the static
    configuration provider is used. */
module ServiceDiscovery {

  import opened Wrappers
  import opened Configuration

  /** Opaque handle to the dependency-injection container the finder delegate receives. */
  datatype ServiceProviderContext = ServiceProviderContext(id: nat)

  /** Opaque handle to the Eureka discovery client the factory is built with. */
  datatype DiscoveryClient = DiscoveryClient(id: nat)

  /** The provider variants the factory can return. `Custom` stands for any
      provider built by an operator's finder delegate, told apart by `tag`. */
  datatype DiscoveryProvider =
    | ConfigurationProvider(services: seq<Service>)
    | ServiceFabric(config: ServiceProviderConfiguration, serviceName: string)
    | Eureka(serviceName: string, client: DiscoveryClient)
    | Custom(tag: nat)
  {
    /** The services of the static configuration provider. The Service Fabric
        and Eureka providers look theirs up remotely, which is outside this model. */
    function Get(): (seeded: seq<Service>)
      requires ConfigurationProvider?
      ensures seeded == services
    {
      services
    }
  }

  /** The operator's override: builds a provider from the container, the
      configuration and the route's service name. */
  type FinderDelegate = (ServiceProviderContext, ServiceProviderConfiguration, string) -> DiscoveryProvider

  /** Two providers of the same variant. */
  predicate SameKind(p: DiscoveryProvider, q: DiscoveryProvider)
  {
    (p.ConfigurationProvider? && q.ConfigurationProvider?) || (p.ServiceFabric? && q.ServiceFabric?) ||
    (p.Eureka? && q.Eureka?) || (p.Custom? && q.Custom?)
  }

  /** The factory, with the collaborators it is constructed from and the
      finder delegate found in the container, if one was registered. */
  datatype ServiceDiscoveryProviderFactory = ServiceDiscoveryProviderFactory(
    discoveryClient: DiscoveryClient,
    context: ServiceProviderContext,
    finder: Option<FinderDelegate>)
  {
    /** The provider for `reRoute` under `config`. */
    function Get(config: ServiceProviderConfiguration, reRoute: DownstreamReRoute): (p: DiscoveryProvider)
      // A registered delegate decides alone, whatever the type or the discovery flag.
      ensures finder.Some? ==> p == finder.value(context, config, reRoute.serviceName)
      // Without one, the variant is fixed by the configured type, exactly matched,
      // and the operator-only variant never appears.
      ensures finder.None? ==>
        && !p.Custom?
        && (p.ServiceFabric? <==> config.providerType == Some(SERVICE_FABRIC_TYPE))
        && (p.Eureka? <==> config.providerType == Some(EUREKA_TYPE))
        && (p.ConfigurationProvider? <==> !IsRecognizedType(config.providerType))
      // The Service Fabric and Eureka providers are built for the route's service.
      ensures finder.None? && p.ServiceFabric? ==> p.config == config && p.serviceName == reRoute.serviceName
      ensures finder.None? && p.Eureka? ==> p.serviceName == reRoute.serviceName && p.client == discoveryClient
      // The static provider holds exactly the route's addresses, in order.
      ensures finder.None? && p.ConfigurationProvider? ==> ToAddresses(p.services) == reRoute.downstreamAddresses
    {
      match finder
      case Some(find) => find(context, config, reRoute.serviceName)
      case None =>
        if config.providerType == Some(SERVICE_FABRIC_TYPE) then
          ServiceFabric(config, reRoute.serviceName)
        else if config.providerType == Some(EUREKA_TYPE) then
          Eureka(reRoute.serviceName, discoveryClient)
        else
          ConfigurationProvider(ToServices(reRoute.downstreamAddresses))
    }
  }

  /** A delegate that ignores its arguments and builds one operator-defined
      provider, as the fake delegate registered in the factory's tests does. */
  function ConstantFinder(tag: nat): (find: FinderDelegate)
    ensures forall ctx, config, name :: find(ctx, config, name) == Custom(tag)
  {
    (ctx, config, name) => Custom(tag)
  }

  /** A configuration without a type always yields the static provider, so
      some provider is produced for a bare route. */
  lemma UntypedConfigurationGivesConfigurationProvider(
    factory: ServiceDiscoveryProviderFactory, config: ServiceProviderConfiguration, reRoute: DownstreamReRoute)
    requires factory.finder.None?
    requires config.providerType.None?
    ensures factory.Get(config, reRoute).ConfigurationProvider?
  {
  }

  /** The static provider's `Get` returns one service per downstream address,
      in the same order, host and port copied verbatim. */
  lemma ConfigurationProviderServices(
    factory: ServiceDiscoveryProviderFactory, config: ServiceProviderConfiguration, reRoute: DownstreamReRoute)
    requires factory.finder.None?
    requires !IsRecognizedType(config.providerType)
    ensures
      var p := factory.Get(config, reRoute);
      var addresses := reRoute.downstreamAddresses;
      && p.ConfigurationProvider?
      && |p.Get()| == |addresses|
      && forall i :: 0 <= i < |addresses| ==>
           p.Get()[i].hostAndPort == ServiceHostAndPort(addresses[i].host, addresses[i].port)
  {
  }

  /** A registered delegate's result is returned untouched for every
      configuration and route. */
  lemma DelegateOverridesDispatch(
    factory: ServiceDiscoveryProviderFactory, config: ServiceProviderConfiguration, reRoute: DownstreamReRoute)
    requires factory.finder.Some?
    ensures factory.Get(config, reRoute) == factory.finder.value(factory.context, config, reRoute.serviceName)
  {
  }

  /** With the constant delegate registered, the factory always yields the
      operator's provider, even for a recognized type. */
  lemma ConstantDelegateAlwaysCustom(
    client: DiscoveryClient, context: ServiceProviderContext, tag: nat,
    config: ServiceProviderConfiguration, reRoute: DownstreamReRoute)
    ensures ServiceDiscoveryProviderFactory(client, context, Some(ConstantFinder(tag))).Get(config, reRoute) == Custom(tag)
  {
  }

  /** Without a delegate, the operator-only variant is never produced. */
  lemma NoDelegateNeverCustom(
    factory: ServiceDiscoveryProviderFactory, config: ServiceProviderConfiguration, reRoute: DownstreamReRoute)
    requires factory.finder.None?
    ensures !factory.Get(config, reRoute).Custom?
  {
  }

  /** Type "ServiceFabric" selects the Service Fabric provider for the route's service. */
  lemma ServiceFabricTypeSelectsServiceFabric(
    factory: ServiceDiscoveryProviderFactory, config: ServiceProviderConfiguration, reRoute: DownstreamReRoute)
    requires factory.finder.None?
    requires config.providerType == Some(SERVICE_FABRIC_TYPE)
    ensures factory.Get(config, reRoute) == ServiceFabric(config, reRoute.serviceName)
  {
  }

  /** Type "Eureka" selects the Eureka provider for the route's service. */
  lemma EurekaTypeSelectsEureka(
    factory: ServiceDiscoveryProviderFactory, config: ServiceProviderConfiguration, reRoute: DownstreamReRoute)
    requires factory.finder.None?
    requires config.providerType == Some(EUREKA_TYPE)
    ensures factory.Get(config, reRoute) == Eureka(reRoute.serviceName, factory.discoveryClient)
  {
  }

  /** The route's discovery flag plays no part in the selection. */
  lemma DiscoveryFlagIrrelevant(
    factory: ServiceDiscoveryProviderFactory, config: ServiceProviderConfiguration,
    reRoute: DownstreamReRoute, useServiceDiscovery: bool)
    ensures factory.Get(config, reRoute) == factory.Get(config, reRoute.(useServiceDiscovery := useServiceDiscovery))
  {
  }

  /** Without a delegate, the kind of provider depends only on the configured
      type: any two factories, routes and configurations with equal types give
      providers of the same kind. */
  lemma KindDependsOnlyOnType(
    f1: ServiceDiscoveryProviderFactory, c1: ServiceProviderConfiguration, r1: DownstreamReRoute,
    f2: ServiceDiscoveryProviderFactory, c2: ServiceProviderConfiguration, r2: DownstreamReRoute)
    requires f1.finder.None? && f2.finder.None?
    requires c1.providerType == c2.providerType
    ensures SameKind(f1.Get(c1, r1), f2.Get(c2, r2))
  {
  }
}
