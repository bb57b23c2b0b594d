/** The five scenarios of the factory's unit tests, each with the
    configuration and route the test builds. */
module FactoryScenarios {

  import opened Wrappers
  import opened Configuration
  import opened ServiceDiscovery

  /** The factory as the test fixture builds it: an empty container, so no
      delegate is registered. */
  function PlainFactory(): (factory: ServiceDiscoveryProviderFactory)
    ensures factory.finder.None?
  {
    ServiceDiscoveryProviderFactory(DiscoveryClient(0), ServiceProviderContext(0), None)
  }

  /** The factory rebuilt after the fake delegate is added to the container. */
  function FactoryWithFakeDelegate(): (factory: ServiceDiscoveryProviderFactory)
    ensures factory.finder.Some?
    ensures forall config, name :: factory.finder.value(factory.context, config, name) == Custom(0)
  {
    ServiceDiscoveryProviderFactory(DiscoveryClient(0), ServiceProviderContext(1), Some(ConstantFinder(0)))
  }

  /** A default configuration and a bare route give the configuration provider. */
  lemma ShouldReturnNoServiceProvider()
    ensures PlainFactory().Get(DefaultConfiguration(), DownstreamReRoute("", false, [])).ConfigurationProvider?
  {
  }

  /** Two static addresses come back, in order, from the configuration provider. */
  lemma ShouldReturnListOfConfigurationServices()
    ensures
      var addresses := [DownstreamHostAndPort("asdf.com", 80), DownstreamHostAndPort("abc.com", 80)];
      var p := PlainFactory().Get(DefaultConfiguration(), DownstreamReRoute("", false, addresses));
      p.ConfigurationProvider? &&
      p.Get() == [Service(ServiceHostAndPort("asdf.com", 80)), Service(ServiceHostAndPort("abc.com", 80))]
  {
  }

  /** The fake delegate's provider is returned for a discovery-enabled route. */
  lemma ShouldCallDelegate()
    ensures FactoryWithFakeDelegate().Get(DefaultConfiguration(), DownstreamReRoute("product", true, [])) == Custom(0)
  {
  }

  /** Type "ServiceFabric" gives the Service Fabric provider for "product". */
  lemma ShouldReturnServiceFabricProvider()
    ensures
      var config := ConfigurationOfType("ServiceFabric");
      PlainFactory().Get(config, DownstreamReRoute("product", true, [])) == ServiceFabric(config, "product")
  {
  }

  /** Type "Eureka" gives the Eureka provider for "product". */
  lemma ShouldReturnEurekaProvider()
    ensures
      PlainFactory().Get(ConfigurationOfType("Eureka"), DownstreamReRoute("product", true, []))
      == Eureka("product", PlainFactory().discoveryClient)
  {
  }
}
