# Ocelot discovery-provider resolution, modelled in Dafny

Ocelot is an API gateway. For each downstream route it asks
`ServiceDiscoveryProviderFactory.Get(config, reRoute)` for the service
discovery provider that will later list the route's endpoints. The model
follows a fixed priority, and the route's `UseServiceDiscovery` flag plays no
part in it:

1. If a `ServiceDiscoveryFinderDelegate` was registered in the
   dependency-injection container, the factory calls it with the container,
   the configuration and the route's service name, and returns its result
   unchanged. The model applies the delegate to every route and gives it
   priority over every type. The only test with a delegate uses a
   configuration without a type and a route with the flag set.
2. Otherwise the model compares the configuration's type, exactly and
   case-sensitively, with `"ServiceFabric"` and `"Eureka"`. A match yields the
   Service Fabric or the Eureka provider for the route's service name. The
   tests use only these exact spellings, so exact matching is the model's
   choice.
3. Otherwise the result is the static `ConfigurationServiceProvider`. It is
   seeded with the route's downstream addresses, and its `Get()` returns one
   service per address, in order, with host and port copied verbatim. The
   tests show this only for a configuration without a type; sending every
   other type here too is the model's choice.

The factory's own source is not part of this model. Its behaviour is taken
from the five `[Fact]` tests and their helpers in
`test/Ocelot.UnitTests/ServiceDiscovery/ServiceProviderFactoryTests.cs`.

Layout:

- `wrappers.dfy`: module `Wrappers`, the `Option` type for unset values and the delegate slot.
- `configuration.dfy`: module `Configuration`. It holds the configuration, the route with its
  downstream addresses, services, and the address-to-service mapping `ToServices` with its
  inverse `ToAddresses`.
- `discovery.dfy`: module `ServiceDiscovery`. It holds the provider variants, the finder
  delegate type, the factory and its `Get`, and lemmas for each selection rule.
  `DiscoveryProvider.Get` is the static provider's `Get()`. It is only defined on the
  `ConfigurationProvider` variant, as the test's cast at line 153 requires.
- `scenarios.dfy`: module `FactoryScenarios`, one lemma per test, with that test's concrete
  configuration and route.

The delegate slot is an explicit `Option<FinderDelegate>` field of the factory, not a container
lookup. An operator's provider is the `Custom(tag)` variant. The test's `Fake` provider is
`Custom(0)`, and the delegate `fake` that builds it is `ConstantFinder(0)`.

## Model

| member | source | states |
|---|---|---|
| Configuration.DefaultConfiguration | test/Ocelot.UnitTests/ServiceDiscovery/ServiceProviderFactoryTests.cs:44-45 | a configuration built with no setter has no type |
| Configuration.ConfigurationOfType | test/Ocelot.UnitTests/ServiceDiscovery/ServiceProviderFactoryTests.cs:102-104 | a configuration built `WithType(t)` has type exactly `t` |
| Configuration.ToServices | test/Ocelot.UnitTests/ServiceDiscovery/ServiceProviderFactoryTests.cs:151-164 | the static services correspond index by index to the addresses: same order, host and port copied verbatim. Equal length is the model's own claim: the test's loop runs only up to the services' count and never compares the two counts |
| Configuration.ToAddresses | test/Ocelot.UnitTests/ServiceDiscovery/ServiceProviderFactoryTests.cs:161-162 | reads the host and port back out of each service, index by index; the inverse used to state that the mapping loses nothing |
| Configuration.ToServicesRoundTrip | test/Ocelot.UnitTests/ServiceDiscovery/ServiceProviderFactoryTests.cs:156-163 | reading the addresses back from the static services gives the original address list |
| Configuration.ToServicesInjective | test/Ocelot.UnitTests/ServiceDiscovery/ServiceProviderFactoryTests.cs:156-163 | different address lists never give the same service list |
| Configuration.ToServicesAppend | test/Ocelot.UnitTests/ServiceDiscovery/ServiceProviderFactoryTests.cs:61-65 | the mapping is applied element by element: the services of `a + b` are the services of `a` followed by those of `b` |
| Configuration.ToServicesSameEndpoints | test/Ocelot.UnitTests/ServiceDiscovery/ServiceProviderFactoryTests.cs:156-163 | every address appears as a service and every service comes from an address |
| ServiceDiscovery.DiscoveryProvider.Get | test/Ocelot.UnitTests/ServiceDiscovery/ServiceProviderFactoryTests.cs:153-154 | the static provider's `Get()` returns exactly the services it was seeded with; it is defined only on that provider, as the cast at line 153 requires |
| ServiceDiscovery.ServiceDiscoveryProviderFactory.Get | test/Ocelot.UnitTests/ServiceDiscovery/ServiceProviderFactoryTests.cs:172-175 | a registered delegate's result is returned as is. With no delegate: Service Fabric iff the type is exactly "ServiceFabric", Eureka iff exactly "Eureka", the static provider iff neither, and never an operator's provider. Registry providers get the route's service name; the static provider holds exactly the route's addresses |
| ServiceDiscovery.ConstantFinder | test/Ocelot.UnitTests/ServiceDiscovery/ServiceProviderFactoryTests.cs:132 | the fake delegate returns the same operator provider for any container, configuration and name |
| ServiceDiscovery.UntypedConfigurationGivesConfigurationProvider | test/Ocelot.UnitTests/ServiceDiscovery/ServiceProviderFactoryTests.cs:42-53 | with no delegate and no type, any route gets the static provider, so some provider is always produced |
| ServiceDiscovery.ConfigurationProviderServices | test/Ocelot.UnitTests/ServiceDiscovery/ServiceProviderFactoryTests.cs:56-73 | with no delegate and an unrecognized or missing type, the static provider's `Get()` returns one service per downstream address, in order, host and port equal |
| ServiceDiscovery.DelegateOverridesDispatch | test/Ocelot.UnitTests/ServiceDiscovery/ServiceProviderFactoryTests.cs:130-136 | with a delegate registered, the result is the delegate applied to (container, configuration, service name), for every configuration and route |
| ServiceDiscovery.ConstantDelegateAlwaysCustom | test/Ocelot.UnitTests/ServiceDiscovery/ServiceProviderFactoryTests.cs:77-92 | with the fake delegate registered, the factory always returns the fake's provider, for every configuration and route, although the test shows only a discovery-enabled route |
| ServiceDiscovery.NoDelegateNeverCustom | test/Ocelot.UnitTests/ServiceDiscovery/ServiceProviderFactoryTests.cs:31-39 | a factory built over an empty container never returns an operator's provider |
| ServiceDiscovery.ServiceFabricTypeSelectsServiceFabric | test/Ocelot.UnitTests/ServiceDiscovery/ServiceProviderFactoryTests.cs:95-110 | with no delegate and type "ServiceFabric", the result is the Service Fabric provider for the configuration and the route's service name |
| ServiceDiscovery.EurekaTypeSelectsEureka | test/Ocelot.UnitTests/ServiceDiscovery/ServiceProviderFactoryTests.cs:113-128 | with no delegate and type "Eureka", the result is the Eureka provider for the route's service name and the factory's discovery client |
| ServiceDiscovery.DiscoveryFlagIrrelevant | test/Ocelot.UnitTests/ServiceDiscovery/ServiceProviderFactoryTests.cs:79-82 | the route's `UseServiceDiscovery` flag does not change the result |
| ServiceDiscovery.KindDependsOnlyOnType | test/Ocelot.UnitTests/ServiceDiscovery/ServiceProviderFactoryTests.cs:166-175 | with no delegate, equal configured types give providers of the same kind, whatever the routes, the rest of the configuration and the factory's collaborators |
| FactoryScenarios.PlainFactory | test/Ocelot.UnitTests/ServiceDiscovery/ServiceProviderFactoryTests.cs:31-39 | the fixture's factory, built over an empty container, has no delegate |
| FactoryScenarios.FactoryWithFakeDelegate | test/Ocelot.UnitTests/ServiceDiscovery/ServiceProviderFactoryTests.cs:130-136 | the factory rebuilt after registering the fake has a delegate that yields the fake for any configuration and name |
| FactoryScenarios.ShouldReturnNoServiceProvider | test/Ocelot.UnitTests/ServiceDiscovery/ServiceProviderFactoryTests.cs:41-53 | a default configuration and a bare route give the configuration provider |
| FactoryScenarios.ShouldReturnListOfConfigurationServices | test/Ocelot.UnitTests/ServiceDiscovery/ServiceProviderFactoryTests.cs:55-74 | addresses asdf.com:80 and abc.com:80 come back as exactly those two services, in that order |
| FactoryScenarios.ShouldCallDelegate | test/Ocelot.UnitTests/ServiceDiscovery/ServiceProviderFactoryTests.cs:76-92 | with the fake delegate registered, the discovery-enabled route "product" gets the fake |
| FactoryScenarios.ShouldReturnServiceFabricProvider | test/Ocelot.UnitTests/ServiceDiscovery/ServiceProviderFactoryTests.cs:94-110 | type "ServiceFabric" and service "product" give the Service Fabric provider for "product" |
| FactoryScenarios.ShouldReturnEurekaProvider | test/Ocelot.UnitTests/ServiceDiscovery/ServiceProviderFactoryTests.cs:112-128 | type "Eureka" and service "product" give the Eureka provider for "product" |

## Left out

- The factory's own source is not part of this model. Its rules are the ones the tests fix. Where the tests leave a case open, the lines below say what the model chose.
- Only a missing type is shown falling back to the static provider (lines 44-45 and 58-59). The model also sends every other unrecognized type to the static provider.
- ServiceDiscovery.DiscoveryFlagIrrelevant: the model ignores the flag. No test separates it from the type: every typed test sets `UseServiceDiscovery(true)`, and every fallback test leaves it at its default (lines 47 and 67). The delegate test (lines 79-85) also sets the flag, with no type. So the tests fit equally well a factory that consults the delegate and the type only when the flag is set.
- ServiceDiscovery.DelegateOverridesDispatch, ServiceDiscovery.ConstantDelegateAlwaysCustom: giving a registered delegate priority over "ServiceFabric" and "Eureka" is the model's choice. The only test with a delegate (lines 77-92) uses a configuration without a type (lines 84-85), so the tests do not fix which one wins. Applying the delegate to a route whose `UseServiceDiscovery` is false is also the model's choice: the only delegate test sets the flag (line 81).
- Type matching is exact and case-sensitive. The tests use only the exact spellings "ServiceFabric" and "Eureka".
- The Service Fabric provider keeps the configuration and the service name. The Eureka provider keeps the service name and the discovery client. The tests check only which provider comes back, not these arguments. Their `Get()` queries an external registry over the network, so it is not modelled.
- `Service` holds only its host and port, the fields the tests check. Its name, id, version and tags are not modelled.
- `Get()` of the static provider returns a `Task` in the source. Here it returns the service list directly.
- The fake provider's `Get()` returns `null`. It is a test stub with no contract, so it is not modelled.
- Dependency injection (`ServiceCollection`, `BuildServiceProvider`, `AddSingleton`) is not modelled. The container is an opaque `ServiceProviderContext` handle, and the registered delegate is an explicit `Option` field of the factory.
- The logger factory, the logger and Steeltoe's `IDiscoveryClient` are foreign collaborators with no behaviour the tests rely on. The logger is left out, and the discovery client is an opaque `DiscoveryClient` handle.
- The assertion and scenario libraries and the check on the result's type name (line 148) are not modelled. The provider variant's constructor plays the role of the runtime type.
