# Car provider with publishing: startup, shutdown and proximity publishing

This project models the lifecycle listener of the Arrowhead demo car provider. The listener is a
Spring application-init listener. At startup it registers a "create car" and a "get car" service
with the service registry. When SSL and the token security filter are both enabled, it first
configures the token filter with the authorization system's public key and its own private key.
It then publishes, on a timer, an event that carries a proximity reading taken from an external
submodel registry. At shutdown it publishes once more and deregisters both services.

The model has four modules:

- `Wrappers`: `Option` (for Java's null) and `Outcome` (for a step that completes or throws).
- `Registry`: the service descriptors. `CreateServiceRegistryRequest` picks the security type
  (TOKEN, CERTIFICATE or NOT_SECURE), the interface and the authentication info from the two flags.
  `CreateCarRequest` and `GetCarRequest` are the two descriptors that `customInit` registers.
- `Proximity`: the scan of the submodel array. `ExtractProximityValue` is the loop with its
  `break`. It is proved equal to the specification function `ProximityValue`: the value of the
  first submodel whose `idShort` equals "ProximityData" ignoring case, and "0" otherwise.
- `Lifecycle`: the listener as a class, `CarProviderListener`. Its methods append each
  collaborator call to a `calls` trace, and its token filter is a `TokenSecurityFilter` object
  whose setters the bootstrap calls. Each method's new trace equals the old trace followed by a
  specification function (`InitCalls`, `PublishCalls`, `DestroyCalls`). The ordering
  properties are lemmas about those functions: what is registered, in which order, what happens
  after an abort, and what shutdown does. `InitCalls` takes the two descriptors it registers as
  arguments. `CustomInit` passes `CreateCarRequest` and `GetCarRequest`, so the ordering lemmas
  hold for any descriptors, and the descriptors' own properties are proved in `Registry`.

What the collaborators answer is an input, not something the model computes. An `Environment`
gives reachability, the authorization key (absent for null), the key-store outcome and the event
handler's echo. A `Response` gives the result of the HTTP GET: it failed, or it returned a body
that parses to an array of submodels (`Some`) or does not (`None`).

Where the code differs from the system's intended design, the model follows the code:

- The HTTP GET at line 155 is outside the `try` block. A failed request therefore throws out of
  `publishDestroyedEvent`, and nothing is published.
- Because of that, `customDestroy` stops before its two deregistrations when the GET fails. It
  does not always deregister. `ShutdownPublishesThenDeregisters` states both cases.
- An exception thrown in a `java.util.Timer` task ends the timer thread. After a failed GET, the
  periodic publishing therefore stops for good; `RunTimerTask` models this. The failure is not
  swallowed at the job boundary.
- The `Timer` created at line 110 is a local that is never cancelled, and `customDestroy` does
  not stop it. Periodic publishing therefore goes on after shutdown has deregistered both
  services. `CustomDestroy` leaves the timer flag as it was, and `PublishingOutlivesShutdown`
  shows a later firing publishing after the last deregistration.

## Model

| member | source | states |
|---|---|---|
| Registry.CreateServiceRegistryRequest | proximity-events/demo-car-provider-with-publishing/src/main/java/ai/aitia/demo/car_provider_with_publishing/CarProviderWithPublishingApplicationInitListener.java:216-241 | TOKEN iff SSL and token filter are both on; CERTIFICATE iff SSL on and filter off; NOT_SECURE iff SSL off. Only the secure interface when SSL is on, otherwise only the insecure one. Authentication info is present exactly when SSL is on. Identity, definition and URI are copied. Metadata holds exactly the HTTP-method key mapped to the method name. The security fields agree with each other. |
| Registry.CreateCarRequest | proximity-events/demo-car-provider-with-publishing/src/main/java/ai/aitia/demo/car_provider_with_publishing/CarProviderWithPublishingApplicationInitListener.java:96 | The "create" descriptor is for the create definition on the car URI. Its metadata is exactly http-method to "POST". |
| Registry.GetCarRequest | proximity-events/demo-car-provider-with-publishing/src/main/java/ai/aitia/demo/car_provider_with_publishing/CarProviderWithPublishingApplicationInitListener.java:99-101 | The "get" descriptor's metadata keys are exactly http-method, brand and color, mapped to "GET", the brand parameter and the color parameter. |
| Registry.CarRequestsShareSecurity | proximity-events/demo-car-provider-with-publishing/src/main/java/ai/aitia/demo/car_provider_with_publishing/CarProviderWithPublishingApplicationInitListener.java:96-102 | The two descriptors carry the same security type, interfaces, provider identity and URI under every configuration. |
| Proximity.EqualsIgnoreCaseIsLowerEquality | proximity-events/demo-car-provider-with-publishing/src/main/java/ai/aitia/demo/car_provider_with_publishing/CarProviderWithPublishingApplicationInitListener.java:167 | Two strings are equal ignoring case exactly when their lower-case forms are equal. |
| Proximity.FirstMatch | proximity-events/demo-car-provider-with-publishing/src/main/java/ai/aitia/demo/car_provider_with_publishing/CarProviderWithPublishingApplicationInitListener.java:166-171 | Returns a position only if that submodel matches and no earlier one does. Returns none exactly when no submodel matches. |
| Proximity.ProximityValue | proximity-events/demo-car-provider-with-publishing/src/main/java/ai/aitia/demo/car_provider_with_publishing/CarProviderWithPublishingApplicationInitListener.java:157-178 | The reading is "0" for an unparsable or non-array body and for a body with no matching submodel. Otherwise it is the value of the first matching submodel. |
| Proximity.ExtractProximityValue | proximity-events/demo-car-provider-with-publishing/src/main/java/ai/aitia/demo/car_provider_with_publishing/CarProviderWithPublishingApplicationInitListener.java:157-178 | The loop with its early exit returns exactly `ProximityValue` of the body. |
| Proximity.FirstMatchWins | proximity-events/demo-car-provider-with-publishing/src/main/java/ai/aitia/demo/car_provider_with_publishing/CarProviderWithPublishingApplicationInitListener.java:166-171 | Once a submodel matches, records appended after it never change the reading. |
| Proximity.MatchIgnoresCase | proximity-events/demo-car-provider-with-publishing/src/main/java/ai/aitia/demo/car_provider_with_publishing/CarProviderWithPublishingApplicationInitListener.java:167-168 | A submodel whose idShort agrees with "ProximityData" up to case is selected, and, alone, its value is the reading. |
| Proximity.LowerCaseResponseYieldsValue | proximity-events/demo-car-provider-with-publishing/src/main/java/ai/aitia/demo/car_provider_with_publishing/CarProviderWithPublishingApplicationInitListener.java:165-171 | The body [{"idShort": "proximitydata", "value": "42"}] yields "42". |
| Proximity.OtherNamesNeverMatch | proximity-events/demo-car-provider-with-publishing/src/main/java/ai/aitia/demo/car_provider_with_publishing/CarProviderWithPublishingApplicationInitListener.java:157-172 | A submodel whose idShort differs from "ProximityData" in more than case never matches, and alone it yields "0". |
| Lifecycle.RegistrationCallsRegister | proximity-events/demo-car-provider-with-publishing/src/main/java/ai/aitia/demo/car_provider_with_publishing/CarProviderWithPublishingApplicationInitListener.java:95-117 | The registration block registers its first descriptor ("create"), then its second ("get"), and nothing else. |
| Lifecycle.InitRegistersCreateThenGet | proximity-events/demo-car-provider-with-publishing/src/main/java/ai/aitia/demo/car_provider_with_publishing/CarProviderWithPublishingApplicationInitListener.java:79-102 | A completed startup registers exactly the "create" descriptor and then the "get" descriptor. An aborted startup registers nothing. |
| Lifecycle.InitStopsAtFailingStep | proximity-events/demo-car-provider-with-publishing/src/main/java/ai/aitia/demo/car_provider_with_publishing/CarProviderWithPublishingApplicationInitListener.java:79-118 | An aborted startup's last step is the one that failed: the reachability check, the key query or the key-store load. A completed startup ends by scheduling the timer with delay 0 and period 5000 ms. |
| Lifecycle.NullKeyAbortsBeforeRegistration | proximity-events/demo-car-provider-with-publishing/src/main/java/ai/aitia/demo/car_provider_with_publishing/CarProviderWithPublishingApplicationInitListener.java:197-200 | In token mode with both core systems reachable, a null authorization key aborts startup. The key store is not loaded, the filter is not configured and nothing is registered. |
| Lifecycle.SecureBootstrapOnlyWithBothFlags | proximity-events/demo-car-provider-with-publishing/src/main/java/ai/aitia/demo/car_provider_with_publishing/CarProviderWithPublishingApplicationInitListener.java:84-93 | The authorization system is checked exactly when both flags hold and the registry is reachable. Its key is queried exactly when, in addition, it is reachable. |
| Lifecycle.ContradictoryConfigurationIsInsecure | proximity-events/demo-car-provider-with-publishing/src/main/java/ai/aitia/demo/car_provider_with_publishing/CarProviderWithPublishingApplicationInitListener.java:133-138 | With the token filter on and SSL off, the warning comes first and no key is queried. Every registered descriptor is NOT_SECURE. |
| Lifecycle.TokenRegistrationRequiresConfiguredFilter | proximity-events/demo-car-provider-with-publishing/src/main/java/ai/aitia/demo/car_provider_with_publishing/CarProviderWithPublishingApplicationInitListener.java:84-102 | A descriptor registered with TOKEN security implies that the filter received both keys. |
| Lifecycle.ShutdownPublishesThenDeregisters | proximity-events/demo-car-provider-with-publishing/src/main/java/ai/aitia/demo/car_provider_with_publishing/CarProviderWithPublishingApplicationInitListener.java:122-127 | If the GET succeeds, shutdown makes four calls: the GET, exactly one publish carrying the extracted reading, then deregistration of "create" and then of "get". If the GET fails, shutdown makes only the GET. |
| Lifecycle.DeregistersWhatWasRegistered | proximity-events/demo-car-provider-with-publishing/src/main/java/ai/aitia/demo/car_provider_with_publishing/CarProviderWithPublishingApplicationInitListener.java:122-127 | After a completed startup and a successful GET, shutdown deregisters the (definition, URI) pairs of the registered descriptors, in the same order. |
| Lifecycle.EventSourceIsRegisteredIdentity | proximity-events/demo-car-provider-with-publishing/src/main/java/ai/aitia/demo/car_provider_with_publishing/CarProviderWithPublishingApplicationInitListener.java:144-150 | The published event's source is the provider identity, with its authentication info, that both descriptors register. |
| Lifecycle.TokenSecurityFilter.SetAuthorizationPublicKey | proximity-events/demo-car-provider-with-publishing/src/main/java/ai/aitia/demo/car_provider_with_publishing/CarProviderWithPublishingApplicationInitListener.java:211 | Sets the filter's authorization key and leaves its private key alone. |
| Lifecycle.TokenSecurityFilter.SetMyPrivateKey | proximity-events/demo-car-provider-with-publishing/src/main/java/ai/aitia/demo/car_provider_with_publishing/CarProviderWithPublishingApplicationInitListener.java:212 | Sets the filter's private key and leaves its authorization key alone. |
| Lifecycle.CarProviderListener.CheckConfiguration | proximity-events/demo-car-provider-with-publishing/src/main/java/ai/aitia/demo/car_provider_with_publishing/CarProviderWithPublishingApplicationInitListener.java:133-138 | Appends a warning when the configuration is contradictory, and nothing otherwise. |
| Lifecycle.CarProviderListener.CheckCoreSystemReachability | proximity-events/demo-car-provider-with-publishing/src/main/java/ai/aitia/demo/car_provider_with_publishing/CarProviderWithPublishingApplicationInitListener.java:83-85 | Records the check. Fails with "unreachable" exactly when the core system does not answer. |
| Lifecycle.CarProviderListener.SetTokenSecurityFilter | proximity-events/demo-car-provider-with-publishing/src/main/java/ai/aitia/demo/car_provider_with_publishing/CarProviderWithPublishingApplicationInitListener.java:196-213 | Queries the key (a null key aborts), loads the key store (a failure aborts), then sets both keys on the filter. On an abort, the filter is unchanged. |
| Lifecycle.InitRemovesAndPublishesNothing | proximity-events/demo-car-provider-with-publishing/src/main/java/ai/aitia/demo/car_provider_with_publishing/CarProviderWithPublishingApplicationInitListener.java:79-118 | Startup, completed or aborted, deregisters nothing and publishes no event. |
| Lifecycle.PublishCallsViews | proximity-events/demo-car-provider-with-publishing/src/main/java/ai/aitia/demo/car_provider_with_publishing/CarProviderWithPublishingApplicationInitListener.java:141-193 | One run of the publishing task registers and deregisters nothing, and publishes exactly its event if the GET answers and nothing if it throws. |
| Lifecycle.DestroyCallsViews | proximity-events/demo-car-provider-with-publishing/src/main/java/ai/aitia/demo/car_provider_with_publishing/CarProviderWithPublishingApplicationInitListener.java:122-127 | Shutdown registers nothing; it publishes its event and deregisters "create" then "get" if the GET answers, and does neither if it throws. |
| Lifecycle.LifecycleViews | proximity-events/demo-car-provider-with-publishing/src/main/java/ai/aitia/demo/car_provider_with_publishing/CarProviderWithPublishingApplicationInitListener.java:79-127 | Over a completed startup, shutdown and one later timer firing, the two descriptors are registered once in order, "create" and "get" are deregistered once if the shutdown GET answers, and the shutdown event precedes the later one. |
| Lifecycle.PublishingOutlivesShutdown | proximity-events/demo-car-provider-with-publishing/src/main/java/ai/aitia/demo/car_provider_with_publishing/CarProviderWithPublishingApplicationInitListener.java:109-127 | The timer is never cancelled: after a completed shutdown, a later firing publishes again as the last call, after the deregistration of "get". |
| Lifecycle.CarProviderListener.SecureBootstrap | proximity-events/demo-car-provider-with-publishing/src/main/java/ai/aitia/demo/car_provider_with_publishing/CarProviderWithPublishingApplicationInitListener.java:84-90 | Checks the authorization system (unreachable aborts), refreshes its URIs, then runs the filter setup. On success the filter holds the environment's authorization public key and provider private key; on failure it is untouched. |
| Lifecycle.CarProviderListener.RegisterAndSchedule | proximity-events/demo-car-provider-with-publishing/src/main/java/ai/aitia/demo/car_provider_with_publishing/CarProviderWithPublishingApplicationInitListener.java:95-117 | Registers "create", builds and registers "get" with brand and color added, and probes the event handler. It refreshes the event handler's URIs only if the probe answers. Finally it starts the timer. |
| Lifecycle.CarProviderListener.CustomInit | proximity-events/demo-car-provider-with-publishing/src/main/java/ai/aitia/demo/car_provider_with_publishing/CarProviderWithPublishingApplicationInitListener.java:79-118 | The trace grows by exactly `InitCalls` and the outcome is `InitOutcome`. The timer runs iff startup completed. The filter holds both keys iff the bootstrap ran to its end, and is untouched otherwise. |
| Lifecycle.CarProviderListener.PublishDestroyedEvent | proximity-events/demo-car-provider-with-publishing/src/main/java/ai/aitia/demo/car_provider_with_publishing/CarProviderWithPublishingApplicationInitListener.java:141-193 | Records the GET. If the GET succeeded, it also publishes a PUBLISHER_DESTROYED event with no metadata, the provider identity, the extracted reading and the given timestamp. Otherwise it throws. |
| Lifecycle.CarProviderListener.CustomDestroy | proximity-events/demo-car-provider-with-publishing/src/main/java/ai/aitia/demo/car_provider_with_publishing/CarProviderWithPublishingApplicationInitListener.java:122-127 | The trace grows by exactly `DestroyCalls`: one publish, then both deregistrations, unless the publish threw. The timer is left running. |
| Lifecycle.CarProviderListener.RunTimerTask | proximity-events/demo-car-provider-with-publishing/src/main/java/ai/aitia/demo/car_provider_with_publishing/CarProviderWithPublishingApplicationInitListener.java:109-117 | A live timer runs one publish and stays alive iff the publish did not throw. A dead timer does nothing. |

## Left out

- The HTTP GET (`RestTemplate.getForEntity`) and Jackson's `readTree` are foreign library calls. Their result is the `Response` input. A missing `idShort` or `value` field reads as the empty string in Java; the model assumes it already did.
- Proximity.EqualsIgnoreCase: uses ASCII case mapping only. Java also equates some non-ASCII letters with ASCII ones (for example U+0131 with "i"); Unicode case tables are not modelled.
- Timer concurrency and timing: the timing of `scheduleAtFixedRate` and the daemon thread are not modelled; the scheduling call records both constants, the 0 ms delay and the 5000 ms period. Each firing is one call to `RunTimerTask`, and firings do not interleave with `customDestroy`.
- Key-store loading, private-key extraction, the public key's Base64 encoding and key bytes are foreign crypto and file I/O. The key-store result is an `Option`. The Base64 text is the listener's `myAuthInfo` constant.
- Timestamps: `ZonedDateTime.now()` and its UTC formatting are a clock, so the timestamp is a parameter. Ordering of timestamps across publishes is not modelled.
- Logging is left out. The exception is the contradictory-configuration warning: it is the only effect of `checkConfiguration`, so it is recorded in the trace.
- Spring wiring (`@Autowired`, `@Value`) is left out. The configuration is the listener's `config` constant.
- The collaborators' behaviour is left out: the registry's upsert semantics, the event handler, and the echo. The registration, publish, deregistration and URI-update calls always complete in the model; their own failure modes are not visible in this file.
- `checkCoreSystemReachability` is inherited from `ApplicationInitListener`, which is not part of this model. Treating an unreachable core system as aborting startup follows the intended design of the core systems check, not code visible in this file (the event handler probe at line 104, by contrast, is a plain boolean branch). The `Unreachable` cases of `InitStopsAtFailingStep` and the reachability conditions of `SecureBootstrapOnlyWithBothFlags` depend on this reading.
- CarProviderWithPublishingConstants.java is not part of this model. Its strings take the values of the Arrowhead car-provider demo. The proofs rely only on the three metadata keys being distinct.
