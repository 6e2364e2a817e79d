/**
 * The startup and shutdown of the car provider (`customInit`, `customDestroy`,
 * `setTokenSecurityFilter`, `checkConfiguration`, `publishDestroyedEvent`).
 * Collaborator calls are recorded, in order, in the listener's call trace; what the
 * collaborators answer is given as an `Environment`.
 */
module Lifecycle {
  import opened Wrappers
  import opened Registry
  import Proximity

  /** Fixed constants of the listener. */
  const SUBMODELS_URL := "http://localhost:8082/registry/api/v1/registry/ProximitySensorID/submodels"
  const PUBLISH_DELAY_MS: nat := 0
  const PUBLISH_PERIOD_MS: nat := 5000
  /** `PresetEventType.PUBLISHER_DESTROYED.getEventTypeName()`. */
  const PUBLISHER_DESTROYED := "PUBLISHER_DESTROYED"

  datatype PublicKey = PublicKey(encoded: seq<int>)
  datatype PrivateKey = PrivateKey(encoded: seq<int>)

  datatype CoreSystem = SERVICEREGISTRY | AUTHORIZATION | EVENTHANDLER

  /**
   * What the collaborators answer during one startup: reachability of the core systems,
   * the authorization system's public key (null when absent), the private key read from
   * the key store (absent when loading or extraction fails) and the event handler's echo.
   */
  datatype Environment = Environment(
    serviceRegistryReachable: bool,
    authorizationReachable: bool,
    authorizationPublicKey: Option<PublicKey>,
    providerPrivateKey: Option<PrivateKey>,
    eventHandlerEchoes: bool)

  /**
   * The result of the HTTP GET to the submodel registry: the request throws, or it returns a
   * body that parses to an array of submodels (`Some`) or does not (`None`).
   */
  datatype Response = RequestFailed | Responded(body: Option<seq<Proximity.Record>>)

  /** `EventPublishRequestDTO`. */
  datatype EventPublishRequest = EventPublishRequest(
    eventType: string,
    source: SystemRequest,
    metadata: Option<map<string, string>>,
    payload: string,
    timeStamp: string)

  /** One observable step of the listener, in the order it happens. */
  datatype Call =
    | ContradictoryConfigurationWarning
    | CheckReachability(system: CoreSystem)
    | UpdateCoreServiceUris(system: CoreSystem)
    | QueryAuthorizationPublicKey
    | LoadKeyStore
    | ForceRegister(request: ServiceRegistryRequest)
    | EchoCoreSystem(system: CoreSystem)
    | ScheduleAtFixedRate(delay: nat, period: nat)
    | GetSubmodels(url: string)
    | PublishToEventHandler(event: EventPublishRequest)
    | Unregister(serviceDefinition: string, serviceUri: string)

  /** The exceptions that abort `customInit`. */
  datatype StartupError = Unreachable(system: CoreSystem) | NullAuthorizationPublicKey | KeyStoreFailure

  /** The exception that escapes `publishDestroyedEvent`: the GET itself failed. */
  datatype PublishError = SubmodelRequestFailed

  // ---------------------------------------------------------------------------------------
  // Specification of the call sequences

  /** The `checkConfiguration` condition: the token filter is on while SSL is off. */
  predicate ContradictoryConfiguration(cfg: Config)
  {
    !cfg.sslEnabled && cfg.tokenSecurityFilterEnabled
  }

  function ConfigurationCalls(cfg: Config): seq<Call>
  {
    if ContradictoryConfiguration(cfg) then [ContradictoryConfigurationWarning] else []
  }

  /** The steps of `setTokenSecurityFilter` that touch a collaborator. */
  function BootstrapCalls(env: Environment): seq<Call>
  {
    [QueryAuthorizationPublicKey] + if env.authorizationPublicKey.None? then [] else [LoadKeyStore]
  }

  function BootstrapOutcome(env: Environment): Outcome<StartupError>
  {
    if env.authorizationPublicKey.None? then Fail(NullAuthorizationPublicKey)
    else if env.providerPrivateKey.None? then Fail(KeyStoreFailure)
    else Pass
  }

  /**
   * The secure branch of `customInit`: check the authorization system, refresh its URIs and
   * configure the token filter.
   */
  function SecureBootstrapCalls(env: Environment): seq<Call>
  {
    [CheckReachability(AUTHORIZATION)] +
    if !env.authorizationReachable then [] else [UpdateCoreServiceUris(AUTHORIZATION)] + BootstrapCalls(env)
  }

  function SecureBootstrapOutcome(env: Environment): Outcome<StartupError>
  {
    if !env.authorizationReachable then Fail(Unreachable(AUTHORIZATION)) else BootstrapOutcome(env)
  }

  /** Registration of both services, the event-handler probe and the scheduling of publishing. */
  function RegistrationCalls(create: ServiceRegistryRequest, get: ServiceRegistryRequest, eventHandlerEchoes: bool): seq<Call>
  {
    [ForceRegister(create), ForceRegister(get)]
    + [EchoCoreSystem(EVENTHANDLER)]
    + (if eventHandlerEchoes then [UpdateCoreServiceUris(EVENTHANDLER)] else [])
    + [ScheduleAtFixedRate(PUBLISH_DELAY_MS, PUBLISH_PERIOD_MS)]
  }

  /** Whether `customInit` completes, and otherwise which error it throws. */
  function InitOutcome(cfg: Config, env: Environment): Outcome<StartupError>
  {
    if !env.serviceRegistryReachable then Fail(Unreachable(SERVICEREGISTRY))
    else if TokenSecurity(cfg) then SecureBootstrapOutcome(env)
    else Pass
  }

  /** What `customInit` does before the secure branch: the configuration check and the registry check. */
  function Prelude(cfg: Config): seq<Call>
  {
    ConfigurationCalls(cfg) + [CheckReachability(SERVICEREGISTRY)]
  }

  /** The secure branch's calls when token security is on, and nothing otherwise. */
  function SecureSegment(cfg: Config, env: Environment): seq<Call>
  {
    if TokenSecurity(cfg) then SecureBootstrapCalls(env) else []
  }

  /**
   * Everything `customInit` does, up to the step that throws, if one does; `create` and `get`
   * are the two descriptors it registers (`CreateCarRequest` and `GetCarRequest`).
   */
  function InitCalls(cfg: Config, env: Environment, create: ServiceRegistryRequest, get: ServiceRegistryRequest): seq<Call>
  {
    Prelude(cfg) +
    if !env.serviceRegistryReachable then []
    else SecureSegment(cfg, env) + if InitOutcome(cfg, env).Fail? then [] else RegistrationCalls(create, get, env.eventHandlerEchoes)
  }

  /** The token filter receives its keys exactly when token security is on and startup completes. */
  predicate FilterConfigured(cfg: Config, env: Environment)
  {
    TokenSecurity(cfg) && InitOutcome(cfg, env).Pass?
  }

  /** The event `publishDestroyedEvent` sends for a given reading. */
  function DestroyedEvent(cfg: Config, myAuthInfo: string, payload: string, timeStamp: string): EventPublishRequest
  {
    EventPublishRequest(
      PUBLISHER_DESTROYED,
      SystemRequest(cfg.systemName, cfg.address, cfg.port, if cfg.sslEnabled then Some(myAuthInfo) else None),
      None,
      payload,
      timeStamp)
  }

  /** What one `publishDestroyedEvent` does: the GET, then the publish unless the GET threw. */
  function PublishCalls(cfg: Config, myAuthInfo: string, response: Response, timeStamp: string): seq<Call>
  {
    [GetSubmodels(SUBMODELS_URL)] +
    match response
    case RequestFailed => []
    case Responded(body) =>
      [PublishToEventHandler(DestroyedEvent(cfg, myAuthInfo, Proximity.ProximityValue(body), timeStamp))]
  }

  /** What `customDestroy` does: one publish, then both deregistrations unless the publish threw. */
  function DestroyCalls(cfg: Config, myAuthInfo: string, response: Response, timeStamp: string): seq<Call>
  {
    PublishCalls(cfg, myAuthInfo, response, timeStamp) +
    if response.RequestFailed? then []
    else [Unregister(CREATE_CAR_SERVICE_DEFINITION, CAR_URI), Unregister(GET_CAR_SERVICE_DEFINITION, CAR_URI)]
  }

  // ---------------------------------------------------------------------------------------
  // Views of a call trace

  /** The descriptors submitted for registration, in order. */
  function Registrations(calls: seq<Call>): seq<ServiceRegistryRequest>
  {
    if calls == [] then []
    else (if calls[0].ForceRegister? then [calls[0].request] else []) + Registrations(calls[1..])
  }

  /** The (definition, URI) pairs removed from the registry, in order. */
  function Deregistrations(calls: seq<Call>): seq<(string, string)>
  {
    if calls == [] then []
    else (if calls[0].Unregister? then [(calls[0].serviceDefinition, calls[0].serviceUri)] else [])
         + Deregistrations(calls[1..])
  }

  /** The events sent to the event handler, in order. */
  function Publications(calls: seq<Call>): seq<EventPublishRequest>
  {
    if calls == [] then []
    else (if calls[0].PublishToEventHandler? then [calls[0].event] else []) + Publications(calls[1..])
  }

  lemma {:induction false} RegistrationsDistribute(a: seq<Call>, b: seq<Call>)
    ensures Registrations(a + b) == Registrations(a) + Registrations(b)
  {
    if a == [] {
      assert a + b == b;
    } else {
      assert (a + b)[0] == a[0];
      assert (a + b)[1..] == a[1..] + b;
      RegistrationsDistribute(a[1..], b);
    }
  }

  lemma {:induction false} DeregistrationsDistribute(a: seq<Call>, b: seq<Call>)
    ensures Deregistrations(a + b) == Deregistrations(a) + Deregistrations(b)
  {
    if a == [] {
      assert a + b == b;
    } else {
      assert (a + b)[0] == a[0];
      assert (a + b)[1..] == a[1..] + b;
      DeregistrationsDistribute(a[1..], b);
    }
  }

  lemma {:induction false} PublicationsDistribute(a: seq<Call>, b: seq<Call>)
    ensures Publications(a + b) == Publications(a) + Publications(b)
  {
    if a == [] {
      assert a + b == b;
    } else {
      assert (a + b)[0] == a[0];
      assert (a + b)[1..] == a[1..] + b;
      PublicationsDistribute(a[1..], b);
    }
  }

  /** The three views of a trace distribute over concatenation. */
  lemma ViewsDistribute(a: seq<Call>, b: seq<Call>)
    ensures Registrations(a + b) == Registrations(a) + Registrations(b)
    ensures Deregistrations(a + b) == Deregistrations(a) + Deregistrations(b)
    ensures Publications(a + b) == Publications(a) + Publications(b)
  {
    RegistrationsDistribute(a, b);
    DeregistrationsDistribute(a, b);
    PublicationsDistribute(a, b);
  }

  lemma ViewsOfSingle(c: Call)
    ensures Registrations([c]) == if c.ForceRegister? then [c.request] else []
    ensures Deregistrations([c]) == if c.Unregister? then [(c.serviceDefinition, c.serviceUri)] else []
    ensures Publications([c]) == if c.PublishToEventHandler? then [c.event] else []
  {
    assert [c][1..] == [];
  }

  /** A trace without registration calls contributes no registrations. */
  lemma {:induction false} NoRegistrations(calls: seq<Call>)
    requires forall i :: 0 <= i < |calls| ==> !calls[i].ForceRegister?
    ensures Registrations(calls) == []
  {
    if calls != [] {
      NoRegistrations(calls[1..]);
    }
  }

  /** Two registrations followed by calls that register nothing register exactly those two. */
  lemma {:induction false} TwoRegistrations(first: ServiceRegistryRequest, second: ServiceRegistryRequest, tail: seq<Call>)
    requires forall i :: 0 <= i < |tail| ==> !tail[i].ForceRegister?
    ensures Registrations([ForceRegister(first), ForceRegister(second)] + tail) == [first, second]
  {
    var calls := [ForceRegister(first), ForceRegister(second)] + tail;
    assert calls[1..] == [ForceRegister(second)] + tail;
    assert calls[1..][1..] == tail;
    NoRegistrations(tail);
  }

  /** The registration block registers the first descriptor, then the second, and nothing else. */
  lemma RegistrationCallsRegister(create: ServiceRegistryRequest, get: ServiceRegistryRequest, eventHandlerEchoes: bool)
    ensures Registrations(RegistrationCalls(create, get, eventHandlerEchoes)) == [create, get]
  {
    var tail := [EchoCoreSystem(EVENTHANDLER)]
                + (if eventHandlerEchoes then [UpdateCoreServiceUris(EVENTHANDLER)] else [])
                + [ScheduleAtFixedRate(PUBLISH_DELAY_MS, PUBLISH_PERIOD_MS)];
    assert RegistrationCalls(create, get, eventHandlerEchoes) == [ForceRegister(create), ForceRegister(get)] + tail;
    TwoRegistrations(create, get, tail);
  }

  // ---------------------------------------------------------------------------------------
  // Properties of startup and shutdown

  lemma PreludeRegistersNothing(cfg: Config)
    ensures Registrations(Prelude(cfg)) == []
  {
    NoRegistrations(Prelude(cfg));
  }

  lemma SecureSegmentRegistersNothing(cfg: Config, env: Environment)
    ensures Registrations(SecureSegment(cfg, env)) == []
  {
    NoRegistrations(SecureSegment(cfg, env));
  }

  /** `InitCalls` split at the point where startup stops. */
  lemma InitCallsSplit(cfg: Config, env: Environment, create: ServiceRegistryRequest, get: ServiceRegistryRequest)
    ensures !env.serviceRegistryReachable ==> InitCalls(cfg, env, create, get) == Prelude(cfg)
    ensures env.serviceRegistryReachable && InitOutcome(cfg, env).Fail?
            ==> InitCalls(cfg, env, create, get) == Prelude(cfg) + SecureSegment(cfg, env)
    ensures InitOutcome(cfg, env).Pass?
            ==> InitCalls(cfg, env, create, get)
                == Prelude(cfg) + SecureSegment(cfg, env) + RegistrationCalls(create, get, env.eventHandlerEchoes)
  {
    var pre, mid := Prelude(cfg), SecureSegment(cfg, env);
    assert pre + [] == pre;
    assert mid + [] == mid;
    var reg := RegistrationCalls(create, get, env.eventHandlerEchoes);
    assert pre + (mid + reg) == pre + mid + reg;
  }

  /**
   * Startup registers exactly the "create" descriptor and then the "get" descriptor when it
   * completes, and registers nothing when it aborts.
   */
  lemma InitRegistersCreateThenGet(cfg: Config, env: Environment, create: ServiceRegistryRequest, get: ServiceRegistryRequest)
    ensures Registrations(InitCalls(cfg, env, create, get))
         == if InitOutcome(cfg, env).Pass? then [create, get] else []
  {
    InitCallsSplit(cfg, env, create, get);
    PreludeRegistersNothing(cfg);
    SecureSegmentRegistersNothing(cfg, env);
    var pre, mid := Prelude(cfg), SecureSegment(cfg, env);
    if InitOutcome(cfg, env).Pass? {
      var reg := RegistrationCalls(create, get, env.eventHandlerEchoes);
      RegistrationCallsRegister(create, get, env.eventHandlerEchoes);
      RegistrationsDistribute(pre, mid);
      RegistrationsDistribute(pre + mid, reg);
    } else if env.serviceRegistryReachable {
      RegistrationsDistribute(pre, mid);
    }
  }

  /** When startup aborts, the step that threw is the last thing it did; when it completes, it ends by scheduling publishing. */
  lemma InitStopsAtFailingStep(cfg: Config, env: Environment, create: ServiceRegistryRequest, get: ServiceRegistryRequest)
    ensures |InitCalls(cfg, env, create, get)| > 0
    ensures var calls := InitCalls(cfg, env, create, get);
            var last := calls[|calls| - 1];
            match InitOutcome(cfg, env)
            case Pass => last == ScheduleAtFixedRate(PUBLISH_DELAY_MS, PUBLISH_PERIOD_MS)
            case Fail(Unreachable(system)) => last == CheckReachability(system)
            case Fail(NullAuthorizationPublicKey) => last == QueryAuthorizationPublicKey
            case Fail(KeyStoreFailure) => last == LoadKeyStore
  {
    InitCallsSplit(cfg, env, create, get);
    var pre, mid := Prelude(cfg), SecureSegment(cfg, env);
    if InitOutcome(cfg, env).Pass? {
      var reg := RegistrationCalls(create, get, env.eventHandlerEchoes);
      assert (pre + mid + reg)[|pre + mid + reg| - 1] == reg[|reg| - 1];
    } else if env.serviceRegistryReachable {
      assert (pre + mid)[|pre + mid| - 1] == mid[|mid| - 1];
    }
  }

  /**
   * With token security on and both core systems reachable, a null authorization key aborts
   * startup: the key store is never loaded, the filter is not configured and nothing is registered.
   */
  lemma NullKeyAbortsBeforeRegistration(cfg: Config, env: Environment, create: ServiceRegistryRequest, get: ServiceRegistryRequest)
    requires TokenSecurity(cfg) && env.serviceRegistryReachable && env.authorizationReachable
    requires env.authorizationPublicKey.None?
    ensures InitOutcome(cfg, env) == Fail(NullAuthorizationPublicKey)
    ensures !FilterConfigured(cfg, env)
    ensures LoadKeyStore !in InitCalls(cfg, env, create, get)
    ensures Registrations(InitCalls(cfg, env, create, get)) == []
  {
    var pre := ConfigurationCalls(cfg) + [CheckReachability(SERVICEREGISTRY)];
    var calls := pre + [CheckReachability(AUTHORIZATION), UpdateCoreServiceUris(AUTHORIZATION), QueryAuthorizationPublicKey];
    assert SecureBootstrapCalls(env) == [CheckReachability(AUTHORIZATION), UpdateCoreServiceUris(AUTHORIZATION), QueryAuthorizationPublicKey];
    assert InitCalls(cfg, env, create, get) == pre + (SecureBootstrapCalls(env) + []);
    assert InitCalls(cfg, env, create, get) == calls;
    assert forall i :: 0 <= i < |calls| ==> calls[i] != LoadKeyStore && !calls[i].ForceRegister?;
    NoRegistrations(calls);
  }

  /**
   * The authorization system is contacted, and its key queried, only in token-security mode:
   * the key is queried exactly when both flags hold and both core systems are reachable.
   */
  lemma SecureBootstrapOnlyWithBothFlags(cfg: Config, env: Environment, create: ServiceRegistryRequest, get: ServiceRegistryRequest)
    ensures CheckReachability(AUTHORIZATION) in InitCalls(cfg, env, create, get)
        <==> TokenSecurity(cfg) && env.serviceRegistryReachable
    ensures QueryAuthorizationPublicKey in InitCalls(cfg, env, create, get)
        <==> TokenSecurity(cfg) && env.serviceRegistryReachable && env.authorizationReachable
  {
    InitCallsSplit(cfg, env, create, get);
    var pre, mid := Prelude(cfg), SecureSegment(cfg, env);
    var reg := RegistrationCalls(create, get, env.eventHandlerEchoes);
    assert CheckReachability(AUTHORIZATION) !in pre && QueryAuthorizationPublicKey !in pre;
    assert CheckReachability(AUTHORIZATION) !in reg && QueryAuthorizationPublicKey !in reg;
    if TokenSecurity(cfg) {
      assert mid[0] == CheckReachability(AUTHORIZATION);
      assert QueryAuthorizationPublicKey in mid <==> env.authorizationReachable;
    }
  }

  /**
   * A contradictory configuration (token filter on, SSL off) is only warned about: the warning
   * comes first, no secure bootstrap happens, and every registered descriptor is NOT_SECURE.
   */
  lemma ContradictoryConfigurationIsInsecure(cfg: Config, myAuthInfo: string, env: Environment)
    requires ContradictoryConfiguration(cfg)
    ensures InitCalls(cfg, env, CreateCarRequest(cfg, myAuthInfo), GetCarRequest(cfg, myAuthInfo))[0] == ContradictoryConfigurationWarning
    ensures QueryAuthorizationPublicKey !in InitCalls(cfg, env, CreateCarRequest(cfg, myAuthInfo), GetCarRequest(cfg, myAuthInfo))
    ensures forall r :: r in Registrations(InitCalls(cfg, env, CreateCarRequest(cfg, myAuthInfo), GetCarRequest(cfg, myAuthInfo))) ==> r.secure == NOT_SECURE
  {
    SecureBootstrapOnlyWithBothFlags(cfg, env, CreateCarRequest(cfg, myAuthInfo), GetCarRequest(cfg, myAuthInfo));
    InitRegistersCreateThenGet(cfg, env, CreateCarRequest(cfg, myAuthInfo), GetCarRequest(cfg, myAuthInfo));
  }

  /**
   * A descriptor registered with TOKEN security implies that the token filter was configured
   * with both keys before it.
   */
  lemma TokenRegistrationRequiresConfiguredFilter(cfg: Config, myAuthInfo: string, env: Environment)
    ensures forall r :: r in Registrations(InitCalls(cfg, env, CreateCarRequest(cfg, myAuthInfo), GetCarRequest(cfg, myAuthInfo))) && r.secure == TOKEN
              ==> FilterConfigured(cfg, env)
  {
    InitRegistersCreateThenGet(cfg, env, CreateCarRequest(cfg, myAuthInfo), GetCarRequest(cfg, myAuthInfo));
  }

  /** The views of a publish followed by two deregistrations. */
  lemma {:induction false} PublishThenTwoDeregistrations(
    first: Call, e: EventPublishRequest, d1: (string, string), d2: (string, string))
    requires !first.PublishToEventHandler? && !first.Unregister?
    ensures var calls := [first, PublishToEventHandler(e), Unregister(d1.0, d1.1), Unregister(d2.0, d2.1)];
            Publications(calls) == [e] && Deregistrations(calls) == [d1, d2]
  {
    var u1, u2 := Unregister(d1.0, d1.1), Unregister(d2.0, d2.1);
    var calls := [first, PublishToEventHandler(e), u1, u2];
    assert calls[1..] == [PublishToEventHandler(e), u1, u2];
    assert calls[1..][1..] == [u1, u2];
    assert calls[1..][1..][1..] == [u2];
    assert calls[1..][1..][1..][1..] == [];
    assert Publications([u2]) == [] && Deregistrations([u2]) == [d2];
    assert Publications([u1, u2]) == [] && Deregistrations([u1, u2]) == [d1, d2];
  }

  /**
   * Shutdown publishes exactly one event, carrying the extracted reading, and then deregisters
   * "create" and "get", in that order and with no other call; if the GET throws, it does neither.
   */
  lemma ShutdownPublishesThenDeregisters(cfg: Config, myAuthInfo: string, response: Response, timeStamp: string)
    ensures var calls := DestroyCalls(cfg, myAuthInfo, response, timeStamp);
            match response
            case Responded(body) =>
              && calls == [GetSubmodels(SUBMODELS_URL),
                           PublishToEventHandler(DestroyedEvent(cfg, myAuthInfo, Proximity.ProximityValue(body), timeStamp)),
                           Unregister(CREATE_CAR_SERVICE_DEFINITION, CAR_URI),
                           Unregister(GET_CAR_SERVICE_DEFINITION, CAR_URI)]
              && Publications(calls) == [DestroyedEvent(cfg, myAuthInfo, Proximity.ProximityValue(body), timeStamp)]
              && Deregistrations(calls)
                 == [(CREATE_CAR_SERVICE_DEFINITION, CAR_URI), (GET_CAR_SERVICE_DEFINITION, CAR_URI)]
            case RequestFailed =>
              calls == [GetSubmodels(SUBMODELS_URL)] && Publications(calls) == [] && Deregistrations(calls) == []
  {
    match response
    case Responded(body) =>
      var e := DestroyedEvent(cfg, myAuthInfo, Proximity.ProximityValue(body), timeStamp);
      var d1, d2 := (CREATE_CAR_SERVICE_DEFINITION, CAR_URI), (GET_CAR_SERVICE_DEFINITION, CAR_URI);
      assert DestroyCalls(cfg, myAuthInfo, response, timeStamp)
          == [GetSubmodels(SUBMODELS_URL), PublishToEventHandler(e), Unregister(d1.0, d1.1), Unregister(d2.0, d2.1)];
      PublishThenTwoDeregistrations(GetSubmodels(SUBMODELS_URL), e, d1, d2);
    case RequestFailed =>
      assert DestroyCalls(cfg, myAuthInfo, response, timeStamp) == [GetSubmodels(SUBMODELS_URL)];
      ViewsOfSingle(GetSubmodels(SUBMODELS_URL));
  }

  /**
   * Shutdown removes exactly the services startup registered: the (definition, URI) pairs
   * deregistered are those of the registered descriptors, in the same order.
   */
  lemma DeregistersWhatWasRegistered(
    cfg: Config, myAuthInfo: string, env: Environment, response: Response, timeStamp: string)
    requires InitOutcome(cfg, env).Pass? && response.Responded?
    ensures var registered := Registrations(InitCalls(cfg, env, CreateCarRequest(cfg, myAuthInfo), GetCarRequest(cfg, myAuthInfo)));
            var removed := Deregistrations(DestroyCalls(cfg, myAuthInfo, response, timeStamp));
            |removed| == |registered|
            && forall i :: 0 <= i < |removed| ==>
                 removed[i] == (registered[i].serviceDefinition, registered[i].serviceUri)
  {
    InitRegistersCreateThenGet(cfg, env, CreateCarRequest(cfg, myAuthInfo), GetCarRequest(cfg, myAuthInfo));
    ShutdownPublishesThenDeregisters(cfg, myAuthInfo, response, timeStamp);
  }

  /** The source identity of every published event is the provider identity registered with the services. */
  lemma EventSourceIsRegisteredIdentity(cfg: Config, myAuthInfo: string, payload: string, timeStamp: string)
    ensures DestroyedEvent(cfg, myAuthInfo, payload, timeStamp).source == CreateCarRequest(cfg, myAuthInfo).providerSystem
    ensures DestroyedEvent(cfg, myAuthInfo, payload, timeStamp).source == GetCarRequest(cfg, myAuthInfo).providerSystem
  {
  }

  /** A trace without deregistrations or publishes contributes to neither view. */
  lemma {:induction false} NoRemovalsOrEvents(calls: seq<Call>)
    requires forall i :: 0 <= i < |calls| ==> !calls[i].Unregister? && !calls[i].PublishToEventHandler?
    ensures Deregistrations(calls) == [] && Publications(calls) == []
  {
    if calls != [] {
      NoRemovalsOrEvents(calls[1..]);
    }
  }

  /** Startup, whether it completes or aborts, deregisters nothing and publishes nothing. */
  lemma InitRemovesAndPublishesNothing(cfg: Config, env: Environment, create: ServiceRegistryRequest, get: ServiceRegistryRequest)
    ensures Deregistrations(InitCalls(cfg, env, create, get)) == []
    ensures Publications(InitCalls(cfg, env, create, get)) == []
  {
    InitCallsSplit(cfg, env, create, get);
    var pre, mid := Prelude(cfg), SecureSegment(cfg, env);
    var reg := RegistrationCalls(create, get, env.eventHandlerEchoes);
    NoRemovalsOrEvents(pre);
    NoRemovalsOrEvents(mid);
    NoRemovalsOrEvents(reg);
    ViewsDistribute(pre, mid);
    ViewsDistribute(pre + mid, reg);
  }

  /** One run of `publishDestroyedEvent` publishes its event exactly when the GET answers, and touches no registration. */
  lemma PublishCallsViews(cfg: Config, myAuthInfo: string, response: Response, timeStamp: string)
    ensures Registrations(PublishCalls(cfg, myAuthInfo, response, timeStamp)) == []
    ensures Deregistrations(PublishCalls(cfg, myAuthInfo, response, timeStamp)) == []
    ensures Publications(PublishCalls(cfg, myAuthInfo, response, timeStamp))
         == if response.Responded?
            then [DestroyedEvent(cfg, myAuthInfo, Proximity.ProximityValue(response.body), timeStamp)]
            else []
  {
    var calls := PublishCalls(cfg, myAuthInfo, response, timeStamp);
    assert calls[0] == GetSubmodels(SUBMODELS_URL);
    if response.Responded? {
      assert calls[1..] == [calls[1]];
      ViewsOfSingle(calls[1]);
    } else {
      assert calls[1..] == [];
    }
  }

  /** The views of shutdown: no registration, and the publish and both deregistrations only if the GET answers. */
  lemma DestroyCallsViews(cfg: Config, myAuthInfo: string, response: Response, timeStamp: string)
    ensures Registrations(DestroyCalls(cfg, myAuthInfo, response, timeStamp)) == []
    ensures Deregistrations(DestroyCalls(cfg, myAuthInfo, response, timeStamp))
         == if response.Responded?
            then [(CREATE_CAR_SERVICE_DEFINITION, CAR_URI), (GET_CAR_SERVICE_DEFINITION, CAR_URI)]
            else []
    ensures Publications(DestroyCalls(cfg, myAuthInfo, response, timeStamp))
         == if response.Responded?
            then [DestroyedEvent(cfg, myAuthInfo, Proximity.ProximityValue(response.body), timeStamp)]
            else []
  {
    ShutdownPublishesThenDeregisters(cfg, myAuthInfo, response, timeStamp);
    NoRegistrations(DestroyCalls(cfg, myAuthInfo, response, timeStamp));
  }

  /** The views of three consecutive stretches of a trace. */
  lemma ViewsOfThree(a: seq<Call>, b: seq<Call>, c: seq<Call>)
    ensures Registrations(a + b + c) == Registrations(a) + Registrations(b) + Registrations(c)
    ensures Deregistrations(a + b + c) == Deregistrations(a) + Deregistrations(b) + Deregistrations(c)
    ensures Publications(a + b + c) == Publications(a) + Publications(b) + Publications(c)
  {
    ViewsDistribute(a, b);
    ViewsDistribute(a + b, c);
  }

  /**
   * Startup that only registers, shutdown that only deregisters and publishes, and timer firings
   * that only publish: the whole trace registers, deregisters and publishes what they do, in order.
   */
  lemma StagesCompose(
    init: seq<Call>, destroy: seq<Call>, tick: seq<Call>,
    registered: seq<ServiceRegistryRequest>, removed: seq<(string, string)>,
    atShutdown: seq<EventPublishRequest>, afterwards: seq<EventPublishRequest>)
    requires Registrations(init) == registered && Deregistrations(init) == [] && Publications(init) == []
    requires Registrations(destroy) == [] && Deregistrations(destroy) == removed && Publications(destroy) == atShutdown
    requires Registrations(tick) == [] && Deregistrations(tick) == [] && Publications(tick) == afterwards
    ensures Registrations(init + destroy + tick) == registered
    ensures Deregistrations(init + destroy + tick) == removed
    ensures Publications(init + destroy + tick) == atShutdown + afterwards
  {
    ViewsOfThree(init, destroy, tick);
    assert registered + [] + [] == registered;
    assert [] + removed + [] == removed;
    assert [] + atShutdown + afterwards == atShutdown + afterwards;
  }

  /** Position `|a| + k` of `a + b + c` lies in `b` or `c`. */
  lemma IndexIntoThree(a: seq<Call>, b: seq<Call>, c: seq<Call>, k: nat)
    requires k < |b| + |c|
    ensures (a + b + c)[|a| + k] == if k < |b| then b[k] else c[k - |b|]
  {
  }

  /**
   * Startup, shutdown and one later firing of the publishing timer, taken together: the trace
   * registers both descriptors once, deregisters "create" and "get" once if the shutdown GET
   * answers, and publishes the shutdown event and then the later one, each only if its GET answers.
   */
  lemma LifecycleViews(
    cfg: Config, myAuthInfo: string, env: Environment, create: ServiceRegistryRequest, get: ServiceRegistryRequest,
    atShutdown: Response, shutdownTime: string, later: Response, laterTime: string)
    requires InitOutcome(cfg, env).Pass?
    ensures var trace := InitCalls(cfg, env, create, get) + DestroyCalls(cfg, myAuthInfo, atShutdown, shutdownTime)
                         + PublishCalls(cfg, myAuthInfo, later, laterTime);
            && Registrations(trace) == [create, get]
            && Deregistrations(trace)
               == (if atShutdown.Responded?
                   then [(CREATE_CAR_SERVICE_DEFINITION, CAR_URI), (GET_CAR_SERVICE_DEFINITION, CAR_URI)]
                   else [])
            && Publications(trace)
               == (if atShutdown.Responded?
                   then [DestroyedEvent(cfg, myAuthInfo, Proximity.ProximityValue(atShutdown.body), shutdownTime)]
                   else [])
                  + (if later.Responded?
                     then [DestroyedEvent(cfg, myAuthInfo, Proximity.ProximityValue(later.body), laterTime)]
                     else [])
  {
    var init := InitCalls(cfg, env, create, get);
    var destroy := DestroyCalls(cfg, myAuthInfo, atShutdown, shutdownTime);
    var tick := PublishCalls(cfg, myAuthInfo, later, laterTime);
    InitRegistersCreateThenGet(cfg, env, create, get);
    InitRemovesAndPublishesNothing(cfg, env, create, get);
    DestroyCallsViews(cfg, myAuthInfo, atShutdown, shutdownTime);
    PublishCallsViews(cfg, myAuthInfo, later, laterTime);
    StagesCompose(init, destroy, tick, [create, get], Deregistrations(destroy), Publications(destroy), Publications(tick));
  }

  /**
   * The timer started by a completed startup is never cancelled, and `customDestroy` leaves it
   * running: a firing after a completed shutdown publishes again, as the last call of the
   * trace, after the deregistration of "get" which ends shutdown.
   */
  lemma PublishingOutlivesShutdown(
    cfg: Config, myAuthInfo: string, env: Environment, create: ServiceRegistryRequest, get: ServiceRegistryRequest,
    atShutdown: Response, shutdownTime: string, later: Response, laterTime: string)
    requires atShutdown.Responded? && later.Responded?
    ensures var init := InitCalls(cfg, env, create, get);
            var trace := init + DestroyCalls(cfg, myAuthInfo, atShutdown, shutdownTime)
                         + PublishCalls(cfg, myAuthInfo, later, laterTime);
            && |trace| == |init| + 6
            && trace[|init| + 3] == Unregister(GET_CAR_SERVICE_DEFINITION, CAR_URI)
            && trace[|init| + 5]
               == PublishToEventHandler(DestroyedEvent(cfg, myAuthInfo, Proximity.ProximityValue(later.body), laterTime))
  {
    var init := InitCalls(cfg, env, create, get);
    var destroy := DestroyCalls(cfg, myAuthInfo, atShutdown, shutdownTime);
    var tick := PublishCalls(cfg, myAuthInfo, later, laterTime);
    ShutdownPublishesThenDeregisters(cfg, myAuthInfo, atShutdown, shutdownTime);
    assert |tick| == 2;
    IndexIntoThree(init, destroy, tick, 3);
    IndexIntoThree(init, destroy, tick, 5);
  }

  // ---------------------------------------------------------------------------------------
  // The listener and the token filter it configures

  /** `TokenSecurityFilter`: holds the two keys, set through its setters. */
  class TokenSecurityFilter {
    var authorizationPublicKey: Option<PublicKey>
    var myPrivateKey: Option<PrivateKey>

    constructor ()
      ensures authorizationPublicKey.None? && myPrivateKey.None?
    {
      authorizationPublicKey := None;
      myPrivateKey := None;
    }

    method SetAuthorizationPublicKey(key: PublicKey)
      modifies this
      ensures authorizationPublicKey == Some(key) && myPrivateKey == old(myPrivateKey)
    {
      authorizationPublicKey := Some(key);
    }

    method SetMyPrivateKey(key: PrivateKey)
      modifies this
      ensures myPrivateKey == Some(key) && authorizationPublicKey == old(authorizationPublicKey)
    {
      myPrivateKey := Some(key);
    }
  }

  /**
   * `CarProviderWithPublishingApplicationInitListener`: its configuration, the provider's own
   * authentication info (Base64 of its public key), the filter it configures, the trace of what
   * it has done and whether its publishing timer is alive.
   */
  class CarProviderListener {
    const config: Config
    const myAuthInfo: string
    const filter: TokenSecurityFilter
    var calls: seq<Call>
    var timerRunning: bool

    constructor (config: Config, myAuthInfo: string, filter: TokenSecurityFilter)
      ensures this.config == config && this.myAuthInfo == myAuthInfo && this.filter == filter
      ensures calls == [] && !timerRunning
    {
      this.config := config;
      this.myAuthInfo := myAuthInfo;
      this.filter := filter;
      calls := [];
      timerRunning := false;
    }

    /** `checkConfiguration`: warns, and only warns, about a contradictory configuration. */
    method CheckConfiguration()
      modifies this`calls
      ensures calls == old(calls) + ConfigurationCalls(config)
    {
      if !config.sslEnabled && config.tokenSecurityFilterEnabled {
        calls := calls + [ContradictoryConfigurationWarning];
      }
    }

    /** `checkCoreSystemReachability` (inherited): throws when the core system does not answer. */
    method CheckCoreSystemReachability(system: CoreSystem, reachable: bool) returns (outcome: Outcome<StartupError>)
      modifies this`calls
      ensures calls == old(calls) + [CheckReachability(system)]
      ensures outcome == if reachable then Pass else Fail(Unreachable(system))
    {
      calls := calls + [CheckReachability(system)];
      outcome := if reachable then Pass else Fail(Unreachable(system));
    }

    /**
     * `setTokenSecurityFilter`: query the authorization key (null aborts), load the key store
     * (failure aborts), then hand both keys to the filter.
     */
    method SetTokenSecurityFilter(env: Environment) returns (outcome: Outcome<StartupError>)
      modifies this`calls, filter
      ensures calls == old(calls) + BootstrapCalls(env)
      ensures outcome == BootstrapOutcome(env)
      ensures outcome.Pass? ==> filter.authorizationPublicKey == env.authorizationPublicKey
                                && filter.myPrivateKey == env.providerPrivateKey
      ensures outcome.Fail? ==> unchanged(filter)
    {
      calls := calls + [QueryAuthorizationPublicKey];
      if env.authorizationPublicKey.None? {
        return Fail(NullAuthorizationPublicKey);
      }
      calls := calls + [LoadKeyStore];
      if env.providerPrivateKey.None? {
        return Fail(KeyStoreFailure);
      }
      filter.SetAuthorizationPublicKey(env.authorizationPublicKey.value);
      filter.SetMyPrivateKey(env.providerPrivateKey.value);
      outcome := Pass;
    }

    /** The secure branch of `customInit`: lines 85 to 90. */
    method SecureBootstrap(env: Environment) returns (outcome: Outcome<StartupError>)
      modifies this`calls, filter
      ensures calls == old(calls) + SecureBootstrapCalls(env)
      ensures outcome == SecureBootstrapOutcome(env)
      ensures outcome.Pass? ==> filter.authorizationPublicKey == env.authorizationPublicKey
                                && filter.myPrivateKey == env.providerPrivateKey
      ensures outcome.Fail? ==> unchanged(filter)
    {
      outcome := CheckCoreSystemReachability(AUTHORIZATION, env.authorizationReachable);
      if outcome.Fail? {
        return;
      }
      calls := calls + [UpdateCoreServiceUris(AUTHORIZATION)];
      outcome := SetTokenSecurityFilter(env);
    }

    /** Registration of both services, the event-handler probe and the start of the timer. */
    method RegisterAndSchedule(env: Environment)
      modifies this`calls, this`timerRunning
      ensures calls == old(calls) + RegistrationCalls(
                CreateCarRequest(config, myAuthInfo), GetCarRequest(config, myAuthInfo), env.eventHandlerEchoes)
      ensures timerRunning
    {
      var createCarServiceRequest := CreateServiceRegistryRequest(
        config, myAuthInfo, CREATE_CAR_SERVICE_DEFINITION, CAR_URI, POST);
      calls := calls + [ForceRegister(createCarServiceRequest)];
      var getCarServiceRequest := CreateServiceRegistryRequest(
        config, myAuthInfo, GET_CAR_SERVICE_DEFINITION, CAR_URI, GET);
      getCarServiceRequest := getCarServiceRequest.(metadata :=
        getCarServiceRequest.metadata[REQUEST_PARAM_KEY_BRAND := REQUEST_PARAM_BRAND]);
      getCarServiceRequest := getCarServiceRequest.(metadata :=
        getCarServiceRequest.metadata[REQUEST_PARAM_KEY_COLOR := REQUEST_PARAM_COLOR]);
      assert getCarServiceRequest == GetCarRequest(config, myAuthInfo);
      calls := calls + [ForceRegister(getCarServiceRequest)];
      calls := calls + [EchoCoreSystem(EVENTHANDLER)];
      if env.eventHandlerEchoes {
        calls := calls + [UpdateCoreServiceUris(EVENTHANDLER)];
      }
      calls := calls + [ScheduleAtFixedRate(PUBLISH_DELAY_MS, PUBLISH_PERIOD_MS)];
      timerRunning := true;
    }

    /** `customInit`: the startup sequence, stopping at the first step that throws. */
    method CustomInit(env: Environment) returns (outcome: Outcome<StartupError>)
      modifies this, filter
      ensures calls == old(calls) + InitCalls(config, env, CreateCarRequest(config, myAuthInfo), GetCarRequest(config, myAuthInfo))
      ensures outcome == InitOutcome(config, env)
      ensures timerRunning == (old(timerRunning) || outcome.Pass?)
      ensures FilterConfigured(config, env) ==> filter.authorizationPublicKey == env.authorizationPublicKey
                                                && filter.myPrivateKey == env.providerPrivateKey
      ensures !FilterConfigured(config, env) ==> unchanged(filter)
    {
      ghost var create, get := CreateCarRequest(config, myAuthInfo), GetCarRequest(config, myAuthInfo);
      InitCallsSplit(config, env, create, get);
      CheckConfiguration();
      outcome := CheckCoreSystemReachability(SERVICEREGISTRY, env.serviceRegistryReachable);
      assert calls == old(calls) + Prelude(config);
      if outcome.Fail? {
        return;
      }
      if config.sslEnabled && config.tokenSecurityFilterEnabled {
        outcome := SecureBootstrap(env);
        if outcome.Fail? {
          return;
        }
      }
      assert calls == old(calls) + Prelude(config) + SecureSegment(config, env);
      RegisterAndSchedule(env);
    }

    /**
     * `publishDestroyedEvent`: GET the submodels (a failure throws), extract the reading and
     * publish it.
     */
    method PublishDestroyedEvent(response: Response, timeStamp: string) returns (outcome: Outcome<PublishError>)
      modifies this`calls
      ensures calls == old(calls) + PublishCalls(config, myAuthInfo, response, timeStamp)
      ensures outcome == if response.RequestFailed? then Fail(SubmodelRequestFailed) else Pass
    {
      calls := calls + [GetSubmodels(SUBMODELS_URL)];
      if response.RequestFailed? {
        return Fail(SubmodelRequestFailed);
      }
      var proximityValue := Proximity.ExtractProximityValue(response.body);
      var source := SystemRequest(config.systemName, config.address, config.port, None);
      if config.sslEnabled {
        source := source.(authenticationInfo := Some(myAuthInfo));
      }
      var publishRequest := EventPublishRequest(PUBLISHER_DESTROYED, source, None, proximityValue, timeStamp);
      calls := calls + [PublishToEventHandler(publishRequest)];
      outcome := Pass;
    }

    /** `customDestroy`: one publish, then deregistration of "create" and of "get". */
    method CustomDestroy(response: Response, timeStamp: string) returns (outcome: Outcome<PublishError>)
      modifies this`calls
      ensures calls == old(calls) + DestroyCalls(config, myAuthInfo, response, timeStamp)
      ensures timerRunning == old(timerRunning)
      ensures outcome == if response.RequestFailed? then Fail(SubmodelRequestFailed) else Pass
    {
      outcome := PublishDestroyedEvent(response, timeStamp);
      if outcome.Fail? {
        return;
      }
      calls := calls + [Unregister(CREATE_CAR_SERVICE_DEFINITION, CAR_URI)];
      calls := calls + [Unregister(GET_CAR_SERVICE_DEFINITION, CAR_URI)];
    }

    /**
     * One firing of the publishing timer. A live timer runs `publishDestroyedEvent`; an exception
     * out of it ends the timer thread, so no later firing does anything.
     */
    method RunTimerTask(response: Response, timeStamp: string)
      modifies this`calls, this`timerRunning
      ensures old(timerRunning) ==> calls == old(calls) + PublishCalls(config, myAuthInfo, response, timeStamp)
                                    && timerRunning == response.Responded?
      ensures !old(timerRunning) ==> calls == old(calls) && !timerRunning
    {
      if timerRunning {
        var outcome := PublishDestroyedEvent(response, timeStamp);
        if outcome.Fail? {
          timerRunning := false;
        }
      }
    }
  }
}
