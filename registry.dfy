/**
 * The service-registry descriptors the car provider submits at startup:
 * `createServiceRegistryRequest` and the "create" and "get" descriptors built from it.
 */
module Registry {
  import opened Wrappers

  // Values of CarProviderWithPublishingConstants (that file is not part of this model;
  // the proofs only rely on the three metadata keys being distinct).
  const INTERFACE_SECURE := "HTTP-SECURE-JSON"
  const INTERFACE_INSECURE := "HTTP-INSECURE-JSON"
  const HTTP_METHOD := "http-method"
  const CAR_URI := "/car"
  const CREATE_CAR_SERVICE_DEFINITION := "create-car"
  const GET_CAR_SERVICE_DEFINITION := "get-car"
  const REQUEST_PARAM_KEY_BRAND := "request-param-brand"
  const REQUEST_PARAM_BRAND := "brand"
  const REQUEST_PARAM_KEY_COLOR := "request-param-color"
  const REQUEST_PARAM_COLOR := "color"

  datatype HttpMethod = GET | POST

  /** `HttpMethod.name()`. */
  function MethodName(m: HttpMethod): string
  {
    match m
    case GET => "GET"
    case POST => "POST"
  }

  /** `ServiceSecurityType`; the descriptor carries its name. */
  datatype SecurityType = TOKEN | CERTIFICATE | NOT_SECURE

  /** The provider's configuration: the two security flags and its own identity. */
  datatype Config = Config(
    sslEnabled: bool,
    tokenSecurityFilterEnabled: bool,
    systemName: string,
    address: string,
    port: int)

  /** `SystemRequestDTO`: the provider's identity as sent to the core systems. */
  datatype SystemRequest = SystemRequest(
    systemName: string,
    address: string,
    port: int,
    authenticationInfo: Option<string>)

  /** `ServiceRegistryRequestDTO`, restricted to the fields the provider sets. */
  datatype ServiceRegistryRequest = ServiceRegistryRequest(
    serviceDefinition: string,
    providerSystem: SystemRequest,
    serviceUri: string,
    secure: SecurityType,
    interfaces: seq<string>,
    metadata: map<string, string>)

  /** Token security is in force only when both flags are set. */
  predicate TokenSecurity(cfg: Config)
  {
    cfg.sslEnabled && cfg.tokenSecurityFilterEnabled
  }

  /**
   * The security fields of a descriptor agree with each other: it is NOT_SECURE exactly
   * when it offers the insecure interface, and exactly when it carries no authentication info.
   */
  predicate SecurityConsistent(r: ServiceRegistryRequest)
  {
    && |r.interfaces| == 1
    && (r.secure == NOT_SECURE <==> r.interfaces[0] == INTERFACE_INSECURE)
    && (r.secure == NOT_SECURE <==> r.providerSystem.authenticationInfo.None?)
  }

  /**
   * `createServiceRegistryRequest`: a descriptor for one service of this provider.
   * `myAuthInfo` stands for the Base64 text of the provider's public key.
   */
  function CreateServiceRegistryRequest(
    cfg: Config, myAuthInfo: string, serviceDefinition: string, serviceUri: string, httpMethod: HttpMethod
  ): (r: ServiceRegistryRequest)
    ensures r.secure == TOKEN <==> cfg.sslEnabled && cfg.tokenSecurityFilterEnabled
    ensures r.secure == CERTIFICATE <==> cfg.sslEnabled && !cfg.tokenSecurityFilterEnabled
    ensures r.secure == NOT_SECURE <==> !cfg.sslEnabled
    ensures r.interfaces == [if cfg.sslEnabled then INTERFACE_SECURE else INTERFACE_INSECURE]
    ensures r.providerSystem.authenticationInfo == if cfg.sslEnabled then Some(myAuthInfo) else None
    ensures r.providerSystem.systemName == cfg.systemName && r.providerSystem.address == cfg.address
    ensures r.providerSystem.port == cfg.port
    ensures r.serviceDefinition == serviceDefinition && r.serviceUri == serviceUri
    ensures HTTP_METHOD in r.metadata && r.metadata[HTTP_METHOD] == MethodName(httpMethod)
    ensures r.metadata.Keys == {HTTP_METHOD}
    ensures SecurityConsistent(r)
  {
    var identity := SystemRequest(cfg.systemName, cfg.address, cfg.port, None);
    var withSecurity :=
      if cfg.sslEnabled && cfg.tokenSecurityFilterEnabled then
        (identity.(authenticationInfo := Some(myAuthInfo)), TOKEN, [INTERFACE_SECURE])
      else if cfg.sslEnabled then
        (identity.(authenticationInfo := Some(myAuthInfo)), CERTIFICATE, [INTERFACE_SECURE])
      else
        (identity, NOT_SECURE, [INTERFACE_INSECURE]);
    ServiceRegistryRequest(
      serviceDefinition, withSecurity.0, serviceUri, withSecurity.1, withSecurity.2,
      map[HTTP_METHOD := MethodName(httpMethod)])
  }

  /** The "create car" descriptor registered first by `customInit`. */
  function CreateCarRequest(cfg: Config, myAuthInfo: string): (r: ServiceRegistryRequest)
    ensures r.serviceDefinition == CREATE_CAR_SERVICE_DEFINITION && r.serviceUri == CAR_URI
    ensures r.metadata == map[HTTP_METHOD := "POST"]
    ensures SecurityConsistent(r)
  {
    CreateServiceRegistryRequest(cfg, myAuthInfo, CREATE_CAR_SERVICE_DEFINITION, CAR_URI, POST)
  }

  /**
   * The "get car" descriptor registered second by `customInit`: the generic descriptor
   * with the brand and color request parameters added to its metadata.
   */
  function GetCarRequest(cfg: Config, myAuthInfo: string): (r: ServiceRegistryRequest)
    ensures r.serviceDefinition == GET_CAR_SERVICE_DEFINITION && r.serviceUri == CAR_URI
    ensures r.metadata.Keys == {HTTP_METHOD, REQUEST_PARAM_KEY_BRAND, REQUEST_PARAM_KEY_COLOR}
    ensures r.metadata[HTTP_METHOD] == "GET"
    ensures r.metadata[REQUEST_PARAM_KEY_BRAND] == REQUEST_PARAM_BRAND
    ensures r.metadata[REQUEST_PARAM_KEY_COLOR] == REQUEST_PARAM_COLOR
    ensures SecurityConsistent(r)
  {
    var base := CreateServiceRegistryRequest(cfg, myAuthInfo, GET_CAR_SERVICE_DEFINITION, CAR_URI, GET);
    base.(metadata := base.metadata[REQUEST_PARAM_KEY_BRAND := REQUEST_PARAM_BRAND]
                                   [REQUEST_PARAM_KEY_COLOR := REQUEST_PARAM_COLOR])
  }

  /**
   * The two descriptors differ only in definition and metadata: both carry the same
   * security type, interfaces and provider identity, whatever the configuration.
   */
  lemma CarRequestsShareSecurity(cfg: Config, myAuthInfo: string)
    ensures CreateCarRequest(cfg, myAuthInfo).secure == GetCarRequest(cfg, myAuthInfo).secure
    ensures CreateCarRequest(cfg, myAuthInfo).interfaces == GetCarRequest(cfg, myAuthInfo).interfaces
    ensures CreateCarRequest(cfg, myAuthInfo).providerSystem == GetCarRequest(cfg, myAuthInfo).providerSystem
    ensures CreateCarRequest(cfg, myAuthInfo).serviceUri == GetCarRequest(cfg, myAuthInfo).serviceUri
  {
  }
}
