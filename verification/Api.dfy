/** The API models of authentik that the operator reads and writes, and the bodies of its requests. */
module Api {
  import opened Base

  datatype PolicyEngineMode = Any | All
  datatype ProxyMode = Proxy | ForwardSingle | ForwardDomain
  datatype ClientType = Confidential | Public
  datatype GrantType =
    | AuthorizationCode | Implicit | Hybrid | RefreshToken | ClientCredentials | Password | DeviceCode | TokenExchange
  datatype SubMode = HashedUserId | UserId | UserUuid | UserUsername | UserEmail | UserUpn
  datatype IssuerMode = Global | PerProvider
  datatype LogoutMethod = BackChannel | FrontChannel
  datatype MatchingMode = Strict | Regex
  datatype RedirectType = Authorization | Logout

  datatype RedirectUri = RedirectUri(url: string, matchingMode: MatchingMode, uriType: Option<RedirectType>)

  datatype Application = Application(
    pk: Key,
    pbmUuid: Key,
    name: string,
    slug: string,
    provider: Nullable<Key>,
    backchannelProviders: seq<Key>,
    openInNewTab: Option<bool>,
    metaLaunchUrl: Option<string>,
    metaIcon: Option<string>,
    metaDescription: Option<string>,
    metaPublisher: Option<string>,
    policyEngineMode: Option<PolicyEngineMode>,
    group: Option<string>,
    metaHide: Option<bool>)

  datatype ApplicationRequest = ApplicationRequest(
    name: string,
    slug: string,
    provider: Nullable<Key>,
    openInNewTab: Option<bool>,
    metaLaunchUrl: Option<string>,
    metaIcon: Option<string>,
    metaDescription: Option<string>,
    metaPublisher: Option<string>,
    policyEngineMode: Option<PolicyEngineMode>,
    group: Option<string>,
    metaHide: Option<bool>)

  datatype PatchedApplication = PatchedApplication(
    name: Option<string>,
    slug: Option<string>,
    provider: Nullable<Key>,
    openInNewTab: Option<bool>,
    metaLaunchUrl: Option<string>,
    metaIcon: Option<string>,
    metaDescription: Option<string>,
    metaPublisher: Option<string>,
    policyEngineMode: Option<PolicyEngineMode>,
    group: Option<string>,
    metaHide: Option<bool>)

  datatype ProxyProvider = ProxyProvider(
    pk: Key,
    name: string,
    authenticationFlow: Nullable<Key>,
    authorizationFlow: Key,
    invalidationFlow: Key,
    propertyMappings: seq<Key>,
    internalHost: Option<string>,
    externalHost: string,
    internalHostSslValidation: Option<bool>,
    certificate: Nullable<Key>,
    skipPathRegex: Option<string>,
    basicAuthEnabled: Option<bool>,
    basicAuthPasswordAttribute: Option<string>,
    basicAuthUserAttribute: Option<string>,
    mode: Option<ProxyMode>,
    interceptHeaderAuth: Option<bool>,
    cookieDomain: Option<string>,
    accessTokenValidity: Option<string>,
    refreshTokenValidity: Option<string>)

  datatype ProxyProviderRequest = ProxyProviderRequest(
    name: string,
    authenticationFlow: Nullable<Key>,
    authorizationFlow: Key,
    invalidationFlow: Key,
    internalHost: Option<string>,
    externalHost: string,
    internalHostSslValidation: Option<bool>,
    certificate: Nullable<Key>,
    skipPathRegex: Option<string>,
    basicAuthEnabled: Option<bool>,
    basicAuthPasswordAttribute: Option<string>,
    basicAuthUserAttribute: Option<string>,
    mode: Option<ProxyMode>,
    interceptHeaderAuth: Option<bool>,
    cookieDomain: Option<string>,
    accessTokenValidity: Option<string>,
    refreshTokenValidity: Option<string>)

  datatype PatchedProxyProvider = PatchedProxyProvider(
    name: Option<string>,
    authenticationFlow: Nullable<Key>,
    authorizationFlow: Option<Key>,
    invalidationFlow: Option<Key>,
    propertyMappings: Option<seq<Key>>,
    internalHost: Option<string>,
    externalHost: Option<string>,
    internalHostSslValidation: Option<bool>,
    certificate: Nullable<Key>,
    skipPathRegex: Option<string>,
    basicAuthEnabled: Option<bool>,
    basicAuthPasswordAttribute: Option<string>,
    basicAuthUserAttribute: Option<string>,
    mode: Option<ProxyMode>,
    interceptHeaderAuth: Option<bool>,
    cookieDomain: Option<string>,
    accessTokenValidity: Option<string>,
    refreshTokenValidity: Option<string>)

  datatype OAuth2Provider = OAuth2Provider(
    pk: Key,
    name: string,
    authenticationFlow: Nullable<Key>,
    authorizationFlow: Key,
    invalidationFlow: Key,
    propertyMappings: seq<Key>,
    clientType: Option<ClientType>,
    grantTypes: seq<GrantType>,
    clientId: Option<string>,
    clientSecret: Option<string>,
    accessCodeValidity: Option<string>,
    accessTokenValidity: Option<string>,
    refreshTokenValidity: Option<string>,
    refreshTokenThreshold: Option<string>,
    includeClaimsInIdToken: Option<bool>,
    signingKey: Nullable<Key>,
    encryptionKey: Nullable<Key>,
    redirectUris: seq<RedirectUri>,
    logoutUri: Option<string>,
    logoutMethod: Option<LogoutMethod>,
    subMode: Option<SubMode>,
    issuerMode: Option<IssuerMode>)

  datatype OAuth2ProviderRequest = OAuth2ProviderRequest(
    name: string,
    authenticationFlow: Nullable<Key>,
    authorizationFlow: Key,
    invalidationFlow: Key,
    propertyMappings: Option<seq<Key>>,
    clientType: Option<ClientType>,
    grantTypes: Option<seq<GrantType>>,
    clientId: Option<string>,
    clientSecret: Option<string>,
    accessCodeValidity: Option<string>,
    accessTokenValidity: Option<string>,
    refreshTokenValidity: Option<string>,
    refreshTokenThreshold: Option<string>,
    includeClaimsInIdToken: Option<bool>,
    signingKey: Nullable<Key>,
    encryptionKey: Nullable<Key>,
    redirectUris: seq<RedirectUri>,
    logoutUri: Option<string>,
    logoutMethod: Option<LogoutMethod>,
    subMode: Option<SubMode>,
    issuerMode: Option<IssuerMode>)

  datatype PatchedOAuth2Provider = PatchedOAuth2Provider(
    name: Option<string>,
    authenticationFlow: Nullable<Key>,
    authorizationFlow: Option<Key>,
    invalidationFlow: Option<Key>,
    propertyMappings: Option<seq<Key>>,
    clientType: Option<ClientType>,
    grantTypes: Option<seq<GrantType>>,
    clientId: Option<string>,
    clientSecret: Option<string>,
    accessCodeValidity: Option<string>,
    accessTokenValidity: Option<string>,
    refreshTokenValidity: Option<string>,
    refreshTokenThreshold: Option<string>,
    includeClaimsInIdToken: Option<bool>,
    signingKey: Nullable<Key>,
    encryptionKey: Nullable<Key>,
    redirectUris: Option<seq<RedirectUri>>,
    logoutUri: Option<string>,
    logoutMethod: Option<LogoutMethod>,
    subMode: Option<SubMode>,
    issuerMode: Option<IssuerMode>)

  datatype Binding = Binding(
    pk: Key,
    policy: Nullable<Key>,
    group: Nullable<Key>,
    user: Nullable<int>,
    target: Key,
    negate: Option<bool>,
    enabled: Option<bool>,
    order: int,
    timeout: Option<int>,
    failureResult: Option<bool>)

  datatype BindingRequest = BindingRequest(
    policy: Nullable<Key>,
    group: Nullable<Key>,
    user: Nullable<int>,
    target: Key,
    negate: Option<bool>,
    order: int)

  datatype PatchedBinding = PatchedBinding(
    policy: Nullable<Key>,
    group: Nullable<Key>,
    user: Nullable<int>,
    target: Option<Key>,
    negate: Option<bool>,
    enabled: Option<bool>,
    order: Option<int>,
    timeout: Option<int>,
    failureResult: Option<bool>)

  datatype Outpost = Outpost(pk: Key, name: string, providers: seq<Key>)

  /** An access rule with its subject resolved. */
  datatype Rule = Rule(group: Option<Key>, user: Option<int>, policy: Option<Key>, negate: bool)

  /** The models that carry the ownership marker, and a marked object. */
  datatype Model = ApplicationModel | ProxyProviderModel | OAuth2ProviderModel | BindingModel
  datatype Object = Object(model: Model, pk: Key)
}
