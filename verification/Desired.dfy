/**
 The custom resource, its resolved references, and the requests made from them (internal/controller/desired.go).
 The enumerations of the spec and of the API are the same types here: the operator's tables rename them one to one.
 */
module Desired {
  import opened Base
  import opened Api
  import opened Patch
  import opened Matching
  import opened Server

  // ---------- spec ----------

  /** A reference by a name-like key or by UUID; the CRD admits exactly one. */
  datatype Reference = ByName(name: string) | ByUuid(uuid: Key)
  datatype UserReference = ByUsername(username: string) | ByPk(pk: int)

  datatype RuleSubjectSpec = GroupRule(group: Reference) | UserRule(user: UserReference) | PolicyRule(policy: Reference)
  datatype RuleSpec = RuleSpec(subject: RuleSubjectSpec, negate: Option<bool>)

  datatype AdoptionPolicy = Never | IfMatch | Force

  datatype FlowsSpec = FlowsSpec(authorization: Reference, invalidation: Reference, authentication: Option<Reference>)

  datatype ProxyModeSpec =
    | ReverseProxy(externalHost: string, internalHost: string, internalHostSslValidation: Option<bool>)
    | ForwardAuthSingle(externalHost: string)
    | ForwardAuthDomain(authenticationUrl: string, cookieDomain: string)

  datatype BasicAuthSpec = BasicAuthSpec(userAttribute: string, passwordAttribute: string)

  datatype RedirectUriSpec = RedirectUriSpec(url: string, matchingMode: Option<MatchingMode>, uriType: Option<RedirectType>)

  /** The Secret with the OAuth2 credentials; a client ID in the spec takes the place of the one in the Secret. */
  datatype CredentialsSpec = CredentialsSpec(clientId: Option<string>, clientIdKey: Option<string>, clientSecretKey: Option<string>)

  datatype ProviderKindSpec =
    | ProxySpec(
        mode: ProxyModeSpec,
        unauthenticatedPaths: Option<seq<string>>,
        basicAuth: Option<BasicAuthSpec>,
        interceptHeaderAuth: Option<bool>,
        accessTokenValidity: Option<string>,
        refreshTokenValidity: Option<string>,
        certificate: Option<Reference>,
        outpost: Option<Reference>)
    | OAuth2Spec(
        clientType: Option<ClientType>,
        redirectUris: Option<seq<RedirectUriSpec>>,
        scopes: Option<seq<Reference>>,
        signingKey: Option<Reference>,
        encryptionKey: Option<Reference>,
        grantTypes: Option<seq<GrantType>>,
        subjectMode: Option<SubMode>,
        issuerMode: Option<IssuerMode>,
        includeClaimsInIdToken: Option<bool>,
        accessCodeValidity: Option<string>,
        accessTokenLifetime: Option<string>,
        refreshTokenLifetime: Option<string>,
        refreshTokenThreshold: Option<string>,
        logoutUri: Option<string>,
        logoutMethod: Option<LogoutMethod>,
        credentials: Option<CredentialsSpec>)

  datatype ProviderSpec = ProviderSpec(name: Option<string>, flows: FlowsSpec, kind: ProviderKindSpec)

  datatype Spec = Spec(
    slug: string,
    name: string,
    launchUrl: Option<string>,
    icon: Option<string>,
    description: Option<string>,
    publisher: Option<string>,
    group: Option<string>,
    openInNewTab: Option<bool>,
    hideFromDashboard: Option<bool>,
    mode: Option<PolicyEngineMode>,
    rules: seq<RuleSpec>,
    prune: bool,
    public: bool,
    adopt: Option<AdoptionPolicy>,
    deleteObjects: bool,
    provider: Option<ProviderSpec>)

  const EMBEDDED_OUTPOST := "authentik Embedded Outpost"

  /** A Proxy Provider joins the embedded Outpost unless the spec names another. */
  function OutpostReference(outpost: Option<Reference>): Reference {
    if outpost.Some? then outpost.value else ByName(EMBEDDED_OUTPOST)
  }

  // ---------- resolved references ----------

  datatype Flows = Flows(authorization: Key, invalidation: Key, authentication: Option<Key>)
  datatype Credentials = Credentials(secretExists: bool, clientId: string, clientSecret: string)
  datatype ProxyReferences = ProxyReferences(certificate: Option<Key>, outpost: Key)
  datatype OAuth2References = OAuth2References(
    scopes: Option<seq<Key>>, signingKey: Option<Key>, encryptionKey: Option<Key>, credentials: Option<Credentials>)
  datatype CreationDefaults = CreationDefaults(scopes: seq<Key>, signingKey: Option<Key>)

  // ---------- Application ----------

  function NullableOf<T>(value: Option<T>): Nullable<T> {
    if value.Some? then Value(value.value) else Unset
  }

  function DesiredApplication(spec: Spec, providerPk: Option<Key>): PatchedApplication {
    PatchedApplication(
      Some(spec.name), None, NullableOf(providerPk), spec.openInNewTab, spec.launchUrl, spec.icon, spec.description,
      spec.publisher, spec.mode, spec.group, spec.hideFromDashboard)
  }

  function CreateApplicationRequest(slug: string, desired: PatchedApplication): ApplicationRequest
    requires desired.name.Some?
  {
    ApplicationRequest(
      desired.name.value, slug, desired.provider, desired.openInNewTab, desired.metaLaunchUrl, desired.metaIcon,
      desired.metaDescription, desired.metaPublisher, desired.policyEngineMode, desired.group, desired.metaHide)
  }

  function ProviderName(spec: Spec): string
    requires spec.provider.Some?
  {
    if spec.provider.value.name.Some? then spec.provider.value.name.value else spec.slug
  }

  // ---------- Proxy Provider ----------

  function Join(parts: seq<string>): string {
    if parts == [] then "" else if |parts| == 1 then parts[0] else parts[0] + "\n" + Join(parts[1..])
  }

  function DesiredProxyProvider(provider: ProviderSpec, flows: Flows, refs: ProxyReferences): PatchedProxyProvider
    requires provider.kind.ProxySpec?
  {
    var proxy := provider.kind;
    var desired := NO_PROXY_FIELDS.(
      name := provider.name,
      authorizationFlow := Some(flows.authorization),
      invalidationFlow := Some(flows.invalidation),
      authenticationFlow := NullableOf(flows.authentication),
      certificate := NullableOf(refs.certificate),
      interceptHeaderAuth := proxy.interceptHeaderAuth,
      accessTokenValidity := proxy.accessTokenValidity,
      refreshTokenValidity := proxy.refreshTokenValidity,
      skipPathRegex := if proxy.unauthenticatedPaths.Some? then Some(Join(proxy.unauthenticatedPaths.value)) else None,
      basicAuthEnabled := if proxy.basicAuth.Some? then Some(true) else None,
      basicAuthUserAttribute := if proxy.basicAuth.Some? then Some(proxy.basicAuth.value.userAttribute) else None,
      basicAuthPasswordAttribute := if proxy.basicAuth.Some? then Some(proxy.basicAuth.value.passwordAttribute) else None);
    match proxy.mode
    case ReverseProxy(externalHost, internalHost, validation) =>
      desired.(mode := Some(Proxy), externalHost := Some(externalHost), internalHost := Some(internalHost),
               internalHostSslValidation := validation)
    case ForwardAuthSingle(externalHost) =>
      desired.(mode := Some(ForwardSingle), externalHost := Some(externalHost))
    case ForwardAuthDomain(authenticationUrl, cookieDomain) =>
      desired.(mode := Some(ForwardDomain), externalHost := Some(authenticationUrl), cookieDomain := Some(cookieDomain))
  }

  function CreateProxyProviderRequest(name: string, desired: PatchedProxyProvider): ProxyProviderRequest
    requires desired.authorizationFlow.Some? && desired.invalidationFlow.Some?
  {
    ProxyProviderRequest(
      name, desired.authenticationFlow, desired.authorizationFlow.value, desired.invalidationFlow.value,
      desired.internalHost, PatchValue(desired.externalHost, ""), desired.internalHostSslValidation, desired.certificate,
      desired.skipPathRegex, desired.basicAuthEnabled, desired.basicAuthPasswordAttribute, desired.basicAuthUserAttribute,
      desired.mode, desired.interceptHeaderAuth, desired.cookieDomain, desired.accessTokenValidity,
      desired.refreshTokenValidity)
  }

  // ---------- OAuth2 Provider ----------

  function DesiredRedirect(uri: RedirectUriSpec): RedirectUri {
    RedirectUri(uri.url, PatchValue(uri.matchingMode, Strict), Some(PatchValue(uri.uriType, Authorization)))
  }

  function DesiredRedirects(uris: seq<RedirectUriSpec>): seq<RedirectUri> {
    seq(|uris|, i requires 0 <= i < |uris| => DesiredRedirect(uris[i]))
  }

  function DesiredOAuth2Provider(provider: ProviderSpec, flows: Flows, refs: OAuth2References): PatchedOAuth2Provider
    requires provider.kind.OAuth2Spec?
  {
    var oauth2 := provider.kind;
    PatchedOAuth2Provider(
      provider.name,
      NullableOf(flows.authentication),
      Some(flows.authorization),
      Some(flows.invalidation),
      refs.scopes,
      oauth2.clientType,
      oauth2.grantTypes,
      if refs.credentials.Some? && refs.credentials.value.clientId != "" then Some(refs.credentials.value.clientId) else None,
      if refs.credentials.Some? && refs.credentials.value.secretExists then Some(refs.credentials.value.clientSecret) else None,
      oauth2.accessCodeValidity,
      oauth2.accessTokenLifetime,
      oauth2.refreshTokenLifetime,
      oauth2.refreshTokenThreshold,
      oauth2.includeClaimsInIdToken,
      NullableOf(refs.signingKey),
      NullableOf(refs.encryptionKey),
      if oauth2.redirectUris.Some? then Some(DesiredRedirects(oauth2.redirectUris.value)) else None,
      oauth2.logoutUri,
      oauth2.logoutMethod,
      oauth2.subjectMode,
      oauth2.issuerMode)
  }

  function CreateOAuth2ProviderRequest(name: string, desired: PatchedOAuth2Provider,
                                       defaults: CreationDefaults): OAuth2ProviderRequest
    requires desired.authorizationFlow.Some? && desired.invalidationFlow.Some?
  {
    OAuth2ProviderRequest(
      name, desired.authenticationFlow, desired.authorizationFlow.value, desired.invalidationFlow.value,
      if desired.propertyMappings.None? then Some(defaults.scopes) else desired.propertyMappings,
      desired.clientType, desired.grantTypes, desired.clientId, desired.clientSecret, desired.accessCodeValidity,
      desired.accessTokenValidity, desired.refreshTokenValidity, desired.refreshTokenThreshold,
      desired.includeClaimsInIdToken,
      if desired.signingKey.Unset? && defaults.signingKey.Some? then Value(defaults.signingKey.value) else desired.signingKey,
      desired.encryptionKey, PatchValue(desired.redirectUris, []), desired.logoutUri, desired.logoutMethod,
      desired.subMode, desired.issuerMode)
  }

  // ---------- the credentials Secret ----------

  const DEFAULT_CLIENT_ID_KEY := "client-id"
  const DEFAULT_CLIENT_SECRET_KEY := "client-secret"

  function ClientIdKey(spec: CredentialsSpec): string {
    PatchValue(spec.clientIdKey, DEFAULT_CLIENT_ID_KEY)
  }

  function ClientSecretKey(spec: CredentialsSpec): string {
    PatchValue(spec.clientSecretKey, DEFAULT_CLIENT_SECRET_KEY)
  }

  /** What the operator writes into a new Secret; of two values under one key the client secret is written last. */
  function ExportedSecret(spec: CredentialsSpec, provider: OAuth2Provider): map<string, string> {
    (if spec.clientId.None? && provider.clientId.Some? then map[ClientIdKey(spec) := provider.clientId.value] else map[])
    + (if provider.clientSecret.Some? then map[ClientSecretKey(spec) := provider.clientSecret.value] else map[])
  }

  /** The credentials that a Secret holds, when it has every key. */
  function ReadCredentials(spec: CredentialsSpec, secret: Option<map<string, string>>): Option<Credentials> {
    if secret.None? then Some(Credentials(false, PatchValue(spec.clientId, ""), ""))
    else if ClientSecretKey(spec) !in secret.value || (spec.clientId.None? && ClientIdKey(spec) !in secret.value) then None
    else Some(Credentials(true, if spec.clientId.Some? then spec.clientId.value
                          else secret.value[ClientIdKey(spec)], secret.value[ClientSecretKey(spec)]))
  }

  /** Both values are written under one key. */
  predicate OneKey(spec: CredentialsSpec) {
    spec.clientId.None? && ClientIdKey(spec) == ClientSecretKey(spec)
  }

  /**
   Reading back an exported Secret: with two keys it gives the credentials of the Provider, and works if and only if the
   Provider has those that were written. With one key for both, the client secret comes back as the client ID as well.
   */
  lemma ExportedCredentials(spec: CredentialsSpec, provider: OAuth2Provider)
    ensures var read := ReadCredentials(spec, Some(ExportedSecret(spec, provider)));
            if OneKey(spec) then
              && (read.Some? <==> provider.clientSecret.Some? || provider.clientId.Some?)
              && (provider.clientSecret.Some? ==>
                    read == Some(Credentials(true, provider.clientSecret.value, provider.clientSecret.value)))
            else
              && (read.Some? <==> provider.clientSecret.Some? && (spec.clientId.None? ==> provider.clientId.Some?))
              && (read.Some? ==>
                    read == Some(Credentials(true, if spec.clientId.Some? then spec.clientId.value
                                             else provider.clientId.value, provider.clientSecret.value)))
  {}

  // ---------- PolicyBinding ----------

  /** The managed fields of the Binding of a rule; order is not managed. */
  function DesiredBinding(target: Key, rule: Rule): PatchedBinding
    requires ValidRule(rule)
  {
    var desired := PatchedBinding(Unset, Unset, Unset, Some(target), Some(rule.negate), None, None, None, None);
    if rule.group.Some? then desired.(group := Value(rule.group.value))
    else if rule.user.Some? then desired.(user := Value(rule.user.value))
    else desired.(policy := Value(rule.policy.value))
  }

  function CreateBindingRequest(desired: PatchedBinding, order: int): BindingRequest
    requires desired.target.Some?
  {
    BindingRequest(desired.policy, desired.group, desired.user, desired.target.value, desired.negate, order)
  }

  // ---------- a created object needs no repair ----------

  lemma CreatedApplicationSettled(spec: Spec, providerPk: Option<Key>, pk: Key)
    ensures var desired := DesiredApplication(spec, providerPk);
            var stored := StoredApplication(CreateApplicationRequest(spec.slug, desired), pk);
            DiffApplication(desired, stored).None? && DiffApplication(DesiredApplication(spec, None), stored).None?
  {
    var desired := DesiredApplication(spec, providerPk);
    var stored := StoredApplication(CreateApplicationRequest(spec.slug, desired), pk);
    ApplicationDiffExact(desired, stored);
  }

  /** The server accepts the creation in every mode, given an internal host in mode proxy. */
  lemma CreatedProxyProviderSettled(spec: Spec, flows: Flows, refs: ProxyReferences, pk: Key)
    requires spec.provider.Some? && spec.provider.value.kind.ProxySpec?
    ensures var provider := spec.provider.value;
            var desired := DesiredProxyProvider(provider, flows, refs);
            var request := CreateProxyProviderRequest(ProviderName(spec), desired);
            && DiffProxyProvider(desired, StoredProxyProvider(request, pk)).None?
            && (ProxyModeAccepted(request.mode, request.internalHost) <==>
                provider.kind.mode.ReverseProxy? ==> provider.kind.mode.internalHost != "")
  {
    var desired := DesiredProxyProvider(spec.provider.value, flows, refs);
    var stored := StoredProxyProvider(CreateProxyProviderRequest(ProviderName(spec), desired), pk);
    ProxyDiffExact(desired, stored);
  }

  /**
   Which repairs of a Proxy Provider the server accepts: in a forward mode all of them, and in mode proxy only those of an
   internal host that is not the desired one, so that any other drift of such a Provider stays; in either mode none that
   renames it to the name of another Provider.
   */
  lemma ProxyRepairAccepted(provider: ProviderSpec, flows: Flows, refs: ProxyReferences, proxies: map<Key, ProxyProvider>,
                            oauth2s: map<Key, OAuth2Provider>, pk: Key)
    requires provider.kind.ProxySpec? && pk in proxies
    requires DiffProxyProvider(DesiredProxyProvider(provider, flows, refs), proxies[pk]).Some?
    ensures var patch := DiffProxyProvider(DesiredProxyProvider(provider, flows, refs), proxies[pk]).value;
            ProxyPatchValid(proxies, oauth2s, pk, patch) <==>
              && (provider.kind.mode.ReverseProxy? ==>
                    provider.kind.mode.internalHost != "" && proxies[pk].internalHost != Some(provider.kind.mode.internalHost))
              && (provider.name.Some? && provider.name.value != proxies[pk].name ==>
                    !ProviderNameTaken(proxies, oauth2s, provider.name.value, pk))
  {
    hide ProviderNameTaken;
    ProxyPatchAccepted(DesiredProxyProvider(provider, flows, refs), proxies[pk]);
  }

  lemma CreatedOAuth2ProviderSettled(spec: Spec, flows: Flows, refs: OAuth2References, defaults: CreationDefaults, pk: Key,
                                     id: string, secret: string)
    requires spec.provider.Some? && spec.provider.value.kind.OAuth2Spec?
    ensures var desired := DesiredOAuth2Provider(spec.provider.value, flows, refs);
            var request := CreateOAuth2ProviderRequest(ProviderName(spec), desired, defaults);
            DiffOAuth2Provider(desired, StoredOAuth2Provider(request, pk, id, secret)).None?
  {
    var desired := DesiredOAuth2Provider(spec.provider.value, flows, refs);
    var stored := StoredOAuth2Provider(CreateOAuth2ProviderRequest(ProviderName(spec), desired, defaults), pk, id, secret);
    OAuth2DiffExact(desired, stored);
  }

  lemma CreatedBindingSettled(target: Key, rule: Rule, order: int, pk: Key)
    requires ValidRule(rule)
    ensures var desired := DesiredBinding(target, rule);
            var request := CreateBindingRequest(desired, order);
            var stored := StoredBinding(request, pk);
            && OneSubject(request.policy, request.group, request.user)
            && DiffBinding(desired, stored).None?
            && BindingClass(stored) == RuleClass(rule)
            && SingleSubject(stored)
  {}

  /** A Binding needs no repair exactly when it is on the target, of the rule's class, and has an explicit negate. */
  lemma SettledBinding(target: Key, rule: Rule, binding: Binding)
    requires ValidRule(rule) && SingleSubject(binding)
    ensures DiffBinding(DesiredBinding(target, rule), binding).None? <==>
              binding.target == target && BindingClass(binding) == RuleClass(rule) && binding.negate.Some?
  {
    var desired := DesiredBinding(target, rule);
    BindingDiffExact(desired, binding);
    assert HasValue(desired.target, binding.target) <==> binding.target == target;
    if binding.negate.Some? && !binding.negate.value {
      assert binding.negate == Some(false);
    }
    assert HasPointer(desired.negate, binding.negate) <==> binding.negate.Some? && Negated(binding) == rule.negate;
    assert (&& HasNullable(desired.policy, binding.policy) && HasNullable(desired.group, binding.group)
            && HasNullable(desired.user, binding.user)) <==> ObservedSubject(binding) == RuleSubject(rule);
  }
}
