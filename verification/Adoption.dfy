/** Adoption of an Application that exists but is not managed (internal/controller/adoption.go). */
module Adoption {
  import opened Base
  import opened Api
  import opened Patch
  import opened Server
  import opened Desired
  import opened Resources
  import opened Providers

  // ---------- the fields of an adoption diff ----------

  predicate Changes<T(==)>(patch: Option<T>, observed: T) {
    patch.Some? && patch.value != observed
  }

  predicate ChangesPointer<T(==)>(patch: Option<T>, observed: Option<T>) {
    patch.Some? && patch != observed
  }

  predicate ChangesNullable<T(==)>(patch: Nullable<T>, observed: Nullable<T>) {
    !patch.Unset? && patch.Get() != observed.Get()
  }

  // The fields of every request body, in the order of their names in the API.

  const APPLICATION_FIELDS := [GroupField, MetaDescription, MetaHide, MetaIcon, MetaLaunchUrl, MetaPublisher,
    NameField, OpenInNewTab, PolicyEngineModeField, ProviderField, SlugField]

  const PROXY_FIELDS := [AccessTokenValidity, AuthenticationFlow, AuthorizationFlow, BasicAuthEnabled,
    BasicAuthPasswordAttribute, BasicAuthUserAttribute, Certificate, CookieDomain, ExternalHost, InterceptHeaderAuth,
    InternalHost, InternalHostSslValidation, InvalidationFlow, ModeField, NameField, PropertyMappings,
    RefreshTokenValidity, SkipPathRegex]

  const OAUTH2_FIELDS := [AccessCodeValidity, AccessTokenValidity, AuthenticationFlow, AuthorizationFlow, ClientId,
    ClientSecret, ClientTypeField, EncryptionKey, GrantTypes, IncludeClaimsInIdToken, InvalidationFlow,
    IssuerModeField, LogoutMethodField, LogoutUri, NameField, PropertyMappings, RedirectUris, RefreshTokenThreshold,
    RefreshTokenValidity, SigningKey, SubModeField]

  /** The body changes the field; a field that is sent for validation only keeps its value. */
  predicate ApplicationChanges(f: Field, patch: PatchedApplication, observed: Application) {
    match f
    case GroupField => ChangesPointer(patch.group, observed.group)
    case MetaDescription => ChangesPointer(patch.metaDescription, observed.metaDescription)
    case MetaHide => ChangesPointer(patch.metaHide, observed.metaHide)
    case MetaIcon => ChangesPointer(patch.metaIcon, observed.metaIcon)
    case MetaLaunchUrl => ChangesPointer(patch.metaLaunchUrl, observed.metaLaunchUrl)
    case MetaPublisher => ChangesPointer(patch.metaPublisher, observed.metaPublisher)
    case NameField => Changes(patch.name, observed.name)
    case OpenInNewTab => ChangesPointer(patch.openInNewTab, observed.openInNewTab)
    case PolicyEngineModeField => ChangesPointer(patch.policyEngineMode, observed.policyEngineMode)
    case ProviderField => ChangesNullable(patch.provider, observed.provider)
    case SlugField => Changes(patch.slug, observed.slug)
    case _ => false
  }

  predicate ProxyChanges(f: Field, patch: PatchedProxyProvider, observed: ProxyProvider) {
    match f
    case AccessTokenValidity => ChangesPointer(patch.accessTokenValidity, observed.accessTokenValidity)
    case AuthenticationFlow => ChangesNullable(patch.authenticationFlow, observed.authenticationFlow)
    case AuthorizationFlow => Changes(patch.authorizationFlow, observed.authorizationFlow)
    case BasicAuthEnabled => ChangesPointer(patch.basicAuthEnabled, observed.basicAuthEnabled)
    case BasicAuthPasswordAttribute => ChangesPointer(patch.basicAuthPasswordAttribute, observed.basicAuthPasswordAttribute)
    case BasicAuthUserAttribute => ChangesPointer(patch.basicAuthUserAttribute, observed.basicAuthUserAttribute)
    case Certificate => ChangesNullable(patch.certificate, observed.certificate)
    case CookieDomain => ChangesPointer(patch.cookieDomain, observed.cookieDomain)
    case ExternalHost => Changes(patch.externalHost, observed.externalHost)
    case InterceptHeaderAuth => ChangesPointer(patch.interceptHeaderAuth, observed.interceptHeaderAuth)
    case InternalHost => ChangesPointer(patch.internalHost, observed.internalHost)
    case InternalHostSslValidation => ChangesPointer(patch.internalHostSslValidation, observed.internalHostSslValidation)
    case InvalidationFlow => Changes(patch.invalidationFlow, observed.invalidationFlow)
    case ModeField => ChangesPointer(patch.mode, observed.mode)
    case NameField => Changes(patch.name, observed.name)
    case PropertyMappings => Changes(patch.propertyMappings, observed.propertyMappings)
    case RefreshTokenValidity => ChangesPointer(patch.refreshTokenValidity, observed.refreshTokenValidity)
    case SkipPathRegex => ChangesPointer(patch.skipPathRegex, observed.skipPathRegex)
    case _ => false
  }

  predicate OAuth2Changes(f: Field, patch: PatchedOAuth2Provider, observed: OAuth2Provider) {
    match f
    case AccessCodeValidity => ChangesPointer(patch.accessCodeValidity, observed.accessCodeValidity)
    case AccessTokenValidity => ChangesPointer(patch.accessTokenValidity, observed.accessTokenValidity)
    case AuthenticationFlow => ChangesNullable(patch.authenticationFlow, observed.authenticationFlow)
    case AuthorizationFlow => Changes(patch.authorizationFlow, observed.authorizationFlow)
    case ClientId => ChangesPointer(patch.clientId, observed.clientId)
    case ClientSecret => ChangesPointer(patch.clientSecret, observed.clientSecret)
    case ClientTypeField => ChangesPointer(patch.clientType, observed.clientType)
    case EncryptionKey => ChangesNullable(patch.encryptionKey, observed.encryptionKey)
    case GrantTypes => Changes(patch.grantTypes, observed.grantTypes)
    case IncludeClaimsInIdToken => ChangesPointer(patch.includeClaimsInIdToken, observed.includeClaimsInIdToken)
    case InvalidationFlow => Changes(patch.invalidationFlow, observed.invalidationFlow)
    case IssuerModeField => ChangesPointer(patch.issuerMode, observed.issuerMode)
    case LogoutMethodField => ChangesPointer(patch.logoutMethod, observed.logoutMethod)
    case LogoutUri => ChangesPointer(patch.logoutUri, observed.logoutUri)
    case NameField => Changes(patch.name, observed.name)
    case PropertyMappings => Changes(patch.propertyMappings, observed.propertyMappings)
    case RedirectUris => Changes(patch.redirectUris, observed.redirectUris)
    case RefreshTokenThreshold => ChangesPointer(patch.refreshTokenThreshold, observed.refreshTokenThreshold)
    case RefreshTokenValidity => ChangesPointer(patch.refreshTokenValidity, observed.refreshTokenValidity)
    case SigningKey => ChangesNullable(patch.signingKey, observed.signingKey)
    case SubModeField => ChangesPointer(patch.subMode, observed.subMode)
    case _ => false
  }

  /** The field is managed, and does not have its value. */
  predicate ApplicationDiffers(f: Field, desired: PatchedApplication, observed: Application) {
    match f
    case GroupField => !HasPointer(desired.group, observed.group)
    case MetaDescription => !HasPointer(desired.metaDescription, observed.metaDescription)
    case MetaHide => !HasPointer(desired.metaHide, observed.metaHide)
    case MetaIcon => !HasPointer(desired.metaIcon, observed.metaIcon)
    case MetaLaunchUrl => !HasPointer(desired.metaLaunchUrl, observed.metaLaunchUrl)
    case MetaPublisher => !HasPointer(desired.metaPublisher, observed.metaPublisher)
    case NameField => !HasValue(desired.name, observed.name)
    case OpenInNewTab => !HasPointer(desired.openInNewTab, observed.openInNewTab)
    case PolicyEngineModeField => !HasPointer(desired.policyEngineMode, observed.policyEngineMode)
    case ProviderField => !HasNullable(desired.provider, observed.provider)
    case SlugField => !HasValue(desired.slug, observed.slug)
    case _ => false
  }

  predicate ProxyDiffers(f: Field, desired: PatchedProxyProvider, observed: ProxyProvider) {
    match f
    case AccessTokenValidity => !HasPointer(desired.accessTokenValidity, observed.accessTokenValidity)
    case AuthenticationFlow => !HasNullable(desired.authenticationFlow, observed.authenticationFlow)
    case AuthorizationFlow => !HasValue(desired.authorizationFlow, observed.authorizationFlow)
    case BasicAuthEnabled => !HasPointer(desired.basicAuthEnabled, observed.basicAuthEnabled)
    case BasicAuthPasswordAttribute => !HasPointer(desired.basicAuthPasswordAttribute, observed.basicAuthPasswordAttribute)
    case BasicAuthUserAttribute => !HasPointer(desired.basicAuthUserAttribute, observed.basicAuthUserAttribute)
    case Certificate => !HasNullable(desired.certificate, observed.certificate)
    case CookieDomain => !HasPointer(desired.cookieDomain, observed.cookieDomain)
    case ExternalHost => !HasValue(desired.externalHost, observed.externalHost)
    case InterceptHeaderAuth => !HasPointer(desired.interceptHeaderAuth, observed.interceptHeaderAuth)
    case InternalHost => !HasPointer(desired.internalHost, observed.internalHost)
    case InternalHostSslValidation => !HasPointer(desired.internalHostSslValidation, observed.internalHostSslValidation)
    case InvalidationFlow => !HasValue(desired.invalidationFlow, observed.invalidationFlow)
    case ModeField => !HasPointer(desired.mode, observed.mode)
    case NameField => !HasValue(desired.name, observed.name)
    case PropertyMappings => !HasSet(desired.propertyMappings, observed.propertyMappings)
    case RefreshTokenValidity => !HasPointer(desired.refreshTokenValidity, observed.refreshTokenValidity)
    case SkipPathRegex => !HasPointer(desired.skipPathRegex, observed.skipPathRegex)
    case _ => false
  }

  predicate OAuth2Differs(f: Field, desired: PatchedOAuth2Provider, observed: OAuth2Provider) {
    match f
    case AccessCodeValidity => !HasPointer(desired.accessCodeValidity, observed.accessCodeValidity)
    case AccessTokenValidity => !HasPointer(desired.accessTokenValidity, observed.accessTokenValidity)
    case AuthenticationFlow => !HasNullable(desired.authenticationFlow, observed.authenticationFlow)
    case AuthorizationFlow => !HasValue(desired.authorizationFlow, observed.authorizationFlow)
    case ClientId => !HasPointer(desired.clientId, observed.clientId)
    case ClientSecret => !HasPointer(desired.clientSecret, observed.clientSecret)
    case ClientTypeField => !HasPointer(desired.clientType, observed.clientType)
    case EncryptionKey => !HasNullable(desired.encryptionKey, observed.encryptionKey)
    case GrantTypes => !HasSet(desired.grantTypes, observed.grantTypes)
    case IncludeClaimsInIdToken => !HasPointer(desired.includeClaimsInIdToken, observed.includeClaimsInIdToken)
    case InvalidationFlow => !HasValue(desired.invalidationFlow, observed.invalidationFlow)
    case IssuerModeField => !HasPointer(desired.issuerMode, observed.issuerMode)
    case LogoutMethodField => !HasPointer(desired.logoutMethod, observed.logoutMethod)
    case LogoutUri => !HasPointer(desired.logoutUri, observed.logoutUri)
    case NameField => !HasValue(desired.name, observed.name)
    case PropertyMappings => !HasSet(desired.propertyMappings, observed.propertyMappings)
    case RedirectUris =>
      desired.redirectUris.Some? && RedirectKeys(observed.redirectUris) != RedirectKeys(desired.redirectUris.value)
    case RefreshTokenThreshold => !HasPointer(desired.refreshTokenThreshold, observed.refreshTokenThreshold)
    case RefreshTokenValidity => !HasPointer(desired.refreshTokenValidity, observed.refreshTokenValidity)
    case SigningKey => !HasNullable(desired.signingKey, observed.signingKey)
    case SubModeField => !HasPointer(desired.subMode, observed.subMode)
    case _ => false
  }

  /** One of the fields comes before the other. */
  ghost predicate Precedes<T>(fields: seq<T>, f: T, g: T) {
    exists p, q :: 0 <= p < q < |fields| && fields[p] == f && fields[q] == g
  }

  /** The part lists some of the fields in their order, each once when the fields are distinct. */
  ghost predicate InOrder<T>(part: seq<T>, fields: seq<T>) {
    forall i, j :: 0 <= i < j < |part| ==> Precedes(fields, part[i], part[j])
  }

  lemma PrecedesStill<T>(fields: seq<T>, f: T, g: T, next: T)
    ensures Precedes(fields, f, g) ==> Precedes(fields + [next], f, g)
    ensures f in fields ==> Precedes(fields + [next], f, next)
  {
    var longer := fields + [next];
    assert forall i :: 0 <= i < |fields| ==> longer[i] == fields[i];
    assert longer[|fields|] == next;
  }

  lemma InOrderNext<T(!new)>(part: seq<T>, fields: seq<T>, next: T)
    requires InOrder(part, fields) && forall f :: f in part ==> f in fields
    ensures InOrder(part, fields + [next]) && InOrder(part + [next], fields + [next])
  {
    hide Precedes;
    forall f, g ensures Precedes(fields, f, g) ==> Precedes(fields + [next], f, g) {
      PrecedesStill(fields, f, g, next);
    }
    forall f | f in fields ensures Precedes(fields + [next], f, next) {
      PrecedesStill(fields, f, f, next);
    }
  }

  /** fieldDiffs: the fields that change, in the order of the API field names. */
  method FieldDiffs(fields: seq<Field>, changes: Field -> bool) returns (diffs: seq<Field>)
    ensures forall f :: f in diffs <==> f in fields && changes(f)
    ensures InOrder(diffs, fields)
  {
    diffs := [];
    assert InOrder(diffs, fields[..0]);
    hide InOrder;
    for i := 0 to |fields|
      invariant forall f :: f in diffs <==> f in fields[..i] && changes(f)
      invariant InOrder(diffs, fields[..i])
    {
      InOrderNext(diffs, fields[..i], fields[i]);
      assert fields[..i + 1] == fields[..i] + [fields[i]];
      if changes(fields[i]) {
        diffs := diffs + [fields[i]];
      }
    }
    assert fields[..|fields|] == fields;
  }

  /** The fields that the Diff changes are those that differ, and there is one unless every managed field has its value. */
  lemma ApplicationPatchNamesField(desired: PatchedApplication, observed: Application)
    requires DiffApplication(desired, observed).Some?
    ensures var patch := DiffApplication(desired, observed).value;
            forall f :: f in APPLICATION_FIELDS && ApplicationChanges(f, patch, observed) <==>
                   ApplicationDiffers(f, desired, observed)
    ensures exists f :: ApplicationDiffers(f, desired, observed)
  {
    hide ApplicationDiffers, ApplicationChanges, ApplicationConforms;
    forall f
      ensures f in APPLICATION_FIELDS && ApplicationChanges(f, DiffApplication(desired, observed).value, observed) <==>
                ApplicationDiffers(f, desired, observed)
    {
      ApplicationFieldDiffers(f, desired, observed);
    }
    ApplicationDiffExact(desired, observed);
    ApplicationDiffersSomewhere(desired, observed);
  }

  lemma ApplicationDiffersSomewhere(desired: PatchedApplication, observed: Application)
    requires !ApplicationConforms(desired, observed)
    ensures exists f :: ApplicationDiffers(f, desired, observed)
  {
    hide HasValue, HasPointer, HasNullable, HasSet, RedirectKeys;
    var f :=
      if !HasPointer(desired.group, observed.group) then GroupField else
      if !HasPointer(desired.metaDescription, observed.metaDescription) then MetaDescription else
      if !HasPointer(desired.metaHide, observed.metaHide) then MetaHide else
      if !HasPointer(desired.metaIcon, observed.metaIcon) then MetaIcon else
      if !HasPointer(desired.metaLaunchUrl, observed.metaLaunchUrl) then MetaLaunchUrl else
      if !HasPointer(desired.metaPublisher, observed.metaPublisher) then MetaPublisher else
      if !HasValue(desired.name, observed.name) then NameField else
      if !HasPointer(desired.openInNewTab, observed.openInNewTab) then OpenInNewTab else
      if !HasPointer(desired.policyEngineMode, observed.policyEngineMode) then PolicyEngineModeField else
      if !HasNullable(desired.provider, observed.provider) then ProviderField else
      SlugField;
    assert ApplicationDiffers(f, desired, observed);
  }

  lemma ApplicationFieldDiffers(f: Field, desired: PatchedApplication, observed: Application)
    requires DiffApplication(desired, observed).Some?
    ensures f in APPLICATION_FIELDS && ApplicationChanges(f, DiffApplication(desired, observed).value, observed) <==>
              ApplicationDiffers(f, desired, observed)
  {}

  lemma ProxyPatchNamesField(desired: PatchedProxyProvider, observed: ProxyProvider)
    requires DiffProxyProvider(desired, observed).Some?
    ensures var patch := DiffProxyProvider(desired, observed).value;
            forall f :: f in PROXY_FIELDS && ProxyChanges(f, patch, observed) <==> ProxyDiffers(f, desired, observed)
    ensures exists f :: ProxyDiffers(f, desired, observed)
  {
    hide ProxyDiffers, ProxyChanges, ProxyConforms;
    forall f
      ensures f in PROXY_FIELDS && ProxyChanges(f, DiffProxyProvider(desired, observed).value, observed) <==>
                ProxyDiffers(f, desired, observed)
    {
      ProxyFieldDiffers(f, desired, observed);
    }
    ProxyDiffExact(desired, observed);
    ProxyDiffersSomewhere(desired, observed);
  }

  lemma ProxyDiffersSomewhere(desired: PatchedProxyProvider, observed: ProxyProvider)
    requires !ProxyConforms(desired, observed)
    ensures exists f :: ProxyDiffers(f, desired, observed)
  {
    hide HasValue, HasPointer, HasNullable, HasSet, RedirectKeys;
    var f :=
      if !HasPointer(desired.accessTokenValidity, observed.accessTokenValidity) then AccessTokenValidity else
      if !HasNullable(desired.authenticationFlow, observed.authenticationFlow) then AuthenticationFlow else
      if !HasValue(desired.authorizationFlow, observed.authorizationFlow) then AuthorizationFlow else
      if !HasPointer(desired.basicAuthEnabled, observed.basicAuthEnabled) then BasicAuthEnabled else
      if !HasPointer(desired.basicAuthPasswordAttribute, observed.basicAuthPasswordAttribute) then BasicAuthPasswordAttribute else
      if !HasPointer(desired.basicAuthUserAttribute, observed.basicAuthUserAttribute) then BasicAuthUserAttribute else
      if !HasNullable(desired.certificate, observed.certificate) then Certificate else
      if !HasPointer(desired.cookieDomain, observed.cookieDomain) then CookieDomain else
      if !HasValue(desired.externalHost, observed.externalHost) then ExternalHost else
      if !HasPointer(desired.interceptHeaderAuth, observed.interceptHeaderAuth) then InterceptHeaderAuth else
      if !HasPointer(desired.internalHost, observed.internalHost) then InternalHost else
      if !HasPointer(desired.internalHostSslValidation, observed.internalHostSslValidation) then InternalHostSslValidation else
      if !HasValue(desired.invalidationFlow, observed.invalidationFlow) then InvalidationFlow else
      if !HasPointer(desired.mode, observed.mode) then ModeField else
      if !HasValue(desired.name, observed.name) then NameField else
      if !HasSet(desired.propertyMappings, observed.propertyMappings) then PropertyMappings else
      if !HasPointer(desired.refreshTokenValidity, observed.refreshTokenValidity) then RefreshTokenValidity else
      SkipPathRegex;
    assert ProxyDiffers(f, desired, observed);
  }

  lemma ProxyFieldDiffers(f: Field, desired: PatchedProxyProvider, observed: ProxyProvider)
    requires DiffProxyProvider(desired, observed).Some?
    ensures f in PROXY_FIELDS && ProxyChanges(f, DiffProxyProvider(desired, observed).value, observed) <==>
              ProxyDiffers(f, desired, observed)
  {}

  lemma OAuth2PatchNamesField(desired: PatchedOAuth2Provider, observed: OAuth2Provider)
    requires DiffOAuth2Provider(desired, observed).Some?
    ensures var patch := DiffOAuth2Provider(desired, observed).value;
            forall f :: f in OAUTH2_FIELDS && OAuth2Changes(f, patch, observed) <==> OAuth2Differs(f, desired, observed)
    ensures exists f :: OAuth2Differs(f, desired, observed)
  {
    hide OAuth2Differs, OAuth2Changes, OAuth2Conforms;
    forall f
      ensures f in OAUTH2_FIELDS && OAuth2Changes(f, DiffOAuth2Provider(desired, observed).value, observed) <==>
                OAuth2Differs(f, desired, observed)
    {
      OAuth2FieldDiffers(f, desired, observed);
    }
    OAuth2DiffExact(desired, observed);
    OAuth2DiffersSomewhere(desired, observed);
  }

  lemma OAuth2DiffersSomewhere(desired: PatchedOAuth2Provider, observed: OAuth2Provider)
    requires !OAuth2Conforms(desired, observed)
    ensures exists f :: OAuth2Differs(f, desired, observed)
  {
    hide HasValue, HasPointer, HasNullable, HasSet, RedirectKeys;
    var f :=
      if !HasPointer(desired.accessCodeValidity, observed.accessCodeValidity) then AccessCodeValidity else
      if !HasPointer(desired.accessTokenValidity, observed.accessTokenValidity) then AccessTokenValidity else
      if !HasNullable(desired.authenticationFlow, observed.authenticationFlow) then AuthenticationFlow else
      if !HasValue(desired.authorizationFlow, observed.authorizationFlow) then AuthorizationFlow else
      if !HasPointer(desired.clientId, observed.clientId) then ClientId else
      if !HasPointer(desired.clientSecret, observed.clientSecret) then ClientSecret else
      if !HasPointer(desired.clientType, observed.clientType) then ClientTypeField else
      if !HasNullable(desired.encryptionKey, observed.encryptionKey) then EncryptionKey else
      if !HasSet(desired.grantTypes, observed.grantTypes) then GrantTypes else
      if !HasPointer(desired.includeClaimsInIdToken, observed.includeClaimsInIdToken) then IncludeClaimsInIdToken else
      if !HasValue(desired.invalidationFlow, observed.invalidationFlow) then InvalidationFlow else
      if !HasPointer(desired.issuerMode, observed.issuerMode) then IssuerModeField else
      if !HasPointer(desired.logoutMethod, observed.logoutMethod) then LogoutMethodField else
      if !HasPointer(desired.logoutUri, observed.logoutUri) then LogoutUri else
      if !HasValue(desired.name, observed.name) then NameField else
      if !HasSet(desired.propertyMappings, observed.propertyMappings) then PropertyMappings else
      if desired.redirectUris.Some? && RedirectKeys(observed.redirectUris) != RedirectKeys(desired.redirectUris.value) then
         RedirectUris else
      if !HasPointer(desired.refreshTokenThreshold, observed.refreshTokenThreshold) then RefreshTokenThreshold else
      if !HasPointer(desired.refreshTokenValidity, observed.refreshTokenValidity) then RefreshTokenValidity else
      if !HasNullable(desired.signingKey, observed.signingKey) then SigningKey else
      SubModeField;
    assert OAuth2Differs(f, desired, observed);
  }

  lemma OAuth2FieldDiffers(f: Field, desired: PatchedOAuth2Provider, observed: OAuth2Provider)
    requires DiffOAuth2Provider(desired, observed).Some?
    ensures f in OAUTH2_FIELDS && OAuth2Changes(f, DiffOAuth2Provider(desired, observed).value, observed) <==>
              OAuth2Differs(f, desired, observed)
  {}

  /** A Provider with every managed value differs in no field. */
  lemma ConformingDiffersNowhere(h: Handler, server: Authentik, pk: Key)
    ensures h.Conforms(server, pk) ==> forall f :: !ProviderDiffers(f, h, server, pk)
  {}

  lemma ApplicationDiffersNowhere(desired: PatchedApplication, observed: Application)
    ensures ApplicationConforms(desired, observed) ==> forall f :: !ApplicationDiffers(f, desired, observed)
  {}

  lemma AbsentDiffersNowhere(h: Option<Handler>, server: Authentik, observed: Application)
    ensures Attached(h, observed).Some? && Attached(h, observed).value !in h.value.Keys(server) ==>
              forall f :: !ProviderDiffers(f, h.value, server, Attached(h, observed).value)
  {}

  /** A managed field of the Provider with the pk does not have its value. */
  ghost predicate ProviderDiffers(f: Field, h: Handler, server: Authentik, pk: Key)
    reads server`proxyProviders, server`oauth2Providers
  {
    match h
    case ProxyHandler(desired) => pk in server.proxyProviders && ProxyDiffers(f, desired, server.proxyProviders[pk])
    case OAuth2Handler(desired, _) => pk in server.oauth2Providers && OAuth2Differs(f, desired, server.oauth2Providers[pk])
  }

  /** The fields in which a fetched Provider differs from the desired one. */
  method ProviderDiffs(server: Authentik, h: Handler, o: Observed) returns (diffs: seq<Field>)
    requires o.Current(h, server)
    ensures forall f :: f in diffs <==> ProviderDiffers(f, h, server, o.Pk())
    ensures diffs == [] <==> h.Conforms(server, o.Pk())
  {
    hide DiffProxyProvider, DiffOAuth2Provider, ProxyChanges, OAuth2Changes, ProxyDiffers, OAuth2Differs, ProxyConforms,
      OAuth2Conforms, AssignedTo;
    ConformingDiffersNowhere(h, server, o.Pk());
    match o
    case ObservedProxy(p, _) =>
      ProxyDiffExact(h.proxyDesired, p);
      var patch := DiffProxyProvider(h.proxyDesired, p);
      if patch.None? {
        return [];
      }
      ProxyPatchNamesField(h.proxyDesired, p);
      diffs := FieldDiffs(PROXY_FIELDS, f => ProxyChanges(f, patch.value, p));
    case ObservedOAuth2(p, _) =>
      OAuth2DiffExact(h.oauth2Desired, p);
      var patch := DiffOAuth2Provider(h.oauth2Desired, p);
      if patch.None? {
        return [];
      }
      OAuth2PatchNamesField(h.oauth2Desired, p);
      diffs := FieldDiffs(OAUTH2_FIELDS, f => OAuth2Changes(f, patch.value, p));
  }

  // ---------- the decision ----------

  /** The pk of the Provider attached to an Application, when the spec has a Provider. */
  function Attached(h: Option<Handler>, observed: Application): Option<Key> {
    if h.Some? && observed.provider.Value? then Some(observed.provider.value) else None
  }

  ghost predicate TypeMismatch(server: Authentik, h: Option<Handler>, observed: Application)
    reads server`proxyProviders, server`oauth2Providers
  {
    && Attached(h, observed).Some? && Attached(h, observed).value !in h.value.Keys(server)
    && Attached(h, observed).value in h.value.OtherKeys(server)
  }

  /** The Application and its attached Provider have every managed value already. */
  ghost predicate Matches(server: Authentik, spec: Spec, h: Option<Handler>, observed: Application)
    reads server`proxyProviders, server`oauth2Providers
  {
    && ApplicationConforms(DesiredApplication(spec, None), observed)
    && (Attached(h, observed).Some? && Attached(h, observed).value in h.value.Keys(server) ==>
          h.value.Conforms(server, Attached(h, observed).value))
  }

  /** The list names exactly the fields in which the Application, or its attached Provider, differs from the spec. */
  ghost predicate NamesDifferences(diffs: seq<Field>, server: Authentik, spec: Spec, h: Option<Handler>, observed: Application)
    reads server`proxyProviders, server`oauth2Providers
  {
    forall f :: f in diffs <==>
      || ApplicationDiffers(f, DesiredApplication(spec, None), observed)
      || (Attached(h, observed).Some? && ProviderDiffers(f, h.value, server, Attached(h, observed).value))
  }

  /** Why spec.adopt keeps the operator from taking over the Application, if it does. */
  ghost function Refusal(server: Authentik, spec: Spec, h: Option<Handler>, observed: Application): Option<StopReason>
    reads server`proxyProviders, server`oauth2Providers
  {
    if PatchValue(spec.adopt, Never) == Never then Some(Unmanaged)
    else if TypeMismatch(server, h, observed) then Some(ProviderTypeMismatch)
    else if PatchValue(spec.adopt, Never) == IfMatch && !Matches(server, spec, h, observed) then Some(StopReason.AdoptionDiff)
    else None
  }

  method AttachedProvider(server: Authentik, h: Option<Handler>, observed: Application) returns (res: Result<Option<Observed>>)
    requires server.Valid()
    ensures res.Ok? && res.value.Some? ==>
              && h.Some? && Attached(h, observed) == Some(res.value.value.Pk()) && res.value.value.Current(h.value, server)
              && res.value.value.Pk() in h.value.Keys(server)
    ensures res.Ok? && res.value.None? ==>
              Attached(h, observed).None? || (Attached(h, observed).value !in h.value.Keys(server)
                                              && !TypeMismatch(server, h, observed))
    ensures res.Err? ==> res.error == Unavailable || (res.error == Stop(ProviderTypeMismatch) && TypeMismatch(server, h, observed))
    ensures res.Ok? ==> !TypeMismatch(server, h, observed)
  {
    hide Observed.Current;
    if Attached(h, observed).None? {
      return Ok(None);
    }
    var pk := observed.provider.value;
    var got := Get(server, h.value, pk);
    if got.Ok? {
      return Ok(Some(got.value));
    } else if got.error != NotFound {
      return Err(got.error);
    }
    var other := ExistsAsOtherType(server, h.value, pk);
    if other.Err? {
      return Err(other.error);
    }
    return if other.value then Err(Stop(ProviderTypeMismatch)) else Ok(None);
  }

  /**
   adoptApplication: whether spec.adopt lets the operator take over the Application. Nothing is written. Short of a
   failed lookup the outcome is determined.
   */
  method AdoptApplication(server: Authentik, s: Resource, spec: Spec, h: Option<Handler>, observed: Application)
    returns (res: Result<()>)
    requires server.Valid()
    modifies s`status
    ensures s.status == old(s.status).(adoptionDiff := s.status.adoptionDiff)
    ensures var refusal := Refusal(server, spec, h, observed);
            || res == Err(Unavailable)
            || res == (if refusal.None? then Ok(()) else Err(Stop(refusal.value)))
    ensures res == Err(Stop(StopReason.AdoptionDiff)) ==>
              s.status.adoptionDiff != [] && NamesDifferences(s.status.adoptionDiff, server, spec, h, observed)
    ensures !(res.Err? && res.error == Stop(StopReason.AdoptionDiff)) ==> s.status == old(s.status)
  {
    hide Observed.Current, Handler.Conforms, DiffApplication, ApplicationConforms, ApplicationChanges, ApplicationDiffers,
      ProviderDiffers, DesiredApplication, ValidBindings, ValidApplications, ValidLinks, ValidProviders, ValidOutposts, ValidRoles;
    var policy := PatchValue(spec.adopt, Never);
    if policy == Never {
      return Err(Stop(Unmanaged));
    }
    var provider := AttachedProvider(server, h, observed);
    if provider.Err? {
      return Err(provider.error);
    }
    if policy == IfMatch {
      var diffs: seq<Field> := [];
      var desired := DesiredApplication(spec, None);
      ApplicationDiffExact(desired, observed);
      ApplicationDiffersNowhere(desired, observed);
      AbsentDiffersNowhere(h, server, observed);
      var patch := DiffApplication(desired, observed);
      if patch.Some? {
        ApplicationPatchNamesField(desired, observed);
        diffs := FieldDiffs(APPLICATION_FIELDS, f => ApplicationChanges(f, patch.value, observed));
      }
      if provider.value.Some? {
        var more := ProviderDiffs(server, h.value, provider.value.value);
        diffs := diffs + more;
      }
      if |diffs| > 0 {
        s.status := s.status.(adoptionDiff := diffs);
        return Err(Stop(StopReason.AdoptionDiff));
      }
    }
    return Ok(());
  }

  /**
   The run that adopts under IfMatch patches nothing but a missing Provider link: against the desired state with
   the Provider, the Diff of the Application carries at most the link, and none when it is there.
   */
  lemma AdoptedNeedsOnlyLink(spec: Spec, observed: Application, pk: Key)
    requires ApplicationConforms(DesiredApplication(spec, None), observed)
    ensures var diff := DiffApplication(DesiredApplication(spec, Some(pk)), observed);
            diff == if observed.provider.Get() == Some(pk) then None
                    else Some(PatchedApplication(None, None, Value(pk), None, None, None, None, None, None, None, None))
  {}
}
