/**
 PATCH bodies: the difference between a desired and an observed object, and what the server makes of it.

 A desired object is a PATCH body: an absent field is not managed. The Diff functions return None when nothing
 has to be sent. The Apply functions are the server's side of an accepted PATCH. The Conforms predicates say,
 field by field and without mentioning either, when an observed object has every managed value.
 */
module Patch {
  import opened Base
  import opened Api

  // ---------- one field ----------

  function DiffValue<T(==)>(desired: Option<T>, observed: T): Option<T> {
    if desired.None? || desired.value == observed then None else desired
  }

  function DiffPointer<T(==)>(desired: Option<T>, observed: Option<T>): Option<T> {
    if desired.None? || desired == observed then None else desired
  }

  function DiffNullable<T(==)>(desired: Nullable<T>, observed: Nullable<T>): Nullable<T> {
    if desired.Unset? || desired.Get() == observed.Get() then Unset else desired
  }

  function DiffSet<T(==)>(desired: Option<seq<T>>, observed: seq<T>): Option<seq<T>> {
    if desired.None? || Elements(desired.value) == Elements(observed) then None else desired
  }

  function FirstSome<T>(a: Option<T>, b: Option<T>): Option<T> {
    if a.Some? then a else b
  }

  function PatchValue<T>(patch: Option<T>, stored: T): T {
    if patch.Some? then patch.value else stored
  }

  function PatchNullable<T>(patch: Nullable<T>, stored: Nullable<T>): Nullable<T> {
    if patch.Unset? then stored else patch
  }

  predicate HasValue<T(==)>(desired: Option<T>, observed: T) {
    desired.Some? ==> observed == desired.value
  }

  predicate HasPointer<T(==)>(desired: Option<T>, observed: Option<T>) {
    desired.Some? ==> observed == desired
  }

  predicate HasNullable<T(==)>(desired: Nullable<T>, observed: Nullable<T>) {
    !desired.Unset? ==> observed.Get() == desired.Get()
  }

  predicate HasSet<T(==)>(desired: Option<seq<T>>, observed: seq<T>) {
    desired.Some? ==> Elements(observed) == Elements(desired.value)
  }

  // ---------- lists compared as sets ----------

  /** Reports whether both lists have the same distinct elements, by counting them. */
  method SameSet<T(==)>(a: seq<T>, b: seq<T>) returns (same: bool)
    ensures same <==> Elements(a) == Elements(b)
  {
    var want: set<T> := {};
    for i := 0 to |a|
      invariant want == Elements(a[..i])
    {
      assert a[..i + 1] == a[..i] + [a[i]];
      want := want + {a[i]};
    }
    assert a[..|a|] == a;
    var have: set<T> := {};
    for i := 0 to |b|
      invariant have == Elements(b[..i]) && have <= want
    {
      if b[i] !in want {
        assert b[i] in Elements(b);
        return false;
      }
      assert b[..i + 1] == b[..i] + [b[i]];
      have := have + {b[i]};
    }
    assert b[..|b|] == b;
    same := |want| == |have|;
    if same {
      SubsetOfEqualSize(have, want);
    }
  }

  /** What identifies a redirect URI: a missing type is the server's default, authorization. */
  datatype RedirectKey = RedirectKey(url: string, matchingMode: MatchingMode, uriType: RedirectType)

  function KeyOf(uri: RedirectUri): RedirectKey {
    RedirectKey(uri.url, uri.matchingMode, if uri.uriType.Some? then uri.uriType.value else Authorization)
  }

  function RedirectKeys(uris: seq<RedirectUri>): set<RedirectKey> {
    set u | u in uris :: KeyOf(u)
  }

  function DiffRedirects(desired: Option<seq<RedirectUri>>, observed: seq<RedirectUri>): Option<seq<RedirectUri>> {
    if desired.None? || RedirectKeys(desired.value) == RedirectKeys(observed) then None else desired
  }

  method KeysOf(uris: seq<RedirectUri>) returns (keys: seq<RedirectKey>)
    ensures Elements(keys) == RedirectKeys(uris)
  {
    keys := [];
    for i := 0 to |uris|
      invariant |keys| == i && forall j :: 0 <= j < i ==> keys[j] == KeyOf(uris[j])
    {
      keys := keys + [KeyOf(uris[i])];
    }
    forall k | k in RedirectKeys(uris) ensures k in keys {
      var u :| u in uris && KeyOf(u) == k;
      var j :| 0 <= j < |uris| && uris[j] == u;
      assert keys[j] == k;
    }
  }

  method ComputeDiffRedirects(desired: Option<seq<RedirectUri>>, observed: seq<RedirectUri>)
    returns (patch: Option<seq<RedirectUri>>)
    ensures patch == DiffRedirects(desired, observed)
  {
    if desired.None? {
      return None;
    }
    var want := KeysOf(desired.value);
    var have := KeysOf(observed);
    var same := SameSet(want, have);
    return if same then None else desired;
  }

  // ---------- Application ----------

  function DiffApplication(desired: PatchedApplication, observed: Application): Option<PatchedApplication> {
    var patch := PatchedApplication(
      DiffValue(desired.name, observed.name),
      DiffValue(desired.slug, observed.slug),
      DiffNullable(desired.provider, observed.provider),
      DiffPointer(desired.openInNewTab, observed.openInNewTab),
      DiffPointer(desired.metaLaunchUrl, observed.metaLaunchUrl),
      DiffPointer(desired.metaIcon, observed.metaIcon),
      DiffPointer(desired.metaDescription, observed.metaDescription),
      DiffPointer(desired.metaPublisher, observed.metaPublisher),
      DiffPointer(desired.policyEngineMode, observed.policyEngineMode),
      DiffPointer(desired.group, observed.group),
      DiffPointer(desired.metaHide, observed.metaHide));
    if patch == PatchedApplication(None, None, Unset, None, None, None, None, None, None, None, None)
    then None
    else Some(patch)
  }

  function ApplyApplication(patch: PatchedApplication, stored: Application): Application {
    stored.(
      name := PatchValue(patch.name, stored.name),
      slug := PatchValue(patch.slug, stored.slug),
      provider := PatchNullable(patch.provider, stored.provider),
      openInNewTab := FirstSome(patch.openInNewTab, stored.openInNewTab),
      metaLaunchUrl := FirstSome(patch.metaLaunchUrl, stored.metaLaunchUrl),
      metaIcon := FirstSome(patch.metaIcon, stored.metaIcon),
      metaDescription := FirstSome(patch.metaDescription, stored.metaDescription),
      metaPublisher := FirstSome(patch.metaPublisher, stored.metaPublisher),
      policyEngineMode := FirstSome(patch.policyEngineMode, stored.policyEngineMode),
      group := FirstSome(patch.group, stored.group),
      metaHide := FirstSome(patch.metaHide, stored.metaHide))
  }

  predicate ApplicationConforms(desired: PatchedApplication, observed: Application) {
    && HasValue(desired.name, observed.name)
    && HasValue(desired.slug, observed.slug)
    && HasNullable(desired.provider, observed.provider)
    && HasPointer(desired.openInNewTab, observed.openInNewTab)
    && HasPointer(desired.metaLaunchUrl, observed.metaLaunchUrl)
    && HasPointer(desired.metaIcon, observed.metaIcon)
    && HasPointer(desired.metaDescription, observed.metaDescription)
    && HasPointer(desired.metaPublisher, observed.metaPublisher)
    && HasPointer(desired.policyEngineMode, observed.policyEngineMode)
    && HasPointer(desired.group, observed.group)
    && HasPointer(desired.metaHide, observed.metaHide)
  }

  /** The fields that desired does not manage are the same in both Applications. */
  predicate ApplicationFrame(desired: PatchedApplication, before: Application, after: Application) {
    && after.pk == before.pk && after.pbmUuid == before.pbmUuid
    && after.backchannelProviders == before.backchannelProviders
    && (desired.name.None? ==> after.name == before.name)
    && (desired.slug.None? ==> after.slug == before.slug)
    && (desired.provider.Unset? ==> after.provider == before.provider)
    && (desired.openInNewTab.None? ==> after.openInNewTab == before.openInNewTab)
    && (desired.metaLaunchUrl.None? ==> after.metaLaunchUrl == before.metaLaunchUrl)
    && (desired.metaIcon.None? ==> after.metaIcon == before.metaIcon)
    && (desired.metaDescription.None? ==> after.metaDescription == before.metaDescription)
    && (desired.metaPublisher.None? ==> after.metaPublisher == before.metaPublisher)
    && (desired.policyEngineMode.None? ==> after.policyEngineMode == before.policyEngineMode)
    && (desired.group.None? ==> after.group == before.group)
    && (desired.metaHide.None? ==> after.metaHide == before.metaHide)
  }

  /** Nothing is sent exactly when every managed field has its value. */
  lemma ApplicationDiffExact(desired: PatchedApplication, observed: Application)
    ensures DiffApplication(desired, observed).None? <==> ApplicationConforms(desired, observed)
  {}

  /** An accepted PATCH reaches the desired state, touches nothing else, and leaves nothing to send. */
  lemma ApplicationConverges(desired: PatchedApplication, observed: Application)
    requires DiffApplication(desired, observed).Some?
    ensures var after := ApplyApplication(DiffApplication(desired, observed).value, observed);
            && ApplicationConforms(desired, after)
            && ApplicationFrame(desired, observed, after)
            && DiffApplication(desired, after).None?
  {
    var after := ApplyApplication(DiffApplication(desired, observed).value, observed);
    assert ApplicationConforms(desired, after);
    ApplicationDiffExact(desired, after);
  }

  /** Every body that reaches the desired state carries at least the fields that the Diff sends. */
  lemma ApplicationDiffLeast(desired: PatchedApplication, observed: Application, other: PatchedApplication)
    requires ApplicationConforms(desired, ApplyApplication(other, observed))
    requires DiffApplication(desired, observed).Some?
    ensures var patch := DiffApplication(desired, observed).value;
            && (patch.name.Some? ==> other.name.Some?)
            && (patch.slug.Some? ==> other.slug.Some?)
            && (patch.openInNewTab.Some? ==> other.openInNewTab.Some?)
            && (patch.metaLaunchUrl.Some? ==> other.metaLaunchUrl.Some?)
            && (patch.metaIcon.Some? ==> other.metaIcon.Some?)
            && (patch.metaDescription.Some? ==> other.metaDescription.Some?)
            && (patch.metaPublisher.Some? ==> other.metaPublisher.Some?)
            && (patch.policyEngineMode.Some? ==> other.policyEngineMode.Some?)
            && (patch.group.Some? ==> other.group.Some?)
            && (patch.metaHide.Some? ==> other.metaHide.Some?)
            && (!patch.provider.Unset? ==> !other.provider.Unset?)
  {}

  // ---------- Proxy Provider ----------

  /** The fields that differ, before the mode is added. */
  function ProxyDifferences(desired: PatchedProxyProvider, observed: ProxyProvider): PatchedProxyProvider {
    PatchedProxyProvider(
      DiffValue(desired.name, observed.name),
      DiffNullable(desired.authenticationFlow, observed.authenticationFlow),
      DiffValue(desired.authorizationFlow, observed.authorizationFlow),
      DiffValue(desired.invalidationFlow, observed.invalidationFlow),
      DiffSet(desired.propertyMappings, observed.propertyMappings),
      DiffPointer(desired.internalHost, observed.internalHost),
      DiffValue(desired.externalHost, observed.externalHost),
      DiffPointer(desired.internalHostSslValidation, observed.internalHostSslValidation),
      DiffNullable(desired.certificate, observed.certificate),
      DiffPointer(desired.skipPathRegex, observed.skipPathRegex),
      DiffPointer(desired.basicAuthEnabled, observed.basicAuthEnabled),
      DiffPointer(desired.basicAuthPasswordAttribute, observed.basicAuthPasswordAttribute),
      DiffPointer(desired.basicAuthUserAttribute, observed.basicAuthUserAttribute),
      DiffPointer(desired.mode, observed.mode),
      DiffPointer(desired.interceptHeaderAuth, observed.interceptHeaderAuth),
      DiffPointer(desired.cookieDomain, observed.cookieDomain),
      DiffPointer(desired.accessTokenValidity, observed.accessTokenValidity),
      DiffPointer(desired.refreshTokenValidity, observed.refreshTokenValidity))
  }

  const NO_PROXY_FIELDS := PatchedProxyProvider(
    None, Unset, None, None, None, None, None, None, Unset, None, None, None, None, None, None, None, None, None)

  function DiffProxyProvider(desired: PatchedProxyProvider, observed: ProxyProvider): Option<PatchedProxyProvider> {
    var patch := ProxyDifferences(desired, observed);
    if patch == NO_PROXY_FIELDS then None
    else Some(patch.(mode := FirstSome(desired.mode, observed.mode)))
  }

  /** The server keeps its own property mappings: a PATCH never writes them. */
  function ApplyProxyProvider(patch: PatchedProxyProvider, stored: ProxyProvider): ProxyProvider {
    stored.(
      name := PatchValue(patch.name, stored.name),
      authenticationFlow := PatchNullable(patch.authenticationFlow, stored.authenticationFlow),
      authorizationFlow := PatchValue(patch.authorizationFlow, stored.authorizationFlow),
      invalidationFlow := PatchValue(patch.invalidationFlow, stored.invalidationFlow),
      internalHost := FirstSome(patch.internalHost, stored.internalHost),
      externalHost := PatchValue(patch.externalHost, stored.externalHost),
      internalHostSslValidation := FirstSome(patch.internalHostSslValidation, stored.internalHostSslValidation),
      certificate := PatchNullable(patch.certificate, stored.certificate),
      skipPathRegex := FirstSome(patch.skipPathRegex, stored.skipPathRegex),
      basicAuthEnabled := FirstSome(patch.basicAuthEnabled, stored.basicAuthEnabled),
      basicAuthPasswordAttribute := FirstSome(patch.basicAuthPasswordAttribute, stored.basicAuthPasswordAttribute),
      basicAuthUserAttribute := FirstSome(patch.basicAuthUserAttribute, stored.basicAuthUserAttribute),
      mode := FirstSome(patch.mode, stored.mode),
      interceptHeaderAuth := FirstSome(patch.interceptHeaderAuth, stored.interceptHeaderAuth),
      cookieDomain := FirstSome(patch.cookieDomain, stored.cookieDomain),
      accessTokenValidity := FirstSome(patch.accessTokenValidity, stored.accessTokenValidity),
      refreshTokenValidity := FirstSome(patch.refreshTokenValidity, stored.refreshTokenValidity))
  }

  predicate ProxyConforms(desired: PatchedProxyProvider, observed: ProxyProvider) {
    && HasValue(desired.name, observed.name)
    && HasNullable(desired.authenticationFlow, observed.authenticationFlow)
    && HasValue(desired.authorizationFlow, observed.authorizationFlow)
    && HasValue(desired.invalidationFlow, observed.invalidationFlow)
    && HasSet(desired.propertyMappings, observed.propertyMappings)
    && HasPointer(desired.internalHost, observed.internalHost)
    && HasValue(desired.externalHost, observed.externalHost)
    && HasPointer(desired.internalHostSslValidation, observed.internalHostSslValidation)
    && HasNullable(desired.certificate, observed.certificate)
    && HasPointer(desired.skipPathRegex, observed.skipPathRegex)
    && HasPointer(desired.basicAuthEnabled, observed.basicAuthEnabled)
    && HasPointer(desired.basicAuthPasswordAttribute, observed.basicAuthPasswordAttribute)
    && HasPointer(desired.basicAuthUserAttribute, observed.basicAuthUserAttribute)
    && HasPointer(desired.mode, observed.mode)
    && HasPointer(desired.interceptHeaderAuth, observed.interceptHeaderAuth)
    && HasPointer(desired.cookieDomain, observed.cookieDomain)
    && HasPointer(desired.accessTokenValidity, observed.accessTokenValidity)
    && HasPointer(desired.refreshTokenValidity, observed.refreshTokenValidity)
  }

  predicate ProxyFrame(desired: PatchedProxyProvider, before: ProxyProvider, after: ProxyProvider) {
    && after.pk == before.pk
    && after.propertyMappings == before.propertyMappings
    && (desired.name.None? ==> after.name == before.name)
    && (desired.authenticationFlow.Unset? ==> after.authenticationFlow == before.authenticationFlow)
    && (desired.authorizationFlow.None? ==> after.authorizationFlow == before.authorizationFlow)
    && (desired.invalidationFlow.None? ==> after.invalidationFlow == before.invalidationFlow)
    && (desired.internalHost.None? ==> after.internalHost == before.internalHost)
    && (desired.externalHost.None? ==> after.externalHost == before.externalHost)
    && (desired.internalHostSslValidation.None? ==> after.internalHostSslValidation == before.internalHostSslValidation)
    && (desired.certificate.Unset? ==> after.certificate == before.certificate)
    && (desired.skipPathRegex.None? ==> after.skipPathRegex == before.skipPathRegex)
    && (desired.basicAuthEnabled.None? ==> after.basicAuthEnabled == before.basicAuthEnabled)
    && (desired.basicAuthPasswordAttribute.None? ==> after.basicAuthPasswordAttribute == before.basicAuthPasswordAttribute)
    && (desired.basicAuthUserAttribute.None? ==> after.basicAuthUserAttribute == before.basicAuthUserAttribute)
    && (desired.mode.None? ==> after.mode == before.mode)
    && (desired.interceptHeaderAuth.None? ==> after.interceptHeaderAuth == before.interceptHeaderAuth)
    && (desired.cookieDomain.None? ==> after.cookieDomain == before.cookieDomain)
    && (desired.accessTokenValidity.None? ==> after.accessTokenValidity == before.accessTokenValidity)
    && (desired.refreshTokenValidity.None? ==> after.refreshTokenValidity == before.refreshTokenValidity)
  }

  lemma ProxyDiffExact(desired: PatchedProxyProvider, observed: ProxyProvider)
    ensures DiffProxyProvider(desired, observed).None? <==> ProxyConforms(desired, observed)
  {}

  lemma ProxyConverges(desired: PatchedProxyProvider, observed: ProxyProvider)
    requires desired.propertyMappings.None?
    requires DiffProxyProvider(desired, observed).Some?
    ensures var after := ApplyProxyProvider(DiffProxyProvider(desired, observed).value, observed);
            && ProxyConforms(desired, after)
            && ProxyFrame(desired, observed, after)
            && DiffProxyProvider(desired, after).None?
  {
    var after := ApplyProxyProvider(DiffProxyProvider(desired, observed).value, observed);
    assert ProxyConforms(desired, after);
    ProxyDiffExact(desired, after);
  }

  /**
   Every body that reaches the desired state carries at least the fields that the Diff sends, besides the mode that the
   server asks for.
   */
  lemma ProxyDiffLeast(desired: PatchedProxyProvider, observed: ProxyProvider, other: PatchedProxyProvider)
    requires ProxyConforms(desired, ApplyProxyProvider(other, observed))
    requires DiffProxyProvider(desired, observed).Some?
    ensures var patch := DiffProxyProvider(desired, observed).value;
            && (patch.name.Some? ==> other.name.Some?)
            && (patch.authorizationFlow.Some? ==> other.authorizationFlow.Some?)
            && (patch.invalidationFlow.Some? ==> other.invalidationFlow.Some?)
            && (patch.internalHost.Some? ==> other.internalHost.Some?)
            && (patch.externalHost.Some? ==> other.externalHost.Some?)
            && (patch.internalHostSslValidation.Some? ==> other.internalHostSslValidation.Some?)
            && (patch.skipPathRegex.Some? ==> other.skipPathRegex.Some?)
            && (patch.basicAuthEnabled.Some? ==> other.basicAuthEnabled.Some?)
            && (patch.basicAuthPasswordAttribute.Some? ==> other.basicAuthPasswordAttribute.Some?)
            && (patch.basicAuthUserAttribute.Some? ==> other.basicAuthUserAttribute.Some?)
            && (patch.interceptHeaderAuth.Some? ==> other.interceptHeaderAuth.Some?)
            && (patch.cookieDomain.Some? ==> other.cookieDomain.Some?)
            && (patch.accessTokenValidity.Some? ==> other.accessTokenValidity.Some?)
            && (patch.refreshTokenValidity.Some? ==> other.refreshTokenValidity.Some?)
            && (!patch.authenticationFlow.Unset? ==> !other.authenticationFlow.Unset?)
            && (!patch.certificate.Unset? ==> !other.certificate.Unset?)
  {}

  /** The server's check of mode and internal host, which looks at the request body alone. */
  predicate ProxyModeAccepted(mode: Option<ProxyMode>, internalHost: Option<string>) {
    (mode.None? || mode.value == Proxy) ==> internalHost.Some? && internalHost.value != ""
  }

  /**
   Which drift of a Proxy Provider the server lets the operator repair: every drift in a forward mode, and in
   mode proxy only a drift of the internal host itself to a non-empty one.
   */
  lemma ProxyPatchAccepted(desired: PatchedProxyProvider, observed: ProxyProvider)
    requires DiffProxyProvider(desired, observed).Some?
    ensures var patch := DiffProxyProvider(desired, observed).value;
            var mode := FirstSome(desired.mode, observed.mode);
            ProxyModeAccepted(patch.mode, patch.internalHost) <==>
              || mode == Some(ForwardSingle)
              || mode == Some(ForwardDomain)
              || (&& desired.internalHost.Some?
                  && desired.internalHost != observed.internalHost
                  && desired.internalHost.value != "")
  {}

  // ---------- OAuth2 Provider ----------

  const NO_OAUTH2_FIELDS := PatchedOAuth2Provider(
    None, Unset, None, None, None, None, None, None, None, None, None, None, None, None, Unset, Unset, None, None, None,
    None, None)

  function DiffOAuth2Provider(desired: PatchedOAuth2Provider, observed: OAuth2Provider): Option<PatchedOAuth2Provider> {
    var patch := PatchedOAuth2Provider(
      DiffValue(desired.name, observed.name),
      DiffNullable(desired.authenticationFlow, observed.authenticationFlow),
      DiffValue(desired.authorizationFlow, observed.authorizationFlow),
      DiffValue(desired.invalidationFlow, observed.invalidationFlow),
      DiffSet(desired.propertyMappings, observed.propertyMappings),
      DiffPointer(desired.clientType, observed.clientType),
      DiffSet(desired.grantTypes, observed.grantTypes),
      DiffPointer(desired.clientId, observed.clientId),
      DiffPointer(desired.clientSecret, observed.clientSecret),
      DiffPointer(desired.accessCodeValidity, observed.accessCodeValidity),
      DiffPointer(desired.accessTokenValidity, observed.accessTokenValidity),
      DiffPointer(desired.refreshTokenValidity, observed.refreshTokenValidity),
      DiffPointer(desired.refreshTokenThreshold, observed.refreshTokenThreshold),
      DiffPointer(desired.includeClaimsInIdToken, observed.includeClaimsInIdToken),
      DiffNullable(desired.signingKey, observed.signingKey),
      DiffNullable(desired.encryptionKey, observed.encryptionKey),
      DiffRedirects(desired.redirectUris, observed.redirectUris),
      DiffPointer(desired.logoutUri, observed.logoutUri),
      DiffPointer(desired.logoutMethod, observed.logoutMethod),
      DiffPointer(desired.subMode, observed.subMode),
      DiffPointer(desired.issuerMode, observed.issuerMode));
    if patch == NO_OAUTH2_FIELDS then None else Some(patch)
  }

  function ApplyOAuth2Provider(patch: PatchedOAuth2Provider, stored: OAuth2Provider): OAuth2Provider {
    stored.(
      name := PatchValue(patch.name, stored.name),
      authenticationFlow := PatchNullable(patch.authenticationFlow, stored.authenticationFlow),
      authorizationFlow := PatchValue(patch.authorizationFlow, stored.authorizationFlow),
      invalidationFlow := PatchValue(patch.invalidationFlow, stored.invalidationFlow),
      propertyMappings := PatchValue(patch.propertyMappings, stored.propertyMappings),
      clientType := FirstSome(patch.clientType, stored.clientType),
      grantTypes := PatchValue(patch.grantTypes, stored.grantTypes),
      clientId := FirstSome(patch.clientId, stored.clientId),
      clientSecret := FirstSome(patch.clientSecret, stored.clientSecret),
      accessCodeValidity := FirstSome(patch.accessCodeValidity, stored.accessCodeValidity),
      accessTokenValidity := FirstSome(patch.accessTokenValidity, stored.accessTokenValidity),
      refreshTokenValidity := FirstSome(patch.refreshTokenValidity, stored.refreshTokenValidity),
      refreshTokenThreshold := FirstSome(patch.refreshTokenThreshold, stored.refreshTokenThreshold),
      includeClaimsInIdToken := FirstSome(patch.includeClaimsInIdToken, stored.includeClaimsInIdToken),
      signingKey := PatchNullable(patch.signingKey, stored.signingKey),
      encryptionKey := PatchNullable(patch.encryptionKey, stored.encryptionKey),
      redirectUris := PatchValue(patch.redirectUris, stored.redirectUris),
      logoutUri := FirstSome(patch.logoutUri, stored.logoutUri),
      logoutMethod := FirstSome(patch.logoutMethod, stored.logoutMethod),
      subMode := FirstSome(patch.subMode, stored.subMode),
      issuerMode := FirstSome(patch.issuerMode, stored.issuerMode))
  }

  predicate OAuth2Conforms(desired: PatchedOAuth2Provider, observed: OAuth2Provider) {
    && HasValue(desired.name, observed.name)
    && HasNullable(desired.authenticationFlow, observed.authenticationFlow)
    && HasValue(desired.authorizationFlow, observed.authorizationFlow)
    && HasValue(desired.invalidationFlow, observed.invalidationFlow)
    && HasSet(desired.propertyMappings, observed.propertyMappings)
    && HasPointer(desired.clientType, observed.clientType)
    && HasSet(desired.grantTypes, observed.grantTypes)
    && HasPointer(desired.clientId, observed.clientId)
    && HasPointer(desired.clientSecret, observed.clientSecret)
    && HasPointer(desired.accessCodeValidity, observed.accessCodeValidity)
    && HasPointer(desired.accessTokenValidity, observed.accessTokenValidity)
    && HasPointer(desired.refreshTokenValidity, observed.refreshTokenValidity)
    && HasPointer(desired.refreshTokenThreshold, observed.refreshTokenThreshold)
    && HasPointer(desired.includeClaimsInIdToken, observed.includeClaimsInIdToken)
    && HasNullable(desired.signingKey, observed.signingKey)
    && HasNullable(desired.encryptionKey, observed.encryptionKey)
    && (desired.redirectUris.Some? ==> RedirectKeys(observed.redirectUris) == RedirectKeys(desired.redirectUris.value))
    && HasPointer(desired.logoutUri, observed.logoutUri)
    && HasPointer(desired.logoutMethod, observed.logoutMethod)
    && HasPointer(desired.subMode, observed.subMode)
    && HasPointer(desired.issuerMode, observed.issuerMode)
  }

  predicate OAuth2Frame(desired: PatchedOAuth2Provider, before: OAuth2Provider, after: OAuth2Provider) {
    && after.pk == before.pk
    && (desired.name.None? ==> after.name == before.name)
    && (desired.authenticationFlow.Unset? ==> after.authenticationFlow == before.authenticationFlow)
    && (desired.authorizationFlow.None? ==> after.authorizationFlow == before.authorizationFlow)
    && (desired.invalidationFlow.None? ==> after.invalidationFlow == before.invalidationFlow)
    && (desired.propertyMappings.None? ==> after.propertyMappings == before.propertyMappings)
    && (desired.clientType.None? ==> after.clientType == before.clientType)
    && (desired.grantTypes.None? ==> after.grantTypes == before.grantTypes)
    && (desired.clientId.None? ==> after.clientId == before.clientId)
    && (desired.clientSecret.None? ==> after.clientSecret == before.clientSecret)
    && (desired.accessCodeValidity.None? ==> after.accessCodeValidity == before.accessCodeValidity)
    && (desired.accessTokenValidity.None? ==> after.accessTokenValidity == before.accessTokenValidity)
    && (desired.refreshTokenValidity.None? ==> after.refreshTokenValidity == before.refreshTokenValidity)
    && (desired.refreshTokenThreshold.None? ==> after.refreshTokenThreshold == before.refreshTokenThreshold)
    && (desired.includeClaimsInIdToken.None? ==> after.includeClaimsInIdToken == before.includeClaimsInIdToken)
    && (desired.signingKey.Unset? ==> after.signingKey == before.signingKey)
    && (desired.encryptionKey.Unset? ==> after.encryptionKey == before.encryptionKey)
    && (desired.redirectUris.None? ==> after.redirectUris == before.redirectUris)
    && (desired.logoutUri.None? ==> after.logoutUri == before.logoutUri)
    && (desired.logoutMethod.None? ==> after.logoutMethod == before.logoutMethod)
    && (desired.subMode.None? ==> after.subMode == before.subMode)
    && (desired.issuerMode.None? ==> after.issuerMode == before.issuerMode)
  }

  lemma OAuth2DiffExact(desired: PatchedOAuth2Provider, observed: OAuth2Provider)
    ensures DiffOAuth2Provider(desired, observed).None? <==> OAuth2Conforms(desired, observed)
  {}

  lemma OAuth2Converges(desired: PatchedOAuth2Provider, observed: OAuth2Provider)
    requires DiffOAuth2Provider(desired, observed).Some?
    ensures var after := ApplyOAuth2Provider(DiffOAuth2Provider(desired, observed).value, observed);
            && OAuth2Conforms(desired, after)
            && OAuth2Frame(desired, observed, after)
            && DiffOAuth2Provider(desired, after).None?
  {
    var after := ApplyOAuth2Provider(DiffOAuth2Provider(desired, observed).value, observed);
    assert OAuth2Conforms(desired, after);
    OAuth2DiffExact(desired, after);
  }

  /** Every body that reaches the desired state carries at least the fields that the Diff sends. */
  lemma OAuth2DiffLeast(desired: PatchedOAuth2Provider, observed: OAuth2Provider, other: PatchedOAuth2Provider)
    requires OAuth2Conforms(desired, ApplyOAuth2Provider(other, observed))
    requires DiffOAuth2Provider(desired, observed).Some?
    ensures var patch := DiffOAuth2Provider(desired, observed).value;
            && (patch.name.Some? ==> other.name.Some?)
            && (patch.authorizationFlow.Some? ==> other.authorizationFlow.Some?)
            && (patch.invalidationFlow.Some? ==> other.invalidationFlow.Some?)
            && (patch.propertyMappings.Some? ==> other.propertyMappings.Some?)
            && (patch.clientType.Some? ==> other.clientType.Some?)
            && (patch.grantTypes.Some? ==> other.grantTypes.Some?)
            && (patch.clientId.Some? ==> other.clientId.Some?)
            && (patch.clientSecret.Some? ==> other.clientSecret.Some?)
            && (patch.accessCodeValidity.Some? ==> other.accessCodeValidity.Some?)
            && (patch.accessTokenValidity.Some? ==> other.accessTokenValidity.Some?)
            && (patch.refreshTokenValidity.Some? ==> other.refreshTokenValidity.Some?)
            && (patch.refreshTokenThreshold.Some? ==> other.refreshTokenThreshold.Some?)
            && (patch.includeClaimsInIdToken.Some? ==> other.includeClaimsInIdToken.Some?)
            && (patch.redirectUris.Some? ==> other.redirectUris.Some?)
            && (patch.logoutUri.Some? ==> other.logoutUri.Some?)
            && (patch.logoutMethod.Some? ==> other.logoutMethod.Some?)
            && (patch.subMode.Some? ==> other.subMode.Some?)
            && (patch.issuerMode.Some? ==> other.issuerMode.Some?)
            && (!patch.authenticationFlow.Unset? ==> !other.authenticationFlow.Unset?)
            && (!patch.signingKey.Unset? ==> !other.signingKey.Unset?)
            && (!patch.encryptionKey.Unset? ==> !other.encryptionKey.Unset?)
  {}

  // ---------- PolicyBinding ----------

  predicate SetString(v: Nullable<Key>) {
    v.Value? && v.value != EMPTY
  }

  /** The server's check of a body: exactly one of policy, group, and user is set. */
  predicate OneSubject(policy: Nullable<Key>, group: Nullable<Key>, user: Nullable<int>) {
    (if SetString(policy) then 1 else 0) + (if SetString(group) then 1 else 0) + (if user.Value? then 1 else 0) == 1
  }

  predicate SingleSubject(binding: Binding) {
    OneSubject(binding.policy, binding.group, binding.user)
  }

  predicate SubjectManaged(desired: PatchedBinding) {
    !desired.policy.Unset? || !desired.group.Unset? || !desired.user.Unset?
  }

  function OrNull<T>(v: Nullable<T>): Nullable<T> {
    if v.Unset? then Null else v
  }

  function DiffBinding(desired: PatchedBinding, observed: Binding): Option<PatchedBinding> {
    var patch := PatchedBinding(
      DiffNullable(desired.policy, observed.policy),
      DiffNullable(desired.group, observed.group),
      DiffNullable(desired.user, observed.user),
      DiffValue(desired.target, observed.target),
      DiffPointer(desired.negate, observed.negate),
      DiffPointer(desired.enabled, observed.enabled),
      DiffValue(desired.order, observed.order),
      DiffPointer(desired.timeout, observed.timeout),
      DiffPointer(desired.failureResult, observed.failureResult));
    if patch == PatchedBinding(Unset, Unset, Unset, None, None, None, None, None, None) then None
    else
      var withTarget := patch.(target := FirstSome(desired.target, Some(observed.target)));
      if SubjectManaged(desired)
      then Some(withTarget.(policy := OrNull(desired.policy), group := OrNull(desired.group), user := OrNull(desired.user)))
      else Some(withTarget.(policy := observed.policy, group := observed.group, user := observed.user))
  }

  function ApplyBinding(patch: PatchedBinding, stored: Binding): Binding {
    stored.(
      policy := PatchNullable(patch.policy, stored.policy),
      group := PatchNullable(patch.group, stored.group),
      user := PatchNullable(patch.user, stored.user),
      target := PatchValue(patch.target, stored.target),
      negate := FirstSome(patch.negate, stored.negate),
      enabled := FirstSome(patch.enabled, stored.enabled),
      order := PatchValue(patch.order, stored.order),
      timeout := FirstSome(patch.timeout, stored.timeout),
      failureResult := FirstSome(patch.failureResult, stored.failureResult))
  }

  predicate BindingConforms(desired: PatchedBinding, observed: Binding) {
    && HasNullable(desired.policy, observed.policy)
    && HasNullable(desired.group, observed.group)
    && HasNullable(desired.user, observed.user)
    && HasValue(desired.target, observed.target)
    && HasPointer(desired.negate, observed.negate)
    && HasPointer(desired.enabled, observed.enabled)
    && HasValue(desired.order, observed.order)
    && HasPointer(desired.timeout, observed.timeout)
    && HasPointer(desired.failureResult, observed.failureResult)
  }

  /** The three subject fields count as one: they change together or not at all. */
  predicate BindingFrame(desired: PatchedBinding, before: Binding, after: Binding) {
    && after.pk == before.pk
    && (!SubjectManaged(desired) ==>
          after.policy == before.policy && after.group == before.group && after.user == before.user)
    && (desired.target.None? ==> after.target == before.target)
    && (desired.negate.None? ==> after.negate == before.negate)
    && (desired.enabled.None? ==> after.enabled == before.enabled)
    && (desired.order.None? ==> after.order == before.order)
    && (desired.timeout.None? ==> after.timeout == before.timeout)
    && (desired.failureResult.None? ==> after.failureResult == before.failureResult)
  }

  lemma BindingDiffExact(desired: PatchedBinding, observed: Binding)
    ensures DiffBinding(desired, observed).None? <==> BindingConforms(desired, observed)
  {}

  /** The body always carries a target and, for one desired subject, exactly that subject. */
  lemma BindingConverges(desired: PatchedBinding, observed: Binding)
    requires DiffBinding(desired, observed).Some?
    requires SubjectManaged(desired) ==> OneSubject(desired.policy, desired.group, desired.user)
    requires !SubjectManaged(desired) ==> SingleSubject(observed)
    ensures var patch := DiffBinding(desired, observed).value;
            var after := ApplyBinding(patch, observed);
            && patch.target.Some? && OneSubject(patch.policy, patch.group, patch.user)
            && SingleSubject(after)
            && BindingConforms(desired, after)
            && BindingFrame(desired, observed, after)
            && DiffBinding(desired, after).None?
  {
    var patch := DiffBinding(desired, observed).value;
    var after := ApplyBinding(patch, observed);
    assert BindingConforms(desired, after);
    BindingDiffExact(desired, after);
  }

  /**
   Every body that reaches the desired state carries at least the fields that the Diff sends, besides the target and the
   subject that the server asks for.
   */
  lemma BindingDiffLeast(desired: PatchedBinding, observed: Binding, other: PatchedBinding)
    requires BindingConforms(desired, ApplyBinding(other, observed))
    requires DiffBinding(desired, observed).Some?
    ensures var patch := DiffBinding(desired, observed).value;
            && (patch.negate.Some? ==> other.negate.Some?)
            && (patch.enabled.Some? ==> other.enabled.Some?)
            && (patch.order.Some? ==> other.order.Some?)
            && (patch.timeout.Some? ==> other.timeout.Some?)
            && (patch.failureResult.Some? ==> other.failureResult.Some?)
  {}

  /**
   The server looks at the body alone, and a field that the body omits keeps its stored value. So a Binding keeps one
   subject if and only if the body names the field of the stored subject, as the new subject or as null.
   */
  lemma PartialUpdateKeepsOneSubject(patch: PatchedBinding, observed: Binding)
    requires SingleSubject(observed) && OneSubject(patch.policy, patch.group, patch.user)
    ensures SingleSubject(ApplyBinding(patch, observed)) <==>
              && (SetString(observed.policy) ==> !patch.policy.Unset?)
              && (SetString(observed.group) ==> !patch.group.Unset?)
              && (observed.user.Value? ==> !patch.user.Unset?)
  {}
}
