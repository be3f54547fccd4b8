/**
 What a spec asks of the objects in authentik, field by field (internal/controller/desired.go): a field that the spec gives
 has that value, and any other field has the value it had, or the one that the server gives a new object.

 The desired objects of the operator, the bodies of its requests, and what the server stores for them are held against
 these predicates, which mention none of them.
 */
module Specified {
  import opened Base
  import opened Api
  import opened Patch
  import opened Matching
  import opened Server
  import opened Desired
  import opened Resources

  // ---------- one field ----------

  predicate Given<T(==)>(asked: Option<T>, was: T, now: T) {
    match asked
    case Some(value) => now == value
    case None => now == was
  }

  predicate GivenOption<T(==)>(asked: Option<T>, was: Option<T>, now: Option<T>) {
    match asked
    case Some(value) => now == Some(value)
    case None => now == was
  }

  predicate GivenNullable<T(==)>(asked: Option<T>, was: Nullable<T>, now: Nullable<T>) {
    match asked
    case Some(value) => now == Value(value)
    case None => now == was
  }

  predicate GivenSet<T(==)>(asked: Option<seq<T>>, was: seq<T>, now: seq<T>) {
    match asked
    case Some(values) => (forall x :: x in values ==> x in now) && (forall x :: x in now ==> x in values)
    case None => now == was
  }

  // ---------- Application ----------

  predicate ApplicationAsAsked(spec: Spec, link: Option<Key>, was: Application, now: Application) {
    && now.pk == was.pk && now.pbmUuid == was.pbmUuid && now.slug == was.slug
    && now.backchannelProviders == was.backchannelProviders
    && now.name == spec.name
    && GivenNullable(link, was.provider, now.provider)
    && GivenOption(spec.openInNewTab, was.openInNewTab, now.openInNewTab)
    && GivenOption(spec.launchUrl, was.metaLaunchUrl, now.metaLaunchUrl)
    && GivenOption(spec.icon, was.metaIcon, now.metaIcon)
    && GivenOption(spec.description, was.metaDescription, now.metaDescription)
    && GivenOption(spec.publisher, was.metaPublisher, now.metaPublisher)
    && GivenOption(spec.mode, was.policyEngineMode, now.policyEngineMode)
    && GivenOption(spec.group, was.group, now.group)
    && GivenOption(spec.hideFromDashboard, was.metaHide, now.metaHide)
  }

  /** An Application for which nothing was given: access takes any of its Bindings. */
  function NewApplication(pk: Key, slug: string): Application {
    Application(pk, pk, "", slug, Unset, [], None, None, None, None, None, Some(Any), None, None)
  }

  lemma ApplicationAsked(spec: Spec, link: Option<Key>, was: Application, now: Application)
    ensures ApplicationConforms(DesiredApplication(spec, link), now) && ApplicationFrame(DesiredApplication(spec, link), was, now)
            <==> ApplicationAsAsked(spec, link, was, now)
  {}

  lemma CreatedApplicationAsked(spec: Spec, link: Option<Key>, pk: Key)
    ensures ApplicationAsAsked(spec, link, NewApplication(pk, spec.slug),
                               StoredApplication(CreateApplicationRequest(spec.slug, DesiredApplication(spec, link)), pk))
  {}

  /**
   The Application under the slug is as it was, or as the spec asks, with a link to a Provider if and only if the spec has one.
   */
  ghost predicate SlugAsAsked(spec: Spec, before: map<string, Application>, now: map<string, Application>) {
    spec.slug in now ==>
      || (spec.slug in before && now[spec.slug] == before[spec.slug])
      || exists link: Option<Key> ::
           && (link.Some? <==> spec.provider.Some?)
           && ApplicationAsAsked(spec, link, if spec.slug in before then before[spec.slug]
                                 else NewApplication(now[spec.slug].pk, spec.slug), now[spec.slug])
  }

  lemma SameSlug(spec: Spec, applications: map<string, Application>)
    ensures SlugAsAsked(spec, applications, applications)
  {}

  lemma SlugAskedTwice(spec: Spec, a: map<string, Application>, b: map<string, Application>, c: map<string, Application>)
    requires SlugAsAsked(spec, a, b) && SlugAsAsked(spec, b, c) && (spec.slug in a ==> spec.slug in b)
    ensures SlugAsAsked(spec, a, c)
  {
    hide ApplicationAsAsked;
    if spec.slug in b && spec.slug in c && c[spec.slug] != b[spec.slug] && !(spec.slug in a && b[spec.slug] == a[spec.slug]) {
      var was := if spec.slug in a then a[spec.slug] else NewApplication(b[spec.slug].pk, spec.slug);
      var link: Option<Key> :| (link.Some? <==> spec.provider.Some?) && ApplicationAsAsked(spec, link, was, b[spec.slug]);
      var more: Option<Key> :| (more.Some? <==> spec.provider.Some?)
                               && ApplicationAsAsked(spec, more, b[spec.slug], c[spec.slug]);
      ApplicationAskedTwice(spec, link, more, was, b[spec.slug], c[spec.slug]);
    }
  }

  lemma ApplicationAskedTwice(spec: Spec, link: Option<Key>, more: Option<Key>, a: Application, b: Application, c: Application)
    requires ApplicationAsAsked(spec, link, a, b) && ApplicationAsAsked(spec, more, b, c) && (link.Some? <==> more.Some?)
    ensures ApplicationAsAsked(spec, more, a, c) && c.pk == b.pk
  {}

  // ---------- Proxy Provider ----------

  /** The text has the parts as its lines. */
  predicate Lines(parts: seq<string>, text: string) {
    if |parts| <= 1 then text == if parts == [] then "" else parts[0]
    else parts[0] + ['\n'] <= text && Lines(parts[1..], text[|parts[0]| + 1..])
  }

  /** The lines of a text. */
  function LinesOf(text: string): seq<string> {
    if text == "" then [""]
    else if text[0] == '\n' then [""] + LinesOf(text[1..])
    else
      var rest := LinesOf(text[1..]);
      if rest == [] then [[text[0]]] else [[text[0]] + rest[0]] + rest[1..]
  }

  lemma {:induction false} OneLine(part: string, text: string)
    requires '\n' !in part
    ensures LinesOf(part + ['\n'] + text) == [part] + LinesOf(text)
    ensures LinesOf(part) == [part]
  {
    if part == "" {
      assert part + ['\n'] + text == ['\n'] + text;
    } else {
      OneLine(part[1..], text);
      assert (part + ['\n'] + text)[1..] == part[1..] + ['\n'] + text;
      assert [part[0]] + part[1..] == part;
      assert ([part[1..]] + LinesOf(text))[1..] == LinesOf(text);
      assert '\n' !in part ==> part[0] != '\n';
    }
  }

  /** Reading the lines of the text gives the parts back, as long as no part breaks a line itself. */
  lemma {:induction false} LinesReadBack(parts: seq<string>, text: string)
    requires Lines(parts, text) && parts != [] && forall i :: 0 <= i < |parts| ==> '\n' !in parts[i]
    ensures LinesOf(text) == parts
  {
    hide LinesOf;
    if |parts| == 1 {
      OneLine(parts[0], "");
      assert parts == [parts[0]];
    } else {
      var rest := text[|parts[0]| + 1..];
      LinesReadBack(parts[1..], rest);
      OneLine(parts[0], rest);
      assert text == parts[0] + ['\n'] + rest;
      assert parts == [parts[0]] + parts[1..];
    }
  }

  lemma {:induction false} JoinedLines(parts: seq<string>, text: string)
    ensures text == Join(parts) <==> Lines(parts, text)
  {
    if |parts| > 1 {
      assert parts[0] + "\n" + Join(parts[1..]) == parts[0] + ['\n'] + Join(parts[1..]);
      if parts[0] + ['\n'] <= text {
        JoinedLines(parts[1..], text[|parts[0]| + 1..]);
        assert text == parts[0] + ['\n'] + text[|parts[0]| + 1..];
      }
    }
  }

  predicate ModeAsAsked(mode: ProxyModeSpec, was: ProxyProvider, now: ProxyProvider) {
    match mode
    case ReverseProxy(externalHost, internalHost, validation) =>
      && now.mode == Some(Proxy) && now.externalHost == externalHost && now.internalHost == Some(internalHost)
      && GivenOption(validation, was.internalHostSslValidation, now.internalHostSslValidation)
      && now.cookieDomain == was.cookieDomain
    case ForwardAuthSingle(externalHost) =>
      && now.mode == Some(ForwardSingle) && now.externalHost == externalHost
      && now.internalHost == was.internalHost && now.internalHostSslValidation == was.internalHostSslValidation
      && now.cookieDomain == was.cookieDomain
    case ForwardAuthDomain(authenticationUrl, cookieDomain) =>
      && now.mode == Some(ForwardDomain) && now.externalHost == authenticationUrl && now.cookieDomain == Some(cookieDomain)
      && now.internalHost == was.internalHost && now.internalHostSslValidation == was.internalHostSslValidation
  }

  predicate BasicAuthAsAsked(basicAuth: Option<BasicAuthSpec>, was: ProxyProvider, now: ProxyProvider) {
    match basicAuth
    case Some(auth) =>
      && now.basicAuthEnabled == Some(true) && now.basicAuthUserAttribute == Some(auth.userAttribute)
      && now.basicAuthPasswordAttribute == Some(auth.passwordAttribute)
    case None =>
      && now.basicAuthEnabled == was.basicAuthEnabled && now.basicAuthUserAttribute == was.basicAuthUserAttribute
      && now.basicAuthPasswordAttribute == was.basicAuthPasswordAttribute
  }

  predicate PathsAsAsked(paths: Option<seq<string>>, was: ProxyProvider, now: ProxyProvider) {
    match paths
    case Some(parts) => now.skipPathRegex.Some? && Lines(parts, now.skipPathRegex.value)
    case None => now.skipPathRegex == was.skipPathRegex
  }

  predicate ProxyAsAsked(provider: ProviderSpec, flows: Flows, refs: ProxyReferences, was: ProxyProvider, now: ProxyProvider)
    requires provider.kind.ProxySpec?
  {
    && now.pk == was.pk && now.propertyMappings == was.propertyMappings
    && Given(provider.name, was.name, now.name)
    && now.authorizationFlow == flows.authorization
    && now.invalidationFlow == flows.invalidation
    && GivenNullable(flows.authentication, was.authenticationFlow, now.authenticationFlow)
    && GivenNullable(refs.certificate, was.certificate, now.certificate)
    && GivenOption(provider.kind.interceptHeaderAuth, was.interceptHeaderAuth, now.interceptHeaderAuth)
    && GivenOption(provider.kind.accessTokenValidity, was.accessTokenValidity, now.accessTokenValidity)
    && GivenOption(provider.kind.refreshTokenValidity, was.refreshTokenValidity, now.refreshTokenValidity)
    && PathsAsAsked(provider.kind.unauthenticatedPaths, was, now)
    && BasicAuthAsAsked(provider.kind.basicAuth, was, now)
    && ModeAsAsked(provider.kind.mode, was, now)
  }

  /** A Proxy Provider for which nothing but a name was given. */
  function NewProxy(pk: Key, name: string): ProxyProvider {
    ProxyProvider(pk, name, Unset, EMPTY, EMPTY, [], None, "", None, Unset, None, None, None, None, Some(Proxy), None, None, None,
                  None)
  }

  lemma ProxyAsked(provider: ProviderSpec, flows: Flows, refs: ProxyReferences, was: ProxyProvider, now: ProxyProvider)
    requires provider.kind.ProxySpec?
    ensures var desired := DesiredProxyProvider(provider, flows, refs);
            ProxyConforms(desired, now) && ProxyFrame(desired, was, now) <==> ProxyAsAsked(provider, flows, refs, was, now)
  {
    hide Lines, Join, LinesOf;
    if provider.kind.unauthenticatedPaths.Some? && now.skipPathRegex.Some? {
      JoinedLines(provider.kind.unauthenticatedPaths.value, now.skipPathRegex.value);
    }
    var desired := DesiredProxyProvider(provider, flows, refs);
    match provider.kind.mode {
      case ReverseProxy(_, _, _) =>
      case ForwardAuthSingle(_) =>
      case ForwardAuthDomain(_, _) =>
    }
    if ProxyAsAsked(provider, flows, refs, was, now) {
      assert ProxyConforms(desired, now);
      assert ProxyFrame(desired, was, now);
    }
  }

  lemma CreatedProxyAsked(spec: Spec, flows: Flows, refs: ProxyReferences, pk: Key)
    requires spec.provider.Some? && spec.provider.value.kind.ProxySpec?
    ensures var desired := DesiredProxyProvider(spec.provider.value, flows, refs);
            ProxyAsAsked(spec.provider.value, flows, refs, NewProxy(pk, spec.slug),
                         StoredProxyProvider(CreateProxyProviderRequest(ProviderName(spec), desired), pk))
  {
    if spec.provider.value.kind.unauthenticatedPaths.Some? {
      var parts := spec.provider.value.kind.unauthenticatedPaths.value;
      JoinedLines(parts, Join(parts));
    }
  }

  // ---------- OAuth2 Provider ----------

  /** The redirect URI has the URL, is matched strictly unless the spec says otherwise, and authorizes unless it is for logout. */
  predicate RedirectAsAsked(asked: RedirectUriSpec, uri: RedirectUri) {
    && uri.url == asked.url
    && (uri.matchingMode.Regex? <==> asked.matchingMode.Some? && asked.matchingMode.value.Regex?)
    && (uri.uriType.Some? && uri.uriType.value.Logout? <==> asked.uriType.Some? && asked.uriType.value.Logout?)
  }

  /** Every URI asked for is there, and every one there is asked for. */
  predicate SameRedirects(asked: seq<RedirectUriSpec>, uris: seq<RedirectUri>) {
    && (forall a :: a in asked ==> exists u :: u in uris && RedirectAsAsked(a, u))
    && (forall u :: u in uris ==> exists a :: a in asked && RedirectAsAsked(a, u))
  }

  predicate RedirectsAsAsked(asked: Option<seq<RedirectUriSpec>>, was: seq<RedirectUri>, now: seq<RedirectUri>) {
    match asked
    case Some(uris) => SameRedirects(uris, now)
    case None => now == was
  }

  /** The client ID and the client secret: an empty ID is not asked for, and the secret only when the Secret exists. */
  predicate CredentialsAsAsked(credentials: Option<Credentials>, was: OAuth2Provider, now: OAuth2Provider) {
    && (if credentials.Some? && credentials.value.clientId != "" then now.clientId == Some(credentials.value.clientId)
        else now.clientId == was.clientId)
    && (if credentials.Some? && credentials.value.secretExists then now.clientSecret == Some(credentials.value.clientSecret)
        else now.clientSecret == was.clientSecret)
  }

  predicate OAuth2AsAsked(provider: ProviderSpec, flows: Flows, refs: OAuth2References, was: OAuth2Provider, now: OAuth2Provider)
    requires provider.kind.OAuth2Spec?
  {
    && now.pk == was.pk
    && Given(provider.name, was.name, now.name)
    && now.authorizationFlow == flows.authorization
    && now.invalidationFlow == flows.invalidation
    && GivenNullable(flows.authentication, was.authenticationFlow, now.authenticationFlow)
    && GivenSet(refs.scopes, was.propertyMappings, now.propertyMappings)
    && GivenNullable(refs.signingKey, was.signingKey, now.signingKey)
    && GivenNullable(refs.encryptionKey, was.encryptionKey, now.encryptionKey)
    && CredentialsAsAsked(refs.credentials, was, now)
    && GivenOption(provider.kind.clientType, was.clientType, now.clientType)
    && GivenSet(provider.kind.grantTypes, was.grantTypes, now.grantTypes)
    && GivenOption(provider.kind.accessCodeValidity, was.accessCodeValidity, now.accessCodeValidity)
    && GivenOption(provider.kind.accessTokenLifetime, was.accessTokenValidity, now.accessTokenValidity)
    && GivenOption(provider.kind.refreshTokenLifetime, was.refreshTokenValidity, now.refreshTokenValidity)
    && GivenOption(provider.kind.refreshTokenThreshold, was.refreshTokenThreshold, now.refreshTokenThreshold)
    && GivenOption(provider.kind.includeClaimsInIdToken, was.includeClaimsInIdToken, now.includeClaimsInIdToken)
    && RedirectsAsAsked(provider.kind.redirectUris, was.redirectUris, now.redirectUris)
    && GivenOption(provider.kind.logoutUri, was.logoutUri, now.logoutUri)
    && GivenOption(provider.kind.logoutMethod, was.logoutMethod, now.logoutMethod)
    && GivenOption(provider.kind.subjectMode, was.subMode, now.subMode)
    && GivenOption(provider.kind.issuerMode, was.issuerMode, now.issuerMode)
  }

  /** An OAuth2 Provider for which nothing but a name was given, with the creation defaults and random credentials. */
  function NewOAuth2(pk: Key, name: string, defaults: CreationDefaults, id: string, secret: string): OAuth2Provider {
    OAuth2Provider(pk, name, Unset, EMPTY, EMPTY, defaults.scopes, None, [], Some(id), Some(secret), None, None, None, None, None,
                   if defaults.signingKey.Some? then Value(defaults.signingKey.value) else Unset, Unset, [], None, None, None, None)
  }

  lemma RedirectsAsked(asked: seq<RedirectUriSpec>, uris: seq<RedirectUri>)
    ensures RedirectKeys(uris) == RedirectKeys(DesiredRedirects(asked)) <==> SameRedirects(asked, uris)
  {
    DesiredKeys(asked);
    forall a: RedirectUriSpec, u: RedirectUri ensures RedirectAsAsked(a, u) <==> KeyOf(DesiredRedirect(a)) == KeyOf(u) {
      RedirectAsked(a, u);
    }
    var keys := set a | a in asked :: KeyOf(DesiredRedirect(a));
    hide RedirectAsAsked, KeyOf, DesiredRedirect;
    if RedirectKeys(uris) == keys {
      forall a | a in asked ensures exists u :: u in uris && RedirectAsAsked(a, u) {
        assert KeyOf(DesiredRedirect(a)) in RedirectKeys(uris);
      }
      forall u | u in uris ensures exists a :: a in asked && RedirectAsAsked(a, u) {
        assert KeyOf(u) in keys;
      }
    } else if SameRedirects(asked, uris) {
      assert forall k :: k in RedirectKeys(uris) <==> k in keys;
    }
  }

  lemma DesiredKeys(asked: seq<RedirectUriSpec>)
    ensures RedirectKeys(DesiredRedirects(asked)) == set a | a in asked :: KeyOf(DesiredRedirect(a))
  {
    var desired, keys := DesiredRedirects(asked), set a | a in asked :: KeyOf(DesiredRedirect(a));
    hide KeyOf, DesiredRedirect;
    forall k | k in keys ensures k in RedirectKeys(desired) {
      var a :| a in asked && KeyOf(DesiredRedirect(a)) == k;
      var i :| 0 <= i < |asked| && asked[i] == a;
      assert desired[i] == DesiredRedirect(a);
    }
  }

  lemma RedirectAsked(asked: RedirectUriSpec, uri: RedirectUri)
    ensures KeyOf(DesiredRedirect(asked)) == KeyOf(uri) <==> RedirectAsAsked(asked, uri)
  {}

  lemma SetAsked<T>(asked: Option<seq<T>>, was: seq<T>, now: seq<T>)
    ensures HasSet(asked, now) && (asked.None? ==> now == was) <==> GivenSet(asked, was, now)
  {
    if asked.Some? {
      assert forall x :: x in asked.value <==> x in Elements(asked.value);
      assert forall x :: x in now <==> x in Elements(now);
    }
  }

  lemma OAuth2Asked(provider: ProviderSpec, flows: Flows, refs: OAuth2References, was: OAuth2Provider, now: OAuth2Provider)
    requires provider.kind.OAuth2Spec?
    ensures var desired := DesiredOAuth2Provider(provider, flows, refs);
            OAuth2Conforms(desired, now) && OAuth2Frame(desired, was, now) <==> OAuth2AsAsked(provider, flows, refs, was, now)
  {
    hide RedirectKeys, DesiredRedirects, SameRedirects, HasSet, GivenSet;
    SetAsked(refs.scopes, was.propertyMappings, now.propertyMappings);
    SetAsked(provider.kind.grantTypes, was.grantTypes, now.grantTypes);
    if provider.kind.redirectUris.Some? {
      RedirectsAsked(provider.kind.redirectUris.value, now.redirectUris);
    }
  }

  lemma CreatedOAuth2Asked(spec: Spec, flows: Flows, refs: OAuth2References, defaults: CreationDefaults, pk: Key, id: string,
                           secret: string)
    requires spec.provider.Some? && spec.provider.value.kind.OAuth2Spec?
    ensures var desired := DesiredOAuth2Provider(spec.provider.value, flows, refs);
            OAuth2AsAsked(spec.provider.value, flows, refs, NewOAuth2(pk, spec.slug, defaults, id, secret),
                          StoredOAuth2Provider(CreateOAuth2ProviderRequest(ProviderName(spec), desired, defaults), pk, id, secret))
  {
    hide RedirectKeys, DesiredRedirects, SameRedirects;
    if spec.provider.value.kind.redirectUris.Some? {
      var uris := spec.provider.value.kind.redirectUris.value;
      RedirectsAsked(uris, DesiredRedirects(uris));
    }
  }

  // ---------- the Providers that a run leaves ----------

  ghost predicate ProxiesAsAsked(provider: ProviderSpec, flows: Flows, refs: ProxyReferences, slug: string,
                                 before: map<Key, ProxyProvider>, now: map<Key, ProxyProvider>)
    requires provider.kind.ProxySpec?
  {
    && before.Keys <= now.Keys
    && forall k :: k in now ==>
         || (k in before && now[k] == before[k])
         || ProxyAsAsked(provider, flows, refs, if k in before then before[k] else NewProxy(k, slug), now[k])
  }

  ghost predicate OAuth2sAsAsked(provider: ProviderSpec, flows: Flows, refs: OAuth2References, defaults: CreationDefaults,
                                 slug: string, before: map<Key, OAuth2Provider>, now: map<Key, OAuth2Provider>)
    requires provider.kind.OAuth2Spec?
  {
    && before.Keys <= now.Keys
    && forall k :: k in now ==>
         || (k in before && (now[k] == before[k] || OAuth2AsAsked(provider, flows, refs, before[k], now[k])))
         || (k !in before &&
             exists id, secret :: OAuth2AsAsked(provider, flows, refs, NewOAuth2(k, slug, defaults, id, secret), now[k]))
  }

  /** Every Provider is as it was, or as the spec asks, and those of the type that the spec does not ask for are as they were. */
  ghost predicate ProvidersAsAsked(spec: Spec, flows: Flows, proxy: ProxyReferences, oauth2: OAuth2References,
                                   defaults: CreationDefaults, proxies: map<Key, ProxyProvider>,
                                   oauth2s: map<Key, OAuth2Provider>, proxiesNow: map<Key, ProxyProvider>,
                                   oauth2sNow: map<Key, OAuth2Provider>) {
    match spec.provider
    case None => proxiesNow == proxies && oauth2sNow == oauth2s
    case Some(provider) =>
      if provider.kind.ProxySpec? then
        oauth2sNow == oauth2s && ProxiesAsAsked(provider, flows, proxy, spec.slug, proxies, proxiesNow)
      else
        proxiesNow == proxies && OAuth2sAsAsked(provider, flows, oauth2, defaults, spec.slug, oauth2s, oauth2sNow)
  }

  lemma NothingAsked(spec: Spec, flows: Flows, proxy: ProxyReferences, oauth2: OAuth2References, defaults: CreationDefaults,
                     proxies: map<Key, ProxyProvider>, oauth2s: map<Key, OAuth2Provider>)
    ensures ProvidersAsAsked(spec, flows, proxy, oauth2, defaults, proxies, oauth2s, proxies, oauth2s)
  {
    hide ProxyAsAsked, OAuth2AsAsked;
  }

  lemma ProxyAskedTwice(provider: ProviderSpec, flows: Flows, refs: ProxyReferences, a: ProxyProvider, b: ProxyProvider,
                        c: ProxyProvider)
    requires provider.kind.ProxySpec? && ProxyAsAsked(provider, flows, refs, a, b) && ProxyAsAsked(provider, flows, refs, b, c)
    ensures ProxyAsAsked(provider, flows, refs, a, c)
  {
    hide Lines;
  }

  lemma OAuth2AskedTwice(provider: ProviderSpec, flows: Flows, refs: OAuth2References, a: OAuth2Provider, b: OAuth2Provider,
                         c: OAuth2Provider)
    requires provider.kind.OAuth2Spec? && OAuth2AsAsked(provider, flows, refs, a, b) && OAuth2AsAsked(provider, flows, refs, b, c)
    ensures OAuth2AsAsked(provider, flows, refs, a, c)
  {
    hide SameRedirects;
  }

  /** Asking again for the same changes nothing of what the first run kept. */
  lemma AskedTwice(spec: Spec, flows: Flows, proxy: ProxyReferences, oauth2: OAuth2References, defaults: CreationDefaults,
                   proxies: map<Key, ProxyProvider>, oauth2s: map<Key, OAuth2Provider>, proxies1: map<Key, ProxyProvider>,
                   oauth2s1: map<Key, OAuth2Provider>, proxies2: map<Key, ProxyProvider>, oauth2s2: map<Key, OAuth2Provider>)
    requires ProvidersAsAsked(spec, flows, proxy, oauth2, defaults, proxies, oauth2s, proxies1, oauth2s1)
    requires ProvidersAsAsked(spec, flows, proxy, oauth2, defaults, proxies1, oauth2s1, proxies2, oauth2s2)
    ensures ProvidersAsAsked(spec, flows, proxy, oauth2, defaults, proxies, oauth2s, proxies2, oauth2s2)
  {
    hide ProxyAsAsked, OAuth2AsAsked;
    if spec.provider.Some? && spec.provider.value.kind.ProxySpec? {
      var provider := spec.provider.value;
      forall k | k in proxies2 && k in proxies1 && proxies2[k] != proxies1[k] && !(k in proxies && proxies1[k] == proxies[k])
        ensures ProxyAsAsked(provider, flows, proxy, if k in proxies then proxies[k] else NewProxy(k, spec.slug), proxies2[k])
      {
        ProxyAskedTwice(provider, flows, proxy, if k in proxies then proxies[k] else NewProxy(k, spec.slug), proxies1[k],
                        proxies2[k]);
      }
    } else if spec.provider.Some? {
      OAuth2sAskedTwice(spec.provider.value, flows, oauth2, defaults, spec.slug, oauth2s, oauth2s1, oauth2s2);
    }
  }

  lemma OAuth2sAskedTwice(provider: ProviderSpec, flows: Flows, refs: OAuth2References, defaults: CreationDefaults,
                          slug: string, a: map<Key, OAuth2Provider>, b: map<Key, OAuth2Provider>, c: map<Key, OAuth2Provider>)
    requires provider.kind.OAuth2Spec?
    requires OAuth2sAsAsked(provider, flows, refs, defaults, slug, a, b)
             && OAuth2sAsAsked(provider, flows, refs, defaults, slug, b, c)
    ensures OAuth2sAsAsked(provider, flows, refs, defaults, slug, a, c)
  {
    hide OAuth2AsAsked;
    forall k | k in c && k in a && c[k] != a[k] ensures OAuth2AsAsked(provider, flows, refs, a[k], c[k]) {
      if b[k] != a[k] && c[k] != b[k] {
        OAuth2AskedTwice(provider, flows, refs, a[k], b[k], c[k]);
      }
    }
    forall k | k in c && k !in a
      ensures exists id, secret :: OAuth2AsAsked(provider, flows, refs, NewOAuth2(k, slug, defaults, id, secret), c[k])
    {
      if k in b && c[k] != b[k] {
        var id, secret :| OAuth2AsAsked(provider, flows, refs, NewOAuth2(k, slug, defaults, id, secret), b[k]);
        OAuth2AskedTwice(provider, flows, refs, NewOAuth2(k, slug, defaults, id, secret), b[k], c[k]);
      }
    }
  }

  // ---------- the credentials Secret ----------

  /** Where the credentials are in their Secret, and what the operator writes into a new one. */
  ghost predicate SecretAsAsked(spec: CredentialsSpec, provider: OAuth2Provider, data: map<string, string>) {
    var idKey := match spec.clientIdKey case Some(key) => key case None => "client-id";
    var secretKey := match spec.clientSecretKey case Some(key) => key case None => "client-secret";
    var writesId := spec.clientId.None? && provider.clientId.Some?;
    && (forall key :: key in data <==>
          (key == secretKey && provider.clientSecret.Some?) || (key == idKey && writesId))
    && (provider.clientSecret.Some? ==> data[secretKey] == provider.clientSecret.value)
    && (writesId && (idKey != secretKey || provider.clientSecret.None?) ==> data[idKey] == provider.clientId.value)
  }

  lemma SecretAsked(spec: CredentialsSpec, provider: OAuth2Provider, data: map<string, string>)
    ensures data == ExportedSecret(spec, provider) <==> SecretAsAsked(spec, provider, data)
  {
    var exported := ExportedSecret(spec, provider);
    if SecretAsAsked(spec, provider, data) {
      assert forall key :: key in data <==> key in exported;
    }
  }

  /** The credentials that the spec asks for are in a new Secret; without them, or when the Secret was there, nothing is written. */
  ghost predicate CredentialsInPlace(spec: Spec, oauth2s: map<Key, OAuth2Provider>, pk: Option<Key>,
                                     before: Option<map<string, string>>, now: Option<map<string, string>>) {
    if spec.provider.Some? && spec.provider.value.kind.OAuth2Spec? && spec.provider.value.kind.credentials.Some? && before.None?
    then
      && pk.Some? && pk.value in oauth2s && now.Some?
      && SecretAsAsked(spec.provider.value.kind.credentials.value, oauth2s[pk.value], now.value)
    else now == before
  }

  // ---------- PolicyBinding ----------

  /** The Binding is on the target and grants or denies what the rule asks for, to its subject alone. */
  predicate BindingAsAsked(target: Key, rule: Rule, binding: Binding) {
    && binding.target == target && binding.negate == Some(rule.negate)
    && SingleSubject(binding)
    && (rule.group.Some? ==> binding.group == Value(rule.group.value))
    && (rule.user.Some? ==> binding.user == Value(rule.user.value))
    && (rule.policy.Some? ==> binding.policy == Value(rule.policy.value))
  }

  lemma BindingAsked(target: Key, rule: Rule, binding: Binding)
    requires ValidRule(rule)
    ensures SingleSubject(binding) && DiffBinding(DesiredBinding(target, rule), binding).None? <==>
              BindingAsAsked(target, rule, binding)
  {}

  /** What the operator takes a Binding with one subject to grant or deny; without a negate it grants. */
  lemma ClassMeans(rule: Rule, binding: Binding)
    requires ValidRule(rule) && SingleSubject(binding)
    ensures BindingClass(binding) == RuleClass(rule) <==>
              && (binding.negate.Some? && binding.negate.value <==> rule.negate)
              && (rule.group.Some? ==> binding.group == Value(rule.group.value))
              && (rule.user.Some? ==> binding.user == Value(rule.user.value))
              && (rule.policy.Some? ==> binding.policy == Value(rule.policy.value))
  {
    if binding.negate.Some? && binding.negate.value {
      assert binding.negate == Some(true);
    }
  }

  // ---------- everything in place ----------

  /** The recorded Proxy Provider has every value that the spec gives, is marked, and in the recorded Outpost. */
  ghost predicate ProxyInPlace(provider: ProviderSpec, flows: Flows, refs: ProxyReferences, proxies: map<Key, ProxyProvider>,
                               outposts: map<Key, Outpost>, marked: set<Object>, status: Status)
    requires provider.kind.ProxySpec?
  {
    && status.providerPk.Some? && status.providerPk.value in proxies
    && ProxyAsAsked(provider, flows, refs, proxies[status.providerPk.value], proxies[status.providerPk.value])
    && Object(ProxyProviderModel, status.providerPk.value) in marked
    && status.outpostUuid == Some(refs.outpost) && refs.outpost in outposts
    && status.providerPk.value in outposts[refs.outpost].providers
  }

  /** The recorded OAuth2 Provider has every value that the spec gives, and is marked. */
  ghost predicate OAuth2InPlace(provider: ProviderSpec, flows: Flows, refs: OAuth2References, oauth2s: map<Key, OAuth2Provider>,
                                marked: set<Object>, status: Status)
    requires provider.kind.OAuth2Spec?
  {
    && status.providerPk.Some? && status.providerPk.value in oauth2s
    && OAuth2AsAsked(provider, flows, refs, oauth2s[status.providerPk.value], oauth2s[status.providerPk.value])
    && Object(OAuth2ProviderModel, status.providerPk.value) in marked
  }

  ghost predicate ProviderInPlace(spec: Spec, flows: Flows, proxy: ProxyReferences, oauth2: OAuth2References,
                                  proxies: map<Key, ProxyProvider>, oauth2s: map<Key, OAuth2Provider>,
                                  outposts: map<Key, Outpost>, marked: set<Object>, status: Status) {
    match spec.provider
    case None => true
    case Some(provider) =>
      if provider.kind.ProxySpec? then ProxyInPlace(provider, flows, proxy, proxies, outposts, marked, status)
      else OAuth2InPlace(provider, flows, oauth2, oauth2s, marked, status)
  }

  /** The Application under the slug has every value that the spec gives and the recorded Provider, is recorded, and marked. */
  ghost predicate ApplicationInPlace(spec: Spec, applications: map<string, Application>, marked: set<Object>, status: Status) {
    && spec.slug in applications
    && var application := applications[spec.slug];
       && status.applicationPk == Some(application.pk) && Object(ApplicationModel, application.pk) in marked
       && ApplicationAsAsked(spec, if spec.provider.Some? then status.providerPk else None, application, application)
  }

  /**
   Every rule has one recorded and marked Binding of its own, and no other Binding of the Application is marked, or there at
   all when the spec asks to prune.
   */
  ghost predicate BindingsInPlace(spec: Spec, rules: seq<Rule>, applications: map<string, Application>,
                                  bindings: map<Key, Binding>, marked: set<Object>, status: Status) {
    && spec.slug in applications && |status.bindingUuids| == |rules|
    && (forall i :: 0 <= i < |rules| ==>
          && status.bindingUuids[i] in bindings && Object(BindingModel, status.bindingUuids[i]) in marked
          && BindingAsAsked(applications[spec.slug].pbmUuid, rules[i], bindings[status.bindingUuids[i]]))
    && (forall i, j :: 0 <= i < j < |rules| ==> status.bindingUuids[i] != status.bindingUuids[j])
    && (forall k :: k in bindings && bindings[k].target == applications[spec.slug].pbmUuid
                    && (spec.prune || Object(BindingModel, k) in marked) ==>
          k in status.bindingUuids)
  }

  /**
   Every Binding of the Application that no rule has is reported. A public Application must not have any, so that the
   reconcile stops.
   */
  ghost predicate UnmanagedReported(spec: Spec, applications: map<string, Application>, bindings: map<Key, Binding>,
                                    status: Status, stopped: bool) {
    && spec.slug in applications
    && (forall k :: k in status.unmanagedBindings <==>
          k in bindings && bindings[k].target == applications[spec.slug].pbmUuid && k !in status.bindingUuids)
    && (stopped <==> spec.public && status.unmanagedBindings != [])
  }
}
