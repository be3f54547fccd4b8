/** Provider operations that depend on the type, and the search for the Provider to reconcile (internal/controller/provider.go). */
module Providers {
  import opened Base
  import opened Api
  import opened Patch
  import opened Server
  import opened Ownership
  import opened Desired
  import opened Specified
  import opened Resources

  /** The operations of one Provider type, with the desired state of the Provider. */
  datatype Handler =
    | ProxyHandler(proxyDesired: PatchedProxyProvider)
    | OAuth2Handler(oauth2Desired: PatchedOAuth2Provider, defaults: CreationDefaults)
  {
    predicate Valid() {
      match this
      case ProxyHandler(desired) =>
        && desired.propertyMappings.None? && desired.authorizationFlow.Some? && desired.invalidationFlow.Some?
        && desired.externalHost.Some?
      case OAuth2Handler(desired, _) => desired.authorizationFlow.Some? && desired.invalidationFlow.Some?
    }

    function Obj(pk: Key): Object {
      Object(if ProxyHandler? then ProxyProviderModel else OAuth2ProviderModel, pk)
    }

    /** The Providers of this type. */
    function Keys(server: Authentik): set<Key>
      reads server`proxyProviders, server`oauth2Providers
    {
      if ProxyHandler? then server.proxyProviders.Keys else server.oauth2Providers.Keys
    }

    function OtherKeys(server: Authentik): set<Key>
      reads server`proxyProviders, server`oauth2Providers
    {
      if ProxyHandler? then server.oauth2Providers.Keys else server.proxyProviders.Keys
    }

    function Name(server: Authentik, pk: Key): string
      requires pk in Keys(server)
      reads server`proxyProviders, server`oauth2Providers
    {
      if ProxyHandler? then server.proxyProviders[pk].name else server.oauth2Providers[pk].name
    }

    /** The names of the Providers of this type. */
    function Names(proxies: map<Key, ProxyProvider>, oauth2s: map<Key, OAuth2Provider>): map<Key, string> {
      if ProxyHandler? then ProxyNames(proxies) else OAuth2Names(oauth2s)
    }

    /** Every managed field of the Provider has its value. */
    ghost predicate Conforms(server: Authentik, pk: Key)
      reads server`proxyProviders, server`oauth2Providers
    {
      match this
      case ProxyHandler(desired) => pk in server.proxyProviders && ProxyConforms(desired, server.proxyProviders[pk])
      case OAuth2Handler(desired, _) => pk in server.oauth2Providers && OAuth2Conforms(desired, server.oauth2Providers[pk])
    }

    /** The server does not refuse the repair of the Provider for its mode. */
    predicate RepairAccepted(proxies: map<Key, ProxyProvider>, pk: Key) {
      ProxyHandler? && pk in proxies && DiffProxyProvider(proxyDesired, proxies[pk]).Some? ==>
        var patch := DiffProxyProvider(proxyDesired, proxies[pk]).value;
        ProxyModeAccepted(patch.mode, patch.internalHost)
    }

    /** The server lets the operator create a Provider with this desired state, as far as the mode goes. */
    predicate ModeAccepted() {
      ProxyHandler? ==> ProxyModeAccepted(proxyDesired.mode, proxyDesired.internalHost)
    }
  }

  function ProxyNames(proxies: map<Key, ProxyProvider>): map<Key, string> {
    map k | k in proxies :: proxies[k].name
  }

  function OAuth2Names(oauth2s: map<Key, OAuth2Provider>): map<Key, string> {
    map k | k in oauth2s :: oauth2s[k].name
  }

  function HandlerOf(spec: Spec, flows: Flows, proxy: ProxyReferences, oauth2: OAuth2References,
                     defaults: CreationDefaults): (h: Handler)
    requires spec.provider.Some?
    ensures h.Valid() && (h.ProxyHandler? <==> spec.provider.value.kind.ProxySpec?)
  {
    if spec.provider.value.kind.ProxySpec?
    then ProxyHandler(DesiredProxyProvider(spec.provider.value, flows, proxy))
    else OAuth2Handler(DesiredOAuth2Provider(spec.provider.value, flows, oauth2), defaults)
  }

  /** A fetched Provider of either type, with the slug of the Application that uses it. */
  datatype Observed =
    | ObservedProxy(proxy: ProxyProvider, usedBy: Option<string>)
    | ObservedOAuth2(oauth2: OAuth2Provider, usedBy: Option<string>)
  {
    function Pk(): Key {
      if ObservedProxy? then proxy.pk else oauth2.pk
    }

    ghost predicate Current(h: Handler, server: Authentik)
      reads server`proxyProviders, server`oauth2Providers, server`applications
    {
      && AssignedTo(server.applications, Pk(), usedBy)
      && match this
         case ObservedProxy(p, _) => h.ProxyHandler? && p.pk in server.proxyProviders && server.proxyProviders[p.pk] == p
         case ObservedOAuth2(p, _) => h.OAuth2Handler? && p.pk in server.oauth2Providers && server.oauth2Providers[p.pk] == p
    }
  }

  /** No other Application uses the Provider. */
  ghost predicate Available(applications: map<string, Application>, pk: Key, slug: string) {
    forall s :: s in applications && applications[s].provider == Value(pk) ==> s == slug
  }

  method Get(server: Authentik, h: Handler, pk: Key) returns (res: Result<Observed>)
    requires server.Valid()
    ensures res.Ok? ==> res.value.Current(h, server) && res.value.Pk() == pk && pk in h.Keys(server)
    ensures res.Err? ==> res.error == Unavailable || (res.error == NotFound && pk !in h.Keys(server))
  {
    hide ValidBindings, ValidApplications, ValidLinks, ValidOutposts, ValidRoles, AssignedTo;
    match h
    case ProxyHandler(_) =>
      var got := server.GetProxyProvider(pk);
      if got.Err? { return Err(got.error); }
      var slug := server.AssignedApplicationSlug(pk);
      return Ok(ObservedProxy(got.value, slug));
    case OAuth2Handler(_, _) =>
      var got := server.GetOAuth2Provider(pk);
      if got.Err? { return Err(got.error); }
      var slug := server.AssignedApplicationSlug(pk);
      return Ok(ObservedOAuth2(got.value, slug));
  }

  method ExistsAsOtherType(server: Authentik, h: Handler, pk: Key) returns (res: Result<bool>)
    ensures res.Ok? ==> (res.value <==> pk in h.OtherKeys(server))
    ensures res.Err? ==> res.error == Unavailable
  {
    match h
    case ProxyHandler(_) =>
      var got := server.GetOAuth2Provider(pk);
      return if got.Ok? then Ok(true) else if got.error == NotFound then Ok(false) else Err(got.error);
    case OAuth2Handler(_, _) =>
      var got := server.GetProxyProvider(pk);
      return if got.Ok? then Ok(true) else if got.error == NotFound then Ok(false) else Err(got.error);
  }

  /** The Providers of the type with a name. */
  method FindByName(server: Authentik, h: Handler, name: string) returns (res: Result<seq<Observed>>)
    requires server.Valid()
    ensures res.Ok? ==> forall o :: o in res.value ==> o.Current(h, server)
    ensures res.Ok? ==>
              forall k :: (k in h.Keys(server) && h.Name(server, k) == name) <==>
                     exists i :: 0 <= i < |res.value| && res.value[i].Pk() == k
    ensures res.Err? ==> res.error == Unavailable
  {
    hide ValidBindings, ValidApplications, ValidLinks, ValidOutposts, ValidRoles, AssignedTo;
    var found;
    match h {
      case ProxyHandler(_) => found := server.FindProxyProvidersByName(name);
      case OAuth2Handler(_, _) => found := server.FindOAuth2ProvidersByName(name);
    }
    if found.Err? {
      return Err(found.error);
    }
    assert forall k :: k in Elements(found.value) <==> k in h.Keys(server) && h.Name(server, k) == name;
    var observed: seq<Observed> := [];
    for i := 0 to |found.value|
      invariant |observed| == i && forall j :: 0 <= j < i ==> observed[j].Current(h, server) && observed[j].Pk() == found.value[j]
    {
      var pk := found.value[i];
      assert pk in Elements(found.value);
      var slug := server.AssignedApplicationSlug(pk);
      observed := observed + [match h
                              case ProxyHandler(_) => ObservedProxy(server.proxyProviders[pk], slug)
                              case OAuth2Handler(_, _) => ObservedOAuth2(server.oauth2Providers[pk], slug)];
    }
    forall k | k in Elements(found.value) ensures exists i :: 0 <= i < |observed| && observed[i].Pk() == k {
      var i :| 0 <= i < |found.value| && found.value[i] == k;
      assert observed[i].Pk() == k;
    }
    assert forall i :: 0 <= i < |observed| ==> observed[i].Pk() in Elements(found.value);
    return Ok(observed);
  }

  /** Only the Provider with the pk may differ. */
  ghost predicate OnlyProvider(h: Handler, proxies: map<Key, ProxyProvider>, oauth2s: map<Key, OAuth2Provider>,
                               proxiesNow: map<Key, ProxyProvider>, oauth2sNow: map<Key, OAuth2Provider>, pk: Key) {
    match h
    case ProxyHandler(_) => oauth2sNow == oauth2s && proxiesNow - {pk} == proxies - {pk}
    case OAuth2Handler(_, _) => proxiesNow == proxies && oauth2sNow - {pk} == oauth2s - {pk}
  }

  ghost predicate ProxyArranged(desired: PatchedProxyProvider, name: string, before: map<Key, ProxyProvider>,
                                now: ProxyProvider, k: Key) {
    || (k in before && now == before[k])
    || (ProxyConforms(desired, now) && ProxyFrame(desired, if k in before then before[k] else NewProxy(k, name), now))
  }

  ghost predicate OAuth2Arranged(desired: PatchedOAuth2Provider, defaults: CreationDefaults, name: string,
                                 before: map<Key, OAuth2Provider>, now: OAuth2Provider, k: Key) {
    || (k in before && now == before[k])
    || (&& OAuth2Conforms(desired, now)
        && if k in before then OAuth2Frame(desired, before[k], now)
           else exists id, secret :: OAuth2Frame(desired, NewOAuth2(k, name, defaults, id, secret), now))
  }

  /**
   Every Provider is as it was, or has every managed value and apart from that what it had, or what a new one has. Only
   Providers of this type change.
   */
  ghost predicate Arranged(h: Handler, name: string, proxies: map<Key, ProxyProvider>, oauth2s: map<Key, OAuth2Provider>,
                           proxiesNow: map<Key, ProxyProvider>, oauth2sNow: map<Key, OAuth2Provider>) {
    match h
    case ProxyHandler(desired) =>
      && oauth2sNow == oauth2s && proxies.Keys <= proxiesNow.Keys
      && forall k :: k in proxiesNow ==> ProxyArranged(desired, name, proxies, proxiesNow[k], k)
    case OAuth2Handler(desired, defaults) =>
      && proxiesNow == proxies && oauth2s.Keys <= oauth2sNow.Keys
      && forall k :: k in oauth2sNow ==> OAuth2Arranged(desired, defaults, name, oauth2s, oauth2sNow[k], k)
  }

  lemma NothingArranged(h: Handler, name: string, proxies: map<Key, ProxyProvider>, oauth2s: map<Key, OAuth2Provider>)
    ensures Arranged(h, name, proxies, oauth2s, proxies, oauth2s)
  {}

  /** Only the Provider with the pk changed, and it is arranged. */
  lemma OneArranged(h: Handler, name: string, proxies: map<Key, ProxyProvider>, oauth2s: map<Key, OAuth2Provider>,
                    proxiesNow: map<Key, ProxyProvider>, oauth2sNow: map<Key, OAuth2Provider>, pk: Key)
    requires OnlyProvider(h, proxies, oauth2s, proxiesNow, oauth2sNow, pk)
    requires match h
             case ProxyHandler(desired) => pk in proxiesNow && ProxyArranged(desired, name, proxies, proxiesNow[pk], pk)
             case OAuth2Handler(desired, defaults) =>
               pk in oauth2sNow && OAuth2Arranged(desired, defaults, name, oauth2s, oauth2sNow[pk], pk)
    ensures Arranged(h, name, proxies, oauth2s, proxiesNow, oauth2sNow)
  {
    hide ProxyConforms, OAuth2Conforms, ProxyFrame, OAuth2Frame;
    match h
    case ProxyHandler(desired) =>
      assert forall k :: k in proxies && k != pk ==> k in proxies - {pk} && (proxies - {pk})[k] == proxies[k];
      assert forall k :: k in proxiesNow && k != pk ==> k in proxiesNow - {pk} && (proxiesNow - {pk})[k] == proxiesNow[k];
    case OAuth2Handler(desired, _) =>
      assert forall k :: k in oauth2s && k != pk ==> k in oauth2s - {pk} && (oauth2s - {pk})[k] == oauth2s[k];
      assert forall k :: k in oauth2sNow && k != pk ==> k in oauth2sNow - {pk} && (oauth2sNow - {pk})[k] == oauth2sNow[k];
  }

  lemma ProxyFrameChain(desired: PatchedProxyProvider, a: ProxyProvider, b: ProxyProvider, c: ProxyProvider)
    requires ProxyFrame(desired, a, b) && ProxyFrame(desired, b, c)
    ensures ProxyFrame(desired, a, c)
  {}

  lemma OAuth2FrameChain(desired: PatchedOAuth2Provider, a: OAuth2Provider, b: OAuth2Provider, c: OAuth2Provider)
    requires OAuth2Frame(desired, a, b) && OAuth2Frame(desired, b, c)
    ensures OAuth2Frame(desired, a, c)
  {}

  lemma OneProxyChain(desired: PatchedProxyProvider, name: string, a: map<Key, ProxyProvider>, b: map<Key, ProxyProvider>,
                      c: ProxyProvider, k: Key)
    requires k in a ==> k in b
    requires k in b ==> ProxyArranged(desired, name, a, b[k], k)
    requires ProxyArranged(desired, name, b, c, k)
    ensures ProxyArranged(desired, name, a, c, k)
  {
    hide ProxyConforms, ProxyFrame;
    if k in b && c != b[k] && !(k in a && b[k] == a[k]) {
      ProxyFrameChain(desired, if k in a then a[k] else NewProxy(k, name), b[k], c);
    }
  }

  lemma OneOAuth2Chain(desired: PatchedOAuth2Provider, defaults: CreationDefaults, name: string, a: map<Key, OAuth2Provider>,
                       b: map<Key, OAuth2Provider>, c: OAuth2Provider, k: Key)
    requires k in a ==> k in b
    requires k in b ==> OAuth2Arranged(desired, defaults, name, a, b[k], k)
    requires OAuth2Arranged(desired, defaults, name, b, c, k)
    ensures OAuth2Arranged(desired, defaults, name, a, c, k)
  {
    hide OAuth2Conforms, OAuth2Frame;
    if k in b && c != b[k] {
      if k !in a {
        var id, secret :| OAuth2Frame(desired, NewOAuth2(k, name, defaults, id, secret), b[k]);
        OAuth2FrameChain(desired, NewOAuth2(k, name, defaults, id, secret), b[k], c);
      } else if b[k] != a[k] {
        OAuth2FrameChain(desired, a[k], b[k], c);
      }
    }
  }

  /** What is arranged twice is arranged. */
  lemma ArrangedChain(h: Handler, name: string, proxies: map<Key, ProxyProvider>, oauth2s: map<Key, OAuth2Provider>,
                      proxies1: map<Key, ProxyProvider>, oauth2s1: map<Key, OAuth2Provider>, proxies2: map<Key, ProxyProvider>,
                      oauth2s2: map<Key, OAuth2Provider>)
    requires Arranged(h, name, proxies, oauth2s, proxies1, oauth2s1) && Arranged(h, name, proxies1, oauth2s1, proxies2, oauth2s2)
    ensures Arranged(h, name, proxies, oauth2s, proxies2, oauth2s2)
  {
    hide ProxyArranged, OAuth2Arranged;
    match h
    case ProxyHandler(desired) =>
      forall k | k in proxies2 ensures ProxyArranged(desired, name, proxies, proxies2[k], k) {
        OneProxyChain(desired, name, proxies, proxies1, proxies2[k], k);
      }
    case OAuth2Handler(desired, defaults) =>
      forall k | k in oauth2s2 ensures OAuth2Arranged(desired, defaults, name, oauth2s, oauth2s2[k], k) {
        OneOAuth2Chain(desired, defaults, name, oauth2s, oauth2s1, oauth2s2[k], k);
      }
  }

  /** Arranged for what the spec asks, every Provider is as it was, or as asked. */
  lemma ArrangedAsAsked(spec: Spec, flows: Flows, proxy: ProxyReferences, oauth2: OAuth2References, defaults: CreationDefaults,
                        proxies: map<Key, ProxyProvider>, oauth2s: map<Key, OAuth2Provider>,
                        proxiesNow: map<Key, ProxyProvider>, oauth2sNow: map<Key, OAuth2Provider>)
    requires spec.provider.Some?
    requires Arranged(HandlerOf(spec, flows, proxy, oauth2, defaults), ProviderName(spec), proxies, oauth2s, proxiesNow, oauth2sNow)
    ensures ProvidersAsAsked(spec, flows, proxy, oauth2, defaults, proxies, oauth2s, proxiesNow, oauth2sNow)
  {
    var provider := spec.provider.value;
    hide ProxyConforms, ProxyFrame, OAuth2Conforms, OAuth2Frame, ProxyAsAsked, OAuth2AsAsked, DesiredProxyProvider,
      DesiredOAuth2Provider;
    if provider.kind.ProxySpec? {
      forall k | k in proxiesNow && !(k in proxies && proxiesNow[k] == proxies[k])
        ensures ProxyAsAsked(provider, flows, proxy, if k in proxies then proxies[k] else NewProxy(k, spec.slug), proxiesNow[k])
      {
        ProxyAsked(provider, flows, proxy, if k in proxies then proxies[k] else NewProxy(k, ProviderName(spec)), proxiesNow[k]);
        NewProxyAsked(spec, flows, proxy, k, proxiesNow[k]);
      }
    } else {
      forall k | k in oauth2sNow && !(k in oauth2s && oauth2sNow[k] == oauth2s[k])
        ensures if k in oauth2s then OAuth2AsAsked(provider, flows, oauth2, oauth2s[k], oauth2sNow[k])
                else exists id, secret ::
                    OAuth2AsAsked(provider, flows, oauth2, NewOAuth2(k, spec.slug, defaults, id, secret), oauth2sNow[k])
      {
        if k in oauth2s {
          OAuth2Asked(provider, flows, oauth2, oauth2s[k], oauth2sNow[k]);
        } else {
          var id, secret :|
            OAuth2Frame(DesiredOAuth2Provider(provider, flows, oauth2), NewOAuth2(k, ProviderName(spec), defaults, id, secret),
                        oauth2sNow[k]);
          OAuth2Asked(provider, flows, oauth2, NewOAuth2(k, ProviderName(spec), defaults, id, secret), oauth2sNow[k]);
          NewOAuth2Asked(spec, flows, oauth2, defaults, k, id, secret, oauth2sNow[k]);
        }
      }
    }
  }

  /** Without a name in the spec, a new Provider is named after the slug. */
  lemma NewProxyAsked(spec: Spec, flows: Flows, refs: ProxyReferences, pk: Key, now: ProxyProvider)
    requires spec.provider.Some? && spec.provider.value.kind.ProxySpec?
    ensures ProxyAsAsked(spec.provider.value, flows, refs, NewProxy(pk, ProviderName(spec)), now)
            <==> ProxyAsAsked(spec.provider.value, flows, refs, NewProxy(pk, spec.slug), now)
  {
    hide Lines;
  }

  lemma NewOAuth2Asked(spec: Spec, flows: Flows, refs: OAuth2References, defaults: CreationDefaults, pk: Key, id: string,
                       secret: string, now: OAuth2Provider)
    requires spec.provider.Some? && spec.provider.value.kind.OAuth2Spec?
    ensures OAuth2AsAsked(spec.provider.value, flows, refs, NewOAuth2(pk, ProviderName(spec), defaults, id, secret), now)
            <==> OAuth2AsAsked(spec.provider.value, flows, refs, NewOAuth2(pk, spec.slug, defaults, id, secret), now)
  {
    hide SameRedirects;
  }

  /** The Providers that were there still are, and as before except for those taken. */
  ghost predicate OthersStay(taken: set<Key>, proxies: map<Key, ProxyProvider>, oauth2s: map<Key, OAuth2Provider>,
                             proxiesNow: map<Key, ProxyProvider>, oauth2sNow: map<Key, OAuth2Provider>) {
    && proxies.Keys <= proxiesNow.Keys && oauth2s.Keys <= oauth2sNow.Keys
    && (forall k :: k in proxies && k !in taken ==> k in proxiesNow && proxiesNow[k] == proxies[k])
    && (forall k :: k in oauth2s && k !in taken ==> k in oauth2sNow && oauth2sNow[k] == oauth2s[k])
  }

  function KeysFor(h: Handler, proxies: map<Key, ProxyProvider>, oauth2s: map<Key, OAuth2Provider>): set<Key> {
    if h.ProxyHandler? then proxies.Keys else oauth2s.Keys
  }

  lemma KeysOnServer(h: Handler, server: Authentik)
    ensures h.Keys(server) == KeysFor(h, server.proxyProviders, server.oauth2Providers)
  {}

  /** A run changes only the Provider it takes, which is the one to take or a new one. */
  lemma OnlyTaken(h: Handler, proxies: map<Key, ProxyProvider>, oauth2s: map<Key, OAuth2Provider>, created: bool,
                  proxies1: map<Key, ProxyProvider>, oauth2s1: map<Key, OAuth2Provider>, proxies2: map<Key, ProxyProvider>,
                  oauth2s2: map<Key, OAuth2Provider>, pk: Key, taken: set<Key>)
    requires if created then OnlyProvider(h, proxies, oauth2s, proxies1, oauth2s1, pk) && pk !in proxies && pk !in oauth2s
             else proxies1 == proxies && oauth2s1 == oauth2s && taken == {pk}
    requires OnlyProvider(h, proxies1, oauth2s1, proxies2, oauth2s2, pk) && pk in KeysFor(h, proxies2, oauth2s2)
    ensures OthersStay(taken, proxies, oauth2s, proxies2, oauth2s2)
  {
    assert forall k :: k in proxies && k != pk ==> k in proxies - {pk} && (proxies - {pk})[k] == proxies[k];
    assert forall k :: k in oauth2s && k != pk ==> k in oauth2s - {pk} && (oauth2s - {pk})[k] == oauth2s[k];
    assert forall k :: k in proxies1 && k != pk ==> k in proxies1 - {pk} && (proxies1 - {pk})[k] == proxies1[k];
    assert forall k :: k in oauth2s1 && k != pk ==> k in oauth2s1 - {pk} && (oauth2s1 - {pk})[k] == oauth2s1[k];
  }

  lemma NoneTouched(taken: set<Key>, proxies: map<Key, ProxyProvider>, oauth2s: map<Key, OAuth2Provider>)
    ensures OthersStay(taken, proxies, oauth2s, proxies, oauth2s)
  {}

  lemma NoProviderChanged(h: Handler, proxies: map<Key, ProxyProvider>, oauth2s: map<Key, OAuth2Provider>, pk: Key)
    ensures OnlyProvider(h, proxies, oauth2s, proxies, oauth2s, pk)
  {}

  /** The client ID of a new OAuth2 Provider would be that of another one. */
  ghost predicate ClientIdBlocked(h: Handler, oauth2s: map<Key, OAuth2Provider>) {
    h.OAuth2Handler? &&
    exists id :: ClientIdTaken(oauth2s, id, EMPTY) && (h.oauth2Desired.clientId.Some? ==> h.oauth2Desired.clientId == Some(id))
  }

  predicate NameAgrees(h: Handler, name: string) {
    match h
    case ProxyHandler(desired) => desired.name.Some? ==> desired.name.value == name
    case OAuth2Handler(desired, _) => desired.name.Some? ==> desired.name.value == name
  }

  lemma CreatedOAuth2Conforms(desired: PatchedOAuth2Provider, defaults: CreationDefaults, name: string, pk: Key, id: string,
                              secret: string)
    requires desired.authorizationFlow.Some? && desired.invalidationFlow.Some?
    requires desired.name.Some? ==> desired.name.value == name
    ensures OAuth2Conforms(desired, StoredOAuth2Provider(CreateOAuth2ProviderRequest(name, desired, defaults), pk, id, secret))
    ensures OAuth2Frame(desired, NewOAuth2(pk, name, defaults, id, secret),
                        StoredOAuth2Provider(CreateOAuth2ProviderRequest(name, desired, defaults), pk, id, secret))
  {}

  lemma ProxyAdded(desired: PatchedProxyProvider, name: string, proxies: map<Key, ProxyProvider>,
                   oauth2s: map<Key, OAuth2Provider>, pk: Key, p: ProxyProvider)
    requires pk !in proxies && ProxyConforms(desired, p) && ProxyFrame(desired, NewProxy(pk, name), p)
    ensures var h := ProxyHandler(desired);
            && OnlyProvider(h, proxies, oauth2s, proxies[pk := p], oauth2s, pk)
            && Arranged(h, name, proxies, oauth2s, proxies[pk := p], oauth2s)
  {
    hide ProxyConforms, ProxyFrame, Arranged;
    OneArranged(ProxyHandler(desired), name, proxies, oauth2s, proxies[pk := p], oauth2s, pk);
  }

  lemma OAuth2Added(desired: PatchedOAuth2Provider, defaults: CreationDefaults, name: string, proxies: map<Key, ProxyProvider>,
                    oauth2s: map<Key, OAuth2Provider>, pk: Key, p: OAuth2Provider, id: string, secret: string)
    requires pk !in oauth2s && OAuth2Conforms(desired, p)
    requires OAuth2Frame(desired, NewOAuth2(pk, name, defaults, id, secret), p)
    ensures var h := OAuth2Handler(desired, defaults);
            && OnlyProvider(h, proxies, oauth2s, proxies, oauth2s[pk := p], pk)
            && Arranged(h, name, proxies, oauth2s, proxies, oauth2s[pk := p])
  {
    hide OAuth2Conforms, OAuth2Frame, Arranged;
    OneArranged(OAuth2Handler(desired, defaults), name, proxies, oauth2s, proxies, oauth2s[pk := p], pk);
  }

  /** Creates a Provider that has every managed value from the start. */
  method Create(server: Authentik, h: Handler, name: string) returns (res: Result<Key>)
    requires server.Valid() && h.Valid() && NameAgrees(h, name)
    modifies server`proxyProviders, server`oauth2Providers, server`sequence, server`history
    ensures server.Valid() && old(server.sequence) <= server.sequence && old(server.Providers()) <= server.Providers()
    ensures res.Ok? ==>
              && res.value == server.sequence && res.value !in old(server.Providers())
              && OnlyProvider(h, old(server.proxyProviders), old(server.oauth2Providers), server.proxyProviders,
                              server.oauth2Providers, res.value)
              && h.Conforms(server, res.value) && res.value in h.Keys(server) && h.Name(server, res.value) == name
    ensures Arranged(h, name, old(server.proxyProviders), old(server.oauth2Providers), server.proxyProviders,
                     server.oauth2Providers)
    ensures res.Err? ==>
              && server.proxyProviders == old(server.proxyProviders) && server.oauth2Providers == old(server.oauth2Providers)
              && (res.error == Unavailable
                  || (&& res.error == BadRequest
                      && (|| ProviderNameTaken(server.proxyProviders, server.oauth2Providers, name, EMPTY)
                          || !h.ModeAccepted() || ClientIdBlocked(h, server.oauth2Providers))))
    ensures res.Err? && res.error == Unavailable ==>
              (|| server.history == old(server.history)
               || server.history == old(server.history) + [Write(CreateProviderCall, Lost, server.bindings, server.outposts)])
    ensures res.Err? && res.error == BadRequest ==>
              server.history == old(server.history) +
                [Write(CreateProviderCall, if ProviderNameTaken(server.proxyProviders, server.oauth2Providers, name, EMPTY) then
                       NameTaken else Refused,
                       server.bindings, server.outposts)]
    ensures res.Ok? ==>
              server.history == old(server.history) + [Write(CreateProviderCall, Accepted, server.bindings, server.outposts)]
  {
    hide ValidBindings, ValidApplications, ValidLinks, ValidOutposts, ValidRoles, ProviderNameTaken, ClientIdTaken, ProxyConforms,
      OAuth2Conforms, StoredProxyProvider, StoredOAuth2Provider, CreateProxyProviderRequest, CreateOAuth2ProviderRequest, Arranged,
      ProxyFrame, OAuth2Frame, NewProxy, NewOAuth2, OnlyProvider;
    NothingArranged(h, name, server.proxyProviders, server.oauth2Providers);
    match h
    case ProxyHandler(desired) =>
      var request := CreateProxyProviderRequest(name, desired);
      ProxyRequestFields(desired, name, server.sequence + 1);
      var created := server.CreateProxyProvider(request);
      if created.Err? {
        return Err(created.error);
      }
      ProxyAdded(desired, name, old(server.proxyProviders), server.oauth2Providers, created.value.pk, created.value);
      return Ok(created.value.pk);
    case OAuth2Handler(desired, defaults) =>
      if * {
        return Err(Unavailable);  // the creation defaults could not be read
      }
      var request := CreateOAuth2ProviderRequest(name, desired, defaults);
      ghost var pk := server.sequence + 1;
      OAuth2RequestFields(desired, defaults, name, pk);
      var created := server.CreateOAuth2Provider(request);
      if created.Err? {
        return Err(created.error);
      }
      ghost var id, secret :| created.value == StoredOAuth2Provider(request, pk, id, secret);
      OAuth2Added(desired, defaults, name, server.proxyProviders, old(server.oauth2Providers), pk, created.value, id, secret);
      return Ok(created.value.pk);
  }

  lemma ProxyRequestFields(desired: PatchedProxyProvider, name: string, pk: Key)
    requires ProxyHandler(desired).Valid() && NameAgrees(ProxyHandler(desired), name)
    ensures var request := CreateProxyProviderRequest(name, desired);
            var stored := StoredProxyProvider(request, pk);
            && request.name == name && request.mode == desired.mode && request.internalHost == desired.internalHost
            && stored.pk == pk && stored.name == name && ProxyConforms(desired, stored)
            && ProxyFrame(desired, NewProxy(pk, name), stored)
  {}

  lemma OAuth2RequestFields(desired: PatchedOAuth2Provider, defaults: CreationDefaults, name: string, pk: Key)
    requires OAuth2Handler(desired, defaults).Valid() && NameAgrees(OAuth2Handler(desired, defaults), name)
    ensures var request := CreateOAuth2ProviderRequest(name, desired, defaults);
            && request.name == name && request.clientId == desired.clientId
            && forall id, secret :: var stored := StoredOAuth2Provider(request, pk, id, secret);
                 && stored.pk == pk && stored.name == name && OAuth2Conforms(desired, stored)
                 && OAuth2Frame(desired, NewOAuth2(pk, name, defaults, id, secret), stored)
  {
    var request := CreateOAuth2ProviderRequest(name, desired, defaults);
    forall id, secret
      ensures OAuth2Conforms(desired, StoredOAuth2Provider(request, pk, id, secret))
      ensures OAuth2Frame(desired, NewOAuth2(pk, name, defaults, id, secret), StoredOAuth2Provider(request, pk, id, secret))
    {
      CreatedOAuth2Conforms(desired, defaults, name, pk, id, secret);
    }
  }

  lemma SyncArranges(h: Handler, name: string, proxies: map<Key, ProxyProvider>, oauth2s: map<Key, OAuth2Provider>,
                     server: Authentik, o: Observed, ok: bool)
    requires OnlyProvider(h, proxies, oauth2s, server.proxyProviders, server.oauth2Providers, o.Pk())
    requires if ok then h.Conforms(server, o.Pk()) else server.proxyProviders == proxies && server.oauth2Providers == oauth2s
    requires match o
             case ObservedProxy(p, _) =>
               && h.ProxyHandler? && p.pk in proxies && proxies[p.pk] == p && p.pk in server.proxyProviders
               && ProxyFrame(h.proxyDesired, p, server.proxyProviders[p.pk])
             case ObservedOAuth2(p, _) =>
               && h.OAuth2Handler? && p.pk in oauth2s && oauth2s[p.pk] == p && p.pk in server.oauth2Providers
               && OAuth2Frame(h.oauth2Desired, p, server.oauth2Providers[p.pk])
    ensures Arranged(h, name, proxies, oauth2s, server.proxyProviders, server.oauth2Providers)
  {
    hide ProxyFrame, OAuth2Frame, Arranged, OnlyProvider, ProxyConforms, OAuth2Conforms;
    if ok {
      OneArranged(h, name, proxies, oauth2s, server.proxyProviders, server.oauth2Providers, o.Pk());
    } else {
      NothingArranged(h, name, proxies, oauth2s);
    }
  }

  /** Patches the managed fields that differ. */
  method Sync(server: Authentik, h: Handler, o: Observed, ghost name: string) returns (res: Result<()>)
    requires server.Valid() && h.Valid() && o.Current(h, server)
    modifies server`proxyProviders, server`oauth2Providers, server`history
    ensures OnlyProvider(h, old(server.proxyProviders), old(server.oauth2Providers), server.proxyProviders, server.oauth2Providers,
                         o.Pk())
    ensures server.Valid() && h.Keys(server) == old(h.Keys(server)) && server.Providers() == old(server.Providers())
    ensures res.Ok? ==> h.Conforms(server, o.Pk())
    ensures match o
            case ObservedProxy(p, _) =>
              p.pk in server.proxyProviders && ProxyFrame(h.proxyDesired, p, server.proxyProviders[p.pk])
            case ObservedOAuth2(p, _) =>
              p.pk in server.oauth2Providers && OAuth2Frame(h.oauth2Desired, p, server.oauth2Providers[p.pk])
    ensures Arranged(h, name, old(server.proxyProviders), old(server.oauth2Providers), server.proxyProviders,
                     server.oauth2Providers)
    ensures res.Err? ==>
              && server.proxyProviders == old(server.proxyProviders)
              && server.oauth2Providers == old(server.oauth2Providers)
    ensures res.Err? ==> !res.error.Stop? && res.error != NotFound
    ensures !old(h.RepairAccepted(server.proxyProviders, o.Pk())) ==> res.Err?
    ensures if old(h.Conforms(server, o.Pk())) then
              && res.Ok? && server.history == old(server.history)
              && server.proxyProviders == old(server.proxyProviders) && server.oauth2Providers == old(server.oauth2Providers)
            else
              && |server.history| == |old(server.history)| + 1 && old(server.history) <= server.history
              && var w := server.history[|old(server.history)|];
                 w.call == PatchProviderCall && w.bindings == server.bindings && w.outposts == server.outposts
  {
    hide ValidBindings, ValidApplications, ValidLinks, ValidOutposts, ValidRoles, ValidProviders, ProviderNameTaken, ClientIdTaken,
      ProxyConforms, OAuth2Conforms, DiffProxyProvider, DiffOAuth2Provider, ApplyProxyProvider, ApplyOAuth2Provider, AssignedTo,
      Arranged;
    NothingArranged(h, name, server.proxyProviders, server.oauth2Providers);
    match o
    case ObservedProxy(p, _) =>
      var desired := h.proxyDesired;
      ProxyDiffExact(desired, p);
      var patch := DiffProxyProvider(desired, p);
      if patch.None? {
        return Ok(());
      }
      ProxyConverges(desired, p);
      var patched := server.PatchProxyProvider(p.pk, patch.value);
      SyncArranges(h, name, old(server.proxyProviders), server.oauth2Providers, server, o, patched.Ok?);
      return if patched.Ok? then Ok(()) else Err(patched.error);
    case ObservedOAuth2(p, _) =>
      var desired := h.oauth2Desired;
      OAuth2DiffExact(desired, p);
      var patch := DiffOAuth2Provider(desired, p);
      if patch.None? {
        return Ok(());
      }
      OAuth2Converges(desired, p);
      var patched := server.PatchOAuth2Provider(p.pk, patch.value);
      SyncArranges(h, name, server.proxyProviders, old(server.oauth2Providers), server, o, patched.Ok?);
      return if patched.Ok? then Ok(()) else Err(patched.error);
  }

  // ---------- the search ----------

  /** What the search looks at. */
  datatype Catalog = Catalog(applications: map<string, Application>, proxies: map<Key, ProxyProvider>,
                             oauth2s: map<Key, OAuth2Provider>)

  ghost function CatalogOf(server: Authentik): Catalog
    reads server`applications, server`proxyProviders, server`oauth2Providers
  {
    Catalog(server.applications, server.proxyProviders, server.oauth2Providers)
  }

  /**
   The Provider that the search takes: the recorded one, else the attached one, else one with the name that no other
   Application uses.
   */
  ghost function SelectionOf(applications: map<string, Application>, names: map<Key, string>, name: string, slug: string,
                             recorded: Option<Key>): set<Key> {
    if recorded.Some? && recorded.value in names then {recorded.value}
    else if slug in applications && applications[slug].provider.Value? && applications[slug].provider.value in names then
      {applications[slug].provider.value}
    else set k | k in names && names[k] == name && Available(applications, k, slug)
  }

  ghost function Selection(h: Handler, c: Catalog, name: string, slug: string, recorded: Option<Key>): set<Key> {
    SelectionOf(c.applications, h.Names(c.proxies, c.oauth2s), name, slug, recorded)
  }

  /** The search finds a Provider. */
  ghost predicate Found(h: Handler, c: Catalog, name: string, slug: string, recorded: Option<Key>) {
    Selection(h, c, name, slug, recorded) != {}
  }

  lemma SelectionIsOf(h: Handler, server: Authentik, name: string, slug: string, recorded: Option<Key>)
    ensures Selection(h, CatalogOf(server), name, slug, recorded)
            == SelectionOf(server.applications, h.Names(server.proxyProviders, server.oauth2Providers), name, slug, recorded)
  {}

  lemma SelectionCases(h: Handler, server: Authentik, name: string, slug: string, recorded: Option<Key>)
    ensures recorded.Some? && recorded.value in h.Keys(server) ==>
              Selection(h, CatalogOf(server), name, slug, recorded) == {recorded.value}
    ensures (recorded.Some? ==> recorded.value !in h.Keys(server)) ==>
              if slug in server.applications && server.applications[slug].provider.Value?
                 && server.applications[slug].provider.value in h.Keys(server) then
                Selection(h, CatalogOf(server), name, slug, recorded) == {server.applications[slug].provider.value}
              else
                && (forall k :: k in Selection(h, CatalogOf(server), name, slug, recorded) <==> Candidate(h, server, name, slug, k))
                && ((forall k :: !Candidate(h, server, name, slug, k)) ==>
                    Selection(h, CatalogOf(server), name, slug, recorded) == {})
  {}

  /** Names are unique, so the search never has a choice. */
  lemma OneSelected(h: Handler, server: Authentik, name: string, slug: string, recorded: Option<Key>, pk: Key)
    requires server.Valid() && pk in Selection(h, CatalogOf(server), name, slug, recorded)
    ensures Selection(h, CatalogOf(server), name, slug, recorded) == {pk}
  {}

  ghost predicate Candidate(h: Handler, server: Authentik, name: string, slug: string, k: Key)
    reads server`applications, server`proxyProviders, server`oauth2Providers
  {
    k in h.Keys(server) && h.Name(server, k) == name && Available(server.applications, k, slug)
  }

  /** No Provider that the search would not take has the name. */
  ghost predicate NameFree(h: Handler, c: Catalog, name: string, slug: string) {
    && (forall k :: k in h.Names(c.proxies, c.oauth2s) && h.Names(c.proxies, c.oauth2s)[k] == name ==>
        Available(c.applications, k, slug))
    && (h.ProxyHandler? ==> forall k :: k in c.oauth2s ==> c.oauth2s[k].name != name)
    && (h.OAuth2Handler? ==> forall k :: k in c.proxies ==> c.proxies[k].name != name)
  }

  /** The Application of the spec, as read a moment ago. */
  ghost predicate IsApplication(server: Authentik, slug: string, application: Option<Application>)
    reads server`applications
  {
    match application
    case Some(a) => slug in server.applications && server.applications[slug] == a
    case None => slug !in server.applications
  }

  lemma AvailableWhenUnused(applications: map<string, Application>, providers: set<Key>, pk: Key, slug: string,
                            usedBy: Option<string>)
    requires ValidLinks(applications, providers) && AssignedTo(applications, pk, usedBy)
    ensures Available(applications, pk, slug) <==> usedBy.None? || usedBy.value == slug
  {}

  /** A Provider with the name that no other Application uses, which recovers from a crash before the pk was recorded. */
  method FindCandidate(server: Authentik, h: Handler, name: string, slug: string) returns (res: Result<Option<Observed>>)
    requires server.Valid()
    ensures res.Ok? && res.value.Some? ==>
              && res.value.value.Current(h, server) && res.value.value.Pk() in h.Keys(server)
              && Candidate(h, server, name, slug, res.value.value.Pk())
    ensures res.Ok? && res.value.None? ==> forall k :: !Candidate(h, server, name, slug, k)
    ensures res.Err? ==> res.error == Unavailable
  {
    hide ValidBindings, ValidApplications, ValidLinks, ValidOutposts, ValidRoles, ValidProviders, AssignedTo, Available,
      Observed.Current;
    var candidates := FindByName(server, h, name);
    if candidates.Err? {
      return Err(candidates.error);
    }
    for i := 0 to |candidates.value|
      invariant forall j :: 0 <= j < i ==> !Available(server.applications, candidates.value[j].Pk(), slug)
    {
      var candidate := candidates.value[i];
      assert candidate in candidates.value;
      CurrentUse(h, server, candidate);
      AvailableWhenUnused(server.applications, server.Providers(), candidate.Pk(), slug, candidate.usedBy);
      if candidate.usedBy.None? || candidate.usedBy.value == slug {
        return Ok(Some(candidate));
      }
    }
    return Ok(None);
  }

  lemma CurrentUse(h: Handler, server: Authentik, o: Observed)
    requires o.Current(h, server)
    ensures AssignedTo(server.applications, o.Pk(), o.usedBy) && o.Pk() in h.Keys(server)
  {}

  /** findProvider: forgets a recorded Provider that is gone, in memory only. */
  method FindProvider(server: Authentik, s: Resource, h: Handler, name: string, slug: string, application: Option<Application>)
    returns (res: Result<Option<Observed>>)
    requires server.Valid() && IsApplication(server, slug, application)
    modifies s`status
    ensures s.status == old(s.status) || s.status == old(s.status).(providerPk := None)
    ensures s.status != old(s.status) ==> old(s.status).providerPk.Some? && old(s.status).providerPk.value !in h.Keys(server)
    ensures old(s.status).providerPk.Some? && old(s.status).providerPk.value in h.Keys(server) ==>
              s.status == old(s.status) && (res.Err? ==> res.error == Unavailable)
    ensures res.Ok? && res.value.Some? ==>
              && res.value.value.Current(h, server) && res.value.value.Pk() in h.Keys(server)
              && res.value.value.Pk() in Selection(h, CatalogOf(server), name, slug, old(s.status).providerPk)
              && (s.status.providerPk.Some? ==> s.status.providerPk == Some(res.value.value.Pk()))
    ensures res.Ok? && res.value.None? ==>
              !Found(h, CatalogOf(server), name, slug, old(s.status).providerPk) && s.status.providerPk.None?
    ensures res.Err? ==>
              || res.error == Unavailable
              || (&& res.error == Stop(ProviderTypeMismatch) && application.Some? && application.value.provider.Value?
                  && application.value.provider.value in h.OtherKeys(server))
  {
    hide ValidBindings, ValidApplications, ValidLinks, ValidOutposts, ValidRoles, ValidProviders, AssignedTo, Available, Selection,
      Candidate, Observed.Current;
    SelectionCases(h, server, name, slug, s.status.providerPk);
    if s.status.providerPk.Some? {
      var got := Get(server, h, s.status.providerPk.value);
      if got.Ok? {
        return Ok(Some(got.value));
      } else if got.error != NotFound {
        return Err(got.error);
      }
      s.status := s.status.(providerPk := None);
    }
    if application.Some? && application.value.provider.Value? {
      var pk := application.value.provider.value;
      var got := Get(server, h, pk);
      if got.Ok? {
        return Ok(Some(got.value));
      } else if got.error != NotFound {
        return Err(got.error);
      }
      var other := ExistsAsOtherType(server, h, pk);
      if other.Err? {
        return Err(other.error);
      } else if other.value {
        return Err(Stop(ProviderTypeMismatch));
      }
    }
    res := FindCandidate(server, h, name, slug);
    SelectionCases(h, server, name, slug, old(s.status).providerPk);
  }

  // ---------- finding, creating, recording, marking, and repairing ----------

  /** Requests that leave Bindings and Outposts as they are. */
  ghost predicate OnlyProviderWrites(before: seq<Write>, after: seq<Write>, bindings: map<Key, Binding>,
                                     outposts: map<Key, Outpost>) {
    && before <= after
    && forall k :: |before| <= k < |after| ==>
         && after[k].bindings == bindings && after[k].outposts == outposts
         && (RoleCall(after[k].call) || after[k].call.CreateProviderCall? || after[k].call.PatchProviderCall?)
  }

  /** A new Provider is what the search takes when it took none before. */
  lemma NewIsSelected(applications: map<string, Application>, names: map<Key, string>, name: string, slug: string, pk: Key,
                      recorded: Option<Key>)
    requires SelectionOf(applications, names, name, slug, recorded) == {}
    requires forall s :: s in applications ==> applications[s].provider != Value(pk)
    ensures SelectionOf(applications, names[pk := name], name, slug, recorded) == {pk}
  {
    assert Available(applications, pk, slug);
    forall k | k in names && names[k] == name ensures !Available(applications, k, slug) {
      assert k !in SelectionOf(applications, names, name, slug, recorded);
    }
  }

  lemma NamesOfProxies(before: map<Key, ProxyProvider>, after: map<Key, ProxyProvider>, pk: Key)
    requires after - {pk} == before - {pk} && pk in after
    ensures ProxyNames(after) == ProxyNames(before)[pk := after[pk].name]
  {
    assert forall k :: k in after && k != pk ==> k in after - {pk} && (after - {pk})[k] == after[k];
    assert forall k :: k in before && k != pk ==> k in before - {pk} && (before - {pk})[k] == before[k];
  }

  lemma NamesOfOAuth2s(before: map<Key, OAuth2Provider>, after: map<Key, OAuth2Provider>, pk: Key)
    requires after - {pk} == before - {pk} && pk in after
    ensures OAuth2Names(after) == OAuth2Names(before)[pk := after[pk].name]
  {
    assert forall k :: k in after && k != pk ==> k in after - {pk} && (after - {pk})[k] == after[k];
    assert forall k :: k in before && k != pk ==> k in before - {pk} && (before - {pk})[k] == before[k];
  }

  /** The names after one Provider was created or changed. */
  lemma NamesAfter(h: Handler, proxies: map<Key, ProxyProvider>, oauth2s: map<Key, OAuth2Provider>, server: Authentik, pk: Key)
    requires OnlyProvider(h, proxies, oauth2s, server.proxyProviders, server.oauth2Providers, pk) && pk in h.Keys(server)
    ensures h.Names(server.proxyProviders, server.oauth2Providers) == h.Names(proxies, oauth2s)[pk := h.Name(server, pk)]
  {
    if h.ProxyHandler? {
      NamesOfProxies(proxies, server.proxyProviders, pk);
    } else {
      NamesOfOAuth2s(oauth2s, server.oauth2Providers, pk);
    }
  }

  lemma NewProviderUnused(applications: map<string, Application>, providers: set<Key>, pk: Key)
    requires ValidLinks(applications, providers) && pk !in providers
    ensures forall s :: s in applications ==> applications[s].provider != Value(pk)
  {}

  lemma RecordedIsSelected(h: Handler, server: Authentik, name: string, slug: string, pk: Key)
    requires pk in h.Keys(server)
    ensures Selection(h, CatalogOf(server), name, slug, Some(pk)) == {pk}
  {}

  /** Without a Provider to take and with the name free, no Provider at all has the name. */
  lemma FreeNameIsNotTaken(h: Handler, server: Authentik, name: string, slug: string, recorded: Option<Key>)
    requires !Found(h, CatalogOf(server), name, slug, recorded) && NameFree(h, CatalogOf(server), name, slug)
    ensures !ProviderNameTaken(server.proxyProviders, server.oauth2Providers, name, EMPTY)
  {
    forall k | k in h.Keys(server) ensures h.Name(server, k) != name {
      assert k !in Selection(h, CatalogOf(server), name, slug, recorded);
    }
    if h.ProxyHandler? {
      assert forall k :: k in server.proxyProviders ==> k in h.Keys(server) && h.Name(server, k) == server.proxyProviders[k].name;
    } else {
      assert forall k :: k in server.oauth2Providers ==> k in h.Keys(server) && h.Name(server, k) == server.oauth2Providers[k].name;
    }
  }

  /** Records the pk before attaching the marker. */
  method RecordProvider(markers: MarkerCache, s: Resource, h: Handler, pk: Key) returns (res: Result<()>)
    requires markers.marker.server.Valid() && pk in h.Keys(markers.marker.server)
    modifies s, markers, markers.marker, markers.clock, markers.marker.server`roles, markers.marker.server`sequence,
             markers.marker.server`grants, markers.marker.server`history
    ensures markers.marker.server.Valid()
    ensures OnlyMarkerWrites(old(markers.marker.server.history), markers.marker.server.history, markers.marker.server.bindings,
                             markers.marker.server.outposts)
    ensures s.status == old(s.status).(providerPk := Some(pk))
    ensures s.base == old(s.base) || s.base == s.status
    ensures res.Ok? && old(s.status).providerPk != Some(pk) ==> s.base == s.status
    ensures old(s.status).providerPk == Some(pk) ==> s.base == old(s.base)
    ensures old(markers.Exact()) ==>
              && markers.Exact()
              && markers.marker.Marked() == (if res.Ok? then old(markers.marker.Marked()) + {h.Obj(pk)}
                                             else old(markers.marker.Marked()))
              && (res.Err? ==> res.error == Unavailable)
    ensures old(markers.Exact()) && h.Obj(pk) in markers.marker.Marked() - old(markers.marker.Marked())
            && s.status.providerPk != old(s.status).providerPk ==>
              s.base.providerPk == Some(pk)
    ensures old(markers.Exact()) && h.Obj(pk) in old(markers.marker.Marked()) ==>
              markers.marker.server.history == old(markers.marker.server.history)
  {
    hide ValidBindings, ValidApplications, ValidLinks, ValidOutposts, ValidRoles, ValidProviders, MarkedBy;
    if s.status.providerPk != Some(pk) {
      s.status := s.status.(providerPk := Some(pk));
      var patched := s.PatchStatus();
      if patched.Err? {
        return patched;
      }
    }
    res := markers.Ensure(h.Obj(pk));
  }

  /** The Provider to take has every managed value. */
  ghost predicate TakesConforming(h: Handler, server: Authentik, name: string, slug: string, recorded: Option<Key>)
    reads server`applications, server`proxyProviders, server`oauth2Providers
  {
    exists pk :: Selection(h, CatalogOf(server), name, slug, recorded) == {pk} && h.Conforms(server, pk)
  }

  /** The Provider to take differs from the spec in a way that the server does not let the operator repair. */
  ghost predicate TakesStuck(h: Handler, c: Catalog, name: string, slug: string, recorded: Option<Key>) {
    exists pk :: Selection(h, c, name, slug, recorded) == {pk} && !h.RepairAccepted(c.proxies, pk)
  }

  lemma TakenProvider(h: Handler, server: Authentik, name: string, slug: string, recorded: Option<Key>)
    ensures forall pk :: Selection(h, CatalogOf(server), name, slug, recorded) == {pk} ==>
              && (TakesConforming(h, server, name, slug, recorded) <==> h.Conforms(server, pk))
              && (TakesStuck(h, CatalogOf(server), name, slug, recorded) <==> !h.RepairAccepted(server.proxyProviders, pk))
    ensures Selection(h, CatalogOf(server), name, slug, recorded) == {} ==>
              !TakesConforming(h, server, name, slug, recorded) && !TakesStuck(h, CatalogOf(server), name, slug, recorded)
  {
    forall pk, other | Selection(h, CatalogOf(server), name, slug, recorded) == {pk}
           && Selection(h, CatalogOf(server), name, slug, recorded) == {other} ensures pk == other {
      assert pk in Selection(h, CatalogOf(server), name, slug, recorded);
    }
  }

  // ---------- the search, from one attempt to the next ----------

  /** The Provider that the search takes, and whether there is one or its name is free. */
  datatype Search = Search(selection: set<Key>, ready: bool)

  ghost function SearchAt(h: Handler, c: Catalog, name: string, slug: string, recorded: Option<Key>): Search {
    Search(Selection(h, c, name, slug, recorded), Found(h, c, name, slug, recorded) || NameFree(h, c, name, slug))
  }

  /** A creation of a Provider was refused while another one had its name. */
  ghost predicate NameRefused(history: seq<Write>, start: nat) {
    exists k :: start <= k < |history| && history[k].call.CreateProviderCall? && history[k].verdict.NameTaken?
  }

  /**
   What a run does to the search. It creates at most one Provider, and none when there was one to take, which stays the
   one to take. A Provider that it creates is new, and from then on the one to take. With a Provider to take or its name
   free, no creation is refused for the name, and it stays so.
   */
  ghost predicate Recovers(before: Search, now: Search, known: set<Key>, created: nat, refused: bool) {
    && created <= (if before.selection != {} then 0 else 1)
    && (if created == 0 then now.selection == before.selection else now.selection != {} && now.selection !! known)
    && (before.ready ==> now.ready && !refused)
  }

  /** The run recovers for a retry with the status written last, and for one that writes the status first. */
  ghost predicate KeepsSearch(h: Handler, c: Catalog, name: string, slug: string, base: Option<Key>, status: Option<Key>,
                              before: Search, known: set<Key>, created: nat, refused: bool) {
    && Recovers(before, SearchAt(h, c, name, slug, base), known, created, refused)
    && Recovers(before, SearchAt(h, c, name, slug, status), known, created, refused)
  }

  lemma RecoversChain(a: Search, b: Search, c: Search, known: set<Key>, later: set<Key>, created: nat, more: nat, refused: bool,
                      again: bool)
    requires Recovers(a, b, known, created, refused) && Recovers(b, c, later, more, again) && known <= later
    ensures Recovers(a, c, known, created + more, refused || again)
  {}

  lemma NoneRefusedBefore(history: seq<Write>, longer: seq<Write>, start: nat)
    requires history <= longer && start <= |history|
    ensures NameRefused(longer, start) <==> NameRefused(history, start) || NameRefused(longer, |history|)
  {
    assert forall k :: 0 <= k < |history| ==> longer[k] == history[k];
    if NameRefused(history, start) {
      var k :| start <= k < |history| && history[k].call.CreateProviderCall? && history[k].verdict.NameTaken?;
      assert longer[k] == history[k];
    }
  }

  /** Without a creation no name is refused, and none is accepted. */
  lemma NothingCreated(history: seq<Write>, longer: seq<Write>)
    requires history <= longer && forall k :: |history| <= k < |longer| ==> !longer[k].call.CreateProviderCall?
    ensures AcceptedCalls(longer, |history|, CreateProviderCall) == 0 && !NameRefused(longer, |history|)
  {
    NoneAccepted(history, history, |history|, CreateProviderCall);
    NoneAccepted(history, longer, |history|, CreateProviderCall);
  }

  /** Creates the Provider, which is the one to take from then on; its name is refused only if it was not free. */
  method CreateMissing(server: Authentik, h: Handler, name: string, slug: string, ghost recorded: Option<Key>)
    returns (res: Result<Key>)
    requires server.Valid() && h.Valid() && NameAgrees(h, name) && !Found(h, CatalogOf(server), name, slug, recorded)
    modifies server`proxyProviders, server`oauth2Providers, server`sequence, server`history
    ensures server.Valid() && old(server.sequence) <= server.sequence && old(server.Providers()) <= server.Providers()
    ensures OnlyProviderWrites(old(server.history), server.history, server.bindings, server.outposts)
    ensures AcceptedCalls(server.history, old(|server.history|), CreateProviderCall) == if res.Ok? then 1 else 0
    ensures res.Ok? ==>
              && res.value in h.Keys(server) && Selection(h, CatalogOf(server), name, slug, recorded) == {res.value}
              && h.Conforms(server, res.value)
              && OnlyProvider(h, old(server.proxyProviders), old(server.oauth2Providers), server.proxyProviders,
                              server.oauth2Providers, res.value)
              && res.value !in old(server.Providers())
    ensures Arranged(h, name, old(server.proxyProviders), old(server.oauth2Providers), server.proxyProviders,
                     server.oauth2Providers)
    ensures NameRefused(server.history, old(|server.history|)) ==> res.Err? && !old(NameFree(h, CatalogOf(server), name, slug))
    ensures res.Err? ==>
              && server.proxyProviders == old(server.proxyProviders) && server.oauth2Providers == old(server.oauth2Providers)
              && (|| res.error == Unavailable
                  || (res.error == BadRequest && (NameFree(h, CatalogOf(server), name, slug) ==>
                                                  !h.ModeAccepted() || ClientIdBlocked(h, server.oauth2Providers))))
  {
    hide ValidBindings, ValidApplications, ValidLinks, ValidOutposts, ValidRoles, ValidProviders, ProviderNameTaken,
      ClientIdBlocked, Selection, SelectionOf, Handler.Names, NameFree, Handler.Conforms, NameRefused, AcceptedCalls, OnlyProvider,
      Arranged;
    SelectionIsOf(h, server, name, slug, recorded);
    if NameFree(h, CatalogOf(server), name, slug) {
      FreeNameIsNotTaken(h, server, name, slug, recorded);
    }
    ghost var history := server.history;
    res := Create(server, h, name);
    OneMoreCall(history, server.history, CreateProviderCall);
    OneMoreVerdict(history, server.history);
    if res.Err? {
      return;
    }
    NewProviderUnused(server.applications, old(server.Providers()), res.value);
    NamesAfter(h, old(server.proxyProviders), old(server.oauth2Providers), server, res.value);
    NewIsSelected(server.applications, old(h.Names(server.proxyProviders, server.oauth2Providers)), name, slug, res.value,
                  recorded);
    SelectionIsOf(h, server, name, slug, recorded);
  }

  /** Creates the Provider when there is none to take. */
  method FindOrCreate(server: Authentik, s: Resource, h: Handler, name: string, slug: string, application: Option<Application>)
    returns (res: Result<(Key, Option<Observed>)>)
    requires server.Valid() && h.Valid() && NameAgrees(h, name) && IsApplication(server, slug, application)
    modifies s`status, server`proxyProviders, server`oauth2Providers, server`sequence, server`history
    ensures server.Valid() && old(server.sequence) <= server.sequence
    ensures OnlyProviderWrites(old(server.history), server.history, server.bindings, server.outposts)
            && old(server.history) <= server.history
    ensures s.status == old(s.status) || s.status == old(s.status).(providerPk := None)
    ensures s.status != old(s.status) ==> old(s.status).providerPk.Some? && old(s.status).providerPk.value !in old(h.Keys(server))
    ensures old(s.status).providerPk.Some? && old(s.status).providerPk.value in old(h.Keys(server)) ==>
              && s.status == old(s.status) && server.history == old(server.history)
              && (if res.Ok? then Some(res.value.0) == old(s.status).providerPk else res.error == Unavailable)
    ensures res.Ok? ==>
              && res.value.0 in h.Keys(server)
              && Selection(h, CatalogOf(server), name, slug, old(s.status).providerPk) == {res.value.0}
              && (s.status.providerPk.Some? ==> s.status.providerPk == Some(res.value.0))
              && (res.value.1.Some? ==> res.value.1.value.Current(h, server) && res.value.1.value.Pk() == res.value.0)
              && (res.value.1.None? ==>
                    && h.Conforms(server, res.value.0) && res.value.0 !in old(server.Providers())
                    && OnlyProvider(h, old(server.proxyProviders), old(server.oauth2Providers), server.proxyProviders,
                                    server.oauth2Providers, res.value.0))
    ensures if res.Ok? && res.value.1.None? then
              && !old(Found(h, CatalogOf(server), name, slug, s.status.providerPk))
              && AcceptedCalls(server.history, old(|server.history|), CreateProviderCall) == 1
            else
              && AcceptedCalls(server.history, old(|server.history|), CreateProviderCall) == 0
              && server.proxyProviders == old(server.proxyProviders) && server.oauth2Providers == old(server.oauth2Providers)
    ensures old(Found(h, CatalogOf(server), name, slug, s.status.providerPk)) ==> server.history == old(server.history)
    ensures old(server.Providers()) <= server.Providers()
    ensures Arranged(h, name, old(server.proxyProviders), old(server.oauth2Providers), server.proxyProviders,
                     server.oauth2Providers)
    ensures NameRefused(server.history, old(|server.history|)) ==>
              res.Err? && !old(SearchAt(h, CatalogOf(server), name, slug, s.status.providerPk).ready)
    ensures res.Err? ==>
              || res.error == Unavailable
              || (&& res.error == Stop(ProviderTypeMismatch) && server.history == old(server.history) && application.Some?
                  && application.value.provider.Value? && application.value.provider.value in h.OtherKeys(server))
              || (&& res.error == BadRequest && !old(Found(h, CatalogOf(server), name, slug, s.status.providerPk))
                  && (NameFree(h, CatalogOf(server), name, slug) ==>
                      !h.ModeAccepted() || ClientIdBlocked(h, server.oauth2Providers)))
  {
    hide ValidBindings, ValidApplications, ValidLinks, ValidOutposts, ValidRoles, ValidProviders, ProviderNameTaken,
      ClientIdBlocked, Selection, NameFree, Handler.Conforms, Observed.Current, NameRefused, AcceptedCalls, OnlyProvider, Arranged;
    NothingArranged(h, name, server.proxyProviders, server.oauth2Providers);
    var found := FindProvider(server, s, h, name, slug, application);
    NothingCreated(server.history, server.history);
    if found.Err? {
      return Err(found.error);
    }
    if found.value.Some? {
      OneSelected(h, server, name, slug, old(s.status).providerPk, found.value.value.Pk());
      return Ok((found.value.value.Pk(), found.value));
    }
    var created := CreateMissing(server, h, name, slug, old(s.status).providerPk);
    return if created.Ok? then Ok((created.value, None)) else Err(created.error);
  }

  lemma OneMoreVerdict(history: seq<Write>, longer: seq<Write>)
    requires history <= longer && |longer| <= |history| + 1
    ensures NameRefused(longer, |history|) <==>
              |longer| > |history| && longer[|history|].call.CreateProviderCall? && longer[|history|].verdict.NameTaken?
  {}

  lemma OneMoreCall(history: seq<Write>, longer: seq<Write>, call: Call)
    requires history <= longer && |longer| <= |history| + 1
    ensures AcceptedCalls(longer, |history|, call) ==
            if |longer| > |history| && longer[|history|].call == call && longer[|history|].verdict.Accepted? then 1 else 0
  {
    NoneAccepted(history, history, |history|, call);
    if |longer| > |history| {
      assert longer[..|longer| - 1] == history;
    } else {
      assert longer == history;
    }
  }

  /** No marker disappeared, and new ones are of one model. */
  ghost predicate MarksGrow(before: set<Object>, after: set<Object>, model: Model) {
    before <= after && forall o :: o in after ==> o in before || o.model == model
  }

  /** Records, marks, and repairs the Provider; it is not touched before it is recorded. */
  method RecordAndSync(markers: MarkerCache, s: Resource, h: Handler, pk: Key, o: Option<Observed>, ghost name: string,
                       ghost slug: string, ghost before: Search, ghost known: set<Key>, ghost start: nat)
    returns (res: Result<()>)
    requires markers.marker.server.Valid() && markers.Exact() && h.Valid() && pk in h.Keys(markers.marker.server)
    requires o.Some? ==> o.value.Current(h, markers.marker.server) && o.value.Pk() == pk
    requires o.None? ==> h.Conforms(markers.marker.server, pk)
    requires s.status.providerPk == Some(pk) ==> s.base.providerPk == Some(pk)
    requires Selection(h, CatalogOf(markers.marker.server), name, slug, s.base.providerPk) == {pk}
    requires start <= |markers.marker.server.history| && !NameRefused(markers.marker.server.history, start)
    requires if before.selection == {} then AcceptedCalls(markers.marker.server.history, start, CreateProviderCall) == 1
             && pk !in known
             else AcceptedCalls(markers.marker.server.history, start, CreateProviderCall) == 0 && before.selection == {pk}
    modifies s, markers, markers.marker, markers.clock, markers.marker.server`proxyProviders,
             markers.marker.server`oauth2Providers, markers.marker.server`roles, markers.marker.server`sequence,
             markers.marker.server`grants, markers.marker.server`history
    ensures markers.marker.server.Valid() && markers.Exact()
    ensures MarksGrow(old(markers.marker.Marked()), markers.marker.Marked(), h.Obj(EMPTY).model)
    ensures OnlyProviderWrites(old(markers.marker.server.history), markers.marker.server.history, markers.marker.server.bindings,
                               markers.marker.server.outposts)
    ensures KeepsSearch(h, CatalogOf(markers.marker.server), name, slug, s.base.providerPk, s.status.providerPk, before, known,
                        AcceptedCalls(markers.marker.server.history, start, CreateProviderCall),
                        NameRefused(markers.marker.server.history, start))
    ensures OnlyProvider(h, old(markers.marker.server.proxyProviders), old(markers.marker.server.oauth2Providers),
                         markers.marker.server.proxyProviders, markers.marker.server.oauth2Providers, pk)
    ensures Arranged(h, name, old(markers.marker.server.proxyProviders), old(markers.marker.server.oauth2Providers),
                     markers.marker.server.proxyProviders, markers.marker.server.oauth2Providers)
    ensures h.Keys(markers.marker.server) == old(h.Keys(markers.marker.server))
    ensures markers.marker.server.Providers() == old(markers.marker.server.Providers())
    ensures s.status == old(s.status).(providerPk := Some(pk))
    ensures s.base == old(s.base) || s.base == s.status
    ensures || (s.base.providerPk == Some(pk) && h.Obj(pk) in markers.marker.Marked())
            || (&& markers.marker.server.proxyProviders == old(markers.marker.server.proxyProviders)
                && markers.marker.server.oauth2Providers == old(markers.marker.server.oauth2Providers))
    ensures res.Ok? ==>
              && h.Conforms(markers.marker.server, pk) && s.base.providerPk == Some(pk)
              && h.Obj(pk) in markers.marker.Marked()
    ensures res.Err? ==> !res.error.Stop? && (o.None? ==> res.error == Unavailable)
    ensures o.Some? && !old(h.RepairAccepted(markers.marker.server.proxyProviders, pk)) ==>
              && res.Err? && markers.marker.server.proxyProviders == old(markers.marker.server.proxyProviders)
    ensures old(h.Conforms(markers.marker.server, pk)) ==>
              && OnlyMarkerWrites(old(markers.marker.server.history), markers.marker.server.history,
                                  markers.marker.server.bindings, markers.marker.server.outposts)
              && markers.marker.server.proxyProviders == old(markers.marker.server.proxyProviders)
              && markers.marker.server.oauth2Providers == old(markers.marker.server.oauth2Providers)
    ensures old(s.status).providerPk == Some(pk) && h.Obj(pk) in old(markers.marker.Marked())
            && old(h.Conforms(markers.marker.server, pk)) ==>
              && markers.marker.server.history == old(markers.marker.server.history) && s.base == old(s.base)
              && (res.Err? ==> res.error == Unavailable)
  {
    hide ValidBindings, ValidApplications, ValidLinks, ValidOutposts, ValidRoles, ValidProviders, Handler.Conforms,
      Observed.Current, MarkedBy, Candidate, Selection, MarksGrow, OnlyProviderWrites, AcceptedCalls, NameRefused, KeepsSearch,
      Handler.Valid, MarkerCache.Exact, Handler.RepairAccepted, OnlyProvider, Arranged, ProxyFrame, OAuth2Frame;
    NothingArranged(h, name, markers.marker.server.proxyProviders, markers.marker.server.oauth2Providers);
    NoProviderChanged(h, markers.marker.server.proxyProviders, markers.marker.server.oauth2Providers, pk);
    ghost var server, marked := markers.marker.server, markers.marker.Marked();
    res := RecordProvider(markers, s, h, pk);
    ghost var history := server.history;
    OneMark(marked, markers.marker.Marked(), h.Obj(pk));
    if res.Ok? && o.Some? {
      StillCurrent(h, server, o.value);
      res := Sync(markers.marker.server, h, o.value, name);
    }
    MarkersBesideProvider(old(server.history), history, server.history, server.bindings, server.outposts, start);
    RecordedIsSelected(h, server, name, slug, pk);
    ProviderTaken(h, CatalogOf(server), name, slug, s.base.providerPk, s.status.providerPk, before, pk, known,
                  AcceptedCalls(server.history, start, CreateProviderCall), NameRefused(server.history, start));
  }

  /** Markers first, and then at most one PATCH of a Provider. */
  lemma MarkersBesideProvider(a: seq<Write>, b: seq<Write>, c: seq<Write>, bindings: map<Key, Binding>,
                              outposts: map<Key, Outpost>, start: nat)
    requires OnlyMarkerWrites(a, b, bindings, outposts) && b <= c && |c| <= |b| + 1 && start <= |a|
    requires |c| > |b| ==> c[|b|].call == PatchProviderCall && c[|b|].bindings == bindings && c[|b|].outposts == outposts
    ensures OnlyProviderWrites(a, c, bindings, outposts)
    ensures AcceptedCalls(c, start, CreateProviderCall) == AcceptedCalls(a, start, CreateProviderCall)
    ensures NameRefused(c, start) <==> NameRefused(a, start)
  {
    NothingCreated(a, c);
    AcceptedAdd(a, c, start, CreateProviderCall);
    NoneRefusedBefore(a, c, start);
  }

  lemma OneMark(before: set<Object>, after: set<Object>, obj: Object)
    requires after == before || after == before + {obj}
    ensures MarksGrow(before, after, obj.model)
  {}

  lemma StillCurrent(h: Handler, server: Authentik, o: Observed)
    ensures o.Current(h, server) ==> o.Pk() in h.Keys(server)
  {}

  /**
   reconcileProvider. Across attempts the Provider is created at most once: an accepted creation makes the search
   find it from then on, wherever the attempt stops afterwards.
   */
  method ReconcileProvider(markers: MarkerCache, s: Resource, h: Handler, name: string, slug: string,
                           application: Option<Application>)
    returns (res: Result<Key>)
    requires markers.marker.server.Valid() && markers.Exact() && h.Valid() && NameAgrees(h, name)
    requires IsApplication(markers.marker.server, slug, application) && s.status.providerPk == s.base.providerPk
    modifies s, markers, markers.marker, markers.clock, markers.marker.server`proxyProviders,
             markers.marker.server`oauth2Providers, markers.marker.server`roles, markers.marker.server`sequence,
             markers.marker.server`grants, markers.marker.server`history
    ensures markers.marker.server.Valid() && markers.Exact()
    ensures MarksGrow(old(markers.marker.Marked()), markers.marker.Marked(), h.Obj(EMPTY).model)
    ensures OnlyProviderWrites(old(markers.marker.server.history), markers.marker.server.history, markers.marker.server.bindings,
                               markers.marker.server.outposts)
    ensures s.status == old(s.status).(providerPk := s.status.providerPk)
    ensures s.base == old(s.base) || (s.base == s.status && s.base.providerPk.Some?)
    ensures old(s.base.providerPk.Some?
                && s.base.providerPk.value in Selection(h, CatalogOf(markers.marker.server), name, slug, s.base.providerPk)) ==>
              s.status.providerPk == old(s.base).providerPk
    ensures res.Ok? ==>
              && h.Conforms(markers.marker.server, res.value) && res.value in h.Keys(markers.marker.server)
              && s.status.providerPk == Some(res.value) == s.base.providerPk
              && h.Obj(res.value) in markers.marker.Marked()
    ensures res.Ok? ==>
              || res.value in old(Selection(h, CatalogOf(markers.marker.server), name, slug, s.base.providerPk))
              || res.value !in old(markers.marker.server.Providers())
    ensures old(markers.marker.server.Providers()) <= markers.marker.server.Providers()
    ensures KeepsSearch(h, CatalogOf(markers.marker.server), name, slug, s.base.providerPk, s.status.providerPk,
                        old(SearchAt(h, CatalogOf(markers.marker.server), name, slug, s.base.providerPk)),
                        old(markers.marker.server.Providers()),
                        AcceptedCalls(markers.marker.server.history, old(|markers.marker.server.history|), CreateProviderCall),
                        NameRefused(markers.marker.server.history, old(|markers.marker.server.history|)))
    ensures old(TakesConforming(h, markers.marker.server, name, slug, s.base.providerPk)) ==>
              && OnlyMarkerWrites(old(markers.marker.server.history), markers.marker.server.history,
                                  markers.marker.server.bindings, markers.marker.server.outposts)
              && markers.marker.server.proxyProviders == old(markers.marker.server.proxyProviders)
              && markers.marker.server.oauth2Providers == old(markers.marker.server.oauth2Providers)
    ensures OthersStay(old(Selection(h, CatalogOf(markers.marker.server), name, slug, s.base.providerPk)),
                       old(markers.marker.server.proxyProviders), old(markers.marker.server.oauth2Providers),
                       markers.marker.server.proxyProviders, markers.marker.server.oauth2Providers)
    ensures Arranged(h, name, old(markers.marker.server.proxyProviders), old(markers.marker.server.oauth2Providers),
                     markers.marker.server.proxyProviders, markers.marker.server.oauth2Providers)
    ensures old(TakesStuck(h, CatalogOf(markers.marker.server), name, slug, s.base.providerPk)) ==>
              res.Err? && markers.marker.server.proxyProviders == old(markers.marker.server.proxyProviders)
    ensures res == Err(BadRequest) && old(!Found(h, CatalogOf(markers.marker.server), name, slug, s.base.providerPk))
            && old(NameFree(h, CatalogOf(markers.marker.server), name, slug)) ==>
              !h.ModeAccepted() || ClientIdBlocked(h, markers.marker.server.oauth2Providers)
    ensures res.Err? && res.error.Stop? ==>
              && res.error == Stop(ProviderTypeMismatch) && application.Some? && application.value.provider.Value?
              && application.value.provider.value in h.OtherKeys(markers.marker.server)
              && markers.marker.server.history == old(markers.marker.server.history) && s.base == old(s.base)
    ensures old(SettledProvider(h, markers.marker, s.status)) ==>
              && markers.marker.server.history == old(markers.marker.server.history) && s.status == old(s.status)
              && s.base == old(s.base)
              && (res.Err? ==> res.error == Unavailable)
  {
    hide ValidBindings, ValidApplications, ValidLinks, ValidOutposts, ValidRoles, ValidProviders, ProviderNameTaken,
      ClientIdBlocked, Selection, NameFree, Candidate, Handler.Conforms, Observed.Current, MarkedBy, AssignedTo, OnlyProviderWrites,
      NameAgrees, AcceptedCalls, MarkerCache.Exact, Handler.Valid, Handler.ModeAccepted, SearchAt, NameRefused, Recovers,
      Handler.RepairAccepted, TakesConforming, TakesStuck, OnlyProvider, OnlyMarkerWrites, KeepsSearch, SettledProvider, MarksGrow,
      CatalogOf, Handler.Obj, Handler.OtherKeys, Handler.Keys, IsApplication, Found, OthersStay, KeysFor, Arranged;
    var server := markers.marker.server;
    ghost var before := SearchAt(h, CatalogOf(server), name, slug, s.base.providerPk);
    NoneTouched(before.selection, server.proxyProviders, server.oauth2Providers);
    SearchTakes(h, server, name, slug, s.base.providerPk);
    TakenProvider(h, server, name, slug, s.base.providerPk);
    NoMarkChanged(markers.marker.Marked(), h.Obj(EMPTY).model);
    if SettledProvider(h, markers.marker, s.status) {
      SettledIsRecorded(h, markers.marker, s.status);
    }
    var found := FindOrCreate(server, s, h, name, slug, application);
    ForgottenIsGone(h, server, name, slug, old(s.base.providerPk), s.status.providerPk);
    TakenExist(h, server, name, slug, old(s.base.providerPk));
    NoMarkerWrites(server.history, server.bindings, server.outposts);
    if found.Err? {
      NothingTaken(h, CatalogOf(server), name, slug, s.base.providerPk, s.status.providerPk, before, old(server.Providers()),
                   NameRefused(server.history, old(|server.history|)));
      return Err(found.error);
    }
    ghost var history, proxies, oauth2s := server.history, server.proxyProviders, server.oauth2Providers;
    var settled := RecordAndSync(markers, s, h, found.value.0, found.value.1, name, slug, before, old(server.Providers()),
                                 old(|server.history|));
    ProviderWritesChain(old(server.history), history, server.history, server.bindings, server.outposts);
    ArrangedChain(h, name, old(server.proxyProviders), old(server.oauth2Providers), proxies, oauth2s, server.proxyProviders,
                  server.oauth2Providers);
    KeysOnServer(h, server);
    OnlyTaken(h, old(server.proxyProviders), old(server.oauth2Providers), found.value.1.None?, proxies, oauth2s,
              server.proxyProviders, server.oauth2Providers, found.value.0, before.selection);
    return if settled.Ok? then Ok(found.value.0) else Err(settled.error);
  }

  lemma TakenExist(h: Handler, server: Authentik, name: string, slug: string, recorded: Option<Key>)
    ensures Selection(h, CatalogOf(server), name, slug, recorded) <= h.Keys(server)
  {}

  lemma SettledIsRecorded(h: Handler, marker: Marker, status: Status)
    requires SettledProvider(h, marker, status)
    ensures status.providerPk.Some? && status.providerPk.value in h.Keys(marker.server)
            && h.Conforms(marker.server, status.providerPk.value)
    ensures h.Obj(status.providerPk.value) in marker.Marked()
  {}

  lemma NoMarkChanged(marked: set<Object>, model: Model)
    ensures MarksGrow(marked, marked, model)
  {}

  lemma NoMarkerWrites(history: seq<Write>, bindings: map<Key, Binding>, outposts: map<Key, Outpost>)
    ensures OnlyMarkerWrites(history, history, bindings, outposts)
  {}

  /** The attempt stopped before it took a Provider. */
  lemma NothingTaken(h: Handler, c: Catalog, name: string, slug: string, base: Option<Key>, status: Option<Key>, before: Search,
                     known: set<Key>, refused: bool)
    requires refused ==> !before.ready
    requires SearchAt(h, c, name, slug, base) == before == SearchAt(h, c, name, slug, status)
    ensures KeepsSearch(h, c, name, slug, base, status, before, known, 0, refused)
  {
    hide SearchAt;
  }

  /** The attempt took the Provider there was, or created it. */
  lemma ProviderTaken(h: Handler, c: Catalog, name: string, slug: string, base: Option<Key>, status: Option<Key>,
                      before: Search, pk: Key, known: set<Key>, created: nat, refused: bool)
    requires Selection(h, c, name, slug, base) == {pk} == Selection(h, c, name, slug, status) && !refused
    requires if before.selection == {} then created == 1 && pk !in known else created == 0 && before.selection == {pk}
    ensures KeepsSearch(h, c, name, slug, base, status, before, known, created, refused)
  {
    hide Selection;
  }

  lemma SearchTakes(h: Handler, server: Authentik, name: string, slug: string, recorded: Option<Key>)
    ensures SearchAt(h, CatalogOf(server), name, slug, recorded).selection == Selection(h, CatalogOf(server), name, slug, recorded)
    ensures Found(h, CatalogOf(server), name, slug, recorded) <==> Selection(h, CatalogOf(server), name, slug, recorded) != {}
  {}

  /** Forgetting a recorded Provider that is gone does not change what the search takes. */
  lemma ForgottenIsGone(h: Handler, server: Authentik, name: string, slug: string, recorded: Option<Key>, other: Option<Key>)
    ensures recorded == other || (recorded.Some? && recorded.value !in h.Keys(server) && other.None?) ==>
              SearchAt(h, CatalogOf(server), name, slug, recorded) == SearchAt(h, CatalogOf(server), name, slug, other)
  {}

  /** The recorded Provider exists, has every managed value, and is marked. */
  ghost predicate SettledProvider(h: Handler, marker: Marker, status: Status)
    reads marker, marker.server
  {
    && status.providerPk.Some? && status.providerPk.value in h.Keys(marker.server)
    && h.Conforms(marker.server, status.providerPk.value)
    && h.Obj(status.providerPk.value) in marker.Marked()
  }

  lemma ProviderWritesChain(a: seq<Write>, b: seq<Write>, c: seq<Write>, bindings: map<Key, Binding>, outposts: map<Key, Outpost>)
    requires OnlyProviderWrites(a, b, bindings, outposts) && OnlyProviderWrites(b, c, bindings, outposts)
    ensures OnlyProviderWrites(a, c, bindings, outposts) && a <= b <= c
  {}
}
