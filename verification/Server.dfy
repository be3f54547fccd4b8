/**
 The authentik server (internal/authentik/fake/fake.go): its stored objects, its validation rules, and its cascades.

 Every call may fail before it takes effect. A crash of the operator after a call is the same as a failure of
 whatever the operator does next. The ghost history records every write request with the Bindings and Outposts
 stored right after it, so that a property of every intermediate state is a property of the history.
 */
module Server {
  import opened Base
  import opened Api
  import opened Patch

  datatype Grant = Grant(role: Key, obj: Object)

  datatype Call =
    | CreateApplicationCall | PatchApplicationCall | DeleteApplicationCall
    | CreateProviderCall | PatchProviderCall | DeleteProviderCall
    | CreateBindingCall | PatchBindingCall | DeleteBindingCall
    | SetOutpostCall
    | CreateRoleCall | AssignCall | UnassignCall

  /** NameTaken is a refusal of a new Provider whose name another one has. */
  datatype Verdict = Accepted | Refused | NameTaken | Lost

  datatype Write = Write(call: Call, verdict: Verdict, bindings: map<Key, Binding>, outposts: map<Key, Outpost>)

  function VerdictOf<T>(res: Result<T>): Verdict {
    match res
    case Ok(_) => Accepted
    case Err(Unavailable) => Lost
    case Err(_) => Refused
  }

  function CreateVerdict<T>(res: Result<T>, nameTaken: bool): Verdict {
    if nameTaken && VerdictOf(res).Refused? then NameTaken else VerdictOf(res)
  }

  predicate RoleCall(call: Call) {
    call.CreateRoleCall? || call.AssignCall? || call.UnassignCall?
  }

  /** The history grew by role and marker requests only. */
  ghost predicate OnlyMarkerWrites(before: seq<Write>, after: seq<Write>, bindings: map<Key, Binding>,
                                   outposts: map<Key, Outpost>) {
    && before <= after
    && (forall k :: |before| <= k < |after| ==>
          RoleCall(after[k].call) && after[k].bindings == bindings && after[k].outposts == outposts)
  }

  /** How many requests of a kind the server accepted since entry start. */
  ghost function AcceptedCalls(history: seq<Write>, start: nat, call: Call): nat {
    if |history| <= start then 0
    else
      var last := history[|history| - 1];
      AcceptedCalls(history[..|history| - 1], start, call) + if last.call == call && last.verdict.Accepted? then 1 else 0
  }

  lemma {:induction false} NoneAccepted(history: seq<Write>, longer: seq<Write>, start: nat, call: Call)
    requires history <= longer && start <= |history|
    requires forall k :: |history| <= k < |longer| ==> longer[k].call != call || !longer[k].verdict.Accepted?
    ensures AcceptedCalls(longer, start, call) == AcceptedCalls(history, start, call)
  {
    if |longer| > |history| {
      NoneAccepted(history, longer[..|longer| - 1], start, call);
    } else {
      assert longer == history;
    }
  }

  lemma {:induction false} AcceptedAdd(history: seq<Write>, longer: seq<Write>, start: nat, call: Call)
    requires history <= longer && start <= |history|
    ensures AcceptedCalls(longer, start, call) == AcceptedCalls(history, start, call) + AcceptedCalls(longer, |history|, call)
  {
    if |longer| > |history| {
      AcceptedAdd(history, longer[..|longer| - 1], start, call);
    } else {
      assert longer == history;
    }
  }

  // ---------- what the server stores for a create request ----------

  function StoredApplication(request: ApplicationRequest, pk: Key): Application {
    Application(
      pk, pk, request.name, request.slug, request.provider, [], request.openInNewTab, request.metaLaunchUrl,
      request.metaIcon, request.metaDescription, request.metaPublisher,
      FirstSome(request.policyEngineMode, Some(Any)), request.group, request.metaHide)
  }

  function StoredProxyProvider(request: ProxyProviderRequest, pk: Key): ProxyProvider {
    ProxyProvider(
      pk, request.name, request.authenticationFlow, request.authorizationFlow, request.invalidationFlow, [],
      request.internalHost, request.externalHost, request.internalHostSslValidation, request.certificate,
      request.skipPathRegex, request.basicAuthEnabled, request.basicAuthPasswordAttribute,
      request.basicAuthUserAttribute, FirstSome(request.mode, Some(Proxy)), request.interceptHeaderAuth,
      request.cookieDomain, request.accessTokenValidity, request.refreshTokenValidity)
  }

  function StoredOAuth2Provider(request: OAuth2ProviderRequest, pk: Key, randomId: string, randomSecret: string): OAuth2Provider {
    OAuth2Provider(
      pk, request.name, request.authenticationFlow, request.authorizationFlow, request.invalidationFlow,
      PatchValue(request.propertyMappings, []), request.clientType, PatchValue(request.grantTypes, []),
      FirstSome(request.clientId, Some(randomId)), FirstSome(request.clientSecret, Some(randomSecret)),
      request.accessCodeValidity, request.accessTokenValidity, request.refreshTokenValidity,
      request.refreshTokenThreshold, request.includeClaimsInIdToken, request.signingKey, request.encryptionKey,
      request.redirectUris, request.logoutUri, request.logoutMethod, request.subMode, request.issuerMode)
  }

  function StoredBinding(request: BindingRequest, pk: Key): Binding {
    Binding(
      pk, request.policy, request.group, request.user, request.target, FirstSome(request.negate, Some(false)),
      Some(true), request.order, Some(30), Some(false))
  }

  // ---------- the server's constraints, on the stored maps ----------

  /** The unique (policy, target, order) constraint, which does not apply to Bindings without a policy. */
  predicate OrderTaken(bindings: map<Key, Binding>, policy: Nullable<Key>, target: Key, order: int, except: Key) {
    SetString(policy) &&
    exists k :: k in bindings && k != except && SetString(bindings[k].policy) && bindings[k].policy == policy
                && bindings[k].target == target && bindings[k].order == order
  }

  ghost predicate UniqueOrders(bindings: map<Key, Binding>) {
    forall j, k ::
      (&& j in bindings && k in bindings && j != k
       && SetString(bindings[j].policy) && bindings[j].policy == bindings[k].policy
       && bindings[j].target == bindings[k].target)
      ==> bindings[j].order != bindings[k].order
  }

  ghost predicate ValidBindings(bindings: map<Key, Binding>, sequence: nat) {
    && (forall k :: k in bindings ==> bindings[k].pk == k && 0 < k <= sequence)
    && (forall k :: k in bindings ==> -0x8000_0000 <= bindings[k].order <= MAX_INT32)
    && UniqueOrders(bindings)
  }

  ghost predicate ValidApplications(applications: map<string, Application>, sequence: nat) {
    && (forall s :: s in applications ==>
          && applications[s].slug == s && 0 < applications[s].pk <= sequence
          && applications[s].pbmUuid == applications[s].pk)
    && (forall s, t :: s in applications && t in applications && applications[s].pk == applications[t].pk ==> s == t)
  }

  /** One Application per Provider, and only existing Providers. */
  ghost predicate ValidLinks(applications: map<string, Application>, providers: set<Key>) {
    && (forall s :: s in applications && applications[s].provider.Value? ==> applications[s].provider.value in providers)
    && (forall s, t ::
          (&& s in applications && t in applications && applications[s].provider.Value?
           && applications[s].provider == applications[t].provider)
          ==> s == t)
  }

  ghost predicate ValidProviders(proxies: map<Key, ProxyProvider>, oauth2s: map<Key, OAuth2Provider>, sequence: nat) {
    && (forall k :: k in proxies ==> proxies[k].pk == k && 0 < k <= sequence && k !in oauth2s)
    && (forall k :: k in oauth2s ==> oauth2s[k].pk == k && 0 < k <= sequence)
    && (forall j, k :: j in proxies && k in proxies && j != k ==> proxies[j].name != proxies[k].name)
    && (forall j, k :: j in oauth2s && k in oauth2s && j != k ==> oauth2s[j].name != oauth2s[k].name)
    && (forall j, k :: j in proxies && k in oauth2s ==> proxies[j].name != oauth2s[k].name)
    && (forall j, k :: j in oauth2s && k in oauth2s && j != k && oauth2s[j].clientId.Some? ==>
          oauth2s[j].clientId != oauth2s[k].clientId)
  }

  ghost predicate ValidOutposts(outposts: map<Key, Outpost>, providers: set<Key>) {
    forall k :: k in outposts ==> outposts[k].pk == k && Elements(outposts[k].providers) <= providers
  }

  ghost predicate ValidRoles(roles: map<Key, string>, grants: set<Grant>, sequence: nat) {
    && (forall k :: k in roles ==> 0 < k <= sequence)
    && (forall j, k :: j in roles && k in roles && roles[j] == roles[k] ==> j == k)
    && (forall g :: g in grants ==> g.role in roles && g.obj.pk <= sequence)
  }

  predicate ProviderNameTaken(proxies: map<Key, ProxyProvider>, oauth2s: map<Key, OAuth2Provider>, name: string, except: Key) {
    || (exists k :: k in proxies && k != except && proxies[k].name == name)
    || (exists k :: k in oauth2s && k != except && oauth2s[k].name == name)
  }

  /** What the server checks of a PATCH of a Proxy Provider: the mode of the body alone, and a name that is sent. */
  predicate ProxyPatchValid(proxies: map<Key, ProxyProvider>, oauth2s: map<Key, OAuth2Provider>, pk: Key,
                            patch: PatchedProxyProvider) {
    && ProxyModeAccepted(patch.mode, patch.internalHost)
    && (patch.name.Some? ==> !ProviderNameTaken(proxies, oauth2s, patch.name.value, pk))
  }

  predicate ClientIdTaken(oauth2s: map<Key, OAuth2Provider>, clientId: string, except: Key) {
    exists k :: k in oauth2s && k != except && oauth2s[k].clientId == Some(clientId)
  }

  /** The one-to-one relation between Applications and Providers. */
  predicate ProviderAttachable(applications: map<string, Application>, providers: set<Key>, provider: Nullable<Key>,
                               exceptSlug: Option<string>) {
    provider.Value? ==>
      && provider.value in providers
      && (forall s :: s in applications && Some(s) != exceptSlug ==> applications[s].provider != provider)
  }

  /** The slug of the Application that uses a Provider. */
  ghost predicate AssignedTo(applications: map<string, Application>, pk: Key, slug: Option<string>) {
    match slug
    case Some(s) => s in applications && applications[s].provider == Value(pk)
    case None => forall s :: s in applications ==> applications[s].provider != Value(pk)
  }

  // ---------- cascades ----------

  function Untargeted(bindings: map<Key, Binding>, target: Key): map<Key, Binding> {
    map k | k in bindings && bindings[k].target != target :: bindings[k]
  }

  function DetachProvider(applications: map<string, Application>, pk: Key): map<string, Application> {
    map s | s in applications ::
      if applications[s].provider == Value(pk) then applications[s].(provider := Null) else applications[s]
  }

  function DropFromOutposts(outposts: map<Key, Outpost>, pk: Key): map<Key, Outpost> {
    map k | k in outposts :: outposts[k].(providers := Without(outposts[k].providers, pk))
  }

  /** The objects marked by the role with a name. */
  ghost function MarkedBy(roles: map<Key, string>, grants: set<Grant>, name: string): set<Object> {
    set g | g in grants && g.role in roles && roles[g.role] == name :: g.obj
  }

  lemma SubmapValid(bindings: map<Key, Binding>, fewer: map<Key, Binding>, sequence: nat)
    requires ValidBindings(bindings, sequence)
    requires fewer.Keys <= bindings.Keys && forall k :: k in fewer ==> fewer[k] == bindings[k]
    ensures ValidBindings(fewer, sequence)
  {}

  lemma FewerApplicationsValid(applications: map<string, Application>, sequence: nat, providers: set<Key>, slug: string)
    requires ValidApplications(applications, sequence) && ValidLinks(applications, providers)
    ensures ValidApplications(applications - {slug}, sequence) && ValidLinks(applications - {slug}, providers)
  {}

  lemma DetachValid(applications: map<string, Application>, sequence: nat, providers: set<Key>, pk: Key)
    requires ValidApplications(applications, sequence) && ValidLinks(applications, providers)
    ensures ValidApplications(DetachProvider(applications, pk), sequence)
    ensures ValidLinks(DetachProvider(applications, pk), providers - {pk})
  {}

  lemma DropValid(outposts: map<Key, Outpost>, providers: set<Key>, pk: Key)
    requires ValidOutposts(outposts, providers)
    ensures ValidOutposts(DropFromOutposts(outposts, pk), providers - {pk})
  {}

  lemma KeysWithout(proxies: map<Key, ProxyProvider>, oauth2s: map<Key, OAuth2Provider>, pk: Key)
    ensures pk !in oauth2s ==> (proxies - {pk}).Keys + oauth2s.Keys == proxies.Keys + oauth2s.Keys - {pk}
    ensures pk !in proxies ==> proxies.Keys + (oauth2s - {pk}).Keys == proxies.Keys + oauth2s.Keys - {pk}
  {}

  lemma ProvidersShrinkValid(proxies: map<Key, ProxyProvider>, oauth2s: map<Key, OAuth2Provider>, sequence: nat, pk: Key)
    requires ValidProviders(proxies, oauth2s, sequence)
    ensures ValidProviders(proxies - {pk}, oauth2s, sequence)
    ensures ValidProviders(proxies, oauth2s - {pk}, sequence)
  {}

  /** An Application keeps its pk and stays valid under a new slug and an attachable Provider. */
  lemma ReplaceValid(applications: map<string, Application>, sequence: nat, providers: set<Key>, slug: string, app: Application)
    requires ValidApplications(applications, sequence) && ValidLinks(applications, providers)
    requires slug in applications && app.pk == applications[slug].pk && app.pbmUuid == app.pk
    requires app.slug == slug || app.slug !in applications
    requires app.provider == applications[slug].provider || ProviderAttachable(applications, providers, app.provider, Some(slug))
    ensures ValidApplications((applications - {slug})[app.slug := app], sequence)
    ensures ValidLinks((applications - {slug})[app.slug := app], providers)
    ensures app.slug == slug ==> (applications - {slug})[app.slug := app] == applications[slug := app]
  {}

  lemma SequenceGrows(bindings: map<Key, Binding>, applications: map<string, Application>, proxies: map<Key, ProxyProvider>,
                      oauth2s: map<Key, OAuth2Provider>, roles: map<Key, string>, grants: set<Grant>, sequence: nat)
    ensures ValidBindings(bindings, sequence) ==> ValidBindings(bindings, sequence + 1)
    ensures ValidApplications(applications, sequence) ==> ValidApplications(applications, sequence + 1)
    ensures ValidProviders(proxies, oauth2s, sequence) ==> ValidProviders(proxies, oauth2s, sequence + 1)
    ensures ValidRoles(roles, grants, sequence) ==> ValidRoles(roles, grants, sequence + 1)
  {}

  lemma AddApplicationValid(applications: map<string, Application>, sequence: nat, providers: set<Key>, app: Application)
    requires ValidApplications(applications, sequence) && ValidLinks(applications, providers)
    requires app.slug !in applications && app.pk == sequence + 1 && app.pbmUuid == app.pk
    requires ProviderAttachable(applications, providers, app.provider, None)
    ensures ValidApplications(applications[app.slug := app], sequence + 1)
    ensures ValidLinks(applications[app.slug := app], providers)
  {}

  lemma AddProxyValid(proxies: map<Key, ProxyProvider>, oauth2s: map<Key, OAuth2Provider>, sequence: nat, p: ProxyProvider)
    requires ValidProviders(proxies, oauth2s, sequence)
    requires p.pk == sequence + 1 && !ProviderNameTaken(proxies, oauth2s, p.name, EMPTY)
    ensures ValidProviders(proxies[p.pk := p], oauth2s, sequence + 1)
  {}

  lemma AddOAuth2Valid(proxies: map<Key, ProxyProvider>, oauth2s: map<Key, OAuth2Provider>, sequence: nat, p: OAuth2Provider)
    requires ValidProviders(proxies, oauth2s, sequence)
    requires p.pk == sequence + 1 && !ProviderNameTaken(proxies, oauth2s, p.name, EMPTY)
    requires p.clientId.Some? ==> !ClientIdTaken(oauth2s, p.clientId.value, EMPTY)
    ensures ValidProviders(proxies, oauth2s[p.pk := p], sequence + 1)
  {}

  lemma MoreProvidersValid(applications: map<string, Application>, outposts: map<Key, Outpost>, providers: set<Key>, more: set<Key>)
    requires ValidLinks(applications, providers) && ValidOutposts(outposts, providers) && providers <= more
    ensures ValidLinks(applications, more) && ValidOutposts(outposts, more)
  {}

  lemma RenameProxyValid(proxies: map<Key, ProxyProvider>, oauth2s: map<Key, OAuth2Provider>, sequence: nat, p: ProxyProvider)
    requires ValidProviders(proxies, oauth2s, sequence)
    requires p.pk in proxies
    requires p.name == proxies[p.pk].name || !ProviderNameTaken(proxies, oauth2s, p.name, p.pk)
    ensures ValidProviders(proxies[p.pk := p], oauth2s, sequence)
  {}

  lemma RenameOAuth2Valid(proxies: map<Key, ProxyProvider>, oauth2s: map<Key, OAuth2Provider>, sequence: nat, p: OAuth2Provider)
    requires ValidProviders(proxies, oauth2s, sequence)
    requires p.pk in oauth2s
    requires p.name == oauth2s[p.pk].name || !ProviderNameTaken(proxies, oauth2s, p.name, p.pk)
    requires p.clientId == oauth2s[p.pk].clientId || (p.clientId.Some? ==> !ClientIdTaken(oauth2s, p.clientId.value, p.pk))
    ensures ValidProviders(proxies, oauth2s[p.pk := p], sequence)
  {}

  lemma StoreBindingValid(bindings: map<Key, Binding>, sequence: nat, b: Binding)
    requires ValidBindings(bindings, sequence)
    requires 0 < b.pk <= sequence + 1 && -0x8000_0000 <= b.order <= MAX_INT32
    requires !OrderTaken(bindings, b.policy, b.target, b.order, b.pk)
    ensures ValidBindings(bindings[b.pk := b], if b.pk == sequence + 1 then sequence + 1 else sequence)
  {}

  /** The pks of new objects are fresh, and stored objects carry their own key. */
  lemma Fresh(bindings: map<Key, Binding>, applications: map<string, Application>, proxies: map<Key, ProxyProvider>,
              oauth2s: map<Key, OAuth2Provider>, sequence: nat)
    requires ValidBindings(bindings, sequence) && ValidApplications(applications, sequence)
             && ValidProviders(proxies, oauth2s, sequence)
    ensures forall k :: k in bindings ==> bindings[k].pk == k && 0 < k <= sequence && -0x8000_0000 <= bindings[k].order <= MAX_INT32
    ensures forall s :: s in applications ==> applications[s].slug == s && applications[s].pbmUuid == applications[s].pk
    ensures forall k :: k in proxies ==> proxies[k].pk == k && 0 < k <= sequence && k !in oauth2s
    ensures forall k :: k in oauth2s ==> oauth2s[k].pk == k && 0 < k <= sequence
  {}

  lemma GrantValid(roles: map<Key, string>, grants: set<Grant>, sequence: nat, role: Key, obj: Object)
    requires ValidRoles(roles, grants, sequence)
    ensures role in roles && obj.pk <= sequence ==> ValidRoles(roles, grants + {Grant(role, obj)}, sequence)
    ensures ValidRoles(roles, grants - {Grant(role, obj)}, sequence)
  {}

  /** Permissions are on objects whose pk was issued, so an object that is new has none. */
  lemma MarkedWereIssued(roles: map<Key, string>, grants: set<Grant>, sequence: nat, name: string)
    requires ValidRoles(roles, grants, sequence)
    ensures forall o :: o in MarkedBy(roles, grants, name) ==> o.pk <= sequence
  {}

  lemma AddRoleValid(roles: map<Key, string>, grants: set<Grant>, sequence: nat, name: string)
    requires ValidRoles(roles, grants, sequence) && name !in roles.Values
    ensures ValidRoles(roles[sequence + 1 := name], grants, sequence + 1)
  {}

  lemma SetProvidersValid(outposts: map<Key, Outpost>, providers: set<Key>, uuid: Key, list: seq<Key>)
    requires ValidOutposts(outposts, providers) && uuid in outposts && Elements(list) <= providers
    ensures ValidOutposts(outposts[uuid := outposts[uuid].(providers := list)], providers)
  {}

  /** Distinct Bindings by ascending order. */
  predicate Ascending(list: seq<Binding>) {
    forall i, j :: 0 <= i < j < |list| ==> list[i].order <= list[j].order && list[i].pk != list[j].pk
  }

  /** Puts a Binding behind every Binding whose order is not larger. */
  method InsertByOrder(list: seq<Binding>, b: Binding) returns (longer: seq<Binding>)
    requires Ascending(list) && forall i :: 0 <= i < |list| ==> list[i].pk != b.pk
    ensures Ascending(longer) && Elements(longer) == Elements(list) + {b}
  {
    var k := |list|;
    while 0 < k && b.order < list[k - 1].order
      invariant 0 <= k <= |list|
      invariant forall i :: k <= i < |list| ==> b.order < list[i].order
    {
      k := k - 1;
    }
    longer := list[..k] + [b] + list[k..];
    Inserted(list, k, b, longer);
    InsertedElements(list[..k], b, list[k..], longer);
    assert list == list[..k] + list[k..];
  }

  lemma Inserted(list: seq<Binding>, k: nat, b: Binding, longer: seq<Binding>)
    requires k <= |list| && longer == list[..k] + [b] + list[k..]
    requires Ascending(list) && forall i :: 0 <= i < |list| ==> list[i].pk != b.pk
    requires forall i :: 0 <= i < k ==> list[i].order <= b.order
    requires forall i :: k <= i < |list| ==> b.order <= list[i].order
    ensures Ascending(longer)
  {
    forall i, j | 0 <= i < j < |longer|
      ensures longer[i].order <= longer[j].order && longer[i].pk != longer[j].pk
    {
      assert longer[i] == if i < k then list[i] else if i == k then b else list[i - 1];
      assert longer[j] == if j < k then list[j] else if j == k then b else list[j - 1];
    }
  }

  lemma InsertedElements(front: seq<Binding>, b: Binding, back: seq<Binding>, longer: seq<Binding>)
    requires longer == front + [b] + back
    ensures Elements(longer) == Elements(front + back) + {b}
  {}

  lemma MarkGrows(roles: map<Key, string>, grants: set<Grant>, name: string, role: Key, obj: Object)
    requires role in roles && roles[role] == name
    ensures MarkedBy(roles, grants + {Grant(role, obj)}, name) == MarkedBy(roles, grants, name) + {obj}
  {
    var more := grants + {Grant(role, obj)};
    forall o | o in MarkedBy(roles, grants, name) + {obj} ensures o in MarkedBy(roles, more, name) {
      if o == obj {
        assert Grant(role, obj) in more;
      } else {
        var g :| g in grants && g.role in roles && roles[g.role] == name && g.obj == o;
        assert g in more;
      }
    }
  }

  lemma MarkShrinks(roles: map<Key, string>, grants: set<Grant>, sequence: nat, name: string, role: Key, obj: Object)
    requires role in roles && roles[role] == name && ValidRoles(roles, grants, sequence)
    ensures MarkedBy(roles, grants - {Grant(role, obj)}, name) == MarkedBy(roles, grants, name) - {obj}
  {
    var fewer := grants - {Grant(role, obj)};
    forall o | o in MarkedBy(roles, grants, name) - {obj} ensures o in MarkedBy(roles, fewer, name) {
      var g :| g in grants && g.role in roles && roles[g.role] == name && g.obj == o;
      assert g in fewer;
    }
  }

  lemma MarkedByRole(roles: map<Key, string>, grants: set<Grant>, sequence: nat, name: string, role: Key, obj: Object)
    requires role in roles && roles[role] == name && ValidRoles(roles, grants, sequence)
    ensures obj in MarkedBy(roles, grants, name) <==> Grant(role, obj) in grants
  {
    if obj in MarkedBy(roles, grants, name) {
      var g :| g in grants && g.role in roles && roles[g.role] == name && g.obj == obj;
      assert g == Grant(role, obj);
    }
  }

  class Authentik {
    var sequence: nat
    var applications: map<string, Application>
    var proxyProviders: map<Key, ProxyProvider>
    var oauth2Providers: map<Key, OAuth2Provider>
    var bindings: map<Key, Binding>
    var outposts: map<Key, Outpost>
    var roles: map<Key, string>
    var grants: set<Grant>
    ghost var history: seq<Write>

    ghost predicate Valid()
      reads this
    {
      && ValidBindings(bindings, sequence)
      && ValidApplications(applications, sequence)
      && ValidLinks(applications, Providers())
      && ValidProviders(proxyProviders, oauth2Providers, sequence)
      && ValidOutposts(outposts, Providers())
      && ValidRoles(roles, grants, sequence)
    }

    function Providers(): set<Key>
      reads this`proxyProviders, this`oauth2Providers
    {
      proxyProviders.Keys + oauth2Providers.Keys
    }

    ghost function Marked(name: string): set<Object>
      reads this`roles, this`grants
    {
      MarkedBy(roles, grants, name)
    }

    constructor ()
      ensures Valid() && fresh(this) && history == []
    {
      sequence := 0;
      applications, proxyProviders, oauth2Providers, bindings := map[], map[], map[], map[];
      outposts, roles, grants, history := map[], map[], {}, [];
    }

    ghost method Log(call: Call, verdict: Verdict)
      modifies this`history
      ensures history == old(history) + [Write(call, verdict, bindings, outposts)]
    {
      history := history + [Write(call, verdict, bindings, outposts)];
    }

    // ---------- Applications ----------

    method GetApplication(slug: string) returns (res: Result<Application>)
      ensures res.Ok? ==> slug in applications && res.value == applications[slug]
      ensures res.Err? ==> res.error == Unavailable || (res.error == NotFound && slug !in applications)
    {
      if * { return Err(Unavailable); }
      if slug !in applications { return Err(NotFound); }
      return Ok(applications[slug]);
    }

    method CreateApplication(request: ApplicationRequest) returns (res: Result<Application>)
      requires Valid()
      modifies this`applications, this`sequence, this`history
      ensures Valid()
      ensures res.Ok? ==>
                && request.slug !in old(applications) && ProviderAttachable(old(applications), Providers(), request.provider, None)
                && sequence == old(sequence) + 1
                && res.value == StoredApplication(request, sequence)
                && applications == old(applications)[request.slug := res.value]
      ensures res.Err? ==> sequence == old(sequence) && applications == old(applications)
      ensures res.Err? ==>
                || res.error == Unavailable
                || (&& res.error == BadRequest
                    && (request.slug in applications || !ProviderAttachable(applications, Providers(), request.provider, None)))
      ensures history == old(history) + [Write(CreateApplicationCall, VerdictOf(res), bindings, outposts)]
    {
      hide ValidBindings, ValidApplications, ValidLinks, ValidProviders, ValidOutposts, ValidRoles;
      if * {
        res := Err(Unavailable);
      } else if request.slug in applications || !ProviderAttachable(applications, Providers(), request.provider, None) {
        res := Err(BadRequest);
      } else {
        SequenceGrows(bindings, applications, proxyProviders, oauth2Providers, roles, grants, sequence);
        AddApplicationValid(applications, sequence, Providers(), StoredApplication(request, sequence + 1));
        sequence := sequence + 1;
        res := Ok(StoredApplication(request, sequence));
        applications := applications[request.slug := res.value];
      }
      Log(CreateApplicationCall, VerdictOf(res));
    }

    method PatchApplication(slug: string, patch: PatchedApplication) returns (res: Result<Application>)
      requires Valid()
      modifies this`applications, this`history
      ensures Valid()
      ensures res.Ok? ==> slug in old(applications) && res.value == ApplyApplication(patch, old(applications)[slug])
      ensures res.Ok? ==> ProviderAttachable(old(applications), Providers(), patch.provider, Some(slug))
      ensures res.Ok? ==> applications == (old(applications) - {slug})[res.value.slug := res.value]
      ensures res.Ok? && res.value.slug != slug ==> res.value.slug !in old(applications)
      ensures res.Ok? && patch.slug.None? ==> applications == old(applications)[slug := res.value]
      ensures res.Err? ==> applications == old(applications)
      ensures res.Err? ==>
                || res.error == Unavailable
                || (res.error == NotFound && slug !in applications)
                || (&& res.error == BadRequest
                    && (patch.slug.Some? || !ProviderAttachable(applications, Providers(), patch.provider, Some(slug))))
      ensures history == old(history) + [Write(PatchApplicationCall, VerdictOf(res), bindings, outposts)]
    {
      hide ValidBindings, ValidApplications, ValidLinks, ValidProviders, ValidOutposts, ValidRoles;
      if * {
        res := Err(Unavailable);
      } else if slug !in applications {
        res := Err(NotFound);
      } else if patch.slug.Some? && patch.slug.value != slug && patch.slug.value in applications {
        res := Err(BadRequest);
      } else if !ProviderAttachable(applications, Providers(), patch.provider, Some(slug)) {
        res := Err(BadRequest);
      } else {
        Fresh(bindings, applications, proxyProviders, oauth2Providers, sequence);
        res := Ok(ApplyApplication(patch, applications[slug]));
        ReplaceValid(applications, sequence, Providers(), slug, res.value);
        applications := (applications - {slug})[res.value.slug := res.value];
      }
      Log(PatchApplicationCall, VerdictOf(res));
    }

    /** Deletes the Application and its Bindings; markers stay. */
    method DeleteApplication(slug: string) returns (res: Result<()>)
      requires Valid()
      modifies this`applications, this`bindings, this`history
      ensures Valid()
      ensures res.Ok? ==>
                && slug in old(applications) && applications == old(applications) - {slug}
                && bindings == Untargeted(old(bindings), old(applications)[slug].pbmUuid)
      ensures res.Err? ==> applications == old(applications) && bindings == old(bindings)
      ensures res.Err? ==> res.error == Unavailable || (res.error == NotFound && slug !in applications)
      ensures history == old(history) + [Write(DeleteApplicationCall, VerdictOf(res), bindings, outposts)]
    {
      hide ValidBindings, ValidApplications, ValidLinks, ValidProviders, ValidOutposts, ValidRoles;
      if * {
        res := Err(Unavailable);
      } else if slug !in applications {
        res := Err(NotFound);
      } else {
        SubmapValid(bindings, Untargeted(bindings, applications[slug].pbmUuid), sequence);
        bindings := Untargeted(bindings, applications[slug].pbmUuid);
        FewerApplicationsValid(applications, sequence, Providers(), slug);
        applications := applications - {slug};
        res := Ok(());
      }
      Log(DeleteApplicationCall, VerdictOf(res));
    }

    // ---------- Providers ----------

    method AssignedApplicationSlug(pk: Key) returns (slug: Option<string>)
      ensures AssignedTo(applications, pk, slug)
    {
      var rest := applications.Keys;
      while rest != {}
        invariant rest <= applications.Keys
        invariant forall s :: s in applications && s !in rest ==> applications[s].provider != Value(pk)
        decreases rest
      {
        var s :| s in rest;
        if applications[s].provider == Value(pk) {
          return Some(s);
        }
        rest := rest - {s};
      }
      return None;
    }

    method GetProxyProvider(pk: Key) returns (res: Result<ProxyProvider>)
      ensures res.Ok? ==> pk in proxyProviders && res.value == proxyProviders[pk]
      ensures res.Err? ==> res.error == Unavailable || (res.error == NotFound && pk !in proxyProviders)
    {
      if * { return Err(Unavailable); }
      if pk !in proxyProviders { return Err(NotFound); }
      return Ok(proxyProviders[pk]);
    }

    method GetOAuth2Provider(pk: Key) returns (res: Result<OAuth2Provider>)
      ensures res.Ok? ==> pk in oauth2Providers && res.value == oauth2Providers[pk]
      ensures res.Err? ==> res.error == Unavailable || (res.error == NotFound && pk !in oauth2Providers)
    {
      if * { return Err(Unavailable); }
      if pk !in oauth2Providers { return Err(NotFound); }
      return Ok(oauth2Providers[pk]);
    }

    /** The pks of the Proxy Providers with a name. */
    method FindProxyProvidersByName(name: string) returns (res: Result<seq<Key>>)
      ensures res.Ok? ==> Elements(res.value) == set k | k in proxyProviders && proxyProviders[k].name == name
      ensures res.Err? ==> res.error == Unavailable
    {
      if * { return Err(Unavailable); }
      var found: seq<Key> := [];
      var rest := proxyProviders.Keys;
      while rest != {}
        invariant rest <= proxyProviders.Keys
        invariant Elements(found) == set k | k in proxyProviders && k !in rest && proxyProviders[k].name == name
        decreases rest
      {
        var pk :| pk in rest;
        ghost var before := found;
        if proxyProviders[pk].name == name {
          found := found + [pk];
          assert Elements(found) == Elements(before) + {pk};
        }
        rest := rest - {pk};
      }
      return Ok(found);
    }

    method FindOAuth2ProvidersByName(name: string) returns (res: Result<seq<Key>>)
      ensures res.Ok? ==> Elements(res.value) == set k | k in oauth2Providers && oauth2Providers[k].name == name
      ensures res.Err? ==> res.error == Unavailable
    {
      if * { return Err(Unavailable); }
      var found: seq<Key> := [];
      var rest := oauth2Providers.Keys;
      while rest != {}
        invariant rest <= oauth2Providers.Keys
        invariant Elements(found) == set k | k in oauth2Providers && k !in rest && oauth2Providers[k].name == name
        decreases rest
      {
        var pk :| pk in rest;
        ghost var before := found;
        if oauth2Providers[pk].name == name {
          found := found + [pk];
          assert Elements(found) == Elements(before) + {pk};
        }
        rest := rest - {pk};
      }
      return Ok(found);
    }

    method CreateProxyProvider(request: ProxyProviderRequest) returns (res: Result<ProxyProvider>)
      requires Valid()
      modifies this`proxyProviders, this`sequence, this`history
      ensures Valid()
      ensures res.Ok? ==>
                && ProxyModeAccepted(request.mode, request.internalHost)
                && !ProviderNameTaken(old(proxyProviders), oauth2Providers, request.name, EMPTY)
                && sequence == old(sequence) + 1 && res.value == StoredProxyProvider(request, sequence)
                && proxyProviders == old(proxyProviders)[sequence := res.value]
      ensures res.Err? ==> sequence == old(sequence) && proxyProviders == old(proxyProviders)
      ensures res.Err? ==>
                || res.error == Unavailable
                || (&& res.error == BadRequest
                    && (!ProxyModeAccepted(request.mode, request.internalHost)
                    || ProviderNameTaken(proxyProviders, oauth2Providers, request.name, EMPTY)))
      ensures history == old(history) +
                [Write(CreateProviderCall,
                       CreateVerdict(res, old(ProviderNameTaken(proxyProviders, oauth2Providers, request.name, EMPTY))),
                       bindings, outposts)]
    {
      hide ValidBindings, ValidApplications, ValidLinks, ValidProviders, ValidOutposts, ValidRoles;
      ghost var nameTaken := ProviderNameTaken(proxyProviders, oauth2Providers, request.name, EMPTY);
      if * {
        res := Err(Unavailable);
      } else if !ProxyModeAccepted(request.mode, request.internalHost) {
        res := Err(BadRequest);
      } else if ProviderNameTaken(proxyProviders, oauth2Providers, request.name, EMPTY) {
        res := Err(BadRequest);
      } else {
        SequenceGrows(bindings, applications, proxyProviders, oauth2Providers, roles, grants, sequence);
        AddProxyValid(proxyProviders, oauth2Providers, sequence, StoredProxyProvider(request, sequence + 1));
        sequence := sequence + 1;
        res := Ok(StoredProxyProvider(request, sequence));
        proxyProviders := proxyProviders[sequence := res.value];
        MoreProvidersValid(applications, outposts, old(Providers()), Providers());
      }
      Log(CreateProviderCall, CreateVerdict(res, nameTaken));
    }

    method PatchProxyProvider(pk: Key, patch: PatchedProxyProvider) returns (res: Result<ProxyProvider>)
      requires Valid()
      modifies this`proxyProviders, this`history
      ensures Valid()
      ensures res.Ok? ==>
                && ProxyPatchValid(old(proxyProviders), oauth2Providers, pk, patch)
                && pk in old(proxyProviders) && res.value == ApplyProxyProvider(patch, old(proxyProviders)[pk])
                && proxyProviders == old(proxyProviders)[pk := res.value]
      ensures res.Err? ==> proxyProviders == old(proxyProviders)
      ensures res.Err? ==>
                || res.error == Unavailable
                || (res.error == NotFound && pk !in proxyProviders)
                || (res.error == BadRequest && !ProxyPatchValid(proxyProviders, oauth2Providers, pk, patch))
      ensures history == old(history) + [Write(PatchProviderCall, VerdictOf(res), bindings, outposts)]
    {
      hide ValidBindings, ValidApplications, ValidLinks, ValidProviders, ValidOutposts, ValidRoles;
      if * {
        res := Err(Unavailable);
      } else if pk !in proxyProviders {
        res := Err(NotFound);
      } else if !ProxyModeAccepted(patch.mode, patch.internalHost) {
        res := Err(BadRequest);
      } else if patch.name.Some? && ProviderNameTaken(proxyProviders, oauth2Providers, patch.name.value, pk) {
        res := Err(BadRequest);
      } else {
        Fresh(bindings, applications, proxyProviders, oauth2Providers, sequence);
        res := Ok(ApplyProxyProvider(patch, proxyProviders[pk]));
        RenameProxyValid(proxyProviders, oauth2Providers, sequence, res.value);
        proxyProviders := proxyProviders[pk := res.value];
        assert Providers() == old(Providers());
      }
      Log(PatchProviderCall, VerdictOf(res));
    }

    method CreateOAuth2Provider(request: OAuth2ProviderRequest) returns (res: Result<OAuth2Provider>)
      requires Valid()
      modifies this`oauth2Providers, this`sequence, this`history
      ensures Valid()
      ensures res.Ok? ==>
                && !ProviderNameTaken(proxyProviders, old(oauth2Providers), request.name, EMPTY)
                && (res.value.clientId.Some? && !ClientIdTaken(old(oauth2Providers), res.value.clientId.value, EMPTY))
                && sequence == old(sequence) + 1
                && (exists id, secret :: res.value == StoredOAuth2Provider(request, sequence, id, secret))
                && oauth2Providers == old(oauth2Providers)[sequence := res.value]
      ensures res.Err? ==> sequence == old(sequence) && oauth2Providers == old(oauth2Providers)
      ensures res.Err? ==>
                || res.error == Unavailable
                || (&& res.error == BadRequest
                    && (|| ProviderNameTaken(proxyProviders, oauth2Providers, request.name, EMPTY)
                        || exists id ::
                             ClientIdTaken(oauth2Providers, id, EMPTY)
                               && (request.clientId.Some? ==> request.clientId == Some(id))))
      ensures history == old(history) +
                [Write(CreateProviderCall,
                       CreateVerdict(res, old(ProviderNameTaken(proxyProviders, oauth2Providers, request.name, EMPTY))),
                       bindings, outposts)]
    {
      hide ValidBindings, ValidApplications, ValidLinks, ValidProviders, ValidOutposts, ValidRoles;
      var randomId: string, randomSecret: string := *, *;
      var clientId := if request.clientId.Some? then request.clientId.value else randomId;
      ghost var nameTaken := ProviderNameTaken(proxyProviders, oauth2Providers, request.name, EMPTY);
      if * {
        res := Err(Unavailable);
      } else if ProviderNameTaken(proxyProviders, oauth2Providers, request.name, EMPTY) {
        res := Err(BadRequest);
      } else if ClientIdTaken(oauth2Providers, clientId, EMPTY) {
        res := Err(BadRequest);
      } else {
        SequenceGrows(bindings, applications, proxyProviders, oauth2Providers, roles, grants, sequence);
        AddOAuth2Valid(proxyProviders, oauth2Providers, sequence,
                       StoredOAuth2Provider(request, sequence + 1, randomId, randomSecret));
        sequence := sequence + 1;
        res := Ok(StoredOAuth2Provider(request, sequence, randomId, randomSecret));
        oauth2Providers := oauth2Providers[sequence := res.value];
        MoreProvidersValid(applications, outposts, old(Providers()), Providers());
      }
      Log(CreateProviderCall, CreateVerdict(res, nameTaken));
    }

    method PatchOAuth2Provider(pk: Key, patch: PatchedOAuth2Provider) returns (res: Result<OAuth2Provider>)
      requires Valid()
      modifies this`oauth2Providers, this`history
      ensures Valid()
      ensures res.Ok? ==>
                && (patch.name.Some? ==> !ProviderNameTaken(proxyProviders, old(oauth2Providers), patch.name.value, pk))
                && (patch.clientId.Some? ==> !ClientIdTaken(old(oauth2Providers), patch.clientId.value, pk))
                && pk in old(oauth2Providers) && res.value == ApplyOAuth2Provider(patch, old(oauth2Providers)[pk])
                && oauth2Providers == old(oauth2Providers)[pk := res.value]
      ensures res.Err? ==> oauth2Providers == old(oauth2Providers)
      ensures res.Err? ==>
                || res.error == Unavailable
                || (res.error == NotFound && pk !in oauth2Providers)
                || (&& res.error == BadRequest
                    && (|| (patch.name.Some? && ProviderNameTaken(proxyProviders, oauth2Providers, patch.name.value, pk))
                        || (patch.clientId.Some? && ClientIdTaken(oauth2Providers, patch.clientId.value, pk))))
      ensures history == old(history) + [Write(PatchProviderCall, VerdictOf(res), bindings, outposts)]
    {
      hide ValidBindings, ValidApplications, ValidLinks, ValidProviders, ValidOutposts, ValidRoles;
      if * {
        res := Err(Unavailable);
      } else if pk !in oauth2Providers {
        res := Err(NotFound);
      } else if patch.name.Some? && ProviderNameTaken(proxyProviders, oauth2Providers, patch.name.value, pk) {
        res := Err(BadRequest);
      } else if patch.clientId.Some? && ClientIdTaken(oauth2Providers, patch.clientId.value, pk) {
        res := Err(BadRequest);
      } else {
        Fresh(bindings, applications, proxyProviders, oauth2Providers, sequence);
        res := Ok(ApplyOAuth2Provider(patch, oauth2Providers[pk]));
        RenameOAuth2Valid(proxyProviders, oauth2Providers, sequence, res.value);
        oauth2Providers := oauth2Providers[pk := res.value];
        assert Providers() == old(Providers());
      }
      Log(PatchProviderCall, VerdictOf(res));
    }

    /** Deletes a Provider of one type and detaches it from Applications and Outposts. */
    method DeleteProvider(pk: Key, proxy: bool) returns (res: Result<()>)
      requires Valid()
      modifies this`proxyProviders, this`oauth2Providers, this`applications, this`outposts, this`history
      ensures Valid()
      ensures res.Ok? ==>
                && pk in (if proxy then old(proxyProviders.Keys) else old(oauth2Providers.Keys))
                && proxyProviders == (if proxy then old(proxyProviders) - {pk} else old(proxyProviders))
                && oauth2Providers == (if proxy then old(oauth2Providers) else old(oauth2Providers) - {pk})
                && applications == DetachProvider(old(applications), pk)
                && outposts == DropFromOutposts(old(outposts), pk)
      ensures res.Err? ==>
                && proxyProviders == old(proxyProviders) && oauth2Providers == old(oauth2Providers)
                && applications == old(applications) && outposts == old(outposts)
      ensures res.Err? ==>
                || res.error == Unavailable
                || (res.error == NotFound && pk !in (if proxy then proxyProviders.Keys else oauth2Providers.Keys))
      ensures history == old(history) + [Write(DeleteProviderCall, VerdictOf(res), bindings, outposts)]
    {
      hide ValidBindings, ValidApplications, ValidLinks, ValidProviders, ValidOutposts, ValidRoles, DetachProvider,
        DropFromOutposts;
      if * {
        res := Err(Unavailable);
      } else if pk !in (if proxy then proxyProviders.Keys else oauth2Providers.Keys) {
        res := Err(NotFound);
      } else {
        Fresh(bindings, applications, proxyProviders, oauth2Providers, sequence);
        ProvidersShrinkValid(proxyProviders, oauth2Providers, sequence, pk);
        if proxy {
          proxyProviders := proxyProviders - {pk};
        } else {
          oauth2Providers := oauth2Providers - {pk};
        }
        KeysWithout(old(proxyProviders), old(oauth2Providers), pk);
        assert Providers() == old(Providers()) - {pk};
        DetachValid(applications, sequence, old(Providers()), pk);
        DropValid(outposts, old(Providers()), pk);
        applications := DetachProvider(applications, pk);
        outposts := DropFromOutposts(outposts, pk);
        res := Ok(());
      }
      Log(DeleteProviderCall, VerdictOf(res));
    }

    // ---------- PolicyBindings ----------

    /** Every Binding of a target, by ascending order. */
    method ListPolicyBindings(target: Key) returns (res: Result<seq<Binding>>)
      requires ValidBindings(bindings, sequence)
      ensures res.Err? ==> res.error == Unavailable
      ensures res.Ok? ==>
                && (forall b :: b in res.value <==> b.pk in bindings && bindings[b.pk] == b && b.target == target)
                && (forall i, j :: 0 <= i < j < |res.value| ==> res.value[i].pk != res.value[j].pk)
                && (forall i, j :: 0 <= i < j < |res.value| ==> res.value[i].order <= res.value[j].order)
    {
      if * { return Err(Unavailable); }
      var list: seq<Binding> := [];
      var rest := bindings.Keys;
      while rest != {}
        invariant rest <= bindings.Keys
        invariant forall b :: b in Elements(list) <==>
                    b.pk in bindings && bindings[b.pk] == b && b.target == target && b.pk !in rest
        invariant Ascending(list)
        decreases rest
      {
        var pk :| pk in rest;
        if bindings[pk].target == target {
          list := InsertByOrder(list, bindings[pk]);
        }
        rest := rest - {pk};
      }
      return Ok(list);
    }

    method CreatePolicyBinding(request: BindingRequest) returns (res: Result<Binding>)
      requires Valid() && -0x8000_0000 <= request.order <= MAX_INT32
      modifies this`bindings, this`sequence, this`history
      ensures Valid()
      ensures res.Ok? ==>
                && OneSubject(request.policy, request.group, request.user)
                && !OrderTaken(old(bindings), request.policy, request.target, request.order, EMPTY)
                && sequence == old(sequence) + 1 && res.value == StoredBinding(request, sequence)
                && bindings == old(bindings)[sequence := res.value]
      ensures res.Err? ==> sequence == old(sequence) && bindings == old(bindings)
      ensures res.Err? ==>
                || res.error == Unavailable
                || (&& res.error == BadRequest
                    && (|| !OneSubject(request.policy, request.group, request.user)
                    || OrderTaken(bindings, request.policy, request.target, request.order, EMPTY)))
      ensures history == old(history) + [Write(CreateBindingCall, VerdictOf(res), bindings, outposts)]
    {
      hide ValidBindings, ValidApplications, ValidLinks, ValidProviders, ValidOutposts, ValidRoles;
      if * {
        res := Err(Unavailable);
      } else if !OneSubject(request.policy, request.group, request.user) {
        res := Err(BadRequest);
      } else if OrderTaken(bindings, request.policy, request.target, request.order, EMPTY) {
        res := Err(BadRequest);
      } else {
        SequenceGrows(bindings, applications, proxyProviders, oauth2Providers, roles, grants, sequence);
        Fresh(bindings, applications, proxyProviders, oauth2Providers, sequence);
        StoreBindingValid(bindings, sequence, StoredBinding(request, sequence + 1));
        sequence := sequence + 1;
        res := Ok(StoredBinding(request, sequence));
        bindings := bindings[sequence := res.value];
      }
      Log(CreateBindingCall, VerdictOf(res));
    }

    /** The serializer checks the body alone, but the stored value of an omitted field is kept. */
    method PatchPolicyBinding(uuid: Key, patch: PatchedBinding) returns (res: Result<Binding>)
      requires Valid() && (patch.order.Some? ==> -0x8000_0000 <= patch.order.value <= MAX_INT32)
      modifies this`bindings, this`history
      ensures Valid()
      ensures res.Ok? ==>
                && patch.target.Some? && OneSubject(patch.policy, patch.group, patch.user)
                && uuid in old(bindings) && res.value == ApplyBinding(patch, old(bindings)[uuid])
                && !OrderTaken(old(bindings), res.value.policy, res.value.target, res.value.order, uuid)
                && bindings == old(bindings)[uuid := res.value]
      ensures res.Err? ==> bindings == old(bindings)
      ensures res.Err? ==>
                || res.error == Unavailable
                || (res.error == NotFound && uuid !in bindings)
                || (res.error == ServerError && patch.target.None?)
                || (&& res.error == BadRequest && uuid in bindings && patch.target.Some?
                    && (|| !OneSubject(patch.policy, patch.group, patch.user)
                        || OrderTaken(bindings, PatchNullable(patch.policy, bindings[uuid].policy), patch.target.value,
                                      PatchValue(patch.order, bindings[uuid].order), uuid)))
      ensures history == old(history) + [Write(PatchBindingCall, VerdictOf(res), bindings, outposts)]
    {
      hide ValidBindings, ValidApplications, ValidLinks, ValidProviders, ValidOutposts, ValidRoles;
      if * {
        res := Err(Unavailable);
      } else if uuid !in bindings {
        res := Err(NotFound);
      } else if patch.target.None? {
        res := Err(ServerError);
      } else if !OneSubject(patch.policy, patch.group, patch.user) {
        res := Err(BadRequest);
      } else if OrderTaken(bindings, PatchNullable(patch.policy, bindings[uuid].policy), patch.target.value,
                           PatchValue(patch.order, bindings[uuid].order), uuid) {
        res := Err(BadRequest);
      } else {
        Fresh(bindings, applications, proxyProviders, oauth2Providers, sequence);
        res := Ok(ApplyBinding(patch, bindings[uuid]));
        StoreBindingValid(bindings, sequence, res.value);
        bindings := bindings[uuid := res.value];
      }
      Log(PatchBindingCall, VerdictOf(res));
    }

    method DeletePolicyBinding(uuid: Key) returns (res: Result<()>)
      requires Valid()
      modifies this`bindings, this`history
      ensures Valid()
      ensures res.Ok? ==> uuid in old(bindings)
      ensures bindings == if res.Ok? then old(bindings) - {uuid} else old(bindings)
      ensures res.Err? ==> res.error == Unavailable || (res.error == NotFound && uuid !in bindings)
      ensures history == old(history) + [Write(DeleteBindingCall, VerdictOf(res), bindings, outposts)]
    {
      hide ValidBindings, ValidApplications, ValidLinks, ValidProviders, ValidOutposts, ValidRoles;
      if * {
        res := Err(Unavailable);
      } else if uuid !in bindings {
        res := Err(NotFound);
      } else {
        SubmapValid(bindings, bindings - {uuid}, sequence);
        bindings := bindings - {uuid};
        res := Ok(());
      }
      Log(DeleteBindingCall, VerdictOf(res));
    }

    // ---------- Outposts ----------

    method GetOutpost(uuid: Key) returns (res: Result<Outpost>)
      ensures res.Ok? ==> uuid in outposts && res.value == outposts[uuid]
      ensures res.Err? ==> res.error == Unavailable || (res.error == NotFound && uuid !in outposts)
    {
      if * { return Err(Unavailable); }
      if uuid !in outposts { return Err(NotFound); }
      return Ok(outposts[uuid]);
    }

    method FindOutpostsByName(name: string) returns (res: Result<seq<Outpost>>)
      requires ValidOutposts(outposts, Providers())
      ensures res.Ok? ==> forall o :: o in res.value ==> exists k :: k in outposts && outposts[k] == o && o.name == name
      ensures res.Ok? ==> forall k :: k in outposts && outposts[k].name == name ==> outposts[k] in res.value
      ensures res.Ok? ==> |res.value| == |Elements(res.value)|
      ensures res.Err? ==> res.error == Unavailable
    {
      if * { return Err(Unavailable); }
      var found: seq<Outpost> := [];
      var rest := outposts.Keys;
      while rest != {}
        invariant rest <= outposts.Keys
        invariant forall o :: o in found ==> o.pk in outposts && o.pk !in rest && outposts[o.pk] == o && o.name == name
        invariant forall k :: k in outposts && k !in rest && outposts[k].name == name ==> outposts[k] in found
        invariant |found| == |Elements(found)|
        decreases rest
      {
        var k :| k in rest;
        ghost var before := found;
        if outposts[k].name == name {
          assert outposts[k] !in Elements(found);
          found := found + [outposts[k]];
          assert Elements(found) == Elements(before) + {outposts[k]};
        }
        rest := rest - {k};
      }
      return Ok(found);
    }

    /** Replaces the whole providers list. */
    method SetOutpostProviders(uuid: Key, providers: seq<Key>) returns (res: Result<Outpost>)
      requires Valid()
      modifies this`outposts, this`history
      ensures Valid()
      ensures res.Ok? ==>
                && uuid in old(outposts) && Elements(providers) <= Providers()
                && res.value == old(outposts)[uuid].(providers := providers)
                && outposts == old(outposts)[uuid := res.value]
      ensures res.Err? ==> outposts == old(outposts)
      ensures res.Err? ==>
                || res.error == Unavailable
                || (res.error == NotFound && uuid !in outposts)
                || (res.error == BadRequest && !(Elements(providers) <= Providers()))
      ensures history == old(history) + [Write(SetOutpostCall, VerdictOf(res), bindings, outposts)]
    {
      hide ValidBindings, ValidApplications, ValidLinks, ValidProviders, ValidOutposts, ValidRoles;
      if * {
        res := Err(Unavailable);
      } else if uuid !in outposts {
        res := Err(NotFound);
      } else if !(Elements(providers) <= Providers()) {
        res := Err(BadRequest);
      } else {
        SetProvidersValid(outposts, Providers(), uuid, providers);
        res := Ok(outposts[uuid].(providers := providers));
        outposts := outposts[uuid := res.value];
      }
      Log(SetOutpostCall, VerdictOf(res));
    }

    // ---------- roles and object permissions ----------

    method FindRolesByName(name: string) returns (res: Result<seq<Key>>)
      ensures res.Ok? ==> Elements(res.value) == (set k | k in roles && roles[k] == name) && |res.value| == |Elements(res.value)|
      ensures res.Err? ==> res.error == Unavailable
    {
      if * { return Err(Unavailable); }
      var found: seq<Key> := [];
      var rest := roles.Keys;
      while rest != {}
        invariant rest <= roles.Keys
        invariant Elements(found) == set k | k in roles && k !in rest && roles[k] == name
        invariant |found| == |Elements(found)|
        decreases rest
      {
        var k :| k in rest;
        ghost var before := found;
        if roles[k] == name {
          assert k !in Elements(found);
          found := found + [k];
          assert Elements(found) == Elements(before) + {k};
        }
        rest := rest - {k};
      }
      return Ok(found);
    }

    method CreateRole(name: string) returns (res: Result<Key>)
      requires Valid()
      modifies this`roles, this`sequence, this`history
      ensures Valid()
      ensures res.Ok? ==>
                && sequence == old(sequence) + 1 && res.value == sequence
                && name !in old(roles.Values) && roles == old(roles)[sequence := name]
      ensures res.Err? ==> sequence == old(sequence) && roles == old(roles)
      ensures res.Err? ==> res.error == Unavailable || (res.error == BadRequest && name in roles.Values)
      ensures history == old(history) + [Write(CreateRoleCall, VerdictOf(res), bindings, outposts)]
    {
      hide ValidBindings, ValidApplications, ValidLinks, ValidProviders, ValidOutposts, ValidRoles;
      if * {
        res := Err(Unavailable);
      } else if name in roles.Values {
        res := Err(BadRequest);
      } else {
        SequenceGrows(bindings, applications, proxyProviders, oauth2Providers, roles, grants, sequence);
        AddRoleValid(roles, grants, sequence, name);
        sequence := sequence + 1;
        roles := roles[sequence := name];
        res := Ok(sequence);
      }
      Log(CreateRoleCall, VerdictOf(res));
    }

    predicate ObjectExists(obj: Object)
      reads this`applications, this`proxyProviders, this`oauth2Providers, this`bindings
    {
      match obj.model
      case ApplicationModel => exists s :: s in applications && applications[s].pk == obj.pk
      case ProxyProviderModel => obj.pk in proxyProviders
      case OAuth2ProviderModel => obj.pk in oauth2Providers
      case BindingModel => obj.pk in bindings
    }

    /** The object is missing, and so is every object that will have its pk. */
    predicate Gone(obj: Object)
      reads this`applications, this`proxyProviders, this`oauth2Providers, this`bindings, this`sequence
    {
      !ObjectExists(obj) && obj.pk <= sequence
    }

    twostate predicate GoneStay()
      reads this
    {
      forall o :: old(Gone(o)) ==> Gone(o)
    }

    twostate predicate SameObjects()
      reads this
    {
      && applications == old(applications) && proxyProviders == old(proxyProviders) && oauth2Providers == old(oauth2Providers)
      && bindings == old(bindings) && outposts == old(outposts)
    }

    method AssignObjectPermission(role: Key, obj: Object) returns (res: Result<()>)
      requires Valid()
      modifies this`grants, this`sequence, this`history
      ensures Valid()
      ensures res.Ok? ==> role in roles && ObjectExists(obj)
      ensures grants == if res.Ok? then old(grants) + {Grant(role, obj)} else old(grants)
      ensures sequence == old(sequence) + if grants == old(grants) then 0 else 1
      ensures res.Err? ==>
                || res.error == Unavailable
                || (res.error == NotFound && role !in roles)
                || (res.error == BadRequest && role in roles && !ObjectExists(obj))
      ensures history == old(history) + [Write(AssignCall, VerdictOf(res), bindings, outposts)]
    {
      hide ValidBindings, ValidApplications, ValidLinks, ValidProviders, ValidOutposts, ValidRoles;
      if * {
        res := Err(Unavailable);
      } else if role !in roles {
        res := Err(NotFound);
      } else if !ObjectExists(obj) {
        res := Err(BadRequest);
      } else if Grant(role, obj) in grants {
        assert grants + {Grant(role, obj)} == grants;
        res := Ok(());
      } else {
        ExistingWasIssued(this, obj);
        GrantValid(roles, grants, sequence, role, obj);
        SequenceGrows(bindings, applications, proxyProviders, oauth2Providers, roles, grants + {Grant(role, obj)}, sequence);
        grants, sequence := grants + {Grant(role, obj)}, sequence + 1;
        res := Ok(());
      }
      Log(AssignCall, VerdictOf(res));
    }

    method UnassignObjectPermission(role: Key, obj: Object) returns (res: Result<()>)
      requires Valid()
      modifies this`grants, this`history
      ensures Valid()
      ensures res.Ok? ==> role in roles
      ensures grants == if res.Ok? then old(grants) - {Grant(role, obj)} else old(grants)
      ensures res.Err? ==> res.error == Unavailable || (res.error == NotFound && role !in roles)
      ensures history == old(history) + [Write(UnassignCall, VerdictOf(res), bindings, outposts)]
    {
      hide ValidBindings, ValidApplications, ValidLinks, ValidProviders, ValidOutposts, ValidRoles;
      if * {
        res := Err(Unavailable);
      } else if role !in roles {
        res := Err(NotFound);
      } else {
        GrantValid(roles, grants, sequence, role, obj);
        grants := grants - {Grant(role, obj)};
        res := Ok(());
      }
      Log(UnassignCall, VerdictOf(res));
    }

    method ListRoleObjectPermissions(role: Key) returns (res: Result<set<Object>>)
      ensures res.Ok? ==> res.value == set g | g in grants && g.role == role :: g.obj
      ensures res.Err? ==> res.error == Unavailable
    {
      if * { return Err(Unavailable); }
      return Ok(set g | g in grants && g.role == role :: g.obj);
    }

    /** The roles with a permission on the object; the permissions of each role are not narrowed to the object. */
    method ListObjectPermissionRoles(obj: Object) returns (res: Result<seq<(Key, set<Object>)>>)
      ensures res.Ok? ==> forall a :: a in res.value ==> a.1 == set g | g in grants && g.role == a.0 :: g.obj
      ensures res.Ok? ==> forall r :: (r in roles && Grant(r, obj) in grants) <==> exists a :: a in res.value && a.0 == r
      ensures res.Err? ==> res.error == Unavailable
    {
      if * { return Err(Unavailable); }
      var results: seq<(Key, set<Object>)> := [];
      var rest := roles.Keys;
      while rest != {}
        invariant rest <= roles.Keys
        invariant forall a :: a in results ==> a.1 == set g | g in grants && g.role == a.0 :: g.obj
        invariant forall r :: r in roles && r !in rest && Grant(r, obj) in grants ==> exists a :: a in results && a.0 == r
        invariant forall a :: a in results ==> a.0 in roles && Grant(a.0, obj) in grants
        decreases rest
      {
        var r :| r in rest;
        ghost var before := results;
        if Grant(r, obj) in grants {
          var entry := (r, set g | g in grants && g.role == r :: g.obj);
          results := results + [entry];
          assert entry in results;
        }
        assert forall a :: a in before ==> a in results;
        rest := rest - {r};
      }
      return Ok(results);
    }
  }

  lemma ExistingWasIssued(server: Authentik, obj: Object)
    requires server.Valid() && server.ObjectExists(obj)
    ensures obj.pk <= server.sequence
  {}
}
