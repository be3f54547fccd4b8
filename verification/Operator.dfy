/**
 The reconcile of one resource of the cluster, from the conflict check and the resolution of the references to the status
 (internal/controller/authentikapplication_controller.go).
 */
module Operator {
  import opened Base
  import opened Api
  import opened Matching
  import opened Server
  import opened Ownership
  import opened Desired
  import opened Specified
  import opened Resources
  import opened BindingHistory
  import opened BindingSteps
  import opened Bindings
  import opened BindingRuns
  import opened Providers
  import opened Applications
  import opened Frames
  import opened Reconciler
  import opened ReconcileRuns
  import References = Resolver
  import Slugs = Conflict

  /** What the resolved references ask for. A spec without a Provider has no references for it. */
  function GoalOf(spec: Spec, r: References.Resolution, defaults: CreationDefaults): Goal {
    Goal(
      spec,
      Resolved(
        if r.flows.Some? then r.flows.value else Flows(EMPTY, EMPTY, None),
        if r.proxy.Some? then r.proxy.value else ProxyReferences(None, EMPTY),
        if r.oauth2.Some? then r.oauth2.value else OAuth2References(None, None, None, None),
        defaults, r.rules))
  }

  /** The candidate is the resource with the spec and the status. */
  predicate Represents(candidate: Slugs.Candidate, spec: Spec, status: Status) {
    candidate.slug == spec.slug && candidate.applicationPk == status.applicationPk
  }

  datatype Outcome =
    | Finished(res: Result<()>)
    | Unresolved(failures: seq<References.Failure>)

  /** Nothing was requested that writes, and an error is a failed call or a reason to stop that is none of the objects' fault. */
  predicate Quiet(outcome: Outcome, now: seq<Write>, before: seq<Write>) {
    && now == before
    && (outcome.Finished? && outcome.res.Err? ==> outcome.res.error in {Unavailable, Stop(Conflict), Stop(UnmanagedBindings)})
  }

  ghost predicate Winning(resources: map<Slugs.Uid, Slugs.Candidate>, uid: Slugs.Uid)
    requires uid in resources
  {
    Slugs.Wins(Slugs.Live(resources, resources[uid].slug), resources[uid])
  }

  /** Nothing but the adoption diff changed. */
  predicate SameStatus(before: Status, after: Status) {
    after.(adoptionDiff := []) == before.(adoptionDiff := [])
  }

  /** The references of a spec have one resolution; another one differs in the credentials, which are read from the Secret. */
  lemma OneResolution(dir: References.Directory, data: Option<map<string, string>>, spec: Spec, defaults: CreationDefaults,
                      r: References.Resolution, again: References.Resolution)
    requires References.SpecResolved(dir, spec, r) && References.SpecResolved(dir.(secret := data), spec, again)
    ensures Reread(GoalOf(spec, r, defaults), data) == Some(GoalOf(spec, again, defaults))
  {
    forall i | 0 <= i < |r.rules| ensures r.rules[i] == again.rules[i] {
      OneRule(dir, data, spec.rules[i], r.rules[i], again.rules[i]);
    }
    assert r.rules == again.rules;
    if r.oauth2.Some? {
      OneOAuth2(dir, data, spec.provider.value.kind, r.oauth2.value, again.oauth2.value);
    }
    forall kind, ref ensures SameMatches(dir, data, kind, ref) {}
    if r.flows.Some? {
      var flows := spec.provider.value.flows;
      assert SameMatches(dir, data, References.FlowKind, flows.authorization)
             && SameMatches(dir, data, References.FlowKind, flows.invalidation);
    }
  }

  /** The Secret is not among what object references point to. */
  predicate SameMatches(dir: References.Directory, data: Option<map<string, string>>, kind: References.Kind, ref: Reference) {
    References.ObjectMatches(dir, kind, ref) == References.ObjectMatches(dir.(secret := data), kind, ref)
  }

  lemma OneRule(dir: References.Directory, data: Option<map<string, string>>, spec: RuleSpec, rule: Rule, again: Rule)
    requires References.RuleResolved(dir, spec, rule) && References.RuleResolved(dir.(secret := data), spec, again)
    ensures rule == again
  {
    match spec.subject
    case GroupRule(group) =>
      assert SameMatches(dir, data, References.GroupKind, group);
      assert rule.group.value in {again.group.value};
    case UserRule(user) =>
      assert References.UserMatches(dir, user) == References.UserMatches(dir.(secret := data), user);
      assert rule.user.value in {again.user.value};
    case PolicyRule(policy) =>
      assert SameMatches(dir, data, References.PolicyKind, policy);
      assert rule.policy.value in {again.policy.value};
  }

  lemma OneOAuth2(dir: References.Directory, data: Option<map<string, string>>, spec: ProviderKindSpec, r: OAuth2References,
                  again: OAuth2References)
    requires spec.OAuth2Spec? && References.OAuth2Resolved(dir, spec, r)
             && References.OAuth2Resolved(dir.(secret := data), spec, again)
    ensures again == r.(credentials := again.credentials)
  {
    forall kind, ref ensures SameMatches(dir, data, kind, ref) {}
    OneOptional(dir, data, spec.signingKey, r.signingKey, again.signingKey);
    OneOptional(dir, data, spec.encryptionKey, r.encryptionKey, again.encryptionKey);
    if r.scopes.Some? {
      forall i | 0 <= i < |r.scopes.value| ensures r.scopes.value[i] == again.scopes.value[i] {
        assert SameMatches(dir, data, References.ScopeMappingKind, spec.scopes.value[i]);
        assert r.scopes.value[i] in {again.scopes.value[i]};
      }
      assert r.scopes.value == again.scopes.value;
    }
  }

  lemma OneOptional(dir: References.Directory, data: Option<map<string, string>>, ref: Option<Reference>, pk: Option<Key>,
                    again: Option<Key>)
    requires References.IdentifiesOptional(dir, References.KeyPairKind, ref, pk)
    requires References.IdentifiesOptional(dir.(secret := data), References.KeyPairKind, ref, again)
    ensures pk == again
  {
    if ref.Some? {
      assert SameMatches(dir, data, References.KeyPairKind, ref.value);
      assert pk.value in {again.value};
    }
  }

  /** The goal is valid, and reading the Secret again gives the same one. */
  lemma ResolvedGoal(dir: References.Directory, spec: Spec, defaults: CreationDefaults, r: References.Resolution)
    requires References.SpecResolved(dir, spec, r) && ValidRules(r.rules)
    ensures Reread(GoalOf(spec, r, defaults), dir.secret) == Some(GoalOf(spec, r, defaults)) && GoalOf(spec, r, defaults).Valid()
  {
    assert dir.(secret := dir.secret) == dir;
    OneResolution(dir, dir.secret, spec, defaults, r, r);
  }

  /** finish, for references that could not be resolved. */
  method FinishUnresolved(s: Resource)
    modifies s
    ensures SameStatus(old(s.status), s.status) && (s.base == s.status || s.base == old(s.base))
  {
    s.status := s.status.(adoptionDiff := []);
    var _ := s.PatchStatus();
  }

  /** What a reconcile starts from. */
  datatype Snapshot = Snapshot(scene: Scene, catalog: Catalog, managed: set<Key>, secret: Option<map<string, string>>,
                               requests: nat)

  ghost function Taken(markers: MarkerCache, s: Resource, secret: CredentialsSecret): Snapshot
    reads s`base, secret, markers.marker.server
  {
    var server := markers.marker.server;
    Snapshot(SceneOf(markers.marker, s.base, s.base), CatalogOf(server), ManagedKeys(s.base.bindingUuids, markers.marker.Marked()),
             secret.data, |server.history|)
  }

  /** What a reconcile with a goal promises of the objects in authentik. */
  ghost predicate Brought(goal: Goal, res: Result<()>, markers: MarkerCache, s: Resource, secret: CredentialsSecret,
                          before: Snapshot)
    reads markers.marker.server, s, secret
  {
    var server := markers.marker.server;
    && goal.Valid()
    && before.requests <= |server.history|
    && Kept(goal.spec.slug, goal.resolved.proxy.outpost, SearchFor(goal, before.catalog, before.scene.base.providerPk).selection,
            before.scene, SceneOf(markers.marker, s.base, s.base))
    && Served(goal, server.applications, before.scene.bindings, before.managed, server.bindings,
              ManagedKeys(s.base.bindingUuids, markers.marker.Marked()), server.history, before.requests)
    && OnlyAsAsked(goal, before.scene.proxies, before.scene.oauth2s, server.proxyProviders, server.oauth2Providers)
    && SlugAsAsked(goal.spec, before.scene.applications, server.applications)
    && (!goal.Exports() ==> secret.data == before.secret)
    && (res.Ok? || res == Err(Stop(UnmanagedBindings)) ==>
          UnmanagedReported(goal.spec, server.applications, server.bindings, s.status, res.Err?))
    && (res.Ok? ==>
          && s.base == s.status && Done(goal, server, markers.marker.Marked(), s.base)
          && Exported(goal, server.oauth2Providers, s.base.providerPk, before.secret, secret.data)
          && Relocated(goal, before.scene.outposts, server.outposts, before.scene.base.outpostUuid, s.base.providerPk))
  }

  /** The reconcile with the goal, once the resource won and its references are resolved. */
  method Bring(markers: MarkerCache, s: Resource, secret: CredentialsSecret, goal: Goal) returns (res: Result<()>)
    requires markers.marker.server.Valid() && markers.Exact() && goal.Valid() && AllSingle(markers.marker.server.bindings)
    modifies s, secret, markers, markers.marker, markers.clock, markers.marker.server
    ensures markers.marker.server.Valid() && markers.Exact() && AllSingle(markers.marker.server.bindings)
    ensures old(markers.marker.server.history) <= markers.marker.server.history
    ensures Brought(goal, res, markers, s, secret, old(Taken(markers, s, secret)))
    ensures res != Err(Stop(Conflict))
    ensures old(Done(goal, markers.marker.server, markers.marker.Marked(), s.base)) ==>
              Quiet(Finished(res), markers.marker.server.history, old(markers.marker.server.history))
  {
    hide ValidBindings, ValidApplications, ValidLinks, ValidProviders, ValidOutposts, ValidRoles, MarkedBy, Done, Recovers,
      SearchFor, AcceptedCalls, NameRefused, AllSingle, NotAdopted, Served, ValidRules, MarkerCache.Exact, Kept, Exported,
      Relocated, CatalogOf, Stuck, ManagedKeys, OnlyMarkerWrites, Goal.Exports, Goal.Handler, Goal.Name, Goal.Valid, OnlyAsAsked,
      SlugAsAsked, UnmanagedReported;
    res := Reconciler.Reconcile(markers, s, secret, goal, true);
  }

  // ---------- what the spec asks for, with its references resolved ----------

  /** Everything that the spec asks for is in place, for the objects that its references were resolved to. */
  ghost predicate InPlaceFor(spec: Spec, r: References.Resolution, server: Authentik, marked: set<Object>, status: Status)
    reads server`applications, server`bindings, server`proxyProviders, server`oauth2Providers, server`outposts
  {
    && (match spec.provider
        case None => true
        case Some(provider) =>
          && r.flows.Some?
          && if provider.kind.ProxySpec? then
               r.proxy.Some? && ProxyInPlace(provider, r.flows.value, r.proxy.value, server.proxyProviders, server.outposts, marked,
                                             status)
             else
               r.oauth2.Some? && OAuth2InPlace(provider, r.flows.value, r.oauth2.value, server.oauth2Providers, marked, status))
    && ApplicationInPlace(spec, server.applications, marked, status)
    && BindingsInPlace(spec, r.rules, server.applications, server.bindings, marked, status) && |r.rules| == |spec.rules|
  }

  /** The pk is what an optional reference identifies. */
  predicate PointsToOptional(dir: References.Directory, kind: References.Kind, ref: Option<Reference>, pk: Nullable<Key>) {
    ref.Some? ==> pk.Value? && References.Identifies(dir, kind, ref.value, pk.value)
  }

  predicate ProxyPointsTo(dir: References.Directory, spec: ProviderSpec, provider: ProxyProvider, outpostUuid: Option<Key>)
    requires spec.kind.ProxySpec?
  {
    var outpost := match spec.kind.outpost case Some(ref) => ref case None => ByName("authentik Embedded Outpost");
    && References.Identifies(dir, References.FlowKind, spec.flows.authorization, provider.authorizationFlow)
    && References.Identifies(dir, References.FlowKind, spec.flows.invalidation, provider.invalidationFlow)
    && PointsToOptional(dir, References.FlowKind, spec.flows.authentication, provider.authenticationFlow)
    && PointsToOptional(dir, References.KeyPairKind, spec.kind.certificate, provider.certificate)
    && outpostUuid.Some? && References.Identifies(dir, References.OutpostKind, outpost, outpostUuid.value)
  }

  /** The Provider has the credentials that the spec or its Secret gives; an empty client ID is none. */
  predicate HasGivenCredentials(spec: CredentialsSpec, data: map<string, string>, provider: OAuth2Provider) {
    var idKey := match spec.clientIdKey case Some(key) => key case None => "client-id";
    var secretKey := match spec.clientSecretKey case Some(key) => key case None => "client-secret";
    && secretKey in data && provider.clientSecret == Some(data[secretKey])
    && match spec.clientId
       case Some(id) => id != "" ==> provider.clientId == Some(id)
       case None => idKey in data && (data[idKey] != "" ==> provider.clientId == Some(data[idKey]))
  }

  predicate OAuth2PointsTo(dir: References.Directory, spec: ProviderSpec, provider: OAuth2Provider)
    requires spec.kind.OAuth2Spec?
  {
    && References.Identifies(dir, References.FlowKind, spec.flows.authorization, provider.authorizationFlow)
    && References.Identifies(dir, References.FlowKind, spec.flows.invalidation, provider.invalidationFlow)
    && PointsToOptional(dir, References.FlowKind, spec.flows.authentication, provider.authenticationFlow)
    && PointsToOptional(dir, References.KeyPairKind, spec.kind.signingKey, provider.signingKey)
    && PointsToOptional(dir, References.KeyPairKind, spec.kind.encryptionKey, provider.encryptionKey)
    && (spec.kind.credentials.Some? && dir.secret.Some? ==>
          HasGivenCredentials(spec.kind.credentials.value, dir.secret.value, provider))
    && (spec.kind.scopes.Some? ==>
          && (forall ref :: ref in spec.kind.scopes.value ==>
                exists pk :: pk in provider.propertyMappings && References.Identifies(dir, References.ScopeMappingKind, ref, pk))
          && (forall pk :: pk in provider.propertyMappings ==>
                exists ref :: ref in spec.kind.scopes.value && References.Identifies(dir, References.ScopeMappingKind, ref, pk)))
  }

  /** The Binding grants or denies what the rule says to the subject that its reference identifies. */
  predicate BindingPointsTo(dir: References.Directory, rule: RuleSpec, binding: Binding) {
    && binding.negate.Some? && (binding.negate.value <==> rule.negate.Some? && rule.negate.value)
    && match rule.subject
       case GroupRule(group) =>
         binding.group.Value? && References.Identifies(dir, References.GroupKind, group, binding.group.value)
       case UserRule(user) => binding.user.Value? && References.UserMatches(dir, user) == {binding.user.value}
       case PolicyRule(policy) =>
         binding.policy.Value? && References.Identifies(dir, References.PolicyKind, policy, binding.policy.value)
  }

  /** What is in place points to the objects that the references of the spec identify. */
  ghost predicate PointsTo(dir: References.Directory, spec: Spec, server: Authentik, status: Status)
    reads server`bindings, server`proxyProviders, server`oauth2Providers
  {
    && (match spec.provider
        case None => true
        case Some(provider) =>
          && status.providerPk.Some?
          && var pk := status.providerPk.value;
             if provider.kind.ProxySpec? then
               pk in server.proxyProviders && ProxyPointsTo(dir, provider, server.proxyProviders[pk], status.outpostUuid)
             else pk in server.oauth2Providers && OAuth2PointsTo(dir, provider, server.oauth2Providers[pk]))
    && |status.bindingUuids| == |spec.rules|
    && (forall i :: 0 <= i < |spec.rules| ==>
          && status.bindingUuids[i] in server.bindings
          && BindingPointsTo(dir, spec.rules[i], server.bindings[status.bindingUuids[i]]))
  }

  lemma InPlacePointsTo(dir: References.Directory, spec: Spec, r: References.Resolution, server: Authentik, marked: set<Object>,
                        status: Status)
    requires References.SpecResolved(dir, spec, r) && InPlaceFor(spec, r, server, marked, status)
    ensures PointsTo(dir, spec, server, status)
  {
    hide References.Identifies, References.UserMatches, References.CredentialsResolved, HasGivenCredentials, CredentialsAsAsked,
      ApplicationInPlace, Lines, SameRedirects;
    if spec.provider.Some? && spec.provider.value.kind.OAuth2Spec? && spec.provider.value.kind.credentials.Some? {
      CredentialsPointTo(dir, spec.provider.value.kind.credentials.value, r.oauth2.value.credentials.value,
                         server.oauth2Providers[status.providerPk.value]);
    }
    if spec.provider.Some? && spec.provider.value.kind.OAuth2Spec? && spec.provider.value.kind.scopes.Some? {
      ScopesPointTo(dir, spec.provider.value.kind.scopes.value, r.oauth2.value.scopes.value,
                    server.oauth2Providers[status.providerPk.value].propertyMappings);
    }
    forall i | 0 <= i < |spec.rules| ensures BindingPointsTo(dir, spec.rules[i], server.bindings[status.bindingUuids[i]]) {
      RulePointsTo(dir, spec.rules[i], r.rules[i], server.applications[spec.slug].pbmUuid, server.bindings[status.bindingUuids[i]]);
    }
  }

  lemma CredentialsPointTo(dir: References.Directory, spec: CredentialsSpec, credentials: Credentials, provider: OAuth2Provider)
    requires References.CredentialsResolved(dir, spec, credentials)
             && CredentialsAsAsked(Some(credentials), provider, provider)
    ensures dir.secret.Some? ==> HasGivenCredentials(spec, dir.secret.value, provider)
  {}

  lemma ScopesPointTo(dir: References.Directory, refs: seq<Reference>, pks: seq<Key>, stored: seq<Key>)
    requires |pks| == |refs| && GivenSet(Some(pks), [], stored)
    requires forall i :: 0 <= i < |pks| ==> References.Identifies(dir, References.ScopeMappingKind, refs[i], pks[i])
    ensures forall ref :: ref in refs ==>
              exists pk :: pk in stored && References.Identifies(dir, References.ScopeMappingKind, ref, pk)
    ensures forall pk :: pk in stored ==>
              exists ref :: ref in refs && References.Identifies(dir, References.ScopeMappingKind, ref, pk)
  {
    hide References.Identifies;
    forall ref | ref in refs
      ensures exists pk :: pk in stored && References.Identifies(dir, References.ScopeMappingKind, ref, pk)
    {
      var i :| 0 <= i < |refs| && refs[i] == ref;
      assert pks[i] in stored;
    }
    forall pk | pk in stored
      ensures exists ref :: ref in refs && References.Identifies(dir, References.ScopeMappingKind, ref, pk)
    {
      var i :| 0 <= i < |pks| && pks[i] == pk;
      assert refs[i] in refs;
    }
  }

  lemma RulePointsTo(dir: References.Directory, spec: RuleSpec, rule: Rule, target: Key, binding: Binding)
    requires References.RuleResolved(dir, spec, rule) && BindingAsAsked(target, rule, binding)
    ensures BindingPointsTo(dir, spec, binding)
  {
    hide References.Identifies, References.UserMatches;
    if spec.negate.Some? && spec.negate.value {
      assert spec.negate == Some(true);
    }
  }

  /** Providers and Application are as they were, or as the spec asks, and have what they had where nothing is asked. */
  ghost predicate OnlyAnswers(spec: Spec, r: References.Resolution, defaults: CreationDefaults, before: Scene, server: Authentik)
    reads server`applications, server`proxyProviders, server`oauth2Providers
  {
    && (match spec.provider
        case None => server.proxyProviders == before.proxies && server.oauth2Providers == before.oauth2s
        case Some(provider) =>
          && r.flows.Some?
          && if provider.kind.ProxySpec? then
               && r.proxy.Some? && server.oauth2Providers == before.oauth2s
               && ProxiesAsAsked(provider, r.flows.value, r.proxy.value, spec.slug, before.proxies, server.proxyProviders)
             else
               && r.oauth2.Some? && server.proxyProviders == before.proxies
               && OAuth2sAsAsked(provider, r.flows.value, r.oauth2.value, defaults, spec.slug, before.oauth2s,
                                 server.oauth2Providers))
    && SlugAsAsked(spec, before.applications, server.applications)
  }

  /**
   The rules were served safely on the Application under the slug, at every moment of the run, and without prune the Bindings
   that the operator did not manage are still there.
   */
  ghost predicate SafeFor(spec: Spec, rules: seq<Rule>, server: Authentik, before: Snapshot)
    reads server`applications, server`bindings, server`history
  {
    && ValidRules(rules) && UnmanagedStay(spec.prune, before.scene.bindings, before.managed, server.bindings)
    && (spec.slug in server.applications ==>
          SafeRun(server.history, before.requests, before.scene.bindings, server.applications[spec.slug].pbmUuid, rules))
  }

  /**
   What a run did, held against the spec and the objects that its references were resolved to. On every way out, objects
   changed only to what is asked, and the rules were served safely; without an error everything is in place.
   */
  ghost predicate AnsweredFor(dir: References.Directory, spec: Spec, r: References.Resolution, defaults: CreationDefaults,
                              outcome: Outcome, markers: MarkerCache, s: Resource, secret: CredentialsSecret, before: Snapshot)
    reads markers.marker.server, s, secret
  {
    var server := markers.marker.server;
    && OnlyAnswers(spec, r, defaults, before.scene, server)
    && SafeFor(spec, r.rules, server, before)
    && (outcome.Finished? && (outcome.res.Ok? || outcome.res == Err(Stop(UnmanagedBindings))) ==>
          UnmanagedReported(spec, server.applications, server.bindings, s.status, outcome.res.Err?))
    && (outcome.Finished? && outcome.res.Ok? ==>
          && s.base == s.status && InPlaceFor(spec, r, server, markers.marker.Marked(), s.base)
          && PointsTo(dir, spec, server, s.base)
          && CredentialsInPlace(spec, server.oauth2Providers, s.base.providerPk, before.secret, secret.data))
  }

  /** That is so for the objects that the directory gives, whether or not the run got to resolve the references. */
  ghost predicate Answered(dir: References.Directory, spec: Spec, defaults: CreationDefaults, outcome: Outcome,
                           markers: MarkerCache, s: Resource, secret: CredentialsSecret, before: Snapshot)
    reads markers.marker.server, s, secret
  {
    forall r :: References.SpecResolved(dir, spec, r) ==>
      AnsweredFor(dir, spec, r, defaults, outcome, markers, s, secret, before)
  }

  /** What the spec asks for is in place, whatever the references are resolved to. */
  ghost predicate InPlace(dir: References.Directory, spec: Spec, server: Authentik, marked: set<Object>, status: Status)
    reads server`applications, server`bindings, server`proxyProviders, server`oauth2Providers, server`outposts
  {
    forall r :: References.SpecResolved(dir, spec, r) ==> ValidRules(r.rules) && InPlaceFor(spec, r, server, marked, status)
  }

  /** The goal of a reconcile is what the spec asks for. */
  lemma GoalInPlace(dir: References.Directory, spec: Spec, defaults: CreationDefaults, r: References.Resolution,
                    server: Authentik, marked: set<Object>, status: Status)
    requires References.SpecResolved(dir, spec, r) && ValidRules(r.rules)
    ensures GoalOf(spec, r, defaults).Valid()
    ensures Done(GoalOf(spec, r, defaults), server, marked, status) <==> InPlaceFor(spec, r, server, marked, status)
  {
    hide Done, ProxyInPlace, OAuth2InPlace, ApplicationInPlace, BindingsInPlace;
    DoneIsInPlace(GoalOf(spec, r, defaults), server, marked, status);
  }

  /** A reference identifies one object at most, so that a spec is resolved in one way only. */
  lemma SameResolution(dir: References.Directory, spec: Spec, r: References.Resolution, again: References.Resolution)
    requires References.SpecResolved(dir, spec, r) && References.SpecResolved(dir, spec, again)
    ensures r == again
  {
    assert dir.(secret := dir.secret) == dir;
    var none := CreationDefaults([], None);
    OneResolution(dir, dir.secret, spec, none, r, r);
    OneResolution(dir, dir.secret, spec, none, r, again);
    assert GoalOf(spec, r, none) == GoalOf(spec, again, none);
  }

  lemma OnlyGoalAnswers(dir: References.Directory, spec: Spec, defaults: CreationDefaults, r: References.Resolution,
                        before: Scene, server: Authentik)
    requires References.SpecResolved(dir, spec, r) && SlugAsAsked(spec, before.applications, server.applications)
    requires OnlyAsAsked(GoalOf(spec, r, defaults), before.proxies, before.oauth2s, server.proxyProviders, server.oauth2Providers)
    ensures OnlyAnswers(spec, r, defaults, before, server)
  {
    hide SlugAsAsked, ProxiesAsAsked, OAuth2sAsAsked;
  }

  lemma ServedIsSafe(spec: Spec, r: References.Resolution, defaults: CreationDefaults, server: Authentik, managed: set<Key>,
                     before: Snapshot)
    requires ValidRules(r.rules) && GoalOf(spec, r, defaults).Valid()
    requires Served(GoalOf(spec, r, defaults), server.applications, before.scene.bindings, before.managed, server.bindings, managed,
                    server.history, before.requests)
    ensures SafeFor(spec, r.rules, server, before)
  {
    hide SafeRun, Counted, KeepsBindings, UnmanagedStay;
  }

  /** What the reconcile with the goal brought about is what the spec asks for. */
  lemma BroughtIsAnswered(dir: References.Directory, spec: Spec, defaults: CreationDefaults, r: References.Resolution,
                          res: Result<()>, markers: MarkerCache, s: Resource, secret: CredentialsSecret, before: Snapshot)
    requires References.SpecResolved(dir, spec, r) && ValidRules(r.rules) && dir.secret == before.secret
    requires Brought(GoalOf(spec, r, defaults), res, markers, s, secret, before)
    ensures Answered(dir, spec, defaults, Finished(res), markers, s, secret, before)
  {
    hide Brought, AnsweredFor, References.SpecResolved, GoalOf;
    BroughtFor(dir, spec, defaults, r, res, markers, s, secret, before);
    forall again | References.SpecResolved(dir, spec, again) ensures again == r {
      SameResolution(dir, spec, r, again);
    }
  }

  lemma BroughtFor(dir: References.Directory, spec: Spec, defaults: CreationDefaults, r: References.Resolution, res: Result<()>,
                   markers: MarkerCache, s: Resource, secret: CredentialsSecret, before: Snapshot)
    requires References.SpecResolved(dir, spec, r) && ValidRules(r.rules) && dir.secret == before.secret
    requires Brought(GoalOf(spec, r, defaults), res, markers, s, secret, before)
    ensures AnsweredFor(dir, spec, r, defaults, Finished(res), markers, s, secret, before)
  {
    var server := markers.marker.server;
    hide Done, InPlaceFor, References.SpecResolved, Served, OnlyAsAsked, Exported, Kept, Relocated, SlugAsAsked, OnlyAnswers,
      SafeFor, CredentialsInPlace, ManagedKeys, GoalOf, PointsTo, UnmanagedReported;
    GoalSpec(spec, r, defaults);
    if res.Ok? {
      DoneAsAsked(dir, spec, defaults, r, server, markers.marker.Marked(), s.base, secret.data);
    }
    OnlyGoalAnswers(dir, spec, defaults, r, before.scene, server);
    ServedIsSafe(spec, r, defaults, server, ManagedKeys(s.base.bindingUuids, markers.marker.Marked()), before);
  }

  lemma DoneAsAsked(dir: References.Directory, spec: Spec, defaults: CreationDefaults, r: References.Resolution,
                    server: Authentik, marked: set<Object>, status: Status, data: Option<map<string, string>>)
    requires References.SpecResolved(dir, spec, r) && ValidRules(r.rules) && GoalOf(spec, r, defaults).Valid()
    requires Done(GoalOf(spec, r, defaults), server, marked, status)
    requires Exported(GoalOf(spec, r, defaults), server.oauth2Providers, status.providerPk, dir.secret, data)
    ensures InPlaceFor(spec, r, server, marked, status) && PointsTo(dir, spec, server, status)
    ensures CredentialsInPlace(spec, server.oauth2Providers, status.providerPk, dir.secret, data)
  {
    hide Done, InPlaceFor, References.SpecResolved, Exported, CredentialsInPlace, GoalOf, PointsTo, Goal.Valid;
    GoalInPlace(dir, spec, defaults, r, server, marked, status);
    InPlacePointsTo(dir, spec, r, server, marked, status);
    ExportedAsAsked(dir, spec, defaults, r, server.oauth2Providers, status.providerPk, data);
  }

  lemma BroughtNames(goal: Goal, res: Result<()>, markers: MarkerCache, s: Resource, secret: CredentialsSecret,
                     before: Snapshot)
    requires Brought(goal, res, markers, s, secret, before) && before.scene.status == before.scene.base
    ensures Named(goal.spec.slug, before.scene.base) ==> Named(goal.spec.slug, s.base)
  {
    hide OnlyOwn, RecordStays, Served, OnlyAsAsked, SlugAsAsked, Done, Exported, Relocated, UnmanagedReported, Goal.Valid,
      LeftFirst, BothRecorded, ManagedKeys, CatalogOf, SearchFor;
  }

  lemma GoalSpec(spec: Spec, r: References.Resolution, defaults: CreationDefaults)
    ensures GoalOf(spec, r, defaults).spec == spec
  {}

  lemma ExportedAsAsked(dir: References.Directory, spec: Spec, defaults: CreationDefaults, r: References.Resolution,
                        oauth2s: map<Key, OAuth2Provider>, pk: Option<Key>, now: Option<map<string, string>>)
    requires References.SpecResolved(dir, spec, r)
    ensures Exported(GoalOf(spec, r, defaults), oauth2s, pk, dir.secret, now) <==>
              CredentialsInPlace(spec, oauth2s, pk, dir.secret, now)
  {
    hide SecretAsAsked, ExportedSecret;
    var goal := GoalOf(spec, r, defaults);
    if goal.Exports() && pk.Some? && pk.value in oauth2s && now.Some? {
      SecretAsked(goal.CredentialsSpec(), oauth2s[pk.value], now.value);
    }
  }

  /** A run that did not touch authentik. */
  lemma NothingAnswered(dir: References.Directory, spec: Spec, defaults: CreationDefaults, outcome: Outcome,
                        markers: MarkerCache, s: Resource, secret: CredentialsSecret, before: Snapshot)
    requires dir.Valid() && AllSingle(markers.marker.server.bindings)
             && (outcome.Unresolved? || outcome.res == Err(Unavailable) || outcome.res == Err(Stop(Conflict)))
    requires var server := markers.marker.server;
             && before.scene.applications == server.applications && before.scene.proxies == server.proxyProviders
             && before.scene.oauth2s == server.oauth2Providers && before.scene.bindings == server.bindings
             && before.requests == |server.history|
    ensures Answered(dir, spec, defaults, outcome, markers, s, secret, before)
  {
    var server := markers.marker.server;
    forall r | References.SpecResolved(dir, spec, r)
      ensures OnlyAnswers(spec, r, defaults, before.scene, server) && SafeFor(spec, r.rules, server, before)
    {
      SameSlug(spec, server.applications);
      forall i | 0 <= i < |r.rules| ensures ValidRule(r.rules[i]) {
        References.ResolvedRuleIsValid(dir, spec.rules[i], r.rules[i]);
      }
      hide SlugAsAsked, SafeRun, ProxyAsAsked, OAuth2AsAsked;
      if spec.slug in server.applications {
        SafeRunStarts(server.history, server.bindings, server.applications[spec.slug].pbmUuid, r.rules);
      }
    }
  }

  /**
   What the winner of a slug does. Unless every reference matches exactly one object, nothing is requested from authentik;
   otherwise what the resolved references ask for is brought about. The slug stays recorded together with the Application.
   */
  ghost predicate Ran(dir: References.Directory, spec: Spec, defaults: CreationDefaults, outcome: Outcome,
                      resolution: Option<References.Resolution>, markers: MarkerCache, s: Resource, secret: CredentialsSecret,
                      before: Snapshot)
    reads markers.marker.server, s, secret
  {
    && Answered(dir, spec, defaults, outcome, markers, s, secret, before)
    && (Named(spec.slug, before.scene.base) ==> Named(spec.slug, s.base))
    && match resolution
       case None =>
         && (if outcome.Unresolved? then outcome.failures == References.Failures(dir, References.Lookups(dir, spec))
             && outcome.failures != []
             else outcome.res == Err(Unavailable))
         && |markers.marker.server.history| == before.requests && secret.data == before.secret
       case Some(r) =>
         && outcome.Finished? && outcome.res != Err(Stop(Conflict))
         && References.SpecResolved(dir, spec, r)
         && (forall l :: l in References.Lookups(dir, spec) ==> References.Matches(dir, l) == 1)
         && Reread(GoalOf(spec, r, defaults), dir.secret) == Some(GoalOf(spec, r, defaults))
         && Brought(GoalOf(spec, r, defaults), outcome.res, markers, s, secret, before)
  }

  /** The steps after the conflict check. */
  method ReconcileWinner(dir: References.Directory, markers: MarkerCache, s: Resource, secret: CredentialsSecret, spec: Spec,
                         defaults: CreationDefaults)
    returns (outcome: Outcome, ghost resolution: Option<References.Resolution>)
    requires dir.Valid() && dir.secret == secret.data
    requires markers.marker.server.Valid() && markers.Exact() && AllSingle(markers.marker.server.bindings)
    modifies s, secret, markers, markers.marker, markers.clock, markers.marker.server
    ensures markers.marker.server.Valid() && markers.Exact() && AllSingle(markers.marker.server.bindings)
    ensures old(markers.marker.server.history) <= markers.marker.server.history
    ensures Ran(dir, spec, defaults, outcome, resolution, markers, s, secret, old(Taken(markers, s, secret)))
    ensures old(InPlace(dir, spec, markers.marker.server, markers.marker.Marked(), s.base)) ==>
              Quiet(outcome, markers.marker.server.history, old(markers.marker.server.history))
    ensures resolution.None? ==> SameStatus(old(s.base), s.base)
  {
    hide ValidBindings, ValidApplications, ValidLinks, ValidProviders, ValidOutposts, ValidRoles, MarkedBy, Done, Recovers,
      SearchFor, AcceptedCalls, NameRefused, AllSingle, NotAdopted, Served, ValidRules, MarkerCache.Exact, Kept, Exported,
      Relocated, CatalogOf, Stuck, ManagedKeys, OnlyMarkerWrites, Goal.Exports, Goal.Handler, Goal.Name, References.SpecResolved,
      References.Failures, References.Lookups, References.Matches, Reread, Brought, GoalOf, Goal.Valid, Answered, InPlaceFor;
    s.Reload();
    ghost var before := Taken(markers, s, secret);
    resolution := None;
    var resolved := References.Resolve(dir, spec);
    if resolved.Unresolved? {
      FinishUnresolved(s);
      NothingAnswered(dir, spec, defaults, Unresolved(resolved.failures), markers, s, secret, before);
      return Unresolved(resolved.failures), None;
    }
    if resolved.LookupFailed? {
      var res := Finish(s, Err(resolved.error));
      NothingAnswered(dir, spec, defaults, Finished(res), markers, s, secret, before);
      return Finished(res), None;
    }
    var goal := GoalOf(spec, resolved.resolution, defaults);
    ResolvedGoal(dir, spec, defaults, resolved.resolution);
    GoalInPlace(dir, spec, defaults, resolved.resolution, markers.marker.server, markers.marker.Marked(), s.base);
    var res := Bring(markers, s, secret, goal);
    BroughtIsAnswered(dir, spec, defaults, resolved.resolution, res, markers, s, secret, before);
    BroughtNames(goal, res, markers, s, secret, before);
    GoalSpec(spec, resolved.resolution, defaults);
    return Finished(res), Some(resolved.resolution);
  }

  /** The steps of the winner, or the stop of a resource that does not win its slug. */
  method Proceed(dir: References.Directory, markers: MarkerCache, s: Resource, secret: CredentialsSecret, spec: Spec,
                 defaults: CreationDefaults, wins: bool)
    returns (outcome: Outcome, ghost resolution: Option<References.Resolution>)
    requires dir.Valid() && dir.secret == secret.data && s.status == s.base
    requires markers.marker.server.Valid() && markers.Exact() && AllSingle(markers.marker.server.bindings)
    modifies s, secret, markers, markers.marker, markers.clock, markers.marker.server
    ensures markers.marker.server.Valid() && markers.Exact() && AllSingle(markers.marker.server.bindings)
    ensures old(markers.marker.server.history) <= markers.marker.server.history
    ensures outcome == Finished(Err(Stop(Conflict))) <==> !wins
    ensures if wins then Ran(dir, spec, defaults, outcome, resolution, markers, s, secret, old(Taken(markers, s, secret)))
            else unchanged(markers.marker.server) && secret.data == old(secret.data) && resolution.None?
    ensures resolution.None? ==> SameStatus(old(s.base), s.base)
    ensures old(InPlace(dir, spec, markers.marker.server, markers.marker.Marked(), s.base)) ==>
              Quiet(outcome, markers.marker.server.history, old(markers.marker.server.history))
  {
    hide ValidBindings, ValidApplications, ValidLinks, ValidProviders, ValidOutposts, ValidRoles, MarkedBy, AllSingle,
      MarkerCache.Exact, Ran, Taken, InPlace, References.Directory.Valid;
    if wins {
      outcome, resolution := ReconcileWinner(dir, markers, s, secret, spec, defaults);
      RanIntoNoConflict(dir, spec, defaults, outcome, resolution, markers, s, secret, old(Taken(markers, s, secret)));
    } else {
      var res := Finish(s, Err(Stop(Conflict)));
      outcome, resolution := Finished(res), None;
    }
  }

  /**
   Reconcile: nothing is requested from authentik unless the resource wins its slug, which no resource does while another
   live one holds the record of the slug. The winner keeps the cluster free of a second record.
   */
  method Reconcile(cluster: Slugs.Cluster, uid: Slugs.Uid, dir: References.Directory, markers: MarkerCache, s: Resource,
                   secret: CredentialsSecret, spec: Spec, defaults: CreationDefaults)
    returns (outcome: Outcome, ghost resolution: Option<References.Resolution>)
    requires cluster.Valid() && uid in cluster.resources && !cluster.resources[uid].deleting
             && Represents(cluster.resources[uid], spec, s.base)
    requires dir.Valid() && dir.secret == secret.data
    requires markers.marker.server.Valid() && markers.Exact() && AllSingle(markers.marker.server.bindings)
    modifies cluster, s, secret, markers, markers.marker, markers.clock, markers.marker.server
    ensures cluster.Valid()
    ensures cluster.resources == old(cluster.resources)[uid := old(cluster.resources)[uid].(applicationPk := s.base.applicationPk)]
    ensures markers.marker.server.Valid() && markers.Exact() && AllSingle(markers.marker.server.bindings)
    ensures old(markers.marker.server.history) <= markers.marker.server.history
    ensures outcome == Finished(Err(Stop(Conflict))) <==> !old(Winning(cluster.resources, uid))
    ensures old(Slugs.OwnedByOther(cluster.resources, uid)) ==> outcome == Finished(Err(Stop(Conflict)))
    ensures if old(Winning(cluster.resources, uid)) then
              Ran(dir, spec, defaults, outcome, resolution, markers, s, secret, old(Taken(markers, s, secret)))
            else unchanged(markers.marker.server) && secret.data == old(secret.data) && resolution.None?
    ensures resolution.None? ==> SameStatus(old(s.base), s.base)
    ensures old(InPlace(dir, spec, markers.marker.server, markers.marker.Marked(), s.base)) ==>
              Quiet(outcome, markers.marker.server.history, old(markers.marker.server.history))
  {
    hide ValidBindings, ValidApplications, ValidLinks, ValidProviders, ValidOutposts, ValidRoles, MarkedBy, AllSingle,
      MarkerCache.Exact, Ran, Taken, InPlace, Slugs.Wins, Slugs.Live, Slugs.OwnedByOther, Slugs.OneRecorded,
      References.Directory.Valid;
    s.Reload();
    cluster.OwnerStays(uid);
    var wins := cluster.CheckConflict(cluster.resources[uid]);
    outcome, resolution := Proceed(dir, markers, s, secret, spec, defaults, wins);
    cluster.Record(uid, s.base.applicationPk);
  }

  lemma RanIntoNoConflict(dir: References.Directory, spec: Spec, defaults: CreationDefaults, outcome: Outcome,
                          resolution: Option<References.Resolution>, markers: MarkerCache, s: Resource,
                          secret: CredentialsSecret, before: Snapshot)
    requires Ran(dir, spec, defaults, outcome, resolution, markers, s, secret, before)
    ensures outcome != Finished(Err(Stop(Conflict)))
  {}

  /** The credentials of the spec have one key in their Secret. */
  predicate SharedKey(spec: Spec) {
    && spec.provider.Some? && spec.provider.value.kind.OAuth2Spec? && spec.provider.value.kind.credentials.Some?
    && OneKey(spec.provider.value.kind.credentials.value)
  }

  /** What is in place is what the next reconcile asks for, whatever it resolves the references to. */
  lemma NextIsDone(dir: References.Directory, data: Option<map<string, string>>, spec: Spec, defaults: CreationDefaults,
                   r: References.Resolution, server: Authentik, marked: set<Object>, status: Status)
    requires References.SpecResolved(dir, spec, r) && GoalOf(spec, r, defaults).Valid()
    requires Reread(GoalOf(spec, r, defaults), dir.secret) == Some(GoalOf(spec, r, defaults))
    requires Done(GoalOf(spec, r, defaults), server, marked, status)
    requires Exported(GoalOf(spec, r, defaults), server.oauth2Providers, status.providerPk, dir.secret, data)
    requires dir.secret.Some? || !SharedKey(spec)
    ensures InPlace(dir.(secret := data), spec, server, marked, status)
  {
    var goal := GoalOf(spec, r, defaults);
    ExportCreates(goal, server.oauth2Providers, status.providerPk, dir.secret, data);
    hide Done, References.SpecResolved, Exported, Reread, Goal.Exports, Goal.Valid, InPlaceFor;
    NextGoal(goal, server, marked, status, dir.secret, data);
    forall again | References.SpecResolved(dir.(secret := data), spec, again)
      ensures ValidRules(again.rules) && InPlaceFor(spec, again, server, marked, status)
    {
      OneResolution(dir, data, spec, defaults, r, again);
      ValidGoalRules(spec, again, defaults);
      GoalInPlace(dir.(secret := data), spec, defaults, again, server, marked, status);
    }
  }

  lemma ValidGoalRules(spec: Spec, r: References.Resolution, defaults: CreationDefaults)
    ensures GoalOf(spec, r, defaults).Valid() <==> ValidRules(r.rules)
  {}

  /** A run without an error leaves in place what the next one asks for. */
  lemma RanIsInPlace(dir: References.Directory, spec: Spec, defaults: CreationDefaults,
                     resolution: Option<References.Resolution>, markers: MarkerCache, s: Resource, secret: CredentialsSecret,
                     before: Snapshot)
    requires Ran(dir, spec, defaults, Finished(Ok(())), resolution, markers, s, secret, before)
    requires dir.secret == before.secret && (dir.secret.Some? || !SharedKey(spec))
    ensures InPlace(dir.(secret := secret.data), spec, markers.marker.server, markers.marker.Marked(), s.base)
  {
    hide Done, References.SpecResolved, Exported, Reread, GoalOf, Goal.Exports, Goal.Valid, Served, InPlace;
    NextIsDone(dir, secret.data, spec, defaults, resolution.value, markers.marker.server, markers.marker.Marked(), s.base);
  }

  /** Only a Secret that did not exist is created. */
  lemma ExportCreates(goal: Goal, oauth2s: map<Key, OAuth2Provider>, pk: Option<Key>, before: Option<map<string, string>>,
                      now: Option<map<string, string>>)
    requires Reread(goal, before) == Some(goal) && Exported(goal, oauth2s, pk, before, now)
    ensures goal.Exports() ==> before.None? && now.Some?
    ensures goal.Exports() && OneKey(goal.CredentialsSpec()) ==> SharedKey(goal.spec)
  {}

  /** The resource that recorded its Application wins its slug. */
  lemma DoneWins(cluster: Slugs.Cluster, uid: Slugs.Uid, goal: Goal, server: Authentik, marked: set<Object>, status: Status)
    requires cluster.Valid() && uid in cluster.resources && !cluster.resources[uid].deleting
    requires Represents(cluster.resources[uid], goal.spec, status) && goal.Valid() && Done(goal, server, marked, status)
    ensures Winning(cluster.resources, uid)
  {
    hide ProviderDone, BindingsDone, Goal.Valid, Slugs.Wins, Slugs.Live;
    Slugs.OwnerWins(cluster.resources, uid);
  }

  /** What a run without an error tells about the next one. */
  lemma RanFacts(cluster: Slugs.Cluster, uid: Slugs.Uid, dir: References.Directory, spec: Spec, defaults: CreationDefaults,
                 r: References.Resolution, markers: MarkerCache, s: Resource, secret: CredentialsSecret, before: Snapshot)
    requires cluster.Valid() && uid in cluster.resources && !cluster.resources[uid].deleting
             && Represents(cluster.resources[uid], spec, s.base)
    requires Ran(dir, spec, defaults, Finished(Ok(())), Some(r), markers, s, secret, before) && dir.secret == before.secret
    ensures Winning(cluster.resources, uid)
    ensures secret.data == before.secret || (before.secret.None? && secret.data.Some?)
    ensures References.Failures(dir.(secret := secret.data), References.Lookups(dir.(secret := secret.data), spec)) == [] <==>
              Reread(GoalOf(spec, r, defaults), secret.data).Some?
    ensures before.secret.Some? ==> Reread(GoalOf(spec, r, defaults), secret.data).Some?
  {
    var goal := GoalOf(spec, r, defaults);
    DoneWins(cluster, uid, goal, markers.marker.server, markers.marker.Marked(), s.base);
    ExportCreates(goal, markers.marker.server.oauth2Providers, s.base.providerPk, before.secret, secret.data);
    hide Done, References.SpecResolved, Reread, Goal.Exports, Goal.Valid, Served, Winning;
    ExportedOrNot(goal, markers.marker.server.oauth2Providers, s.base.providerPk, before.secret, secret.data);
    NextResolves(dir, secret.data, spec, defaults, r);
  }

  /** Only an OAuth2 Provider with credentials has lookups in the Secret, and none while there is no Secret. */
  lemma NewKindLookups(dir: References.Directory, data: Option<map<string, string>>, kind: ProviderKindSpec)
    requires dir.secret.None? && data.Some?
    ensures References.KindLookups(dir.(secret := data), kind) ==
            References.KindLookups(dir, kind) + if kind.OAuth2Spec? && kind.credentials.Some? then
              References.CredentialLookups(dir.(secret := data), kind.credentials.value) else []
    ensures forall l :: l in References.KindLookups(dir, kind) ==> !l.KeyLookup?
  {
    hide References.ScopeLookups;
    if kind.OAuth2Spec? && kind.scopes.Some? {
      NoKeyAmongScopes(kind.scopes.value);
    }
  }

  lemma NoKeyAmongScopes(scopes: seq<Reference>)
    ensures forall l :: l in References.ScopeLookups(scopes) ==> !l.KeyLookup?
  {}

  lemma NoKeyAmongFlows(flows: FlowsSpec)
    ensures forall l :: l in References.FlowLookups(flows) ==> !l.KeyLookup?
  {}

  lemma NoKeyAmongRules(rules: seq<RuleSpec>)
    ensures forall l :: l in References.RuleLookups(rules) ==> !l.KeyLookup?
  {}

  /** The lookups in a Secret that did not exist before, after the others, which match what they did. */
  lemma NewLookups(dir: References.Directory, data: Option<map<string, string>>, spec: Spec)
    requires dir.secret.None? && data.Some?
    ensures var asks := spec.provider.Some? && spec.provider.value.kind.OAuth2Spec? && spec.provider.value.kind.credentials.Some?;
            forall l :: l in References.Lookups(dir.(secret := data), spec) <==>
              || l in References.Lookups(dir, spec)
              || (asks && l in References.CredentialLookups(dir.(secret := data), spec.provider.value.kind.credentials.value))
    ensures forall l :: l in References.Lookups(dir, spec) ==> !l.KeyLookup?
  {
    hide References.FlowLookups, References.KindLookups, References.RuleLookups, References.CredentialLookups;
    NoKeyAmongRules(spec.rules);
    if spec.provider.Some? {
      NewKindLookups(dir, data, spec.provider.value.kind);
      NoKeyAmongFlows(spec.provider.value.flows);
    }
  }

  lemma SameMatch(dir: References.Directory, data: Option<map<string, string>>, l: References.Lookup)
    requires !l.KeyLookup?
    ensures References.Matches(dir.(secret := data), l) == References.Matches(dir, l)
  {
    match l
    case ObjectLookup(_, kind, ref) => assert SameMatches(dir, data, kind, ref);
    case UserLookup(_, user) => assert References.UserMatches(dir.(secret := data), user) == References.UserMatches(dir, user);
  }

  /** After an export every reference matches one object if and only if the Secret has what is read back. */
  lemma NextResolves(dir: References.Directory, data: Option<map<string, string>>, spec: Spec, defaults: CreationDefaults,
                     r: References.Resolution)
    requires References.SpecResolved(dir, spec, r)
    requires forall l :: l in References.Lookups(dir, spec) ==> References.Matches(dir, l) == 1
    requires data == dir.secret || (dir.secret.None? && data.Some?)
    ensures References.Failures(dir.(secret := data), References.Lookups(dir.(secret := data), spec)) == [] <==>
              Reread(GoalOf(spec, r, defaults), data).Some?
    ensures data == dir.secret ==> Reread(GoalOf(spec, r, defaults), data).Some?
  {
    var later := dir.(secret := data);
    References.NoFailures(later, References.Lookups(later, spec));
    if data == dir.secret {
      assert later == dir;
      OneResolution(dir, data, spec, defaults, r, r);
    } else {
      NewLookups(dir, data, spec);
      hide References.Lookups, References.SpecResolved, References.ObjectMatches, References.UserMatches;
      forall l | l in References.Lookups(dir, spec) ensures References.Matches(later, l) == 1 {
        SameMatch(dir, data, l);
      }
      if spec.provider.Some? && spec.provider.value.kind.OAuth2Spec? && spec.provider.value.kind.credentials.Some? {
        KeysFound(later, spec.provider.value.kind.credentials.value);
      }
    }
  }

  lemma KeysFound(dir: References.Directory, spec: CredentialsSpec)
    requires dir.secret.Some?
    ensures (forall l :: l in References.CredentialLookups(dir, spec) ==> References.Matches(dir, l) == 1) <==>
            ReadCredentials(spec, dir.secret).Some?
  {
    var secretKey := References.KeyLookup(References.ClientSecretKeyPath, ClientSecretKey(spec));
    var idKey := References.KeyLookup(References.ClientIdKeyPath, ClientIdKey(spec));
    assert secretKey in References.CredentialLookups(dir, spec);
    assert spec.clientId.None? ==> idKey in References.CredentialLookups(dir, spec);
  }

  /**
   The fixed point of the whole: in the state that a reconcile without an error leaves, the next one sends nothing that
   writes, as long as nothing else changed, and also when the first one created the credentials Secret that is read again,
   unless that Secret has one key for both credentials. It wins its slug, and fails only by an unavailable call, by
   unmanaged Bindings, or because the Provider has no credentials to read back.
   */
  method ReconcileNext(cluster: Slugs.Cluster, uid: Slugs.Uid, dir: References.Directory, markers: MarkerCache, s: Resource,
                       secret: CredentialsSecret, spec: Spec, defaults: CreationDefaults, ghost before: Snapshot,
                       ghost r: References.Resolution)
    returns (outcome: Outcome)
    requires cluster.Valid() && uid in cluster.resources && !cluster.resources[uid].deleting
             && Represents(cluster.resources[uid], spec, s.base)
    requires markers.marker.server.Valid() && markers.Exact() && AllSingle(markers.marker.server.bindings)
    requires Ran(dir.(secret := before.secret), spec, defaults, Finished(Ok(())), Some(r), markers, s, secret, before)
    requires dir.Valid() && dir.secret == secret.data && (before.secret.Some? || !SharedKey(spec))
    modifies cluster, s, secret, markers, markers.marker, markers.clock, markers.marker.server
    ensures markers.marker.server.history == old(markers.marker.server.history)
    ensures match outcome
            case Finished(res) => res.Ok? || res.error == Unavailable || res.error == Stop(UnmanagedBindings)
            case Unresolved(_) => before.secret.None? && Reread(GoalOf(spec, r, defaults), dir.secret).None?
  {
    hide ValidBindings, ValidApplications, ValidLinks, ValidProviders, ValidOutposts, ValidRoles, MarkedBy, AllSingle, Ran, InPlace,
      References.Directory.Valid, Slugs.Wins, Slugs.Live, Slugs.OwnedByOther, Slugs.OneRecorded, SharedKey, Reread, GoalOf,
      References.Failures, References.Lookups;
    ghost var was := dir.(secret := before.secret);
    RanIsInPlace(was, spec, defaults, Some(r), markers, s, secret, before);
    RanFacts(cluster, uid, was, spec, defaults, r, markers, s, secret, before);
    assert was.(secret := secret.data) == dir;
    ghost var resolution;
    ghost var start := Taken(markers, s, secret);
    outcome, resolution := Reconcile(cluster, uid, dir, markers, s, secret, spec, defaults);
    UnresolvedBy(dir, spec, defaults, outcome, resolution, markers, s, secret, start);
  }

  lemma UnresolvedBy(dir: References.Directory, spec: Spec, defaults: CreationDefaults, outcome: Outcome,
                     resolution: Option<References.Resolution>, markers: MarkerCache, s: Resource, secret: CredentialsSecret,
                     before: Snapshot)
    requires Ran(dir, spec, defaults, outcome, resolution, markers, s, secret, before)
    ensures outcome.Unresolved? ==> References.Failures(dir, References.Lookups(dir, spec)) != []
  {}
}
