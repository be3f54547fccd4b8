/**
 The steps of a reconcile (internal/controller/authentikapplication_controller.go): Provider, Outpost, Application, Bindings.
 */
module Reconciler {
  import opened Base
  import opened Api
  import opened Patch
  import opened Matching
  import opened Server
  import opened Ownership
  import opened Desired
  import opened Specified
  import opened Resources
  import opened BindingPlan
  import opened BindingAttempts
  import opened BindingHistory
  import opened BindingSteps
  import opened Bindings
  import opened BindingRuns
  import opened Providers
  import opened Outposts
  import opened Adoption
  import opened Applications
  import opened Frames

  datatype Resolved = Resolved(
    flows: Flows, proxy: ProxyReferences, oauth2: OAuth2References, defaults: CreationDefaults, rules: seq<Rule>)

  /** What a resource asks for, with its references resolved. */
  datatype Goal = Goal(spec: Spec, resolved: Resolved)
  {
    predicate Valid() {
      ValidRules(resolved.rules)
    }

    function Handler(): (h: Option<Handler>)
      ensures h.Some? <==> spec.provider.Some?
      ensures h.Some? ==> h.value.Valid() && NameAgrees(h.value, Name())
    {
      if spec.provider.None? then None
      else Some(HandlerOf(spec, resolved.flows, resolved.proxy, resolved.oauth2, resolved.defaults))
    }

    function Name(): string {
      if spec.provider.Some? then ProviderName(spec) else spec.slug
    }

    /** The credentials are exported: the spec asks for them, and their Secret did not exist when it was read. */
    predicate Exports() {
      && spec.provider.Some? && spec.provider.value.kind.OAuth2Spec? && spec.provider.value.kind.credentials.Some?
      && resolved.oauth2.credentials.Some? && !resolved.oauth2.credentials.value.secretExists
    }

    function CredentialsSpec(): CredentialsSpec
      requires Exports()
    {
      spec.provider.value.kind.credentials.value
    }

    /** The pk that the Application is linked to. */
    function Link(status: Status): Option<Key> {
      if spec.provider.Some? then status.providerPk else None
    }
  }

  /** Every Provider is as it was, or as the resource asks, with what it had, or what a new one has, where nothing is asked. */
  ghost predicate OnlyAsAsked(goal: Goal, proxies: map<Key, ProxyProvider>, oauth2s: map<Key, OAuth2Provider>,
                              proxiesNow: map<Key, ProxyProvider>, oauth2sNow: map<Key, OAuth2Provider>) {
    ProvidersAsAsked(goal.spec, goal.resolved.flows, goal.resolved.proxy, goal.resolved.oauth2, goal.resolved.defaults, proxies,
                     oauth2s, proxiesNow, oauth2sNow)
  }

  lemma TakenAsAsked(goal: Goal, proxies: map<Key, ProxyProvider>, oauth2s: map<Key, OAuth2Provider>,
                     proxiesNow: map<Key, ProxyProvider>, oauth2sNow: map<Key, OAuth2Provider>)
    requires goal.spec.provider.Some?
    requires Arranged(goal.Handler().value, goal.Name(), proxies, oauth2s, proxiesNow, oauth2sNow)
    ensures OnlyAsAsked(goal, proxies, oauth2s, proxiesNow, oauth2sNow)
  {
    hide Arranged, ProvidersAsAsked, HandlerOf;
    ArrangedAsAsked(goal.spec, goal.resolved.flows, goal.resolved.proxy, goal.resolved.oauth2, goal.resolved.defaults, proxies,
                    oauth2s, proxiesNow, oauth2sNow);
  }

  lemma SameAsAsked(goal: Goal, proxies: map<Key, ProxyProvider>, oauth2s: map<Key, OAuth2Provider>)
    ensures OnlyAsAsked(goal, proxies, oauth2s, proxies, oauth2s)
  {
    NothingAsked(goal.spec, goal.resolved.flows, goal.resolved.proxy, goal.resolved.oauth2, goal.resolved.defaults, proxies,
                 oauth2s);
  }

  // ---------- the settled world ----------

  /** The Provider is recorded, marked, and conforming, and in its Outpost. */
  ghost predicate ProviderDone(goal: Goal, server: Authentik, marked: set<Object>, status: Status)
    reads server`proxyProviders, server`oauth2Providers, server`outposts
  {
    goal.spec.provider.Some? ==>
      var h := goal.Handler().value;
      && status.providerPk.Some? && status.providerPk.value in h.Keys(server) && h.Conforms(server, status.providerPk.value)
      && h.Obj(status.providerPk.value) in marked
      && (h.ProxyHandler? ==>
            && status.outpostUuid == Some(goal.resolved.proxy.outpost) && goal.resolved.proxy.outpost in server.outposts
            && status.providerPk.value in server.outposts[goal.resolved.proxy.outpost].providers)
  }

  /** The Application is recorded, marked, and conforming. */
  ghost predicate ApplicationDone(goal: Goal, server: Authentik, marked: set<Object>, status: Status)
    reads server`applications
  {
    && goal.spec.slug in server.applications
    && Owned(server.applications[goal.spec.slug], status, marked)
    && ApplicationConforms(DesiredApplication(goal.spec, goal.Link(status)), server.applications[goal.spec.slug])
  }

  ghost predicate BindingsDone(goal: Goal, server: Authentik, marked: set<Object>, status: Status)
    requires goal.Valid()
    reads server`applications, server`bindings
  {
    && goal.spec.slug in server.applications
    && Settled(goal.resolved.rules, server.applications[goal.spec.slug].pbmUuid, goal.spec.prune, server.bindings,
               status.bindingUuids, marked)
  }

  /** Everything that the resource asks for is in place. */
  ghost predicate Done(goal: Goal, server: Authentik, marked: set<Object>, status: Status)
    requires goal.Valid()
    reads server`applications, server`bindings, server`proxyProviders, server`oauth2Providers, server`outposts
  {
    && ProviderDone(goal, server, marked, status)
    && ApplicationDone(goal, server, marked, status)
    && BindingsDone(goal, server, marked, status)
  }

  /** Everything is in place, field by field. */
  ghost predicate AllInPlace(spec: Spec, resolved: Resolved, server: Authentik, marked: set<Object>, status: Status)
    reads server`applications, server`bindings, server`proxyProviders, server`oauth2Providers, server`outposts
  {
    && ProviderInPlace(spec, resolved.flows, resolved.proxy, resolved.oauth2, server.proxyProviders, server.oauth2Providers,
                       server.outposts, marked, status)
    && ApplicationInPlace(spec, server.applications, marked, status)
    && BindingsInPlace(spec, resolved.rules, server.applications, server.bindings, marked, status)
  }

  lemma ProviderDoneInPlace(goal: Goal, server: Authentik, marked: set<Object>, status: Status)
    ensures ProviderDone(goal, server, marked, status) <==>
              ProviderInPlace(goal.spec, goal.resolved.flows, goal.resolved.proxy, goal.resolved.oauth2, server.proxyProviders,
                              server.oauth2Providers, server.outposts, marked, status)
  {
    hide ProxyConforms, OAuth2Conforms, ProxyAsAsked, OAuth2AsAsked, DesiredProxyProvider, DesiredOAuth2Provider;
    if goal.spec.provider.Some? && status.providerPk.Some? {
      var provider, pk, resolved := goal.spec.provider.value, status.providerPk.value, goal.resolved;
      if provider.kind.ProxySpec? && pk in server.proxyProviders {
        ProxyAsked(provider, resolved.flows, resolved.proxy, server.proxyProviders[pk], server.proxyProviders[pk]);
      } else if provider.kind.OAuth2Spec? && pk in server.oauth2Providers {
        OAuth2Asked(provider, resolved.flows, resolved.oauth2, server.oauth2Providers[pk], server.oauth2Providers[pk]);
      }
    }
  }

  lemma ApplicationDoneInPlace(goal: Goal, server: Authentik, marked: set<Object>, status: Status)
    ensures ApplicationDone(goal, server, marked, status) <==> ApplicationInPlace(goal.spec, server.applications, marked, status)
  {
    hide ApplicationConforms, ApplicationAsAsked, DesiredApplication;
    if goal.spec.slug in server.applications {
      var application := server.applications[goal.spec.slug];
      ApplicationAsked(goal.spec, goal.Link(status), application, application);
    }
  }

  lemma BindingsDoneInPlace(goal: Goal, server: Authentik, marked: set<Object>, status: Status)
    requires goal.Valid()
    ensures BindingsDone(goal, server, marked, status) <==>
              BindingsInPlace(goal.spec, goal.resolved.rules, server.applications, server.bindings, marked, status)
  {
    hide DiffBinding, DesiredBinding, SingleSubject, BindingAsAsked, ValidRule;
    if goal.spec.slug in server.applications && |status.bindingUuids| == |goal.resolved.rules| {
      var target, rules := server.applications[goal.spec.slug].pbmUuid, goal.resolved.rules;
      forall i | 0 <= i < |rules| && status.bindingUuids[i] in server.bindings
        ensures SingleSubject(server.bindings[status.bindingUuids[i]])
                && DiffBinding(DesiredBinding(target, rules[i]), server.bindings[status.bindingUuids[i]]).None?
                <==> BindingAsAsked(target, rules[i], server.bindings[status.bindingUuids[i]])
      {
        BindingAsked(target, rules[i], server.bindings[status.bindingUuids[i]]);
      }
    }
  }

  /** What a successful reconcile leaves, and what the next one finds settled, is exactly what the spec asks for. */
  lemma DoneIsInPlace(goal: Goal, server: Authentik, marked: set<Object>, status: Status)
    requires goal.Valid()
    ensures Done(goal, server, marked, status) <==> AllInPlace(goal.spec, goal.resolved, server, marked, status)
  {
    hide ProviderDone, ApplicationDone, BindingsDone, ProviderInPlace, ApplicationInPlace, BindingsInPlace;
    ProviderDoneInPlace(goal, server, marked, status);
    ApplicationDoneInPlace(goal, server, marked, status);
    BindingsDoneInPlace(goal, server, marked, status);
  }

  lemma ProviderStillDone(goal: Goal, server: Authentik, marked: set<Object>, after: set<Object>, status: Status, later: Status)
    requires ProviderDone(goal, server, marked, status)
    requires forall o :: o in marked && !o.model.ApplicationModel? && !o.model.BindingModel? ==> o in after
    requires later.providerPk == status.providerPk && later.outpostUuid == status.outpostUuid
    ensures ProviderDone(goal, server, after, later)
  {}

  ghost predicate ObjectsDone(goal: Goal, server: Authentik, marked: set<Object>, status: Status)
    reads server`applications, server`proxyProviders, server`oauth2Providers, server`outposts
  {
    ProviderDone(goal, server, marked, status) && ApplicationDone(goal, server, marked, status)
  }

  /** More markers, and a status with the same records, change nothing. */
  lemma StillDone(goal: Goal, server: Authentik, marked: set<Object>, after: set<Object>, status: Status, later: Status)
    requires marked <= after
    ensures later.applicationPk == status.applicationPk && later.providerPk == status.providerPk ==>
              && (ApplicationDone(goal, server, marked, status) ==> ApplicationDone(goal, server, after, later))
              && (ObjectsDone(goal, server, marked, status) && later.outpostUuid == status.outpostUuid ==>
                    ObjectsDone(goal, server, after, later))
  {}

  /** Neither do new and removed markers of Bindings. */
  lemma DoneBesideBindings(goal: Goal, server: Authentik, foreign: set<Key>, marked: set<Object>, after: set<Object>,
                           status: Status, later: Status)
    requires OtherMarks(foreign, marked, after) && ObjectsDone(goal, server, marked, status)
    requires BesideBindings(later) == BesideBindings(status)
    ensures ObjectsDone(goal, server, after, later)
  {}

  lemma MarksOfOtherModel(before: set<Object>, after: set<Object>, model: Model)
    requires MarksGrow(before, after, model) && !model.BindingModel?
    ensures BindingMarksStay(before, after)
  {}

  lemma BindingMarksChain(a: set<Object>, b: set<Object>, c: set<Object>)
    requires BindingMarksStay(a, b) && BindingMarksStay(b, c)
    ensures BindingMarksStay(a, c) && a <= b <= c
  {}

  lemma SameMarks(marked: set<Object>)
    ensures BindingMarksStay(marked, marked)
  {}

  lemma BindingsStillDone(goal: Goal, server: Authentik, marked: set<Object>, after: set<Object>, status: Status)
    requires goal.Valid() && BindingsDone(goal, server, marked, status) && BindingMarksStay(marked, after)
    ensures BindingsDone(goal, server, after, status)
  {
    hide DiffBinding, SingleSubject, DesiredBinding;
    assert forall k :: BindingObject(k) in after ==> BindingObject(k) in marked;
  }

  // ---------- the search for the Provider, over a whole reconcile ----------

  /** What the search takes for a resource; a resource without a Provider takes none. */
  ghost function SearchFor(goal: Goal, c: Catalog, recorded: Option<Key>): Search {
    if goal.spec.provider.None? then Search({}, true)
    else SearchAt(goal.Handler().value, c, goal.Name(), goal.spec.slug, recorded)
  }

  /** The run recovers for a retry with the status written last, and for one that writes the status first. */
  ghost predicate SearchKept(goal: Goal, c: Catalog, base: Option<Key>, status: Option<Key>, before: Search, known: set<Key>,
                             created: nat, refused: bool) {
    && Recovers(before, SearchFor(goal, c, base), known, created, refused)
    && Recovers(before, SearchFor(goal, c, status), known, created, refused)
  }

  lemma SearchStarts(goal: Goal, c: Catalog, recorded: Option<Key>, known: set<Key>, history: seq<Write>)
    ensures SearchKept(goal, c, recorded, recorded, SearchFor(goal, c, recorded), known,
                       AcceptedCalls(history, |history|, CreateProviderCall),
                       NameRefused(history, |history|))
    ensures CreatesNoProvider(history, |history|)
  {
    NothingCreated(history, history);
  }

  lemma ProviderSearch(goal: Goal, c: Catalog, base: Option<Key>, status: Option<Key>, before: Search, known: set<Key>,
                       created: nat, refused: bool)
    requires goal.spec.provider.Some?
    ensures SearchFor(goal, c, base) == SearchAt(goal.Handler().value, c, goal.Name(), goal.spec.slug, base)
    ensures SearchFor(goal, c, base).selection == Selection(goal.Handler().value, c, goal.Name(), goal.spec.slug, base)
    ensures KeepsSearch(goal.Handler().value, c, goal.Name(), goal.spec.slug, base, status, before, known, created, refused) ==>
              SearchKept(goal, c, base, status, before, known, created, refused)
  {}

  /** The search goes on as it is when it takes the same Provider as before. */
  lemma SearchStays(goal: Goal, c: Catalog, base: Option<Key>, status: Option<Key>, later: Catalog, laterBase: Option<Key>,
                    laterStatus: Option<Key>, before: Search, known: set<Key>, created: nat, refused: bool)
    requires SearchKept(goal, c, base, status, before, known, created, refused)
    requires SearchFor(goal, later, laterBase) == SearchFor(goal, c, base) == SearchFor(goal, later, laterStatus)
    ensures SearchKept(goal, later, laterBase, laterStatus, before, known, created, refused)
  {}

  /** The search of a resource whose Provider is in place. */
  function TakenSearch(goal: Goal, recorded: Option<Key>): Search {
    if goal.spec.provider.None? || recorded.None? then Search({}, true) else Search({recorded.value}, true)
  }

  lemma DoneSearch(goal: Goal, server: Authentik, marked: set<Object>, status: Status)
    requires ProviderDone(goal, server, marked, status)
    ensures SearchFor(goal, CatalogOf(server), status.providerPk) == TakenSearch(goal, status.providerPk)
  {
    if goal.spec.provider.Some? {
      RecordedIsSelected(goal.Handler().value, server, goal.Name(), goal.spec.slug, status.providerPk.value);
    }
  }

  /** No request created a Provider, or was refused for its name. */
  ghost predicate CreatesNoProvider(history: seq<Write>, start: nat) {
    AcceptedCalls(history, start, CreateProviderCall) == 0 && !NameRefused(history, start)
  }

  lemma CreatedBefore(history: seq<Write>, longer: seq<Write>, start: nat)
    requires history <= longer && start <= |history| && CreatesNoProvider(longer, |history|)
    ensures AcceptedCalls(longer, start, CreateProviderCall) == AcceptedCalls(history, start, CreateProviderCall)
    ensures NameRefused(longer, start) <==> NameRefused(history, start)
  {
    AcceptedAdd(history, longer, start, CreateProviderCall);
    NoneRefusedBefore(history, longer, start);
  }

  /** The Provider to take differs from the spec in a way that the server does not let the operator repair. */
  ghost predicate Stuck(goal: Goal, c: Catalog, recorded: Option<Key>) {
    goal.spec.provider.Some? && TakesStuck(goal.Handler().value, c, goal.Name(), goal.spec.slug, recorded)
  }

  /** It stays so while the Provider is as it was. */
  lemma StuckStays(goal: Goal, c: Catalog, recorded: Option<Key>, later: Catalog, now: Option<Key>, known: set<Key>,
                   created: nat, refused: bool)
    requires Recovers(SearchFor(goal, c, recorded), SearchFor(goal, later, now), known, created, refused)
    ensures Stuck(goal, c, recorded) && later.proxies == c.proxies ==> Stuck(goal, later, now)
  {
    if Stuck(goal, c, recorded) && later.proxies == c.proxies {
      var h := goal.Handler().value;
      var pk :| Selection(h, c, goal.Name(), goal.spec.slug, recorded) == {pk} && !h.RepairAccepted(c.proxies, pk);
      assert SearchFor(goal, c, recorded).selection == {pk} && pk in SearchFor(goal, c, recorded).selection;
      assert Selection(h, later, goal.Name(), goal.spec.slug, now) == {pk};
    }
  }

  // ---------- the Provider and its Outpost ----------

  /** Requests that leave the Bindings as they are. */
  ghost predicate KeepsBindings(before: seq<Write>, after: seq<Write>, bindings: map<Key, Binding>) {
    && before <= after
    && forall k :: |before| <= k < |after| ==>
         after[k].bindings == bindings && !after[k].call.DeleteBindingCall? && !after[k].call.CreateBindingCall?
           && !after[k].call.PatchBindingCall?
  }

  lemma KeepsBindingsChain(a: seq<Write>, b: seq<Write>, c: seq<Write>, bindings: map<Key, Binding>)
    requires KeepsBindings(a, b, bindings) && KeepsBindings(b, c, bindings)
    ensures KeepsBindings(a, c, bindings) && a <= b <= c
  {}

  lemma ThoseKeepBindings(a: seq<Write>, b: seq<Write>, bindings: map<Key, Binding>, outposts: map<Key, Outpost>)
    ensures OnlyMarkerWrites(a, b, bindings, outposts) ==> KeepsBindings(a, b, bindings)
    ensures OnlyProviderWrites(a, b, bindings, outposts) ==> KeepsBindings(a, b, bindings)
    ensures OnlyApplicationWrites(a, b, bindings, outposts) ==> KeepsBindings(a, b, bindings)
  {}

  lemma MoveKeepsBindings(a: seq<Write>, b: seq<Write>, first: map<Key, Outpost>, now: map<Key, Outpost>,
                          bindings: map<Key, Binding>, pk: Key)
    requires a <= b && Move(b, |a|, first, now, bindings, pk)
    ensures KeepsBindings(a, b, bindings) && CreatesNoProvider(b, |a|) && OnlyLinks(a, b) && OthersKept(first, now, pk)
  {
    NothingCreated(a, b);
  }

  /** Neither the Application nor the Provider was created or patched. */
  ghost predicate OnlyLinks(before: seq<Write>, after: seq<Write>) {
    before <= after && forall k :: |before| <= k < |after| ==> RoleCall(after[k].call) || after[k].call.SetOutpostCall?
  }

  lemma OnlyLinksChain(a: seq<Write>, b: seq<Write>, c: seq<Write>)
    requires OnlyLinks(a, b) && OnlyLinks(b, c)
    ensures OnlyLinks(a, c)
  {}

  lemma LinksAfter(a: seq<Write>, b: seq<Write>, c: seq<Write>)
    ensures OnlyLinks(a, b) && OnlyLinks(b, c) ==> OnlyLinks(a, c)
  {}

  lemma MarkersAreLinks(a: seq<Write>, b: seq<Write>, bindings: map<Key, Binding>, outposts: map<Key, Outpost>)
    ensures OnlyMarkerWrites(a, b, bindings, outposts) ==> OnlyLinks(a, b)
  {}

  /** exportCredentials: the Secret is created, never overwritten. */
  method ExportCredentials(server: Authentik, secret: CredentialsSecret, spec: CredentialsSpec, pk: Key) returns (res: Result<()>)
    requires pk in server.oauth2Providers
    modifies secret
    ensures if res.Ok? then old(secret.data).None? && secret.data == Some(ExportedSecret(spec, server.oauth2Providers[pk]))
            else secret.data == old(secret.data) && res.error == Unavailable
  {
    var provider := server.GetOAuth2Provider(pk);
    if provider.Err? {
      return Err(provider.error);
    }
    if secret.data.Some? {
      return Err(Unavailable);  // the Secret appeared since it was read
    }
    if * {
      return Err(Unavailable);
    }
    secret.data := Some(ExportedSecret(spec, provider.value));
    return Ok(());
  }

  /** The Secret holds what was exported, or is as before when nothing is. */
  ghost predicate Exported(goal: Goal, oauth2s: map<Key, OAuth2Provider>, pk: Option<Key>, before: Option<map<string, string>>,
                           now: Option<map<string, string>>) {
    if goal.Exports() then pk.Some? && pk.value in oauth2s && now == Some(ExportedSecret(goal.CredentialsSpec(), oauth2s[pk.value]))
    else now == before
  }

  /** What follows the Provider: its Outpost, and the export of its credentials. */
  method FinishProviderPart(server: Authentik, s: Resource, secret: CredentialsSecret, goal: Goal, pk: Key,
                            ghost search: Search, ghost known: set<Key>, ghost start: nat)
    returns (res: Result<()>)
    requires server.Valid() && goal.spec.provider.Some? && pk in goal.Handler().value.Keys(server)
    requires start <= |server.history|
    requires SearchKept(goal, CatalogOf(server), s.base.providerPk, s.status.providerPk, search, known,
                        AcceptedCalls(server.history, start, CreateProviderCall), NameRefused(server.history, start))
    modifies s`status, secret, server`outposts, server`history
    ensures server.Valid() && KeepsBindings(old(server.history), server.history, server.bindings)
            && OnlyLinks(old(server.history), server.history)
    ensures SearchKept(goal, CatalogOf(server), s.base.providerPk, s.status.providerPk, search, known,
                       AcceptedCalls(server.history, start, CreateProviderCall), NameRefused(server.history, start))
    ensures s.status == old(s.status).(outpostUuid := s.status.outpostUuid)
    ensures res.Ok? && goal.Handler().value.ProxyHandler? ==>
              && s.status.outpostUuid == Some(goal.resolved.proxy.outpost)
              && Moved(old(server.outposts), server.outposts, old(s.status).outpostUuid, goal.resolved.proxy.outpost, pk)
    ensures goal.Handler().value.ProxyHandler? ==>
              Move(server.history, old(|server.history|), old(server.outposts), server.outposts, server.bindings, pk)
    ensures OthersKept(old(server.outposts), server.outposts, pk)
            && JoinsOnly(goal.resolved.proxy.outpost, old(server.outposts), server.outposts, pk)
    ensures res.Ok? ==> Exported(goal, server.oauth2Providers, Some(pk), old(secret.data), secret.data)
    ensures res.Err? ==> secret.data == old(secret.data)
    ensures res.Err? ==> s.status == old(s.status) && !res.error.Stop?
    ensures var uuid := goal.resolved.proxy.outpost;
            goal.Handler().value.ProxyHandler? ==>
              uuid in old(server.outposts) && pk in old(server.outposts)[uuid].providers
                && old(s.status).outpostUuid == Some(uuid) ==>
              && server.history == old(server.history) && s.status == old(s.status)
              && (res.Err? ==> res.error == Unavailable)
    ensures goal.Handler().value.OAuth2Handler? ==>
              && server.history == old(server.history) && s.status == old(s.status) && (res.Err? ==> res.error == Unavailable)
  {
    hide ValidBindings, ValidApplications, ValidLinks, ValidProviders, ValidOutposts, ValidRoles, KeepsBindings, Move,
      AcceptedCalls, HandlerOf, CreatesNoProvider, SearchKept, CatalogOf, NameRefused;
    SameHistory(server.history, server.bindings);
    SameOutposts(server.outposts, pk);
    HandlerKind(goal);
    if goal.Handler().value.ProxyHandler? {
      res := ReconcileOutpost(server, s, goal.resolved.proxy.outpost, pk);
      MoveKeepsBindings(old(server.history), server.history, old(server.outposts), server.outposts, server.bindings, pk);
      CreatedBefore(old(server.history), server.history, start);
      return;
    }
    if goal.Exports() {
      res := ExportCredentials(server, secret, goal.CredentialsSpec(), pk);
      return;
    }
    return Ok(());
  }

  lemma HandlerKind(goal: Goal)
    requires goal.spec.provider.Some?
    ensures goal.Handler().value.ProxyHandler? <==> goal.spec.provider.value.kind.ProxySpec?
  {}

  /** The Provider itself, of a resource that has one. */
  method TakeProvider(markers: MarkerCache, s: Resource, goal: Goal, observed: Option<Application>) returns (res: Result<Key>)
    requires markers.marker.server.Valid() && markers.Exact() && goal.spec.provider.Some?
    requires IsApplication(markers.marker.server, goal.spec.slug, observed) && s.status.providerPk == s.base.providerPk
    modifies s, markers, markers.marker, markers.clock, markers.marker.server`proxyProviders,
             markers.marker.server`oauth2Providers, markers.marker.server`roles, markers.marker.server`sequence,
             markers.marker.server`grants, markers.marker.server`history
    ensures markers.marker.server.Valid() && markers.Exact()
    ensures BindingMarksStay(old(markers.marker.Marked()), markers.marker.Marked())
    ensures KeepsBindings(old(markers.marker.server.history), markers.marker.server.history, markers.marker.server.bindings)
    ensures s.status == old(s.status).(providerPk := s.status.providerPk) && (s.base == old(s.base) || s.base == s.status)
    ensures var h := goal.Handler().value;
            res.Ok? ==>
              && h.Conforms(markers.marker.server, res.value) && res.value in h.Keys(markers.marker.server)
              && s.status.providerPk == Some(res.value) == s.base.providerPk
              && h.Obj(res.value) in markers.marker.Marked()
    ensures var selection := old(SearchFor(goal, CatalogOf(markers.marker.server), s.base.providerPk)).selection;
            && (res.Ok? ==> res.value in selection || res.value !in old(markers.marker.server.Providers()))
            && (old(s.base).providerPk.Some? && old(s.base).providerPk.value in selection ==>
                  s.status.providerPk == old(s.base).providerPk)
            && OthersStay(selection, old(markers.marker.server.proxyProviders), old(markers.marker.server.oauth2Providers),
                          markers.marker.server.proxyProviders, markers.marker.server.oauth2Providers)
    ensures old(markers.marker.server.Providers()) <= markers.marker.server.Providers()
    ensures OnlyAsAsked(goal, old(markers.marker.server.proxyProviders), old(markers.marker.server.oauth2Providers),
                        markers.marker.server.proxyProviders, markers.marker.server.oauth2Providers)
    ensures SearchKept(goal, CatalogOf(markers.marker.server), s.base.providerPk, s.status.providerPk,
                       old(SearchFor(goal, CatalogOf(markers.marker.server), s.base.providerPk)),
                       old(markers.marker.server.Providers()),
                       AcceptedCalls(markers.marker.server.history, old(|markers.marker.server.history|), CreateProviderCall),
                       NameRefused(markers.marker.server.history, old(|markers.marker.server.history|)))
    ensures old(NothingToSend(goal, markers.marker.server, s.base.providerPk)) ==>
              OnlyLinks(old(markers.marker.server.history), markers.marker.server.history)
    ensures old(Stuck(goal, CatalogOf(markers.marker.server), s.base.providerPk)) ==>
              res.Err? && markers.marker.server.proxyProviders == old(markers.marker.server.proxyProviders)
    ensures res.Err? && res.error.Stop? ==> res.error == Stop(ProviderTypeMismatch)
    ensures old(ProviderDone(goal, markers.marker.server, markers.marker.Marked(), s.status)) ==>
              && markers.marker.server.history == old(markers.marker.server.history) && s.status == old(s.status)
              && s.base == old(s.base)
              && (res.Err? ==> res.error == Unavailable)
  {
    hide ValidBindings, ValidApplications, ValidLinks, ValidProviders, ValidOutposts, ValidRoles, MarkedBy, OnlyProviderWrites,
      KeepsBindings, Selection, BindingMarksStay, MarksGrow, Handler.Conforms, AcceptedCalls, HandlerOf, NameAgrees, Handler.Valid,
      NameFree, ClientIdBlocked, ProxyModeAccepted, Handler.ModeAccepted, SearchKept, KeepsSearch, SearchFor, SearchAt, NameRefused,
      TakesConforming, TakesStuck, OnlyLinks, OnlyMarkerWrites, CatalogOf, Goal.Handler, Goal.Name, MarkerCache.Exact,
      IsApplication, OthersStay, OnlyAsAsked, Arranged;
    var server := markers.marker.server;
    var h := goal.Handler().value;
    ghost var marked, search, known := markers.marker.Marked(), SearchFor(goal, CatalogOf(server), s.base.providerPk),
              server.Providers();
    ProviderSearch(goal, CatalogOf(server), s.base.providerPk, s.base.providerPk, search, known, 0, false);
    res := ReconcileProvider(markers, s, h, goal.Name(), goal.spec.slug, observed);
    TakenAsAsked(goal, old(server.proxyProviders), old(server.oauth2Providers), server.proxyProviders, server.oauth2Providers);
    ThoseKeepBindings(old(server.history), server.history, server.bindings, server.outposts);
    MarksOfOtherModel(marked, markers.marker.Marked(), h.Obj(EMPTY).model);
    MarkersAreLinks(old(server.history), server.history, server.bindings, server.outposts);
    ProviderSearch(goal, CatalogOf(server), s.base.providerPk, s.status.providerPk, search, known,
                   AcceptedCalls(server.history, old(|server.history|), CreateProviderCall),
                   NameRefused(server.history, old(|server.history|)));
  }

  /** The Provider part: the Provider itself, its Outpost, and the export of its credentials. */
  method ReconcileProviderPart(markers: MarkerCache, s: Resource, secret: CredentialsSecret, goal: Goal,
                               observed: Option<Application>)
    returns (res: Result<Option<Key>>)
    requires markers.marker.server.Valid() && markers.Exact()
    requires IsApplication(markers.marker.server, goal.spec.slug, observed) && s.status.providerPk == s.base.providerPk
    requires s.status.outpostUuid == s.base.outpostUuid
    modifies s, secret, markers, markers.marker, markers.clock, markers.marker.server`proxyProviders,
             markers.marker.server`oauth2Providers, markers.marker.server`outposts, markers.marker.server`roles,
             markers.marker.server`sequence, markers.marker.server`grants, markers.marker.server`history
    ensures markers.marker.server.Valid() && markers.Exact()
    ensures BindingMarksStay(old(markers.marker.Marked()), markers.marker.Marked())
    ensures KeepsBindings(old(markers.marker.server.history), markers.marker.server.history, markers.marker.server.bindings)
    ensures s.status == old(s.status).(providerPk := s.status.providerPk, outpostUuid := s.status.outpostUuid)
    ensures s.base == old(s.base) || s.base.(outpostUuid := None) == s.status.(outpostUuid := None)
    ensures res.Ok? ==>
              && res.value == goal.Link(s.status) && ProviderDone(goal, markers.marker.server, markers.marker.Marked(), s.status)
              && s.base.providerPk == s.status.providerPk
              && Exported(goal, markers.marker.server.oauth2Providers, s.status.providerPk, old(secret.data), secret.data)
              && Relocated(goal, old(markers.marker.server.outposts), markers.marker.server.outposts, old(s.status).outpostUuid,
                           s.status.providerPk)
    ensures res.Err? ==> secret.data == old(secret.data)
    ensures old(markers.marker.server.Providers()) <= markers.marker.server.Providers()
    ensures OnlyAsAsked(goal, old(markers.marker.server.proxyProviders), old(markers.marker.server.oauth2Providers),
                        markers.marker.server.proxyProviders, markers.marker.server.oauth2Providers)
    ensures SearchKept(goal, CatalogOf(markers.marker.server), s.base.providerPk, s.status.providerPk,
                       old(SearchFor(goal, CatalogOf(markers.marker.server), s.base.providerPk)),
                       old(markers.marker.server.Providers()),
                       AcceptedCalls(markers.marker.server.history, old(|markers.marker.server.history|), CreateProviderCall),
                       NameRefused(markers.marker.server.history, old(|markers.marker.server.history|)))
    ensures old(NothingToSend(goal, markers.marker.server, s.base.providerPk)) ==>
              OnlyLinks(old(markers.marker.server.history), markers.marker.server.history)
    ensures goal.spec.provider.None? ==> markers.marker.server.history == old(markers.marker.server.history)
    ensures old(Stuck(goal, CatalogOf(markers.marker.server), s.base.providerPk)) ==>
              res.Err? && markers.marker.server.proxyProviders == old(markers.marker.server.proxyProviders)
    ensures res.Err? && res.error.Stop? ==> res.error == Stop(ProviderTypeMismatch)
    ensures old(ProviderDone(goal, markers.marker.server, markers.marker.Marked(), s.status)) ==>
              && markers.marker.server.history == old(markers.marker.server.history) && s.status == old(s.status)
              && s.base == old(s.base)
              && (res.Err? ==> res.error == Unavailable)
    ensures Kept(goal.spec.slug, goal.resolved.proxy.outpost,
                 old(SearchFor(goal, CatalogOf(markers.marker.server), s.base.providerPk)).selection,
                 old(SceneOf(markers.marker, s.status, s.base)), SceneOf(markers.marker, s.status, s.base))
  {
    hide ValidBindings, ValidApplications, ValidLinks, ValidProviders, ValidOutposts, ValidRoles, MarkedBy, KeepsBindings,
      BindingMarksStay, Handler.Conforms, Move, Moved, AcceptedCalls, HandlerOf, SearchKept, SearchFor, NameRefused, OnlyLinks,
      Exported, Relocated, CatalogOf, Goal.Handler, MarkerCache.Exact, IsApplication, Kept, OthersStay, OthersKept, JoinsOnly,
      Stuck, NothingToSend, OnlyAsAsked;
    var server := markers.marker.server;
    ghost var scene := SceneOf(markers.marker, s.status, s.base);
    ghost var search, known := SearchFor(goal, CatalogOf(server), s.base.providerPk), server.Providers();
    SameAsAsked(goal, server.proxyProviders, server.oauth2Providers);
    if goal.spec.provider.None? {
      NoProviderPart(goal, markers, s, secret, scene);
      return Ok(None);
    }
    var provider := TakeProvider(markers, s, goal, observed);
    QuietPrefix(old(server.history), server.history, server.bindings);
    if provider.Err? {
      OnlyOneProvider(goal.spec.slug, goal.resolved.proxy.outpost, search.selection, scene,
                      SceneOf(markers.marker, s.status, s.base), EMPTY);
      return Err(provider.error);
    }
    ghost var history := server.history;
    var finished := FinishProviderPart(server, s, secret, goal, provider.value, search, known, old(|server.history|));
    KeepsBindingsChain(old(server.history), history, server.history, server.bindings);
    LinksAfter(old(server.history), history, server.history);
    OnlyOneProvider(goal.spec.slug, goal.resolved.proxy.outpost, search.selection, scene,
                    SceneOf(markers.marker, s.status, s.base), provider.value);
    if finished.Err? {
      return Err(finished.error);
    }
    MovedIsIn(old(server.outposts), server.outposts, old(s.status).outpostUuid, goal.resolved.proxy.outpost, provider.value);
    RelocatedBy(goal, old(server.outposts), server.outposts, old(s.status).outpostUuid, provider.value);
    return Ok(Some(provider.value));
  }

  /** Without a Provider there is nothing to do. */
  lemma NoProviderPart(goal: Goal, markers: MarkerCache, s: Resource, secret: CredentialsSecret, scene: Scene)
    requires goal.spec.provider.None? && scene == SceneOf(markers.marker, s.status, s.base) && SamePlace(s.status, s.base)
    ensures var server := markers.marker.server;
            && BindingMarksStay(scene.marked, markers.marker.Marked())
            && KeepsBindings(server.history, server.history, server.bindings) && OnlyLinks(server.history, server.history)
            && Exported(goal, server.oauth2Providers, s.status.providerPk, secret.data, secret.data)
            && Relocated(goal, server.outposts, server.outposts, s.status.outpostUuid, s.status.providerPk)
            && SearchKept(goal, CatalogOf(server), s.base.providerPk, s.status.providerPk,
                          SearchFor(goal, CatalogOf(server), s.base.providerPk), server.Providers(),
                          AcceptedCalls(server.history, |server.history|, CreateProviderCall),
                          NameRefused(server.history, |server.history|))
            && Kept(goal.spec.slug, goal.resolved.proxy.outpost, SearchFor(goal, CatalogOf(server), s.base.providerPk).selection,
                    scene, scene)
            && !Stuck(goal, CatalogOf(server), s.base.providerPk) && goal.Link(s.status).None?
  {
    hide SearchKept, SearchFor, CatalogOf, MarkedBy, Kept, AcceptedCalls, NameRefused;
    var server := markers.marker.server;
    SameHistory(server.history, server.bindings);
    SearchStarts(goal, CatalogOf(server), s.base.providerPk, server.Providers(), server.history);
    NothingExported(goal, server.oauth2Providers, s.status.providerPk, secret.data);
    NothingRelocated(goal, server.outposts, s.status.outpostUuid, s.status.providerPk);
    NothingKept(goal.spec.slug, goal.resolved.proxy.outpost, SearchFor(goal, CatalogOf(server), s.base.providerPk).selection,
                scene);
  }

  lemma NothingExported(goal: Goal, oauth2s: map<Key, OAuth2Provider>, pk: Option<Key>, data: Option<map<string, string>>)
    requires goal.spec.provider.None?
    ensures Exported(goal, oauth2s, pk, data, data)
  {}

  /** The Proxy Provider has joined its Outpost and left the recorded one. */
  ghost predicate Relocated(goal: Goal, before: map<Key, Outpost>, after: map<Key, Outpost>, recorded: Option<Key>,
                            pk: Option<Key>) {
    goal.spec.provider.Some? && goal.spec.provider.value.kind.ProxySpec? ==>
      pk.Some? && Moved(before, after, recorded, goal.resolved.proxy.outpost, pk.value)
  }

  lemma RelocatedBy(goal: Goal, before: map<Key, Outpost>, after: map<Key, Outpost>, recorded: Option<Key>, pk: Key)
    requires goal.spec.provider.Some?
    requires goal.Handler().value.ProxyHandler? ==> Moved(before, after, recorded, goal.resolved.proxy.outpost, pk)
    ensures Relocated(goal, before, after, recorded, Some(pk))
  {
    HandlerKind(goal);
  }

  lemma NothingRelocated(goal: Goal, outposts: map<Key, Outpost>, recorded: Option<Key>, pk: Option<Key>)
    requires goal.spec.provider.None?
    ensures Relocated(goal, outposts, outposts, recorded, pk)
  {}

  lemma MovedIsIn(before: map<Key, Outpost>, after: map<Key, Outpost>, recorded: Option<Key>, uuid: Key, pk: Key)
    ensures Moved(before, after, recorded, uuid, pk) ==> uuid in after && pk in after[uuid].providers
  {}

  lemma SameHistory(history: seq<Write>, bindings: map<Key, Binding>)
    ensures KeepsBindings(history, history, bindings) && CreatesNoProvider(history, |history|) && OnlyLinks(history, history)
  {
    NothingCreated(history, history);
  }

  // ---------- the Application ----------

  lemma OneApplication(goal: Goal, a: Scene, b: Scene, observed: Option<Application>)
    requires b == a.(applications := b.applications, marked := b.marked, status := b.status, base := b.base)
    requires if observed.Some? then goal.spec.slug in a.applications && a.applications[goal.spec.slug] == observed.value
             else goal.spec.slug !in a.applications
    requires b.applications == a.applications
             || (&& goal.spec.slug in b.applications
                 && b.applications == a.applications[goal.spec.slug := b.applications[goal.spec.slug]]
                 && (observed.Some? ==>
                       && b.applications[goal.spec.slug].pk == observed.value.pk
                       && b.applications[goal.spec.slug].pbmUuid == observed.value.pbmUuid))
    requires BindingMarksStay(a.marked, b.marked)
    requires SamePlace(b.status, a.status) && (b.base == a.base || b.base == b.status)
    requires Named(goal.spec.slug, a.status) ==> Named(goal.spec.slug, b.status)
    requires observed.Some? ==> b.status == a.status && b.base == a.base
    ensures Still(goal.spec.slug, goal.resolved.proxy.outpost, a, b)
  {
    OnlyOneApplication(goal.spec.slug, goal.resolved.proxy.outpost, a, b);
  }

  /** Creates the Application when there is none, and otherwise repairs it. */
  method ReconcileApplicationPart(markers: MarkerCache, s: Resource, goal: Goal, observed: Option<Application>,
                                  ghost search: Search, ghost known: set<Key>, ghost start: nat)
    returns (res: Result<Application>)
    requires markers.marker.server.Valid() && markers.Exact() && IsApplication(markers.marker.server, goal.spec.slug, observed)
    requires observed.Some? ==> Owned(observed.value, s.status, markers.marker.Marked())
    requires ProviderDone(goal, markers.marker.server, markers.marker.Marked(), s.status)
             && s.base.providerPk == s.status.providerPk
    requires start <= |markers.marker.server.history|
    requires SearchKept(goal, CatalogOf(markers.marker.server), s.base.providerPk, s.status.providerPk, search, known,
                        AcceptedCalls(markers.marker.server.history, start, CreateProviderCall),
                        NameRefused(markers.marker.server.history, start))
    modifies s, markers, markers.marker, markers.clock, markers.marker.server`applications, markers.marker.server`roles,
             markers.marker.server`sequence, markers.marker.server`grants, markers.marker.server`history
    ensures markers.marker.server.Valid() && markers.Exact()
    ensures KeepsBindings(old(markers.marker.server.history), markers.marker.server.history, markers.marker.server.bindings)
    ensures SearchKept(goal, CatalogOf(markers.marker.server), s.base.providerPk, s.status.providerPk, search, known,
                       AcceptedCalls(markers.marker.server.history, start, CreateProviderCall),
                       NameRefused(markers.marker.server.history, start))
    ensures BindingMarksStay(old(markers.marker.Marked()), markers.marker.Marked())
    ensures s.status == old(s.status).(applicationSlug := s.status.applicationSlug, applicationPk := s.status.applicationPk)
    ensures s.base == old(s.base) || s.base == s.status
    ensures ProviderDone(goal, markers.marker.server, markers.marker.Marked(), s.status)
    ensures s.base.providerPk == s.status.providerPk
    ensures res.Ok? && observed.Some? ==>
              goal.spec.slug in markers.marker.server.applications
              && markers.marker.server.applications[goal.spec.slug]
                == Repaired(DesiredApplication(goal.spec, goal.Link(s.status)), observed.value)
    ensures res.Ok? ==>
              && IsApplication(markers.marker.server, goal.spec.slug, Some(res.value))
              && ApplicationDone(goal, markers.marker.server, markers.marker.Marked(), s.status)
    ensures SlugAsAsked(goal.spec, old(markers.marker.server.applications), markers.marker.server.applications)
    ensures res.Err? ==> res.error == Unavailable || res.error == BadRequest
    ensures observed.Some? && old(ApplicationDone(goal, markers.marker.server, markers.marker.Marked(), s.status)) ==>
              && res == Ok(observed.value) && markers.marker.server.applications == old(markers.marker.server.applications)
              && markers.marker.server.history == old(markers.marker.server.history) && s.status == old(s.status)
              && s.base == old(s.base)
    ensures Still(goal.spec.slug, goal.resolved.proxy.outpost, old(SceneOf(markers.marker, s.status, s.base)),
                  SceneOf(markers.marker, s.status, s.base))
  {
    hide ValidBindings, ValidApplications, ValidLinks, ValidProviders, ValidOutposts, ValidRoles, MarkedBy, ApplicationConforms,
      ApplicationFrame, DesiredApplication, Handler.Conforms, HandlerOf, NameAgrees, Handler.Valid, ProviderAttachable, Repaired,
      SearchFor, SearchKept, AcceptedCalls, NameRefused, CatalogOf, CreatesNoProvider, KeepsBindings, OnlyApplicationWrites,
      TakenSearch, Still, RecordsStay, SlugAsAsked, Authentik.Providers;
    var server := markers.marker.server;
    ghost var scene := SceneOf(markers.marker, s.status, s.base);
    ghost var marked, catalog, recorded := markers.marker.Marked(), CatalogOf(server), s.status.providerPk;
    DoneSearch(goal, server, marked, s.status);
    LinkOfDone(goal, server, marked, s.status);
    if observed.None? {
      res := CreateApplication(markers, s, goal.spec, goal.Link(s.status));
    } else {
      res := RepairApplication(server, goal.spec, observed.value, goal.Link(s.status));
    }
    OneApplication(goal, scene, SceneOf(markers.marker, s.status, s.base), observed);
    ProviderStillDone(goal, server, marked, markers.marker.Marked(), old(s.status), s.status);
    DoneSearch(goal, server, markers.marker.Marked(), s.status);
    ThoseKeepBindings(old(server.history), server.history, server.bindings, server.outposts);
    ApplicationCallsCreateNoProvider(old(server.history), server.history, server.bindings, server.outposts);
    CreatedBefore(old(server.history), server.history, start);
    SearchStays(goal, catalog, recorded, recorded, CatalogOf(server), s.base.providerPk, s.status.providerPk, search, known,
                AcceptedCalls(server.history, start, CreateProviderCall), NameRefused(server.history, start));
  }

  // ---------- the Bindings ----------

  ghost predicate AllSingle(bindings: map<Key, Binding>) {
    forall k :: k in bindings ==> SingleSubject(bindings[k])
  }

  lemma AllSingleKept(before: map<Key, Binding>, after: map<Key, Binding>, target: Key)
    requires AllSingle(before) && OthersUntouched(before, after, target) && SingleSubjects(after, target)
    ensures AllSingle(after)
  {
    forall k | k in after ensures SingleSubject(after[k]) {
      assert after[k].target != target ==> after[k] == before[k];
    }
  }

  lemma MarkedOfDone(goal: Goal, server: Authentik, marked: set<Object>, status: Status, application: Application)
    requires ApplicationDone(goal, server, marked, status) && IsApplication(server, goal.spec.slug, Some(application))
    ensures ApplicationObject(application) in marked
  {}

  /** The Bindings part, which leaves the Provider and the Application as they are. */
  method ReconcileBindingsPart(markers: MarkerCache, s: Resource, goal: Goal, application: Application) returns (res: Result<()>)
    requires markers.marker.server.Valid() && markers.Exact() && goal.Valid() && AllSingle(markers.marker.server.bindings)
    requires IsApplication(markers.marker.server, goal.spec.slug, Some(application)) && s.status.bindingUuids == s.base.bindingUuids
    requires ProviderDone(goal, markers.marker.server, markers.marker.Marked(), s.status)
             && s.base.providerPk == s.status.providerPk
    requires ApplicationDone(goal, markers.marker.server, markers.marker.Marked(), s.status)
    modifies s, markers, markers.marker, markers.clock, markers.marker.server`bindings, markers.marker.server`roles,
             markers.marker.server`sequence, markers.marker.server`grants, markers.marker.server`history
    ensures markers.marker.server.Valid() && markers.Exact() && AllSingle(markers.marker.server.bindings)
    ensures old(markers.marker.server.history) <= markers.marker.server.history
    ensures SafeRun(markers.marker.server.history, old(|markers.marker.server.history|), old(markers.marker.server.bindings),
                    application.pbmUuid, goal.resolved.rules)
    ensures CreatesNoProvider(markers.marker.server.history, old(|markers.marker.server.history|))
    ensures UnmanagedStay(goal.spec.prune, old(markers.marker.server.bindings),
                          old(ManagedKeys(s.base.bindingUuids, markers.marker.Marked())), markers.marker.server.bindings)
    ensures CountedFor(goal.resolved.rules, application.pbmUuid, old(markers.marker.server.bindings),
                       old(ManagedKeys(s.base.bindingUuids, markers.marker.Marked())), markers.marker.server.bindings,
                       s.base.bindingUuids,
                       s.status.bindingUuids, markers.marker.Marked(), markers.marker.server.history,
                       old(|markers.marker.server.history|), res.Ok?)
    ensures Before(markers.marker.server.history, old(|markers.marker.server.history|), old(markers.marker.server.bindings),
                   |markers.marker.server.history|) == markers.marker.server.bindings
    ensures ProviderDone(goal, markers.marker.server, markers.marker.Marked(), s.status)
    ensures ApplicationDone(goal, markers.marker.server, markers.marker.Marked(), s.status)
    ensures s.base.providerPk == s.status.providerPk && s.status.providerPk == old(s.status).providerPk
    ensures s.status.adoptionDiff == old(s.status).adoptionDiff
    ensures res.Ok? || res.error.Stop? ==> BindingsDone(goal, markers.marker.server, markers.marker.Marked(), s.status)
    ensures res.Err? && res.error.Stop? ==> res.error == Stop(UnmanagedBindings)
    ensures res.Ok? || res.error.Stop? ==>
              UnmanagedReported(goal.spec, markers.marker.server.applications, markers.marker.server.bindings, s.status, res.Err?)
    ensures old(BindingsDone(goal, markers.marker.server, markers.marker.Marked(), s.status)) ==>
              && markers.marker.server.history == old(markers.marker.server.history)
              && (res.Err? ==> res.error == Unavailable || res.error == Stop(UnmanagedBindings))
    ensures Still(goal.spec.slug, goal.resolved.proxy.outpost, old(SceneOf(markers.marker, s.status, s.base)),
                  SceneOf(markers.marker, s.status, s.base))
  {
    hide ValidBindings, ValidApplications, ValidLinks, ValidProviders, ValidOutposts, ValidRoles, MarkedBy, ApplicationConforms,
      DesiredApplication, Handler.Conforms, HandlerOf, NameAgrees, Handler.Valid, Settled, SafeRun, CountedFor, Counted, OrdersFit,
      AllSingle, SingleSubjects, ManagedKeys, OthersUntouched, NoneRefused, CreatesNoProvider, Still, OtherMarks, ProviderDone,
      ApplicationDone, UnmanagedReported, Finished, Authentik.Providers, ExpectedError, UnmanagedStay, RecordsStay;
    var server := markers.marker.server;
    ghost var scene := SceneOf(markers.marker, s.status, s.base);
    ghost var marked := markers.marker.Marked();
    SinglesOf(server.bindings, application.pbmUuid);
    if BindingsDone(goal, server, marked, s.status) {
      MarkedOfDone(goal, server, marked, s.status, application);
      MarkedNeedsRole(server.roles, server.grants, markers.marker.roleName, ApplicationObject(application));
      PrunedIsSettled(goal.resolved.rules, application.pbmUuid, goal.spec.prune, server.bindings, s.status.bindingUuids, marked);
    }
    res := ReconcileBindings(markers, s, application.pbmUuid, goal.resolved.rules, goal.spec.prune, goal.spec.public);
    FinishedIsReported(goal, application, old(server.bindings), server, s.status, s.base, markers.marker.Marked(), res,
                       old(OrdersFit(server.bindings, application.pbmUuid, |goal.resolved.rules|)));
    if res.Err? && res.error.Stop? {
      CountedOnTheWay(goal.resolved.rules, application.pbmUuid, old(server.bindings),
                      old(ManagedKeys(s.base.bindingUuids, markers.marker.Marked())),
                      server.bindings, s.base.bindingUuids, s.status.bindingUuids, markers.marker.Marked(), server.history,
                      old(|server.history|));
    }
    SameRecords(goal.spec.slug, scene, SceneOf(markers.marker, s.status, s.base));
    OnlyItsBindings(goal.spec.slug, goal.resolved.proxy.outpost, scene, SceneOf(markers.marker, s.status, s.base));
    AllSingleKept(old(server.bindings), server.bindings, application.pbmUuid);
    BindingCallsCreateNoProvider(old(server.history), server.history);
    DoneBesideBindings(goal, server, Foreign(old(server.bindings), application.pbmUuid), marked, markers.marker.Marked(),
                       old(s.status), s.status);
  }

  lemma FinishedIsReported(goal: Goal, application: Application, first: map<Key, Binding>, server: Authentik, status: Status,
                           base: Status, marked: set<Object>, res: Result<()>, room: bool)
    requires goal.Valid() && IsApplication(server, goal.spec.slug, Some(application))
    ensures && (res.Ok? || res.error.Stop?) && ExpectedError(res, room, goal.spec.public, status)
            && Finished(goal.resolved.rules, application.pbmUuid, goal.spec.prune, first, server.bindings, status, base, marked) ==>
              UnmanagedReported(goal.spec, server.applications, server.bindings, status, res.Err?)
    ensures Finished(goal.resolved.rules, application.pbmUuid, goal.spec.prune, first, server.bindings, status, base, marked) ==>
              BindingsDone(goal, server, marked, status)
    ensures ExpectedError(res, room, goal.spec.public, status) && res.Err? ==>
              res.error == Unavailable || res.error == BadRequest || res.error == Stop(UnmanagedBindings)
  {
    hide Settled;
    assert forall k :: k in status.unmanagedBindings <==> k in Elements(status.unmanagedBindings);
  }

  lemma BindingCallsCreateNoProvider(history: seq<Write>, longer: seq<Write>)
    requires history <= longer && OnlyBindingCalls(longer, |history|)
    ensures CreatesNoProvider(longer, |history|)
  {
    NothingCreated(history, longer);
  }

  lemma SinglesOf(bindings: map<Key, Binding>, target: Key)
    requires AllSingle(bindings)
    ensures SingleSubjects(bindings, target)
  {}

  lemma PrunedIsSettled(rules: seq<Rule>, target: Key, prune: bool, bindings: map<Key, Binding>, recorded: seq<Key>,
                        marked: set<Object>)
    requires ValidRules(rules) && Settled(rules, target, prune, bindings, recorded, marked)
    ensures Settled(rules, target, false, bindings, recorded, marked)
  {}

  // ---------- one reconcile ----------

  /** A run whose first part leaves the Bindings alone is as safe as the rest of it. */
  lemma SafeAfterQuiet(a: seq<Write>, b: seq<Write>, c: seq<Write>, first: map<Key, Binding>, now: map<Key, Binding>,
                       target: Key, rules: seq<Rule>)
    requires ValidRules(rules) && SingleSubjects(first, target) && KeepsBindings(a, b, first) && b <= c
    requires SafeRun(c, |b|, first, target, rules) && Before(c, |b|, first, |c|) == now
    ensures SafeRun(c, |a|, first, target, rules) && Before(c, |a|, first, |c|) == now
  {
    QuietIsSafe(a, b, first, target, rules);
    SafeRunsChain(b, c, |a|, first, first, target, rules);
  }

  lemma QuietIsSafe(a: seq<Write>, b: seq<Write>, first: map<Key, Binding>, target: Key, rules: seq<Rule>)
    requires ValidRules(rules) && SingleSubjects(first, target) && KeepsBindings(a, b, first)
    ensures SafeRun(b, |a|, first, target, rules) && Before(b, |a|, first, |b|) == first
  {
    hide Represented, SingleSubject;
    assert forall k :: |a| <= k <= |b| ==> Before(b, |a|, first, k) == first;
  }

  /**
   What a run did to the Bindings: it served every rule of the resource safely on its Application, and in every class it
   did what an attempt does; without an Application it left the Bindings, and what is managed, as they were. What it does not
   manage it leaves alone, unless the spec asks to prune.
   */
  ghost predicate Served(goal: Goal, applications: map<string, Application>, first: map<Key, Binding>, keys: set<Key>,
                         now: map<Key, Binding>, keysNow: set<Key>, history: seq<Write>, start: nat)
    requires goal.Valid()
  {
    && start <= |history| && Before(history, start, first, |history|) == now
    && UnmanagedStay(goal.spec.prune, first, keys, now)
    && if goal.spec.slug in applications then
         var target := applications[goal.spec.slug].pbmUuid;
         && SafeRun(history, start, first, target, goal.resolved.rules)
         && Counted(goal.resolved.rules, target, first, keys, now, keysNow, history, start, false)
       else now == first && keysNow == keys && KeepsBindings(history[..start], history, first)
  }

  lemma QuietPrefix(a: seq<Write>, b: seq<Write>, bindings: map<Key, Binding>)
    requires KeepsBindings(a, b, bindings)
    ensures a <= b
  {}

  lemma QuietIsServed(goal: Goal, applications: map<string, Application>, first: map<Key, Binding>, keys: set<Key>,
                      a: seq<Write>, b: seq<Write>)
    requires goal.Valid() && AllSingle(first) && KeepsBindings(a, b, first)
    ensures Served(goal, applications, first, keys, first, keys, b, |a|)
  {
    assert b[..|a|] == a;
    if goal.spec.slug in applications {
      var target := applications[goal.spec.slug].pbmUuid;
      QuietIsSafe(a, b, first, target, goal.resolved.rules);
      NothingAdopted(goal.resolved.rules, target, first, keys);
      NoCreations(a, b, |a|);
      SafeRunStarts(a, first, target, goal.resolved.rules);
      assert first.Keys - first.Keys == {};
    } else {
      QuietIsSafe(a, b, first, 0, []);
    }
  }

  /** A run whose first part leaves the Bindings alone serves as the rest of it does. */
  lemma ServedAfterQuiet(goal: Goal, applications: map<string, Application>, first: map<Key, Binding>, keys: set<Key>,
                         now: map<Key, Binding>, keysNow: set<Key>, a: seq<Write>, b: seq<Write>, c: seq<Write>, finished: bool)
    requires goal.Valid() && AllSingle(first) && KeepsBindings(a, b, first) && b <= c && goal.spec.slug in applications
    requires SafeRun(c, |b|, first, applications[goal.spec.slug].pbmUuid, goal.resolved.rules) && Before(c, |b|, first, |c|) == now
    requires Counted(goal.resolved.rules, applications[goal.spec.slug].pbmUuid, first, keys, now, keysNow, c, |b|, finished)
    requires UnmanagedStay(goal.spec.prune, first, keys, now)
    ensures Served(goal, applications, first, keys, now, keysNow, c, |a|)
  {
    hide SafeRun, Tallied, KeepsBindings, AllSingle, SingleSubjects, UnmanagedStay;
    var target := applications[goal.spec.slug].pbmUuid;
    SinglesOf(first, target);
    SafeAfterQuiet(a, b, c, first, now, target, goal.resolved.rules);
    QuietPrefix(a, b, first);
    NotCreated(a, b, first);
    AcceptedAdd(b, c, |a|, CreateBindingCall);
    TalliedOnTheWay(goal.resolved.rules, target, first, keys, now, keysNow, finished);
  }

  lemma NotCreated(a: seq<Write>, b: seq<Write>, bindings: map<Key, Binding>)
    requires KeepsBindings(a, b, bindings)
    ensures Creations(b, |a|) == 0
  {
    NoCreations(a, b, |a|);
    NoCreations(a, a, |a|);
  }

  lemma TalliedOnTheWay(rules: seq<Rule>, target: Key, first: map<Key, Binding>, keys: set<Key>, now: map<Key, Binding>,
                        keysNow: set<Key>, finished: bool)
    requires ValidRules(rules) && Tallied(rules, target, first, keys, now, keysNow, finished)
    ensures Tallied(rules, target, first, keys, now, keysNow, false)
  {
    hide Attempted, Completed;
  }

  /** The attached Provider and the Application have every managed value, so that taking them over sends nothing. */
  ghost predicate Fitting(goal: Goal, server: Authentik, observed: Application)
    reads server`proxyProviders, server`oauth2Providers
  {
    && ApplicationConforms(DesiredApplication(goal.spec, None), observed)
    && (goal.spec.provider.Some? ==>
          && observed.provider.Value? && observed.provider.value in goal.Handler().value.Keys(server)
          && goal.Handler().value.Conforms(server, observed.provider.value))
  }

  /** The Provider to take has every managed value; a resource without a Provider has nothing to take. */
  ghost predicate NothingToSend(goal: Goal, server: Authentik, recorded: Option<Key>)
    reads server`applications, server`proxyProviders, server`oauth2Providers
  {
    goal.spec.provider.Some? ==> TakesConforming(goal.Handler().value, server, goal.Name(), goal.spec.slug, recorded)
  }

  lemma FittingIsTaken(goal: Goal, server: Authentik, observed: Application)
    requires Fitting(goal, server, observed) && IsApplication(server, goal.spec.slug, Some(observed))
    ensures NothingToSend(goal, server, None)
    ensures goal.spec.provider.Some? ==>
              observed.provider.Value? && SearchFor(goal, CatalogOf(server), None).selection == {observed.provider.value}
    ensures ApplicationConforms(DesiredApplication(goal.spec, None), observed)
  {
    if goal.spec.provider.Some? {
      var h := goal.Handler().value;
      SelectionCases(h, server, goal.Name(), goal.spec.slug, None);
      TakenProvider(h, server, goal.Name(), goal.spec.slug, None);
      assert Selection(h, CatalogOf(server), goal.Name(), goal.spec.slug, None) == {observed.provider.value};
    }
  }

  /** The Provider taken is the attached one, so that the Application needs no patch either. */
  lemma FittingIsDone(goal: Goal, server: Authentik, observed: Application, marked: set<Object>, status: Status, before: Search,
                      known: set<Key>, created: nat, refused: bool, base: Option<Key>)
    requires ApplicationConforms(DesiredApplication(goal.spec, None), observed) && ProviderDone(goal, server, marked, status)
    requires goal.spec.provider.Some? ==> observed.provider.Value? && before.selection == {observed.provider.value}
    requires SearchKept(goal, CatalogOf(server), base, status.providerPk, before, known, created, refused)
    requires IsApplication(server, goal.spec.slug, Some(observed)) && Owned(observed, status, marked)
    ensures ApplicationDone(goal, server, marked, status)
  {
    if goal.spec.provider.Some? {
      DoneSearch(goal, server, marked, status);
      assert status.providerPk.value in {observed.provider.value};
      AdoptedNeedsOnlyLink(goal.spec, observed, status.providerPk.value);
      ApplicationDiffExact(DesiredApplication(goal.spec, status.providerPk), observed);
    }
  }

  /** The Provider and then the Application, once it is known whether there is one. */
  method ReconcileTaken(markers: MarkerCache, s: Resource, secret: CredentialsSecret, goal: Goal, observed: Option<Application>)
    returns (res: Result<Application>)
    requires markers.marker.server.Valid() && markers.Exact() && IsApplication(markers.marker.server, goal.spec.slug, observed)
    requires observed.Some? ==> Owned(observed.value, s.status, markers.marker.Marked())
    requires s.status.providerPk == s.base.providerPk && s.status.bindingUuids == s.base.bindingUuids
    requires s.status.outpostUuid == s.base.outpostUuid
    modifies s, secret, markers, markers.marker, markers.clock, markers.marker.server`applications,
             markers.marker.server`proxyProviders, markers.marker.server`oauth2Providers, markers.marker.server`outposts,
             markers.marker.server`roles, markers.marker.server`sequence, markers.marker.server`grants,
             markers.marker.server`history
    ensures markers.marker.server.Valid() && markers.Exact()
    ensures BindingMarksStay(old(markers.marker.Marked()), markers.marker.Marked())
    ensures KeepsBindings(old(markers.marker.server.history), markers.marker.server.history, markers.marker.server.bindings)
    ensures s.status.bindingUuids == s.base.bindingUuids == old(s.base).bindingUuids
            && s.status.adoptionDiff == old(s.status).adoptionDiff
    ensures res.Ok? ==>
              && IsApplication(markers.marker.server, goal.spec.slug, Some(res.value)) && s.base.providerPk == s.status.providerPk
              && ProviderDone(goal, markers.marker.server, markers.marker.Marked(), s.status)
              && ApplicationDone(goal, markers.marker.server, markers.marker.Marked(), s.status)
              && Exported(goal, markers.marker.server.oauth2Providers, s.status.providerPk, old(secret.data), secret.data)
              && Relocated(goal, old(markers.marker.server.outposts), markers.marker.server.outposts, old(s.status).outpostUuid,
                           s.status.providerPk)
    ensures !goal.Exports() ==> secret.data == old(secret.data)
    ensures old(markers.marker.server.Providers()) <= markers.marker.server.Providers()
    ensures SlugAsAsked(goal.spec, old(markers.marker.server.applications), markers.marker.server.applications)
    ensures OnlyAsAsked(goal, old(markers.marker.server.proxyProviders), old(markers.marker.server.oauth2Providers),
                        markers.marker.server.proxyProviders, markers.marker.server.oauth2Providers)
    ensures SearchKept(goal, CatalogOf(markers.marker.server), s.base.providerPk, s.status.providerPk,
                       old(SearchFor(goal, CatalogOf(markers.marker.server), s.base.providerPk)),
                       old(markers.marker.server.Providers()),
                       AcceptedCalls(markers.marker.server.history, old(|markers.marker.server.history|), CreateProviderCall),
                       NameRefused(markers.marker.server.history, old(|markers.marker.server.history|)))
    ensures observed.Some? && old(Fitting(goal, markers.marker.server, observed.value)) && old(s.base).providerPk.None? ==>
              OnlyLinks(old(markers.marker.server.history), markers.marker.server.history)
    ensures observed.Some? && res.Ok? ==>
              markers.marker.server.applications[goal.spec.slug]
                == Repaired(DesiredApplication(goal.spec, goal.Link(s.status)), observed.value)
    ensures old(Stuck(goal, CatalogOf(markers.marker.server), s.base.providerPk)) ==>
              && res.Err? && markers.marker.server.proxyProviders == old(markers.marker.server.proxyProviders)
              && markers.marker.server.applications == old(markers.marker.server.applications)
    ensures res.Err? && res.error.Stop? ==> res.error == Stop(ProviderTypeMismatch)
    ensures observed.Some? && old(ObjectsDone(goal, markers.marker.server, markers.marker.Marked(), s.status)) ==>
              && markers.marker.server.applications == old(markers.marker.server.applications)
              && markers.marker.server.history == old(markers.marker.server.history) && s.status == old(s.status)
              && s.base == old(s.base)
              && (res.Err? ==> res.error == Unavailable)
    ensures Kept(goal.spec.slug, goal.resolved.proxy.outpost,
                 old(SearchFor(goal, CatalogOf(markers.marker.server), s.base.providerPk)).selection,
                 old(SceneOf(markers.marker, s.status, s.base)), SceneOf(markers.marker, s.status, s.base))
  {
    hide ValidBindings, ValidApplications, ValidLinks, ValidProviders, ValidOutposts, ValidRoles, MarkedBy, ApplicationConforms,
      DesiredApplication, Handler.Conforms, HandlerOf, NameAgrees, Handler.Valid, ProviderDone, SearchKept, SearchFor, NameRefused,
      Recovers, AcceptedCalls, OnlyApplicationWrites, KeepsBindings, BindingMarksStay, Goal.Handler, Goal.Name, MarkerCache.Exact,
      IsApplication, Exported, Relocated, CatalogOf, CreatesNoProvider, OnlyLinks, Fitting, Stuck, NothingToSend, Repaired,
      Goal.Link, Goal.Exports, ApplicationObject, ApplicationDone, Kept, Still, SceneOf, OnlyAsAsked, SlugAsAsked;
    var server := markers.marker.server;
    ghost var scene := SceneOf(markers.marker, s.status, s.base);
    ghost var marked, search, known := markers.marker.Marked(), SearchFor(goal, CatalogOf(server), s.base.providerPk),
              server.Providers();
    ghost var fitting := observed.Some? && Fitting(goal, server, observed.value) && s.base.providerPk.None?;
    if fitting {
      FittingIsTaken(goal, server, observed.value);
    }
    SameSlug(goal.spec, server.applications);
    var link := ReconcileProviderPart(markers, s, secret, goal, observed);
    if link.Err? {
      return Err(link.error);
    }
    ghost var history, linked, middle := server.history, markers.marker.Marked(), SceneOf(markers.marker, s.status, s.base);
    ExportedOrNot(goal, server.oauth2Providers, s.status.providerPk, old(secret.data), secret.data);
    SameMarks(linked);
    BindingMarksChain(marked, linked, linked);
    QuietPrefix(old(server.history), history, server.bindings);
    StillDone(goal, server, marked, linked, old(s.status), s.status);
    if fitting {
      FittingIsDone(goal, server, observed.value, linked, s.status, search, known,
                    AcceptedCalls(history, old(|server.history|), CreateProviderCall), NameRefused(history, old(|server.history|)),
                    s.base.providerPk);
      NoLinks(history);
    }
    res := ReconcileApplicationPart(markers, s, goal, observed, search, known, old(|server.history|));
    KeptThenStill(goal.spec.slug, goal.resolved.proxy.outpost, search.selection, scene, middle,
                  SceneOf(markers.marker, s.status, s.base));
    BindingMarksChain(marked, linked, markers.marker.Marked());
    KeepsBindingsChain(old(server.history), history, server.history, server.bindings);
    if fitting {
      OnlyLinksChain(old(server.history), history, server.history);
    }
  }

  lemma NoLinks(history: seq<Write>)
    ensures OnlyLinks(history, history)
  {}

  lemma ExportedOrNot(goal: Goal, oauth2s: map<Key, OAuth2Provider>, pk: Option<Key>, before: Option<map<string, string>>,
                      now: Option<map<string, string>>)
    ensures Exported(goal, oauth2s, pk, before, now) && !goal.Exports() ==> now == before
  {}

  // ---------- adoption, over the steps up to the Application ----------

  /** The run is about to adopt the Application under IfMatch, with no Provider recorded. */
  ghost predicate Adopting(goal: Goal, marker: Marker, status: Status)
    reads marker.server`applications, marker.server`roles, marker.server`grants
  {
    goal.spec.adopt == Some(IfMatch) && Unclaimed(marker, goal.spec.slug, status) && status.providerPk.None?
  }

  /** The Application exists, and is linked to a Provider of the type that the spec asks for, if it asks for one. */
  ghost predicate Attaches(goal: Goal, server: Authentik)
    reads server`applications, server`proxyProviders, server`oauth2Providers
  {
    && goal.spec.slug in server.applications
    && (goal.spec.provider.Some? ==>
          && server.applications[goal.spec.slug].provider.Value?
          && server.applications[goal.spec.slug].provider.value in goal.Handler().value.Keys(server))
  }

  /** Why spec.adopt keeps the operator from taking over the Application under the slug, if it does. */
  ghost function RefusalFor(goal: Goal, server: Authentik): Option<StopReason>
    requires goal.spec.slug in server.applications
    reads server`applications, server`proxyProviders, server`oauth2Providers
  {
    Refusal(server, goal.spec, goal.Handler(), server.applications[goal.spec.slug])
  }

  /**
   What becomes of an Application that the operator does not know. Short of a failed call, the run gets past adoption and
   marks the Application if and only if nothing speaks against it, and otherwise it stops for that reason.
   */
  ghost predicate AdoptionDecides(marked: set<Object>, error: Option<Error>, obj: Object, refusal: Option<StopReason>) {
    if refusal.None? then error == Some(Unavailable) || obj in marked
    else obj !in marked && (error == Some(Unavailable) || error == Some(Stop(refusal.value)))
  }

  /** The object of the Application under the slug, if there is one, and what speaks against taking it. */
  ghost method AdoptionCase(goal: Goal, server: Authentik) returns (obj: Object, refusal: Option<StopReason>)
    ensures obj.model.ApplicationModel?
    ensures goal.spec.slug in server.applications ==>
              obj == ApplicationObject(server.applications[goal.spec.slug]) && refusal == RefusalFor(goal, server)
  {
    obj, refusal := Object(ApplicationModel, EMPTY), None;
    if goal.spec.slug in server.applications {
      obj, refusal := ApplicationObject(server.applications[goal.spec.slug]), RefusalFor(goal, server);
    }
  }

  /** A run that got past adoption keeps what was decided. */
  lemma DecidedLater(goal: Goal, a: Scene, b: Scene, error: Option<Error>, obj: Object, refusal: Option<StopReason>)
    requires Still(goal.spec.slug, goal.resolved.proxy.outpost, a, b) && !obj.model.BindingModel?
    ensures AdoptionDecides(a.marked, None, obj, refusal) ==> AdoptionDecides(b.marked, error, obj, refusal)
  {
    MarkerStays(goal.spec.slug, goal.resolved.proxy.outpost, a, b, obj);
  }

  lemma AdoptingFacts(goal: Goal, marker: Marker, status: Status)
    ensures Unclaimed(marker, goal.spec.slug, status) ==> goal.spec.slug in marker.server.applications
    ensures Adopting(goal, marker, status) ==>
              Unclaimed(marker, goal.spec.slug, status) && status.providerPk.None?
  {}

  lemma TurnedAway(goal: Goal, markers: MarkerCache, base: Status, marked: set<Object>, error: Error)
    ensures var server := markers.marker.server;
            (&& goal.spec.slug in server.applications && !Managed(server.applications[goal.spec.slug], base, marked)
             && Refuses(server, goal.spec, goal.Handler(), server.applications[goal.spec.slug], error)) ==>
              && NotAdopted(goal, markers, error, base, marked)
              && error in {Stop(Unmanaged), Stop(ProviderTypeMismatch), Stop(StopReason.AdoptionDiff)}
  {}

  lemma MatchingFits(goal: Goal, server: Authentik, application: Application)
    requires IsApplication(server, goal.spec.slug, Some(application))
    ensures goal.spec.adopt == Some(IfMatch) && Refusal(server, goal.spec, goal.Handler(), application).None? ==>
              && ApplicationConforms(DesiredApplication(goal.spec, None), application)
              && (Attaches(goal, server) ==> Fitting(goal, server, application))
  {
    hide ApplicationConforms, DesiredApplication, Handler.Conforms;
  }

  lemma LinkOfDone(goal: Goal, server: Authentik, marked: set<Object>, status: Status)
    requires ProviderDone(goal, server, marked, status)
    ensures goal.spec.provider.Some? ==> status.providerPk.Some?
  {}

  /** The Application got a missing link to the Provider, and is otherwise as it was. */
  predicate OnlyLinked(goal: Goal, before: Application, after: Application, providerPk: Option<Key>) {
    if goal.spec.provider.None? then after == before
    else !before.provider.Value? ==> providerPk.Some? && after == before.(provider := Value(providerPk.value))
  }

  lemma RepairOfLink(goal: Goal, server: Authentik, marked: set<Object>, observed: Application, status: Status)
    requires ProviderDone(goal, server, marked, status) && ApplicationConforms(DesiredApplication(goal.spec, None), observed)
    ensures OnlyLinked(goal, observed, Repaired(DesiredApplication(goal.spec, goal.Link(status)), observed), status.providerPk)
  {
    LinkOfDone(goal, server, marked, status);
    ApplicationDiffExact(DesiredApplication(goal.spec, None), observed);
    if goal.spec.provider.Some? {
      AdoptedNeedsOnlyLink(goal.spec, observed, status.providerPk.value);
    }
  }

  lemma MarkersCreateNoProvider(history: seq<Write>, longer: seq<Write>, bindings: map<Key, Binding>, outposts: map<Key, Outpost>)
    requires OnlyMarkerWrites(history, longer, bindings, outposts)
    ensures CreatesNoProvider(longer, |history|) && history <= longer
  {
    NothingCreated(history, longer);
  }

  lemma CreatedAfter(history: seq<Write>, longer: seq<Write>, start: nat)
    requires history <= longer && start <= |history| && CreatesNoProvider(history, start)
    ensures AcceptedCalls(longer, start, CreateProviderCall) == AcceptedCalls(longer, |history|, CreateProviderCall)
    ensures NameRefused(longer, start) <==> NameRefused(longer, |history|)
  {
    AcceptedAdd(history, longer, start, CreateProviderCall);
    NoneRefusedBefore(history, longer, start);
  }

  /** Looks at the Application and takes it over, unless spec.adopt keeps the operator from it. */
  method TakeOver(markers: MarkerCache, s: Resource, goal: Goal) returns (res: Result<Option<Application>>)
    requires markers.marker.server.Valid() && markers.Exact() && s.status == s.base
    modifies s, markers, markers.marker, markers.clock, markers.marker.server`roles, markers.marker.server`sequence,
             markers.marker.server`grants, markers.marker.server`history
    ensures markers.marker.server.Valid() && markers.Exact()
    ensures BindingMarksStay(old(markers.marker.Marked()), markers.marker.Marked())
    ensures KeepsBindings(old(markers.marker.server.history), markers.marker.server.history, markers.marker.server.bindings)
    ensures OnlyLinks(old(markers.marker.server.history), markers.marker.server.history)
    ensures CreatesNoProvider(markers.marker.server.history, old(|markers.marker.server.history|))
    ensures s.status.providerPk == s.base.providerPk == old(s.base).providerPk
            && s.status.outpostUuid == old(s.status).outpostUuid == s.base.outpostUuid
    ensures s.status.bindingUuids == s.base.bindingUuids == old(s.base).bindingUuids
    ensures res.Ok? ==>
              && IsApplication(markers.marker.server, goal.spec.slug, res.value)
              && (res.value.Some? ==> Owned(res.value.value, s.status, markers.marker.Marked()))
    ensures res.Err? && res.error.Stop? ==>
              && NotAdopted(goal, markers, res.error, old(s.base), old(markers.marker.Marked()))
              && OnlyMarkerWrites(old(markers.marker.server.history), markers.marker.server.history,
                                  markers.marker.server.bindings, markers.marker.server.outposts)
              && markers.marker.server.grants == old(markers.marker.server.grants) && s.base == old(s.base)
              && res.error in {Stop(Unmanaged), Stop(ProviderTypeMismatch), Stop(StopReason.AdoptionDiff)}
    ensures old(Adopting(goal, markers.marker, s.base)) && res.Ok? ==>
              && res.value.Some? && ApplicationConforms(DesiredApplication(goal.spec, None), res.value.value)
              && (Attaches(goal, markers.marker.server) ==> Fitting(goal, markers.marker.server, res.value.value))
    ensures old(Unclaimed(markers.marker, goal.spec.slug, s.base)) ==>
              AdoptionDecides(markers.marker.Marked(), if res.Err? then Some(res.error) else None,
                              old(ApplicationObject(markers.marker.server.applications[goal.spec.slug])),
                              old(RefusalFor(goal, markers.marker.server)))
    ensures old(ApplicationDone(goal, markers.marker.server, markers.marker.Marked(), s.status)) ==>
              && markers.marker.server.history == old(markers.marker.server.history) && s.status == old(s.status)
              && s.base == old(s.base)
              && (res.Err? ==> res.error == Unavailable)
    ensures Still(goal.spec.slug, goal.resolved.proxy.outpost, old(SceneOf(markers.marker, s.status, s.base)),
                  SceneOf(markers.marker, s.status, s.base))
  {
    hide ValidBindings, ValidApplications, ValidLinks, ValidProviders, ValidOutposts, ValidRoles, MarkedBy, ApplicationConforms,
      DesiredApplication, Handler.Conforms, HandlerOf, NameAgrees, Handler.Valid, Matches, TypeMismatch, AcceptedCalls,
      KeepsBindings, BindingMarksStay, MarksGrow, Goal.Handler, Goal.Name, MarkerCache.Exact, OnlyMarkerWrites, OnlyLinks, Refusal,
      CreatesNoProvider, NotAdopted, Fitting, Attaches, Still;
    var server := markers.marker.server;
    ghost var scene := SceneOf(markers.marker, s.status, s.base);
    ghost var marked := markers.marker.Marked();
    res := ObserveApplication(markers, s, goal.spec, goal.Handler());
    MarksOfOtherModel(marked, markers.marker.Marked(), ApplicationModel);
    OnlyOneApplication(goal.spec.slug, goal.resolved.proxy.outpost, scene, SceneOf(markers.marker, s.status, s.base));
    ThoseKeepBindings(old(server.history), server.history, server.bindings, server.outposts);
    MarkersAreLinks(old(server.history), server.history, server.bindings, server.outposts);
    MarkersCreateNoProvider(old(server.history), server.history, server.bindings, server.outposts);
    if res.Err? {
      TurnedAway(goal, markers, old(s.base), marked, res.error);
    } else if res.value.Some? {
      RecordedIsOwned(res.value.value, s.status, markers.marker.Marked());
      MatchingFits(goal, server, res.value.value);
    }
  }

  /** The steps up to the Application, none of which touches a Binding. */
  method ReconcileObjects(markers: MarkerCache, s: Resource, secret: CredentialsSecret, goal: Goal, wins: bool)
    returns (res: Result<Application>)
    requires markers.marker.server.Valid() && markers.Exact() && s.status == s.base
    modifies s, secret, markers, markers.marker, markers.clock, markers.marker.server`applications,
             markers.marker.server`proxyProviders, markers.marker.server`oauth2Providers, markers.marker.server`outposts,
             markers.marker.server`roles, markers.marker.server`sequence, markers.marker.server`grants,
             markers.marker.server`history
    ensures markers.marker.server.Valid() && markers.Exact()
    ensures BindingMarksStay(old(markers.marker.Marked()), markers.marker.Marked())
    ensures KeepsBindings(old(markers.marker.server.history), markers.marker.server.history, markers.marker.server.bindings)
    ensures s.status.bindingUuids == s.base.bindingUuids == old(s.base).bindingUuids
    ensures res.Ok? ==>
              && IsApplication(markers.marker.server, goal.spec.slug, Some(res.value)) && s.base.providerPk == s.status.providerPk
              && ProviderDone(goal, markers.marker.server, markers.marker.Marked(), s.status)
              && ApplicationDone(goal, markers.marker.server, markers.marker.Marked(), s.status)
              && Exported(goal, markers.marker.server.oauth2Providers, s.status.providerPk, old(secret.data), secret.data)
              && Relocated(goal, old(markers.marker.server.outposts), markers.marker.server.outposts, old(s.status).outpostUuid,
                           s.status.providerPk)
    ensures !goal.Exports() ==> secret.data == old(secret.data)
    ensures old(markers.marker.server.Providers()) <= markers.marker.server.Providers()
    ensures SlugAsAsked(goal.spec, old(markers.marker.server.applications), markers.marker.server.applications)
    ensures OnlyAsAsked(goal, old(markers.marker.server.proxyProviders), old(markers.marker.server.oauth2Providers),
                        markers.marker.server.proxyProviders, markers.marker.server.oauth2Providers)
    ensures SearchKept(goal, CatalogOf(markers.marker.server), s.base.providerPk, s.status.providerPk,
                       old(SearchFor(goal, CatalogOf(markers.marker.server), s.base.providerPk)),
                       old(markers.marker.server.Providers()),
                       AcceptedCalls(markers.marker.server.history, old(|markers.marker.server.history|), CreateProviderCall),
                       NameRefused(markers.marker.server.history, old(|markers.marker.server.history|)))
    ensures res != Err(Stop(UnmanagedBindings))
    ensures if wins then res != Err(Stop(Conflict))
            else
              && res == Err(Stop(Conflict)) && markers.marker.server.history == old(markers.marker.server.history)
              && s.status == old(s.status) && s.base == old(s.base)
    ensures res.Err? && res.error.Stop? ==>
              && (res.error != Stop(Conflict) && res.error != Stop(ProviderTypeMismatch) ==>
                    NotAdopted(goal, markers, res.error, old(s.base), old(markers.marker.Marked())))
              && (res.error in {Stop(Unmanaged), Stop(StopReason.AdoptionDiff)} ==>
                    && OnlyMarkerWrites(old(markers.marker.server.history), markers.marker.server.history,
                                        markers.marker.server.bindings, markers.marker.server.outposts)
                    && markers.marker.server.grants == old(markers.marker.server.grants) && s.base == old(s.base))
    ensures wins && old(Adopting(goal, markers.marker, s.base)) ==>
              && (old(Attaches(goal, markers.marker.server)) ==>
                  OnlyLinks(old(markers.marker.server.history), markers.marker.server.history))
              && (res.Ok? ==>
                    OnlyLinked(goal, old(markers.marker.server.applications[goal.spec.slug]),
                               markers.marker.server.applications[goal.spec.slug], s.status.providerPk))
    ensures wins && old(Unclaimed(markers.marker, goal.spec.slug, s.base)) ==>
              AdoptionDecides(markers.marker.Marked(), if res.Err? then Some(res.error) else None,
                              old(ApplicationObject(markers.marker.server.applications[goal.spec.slug])),
                              old(RefusalFor(goal, markers.marker.server)))
    ensures old(Stuck(goal, CatalogOf(markers.marker.server), s.base.providerPk)) ==>
              && res.Err? && markers.marker.server.proxyProviders == old(markers.marker.server.proxyProviders)
              && markers.marker.server.applications == old(markers.marker.server.applications)
    ensures wins && old(ObjectsDone(goal, markers.marker.server, markers.marker.Marked(), s.status)) ==>
              && markers.marker.server.applications == old(markers.marker.server.applications)
              && markers.marker.server.history == old(markers.marker.server.history) && s.status == old(s.status)
              && s.base == old(s.base)
              && (res.Err? ==> res.error == Unavailable)
    ensures Kept(goal.spec.slug, goal.resolved.proxy.outpost,
                 old(SearchFor(goal, CatalogOf(markers.marker.server), s.base.providerPk)).selection,
                 old(SceneOf(markers.marker, s.status, s.base)), SceneOf(markers.marker, s.status, s.base))
  {
    hide ValidBindings, ValidApplications, ValidLinks, ValidProviders, ValidOutposts, ValidRoles, MarkedBy, ApplicationConforms,
      DesiredApplication, Handler.Conforms, HandlerOf, NameAgrees, Handler.Valid, ProviderDone, ApplicationDone, SearchFor,
      SearchKept, NameRefused, Matches, TypeMismatch, AcceptedCalls, KeepsBindings, BindingMarksStay, MarksGrow, Goal.Handler,
      Goal.Name, MarkerCache.Exact, OnlyMarkerWrites, Managed, Owned, Exported, Relocated, OnlyLinks, RefusalFor, Stuck, Adopting,
      Attaches, Unclaimed, Repaired, CreatesNoProvider, Goal.Exports, NotAdopted, Fitting, CatalogOf, OnlyLinked, Goal.Link, Kept,
      Still, SceneOf, OnlyAsAsked, SlugAsAsked, ApplicationObject, Authentik.Providers;
    var server := markers.marker.server;
    ghost var scene := SceneOf(markers.marker, s.status, s.base);
    ghost var marked, known, search := markers.marker.Marked(), server.Providers(),
              SearchFor(goal, CatalogOf(server), s.base.providerPk);
    SameHistory(server.history, server.bindings);
    SearchStarts(goal, CatalogOf(server), s.base.providerPk, known, server.history);
    SameMarks(marked);
    NothingKept(goal.spec.slug, goal.resolved.proxy.outpost, search.selection, scene);
    SameAsAsked(goal, server.proxyProviders, server.oauth2Providers);
    SameSlug(goal.spec, server.applications);
    if !wins {
      return Err(Stop(Conflict));
    }
    ghost var adopting, unclaimed := Adopting(goal, markers.marker, s.base), Unclaimed(markers.marker, goal.spec.slug, s.base);
    AdoptingFacts(goal, markers.marker, s.base);
    var observed := TakeOver(markers, s, goal);
    QuietPrefix(old(server.history), server.history, server.bindings);
    CreatedBefore(old(server.history), server.history, old(|server.history|));
    ghost var history, seen, middle := server.history, markers.marker.Marked(), SceneOf(markers.marker, s.status, s.base);
    StillIsKept(goal.spec.slug, goal.resolved.proxy.outpost, search.selection, scene, middle);
    BindingMarksChain(marked, seen, seen);
    if observed.Err? {
      return Err(observed.error);
    }
    StillDone(goal, server, marked, seen, old(s.status), s.status);
    res := ReconcileTaken(markers, s, secret, goal, observed.value);
    StillThenKept(goal.spec.slug, goal.resolved.proxy.outpost, search.selection, scene, middle,
                  SceneOf(markers.marker, s.status, s.base));
    BindingMarksChain(marked, seen, markers.marker.Marked());
    KeepsBindingsChain(old(server.history), history, server.history, server.bindings);
    CreatedAfter(history, server.history, old(|server.history|));
    LinksAfter(old(server.history), history, server.history);
    if adopting && res.Ok? {
      RepairOfLink(goal, server, markers.marker.Marked(), observed.value.value, s.status);
    }
  }

  lemma RecordedIsOwned(application: Application, status: Status, marked: set<Object>)
    requires status.applicationPk == Some(application.pk) && ApplicationObject(application) in marked
    ensures Owned(application, status, marked)
  {}

  /** spec.adopt keeps the operator from taking an Application that it does not manage. */
  ghost predicate NotAdopted(goal: Goal, markers: MarkerCache, error: Error, status: Status, marked: set<Object>)
    reads markers.marker.server`applications, markers.marker.server`proxyProviders, markers.marker.server`oauth2Providers
  {
    var server := markers.marker.server;
    && goal.spec.slug in server.applications
    && !Managed(server.applications[goal.spec.slug], status, marked)
    && Refuses(server, goal.spec, goal.Handler(), server.applications[goal.spec.slug], error)
  }

  lemma ApplicationCallsCreateNoProvider(history: seq<Write>, longer: seq<Write>, bindings: map<Key, Binding>,
                                         outposts: map<Key, Outpost>)
    requires OnlyApplicationWrites(history, longer, bindings, outposts)
    ensures CreatesNoProvider(longer, |history|) && history <= longer
  {
    NothingCreated(history, longer);
  }

  /** The keys of the managed Bindings stay when no Binding is marked, unmarked, or recorded. */
  lemma KeysStay(recorded: seq<Key>, before: set<Object>, after: set<Object>)
    requires BindingMarksStay(before, after)
    ensures ManagedKeys(recorded, after) == ManagedKeys(recorded, before)
  {
    forall k ensures k in ManagedKeys(recorded, after) <==> k in ManagedKeys(recorded, before) {
      ManagedKey(recorded, before, k);
      ManagedKey(recorded, after, k);
    }
  }

  /** The Bindings, after the steps since entry |begin| of the history, which started from the scene. */
  method ReconcileRest(markers: MarkerCache, s: Resource, goal: Goal, application: Application, ghost scene: Scene,
                       ghost search: Search, ghost known: set<Key>, ghost begin: seq<Write>, ghost obj: Object,
                       ghost refusal: Option<StopReason>)
    returns (res: Result<()>)
    requires markers.marker.server.Valid() && markers.Exact() && goal.Valid() && AllSingle(markers.marker.server.bindings)
    requires IsApplication(markers.marker.server, goal.spec.slug, Some(application)) && s.status.bindingUuids == s.base.bindingUuids
    requires ProviderDone(goal, markers.marker.server, markers.marker.Marked(), s.status)
             && s.base.providerPk == s.status.providerPk
    requires ApplicationDone(goal, markers.marker.server, markers.marker.Marked(), s.status)
    requires KeepsBindings(begin, markers.marker.server.history, markers.marker.server.bindings) && !obj.model.BindingModel?
    requires Kept(goal.spec.slug, goal.resolved.proxy.outpost, search.selection, scene,
                  SceneOf(markers.marker, s.status, s.base))
    requires SearchKept(goal, CatalogOf(markers.marker.server), s.base.providerPk, s.status.providerPk, search, known,
                        AcceptedCalls(markers.marker.server.history, |begin|, CreateProviderCall),
                        NameRefused(markers.marker.server.history, |begin|))
    modifies s, markers, markers.marker, markers.clock, markers.marker.server`bindings, markers.marker.server`roles,
             markers.marker.server`sequence, markers.marker.server`grants, markers.marker.server`history
    ensures markers.marker.server.Valid() && markers.Exact() && AllSingle(markers.marker.server.bindings)
    ensures begin <= markers.marker.server.history
    ensures forall recorded :: recorded in {s.base.bindingUuids, s.status.bindingUuids} ==>
              Served(goal, markers.marker.server.applications, old(markers.marker.server.bindings),
                     old(ManagedKeys(s.base.bindingUuids, markers.marker.Marked())), markers.marker.server.bindings,
                     ManagedKeys(recorded, markers.marker.Marked()), markers.marker.server.history, |begin|)
    ensures res.Ok? || res == Err(Stop(UnmanagedBindings)) ==>
              Done(goal, markers.marker.server, markers.marker.Marked(), s.status)
    ensures res.Ok? || res == Err(Stop(UnmanagedBindings)) ==>
              UnmanagedReported(goal.spec, markers.marker.server.applications, markers.marker.server.bindings, s.status, res.Err?)
    ensures s.status.providerPk == old(s.status).providerPk
    ensures res.Err? && res.error.Stop? ==> res.error == Stop(UnmanagedBindings)
    ensures SearchKept(goal, CatalogOf(markers.marker.server), s.base.providerPk, s.status.providerPk, search, known,
                       AcceptedCalls(markers.marker.server.history, |begin|, CreateProviderCall),
                       NameRefused(markers.marker.server.history, |begin|))
    ensures Kept(goal.spec.slug, goal.resolved.proxy.outpost, search.selection, scene, SceneOf(markers.marker, s.status, s.base))
    ensures AdoptionDecides(old(markers.marker.Marked()), None, obj, refusal) ==>
              AdoptionDecides(markers.marker.Marked(), if res.Err? then Some(res.error) else None, obj, refusal)
    ensures old(BindingsDone(goal, markers.marker.server, markers.marker.Marked(), s.status)) ==>
              && markers.marker.server.history == old(markers.marker.server.history)
              && (res.Err? ==> res.error == Unavailable || res.error == Stop(UnmanagedBindings))
  {
    hide ValidBindings, ValidApplications, ValidLinks, ValidProviders, ValidOutposts, ValidRoles, MarkedBy, ProviderDone,
      ApplicationDone, BindingsDone, SearchFor, SearchKept, AcceptedCalls, NameRefused, KeepsBindings, AllSingle, SafeRun,
      ValidRules, Served, CountedFor, CatalogOf, CreatesNoProvider, ManagedKeys, MarkerCache.Exact, Goal.Valid, Kept, Still,
      SceneOf, AdoptionDecides, UnmanagedReported, UnmanagedStay;
    var server := markers.marker.server;
    ghost var history, catalog, recorded, objects := server.history, CatalogOf(server), s.base.providerPk, markers.marker.Marked();
    ghost var middle := SceneOf(markers.marker, s.status, s.base);
    QuietPrefix(begin, history, server.bindings);
    res := ReconcileBindingsPart(markers, s, goal, application);
    DecidedLater(goal, middle, SceneOf(markers.marker, s.status, s.base), if res.Err? then Some(res.error) else None, obj, refusal);
    KeptThenStill(goal.spec.slug, goal.resolved.proxy.outpost, search.selection, scene, middle,
                  SceneOf(markers.marker, s.status, s.base));
    BothServed(goal, server.applications, old(server.bindings), ManagedKeys(old(s.base).bindingUuids, objects), server.bindings,
               s.base.bindingUuids, s.status.bindingUuids, markers.marker.Marked(), begin, history, server.history,
               application.pbmUuid, res.Ok?);
    CreatedBefore(history, server.history, |begin|);
    SearchStays(goal, catalog, recorded, recorded, CatalogOf(server), s.base.providerPk, s.status.providerPk, search, known,
                AcceptedCalls(server.history, |begin|, CreateProviderCall), NameRefused(server.history, |begin|));
  }

  /** The steps of a reconcile, in order: the Bindings come last, when everything else is in place. */
  method ReconcileSteps(markers: MarkerCache, s: Resource, secret: CredentialsSecret, goal: Goal, wins: bool)
    returns (res: Result<()>)
    requires markers.marker.server.Valid() && markers.Exact() && goal.Valid() && AllSingle(markers.marker.server.bindings)
             && s.status == s.base
    modifies s, secret, markers, markers.marker, markers.clock, markers.marker.server
    ensures markers.marker.server.Valid() && markers.Exact() && AllSingle(markers.marker.server.bindings)
    ensures old(markers.marker.server.history) <= markers.marker.server.history
    ensures forall recorded :: recorded in {s.base.bindingUuids, s.status.bindingUuids} ==>
              Served(goal, markers.marker.server.applications, old(markers.marker.server.bindings),
                     old(ManagedKeys(s.base.bindingUuids, markers.marker.Marked())), markers.marker.server.bindings,
                     ManagedKeys(recorded, markers.marker.Marked()), markers.marker.server.history,
                     old(|markers.marker.server.history|))
    ensures res.Ok? || res == Err(Stop(UnmanagedBindings)) ==>
              && Done(goal, markers.marker.server, markers.marker.Marked(), s.status)
              && Exported(goal, markers.marker.server.oauth2Providers, s.status.providerPk, old(secret.data), secret.data)
              && Relocated(goal, old(markers.marker.server.outposts), markers.marker.server.outposts, old(s.status).outpostUuid,
                           s.status.providerPk)
    ensures res.Ok? || res == Err(Stop(UnmanagedBindings)) ==>
              UnmanagedReported(goal.spec, markers.marker.server.applications, markers.marker.server.bindings, s.status, res.Err?)
    ensures !goal.Exports() ==> secret.data == old(secret.data)
    ensures old(markers.marker.server.Providers()) <= markers.marker.server.Providers()
    ensures SlugAsAsked(goal.spec, old(markers.marker.server.applications), markers.marker.server.applications)
    ensures OnlyAsAsked(goal, old(markers.marker.server.proxyProviders), old(markers.marker.server.oauth2Providers),
                        markers.marker.server.proxyProviders, markers.marker.server.oauth2Providers)
    ensures SearchKept(goal, CatalogOf(markers.marker.server), s.base.providerPk, s.status.providerPk,
                       old(SearchFor(goal, CatalogOf(markers.marker.server), s.base.providerPk)),
                       old(markers.marker.server.Providers()),
                       AcceptedCalls(markers.marker.server.history, old(|markers.marker.server.history|), CreateProviderCall),
                       NameRefused(markers.marker.server.history, old(|markers.marker.server.history|)))
    ensures if wins then res != Err(Stop(Conflict))
            else
              && res == Err(Stop(Conflict)) && markers.marker.server.history == old(markers.marker.server.history)
              && s.status == old(s.status) && s.base == old(s.base)
    ensures res.Err? && res.error in {Stop(Unmanaged), Stop(StopReason.AdoptionDiff)} ==>
              && NotAdopted(goal, markers, res.error, old(s.base), old(markers.marker.Marked()))
              && OnlyMarkerWrites(old(markers.marker.server.history), markers.marker.server.history,
                                  markers.marker.server.bindings, markers.marker.server.outposts)
              && markers.marker.server.grants == old(markers.marker.server.grants)
    ensures wins && old(Unclaimed(markers.marker, goal.spec.slug, s.base)) ==>
              AdoptionDecides(markers.marker.Marked(), if res.Err? then Some(res.error) else None,
                              old(ApplicationObject(markers.marker.server.applications[goal.spec.slug])),
                              old(RefusalFor(goal, markers.marker.server)))
    ensures old(Stuck(goal, CatalogOf(markers.marker.server), s.base.providerPk)) ==>
              && res.Err? && markers.marker.server.proxyProviders == old(markers.marker.server.proxyProviders)
    ensures wins && old(Done(goal, markers.marker.server, markers.marker.Marked(), s.status)) ==>
              && markers.marker.server.history == old(markers.marker.server.history)
              && (res.Err? ==> res.error == Unavailable || res.error == Stop(UnmanagedBindings))
    ensures Kept(goal.spec.slug, goal.resolved.proxy.outpost,
                 old(SearchFor(goal, CatalogOf(markers.marker.server), s.base.providerPk)).selection,
                 old(SceneOf(markers.marker, s.status, s.base)), SceneOf(markers.marker, s.status, s.base))
  {
    hide ValidBindings, ValidApplications, ValidLinks, ValidProviders, ValidOutposts, ValidRoles, MarkedBy, ProviderDone,
      ApplicationDone, BindingsDone, SearchFor, SearchKept, AcceptedCalls, NameRefused, KeepsBindings, AllSingle, NotAdopted,
      SafeRun, ValidRules, Served, CountedFor, Exported, Relocated, CatalogOf, Stuck, OnlyLinks, Adopting, Attaches, Unclaimed,
      RefusalFor, BindingMarksStay, ManagedKeys, MarkerCache.Exact, OnlyMarkerWrites, Goal.Exports, Goal.Valid, Kept, SceneOf,
      AdoptionDecides, OnlyAsAsked, SlugAsAsked, UnmanagedReported;
    var server := markers.marker.server;
    ghost var search, known := SearchFor(goal, CatalogOf(server), s.base.providerPk), server.Providers();
    ghost var scene := SceneOf(markers.marker, s.status, s.base);
    AdoptingFacts(goal, markers.marker, s.base);
    ghost var obj, refusal := AdoptionCase(goal, server);
    var application := ReconcileObjects(markers, s, secret, goal, wins);
    QuietPrefix(old(server.history), server.history, server.bindings);
    KeysStay(s.base.bindingUuids, old(markers.marker.Marked()), markers.marker.Marked());
    QuietIsServed(goal, server.applications, server.bindings, ManagedKeys(s.base.bindingUuids, markers.marker.Marked()),
                  old(server.history), server.history);
    if application.Err? {
      return Err(application.error);
    }
    if wins && old(Done(goal, server, markers.marker.Marked(), s.status)) {
      BindingsStillDone(goal, server, old(markers.marker.Marked()), markers.marker.Marked(), s.status);
    }
    res := ReconcileRest(markers, s, goal, application.value, scene, search, known, old(server.history), obj, refusal);
  }

  lemma BothServed(goal: Goal, applications: map<string, Application>, first: map<Key, Binding>, keys: set<Key>,
                   now: map<Key, Binding>, base: seq<Key>, status: seq<Key>, marked: set<Object>, a: seq<Write>, b: seq<Write>,
                   c: seq<Write>, target: Key, finished: bool)
    requires goal.Valid() && AllSingle(first) && KeepsBindings(a, b, first) && b <= c
    requires goal.spec.slug in applications && applications[goal.spec.slug].pbmUuid == target
    requires SafeRun(c, |b|, first, target, goal.resolved.rules) && Before(c, |b|, first, |c|) == now
    requires CountedFor(goal.resolved.rules, target, first, keys, now, base, status, marked, c, |b|, finished)
    requires UnmanagedStay(goal.spec.prune, first, keys, now)
    ensures forall recorded :: recorded in {base, status} ==>
              Served(goal, applications, first, keys, now, ManagedKeys(recorded, marked), c, |a|)
  {
    hide SafeRun, KeepsBindings, AllSingle, Counted, ManagedKeys, Served, UnmanagedStay;
    ServedAfterQuiet(goal, applications, first, keys, now, ManagedKeys(base, marked), a, b, c, finished);
    ServedAfterQuiet(goal, applications, first, keys, now, ManagedKeys(status, marked), a, b, c, finished);
  }

  /** finish: keeps the adoption diff only when it is the reason to stop, and writes the status. */
  method Finish(s: Resource, steps: Result<()>) returns (res: Result<()>)
    modifies s
    ensures s.status == if steps == Err(Stop(StopReason.AdoptionDiff)) then old(s.status) else old(s.status).(adoptionDiff := [])
    ensures s.base == s.status || s.base == old(s.base)
    ensures if steps.Err? then res == steps else res == Err(Unavailable) || (res.Ok? && s.base == s.status)
  {
    if steps.Ok? || steps.error != Stop(StopReason.AdoptionDiff) {
      s.status := s.status.(adoptionDiff := []);
    }
    var patched := s.PatchStatus();
    return if patched.Err? && steps.Ok? then Err(patched.error) else steps;
  }

  /**
   Reconcile: fetches the resource, runs the steps, and writes the outcome to the status. The error of the steps is
   returned even when the status cannot be written either.
   */
  method Reconcile(markers: MarkerCache, s: Resource, secret: CredentialsSecret, goal: Goal, wins: bool) returns (res: Result<()>)
    requires markers.marker.server.Valid() && markers.Exact() && goal.Valid() && AllSingle(markers.marker.server.bindings)
    modifies s, secret, markers, markers.marker, markers.clock, markers.marker.server
    ensures markers.marker.server.Valid() && markers.Exact() && AllSingle(markers.marker.server.bindings)
    ensures old(markers.marker.server.history) <= markers.marker.server.history
    ensures Served(goal, markers.marker.server.applications, old(markers.marker.server.bindings),
                   old(ManagedKeys(s.base.bindingUuids, markers.marker.Marked())), markers.marker.server.bindings,
                   ManagedKeys(s.base.bindingUuids, markers.marker.Marked()), markers.marker.server.history,
                   old(|markers.marker.server.history|))
    ensures res.Ok? ==>
              && s.base == s.status && Done(goal, markers.marker.server, markers.marker.Marked(), s.base)
              && Exported(goal, markers.marker.server.oauth2Providers, s.base.providerPk, old(secret.data), secret.data)
              && Relocated(goal, old(markers.marker.server.outposts), markers.marker.server.outposts, old(s.base).outpostUuid,
                           s.base.providerPk)
    ensures res.Ok? || res == Err(Stop(UnmanagedBindings)) ==>
              UnmanagedReported(goal.spec, markers.marker.server.applications, markers.marker.server.bindings, s.status, res.Err?)
    ensures !goal.Exports() ==> secret.data == old(secret.data)
    ensures old(markers.marker.server.Providers()) <= markers.marker.server.Providers()
    ensures SlugAsAsked(goal.spec, old(markers.marker.server.applications), markers.marker.server.applications)
    ensures OnlyAsAsked(goal, old(markers.marker.server.proxyProviders), old(markers.marker.server.oauth2Providers),
                        markers.marker.server.proxyProviders, markers.marker.server.oauth2Providers)
    ensures Recovers(old(SearchFor(goal, CatalogOf(markers.marker.server), s.base.providerPk)),
                     SearchFor(goal, CatalogOf(markers.marker.server), s.base.providerPk), old(markers.marker.server.Providers()),
                     AcceptedCalls(markers.marker.server.history, old(|markers.marker.server.history|), CreateProviderCall),
                     NameRefused(markers.marker.server.history, old(|markers.marker.server.history|)))
    ensures if wins then res != Err(Stop(Conflict))
            else
              && res == Err(Stop(Conflict)) && markers.marker.server.history == old(markers.marker.server.history)
              && s.base.(adoptionDiff := []) == old(s.base).(adoptionDiff := [])
    ensures res.Err? && res.error in {Stop(Unmanaged), Stop(StopReason.AdoptionDiff)} ==>
              && NotAdopted(goal, markers, res.error, old(s.base), old(markers.marker.Marked()))
              && OnlyMarkerWrites(old(markers.marker.server.history), markers.marker.server.history,
                                  markers.marker.server.bindings, markers.marker.server.outposts)
              && markers.marker.server.grants == old(markers.marker.server.grants)
    ensures wins && old(Unclaimed(markers.marker, goal.spec.slug, s.base)) ==>
              AdoptionDecides(markers.marker.Marked(), if res.Err? then Some(res.error) else None,
                              old(ApplicationObject(markers.marker.server.applications[goal.spec.slug])),
                              old(RefusalFor(goal, markers.marker.server)))
    ensures Kept(goal.spec.slug, goal.resolved.proxy.outpost,
                 old(SearchFor(goal, CatalogOf(markers.marker.server), s.base.providerPk)).selection,
                 old(SceneOf(markers.marker, s.base, s.base)), SceneOf(markers.marker, s.base, s.base))
    ensures old(Stuck(goal, CatalogOf(markers.marker.server), s.base.providerPk)) ==>
              res.Err? && Stuck(goal, CatalogOf(markers.marker.server), s.base.providerPk)
    ensures wins && old(Done(goal, markers.marker.server, markers.marker.Marked(), s.base)) ==>
              && markers.marker.server.history == old(markers.marker.server.history)
              && (res.Err? ==> res.error == Unavailable || res.error == Stop(UnmanagedBindings))
  {
    hide ValidBindings, ValidApplications, ValidLinks, ValidProviders, ValidOutposts, ValidRoles, MarkedBy, ProviderDone,
      ApplicationDone, BindingsDone, Done, Recovers, SearchFor, AcceptedCalls, NameRefused, AllSingle, NotAdopted, Served,
      ValidRules, MarkerCache.Exact, Exported, Relocated, CatalogOf, Stuck, ManagedKeys, OnlyMarkerWrites, Goal.Exports,
      Goal.Handler, Goal.Name, Goal.Valid, Kept, RefusalFor, SceneOf, Unclaimed, OnlyAsAsked, SlugAsAsked, Authentik.Providers,
      UnmanagedReported;
    s.Reload();
    AdoptingFacts(goal, markers.marker, s.base);
    ghost var scene := SceneOf(markers.marker, s.base, s.base);
    CatalogProxies(markers.marker.server);
    ghost var server, recorded, catalog := markers.marker.server, s.base.providerPk, CatalogOf(markers.marker.server);
    var steps := ReconcileSteps(markers, s, secret, goal, wins);
    DoneBesideDiff(goal, server, markers.marker.Marked(), s.status);
    ghost var middle := SceneOf(markers.marker, s.status, s.base);
    assert middle.status == s.status && middle.base == s.base;
    res := Finish(s, steps);
    OtherStatus(markers.marker, middle.status, middle.base, s.base);
    KeptInBase(goal.spec.slug, goal.resolved.proxy.outpost, old(SearchFor(goal, CatalogOf(server), s.base.providerPk)).selection,
               scene, middle, SceneOf(markers.marker, s.base, s.base));
    CatalogProxies(server);
    StuckStays(goal, catalog, recorded, CatalogOf(server), s.base.providerPk, old(server.Providers()),
               AcceptedCalls(server.history, old(|server.history|), CreateProviderCall),
               NameRefused(server.history, old(|server.history|)));
  }

  lemma CatalogProxies(server: Authentik)
    ensures CatalogOf(server).proxies == server.proxyProviders
  {}

  lemma DoneBesideDiff(goal: Goal, server: Authentik, marked: set<Object>, status: Status)
    requires goal.Valid()
    ensures Done(goal, server, marked, status) ==> Done(goal, server, marked, status.(adoptionDiff := []))
    ensures forall stopped :: UnmanagedReported(goal.spec, server.applications, server.bindings, status, stopped) ==>
              UnmanagedReported(goal.spec, server.applications, server.bindings, status.(adoptionDiff := []), stopped)
  {
    if Done(goal, server, marked, status) {
      ProviderStillDone(goal, server, marked, marked, status, status.(adoptionDiff := []));
    }
  }
}
