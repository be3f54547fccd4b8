/** Releasing the objects of a deleted resource (internal/controller/deletion.go). */
module Release {
  import opened Base
  import opened Api
  import opened Server
  import opened Ownership
  import opened Desired
  import opened Resources
  import opened BindingPlan
  import opened BindingRuns
  import opened Outposts

  /** The objects on the server. */
  datatype World = World(
    bindings: map<Key, Binding>,
    applications: map<string, Application>,
    proxies: map<Key, ProxyProvider>,
    oauth2s: map<Key, OAuth2Provider>,
    outposts: map<Key, Outpost>)

  ghost function WorldOf(server: Authentik): World
    reads server`bindings, server`applications, server`proxyProviders, server`oauth2Providers, server`outposts
  {
    World(server.bindings, server.applications, server.proxyProviders, server.oauth2Providers, server.outposts)
  }

  /** What a resource that is going away recorded. */
  datatype Claim = Claim(spec: Spec, status: Status)
  {
    function Slug(): string {
      if status.applicationSlug.Some? then status.applicationSlug.value else spec.slug
    }

    predicate HasProvider() {
      status.providerPk.Some? && spec.provider.Some?
    }

    predicate IsProxy()
      requires HasProvider()
    {
      spec.provider.value.kind.ProxySpec?
    }

    function ProviderObject(): Object
      requires HasProvider()
    {
      Object(if IsProxy() then ProxyProviderModel else OAuth2ProviderModel, status.providerPk.value)
    }

    /** The recorded objects, in the order in which they are released. */
    function Objects(): seq<Object> {
      seq(|status.bindingUuids|, i requires 0 <= i < |status.bindingUuids| => BindingObject(status.bindingUuids[i]))
      + (if status.applicationPk.Some? then [Object(ApplicationModel, status.applicationPk.value)] else [])
      + (if HasProvider() then [ProviderObject()] else [])
    }

    /** The object is recorded: a Binding, the Application, or the Provider of the type that the spec has. */
    predicate Covers(o: Object) {
      match o.model
      case BindingModel => o.pk in status.bindingUuids
      case ApplicationModel => status.applicationPk == Some(o.pk)
      case ProxyProviderModel =>
        spec.provider.Some? && spec.provider.value.kind.ProxySpec? && status.providerPk == Some(o.pk)
      case OAuth2ProviderModel =>
        spec.provider.Some? && spec.provider.value.kind.OAuth2Spec? && status.providerPk == Some(o.pk)
    }

    /** The recorded Application is the one under the slug. */
    predicate TakesApplication(applications: map<string, Application>) {
      status.applicationPk.Some? && Slug() in applications && applications[Slug()].pk == status.applicationPk.value
    }
  }

  /** The markers of every object that is not recorded. */
  function Uncovered(marked: set<Object>, claim: Claim): set<Object> {
    set o | o in marked && !claim.Covers(o)
  }

  /** The objects released are the recorded ones. */
  lemma ReleasedAreCovered(claim: Claim, marked: set<Object>)
    ensures forall o :: o in claim.Objects() <==> claim.Covers(o)
    ensures marked - Elements(claim.Objects()) == Uncovered(marked, claim)
  {
    var uuids, all := claim.status.bindingUuids, claim.Objects();
    forall o | claim.Covers(o) ensures o in all {
      if o.model.BindingModel? {
        var i :| 0 <= i < |uuids| && uuids[i] == o.pk;
        assert all[i] == o;
      } else if o.model.ApplicationModel? {
        assert all[|uuids|] == o;
      } else {
        assert all[|all| - 1] == o;
      }
    }
    assert forall i :: 0 <= i < |uuids| ==> all[i] == BindingObject(uuids[i]);
  }

  // ---------- the end of a deletion, as a function of where it starts ----------

  function EndBindings(w: World, claim: Claim): map<Key, Binding> {
    var rest := w.bindings - Elements(claim.status.bindingUuids);
    if claim.TakesApplication(w.applications) then Untargeted(rest, w.applications[claim.Slug()].pbmUuid) else rest
  }

  function EndApplications(w: World, claim: Claim): map<string, Application> {
    var rest := if claim.TakesApplication(w.applications) then w.applications - {claim.Slug()} else w.applications;
    if claim.HasProvider() then DetachProvider(rest, claim.status.providerPk.value) else rest
  }

  function End(w: World, claim: Claim): World {
    World(
      EndBindings(w, claim), EndApplications(w, claim),
      if claim.HasProvider() && claim.IsProxy() then w.proxies - {claim.status.providerPk.value} else w.proxies,
      if claim.HasProvider() && !claim.IsProxy() then w.oauth2s - {claim.status.providerPk.value} else w.oauth2s,
      if claim.HasProvider() then DropFromOutposts(w.outposts, claim.status.providerPk.value) else w.outposts)
  }

  /** What becomes of one Application. */
  lemma EndOfApplication(w: World, claim: Claim, slug: string)
    requires slug in w.applications
    ensures var end, application := EndApplications(w, claim), w.applications[slug];
            var under := match claim.status.applicationSlug case Some(recorded) => recorded case None => claim.spec.slug;
            if slug == under && claim.status.applicationPk == Some(application.pk) then slug !in end
            else slug in end && end[slug] == if claim.HasProvider() && application.provider == Value(claim.status.providerPk.value)
                                             then application.(provider := Null) else application
  {}

  /**
   What a deletion leaves: nothing recorded, except an Application that moved to another slug, and no Application under
   another pk is taken.
   */
  lemma EndLeavesNothing(w: World, claim: Claim)
    ensures var end := End(w, claim);
            && (forall k :: k in claim.status.bindingUuids ==> k !in end.bindings)
            && (claim.status.applicationPk.Some? ==>
                  forall s :: s in end.applications && end.applications[s].pk == claim.status.applicationPk.value <==>
                              s in w.applications && s != claim.Slug() && w.applications[s].pk == claim.status.applicationPk.value)
            && (forall s :: s in w.applications && s !in end.applications ==>
                  s == claim.Slug() && Some(w.applications[s].pk) == claim.status.applicationPk)
            && (claim.HasProvider() ==>
                  && (if claim.IsProxy() then claim.status.providerPk.value !in end.proxies
                      else claim.status.providerPk.value !in end.oauth2s)
                  && (forall k :: k in end.outposts ==> claim.status.providerPk.value !in end.outposts[k].providers)
                  && (forall s :: s in end.applications ==> end.applications[s].provider != Value(claim.status.providerPk.value)))
            && (forall k :: k in end.bindings <==>
                  && k in w.bindings && k !in claim.status.bindingUuids
                  && (claim.TakesApplication(w.applications) ==>
                        w.bindings[k].target != w.applications[claim.Slug()].pbmUuid))
  {}

  /** What is left is as it was: Bindings, Providers, and Outposts but for the Provider in their lists. */
  lemma EndKeepsOthers(w: World, claim: Claim)
    ensures var end := End(w, claim);
            && (forall k :: k in end.bindings ==> end.bindings[k] == w.bindings[k])
            && end.outposts.Keys == w.outposts.Keys
            && (forall k :: k in w.outposts ==>
                  end.outposts[k] == w.outposts[k].(providers := if claim.HasProvider() then
                                                                   Without(w.outposts[k].providers, claim.status.providerPk.value)
                                                                 else w.outposts[k].providers))
            && (forall k :: k in w.proxies && (claim.HasProvider() && claim.IsProxy() ==> k != claim.status.providerPk.value) ==>
                  k in end.proxies && end.proxies[k] == w.proxies[k])
            && (forall k :: k in w.oauth2s && (claim.HasProvider() && !claim.IsProxy() ==> k != claim.status.providerPk.value) ==>
                  k in end.oauth2s && end.oauth2s[k] == w.oauth2s[k])
            && end.proxies.Keys <= w.proxies.Keys && end.oauth2s.Keys <= w.oauth2s.Keys
  {}

  // ---------- every step of a deletion keeps its end ----------

  lemma BindingStepKeepsEnd(w: World, claim: Claim, k: Key)
    requires k in claim.status.bindingUuids
    ensures End(w.(bindings := w.bindings - {k}), claim) == End(w, claim)
  {
    assert w.bindings - {k} - Elements(claim.status.bindingUuids) == w.bindings - Elements(claim.status.bindingUuids);
  }

  lemma ApplicationStepKeepsEnd(w: World, claim: Claim)
    requires claim.TakesApplication(w.applications)
    ensures var slug := claim.Slug();
            End(w.(applications := w.applications - {slug}, bindings := Untargeted(w.bindings, w.applications[slug].pbmUuid)),
                claim) == End(w, claim)
  {
    var slug := claim.Slug();
    var target := w.applications[slug].pbmUuid;
    assert Untargeted(w.bindings, target) - Elements(claim.status.bindingUuids)
           == Untargeted(w.bindings - Elements(claim.status.bindingUuids), target);
  }

  lemma WithoutTwice(s: seq<Key>, pk: Key)
    ensures Without(Without(s, pk), pk) == Without(s, pk)
  {}

  lemma OutpostStepKeepsEnd(w: World, claim: Claim, k: Key)
    requires claim.HasProvider() && k in w.outposts
    ensures var pk := claim.status.providerPk.value;
            End(w.(outposts := w.outposts[k := w.outposts[k].(providers := Without(w.outposts[k].providers, pk))]), claim)
              == End(w, claim)
  {
    var pk := claim.status.providerPk.value;
    WithoutTwice(w.outposts[k].providers, pk);
    var next := w.outposts[k := w.outposts[k].(providers := Without(w.outposts[k].providers, pk))];
    assert DropFromOutposts(next, pk) == DropFromOutposts(w.outposts, pk);
  }

  lemma DropTwice(outposts: map<Key, Outpost>, pk: Key)
    ensures DropFromOutposts(DropFromOutposts(outposts, pk), pk) == DropFromOutposts(outposts, pk)
  {
    forall k | k in outposts ensures Without(Without(outposts[k].providers, pk), pk) == Without(outposts[k].providers, pk) {
      WithoutTwice(outposts[k].providers, pk);
    }
  }

  lemma DetachTwice(applications: map<string, Application>, pk: Key, slug: string)
    ensures DetachProvider(DetachProvider(applications, pk), pk) == DetachProvider(applications, pk)
    ensures DetachProvider(DetachProvider(applications, pk) - {slug}, pk) == DetachProvider(applications - {slug}, pk)
  {}

  /** What deleting the recorded Provider leaves. */
  function WithoutProvider(w: World, claim: Claim): World
    requires claim.HasProvider()
  {
    var pk := claim.status.providerPk.value;
    World(w.bindings, DetachProvider(w.applications, pk),
          if claim.IsProxy() then w.proxies - {pk} else w.proxies,
          if claim.IsProxy() then w.oauth2s else w.oauth2s - {pk},
          DropFromOutposts(w.outposts, pk))
  }

  lemma ProviderStepKeepsEnd(w: World, claim: Claim)
    requires claim.HasProvider()
    ensures End(WithoutProvider(w, claim), claim) == End(w, claim)
  {
    var pk, slug := claim.status.providerPk.value, claim.Slug();
    DropTwice(w.outposts, pk);
    DetachTwice(w.applications, pk, slug);
    var apps := DetachProvider(w.applications, pk);
    assert slug in apps ==> apps[slug].pk == w.applications[slug].pk && apps[slug].pbmUuid == w.applications[slug].pbmUuid;
    hide DetachProvider, DropFromOutposts, Untargeted;
    assert w.proxies - {pk} - {pk} == w.proxies - {pk} && w.oauth2s - {pk} - {pk} == w.oauth2s - {pk};
  }

  /** Where every recorded object is gone, the end is reached. */
  lemma EndReached(w: World, claim: Claim)
    requires forall k :: k in claim.status.bindingUuids ==> k !in w.bindings
    requires !claim.TakesApplication(w.applications)
    requires claim.HasProvider() ==>
               var pk := claim.status.providerPk.value;
               && (if claim.IsProxy() then pk !in w.proxies else pk !in w.oauth2s)
               && (forall s :: s in w.applications ==> w.applications[s].provider != Value(pk))
               && (forall k :: k in w.outposts ==> pk !in w.outposts[k].providers)
    ensures End(w, claim) == w
  {
    assert w.bindings - Elements(claim.status.bindingUuids) == w.bindings;
    if claim.HasProvider() {
      var pk := claim.status.providerPk.value;
      assert DetachProvider(w.applications, pk) == w.applications;
      assert DropFromOutposts(w.outposts, pk) == w.outposts;
      assert w.proxies - {pk} == w.proxies || !claim.IsProxy();
      assert w.oauth2s - {pk} == w.oauth2s || claim.IsProxy();
    }
  }

  /** The end of the end is the end. */
  lemma EndTwice(w: World, claim: Claim)
    ensures End(End(w, claim), claim) == End(w, claim)
  {
    EndLeavesNothing(w, claim);
    var end := End(w, claim);
    assert !claim.TakesApplication(end.applications);
    EndReached(end, claim);
  }

  // ---------- the deletion, step by step ----------

  /** No Binding changed, and none is new. */
  predicate Fewer(now: map<Key, Binding>, before: map<Key, Binding>) {
    forall k :: k in now ==> k in before && now[k] == before[k]
  }

  method DeleteApplication(server: Authentik, claim: Claim) returns (res: Result<()>)
    requires server.Valid() && claim.status.applicationPk.Some?
    modifies server`applications, server`bindings, server`history
    ensures server.Valid() && End(WorldOf(server), claim) == old(End(WorldOf(server), claim))
    ensures server.bindings.Keys <= old(server.bindings.Keys) && Fewer(server.bindings, old(server.bindings))
    ensures if res.Ok? then !claim.TakesApplication(server.applications) else res.error == Unavailable
  {
    hide ValidBindings, ValidApplications, ValidLinks, ValidProviders, ValidOutposts, ValidRoles, End;
    var slug := claim.Slug();
    var got := server.GetApplication(slug);
    if got.Err? {
      return if got.error == NotFound then Ok(()) else Err(got.error);
    }
    if got.value.pk != claim.status.applicationPk.value {
      return Ok(());
    }
    ApplicationStepKeepsEnd(WorldOf(server), claim);
    var deleted := server.DeleteApplication(slug);
    return if deleted.Err? && deleted.error == NotFound then Ok(()) else deleted;
  }

  /** The one Outpost that a reference means. */
  ghost predicate Means(outposts: map<Key, Outpost>, ref: Reference, k: Key) {
    && k in outposts
    && match ref
       case ByUuid(uuid) => k == uuid
       case ByName(name) => outposts[k].name == name && forall j :: j in outposts && outposts[j].name == name ==> j == k
  }

  /** An Outpost that cannot be found is skipped, because deleting the Provider detaches it as well. */
  method LeaveOutpost(server: Authentik, claim: Claim, outpost: Option<Reference>) returns (res: Result<()>)
    requires server.Valid() && claim.HasProvider()
    modifies server`outposts, server`history
    ensures server.Valid() && End(WorldOf(server), claim) == old(End(WorldOf(server), claim))
    ensures res.Ok? ==> forall k :: old(Means(server.outposts, OutpostReference(outpost), k)) ==>
              k in server.outposts && claim.status.providerPk.value !in server.outposts[k].providers
    ensures res.Err? ==> res.error == Unavailable
  {
    hide ValidBindings, ValidApplications, ValidLinks, ValidProviders, ValidOutposts, ValidRoles, End;
    var pk := claim.status.providerPk.value;
    OutpostsUnderPk(server);
    var chosen: Outpost;
    match OutpostReference(outpost) {
      case ByUuid(uuid) =>
        var got := server.GetOutpost(uuid);
        if got.Err? {
          return if got.error == NotFound then Ok(()) else Err(got.error);
        }
        chosen := got.value;
      case ByName(name) =>
        var found := server.FindOutpostsByName(name);
        if found.Err? {
          return Err(found.error);
        }
        if k :| Means(server.outposts, ByName(name), k) {
          MeantIsAlone(server.outposts, found.value, name, k);
        }
        if |found.value| != 1 {
          return Ok(());
        }
        chosen := found.value[0];
        assert chosen in found.value;
    }
    StoredUnderPk(server, chosen);
    OutpostStepKeepsEnd(WorldOf(server), claim, chosen.pk);
    res := RemoveProvider(server, chosen, pk);
  }

  lemma MeantIsAlone(outposts: map<Key, Outpost>, found: seq<Outpost>, name: string, k: Key)
    requires Means(outposts, ByName(name), k) && |found| == |Elements(found)|
    requires forall o :: o in found ==> exists j :: j in outposts && outposts[j] == o && o.name == name
    requires forall j :: j in outposts && outposts[j].name == name ==> outposts[j] in found
    ensures |found| == 1
  {
    assert Elements(found) == {outposts[k]};
  }

  lemma OutpostsUnderPk(server: Authentik)
    requires server.Valid()
    ensures ValidOutposts(server.outposts, server.Providers()) && forall k :: k in server.outposts ==> server.outposts[k].pk == k
  {}

  lemma StoredUnderPk(server: Authentik, outpost: Outpost)
    requires server.Valid() && exists k :: k in server.outposts && server.outposts[k] == outpost
    ensures outpost.pk in server.outposts && server.outposts[outpost.pk] == outpost
  {}

  /** Nobody refers to a Provider that does not exist. */
  lemma AbsentIsUnused(applications: map<string, Application>, outposts: map<Key, Outpost>, providers: set<Key>, pk: Key)
    requires ValidLinks(applications, providers) && ValidOutposts(outposts, providers) && pk !in providers
    ensures forall s :: s in applications ==> applications[s].provider != Value(pk)
    ensures forall k :: k in outposts ==> pk !in outposts[k].providers
  {
    forall k, p | k in outposts && p in outposts[k].providers ensures p in providers {
      assert p in Elements(outposts[k].providers);
    }
  }

  /** The recorded Provider and every reference to it are gone. */
  ghost predicate ProviderGone(w: World, claim: Claim) {
    claim.HasProvider() ==>
      var pk := claim.status.providerPk.value;
      && (if claim.IsProxy() then pk !in w.proxies else pk !in w.oauth2s)
      && (forall s :: s in w.applications ==> w.applications[s].provider != Value(pk))
      && (forall k :: k in w.outposts ==> pk !in w.outposts[k].providers)
  }

  /** The recorded pk is not that of a Provider of the other type. */
  ghost predicate TypeAgrees(w: World, claim: Claim) {
    claim.HasProvider() ==> claim.status.providerPk.value !in (if claim.IsProxy() then w.oauth2s.Keys else w.proxies.Keys)
  }

  method DeleteProvider(server: Authentik, claim: Claim) returns (res: Result<()>)
    requires server.Valid() && claim.HasProvider() && TypeAgrees(WorldOf(server), claim)
    modifies server`proxyProviders, server`oauth2Providers, server`applications, server`outposts, server`history
    ensures server.Valid() && End(WorldOf(server), claim) == old(End(WorldOf(server), claim))
    ensures old(claim.TakesApplication(server.applications)) == claim.TakesApplication(server.applications)
    ensures TypeAgrees(WorldOf(server), claim)
    ensures if res.Ok? then ProviderGone(WorldOf(server), claim) else res.error == Unavailable
  {
    hide ValidBindings, ValidApplications, ValidLinks, ValidProviders, ValidOutposts, ValidRoles, End;
    var pk := claim.status.providerPk.value;
    if claim.IsProxy() {
      res := LeaveOutpost(server, claim, claim.spec.provider.value.kind.outpost);
      if res.Err? {
        return;
      }
    }
    ProviderStepKeepsEnd(WorldOf(server), claim);
    res := server.DeleteProvider(pk, claim.IsProxy());
    if res.Err? && res.error == NotFound {
      res := Ok(());
    }
    if pk !in server.Providers() {
      AbsentIsUnused(server.applications, server.outposts, server.Providers(), pk);
    }
  }

  method RemoveMarkers(markers: MarkerCache, objects: seq<Object>) returns (res: Result<()>)
    requires markers.marker.server.Valid() && markers.Exact()
    modifies markers, markers.marker, markers.marker.server`roles, markers.marker.server`sequence, markers.marker.server`grants,
             markers.marker.server`history
    ensures markers.marker.server.Valid() && markers.Exact()
    ensures markers.marker.Marked() <= old(markers.marker.Marked()) <= markers.marker.Marked() + Elements(objects)
    ensures if res.Ok? then markers.marker.Marked() == old(markers.marker.Marked()) - Elements(objects)
            else res.error == Unavailable
  {
    hide ValidBindings, ValidApplications, ValidLinks, ValidProviders, ValidOutposts, ValidRoles, MarkedBy;
    for i := 0 to |objects|
      invariant markers.marker.server.Valid() && markers.Exact()
      invariant markers.marker.Marked() == old(markers.marker.Marked()) - Elements(objects[..i])
    {
      var removed := markers.Remove(objects[i]);
      if removed.Err? {
        return removed;
      }
      assert objects[..i + 1] == objects[..i] + [objects[i]];
    }
    assert objects[..|objects|] == objects;
    return Ok(());
  }

  /** Deletes the recorded objects; one that is gone already counts as deleted. */
  method DeleteObjects(server: Authentik, claim: Claim) returns (res: Result<()>)
    requires server.Valid() && TypeAgrees(WorldOf(server), claim)
    modifies server`bindings, server`proxyProviders, server`oauth2Providers, server`applications, server`outposts, server`history
    ensures server.Valid() && End(WorldOf(server), claim) == old(End(WorldOf(server), claim)) && TypeAgrees(WorldOf(server), claim)
    ensures Fewer(server.bindings, old(server.bindings))
    ensures if res.Ok? then WorldOf(server) == End(WorldOf(server), claim) else res.error == Unavailable
  {
    hide ValidBindings, ValidApplications, ValidLinks, ValidProviders, ValidOutposts, ValidRoles, End;
    var uuids := claim.status.bindingUuids;
    for i := 0 to |uuids|
      invariant server.Valid() && TypeAgrees(WorldOf(server), claim)
      invariant End(WorldOf(server), claim) == old(End(WorldOf(server), claim))
      invariant Fewer(server.bindings, old(server.bindings)) && forall j :: 0 <= j < i ==> uuids[j] !in server.bindings
    {
      BindingStepKeepsEnd(WorldOf(server), claim, uuids[i]);
      var deleted := server.DeletePolicyBinding(uuids[i]);
      if deleted.Err? && deleted.error != NotFound {
        return deleted;
      }
    }
    if claim.status.applicationPk.Some? {
      res := DeleteApplication(server, claim);
      if res.Err? {
        return;
      }
    }
    if claim.HasProvider() {
      res := DeleteProvider(server, claim);
      if res.Err? {
        return;
      }
    }
    EndReached(WorldOf(server), claim);
    return Ok(());
  }

  /**
   release. With retain only markers change. A deletion can stop after any request: what it will end in does not
   change by that, so that trying again ends where an uninterrupted one does.
   */
  method ReleaseObjects(markers: MarkerCache, claim: Claim) returns (res: Result<()>)
    requires markers.marker.server.Valid() && markers.Exact() && TypeAgrees(WorldOf(markers.marker.server), claim)
    modifies markers, markers.marker, markers.marker.server
    ensures markers.marker.server.Valid() && markers.Exact() && TypeAgrees(WorldOf(markers.marker.server), claim)
    ensures if claim.spec.deleteObjects
            then End(WorldOf(markers.marker.server), claim) == old(End(WorldOf(markers.marker.server), claim))
            else WorldOf(markers.marker.server) == old(WorldOf(markers.marker.server))
    ensures Fewer(markers.marker.server.bindings, old(markers.marker.server.bindings))
    ensures Uncovered(old(markers.marker.Marked()), claim) <= markers.marker.Marked() <= old(markers.marker.Marked())
    ensures claim.spec.deleteObjects && markers.marker.Marked() != old(markers.marker.Marked()) ==>
              WorldOf(markers.marker.server) == old(End(WorldOf(markers.marker.server), claim))
    ensures if res.Ok?
            then
              && markers.marker.Marked() == Uncovered(old(markers.marker.Marked()), claim)
              && (claim.spec.deleteObjects ==> WorldOf(markers.marker.server) == old(End(WorldOf(markers.marker.server), claim)))
            else res.error == Unavailable
  {
    hide ValidBindings, ValidApplications, ValidLinks, ValidProviders, ValidOutposts, ValidRoles, MarkedBy, End, TypeAgrees,
      Claim.Objects, Claim.Covers;
    ReleasedAreCovered(claim, markers.marker.Marked());
    if claim.spec.deleteObjects {
      res := DeleteObjects(markers.marker.server, claim);
      if res.Err? {
        return;
      }
    }
    res := RemoveMarkers(markers, claim.Objects());
  }

  /** Tries until a release goes through or the attempts are used up, with failures and crashes anywhere in between. */
  method ReleaseUntilDone(markers: MarkerCache, s: Resource, spec: Spec, attempts: nat) returns (res: Result<()>)
    requires markers.marker.server.Valid() && markers.Exact() && s.status == s.base
    requires TypeAgrees(WorldOf(markers.marker.server), Claim(spec, s.base))
    modifies s`status, markers, markers.marker, markers.marker.server
    ensures markers.marker.server.Valid() && markers.Exact() && s.base == old(s.base)
    ensures Fewer(markers.marker.server.bindings, old(markers.marker.server.bindings))
    ensures var claim := Claim(spec, s.base);
            res.Ok? ==>
              && markers.marker.Marked() == Uncovered(old(markers.marker.Marked()), claim)
              && WorldOf(markers.marker.server) ==
                 if spec.deleteObjects then old(End(WorldOf(markers.marker.server), claim)) else old(WorldOf(markers.marker.server))
    ensures var claim := Claim(spec, s.base);
            res.Err? ==>
              && Uncovered(old(markers.marker.Marked()), claim) <= markers.marker.Marked() <= old(markers.marker.Marked())
              && if spec.deleteObjects
                 then End(WorldOf(markers.marker.server), claim) == old(End(WorldOf(markers.marker.server), claim))
                 else WorldOf(markers.marker.server) == old(WorldOf(markers.marker.server))
  {
    hide ValidBindings, ValidApplications, ValidLinks, ValidProviders, ValidOutposts, ValidRoles, MarkedBy, End, TypeAgrees,
      Claim.Objects, Claim.Covers;
    var claim := Claim(spec, s.base);
    res := Err(Unavailable);
    for attempt := 0 to attempts
      invariant markers.marker.server.Valid() && markers.Exact() && TypeAgrees(WorldOf(markers.marker.server), claim)
      invariant if spec.deleteObjects
                then End(WorldOf(markers.marker.server), claim) == old(End(WorldOf(markers.marker.server), claim))
                else WorldOf(markers.marker.server) == old(WorldOf(markers.marker.server))
      invariant Uncovered(old(markers.marker.Marked()), claim) <= markers.marker.Marked() <= old(markers.marker.Marked())
      invariant Fewer(markers.marker.server.bindings, old(markers.marker.server.bindings))
      invariant res.Err? && claim == Claim(spec, s.base)
    {
      var run := ReleaseObjects(markers, claim);
      if run.Ok? {
        return run;
      }
      if * {
        Crash(markers, s);
      }
    }
  }
}
