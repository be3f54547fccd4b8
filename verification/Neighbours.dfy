/** Two resources with different slugs: the reconciles of one leave in place what the other one asked for. */
module Neighbours {
  import opened Base
  import opened Api
  import opened Patch
  import opened Matching
  import opened Server
  import opened Ownership
  import opened Desired
  import opened Resources
  import opened BindingPlan
  import opened BindingAttempts
  import opened BindingSteps
  import opened BindingRuns
  import opened Providers
  import opened Applications
  import opened Frames
  import opened Reconciler
  import opened ReconcileRuns
  import Release

  /** What the resource asks for is in place, as far as the scene shows it. */
  ghost predicate DoneIn(goal: Goal, scene: Scene, status: Status)
    requires goal.Valid()
  {
    && ProviderIn(goal, scene, status)
    && goal.spec.slug in scene.applications
    && var application := scene.applications[goal.spec.slug];
       && Owned(application, status, scene.marked)
       && ApplicationConforms(DesiredApplication(goal.spec, goal.Link(status)), application)
       && Settled(goal.resolved.rules, application.pbmUuid, goal.spec.prune, scene.bindings, status.bindingUuids, scene.marked)
  }

  ghost predicate ProviderIn(goal: Goal, scene: Scene, status: Status) {
    goal.spec.provider.Some? ==>
      && status.providerPk.Some? && goal.Handler().value.Obj(status.providerPk.value) in scene.marked
      && match goal.Handler().value
         case ProxyHandler(desired) =>
           var uuid := goal.resolved.proxy.outpost;
           && status.providerPk.value in scene.proxies && ProxyConforms(desired, scene.proxies[status.providerPk.value])
           && status.outpostUuid == Some(uuid) && uuid in scene.outposts
           && status.providerPk.value in scene.outposts[uuid].providers
         case OAuth2Handler(desired, _) =>
           status.providerPk.value in scene.oauth2s && OAuth2Conforms(desired, scene.oauth2s[status.providerPk.value])
  }

  lemma DoneInScene(goal: Goal, marker: Marker, status: Status, now: Status, base: Status)
    requires goal.Valid()
    ensures Done(goal, marker.server, marker.Marked(), status) <==> DoneIn(goal, SceneOf(marker, now, base), status)
  {
    hide Settled, ApplicationConforms, ProxyConforms, OAuth2Conforms, Goal.Handler, Goal.Valid, MarkedBy;
  }

  /** Both resources have recorded the same Provider, of the type that both ask for. */
  predicate Shared(goal: Goal, recorded: Option<Key>, other: Goal, status: Status) {
    && goal.spec.provider.Some? && other.spec.provider.Some? && recorded.Some? && recorded == status.providerPk
    && (goal.spec.provider.value.kind.ProxySpec? <==> other.spec.provider.value.kind.ProxySpec?)
  }

  /** The recorded Provider exists, and the Application is linked to it. */
  ghost predicate Linked(goal: Goal, scene: Scene, status: Status) {
    && goal.spec.provider.Some? && status.providerPk.Some?
    && (if goal.spec.provider.value.kind.ProxySpec? then status.providerPk.value in scene.proxies
        else status.providerPk.value in scene.oauth2s)
    && goal.spec.slug in scene.applications && scene.applications[goal.spec.slug].provider == Value(status.providerPk.value)
  }

  lemma DoneIsLinked(goal: Goal, scene: Scene, status: Status)
    requires goal.Valid() && DoneIn(goal, scene, status) && goal.spec.provider.Some?
    ensures Linked(goal, scene, status)
  {
    hide ProxyConforms, OAuth2Conforms, HandlerOf;
  }

  /** The search takes the Provider that the Application of another resource is linked to if and only if both recorded it. */
  lemma LinkedIsTaken(goal: Goal, other: Goal, marker: Marker, status: Status, base: Status, recorded: Option<Key>)
    requires marker.server.Valid() && Linked(other, SceneOf(marker, base, base), status) && other.spec.slug != goal.spec.slug
    ensures status.providerPk.Some?
            && (status.providerPk.value in SearchFor(goal, CatalogOf(marker.server), recorded).selection <==>
                Shared(goal, recorded, other, status))
  {
    hide ValidBindings, ValidApplications, ValidOutposts, ValidRoles, NameAgrees, Handler.Valid, Handler.Conforms, MarkedBy;
    var pk := status.providerPk.value;
    assert marker.server.applications[other.spec.slug].provider == Value(pk);
    if goal.spec.provider.Some? {
      SelectionCases(goal.Handler().value, marker.server, goal.Name(), goal.spec.slug, recorded);
    }
  }

  /** What is in place of one resource stays so when only the own objects of another one change. */
  lemma StaysIn(other: Goal, status: Status, slug: string, uuid: Key, taken: set<Key>, a: Scene, b: Scene)
    requires other.Valid() && DoneIn(other, a, status) && OnlyOwn(slug, uuid, taken, a, b) && other.spec.slug != slug
    requires other.spec.provider.Some? ==> status.providerPk.value !in taken
    requires slug in b.applications && other.spec.slug in b.applications ==>
               b.applications[slug].pbmUuid != b.applications[other.spec.slug].pbmUuid
    ensures DoneIn(other, b, status)
  {
    hide ApplicationConforms, DesiredApplication, ProxyConforms, OAuth2Conforms, Goal.Handler, Settled, ValidRules;
    ProviderStays(other, status, uuid, taken, a, b);
    var target := a.applications[other.spec.slug].pbmUuid;
    BindingsStay(other.resolved.rules, target, other.spec.prune, status.bindingUuids, slug, a, b);
  }

  lemma ProviderStays(other: Goal, status: Status, uuid: Key, taken: set<Key>, a: Scene, b: Scene)
    requires ProviderIn(other, a, status) && (other.spec.provider.Some? ==> status.providerPk.value !in taken)
    requires OthersStay(taken, a.proxies, a.oauth2s, b.proxies, b.oauth2s)
    requires OtherMembersStay(uuid, taken, a.Providers(), a.outposts, b.outposts)
    requires forall o :: o in a.marked && !o.model.BindingModel? ==> o in b.marked
    ensures ProviderIn(other, b, status)
  {
    hide ProxyConforms, OAuth2Conforms, Goal.Handler;
  }

  lemma BindingsStay(rules: seq<Rule>, target: Key, prune: bool, recorded: seq<Key>, slug: string, a: Scene, b: Scene)
    requires ValidRules(rules) && Settled(rules, target, prune, a.bindings, recorded, a.marked)
    requires OtherTargetsStay(slug, b.applications, a.bindings, b.bindings, a.marked, b.marked)
    requires Elsewhere(b.applications, slug, target)
    ensures Settled(rules, target, prune, b.bindings, recorded, b.marked)
  {
    hide SingleSubject, DesiredBinding, DiffBinding, ValidRule;
    forall i | 0 <= i < |rules| ensures a.bindings[recorded[i]].target == target {
      SettledBinding(target, rules[i], a.bindings[recorded[i]]);
    }
  }

  lemma TakenByOther(goal: Goal, other: Goal, marker: Marker, base: Status, status: Status, recorded: Option<Key>)
    requires marker.server.Valid() && other.Valid() && DoneIn(other, SceneOf(marker, base, base), status)
    requires other.spec.slug != goal.spec.slug
    ensures other.spec.provider.Some? ==>
              && status.providerPk.Some?
              && (status.providerPk.value in SearchFor(goal, CatalogOf(marker.server), recorded).selection <==>
                  Shared(goal, recorded, other, status))
    ensures Shared(goal, recorded, other, status) ==> goal.spec.provider.Some? && other.spec.provider.Some?
  {
    hide ValidBindings, ValidApplications, ValidLinks, ValidProviders, ValidOutposts, ValidRoles, SearchFor, Goal.Handler,
      CatalogOf, DoneIn, SceneOf;
    if other.spec.provider.Some? {
      DoneIsLinked(other, SceneOf(marker, base, base), status);
      LinkedIsTaken(goal, other, marker, status, base, recorded);
    }
  }

  lemma OwnOnly(goal: Goal, search: Search, begin: seq<Write>, start: Moment, first: Scene, moments: seq<Moment>,
                trials: seq<Trial>, markers: MarkerCache, s: Resource)
    requires goal.Valid() && Retried(goal, search, begin, start, first, moments, trials, markers, s)
    ensures OnlyOwn(goal.spec.slug, goal.resolved.proxy.outpost, search.selection, first, SceneOf(markers.marker, s.base, s.base))
    ensures search.selection != {} ==>
              SearchFor(goal, CatalogOf(markers.marker.server), s.base.providerPk).selection == search.selection
  {
    hide SearchFor, RunsServed, AcceptedCalls, NameRefused, CatalogOf, ManagedKeys, OnlyOwn, NeverTurnedAway, Goal.Valid;
  }

  /** A Provider is linked to one Application, so that two resources never both have the same one in place. */
  lemma NotBothInPlace(goal: Goal, other: Goal, server: Authentik, marked: set<Object>, status: Status, theirs: Status)
    requires server.Valid() && ApplicationDone(goal, server, marked, status) && ApplicationDone(other, server, marked, theirs)
    requires goal.spec.provider.Some? && other.spec.provider.Some? && goal.spec.slug != other.spec.slug
    requires status.providerPk.Some? && theirs.providerPk.Some?
    ensures status.providerPk != theirs.providerPk
  {
    hide ValidBindings, ValidApplications, ValidProviders, ValidOutposts, ValidRoles;
    assert server.applications[goal.spec.slug].provider == Value(status.providerPk.value);
    assert server.applications[other.spec.slug].provider == Value(theirs.providerPk.value);
  }

  lemma DistinctTargets(server: Authentik, slug: string, other: string)
    requires server.Valid() && slug != other
    ensures slug in server.applications && other in server.applications ==>
              server.applications[slug].pbmUuid != server.applications[other].pbmUuid
  {}

  /** Once the Provider that two resources share is in place for one of them, it is not for the other one. */
  lemma SharedUndoes(goal: Goal, other: Goal, server: Authentik, marked: set<Object>, status: Status, theirs: Status,
                     selection: set<Key>)
    requires server.Valid() && goal.Valid() && other.Valid() && goal.spec.slug != other.spec.slug
    requires goal.spec.provider.Some? && other.spec.provider.Some? && theirs.providerPk.Some?
    requires status.providerPk.Some? && selection == {status.providerPk.value} && theirs.providerPk.value in selection
    requires Done(goal, server, marked, status)
    ensures !Done(other, server, marked, theirs)
  {
    hide ValidBindings, ValidApplications, ValidLinks, ValidProviders, ValidOutposts, ValidRoles, ApplicationDone, BindingsDone,
      ProviderDone, Goal.Valid;
    if Done(other, server, marked, theirs) {
      NotBothInPlace(goal, other, server, marked, status, theirs);
    }
  }

  /**
   However often one resource is reconciled, with failures and crashes anywhere, what another resource with another slug
   has in place stays in place, unless the two have recorded the same Provider; then they cannot both be in place.
   */
  method ReconcileBeside(markers: MarkerCache, s: Resource, secret: CredentialsSecret, goal: Goal, attempts: nat,
                         ghost other: Goal, ghost status: Status)
    returns (res: Result<()>)
    requires markers.marker.server.Valid() && markers.Exact() && goal.Valid() && AllSingle(markers.marker.server.bindings)
    requires other.Valid() && Done(other, markers.marker.server, markers.marker.Marked(), status)
    requires other.spec.slug != goal.spec.slug
    modifies s, secret, markers, markers.marker, markers.clock, markers.marker.server
    ensures markers.marker.server.Valid()
    ensures !Shared(goal, old(s.base).providerPk, other, status) ==>
              Done(other, markers.marker.server, markers.marker.Marked(), status)
    ensures res.Ok? ==>
              && Done(goal, markers.marker.server, markers.marker.Marked(), s.base)
              && (Done(other, markers.marker.server, markers.marker.Marked(), status) <==>
                  !Shared(goal, old(s.base).providerPk, other, status))
  {
    hide ValidBindings, ValidApplications, ValidLinks, ValidProviders, ValidOutposts, ValidRoles, MarkedBy, Done, SearchFor,
      AllSingle, Stuck, ManagedKeys, CatalogOf, MarkerCache.Exact, Goal.Valid, Retried, SceneOf, DoneIn, OnlyOwn, Shared;
    ghost var search, before, begin, start :=
      SearchFor(goal, CatalogOf(markers.marker.server), s.base.providerPk), SceneOf(markers.marker, s.base, s.base),
      markers.marker.server.history, Now(markers, s);
    DoneInScene(other, markers.marker, status, s.base, s.base);
    TakenByOther(goal, other, markers.marker, s.base, status, s.base.providerPk);
    ghost var moments, trials;
    res, moments, trials := ReconcileRuns.ReconcileUntilDone(markers, s, secret, goal, attempts);
    ghost var after := SceneOf(markers.marker, s.base, s.base);
    OwnOnly(goal, search, begin, start, before, moments, trials, markers, s);
    if Shared(goal, old(s.base).providerPk, other, status) {
      if res.Ok? {
        SharedUndoes(goal, other, markers.marker.server, markers.marker.Marked(), s.base, status, search.selection);
      }
    } else {
      DistinctTargets(markers.marker.server, goal.spec.slug, other.spec.slug);
      StaysIn(other, status, goal.spec.slug, goal.resolved.proxy.outpost, search.selection, before, after);
      DoneInScene(other, markers.marker, status, s.base, s.base);
    }
  }

  // ---------- a deletion ----------

  function WorldIn(scene: Scene): Release.World {
    Release.World(scene.bindings, scene.applications, scene.proxies, scene.oauth2s, scene.outposts)
  }

  /** The objects that the resource recorded. */
  function RecordedObjects(spec: Spec, status: Status): set<Object> {
    Elements(Release.Claim(spec, status).Objects())
  }

  lemma RecordedAre(spec: Spec, status: Status)
    ensures status.applicationPk.Some? ==> Object(ApplicationModel, status.applicationPk.value) in RecordedObjects(spec, status)
    ensures Release.Claim(spec, status).HasProvider() ==>
              Release.Claim(spec, status).ProviderObject() in RecordedObjects(spec, status)
    ensures forall i :: 0 <= i < |status.bindingUuids| ==> BindingObject(status.bindingUuids[i]) in RecordedObjects(spec, status)
  {
    var claim := Release.Claim(spec, status);
    var n := |status.bindingUuids|;
    assert forall i :: 0 <= i < n ==> claim.Objects()[i] == BindingObject(status.bindingUuids[i]);
    if status.applicationPk.Some? {
      assert claim.Objects()[n] == Object(ApplicationModel, status.applicationPk.value);
    }
    if claim.HasProvider() {
      assert claim.Objects()[|claim.Objects()| - 1] == claim.ProviderObject();
    }
  }

  /** The two resources recorded no object in common. */
  ghost predicate Apart(spec: Spec, status: Status, otherSpec: Spec, otherStatus: Status) {
    forall o :: !(Release.Claim(spec, status).Covers(o) && Release.Claim(otherSpec, otherStatus).Covers(o))
  }

  lemma ApartAreDisjoint(spec: Spec, status: Status, otherSpec: Spec, otherStatus: Status)
    ensures Apart(spec, status, otherSpec, otherStatus) <==>
              RecordedObjects(spec, status) !! RecordedObjects(otherSpec, otherStatus)
  {
    Release.ReleasedAreCovered(Release.Claim(spec, status), {});
    Release.ReleasedAreCovered(Release.Claim(otherSpec, otherStatus), {});
    hide Release.Claim.Covers, Release.Claim.Objects;
    forall o ensures o in RecordedObjects(spec, status) <==> Release.Claim(spec, status).Covers(o) {}
    forall o ensures o in RecordedObjects(otherSpec, otherStatus) <==> Release.Claim(otherSpec, otherStatus).Covers(o) {}
  }

  /** A deletion that has not recorded the Application takes at most the link of it. */
  lemma ApplicationNotReleased(slug: string, claim: Release.Claim, w: Release.World, v: Release.World)
    requires slug in w.applications && claim.status.applicationPk != Some(w.applications[slug].pk)
    requires Release.EndApplications(v, claim) == Release.EndApplications(w, claim)
    ensures slug in v.applications && v.applications[slug] == w.applications[slug].(provider := v.applications[slug].provider)
    ensures w.applications[slug].provider.Value?
            && (claim.HasProvider() ==> w.applications[slug].provider.value != claim.status.providerPk.value) ==>
              v.applications[slug] == w.applications[slug]
  {
    Release.EndOfApplication(w, claim, slug);
    OnlyThere(v, claim);
    hide Release.EndApplications;
    Release.EndOfApplication(v, claim, slug);
  }

  lemma OnlyThere(w: Release.World, claim: Release.Claim)
    ensures Release.EndApplications(w, claim).Keys <= w.applications.Keys
  {}

  /** A deletion that has not recorded the Provider leaves it and its membership alone. */
  lemma ProviderNotReleased(other: Goal, status: Status, claim: Release.Claim, a: Scene, b: Scene)
    requires ProviderIn(other, a, status)
    requires Release.End(WorldIn(b), claim) == Release.End(WorldIn(a), claim) && Release.TypeAgrees(WorldIn(a), claim)
    requires a.marked <= b.marked + Elements(claim.Objects())
    requires Elements(claim.Objects()) !! RecordedObjects(other.spec, status)
    ensures ProviderIn(other, b, status)
    ensures other.spec.provider.Some? && claim.HasProvider() ==> status.providerPk.value != claim.status.providerPk.value
  {
    hide ProxyConforms, OAuth2Conforms, Release.EndApplications, Release.EndBindings, HandlerOf;
    RecordedAre(other.spec, status);
    RecordedAre(claim.spec, claim.status);
    if other.spec.provider.Some? {
      SameBeside(claim, WorldIn(a), WorldIn(b), status.providerPk.value);
    }
  }

  /** Worlds with one end have the same Providers, and each in the same Outposts, besides the recorded one. */
  lemma SameBeside(claim: Release.Claim, w: Release.World, v: Release.World, pk: Key)
    requires Release.End(v, claim) == Release.End(w, claim) && (claim.HasProvider() ==> pk != claim.status.providerPk.value)
    ensures pk in w.proxies ==> pk in v.proxies && v.proxies[pk] == w.proxies[pk]
    ensures pk in w.oauth2s ==> pk in v.oauth2s && v.oauth2s[pk] == w.oauth2s[pk]
    ensures v.outposts.Keys == w.outposts.Keys
    ensures forall u :: u in w.outposts ==> (pk in w.outposts[u].providers <==> pk in v.outposts[u].providers)
  {
    hide Release.EndApplications, Release.EndBindings;
    if claim.HasProvider() {
      var gone := claim.status.providerPk.value;
      assert DropFromOutposts(v.outposts, gone) == DropFromOutposts(w.outposts, gone);
      assert DropFromOutposts(v.outposts, gone).Keys == v.outposts.Keys
             && DropFromOutposts(w.outposts, gone).Keys == w.outposts.Keys;
      forall u | u in w.outposts ensures pk in w.outposts[u].providers <==> pk in v.outposts[u].providers {
        assert DropFromOutposts(w.outposts, gone)[u] == DropFromOutposts(v.outposts, gone)[u];
        assert Without(w.outposts[u].providers, gone) == Without(v.outposts[u].providers, gone);
        assert pk in Without(w.outposts[u].providers, gone) <==> pk in w.outposts[u].providers;
      }
      assert pk in w.proxies ==> pk in w.proxies - {gone};
      assert pk in w.oauth2s ==> pk in w.oauth2s - {gone};
    }
  }

  /** A deletion that has not recorded the Bindings, nor the Application that they are on, leaves them alone. */
  lemma BindingsNotReleased(rules: seq<Rule>, target: Key, prune: bool, recorded: seq<Key>, claim: Release.Claim, a: Scene,
                            b: Scene)
    requires ValidRules(rules) && Settled(rules, target, prune, a.bindings, recorded, a.marked)
    requires Release.EndBindings(WorldIn(b), claim) == Release.EndBindings(WorldIn(a), claim)
    requires Release.Fewer(b.bindings, a.bindings) && a.marked <= b.marked + Elements(claim.Objects()) && b.marked <= a.marked
    requires forall k :: k in recorded ==> BindingObject(k) !in claim.Objects()
    requires claim.TakesApplication(a.applications) ==> a.applications[claim.Slug()].pbmUuid != target
    ensures Settled(rules, target, prune, b.bindings, recorded, b.marked)
  {
    hide SingleSubject, DesiredBinding, DiffBinding, ValidRule;
    RecordedAre(claim.spec, claim.status);
    forall i | 0 <= i < |rules|
      ensures recorded[i] in b.bindings && b.bindings[recorded[i]] == a.bindings[recorded[i]]
              && BindingObject(recorded[i]) in b.marked
    {
      SettledBinding(target, rules[i], a.bindings[recorded[i]]);
      assert recorded[i] in Release.EndBindings(WorldIn(a), claim);
      assert recorded[i] in Release.EndBindings(WorldIn(b), claim);
    }
  }

  /** A stop on the way to the end of a deletion leaves in place what the deleted resource has not recorded. */
  lemma ReleasedBeside(other: Goal, status: Status, claim: Release.Claim, sequence: nat, a: Scene, b: Scene)
    requires other.Valid() && DoneIn(other, a, status) && ValidApplications(a.applications, sequence)
    requires Release.End(WorldIn(b), claim) == Release.End(WorldIn(a), claim) && Release.TypeAgrees(WorldIn(a), claim)
    requires Release.Fewer(b.bindings, a.bindings) && a.marked <= b.marked + Elements(claim.Objects()) && b.marked <= a.marked
    requires Elements(claim.Objects()) !! RecordedObjects(other.spec, status)
    ensures DoneIn(other, b, status)
  {
    hide Settled, ProxyConforms, OAuth2Conforms, Goal.Handler, ProviderIn, Release.EndApplications, Release.EndBindings, ValidRules,
      Release.TypeAgrees;
    RecordedAre(other.spec, status);
    RecordedAre(claim.spec, claim.status);
    ProviderNotReleased(other, status, claim, a, b);
    ApplicationNotReleased(other.spec.slug, claim, WorldIn(a), WorldIn(b));
    BindingsNotReleased(other.resolved.rules, a.applications[other.spec.slug].pbmUuid, other.spec.prune, status.bindingUuids, claim,
                        a, b);
  }

  /** What is in place is marked. */
  lemma InPlaceIsMarked(goal: Goal, scene: Scene, status: Status)
    requires goal.Valid() && DoneIn(goal, scene, status)
    ensures RecordedObjects(goal.spec, status) <= scene.marked
  {
    hide ApplicationConforms, ProxyConforms, OAuth2Conforms, HandlerOf, ValidRules;
    var claim := Release.Claim(goal.spec, status);
    var n := |status.bindingUuids|;
    forall i | 0 <= i < |claim.Objects()| ensures claim.Objects()[i] in scene.marked {
      assert i < n ==> claim.Objects()[i] == BindingObject(status.bindingUuids[i]);
    }
  }

  /** Nothing that a successful reconcile put in place is left at the end of a deletion: no Application, Binding, or Provider. */
  lemma InPlaceIsReleased(goal: Goal, scene: Scene, status: Status)
    requires goal.Valid() && DoneIn(goal, scene, status) && Named(goal.spec.slug, status)
    ensures var end, target := Release.End(WorldIn(scene), Release.Claim(goal.spec, status)),
                               scene.applications[goal.spec.slug].pbmUuid;
            && goal.spec.slug !in end.applications
            && (forall k :: k in end.bindings ==> end.bindings[k].target != target && k !in status.bindingUuids)
            && (goal.spec.provider.Some? ==>
                  && (if goal.spec.provider.value.kind.ProxySpec? then status.providerPk.value !in end.proxies
                      else status.providerPk.value !in end.oauth2s)
                  && forall k :: k in end.outposts ==> status.providerPk.value !in end.outposts[k].providers)
  {
    hide ApplicationConforms, ProxyConforms, OAuth2Conforms, HandlerOf, ValidRules, Settled, Release.End, Goal.Valid;
    var w, claim := WorldIn(scene), Release.Claim(goal.spec, status);
    Release.EndOfApplication(w, claim, goal.spec.slug);
    Release.EndLeavesNothing(w, claim);
    Release.EndKeepsOthers(w, claim);
    assert Release.End(w, claim).applications == Release.EndApplications(w, claim) by { EndIs(w, claim); }
  }

  lemma EndIs(w: Release.World, claim: Release.Claim)
    ensures Release.End(w, claim).applications == Release.EndApplications(w, claim)
  {}

  lemma ReleasedOrNot(other: Goal, status: Status, claim: Release.Claim, sequence: nat, a: Scene, b: Scene, released: bool)
    requires other.Valid() && DoneIn(other, a, status) && ValidApplications(a.applications, sequence)
    requires Release.End(WorldIn(b), claim) == Release.End(WorldIn(a), claim) && Release.TypeAgrees(WorldIn(a), claim)
    requires Release.Fewer(b.bindings, a.bindings) && a.marked <= b.marked + Elements(claim.Objects()) && b.marked <= a.marked
    requires released ==> b.marked == a.marked - Elements(claim.Objects())
    ensures Elements(claim.Objects()) !! RecordedObjects(other.spec, status) ==> DoneIn(other, b, status)
    ensures released && DoneIn(other, b, status) ==> Elements(claim.Objects()) !! RecordedObjects(other.spec, status)
  {
    hide DoneIn, ValidApplications, Release.End, Release.TypeAgrees, Release.Fewer, RecordedObjects, Goal.Valid;
    if Elements(claim.Objects()) !! RecordedObjects(other.spec, status) {
      ReleasedBeside(other, status, claim, sequence, a, b);
    }
    if DoneIn(other, b, status) {
      InPlaceIsMarked(other, b, status);
    }
  }

  lemma WorldOfScene(marker: Marker, status: Status, base: Status)
    ensures WorldIn(SceneOf(marker, status, base)) == Release.WorldOf(marker.server)
    ensures SceneOf(marker, status, base).bindings == marker.server.bindings
  {}

  lemma EndOfEnd(w: Release.World, v: Release.World, claim: Release.Claim)
    requires v == w || v == Release.End(w, claim) || Release.End(v, claim) == Release.End(w, claim)
    ensures Release.End(v, claim) == Release.End(w, claim)
  {
    Release.EndTwice(w, claim);
  }

  /**
   However often the release of a deleted resource is tried, with failures and crashes anywhere, what another resource has
   in place stays so unless both recorded the same object; once the release goes through, if and only if they did not.
   */
  method ReleaseBeside(markers: MarkerCache, s: Resource, spec: Spec, attempts: nat, ghost other: Goal, ghost status: Status)
    returns (res: Result<()>)
    requires markers.marker.server.Valid() && markers.Exact() && s.status == s.base
    requires Release.TypeAgrees(Release.WorldOf(markers.marker.server), Release.Claim(spec, s.base))
    requires other.Valid() && Done(other, markers.marker.server, markers.marker.Marked(), status)
    modifies s`status, markers, markers.marker, markers.marker.server
    ensures markers.marker.server.Valid() && s.base == old(s.base)
    ensures Apart(spec, s.base, other.spec, status) ==>
              Done(other, markers.marker.server, markers.marker.Marked(), status)
    ensures res.Ok? ==>
              (Done(other, markers.marker.server, markers.marker.Marked(), status) <==>
               Apart(spec, s.base, other.spec, status))
  {
    hide ValidBindings, ValidLinks, ValidProviders, ValidOutposts, ValidRoles, MarkedBy, Done, SceneOf, DoneIn, WorldIn, Goal.Valid,
      MarkerCache.Exact, Release.WorldOf, Release.End, Release.TypeAgrees, Release.Fewer, Apart;
    ghost var claim, before := Release.Claim(spec, s.base), SceneOf(markers.marker, s.base, s.base);
    DoneInScene(other, markers.marker, status, s.base, s.base);
    WorldOfScene(markers.marker, s.base, s.base);
    Release.ReleasedAreCovered(claim, before.marked);
    ApartAreDisjoint(spec, s.base, other.spec, status);
    res := Release.ReleaseUntilDone(markers, s, spec, attempts);
    ghost var after := SceneOf(markers.marker, s.base, s.base);
    WorldOfScene(markers.marker, s.base, s.base);
    EndOfEnd(WorldIn(before), WorldIn(after), claim);
    ReleasedOrNot(other, status, claim, old(markers.marker.server.sequence), before, after, res.Ok?);
    DoneInScene(other, markers.marker, status, s.base, s.base);
  }
}
