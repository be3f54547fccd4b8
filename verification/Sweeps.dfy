/**
 A reconcile with steps of the marker collector between its parts (internal/controller/gc.go): the collector takes the
 markers of missing objects only, which the reconcile does not notice.
 */
module Sweeps {
  import opened Base
  import opened Api
  import opened Patch
  import opened Matching
  import opened Server
  import opened Ownership
  import opened Desired
  import opened Specified
  import opened Resources
  import opened BindingPlan
  import opened BindingAttempts
  import opened BindingTally
  import opened BindingHistory
  import opened BindingSteps
  import opened Bindings
  import opened Providers
  import opened Applications
  import opened Frames
  import opened Reconciler
  import Collector

  /** The scene as if the lost markers were still there. */
  function With(scene: Scene, lost: set<Object>): Scene {
    scene.(marked := scene.marked + lost)
  }

  /** The object is on the server. */
  predicate Exists(scene: Scene, o: Object) {
    match o.model
    case ApplicationModel => exists s :: s in scene.applications && scene.applications[s].pk == o.pk
    case ProxyProviderModel => o.pk in scene.proxies
    case OAuth2ProviderModel => o.pk in scene.oauth2s
    case BindingModel => o.pk in scene.bindings
  }

  /** None of the objects is on the server. */
  predicate Missing(scene: Scene, lost: set<Object>) {
    forall o :: o in lost ==> !Exists(scene, o)
  }

  lemma MissingOnServer(marker: Marker, status: Status, base: Status, lost: set<Object>)
    requires forall o :: o in lost ==> !marker.server.ObjectExists(o)
    ensures Missing(SceneOf(marker, status, base), lost)
  {
    hide MarkedBy;
  }

  /** No Binding is among the objects. */
  predicate NoBinding(bindings: map<Key, Binding>, lost: set<Object>) {
    forall k :: k in bindings ==> BindingObject(k) !in lost
  }

  lemma MissingBindings(scene: Scene, lost: set<Object>)
    requires Missing(scene, lost)
    ensures NoBinding(scene.bindings, lost)
  {
    forall k | k in scene.bindings ensures BindingObject(k) !in lost {
      assert Exists(scene, BindingObject(k));
    }
  }

  /** A step that leaves the rest alone does so with the markers of missing objects, too. */
  lemma StillWith(slug: string, uuid: Key, a: Scene, b: Scene, lost: set<Object>)
    requires Still(slug, uuid, a, b) && NoBinding(a.bindings, lost)
    ensures Still(slug, uuid, With(a, lost), With(b, lost))
  {
    hide OtherSlugsStay, OtherMembersStay, OthersStay;
  }

  lemma KeptWith(slug: string, uuid: Key, taken: set<Key>, a: Scene, b: Scene, lost: set<Object>)
    requires Kept(slug, uuid, taken, a, b) && NoBinding(a.bindings, lost)
    ensures Kept(slug, uuid, taken, With(a, lost), With(b, lost))
  {
    hide OtherSlugsStay, OtherMembersStay, OthersStay;
  }

  /** What is missing later, before any deletion, was missing. */
  lemma WasMissing(slug: string, uuid: Key, taken: set<Key>, a: Scene, b: Scene, lost: set<Object>)
    requires OnlyOwn(slug, uuid, taken, a, b) && a.bindings == b.bindings && Missing(b, lost)
    ensures Missing(a, lost)
  {
    hide OtherTargetsStay, OtherMembersStay;
    assert forall o :: Exists(a, o) ==> Exists(b, o);
  }

  lemma SweptOnce(before: Scene, after: Scene, lost: set<Object>, gone: set<Object>)
    requires after == before.(marked := after.marked) && gone == before.marked - after.marked && after.marked <= before.marked
    ensures With(after, lost + gone) == With(before, lost)
  {
    assert after.marked + (lost + gone) == before.marked + lost;
  }

  /** The markers of objects on the server stay, and with them what is in place. */
  lemma InPlaceAfter(goal: Goal, server: Authentik, before: set<Object>, after: set<Object>, status: Status)
    requires forall o :: o in before && server.ObjectExists(o) ==> o in after
    ensures ProviderDone(goal, server, before, status) ==> ProviderDone(goal, server, after, status)
    ensures ApplicationDone(goal, server, before, status) ==> ApplicationDone(goal, server, after, status)
    ensures goal.Valid() && BindingsDone(goal, server, before, status) && after <= before ==>
              BindingsDone(goal, server, after, status)
    ensures goal.spec.slug in server.applications && ApplicationObject(server.applications[goal.spec.slug]) in before ==>
              ApplicationObject(server.applications[goal.spec.slug]) in after
  {
    hide Handler.Conforms, HandlerOf, ApplicationConforms, DesiredApplication, DiffBinding, DesiredBinding, ValidRules;
    if goal.spec.slug in server.applications {
      assert server.ObjectExists(ApplicationObject(server.applications[goal.spec.slug]));
    }
  }

  lemma MissingBoth(scene: Scene, a: set<Object>, b: set<Object>)
    requires Missing(scene, a) && Missing(scene, b)
    ensures Missing(scene, a + b)
  {}

  /** Markers and status do not matter. */
  lemma MissingAnyway(a: Scene, b: Scene, lost: set<Object>, gone: set<Object>)
    requires Missing(a, gone) && b == a.(marked := b.marked, status := b.status, base := b.base)
    ensures Missing(With(b, lost), gone)
  {
    assert forall o :: Exists(With(b, lost), o) ==> Exists(a, o);
  }

  /** Markers of what exists, besides Bindings, stay. */
  ghost predicate Remain(a: Scene, b: Scene) {
    forall o :: o in a.marked && !o.model.BindingModel? && Exists(a, o) ==> o in b.marked && Exists(b, o)
  }

  lemma SweptRemain(a: Scene, marker: Marker, status: Status, base: Status)
    requires SceneOf(marker, status, base) == a.(marked := marker.Marked())
    requires forall o :: o in a.marked && marker.server.ObjectExists(o) ==> o in marker.Marked()
    ensures Remain(a, SceneOf(marker, status, base))
  {
    hide MarkedBy;
    forall o | o in a.marked && Exists(a, o) ensures marker.server.ObjectExists(o) {}
  }

  lemma RemainAfter(slug: string, uuid: Key, taken: set<Key>, a: Scene, b: Scene)
    requires OnlyOwn(slug, uuid, taken, a, b)
    ensures Remain(a, b)
  {
    hide OtherMembersStay;
  }

  lemma RemainChain(a: Scene, b: Scene, c: Scene)
    requires Remain(a, b) && Remain(b, c)
    ensures Remain(a, c)
  {}

  /** The markers of the Bindings that there are stay the same. */
  ghost predicate KeepMarks(bindings: map<Key, Binding>, before: set<Object>, after: set<Object>) {
    forall k :: k in bindings ==> (BindingObject(k) in before <==> BindingObject(k) in after)
  }

  lemma MarksOfStep(bindings: map<Key, Binding>, before: set<Object>, between: set<Object>, after: set<Object>)
    requires KeepMarks(bindings, before, between) && BindingMarksStay(between, after)
    ensures KeepMarks(bindings, before, after)
  {}

  lemma MarksOfSweep(server: Authentik, before: set<Object>, after: set<Object>)
    requires after <= before && forall o :: o in before && server.ObjectExists(o) ==> o in after
    ensures KeepMarks(server.bindings, before, after)
  {
    forall k | k in server.bindings ensures server.ObjectExists(BindingObject(k)) {}
  }

  lemma MarksChain(bindings: map<Key, Binding>, a: set<Object>, b: set<Object>, c: set<Object>)
    requires KeepMarks(bindings, a, b) && KeepMarks(bindings, b, c)
    ensures KeepMarks(bindings, a, c)
  {}

  /** What is managed counts the same when only markers of missing Bindings differ. */
  lemma SameTally(rules: seq<Rule>, target: Key, bindings: map<Key, Binding>, keys: set<Key>, others: set<Key>, wanted: Class)
    requires ValidRules(rules) && forall k :: k in bindings ==> (k in keys <==> k in others)
    ensures TallyOf(rules, target, bindings, keys, wanted) == TallyOf(rules, target, bindings, others, wanted)
  {
    forall c ensures OnTarget(bindings, target, c) * keys == OnTarget(bindings, target, c) * others
                     && OnTarget(bindings, target, c) - keys == OnTarget(bindings, target, c) - others {
      OnTargetIsStored(bindings, target, c);
    }
  }

  lemma SameUnmanaged(prune: bool, first: map<Key, Binding>, recorded: seq<Key>, before: set<Object>, after: set<Object>,
                      now: map<Key, Binding>)
    requires KeepMarks(first, before, after)
    ensures UnmanagedStay(prune, first, ManagedKeys(recorded, after), now) <==>
              UnmanagedStay(prune, first, ManagedKeys(recorded, before), now)
  {
    hide ManagedKeys;
    forall k | k in first ensures k in ManagedKeys(recorded, before) <==> k in ManagedKeys(recorded, after) {
      ManagedKey(recorded, before, k);
      ManagedKey(recorded, after, k);
    }
  }

  lemma SameCount(rules: seq<Rule>, target: Key, first: map<Key, Binding>, recorded: seq<Key>, before: set<Object>,
                  after: set<Object>, now: map<Key, Binding>, keysNow: set<Key>, history: seq<Write>, start: nat,
                  finished: bool)
    requires ValidRules(rules) && KeepMarks(first, before, after)
    requires Counted(rules, target, first, ManagedKeys(recorded, after), now, keysNow, history, start, finished)
    ensures Counted(rules, target, first, ManagedKeys(recorded, before), now, keysNow, history, start, finished)
  {
    hide TallyOf, ManagedKeys;
    forall k | k in first ensures k in ManagedKeys(recorded, before) <==> k in ManagedKeys(recorded, after) {
      ManagedKey(recorded, before, k);
      ManagedKey(recorded, after, k);
    }
    forall wanted
      ensures Attempted(rules, target, first, ManagedKeys(recorded, before), now, keysNow, wanted)
      ensures finished ==> Completed(rules, target, first, ManagedKeys(recorded, before), now, keysNow, wanted)
    {
      SameTally(rules, target, first, ManagedKeys(recorded, before), ManagedKeys(recorded, after), wanted);
      assert Attempted(rules, target, first, ManagedKeys(recorded, after), now, keysNow, wanted);
      assert finished ==> Completed(rules, target, first, ManagedKeys(recorded, after), now, keysNow, wanted);
    }
  }

  /** Nothing but roles and markers was requested. */
  ghost predicate OnlyMarkerCalls(before: seq<Write>, after: seq<Write>) {
    before <= after && forall k :: |before| <= k < |after| ==> RoleCall(after[k].call)
  }

  lemma MarkerCalls(before: seq<Write>, after: seq<Write>, bindings: map<Key, Binding>, outposts: map<Key, Outpost>)
    requires OnlyMarkerWrites(before, after, bindings, outposts)
    ensures OnlyMarkerCalls(before, after)
  {}

  lemma MarkerCallsChain(a: seq<Write>, b: seq<Write>, c: seq<Write>)
    requires OnlyMarkerCalls(a, b) && OnlyMarkerCalls(b, c)
    ensures OnlyMarkerCalls(a, c)
  {}

  /** Where a reconcile started. */
  datatype Start = Start(scene: Scene, search: Search, known: set<Key>, history: seq<Write>)

  /** Steps of the collector, between two parts. They go unnoticed but for lost markers of objects missing from the start. */
  method SweepBetween(markers: MarkerCache, s: Resource, goal: Goal, ghost start: Scene, ghost taken: set<Key>,
                      ghost lost: set<Object>)
    returns (ghost more: set<Object>)
    requires markers.marker.server.Valid() && markers.Exact()
    requires Missing(start, lost) && start.bindings == markers.marker.server.bindings
    requires OnlyOwn(goal.spec.slug, goal.resolved.proxy.outpost, taken, start,
                     With(SceneOf(markers.marker, s.status, s.base), lost))
    modifies markers, markers.marker, markers.marker.server
    ensures markers.marker.server.Valid() && markers.Exact()
    ensures With(SceneOf(markers.marker, s.status, s.base), more) == old(With(SceneOf(markers.marker, s.status, s.base), lost))
    ensures Missing(start, more)
    ensures markers.marker.server.SameObjects()
    ensures OnlyMarkerCalls(old(markers.marker.server.history), markers.marker.server.history)
    ensures markers.marker.Marked() <= old(markers.marker.Marked()) && NoBinding(markers.marker.server.bindings, more)
    ensures forall o :: o in old(markers.marker.Marked()) && markers.marker.server.ObjectExists(o) ==> o in markers.marker.Marked()
    ensures Remain(old(SceneOf(markers.marker, s.status, s.base)), SceneOf(markers.marker, s.status, s.base))
    ensures KeepMarks(markers.marker.server.bindings, old(markers.marker.Marked()), markers.marker.Marked())
    ensures KeepsBindings(old(markers.marker.server.history), markers.marker.server.history, markers.marker.server.bindings)
            && CreatesNoProvider(markers.marker.server.history, old(|markers.marker.server.history|))
    ensures old(ProviderDone(goal, markers.marker.server, markers.marker.Marked(), s.status)) ==>
              ProviderDone(goal, markers.marker.server, markers.marker.Marked(), s.status)
    ensures old(ApplicationDone(goal, markers.marker.server, markers.marker.Marked(), s.status)) ==>
              ApplicationDone(goal, markers.marker.server, markers.marker.Marked(), s.status)
    ensures goal.spec.slug in markers.marker.server.applications
            && old(Owned(markers.marker.server.applications[goal.spec.slug], s.status, markers.marker.Marked())) ==>
              Owned(markers.marker.server.applications[goal.spec.slug], s.status, markers.marker.Marked())
    ensures goal.Valid() && old(BindingsDone(goal, markers.marker.server, markers.marker.Marked(), s.status)) ==>
              BindingsDone(goal, markers.marker.server, markers.marker.Marked(), s.status)
  {
    hide ValidBindings, ValidApplications, ValidLinks, ValidProviders, ValidOutposts, ValidRoles, MarkedBy, Authentik.ObjectExists,
      MarkerCache.Exact, OnlyOwn, Missing, OnlyMarkerWrites, OnlyMarkerCalls, ProviderDone, ApplicationDone, BindingsDone, Remain,
      KeepsBindings, CreatesNoProvider, NoBinding, KeepMarks;
    ghost var before := SceneOf(markers.marker, s.status, s.base);
    var steps: nat := *;
    ghost var gone := Collector.Sweep(markers, steps);
    ghost var after := SceneOf(markers.marker, s.status, s.base);
    SweptOnce(before, after, lost, gone);
    MissingOnServer(markers.marker, s.status, s.base, gone);
    MissingAnyway(after, before, lost, gone);
    WasMissing(goal.spec.slug, goal.resolved.proxy.outpost, taken, start, With(before, lost), gone);
    more := lost + gone;
    MissingBoth(start, lost, gone);
    MissingBindings(start, more);
    SweptRemain(before, markers.marker, s.status, s.base);
    MarksOfSweep(markers.marker.server, before.marked, markers.marker.Marked());
    InPlaceAfter(goal, markers.marker.server, before.marked, markers.marker.Marked(), s.status);
    ThoseKeepBindings(old(markers.marker.server.history), markers.marker.server.history, markers.marker.server.bindings,
                      markers.marker.server.outposts);
    MarkersCreateNoProvider(old(markers.marker.server.history), markers.marker.server.history, markers.marker.server.bindings,
                            markers.marker.server.outposts);
    MarkerCalls(old(markers.marker.server.history), markers.marker.server.history, markers.marker.server.bindings,
                markers.marker.server.outposts);
  }

  // ---------- the parts ----------

  /** The Application, after steps of the collector. */
  method TakeOverAmid(markers: MarkerCache, s: Resource, goal: Goal)
    returns (res: Result<Option<Application>>, ghost lost: set<Object>)
    requires markers.marker.server.Valid() && markers.Exact() && s.status == s.base
    modifies s, markers, markers.marker, markers.clock, markers.marker.server
    ensures markers.marker.server.Valid() && markers.Exact() && markers.marker.server.SameObjects()
    ensures KeepMarks(markers.marker.server.bindings, old(markers.marker.Marked()), markers.marker.Marked())
    ensures Missing(old(SceneOf(markers.marker, s.status, s.base)), lost)
    ensures Still(goal.spec.slug, goal.resolved.proxy.outpost, old(SceneOf(markers.marker, s.status, s.base)),
                  With(SceneOf(markers.marker, s.status, s.base), lost))
    ensures KeepsBindings(old(markers.marker.server.history), markers.marker.server.history, markers.marker.server.bindings)
    ensures CreatesNoProvider(markers.marker.server.history, old(|markers.marker.server.history|))
    ensures s.status.providerPk == s.base.providerPk == old(s.base).providerPk
            && s.status.outpostUuid == old(s.status).outpostUuid == s.base.outpostUuid
    ensures s.status.bindingUuids == s.base.bindingUuids == old(s.base).bindingUuids
    ensures res.Ok? ==>
              && IsApplication(markers.marker.server, goal.spec.slug, res.value)
              && (res.value.Some? ==> Owned(res.value.value, s.status, markers.marker.Marked()))
    ensures res.Err? && res.error.Stop? ==>
              res.error in {Stop(Unmanaged), Stop(ProviderTypeMismatch), Stop(StopReason.AdoptionDiff)}
    ensures old(Unclaimed(markers.marker, goal.spec.slug, s.base)) ==>
              AdoptionDecides(markers.marker.Marked(), if res.Err? then Some(res.error) else None,
                              old(ApplicationObject(markers.marker.server.applications[goal.spec.slug])),
                              old(RefusalFor(goal, markers.marker.server)))
    ensures old(ApplicationDone(goal, markers.marker.server, markers.marker.Marked(), s.status)) ==>
              && OnlyMarkerCalls(old(markers.marker.server.history), markers.marker.server.history)
              && s.status == old(s.status) && s.base == old(s.base) && (res.Err? ==> res.error == Unavailable)
    ensures old(ObjectsDone(goal, markers.marker.server, markers.marker.Marked(), s.status)) ==>
              ObjectsDone(goal, markers.marker.server, markers.marker.Marked(), s.status)
  {
    hide ValidBindings, ValidApplications, ValidLinks, ValidProviders, ValidOutposts, ValidRoles, MarkedBy, ApplicationDone,
      ProviderDone, KeepsBindings, AcceptedCalls, MarkerCache.Exact, OnlyMarkerWrites, OnlyMarkerCalls, OnlyLinks, NotAdopted,
      Fitting, Attaches, Still, OnlyOwn, Missing, SceneOf, With, RefusalFor, AdoptionDecides, CreatesNoProvider, BindingMarksStay,
      ApplicationConforms, DesiredApplication, Authentik.ObjectExists, IsApplication, Owned, KeepMarks;
    var server := markers.marker.server;
    ghost var start := SceneOf(markers.marker, s.status, s.base);
    NothingLost(goal.spec.slug, goal.resolved.proxy.outpost, start);
    BindingsHere(markers.marker, s.status, s.base);
    lost := SweepBetween(markers, s, goal, start, {}, {});
    ghost var swept, history, between := SceneOf(markers.marker, s.status, s.base), server.history, markers.marker.Marked();
    BindingsHere(markers.marker, s.status, s.base);
    QuietPrefix(old(server.history), history, server.bindings);
    res := TakeOver(markers, s, goal);
    MarksOfStep(server.bindings, start.marked, between, markers.marker.Marked());
    DoneAfterMarks(goal, server, between, markers.marker.Marked(), s.status);
    StillWith(goal.spec.slug, goal.resolved.proxy.outpost, swept, SceneOf(markers.marker, s.status, s.base), lost);
    KeepsBindingsChain(old(server.history), history, server.history, server.bindings);
    QuietPrefix(history, server.history, server.bindings);
    NoneCreated(old(server.history), history, server.history);
  }

  lemma DoneAfterMarks(goal: Goal, server: Authentik, before: set<Object>, after: set<Object>, status: Status)
    requires BindingMarksStay(before, after)
    ensures ObjectsDone(goal, server, before, status) ==> ObjectsDone(goal, server, after, status)
    ensures ApplicationDone(goal, server, before, status) ==> ApplicationDone(goal, server, after, status)
  {
    StillDone(goal, server, before, after, status, status);
  }

  lemma NoneCreated(a: seq<Write>, b: seq<Write>, c: seq<Write>)
    requires a <= b <= c && CreatesNoProvider(b, |a|) && CreatesNoProvider(c, |b|)
    ensures CreatesNoProvider(c, |a|)
  {
    hide AcceptedCalls, NameRefused;
    CreatedBefore(b, c, |a|);
  }

  lemma BindingsHere(marker: Marker, status: Status, base: Status)
    ensures SceneOf(marker, status, base).bindings == marker.server.bindings
  {}

  lemma NothingLost(slug: string, uuid: Key, scene: Scene)
    ensures With(scene, {}) == scene && Missing(scene, {}) && OnlyOwn(slug, uuid, {}, scene, With(scene, {}))
  {
    assert scene.marked + {} == scene.marked;
    NothingChanged(slug, uuid, {}, scene);
  }

  /** What holds from the Provider part on: only the own objects changed since the start, besides lost markers. */
  ghost predicate Underway(goal: Goal, markers: MarkerCache, s: Resource, start: Start, lost: set<Object>)
    reads s, markers.marker.server
  {
    var server := markers.marker.server;
    && KeepsBindings(start.history, server.history, server.bindings) && server.bindings == start.scene.bindings
    && KeepMarks(server.bindings, start.scene.marked, markers.marker.Marked())
    && Missing(start.scene, lost)
    && Kept(goal.spec.slug, goal.resolved.proxy.outpost, start.search.selection, start.scene,
            With(SceneOf(markers.marker, s.status, s.base), lost))
    && SearchKept(goal, CatalogOf(server), s.base.providerPk, s.status.providerPk, start.search, start.known,
                  AcceptedCalls(server.history, |start.history|, CreateProviderCall), NameRefused(server.history, |start.history|))
  }

  /** The Provider part, after steps of the collector. */
  method ProviderAmid(markers: MarkerCache, s: Resource, secret: CredentialsSecret, goal: Goal, observed: Option<Application>,
                      ghost start: Start, ghost lost: set<Object>)
    returns (res: Result<()>, ghost more: set<Object>)
    requires markers.marker.server.Valid() && markers.Exact() && IsApplication(markers.marker.server, goal.spec.slug, observed)
    requires observed.Some? ==> Owned(observed.value, s.status, markers.marker.Marked())
    requires s.status.providerPk == s.base.providerPk && s.status.outpostUuid == s.base.outpostUuid
             && s.status.bindingUuids == s.base.bindingUuids && SamePlace(start.scene.status, start.scene.base)
    requires Missing(start.scene, lost) && start.scene.bindings == markers.marker.server.bindings
    requires KeepMarks(markers.marker.server.bindings, start.scene.marked, markers.marker.Marked())
    requires KeepsBindings(start.history, markers.marker.server.history, markers.marker.server.bindings)
             && CreatesNoProvider(markers.marker.server.history, |start.history|)
    requires Still(goal.spec.slug, goal.resolved.proxy.outpost, start.scene, With(SceneOf(markers.marker, s.status, s.base), lost))
    requires start.search == SearchFor(goal, CatalogOf(markers.marker.server), s.base.providerPk)
             && start.known == markers.marker.server.Providers()
    modifies s, secret, markers, markers.marker, markers.clock, markers.marker.server
    ensures markers.marker.server.Valid() && markers.Exact() && Underway(goal, markers, s, start, more)
    ensures IsApplication(markers.marker.server, goal.spec.slug, observed)
    ensures observed.Some? ==> Owned(observed.value, s.status, markers.marker.Marked())
    ensures s.status.bindingUuids == s.base.bindingUuids == old(s.base).bindingUuids
            && s.status.adoptionDiff == old(s.status).adoptionDiff
    ensures res.Ok? ==>
              && ProviderDone(goal, markers.marker.server, markers.marker.Marked(), s.status)
              && s.base.providerPk == s.status.providerPk
              && Exported(goal, markers.marker.server.oauth2Providers, s.status.providerPk, old(secret.data), secret.data)
              && Relocated(goal, old(markers.marker.server.outposts), markers.marker.server.outposts, old(s.status).outpostUuid,
                           s.status.providerPk)
    ensures old(markers.marker.server.Providers()) <= markers.marker.server.Providers()
    ensures OnlyAsAsked(goal, old(markers.marker.server.proxyProviders), old(markers.marker.server.oauth2Providers),
                        markers.marker.server.proxyProviders, markers.marker.server.oauth2Providers)
    ensures markers.marker.server.applications == old(markers.marker.server.applications)
    ensures Remain(old(SceneOf(markers.marker, s.status, s.base)), SceneOf(markers.marker, s.status, s.base))
    ensures res.Err? && res.error.Stop? ==> res.error == Stop(ProviderTypeMismatch)
    ensures old(ProviderDone(goal, markers.marker.server, markers.marker.Marked(), s.status)) ==>
              && OnlyMarkerCalls(old(markers.marker.server.history), markers.marker.server.history)
              && s.status == old(s.status) && s.base == old(s.base) && (res.Err? ==> res.error == Unavailable)
    ensures old(ObjectsDone(goal, markers.marker.server, markers.marker.Marked(), s.status)) ==>
              ApplicationDone(goal, markers.marker.server, markers.marker.Marked(), s.status)
  {
    hide ValidBindings, ValidApplications, ValidLinks, ValidProviders, ValidOutposts, ValidRoles, MarkedBy, ProviderDone,
      ApplicationDone, BindingsDone, NoBinding, KeepMarks, KeepsBindings, AcceptedCalls, MarkerCache.Exact, OnlyMarkerWrites,
      OnlyMarkerCalls, OnlyLinks, Still, OnlyOwn, Missing, SceneOf, With, CreatesNoProvider, BindingMarksStay,
      Authentik.ObjectExists, IsApplication, SearchFor, SearchKept, NameRefused, CatalogOf, Owned, Kept, Exported, Relocated,
      Remain, Stuck, NothingToSend, Goal.Link, Goal.Exports, ApplicationObject, OnlyAsAsked;
    var server := markers.marker.server;
    ghost var first := SceneOf(markers.marker, s.status, s.base);
    OwnOfStill(goal.spec.slug, goal.resolved.proxy.outpost, start.scene, With(first, lost));
    OwnedHere(server, goal.spec.slug, observed);
    more := SweepBetween(markers, s, goal, start.scene, {}, lost);
    ghost var swept, history, between := SceneOf(markers.marker, s.status, s.base), server.history, markers.marker.Marked();
    KeepsBindingsChain(start.history, old(server.history), history, server.bindings);
    NoneCreated(start.history, old(server.history), history);
    BindingsHere(markers.marker, s.status, s.base);
    var link := ReconcileProviderPart(markers, s, secret, goal, observed);
    ghost var now := SceneOf(markers.marker, s.status, s.base);
    KeptWith(goal.spec.slug, goal.resolved.proxy.outpost, start.search.selection, swept, now, more);
    StillThenKept(goal.spec.slug, goal.resolved.proxy.outpost, start.search.selection, start.scene, With(swept, more),
                  With(now, more));
    OwnOfKept(goal.spec.slug, goal.resolved.proxy.outpost, start.search.selection, swept, now);
    RemainAfter(goal.spec.slug, goal.resolved.proxy.outpost, start.search.selection, swept, now);
    RemainChain(first, swept, now);
    MarksChain(server.bindings, start.scene.marked, first.marked, between);
    MarksOfStep(server.bindings, start.scene.marked, between, markers.marker.Marked());
    DoneAfterMarks(goal, server, between, markers.marker.Marked(), old(s.status));
    OwnedLater(goal, server, observed, between, markers.marker.Marked(), old(s.status), s.status);
    KeepsBindingsChain(start.history, history, server.history, server.bindings);
    CreatedAfter(history, server.history, |start.history|);
    res := if link.Ok? then Ok(()) else Err(link.error);
  }

  lemma OwnedHere(server: Authentik, slug: string, observed: Option<Application>)
    requires IsApplication(server, slug, observed)
    ensures observed.Some? ==> slug in server.applications && server.applications[slug] == observed.value
  {}

  lemma OwnedLater(goal: Goal, server: Authentik, observed: Option<Application>, before: set<Object>, after: set<Object>,
                   status: Status, later: Status)
    requires BindingMarksStay(before, after) && later.applicationPk == status.applicationPk
    ensures observed.Some? && Owned(observed.value, status, before) ==> Owned(observed.value, later, after)
  {}

  lemma OwnOfStill(slug: string, uuid: Key, a: Scene, b: Scene)
    requires Still(slug, uuid, a, b)
    ensures OnlyOwn(slug, uuid, {}, a, b)
  {}

  lemma OwnOfKept(slug: string, uuid: Key, taken: set<Key>, a: Scene, b: Scene)
    requires Kept(slug, uuid, taken, a, b)
    ensures OnlyOwn(slug, uuid, taken, a, b)
  {}

  /** The Application part, after steps of the collector. */
  method ApplicationAmid(markers: MarkerCache, s: Resource, goal: Goal, observed: Option<Application>, ghost start: Start,
                         ghost lost: set<Object>)
    returns (res: Result<Application>, ghost more: set<Object>)
    requires markers.marker.server.Valid() && markers.Exact() && IsApplication(markers.marker.server, goal.spec.slug, observed)
    requires observed.Some? ==> Owned(observed.value, s.status, markers.marker.Marked())
    requires ProviderDone(goal, markers.marker.server, markers.marker.Marked(), s.status)
             && s.base.providerPk == s.status.providerPk && s.status.bindingUuids == s.base.bindingUuids
    requires Underway(goal, markers, s, start, lost)
    modifies s, markers, markers.marker, markers.clock, markers.marker.server
    ensures markers.marker.server.Valid() && markers.Exact() && Underway(goal, markers, s, start, more)
    ensures s.status.bindingUuids == s.base.bindingUuids == old(s.base).bindingUuids && s.base.providerPk == s.status.providerPk
    ensures s.status.providerPk == old(s.status).providerPk && s.status.adoptionDiff == old(s.status).adoptionDiff
    ensures res.Ok? ==>
              && IsApplication(markers.marker.server, goal.spec.slug, Some(res.value))
              && ProviderDone(goal, markers.marker.server, markers.marker.Marked(), s.status)
              && ApplicationDone(goal, markers.marker.server, markers.marker.Marked(), s.status)
    ensures markers.marker.server.proxyProviders == old(markers.marker.server.proxyProviders)
            && markers.marker.server.oauth2Providers == old(markers.marker.server.oauth2Providers)
            && markers.marker.server.outposts == old(markers.marker.server.outposts)
    ensures Remain(old(SceneOf(markers.marker, s.status, s.base)), SceneOf(markers.marker, s.status, s.base))
    ensures SlugAsAsked(goal.spec, old(markers.marker.server.applications), markers.marker.server.applications)
    ensures res.Err? ==> res.error == Unavailable || res.error == BadRequest
    ensures observed.Some? && old(ApplicationDone(goal, markers.marker.server, markers.marker.Marked(), s.status)) ==>
              && OnlyMarkerCalls(old(markers.marker.server.history), markers.marker.server.history)
              && res.Ok? && s.status == old(s.status) && s.base == old(s.base)
  {
    hide ValidBindings, ValidApplications, ValidLinks, ValidProviders, ValidOutposts, ValidRoles, MarkedBy, ProviderDone,
      ApplicationDone, BindingsDone, NoBinding, KeepMarks, KeepsBindings, AcceptedCalls, MarkerCache.Exact, OnlyMarkerWrites,
      OnlyMarkerCalls, OnlyLinks, Still, OnlyOwn, Missing, SceneOf, With, CreatesNoProvider, BindingMarksStay,
      Authentik.ObjectExists, IsApplication, SearchFor, SearchKept, NameRefused, CatalogOf, Owned, Kept, Remain, Goal.Link,
      ApplicationObject, Repaired, SlugAsAsked;
    var server := markers.marker.server;
    ghost var first := SceneOf(markers.marker, s.status, s.base);
    OwnOfKept(goal.spec.slug, goal.resolved.proxy.outpost, start.search.selection, start.scene, With(first, lost));
    OwnedHere(server, goal.spec.slug, observed);
    QuietPrefix(start.history, server.history, server.bindings);
    more := SweepBetween(markers, s, goal, start.scene, start.search.selection, lost);
    ghost var swept, history := SceneOf(markers.marker, s.status, s.base), server.history;
    KeepsBindingsChain(start.history, old(server.history), history, server.bindings);
    CreatedBefore(old(server.history), history, |start.history|);
    BindingsHere(markers.marker, s.status, s.base);
    res := ReconcileApplicationPart(markers, s, goal, observed, start.search, start.known, |start.history|);
    ghost var now := SceneOf(markers.marker, s.status, s.base);
    StillWith(goal.spec.slug, goal.resolved.proxy.outpost, swept, now, more);
    MarksChain(server.bindings, start.scene.marked, first.marked, swept.marked);
    MarksOfStep(server.bindings, start.scene.marked, swept.marked, markers.marker.Marked());
    KeptThenStill(goal.spec.slug, goal.resolved.proxy.outpost, start.search.selection, start.scene, With(swept, more),
                  With(now, more));
    OwnOfStill(goal.spec.slug, goal.resolved.proxy.outpost, swept, now);
    RemainAfter(goal.spec.slug, goal.resolved.proxy.outpost, {}, swept, now);
    RemainChain(first, swept, now);
    KeepsBindingsChain(start.history, history, server.history, server.bindings);
  }

  /** The Bindings part, after steps of the collector. */
  method BindingsAmid(markers: MarkerCache, s: Resource, goal: Goal, application: Application, ghost start: Start,
                      ghost lost: set<Object>)
    returns (res: Result<()>, ghost more: set<Object>)
    requires markers.marker.server.Valid() && markers.Exact() && goal.Valid() && AllSingle(markers.marker.server.bindings)
    requires IsApplication(markers.marker.server, goal.spec.slug, Some(application)) && s.status.bindingUuids == s.base.bindingUuids
    requires ProviderDone(goal, markers.marker.server, markers.marker.Marked(), s.status)
             && s.base.providerPk == s.status.providerPk
    requires ApplicationDone(goal, markers.marker.server, markers.marker.Marked(), s.status)
    requires Underway(goal, markers, s, start, lost)
    modifies s, markers, markers.marker, markers.clock, markers.marker.server
    ensures markers.marker.server.Valid() && markers.Exact() && AllSingle(markers.marker.server.bindings)
    ensures forall recorded :: recorded in {s.base.bindingUuids, s.status.bindingUuids} ==>
              Served(goal, markers.marker.server.applications, start.scene.bindings,
                     ManagedKeys(old(s.base).bindingUuids, start.scene.marked), markers.marker.server.bindings,
                     ManagedKeys(recorded, markers.marker.Marked()), markers.marker.server.history, |start.history|)
    ensures res.Ok? || res == Err(Stop(UnmanagedBindings)) ==>
              Done(goal, markers.marker.server, markers.marker.Marked(), s.status)
    ensures res.Ok? || res == Err(Stop(UnmanagedBindings)) ==>
              UnmanagedReported(goal.spec, markers.marker.server.applications, markers.marker.server.bindings, s.status, res.Err?)
    ensures s.status.providerPk == old(s.status).providerPk
    ensures res.Err? && res.error.Stop? ==> res.error == Stop(UnmanagedBindings)
    ensures Missing(start.scene, more)
    ensures Kept(goal.spec.slug, goal.resolved.proxy.outpost, start.search.selection, start.scene,
                 With(SceneOf(markers.marker, s.status, s.base), more))
    ensures SearchKept(goal, CatalogOf(markers.marker.server), s.base.providerPk, s.status.providerPk, start.search, start.known,
                       AcceptedCalls(markers.marker.server.history, |start.history|, CreateProviderCall),
                       NameRefused(markers.marker.server.history, |start.history|))
    ensures markers.marker.server.proxyProviders == old(markers.marker.server.proxyProviders)
            && markers.marker.server.oauth2Providers == old(markers.marker.server.oauth2Providers)
            && markers.marker.server.outposts == old(markers.marker.server.outposts)
            && markers.marker.server.applications == old(markers.marker.server.applications)
            && start.history <= markers.marker.server.history
    ensures Remain(old(SceneOf(markers.marker, s.status, s.base)), SceneOf(markers.marker, s.status, s.base))
    ensures old(BindingsDone(goal, markers.marker.server, markers.marker.Marked(), s.status)) ==>
              && OnlyMarkerCalls(old(markers.marker.server.history), markers.marker.server.history)
              && (res.Err? ==> res.error == Unavailable || res.error == Stop(UnmanagedBindings))
  {
    hide ValidBindings, ValidApplications, ValidLinks, ValidProviders, ValidOutposts, ValidRoles, MarkedBy, ProviderDone,
      ApplicationDone, BindingsDone, NoBinding, KeepMarks, KeepsBindings, AcceptedCalls, MarkerCache.Exact, OnlyMarkerWrites,
      OnlyMarkerCalls, Still, OnlyOwn, Missing, SceneOf, With, CreatesNoProvider, Authentik.ObjectExists, SearchFor, SearchKept,
      NameRefused, CatalogOf, Owned, Kept, Remain, Goal.Link, ApplicationObject, Goal.Valid, AllSingle, SafeRun, CountedFor, Served,
      ManagedKeys, ValidRules, UnmanagedReported;
    var server := markers.marker.server;
    ghost var first := SceneOf(markers.marker, s.status, s.base);
    OwnOfKept(goal.spec.slug, goal.resolved.proxy.outpost, start.search.selection, start.scene, With(first, lost));
    QuietPrefix(start.history, server.history, server.bindings);
    more := SweepBetween(markers, s, goal, start.scene, start.search.selection, lost);
    ghost var swept, history, catalog, recorded :=
      SceneOf(markers.marker, s.status, s.base), server.history, CatalogOf(server), s.base.providerPk;
    KeepsBindingsChain(start.history, old(server.history), history, server.bindings);
    CreatedBefore(old(server.history), history, |start.history|);
    BindingsHere(markers.marker, s.status, s.base);
    MarksChain(server.bindings, start.scene.marked, first.marked, swept.marked);
    res := ReconcileBindingsPart(markers, s, goal, application);
    ghost var now := SceneOf(markers.marker, s.status, s.base);
    StillWith(goal.spec.slug, goal.resolved.proxy.outpost, swept, now, more);
    KeptThenStill(goal.spec.slug, goal.resolved.proxy.outpost, start.search.selection, start.scene, With(swept, more),
                  With(now, more));
    OwnOfStill(goal.spec.slug, goal.resolved.proxy.outpost, swept, now);
    RemainAfter(goal.spec.slug, goal.resolved.proxy.outpost, {}, swept, now);
    RemainChain(first, swept, now);
    ServedFor(goal, server.applications, start.scene.bindings, old(s.base).bindingUuids, start.scene.marked, swept.marked,
              server.bindings, s.base.bindingUuids, s.status.bindingUuids, markers.marker.Marked(), start.history, history,
              server.history, application.pbmUuid, res.Ok?);
    CreatedBefore(history, server.history, |start.history|);
    SearchStays(goal, catalog, recorded, recorded, CatalogOf(server), s.base.providerPk, s.status.providerPk, start.search,
                start.known, AcceptedCalls(server.history, |start.history|, CreateProviderCall),
                NameRefused(server.history, |start.history|));
  }

  lemma ServedFor(goal: Goal, applications: map<string, Application>, first: map<Key, Binding>, recorded: seq<Key>,
                  before: set<Object>, between: set<Object>, now: map<Key, Binding>, base: seq<Key>, status: seq<Key>,
                  marked: set<Object>, a: seq<Write>, b: seq<Write>, c: seq<Write>, target: Key, finished: bool)
    requires goal.Valid() && AllSingle(first) && KeepsBindings(a, b, first) && b <= c && KeepMarks(first, before, between)
    requires goal.spec.slug in applications && applications[goal.spec.slug].pbmUuid == target
    requires SafeRun(c, |b|, first, target, goal.resolved.rules) && Before(c, |b|, first, |c|) == now
    requires CountedFor(goal.resolved.rules, target, first, ManagedKeys(recorded, between), now, base, status, marked, c, |b|,
                        finished)
    requires UnmanagedStay(goal.spec.prune, first, ManagedKeys(recorded, between), now)
    ensures forall keys :: keys in {base, status} ==>
              Served(goal, applications, first, ManagedKeys(recorded, before), now, ManagedKeys(keys, marked), c, |a|)
  {
    hide SafeRun, KeepsBindings, AllSingle, Counted, ManagedKeys, Served, KeepMarks, UnmanagedStay;
    SameUnmanaged(goal.spec.prune, first, recorded, before, between, now);
    SameCount(goal.resolved.rules, target, first, recorded, before, between, now, ManagedKeys(base, marked), c, |b|, finished);
    SameCount(goal.resolved.rules, target, first, recorded, before, between, now, ManagedKeys(status, marked), c, |b|, finished);
    BothServed(goal, applications, first, ManagedKeys(recorded, before), now, base, status, marked, a, b, c, target, finished);
  }

  // ---------- the whole reconcile ----------

  ghost function Here(goal: Goal, markers: MarkerCache, s: Resource): Start
    reads s, markers.marker.server
  {
    Start(SceneOf(markers.marker, s.status, s.base), SearchFor(goal, CatalogOf(markers.marker.server), s.base.providerPk),
          markers.marker.server.Providers(), markers.marker.server.history)
  }

  /** A run that stopped before it took a Provider. */
  lemma StoppedEarly(goal: Goal, markers: MarkerCache, s: Resource, start: Start, lost: set<Object>)
    requires KeepsBindings(start.history, markers.marker.server.history, markers.marker.server.bindings)
             && CreatesNoProvider(markers.marker.server.history, |start.history|)
    requires start.scene.bindings == markers.marker.server.bindings && Missing(start.scene, lost)
             && SamePlace(start.scene.status, start.scene.base)
    requires KeepMarks(markers.marker.server.bindings, start.scene.marked, markers.marker.Marked())
    requires Still(goal.spec.slug, goal.resolved.proxy.outpost, start.scene, With(SceneOf(markers.marker, s.status, s.base), lost))
    requires s.status.providerPk == s.base.providerPk
             && start.search == SearchFor(goal, CatalogOf(markers.marker.server), s.base.providerPk)
    ensures Underway(goal, markers, s, start, lost)
  {
    hide Still, SearchFor, CatalogOf, SceneOf, With, MarkedBy, Missing, KeepMarks, KeepsBindings, AcceptedCalls, NameRefused, Kept;
    StillIsKept(goal.spec.slug, goal.resolved.proxy.outpost, start.search.selection, start.scene,
                With(SceneOf(markers.marker, s.status, s.base), lost));
  }

  lemma DecidedRemain(a: Scene, b: Scene, error: Option<Error>, obj: Object, refusal: Option<StopReason>)
    requires Remain(a, b) && !obj.model.BindingModel? && Exists(a, obj)
    ensures AdoptionDecides(a.marked, None, obj, refusal) ==> AdoptionDecides(b.marked, error, obj, refusal)
  {}

  lemma ApplicationExistsIn(marker: Marker, status: Status, base: Status, slug: string)
    ensures slug in marker.server.applications ==>
              Exists(SceneOf(marker, status, base), ApplicationObject(marker.server.applications[slug]))
  {
    hide MarkedBy;
  }

  /** The Provider and then the Application, with steps of the collector before each. */
  method TakenAmid(markers: MarkerCache, s: Resource, secret: CredentialsSecret, goal: Goal, observed: Option<Application>,
                   ghost start: Start, ghost lost: set<Object>)
    returns (res: Result<Application>, ghost more: set<Object>)
    requires markers.marker.server.Valid() && markers.Exact() && IsApplication(markers.marker.server, goal.spec.slug, observed)
    requires observed.Some? ==> Owned(observed.value, s.status, markers.marker.Marked())
    requires s.status.providerPk == s.base.providerPk && s.status.outpostUuid == s.base.outpostUuid
             && s.status.bindingUuids == s.base.bindingUuids && SamePlace(start.scene.status, start.scene.base)
    requires Missing(start.scene, lost) && start.scene.bindings == markers.marker.server.bindings
    requires KeepMarks(markers.marker.server.bindings, start.scene.marked, markers.marker.Marked())
    requires KeepsBindings(start.history, markers.marker.server.history, markers.marker.server.bindings)
             && CreatesNoProvider(markers.marker.server.history, |start.history|)
    requires Still(goal.spec.slug, goal.resolved.proxy.outpost, start.scene, With(SceneOf(markers.marker, s.status, s.base), lost))
    requires start.search == SearchFor(goal, CatalogOf(markers.marker.server), s.base.providerPk)
             && start.known == markers.marker.server.Providers()
    modifies s, secret, markers, markers.marker, markers.clock, markers.marker.server
    ensures markers.marker.server.Valid() && markers.Exact() && Underway(goal, markers, s, start, more)
    ensures s.status.bindingUuids == s.base.bindingUuids == old(s.base).bindingUuids
    ensures res.Ok? ==>
              && IsApplication(markers.marker.server, goal.spec.slug, Some(res.value)) && s.base.providerPk == s.status.providerPk
              && ProviderDone(goal, markers.marker.server, markers.marker.Marked(), s.status)
              && ApplicationDone(goal, markers.marker.server, markers.marker.Marked(), s.status)
              && Exported(goal, markers.marker.server.oauth2Providers, s.status.providerPk, old(secret.data), secret.data)
              && Relocated(goal, old(markers.marker.server.outposts), markers.marker.server.outposts, old(s.status).outpostUuid,
                           s.status.providerPk)
    ensures old(markers.marker.server.Providers()) <= markers.marker.server.Providers()
    ensures OnlyAsAsked(goal, old(markers.marker.server.proxyProviders), old(markers.marker.server.oauth2Providers),
                        markers.marker.server.proxyProviders, markers.marker.server.oauth2Providers)
    ensures SlugAsAsked(goal.spec, old(markers.marker.server.applications), markers.marker.server.applications)
    ensures Remain(old(SceneOf(markers.marker, s.status, s.base)), SceneOf(markers.marker, s.status, s.base))
    ensures res.Err? && res.error.Stop? ==> res.error == Stop(ProviderTypeMismatch)
    ensures observed.Some? && old(ObjectsDone(goal, markers.marker.server, markers.marker.Marked(), s.status)) ==>
              && OnlyMarkerCalls(old(markers.marker.server.history), markers.marker.server.history)
              && s.status == old(s.status) && s.base == old(s.base) && (res.Err? ==> res.error == Unavailable)
  {
    hide ValidBindings, ValidApplications, ValidLinks, ValidProviders, ValidOutposts, ValidRoles, MarkedBy, ProviderDone,
      ApplicationDone, KeepMarks, KeepsBindings, AcceptedCalls, MarkerCache.Exact, OnlyMarkerCalls, Still, Missing, SceneOf, With,
      CreatesNoProvider, Authentik.ObjectExists, SearchFor, NameRefused, CatalogOf, Owned, Remain, Exists, Underway, IsApplication,
      Exported, Relocated, OnlyAsAsked, SlugAsAsked;
    ghost var first, begin := SceneOf(markers.marker, s.status, s.base), markers.marker.server.history;
    SameSlug(goal.spec, markers.marker.server.applications);
    var link;
    link, more := ProviderAmid(markers, s, secret, goal, observed, start, lost);
    if link.Err? {
      return Err(link.error), more;
    }
    ghost var between, history := SceneOf(markers.marker, s.status, s.base), markers.marker.server.history;
    res, more := ApplicationAmid(markers, s, goal, observed, start, more);
    RemainChain(first, between, SceneOf(markers.marker, s.status, s.base));
    if observed.Some? && old(ObjectsDone(goal, markers.marker.server, markers.marker.Marked(), s.status)) {
      MarkerCallsChain(begin, history, markers.marker.server.history);
    }
  }

  lemma ObservedWhenDone(goal: Goal, server: Authentik, marked: set<Object>, status: Status, observed: Option<Application>)
    requires IsApplication(server, goal.spec.slug, observed)
    ensures ApplicationDone(goal, server, marked, status) ==> observed.Some?
  {
    hide ApplicationConforms;
  }

  /** The parts up to the Application, with steps of the collector before each. */
  method ObjectsAmid(markers: MarkerCache, s: Resource, secret: CredentialsSecret, goal: Goal)
    returns (res: Result<Application>, ghost lost: set<Object>)
    requires markers.marker.server.Valid() && markers.Exact() && s.status == s.base
    modifies s, secret, markers, markers.marker, markers.clock, markers.marker.server
    ensures markers.marker.server.Valid() && markers.Exact() && Underway(goal, markers, s, old(Here(goal, markers, s)), lost)
    ensures s.status.bindingUuids == s.base.bindingUuids == old(s.base).bindingUuids
    ensures res.Ok? ==>
              && IsApplication(markers.marker.server, goal.spec.slug, Some(res.value)) && s.base.providerPk == s.status.providerPk
              && ProviderDone(goal, markers.marker.server, markers.marker.Marked(), s.status)
              && ApplicationDone(goal, markers.marker.server, markers.marker.Marked(), s.status)
              && Exported(goal, markers.marker.server.oauth2Providers, s.status.providerPk, old(secret.data), secret.data)
              && Relocated(goal, old(markers.marker.server.outposts), markers.marker.server.outposts, old(s.status).outpostUuid,
                           s.status.providerPk)
    ensures old(markers.marker.server.Providers()) <= markers.marker.server.Providers()
    ensures OnlyAsAsked(goal, old(markers.marker.server.proxyProviders), old(markers.marker.server.oauth2Providers),
                        markers.marker.server.proxyProviders, markers.marker.server.oauth2Providers)
    ensures SlugAsAsked(goal.spec, old(markers.marker.server.applications), markers.marker.server.applications)
    ensures res != Err(Stop(UnmanagedBindings))
    ensures old(Unclaimed(markers.marker, goal.spec.slug, s.base)) ==>
              AdoptionDecides(markers.marker.Marked(), if res.Err? then Some(res.error) else None,
                              old(ApplicationObject(markers.marker.server.applications[goal.spec.slug])),
                              old(RefusalFor(goal, markers.marker.server)))
    ensures old(ObjectsDone(goal, markers.marker.server, markers.marker.Marked(), s.status)) ==>
              && OnlyMarkerCalls(old(markers.marker.server.history), markers.marker.server.history)
              && s.status == old(s.status) && s.base == old(s.base) && (res.Err? ==> res.error == Unavailable)
  {
    hide ValidBindings, ValidApplications, ValidLinks, ValidProviders, ValidOutposts, ValidRoles, MarkedBy, ProviderDone,
      ApplicationDone, KeepMarks, KeepsBindings, AcceptedCalls, MarkerCache.Exact, OnlyMarkerWrites, OnlyMarkerCalls, Still,
      Missing, SceneOf, With, CreatesNoProvider, Authentik.ObjectExists, SearchFor, NameRefused, CatalogOf, Owned, Remain, Exists,
      Underway, Unclaimed, AdoptionDecides, RefusalFor, IsApplication, Exported, Relocated, OnlyAsAsked, SlugAsAsked;
    var server := markers.marker.server;
    ghost var start := Here(goal, markers, s);
    AdoptingFacts(goal, markers.marker, s.base);
    BindingsHere(markers.marker, s.status, s.base);
    ghost var obj, refusal := AdoptionCase(goal, server);
    SameSlug(goal.spec, server.applications);
    SameAsAsked(goal, server.proxyProviders, server.oauth2Providers);
    var observed;
    observed, lost := TakeOverAmid(markers, s, goal);
    ghost var between, history := SceneOf(markers.marker, s.status, s.base), server.history;
    StoppedEarly(goal, markers, s, start, lost);
    if observed.Err? {
      return Err(observed.error), lost;
    }
    ApplicationExistsIn(markers.marker, s.status, s.base, goal.spec.slug);
    ObservedWhenDone(goal, server, markers.marker.Marked(), s.status, observed.value);
    res, lost := TakenAmid(markers, s, secret, goal, observed.value, start, lost);
    if goal.spec.slug in start.scene.applications {
      DecidedRemain(between, SceneOf(markers.marker, s.status, s.base), if res.Err? then Some(res.error) else None, obj, refusal);
    }
    if old(ObjectsDone(goal, server, markers.marker.Marked(), s.status)) {
      MarkerCallsChain(old(server.history), history, server.history);
    }
  }

  /**
   What a run did to the Bindings: it served every rule safely, and counted as an attempt; without an Application it left
   the Bindings, and what is managed of them, as they were.
   */
  ghost predicate ServedAmid(goal: Goal, applications: map<string, Application>, first: map<Key, Binding>, recorded: seq<Key>,
                             marked: set<Object>, now: map<Key, Binding>, recordedNow: seq<Key>, markedNow: set<Object>,
                             history: seq<Write>, start: nat)
    requires goal.Valid()
  {
    && start <= |history|
    && if goal.spec.slug in applications then
         Served(goal, applications, first, ManagedKeys(recorded, marked), now, ManagedKeys(recordedNow, markedNow), history, start)
       else now == first && recordedNow == recorded && KeepMarks(first, marked, markedNow)
              && KeepsBindings(history[..start], history, first)
  }

  lemma QuietAmid(goal: Goal, applications: map<string, Application>, first: map<Key, Binding>, recorded: seq<Key>,
                  before: set<Object>, after: set<Object>, a: seq<Write>, b: seq<Write>)
    requires goal.Valid() && AllSingle(first) && KeepsBindings(a, b, first) && KeepMarks(first, before, after)
    ensures ServedAmid(goal, applications, first, recorded, before, first, recorded, after, b, |a|)
  {
    hide AllSingle, KeepMarks, ManagedKeys, SafeRun, Counted;
    assert b[..|a|] == a;
    if goal.spec.slug in applications {
      QuietIsServed(goal, applications, first, ManagedKeys(recorded, after), a, b);
      SameCount(goal.resolved.rules, applications[goal.spec.slug].pbmUuid, first, recorded, before, after, first,
                ManagedKeys(recorded, after), b, |a|, false);
    }
  }

  lemma ServedIsAmid(goal: Goal, applications: map<string, Application>, first: map<Key, Binding>, recorded: seq<Key>,
                     marked: set<Object>, now: map<Key, Binding>, base: seq<Key>, status: seq<Key>, markedNow: set<Object>,
                     history: seq<Write>, start: nat)
    requires goal.Valid() && goal.spec.slug in applications && start <= |history|
    requires forall keys :: keys in {base, status} ==>
               Served(goal, applications, first, ManagedKeys(recorded, marked), now, ManagedKeys(keys, markedNow), history, start)
    ensures forall keys :: keys in {base, status} ==>
              ServedAmid(goal, applications, first, recorded, marked, now, keys, markedNow, history, start)
  {
    hide Served, ManagedKeys, Goal.Valid;
  }

  lemma SettledAfter(goal: Goal, server: Authentik, applications: map<string, Application>, before: set<Object>,
                     after: set<Object>, recorded: seq<Key>, status: Status)
    requires goal.Valid() && goal.spec.slug in applications && goal.spec.slug in server.applications
    requires server.applications[goal.spec.slug].pbmUuid == applications[goal.spec.slug].pbmUuid
    requires KeepMarks(server.bindings, before, after) && status.bindingUuids == recorded
    requires Settled(goal.resolved.rules, applications[goal.spec.slug].pbmUuid, goal.spec.prune, server.bindings, recorded, before)
    ensures BindingsDone(goal, server, after, status)
  {
    hide SingleSubject, DesiredBinding, DiffBinding, ValidRules;
  }

  /** The Bindings in place at the start still are when the parts before them are done. */
  lemma StillSettled(goal: Goal, markers: MarkerCache, s: Resource, start: Start, lost: set<Object>)
    requires goal.Valid() && Underway(goal, markers, s, start, lost) && s.status.bindingUuids == start.scene.status.bindingUuids
    requires goal.spec.slug in start.scene.applications
    requires Settled(goal.resolved.rules, start.scene.applications[goal.spec.slug].pbmUuid, goal.spec.prune, start.scene.bindings,
                     start.scene.status.bindingUuids, start.scene.marked)
    ensures BindingsDone(goal, markers.marker.server, markers.marker.Marked(), s.status)
  {
    hide BindingsDone, Settled, KeepMarks, KeepsBindings, SearchKept, Missing, MarkedBy, Kept, SearchFor, CatalogOf, AcceptedCalls,
      NameRefused, Goal.Valid;
    var now := With(SceneOf(markers.marker, s.status, s.base), lost);
    TargetStays(goal.spec.slug, goal.resolved.proxy.outpost, start.search.selection, start.scene, now);
    SettledAfter(goal, markers.marker.server, start.scene.applications, start.scene.marked, markers.marker.Marked(),
                 start.scene.status.bindingUuids, s.status);
  }

  lemma ExistsLater(goal: Goal, markers: MarkerCache, s: Resource, start: Start, lost: set<Object>, obj: Object)
    requires Underway(goal, markers, s, start, lost) && Exists(start.scene, obj)
    ensures Exists(SceneOf(markers.marker, s.status, s.base), obj)
  {
    hide SearchKept, SearchFor, CatalogOf, AcceptedCalls, NameRefused, MarkedBy, RecordsKept, RecordStays, OtherTargetsStay,
      OtherMembersStay, KeepsBindings, KeepMarks;
    var now := SceneOf(markers.marker, s.status, s.base);
    if obj.model.ApplicationModel? {
      var t :| t in start.scene.applications && start.scene.applications[t].pk == obj.pk;
      assert t in now.applications && now.applications[t].pk == obj.pk;
    }
  }

  /** The steps of a reconcile, with steps of the collector before each part. */
  method StepsAmid(markers: MarkerCache, s: Resource, secret: CredentialsSecret, goal: Goal)
    returns (res: Result<()>, ghost lost: set<Object>)
    requires markers.marker.server.Valid() && markers.Exact() && goal.Valid() && AllSingle(markers.marker.server.bindings)
             && s.status == s.base
    modifies s, secret, markers, markers.marker, markers.clock, markers.marker.server
    ensures markers.marker.server.Valid() && markers.Exact() && AllSingle(markers.marker.server.bindings)
    ensures old(markers.marker.server.history) <= markers.marker.server.history
    ensures Missing(old(SceneOf(markers.marker, s.status, s.base)), lost)
    ensures forall recorded :: recorded in {s.base.bindingUuids, s.status.bindingUuids} ==>
              ServedAmid(goal, markers.marker.server.applications, old(markers.marker.server.bindings), old(s.base).bindingUuids,
                         old(markers.marker.Marked()), markers.marker.server.bindings, recorded, markers.marker.Marked(),
                         markers.marker.server.history, old(|markers.marker.server.history|))
    ensures res.Ok? || res == Err(Stop(UnmanagedBindings)) ==>
              && Done(goal, markers.marker.server, markers.marker.Marked(), s.status)
              && Exported(goal, markers.marker.server.oauth2Providers, s.status.providerPk, old(secret.data), secret.data)
              && Relocated(goal, old(markers.marker.server.outposts), markers.marker.server.outposts, old(s.status).outpostUuid,
                           s.status.providerPk)
    ensures old(markers.marker.server.Providers()) <= markers.marker.server.Providers()
    ensures OnlyAsAsked(goal, old(markers.marker.server.proxyProviders), old(markers.marker.server.oauth2Providers),
                        markers.marker.server.proxyProviders, markers.marker.server.oauth2Providers)
    ensures SlugAsAsked(goal.spec, old(markers.marker.server.applications), markers.marker.server.applications)
    ensures res.Ok? || res == Err(Stop(UnmanagedBindings)) ==>
              UnmanagedReported(goal.spec, markers.marker.server.applications, markers.marker.server.bindings, s.status, res.Err?)
    ensures SearchKept(goal, CatalogOf(markers.marker.server), s.base.providerPk, s.status.providerPk,
                       old(SearchFor(goal, CatalogOf(markers.marker.server), s.base.providerPk)),
                       old(markers.marker.server.Providers()),
                       AcceptedCalls(markers.marker.server.history, old(|markers.marker.server.history|), CreateProviderCall),
                       NameRefused(markers.marker.server.history, old(|markers.marker.server.history|)))
    ensures old(Unclaimed(markers.marker, goal.spec.slug, s.base)) ==>
              AdoptionDecides(markers.marker.Marked(), if res.Err? then Some(res.error) else None,
                              old(ApplicationObject(markers.marker.server.applications[goal.spec.slug])),
                              old(RefusalFor(goal, markers.marker.server)))
    ensures old(Done(goal, markers.marker.server, markers.marker.Marked(), s.status)) ==>
              && OnlyMarkerCalls(old(markers.marker.server.history), markers.marker.server.history)
              && (res.Err? ==> res.error == Unavailable || res.error == Stop(UnmanagedBindings))
    ensures Kept(goal.spec.slug, goal.resolved.proxy.outpost,
                 old(SearchFor(goal, CatalogOf(markers.marker.server), s.base.providerPk)).selection,
                 old(SceneOf(markers.marker, s.status, s.base)), With(SceneOf(markers.marker, s.status, s.base), lost))
  {
    hide ValidBindings, ValidApplications, ValidLinks, ValidProviders, ValidOutposts, ValidRoles, MarkedBy, ProviderDone,
      ApplicationDone, Settled, KeepMarks, KeepsBindings, AcceptedCalls, MarkerCache.Exact, OnlyMarkerCalls, Missing, SceneOf, With,
      Authentik.ObjectExists, SearchFor, SearchKept, NameRefused, CatalogOf, Remain, Exists, Unclaimed, AdoptionDecides, RefusalFor,
      Exported, Relocated, Goal.Valid, AllSingle, Served, ManagedKeys, Kept, ServedAmid, OnlyAsAsked, SlugAsAsked,
      UnmanagedReported;
    var server := markers.marker.server;
    ghost var start := Here(goal, markers, s);
    AdoptingFacts(goal, markers.marker, s.base);
    BindingsHere(markers.marker, s.status, s.base);
    ApplicationExistsIn(markers.marker, s.status, s.base, goal.spec.slug);
    ghost var obj, refusal := AdoptionCase(goal, server);
    var application;
    application, lost := ObjectsAmid(markers, s, secret, goal);
    QuietPrefix(start.history, server.history, server.bindings);
    QuietAmid(goal, server.applications, server.bindings, s.base.bindingUuids, start.scene.marked, markers.marker.Marked(),
              start.history, server.history);
    if application.Err? {
      return Err(application.error), lost;
    }
    ghost var between, history := SceneOf(markers.marker, s.status, s.base), server.history;
    if goal.spec.slug in start.scene.applications {
      ExistsLater(goal, markers, s, start, lost, obj);
    }
    if old(Done(goal, server, markers.marker.Marked(), s.status)) {
      StillSettled(goal, markers, s, start, lost);
    }
    res, lost := BindingsAmid(markers, s, goal, application.value, start, lost);
    ServedIsAmid(goal, server.applications, start.scene.bindings, old(s.base).bindingUuids, start.scene.marked, server.bindings,
                 s.base.bindingUuids, s.status.bindingUuids, markers.marker.Marked(), server.history, |start.history|);
    if goal.spec.slug in start.scene.applications {
      DecidedRemain(between, SceneOf(markers.marker, s.status, s.base), if res.Err? then Some(res.error) else None, obj, refusal);
    }
    if old(Done(goal, server, markers.marker.Marked(), s.status)) {
      MarkerCallsChain(old(server.history), history, server.history);
    }
  }

  /** The scene after the status was written, or not. */
  lemma Written(goal: Goal, taken: set<Key>, a: Scene, marker: Marker, status: Status, base: Status, later: Status,
                lost: set<Object>)
    requires Kept(goal.spec.slug, goal.resolved.proxy.outpost, taken, a, With(SceneOf(marker, status, base), lost))
    requires later == base || later.(adoptionDiff := []) == status.(adoptionDiff := [])
    ensures Kept(goal.spec.slug, goal.resolved.proxy.outpost, taken, a, With(SceneOf(marker, later, later), lost))
  {
    hide Kept, MarkedBy;
    KeptInBase(goal.spec.slug, goal.resolved.proxy.outpost, taken, a, With(SceneOf(marker, status, base), lost),
               With(SceneOf(marker, later, later), lost));
  }

  /**
   A reconcile with steps of the marker collector before each of its parts. It promises what it promises alone: every rule
   is served safely, the Provider is created at most once and taken from then on, spec.adopt alone decides about an
   unclaimed Application, what it asks for is in place on success, and nothing of another resource changes. The collector
   takes no marker but of objects that were missing from the start, and what is in place gets no request but for markers.
   */
  method ReconcileAmid(markers: MarkerCache, s: Resource, secret: CredentialsSecret, goal: Goal)
    returns (res: Result<()>, ghost lost: set<Object>)
    requires markers.marker.server.Valid() && markers.Exact() && goal.Valid() && AllSingle(markers.marker.server.bindings)
    modifies s, secret, markers, markers.marker, markers.clock, markers.marker.server
    ensures markers.marker.server.Valid() && markers.Exact() && AllSingle(markers.marker.server.bindings)
    ensures old(markers.marker.server.history) <= markers.marker.server.history
    ensures Missing(old(SceneOf(markers.marker, s.base, s.base)), lost)
    ensures ServedAmid(goal, markers.marker.server.applications, old(markers.marker.server.bindings), old(s.base).bindingUuids,
                       old(markers.marker.Marked()), markers.marker.server.bindings, s.base.bindingUuids, markers.marker.Marked(),
                       markers.marker.server.history, old(|markers.marker.server.history|))
    ensures res.Ok? ==>
              && s.base == s.status && Done(goal, markers.marker.server, markers.marker.Marked(), s.base)
              && Exported(goal, markers.marker.server.oauth2Providers, s.base.providerPk, old(secret.data), secret.data)
              && Relocated(goal, old(markers.marker.server.outposts), markers.marker.server.outposts, old(s.base).outpostUuid,
                           s.base.providerPk)
    ensures OnlyAsAsked(goal, old(markers.marker.server.proxyProviders), old(markers.marker.server.oauth2Providers),
                        markers.marker.server.proxyProviders, markers.marker.server.oauth2Providers)
    ensures SlugAsAsked(goal.spec, old(markers.marker.server.applications), markers.marker.server.applications)
    ensures res.Ok? || res == Err(Stop(UnmanagedBindings)) ==>
              UnmanagedReported(goal.spec, markers.marker.server.applications, markers.marker.server.bindings, s.status, res.Err?)
    ensures Recovers(old(SearchFor(goal, CatalogOf(markers.marker.server), s.base.providerPk)),
                     SearchFor(goal, CatalogOf(markers.marker.server), s.base.providerPk), old(markers.marker.server.Providers()),
                     AcceptedCalls(markers.marker.server.history, old(|markers.marker.server.history|), CreateProviderCall),
                     NameRefused(markers.marker.server.history, old(|markers.marker.server.history|)))
    ensures old(Unclaimed(markers.marker, goal.spec.slug, s.base)) ==>
              AdoptionDecides(markers.marker.Marked(), if res.Err? then Some(res.error) else None,
                              old(ApplicationObject(markers.marker.server.applications[goal.spec.slug])),
                              old(RefusalFor(goal, markers.marker.server)))
    ensures Kept(goal.spec.slug, goal.resolved.proxy.outpost,
                 old(SearchFor(goal, CatalogOf(markers.marker.server), s.base.providerPk)).selection,
                 old(SceneOf(markers.marker, s.base, s.base)), With(SceneOf(markers.marker, s.base, s.base), lost))
    ensures old(Done(goal, markers.marker.server, markers.marker.Marked(), s.base)) ==>
              && OnlyMarkerCalls(old(markers.marker.server.history), markers.marker.server.history)
              && (res.Err? ==> res.error == Unavailable || res.error == Stop(UnmanagedBindings))
  {
    hide ValidBindings, ValidApplications, ValidLinks, ValidProviders, ValidOutposts, ValidRoles, MarkedBy, Done, Recovers,
      AcceptedCalls, MarkerCache.Exact, OnlyMarkerCalls, Missing, SceneOf, With, SearchFor, NameRefused, CatalogOf, Unclaimed,
      RefusalFor, Exported, Relocated, Goal.Valid, AllSingle, ServedAmid, Kept, OnlyAsAsked, SlugAsAsked, UnmanagedReported;
    s.Reload();
    AdoptingFacts(goal, markers.marker, s.base);
    ghost var start := Here(goal, markers, s);
    var steps;
    steps, lost := StepsAmid(markers, s, secret, goal);
    DoneBesideDiff(goal, markers.marker.server, markers.marker.Marked(), s.status);
    ghost var status, base := s.status, s.base;
    res := Finish(s, steps);
    Written(goal, start.search.selection, start.scene, markers.marker, status, base, s.base, lost);
  }
}
