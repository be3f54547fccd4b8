/**
 What the reconcile of one resource leaves alone (internal/controller/authentikapplication_controller.go): the objects of
 other resources, the record of its own Application, and the Outpost that its Provider left.
 */
module Frames {
  import opened Base
  import opened Api
  import opened Ownership
  import opened Resources
  import opened BindingPlan
  import opened BindingSteps
  import opened Bindings
  import opened Providers
  import opened Outposts
  import opened Applications

  /** The objects on the server with their markers, and the status of the resource with what is written of it. */
  datatype Scene = Scene(
    applications: map<string, Application>, proxies: map<Key, ProxyProvider>, oauth2s: map<Key, OAuth2Provider>,
    outposts: map<Key, Outpost>, bindings: map<Key, Binding>, marked: set<Object>, status: Status, base: Status)
  {
    function Providers(): set<Key> {
      proxies.Keys + oauth2s.Keys
    }
  }

  ghost function SceneOf(marker: Marker, status: Status, base: Status): (scene: Scene)
    ensures scene.status == status && scene.base == base && scene.marked == marker.Marked()
            && scene.applications == marker.server.applications
    reads marker.server`applications, marker.server`proxyProviders, marker.server`oauth2Providers, marker.server`outposts,
          marker.server`bindings, marker.server`roles, marker.server`grants
  {
    var server := marker.server;
    Scene(server.applications, server.proxyProviders, server.oauth2Providers, server.outposts, server.bindings, marker.Marked(),
          status, base)
  }

  // ---------- the objects of other resources ----------

  /** The target is not the Application under the slug. */
  predicate Elsewhere(applications: map<string, Application>, slug: string, target: Key) {
    slug in applications ==> applications[slug].pbmUuid != target
  }

  /** Applications under other slugs are as before, and an Application under the slug keeps its pk. */
  ghost predicate OtherSlugsStay(slug: string, before: map<string, Application>, after: map<string, Application>) {
    && (forall t :: t != slug ==> (t in before <==> t in after))
    && (forall t :: t != slug && t in before && t in after ==> after[t] == before[t])
    && (slug in before ==> slug in after && after[slug].pk == before[slug].pk && after[slug].pbmUuid == before[slug].pbmUuid)
  }

  /** Bindings on other targets are as before, with their markers; no marker of anything but a Binding disappeared. */
  ghost predicate OtherTargetsStay(slug: string, applications: map<string, Application>, before: map<Key, Binding>,
                                   after: map<Key, Binding>, marked: set<Object>, markedNow: set<Object>) {
    && (forall k :: k in before && Elsewhere(applications, slug, before[k].target) ==> k in after && after[k] == before[k])
    && (forall k :: k in after && Elsewhere(applications, slug, after[k].target) ==> k in before && before[k] == after[k])
    && (forall k :: k in before && Elsewhere(applications, slug, before[k].target) ==>
          (BindingObject(k) in marked <==> BindingObject(k) in markedNow))
    && (forall o :: o in marked && !o.model.BindingModel? ==> o in markedNow)
  }

  /** The Providers that were there keep their Outposts, except for those taken, and none joined but the Outpost uuid. */
  ghost predicate OtherMembersStay(uuid: Key, taken: set<Key>, providers: set<Key>, before: map<Key, Outpost>,
                                   after: map<Key, Outpost>) {
    && after.Keys == before.Keys
    && (forall u, k :: u in before && k in providers && k !in taken ==> (k in before[u].providers <==> k in after[u].providers))
    && (forall u, k :: u in after && u != uuid && k in after[u].providers ==> k in before[u].providers)
  }

  /** Everything is as before but for the Application under the slug, its Bindings, and the Provider taken. */
  ghost predicate OnlyOwn(slug: string, uuid: Key, taken: set<Key>, a: Scene, b: Scene) {
    && OtherSlugsStay(slug, a.applications, b.applications)
    && OtherTargetsStay(slug, b.applications, a.bindings, b.bindings, a.marked, b.marked)
    && OthersStay(taken, a.proxies, a.oauth2s, b.proxies, b.oauth2s)
    && OtherMembersStay(uuid, taken, a.Providers(), a.outposts, b.outposts)
  }

  lemma NothingChanged(slug: string, uuid: Key, taken: set<Key>, a: Scene)
    ensures OnlyOwn(slug, uuid, taken, a, a)
  {}

  /** What takes the same Providers, or new ones, goes on leaving the rest alone. */
  lemma OnlyOwnChain(slug: string, uuid: Key, taken: set<Key>, more: set<Key>, a: Scene, b: Scene, c: Scene)
    requires OnlyOwn(slug, uuid, taken, a, b) && OnlyOwn(slug, uuid, more, b, c)
    requires forall k :: k in more && k in a.Providers() ==> k in taken
    ensures OnlyOwn(slug, uuid, taken, a, c)
  {
    hide OtherSlugsStay, OtherTargetsStay, OthersStay, OtherMembersStay;
    SlugsChain(slug, a.applications, b.applications, c.applications);
    BindingsChain(slug, a, b, c);
    ProvidersChain(taken, more, a, b, c);
    MembersChain(uuid, taken, more, a, b, c);
  }

  lemma SlugsChain(slug: string, a: map<string, Application>, b: map<string, Application>, c: map<string, Application>)
    requires OtherSlugsStay(slug, a, b) && OtherSlugsStay(slug, b, c)
    ensures OtherSlugsStay(slug, a, c)
  {}

  lemma ProvidersChain(taken: set<Key>, more: set<Key>, a: Scene, b: Scene, c: Scene)
    requires OthersStay(taken, a.proxies, a.oauth2s, b.proxies, b.oauth2s)
    requires OthersStay(more, b.proxies, b.oauth2s, c.proxies, c.oauth2s)
    requires forall k :: k in more && k in a.Providers() ==> k in taken
    ensures OthersStay(taken, a.proxies, a.oauth2s, c.proxies, c.oauth2s)
  {}

  lemma MembersChain(uuid: Key, taken: set<Key>, more: set<Key>, a: Scene, b: Scene, c: Scene)
    requires OtherMembersStay(uuid, taken, a.Providers(), a.outposts, b.outposts)
    requires OtherMembersStay(uuid, more, b.Providers(), b.outposts, c.outposts)
    requires OthersStay(taken, a.proxies, a.oauth2s, b.proxies, b.oauth2s)
    requires forall k :: k in more && k in a.Providers() ==> k in taken
    ensures OtherMembersStay(uuid, taken, a.Providers(), a.outposts, c.outposts)
  {
    assert forall k :: k in a.Providers() && k !in taken ==> k in b.Providers() && k !in more;
  }

  lemma BindingsChain(slug: string, a: Scene, b: Scene, c: Scene)
    requires OtherSlugsStay(slug, b.applications, c.applications)
    requires OtherTargetsStay(slug, b.applications, a.bindings, b.bindings, a.marked, b.marked)
    requires OtherTargetsStay(slug, c.applications, b.bindings, c.bindings, b.marked, c.marked)
    ensures OtherTargetsStay(slug, c.applications, a.bindings, c.bindings, a.marked, c.marked)
  {
    assert forall target :: Elsewhere(c.applications, slug, target) ==> Elsewhere(b.applications, slug, target);
  }

  /** No marker disappeared, and none of a Binding is new. */
  ghost predicate BindingMarksStay(before: set<Object>, after: set<Object>) {
    before <= after && forall o :: o in after ==> o in before || !o.model.BindingModel?
  }

  lemma MovesOnly(uuid: Key, taken: set<Key>, providers: set<Key>, before: map<Key, Outpost>, after: map<Key, Outpost>, pk: Key)
    requires OthersKept(before, after, pk) && JoinsOnly(uuid, before, after, pk) && (pk in taken || pk !in providers)
    ensures OtherMembersStay(uuid, taken, providers, before, after)
  {
    forall u, k | u in before && k != pk ensures k in before[u].providers <==> k in after[u].providers {
      assert k in Without(before[u].providers, pk) <==> k in Without(after[u].providers, pk);
    }
  }

  // ---------- the records of the resource ----------

  /** The status and what is written of it record the Application. */
  predicate BothRecorded(slug: string, a: Scene) {
    Recorded(slug, a.applications, a.status) && Recorded(slug, a.applications, a.base)
  }

  /** The status and what is written of it record the slug together with the pk. */
  predicate BothNamed(slug: string, a: Scene) {
    Named(slug, a.status) && Named(slug, a.base)
  }

  /** The Outpost recorded is the one recorded before, or the new one, and then the Provider has left the former. */
  predicate LeftFirst(uuid: Key, was: Option<Key>, scene: Scene, status: Status) {
    || status.outpostUuid == was
    || (&& status.outpostUuid == Some(uuid) && status.providerPk.Some? && status.providerPk.value in scene.proxies
        && (was.Some? && was.value != uuid && was.value in scene.outposts ==>
              status.providerPk.value !in scene.outposts[was.value].providers))
  }

  /** What was recorded of the Application stays so, under its slug, and an Outpost is left before another one is recorded. */
  predicate RecordsKept(slug: string, uuid: Key, a: Scene, b: Scene) {
    && (BothRecorded(slug, a) ==> BothRecorded(slug, b)) && (BothNamed(slug, a) ==> BothNamed(slug, b))
    && LeftFirst(uuid, a.base.outpostUuid, b, b.status) && LeftFirst(uuid, a.base.outpostUuid, b, b.base)
  }

  /** The records of Provider and Outpost are the same. */
  predicate SamePlace(a: Status, b: Status) {
    a.providerPk == b.providerPk && a.outpostUuid == b.outpostUuid
  }

  /** A recorded Provider that is the one to take stays recorded. */
  predicate RecordStays(taken: set<Key>, a: Scene, b: Scene) {
    a.base.providerPk.Some? && a.base.providerPk.value in taken ==> b.status.providerPk == a.base.providerPk == b.base.providerPk
  }

  /** No Provider moved, and what was recorded stays so. */
  predicate RecordsStay(slug: string, a: Scene, b: Scene) {
    && (BothRecorded(slug, a) ==> BothRecorded(slug, b)) && (BothNamed(slug, a) ==> BothNamed(slug, b))
    && b.proxies == a.proxies && b.outposts == a.outposts
    && SamePlace(b.status, a.status) && (SamePlace(b.base, a.base) || SamePlace(b.base, b.status))
  }

  /** The records after a step on the Bindings. */
  lemma SameRecords(slug: string, a: Scene, b: Scene)
    requires b == a.(bindings := b.bindings, marked := b.marked, status := b.status, base := b.base)
    requires BesideBindings(b.status) == BesideBindings(a.status)
    requires BesideBindings(b.base) == BesideBindings(a.base) || BesideBindings(b.base) == BesideBindings(b.status)
    ensures RecordsStay(slug, a, b)
  {}

  /** The records after a step that recorded a Provider at most. */
  lemma NotMoved(slug: string, uuid: Key, a: Scene, b: Scene)
    requires b.applications == a.applications && a.status.outpostUuid == a.base.outpostUuid
    requires b.status == a.status.(providerPk := b.status.providerPk)
    requires b.base == a.base || b.base == b.status
    ensures RecordsKept(slug, uuid, a, b)
  {}

  /** The records after a step that moved the Provider, and has not written it yet. */
  lemma MovedAndLeft(slug: string, uuid: Key, a: Scene, b: Scene, pk: Key)
    requires b.applications == a.applications && a.status.outpostUuid == a.base.outpostUuid
    requires b.status == a.status.(providerPk := Some(pk), outpostUuid := Some(uuid))
    requires b.base == a.base || b.base == a.status.(providerPk := Some(pk))
    requires pk in b.proxies && Moved(a.outposts, b.outposts, a.status.outpostUuid, uuid, pk)
    ensures RecordsKept(slug, uuid, a, b)
  {}

  // ---------- steps ----------

  /** A step that takes Providers and moves them. */
  ghost predicate Kept(slug: string, uuid: Key, taken: set<Key>, a: Scene, b: Scene) {
    OnlyOwn(slug, uuid, taken, a, b) && RecordsKept(slug, uuid, a, b) && RecordStays(taken, a, b)
  }

  /** A step on the Application, its Bindings, and markers only. */
  ghost predicate Still(slug: string, uuid: Key, a: Scene, b: Scene) {
    OnlyOwn(slug, uuid, {}, a, b) && RecordsStay(slug, a, b)
  }

  lemma StillThenKept(slug: string, uuid: Key, taken: set<Key>, a: Scene, b: Scene, c: Scene)
    requires Still(slug, uuid, a, b) && Kept(slug, uuid, taken, b, c) && SamePlace(a.status, a.base)
    ensures Kept(slug, uuid, taken, a, c)
  {
    hide OnlyOwn;
    FewerTaken(slug, uuid, taken, a, b);
    OnlyOwnChain(slug, uuid, taken, taken, a, b, c);
  }

  lemma KeptThenStill(slug: string, uuid: Key, taken: set<Key>, a: Scene, b: Scene, c: Scene)
    requires Kept(slug, uuid, taken, a, b) && Still(slug, uuid, b, c)
    ensures Kept(slug, uuid, taken, a, c)
  {
    hide OnlyOwn;
    OnlyOwnChain(slug, uuid, taken, {}, a, b, c);
  }

  lemma StillIsKept(slug: string, uuid: Key, taken: set<Key>, a: Scene, b: Scene)
    requires Still(slug, uuid, a, b) && SamePlace(a.status, a.base)
    ensures Kept(slug, uuid, taken, a, b)
  {
    hide OnlyOwn;
    FewerTaken(slug, uuid, taken, a, b);
  }

  lemma MarkerStays(slug: string, uuid: Key, a: Scene, b: Scene, obj: Object)
    requires Still(slug, uuid, a, b) && !obj.model.BindingModel?
    ensures obj in a.marked ==> obj in b.marked
  {}

  /** The Application, and with it the target of its Bindings, stays. */
  lemma TargetStays(slug: string, uuid: Key, taken: set<Key>, a: Scene, b: Scene)
    requires Kept(slug, uuid, taken, a, b)
    ensures OtherSlugsStay(slug, a.applications, b.applications)
    ensures slug in a.applications ==> slug in b.applications && b.applications[slug].pbmUuid == a.applications[slug].pbmUuid
  {}

  lemma OtherStatus(marker: Marker, status: Status, base: Status, later: Status)
    ensures SceneOf(marker, later, later) == SceneOf(marker, status, base).(status := later, base := later)
  {}

  /** What is written of the status at the end of a run is what was written before, or the status beside the adoption diff. */
  lemma KeptInBase(slug: string, uuid: Key, taken: set<Key>, a: Scene, b: Scene, c: Scene)
    requires Kept(slug, uuid, taken, a, b) && c == b.(status := c.base, base := c.base)
    requires c.base == b.base || c.base.(adoptionDiff := []) == b.status.(adoptionDiff := [])
    ensures Kept(slug, uuid, taken, a, c)
  {
    hide OtherSlugsStay, OtherTargetsStay, OthersStay, OtherMembersStay;
    assert c.base == b.base || (SamePlace(c.base, b.status) && c.base.applicationPk == b.status.applicationPk
                                && c.base.applicationSlug == b.status.applicationSlug);
  }

  lemma NothingKept(slug: string, uuid: Key, taken: set<Key>, a: Scene)
    requires SamePlace(a.status, a.base)
    ensures Kept(slug, uuid, taken, a, a)
  {
    hide OnlyOwn;
    NothingChanged(slug, uuid, taken, a);
  }

  lemma FewerTaken(slug: string, uuid: Key, taken: set<Key>, a: Scene, b: Scene)
    requires OnlyOwn(slug, uuid, {}, a, b)
    ensures OnlyOwn(slug, uuid, taken, a, b)
  {
    hide OtherSlugsStay, OtherTargetsStay;
  }

  /** A step on the Application. */
  lemma OnlyOneApplication(slug: string, uuid: Key, a: Scene, b: Scene)
    requires b == a.(applications := b.applications, marked := b.marked, status := b.status, base := b.base)
    requires OtherSlugsStay(slug, a.applications, b.applications) && BindingMarksStay(a.marked, b.marked) && RecordsStay(slug, a, b)
    ensures Still(slug, uuid, a, b)
  {}

  /** A step on the Bindings of the Application. */
  lemma OnlyItsBindings(slug: string, uuid: Key, a: Scene, b: Scene)
    requires b == a.(bindings := b.bindings, marked := b.marked, status := b.status, base := b.base) && slug in a.applications
    requires RecordsStay(slug, a, b)
    requires var target := a.applications[slug].pbmUuid;
             && OthersUntouched(a.bindings, b.bindings, target)
             && OtherMarks(Foreign(a.bindings, target), a.marked, b.marked)
    ensures Still(slug, uuid, a, b)
  {}

  /** A step on the Provider, and on its Outposts. What it recorded of the Outpost is not written yet. */
  lemma OnlyOneProvider(slug: string, uuid: Key, taken: set<Key>, a: Scene, b: Scene, pk: Key)
    requires b == a.(proxies := b.proxies, oauth2s := b.oauth2s, outposts := b.outposts, marked := b.marked, status := b.status,
                     base := b.base)
    requires BindingMarksStay(a.marked, b.marked) && OthersStay(taken, a.proxies, a.oauth2s, b.proxies, b.oauth2s)
    requires SamePlace(a.status, a.base)
    requires b.status == a.status.(providerPk := b.status.providerPk, outpostUuid := b.status.outpostUuid)
    requires a.base.providerPk.Some? && a.base.providerPk.value in taken ==> b.status.providerPk == a.base.providerPk
    requires b.base == a.base || b.base == b.status.(outpostUuid := a.status.outpostUuid)
    requires b.outposts == a.outposts
             || (OthersKept(a.outposts, b.outposts, pk) && JoinsOnly(uuid, a.outposts, b.outposts, pk)
                 && (pk in taken || pk !in a.Providers()))
    requires b.status.outpostUuid == a.status.outpostUuid
             || (b.status.outpostUuid == Some(uuid) && b.status.providerPk == Some(pk) && pk in b.proxies
                 && Moved(a.outposts, b.outposts, a.status.outpostUuid, uuid, pk))
    ensures Kept(slug, uuid, taken, a, b)
  {
    hide OthersStay, OthersKept, JoinsOnly, RecordsKept, Moved;
    if b.outposts != a.outposts {
      MovesOnly(uuid, taken, a.Providers(), a.outposts, b.outposts, pk);
    }
    if b.status.outpostUuid == a.status.outpostUuid {
      NotMoved(slug, uuid, a, b);
    } else {
      MovedAndLeft(slug, uuid, a, b, pk);
    }
  }
}
