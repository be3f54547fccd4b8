/** Several resources that are reconciled in turns, in any order, with failures and crashes anywhere. */
module Turns {
  import opened Base
  import opened Api
  import opened Patch
  import opened Matching
  import opened Server
  import opened Ownership
  import opened Resources
  import opened BindingPlan
  import opened BindingSteps
  import opened BindingRuns
  import opened Providers
  import opened Applications
  import opened Frames
  import opened Reconciler
  import opened Neighbours

  /** A resource, with what it asks for. */
  datatype Member = Member(goal: Goal, s: Resource, secret: CredentialsSecret)

  /** The resources are different ones with different slugs. */
  predicate Together(members: seq<Member>) {
    && (forall i :: 0 <= i < |members| ==> members[i].goal.Valid())
    && (forall i, j :: 0 <= i < j < |members| ==>
          members[i].s != members[j].s && members[i].goal.spec.slug != members[j].goal.spec.slug)
  }

  /** The statuses that the resources have written. */
  ghost predicate Wrote(members: seq<Member>, bases: seq<Status>)
    reads set m | m in members :: m.s
  {
    |bases| == |members| && forall i :: 0 <= i < |members| ==> members[i].s.base == bases[i]
  }

  /** Another resource, which is not settled, has recorded the same Provider. */
  ghost predicate Contested(members: seq<Member>, bases: seq<Status>, settled: set<nat>, j: nat)
    requires |bases| == |members| && j < |members|
  {
    exists k: nat :: k < |members| && k != j && k !in settled
      && Shared(members[k].goal, bases[k].providerPk, members[j].goal, bases[j])
  }

  /** The resource is in place, unless its Provider is contested; then its Application is still linked to it. */
  ghost predicate Stands(members: seq<Member>, bases: seq<Status>, settled: set<nat>, scene: Scene, j: nat)
    requires |bases| == |members| && j < |members| && members[j].goal.Valid()
  {
    || DoneIn(members[j].goal, scene, bases[j])
    || (Linked(members[j].goal, scene, bases[j]) && Contested(members, bases, settled, j))
  }

  lemma StillLinked(other: Goal, slug: string, uuid: Key, taken: set<Key>, a: Scene, b: Scene, status: Status)
    requires Linked(other, a, status) && Kept(slug, uuid, taken, a, b) && other.spec.slug != slug
    ensures Linked(other, b, status)
  {
    hide OtherTargetsStay, OtherMembersStay, RecordsKept, RecordStays;
  }

  /** Whoever shares the Provider of an Application that is linked to it does not get it in place, and keeps the record. */
  lemma SharingFails(goal: Goal, other: Goal, taken: set<Key>, a: Scene, b: Scene, status: Status, done: bool)
    requires goal.Valid() && other.spec.slug != goal.spec.slug
    requires Shared(goal, a.base.providerPk, other, status) && status.providerPk.value in taken
    requires Kept(goal.spec.slug, goal.resolved.proxy.outpost, taken, a, b) && Linked(other, b, status)
    requires done ==> DoneIn(goal, b, b.base)
    requires OneLink(b.applications)
    ensures !done && Shared(goal, b.base.providerPk, other, status)
  {
    hide DoneIn, OnlyOwn, RecordsKept, Goal.Valid;
    if done {
      DoneIsLinked(goal, b, b.base);
    }
  }

  /** What becomes of resource j in the turn of resource i. */
  lemma StandsNext(members: seq<Member>, bases: seq<Status>, settled: set<nat>, i: nat, j: nat, taken: set<Key>, a: Scene,
                   b: Scene, done: bool)
    requires Together(members) && |bases| == |members| && i < |members| && j < |members| && i != j
    requires Stands(members, bases, settled, a, j) && a.base == bases[i]
    requires Kept(members[i].goal.spec.slug, members[i].goal.resolved.proxy.outpost, taken, a, b)
    requires Linked(members[j].goal, a, bases[j]) ==>
               (bases[j].providerPk.value in taken <==> Shared(members[i].goal, bases[i].providerPk, members[j].goal, bases[j]))
    requires done ==> DoneIn(members[i].goal, b, b.base)
    requires OneLink(b.applications) && OneTarget(b.applications)
    ensures Stands(members, bases[i := b.base], if done then settled + {i} else settled - {i}, b, j)
  {
    hide DoneIn, OnlyOwn, RecordsKept, RecordStays, Shared, Goal.Valid, Linked, OneLink;
    var goal, other := members[i].goal, members[j].goal;
    if DoneIn(other, a, bases[j]) && other.spec.provider.Some? {
      DoneIsLinked(other, a, bases[j]);
    }
    if Linked(other, a, bases[j]) {
      StillLinked(other, goal.spec.slug, goal.resolved.proxy.outpost, taken, a, b, bases[j]);
    }
    if Linked(other, a, bases[j]) && Shared(goal, bases[i].providerPk, other, bases[j]) {
      SharingFails(goal, other, taken, a, b, bases[j], done);
    } else if DoneIn(other, a, bases[j]) {
      StaysIn(other, bases[j], goal.spec.slug, goal.resolved.proxy.outpost, taken, a, b);
    }
  }

  predicate OneLink(applications: map<string, Application>) {
    forall s, t ::
      (&& s in applications && t in applications && applications[s].provider.Value?
       && applications[s].provider == applications[t].provider) ==> s == t
  }

  predicate OneTarget(applications: map<string, Application>) {
    forall s, t :: s in applications && t in applications && applications[s].pbmUuid == applications[t].pbmUuid ==> s == t
  }

  lemma OneOfEach(server: Authentik)
    requires server.Valid()
    ensures OneLink(server.applications) && OneTarget(server.applications)
  {
    hide ValidBindings, ValidProviders, ValidOutposts, ValidRoles;
  }

  const NO_STATUS := Status(None, None, None, None, [], [], [])

  /** What is on the server. */
  ghost function Here(marker: Marker): Scene
    reads marker.server`applications, marker.server`proxyProviders, marker.server`oauth2Providers, marker.server`outposts,
          marker.server`bindings, marker.server`roles, marker.server`grants
  {
    SceneOf(marker, NO_STATUS, NO_STATUS)
  }

  lemma StandsHere(members: seq<Member>, bases: seq<Status>, settled: set<nat>, marker: Marker, base: Status, j: nat)
    requires |bases| == |members| && j < |members| && members[j].goal.Valid()
    ensures Stands(members, bases, settled, SceneOf(marker, base, base), j) <==> Stands(members, bases, settled, Here(marker), j)
  {
    hide Settled, ApplicationConforms, Contested, Goal.Valid, ProxyConforms, OAuth2Conforms, HandlerOf, MarkedBy;
  }

  /** All settled resources stand. */
  ghost predicate AllStand(members: seq<Member>, bases: seq<Status>, settled: set<nat>, scene: Scene)
    requires Together(members) && |bases| == |members|
  {
    forall j :: j in settled ==> j < |members| && Stands(members, bases, settled, scene, j)
  }

  lemma AllStandHere(members: seq<Member>, bases: seq<Status>, settled: set<nat>, marker: Marker, base: Status)
    requires Together(members) && |bases| == |members|
    ensures AllStand(members, bases, settled, SceneOf(marker, base, base)) <==> AllStand(members, bases, settled, Here(marker))
  {
    hide Stands, SceneOf, Here, Goal.Valid;
    forall j | j in settled && j < |members|
      ensures Stands(members, bases, settled, SceneOf(marker, base, base), j) <==> Stands(members, bases, settled, Here(marker), j)
    {
      StandsHere(members, bases, settled, marker, base, j);
    }
  }

  /** The turn of resource i takes the Provider of another one if and only if both recorded it. */
  ghost predicate TakesShared(members: seq<Member>, bases: seq<Status>, i: nat, taken: set<Key>, a: Scene)
    requires |bases| == |members| && i < |members|
  {
    forall j :: 0 <= j < |members| && j != i && Linked(members[j].goal, a, bases[j]) ==>
      (bases[j].providerPk.value in taken <==> Shared(members[i].goal, bases[i].providerPk, members[j].goal, bases[j]))
  }

  lemma TurnTakes(members: seq<Member>, bases: seq<Status>, i: nat, marker: Marker, base: Status)
    requires marker.server.Valid() && Together(members) && |bases| == |members| && i < |members| && base == bases[i]
    ensures TakesShared(members, bases, i, SearchFor(members[i].goal, CatalogOf(marker.server), base.providerPk).selection,
                        SceneOf(marker, base, base))
  {
    hide ValidBindings, ValidApplications, ValidLinks, ValidProviders, ValidOutposts, ValidRoles, MarkedBy, SearchFor, CatalogOf,
      Goal.Valid, SceneOf, Linked, Shared;
    forall j | 0 <= j < |members| && j != i && Linked(members[j].goal, SceneOf(marker, base, base), bases[j])
      ensures bases[j].providerPk.Some?
              && (bases[j].providerPk.value in SearchFor(members[i].goal, CatalogOf(marker.server), base.providerPk).selection <==>
                  Shared(members[i].goal, bases[i].providerPk, members[j].goal, bases[j]))
    {
      LinkedIsTaken(members[i].goal, members[j].goal, marker, bases[j], base, base.providerPk);
    }
  }

  lemma AllStandNext(members: seq<Member>, bases: seq<Status>, settled: set<nat>, i: nat, taken: set<Key>, a: Scene, b: Scene,
                     done: bool)
    requires Together(members) && |bases| == |members| && i < |members|
    requires AllStand(members, bases, settled, a) && a.base == bases[i] && TakesShared(members, bases, i, taken, a)
    requires Kept(members[i].goal.spec.slug, members[i].goal.resolved.proxy.outpost, taken, a, b)
    requires done ==> DoneIn(members[i].goal, b, b.base)
    requires OneLink(b.applications) && OneTarget(b.applications)
    ensures AllStand(members, bases[i := b.base], if done then settled + {i} else settled - {i}, b)
  {
    hide Stands, Kept, DoneIn, Goal.Valid, OneLink, OneTarget, Shared, Linked;
    var now, later := if done then settled + {i} else settled - {i}, bases[i := b.base];
    forall j | j in now ensures j < |members| && Stands(members, later, now, b, j) {
      if j == i {
        JustDone(members, later, now, b, j);
      } else {
        StandsNext(members, bases, settled, i, j, taken, a, b, done);
      }
    }
  }

  lemma JustDone(members: seq<Member>, bases: seq<Status>, settled: set<nat>, scene: Scene, j: nat)
    requires |bases| == |members| && j < |members| && members[j].goal.Valid() && DoneIn(members[j].goal, scene, bases[j])
    ensures Stands(members, bases, settled, scene, j)
  {}

  /** One resource has its turn, and the operator may crash in it. */
  method TakeTurn(markers: MarkerCache, members: seq<Member>, i: nat, ghost bases: seq<Status>, ghost settled: set<nat>)
    returns (res: Result<()>)
    requires markers.marker.server.Valid() && markers.Exact() && AllSingle(markers.marker.server.bindings)
    requires Together(members) && i < |members| && Wrote(members, bases)
    requires AllStand(members, bases, settled, Here(markers.marker))
    modifies members[i].s, members[i].secret, markers, markers.marker, markers.clock, markers.marker.server
    ensures markers.marker.server.Valid() && markers.Exact() && AllSingle(markers.marker.server.bindings)
    ensures Wrote(members, bases[i := members[i].s.base])
    ensures AllStand(members, bases[i := members[i].s.base], if res.Ok? then settled + {i} else settled - {i}, Here(markers.marker))
  {
    hide ValidBindings, ValidApplications, ValidLinks, ValidProviders, ValidOutposts, ValidRoles, MarkedBy, Done, SearchFor,
      CatalogOf, NameRefused, AcceptedCalls, AllSingle, NotAdopted, Served, ValidRules, Recovers, Stuck, ManagedKeys, Kept,
      Exported, AdoptionDecides, RefusalFor, Unclaimed, Relocated, OnlyMarkerWrites, Goal.Valid, MarkerCache.Exact, AllStand,
      SceneOf, Here, OneLink, OneTarget, TakesShared, DoneIn;
    var goal, s := members[i].goal, members[i].s;
    ghost var a, taken := SceneOf(markers.marker, s.base, s.base),
              SearchFor(goal, CatalogOf(markers.marker.server), s.base.providerPk).selection;
    TurnTakes(members, bases, i, markers.marker, s.base);
    AllStandHere(members, bases, settled, markers.marker, s.base);
    res := Reconcile(markers, s, members[i].secret, goal, true);
    if * {
      Crash(markers, s);
    }
    OneOfEach(markers.marker.server);
    DoneInScene(goal, markers.marker, s.base, s.base, s.base);
    AllStandNext(members, bases, settled, i, taken, a, SceneOf(markers.marker, s.base, s.base), res.Ok?);
    AllStandHere(members, bases[i := s.base], if res.Ok? then settled + {i} else settled - {i}, markers.marker, s.base);
  }

  /** The resources whose last turn went through. */
  function Went(turns: seq<nat>, results: seq<Result<()>>): set<nat>
    requires |turns| == |results|
  {
    if turns == [] then {}
    else
      var last := |turns| - 1;
      var before := Went(turns[..last], results[..last]);
      if results[last].Ok? then before + {turns[last]} else before - {turns[last]}
  }

  /**
   Resources are reconciled in turns, in any order and any number of times, with failures and crashes anywhere. Every
   resource whose last turn went through is in place at the end, unless one whose last turn did not go through has recorded
   the same Provider. So once the last turn of every resource went through, everything they ask for is in place together.
   */
  method ReconcileInTurns(markers: MarkerCache, members: seq<Member>, turns: seq<nat>) returns (results: seq<Result<()>>)
    requires markers.marker.server.Valid() && markers.Exact() && AllSingle(markers.marker.server.bindings)
    requires Together(members) && forall t :: t in turns ==> t < |members|
    modifies (set m | m in members :: m.s), (set m | m in members :: m.secret), markers, markers.marker, markers.clock,
             markers.marker.server
    ensures |results| == |turns| && markers.marker.server.Valid() && AllSingle(markers.marker.server.bindings)
    ensures forall j :: j in Went(turns, results) ==>
              && j < |members|
              && (|| Done(members[j].goal, markers.marker.server, markers.marker.Marked(), members[j].s.base)
                  || exists k :: 0 <= k < |members| && k != j && k !in Went(turns, results)
                       && Shared(members[k].goal, members[k].s.base.providerPk, members[j].goal, members[j].s.base))
    ensures (forall i :: 0 <= i < |members| ==> i in Went(turns, results)) ==>
              forall j :: 0 <= j < |members| ==>
                Done(members[j].goal, markers.marker.server, markers.marker.Marked(), members[j].s.base)
  {
    hide ValidBindings, ValidApplications, ValidLinks, ValidProviders, ValidOutposts, ValidRoles, MarkedBy, Done, AllSingle,
      Goal.Valid, MarkerCache.Exact, AllStand, Here, Shared;
    ghost var bases := seq(|members|, i requires 0 <= i < |members| reads set m | m in members :: m.s => members[i].s.base);
    results := [];
    NoneStand(members, bases, Here(markers.marker));
    for n := 0 to |turns|
      invariant markers.marker.server.Valid() && markers.Exact() && AllSingle(markers.marker.server.bindings)
      invariant |results| == n && Wrote(members, bases)
      invariant AllStand(members, bases, Went(turns[..n], results), Here(markers.marker))
    {
      assert turns[n] in turns;
      ghost var settled := Went(turns[..n], results);
      var run := TakeTurn(markers, members, turns[n], bases, settled);
      bases := bases[turns[n] := members[turns[n]].s.base];
      results := results + [run];
      assert turns[..n + 1][..n] == turns[..n];
      assert results == results[..n] + [run];
    }
    assert turns[..|turns|] == turns;
    StandInPlace(members, bases, Went(turns, results), markers.marker);
  }

  lemma StandInPlace(members: seq<Member>, bases: seq<Status>, settled: set<nat>, marker: Marker)
    requires Together(members) && Wrote(members, bases) && AllStand(members, bases, settled, Here(marker))
    ensures forall j :: j in settled ==>
              && j < |members|
              && (|| Done(members[j].goal, marker.server, marker.Marked(), members[j].s.base)
                  || exists k :: 0 <= k < |members| && k != j && k !in settled
                       && Shared(members[k].goal, members[k].s.base.providerPk, members[j].goal, members[j].s.base))
  {
    hide Done, DoneIn, SceneOf, Goal.Valid, Shared, Linked, MarkedBy;
    forall j | j in settled
      ensures j < |members| && (Done(members[j].goal, marker.server, marker.Marked(), members[j].s.base)
                                || Contested(members, bases, settled, j))
    {
      assert Stands(members, bases, settled, Here(marker), j);
      DoneInScene(members[j].goal, marker, bases[j], NO_STATUS, NO_STATUS);
    }
  }

  lemma NoneStand(members: seq<Member>, bases: seq<Status>, scene: Scene)
    requires Together(members) && |bases| == |members|
    ensures AllStand(members, bases, {}, scene)
  {}
}
