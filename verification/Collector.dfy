/** The marker collector (internal/controller/gc.go), running while reconciles and users change the server between its steps. */
module Collector {
  import opened Base
  import opened Api
  import opened Server
  import opened Ownership

  /**
   What happens to the marker set, from before to after: the others attach and detach only what they may, and what
   disappeared was detached by them or is lost. Detached is what they detached and have not attached again; none of it is
   marked.
   */
  ghost predicate Turn(attaching: set<Object>, detaching: set<Object>, before: set<Object>, after: set<Object>,
                       was: set<Object>, detached: set<Object>, lost: set<Object>) {
    && after <= before + attaching && before - after <= detached + lost
    && detached <= was + detaching && was - detached <= attaching * (after + lost)
    && detached !! after
  }

  lemma NoTurn(attaching: set<Object>, detaching: set<Object>, marked: set<Object>, detached: set<Object>)
    requires detached !! marked
    ensures Turn(attaching, detaching, marked, marked, detached, detached, {})
  {}

  /** The others detached what is no longer marked. */
  lemma OthersTurn(attaching: set<Object>, detaching: set<Object>, before: set<Object>, after: set<Object>, was: set<Object>)
    requires after <= before + attaching && before - after <= detaching && was !! before
    ensures Turn(attaching, detaching, before, after, was, was + (before - after) - after, {})
  {}

  lemma OthersChain(attaching: set<Object>, detaching: set<Object>, a: set<Object>, b: set<Object>, c: set<Object>,
                    x: set<Object>, y: set<Object>, z: set<Object>)
    requires Turn(attaching, detaching, a, b, x, y, {}) && Turn(attaching, detaching, b, c, y, z, {})
    ensures Turn(attaching, detaching, a, c, x, z, {})
  {
    TurnsChain(attaching, detaching, a, b, c, x, y, z, {}, {});
  }

  lemma TurnsChain(attaching: set<Object>, detaching: set<Object>, a: set<Object>, b: set<Object>, c: set<Object>,
                   x: set<Object>, y: set<Object>, z: set<Object>, lost: set<Object>, more: set<Object>)
    requires Turn(attaching, detaching, a, b, x, y, lost) && Turn(attaching, detaching, b, c, y, z, more)
    ensures Turn(attaching, detaching, a, c, x, z, lost + more)
  {
    forall o | o in a - c ensures o in z + (lost + more) {
      assert o in b - c || o in a - b;
      assert o in y - z ==> o in attaching * (c + more);
    }
    forall o | o in x - z ensures o in attaching * (c + (lost + more)) {
      assert o in y - z || o in x - y;
      assert o in b - c ==> o in z + more;
    }
  }

  /** The markers that a collection leaves alone. */
  ghost function LiveMarkers(server: Authentik, marked: set<Object>): set<Object>
    reads server`applications, server`proxyProviders, server`oauth2Providers, server`bindings
  {
    set o | o in marked && server.ObjectExists(o)
  }

  /** No object that is gone comes back, is marked, or drops out of the cached list while it is marked. */
  twostate predicate OrphansStay(cache: MarkerCache)
    reads cache, cache.marker, cache.marker.server
  {
    forall o :: old(cache.marker.server.Gone(o)) ==>
      && cache.marker.server.Gone(o)
      && (o in cache.marker.Marked() ==> o in old(cache.marker.Marked()))
      && (o in cache.Unlisted() ==> o in old(cache.Unlisted()))
  }

  /**
   Whatever else runs: reconciles of this replica and others attaching, detaching, and looking up markers, at most budget
   times, each a locked cache operation or a request of another replica; and the traffic, which takes no lock.
   */
  class Interference {
    const cache: MarkerCache
    const traffic: Traffic
    const attaching: set<Object>  // whose markers they may attach
    const detaching: set<Object>  // whose markers they may detach
    var budget: nat
    ghost var detached: set<Object>  // whose markers they detached and have not attached again

    constructor (cache: MarkerCache, traffic: Traffic, attaching: set<Object>, detaching: set<Object>, budget: nat)
      ensures this.cache == cache && this.traffic == traffic && this.budget == budget
      ensures this.attaching == attaching && this.detaching == detaching && detached == {}
    {
      this.cache, this.traffic, this.budget := cache, traffic, budget;
      this.attaching, this.detaching, this.detached := attaching, detaching, {};
    }

    ghost predicate Fits(cache: MarkerCache)
      reads this`detached, this.cache.marker.server`roles, this.cache.marker.server`grants
    {
      this.cache == cache && traffic.server == cache.marker.server && detached !! this.cache.marker.Marked()
    }

    /** Nothing else runs. */
    ghost predicate Quiet()
      reads this, traffic
    {
      budget == 0 && traffic.budget == 0
    }

    method Act()
      requires cache.marker.server.Valid() && cache.Sound() && Fits(cache)
      modifies this, traffic, cache, cache.marker, cache.clock, cache.marker.server
      ensures cache.marker.server.Valid() && cache.Sound() && Fits(cache)
      ensures old(cache.objects).Some? ==> cache.objects.Some?
      ensures Turn(attaching, detaching, old(cache.marker.Marked()), cache.marker.Marked(), old(detached), detached, {})
      ensures OrphansStay(cache)
      ensures old(Quiet()) ==>
                Quiet() && detached == old(detached) && unchanged(cache) && unchanged(cache.marker)
                  && unchanged(cache.marker.server)
    {
      hide ValidBindings, ValidApplications, ValidLinks, ValidProviders, ValidOutposts, ValidRoles, MarkedBy, Authentik.Gone,
        MarkerCache.Unlisted, Turn;
      NoTurn(attaching, detaching, cache.marker.Marked(), detached);
      while budget > 0
        invariant cache.marker.server.Valid() && cache.Sound() && Fits(cache)
        invariant old(cache.objects).Some? ==> cache.objects.Some?
        invariant Turn(attaching, detaching, old(cache.marker.Marked()), cache.marker.Marked(), old(detached), detached, {})
        invariant OrphansStay(cache)
        invariant old(Quiet()) ==>
                    Quiet() && detached == old(detached) && unchanged(cache) && unchanged(cache.marker)
                    && unchanged(cache.marker.server)
        decreases budget
      {
        ghost var marked, was := cache.marker.Marked(), detached;
        Step();
        OthersChain(attaching, detaching, old(cache.marker.Marked()), marked, cache.marker.Marked(), old(detached), was, detached);
        budget := budget - 1;
        if * { break; }
      }
    }

    method Step()
      requires cache.marker.server.Valid() && cache.Sound() && Fits(cache)
      modifies this`detached, traffic, cache, cache.marker, cache.clock, cache.marker.server
      ensures cache.marker.server.Valid() && cache.Sound() && Fits(cache)
      ensures old(cache.objects).Some? ==> cache.objects.Some?
      ensures Turn(attaching, detaching, old(cache.marker.Marked()), cache.marker.Marked(), old(detached), detached, {})
      ensures OrphansStay(cache)
    {
      hide ValidBindings, ValidApplications, ValidLinks, ValidProviders, ValidOutposts, ValidRoles, MarkedBy,
        Authentik.ObjectExists, MarkerCache.Exact, Turn, Authentik.Gone;
      ghost var marked := cache.marker.Marked();
      var obj: Object := *;
      if * {
        traffic.Act();
      } else if * {
        LookUp(obj);
      } else if obj in attaching {
        Attach(obj);
      } else if obj in detaching {
        Detach(obj);
      }
      OthersTurn(attaching, detaching, marked, cache.marker.Marked(), detached);
      detached := detached + (marked - cache.marker.Marked()) - cache.marker.Marked();
    }

    method Detach(obj: Object)
      requires cache.marker.server.Valid() && cache.Sound()
      modifies cache, cache.marker, cache.marker.server`roles, cache.marker.server`sequence, cache.marker.server`grants,
               cache.marker.server`history
      ensures cache.marker.server.Valid() && cache.Sound() && (old(cache.objects).Some? ==> cache.objects.Some?)
      ensures old(cache.marker.Marked()) - {obj} <= cache.marker.Marked() <= old(cache.marker.Marked()) && OrphansStay(cache)
    {
      hide ValidBindings, ValidApplications, ValidLinks, ValidProviders, ValidOutposts, ValidRoles, MarkedBy,
        Authentik.ObjectExists, MarkerCache.Exact;
      var _ := cache.Remove(obj);
    }

    method LookUp(obj: Object)
      requires cache.marker.server.Valid() && cache.Sound()
      modifies cache, cache.marker, cache.clock, cache.marker.server`roles, cache.marker.server`sequence,
               cache.marker.server`history
      ensures cache.marker.server.Valid() && cache.Sound() && (old(cache.objects).Some? ==> cache.objects.Some?)
      ensures cache.marker.Marked() == old(cache.marker.Marked()) && OrphansStay(cache)
    {
      hide ValidBindings, ValidApplications, ValidLinks, ValidProviders, ValidOutposts, ValidRoles, MarkedBy,
        Authentik.ObjectExists, MarkerCache.Exact;
      if * {
        var _ := cache.Contains(obj);
      } else {
        var _ := cache.IsManaged(obj);
      }
    }

    method Attach(obj: Object)
      requires cache.marker.server.Valid() && cache.Sound()
      modifies cache, cache.marker, cache.clock, cache.marker.server`roles, cache.marker.server`sequence,
               cache.marker.server`grants, cache.marker.server`history
      ensures cache.marker.server.Valid() && cache.Sound() && (old(cache.objects).Some? ==> cache.objects.Some?)
      ensures old(cache.marker.Marked()) <= cache.marker.Marked() <= old(cache.marker.Marked()) + {obj} && OrphansStay(cache)
    {
      hide ValidBindings, ValidApplications, ValidLinks, ValidProviders, ValidOutposts, ValidRoles, MarkedBy,
        Authentik.ObjectExists, MarkerCache.Exact;
      if * {
        var _ := cache.Ensure(obj);
      } else {
        cache.marker.OtherReplicaMarks(obj);
      }
    }
  }

  /** Lets the others run, and then looks at one object of the list. */
  method CollectStep(cache: MarkerCache, others: Interference, obj: Object) returns (res: Result<bool>)
    requires cache.marker.server.Valid() && cache.Sound() && cache.objects.Some? && others.Fits(cache)
    modifies cache, cache.marker, cache.clock, cache.marker.server, others, others.traffic
    ensures cache.marker.server.Valid() && cache.Sound() && cache.objects.Some? && others.Fits(cache)
    ensures res.Err? ==> res.error == Unavailable
    ensures Turn(others.attaching, others.detaching, old(cache.marker.Marked()), cache.marker.Marked(), old(others.detached),
                 others.detached, if res == Ok(true) then {obj} else {})
    ensures res == Ok(true) ==> cache.marker.server.Gone(obj) && obj !in cache.marker.Marked()
    ensures OrphansStay(cache)
    ensures res.Ok? && old(cache.marker.server.Gone(obj)) && obj !in old(cache.Unlisted()) ==> obj !in cache.marker.Marked()
    ensures old(others.Quiet()) ==>
              && others.Quiet() && others.detached == old(others.detached) && cache.marker.server.SameObjects()
              && cache.marker.Marked() <= old(cache.marker.Marked()) && (old(cache.Exact()) ==> cache.Exact())
  {
    hide ValidBindings, ValidApplications, ValidLinks, ValidProviders, ValidOutposts, ValidRoles, MarkedBy;
    others.Act();
    assert old(cache.marker.server.Gone(obj)) ==> cache.marker.server.Gone(obj);
    res := cache.RemoveIfOrphaned(obj, others.traffic);
    assert res.Ok? ==> if res.value then res == Ok(true) else res == Ok(false);
    assert old(cache.marker.server.Gone(obj)) ==> cache.marker.server.Gone(obj);
  }

  /**
   What a collection did so far, from the marker set marked: it took the markers of collected, whose objects are gone, and
   none else, whatever the others did meanwhile; and of the orphans that it started from only those in rest are marked.
   */
  ghost predicate Collected(cache: MarkerCache, others: Interference, marked: set<Object>, orphans: set<Object>,
                            was: set<Object>, collected: set<Object>, rest: set<Object>)
    reads cache, cache.marker, cache.marker.server, others`detached
  {
    var server := cache.marker.server;
    && Turn(others.attaching, others.detaching, marked, cache.marker.Marked(), was, others.detached, collected)
    && collected <= marked && rest <= marked - collected
    && (forall o :: o in collected ==> server.Gone(o) && o !in cache.marker.Marked())
    && (forall o :: o in orphans ==>
          server.Gone(o) && o !in cache.Unlisted() && (o in cache.marker.Marked() ==> o in rest))
  }

  lemma CollectedStarts(cache: MarkerCache, others: Interference, marked: set<Object>, orphans: set<Object>)
    requires cache.marker.server.Valid() && cache.Exact() && cache.objects.Some? && others.Fits(cache)
    requires marked == cache.marker.Marked() && orphans == marked - LiveMarkers(cache.marker.server, marked)
    ensures Collected(cache, others, marked, orphans, others.detached, {}, cache.objects.value)
    ensures cache.objects.value == marked
  {
    hide ValidBindings, ValidApplications, ValidLinks, ValidProviders, ValidOutposts, MarkedBy, Authentik.ObjectExists;
    NoTurn(others.attaching, others.detaching, marked, others.detached);
    MarkedWereIssued(cache.marker.server.roles, cache.marker.server.grants, cache.marker.server.sequence, cache.marker.roleName);
  }

  /** One more object of the list. */
  method CollectNext(cache: MarkerCache, others: Interference, obj: Object, ghost marked: set<Object>,
                     ghost orphans: set<Object>, ghost was: set<Object>, ghost collected: set<Object>, ghost rest: set<Object>)
    returns (res: Result<bool>, ghost more: set<Object>)
    requires cache.marker.server.Valid() && cache.Sound() && cache.objects.Some? && others.Fits(cache)
    requires Collected(cache, others, marked, orphans, was, collected, rest) && obj in rest
    modifies cache, cache.marker, cache.clock, cache.marker.server, others, others.traffic
    ensures cache.marker.server.Valid() && cache.Sound() && cache.objects.Some? && others.Fits(cache)
    ensures res.Err? ==> res.error == Unavailable
    ensures Collected(cache, others, marked, orphans, was, more, if res.Ok? then rest - {obj} else rest)
    ensures collected <= more && |more| == |collected| + if res == Ok(true) then 1 else 0
    ensures cache.marker.server.GoneStay()
    ensures old(others.Quiet()) ==>
              && others.Quiet() && others.detached == old(others.detached) && cache.marker.server.SameObjects()
              && cache.marker.Marked() <= old(cache.marker.Marked()) && (old(cache.Exact()) ==> cache.Exact())
  {
    hide ValidBindings, ValidApplications, ValidLinks, ValidProviders, ValidOutposts, ValidRoles, MarkedBy, Turn,
      Authentik.ObjectExists, Authentik.Gone, MarkerCache.Unlisted, MarkerCache.Exact;
    ghost var before, detached := cache.marker.Marked(), others.detached;
    res := CollectStep(cache, others, obj);
    ghost var lost: set<Object> := if res == Ok(true) then {obj} else {};
    TurnsChain(others.attaching, others.detaching, marked, before, cache.marker.Marked(), was, detached, others.detached,
               collected, lost);
    more := collected + lost;
  }

  /** The loop over the list. */
  method CollectListed(cache: MarkerCache, others: Interference, ghost orphans: set<Object>)
    returns (res: Result<nat>, removed: nat, ghost collected: set<Object>, ghost rest: set<Object>)
    requires cache.marker.server.Valid() && cache.Exact() && cache.Sound() && cache.objects.Some? && others.Fits(cache)
    requires orphans == cache.marker.Marked() - LiveMarkers(cache.marker.server, cache.marker.Marked())
    modifies cache, cache.marker, cache.clock, cache.marker.server, others, others.traffic
    ensures cache.marker.server.Valid() && cache.Sound() && others.Fits(cache)
    ensures if res.Ok? then res.value == removed && rest == {} else res.error == Unavailable
    ensures Collected(cache, others, old(cache.marker.Marked()), orphans, old(others.detached), collected, rest)
    ensures removed == |collected| && cache.marker.server.GoneStay()
    ensures old(others.Quiet()) ==>
              && others.detached == old(others.detached) && cache.marker.server.SameObjects()
              && cache.marker.Marked() <= old(cache.marker.Marked()) && cache.Exact()
  {
    hide ValidBindings, ValidApplications, ValidLinks, ValidProviders, ValidOutposts, ValidRoles, MarkedBy, Collected, LiveMarkers,
      Authentik.ObjectExists, Authentik.Gone, MarkerCache.Exact, MarkerCache.Sound, Interference.Fits;
    CollectedStarts(cache, others, cache.marker.Marked(), orphans);
    removed, collected := 0, {};
    var left := cache.objects.value;
    while left != {}
      invariant cache.marker.server.Valid() && cache.Sound() && cache.objects.Some? && others.Fits(cache)
      invariant Collected(cache, others, old(cache.marker.Marked()), orphans, old(others.detached), collected, left)
      invariant removed == |collected| && cache.marker.server.GoneStay()
      invariant old(others.Quiet()) ==>
                  && others.Quiet() && others.detached == old(others.detached) && cache.marker.server.SameObjects()
                  && cache.marker.Marked() <= old(cache.marker.Marked()) && cache.Exact()
      decreases left
    {
      var obj :| obj in left;
      var orphaned;
      orphaned, collected :=
        CollectNext(cache, others, obj, old(cache.marker.Marked()), orphans, old(others.detached), collected, left);
      if orphaned.Err? {
        return Err(orphaned.error), removed, collected, left;
      }
      if orphaned.value {
        removed := removed + 1;
      }
      left := left - {obj};
    }
    return Ok(removed), removed, collected, {};
  }

  lemma EmptyIsExact(cache: MarkerCache)
    requires cache.marker.RoleKnown() && cache.objects.None?
    ensures cache.Exact() && cache.Sound()
  {}

  lemma ExactIsSound(cache: MarkerCache)
    ensures cache.Exact() ==> cache.Sound()
  {}

  /** Undisturbed, what was collected is all that disappeared, and at the end of the list no orphan is left. */
  lemma CollectedAll(cache: MarkerCache, others: Interference, marked: set<Object>, orphans: set<Object>, live: set<Object>,
                     was: set<Object>, collected: set<Object>, rest: set<Object>)
    requires Collected(cache, others, marked, orphans, was, collected, rest) && cache.marker.Marked() <= marked
    requires others.detached == was && was !! marked
    requires live == LiveMarkers(cache.marker.server, marked) && orphans == marked - live
    ensures live <= cache.marker.Marked() && |collected| == |marked| - |cache.marker.Marked()|
    ensures rest == {} ==> cache.marker.Marked() == live
  {
    hide Authentik.ObjectExists;
    assert marked - collected == cache.marker.Marked();
  }

  /**
   Reads the marker list again and removes the markers of objects that are gone, one locked step at a time, in any order,
   while the others do what they may do. The markers that it takes are those of collected, whose objects are gone for
   good; any other marker that disappears was detached by the others, none that they detached is back unless they attached
   it again themselves, and new markers are theirs. When it goes through, no object that was missing at the start is marked,
   and the result counts what it took. Undisturbed, it leaves exactly the markers of existing objects, and in any case
   every one of them.
   */
  method Collect(cache: MarkerCache, others: Interference)
    returns (res: Result<nat>, removed: nat, ghost collected: set<Object>)
    requires cache.marker.server.Valid() && cache.marker.RoleKnown() && others.Fits(cache)
    modifies cache, cache.marker, cache.clock, cache.marker.server, others, others.traffic
    ensures cache.marker.server.Valid() && cache.Sound()
    ensures if res.Ok? then res.value == removed else res.error == Unavailable
    ensures Turn(others.attaching, others.detaching, old(cache.marker.Marked()), cache.marker.Marked(), old(others.detached),
                 others.detached, collected)
    ensures removed == |collected| && collected <= old(cache.marker.Marked())
    ensures forall o :: o in collected ==> cache.marker.server.Gone(o) && o !in cache.marker.Marked()
    ensures res.Ok? ==>
              forall o :: o in old(cache.marker.Marked()) && old(!cache.marker.server.ObjectExists(o)) ==>
                     o !in cache.marker.Marked()
    ensures old(others.Quiet()) ==>
              && cache.Exact() && cache.marker.server.SameObjects()
              && old(LiveMarkers(cache.marker.server, cache.marker.Marked())) <= cache.marker.Marked()
                <= old(cache.marker.Marked())
              && (res.Ok? ==> cache.marker.Marked() == old(LiveMarkers(cache.marker.server, cache.marker.Marked())))
              && removed == |old(cache.marker.Marked())| - |cache.marker.Marked()|
  {
    hide ValidBindings, ValidApplications, ValidLinks, ValidProviders, ValidOutposts, ValidRoles, MarkedBy, Authentik.ObjectExists,
      Authentik.Gone, MarkerCache.Exact, MarkerCache.Sound, MarkerCache.Unlisted, Turn;
    ghost var marked := cache.marker.Marked();
    ghost var live := LiveMarkers(cache.marker.server, marked);
    cache.objects := None;
    EmptyIsExact(cache);
    var refreshed := cache.RefreshLocked();
    if refreshed.Err? {
      NoTurn(others.attaching, others.detaching, marked, others.detached);
      return Err(refreshed.error), 0, {};
    }
    ExactIsSound(cache);
    ghost var rest;
    res, removed, collected, rest := CollectListed(cache, others, marked - live);
    if old(others.Quiet()) {
      CollectedAll(cache, others, marked, marked - live, live, old(others.detached), collected, rest);
    }
  }

  /** Steps of the collector, on any objects, while nobody else acts: they take only markers of missing objects. */
  method Sweep(cache: MarkerCache, steps: nat) returns (ghost lost: set<Object>)
    requires cache.marker.server.Valid() && cache.Exact()
    modifies cache, cache.marker, cache.marker.server
    ensures cache.marker.server.Valid() && cache.Exact()
    ensures lost == old(cache.marker.Marked()) - cache.marker.Marked() && cache.marker.Marked() <= old(cache.marker.Marked())
    ensures forall o :: o in lost ==> !cache.marker.server.ObjectExists(o)
    ensures cache.marker.server.SameObjects()
    ensures OnlyMarkerWrites(old(cache.marker.server.history), cache.marker.server.history, cache.marker.server.bindings,
                             cache.marker.server.outposts)
  {
    hide ValidBindings, ValidApplications, ValidLinks, ValidProviders, ValidOutposts, ValidRoles, MarkedBy, Authentik.ObjectExists,
      MarkerCache.Exact, MarkerCache.Unlisted;
    var nobody := new Traffic(cache.marker.server, 0);
    lost := {};
    for step := 0 to steps
      invariant cache.marker.server.Valid() && cache.Exact() && nobody.budget == 0 && cache.marker.server.SameObjects()
      invariant lost == old(cache.marker.Marked()) - cache.marker.Marked() && cache.marker.Marked() <= old(cache.marker.Marked())
      invariant forall o :: o in lost ==> !cache.marker.server.ObjectExists(o)
      invariant OnlyMarkerWrites(old(cache.marker.server.history), cache.marker.server.history, cache.marker.server.bindings,
                                 cache.marker.server.outposts)
    {
      var obj: Object := *;
      ExactIsSound(cache);
      var orphaned := cache.RemoveIfOrphaned(obj, nobody);
      lost := old(cache.marker.Marked()) - cache.marker.Marked();
    }
  }
}
