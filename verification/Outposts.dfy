/**
 Outpost membership of a Proxy Provider (internal/controller/outpost.go): join the new Outpost first, leave the recorded one
 afterwards.
 */
module Outposts {
  import opened Base
  import opened Api
  import opened Server
  import opened Resources

  /** Every Outpost has its other Providers, in their order. */
  ghost predicate OthersKept(before: map<Key, Outpost>, after: map<Key, Outpost>, pk: Key) {
    && after.Keys == before.Keys
    && forall k :: k in before ==>
         && after[k].pk == before[k].pk && after[k].name == before[k].name
         && Without(after[k].providers, pk) == Without(before[k].providers, pk)
  }

  ghost predicate InSome(outposts: map<Key, Outpost>, pk: Key) {
    exists k :: k in outposts && pk in outposts[k].providers
  }

  /** The Outposts right before entry k of a run that started with first at entry start. */
  ghost function OutpostsBefore(history: seq<Write>, start: nat, first: map<Key, Outpost>, k: nat): map<Key, Outpost>
    requires k <= |history|
  {
    if k <= start then first else history[k - 1].outposts
  }

  /**
   A run that moves a Provider: no request touches another Provider or a Binding, and once the Provider is in some
   Outpost, it is in one after every request.
   */
  ghost predicate Move(history: seq<Write>, start: nat, first: map<Key, Outpost>, now: map<Key, Outpost>,
                       bindings: map<Key, Binding>, pk: Key) {
    && start <= |history| && OutpostsBefore(history, start, first, |history|) == now && OthersKept(first, now, pk)
    && (forall k :: start <= k < |history| ==>
          && history[k].call.SetOutpostCall? && history[k].bindings == bindings && OthersKept(first, history[k].outposts, pk)
          && (InSome(OutpostsBefore(history, start, first, k), pk) ==> InSome(history[k].outposts, pk)))
  }

  lemma MoveStarts(history: seq<Write>, first: map<Key, Outpost>, bindings: map<Key, Binding>, pk: Key)
    ensures Move(history, |history|, first, first, bindings, pk)
  {}

  lemma MoveStep(history: seq<Write>, longer: seq<Write>, start: nat, first: map<Key, Outpost>, now: map<Key, Outpost>,
                 next: map<Key, Outpost>, bindings: map<Key, Binding>, pk: Key)
    requires Move(history, start, first, now, bindings, pk)
    requires |longer| == |history| + 1 && history <= longer
    requires longer[|history|].call.SetOutpostCall? && longer[|history|].bindings == bindings && longer[|history|].outposts == next
    requires OthersKept(now, next, pk) && (InSome(now, pk) ==> InSome(next, pk))
    ensures Move(longer, start, first, next, bindings, pk)
  {
    hide OthersKept, InSome, Without;
    OthersChain(first, now, next, pk);
    assert forall k :: 0 <= k < |history| ==> longer[k] == history[k];
    assert forall k :: 0 <= k <= |history| ==> OutpostsBefore(longer, start, first, k) == OutpostsBefore(history, start, first, k);
  }

  lemma OthersChain(a: map<Key, Outpost>, b: map<Key, Outpost>, c: map<Key, Outpost>, pk: Key)
    requires OthersKept(a, b, pk) && OthersKept(b, c, pk)
    ensures OthersKept(a, c, pk)
  {}

  /** A move that continues a move is one move. */
  lemma MovesChain(history: seq<Write>, longer: seq<Write>, start: nat, first: map<Key, Outpost>, middle: map<Key, Outpost>,
                   now: map<Key, Outpost>, bindings: map<Key, Binding>, pk: Key)
    requires history <= longer && Move(history, start, first, middle, bindings, pk)
    requires Move(longer, |history|, middle, now, bindings, pk)
    ensures Move(longer, start, first, now, bindings, pk)
  {
    hide OthersKept, InSome, Without;
    OthersChain(first, middle, now, pk);
    forall k | |history| <= k < |longer| ensures OthersKept(first, longer[k].outposts, pk) {
      OthersChain(first, middle, longer[k].outposts, pk);
    }
    assert forall k :: 0 <= k < |history| ==> longer[k] == history[k];
    assert forall k :: start <= k <= |history| ==>
           OutpostsBefore(longer, start, first, k) == OutpostsBefore(history, start, first, k);
    assert forall k :: |history| <= k <= |longer| ==>
           OutpostsBefore(longer, start, first, k) == OutpostsBefore(longer, |history|, middle, k);
  }

  lemma JoinKeepsOthers(outposts: map<Key, Outpost>, uuid: Key, pk: Key)
    requires uuid in outposts
    ensures var next := outposts[uuid := outposts[uuid].(providers := outposts[uuid].providers + [pk])];
            OthersKept(outposts, next, pk) && InSome(next, pk)
  {
    WithoutAppend(outposts[uuid].providers, [pk], pk);
    var next := outposts[uuid := outposts[uuid].(providers := outposts[uuid].providers + [pk])];
    assert Without([pk], pk) == [];
    assert pk in next[uuid].providers;
  }

  lemma LeaveKeepsOthers(outposts: map<Key, Outpost>, uuid: Key, pk: Key, stay: Key)
    requires uuid in outposts && stay in outposts && stay != uuid && pk in outposts[stay].providers
    ensures var next := outposts[uuid := outposts[uuid].(providers := Without(outposts[uuid].providers, pk))];
            OthersKept(outposts, next, pk) && InSome(next, pk)
  {
    var next := outposts[uuid := outposts[uuid].(providers := Without(outposts[uuid].providers, pk))];
    assert pk in next[stay].providers;
  }

  lemma OutpostFacts(outposts: map<Key, Outpost>, providers: set<Key>, k: Key)
    requires ValidOutposts(outposts, providers) && k in outposts
    ensures outposts[k].pk == k && Elements(outposts[k].providers) <= providers
  {}

  /** Writes back the providers of the Outpost without the Provider. */
  method RemoveProvider(server: Authentik, outpost: Outpost, pk: Key) returns (res: Result<()>)
    requires server.Valid() && outpost.pk in server.outposts && server.outposts[outpost.pk] == outpost
    modifies server`outposts, server`history
    ensures server.Valid()
    ensures res.Ok? ==> server.outposts == old(server.outposts)[outpost.pk := outpost.(providers := Without(outpost.providers, pk))]
    ensures res.Err? ==> res.error == Unavailable && server.outposts == old(server.outposts)
    ensures if pk !in outpost.providers then res.Ok? && server.history == old(server.history)
            && server.outposts == old(server.outposts)
            else server.history == old(server.history) + [Write(SetOutpostCall, VerdictOf(res), server.bindings, server.outposts)]
  {
    hide ValidBindings, ValidApplications, ValidLinks, ValidProviders, ValidOutposts, ValidRoles;
    OutpostFacts(server.outposts, server.Providers(), outpost.pk);
    if pk !in outpost.providers {
      assert server.outposts == server.outposts[outpost.pk := outpost];
      return Ok(());
    }
    var providers := Without(outpost.providers, pk);
    assert forall x :: x in providers ==> x in Elements(outpost.providers);
    var written := server.SetOutpostProviders(outpost.pk, providers);
    return if written.Ok? then Ok(()) else Err(written.error);
  }

  /** Leaves the Outpost with the UUID; one that no longer exists is skipped. */
  method LeaveByUuid(server: Authentik, uuid: Key, pk: Key) returns (res: Result<()>)
    requires server.Valid()
    modifies server`outposts, server`history
    ensures server.Valid()
    ensures res.Err? ==> res.error == Unavailable && server.outposts == old(server.outposts)
    ensures uuid !in old(server.outposts) || pk !in old(server.outposts)[uuid].providers ==>
              server.history == old(server.history) && server.outposts == old(server.outposts)
    ensures uuid in old(server.outposts) && res.Ok? ==>
              server.outposts
              == old(server.outposts)[uuid := old(server.outposts)[uuid].(
                    providers := Without(old(server.outposts)[uuid].providers, pk))]
    ensures server.history == old(server.history)
            || (exists v :: server.history == old(server.history) + [Write(SetOutpostCall, v, server.bindings, server.outposts)])
    ensures server.history == old(server.history) ==> server.outposts == old(server.outposts)
  {
    hide ValidBindings, ValidApplications, ValidLinks, ValidProviders, ValidOutposts, ValidRoles;
    var got := server.GetOutpost(uuid);
    if got.Err? {
      return if got.error == NotFound then Ok(()) else Err(got.error);
    }
    OutpostFacts(server.outposts, server.Providers(), uuid);
    res := RemoveProvider(server, got.value, pk);
  }

  /** Adds the Provider to the Outpost unless it is there. */
  method Join(server: Authentik, uuid: Key, pk: Key) returns (res: Result<()>)
    requires server.Valid() && pk in server.Providers()
    modifies server`outposts, server`history
    ensures server.Valid() && old(server.history) <= server.history
    ensures Move(server.history, old(|server.history|), old(server.outposts), server.outposts, server.bindings, pk)
    ensures server.outposts.Keys == old(server.outposts.Keys)
    ensures res.Ok? ==>
              && uuid in old(server.outposts) && uuid in server.outposts && pk in server.outposts[uuid].providers
              && server.outposts == old(server.outposts)[uuid := server.outposts[uuid]]
              && server.outposts[uuid].providers
                == old(server.outposts)[uuid].providers + if pk in old(server.outposts)[uuid].providers then [] else [pk]
    ensures res.Err? ==>
              && server.outposts == old(server.outposts)
              && (res.error == Unavailable || (res.error == NotFound && uuid !in server.outposts))
    ensures uuid in old(server.outposts) && pk in old(server.outposts)[uuid].providers ==> server.history == old(server.history)
  {
    hide ValidBindings, ValidApplications, ValidLinks, ValidProviders, ValidOutposts, ValidRoles, OthersKept, InSome, Move;
    MoveStarts(server.history, server.outposts, server.bindings, pk);
    var got := server.GetOutpost(uuid);
    if got.Err? {
      return Err(got.error);
    }
    OutpostFacts(server.outposts, server.Providers(), uuid);
    if pk in got.value.providers {
      assert server.outposts == server.outposts[uuid := server.outposts[uuid]];
      return Ok(());
    }
    JoinKeepsOthers(server.outposts, uuid, pk);
    SameOutposts(server.outposts, pk);
    var providers := got.value.providers + [pk];
    assert forall x :: x in providers ==> x == pk || x in Elements(got.value.providers);
    var joined := server.SetOutpostProviders(uuid, providers);
    MoveStep(old(server.history), server.history, old(|server.history|), old(server.outposts), old(server.outposts),
             server.outposts,
             server.bindings, pk);
    if joined.Err? {
      return Err(joined.error);
    }
    assert pk in server.outposts[uuid].providers;
    return Ok(());
  }

  /** Leaves the recorded Outpost while the Provider stays in the new one. */
  method Leave(server: Authentik, previous: Key, pk: Key, uuid: Key) returns (res: Result<()>)
    requires server.Valid() && uuid in server.outposts && pk in server.outposts[uuid].providers && previous != uuid
    modifies server`outposts, server`history
    ensures server.Valid() && old(server.history) <= server.history
    ensures Move(server.history, old(|server.history|), old(server.outposts), server.outposts, server.bindings, pk)
    ensures server.outposts.Keys == old(server.outposts.Keys)
    ensures res.Ok? && previous in server.outposts ==>
              pk !in server.outposts[previous].providers
                && server.outposts == old(server.outposts)[previous := server.outposts[previous]]
    ensures previous !in server.outposts || res.Err? ==> server.outposts == old(server.outposts)
    ensures res.Err? ==> res.error == Unavailable
  {
    hide ValidBindings, ValidApplications, ValidLinks, ValidProviders, ValidOutposts, ValidRoles, OthersKept, InSome, Move;
    MoveStarts(server.history, server.outposts, server.bindings, pk);
    SameOutposts(server.outposts, pk);
    if previous in server.outposts {
      LeaveKeepsOthers(server.outposts, previous, pk, uuid);
    }
    res := LeaveByUuid(server, previous, pk);
    if server.history != old(server.history) {
      MoveStep(old(server.history), server.history, old(|server.history|), old(server.outposts), old(server.outposts),
               server.outposts,
               server.bindings, pk);
    }
  }

  /** The Provider has joined the new Outpost and left the recorded one; Outposts never recorded are left alone. */
  ghost predicate Moved(before: map<Key, Outpost>, after: map<Key, Outpost>, recorded: Option<Key>, uuid: Key, pk: Key) {
    && uuid in after && pk in after[uuid].providers
    && (recorded.Some? && recorded.value != uuid && recorded.value in after ==> pk !in after[recorded.value].providers)
    && forall k :: k in before && k != uuid && recorded != Some(k) ==> k in after && after[k] == before[k]
  }

  /** The Provider joined no other Outpost. */
  ghost predicate JoinsOnly(uuid: Key, before: map<Key, Outpost>, after: map<Key, Outpost>, pk: Key) {
    forall u :: u in after && u != uuid && pk in after[u].providers ==> u in before && pk in before[u].providers
  }

  /** reconcileOutpost: the UUID is recorded last, so that a failed removal is retried with the recorded one still known. */
  method ReconcileOutpost(server: Authentik, s: Resource, uuid: Key, pk: Key) returns (res: Result<()>)
    requires server.Valid() && pk in server.Providers()
    modifies s`status, server`outposts, server`history
    ensures server.Valid() && old(server.history) <= server.history
    ensures Move(server.history, old(|server.history|), old(server.outposts), server.outposts, server.bindings, pk)
    ensures server.outposts.Keys == old(server.outposts.Keys)
    ensures JoinsOnly(uuid, old(server.outposts), server.outposts, pk)
    ensures forall k :: k in server.outposts && k != uuid && old(s.status).outpostUuid != Some(k) ==>
              server.outposts[k] == old(server.outposts)[k]
    ensures res.Ok? ==>
              && s.status == old(s.status).(outpostUuid := Some(uuid))
              && Moved(old(server.outposts), server.outposts, old(s.status).outpostUuid, uuid, pk)
    ensures res.Err? ==>
              && s.status == old(s.status)
              && (res.error == Unavailable || (res.error == NotFound && uuid !in server.outposts))
    ensures uuid in old(server.outposts) && pk in old(server.outposts)[uuid].providers
            && old(s.status).outpostUuid == Some(uuid) ==>
              server.history == old(server.history) && s.status == old(s.status)
  {
    hide ValidBindings, ValidApplications, ValidLinks, ValidProviders, ValidOutposts, ValidRoles, OthersKept, InSome, Move;
    var joined := Join(server, uuid, pk);
    if joined.Err? {
      return Err(joined.error);
    }
    var previous := s.status.outpostUuid;
    if previous.Some? && previous.value != uuid {
      ghost var history, outposts := server.history, server.outposts;
      var left := Leave(server, previous.value, pk, uuid);
      MovesChain(history, server.history, old(|server.history|), old(server.outposts), outposts, server.outposts, server.bindings,
                 pk);
      if left.Err? {
        return Err(left.error);
      }
    }
    s.status := s.status.(outpostUuid := Some(uuid));
    return Ok(());
  }

  lemma SameOutposts(outposts: map<Key, Outpost>, pk: Key)
    ensures OthersKept(outposts, outposts, pk)
  {}

  /**
   With a stable spec, attempts that fail or crash anywhere are one move, and an attempt that goes through ends with
   the Provider in the new Outpost and out of the recorded one.
   */
  method MoveUntilDone(server: Authentik, s: Resource, uuid: Key, pk: Key, attempts: nat) returns (res: Result<()>)
    requires server.Valid() && pk in server.Providers() && s.status == s.base
    modifies s`status, server`outposts, server`history
    ensures server.Valid()
    ensures Move(server.history, old(|server.history|), old(server.outposts), server.outposts, server.bindings, pk)
    ensures res.Ok? ==>
              && s.status.outpostUuid == Some(uuid) && uuid in server.outposts && pk in server.outposts[uuid].providers
              && var recorded := old(s.status).outpostUuid;
                 recorded.Some? && recorded.value != uuid && recorded.value in server.outposts ==>
                   pk !in server.outposts[recorded.value].providers
  {
    hide ValidBindings, ValidApplications, ValidLinks, ValidProviders, ValidOutposts, ValidRoles, OthersKept, InSome, Move;
    MoveStarts(server.history, server.outposts, server.bindings, pk);
    res := Err(Unavailable);
    for attempt := 0 to attempts
      invariant server.Valid() && s.status == old(s.status) && old(server.history) <= server.history
      invariant Move(server.history, old(|server.history|), old(server.outposts), server.outposts, server.bindings, pk)
      invariant res == Err(Unavailable)
    {
      ghost var history, outposts := server.history, server.outposts;
      var run := ReconcileOutpost(server, s, uuid, pk);
      MovesChain(history, server.history, old(|server.history|), old(server.outposts), outposts, server.outposts, server.bindings,
                 pk);
      if run.Ok? {
        return run;
      }
      s.Reload();
    }
  }
}
